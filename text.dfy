/**
 * The few pieces of java.lang.String behaviour the templatizer relies on:
 * decimal rendering of integers, ASCII case folding (equalsIgnoreCase),
 * `split("\\.")`, and the lexicographic order of `compareTo`.
 */
module Text {
  import opened Wrappers

  /** The decimal digit character for d. */
  function Digit(d: nat): (c: char)
    requires d < 10
    ensures '0' <= c <= '9'
  {
    "0123456789"[d]
  }

  /** Integer.toString / Long.toString of a non-negative number. */
  function NatToString(n: nat): (s: string)
    ensures |s| >= 1
    ensures n >= 10 ==> |s| >= 2
    ensures '0' <= s[0] <= '9'
    decreases n
  {
    if n < 10 then [Digit(n)] else NatToString(n / 10) + [Digit(n % 10)]
  }

  /** Distinct numbers have distinct decimal renderings. */
  lemma {:induction false} NatToStringInjective(a: nat, b: nat)
    requires NatToString(a) == NatToString(b)
    ensures a == b
    decreases a
  {
    if a < 10 && b < 10 {
      assert Digit(a) == NatToString(a)[0] == NatToString(b)[0] == Digit(b);
    } else if a >= 10 && b >= 10 {
      var sa, sb := NatToString(a), NatToString(b);
      assert sa[|sa| - 1] == Digit(a % 10) && sb[|sb| - 1] == Digit(b % 10);
      assert sa[..|sa| - 1] == NatToString(a / 10);
      assert sb[..|sb| - 1] == NatToString(b / 10);
      NatToStringInjective(a / 10, b / 10);
    }
  }

  /** Integer.toString of any integer: a minus sign before the digits of a negative one. */
  function IntToString(i: int): (s: string)
    ensures |s| >= 1
    ensures (i < 0) <==> s[0] == '-'
  {
    if i < 0 then "-" + NatToString(-i) else NatToString(i)
  }

  // ---------------------------------------------------------------------
  // Decimal parsing

  predicate IsDigit(c: char) {
    '0' <= c <= '9'
  }

  /** The value of a decimal digit character. */
  function DigitValue(c: char): (d: nat)
    requires IsDigit(c)
    ensures d < 10
  {
    c as int - '0' as int
  }

  /** The digit character of d has the value d. */
  lemma DigitValueOfDigit(d: nat)
    requires d < 10
    ensures DigitValue(Digit(d)) == d
  {
  }

  /** The number a non-empty run of ASCII digits denotes; anything else is rejected. */
  function ParseDigits(s: string): (r: Option<nat>)
    ensures r.Some? ==> s != [] && forall i :: 0 <= i < |s| ==> IsDigit(s[i])
    decreases |s|
  {
    if s == [] || !IsDigit(s[|s| - 1]) then None
    else if |s| == 1 then Some(DigitValue(s[0]))
    else match ParseDigits(s[..|s| - 1])
      case None => None
      case Some(v) => Some(v * 10 + DigitValue(s[|s| - 1]))
  }

  /** Reading back the rendering of a natural number gives the number. */
  lemma {:induction false} ParseDigitsOfNat(n: nat)
    ensures ParseDigits(NatToString(n)) == Some(n)
    decreases n
  {
    var s := NatToString(n);
    if n < 10 {
      DigitValueOfDigit(n);
    } else {
      assert s[..|s| - 1] == NatToString(n / 10);
      ParseDigitsOfNat(n / 10);
      DigitValueOfDigit(n % 10);
    }
  }

  /**
   * Integer.parseInt / Long.parseLong over ASCII digits, before the range
   * check: an optional sign, then at least one digit.
   */
  function ParseInteger(s: string): (r: Option<int>)
    ensures r.Some? ==> s != []
  {
    if s != [] && s[0] == '-' then
      match ParseDigits(s[1..])
      case Some(v) => Some(-(v as int))
      case None => None
    else if s != [] && s[0] == '+' then
      match ParseDigits(s[1..])
      case Some(v) => Some(v)
      case None => None
    else match ParseDigits(s)
      case Some(v) => Some(v)
      case None => None
  }

  /** parseInt inverts toString. */
  lemma ParseIntegerOfInt(i: int)
    ensures ParseInteger(IntToString(i)) == Some(i)
  {
    var s := IntToString(i);
    if i < 0 {
      assert s[1..] == NatToString(-i);
      ParseDigitsOfNat(-i);
    } else {
      ParseDigitsOfNat(i);
    }
  }

  // ---------------------------------------------------------------------
  // Case folding

  /** Character.toUpperCase restricted to ASCII letters. */
  function Upper(c: char): char {
    if 'a' <= c <= 'z' then (c as int - 32) as char else c
  }

  /** String.equalsIgnoreCase (ASCII folding): same length, equal after upper-casing. */
  predicate EqualsIgnoreCase(a: string, b: string) {
    |a| == |b| && forall i :: 0 <= i < |a| ==> Upper(a[i]) == Upper(b[i])
  }

  // ---------------------------------------------------------------------
  // String.split("\\.")

  /** All '.'-separated segments of s, empty ones included. */
  function Segments(s: string): (r: seq<string>)
    ensures |r| >= 1
  {
    if s == [] then [[]]
    else if s[0] == '.' then [[]] + Segments(s[1..])
    else
      var rest := Segments(s[1..]);
      [[s[0]] + rest[0]] + rest[1..]
  }

  /** Drops trailing empty strings, as split does with a zero limit. */
  function DropTrailingEmpty(xs: seq<string>): (r: seq<string>)
    ensures |r| <= |xs| && r == xs[..|r|]
    ensures r != [] ==> r[|r| - 1] != []
    ensures forall i :: |r| <= i < |xs| ==> xs[i] == []
  {
    if xs == [] then []
    else if xs[|xs| - 1] == [] then DropTrailingEmpty(xs[..|xs| - 1])
    else xs
  }

  /** `s.split("\\.")`: the whole string when there is no dot, otherwise the segments without trailing empties. */
  function SplitOnDot(s: string): seq<string> {
    if '.' !in s then [s] else DropTrailingEmpty(Segments(s))
  }

  lemma {:induction false} SegmentsNoDot(s: string)
    requires '.' !in s
    ensures Segments(s) == [s]
  {
    if s != [] {
      assert '.' !in s[1..];
      SegmentsNoDot(s[1..]);
      assert s == [s[0]] + s[1..];
    }
  }

  lemma {:induction false} SegmentsAppend(a: string, b: string)
    ensures Segments(a + ['.'] + b) == Segments(a) + Segments(b)
  {
    if a == [] {
      assert a + ['.'] + b == ['.'] + b;
      assert (['.'] + b)[1..] == b;
    } else {
      var s := a + ['.'] + b;
      assert s[0] == a[0] && s[1..] == a[1..] + ['.'] + b;
      SegmentsAppend(a[1..], b);
      var sa := Segments(a[1..]);
      if a[0] != '.' {
        var rest := Segments(s[1..]);
        assert rest == sa + Segments(b);
        assert rest[0] == sa[0] && rest[1..] == sa[1..] + Segments(b);
      }
    }
  }

  /** Every segment is empty exactly when the string is made of dots only. */
  lemma {:induction false} SegmentsAllEmpty(s: string)
    ensures (forall i :: 0 <= i < |Segments(s)| ==> Segments(s)[i] == [])
            <==> (forall j :: 0 <= j < |s| ==> s[j] == '.')
  {
    if s != [] {
      SegmentsAllEmpty(s[1..]);
      if s[0] == '.' {
        var r, r' := Segments(s), Segments(s[1..]);
        assert r == [[]] + r';
        var allR := forall i :: 0 <= i < |r| ==> r[i] == [];
        var allR' := forall i :: 0 <= i < |r'| ==> r'[i] == [];
        assert allR <==> allR' by {
          if allR {
            forall i | 0 <= i < |r'| ensures r'[i] == [] {
              assert r'[i] == r[i + 1];
            }
          }
          if allR' {
            forall i | 0 <= i < |r| ensures r[i] == [] {
              if i > 0 { assert r[i] == r'[i - 1]; }
            }
          }
        }
        var allS := forall j :: 0 <= j < |s| ==> s[j] == '.';
        var allS' := forall j :: 0 <= j < |s[1..]| ==> s[1..][j] == '.';
        assert allS <==> allS' by {
          if allS' {
            forall j | 0 <= j < |s| ensures s[j] == '.' {
              if j > 0 { assert s[j] == s[1..][j - 1]; }
            }
          }
        }
      } else {
        assert Segments(s)[0] != [];
      }
    }
  }

  lemma {:induction false} DropTrailingEmptyNil(xs: seq<string>)
    ensures DropTrailingEmpty(xs) == [] <==> (forall i :: 0 <= i < |xs| ==> xs[i] == [])
  {
    if xs != [] && xs[|xs| - 1] == [] {
      DropTrailingEmptyNil(xs[..|xs| - 1]);
    }
  }

  /** The last element of `s.split("\\.")`, or the index error Java raises on an empty split. */
  function LastSegment(s: string): (r: Option<string>)
  {
    var parts := SplitOnDot(s);
    if |parts| == 0 then None else Some(parts[|parts| - 1])
  }

  /** A dotted name yields its final segment: "org.example.Foo" gives "Foo". */
  lemma LastSegmentOfQualified(prefix: string, cls: string)
    requires '.' !in cls && cls != []
    ensures LastSegment(prefix + ['.'] + cls) == Some(cls)
  {
    SegmentsAppend(prefix, cls);
    SegmentsNoDot(cls);
    assert '.' in prefix + ['.'] + cls by {
      assert (prefix + ['.'] + cls)[|prefix|] == '.';
    }
  }

  /** A name without dots is its own last segment, even the empty name. */
  lemma LastSegmentOfSimple(cls: string)
    requires '.' !in cls
    ensures LastSegment(cls) == Some(cls)
  {
  }

  /** A non-empty string made of dots only. */
  predicate OnlyDots(s: string) {
    s != [] && forall j :: 0 <= j < |s| ==> s[j] == '.'
  }

  /** The split is empty (and Java throws) exactly for a non-empty string of dots. */
  lemma LastSegmentFails(s: string)
    ensures LastSegment(s).None? <==> OnlyDots(s)
  {
    if '.' in s {
      DropTrailingEmptyNil(Segments(s));
      SegmentsAllEmpty(s);
      assert SplitOnDot(s) == DropTrailingEmpty(Segments(s));
      assert LastSegment(s).None? <==> SplitOnDot(s) == [];
    } else if s != [] {
      assert s[0] != '.';
    }
  }

  // ---------------------------------------------------------------------
  // String.compareTo order and sorted enumeration

  /** a sorts strictly before b under String.compareTo. */
  predicate Below(a: string, b: string)
    decreases |a|
  {
    if a == [] then b != []
    else if b == [] then false
    else if a[0] == b[0] then Below(a[1..], b[1..])
    else a[0] < b[0]
  }

  lemma {:induction false} BelowIrreflexive(a: string)
    ensures !Below(a, a)
    decreases |a|
  {
    if a != [] {
      BelowIrreflexive(a[1..]);
    }
  }

  lemma {:induction false} BelowTransitive(a: string, b: string, c: string)
    requires Below(a, b) && Below(b, c)
    ensures Below(a, c)
    decreases |a|
  {
    if a != [] && b != [] && c != [] && a[0] == b[0] && b[0] == c[0] {
      BelowTransitive(a[1..], b[1..], c[1..]);
    }
  }

  lemma {:induction false} BelowTotal(a: string, b: string)
    requires a != b
    ensures Below(a, b) != Below(b, a)
    decreases |a|
  {
    if a != [] && b != [] && a[0] == b[0] {
      assert a == [a[0]] + a[1..] && b == [b[0]] + b[1..];
      BelowTotal(a[1..], b[1..]);
    }
  }

  /** Strictly ascending under String.compareTo. */
  predicate StrictlySorted(xs: seq<string>) {
    forall i, j :: 0 <= i < j < |xs| ==> Below(xs[i], xs[j])
  }

  predicate IsLeast(m: string, s: set<string>) {
    m in s && forall x :: x in s && x != m ==> Below(m, x)
  }

  lemma {:induction false} LeastExists(s: set<string>)
    requires s != {}
    ensures exists m :: IsLeast(m, s)
    decreases |s|
  {
    var x :| x in s;
    if s == {x} {
      assert IsLeast(x, s);
    } else {
      LeastExists(s - {x});
      var m :| IsLeast(m, s - {x});
      if Below(m, x) {
        assert IsLeast(m, s);
      } else {
        BelowTotal(m, x);
        forall y | y in s && y != x
          ensures Below(x, y)
        {
          if y != m {
            BelowTransitive(x, m, y);
          }
        }
        assert IsLeast(x, s);
      }
    }
  }

  lemma LeastUnique(m: string, m': string, s: set<string>)
    requires IsLeast(m, s) && IsLeast(m', s)
    ensures m == m'
  {
    if m != m' {
      BelowTotal(m, m');
    }
  }

  /** The elements of s in ascending compareTo order (the iteration order of a TreeMap key set). */
  function SortedElements(s: set<string>): (r: seq<string>)
    ensures |r| == |s|
    ensures forall x :: x in r <==> x in s
    ensures StrictlySorted(r)
    decreases |s|
  {
    if s == {} then []
    else
      LeastExists(s);
      assert forall m, m' :: IsLeast(m, s) && IsLeast(m', s) ==> m == m' by {
        forall m, m' | IsLeast(m, s) && IsLeast(m', s) {
          LeastUnique(m, m', s);
        }
      }
      var m :| IsLeast(m, s);
      var rest := SortedElements(s - {m});
      [m] + rest
  }

}
