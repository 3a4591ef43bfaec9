/**
 * Stand-ins for the identifiers the program obtains from outside: random
 * UUIDs and the ids the server assigns to created components. Each source
 * hands out `prefix-k` for a counter k, which is all the model needs:
 * every id handed out is different from every other.
 */
module FreshIds {
  import opened Text

  /** The k-th id of a source with the given prefix. */
  function Fresh(prefix: string, k: nat): string {
    prefix + "-" + NatToString(k)
  }

  /** Ids of one source differ whenever their counters differ. */
  lemma FreshInjective(prefix: string, i: nat, j: nat)
    requires Fresh(prefix, i) == Fresh(prefix, j)
    ensures i == j
  {
    var p := prefix + "-";
    assert Fresh(prefix, i) == p + NatToString(i) && Fresh(prefix, j) == p + NatToString(j);
    assert NatToString(i) == Fresh(prefix, i)[|p|..];
    assert NatToString(j) == Fresh(prefix, j)[|p|..];
    NatToStringInjective(i, j);
  }

  /** The ids a source issues from counter `from` on, `n` of them, in order. */
  function Run(prefix: string, from: nat, n: nat): (r: seq<string>)
    ensures |r| == n
    decreases n
  {
    if n == 0 then [] else [Fresh(prefix, from)] + Run(prefix, from + 1, n - 1)
  }

  /** The i-th id of a run is the source's id for counter from + i. */
  lemma {:induction false} RunAt(prefix: string, from: nat, n: nat, i: nat)
    requires i < n
    ensures Run(prefix, from, n)[i] == Fresh(prefix, from + i)
    decreases i
  {
    if i > 0 {
      RunAt(prefix, from + 1, n - 1, i - 1);
    }
  }

  /** A run one longer is the run followed by the next id. */
  lemma {:induction false} RunSnoc(prefix: string, from: nat, n: nat)
    ensures Run(prefix, from, n + 1) == Run(prefix, from, n) + [Fresh(prefix, from + n)]
    decreases n
  {
    if n > 0 {
      RunSnoc(prefix, from + 1, n - 1);
    }
  }

  /** Two consecutive runs make one run. */
  lemma {:induction false} RunAppend(prefix: string, from: nat, a: nat, b: nat)
    ensures Run(prefix, from, a) + Run(prefix, from + a, b) == Run(prefix, from, a + b)
    decreases a
  {
    if a > 0 {
      RunAppend(prefix, from + 1, a - 1, b);
      assert Run(prefix, from, a) + Run(prefix, from + a, b)
          == [Fresh(prefix, from)] + (Run(prefix, from + 1, a - 1) + Run(prefix, from + 1 + (a - 1), b));
    }
  }

  /** A stretch of a run is itself a run. */
  lemma RunSlice(prefix: string, from: nat, n: nat, i: nat, j: nat)
    requires i <= j <= n
    ensures Run(prefix, from, n)[i..j] == Run(prefix, from + i, j - i)
  {
    forall t | 0 <= t < j - i
      ensures Run(prefix, from, n)[i..j][t] == Run(prefix, from + i, j - i)[t]
    {
      RunAt(prefix, from, n, i + t);
      RunAt(prefix, from + i, j - i, t);
    }
  }

  /** A run without its first i ids is the run from counter from + i. */
  lemma RunDrop(prefix: string, from: nat, n: nat, i: nat)
    requires i <= n
    ensures Run(prefix, from, n)[i..] == Run(prefix, from + i, n - i)
  {
    RunSlice(prefix, from, n, i, n);
  }

  /** A run cut in two: its first a ids, and the run that follows them. */
  lemma RunSplit(prefix: string, from: nat, a: nat, b: nat)
    ensures Run(prefix, from, a + b)[..a] == Run(prefix, from, a)
    ensures Run(prefix, from, a + b)[a..] == Run(prefix, from + a, b)
  {
    RunAppend(prefix, from, a, b);
    assert (Run(prefix, from, a) + Run(prefix, from + a, b))[..a] == Run(prefix, from, a);
    assert (Run(prefix, from, a) + Run(prefix, from + a, b))[a..] == Run(prefix, from + a, b);
  }

  /** A run of a source never repeats an id. */
  lemma RunDistinct(prefix: string, from: nat, n: nat)
    ensures forall i, j :: 0 <= i < j < n ==> Run(prefix, from, n)[i] != Run(prefix, from, n)[j]
  {
    forall i, j | 0 <= i < j < n ensures Run(prefix, from, n)[i] != Run(prefix, from, n)[j] {
      RunAt(prefix, from, n, i);
      RunAt(prefix, from, n, j);
      if Run(prefix, from, n)[i] == Run(prefix, from, n)[j] {
        FreshInjective(prefix, from + i, from + j);
      }
    }
  }

  /** UUID.randomUUID: a source of ids that never repeat. */
  class UuidSource {
    var next: nat

    constructor ()
      ensures next == 0
    {
      next := 0;
    }

    method NewId() returns (id: string)
      modifies this
      ensures id == Fresh("uuid", old(next)) && next == old(next) + 1
    {
      id := Fresh("uuid", next);
      next := next + 1;
    }
  }
}
