/**
 * A string-keyed TreeMap as the list of its entries in ascending key order
 * (String.compareTo, modelled by Text.Below). Iterating a TreeMap visits
 * exactly this list; put either replaces the value of an existing key in
 * place or inserts a new entry at its ordered position.
 */
module TreeMaps {
  import opened Wrappers
  import opened Text

  type Entries = seq<(string, string)>

  /** The keys strictly ascend, so no key occurs twice. */
  predicate Ascending(es: Entries) {
    forall i, j :: 0 <= i < j < |es| ==> Below(es[i].0, es[j].0)
  }

  /** The keys of the entries. */
  function Keys(es: Entries): set<string> {
    set i | 0 <= i < |es| :: es[i].0
  }

  /** get: the value of the first entry with the key. */
  function Lookup(es: Entries, k: string): Option<string> {
    if es == [] then None
    else if es[0].0 == k then Some(es[0].1)
    else Lookup(es[1..], k)
  }

  /** put: replace the value of an equal key, or insert before the first greater key. */
  function Put(es: Entries, k: string, v: string): (r: Entries)
    ensures |r| == |es| || |r| == |es| + 1
  {
    if es == [] then [(k, v)]
    else if es[0].0 == k then [(k, v)] + es[1..]
    else if Below(k, es[0].0) then [(k, v)] + es
    else [es[0]] + Put(es[1..], k, v)
  }

  /** After put, the key finds the new value and every other key what it found before. */
  lemma {:induction false} PutLookup(es: Entries, k: string, v: string, x: string)
    ensures Lookup(Put(es, k, v), x) == if x == k then Some(v) else Lookup(es, x)
  {
    if es != [] && es[0].0 != k && !Below(k, es[0].0) {
      PutLookup(es[1..], k, v, x);
      assert Put(es, k, v)[1..] == Put(es[1..], k, v);
    }
  }

  /** The keys of an entry put in front. */
  lemma KeysCons(e: (string, string), es: Entries)
    ensures Keys([e] + es) == {e.0} + Keys(es)
  {
    var r := [e] + es;
    forall x | x in Keys(r) ensures x in {e.0} + Keys(es) {
      var i :| 0 <= i < |r| && r[i].0 == x;
      if i > 0 {
        assert es[i - 1].0 == x;
      }
    }
    forall x | x in Keys(es) ensures x in Keys(r) {
      var i :| 0 <= i < |es| && es[i].0 == x;
      assert r[i + 1].0 == x;
    }
    assert r[0].0 == e.0;
  }

  /** put adds its key to the key set and no other. */
  lemma {:induction false} PutKeys(es: Entries, k: string, v: string)
    ensures Keys(Put(es, k, v)) == Keys(es) + {k}
  {
    if es != [] {
      var rest := es[1..];
      assert es == [es[0]] + rest;
      KeysCons(es[0], rest);
      if es[0].0 == k {
        assert Put(es, k, v) == [(k, v)] + rest;
        KeysCons((k, v), rest);
      } else if Below(k, es[0].0) {
        assert Put(es, k, v) == [(k, v)] + es;
        KeysCons((k, v), es);
      } else {
        assert Put(es, k, v) == [es[0]] + Put(rest, k, v);
        PutKeys(rest, k, v);
        KeysCons(es[0], Put(rest, k, v));
      }
    } else {
      KeysCons((k, v), []);
      assert [(k, v)] + [] == Put(es, k, v);
    }
  }

  /** An entry below every key of an ascending list extends it at the front. */
  lemma ConsAscending(e: (string, string), es: Entries)
    requires Ascending(es)
    requires forall j :: 0 <= j < |es| ==> Below(e.0, es[j].0)
    ensures Ascending([e] + es)
  {
  }

  /** put keeps the keys ascending. */
  lemma {:induction false} PutAscending(es: Entries, k: string, v: string)
    requires Ascending(es)
    ensures Ascending(Put(es, k, v))
  {
    if es != [] {
      var rest := es[1..];
      if es[0].0 == k {
        ConsAscending((k, v), rest);
      } else if Below(k, es[0].0) {
        forall j | 0 <= j < |es| ensures Below(k, es[j].0) {
          if j > 0 {
            BelowTransitive(k, es[0].0, es[j].0);
          }
        }
        ConsAscending((k, v), es);
      } else {
        BelowTotal(k, es[0].0);
        PutAscending(rest, k, v);
        PutKeys(rest, k, v);
        var tail := Put(rest, k, v);
        forall j | 0 <= j < |tail| ensures Below(es[0].0, tail[j].0) {
          assert tail[j].0 in Keys(tail);
          if tail[j].0 != k {
            var i :| 0 <= i < |rest| && rest[i].0 == tail[j].0;
            assert es[i + 1] == rest[i];
          }
        }
        ConsAscending(es[0], tail);
      }
    }
  }

  /** A key above every present key is appended at the end. */
  lemma {:induction false} PutAppends(es: Entries, k: string, v: string)
    requires forall i :: 0 <= i < |es| ==> Below(es[i].0, k)
    ensures Put(es, k, v) == es + [(k, v)]
  {
    if es != [] {
      BelowIrreflexive(k);
      BelowTotal(es[0].0, k);
      PutAppends(es[1..], k, v);
      assert es == [es[0]] + es[1..];
    }
  }
}
