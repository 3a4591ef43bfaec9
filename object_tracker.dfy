/**
 * ObjectTracker: the bookkeeping that lets the importer find, while it
 * rebuilds a flow, the live id of something it created earlier. There are
 * two indexes: template id -> live id, and (scope, name) -> a set of
 * (type, live id) pairs where pairs are equal when their live ids are
 * equal.
 */
module ObjectTracking {
  import opened Wrappers

  type NString = Option<string>

  /** One (scope, name) bucket: live id -> recorded type. A second add of an id keeps the first type. */
  type Bucket = map<string, NString>

  /** scope -> name -> bucket */
  type NamedIndex = map<NString, map<NString, Bucket>>

  /** The live ids of `bucket` recorded under the non-null type `t`. */
  function Matches(bucket: Bucket, t: string): (r: set<string>)
    ensures forall id :: id in r <==> id in bucket && bucket[id] == Some(t)
  {
    set id | id in bucket && bucket[id] == Some(t)
  }

  /** The only element of a singleton set. */
  function TheOnly(s: set<string>): (x: string)
    requires |s| == 1
    ensures s == {x}
  {
    var y :| y in s;
    assert s == {y} by {
      assert |s - {y}| == 0;
    }
    assert forall a, b :: a in s && b in s ==> a == b;
    var x :| x in s;
    x
  }

  /** The bucket stored for (g, n), or the empty bucket when there is none. */
  function BucketAt(named: NamedIndex, g: NString, n: NString): Bucket {
    if g in named && n in named[g] then named[g][n] else map[]
  }

  /**
   * What a named lookup (getIdForObject) answers: null when the scope or
   * the name is unknown or nothing of the type is there, the id when
   * exactly one thing is, IllegalStateException when several are, and
   * NullPointerException for a null type against a non-empty bucket. An
   * absent bucket and an empty one answer alike.
   */
  function Resolve(named: NamedIndex, g: NString, n: NString, t: NString): (r: Result<Option<string>>)
    ensures r.Ok? && r.value.Some? ==> t.Some? && Matches(BucketAt(named, g, n), t.value) == {r.value.value}
    ensures r == Ok(None) <==>
      (t.None? && BucketAt(named, g, n) == map[]) || (t.Some? && Matches(BucketAt(named, g, n), t.value) == {})
    ensures r == Err(IllegalState) <==> t.Some? && |Matches(BucketAt(named, g, n), t.value)| > 1
    ensures r == Err(NullPointer) <==> t.None? && BucketAt(named, g, n) != map[]
    ensures r.Err? ==> r.fault in {IllegalState, NullPointer}
  {
    var bucket := BucketAt(named, g, n);
    if t.None? then (if bucket == map[] then Ok(None) else Err(NullPointer))
    else
      var ms := Matches(bucket, t.value);
      if ms == {} then Ok(None)
      else if |ms| > 1 then Err(IllegalState)
      else Ok(Some(TheOnly(ms)))
  }

  /** The index after track(g, n, t, id): buckets are created on demand and an id already present keeps its type. */
  function TrackNamed(named: NamedIndex, g: NString, n: NString, t: NString, id: string): (r: NamedIndex)
    ensures g in r && n in r[g]
    ensures BucketAt(r, g, n) ==
      (if id in BucketAt(named, g, n) then BucketAt(named, g, n) else BucketAt(named, g, n)[id := t])
    ensures forall g', n' :: (g', n') != (g, n) ==> BucketAt(r, g', n') == BucketAt(named, g', n')
  {
    var byName := if g in named then named[g] else map[];
    var bucket := if n in byName then byName[n] else map[];
    var bucket' := if id in bucket then bucket else bucket[id := t];
    named[g := byName[n := bucket']]
  }

  class ObjectTracker {
    /** groupedNameMap */
    var named: NamedIndex
    /** idMapping: template id -> live id */
    var ids: map<NString, string>

    constructor ()
      ensures named == map[] && ids == map[]
    {
      named := map[];
      ids := map[];
    }

    /** lookupByOldId: the live id recorded for a template id, or null. */
    function LookupByOldId(oldId: NString): (r: NString)
      reads this
      ensures r.Some? <==> oldId in ids
      ensures r.Some? ==> r.value == ids[oldId]
    {
      Get(ids, oldId)
    }

    /** track(oldId, newId) */
    method TrackId(oldId: NString, newId: string)
      modifies this
      ensures ids == old(ids)[oldId := newId]
      ensures named == old(named)
      ensures LookupByOldId(oldId) == Some(newId)
    {
      ids := ids[oldId := newId];
    }

    /** track(groupId, name, type, id) */
    method Track(g: NString, n: NString, t: NString, id: string)
      modifies this
      ensures named == TrackNamed(old(named), g, n, t, id)
      ensures ids == old(ids)
    {
      var byName: map<NString, Bucket> := map[];
      if g in named {
        byName := named[g];
      }
      var bucket: Bucket := map[];
      if n in byName {
        bucket := byName[n];
      }
      if id !in bucket {
        bucket := bucket[id := t];
      }
      named := named[g := byName[n := bucket]];
    }

    /** getIdForObject: walks the bucket once, collecting the ids whose type equals `t`. */
    method GetIdForObject(g: NString, n: NString, t: NString) returns (r: Result<Option<string>>)
      ensures r == Resolve(named, g, n, t)
    {
      var bucket: Bucket := map[];
      if g in named && n in named[g] {
        bucket := named[g][n];
      }
      var rest := bucket.Keys;
      var matches: set<string> := {};
      while rest != {}
        invariant rest <= bucket.Keys
        invariant t.None? ==> rest == bucket.Keys
        invariant forall id :: id in matches <==> id in bucket && id !in rest && bucket[id] == t
        decreases |rest|
      {
        var id :| id in rest;
        if t.None? {
          return Err(NullPointer);
        }
        if bucket[id] == t {
          matches := matches + {id};
        }
        rest := rest - {id};
      }
      if t.None? {
        assert bucket.Keys == {};
        return Ok(None);
      }
      assert matches == Matches(bucket, t.value);
      if matches == {} {
        return Ok(None);
      }
      if |matches| > 1 {
        return Err(IllegalState);
      }
      var only :| only in matches;
      assert matches == {only} by {
        assert |matches - {only}| == 0;
      }
      return Ok(Some(only));
    }
  }

  // -----------------------------------------------------------------------
  // Properties of the named index

  /** Tracking something new under a (scope, name, type) with nothing else of that type makes it the answer. */
  lemma TrackThenResolve(named: NamedIndex, g: NString, n: NString, t: string, id: string)
    requires Matches(BucketAt(named, g, n), t) == {}
    requires id !in BucketAt(named, g, n)
    ensures Resolve(TrackNamed(named, g, n, Some(t), id), g, n, Some(t)) == Ok(Some(id))
  {
    var b := BucketAt(TrackNamed(named, g, n, Some(t), id), g, n);
    assert Matches(b, t) == {id};
  }

  /**
   * Tracking a new id under a non-null type adds it to exactly that type's
   * matches: the other types' matches in the bucket stay as they were.
   */
  lemma MatchesAfterTrack(named: NamedIndex, g: NString, n: NString, t: string, id: string, t': string)
    requires id !in BucketAt(named, g, n)
    ensures Matches(BucketAt(TrackNamed(named, g, n, Some(t), id), g, n), t) == Matches(BucketAt(named, g, n), t) + {id}
    ensures t' != t ==>
      Matches(BucketAt(TrackNamed(named, g, n, Some(t), id), g, n), t') == Matches(BucketAt(named, g, n), t')
  {
    var b := BucketAt(named, g, n);
    var b' := BucketAt(TrackNamed(named, g, n, Some(t), id), g, n);
    assert b' == b[id := Some(t)];
    assert Matches(b', t) == Matches(b, t) + {id};
  }

  /** Tracking never disturbs the answer for another (scope, name). */
  lemma TrackFrame(named: NamedIndex, g: NString, n: NString, t: NString, id: string,
                   g': NString, n': NString, t': NString)
    requires (g', n') != (g, n)
    ensures Resolve(TrackNamed(named, g, n, t, id), g', n', t') == Resolve(named, g', n', t')
  {
  }

  /** Two different live things tracked under one (scope, name, type) make that lookup fail loudly. */
  lemma TrackTwiceAmbiguous(named: NamedIndex, g: NString, n: NString, t: string, id1: string, id2: string)
    requires id1 != id2
    requires id1 !in BucketAt(named, g, n) && id2 !in BucketAt(named, g, n)
    ensures Resolve(TrackNamed(TrackNamed(named, g, n, Some(t), id1), g, n, Some(t), id2), g, n, Some(t))
            == Err(IllegalState)
  {
    var r1 := TrackNamed(named, g, n, Some(t), id1);
    var r2 := TrackNamed(r1, g, n, Some(t), id2);
    var b := BucketAt(r2, g, n);
    assert b[id1] == Some(t) && b[id2] == Some(t);
    assert {id1, id2} <= Matches(b, t);
    assert |{id1, id2}| == 2;
    assert Matches(b, t) == {id1, id2} + (Matches(b, t) - {id1, id2});
  }

  /** Re-tracking a live id is a no-op, whatever type it is offered with: equality is by id. */
  lemma TrackSameIdIdempotent(named: NamedIndex, g: NString, n: NString, t: NString, t': NString, id: string)
    ensures TrackNamed(TrackNamed(named, g, n, t, id), g, n, t', id) == TrackNamed(named, g, n, t, id)
  {
    var r1 := TrackNamed(named, g, n, t, id);
    assert id in r1[g][n];
    assert r1[g][n := r1[g][n]] == r1[g];
    assert r1[g := r1[g]] == r1;
  }
}
