/**
 * DependencyBuilder: gives every (type, bundle) pair met during capture a
 * short canonical name -- the simple class name, or `Class#1`, `Class#2`,
 * ... when that name is already bound to a different pair -- and renders
 * the bindings as the nested group/artifact/version vocabulary of a
 * template.
 */
module DependencyBuilding {
  import opened Wrappers
  import opened Text
  import opened Records

  /** The i-th name tried for a class: the class itself, then `cls#1`, `cls#2`, ... */
  function Candidate(cls: string, i: nat): string {
    if i == 0 then cls else cls + "#" + NatToString(i)
  }

  /** The candidates of one class are pairwise distinct. */
  lemma CandidateInjective(cls: string, i: nat, j: nat)
    requires Candidate(cls, i) == Candidate(cls, j)
    ensures i == j
  {
    if i != 0 && j != 0 {
      var p := cls + "#";
      assert Candidate(cls, i) == p + NatToString(i) && Candidate(cls, j) == p + NatToString(j);
      assert NatToString(i) == Candidate(cls, i)[|p|..];
      assert NatToString(j) == Candidate(cls, j)[|p|..];
      NatToStringInjective(i, j);
    }
  }

  /** The simple class name a type is filed under (the empty name for a type the split rejects). */
  ghost function ClassOf(t: string): string {
    match LastSegment(t)
    case Some(c) => c
    case None => ""
  }

  /**
   * Trigger terms for the builder's invariant: its quantifiers are used
   * only where a proof names a binding (Slot) or a binding and one of its
   * earlier candidates (SlotBefore), which keeps them out of the way of
   * the methods that merely carry the invariant along.
   */
  ghost predicate Slot(n: string) { true }

  ghost predicate SlotBefore(n: string, j: nat) { true }

  /** No two names carry the same (type, bundle) pair. */
  ghost predicate Injective(bundles: map<string, Bundle>, types: map<string, string>)
    requires bundles.Keys == types.Keys
  {
    forall n1, n2 {:trigger Slot(n1), Slot(n2)} :: Slot(n1) && Slot(n2) && n1 in bundles && n2 in bundles && n1 != n2 ==>
      types[n1] != types[n2] || bundles[n1] != bundles[n2]
  }

  /**
   * Every bound name is the rank-th candidate of its type's class, and all
   * earlier candidates of that class are bound too (so a later walk over
   * the candidates meets the name before any free slot).
   */
  ghost predicate Canonical(bundles: map<string, Bundle>, types: map<string, string>, rank: map<string, nat>)
  {
    bundles.Keys == types.Keys == rank.Keys
    && (forall n {:trigger Slot(n)} :: Slot(n) && n in types ==> n == Candidate(ClassOf(types[n]), rank[n]))
    && (forall n, j {:trigger SlotBefore(n, j)} ::
          SlotBefore(n, j) && n in rank && j < rank[n] ==> Candidate(ClassOf(types[n]), j) in bundles)
  }

  /**
   * The name `processDependency` settles on for (t, b) given the bindings:
   * the k-th candidate of class `cls` where every earlier candidate is
   * bound to a different pair and the k-th is free or bound to (t, b).
   */
  ghost predicate IsChoice(bundles: map<string, Bundle>, types: map<string, string>,
                           cls: string, t: string, b: Bundle, k: nat)
    requires bundles.Keys == types.Keys
  {
    (forall j :: 0 <= j < k ==>
      Candidate(cls, j) in bundles && (types[Candidate(cls, j)] != t || bundles[Candidate(cls, j)] != b))
    && (Candidate(cls, k) in bundles ==> types[Candidate(cls, k)] == t && bundles[Candidate(cls, k)] == b)
  }

  /** At most one position qualifies as the choice. */
  lemma ChoiceUnique(bundles: map<string, Bundle>, types: map<string, string>,
                     cls: string, t: string, b: Bundle, k1: nat, k2: nat)
    requires bundles.Keys == types.Keys
    requires IsChoice(bundles, types, cls, t, b, k1) && IsChoice(bundles, types, cls, t, b, k2)
    ensures k1 == k2
  {
  }

  /** A sequence without repeats whose elements all lie in `s` is no longer than `s`. */
  lemma {:induction false} DistinctWithin(xs: seq<string>, s: set<string>)
    requires forall a, b :: 0 <= a < b < |xs| ==> xs[a] != xs[b]
    requires forall a :: 0 <= a < |xs| ==> xs[a] in s
    ensures |xs| <= |s|
  {
    if xs != [] {
      var rest := xs[1..];
      forall a | 0 <= a < |rest| ensures rest[a] in s - {xs[0]} {
        assert rest[a] == xs[a + 1];
      }
      DistinctWithin(rest, s - {xs[0]});
    }
  }

  /** When the first k candidates of a class are all bound, there are at least k bindings. */
  lemma CandidatesBound(keys: set<string>, cls: string, k: nat)
    requires forall j :: 0 <= j < k ==> Candidate(cls, j) in keys
    ensures k <= |keys|
  {
    var xs := seq(k, j requires 0 <= j < k => Candidate(cls, j));
    forall a, b | 0 <= a < b < |xs| ensures xs[a] != xs[b] {
      if xs[a] == xs[b] {
        CandidateInjective(cls, a, b);
      }
    }
    DistinctWithin(xs, keys);
  }

  /**
   * The suffix loop of processDependency: tries `cls`, `cls#1`, `cls#2`, ...
   * while the name is bound, stopping early at a name bound to exactly
   * (t, b). It takes at most one step per bound name.
   */
  method WalkCandidates(bs: map<string, Bundle>, ts: map<string, string>, cls: string, t: string, b: Bundle)
    returns (name: string, ghost k: nat)
    requires bs.Keys == ts.Keys
    ensures name == Candidate(cls, k) && k <= |bs|
    ensures IsChoice(bs, ts, cls, t, b, k)
  {
    name := cls;
    var i: nat := 1;
    while name in bs
      invariant 1 <= i <= |bs| + 1 && name == Candidate(cls, i - 1)
      invariant forall j :: 0 <= j < i - 1 ==>
        Candidate(cls, j) in bs && (ts[Candidate(cls, j)] != t || bs[Candidate(cls, j)] != b)
      decreases |bs| + 1 - i
    {
      if ts[name] == t && bs[name] == b {
        break;
      }
      CandidatesBound(bs.Keys, cls, i);
      name := cls + "#" + NatToString(i);
      assert name == Candidate(cls, i);
      i := i + 1;
    }
    k := i - 1;
    if name !in bs {
      CandidatesBound(bs.Keys, cls, k);
    }
  }

  /** The innermost map of the vocabulary under a bundle's group/artifact/version, or the empty map. */
  function Entry(voc: Vocabulary, b: Bundle): map<string, string> {
    if b.group in voc && b.artifact in voc[b.group] && b.version in voc[b.group][b.artifact]
    then voc[b.group][b.artifact][b.version] else map[]
  }

  /** Placing one binding in the nested vocabulary, creating the intermediate levels on demand. */
  function Place(voc: Vocabulary, n: string, b: Bundle, t: string): (r: Vocabulary)
    ensures Entry(r, b) == Entry(voc, b)[n := t]
    ensures forall b' :: b' != b ==> Entry(r, b') == Entry(voc, b')
  {
    var group := if b.group in voc then voc[b.group] else map[];
    var artifact := if b.artifact in group then group[b.artifact] else map[];
    var version := if b.version in artifact then artifact[b.version] else map[];
    voc[b.group := group[b.artifact := artifact[b.version := version[n := t]]]]
  }

  /** Name n sits under its bundle's group/artifact/version, mapped to type t. */
  predicate Placed(voc: Vocabulary, n: string, b: Bundle, t: string) {
    n in Entry(voc, b) && Entry(voc, b)[n] == t
  }

  /** The vocabulary holds exactly the bindings outside `rest`, each under its own bundle. */
  ghost predicate PlacedAllBut(bundles: map<string, Bundle>, types: map<string, string>, rest: set<string>, voc: Vocabulary)
    requires bundles.Keys == types.Keys
  {
    (forall n :: n in bundles && n !in rest ==> Placed(voc, n, bundles[n], types[n]))
    && (forall b, n :: n in Entry(voc, b) ==> n in bundles && n !in rest && bundles[n] == b && types[n] == Entry(voc, b)[n])
  }

  /** Placing one more name moves it from `rest` into the vocabulary. */
  lemma PlaceStep(bundles: map<string, Bundle>, types: map<string, string>, rest: set<string>, voc: Vocabulary, n: string)
    requires bundles.Keys == types.Keys && n in rest && rest <= bundles.Keys
    requires PlacedAllBut(bundles, types, rest, voc)
    ensures PlacedAllBut(bundles, types, rest - {n}, Place(voc, n, bundles[n], types[n]))
  {
    var voc' := Place(voc, n, bundles[n], types[n]);
    forall m | m in bundles && m !in rest - {n}
      ensures Placed(voc', m, bundles[m], types[m])
    {
      if m != n && bundles[m] == bundles[n] {
        assert Entry(voc', bundles[m]) == Entry(voc, bundles[m])[n := types[n]];
      }
    }
  }

  /**
   * The loop of build over the names: every binding lands under its own
   * bundle, and nothing else is placed.
   */
  method BuildVocabulary(bundles: map<string, Bundle>, types: map<string, string>) returns (voc: Vocabulary)
    requires bundles.Keys == types.Keys
    ensures forall n :: n in bundles ==> Placed(voc, n, bundles[n], types[n])
    ensures forall b, n :: n in Entry(voc, b) ==> n in bundles && bundles[n] == b && types[n] == Entry(voc, b)[n]
  {
    voc := map[];
    var rest := bundles.Keys;
    while rest != {}
      invariant rest <= bundles.Keys
      invariant PlacedAllBut(bundles, types, rest, voc)
      decreases |rest|
    {
      var n :| n in rest;
      PlaceStep(bundles, types, rest, voc, n);
      voc := Place(voc, n, bundles[n], types[n]);
      rest := rest - {n};
    }
  }

  /**
   * What a run of addDependency calls leaves recorded: component id ->
   * (type, bundle) of the last entity with that id.
   */
  function Recorded(es: seq<(string, string, Bundle)>): (m: map<string, (string, Bundle)>)
    ensures m.Keys == set i | 0 <= i < |es| :: es[i].0
  {
    if es == [] then map[]
    else
      var k := |es| - 1;
      Recorded(es[..k])[es[k].0 := (es[k].1, es[k].2)]
  }

  /** The ids recorded by a prefix are recorded by the longer prefix too. */
  lemma RecordedGrows(es: seq<(string, string, Bundle)>, i: nat, n: nat)
    requires i <= n <= |es|
    ensures Recorded(es[..i]).Keys <= Recorded(es[..n]).Keys
  {
    forall id | id in Recorded(es[..i]) ensures id in Recorded(es[..n]) {
      var j :| 0 <= j < i && es[..i][j].0 == id;
      assert es[..n][j].0 == id;
    }
  }

  /** The entry recorded for an id comes from the last entity listed with that id. */
  lemma {:induction false} RecordedLast(es: seq<(string, string, Bundle)>, i: nat)
    requires i < |es|
    requires forall j :: i < j < |es| ==> es[j].0 != es[i].0
    ensures es[i].0 in Recorded(es) && Recorded(es)[es[i].0] == (es[i].1, es[i].2)
  {
    var k := |es| - 1;
    if i < k {
      assert es[..k][i] == es[i];
      RecordedLast(es[..k], i);
    }
  }

  /** (id, type, bundle) of each processor, in list order. */
  function ProcessorKeys(ps: seq<ProcessorEntity>): (r: seq<(string, string, Bundle)>)
    ensures |r| == |ps| && forall i :: 0 <= i < |ps| ==> r[i] == (ps[i].id, ps[i].typeName, ps[i].bundle)
  {
    seq(|ps|, i requires 0 <= i < |ps| => (ps[i].id, ps[i].typeName, ps[i].bundle))
  }

  /** (id, type, bundle) of each controller service, in list order. */
  function ControllerKeys(cs: seq<ControllerServiceEntity>): (r: seq<(string, string, Bundle)>)
    ensures |r| == |cs| && forall i :: 0 <= i < |cs| ==> r[i] == (cs[i].id, cs[i].typeName, cs[i].bundle)
  {
    seq(|cs|, i requires 0 <= i < |cs| => (cs[i].id, cs[i].typeName, cs[i].bundle))
  }

  /** Every recorded id names a binding of exactly its (type, bundle). */
  ghost predicate Remembers(idToName: map<string, string>, bundles: map<string, Bundle>, types: map<string, string>,
                          m: map<string, (string, Bundle)>)
  {
    forall id :: id in m ==>
      id in idToName && idToName[id] in bundles && idToName[id] in types
      && types[idToName[id]] == m[id].0 && bundles[idToName[id]] == m[id].1
  }

  /** Every id outside m keeps its recorded name. */
  ghost predicate Untouched(before: map<string, string>, after: map<string, string>, m: map<string, (string, Bundle)>) {
    forall id :: id in before && id !in m ==> id in after && after[id] == before[id]
  }

  lemma UntouchedStep(before: map<string, string>, now: map<string, string>, m: map<string, (string, Bundle)>,
                      id: string, name: string, v: (string, Bundle))
    requires Untouched(before, now, m)
    ensures Untouched(before, now[id := name], m[id := v])
  {
  }

  lemma UntouchedWider(before: map<string, string>, after: map<string, string>, m: map<string, (string, Bundle)>,
                       m': map<string, (string, Bundle)>)
    requires Untouched(before, after, m) && m.Keys <= m'.Keys
    ensures Untouched(before, after, m')
  {
  }

  /** The old bindings survive unchanged in the new maps. */
  ghost predicate Grows(b0: map<string, Bundle>, t0: map<string, string>, b1: map<string, Bundle>, t1: map<string, string>) {
    forall n :: n in b0 && n in t0 ==> n in b1 && n in t1 && b1[n] == b0[n] && t1[n] == t0[n]
  }

  lemma GrowsTrans(b0: map<string, Bundle>, t0: map<string, string>, b1: map<string, Bundle>, t1: map<string, string>,
                   b2: map<string, Bundle>, t2: map<string, string>)
    requires Grows(b0, t0, b1, t1) && Grows(b1, t1, b2, t2)
    ensures Grows(b0, t0, b2, t2)
  {
  }

  /** One more addDependency keeps the record of all earlier ones and adds its own. */
  lemma RemembersStep(idToName: map<string, string>, bundles: map<string, Bundle>, types: map<string, string>,
                    idToName': map<string, string>, bundles': map<string, Bundle>, types': map<string, string>,
                    m: map<string, (string, Bundle)>, id: string, name: string, t: string, b: Bundle)
    requires Remembers(idToName, bundles, types, m)
    requires Grows(bundles, types, bundles', types')
    requires idToName' == idToName[id := name]
    requires name in bundles' && name in types' && bundles'[name] == b && types'[name] == t
    ensures Remembers(idToName', bundles', types', m[id := (t, b)])
  {
  }

  class DependencyBuilder {
    /** canonical name -> bundle */
    var bundles: map<string, Bundle>
    /** canonical name -> fully qualified type */
    var types: map<string, string>
    /** component id -> canonical name (idToProcessorName) */
    var idToName: map<string, string>
    /** the candidate index at which each name was bound */
    ghost var rank: map<string, nat>

    ghost predicate Valid()
      reads this
    {
      ValidState(bundles, types, rank, idToName)
    }

    constructor ()
      ensures Valid()
      ensures bundles == map[] && types == map[] && idToName == map[]
    {
      bundles, types, idToName := map[], map[], map[];
      rank := map[];
    }

    /** getCanonicalDependencyName: the name recorded for a component id, or null. */
    function GetCanonicalDependencyName(componentId: string): (r: Option<string>)
      reads this
      requires Valid()
      ensures r.Some? <==> componentId in idToName
      ensures r.Some? ==> r.value in bundles && r.value == idToName[componentId]
    {
      Get(idToName, componentId)
    }

    /**
     * processDependency: walks the candidates of the type's simple class
     * name until one is free or already bound to exactly (t, b), then binds
     * it. A type made only of dots makes the split empty and raises.
     */
    method ProcessDependency(t: string, b: Bundle) returns (r: Result<string>, ghost k: nat)
      requires Valid()
      modifies this
      ensures Valid()
      ensures idToName == old(idToName)
      ensures r.Err? <==> OnlyDots(t)
      ensures r.Err? ==> r.fault == IndexOutOfBounds && bundles == old(bundles) && types == old(types)
      ensures r.Ok? ==> r.value in bundles && bundles[r.value] == b && types[r.value] == t
      ensures r.Ok? ==> k <= |old(bundles)| && r.value == Candidate(ClassOf(t), k)
                        && IsChoice(old(bundles), old(types), ClassOf(t), t, b, k)
      ensures r.Ok? ==> bundles.Keys == old(bundles).Keys + {r.value}
      ensures forall n :: n in old(bundles) ==> bundles[n] == old(bundles)[n] && types[n] == old(types)[n]
      ensures r.Ok? && r.value in old(bundles) ==> bundles == old(bundles) && types == old(types)
    {
      var parts := LastSegment(t);
      LastSegmentFails(t);
      if parts.None? {
        return Err(IndexOutOfBounds), 0;
      }
      var cls := parts.value;
      var name;
      name, k := WalkCandidates(bundles, types, cls, t, b);
      assert ClassOf(t) == cls;
      Bind(name, t, b, cls, k);
      return Ok(name), k;
    }

    /** The two puts that end processDependency: bind the chosen name to (t, b). */
    method Bind(name: string, t: string, b: Bundle, ghost cls: string, ghost k: nat)
      requires Valid()
      requires LastSegment(t) == Some(cls) && name == Candidate(cls, k)
      requires IsChoice(bundles, types, cls, t, b, k)
      modifies this
      ensures Valid()
      ensures bundles == old(bundles)[name := b] && types == old(types)[name := t]
      ensures idToName == old(idToName)
      ensures name in old(bundles) ==> bundles == old(bundles) && types == old(types)
    {
      BindKeepsValid(bundles, types, rank, idToName, cls, t, b, k);
      if name in bundles {
        assert bundles[name := b] == bundles && types[name := t] == types;
      } else {
        rank := rank[name := k];
      }
      bundles := bundles[name := b];
      types := types[name := t];
    }

    /** addDependency(ProcessorEntity): binds the processor's type and records its id. */
    method AddProcessorDependency(p: ProcessorEntity) returns (r: Result<string>)
      requires Valid()
      modifies this
      ensures Valid()
      ensures r.Err? <==> OnlyDots(p.typeName)
      ensures r.Err? ==> idToName == old(idToName) && bundles == old(bundles) && types == old(types)
      ensures r.Ok? ==> idToName == old(idToName)[p.id := r.value]
      ensures r.Ok? ==> r.value in bundles && bundles[r.value] == p.bundle && types[r.value] == p.typeName
      ensures r.Ok? ==> GetCanonicalDependencyName(p.id) == Some(r.value)
      ensures Grows(old(bundles), old(types), bundles, types)
    {
      ghost var k;
      r, k := ProcessDependency(p.typeName, p.bundle);
      if r.Ok? {
        idToName := idToName[p.id := r.value];
      }
    }

    /** addDependency(ControllerServiceEntity): the same vocabulary, keyed by the controller's id. */
    method AddControllerDependency(c: ControllerServiceEntity) returns (r: Result<string>)
      requires Valid()
      modifies this
      ensures Valid()
      ensures r.Err? <==> OnlyDots(c.typeName)
      ensures r.Err? ==> idToName == old(idToName) && bundles == old(bundles) && types == old(types)
      ensures r.Ok? ==> idToName == old(idToName)[c.id := r.value]
      ensures r.Ok? ==> r.value in bundles && bundles[r.value] == c.bundle && types[r.value] == c.typeName
      ensures r.Ok? ==> GetCanonicalDependencyName(c.id) == Some(r.value)
      ensures Grows(old(bundles), old(types), bundles, types)
    {
      ghost var k;
      r, k := ProcessDependency(c.typeName, c.bundle);
      if r.Ok? {
        idToName := idToName[c.id := r.value];
      }
    }

    /**
     * addAllProcessorDependencies: in list order; the first failure ends
     * the run. Each id ends up naming the binding of the last processor
     * listed with that id.
     */
    method AddAllProcessorDependencies(ps: seq<ProcessorEntity>) returns (r: Result<()>)
      requires Valid()
      modifies this
      ensures Valid()
      ensures r.Ok? <==> forall i :: 0 <= i < |ps| ==> !OnlyDots(ps[i].typeName)
      ensures r.Ok? ==> Remembers(idToName, bundles, types, Recorded(ProcessorKeys(ps)))
      ensures Grows(old(bundles), old(types), bundles, types)
    {
      var keys := ProcessorKeys(ps);
      var i := 0;
      while i < |ps|
        invariant 0 <= i <= |ps| && Valid()
        invariant forall j :: 0 <= j < i ==> !OnlyDots(ps[j].typeName)
        invariant Remembers(idToName, bundles, types, Recorded(keys[..i]))
        invariant Grows(old(bundles), old(types), bundles, types)
      {
        ghost var b0, t0, n0 := bundles, types, idToName;
        var step := AddProcessorDependency(ps[i]);
        if step.Err? {
          return Err(step.fault);
        }
        RemembersStep(n0, b0, t0, idToName, bundles, types, Recorded(keys[..i]), ps[i].id, step.value, ps[i].typeName, ps[i].bundle);
        GrowsTrans(old(bundles), old(types), b0, t0, bundles, types);
        assert keys[..i + 1][..i] == keys[..i];
        assert forall j :: 0 <= j < i + 1 ==> !OnlyDots(ps[j].typeName) by {
          assert !OnlyDots(ps[i].typeName);
        }
        i := i + 1;
      }
      assert keys[..i] == keys;
      return Ok(());
    }

    /** addAllControllerDependencies: the same walk over controller services. */
    method AddAllControllerDependencies(cs: seq<ControllerServiceEntity>) returns (r: Result<()>)
      requires Valid()
      modifies this
      ensures Valid()
      ensures r.Ok? <==> forall i :: 0 <= i < |cs| ==> !OnlyDots(cs[i].typeName)
      ensures r.Ok? ==> Remembers(idToName, bundles, types, Recorded(ControllerKeys(cs)))
      ensures Grows(old(bundles), old(types), bundles, types)
      ensures Untouched(old(idToName), idToName, Recorded(ControllerKeys(cs)))
    {
      var keys := ControllerKeys(cs);
      var i := 0;
      while i < |cs|
        invariant 0 <= i <= |cs| && Valid()
        invariant forall j :: 0 <= j < i ==> !OnlyDots(cs[j].typeName)
        invariant Remembers(idToName, bundles, types, Recorded(keys[..i]))
        invariant Grows(old(bundles), old(types), bundles, types)
        invariant Untouched(old(idToName), idToName, Recorded(keys[..i]))
      {
        ghost var b0, t0, n0 := bundles, types, idToName;
        var step := AddControllerDependency(cs[i]);
        if step.Err? {
          RecordedGrows(keys, i, |cs|);
          UntouchedWider(old(idToName), idToName, Recorded(keys[..i]), Recorded(keys));
          return Err(step.fault);
        }
        RemembersStep(n0, b0, t0, idToName, bundles, types, Recorded(keys[..i]), cs[i].id, step.value, cs[i].typeName, cs[i].bundle);
        UntouchedStep(old(idToName), n0, Recorded(keys[..i]), cs[i].id, step.value, (cs[i].typeName, cs[i].bundle));
        GrowsTrans(old(bundles), old(types), b0, t0, bundles, types);
        assert keys[..i + 1][..i] == keys[..i];
        assert forall j :: 0 <= j < i + 1 ==> !OnlyDots(cs[j].typeName) by {
          assert !OnlyDots(cs[i].typeName);
        }
        i := i + 1;
      }
      assert keys[..i] == keys;
      return Ok(());
    }

    /** build: every binding placed once, under its bundle's group/artifact/version. */
    method Build() returns (voc: Vocabulary)
      requires Valid()
      ensures forall n :: n in bundles ==> Placed(voc, n, bundles[n], types[n])
      ensures forall b, n :: n in Entry(voc, b) ==> n in bundles && bundles[n] == b && types[n] == Entry(voc, b)[n]
    {
      voc := BuildVocabulary(bundles, types);
    }
  }

  /** The invariant of a DependencyBuilder: canonical, injective bindings, and every recorded id names a binding. */
  ghost predicate ValidState(bundles: map<string, Bundle>, types: map<string, string>, rank: map<string, nat>,
                             idToName: map<string, string>)
  {
    Canonical(bundles, types, rank) && Injective(bundles, types)
    && forall id :: id in idToName ==> idToName[id] in bundles
  }

  /** Binding the choice keeps the invariant; re-binding a name to its own pair changes nothing. */
  lemma BindKeepsValid(bundles: map<string, Bundle>, types: map<string, string>, rank: map<string, nat>,
                       idToName: map<string, string>, cls: string, t: string, b: Bundle, k: nat)
    requires ValidState(bundles, types, rank, idToName)
    requires LastSegment(t) == Some(cls)
    requires IsChoice(bundles, types, cls, t, b, k)
    ensures var n := Candidate(cls, k);
      ValidState(bundles[n := b], types[n := t], if n in bundles then rank else rank[n := k], idToName)
  {
    var n := Candidate(cls, k);
    if n !in bundles {
      ChoiceFreeMeansUnbound(bundles, types, rank, cls, t, b, k);
      BindKeepsCanonical(bundles, types, rank, cls, t, b, k);
      BindKeepsInjective(bundles, types, n, t, b);
    } else {
      assert bundles[n := b] == bundles && types[n := t] == types;
    }
  }

  /** When the choice is a free slot, (t, b) is bound nowhere: a binding of it would have been met first. */
  lemma ChoiceFreeMeansUnbound(bundles: map<string, Bundle>, types: map<string, string>, rank: map<string, nat>,
                               cls: string, t: string, b: Bundle, k: nat)
    requires Canonical(bundles, types, rank)
    requires LastSegment(t) == Some(cls)
    requires IsChoice(bundles, types, cls, t, b, k)
    requires Candidate(cls, k) !in bundles
    ensures forall m :: m in bundles ==> types[m] != t || bundles[m] != b
  {
    forall m | m in bundles
      ensures types[m] != t || bundles[m] != b
    {
      assert Slot(m) && SlotBefore(m, k);
    }
  }

  /** Binding a free choice keeps the bindings canonical. */
  lemma BindKeepsCanonical(bundles: map<string, Bundle>, types: map<string, string>, rank: map<string, nat>,
                           cls: string, t: string, b: Bundle, k: nat)
    requires Canonical(bundles, types, rank)
    requires LastSegment(t) == Some(cls)
    requires IsChoice(bundles, types, cls, t, b, k)
    requires Candidate(cls, k) !in bundles
    ensures var n := Candidate(cls, k);
      Canonical(bundles[n := b], types[n := t], rank[n := k])
  {
    var n := Candidate(cls, k);
    var bundles', types', rank' := bundles[n := b], types[n := t], rank[n := k];
    assert ClassOf(t) == cls;
    forall m | m in types'
      ensures m == Candidate(ClassOf(types'[m]), rank'[m])
    {
      if m != n {
        assert Slot(m) && types'[m] == types[m] && rank'[m] == rank[m];
      }
    }
    forall m, j | m in rank' && 0 <= j < rank'[m]
      ensures Candidate(ClassOf(types'[m]), j) in bundles'
    {
      if m != n {
        assert SlotBefore(m, j) && types'[m] == types[m] && rank'[m] == rank[m];
      } else {
        assert Candidate(cls, j) in bundles;
      }
    }
  }

  /** Binding a free choice keeps the bindings injective. */
  lemma BindKeepsInjective(bundles: map<string, Bundle>, types: map<string, string>, n: string, t: string, b: Bundle)
    requires bundles.Keys == types.Keys && Injective(bundles, types)
    requires n !in bundles
    requires forall m :: m in bundles ==> types[m] != t || bundles[m] != b
    ensures Injective(bundles[n := b], types[n := t])
  {
  }

  /** A name, once bound, keeps its pair: processDependency only adds or re-binds a name to its own pair. */
  lemma ResubmissionReturnsBoundName(bundles: map<string, Bundle>, types: map<string, string>, rank: map<string, nat>,
                                     n: string, t: string, b: Bundle)
    requires Canonical(bundles, types, rank) && Injective(bundles, types)
    requires n in bundles && types[n] == t && bundles[n] == b
    ensures IsChoice(bundles, types, ClassOf(t), t, b, rank[n]) && n == Candidate(ClassOf(t), rank[n])
  {
    var cls := ClassOf(t);
    assert Slot(n);
    forall j | 0 <= j < rank[n]
      ensures Candidate(cls, j) in bundles && (types[Candidate(cls, j)] != t || bundles[Candidate(cls, j)] != b)
    {
      var m := Candidate(cls, j);
      assert Slot(n) && SlotBefore(n, j) && Slot(m);
      if types[m] == t && bundles[m] == b {
        assert m == n;
        CandidateInjective(cls, j, rank[n]);
      }
    }
  }
}
