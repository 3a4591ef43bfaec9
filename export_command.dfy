/**
 * ExportCommand: captures a live flow as templates. Each process group
 * becomes one template named by the group's id ("root" for the root
 * group), listed before the templates of the groups inside it. A
 * template holds the group's dependency vocabulary, its controller
 * services, and its components in a fixed order: input ports, output
 * ports, processors, funnels, labels, process groups and remote process
 * groups. Each component carries the connections that end at it.
 */
module Exporting {
  import opened Wrappers
  import opened Text
  import opened HelperYml
  import opened Records
  import opened PropertyDelta
  import opened DependencyBuilding
  import ElementYml
  import ControllerYml
  import RuleCodec
  import Importing

  // ---------------------------------------------------------------------
  // The live flow as the REST listings return it

  /** What the listings of one process group return. */
  datatype GroupListing = GroupListing(
    processors: seq<ProcessorEntity>,
    connections: seq<ConnectionEntity>,
    funnels: seq<FunnelEntity>,
    processGroups: seq<ProcessGroupEntity>,
    inputPorts: seq<PortEntity>,
    outputPorts: seq<PortEntity>,
    labels: seq<LabelEntity>,
    remoteGroups: seq<RemoteGroupEntity>,
    controllers: seq<ControllerServiceEntity>)

  /**
   * The flow: the listings of each group by id ("root" names the root
   * group), and each remote process group as its own endpoint returns it.
   * An id that is not a key is answered with an error.
   */
  datatype Flow = Flow(groups: map<string, GroupListing>, remotes: map<string, RemoteGroupEntity>)

  // ---------------------------------------------------------------------
  // The connection lookup

  /** The bucket of a connection: the destination's group for a (remote) input port, the destination otherwise. */
  function BucketKey(c: ConnectionEntity): string {
    if c.destinationType == RemoteInputPort || c.destinationType == InputPort then c.destinationGroupId
    else c.destinationId
  }

  /** The connections whose bucket is k, in listing order. */
  function Bucket(cs: seq<ConnectionEntity>, k: string): seq<ConnectionEntity> {
    if cs == [] then []
    else
      var last := cs[|cs| - 1];
      Bucket(cs[..|cs| - 1], k) + if BucketKey(last) == k then [last] else []
  }

  /** The inputs handed to the component with id k: its bucket, or null when no connection ends there. */
  function Incoming(cs: seq<ConnectionEntity>, k: string): Option<seq<ConnectionEntity>> {
    var b := Bucket(cs, k);
    if b == [] then None else Some(b)
  }

  /** A bucket holds exactly the listed connections with its key. */
  lemma {:induction false} BucketMembers(cs: seq<ConnectionEntity>, k: string)
    ensures forall c :: c in Bucket(cs, k) <==> c in cs && BucketKey(c) == k
  {
    if cs != [] {
      var init := cs[..|cs| - 1];
      BucketMembers(init, k);
      assert cs == init + [cs[|cs| - 1]];
    }
  }

  /** Each listed connection is in its own bucket as often as it is listed, and in no other. */
  lemma {:induction false} BucketCounts(cs: seq<ConnectionEntity>, k: string, c: ConnectionEntity)
    ensures multiset(Bucket(cs, k))[c] == if BucketKey(c) == k then multiset(cs)[c] else 0
  {
    if cs != [] {
      var init := cs[..|cs| - 1];
      BucketCounts(init, k, c);
      assert cs == init + [cs[|cs| - 1]];
    }
  }

  /** Buckets keep listing order: the bucket of a concatenation is the concatenation of the buckets. */
  lemma {:induction false} BucketOfConcat(xs: seq<ConnectionEntity>, ys: seq<ConnectionEntity>, k: string)
    ensures Bucket(xs + ys, k) == Bucket(xs, k) + Bucket(ys, k)
  {
    if ys == [] {
      assert xs + ys == xs;
    } else {
      var init := ys[..|ys| - 1];
      BucketOfConcat(xs, init, k);
      assert (xs + ys)[..|xs + ys| - 1] == xs + init;
      assert (xs + ys)[|xs + ys| - 1] == ys[|ys| - 1];
    }
  }

  /** The connection lookup of a listing: one non-empty bucket per destination key. */
  function BucketsOf(cs: seq<ConnectionEntity>): map<string, seq<ConnectionEntity>> {
    map k | k in (set c | c in cs :: BucketKey(c)) :: Bucket(cs, k)
  }

  /** A component is handed its bucket, or null when no listed connection ends at it. */
  lemma BucketsOfIncoming(cs: seq<ConnectionEntity>, k: string)
    ensures Get(BucketsOf(cs), k) == Incoming(cs, k)
  {
    BucketMembers(cs, k);
    if Bucket(cs, k) != [] {
      assert Bucket(cs, k)[0] in Bucket(cs, k);
    }
  }

  /** The buckets of a lookup are those of the connections, and no bucket is empty. */
  ghost predicate Grouped(lookup: map<string, seq<ConnectionEntity>>, cs: seq<ConnectionEntity>) {
    (forall k :: k in lookup ==> lookup[k] == Bucket(cs, k) && lookup[k] != [])
    && (forall k :: k !in lookup ==> Bucket(cs, k) == [])
  }

  /** A grouped lookup is the lookup of the listing. */
  lemma GroupedIsBuckets(lookup: map<string, seq<ConnectionEntity>>, cs: seq<ConnectionEntity>)
    requires Grouped(lookup, cs)
    ensures lookup == BucketsOf(cs)
  {
    forall k | k in lookup ensures k in BucketsOf(cs) {
      BucketMembers(cs, k);
      assert lookup[k][0] in Bucket(cs, k);
    }
    forall k | k in BucketsOf(cs) ensures k in lookup {
      BucketMembers(cs, k);
    }
  }

  /** The grouping loop of convertToTemplateYML: each connection is appended to its bucket, a new bucket made on first use. */
  method GroupConnections(cs: seq<ConnectionEntity>) returns (lookup: map<string, seq<ConnectionEntity>>)
    ensures lookup == BucketsOf(cs)
  {
    lookup := map[];
    var i := 0;
    while i < |cs|
      invariant 0 <= i <= |cs|
      invariant Grouped(lookup, cs[..i])
    {
      var destination := BucketKey(cs[i]);
      if destination !in lookup {
        lookup := lookup[destination := []];
      }
      lookup := lookup[destination := lookup[destination] + [cs[i]]];
      assert cs[..i + 1][..i] == cs[..i];
      i := i + 1;
    }
    assert cs[..i] == cs;
    GroupedIsBuckets(lookup, cs);
  }

  // ---------------------------------------------------------------------
  // The dependency vocabulary

  /** (id, type, bundle) of the processors and then the controller services of a scope. */
  function ComponentKeys(ps: seq<ProcessorEntity>, cs: seq<ControllerServiceEntity>): seq<(string, string, Bundle)> {
    ProcessorKeys(ps) + ControllerKeys(cs)
  }

  /** Recording a second run after a first: the second run's entries win. */
  lemma {:induction false} RecordedConcat(xs: seq<(string, string, Bundle)>, ys: seq<(string, string, Bundle)>)
    ensures Recorded(xs + ys).Keys == Recorded(xs).Keys + Recorded(ys).Keys
    ensures forall id :: id in Recorded(xs + ys) ==>
      Recorded(xs + ys)[id] == if id in Recorded(ys) then Recorded(ys)[id] else Recorded(xs)[id]
  {
    if ys == [] {
      assert xs + ys == xs;
    } else {
      var k := |ys| - 1;
      assert (xs + ys)[..|xs + ys| - 1] == xs + ys[..k];
      assert (xs + ys)[|xs + ys| - 1] == ys[k];
      RecordedConcat(xs, ys[..k]);
    }
  }

  /** Every name of the vocabulary is placed under one bundle only. */
  ghost predicate SinglyPlaced(voc: Vocabulary) {
    forall b1, b2, n :: n in Entry(voc, b1) && n in Entry(voc, b2) ==> b1 == b2
  }

  /** Every recorded id has a canonical name placed in the vocabulary with the id's (type, bundle). */
  ghost predicate Names(voc: Vocabulary, names: map<string, string>, rec: map<string, (string, Bundle)>) {
    forall id :: id in rec ==> id in names && Placed(voc, names[id], rec[id].1, rec[id].0)
  }

  /**
   * The dependency builder of one scope: processors, then controller
   * services, then build. Gives the vocabulary and the canonical name of
   * each component id; a type made only of dots raises.
   */
  method CaptureDependencies(ps: seq<ProcessorEntity>, cs: seq<ControllerServiceEntity>)
    returns (r: Result<(Vocabulary, map<string, string>)>)
    ensures r.Err? <==> (exists i :: 0 <= i < |ps| && OnlyDots(ps[i].typeName))
                        || (exists i :: 0 <= i < |cs| && OnlyDots(cs[i].typeName))
    ensures r.Ok? ==> SinglyPlaced(r.value.0) && Names(r.value.0, r.value.1, Recorded(ComponentKeys(ps, cs)))
  {
    var builder := new DependencyBuilder();
    var step := builder.AddAllProcessorDependencies(ps);
    if step.Err? {
      return Err(step.fault);
    }
    r := FinishDependencies(builder, ps, cs);
  }

  /** The second half of the dependency builder: controller services on top of the processors, then build. */
  method FinishDependencies(builder: DependencyBuilder, ps: seq<ProcessorEntity>, cs: seq<ControllerServiceEntity>)
    returns (r: Result<(Vocabulary, map<string, string>)>)
    requires builder.Valid()
    requires Remembers(builder.idToName, builder.bundles, builder.types, Recorded(ProcessorKeys(ps)))
    modifies builder
    ensures r.Err? <==> exists i :: 0 <= i < |cs| && OnlyDots(cs[i].typeName)
    ensures r.Ok? ==> SinglyPlaced(r.value.0) && Names(r.value.0, r.value.1, Recorded(ComponentKeys(ps, cs)))
  {
    ghost var n1, b1, t1 := builder.idToName, builder.bundles, builder.types;
    var step := builder.AddAllControllerDependencies(cs);
    if step.Err? {
      return Err(step.fault);
    }
    var voc := builder.Build();
    NamesAfterBuild(n1, b1, t1, builder.idToName, builder.bundles, builder.types, voc, ps, cs);
    r := Ok((voc, builder.idToName));
  }

  /** The two runs and the build leave every recorded id named in the vocabulary, the later run winning. */
  lemma NamesAfterBuild(n1: map<string, string>, b1: map<string, Bundle>, t1: map<string, string>,
                        n2: map<string, string>, b2: map<string, Bundle>, t2: map<string, string>, voc: Vocabulary,
                        ps: seq<ProcessorEntity>, cs: seq<ControllerServiceEntity>)
    requires Remembers(n1, b1, t1, Recorded(ProcessorKeys(ps))) && Remembers(n2, b2, t2, Recorded(ControllerKeys(cs)))
    requires Grows(b1, t1, b2, t2) && Untouched(n1, n2, Recorded(ControllerKeys(cs)))
    requires b2.Keys == t2.Keys
    requires forall n :: n in b2 ==> Placed(voc, n, b2[n], t2[n])
    requires forall b, n :: n in Entry(voc, b) ==> n in b2 && b2[n] == b && t2[n] == Entry(voc, b)[n]
    ensures SinglyPlaced(voc) && Names(voc, n2, Recorded(ComponentKeys(ps, cs)))
  {
    var first, second := Recorded(ProcessorKeys(ps)), Recorded(ControllerKeys(cs));
    var rec := Recorded(ComponentKeys(ps, cs));
    RecordedConcat(ProcessorKeys(ps), ControllerKeys(cs));
    forall b, b', n | n in Entry(voc, b) && n in Entry(voc, b') ensures b == b' {
      assert b2[n] == b && b2[n] == b';
    }
    forall id | id in rec ensures id in n2 && Placed(voc, n2[id], rec[id].1, rec[id].0) {
      if id !in second {
        assert id in first;
        assert n1[id] in b1 && n1[id] in t1;
      }
    }
  }

  /** The import's dependency lookup answers canonical name n with type t and bundle b. */
  predicate LooksUp(voc: Vocabulary, n: string, t: string, b: Bundle) {
    n in Importing.DependencyLookupOf(voc) && Importing.DependencyLookupOf(voc)[n] == (t, b)
  }

  /** What the import's dependency lookup makes of a placed name: exactly its (type, bundle). */
  lemma LookupFindsPlacement(voc: Vocabulary, n: string, b: Bundle, t: string)
    requires SinglyPlaced(voc) && Placed(voc, n, b, t)
    ensures LooksUp(voc, n, t, b)
  {
    var lookup := Importing.DependencyLookupOf(voc);
    assert n in lookup;
    assert Placed(voc, n, lookup[n].1, lookup[n].0);
  }

  // ---------------------------------------------------------------------
  // The controller services and the components of one scope, kind by kind

  /** The elements of comps from start on capture xs one by one under the rule captured. */
  ghost predicate Block<E, T>(comps: seq<E>, start: nat, xs: seq<T>, captured: (E, T) -> bool) {
    start + |xs| <= |comps| && forall i :: 0 <= i < |xs| ==> captured(comps[start + i], xs[i])
  }

  /** A block stays where it is when more elements follow. */
  lemma BlockLeft<E, T>(a: seq<E>, b: seq<E>, start: nat, xs: seq<T>, captured: (E, T) -> bool)
    requires Block(a, start, xs, captured)
    ensures Block(a + b, start, xs, captured)
  {
    forall i | 0 <= i < |xs| ensures captured((a + b)[start + i], xs[i]) {
      assert (a + b)[start + i] == a[start + i];
    }
  }

  /** A block moves by the length of what is put before it. */
  lemma BlockRight<E, T>(a: seq<E>, b: seq<E>, start: nat, xs: seq<T>, captured: (E, T) -> bool)
    requires Block(b, start, xs, captured)
    ensures Block(a + b, |a| + start, xs, captured)
  {
    forall i | 0 <= i < |xs| ensures captured((a + b)[|a| + start + i], xs[i]) {
      assert (a + b)[|a| + start + i] == b[start + i];
    }
  }


  /** A controller service under the canonical name of its id, with its property delta. */
  ghost predicate ControllerCaptured(c: Controller, s: ControllerServiceEntity, voc: Vocabulary,
                                     rec: map<string, (string, Bundle)>) {
    c.id == Some(s.id) && c.name == s.name && IsDelta(c.properties, s.descriptors, s.properties)
    && c.typeName.Some? && s.id in rec && Placed(voc, c.typeName.value, rec[s.id].1, rec[s.id].0)
  }

  /** The controller loop of convertToTemplateYML. */
  method CaptureControllers(cs: seq<ControllerServiceEntity>, names: map<string, string>, ghost voc: Vocabulary,
                            ghost rec: map<string, (string, Bundle)>) returns (out: seq<Controller>)
    requires Names(voc, names, rec) && forall i :: 0 <= i < |cs| ==> cs[i].id in rec
    ensures |out| == |cs| && Block(out, 0, cs, ControllerRule(voc, rec))
  {
    out := [];
    var i := 0;
    while i < |cs|
      invariant 0 <= i <= |cs| && |out| == i
      invariant forall j :: 0 <= j < i ==> ControllerCaptured(out[j], cs[j], voc, rec)
    {
      var c := ControllerYml.ControllerYml(cs[i], Get(names, cs[i].id));
      out := out + [c];
      i := i + 1;
    }
  }

  /** A port with the bucket of its id as inputs, typed by its port type. */
  ghost predicate PortCaptured(e: Element, p: PortEntity, lookup: map<string, seq<ConnectionEntity>>) {
    ElementYml.Identifies(e, p.id, p.name, p.portType, p.position, Get(lookup, p.id))
    && e.comment == p.comments && e.template.None?
  }

  /** The input-port and the output-port loops. */
  method CapturePorts(ports: seq<PortEntity>, lookup: map<string, seq<ConnectionEntity>>) returns (out: seq<Element>)
    ensures |out| == |ports| && Block(out, 0, ports, PortRule(lookup))
  {
    out := [];
    var i := 0;
    while i < |ports|
      invariant 0 <= i <= |ports| && |out| == i
      invariant forall j :: 0 <= j < i ==> PortCaptured(out[j], ports[j], lookup)
    {
      var e := ElementYml.FromPort(ports[i], Get(lookup, ports[i].id));
      out := out + [e];
      i := i + 1;
    }
  }

  /**
   * A processor with the bucket of its id as inputs, its property delta,
   * and as type the canonical name of its id, placed in the vocabulary
   * with the (type, bundle) recorded for that id.
   */
  ghost predicate ProcessorCaptured(e: Element, p: ProcessorEntity, lookup: map<string, seq<ConnectionEntity>>, voc: Vocabulary,
                                    rec: map<string, (string, Bundle)>) {
    e.id == Some(p.id) && e.name == p.name && e.position == Some(p.position)
    && e.inputs == Some(ElementYml.CapturedInputs(Get(lookup, p.id)))
    && IsDelta(e.properties, p.config.descriptors, p.config.properties) && e.template.None?
    && GetType(e).Some? && p.id in rec && Placed(voc, GetType(e).value, rec[p.id].1, rec[p.id].0)
  }

  /**
   * The advanced-rule markup of a processor can be read: absent, empty or
   * unparsable markup can; parsed markup needs its rule list, and every
   * rule its condition and its action list.
   */
  predicate RulesReadable(p: ProcessorEntity) {
    var text := p.config.annotationData;
    text.Parsed? ==>
      text.criteria.rules.Some?
      && forall i :: 0 <= i < |text.criteria.rules.value| ==>
           text.criteria.rules.value[i].conditions.Some? && text.criteria.rules.value[i].actions.Some?
  }

  /** The first n processors have readable markup and were captured, in order, into out. */
  ghost predicate ProcessorsUpTo(ps: seq<ProcessorEntity>, out: seq<Element>, n: nat, lookup: map<string, seq<ConnectionEntity>>,
                                 voc: Vocabulary, rec: map<string, (string, Bundle)>) {
    n == |out| <= |ps|
    && forall j :: 0 <= j < n ==> RulesReadable(ps[j]) && ProcessorCaptured(out[j], ps[j], lookup, voc, rec)
  }

  /** ProcessorsUpTo at the length of out, kept under a quantifier so that a loop carrying it does not unfold it. */
  ghost predicate ProcessorsReach(ps: seq<ProcessorEntity>, out: seq<Element>, lookup: map<string, seq<ConnectionEntity>>,
                                  voc: Vocabulary, rec: map<string, (string, Bundle)>) {
    forall n: nat :: n == |out| ==> ProcessorsUpTo(ps, out, n, lookup, voc, rec)
  }

  /** One more processor captured. */
  lemma ProcessorsNext(ps: seq<ProcessorEntity>, out: seq<Element>, e: Element, lookup: map<string, seq<ConnectionEntity>>,
                       voc: Vocabulary, rec: map<string, (string, Bundle)>)
    requires ProcessorsReach(ps, out, lookup, voc, rec) && |out| < |ps|
    requires RulesReadable(ps[|out|]) && ProcessorCaptured(e, ps[|out|], lookup, voc, rec)
    ensures ProcessorsReach(ps, out + [e], lookup, voc, rec)
  {
    assert ProcessorsUpTo(ps, out, |out|, lookup, voc, rec);
    assert ProcessorsUpTo(ps, out + [e], |out| + 1, lookup, voc, rec);
  }

  /** All processors captured. */
  lemma ProcessorsEnd(ps: seq<ProcessorEntity>, out: seq<Element>, lookup: map<string, seq<ConnectionEntity>>,
                      voc: Vocabulary, rec: map<string, (string, Bundle)>)
    requires ProcessorsReach(ps, out, lookup, voc, rec) && |out| == |ps|
    ensures forall i :: 0 <= i < |ps| ==> RulesReadable(ps[i]) && ProcessorCaptured(out[i], ps[i], lookup, voc, rec)
  {
    assert ProcessorsUpTo(ps, out, |out|, lookup, voc, rec);
  }

  /** The processor loop; annotation markup without its rule list raises. */
  method CaptureProcessors(ps: seq<ProcessorEntity>, names: map<string, string>, ghost voc: Vocabulary,
                           ghost rec: map<string, (string, Bundle)>, lookup: map<string, seq<ConnectionEntity>>) returns (r: Result<seq<Element>>)
    requires Names(voc, names, rec)
    requires forall i :: 0 <= i < |ps| ==> ps[i].id in rec
    ensures r.Err? <==> exists i :: 0 <= i < |ps| && !RulesReadable(ps[i])
    ensures r.Err? ==> r.fault == NullPointer
    ensures r.Ok? ==> |r.value| == |ps| && Block(r.value, 0, ps, ProcessorRule(lookup, voc, rec))
  {
    var out := [];
    assert ProcessorsUpTo(ps, out, 0, lookup, voc, rec);
    var i := 0;
    while i < |ps|
      invariant 0 <= i <= |ps| && |out| == i
      invariant ProcessorsReach(ps, out, lookup, voc, rec)
    {
      var e := CaptureProcessor(ps[i], names, voc, rec, lookup);
      if e.Err? {
        return Err(e.fault);
      }
      ProcessorsNext(ps, out, e.value, lookup, voc, rec);
      out := out + [e.value];
      i := i + 1;
    }
    ProcessorsEnd(ps, out, lookup, voc, rec);
    r := Ok(out);
  }

  /** One processor, typed by the canonical name of its id. */
  method CaptureProcessor(p: ProcessorEntity, names: map<string, string>, ghost voc: Vocabulary,
                          ghost rec: map<string, (string, Bundle)>, lookup: map<string, seq<ConnectionEntity>>) returns (r: Result<Element>)
    requires Names(voc, names, rec) && p.id in rec
    ensures r.Err? <==> !RulesReadable(p)
    ensures r.Err? ==> r.fault == NullPointer
    ensures r.Ok? ==> ProcessorCaptured(r.value, p, lookup, voc, rec)
  {
    r := ElementYml.FromProcessor(p, Get(names, p.id), Get(lookup, p.id));
  }

  /** A funnel with the bucket of its id as inputs. */
  ghost predicate FunnelCaptured(e: Element, f: FunnelEntity, lookup: map<string, seq<ConnectionEntity>>) {
    ElementYml.Identifies(e, f.id, None, Some(Name(FUNNEL)), f.position, Get(lookup, f.id)) && e.template.None?
  }

  /** The funnel loop. */
  method CaptureFunnels(fs: seq<FunnelEntity>, lookup: map<string, seq<ConnectionEntity>>) returns (out: seq<Element>)
    ensures |out| == |fs| && Block(out, 0, fs, FunnelRule(lookup))
  {
    out := [];
    var i := 0;
    while i < |fs|
      invariant 0 <= i <= |fs| && |out| == i
      invariant forall j :: 0 <= j < i ==> FunnelCaptured(out[j], fs[j], lookup)
    {
      var e := ElementYml.FromFunnel(fs[i], Get(lookup, fs[i].id));
      out := out + [e];
      i := i + 1;
    }
  }

  /** A label: its text as the comment and no inputs, whatever ends at its id. */
  ghost predicate LabelCaptured(e: Element, l: LabelEntity) {
    ElementYml.Identifies(e, l.id, None, Some(Name(LABEL)), l.position, None)
    && e.comment == l.labelText && e.inputs == Some([]) && e.template.None?
  }

  /** The label loop. */
  method CaptureLabels(ls: seq<LabelEntity>) returns (out: seq<Element>)
    ensures |out| == |ls| && Block(out, 0, ls, LabelRule())
  {
    out := [];
    var i := 0;
    while i < |ls|
      invariant 0 <= i <= |ls| && |out| == i
      invariant forall j :: 0 <= j < i ==> LabelCaptured(out[j], ls[j])
    {
      var e := ElementYml.FromLabel(ls[i]);
      out := out + [e];
      i := i + 1;
    }
  }

  /** A process group: it refers to the template named by its id. */
  ghost predicate GroupCaptured(e: Element, g: ProcessGroupEntity, lookup: map<string, seq<ConnectionEntity>>) {
    ElementYml.Identifies(e, g.id, g.name, Some(Name(PROCESS_GROUP)), g.position, Get(lookup, g.id))
    && e.template == Some(g.id + YAML_EXT)
  }

  /**
   * A remote process group as its own endpoint returns it (the listing's
   * copy lacks the port details), with the bucket of the refetched id.
   */
  ghost predicate RemoteCaptured(e: Element, listed: RemoteGroupEntity, remotes: map<string, RemoteGroupEntity>,
                                 lookup: map<string, seq<ConnectionEntity>>) {
    listed.id in remotes
    && var g := remotes[listed.id];
    ElementYml.Identifies(e, g.id, g.name, Some(Name(REMOTE_PROCESS_GROUP)), g.position, Get(lookup, g.id))
    && e.properties == ElementYml.RemoteGroupProperties(g) && e.remotePorts == ElementYml.RemotePortsOf(g)
    && e.template.None?
  }

  /** The remote process group loop: each group is fetched again by id; an unknown id raises. */
  method CaptureRemoteGroups(rs: seq<RemoteGroupEntity>, remotes: map<string, RemoteGroupEntity>,
                             lookup: map<string, seq<ConnectionEntity>>)
    returns (r: Result<seq<Element>>)
    ensures r.Err? <==> exists i :: 0 <= i < |rs| && rs[i].id !in remotes
    ensures r.Err? ==> r.fault == ApiError
    ensures r.Ok? ==> |r.value| == |rs| && Block(r.value, 0, rs, RemoteRule(remotes, lookup))
  {
    var out := [];
    var i := 0;
    while i < |rs|
      invariant 0 <= i <= |rs| && |out| == i
      invariant forall j :: 0 <= j < i ==> rs[j].id in remotes
      invariant forall j :: 0 <= j < i ==> RemoteCaptured(out[j], rs[j], remotes, lookup)
    {
      if rs[i].id !in remotes {
        return Err(ApiError);
      }
      var g := remotes[rs[i].id];
      var e := ElementYml.FromRemoteGroup(g, Get(lookup, g.id));
      out := out + [e];
      i := i + 1;
    }
    r := Ok(out);
  }

  /** The capture rules, as values, so that a block can be moved about without unfolding them. */
  ghost function ControllerRule(voc: Vocabulary, rec: map<string, (string, Bundle)>): (Controller, ControllerServiceEntity) -> bool {
    (c, s) => ControllerCaptured(c, s, voc, rec)
  }

  ghost function PortRule(lookup: map<string, seq<ConnectionEntity>>): (Element, PortEntity) -> bool {
    (e, p) => PortCaptured(e, p, lookup)
  }

  ghost function ProcessorRule(lookup: map<string, seq<ConnectionEntity>>, voc: Vocabulary, rec: map<string, (string, Bundle)>)
    : (Element, ProcessorEntity) -> bool
  {
    (e, p) => ProcessorCaptured(e, p, lookup, voc, rec)
  }

  ghost function FunnelRule(lookup: map<string, seq<ConnectionEntity>>): (Element, FunnelEntity) -> bool {
    (e, f) => FunnelCaptured(e, f, lookup)
  }

  ghost function LabelRule(): (Element, LabelEntity) -> bool {
    (e, l) => LabelCaptured(e, l)
  }

  ghost function GroupRule(lookup: map<string, seq<ConnectionEntity>>): (Element, ProcessGroupEntity) -> bool {
    (e, g) => GroupCaptured(e, g, lookup)
  }

  ghost function RemoteRule(remotes: map<string, RemoteGroupEntity>, lookup: map<string, seq<ConnectionEntity>>)
    : (Element, RemoteGroupEntity) -> bool
  {
    (e, g) => RemoteCaptured(e, g, remotes, lookup)
  }

  // ---------------------------------------------------------------------
  // The layout of a captured scope

  /** How many components precede the process groups: ports, processors, funnels and labels. */
  function HeadLength(l: GroupListing): nat {
    |l.inputPorts| + |l.outputPorts| + |l.processors| + |l.funnels| + |l.labels|
  }

  /** The first components: input ports, output ports, processors, funnels and labels, each in listing order. */
  ghost predicate HeadLaid(comps: seq<Element>, l: GroupListing, lookup: map<string, seq<ConnectionEntity>>,
                           voc: Vocabulary, rec: map<string, (string, Bundle)>) {
    var o1 := |l.inputPorts|;
    var o2 := o1 + |l.outputPorts|;
    var o3 := o2 + |l.processors|;
    var o4 := o3 + |l.funnels|;
    Block(comps, 0, l.inputPorts, PortRule(lookup))
    && Block(comps, o1, l.outputPorts, PortRule(lookup))
    && Block(comps, o2, l.processors, ProcessorRule(lookup, voc, rec))
    && Block(comps, o3, l.funnels, FunnelRule(lookup))
    && Block(comps, o4, l.labels, LabelRule())
  }

  /** All components: the head, then the process groups, then the remote process groups. */
  ghost predicate Laid(comps: seq<Element>, l: GroupListing, lookup: map<string, seq<ConnectionEntity>>,
                       voc: Vocabulary, rec: map<string, (string, Bundle)>, remotes: map<string, RemoteGroupEntity>) {
    var o5 := HeadLength(l);
    var o6 := o5 + |l.processGroups|;
    |comps| == o6 + |l.remoteGroups| && HeadLaid(comps, l, lookup, voc, rec)
    && Block(comps, o5, l.processGroups, GroupRule(lookup))
    && Block(comps, o6, l.remoteGroups, RemoteRule(remotes, lookup))
  }

  /** The five leading loops, one after the other, lay out the head. */
  lemma HeadLaidOut(ins: seq<Element>, outs: seq<Element>, procs: seq<Element>, funnels: seq<Element>, labels: seq<Element>,
                    l: GroupListing, lookup: map<string, seq<ConnectionEntity>>, voc: Vocabulary, rec: map<string, (string, Bundle)>)
    requires Block(ins, 0, l.inputPorts, PortRule(lookup)) && |ins| == |l.inputPorts|
    requires Block(outs, 0, l.outputPorts, PortRule(lookup)) && |outs| == |l.outputPorts|
    requires Block(procs, 0, l.processors, ProcessorRule(lookup, voc, rec)) && |procs| == |l.processors|
    requires Block(funnels, 0, l.funnels, FunnelRule(lookup)) && |funnels| == |l.funnels|
    requires Block(labels, 0, l.labels, LabelRule()) && |labels| == |l.labels|
    ensures |ins + outs + procs + funnels + labels| == HeadLength(l)
    ensures HeadLaid(ins + outs + procs + funnels + labels, l, lookup, voc, rec)
  {
    var c1 := ins + outs;
    BlockLeft(ins, outs, 0, l.inputPorts, PortRule(lookup));
    BlockRight(ins, outs, 0, l.outputPorts, PortRule(lookup));
    var c2 := c1 + procs;
    BlockLeft(c1, procs, 0, l.inputPorts, PortRule(lookup));
    BlockLeft(c1, procs, |ins|, l.outputPorts, PortRule(lookup));
    BlockRight(c1, procs, 0, l.processors, ProcessorRule(lookup, voc, rec));
    var c3 := c2 + funnels;
    BlockLeft(c2, funnels, 0, l.inputPorts, PortRule(lookup));
    BlockLeft(c2, funnels, |ins|, l.outputPorts, PortRule(lookup));
    BlockLeft(c2, funnels, |c1|, l.processors, ProcessorRule(lookup, voc, rec));
    BlockRight(c2, funnels, 0, l.funnels, FunnelRule(lookup));
    BlockLeft(c3, labels, 0, l.inputPorts, PortRule(lookup));
    BlockLeft(c3, labels, |ins|, l.outputPorts, PortRule(lookup));
    BlockLeft(c3, labels, |c1|, l.processors, ProcessorRule(lookup, voc, rec));
    BlockLeft(c3, labels, |c2|, l.funnels, FunnelRule(lookup));
    BlockRight(c3, labels, 0, l.labels, LabelRule());
  }

  /** The head, the process groups and the remote process groups lay out the scope. */
  lemma LaidOut(head: seq<Element>, groups: seq<Element>, rgs: seq<Element>, l: GroupListing,
                lookup: map<string, seq<ConnectionEntity>>, voc: Vocabulary, rec: map<string, (string, Bundle)>,
                remotes: map<string, RemoteGroupEntity>)
    requires |head| == HeadLength(l) && HeadLaid(head, l, lookup, voc, rec)
    requires Block(groups, 0, l.processGroups, GroupRule(lookup)) && |groups| == |l.processGroups|
    requires Block(rgs, 0, l.remoteGroups, RemoteRule(remotes, lookup)) && |rgs| == |l.remoteGroups|
    ensures Laid(head + groups + rgs, l, lookup, voc, rec, remotes)
  {
    var o1 := |l.inputPorts|;
    var o2 := o1 + |l.outputPorts|;
    var o3 := o2 + |l.processors|;
    var o4 := o3 + |l.funnels|;
    var c := head + groups;
    BlockLeft(head, groups, 0, l.inputPorts, PortRule(lookup));
    BlockLeft(head, groups, o1, l.outputPorts, PortRule(lookup));
    BlockLeft(head, groups, o2, l.processors, ProcessorRule(lookup, voc, rec));
    BlockLeft(head, groups, o3, l.funnels, FunnelRule(lookup));
    BlockLeft(head, groups, o4, l.labels, LabelRule());
    BlockRight(head, groups, 0, l.processGroups, GroupRule(lookup));
    BlockLeft(c, rgs, 0, l.inputPorts, PortRule(lookup));
    BlockLeft(c, rgs, o1, l.outputPorts, PortRule(lookup));
    BlockLeft(c, rgs, o2, l.processors, ProcessorRule(lookup, voc, rec));
    BlockLeft(c, rgs, o3, l.funnels, FunnelRule(lookup));
    BlockLeft(c, rgs, o4, l.labels, LabelRule());
    BlockLeft(c, rgs, |head|, l.processGroups, GroupRule(lookup));
    BlockRight(c, rgs, 0, l.remoteGroups, RemoteRule(remotes, lookup));
  }

  /** Every processor and controller service id of a scope is recorded by its dependency builder. */
  lemma ComponentsRecorded(ps: seq<ProcessorEntity>, cs: seq<ControllerServiceEntity>)
    ensures forall i :: 0 <= i < |ps| ==> ps[i].id in Recorded(ComponentKeys(ps, cs))
    ensures forall i :: 0 <= i < |cs| ==> cs[i].id in Recorded(ComponentKeys(ps, cs))
  {
    var ks := ComponentKeys(ps, cs);
    forall i | 0 <= i < |ps| ensures ps[i].id in Recorded(ks) {
      assert ks[i].0 == ps[i].id;
    }
    forall i | 0 <= i < |cs| ensures cs[i].id in Recorded(ks) {
      assert ks[|ps| + i].0 == cs[i].id;
    }
  }

  /** The dependency builder accepts a scope: every type has a class part. */
  predicate TypesNamed(l: GroupListing) {
    (forall i :: 0 <= i < |l.processors| ==> !OnlyDots(l.processors[i].typeName))
    && (forall i :: 0 <= i < |l.controllers| ==> !OnlyDots(l.controllers[i].typeName))
  }

  /** Every processor's advanced-rule markup can be read. */
  predicate RulesAllReadable(ps: seq<ProcessorEntity>) {
    forall i :: 0 <= i < |ps| ==> RulesReadable(ps[i])
  }

  /**
   * The part of convertToTemplateYML before the process groups: the
   * dependency vocabulary, the controller services and the head of the
   * component list. None of it touches the list of templates.
   */
  method CaptureLeaves(l: GroupListing, lookup: map<string, seq<ConnectionEntity>>)
    returns (r: Result<(Vocabulary, seq<Controller>, seq<Element>)>)
    ensures r.Ok? <==> TypesNamed(l) && RulesAllReadable(l.processors)
    ensures r.Ok? ==> var (voc, controllers, head) := r.value;
      var rec := Recorded(ComponentKeys(l.processors, l.controllers));
      SinglyPlaced(voc)
      && |controllers| == |l.controllers|
      && Block(controllers, 0, l.controllers, ControllerRule(voc, rec))
      && |head| == HeadLength(l) && HeadLaid(head, l, lookup, voc, rec)
  {
    var deps := CaptureDependencies(l.processors, l.controllers);
    if deps.Err? {
      return Err(deps.fault);
    }
    var (voc, names) := deps.value;
    ghost var rec := Recorded(ComponentKeys(l.processors, l.controllers));
    ComponentsRecorded(l.processors, l.controllers);
    var controllers := CaptureControllers(l.controllers, names, voc, rec);
    var head := CaptureHead(l, names, voc, rec, lookup);
    if head.Err? {
      return Err(head.fault);
    }
    r := Ok((voc, controllers, head.value));
  }

  /** The port, processor, funnel and label loops, in that order. */
  method CaptureHead(l: GroupListing, names: map<string, string>, ghost voc: Vocabulary,
                     ghost rec: map<string, (string, Bundle)>, lookup: map<string, seq<ConnectionEntity>>)
    returns (r: Result<seq<Element>>)
    requires Names(voc, names, rec)
    requires forall i :: 0 <= i < |l.processors| ==> l.processors[i].id in rec
    ensures r.Ok? <==> RulesAllReadable(l.processors)
    ensures r.Ok? ==> |r.value| == HeadLength(l) && HeadLaid(r.value, l, lookup, voc, rec)
  {
    var ins := CapturePorts(l.inputPorts, lookup);
    var outs := CapturePorts(l.outputPorts, lookup);
    var procs := CaptureProcessors(l.processors, names, voc, rec, lookup);
    if procs.Err? {
      return Err(procs.fault);
    }
    var funnels := CaptureFunnels(l.funnels, lookup);
    var labels := CaptureLabels(l.labels);
    HeadLaidOut(ins, outs, procs.value, funnels, labels, l, lookup, voc, rec);
    r := Ok(ins + outs + procs.value + funnels + labels);
  }

  // ---------------------------------------------------------------------
  // The list of templates

  /** Some template of the list is stored under file name f. */
  predicate Listed(f: string, ts: seq<Template>) {
    exists k :: 0 <= k < |ts| && Importing.FileName(ts[k]) == f
  }

  /** Every template reference of t's components names a template of the list. */
  predicate Resolved(t: Template, ts: seq<Template>) {
    forall j :: 0 <= j < |t.components| && t.components[j].template.Some? ==> Listed(t.components[j].template.value, ts)
  }

  /** The list is closed under template references. */
  predicate Closed(ts: seq<Template>) {
    forall i :: 0 <= i < |ts| ==> Resolved(ts[i], ts)
  }

  /** b is a (possibly longer) list that starts with a. */
  predicate Extends(a: seq<Template>, b: seq<Template>) {
    |a| <= |b| && b[..|a|] == a
  }

  lemma ExtendsTrans(a: seq<Template>, b: seq<Template>, c: seq<Template>)
    requires Extends(a, b) && Extends(b, c)
    ensures Extends(a, c)
  {
    assert c[..|a|] == c[..|b|][..|a|];
  }

  /** What is listed stays listed as the list grows. */
  lemma ListedExtends(a: seq<Template>, b: seq<Template>)
    requires Extends(a, b)
    ensures forall f :: Listed(f, a) ==> Listed(f, b)
  {
    forall f | Listed(f, a) ensures Listed(f, b) {
      var k :| 0 <= k < |a| && Importing.FileName(a[k]) == f;
      assert b[k] == b[..|a|][k];
    }
  }

  /** A template without components can be appended to a closed list. */
  lemma ClosedAppend(ts: seq<Template>, t: Template)
    requires Closed(ts) && t.components == []
    ensures Closed(ts + [t])
  {
    var ts' := ts + [t];
    assert ts'[..|ts|] == ts;
    ListedExtends(ts, ts');
    forall i | 0 <= i < |ts'| ensures Resolved(ts'[i], ts') {
      if i < |ts| {
        assert ts'[i] == ts[i];
      }
    }
  }

  /** A template can replace one of the same name when its references resolve. */
  lemma ClosedReplace(ts: seq<Template>, pos: nat, t: Template)
    requires Closed(ts) && pos < |ts| && t.name == ts[pos].name && Resolved(t, ts)
    ensures Closed(ts[pos := t])
  {
    var ts' := ts[pos := t];
    forall f | Listed(f, ts) ensures Listed(f, ts') {
      var k :| 0 <= k < |ts| && Importing.FileName(ts[k]) == f;
      assert Importing.FileName(ts'[k]) == f;
    }
    forall i | 0 <= i < |ts'| ensures Resolved(ts'[i], ts') {
      if i != pos {
        assert ts'[i] == ts[i];
      }
    }
  }

  /** The element at index j of a block follows the rule. */
  lemma BlockAt<E, T>(comps: seq<E>, start: nat, xs: seq<T>, captured: (E, T) -> bool, j: nat)
    requires Block(comps, start, xs, captured) && start <= j < start + |xs|
    ensures captured(comps[j], xs[j - start])
  {
    assert comps[start + (j - start)] == comps[j];
  }

  /** Only the process group components refer to templates, each to the one named by its id. */
  lemma LaidResolved(t: Template, l: GroupListing, lookup: map<string, seq<ConnectionEntity>>, voc: Vocabulary,
                     rec: map<string, (string, Bundle)>, remotes: map<string, RemoteGroupEntity>, ts: seq<Template>)
    requires Laid(t.components, l, lookup, voc, rec, remotes)
    requires forall i :: 0 <= i < |l.processGroups| ==> Listed(l.processGroups[i].id + YAML_EXT, ts)
    ensures Resolved(t, ts)
  {
    var comps := t.components;
    var o1 := |l.inputPorts|;
    var o2 := o1 + |l.outputPorts|;
    var o3 := o2 + |l.processors|;
    var o4 := o3 + |l.funnels|;
    var o5 := HeadLength(l);
    var o6 := o5 + |l.processGroups|;
    forall j | 0 <= j < |comps| && comps[j].template.Some? ensures Listed(comps[j].template.value, ts) {
      if j < o1 {
        BlockAt(comps, 0, l.inputPorts, PortRule(lookup), j);
      } else if j < o2 {
        BlockAt(comps, o1, l.outputPorts, PortRule(lookup), j);
      } else if j < o3 {
        BlockAt(comps, o2, l.processors, ProcessorRule(lookup, voc, rec), j);
      } else if j < o4 {
        BlockAt(comps, o3, l.funnels, FunnelRule(lookup), j);
      } else if j < o5 {
        BlockAt(comps, o4, l.labels, LabelRule(), j);
      } else if j < o6 {
        BlockAt(comps, o5, l.processGroups, GroupRule(lookup), j);
      } else {
        BlockAt(comps, o6, l.remoteGroups, RemoteRule(remotes, lookup), j);
      }
    }
  }

  // ---------------------------------------------------------------------
  // The export

  /**
   * A group can be exported within fuel nested calls: it is listed, its
   * scope can be captured, its process groups can be exported one level
   * down, and every remote process group it lists can be fetched.
   */
  ghost predicate Exportable(flow: Flow, id: string, fuel: nat)
    decreases fuel
  {
    fuel > 0 && id in flow.groups
    && var l := flow.groups[id];
    TypesNamed(l) && RulesAllReadable(l.processors)
    && (forall i :: 0 <= i < |l.processGroups| ==> Exportable(flow, l.processGroups[i].id, fuel - 1))
    && (forall i :: 0 <= i < |l.remoteGroups| ==> l.remoteGroups[i].id in flow.remotes)
  }

  /**
   * t is the template of group id: named by the id, with a vocabulary
   * that places every name once, one controller per listed controller
   * service, and the components laid out in order.
   */
  ghost predicate ScopeCaptured(t: Template, id: string, flow: Flow) {
    id in flow.groups
    && var l := flow.groups[id];
    var rec := Recorded(ComponentKeys(l.processors, l.controllers));
    t.name == Some(id) && SinglyPlaced(t.dependencies)
    && |t.controllers| == |l.controllers| && Block(t.controllers, 0, l.controllers, ControllerRule(t.dependencies, rec))
    && Laid(t.components, l, BucketsOf(l.connections), t.dependencies, rec, flow.remotes)
  }

  /** ScopeCaptured, kept under a quantifier so that callers that only pass the template on do not unfold it. */
  ghost predicate CapturedAs(t: Template, id: string, flow: Flow) {
    forall g: string :: g == id ==> ScopeCaptured(t, g, flow)
  }

  /** The head of a captured template, and its vocabulary. */
  lemma CapturedHead(t: Template, id: string, flow: Flow)
    requires id in flow.groups && CapturedAs(t, id, flow)
    ensures var l := flow.groups[id];
      SinglyPlaced(t.dependencies)
      && HeadLaid(t.components, l, BucketsOf(l.connections), t.dependencies, Recorded(ComponentKeys(l.processors, l.controllers)))
  {
    assert ScopeCaptured(t, id, flow);
  }

  /** The controllers of a captured template, and its vocabulary. */
  lemma CapturedControllers(t: Template, id: string, flow: Flow)
    requires id in flow.groups && CapturedAs(t, id, flow)
    ensures var l := flow.groups[id];
      SinglyPlaced(t.dependencies) && |t.controllers| == |l.controllers|
      && Block(t.controllers, 0, l.controllers, ControllerRule(t.dependencies, Recorded(ComponentKeys(l.processors, l.controllers))))
  {
    assert ScopeCaptured(t, id, flow);
  }

  /** ExportCommand: the flow it reads, and the list of templates it fills. */
  class Exporter {
    const flow: Flow
    var templates: seq<Template>

    constructor (flow: Flow)
      ensures this.flow == flow && templates == []
    {
      this.flow := flow;
      templates := [];
    }

    /** run: start from the root group with an empty list. */
    method Run(fuel: nat) returns (r: Result<Template>)
      modifies this
      ensures Closed(templates)
      ensures r.Ok? <==> Exportable(flow, "root", fuel)
      ensures r.Ok? ==> |templates| > 0 && templates[0] == r.value && ScopeCaptured(r.value, "root", flow)
    {
      templates := [];
      r := ConvertToTemplateYml("root", fuel);
      if r.Ok? {
        assert ScopeCaptured(r.value, "root", flow);
      }
    }

    /**
     * convertToTemplateYML: the group's template is listed before it is
     * filled in, so that the templates of the groups inside it follow it.
     */
    method ConvertToTemplateYml(processGroupId: string, fuel: nat) returns (r: Result<Template>)
      requires Closed(templates)
      modifies this
      decreases fuel, 1
      ensures Extends(old(templates), templates) && Closed(templates)
      ensures fuel == 0 ==> r == Err(StackOverflow)
      ensures fuel > 0 && processGroupId !in flow.groups ==> r == Err(ApiError)
      ensures r.Ok? <==> Exportable(flow, processGroupId, fuel)
      ensures r.Ok? ==> |old(templates)| < |templates| && templates[|old(templates)|] == r.value
      ensures r.Ok? ==> r.value.name == Some(processGroupId) && CapturedAs(r.value, processGroupId, flow)
    {
      if fuel == 0 {
        return Err(StackOverflow);
      }
      if processGroupId !in flow.groups {
        return Err(ApiError);
      }
      var l := flow.groups[processGroupId];
      var lookup := GroupConnections(l.connections);
      var pos := |templates|;
      var placeholder := Template(Some(processGroupId), map[], [], []);
      ClosedAppend(templates, placeholder);
      templates := templates + [placeholder];
      var leaves := CaptureLeaves(l, lookup);
      if leaves.Err? {
        return Err(leaves.fault);
      }
      var (voc, controllers, head) := leaves.value;
      ghost var rec := Recorded(ComponentKeys(l.processors, l.controllers));
      ghost var listed := templates;
      var groups := CaptureGroups(l.processGroups, lookup, fuel - 1);
      if groups.Err? {
        ExtendsTrans(old(templates), listed, templates);
        return Err(groups.fault);
      }
      var rgs := CaptureRemoteGroups(l.remoteGroups, flow.remotes, lookup);
      if rgs.Err? {
        ExtendsTrans(old(templates), listed, templates);
        return Err(rgs.fault);
      }
      var t := Template(Some(processGroupId), voc, controllers, head + groups.value + rgs.value);
      LaidOut(head, groups.value, rgs.value, l, lookup, voc, rec, flow.remotes);
      LaidResolved(t, l, lookup, voc, rec, flow.remotes, templates);
      assert templates[..|listed|][pos] == placeholder;
      ClosedReplace(templates, pos, t);
      ghost var filled := templates;
      templates := templates[pos := t];
      assert templates[..|old(templates)|] == filled[..|old(templates)|];
      ExtendsTrans(old(templates), listed, filled);
      r := Ok(t);
    }

    /** The process group loop: each group is converted first, then referred to by its template's name. */
    method CaptureGroups(pgs: seq<ProcessGroupEntity>, lookup: map<string, seq<ConnectionEntity>>, fuel: nat)
      returns (r: Result<seq<Element>>)
      requires Closed(templates)
      modifies this
      decreases fuel, 2
      ensures Extends(old(templates), templates) && Closed(templates)
      ensures r.Ok? <==> forall i :: 0 <= i < |pgs| ==> Exportable(flow, pgs[i].id, fuel)
      ensures r.Ok? ==> |r.value| == |pgs| && Block(r.value, 0, pgs, GroupRule(lookup))
      ensures r.Ok? ==> forall i :: 0 <= i < |pgs| ==> Listed(pgs[i].id + YAML_EXT, templates)
    {
      var out := [];
      var i := 0;
      while i < |pgs|
        invariant 0 <= i <= |pgs| && |out| == i
        invariant Extends(old(templates), templates) && Closed(templates)
        invariant forall j :: 0 <= j < i ==> Exportable(flow, pgs[j].id, fuel)
        invariant forall j :: 0 <= j < i ==> GroupCaptured(out[j], pgs[j], lookup)
        invariant forall j :: 0 <= j < i ==> Listed(pgs[j].id + YAML_EXT, templates)
      {
        ghost var before := templates;
        var t := ConvertToTemplateYml(pgs[i].id, fuel);
        ExtendsTrans(old(templates), before, templates);
        if t.Err? {
          return Err(t.fault);
        }
        var e := ElementYml.FromProcessGroup(pgs[i], t.value.name, Get(lookup, pgs[i].id));
        ListedExtends(before, templates);
        assert Importing.FileName(templates[|before|]) == pgs[i].id + YAML_EXT;
        out := out + [e];
        i := i + 1;
      }
      r := Ok(out);
    }
  }

  // ---------------------------------------------------------------------
  // What the import gets back

  /** The fuel only bounds the nesting: a group exportable with some fuel is exportable with more. */
  lemma {:induction false} ExportableMoreFuel(flow: Flow, id: string, f: nat, g: nat)
    requires f <= g && Exportable(flow, id, f)
    ensures Exportable(flow, id, g)
    decreases f
  {
    var l := flow.groups[id];
    forall i | 0 <= i < |l.processGroups| ensures Exportable(flow, l.processGroups[i].id, g - 1) {
      ExportableMoreFuel(flow, l.processGroups[i].id, f - 1, g - 1);
    }
  }

  /**
   * The import can load what the export lists: "root.yaml" is indexed when
   * the root group's template comes first, and every template reference
   * of every component is indexed.
   */
  lemma ExportedTemplatesIndexed(ts: seq<Template>)
    requires Closed(ts)
    ensures |ts| > 0 && ts[0].name == Some("root") ==> "root.yaml" in Importing.TemplateIndex(ts)
    ensures forall i, j :: 0 <= i < |ts| && 0 <= j < |ts[i].components| && ts[i].components[j].template.Some? ==>
              ts[i].components[j].template.value in Importing.TemplateIndex(ts)
  {
    var db := Importing.TemplateIndex(ts);
    if |ts| > 0 && ts[0].name == Some("root") {
      assert Importing.FileName(ts[0]) == "root.yaml";
    }
    forall i, j | 0 <= i < |ts| && 0 <= j < |ts[i].components| && ts[i].components[j].template.Some?
      ensures ts[i].components[j].template.value in db
    {
      assert Resolved(ts[i], ts);
      var k :| 0 <= k < |ts| && Importing.FileName(ts[k]) == ts[i].components[j].template.value;
    }
  }

  /** The entry recorded for the j-th processor of a scope is its own, when no later component shares its id. */
  lemma ProcessorRecorded(ps: seq<ProcessorEntity>, cs: seq<ControllerServiceEntity>, j: nat)
    requires j < |ps|
    requires forall k :: j < k < |ps| ==> ps[k].id != ps[j].id
    requires forall k :: 0 <= k < |cs| ==> cs[k].id != ps[j].id
    ensures ps[j].id in Recorded(ComponentKeys(ps, cs))
    ensures Recorded(ComponentKeys(ps, cs))[ps[j].id] == (ps[j].typeName, ps[j].bundle)
  {
    var keys := ComponentKeys(ps, cs);
    forall k | j < k < |keys| ensures keys[k].0 != keys[j].0 {
      if k >= |ps| {
        assert keys[k].0 == cs[k - |ps|].id;
      }
    }
    RecordedLast(keys, j);
  }

  /** The entry recorded for the j-th controller service is its own, when no later service shares its id. */
  lemma ControllerRecorded(ps: seq<ProcessorEntity>, cs: seq<ControllerServiceEntity>, j: nat)
    requires j < |cs|
    requires forall k :: j < k < |cs| ==> cs[k].id != cs[j].id
    ensures cs[j].id in Recorded(ComponentKeys(ps, cs))
    ensures Recorded(ComponentKeys(ps, cs))[cs[j].id] == (cs[j].typeName, cs[j].bundle)
  {
    var keys := ComponentKeys(ps, cs);
    var n := |ps| + j;
    forall k | n < k < |keys| ensures keys[k].0 != keys[n].0 {
      assert keys[k].0 == cs[k - |ps|].id;
    }
    RecordedLast(keys, n);
  }

  /** The j-th processor's element sits after the ports, typed by a name placed with the processor's own type and bundle. */
  lemma ProcessorAt(comps: seq<Element>, l: GroupListing, lookup: map<string, seq<ConnectionEntity>>, voc: Vocabulary,
                    rec: map<string, (string, Bundle)>, j: nat)
    requires HeadLaid(comps, l, lookup, voc, rec) && j < |l.processors|
    requires l.processors[j].id in rec && rec[l.processors[j].id] == (l.processors[j].typeName, l.processors[j].bundle)
    ensures |l.inputPorts| + |l.outputPorts| + j < |comps|
    ensures var e := comps[|l.inputPorts| + |l.outputPorts| + j];
      GetType(e).Some? && Placed(voc, GetType(e).value, l.processors[j].bundle, l.processors[j].typeName)
  {
    var o2 := |l.inputPorts| + |l.outputPorts|;
    BlockAt(comps, o2, l.processors, ProcessorRule(lookup, voc, rec), o2 + j);
    assert ProcessorCaptured(comps[o2 + j], l.processors[j], lookup, voc, rec);
  }

  /** The controller a captured template holds for the j-th controller service of its group. */
  lemma ControllerElement(t: Template, id: string, flow: Flow, j: nat)
    requires id in flow.groups && CapturedAs(t, id, flow) && j < |flow.groups[id].controllers|
    ensures var l := flow.groups[id];
      j < |t.controllers|
      && ControllerCaptured(t.controllers[j], l.controllers[j], t.dependencies, Recorded(ComponentKeys(l.processors, l.controllers)))
      && SinglyPlaced(t.dependencies)
  {
    CapturedControllers(t, id, flow);
    var l := flow.groups[id];
    var rec := Recorded(ComponentKeys(l.processors, l.controllers));
    BlockAt(t.controllers, 0, l.controllers, ControllerRule(t.dependencies, rec), j);
  }

  /**
   * A processor's type survives the round trip: the import's dependency
   * lookup maps the type of the element captured for it back to the
   * processor's type and bundle, provided no later processor or
   * controller service of the scope shares its id.
   */
  lemma ProcessorTypeRoundTrip(t: Template, id: string, flow: Flow, j: nat)
    requires id in flow.groups && CapturedAs(t, id, flow)
    requires j < |flow.groups[id].processors|
    requires forall k :: j < k < |flow.groups[id].processors| ==>
               flow.groups[id].processors[k].id != flow.groups[id].processors[j].id
    requires forall k :: 0 <= k < |flow.groups[id].controllers| ==>
               flow.groups[id].controllers[k].id != flow.groups[id].processors[j].id
    ensures var l := flow.groups[id];
      var k := |l.inputPorts| + |l.outputPorts| + j;
      k < |t.components| && GetType(t.components[k]).Some?
      && LooksUp(t.dependencies, GetType(t.components[k]).value, l.processors[j].typeName, l.processors[j].bundle)
  {
    var l := flow.groups[id];
    CapturedHead(t, id, flow);
    ProcessorRecorded(l.processors, l.controllers, j);
    ProcessorAt(t.components, l, BucketsOf(l.connections), t.dependencies, Recorded(ComponentKeys(l.processors, l.controllers)), j);
    var e := t.components[|l.inputPorts| + |l.outputPorts| + j];
    LookupFindsPlacement(t.dependencies, GetType(e).value, l.processors[j].bundle, l.processors[j].typeName);
  }

  /** A controller service's type survives the round trip likewise, when no later service of the scope shares its id. */
  lemma ControllerTypeRoundTrip(t: Template, id: string, flow: Flow, j: nat)
    requires id in flow.groups && CapturedAs(t, id, flow)
    requires j < |flow.groups[id].controllers|
    requires forall k :: j < k < |flow.groups[id].controllers| ==>
               flow.groups[id].controllers[k].id != flow.groups[id].controllers[j].id
    ensures var l := flow.groups[id];
      j < |t.controllers| && t.controllers[j].typeName.Some?
      && LooksUp(t.dependencies, t.controllers[j].typeName.value, l.controllers[j].typeName, l.controllers[j].bundle)
  {
    var l := flow.groups[id];
    ControllerElement(t, id, flow, j);
    ControllerRecorded(l.processors, l.controllers, j);
    LookupFindsPlacement(t.dependencies, t.controllers[j].typeName.value, l.controllers[j].bundle, l.controllers[j].typeName);
  }
}
