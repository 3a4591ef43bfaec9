/**
 * ImportCommand: rebuilds a flow from a set of templates. The templates are
 * indexed by file name, and the import starts from "root.yaml" in the live
 * root group. Each scope runs four phases in a fixed order: process groups
 * (each group's own template is imported into it at once), controller
 * services, the remaining canvas elements, and finally the connections,
 * which are resolved through the tracker's (group, name, type) index.
 *
 * A fault (a Java exception) stops the whole import; what was
 * created before it stays created.
 */
module Importing {
  import opened Wrappers
  import opened Text
  import opened HelperYml
  import opened Records
  import opened FreshIds
  import opened Workspaces
  import opened PropertyRewrite
  import opened DependencyBuilding
  import OT = ObjectTracking
  import OB = ObjectBuilding
  import ElementYml

  // ---------------------------------------------------------------------
  // The template index (run)

  /** The file name a template is stored and referenced under; a null name renders as "null". */
  function FileName(t: Template): string {
    Str(t.name) + YAML_EXT
  }

  /** The index of the first n templates. */
  function IndexUpTo(templates: seq<Template>, n: nat): (db: map<string, Template>)
    requires n <= |templates|
    ensures forall i :: 0 <= i < n ==> FileName(templates[i]) in db
  {
    if n == 0 then map[]
    else IndexUpTo(templates, n - 1)[FileName(templates[n - 1]) := templates[n - 1]]
  }

  /** Every entry is one of the first n templates, stored under its own file name. */
  lemma {:induction false} IndexEntries(templates: seq<Template>, n: nat, k: string)
    requires n <= |templates| && k in IndexUpTo(templates, n)
    ensures FileName(IndexUpTo(templates, n)[k]) == k
    ensures exists i :: 0 <= i < n && IndexUpTo(templates, n)[k] == templates[i]
  {
    if FileName(templates[n - 1]) != k {
      IndexEntries(templates, n - 1, k);
    }
  }

  /** Of two templates with one file name, the later one is kept. */
  lemma {:induction false} IndexLastWins(templates: seq<Template>, n: nat, i: nat)
    requires i < n <= |templates|
    requires forall j :: i < j < n ==> FileName(templates[j]) != FileName(templates[i])
    ensures IndexUpTo(templates, n)[FileName(templates[i])] == templates[i]
  {
    var key := FileName(templates[i]);
    var before := IndexUpTo(templates, n - 1);
    assert IndexUpTo(templates, n) == before[FileName(templates[n - 1]) := templates[n - 1]];
    if i < n - 1 {
      IndexLastWins(templates, n - 1, i);
      assert FileName(templates[n - 1]) != key;
    }
  }

  /** templateDB: file name -> template. */
  function TemplateIndex(templates: seq<Template>): (db: map<string, Template>)
    ensures forall i :: 0 <= i < |templates| ==> FileName(templates[i]) in db
  {
    IndexUpTo(templates, |templates|)
  }

  /** What is stored under a file name is a template of that name. */
  lemma TemplateIndexEntry(templates: seq<Template>, k: string)
    requires k in TemplateIndex(templates)
    ensures TemplateIndex(templates)[k] in templates && FileName(TemplateIndex(templates)[k]) == k
  {
    IndexEntries(templates, |templates|, k);
  }

  /** A template whose file name no later template repeats is the one stored under it. */
  lemma TemplateIndexLastWins(templates: seq<Template>, i: nat)
    requires i < |templates|
    requires forall j :: i < j < |templates| ==> FileName(templates[j]) != FileName(templates[i])
    ensures TemplateIndex(templates)[FileName(templates[i])] == templates[i]
  {
    IndexLastWins(templates, |templates|, i);
  }

  /** The indexing loop of run. */
  method IndexTemplates(templates: seq<Template>) returns (db: map<string, Template>)
    ensures db == TemplateIndex(templates)
  {
    db := map[];
    var i := 0;
    while i < |templates|
      invariant 0 <= i <= |templates|
      invariant db == IndexUpTo(templates, i)
    {
      db := db[FileName(templates[i]) := templates[i]];
      i := i + 1;
    }
  }

  // ---------------------------------------------------------------------
  // createDependencyLookup

  /** Every entry of the lookup is a placement in the vocabulary. */
  predicate Sound(acc: DependencyLookup, voc: Vocabulary) {
    forall n :: n in acc ==> Placed(voc, n, acc[n].1, acc[n].0)
  }

  /** The innermost loop: each canonical name of one bundle, in iteration order. */
  function PutNames(acc: DependencyLookup, voc: Vocabulary, b: Bundle, names: seq<string>): (r: DependencyLookup)
    requires Sound(acc, voc)
    requires forall n :: n in names ==> n in Entry(voc, b)
    ensures Sound(r, voc)
    ensures acc.Keys <= r.Keys
    ensures forall n :: n in names ==> n in r
    decreases |names|
  {
    if names == [] then acc
    else PutNames(acc[names[0] := (Entry(voc, b)[names[0]], b)], voc, b, names[1..])
  }

  /** The version loop of one group and artifact. */
  function PutVersions(acc: DependencyLookup, voc: Vocabulary, g: string, a: string, versions: seq<string>): (r: DependencyLookup)
    requires Sound(acc, voc)
    ensures Sound(r, voc)
    ensures acc.Keys <= r.Keys
    ensures forall v, n :: v in versions && n in Entry(voc, Bundle(g, a, v)) ==> n in r
    decreases |versions|
  {
    if versions == [] then acc
    else
      var b := Bundle(g, a, versions[0]);
      var once := PutNames(acc, voc, b, SortedElements(Entry(voc, b).Keys));
      PutVersions(once, voc, g, a, versions[1..])
  }

  /** The artifact loop of one group. */
  function PutArtifacts(acc: DependencyLookup, voc: Vocabulary, g: string, artifacts: seq<string>): (r: DependencyLookup)
    requires Sound(acc, voc)
    requires g in voc
    ensures Sound(r, voc)
    ensures acc.Keys <= r.Keys
    ensures forall b: Bundle, n :: b.group == g && b.artifact in artifacts && n in Entry(voc, b) ==> n in r
    decreases |artifacts|
  {
    if artifacts == [] then acc
    else
      var a := artifacts[0];
      var versions := if a in voc[g] then SortedElements(voc[g][a].Keys) else [];
      var once := PutVersions(acc, voc, g, a, versions);
      assert forall b: Bundle, n :: b.group == g && b.artifact == a && n in Entry(voc, b) ==> n in once by {
        forall b: Bundle, n | b.group == g && b.artifact == a && n in Entry(voc, b) ensures n in once {
          assert b == Bundle(g, a, b.version);
          assert b.version in versions;
        }
      }
      PutArtifacts(once, voc, g, artifacts[1..])
  }

  /** The group loop. */
  function PutGroups(acc: DependencyLookup, voc: Vocabulary, groups: seq<string>): (r: DependencyLookup)
    requires Sound(acc, voc)
    ensures Sound(r, voc)
    ensures acc.Keys <= r.Keys
    ensures forall b: Bundle, n :: b.group in groups && n in Entry(voc, b) ==> n in r
    decreases |groups|
  {
    if groups == [] then acc
    else
      var g := groups[0];
      if g !in voc then PutGroups(acc, voc, groups[1..])
      else
        var once := PutArtifacts(acc, voc, g, SortedElements(voc[g].Keys));
        PutGroups(once, voc, groups[1..])
  }

  /**
   * createDependencyLookup: the vocabulary flattened to canonical name ->
   * (type, bundle). The nested maps are visited in ascending key order (the
   * order in which the written vocabulary is read back); a name found under
   * two bundles keeps the one visited last.
   */
  function DependencyLookupOf(voc: Vocabulary): (r: DependencyLookup)
    ensures forall n :: n in r ==> Placed(voc, n, r[n].1, r[n].0)
    ensures forall b: Bundle, n :: n in Entry(voc, b) ==> n in r
  {
    PutGroups(map[], voc, SortedElements(voc.Keys))
  }

  /**
   * Any lookup that is sound for a vocabulary built from one binding per
   * name, and covers it, is that set of bindings.
   */
  lemma CoveringLookupIsBindings(bundles: map<string, Bundle>, types: map<string, string>, voc: Vocabulary,
                                 r: DependencyLookup)
    requires bundles.Keys == types.Keys
    requires forall n :: n in bundles ==> Placed(voc, n, bundles[n], types[n])
    requires forall b, n :: n in Entry(voc, b) ==> n in bundles && bundles[n] == b && types[n] == Entry(voc, b)[n]
    requires Sound(r, voc)
    requires forall b: Bundle, n :: n in Entry(voc, b) ==> n in r
    ensures r == map n | n in bundles :: (types[n], bundles[n])
  {
    var m := map n | n in bundles :: (types[n], bundles[n]);
    forall n | n in r ensures n in m && r[n] == m[n] {
      assert n in Entry(voc, r[n].1);
    }
    forall n | n in m ensures n in r {
      assert n in Entry(voc, bundles[n]);
    }
    assert r.Keys == m.Keys;
  }

  /**
   * Capture then import: for a vocabulary as DependencyBuilder.build makes
   * it (every name placed once, under its own bundle), the lookup returns
   * for every name exactly the type and bundle it was bound to.
   */
  lemma BuiltVocabularyLookup(bundles: map<string, Bundle>, types: map<string, string>, voc: Vocabulary)
    requires bundles.Keys == types.Keys
    requires forall n :: n in bundles ==> Placed(voc, n, bundles[n], types[n])
    requires forall b, n :: n in Entry(voc, b) ==> n in bundles && bundles[n] == b && types[n] == Entry(voc, b)[n]
    ensures DependencyLookupOf(voc) == map n | n in bundles :: (types[n], bundles[n])
  {
    CoveringLookupIsBindings(bundles, types, voc, DependencyLookupOf(voc));
  }

  // ---------------------------------------------------------------------
  // The state an import reads and changes

  /** The tracker and the server, as the import sees them. */
  datatype World = World(
    named: OT.NamedIndex,          // (group, name) -> live id -> type
    ids: map<NString, string>,     // template id -> live id
    next: nat,                     // the server's creation counter
    calls: seq<Call>)              // the requests sent so far

  /** The world after a phase or an import, and the fault that stopped it, if any. */
  datatype Outcome = Outcome(world: World, fault: Option<Fault>)

  function Done(w: World): Outcome { Outcome(w, None) }

  function Failed(w: World, f: Fault): Outcome { Outcome(w, Some(f)) }

  /** A create request: the fresh id and the world with the request logged. */
  function Create(w: World, c: Call): (r: (string, World))
    ensures r.0 == NodeId(w.next)
    ensures r.1 == w.(next := w.next + 1, calls := w.calls + [c])
  {
    (NodeId(w.next), w.(next := w.next + 1, calls := w.calls + [c]))
  }

  /**
   * A create request's id is one no earlier request got: recorded under a
   * template id, it keeps the tracker's ids among those the server issued.
   */
  lemma CreateIsFresh(w: World, c: Call, templateId: NString)
    requires AllIssued(w.ids.Values, w.next)
    ensures Create(w, c).0 !in w.ids.Values
    ensures AllIssued(w.ids[templateId := Create(w, c).0].Values, Create(w, c).1.next)
  {
    NextIsFresh(w.ids.Values, w.next);
    assert w.ids[templateId := NodeId(w.next)].Values <= w.ids.Values + {NodeId(w.next)};
  }

  /** tracker.track(group, name, type, id) */
  function Track(w: World, g: string, n: NString, t: NString, id: string): World {
    w.(named := OT.TrackNamed(w.named, Some(g), n, t, id))
  }

  /** The live id of the root group stands in for the alias "root". */
  function ScopeOf(processGroupId: string, rootId: string): string {
    if processGroupId == "root" then rootId else processGroupId
  }

  /** Created groups never carry the alias, so only the top-level call resolves it. */
  lemma NodeIdIsNotRoot(k: nat)
    ensures NodeId(k) != "root"
  {
    assert NodeId(k)[0] == 'n';
  }

  // ---------------------------------------------------------------------
  // The loops of the import: each runs a step per item on the world the
  // previous step left, and the first fault ends it

  /** The outcome after the first n items. */
  function Steps<X>(step: (World, X) -> Outcome, w: World, xs: seq<X>, n: nat): Outcome
    requires n <= |xs|
  {
    if n == 0 then Done(w)
    else
      var o := Steps(step, w, xs, n - 1);
      if o.fault.Some? then o else step(o.world, xs[n - 1])
  }

  /** Once a step faults, the later items change nothing. */
  lemma {:induction false} StepsStopAtFault<X>(step: (World, X) -> Outcome, w: World, xs: seq<X>, k: nat, m: nat)
    requires k <= m <= |xs|
    requires Steps(step, w, xs, k).fault.Some?
    ensures Steps(step, w, xs, m) == Steps(step, w, xs, k)
  {
    if m > k {
      StepsStopAtFault(step, w, xs, k, m - 1);
    }
  }

  /** A reflexive and transitive relation that every step keeps holds from the first world to the last. */
  lemma {:induction false} StepsKeep<X>(step: (World, X) -> Outcome, keep: (World, World) -> bool,
                                        w: World, xs: seq<X>, n: nat)
    requires n <= |xs|
    requires forall v :: keep(v, v)
    requires forall a, b, c :: keep(a, b) && keep(b, c) ==> keep(a, c)
    requires forall v, i :: 0 <= i < |xs| ==> keep(v, step(v, xs[i]).world)
    ensures keep(w, Steps(step, w, xs, n).world)
  {
    if n > 0 {
      StepsKeep(step, keep, w, xs, n - 1);
      var o := Steps(step, w, xs, n - 1);
      if o.fault.None? {
        assert keep(o.world, step(o.world, xs[n - 1]).world);
      }
    }
  }

  // The loop invariants: "the first n items, from w, end in o". The fold is
  // kept under a quantifier so that the proof of a loop does not unfold it.

  predicate StepsReach<X>(step: (World, X) -> Outcome, w: World, xs: seq<X>, n: nat, o: Outcome) {
    forall k: nat :: k == n && k <= |xs| ==> Steps(step, w, xs, k) == o
  }

  /** An item on a world reached without fault extends the reach by its step. */
  lemma StepsReachNext<X>(step: (World, X) -> Outcome, w: World, xs: seq<X>, i: nat, v: World)
    requires i < |xs| && StepsReach(step, w, xs, i, Done(v))
    ensures StepsReach(step, w, xs, i + 1, step(v, xs[i]))
  {
    assert Steps(step, w, xs, i) == Done(v);
  }

  /** A loop that stopped at the end or at a fault has reached the whole fold. */
  lemma StepsReachEnd<X>(step: (World, X) -> Outcome, w: World, xs: seq<X>, n: nat, o: Outcome)
    requires n <= |xs| && StepsReach(step, w, xs, n, o)
    requires n == |xs| || o.fault.Some?
    ensures o == Steps(step, w, xs, |xs|)
  {
    assert Steps(step, w, xs, n) == o;
    if n < |xs| {
      StepsStopAtFault(step, w, xs, n, |xs|);
    }
  }

  // ---------------------------------------------------------------------
  // importTemplate and createProcessGroups

  /**
   * importTemplate: the four phases in their fixed order, each on the world
   * the previous one left; a null template faults on its first use.
   */
  function Imported(w: World, rootId: string, processGroupId: string, t: Option<Template>,
                          db: map<string, Template>, fuel: nat): Outcome
    decreases fuel, 3, 0
  {
    var scope := ScopeOf(processGroupId, rootId);
    match t
    case None => Failed(w, NullPointer)
    case Some(tpl) =>
      var groups := GroupsUpTo(w, rootId, scope, tpl.components, db, fuel, |tpl.components|);
      if groups.fault.Some? then groups
      else
        var lookup := DependencyLookupOf(tpl.dependencies);
        var services := ControllersUpTo(groups.world, scope, lookup, tpl.controllers, |tpl.controllers|);
        if services.fault.Some? then services
        else
          var elements := ElementsUpTo(services.world, scope, lookup, tpl.components, |tpl.components|);
          if elements.fault.Some? then elements
          else LinkageOf(elements.world, scope, tpl.components)
  }

  /** The invariant form of "importTemplate from w ends in o", kept under a quantifier so that a caller's proof does not unfold it. */
  predicate ImportReach(w: World, rootId: string, processGroupId: string, t: Option<Template>,
                        db: map<string, Template>, fuel: nat, o: Outcome) {
    forall f: nat :: f == fuel ==> Imported(w, rootId, processGroupId, t, db, f) == o
  }

  /** createProcessGroups over the first n components. */
  function GroupsUpTo(w: World, rootId: string, scope: string, comps: seq<Element>, db: map<string, Template>,
                      fuel: nat, n: nat): Outcome
    requires n <= |comps|
    decreases fuel, 2, n
  {
    if n == 0 then Done(w)
    else
      var o := GroupsUpTo(w, rootId, scope, comps, db, fuel, n - 1);
      if o.fault.Some? then o else GroupStep(o.world, rootId, scope, comps[n - 1], db, fuel)
  }

  /**
   * One component of createProcessGroups: only elements whose stored type
   * names a group kind act, and then the kind is read from getType.
   */
  function GroupStep(w: World, rootId: string, scope: string, e: Element, db: map<string, Template>, fuel: nat): Outcome
    decreases fuel, 1, 0
  {
    if !IsProcessGroup(e.typeName) then Done(w)
    else
      match ValueOf(GetType(e))
      case Err(f) => Failed(w, f)
      case Ok(PROCESS_GROUP) => ProcessGroupStep(w, rootId, scope, e, db, fuel)
      case Ok(REMOTE_PROCESS_GROUP) => Done(RemoteGroupStep(w, scope, e))
      case Ok(_) => Done(w)
  }

  /**
   * makeProcessGroup: the group is created, its comments set by an update,
   * it is tracked by name and by template id, and its template (looked up
   * by file name) is imported into it. Without fuel left the recursion is
   * cut: importTemplate recurses without bound on a template that references
   * itself.
   */
  function ProcessGroupStep(w: World, rootId: string, scope: string, e: Element, db: map<string, Template>, fuel: nat): Outcome
    decreases fuel, 0, 0
  {
    var p := GroupOpened(w, scope, e);
    if fuel == 0 then Failed(p.1, StackOverflow)
    else Imported(p.1, rootId, p.0, if e.template.Some? then Get(db, e.template.value) else None, db, fuel - 1)
  }

  /** The new process group of makeProcessGroup: created, commented, and tracked by name and by template id. */
  function GroupOpened(w: World, scope: string, e: Element): (string, World) {
    var p := Create(w, CreateProcessGroup(scope, e.name, e.position));
    var w1 := p.1.(calls := p.1.calls + [UpdateComments(p.0, e.comment)]);
    (p.0, Track(Track(w1, scope, e.name, Some(Name(PROCESS_GROUP)), p.0), scope, e.id, Some(Name(PROCESS_GROUP)), p.0))
  }

  /** makeRemoteProcessGroup: created with one input port "test port", tracked under a null name and by template id. */
  function RemoteGroupStep(w: World, scope: string, e: Element): World {
    var p := Create(w, CreateRemoteProcessGroup(scope, OB.PropertyOf(e.properties, TARGET_URIS), e.position, ["test port"]));
    Track(Track(p.1, scope, None, Some(Name(REMOTE_PROCESS_GROUP)), p.0), scope, e.id, Some(Name(REMOTE_PROCESS_GROUP)), p.0)
  }

  // ---------------------------------------------------------------------
  // createControllerServices

  /** The lookup entry for a canonical name; a null name finds nothing. */
  function Dependency(lookup: DependencyLookup, name: NString): Option<(string, Bundle)> {
    if name.Some? then Get(lookup, name.value) else None
  }

  /** One controller service: created, tracked by (scope, template id, type) and by template id. */
  function ControllerStep(w: World, scope: string, lookup: DependencyLookup, c: Controller): Outcome {
    match Dependency(lookup, c.typeName)
    case None => Failed(w, NullPointer)
    case Some(dep) =>
      if !OB.AllPresent(c.properties) then Failed(w, NullPointer)
      else
        var p := Create(w, CreateControllerService(scope, dep.0, dep.1, c.name, OB.AsStrings(c.properties)));
        var w1 := Track(p.1, scope, c.id, c.typeName, p.0);
        Done(w1.(ids := w1.ids[c.id := p.0]))
  }

  function ControllerSteps(scope: string, lookup: DependencyLookup): (World, Controller) -> Outcome {
    (v: World, c: Controller) => ControllerStep(v, scope, lookup, c)
  }

  function ControllersUpTo(w: World, scope: string, lookup: DependencyLookup, cs: seq<Controller>, n: nat): Outcome
    requires n <= |cs|
  {
    Steps(ControllerSteps(scope, lookup), w, cs, n)
  }

  // ---------------------------------------------------------------------
  // createElements

  /**
   * One component of createElements: a type found in the lookup is a
   * processor; otherwise the exact kind name decides, group kinds are
   * skipped and any other string is an IllegalArgumentException.
   */
  function ElementStep(w: World, scope: string, lookup: DependencyLookup, e: Element): Outcome {
    var t := GetType(e);
    match Dependency(lookup, t)
    case Some(dep) => Done(ProcessorStep(w, scope, dep, e))
    case None =>
      match ValueOf(t)
      case Err(f) => Failed(w, f)
      case Ok(FUNNEL) => Done(FunnelStep(w, scope, e))
      case Ok(INPUT_PORT) => Done(PortStep(w, scope, INPUT_PORT, e))
      case Ok(LABEL) => Done(LabelStep(w, scope, e))
      case Ok(OUTPUT_PORT) => Done(PortStep(w, scope, OUTPUT_PORT, e))
      case Ok(_) => Done(w)
  }

  /** The processor request: typed through the lookup, its properties with tracked template ids rewritten. */
  function ProcessorRequestOf(w: World, dep: (string, Bundle), e: Element): ProcessorRequest {
    ProcessorRequest(dep.0, dep.1, e.name, e.position, None, Rewritten(e.properties, w.ids), Unscheduled, None)
  }

  /** makeProcessor: created, then tracked by name and by template id under its type. */
  function ProcessorStep(w: World, scope: string, dep: (string, Bundle), e: Element): World {
    var p := Create(w, CreateProcessor(scope, ProcessorRequestOf(w, dep, e)));
    Track(Track(p.1, scope, e.name, GetType(e), p.0), scope, e.id, GetType(e), p.0)
  }

  /** makeFunnel: created, tracked by template id. */
  function FunnelStep(w: World, scope: string, e: Element): World {
    var p := Create(w, CreateFunnel(scope, e.position));
    Track(p.1, scope, e.id, Some(Name(FUNNEL)), p.0)
  }

  /** makeInputPort and makeOutputPort: created, tracked by name. */
  function PortStep(w: World, scope: string, kind: ReservedKind, e: Element): World {
    var p := Create(w, CreatePort(scope, kind, e.name, None, e.position));
    Track(p.1, scope, e.name, Some(Name(kind)), p.0)
  }

  /** makeLabel: created, tracked by its text. */
  function LabelStep(w: World, scope: string, e: Element): World {
    var p := Create(w, CreateLabel(scope, e.comment, None, e.position));
    Track(p.1, scope, e.comment, Some(Name(LABEL)), p.0)
  }

  function ElementSteps(scope: string, lookup: DependencyLookup): (World, Element) -> Outcome {
    (v: World, e: Element) => ElementStep(v, scope, lookup, e)
  }

  function ElementsUpTo(w: World, scope: string, lookup: DependencyLookup, comps: seq<Element>, n: nat): Outcome
    requires n <= |comps|
  {
    Steps(ElementSteps(scope, lookup), w, comps, n)
  }

  // ---------------------------------------------------------------------
  // createLinkage

  /** The first n components by template id. */
  function IdsUpTo(comps: seq<Element>, n: nat): (r: map<NString, Element>)
    requires n <= |comps|
    ensures forall i :: 0 <= i < n ==> comps[i].id in r
  {
    if n == 0 then map[] else IdsUpTo(comps, n - 1)[comps[n - 1].id := comps[n - 1]]
  }

  /** The components by template id (the lookup of createLinkage). */
  function IdIndex(comps: seq<Element>): (r: map<NString, Element>)
    ensures forall i :: 0 <= i < |comps| ==> comps[i].id in r
  {
    IdsUpTo(comps, |comps|)
  }

  lemma {:induction false} IdsEntries(comps: seq<Element>, n: nat, k: NString)
    requires n <= |comps| && k in IdsUpTo(comps, n)
    ensures IdsUpTo(comps, n)[k].id == k
    ensures exists i :: 0 <= i < n && IdsUpTo(comps, n)[k] == comps[i]
  {
    if comps[n - 1].id != k {
      IdsEntries(comps, n - 1, k);
    }
  }

  lemma {:induction false} IdsLastWins(comps: seq<Element>, n: nat, i: nat)
    requires i < n <= |comps|
    requires forall j :: i < j < n ==> comps[j].id != comps[i].id
    ensures IdsUpTo(comps, n)[comps[i].id] == comps[i]
  {
    if i < n - 1 {
      IdsLastWins(comps, n - 1, i);
    }
  }

  /** What the lookup finds under an id is a component with that id. */
  lemma IdIndexEntry(comps: seq<Element>, k: NString)
    requires k in IdIndex(comps)
    ensures IdIndex(comps)[k] in comps && IdIndex(comps)[k].id == k
  {
    IdsEntries(comps, |comps|, k);
  }

  /** Of two components with one id, the later one is kept. */
  lemma IdIndexLastWins(comps: seq<Element>, i: nat)
    requires i < |comps| && forall j :: i < j < |comps| ==> comps[j].id != comps[i].id
    ensures IdIndex(comps)[comps[i].id] == comps[i]
  {
    IdsLastWins(comps, |comps|, i);
  }

  /** The lookup loop of createLinkage. */
  method IndexById(comps: seq<Element>) returns (lookup: map<NString, Element>)
    ensures lookup == IdIndex(comps)
  {
    lookup := map[];
    var i := 0;
    while i < |comps|
      invariant 0 <= i <= |comps|
      invariant lookup == IdsUpTo(comps, i)
    {
      lookup := lookup[comps[i].id := comps[i]];
      i := i + 1;
    }
  }

  /** The endpoint of a port: in the group tracked for the element's id as a process group, else in the scope. */
  function PortEndpoint(named: OT.NamedIndex, scope: string, e: Element): Result<Endpoint> {
    var t := GetType(e);
    var tracked :- OT.Resolve(named, Some(scope), e.id, Some(Name(PROCESS_GROUP)));
    var groupId := if tracked.None? then Some(scope) else tracked;
    var portId :- OT.Resolve(named, groupId, e.name, t);
    var kind :- ConnectableValueOf(t);
    Ok(Endpoint(groupId, portId, None, kind))
  }

  /** The type of a source that is none of the reserved kinds: its exact connectable name, else a processor. */
  function LinkSourceKind(t: NString): ConnectableType {
    match ConnectableValueOf(t)
    case Ok(k) => k
    case Err(_) => Processor
  }

  /**
   * The source of an edge; None for a remote group (the edge is skipped,
   * after its lookups). A process group's source is its output port named
   * by from[0].
   */
  function LinkSource(named: OT.NamedIndex, scope: string, s: Element, input: InputConnection): Result<Option<Endpoint>> {
    var t := GetType(s);
    if IsPort(t) then
      var p :- PortEndpoint(named, scope, s);
      Ok(Some(p))
    else if IsType(PROCESS_GROUP, t) then
      var groupId :- OT.Resolve(named, Some(scope), s.id, t);
      var first :- OB.FirstOf(input.from);
      var portId :- OT.Resolve(named, groupId, first, Some(Name(OUTPUT_PORT)));
      Ok(Some(Endpoint(groupId, portId, first, OutputPort)))
    else if IsType(REMOTE_PROCESS_GROUP, t) then
      var groupId :- OT.Resolve(named, Some(scope), s.id, t);
      var first :- OB.FirstOf(input.from);
      var _ :- OT.Resolve(named, groupId, first, Some(Name(OUTPUT_PORT)));
      Ok(None)
    else
      var id :- OT.Resolve(named, Some(scope), s.id, t);
      Ok(Some(Endpoint(Some(scope), id, None, LinkSourceKind(t))))
  }

  /** The destination fallback as createLinkage has it: it tests the SOURCE element's type. */
  function LinkDestinationKindAsWritten(dstType: NString, srcType: NString): ConnectableType {
    match ConnectableValueOf(dstType)
    case Ok(k) => k
    case Err(_) => if IsProcessGroup(srcType) then InputPort else Processor
  }

  /**
   * The destination fallback as intended: the branch is reached only for a
   * destination that is not a group, so the fallback is a processor.
   */
  function LinkDestinationKind(dstType: NString): ConnectableType {
    match ConnectableValueOf(dstType)
    case Ok(k) => k
    case Err(_) => Processor
  }

  /**
   * An edge from a process group's output port into a processor: as written
   * the destination is typed INPUT_PORT, which names no component with the
   * processor's id; intended is PROCESSOR.
   */
  lemma GroupToProcessorDestination()
    ensures LinkDestinationKindAsWritten(Some("GenerateFlowFile"), Some("PROCESS_GROUP")) == InputPort
    ensures LinkDestinationKind(Some("GenerateFlowFile")) == Processor
  {
    assert IsType(PROCESS_GROUP, Some("PROCESS_GROUP")) by { IsTypeOwnName(PROCESS_GROUP, "PROCESS_GROUP"); }
  }

  /**
   * With the corrected fallback, an edge into a destination of no reserved
   * kind and no exact connectable name is typed PROCESSOR, whatever its
   * source is.
   */
  lemma ProcessorDestinationWhateverSource(named: OT.NamedIndex, scope: string, lookup: map<NString, Element>,
                                           d: Element, input: InputConnection)
    requires IsProcessor(GetType(d)) && ConnectableValueOf(GetType(d)).Err?
    ensures var r := LinkCall(named, scope, lookup, d, input);
      r.Ok? && r.value.Some? ==> r.value.value.destination.kind == Processor && r.value.value.destination.groupId == Some(scope)
  {
    IsProcessorIff(GetType(d));
  }

  /** The destination of an edge; None for a remote group (skipped, after its lookups). */
  function LinkDestination(named: OT.NamedIndex, scope: string, d: Element, input: InputConnection): Result<Option<Endpoint>> {
    var t := GetType(d);
    if IsPort(t) then
      var p :- PortEndpoint(named, scope, d);
      Ok(Some(p))
    else if IsType(PROCESS_GROUP, t) then
      var groupId :- OT.Resolve(named, Some(scope), d.id, t);
      var portId :- OT.Resolve(named, groupId, input.to, Some(Name(INPUT_PORT)));
      Ok(Some(Endpoint(groupId, portId, input.to, InputPort)))
    else if IsType(REMOTE_PROCESS_GROUP, t) then
      var groupId :- OT.Resolve(named, Some(scope), d.id, t);
      var _ :- OT.Resolve(named, groupId, d.id, Some(Name(INPUT_PORT)));
      var _ :- OB.FirstOf(input.from);
      Ok(None)
    else
      var id :- OT.Resolve(named, Some(scope), d.id, t);
      Ok(Some(Endpoint(Some(scope), id, None, LinkDestinationKind(t))))
  }

  /** The request for one edge into `d`, or None when it is skipped. */
  function LinkCall(named: OT.NamedIndex, scope: string, lookup: map<NString, Element>, d: Element,
                    input: InputConnection): Result<Option<Call>> {
    match Get(lookup, input.source)
    case None => Err(NullPointer)
    case Some(s) =>
      var src :- LinkSource(named, scope, s, input);
      if src.None? then Ok(None)
      else
        var dst :- LinkDestination(named, scope, d, input);
        if dst.None? then Ok(None)
        else Ok(Some(CreateConnection(scope, src.value, dst.value, OB.Relationships(GetType(s), input.from))))
  }

  function LinkStep(w: World, scope: string, lookup: map<NString, Element>, d: Element, input: InputConnection): Outcome {
    match LinkCall(w.named, scope, lookup, d, input)
    case Err(f) => Failed(w, f)
    case Ok(None) => Done(w)
    case Ok(Some(c)) => Done(Create(w, c).1)
  }

  function EdgeSteps(scope: string, lookup: map<NString, Element>, d: Element): (World, InputConnection) -> Outcome {
    (v: World, input: InputConnection) => LinkStep(v, scope, lookup, d, input)
  }

  /** The edges into one component, the first n of its inputs. */
  function InputsUpTo(w: World, scope: string, lookup: map<NString, Element>, d: Element, ins: seq<InputConnection>, n: nat): Outcome
    requires n <= |ins|
  {
    Steps(EdgeSteps(scope, lookup, d), w, ins, n)
  }

  /** The edges into one component; a component with null inputs has none. */
  function ComponentLinks(w: World, scope: string, lookup: map<NString, Element>, d: Element): Outcome {
    if d.inputs.None? then Done(w) else InputsUpTo(w, scope, lookup, d, d.inputs.value, |d.inputs.value|)
  }

  function ComponentSteps(scope: string, lookup: map<NString, Element>): (World, Element) -> Outcome {
    (v: World, d: Element) => ComponentLinks(v, scope, lookup, d)
  }

  /** All edges into the first n components. */
  function LinksUpTo(w: World, scope: string, lookup: map<NString, Element>, comps: seq<Element>, n: nat): Outcome
    requires n <= |comps|
  {
    Steps(ComponentSteps(scope, lookup), w, comps, n)
  }

  /** createLinkage */
  function LinkageOf(w: World, scope: string, comps: seq<Element>): Outcome {
    LinksUpTo(w, scope, IdIndex(comps), comps, |comps|)
  }

  // ---------------------------------------------------------------------
  // Properties of the phases

  /** `after` is `before` with more requests appended. */
  predicate Appended(before: seq<Call>, after: seq<Call>) {
    |before| <= |after| && after[..|before|] == before
  }

  lemma AppendedTrans(a: seq<Call>, b: seq<Call>, c: seq<Call>)
    requires Appended(a, b) && Appended(b, c)
    ensures Appended(a, c)
  {
    assert c[..|a|] == c[..|b|][..|a|];
  }

  /** The requests the controller phase sends: services, in the scope. */
  predicate ServiceCall(c: Call, scope: string) {
    c.CreateControllerService? && c.parent == scope
  }

  /** The requests the element phase sends: processors, funnels, ports and labels, in the scope. */
  predicate ElementCall(c: Call, scope: string) {
    (c.CreateProcessor? || c.CreateFunnel? || c.CreatePort? || c.CreateLabel?) && c.parent == scope
  }

  /** The requests the linkage phase sends: connections, in the scope. */
  predicate ConnectionCall(c: Call, scope: string) {
    c.CreateConnection? && c.parent == scope
  }

  /** A phase kind, naming the requests it may send. */
  datatype Phase = Services | Elements | Connections

  predicate PhaseCall(p: Phase, c: Call, scope: string) {
    match p
    case Services => ServiceCall(c, scope)
    case Elements => ElementCall(c, scope)
    case Connections => ConnectionCall(c, scope)
  }

  /** `after` is `before` followed by requests of phase p only. */
  predicate AppendedOnly(p: Phase, scope: string, before: seq<Call>, after: seq<Call>) {
    Appended(before, after) && forall i :: |before| <= i < |after| ==> PhaseCall(p, after[i], scope)
  }

  lemma AppendedOnlyTrans(p: Phase, scope: string, a: seq<Call>, b: seq<Call>, c: seq<Call>)
    requires AppendedOnly(p, scope, a, b) && AppendedOnly(p, scope, b, c)
    ensures AppendedOnly(p, scope, a, c)
  {
    AppendedTrans(a, b, c);
    forall i | |a| <= i < |c| ensures PhaseCall(p, c[i], scope) {
      if i < |b| {
        assert c[i] == c[..|b|][i];
      }
    }
  }

  lemma AppendedOnlyRefl(p: Phase, scope: string)
    ensures forall calls :: AppendedOnly(p, scope, calls, calls)
  {
    forall calls: seq<Call> ensures AppendedOnly(p, scope, calls, calls) {
      assert calls[..|calls|] == calls;
    }
  }

  /** Appending one request of phase p. */
  lemma AppendOne(p: Phase, scope: string, calls: seq<Call>, c: Call)
    requires PhaseCall(p, c, scope)
    ensures AppendedOnly(p, scope, calls, calls + [c])
  {
    assert (calls + [c])[..|calls|] == calls;
  }

  /** One controller service: at most one service request in the scope; on success its template id is tracked. */
  lemma ControllerStepAppends(w: World, scope: string, lookup: DependencyLookup, c: Controller)
    ensures var o := ControllerStep(w, scope, lookup, c);
      AppendedOnly(Services, scope, w.calls, o.world.calls)
      && w.ids.Keys <= o.world.ids.Keys && (o.fault.None? ==> c.id in o.world.ids)
  {
    var o := ControllerStep(w, scope, lookup, c);
    if o.fault.None? {
      var dep := Dependency(lookup, c.typeName).value;
      AppendOne(Services, scope, w.calls, CreateControllerService(scope, dep.0, dep.1, c.name, OB.AsStrings(c.properties)));
    } else {
      assert o.world == w;
    }
  }

  /** The controller phase only appends controller-service requests in the scope. */
  lemma ControllerPhase(w: World, scope: string, lookup: DependencyLookup, cs: seq<Controller>, n: nat)
    requires n <= |cs|
    ensures AppendedOnly(Services, scope, w.calls, ControllersUpTo(w, scope, lookup, cs, n).world.calls)
  {
    var keep := (a: World, b: World) => AppendedOnly(Services, scope, a.calls, b.calls);
    AppendedOnlyRefl(Services, scope);
    forall a: World, b: World, c: World | keep(a, b) && keep(b, c) ensures keep(a, c) {
      AppendedOnlyTrans(Services, scope, a.calls, b.calls, c.calls);
    }
    forall v: World, i | 0 <= i < |cs| ensures keep(v, ControllerSteps(scope, lookup)(v, cs[i]).world) {
      ControllerStepAppends(v, scope, lookup, cs[i]);
    }
    StepsKeep(ControllerSteps(scope, lookup), keep, w, cs, n);
  }

  /** The template ids of the first n controllers are all tracked. */
  predicate TracksFirst(ids: map<NString, string>, cs: seq<Controller>, n: nat)
    requires n <= |cs|
  {
    forall i :: 0 <= i < n ==> cs[i].id in ids
  }

  /** After a controller phase without fault, every controller's template id is tracked. */
  lemma {:induction false} ControllerPhaseTracks(w: World, scope: string, lookup: DependencyLookup, cs: seq<Controller>, n: nat)
    requires n <= |cs|
    ensures var o := ControllersUpTo(w, scope, lookup, cs, n);
      o.fault.None? ==> TracksFirst(o.world.ids, cs, n)
  {
    if n > 0 {
      ControllerPhaseTracks(w, scope, lookup, cs, n - 1);
      var o := ControllersUpTo(w, scope, lookup, cs, n - 1);
      if o.fault.None? {
        var o2 := ControllerStep(o.world, scope, lookup, cs[n - 1]);
        ControllerStepAppends(o.world, scope, lookup, cs[n - 1]);
        if o2.fault.None? {
          assert TracksFirst(o.world.ids, cs, n - 1);
          assert TracksFirst(o2.world.ids, cs, n);
        }
      }
    }
  }

  /** One element: at most one element request in the scope; the template-id map is untouched. */
  lemma ElementStepAppends(w: World, scope: string, lookup: DependencyLookup, e: Element)
    ensures var o := ElementStep(w, scope, lookup, e);
      AppendedOnly(Elements, scope, w.calls, o.world.calls) && o.world.ids == w.ids
  {
    var t := GetType(e);
    match Dependency(lookup, t)
    case Some(dep) =>
      AppendOne(Elements, scope, w.calls, CreateProcessor(scope, ProcessorRequestOf(w, dep, e)));
    case None =>
      match ValueOf(t)
      case Err(_) =>
      case Ok(FUNNEL) => AppendOne(Elements, scope, w.calls, CreateFunnel(scope, e.position));
      case Ok(INPUT_PORT) => AppendOne(Elements, scope, w.calls, CreatePort(scope, INPUT_PORT, e.name, None, e.position));
      case Ok(LABEL) => AppendOne(Elements, scope, w.calls, CreateLabel(scope, e.comment, None, e.position));
      case Ok(OUTPUT_PORT) => AppendOne(Elements, scope, w.calls, CreatePort(scope, OUTPUT_PORT, e.name, None, e.position));
      case Ok(_) =>
  }

  /** The element phase only appends element requests in the scope and never touches the template-id map. */
  lemma ElementPhase(w: World, scope: string, lookup: DependencyLookup, comps: seq<Element>, n: nat)
    requires n <= |comps|
    ensures var o := ElementsUpTo(w, scope, lookup, comps, n);
      AppendedOnly(Elements, scope, w.calls, o.world.calls) && o.world.ids == w.ids
  {
    var keep := (a: World, b: World) => AppendedOnly(Elements, scope, a.calls, b.calls) && b.ids == a.ids;
    AppendedOnlyRefl(Elements, scope);
    forall a: World, b: World, c: World | keep(a, b) && keep(b, c) ensures keep(a, c) {
      AppendedOnlyTrans(Elements, scope, a.calls, b.calls, c.calls);
    }
    forall v: World, i | 0 <= i < |comps| ensures keep(v, ElementSteps(scope, lookup)(v, comps[i]).world) {
      ElementStepAppends(v, scope, lookup, comps[i]);
    }
    StepsKeep(ElementSteps(scope, lookup), keep, w, comps, n);
  }

  /** One edge: at most one connection request in the scope; nothing is tracked. */
  lemma LinkStepAppends(w: World, scope: string, lookup: map<NString, Element>, d: Element, input: InputConnection)
    ensures var o := LinkStep(w, scope, lookup, d, input);
      AppendedOnly(Connections, scope, w.calls, o.world.calls) && o.world.named == w.named && o.world.ids == w.ids
  {
    var call := LinkCall(w.named, scope, lookup, d, input);
    if call.Ok? && call.value.Some? {
      AppendOne(Connections, scope, w.calls, call.value.value);
    }
  }

  /** The edges into one component only append connection requests in the scope and track nothing. */
  lemma InputsPhase(w: World, scope: string, lookup: map<NString, Element>, d: Element, ins: seq<InputConnection>, n: nat)
    requires n <= |ins|
    ensures var o := InputsUpTo(w, scope, lookup, d, ins, n);
      AppendedOnly(Connections, scope, w.calls, o.world.calls) && o.world.named == w.named && o.world.ids == w.ids
  {
    var keep := (a: World, b: World) => AppendedOnly(Connections, scope, a.calls, b.calls) && b.named == a.named && b.ids == a.ids;
    AppendedOnlyRefl(Connections, scope);
    forall a: World, b: World, c: World | keep(a, b) && keep(b, c) ensures keep(a, c) {
      AppendedOnlyTrans(Connections, scope, a.calls, b.calls, c.calls);
    }
    forall v: World, i | 0 <= i < |ins| ensures keep(v, EdgeSteps(scope, lookup, d)(v, ins[i]).world) {
      LinkStepAppends(v, scope, lookup, d, ins[i]);
    }
    StepsKeep(EdgeSteps(scope, lookup, d), keep, w, ins, n);
  }

  /** The linkage phase only appends connection requests in the scope and tracks nothing. */
  lemma LinkagePhase(w: World, scope: string, lookup: map<NString, Element>, comps: seq<Element>, n: nat)
    requires n <= |comps|
    ensures var o := LinksUpTo(w, scope, lookup, comps, n);
      AppendedOnly(Connections, scope, w.calls, o.world.calls) && o.world.named == w.named && o.world.ids == w.ids
  {
    var keep := (a: World, b: World) => AppendedOnly(Connections, scope, a.calls, b.calls) && b.named == a.named && b.ids == a.ids;
    AppendedOnlyRefl(Connections, scope);
    forall a: World, b: World, c: World | keep(a, b) && keep(b, c) ensures keep(a, c) {
      AppendedOnlyTrans(Connections, scope, a.calls, b.calls, c.calls);
    }
    forall v: World, i | 0 <= i < |comps| ensures keep(v, ComponentSteps(scope, lookup)(v, comps[i]).world) {
      var d := comps[i];
      if d.inputs.Some? {
        InputsPhase(v, scope, lookup, d, d.inputs.value, |d.inputs.value|);
      }
    }
    StepsKeep(ComponentSteps(scope, lookup), keep, w, comps, n);
  }

  /**
   * The phase order of one scope: after the group phase, the requests come
   * in three blocks, controller services, then elements, then connections,
   * and the template-id map changes only in the controller block.
   */
  lemma PhaseOrder(w: World, rootId: string, processGroupId: string, tpl: Template, db: map<string, Template>, fuel: nat)
    ensures var scope := ScopeOf(processGroupId, rootId);
      var groups := GroupsUpTo(w, rootId, scope, tpl.components, db, fuel, |tpl.components|);
      var lookup := DependencyLookupOf(tpl.dependencies);
      var services := ControllersUpTo(groups.world, scope, lookup, tpl.controllers, |tpl.controllers|);
      var elements := ElementsUpTo(services.world, scope, lookup, tpl.components, |tpl.components|);
      var o := Imported(w, rootId, processGroupId, Some(tpl), db, fuel);
      o.fault.None? ==>
        groups.fault.None? && services.fault.None? && elements.fault.None?
        && AppendedOnly(Services, scope, groups.world.calls, services.world.calls)
        && AppendedOnly(Elements, scope, services.world.calls, elements.world.calls)
        && AppendedOnly(Connections, scope, elements.world.calls, o.world.calls)
        && elements.world.ids == services.world.ids && o.world.ids == services.world.ids
  {
    var scope := ScopeOf(processGroupId, rootId);
    var groups := GroupsUpTo(w, rootId, scope, tpl.components, db, fuel, |tpl.components|);
    var lookup := DependencyLookupOf(tpl.dependencies);
    var services := ControllersUpTo(groups.world, scope, lookup, tpl.controllers, |tpl.controllers|);
    var elements := ElementsUpTo(services.world, scope, lookup, tpl.components, |tpl.components|);
    ControllerPhase(groups.world, scope, lookup, tpl.controllers, |tpl.controllers|);
    ElementPhase(services.world, scope, lookup, tpl.components, |tpl.components|);
    LinkagePhase(elements.world, scope, IdIndex(tpl.components), tpl.components, |tpl.components|);
  }

  /**
   * A processor is created when its canonical type is in the lookup, and
   * linkage then finds it by (scope, template id, type), provided nothing
   * else of its type was tracked there.
   */
  lemma ProcessorFoundByLinkage(w: World, scope: string, lookup: DependencyLookup, e: Element)
    requires Dependency(lookup, GetType(e)).Some?
    requires var bucket := OT.BucketAt(w.named, Some(scope), e.id);
      OT.Matches(bucket, GetType(e).value) == {} && NodeId(w.next) !in bucket
    ensures var o := ElementStep(w, scope, lookup, e);
      o.fault.None? && o.world.calls[|w.calls|].CreateProcessor?
      && OT.Resolve(o.world.named, Some(scope), e.id, GetType(e)) == Ok(Some(NodeId(w.next)))
  {
    var t := GetType(e).value;
    var id := NodeId(w.next);
    var n1 := OT.TrackNamed(w.named, Some(scope), e.name, Some(t), id);
    if e.name == e.id {
      OT.TrackThenResolve(w.named, Some(scope), e.id, t, id);
      OT.TrackSameIdIdempotent(w.named, Some(scope), e.id, Some(t), Some(t), id);
    } else {
      assert OT.BucketAt(n1, Some(scope), e.id) == OT.BucketAt(w.named, Some(scope), e.id);
      OT.TrackThenResolve(n1, Some(scope), e.id, t, id);
    }
  }

  /**
   * The element dispatch: a lookup hit is a processor; a miss is decided by
   * the exact kind name, where group kinds change nothing and a name that
   * is no kind at all (say a processor type missing from the vocabulary)
   * stops the import.
   */
  lemma ElementDispatch(w: World, scope: string, lookup: DependencyLookup, e: Element)
    ensures Dependency(lookup, GetType(e)).Some? ==>
      var o := ElementStep(w, scope, lookup, e);
      o.fault.None? && |o.world.calls| == |w.calls| + 1 && o.world.calls[..|w.calls|] == w.calls
      && o.world.calls[|w.calls|].CreateProcessor? && o.world.calls[|w.calls|].parent == scope
      && o.world.calls[|w.calls|].request.typeName == Dependency(lookup, GetType(e)).value.0
      && o.world.calls[|w.calls|].request.bundle == Dependency(lookup, GetType(e)).value.1
    ensures Dependency(lookup, GetType(e)).None? && ValueOf(GetType(e)).Err? ==>
      ElementStep(w, scope, lookup, e) == Failed(w, ValueOf(GetType(e)).fault)
    ensures Dependency(lookup, GetType(e)).None? && GetType(e) in {Some("PROCESS_GROUP"), Some("REMOTE_PROCESS_GROUP")} ==>
      ElementStep(w, scope, lookup, e) == Done(w)
  {
  }

  /**
   * Port endpoints in linkage: the port lives in the group tracked for the
   * element's template id as a process group, or in the scope when there is
   * none, and its id is the port looked up there by name and type.
   */
  lemma PortEndpointScope(named: OT.NamedIndex, scope: string, e: Element)
    requires OT.Resolve(named, Some(scope), e.id, Some("PROCESS_GROUP")).Ok?
    ensures var tracked := OT.Resolve(named, Some(scope), e.id, Some("PROCESS_GROUP")).value;
      var groupId := if tracked.None? then Some(scope) else tracked;
      var r := PortEndpoint(named, scope, e);
      (r.Ok? ==> r.value.groupId == groupId && OT.Resolve(named, groupId, e.name, GetType(e)) == Ok(r.value.id))
      && (OT.Resolve(named, groupId, e.name, GetType(e)).Err? ==> r.Err?)
  {
  }

  /** Neither a port nor a process group: the type of a remote process group. */
  lemma RemoteGroupKind(t: NString)
    requires IsType(REMOTE_PROCESS_GROUP, t)
    ensures !IsPort(t) && !IsType(PROCESS_GROUP, t)
  {
    KindsDisjoint(t);
    if IsType(PROCESS_GROUP, t) {
      KindOfTypeUnique(PROCESS_GROUP, REMOTE_PROCESS_GROUP, t);
    }
  }

  lemma RemoteSourceSkipped(named: OT.NamedIndex, scope: string, s: Element, input: InputConnection)
    requires IsType(REMOTE_PROCESS_GROUP, GetType(s))
    ensures LinkSource(named, scope, s, input).Ok? ==> LinkSource(named, scope, s, input).value.None?
  {
    RemoteGroupKind(GetType(s));
  }

  lemma RemoteDestinationSkipped(named: OT.NamedIndex, scope: string, d: Element, input: InputConnection)
    requires IsType(REMOTE_PROCESS_GROUP, GetType(d))
    ensures LinkDestination(named, scope, d, input).Ok? ==> LinkDestination(named, scope, d, input).value.None?
  {
    RemoteGroupKind(GetType(d));
  }

  /** An edge from or to a remote process group is never requested. */
  lemma RemoteGroupEdgesSkipped(named: OT.NamedIndex, scope: string, lookup: map<NString, Element>, d: Element, input: InputConnection)
    requires input.source in lookup
    requires IsType(REMOTE_PROCESS_GROUP, GetType(lookup[input.source])) || IsType(REMOTE_PROCESS_GROUP, GetType(d))
    ensures LinkCall(named, scope, lookup, d, input).Ok? ==> LinkCall(named, scope, lookup, d, input).value.None?
  {
    if IsType(REMOTE_PROCESS_GROUP, GetType(lookup[input.source])) {
      RemoteSourceSkipped(named, scope, lookup[input.source], input);
    } else {
      RemoteDestinationSkipped(named, scope, d, input);
    }
  }

  /** An edge whose source id is not a component of the template is a null dereference. */
  lemma UnknownSourceIsFatal(named: OT.NamedIndex, scope: string, lookup: map<NString, Element>, d: Element, input: InputConnection)
    requires input.source !in lookup
    ensures LinkCall(named, scope, lookup, d, input) == Err(NullPointer)
  {
  }

  /**
   * makeProcessor tracks, and createLinkage looks up, processors under the
   * raw `type` field, which the capture leaves null when a processor's name
   * equals its canonical type name (the default name of a new processor).
   * Linkage then asks for type null against a non-empty bucket:
   * NullPointerException. The model uses getType throughout instead.
   */
  lemma ElidedTypeBreaksLinkage(e: Element, id: string, name: string, position: string,
                                inputs: Option<seq<ConnectionEntity>>,
                                named: OT.NamedIndex, scope: string, live: string)
    requires ElementYml.Identifies(e, id, Some(name), Some(name), position, inputs)
    ensures e.typeName.None? && GetType(e) == Some(name)
    ensures OT.Resolve(OT.TrackNamed(named, Some(scope), e.id, e.typeName, live), Some(scope), e.id, e.typeName)
            == Err(NullPointer)
  {
    var t := OT.TrackNamed(named, Some(scope), e.id, e.typeName, live);
    assert live in OT.BucketAt(t, Some(scope), e.id);
  }

  // ---------------------------------------------------------------------
  // A fault stops every loop; a step without one extends it

  // The loops' invariants: "the first n steps, run from w, end in o". The
  // fold is kept under a quantifier so that a loop's proof does not unfold it.

  predicate GroupsReach(w: World, rootId: string, scope: string, comps: seq<Element>, db: map<string, Template>,
                        fuel: nat, n: nat, o: Outcome) {
    forall k: nat :: k == n && k <= |comps| ==> GroupsUpTo(w, rootId, scope, comps, db, fuel, k) == o
  }

  /** A loop that stopped at the end or at a fault has reached the whole fold. */
  lemma GroupsReachEnd(w: World, rootId: string, scope: string, comps: seq<Element>, db: map<string, Template>,
                       fuel: nat, n: nat, o: Outcome)
    requires n <= |comps| && GroupsReach(w, rootId, scope, comps, db, fuel, n, o)
    requires n == |comps| || o.fault.Some?
    ensures o == GroupsUpTo(w, rootId, scope, comps, db, fuel, |comps|)
  {
    assert GroupsUpTo(w, rootId, scope, comps, db, fuel, n) == o;
    if n < |comps| {
      GroupsStopAtFault(w, rootId, scope, comps, db, fuel, n, |comps|);
    }
  }

  lemma {:induction false} GroupsStopAtFault(w: World, rootId: string, scope: string, comps: seq<Element>,
                                             db: map<string, Template>, fuel: nat, k: nat, m: nat)
    requires k <= m <= |comps|
    requires GroupsUpTo(w, rootId, scope, comps, db, fuel, k).fault.Some?
    ensures GroupsUpTo(w, rootId, scope, comps, db, fuel, m) == GroupsUpTo(w, rootId, scope, comps, db, fuel, k)
  {
    if m > k {
      GroupsStopAtFault(w, rootId, scope, comps, db, fuel, k, m - 1);
    }
  }

  // ---------------------------------------------------------------------
  // createDependencyLookup as the nested loops it is

  /** The loop over the canonical names of one bundle. */
  method PutAllNames(lookup0: DependencyLookup, voc: Vocabulary, b: Bundle, classes: map<string, string>)
    returns (lookup: DependencyLookup)
    requires Sound(lookup0, voc) && classes == Entry(voc, b)
    ensures lookup == PutNames(lookup0, voc, b, SortedElements(classes.Keys))
  {
    var names := SortedElements(classes.Keys);
    lookup := lookup0;
    var i := 0;
    while i < |names|
      invariant 0 <= i <= |names| && Sound(lookup, voc)
      invariant PutNames(lookup, voc, b, names[i..]) == PutNames(lookup0, voc, b, names)
    {
      PutNamesNext(lookup, voc, b, names, i);
      lookup := lookup[names[i] := (classes[names[i]], b)];
      i := i + 1;
    }
  }

  lemma PutNamesNext(acc: DependencyLookup, voc: Vocabulary, b: Bundle, names: seq<string>, i: nat)
    requires Sound(acc, voc) && i < |names|
    requires forall n :: n in names ==> n in Entry(voc, b)
    ensures Sound(acc[names[i] := (Entry(voc, b)[names[i]], b)], voc)
    ensures PutNames(acc, voc, b, names[i..]) == PutNames(acc[names[i] := (Entry(voc, b)[names[i]], b)], voc, b, names[i + 1..])
  {
    assert names[i..][1..] == names[i + 1..];
  }

  /** The loop over the versions of one artifact. */
  method PutAllVersions(lookup0: DependencyLookup, voc: Vocabulary, g: string, a: string)
    returns (lookup: DependencyLookup)
    requires Sound(lookup0, voc) && g in voc && a in voc[g]
    ensures lookup == PutVersions(lookup0, voc, g, a, SortedElements(voc[g][a].Keys))
  {
    var versions := SortedElements(voc[g][a].Keys);
    lookup := lookup0;
    var i := 0;
    while i < |versions|
      invariant 0 <= i <= |versions| && Sound(lookup, voc)
      invariant PutVersions(lookup, voc, g, a, versions[i..]) == PutVersions(lookup0, voc, g, a, versions)
    {
      assert versions[i..][1..] == versions[i + 1..];
      var b := Bundle(g, a, versions[i]);
      lookup := PutAllNames(lookup, voc, b, voc[g][a][versions[i]]);
      i := i + 1;
    }
  }

  /** The loop over the artifacts of one group. */
  method PutAllArtifacts(lookup0: DependencyLookup, voc: Vocabulary, g: string) returns (lookup: DependencyLookup)
    requires Sound(lookup0, voc) && g in voc
    ensures lookup == PutArtifacts(lookup0, voc, g, SortedElements(voc[g].Keys))
  {
    var artifacts := SortedElements(voc[g].Keys);
    lookup := lookup0;
    var i := 0;
    while i < |artifacts|
      invariant 0 <= i <= |artifacts| && Sound(lookup, voc)
      invariant PutArtifacts(lookup, voc, g, artifacts[i..]) == PutArtifacts(lookup0, voc, g, artifacts)
    {
      assert artifacts[i..][1..] == artifacts[i + 1..];
      lookup := PutAllVersions(lookup, voc, g, artifacts[i]);
      i := i + 1;
    }
  }

  /** createDependencyLookup: the loop over the groups. */
  method CreateDependencyLookup(voc: Vocabulary) returns (lookup: DependencyLookup)
    ensures lookup == DependencyLookupOf(voc)
  {
    var groups := SortedElements(voc.Keys);
    lookup := map[];
    var i := 0;
    while i < |groups|
      invariant 0 <= i <= |groups| && Sound(lookup, voc)
      invariant PutGroups(lookup, voc, groups[i..]) == PutGroups(map[], voc, groups)
    {
      PutGroupsNext(lookup, voc, groups, i);
      lookup := PutAllArtifacts(lookup, voc, groups[i]);
      i := i + 1;
    }
  }

  lemma PutGroupsNext(acc: DependencyLookup, voc: Vocabulary, groups: seq<string>, i: nat)
    requires Sound(acc, voc) && i < |groups| && groups[i] in voc
    ensures PutGroups(acc, voc, groups[i..])
      == PutGroups(PutArtifacts(acc, voc, groups[i], SortedElements(voc[groups[i]].Keys)), voc, groups[i + 1..])
  {
    assert groups[i..][1..] == groups[i + 1..];
  }

  // ---------------------------------------------------------------------
  // The command

  /** ImportCommand: the tracker, the server it talks to, and the live id of the root group once known. */
  class Importer {
    const tracker: OT.ObjectTracker
    const ws: Workspace
    var rootUUID: NString

    constructor (ws: Workspace)
      ensures this.ws == ws && rootUUID.None?
      ensures fresh(tracker) && tracker.named == map[] && tracker.ids == map[]
    {
      this.ws := ws;
      tracker := new OT.ObjectTracker();
      rootUUID := None;
    }

    /** The tracker and the server as a value. */
    function WorldOf(): World
      reads tracker, ws
    {
      World(tracker.named, tracker.ids, ws.next, ws.calls)
    }

    /** run: index the templates, then import "root.yaml" into the root group. */
    method Run(templates: seq<Template>, fuel: nat) returns (fault: Option<Fault>)
      modifies this, tracker, ws
      ensures var db := TemplateIndex(templates);
        Outcome(WorldOf(), fault) == Imported(old(WorldOf()), ws.rootId, "root", Get(db, "root.yaml"), db, fuel)
      ensures rootUUID == Some(ws.rootId)
    {
      var db := IndexTemplates(templates);
      ghost var w0 := WorldOf();
      fault := ImportTemplate("root", Get(db, "root.yaml"), db, fuel);
      assert Imported(w0, ws.rootId, "root", Get(db, "root.yaml"), db, fuel) == Outcome(WorldOf(), fault);
    }

    /** importTemplate: the root alias is resolved first, then the four phases run in order. */
    method ImportTemplate(processGroupId: string, t: Option<Template>, db: map<string, Template>, fuel: nat)
      returns (fault: Option<Fault>)
      modifies this, tracker, ws
      decreases fuel, 4
      ensures ImportReach(old(WorldOf()), ws.rootId, processGroupId, t, db, fuel, Outcome(WorldOf(), fault))
      ensures rootUUID == if processGroupId == "root" then Some(ws.rootId) else old(rootUUID)
    {
      var scope := processGroupId;
      if processGroupId == "root" {
        scope := ws.rootId;
        rootUUID := Some(scope);
      }
      if t.None? {
        return Some(NullPointer);
      }
      var tpl := t.value;
      fault := CreateProcessGroups(scope, tpl.components, db, fuel);
      if fault.Some? {
        return;
      }
      var lookup := CreateDependencyLookup(tpl.dependencies);
      fault := CreateControllerServices(scope, lookup, tpl.controllers);
      if fault.Some? {
        return;
      }
      lookup := CreateDependencyLookup(tpl.dependencies);
      fault := CreateElements(scope, lookup, tpl.components);
      if fault.Some? {
        return;
      }
      fault := CreateLinkage(scope, tpl.components);
    }

    /** createProcessGroups */
    method CreateProcessGroups(scope: string, comps: seq<Element>, db: map<string, Template>, fuel: nat)
      returns (fault: Option<Fault>)
      modifies this, tracker, ws
      decreases fuel, 3
      ensures Outcome(WorldOf(), fault) == GroupsUpTo(old(WorldOf()), ws.rootId, scope, comps, db, fuel, |comps|)
      ensures rootUUID == old(rootUUID)
    {
      ghost var w0 := WorldOf();
      var i := 0;
      fault := None;
      while i < |comps| && fault.None?
        invariant 0 <= i <= |comps|
        invariant GroupsReach(w0, ws.rootId, scope, comps, db, fuel, i, Outcome(WorldOf(), fault))
        invariant rootUUID == old(rootUUID)
      {
        fault := NextGroup(w0, scope, comps, db, fuel, i);
        i := i + 1;
      }
      GroupsReachEnd(w0, ws.rootId, scope, comps, db, fuel, i, Outcome(WorldOf(), fault));
    }

    /** The body of the createProcessGroups loop: component i, on the world the first i left. */
    method NextGroup(ghost w0: World, scope: string, comps: seq<Element>, db: map<string, Template>, fuel: nat, i: nat)
      returns (fault: Option<Fault>)
      requires i < |comps| && GroupsReach(w0, ws.rootId, scope, comps, db, fuel, i, Done(WorldOf()))
      modifies this, tracker, ws
      decreases fuel, 2
      ensures GroupsReach(w0, ws.rootId, scope, comps, db, fuel, i + 1, Outcome(WorldOf(), fault))
      ensures rootUUID == old(rootUUID)
    {
      assert GroupsUpTo(w0, ws.rootId, scope, comps, db, fuel, i) == Done(WorldOf());
      fault := MakeGroup(scope, comps[i], db, fuel);
      assert GroupsUpTo(w0, ws.rootId, scope, comps, db, fuel, i + 1) == Outcome(WorldOf(), fault);
    }

    /** One component of createProcessGroups: the test on the stored type, then the switch on the kind. */
    method MakeGroup(scope: string, e: Element, db: map<string, Template>, fuel: nat)
      returns (fault: Option<Fault>)
      modifies this, tracker, ws
      decreases fuel, 1
      ensures Outcome(WorldOf(), fault) == GroupStep(old(WorldOf()), ws.rootId, scope, e, db, fuel)
      ensures rootUUID == old(rootUUID)
    {
      if !IsProcessGroup(e.typeName) {
        return None;
      }
      var kind := ValueOf(GetType(e));
      if kind.Err? {
        return Some(kind.fault);
      }
      if kind.value == PROCESS_GROUP {
        fault := MakeProcessGroup(scope, e, db, fuel);
      } else if kind.value == REMOTE_PROCESS_GROUP {
        MakeRemoteProcessGroup(scope, e);
        fault := None;
      } else {
        fault := None;
      }
    }

    /** makeProcessGroup */
    method MakeProcessGroup(scope: string, e: Element, db: map<string, Template>, fuel: nat)
      returns (fault: Option<Fault>)
      modifies this, tracker, ws
      decreases fuel, 0
      ensures Outcome(WorldOf(), fault) == ProcessGroupStep(old(WorldOf()), ws.rootId, scope, e, db, fuel)
      ensures rootUUID == old(rootUUID)
    {
      var id := OpenProcessGroup(scope, e);
      if fuel == 0 {
        return Some(StackOverflow);
      }
      var ref := if e.template.Some? then Get(db, e.template.value) else None;
      ghost var w1 := WorldOf();
      fault := ImportTemplate(id, ref, db, fuel - 1);
      assert Imported(w1, ws.rootId, id, ref, db, fuel - 1) == Outcome(WorldOf(), fault);
    }

    /** The first half of makeProcessGroup: the group is created, commented and tracked. */
    method OpenProcessGroup(scope: string, e: Element) returns (id: string)
      modifies tracker, ws
      ensures (id, WorldOf()) == GroupOpened(old(WorldOf()), scope, e)
      ensures id != "root"
    {
      NodeIdIsNotRoot(ws.next);
      id := ws.Create(CreateProcessGroup(scope, e.name, e.position));
      ws.Update(UpdateComments(id, e.comment));
      tracker.Track(Some(scope), e.name, Some(Name(PROCESS_GROUP)), id);
      tracker.Track(Some(scope), e.id, Some(Name(PROCESS_GROUP)), id);
    }

    /** makeRemoteProcessGroup */
    method MakeRemoteProcessGroup(scope: string, e: Element)
      modifies tracker, ws
      ensures WorldOf() == RemoteGroupStep(old(WorldOf()), scope, e)
    {
      var id := ws.Create(CreateRemoteProcessGroup(scope, OB.PropertyOf(e.properties, TARGET_URIS), e.position, ["test port"]));
      tracker.Track(Some(scope), None, Some(Name(REMOTE_PROCESS_GROUP)), id);
      tracker.Track(Some(scope), e.id, Some(Name(REMOTE_PROCESS_GROUP)), id);
    }

    /** createControllerServices */
    method CreateControllerServices(scope: string, lookup: DependencyLookup, cs: seq<Controller>)
      returns (fault: Option<Fault>)
      modifies tracker, ws
      ensures Outcome(WorldOf(), fault) == ControllersUpTo(old(WorldOf()), scope, lookup, cs, |cs|)
    {
      ghost var w0 := WorldOf();
      ghost var step := ControllerSteps(scope, lookup);
      var i := 0;
      fault := None;
      while i < |cs| && fault.None?
        invariant 0 <= i <= |cs|
        invariant StepsReach(step, w0, cs, i, Outcome(WorldOf(), fault))
      {
        StepsReachNext(step, w0, cs, i, WorldOf());
        fault := MakeControllerService(scope, lookup, cs[i]);
        i := i + 1;
      }
      StepsReachEnd(step, w0, cs, i, Outcome(WorldOf(), fault));
    }

    /** One controller service: typed through the lookup, created, and tracked by template id. */
    method MakeControllerService(scope: string, lookup: DependencyLookup, c: Controller) returns (fault: Option<Fault>)
      modifies tracker, ws
      ensures Outcome(WorldOf(), fault) == ControllerStep(old(WorldOf()), scope, lookup, c)
    {
      var dep := Dependency(lookup, c.typeName);
      if dep.None? || !OB.AllPresent(c.properties) {
        return Some(NullPointer);
      }
      var id := ws.Create(CreateControllerService(scope, dep.value.0, dep.value.1, c.name, OB.AsStrings(c.properties)));
      tracker.Track(Some(scope), c.id, c.typeName, id);
      tracker.TrackId(c.id, id);
      fault := None;
    }

    /** createElements */
    method CreateElements(scope: string, lookup: DependencyLookup, comps: seq<Element>) returns (fault: Option<Fault>)
      modifies tracker, ws
      ensures Outcome(WorldOf(), fault) == ElementsUpTo(old(WorldOf()), scope, lookup, comps, |comps|)
    {
      ghost var w0 := WorldOf();
      ghost var step := ElementSteps(scope, lookup);
      var i := 0;
      fault := None;
      while i < |comps| && fault.None?
        invariant 0 <= i <= |comps|
        invariant StepsReach(step, w0, comps, i, Outcome(WorldOf(), fault))
      {
        StepsReachNext(step, w0, comps, i, WorldOf());
        fault := MakeElement(scope, lookup, comps[i]);
        i := i + 1;
      }
      StepsReachEnd(step, w0, comps, i, Outcome(WorldOf(), fault));
    }

    /** One component of createElements: makeProcessor, or the switch over the reserved kinds. */
    method MakeElement(scope: string, lookup: DependencyLookup, e: Element) returns (fault: Option<Fault>)
      modifies tracker, ws
      ensures Outcome(WorldOf(), fault) == ElementStep(old(WorldOf()), scope, lookup, e)
    {
      var dep := Dependency(lookup, GetType(e));
      if dep.Some? {
        MakeProcessor(scope, e, dep.value);
        return None;
      }
      var kind := ValueOf(GetType(e));
      if kind.Err? {
        return Some(kind.fault);
      }
      fault := None;
      match kind.value
      case FUNNEL => MakeFunnel(scope, e);
      case INPUT_PORT => MakePort(scope, INPUT_PORT, e);
      case LABEL => MakeLabel(scope, e);
      case OUTPUT_PORT => MakePort(scope, OUTPUT_PORT, e);
      case _ =>
    }

    /** makeProcessor: the id references in the properties are rewritten from the tracker before the create. */
    method MakeProcessor(scope: string, e: Element, dep: (string, Bundle))
      modifies tracker, ws
      ensures WorldOf() == ProcessorStep(old(WorldOf()), scope, dep, e)
    {
      var props := RewriteIds(e.properties, tracker.ids);
      var request := ProcessorRequest(dep.0, dep.1, e.name, e.position, None, props, Unscheduled, None);
      var id := ws.Create(CreateProcessor(scope, request));
      tracker.Track(Some(scope), e.name, GetType(e), id);
      tracker.Track(Some(scope), e.id, GetType(e), id);
    }

    /** makeFunnel */
    method MakeFunnel(scope: string, e: Element)
      modifies tracker, ws
      ensures WorldOf() == FunnelStep(old(WorldOf()), scope, e)
    {
      var id := ws.Create(CreateFunnel(scope, e.position));
      tracker.Track(Some(scope), e.id, Some(Name(FUNNEL)), id);
    }

    /** makeInputPort and makeOutputPort */
    method MakePort(scope: string, kind: ReservedKind, e: Element)
      modifies tracker, ws
      ensures WorldOf() == PortStep(old(WorldOf()), scope, kind, e)
    {
      var id := ws.Create(CreatePort(scope, kind, e.name, None, e.position));
      tracker.Track(Some(scope), e.name, Some(Name(kind)), id);
    }

    /** makeLabel */
    method MakeLabel(scope: string, e: Element)
      modifies tracker, ws
      ensures WorldOf() == LabelStep(old(WorldOf()), scope, e)
    {
      var id := ws.Create(CreateLabel(scope, e.comment, None, e.position));
      tracker.Track(Some(scope), e.comment, Some(Name(LABEL)), id);
    }

    /** createLinkage: the id lookup, then every input of every component in order. */
    method CreateLinkage(scope: string, comps: seq<Element>) returns (fault: Option<Fault>)
      modifies ws
      ensures Outcome(WorldOf(), fault) == LinkageOf(old(WorldOf()), scope, comps)
    {
      var lookup := IndexById(comps);
      ghost var w0 := WorldOf();
      ghost var step := ComponentSteps(scope, lookup);
      var i := 0;
      fault := None;
      while i < |comps| && fault.None?
        invariant 0 <= i <= |comps|
        invariant StepsReach(step, w0, comps, i, Outcome(WorldOf(), fault))
      {
        StepsReachNext(step, w0, comps, i, WorldOf());
        fault := ConnectInputs(scope, lookup, comps[i]);
        i := i + 1;
      }
      StepsReachEnd(step, w0, comps, i, Outcome(WorldOf(), fault));
    }

    /** The body of the outer createLinkage loop: the inputs of one component, none when they are null. */
    method ConnectInputs(scope: string, lookup: map<NString, Element>, d: Element) returns (fault: Option<Fault>)
      modifies ws
      ensures Outcome(WorldOf(), fault) == ComponentLinks(old(WorldOf()), scope, lookup, d)
    {
      if d.inputs.Some? {
        fault := ConnectEdges(scope, lookup, d, d.inputs.value);
      } else {
        fault := None;
      }
    }

    /** The inner createLinkage loop: every input of one component, in order. */
    method ConnectEdges(scope: string, lookup: map<NString, Element>, d: Element, ins: seq<InputConnection>)
      returns (fault: Option<Fault>)
      modifies ws
      ensures Outcome(WorldOf(), fault) == InputsUpTo(old(WorldOf()), scope, lookup, d, ins, |ins|)
    {
      ghost var w0 := WorldOf();
      ghost var step := EdgeSteps(scope, lookup, d);
      var j := 0;
      fault := None;
      while j < |ins| && fault.None?
        invariant 0 <= j <= |ins|
        invariant StepsReach(step, w0, ins, j, Outcome(WorldOf(), fault))
      {
        StepsReachNext(step, w0, ins, j, WorldOf());
        fault := Connect(scope, lookup, d, ins[j]);
        j := j + 1;
      }
      StepsReachEnd(step, w0, ins, j, Outcome(WorldOf(), fault));
    }

    /** One edge: its endpoints resolved through the tracker, then the connection is created. */
    method Connect(scope: string, lookup: map<NString, Element>, d: Element, input: InputConnection)
      returns (fault: Option<Fault>)
      modifies ws
      ensures Outcome(WorldOf(), fault) == LinkStep(old(WorldOf()), scope, lookup, d, input)
    {
      var call := LinkCall(tracker.named, scope, lookup, d, input);
      if call.Err? {
        return Some(call.fault);
      }
      if call.value.Some? {
        var _ := ws.Create(call.value.value);
      }
      fault := None;
    }
  }
}
