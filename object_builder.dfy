/**
 * ObjectBuilder: the reconstruction helper that creates one canvas
 * component per template element inside the process group on top of its
 * scope stack, records template id -> live id for every component it
 * creates, and resolves the two endpoints of a connection from what it has
 * recorded. Each frame of the scope stack carries its own dependency
 * lookup (canonical name -> type and bundle).
 *
 * The state the builder touches (its stack, the tracker, the server and
 * the UUID source) is summarised as a Scene; every operation is specified
 * by a function from the scene before to the result and the scene after.
 */
module ObjectBuilding {
  import opened Wrappers
  import opened Text
  import opened HelperYml
  import opened Records
  import opened FreshIds
  import opened Workspaces
  import opened PropertyRewrite
  import OT = ObjectTracking
  import RuleCodec
  import ElementYml

  // ---------------------------------------------------------------------
  // The scope stack

  /** ProcessGroupStackElement: a group id and the dependency lookup set for it (null until set). */
  datatype Frame = Frame(id: string, dependencies: Option<DependencyLookup>)

  /** enterProcessGroup: a new frame on top, with no lookup yet. */
  function Push(stack: seq<Frame>, id: string): seq<Frame> {
    stack + [Frame(id, None)]
  }

  /** leaveProcessGroup: the id of the top frame and the stack below it; an empty stack raises. */
  function Pop(stack: seq<Frame>): (r: Result<(string, seq<Frame>)>)
    ensures r.Err? <==> stack == []
    ensures r.Err? ==> r.fault == EmptyStack
    ensures r.Ok? ==> stack == r.value.1 + [stack[|stack| - 1]] && r.value.0 == stack[|stack| - 1].id
  {
    if stack == [] then Err(EmptyStack) else Ok((stack[|stack| - 1].id, stack[..|stack| - 1]))
  }

  /** getProcessGroupId: the id of the top frame. */
  function Top(stack: seq<Frame>): (r: Result<string>)
    ensures r.Err? <==> stack == []
    ensures r.Err? ==> r.fault == EmptyStack
    ensures r.Ok? ==> r.value == stack[|stack| - 1].id
  {
    if stack == [] then Err(EmptyStack) else Ok(stack[|stack| - 1].id)
  }

  /** setDependenciesLookup: replaces the lookup of the top frame only. */
  function SetTop(stack: seq<Frame>, deps: DependencyLookup): (r: Result<seq<Frame>>)
    ensures r.Err? <==> stack == []
    ensures r.Ok? ==> |r.value| == |stack| && r.value[..|stack| - 1] == stack[..|stack| - 1]
    ensures r.Ok? ==> r.value[|stack| - 1] == Frame(stack[|stack| - 1].id, Some(deps))
  {
    if stack == [] then Err(EmptyStack)
    else Ok(stack[..|stack| - 1] + [Frame(stack[|stack| - 1].id, Some(deps))])
  }

  /** lookup: the top frame's entry for a canonical name; a frame without a lookup raises NullPointerException. */
  function LookupIn(stack: seq<Frame>, name: NString): (r: Result<Option<(string, Bundle)>>)
    ensures r.Err? <==> stack == [] || stack[|stack| - 1].dependencies.None?
    ensures r.Ok? && name.Some? ==> r.value == Get(stack[|stack| - 1].dependencies.value, name.value)
    ensures name.None? && r.Ok? ==> r.value.None?
  {
    if stack == [] then Err(EmptyStack)
    else match stack[|stack| - 1].dependencies
      case None => Err(NullPointer)
      case Some(deps) =>
        match name
        case None => Ok(None)
        case Some(n) => Ok(Get(deps, n))
  }

  /** Leaving a group returns its id and restores the stack as it was before entering. */
  lemma PopAfterPush(stack: seq<Frame>, id: string)
    ensures Pop(Push(stack, id)) == Ok((id, stack))
  {
    assert Push(stack, id)[..|stack|] == stack;
  }

  /**
   * Scopes never see each other's vocabulary: a lookup set in an inner
   * scope answers every lookup there and is gone once the scope is left,
   * and the frame below keeps its own lookup throughout.
   */
  lemma {:induction false} ScopesIsolated(stack: seq<Frame>, id: string, deps: DependencyLookup, name: string)
    ensures SetTop(Push(stack, id), deps).Ok?
    ensures LookupIn(SetTop(Push(stack, id), deps).value, Some(name)) == Ok(Get(deps, name))
    ensures Pop(SetTop(Push(stack, id), deps).value) == Ok((id, stack))
  {
    var inner := SetTop(Push(stack, id), deps).value;
    assert inner == stack + [Frame(id, Some(deps))];
    assert inner[..|stack|] == stack;
  }

  // ---------------------------------------------------------------------
  // The builder's state and the create step

  /** Everything an ObjectBuilder operation reads or changes. */
  datatype Scene = Scene(
    stack: seq<Frame>,
    named: OT.NamedIndex,          // the tracker's (group, name) index
    ids: map<NString, string>,     // the tracker's template id -> live id map
    next: nat,                     // the server's creation counter
    calls: seq<Call>,              // the requests sent so far
    uuid: nat)                     // the UUID source's counter

  /** The result of one operation and the scene after it. */
  datatype Step<T> = Step(result: Result<T>, scene: Scene)

  /** Sending a create request: the fresh id and the scene with the request logged. */
  function Issue(s: Scene, c: Call): (r: (string, Scene))
    ensures r.0 == NodeId(s.next)
    ensures r.1 == s.(next := s.next + 1, calls := s.calls + [c])
  {
    (NodeId(s.next), s.(next := s.next + 1, calls := s.calls + [c]))
  }

  /** A created component recorded under its template id. */
  function Created(s: Scene, c: Call, templateId: NString): (r: Step<string>)
    ensures r.result == Ok(NodeId(s.next))
    ensures r.scene == s.(next := s.next + 1, calls := s.calls + [c], ids := s.ids[templateId := NodeId(s.next)])
  {
    var p := Issue(s, c);
    Step(Ok(p.0), p.1.(ids := p.1.ids[templateId := p.0]))
  }

  /**
   * A create gives the component an id no earlier create gave, and the
   * tracker's ids stay among those the server handed out.
   */
  lemma CreatedIsFresh(s: Scene, c: Call, templateId: NString)
    requires AllIssued(s.ids.Values, s.next)
    ensures Created(s, c, templateId).result.value !in s.ids.Values
    ensures Created(s, c, templateId).scene.ids[templateId] == Created(s, c, templateId).result.value
    ensures AllIssued(Created(s, c, templateId).scene.ids.Values, Created(s, c, templateId).scene.next)
  {
    var r := Created(s, c, templateId);
    NextIsFresh(s.ids.Values, s.next);
    assert r.scene.ids.Values <= s.ids.Values + {NodeId(s.next)};
  }

  // ---------------------------------------------------------------------
  // The make* operations

  /** makeFunnel */
  function FunnelStep(s: Scene, e: Element): Step<string> {
    match Top(s.stack)
    case Err(f) => Step(Err(f), s)
    case Ok(scope) => Created(s, CreateFunnel(scope, e.position), e.id)
  }

  /** makeProcessGroup: create with name and position, then set the comments by an update. */
  function GroupStep(s: Scene, e: Element): Step<string> {
    match Top(s.stack)
    case Err(f) => Step(Err(f), s)
    case Ok(scope) =>
      var p := Issue(s, CreateProcessGroup(scope, e.name, e.position));
      var s2 := p.1.(calls := p.1.calls + [UpdateComments(p.0, e.comment)]);
      Step(Ok(p.0), s2.(ids := s2.ids[e.id := p.0]))
  }

  /** The value of a property, null when absent. */
  function PropertyOf(props: map<string, NString>, key: string): NString {
    if key in props then props[key] else None
  }

  /** makeRemoteProcessGroup: the target URIs come from the element's properties. */
  function RemoteGroupStep(s: Scene, e: Element): Step<string> {
    match Top(s.stack)
    case Err(f) => Step(Err(f), s)
    case Ok(scope) => Created(s, CreateRemoteProcessGroup(scope, PropertyOf(e.properties, TARGET_URIS), e.position, []), e.id)
  }

  /** makeInputPort / makeOutputPort: recorded by template id and by (scope, name, type). */
  function PortStep(s: Scene, e: Element, kind: ReservedKind): Step<string> {
    match Top(s.stack)
    case Err(f) => Step(Err(f), s)
    case Ok(scope) =>
      var c := Created(s, CreatePort(scope, kind, e.name, e.comment, e.position), e.id);
      Step(c.result, c.scene.(named := OT.TrackNamed(c.scene.named, Some(scope), e.name, e.typeName, c.result.value)))
  }

  /** makeLabel: the label text is the element's comment, the style its styles. */
  function LabelStep(s: Scene, e: Element): Step<string> {
    match Top(s.stack)
    case Err(f) => Step(Err(f), s)
    case Ok(scope) => Created(s, CreateLabel(scope, e.comment, Some(e.styles), e.position), e.id)
  }

  /** Every value is non-null: the condition under which `toString` on each value does not raise. */
  predicate AllPresent(props: map<string, NString>) {
    forall k :: k in props ==> props[k].Some?
  }

  /** The properties as plain strings. */
  function AsStrings(props: map<string, NString>): (r: map<string, string>)
    requires AllPresent(props)
    ensures r.Keys == props.Keys && forall k :: k in r ==> Some(r[k]) == props[k]
  {
    map k | k in props :: props[k].value
  }

  /** makeControllerService: type and bundle from the top frame's lookup, then the create. */
  function ControllerStep(s: Scene, c: Controller): Step<string> {
    match LookupIn(s.stack, c.typeName)
    case Err(f) => Step(Err(f), s)
    case Ok(None) => Step(Err(NullPointer), s)
    case Ok(Some(dep)) =>
      if !AllPresent(c.properties) then Step(Err(NullPointer), s)
      else Created(s, CreateControllerService(s.stack[|s.stack| - 1].id, dep.0, dep.1, c.name, AsStrings(c.properties)), c.id)
  }

  // Scheduling

  const INT_MIN := -0x8000_0000
  const INT_MAX := 0x7fff_ffff
  const LONG_MIN := -0x8000_0000_0000_0000
  const LONG_MAX := 0x7fff_ffff_ffff_ffff

  /** Integer.parseInt / Long.parseLong: the value when it parses and fits the range. */
  function ParseIn(s: string, lo: int, hi: int): (r: Option<int>)
    ensures r.Some? ==> lo <= r.value <= hi && ParseInteger(s) == r
    ensures r.None? ==> ParseInteger(s).None? || !(lo <= ParseInteger(s).value <= hi)
  {
    match ParseInteger(s)
    case None => None
    case Some(v) => if lo <= v <= hi then Some(v) else None
  }

  /** A scheduling value that is present and non-empty. */
  function Setting(sched: map<SchedulingSetting, string>, k: SchedulingSetting): (r: NString)
    ensures r.Some? <==> k in sched && sched[k] != ""
    ensures r.Some? ==> r.value == sched[k]
  {
    if k in sched && sched[k] != "" then Some(sched[k]) else None
  }

  /** A numeric scheduling value: unset when absent or empty, a NumberFormatException when it does not parse. */
  function NumberSetting(sched: map<SchedulingSetting, string>, k: SchedulingSetting, lo: int, hi: int): (r: Result<Option<int>>)
    ensures r.Err? <==> Setting(sched, k).Some? && ParseIn(sched[k], lo, hi).None?
    ensures r.Err? ==> r.fault == NumberFormat
    ensures r.Ok? ==> r.value == if Setting(sched, k).Some? then ParseIn(sched[k], lo, hi) else None
  {
    match Setting(sched, k)
    case None => Ok(None)
    case Some(v) =>
      match ParseIn(v, lo, hi)
      case None => Err(NumberFormat)
      case Some(n) => Ok(Some(n))
  }

  /** The scheduling fields makeProcessor sets: each present, non-empty value; nothing for an empty map. */
  function SchedulingRequestOf(sched: map<SchedulingSetting, string>): (r: Result<SchedulingRequest>)
    ensures sched == map[] ==> r == Ok(Unscheduled)
    ensures r.Err? ==> r.fault == NumberFormat
  {
    if sched == map[] then Ok(Unscheduled)
    else
      var tasks :- NumberSetting(sched, ConcurrentTasks, INT_MIN, INT_MAX);
      var run :- NumberSetting(sched, RunDuration, LONG_MIN, LONG_MAX);
      Ok(SchedulingRequest(
        Setting(sched, RunSchedule), Setting(sched, SchedulingStrategy), tasks,
        Setting(sched, PenaltyDuration), Setting(sched, Yield), run,
        Setting(sched, ExecutionNode), Setting(sched, BulletinLevel)))
  }

  /** A text setting as it reaches the server after a capture and an import: only non-default, non-empty values. */
  function Kept(v: NString, default: string): NString {
    if ElementYml.ChangedText(v, default) && v.value != "" then v else None
  }

  /** A numeric setting as it reaches the server after a capture and an import: only non-default values. */
  function KeptNumber(v: Option<int>, default: int): Option<int> {
    if ElementYml.ChangedNumber(v, default) then v else None
  }

  /**
   * Capture then import: every scheduling value the capture stored comes
   * back to the server unchanged (numbers parse back to themselves), and
   * every value the capture dropped (a default) is left for the server to
   * default. An empty text value is stored but not sent back.
   */
  lemma SchedulingRoundTrip(c: ProcessorConfig)
    requires c.concurrentTasks.Some? ==> INT_MIN <= c.concurrentTasks.value <= INT_MAX
    requires c.runDurationMillis.Some? ==> LONG_MIN <= c.runDurationMillis.value <= LONG_MAX
    ensures SchedulingRequestOf(ElementYml.SchedulingOf(c)) == Ok(SchedulingRequest(
      Kept(c.schedulingPeriod, DEFAULT_SCHEDULING_PERIOD),
      Kept(c.schedulingStrategy, DEFAULT_SCHEDULING_STRATEGY),
      KeptNumber(c.concurrentTasks, DEFAULT_SCHEDULABLE_TASK_COUNT),
      Kept(c.penaltyDuration, DEFAULT_PENALTY_DURATION),
      Kept(c.yieldDuration, DEFAULT_YIELD_DURATION),
      KeptNumber(c.runDurationMillis, DEFAULT_RUN_DURATION),
      Kept(c.executionNode, DEFAULT_EXECUTION_NODE),
      Kept(c.bulletinLevel, DEFAULT_BULLETIN_LEVEL)))
  {
    var sched := ElementYml.SchedulingOf(c);
    if c.concurrentTasks.Some? {
      ParseIntegerOfInt(c.concurrentTasks.value);
    }
    if c.runDurationMillis.Some? {
      ParseIntegerOfInt(c.runDurationMillis.value);
    }
    if sched == map[] {
      assert ConcurrentTasks !in sched && RunDuration !in sched;
    }
  }

  /** The annotation makeProcessor attaches: the rules encoded with the next UUIDs, or nothing. */
  function AnnotationOf(advanced: Option<RuleSet>, uuid: nat): Option<Criteria> {
    match advanced
    case None => None
    case Some(rules) => Some(RuleCodec.Encode(rules, Run(RuleCodec.UUID, uuid, RuleCodec.IdsFor(rules.rules))))
  }

  /** The UUIDs the annotation consumes. */
  function AnnotationIds(advanced: Option<RuleSet>): nat {
    match advanced
    case None => 0
    case Some(rules) => RuleCodec.IdsFor(rules.rules)
  }

  /**
   * makeProcessor: type and bundle from the lookup, tracked template ids in
   * the properties replaced by live ids, the scheduling fields, the advanced
   * rules as fresh markup records, then the create.
   */
  function ProcessorStep(s: Scene, e: Element): Step<string> {
    match LookupIn(s.stack, GetType(e))
    case Err(f) => Step(Err(f), s)
    case Ok(None) => Step(Err(NullPointer), s)
    case Ok(Some(dep)) =>
      match SchedulingRequestOf(e.scheduling)
      case Err(f) => Step(Err(f), s)
      case Ok(sched) =>
        var request := ProcessorRequest(dep.0, dep.1, e.name, e.position, Some(e.styles),
                                        Rewritten(e.properties, s.ids), sched, AnnotationOf(e.advanced, s.uuid));
        Created(s.(uuid := s.uuid + AnnotationIds(e.advanced)), CreateProcessor(s.stack[|s.stack| - 1].id, request), e.id)
  }

  /** The step created one component with the next fresh id, logged its request and recorded it under `templateId`. */
  predicate Recorded(s: Scene, r: Step<string>, templateId: NString) {
    r.result == Ok(NodeId(s.next)) && r.scene.next == s.next + 1
    && r.scene.ids == s.ids[templateId := NodeId(s.next)]
    && |r.scene.calls| > |s.calls| && r.scene.calls[..|s.calls|] == s.calls
  }

  /**
   * Every make* that succeeds creates exactly one component with the next
   * fresh id and records template id -> that id; the (group, name) index
   * changes only for a port, the UUID counter only for a processor's rules.
   */
  lemma MakeRecordsId(s: Scene, e: Element)
    ensures FunnelStep(s, e).result.Ok? ==>
      Recorded(s, FunnelStep(s, e), e.id) && FunnelStep(s, e).scene.named == s.named
    ensures GroupStep(s, e).result.Ok? ==>
      Recorded(s, GroupStep(s, e), e.id) && GroupStep(s, e).scene.named == s.named
      && GroupStep(s, e).scene.calls[|s.calls| + 1] == UpdateComments(NodeId(s.next), e.comment)
    ensures RemoteGroupStep(s, e).result.Ok? ==>
      Recorded(s, RemoteGroupStep(s, e), e.id) && RemoteGroupStep(s, e).scene.named == s.named
    ensures LabelStep(s, e).result.Ok? ==>
      Recorded(s, LabelStep(s, e), e.id) && LabelStep(s, e).scene.named == s.named
  {
  }

  /** The same for ports (also recorded by name), processors and controller services. */
  lemma MakeRecordsIdTyped(s: Scene, e: Element, kind: ReservedKind, c: Controller)
    ensures PortStep(s, e, kind).result.Ok? ==>
      Recorded(s, PortStep(s, e, kind), e.id)
      && PortStep(s, e, kind).scene.named == OT.TrackNamed(s.named, Some(s.stack[|s.stack| - 1].id), e.name, e.typeName, NodeId(s.next))
    ensures ProcessorStep(s, e).result.Ok? ==>
      Recorded(s, ProcessorStep(s, e), e.id) && ProcessorStep(s, e).scene.named == s.named
      && ProcessorStep(s, e).scene.uuid == s.uuid + AnnotationIds(e.advanced)
    ensures ControllerStep(s, c).result.Ok? ==>
      Recorded(s, ControllerStep(s, c), c.id) && ControllerStep(s, c).scene.named == s.named
  {
  }

  /** A failing make* changes nothing: no request is sent and nothing is recorded. */
  lemma FailedMakeChangesNothing(s: Scene, e: Element)
    ensures FunnelStep(s, e).result.Err? ==> FunnelStep(s, e).scene == s
    ensures GroupStep(s, e).result.Err? ==> GroupStep(s, e).scene == s
    ensures RemoteGroupStep(s, e).result.Err? ==> RemoteGroupStep(s, e).scene == s
    ensures LabelStep(s, e).result.Err? ==> LabelStep(s, e).scene == s
  {
  }

  /** The same for ports, processors and controller services, whose lookups and parses fail first. */
  lemma FailedMakeChangesNothingTyped(s: Scene, e: Element, kind: ReservedKind, c: Controller)
    ensures PortStep(s, e, kind).result.Err? ==> PortStep(s, e, kind).scene == s
    ensures ProcessorStep(s, e).result.Err? ==> ProcessorStep(s, e).scene == s
    ensures ControllerStep(s, c).result.Err? ==> ControllerStep(s, c).scene == s
  {
  }

  /**
   * A processor or controller whose canonical type is not in the top
   * frame's lookup is a null dereference before any request is sent.
   */
  lemma MissingTypeIsFatal(s: Scene, e: Element, c: Controller)
    ensures LookupIn(s.stack, GetType(e)) == Ok(None) ==> ProcessorStep(s, e) == Step(Err(NullPointer), s)
    ensures LookupIn(s.stack, c.typeName) == Ok(None) ==> ControllerStep(s, c) == Step(Err(NullPointer), s)
  {
  }

  /**
   * A port can afterwards be found by name in the scope it was created in,
   * provided no other port of its type was recorded there under that name.
   */
  lemma PortFoundByName(s: Scene, e: Element, kind: ReservedKind)
    requires s.stack != [] && e.typeName.Some?
    requires var bucket := OT.BucketAt(s.named, Some(s.stack[|s.stack| - 1].id), e.name);
      OT.Matches(bucket, e.typeName.value) == {} && NodeId(s.next) !in bucket
    ensures var r := PortStep(s, e, kind);
      r.result == Ok(NodeId(s.next))
      && OT.Resolve(r.scene.named, Some(s.stack[|s.stack| - 1].id), e.name, e.typeName) == Ok(Some(NodeId(s.next)))
  {
    OT.TrackThenResolve(s.named, Some(s.stack[|s.stack| - 1].id), e.name, e.typeName.value, NodeId(s.next));
  }

  // ---------------------------------------------------------------------
  // Connections

  /** from.get(0): a null list raises NullPointerException, an empty one IndexOutOfBoundsException. */
  function FirstOf(from: Option<seq<string>>): (r: Result<NString>)
    ensures r.Ok? <==> from.Some? && from.value != []
    ensures r.Ok? ==> r.value == Some(from.value[0])
  {
    match from
    case None => Err(NullPointer)
    case Some(xs) => if xs == [] then Err(IndexOutOfBounds) else Ok(Some(xs[0]))
  }

  /**
   * The kind of a connection endpoint from its element's type: a port keeps
   * its own kind (an exact constant name is required), a process group
   * stands for one of its ports (`viaGroup`), a remote group gives no
   * endpoint, and any other type that is not a connectable constant name is
   * a processor.
   */
  function EndpointKind(t: NString, viaGroup: ConnectableType): (r: Result<Option<ConnectableType>>)
  {
    if IsPort(t) then
      match ConnectableValueOf(t)
      case Ok(k) => Ok(Some(k))
      case Err(f) => Err(f)
    else if IsType(PROCESS_GROUP, t) then Ok(Some(viaGroup))
    else if IsType(REMOTE_PROCESS_GROUP, t) then Ok(None)
    else
      match ConnectableValueOf(t)
      case Ok(k) => Ok(Some(k))
      case Err(_) => Ok(Some(Processor))
  }

  /**
   * A port endpoint keeps its kind when its type is the exact constant
   * name; a port type in any other letter case is an
   * IllegalArgumentException.
   */
  lemma PortEndpointKind(t: NString, viaGroup: ConnectableType)
    requires IsPort(t)
    ensures t == Some("INPUT_PORT") ==> EndpointKind(t, viaGroup) == Ok(Some(InputPort))
    ensures t == Some("OUTPUT_PORT") ==> EndpointKind(t, viaGroup) == Ok(Some(OutputPort))
    ensures t != Some("INPUT_PORT") && t != Some("OUTPUT_PORT") ==> EndpointKind(t, viaGroup) == Err(IllegalArgument)
  {
    assert |t.value| == 10 || |t.value| == 11;
  }

  /** A process group stands for one of its ports; a remote process group gives no endpoint. */
  lemma GroupEndpointKind(t: NString, viaGroup: ConnectableType)
    ensures IsType(PROCESS_GROUP, t) ==> EndpointKind(t, viaGroup) == Ok(Some(viaGroup))
    ensures IsType(REMOTE_PROCESS_GROUP, t) ==> EndpointKind(t, viaGroup) == Ok(None)
  {
    KindsDisjoint(t);
    if IsType(PROCESS_GROUP, t) && IsType(REMOTE_PROCESS_GROUP, t) {
      KindOfTypeUnique(PROCESS_GROUP, REMOTE_PROCESS_GROUP, t);
    }
  }

  /** Anything else is a processor unless its type is exactly a connectable constant name (FUNNEL for a funnel). */
  lemma OtherEndpointKind(t: NString, viaGroup: ConnectableType)
    requires !IsPort(t) && !IsProcessGroup(t)
    ensures t == Some("FUNNEL") ==> EndpointKind(t, viaGroup) == Ok(Some(Funnel))
    ensures (forall c :: t != Some(ConnectableName(c))) ==> EndpointKind(t, viaGroup) == Ok(Some(Processor))
    ensures EndpointKind(t, viaGroup).Ok? && EndpointKind(t, viaGroup).value.Some?
  {
  }

  /** Where an endpoint lives and its id: in the group's new id under the named port, or in the current scope. */
  function Location(s: Scene, e: Element, port: Result<NString>, portKind: ReservedKind): (r: Result<(NString, NString)>)
  {
    if IsProcessGroup(e.typeName) then
      var groupId := Get(s.ids, e.id);
      match port
      case Err(f) => Err(f)
      case Ok(name) =>
        match OT.Resolve(s.named, groupId, name, Some(Name(portKind)))
        case Err(f) => Err(f)
        case Ok(id) => Ok((groupId, id))
    else
      match Top(s.stack)
      case Err(f) => Err(f)
      case Ok(scope) => Ok((Some(scope), Get(s.ids, e.id)))
  }

  /** makeSourceConnectable / makeDestinationConnectable: no endpoint (null) for a remote group. */
  function EndpointOf(s: Scene, e: Element, port: Result<NString>, portKind: ReservedKind,
                       viaGroup: ConnectableType): (r: Result<Option<Endpoint>>)
  {
    match Location(s, e, port, portKind)
    case Err(f) => Err(f)
    case Ok(location) =>
      match EndpointKind(e.typeName, viaGroup)
      case Err(f) => Err(f)
      case Ok(None) => Ok(None)
      case Ok(Some(kind)) => Ok(Some(Endpoint(location.0, location.1, None, kind)))
  }

  /**
   * Source endpoints: a process group or remote group source is the output
   * port named by from[0] inside the group's new id; any other source is
   * its own new id in the current scope.
   */
  lemma SourceEndpoint(s: Scene, e: Element, from: Option<seq<string>>)
    ensures var r := EndpointOf(s, e, FirstOf(from), OUTPUT_PORT, OutputPort);
      (IsProcessGroup(e.typeName) && from.None? ==> r == Err(NullPointer))
      && (IsProcessGroup(e.typeName) && from == Some([]) ==> r == Err(IndexOutOfBounds))
      && (IsProcessGroup(e.typeName) && r.Ok? && r.value.Some? ==>
        from.Some? && from.value != [] && IsType(PROCESS_GROUP, e.typeName)
        && r.value.value.groupId == Get(s.ids, e.id)
        && OT.Resolve(s.named, Get(s.ids, e.id), Some(from.value[0]), Some("OUTPUT_PORT")) == Ok(r.value.value.id)
        && r.value.value.kind == OutputPort)
      && (!IsProcessGroup(e.typeName) && r.Ok? && r.value.Some? ==>
        s.stack != [] && r.value.value.groupId == Some(s.stack[|s.stack| - 1].id) && r.value.value.id == Get(s.ids, e.id))
  {
    KindsDisjoint(e.typeName);
  }

  /** Destination endpoints mirror the sources with the input port named `to`. */
  lemma DestinationEndpoint(s: Scene, e: Element, to: NString)
    ensures var r := EndpointOf(s, e, Ok(to), INPUT_PORT, InputPort);
      (IsProcessGroup(e.typeName) && r.Ok? && r.value.Some? ==>
        r.value.value.groupId == Get(s.ids, e.id)
        && OT.Resolve(s.named, Get(s.ids, e.id), to, Some("INPUT_PORT")) == Ok(r.value.value.id)
        && r.value.value.kind == InputPort)
      && (!IsProcessGroup(e.typeName) && r.Ok? && r.value.Some? ==>
        s.stack != [] && r.value.value.groupId == Some(s.stack[|s.stack| - 1].id) && r.value.value.id == Get(s.ids, e.id))
  {
    KindsDisjoint(e.typeName);
  }

  /** Relationships are selected only from a non-empty `from` of a source that is neither a (remote) group nor a funnel. */
  function Relationships(sourceType: NString, from: Option<seq<string>>): (r: Option<seq<string>>)
    ensures r.Some? <==> from.Some? && from.value != [] && !IsProcessGroup(sourceType) && !IsType(FUNNEL, sourceType)
    ensures r.Some? ==> r == from
  {
    if from.Some? && from.value != [] && !IsProcessGroup(sourceType) && !IsType(FUNNEL, sourceType) then from else None
  }

  /** makeConnection's request, or none when an endpoint is a remote group. */
  function ConnectionCall(s: Scene, source: Element, destination: Element, input: InputConnection): (r: Result<Option<Call>>)
  {
    match EndpointOf(s, source, FirstOf(input.from), OUTPUT_PORT, OutputPort)
    case Err(f) => Err(f)
    case Ok(src) =>
      match EndpointOf(s, destination, Ok(input.to), INPUT_PORT, InputPort)
      case Err(f) => Err(f)
      case Ok(dst) =>
        if src.None? || dst.None? then Ok(None)
        else
          match Top(s.stack)
          case Err(f) => Err(f)
          case Ok(scope) => Ok(Some(CreateConnection(scope, src.value, dst.value, Relationships(source.typeName, input.from))))
  }

  /** makeConnection */
  function ConnectionStep(s: Scene, source: Element, destination: Element, input: InputConnection): Step<Option<string>> {
    match ConnectionCall(s, source, destination, input)
    case Err(f) => Step(Err(f), s)
    case Ok(None) => Step(Ok(None), s)
    case Ok(Some(c)) => var p := Issue(s, c); Step(Ok(Some(p.0)), p.1)
  }

  /** A connection to or from a remote group is never requested. */
  lemma RemoteGroupNotConnected(s: Scene, source: Element, destination: Element, input: InputConnection)
    requires IsType(REMOTE_PROCESS_GROUP, source.typeName) || IsType(REMOTE_PROCESS_GROUP, destination.typeName)
    ensures ConnectionCall(s, source, destination, input).Ok? ==> ConnectionCall(s, source, destination, input).value.None?
  {
    GroupEndpointKind(source.typeName, OutputPort);
    GroupEndpointKind(destination.typeName, InputPort);
  }

  /**
   * A connection request is made in the current scope, carries the two
   * resolved endpoints, and selects relationships exactly by the rule.
   */
  lemma ConnectionRequest(s: Scene, source: Element, destination: Element, input: InputConnection)
    requires ConnectionCall(s, source, destination, input).Ok?
    requires ConnectionCall(s, source, destination, input).value.Some?
    ensures var c := ConnectionCall(s, source, destination, input).value.value;
      s.stack != [] && c.CreateConnection? && c.parent == s.stack[|s.stack| - 1].id
      && EndpointOf(s, source, FirstOf(input.from), OUTPUT_PORT, OutputPort) == Ok(Some(c.source))
      && EndpointOf(s, destination, Ok(input.to), INPUT_PORT, InputPort) == Ok(Some(c.destination))
      && c.relationships == Relationships(source.typeName, input.from)
  {
  }

  // ---------------------------------------------------------------------
  // The builder

  class ObjectBuilder {
    /** processGroupStack, top at the end */
    var stack: seq<Frame>
    const tracker: OT.ObjectTracker
    const ws: Workspace
    const uuids: UuidSource

    constructor (ws: Workspace, uuids: UuidSource)
      ensures stack == [] && this.ws == ws && this.uuids == uuids
      ensures fresh(tracker) && tracker.named == map[] && tracker.ids == map[]
    {
      stack := [];
      tracker := new OT.ObjectTracker();
      this.ws := ws;
      this.uuids := uuids;
    }

    /** The state the operations read and change. */
    function Snapshot(): Scene
      reads this, tracker, ws, uuids
    {
      Scene(stack, tracker.named, tracker.ids, ws.next, ws.calls, uuids.next)
    }

    method EnterProcessGroup(id: string)
      modifies this
      ensures stack == Push(old(stack), id)
    {
      stack := stack + [Frame(id, None)];
    }

    method LeaveProcessGroup() returns (r: Result<string>)
      modifies this
      ensures Pop(old(stack)).Err? ==> r == Err(EmptyStack) && stack == old(stack)
      ensures Pop(old(stack)).Ok? ==> r == Ok(Pop(old(stack)).value.0) && stack == Pop(old(stack)).value.1
    {
      if stack == [] {
        return Err(EmptyStack);
      }
      r := Ok(stack[|stack| - 1].id);
      stack := stack[..|stack| - 1];
    }

    method SetDependenciesLookup(deps: DependencyLookup) returns (r: Result<()>)
      modifies this
      ensures SetTop(old(stack), deps).Err? ==> r == Err(EmptyStack) && stack == old(stack)
      ensures SetTop(old(stack), deps).Ok? ==> r == Ok(()) && stack == SetTop(old(stack), deps).value
    {
      if stack == [] {
        return Err(EmptyStack);
      }
      stack := stack[..|stack| - 1] + [Frame(stack[|stack| - 1].id, Some(deps))];
      r := Ok(());
    }

    /** getProcessGroupId */
    function GetProcessGroupId(): Result<string>
      reads this
    {
      Top(stack)
    }

    /** lookup */
    function Lookup(canonicalName: NString): Result<Option<(string, Bundle)>>
      reads this
    {
      LookupIn(stack, canonicalName)
    }

    /** getNewId */
    function GetNewId(id: NString): NString
      reads tracker
    {
      tracker.LookupByOldId(id)
    }

    method MakeControllerService(c: Controller) returns (r: Result<string>)
      modifies tracker, ws
      ensures Step(r, Snapshot()) == ControllerStep(old(Snapshot()), c)
    {
      var dep := Lookup(c.typeName);
      if dep.Err? {
        return Err(dep.fault);
      }
      if dep.value.None? {
        return Err(NullPointer);
      }
      if !AllPresent(c.properties) {
        return Err(NullPointer);
      }
      var props := AsStrings(c.properties);
      var id := ws.Create(CreateControllerService(stack[|stack| - 1].id, dep.value.value.0, dep.value.value.1, c.name, props));
      tracker.TrackId(c.id, id);
      r := Ok(id);
    }

    method MakeFunnel(e: Element) returns (r: Result<string>)
      modifies tracker, ws
      ensures Step(r, Snapshot()) == FunnelStep(old(Snapshot()), e)
    {
      if stack == [] {
        return Err(EmptyStack);
      }
      var id := ws.Create(CreateFunnel(stack[|stack| - 1].id, e.position));
      tracker.TrackId(e.id, id);
      r := Ok(id);
    }

    method MakeProcessGroup(e: Element) returns (r: Result<string>)
      modifies tracker, ws
      ensures Step(r, Snapshot()) == GroupStep(old(Snapshot()), e)
    {
      if stack == [] {
        return Err(EmptyStack);
      }
      var id := ws.Create(CreateProcessGroup(stack[|stack| - 1].id, e.name, e.position));
      ws.Update(UpdateComments(id, e.comment));
      tracker.TrackId(e.id, id);
      r := Ok(id);
    }

    method MakeRemoteProcessGroup(e: Element) returns (r: Result<string>)
      modifies tracker, ws
      ensures Step(r, Snapshot()) == RemoteGroupStep(old(Snapshot()), e)
    {
      if stack == [] {
        return Err(EmptyStack);
      }
      var targetUris := PropertyOf(e.properties, TARGET_URIS);
      var id := ws.Create(CreateRemoteProcessGroup(stack[|stack| - 1].id, targetUris, e.position, []));
      tracker.TrackId(e.id, id);
      r := Ok(id);
    }

    /** makeInputPort (kind INPUT_PORT) and makeOutputPort (kind OUTPUT_PORT) */
    method MakePort(e: Element, kind: ReservedKind) returns (r: Result<string>)
      modifies tracker, ws
      ensures Step(r, Snapshot()) == PortStep(old(Snapshot()), e, kind)
    {
      if stack == [] {
        return Err(EmptyStack);
      }
      var scope := stack[|stack| - 1].id;
      var id := ws.Create(CreatePort(scope, kind, e.name, e.comment, e.position));
      tracker.TrackId(e.id, id);
      tracker.Track(Some(scope), e.name, e.typeName, id);
      r := Ok(id);
    }

    method MakeLabel(e: Element) returns (r: Result<string>)
      modifies tracker, ws
      ensures Step(r, Snapshot()) == LabelStep(old(Snapshot()), e)
    {
      if stack == [] {
        return Err(EmptyStack);
      }
      var id := ws.Create(CreateLabel(stack[|stack| - 1].id, e.comment, Some(e.styles), e.position));
      tracker.TrackId(e.id, id);
      r := Ok(id);
    }

    method MakeProcessor(e: Element) returns (r: Result<string>)
      modifies tracker, ws, uuids
      ensures Step(r, Snapshot()) == ProcessorStep(old(Snapshot()), e)
    {
      var dep := Lookup(GetType(e));
      if dep.Err? {
        return Err(dep.fault);
      }
      if dep.value.None? {
        return Err(NullPointer);
      }
      var props := RewriteIds(e.properties, tracker.ids);
      var sched := SchedulingRequestOf(e.scheduling);
      if sched.Err? {
        return Err(sched.fault);
      }
      var annotation: Option<Criteria> := None;
      if e.advanced.Some? {
        var criteria := RuleCodec.MakeAnnotationData(e.advanced.value, uuids);
        annotation := Some(criteria);
      }
      var request := ProcessorRequest(dep.value.value.0, dep.value.value.1, e.name, e.position, Some(e.styles),
                                      props, sched.value, annotation);
      var id := ws.Create(CreateProcessor(stack[|stack| - 1].id, request));
      tracker.TrackId(e.id, id);
      r := Ok(id);
    }

    method MakeConnection(source: Element, destination: Element, input: InputConnection) returns (r: Result<Option<string>>)
      modifies ws
      ensures Step(r, Snapshot()) == ConnectionStep(old(Snapshot()), source, destination, input)
    {
      var s := Snapshot();
      var src := EndpointOf(s, source, FirstOf(input.from), OUTPUT_PORT, OutputPort);
      if src.Err? {
        return Err(src.fault);
      }
      var dst := EndpointOf(s, destination, Ok(input.to), INPUT_PORT, InputPort);
      if dst.Err? {
        return Err(dst.fault);
      }
      if src.value.None? || dst.value.None? {
        return Ok(None);
      }
      if stack == [] {
        return Err(EmptyStack);
      }
      var rels := Relationships(source.typeName, input.from);
      var id := ws.Create(CreateConnection(stack[|stack| - 1].id, src.value.value, dst.value.value, rels));
      r := Ok(Some(id));
    }
  }
}
