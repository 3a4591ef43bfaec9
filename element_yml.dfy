/**
 * ElementYML: one canvas node of a template. Every constructor records the
 * node's id, name, type (elided when it equals the name), position and
 * incoming connections; the processor, process group, remote group, port,
 * funnel and label constructors then add what their kind carries, storing
 * only settings that differ from NiFi's defaults.
 */
module ElementYml {
  import opened Wrappers
  import opened Text
  import opened HelperYml
  import opened Records
  import opened PropertyDelta
  import opened RemotePortYml
  import RuleCodec
  import InputConnectionYml

  // ---------------------------------------------------------------------
  // Incoming connections

  /** The captured form of each incoming connection, in order; null gives none. */
  function CapturedInputs(inputs: Option<seq<ConnectionEntity>>): (r: seq<InputConnection>)
    ensures inputs.None? ==> r == []
    ensures inputs.Some? ==> |r| == |inputs.value|
    ensures inputs.Some? ==> forall i :: 0 <= i < |r| ==> r[i] == InputConnectionYml.InputConnectionOf(inputs.value[i])
  {
    match inputs
    case None => []
    case Some(cs) => seq(|cs|, i requires 0 <= i < |cs| => InputConnectionYml.InputConnectionOf(cs[i]))
  }

  /** handleConnections: one input entry per connection, in order. */
  method HandleConnections(inputs: Option<seq<ConnectionEntity>>) returns (out: seq<InputConnection>)
    ensures inputs.None? ==> out == []
    ensures inputs.Some? ==> |out| == |inputs.value|
    ensures inputs.Some? ==> forall i :: 0 <= i < |out| ==> out[i] == InputConnectionYml.InputConnectionOf(inputs.value[i])
  {
    out := [];
    if inputs.Some? {
      var cs := inputs.value;
      var i := 0;
      while i < |cs|
        invariant 0 <= i <= |cs|
        invariant |out| == i
        invariant forall j :: 0 <= j < i ==> out[j] == InputConnectionYml.InputConnectionOf(cs[j])
      {
        var c := InputConnectionYml.InputConnectionYml(cs[i]);
        out := out + [c];
        i := i + 1;
      }
    }
  }

  // ---------------------------------------------------------------------
  // The common part

  /**
   * What the private constructor records: the id, the name, the position,
   * the inputs, and the type -- left out when the name already says it,
   * so that getType still answers the type the caller gave.
   */
  ghost predicate Identifies(e: Element, id: string, name: NString, typeArg: NString,
                             position: string, inputs: Option<seq<ConnectionEntity>>) {
    e.id == Some(id) && e.name == name && e.position == Some(position)
    && (e.typeName.None? <==> typeArg.None? || typeArg == name)
    && (typeArg.Some? ==> GetType(e) == typeArg)
    && (typeArg.None? ==> GetType(e) == name)
    && e.inputs == Some(CapturedInputs(inputs))
  }

  /** The private constructor; everything it does not set is empty. */
  method ElementBase(id: string, name: NString, typeArg: NString, position: string,
                     inputs: Option<seq<ConnectionEntity>>) returns (e: Element)
    ensures Identifies(e, id, name, typeArg, position, inputs)
    ensures e.template.None? && e.comment.None? && e.advanced.None?
    ensures e.properties == map[] && e.styles == map[] && e.scheduling == map[] && e.remotePorts == []
  {
    var typeName: NString := None;
    if name.None? || name != typeArg {
      typeName := typeArg;
    }
    var captured := HandleConnections(inputs);
    assert captured == CapturedInputs(inputs);
    e := Element(name, typeName, Some(id), None, Some(position), None, map[], map[], map[],
                 Some(captured), [], None);
  }

  // ---------------------------------------------------------------------
  // Styles

  /** A style pair that only restates NiFi's default look. */
  predicate DefaultStyle(key: string, value: string) {
    (key == FONT_SIZE && value == DEFAULT_STYLE_FONT_SIZE) || (key == BG_COLOR && value == DEFAULT_STYLE_COLOR)
  }

  /** handleStyles: every style pair except the two defaults is put over what is already there. */
  method HandleStyles(into: map<string, string>, styles: map<string, string>) returns (out: map<string, string>)
    ensures forall k :: k in out <==> k in into || (k in styles && !DefaultStyle(k, styles[k]))
    ensures forall k :: k in out ==>
      out[k] == if k in styles && !DefaultStyle(k, styles[k]) then styles[k] else into[k]
  {
    out := into;
    var rest := styles.Keys;
    while rest != {}
      invariant rest <= styles.Keys
      invariant forall k :: k in out <==> k in into || (k in styles && k !in rest && !DefaultStyle(k, styles[k]))
      invariant forall k :: k in out ==>
        out[k] == if k in styles && k !in rest && !DefaultStyle(k, styles[k]) then styles[k] else into[k]
      decreases |rest|
    {
      var key :| key in rest;
      var value := styles[key];
      if !DefaultStyle(key, value) {
        out := out[key := value];
      }
      rest := rest - {key};
    }
  }

  /** The style a stored map stands for: a missing font size or background colour is the default. */
  function EffectiveStyle(stored: map<string, string>, key: string): Option<string> {
    if key in stored then Some(stored[key])
    else if key == FONT_SIZE then Some(DEFAULT_STYLE_FONT_SIZE)
    else if key == BG_COLOR then Some(DEFAULT_STYLE_COLOR)
    else None
  }

  /** Dropping the defaults loses nothing: every captured style reads back as it was. */
  lemma StylesRestore(out: map<string, string>, styles: map<string, string>)
    requires forall k :: k in out <==> k in styles && !DefaultStyle(k, styles[k])
    requires forall k :: k in out ==> out[k] == styles[k]
    ensures forall k :: k in styles ==> EffectiveStyle(out, k) == Some(styles[k])
  {
  }

  // ---------------------------------------------------------------------
  // Scheduling

  /** The position of each scheduling setting in the order the constructor examines them. */
  function SchedulingRank(s: SchedulingSetting): nat {
    match s
    case RunSchedule => 0
    case SchedulingStrategy => 1
    case ConcurrentTasks => 2
    case PenaltyDuration => 3
    case Yield => 4
    case RunDuration => 5
    case ExecutionNode => 6
    case BulletinLevel => 7
  }

  /** The scheduling setting examined n-th. */
  function SchedulingAt(n: nat): (s: SchedulingSetting)
    requires n < 8
    ensures SchedulingRank(s) == n
  {
    if n == 0 then RunSchedule
    else if n == 1 then SchedulingStrategy
    else if n == 2 then ConcurrentTasks
    else if n == 3 then PenaltyDuration
    else if n == 4 then Yield
    else if n == 5 then RunDuration
    else if n == 6 then ExecutionNode
    else BulletinLevel
  }

  /** A string setting that is set and not its default. */
  predicate ChangedText(v: NString, default: string) {
    v.Some? && v.value != default
  }

  /** A numeric setting that is set and not its default. */
  predicate ChangedNumber(v: Option<int>, default: int) {
    v.Some? && v.value != default
  }

  /** The value stored for a scheduling setting that differs from its default; None for a default or unset one. */
  function Scheduled(c: ProcessorConfig, s: SchedulingSetting): Option<string> {
    match s
    case RunSchedule =>
      if ChangedText(c.schedulingPeriod, DEFAULT_SCHEDULING_PERIOD) then c.schedulingPeriod else None
    case SchedulingStrategy =>
      if ChangedText(c.schedulingStrategy, DEFAULT_SCHEDULING_STRATEGY) then c.schedulingStrategy else None
    case ConcurrentTasks =>
      if ChangedNumber(c.concurrentTasks, DEFAULT_SCHEDULABLE_TASK_COUNT)
      then Some(IntToString(c.concurrentTasks.value)) else None
    case PenaltyDuration =>
      if ChangedText(c.penaltyDuration, DEFAULT_PENALTY_DURATION) then c.penaltyDuration else None
    case Yield =>
      if ChangedText(c.yieldDuration, DEFAULT_YIELD_DURATION) then c.yieldDuration else None
    case RunDuration =>
      if ChangedNumber(c.runDurationMillis, DEFAULT_RUN_DURATION)
      then Some(IntToString(c.runDurationMillis.value)) else None
    case ExecutionNode =>
      if ChangedText(c.executionNode, DEFAULT_EXECUTION_NODE) then c.executionNode else None
    case BulletinLevel =>
      if ChangedText(c.bulletinLevel, DEFAULT_BULLETIN_LEVEL) then c.bulletinLevel else None
  }

  /** The scheduling map after the constructor has examined the first n settings. */
  function ScheduledUpTo(c: ProcessorConfig, n: nat): map<SchedulingSetting, string>
    requires n <= 8
  {
    if n == 0 then map[]
    else
      var s := SchedulingAt(n - 1);
      var m := ScheduledUpTo(c, n - 1);
      if Scheduled(c, s).Some? then m[s := Scheduled(c, s).value] else m
  }

  lemma {:induction false} ScheduledUpToAt(c: ProcessorConfig, n: nat, s: SchedulingSetting)
    requires n <= 8
    ensures Get(ScheduledUpTo(c, n), s) == if SchedulingRank(s) < n then Scheduled(c, s) else None
  {
    if n > 0 {
      ScheduledUpToAt(c, n - 1, s);
      if SchedulingRank(s) != n - 1 {
        assert s != SchedulingAt(n - 1);
      }
    }
  }

  /** The scheduling settings that are set and differ from their defaults, numbers in decimal. */
  function SchedulingOf(c: ProcessorConfig): (r: map<SchedulingSetting, string>)
    ensures RunSchedule in r <==> ChangedText(c.schedulingPeriod, DEFAULT_SCHEDULING_PERIOD)
    ensures RunSchedule in r ==> r[RunSchedule] == c.schedulingPeriod.value
    ensures SchedulingStrategy in r <==> ChangedText(c.schedulingStrategy, DEFAULT_SCHEDULING_STRATEGY)
    ensures SchedulingStrategy in r ==> r[SchedulingStrategy] == c.schedulingStrategy.value
    ensures ConcurrentTasks in r <==> ChangedNumber(c.concurrentTasks, DEFAULT_SCHEDULABLE_TASK_COUNT)
    ensures ConcurrentTasks in r ==> r[ConcurrentTasks] == IntToString(c.concurrentTasks.value)
    ensures PenaltyDuration in r <==> ChangedText(c.penaltyDuration, DEFAULT_PENALTY_DURATION)
    ensures PenaltyDuration in r ==> r[PenaltyDuration] == c.penaltyDuration.value
    ensures Yield in r <==> ChangedText(c.yieldDuration, DEFAULT_YIELD_DURATION)
    ensures Yield in r ==> r[Yield] == c.yieldDuration.value
    ensures RunDuration in r <==> ChangedNumber(c.runDurationMillis, DEFAULT_RUN_DURATION)
    ensures RunDuration in r ==> r[RunDuration] == IntToString(c.runDurationMillis.value)
    ensures ExecutionNode in r <==> ChangedText(c.executionNode, DEFAULT_EXECUTION_NODE)
    ensures ExecutionNode in r ==> r[ExecutionNode] == c.executionNode.value
    ensures BulletinLevel in r <==> ChangedText(c.bulletinLevel, DEFAULT_BULLETIN_LEVEL)
    ensures BulletinLevel in r ==> r[BulletinLevel] == c.bulletinLevel.value
  {
    var r := ScheduledUpTo(c, 8);
    ScheduledUpToAt(c, 8, RunSchedule);
    ScheduledUpToAt(c, 8, SchedulingStrategy);
    ScheduledUpToAt(c, 8, ConcurrentTasks);
    ScheduledUpToAt(c, 8, PenaltyDuration);
    ScheduledUpToAt(c, 8, Yield);
    ScheduledUpToAt(c, 8, RunDuration);
    ScheduledUpToAt(c, 8, ExecutionNode);
    ScheduledUpToAt(c, 8, BulletinLevel);
    r
  }

  /** The eight conditional puts of the processor constructor, in source order. */
  method ChangedScheduling(c: ProcessorConfig) returns (scheduling: map<SchedulingSetting, string>)
    ensures scheduling == SchedulingOf(c)
  {
    scheduling := map[];
    assert scheduling == ScheduledUpTo(c, 0);
    if c.schedulingPeriod.Some? && "0 sec" != c.schedulingPeriod.value {
      scheduling := scheduling[RunSchedule := c.schedulingPeriod.value];
    }
    assert scheduling == ScheduledUpTo(c, 1);
    if c.schedulingStrategy.Some? && "TIMER_DRIVEN" != c.schedulingStrategy.value {
      scheduling := scheduling[SchedulingStrategy := c.schedulingStrategy.value];
    }
    assert scheduling == ScheduledUpTo(c, 2);
    if c.concurrentTasks.Some? && 1 != c.concurrentTasks.value {
      scheduling := scheduling[ConcurrentTasks := IntToString(c.concurrentTasks.value)];
    }
    assert scheduling == ScheduledUpTo(c, 3);
    if c.penaltyDuration.Some? && "30 sec" != c.penaltyDuration.value {
      scheduling := scheduling[PenaltyDuration := c.penaltyDuration.value];
    }
    assert scheduling == ScheduledUpTo(c, 4);
    if c.yieldDuration.Some? && "1 sec" != c.yieldDuration.value {
      scheduling := scheduling[Yield := c.yieldDuration.value];
    }
    assert scheduling == ScheduledUpTo(c, 5);
    if c.runDurationMillis.Some? && 0 != c.runDurationMillis.value {
      scheduling := scheduling[RunDuration := IntToString(c.runDurationMillis.value)];
    }
    assert scheduling == ScheduledUpTo(c, 6);
    if c.executionNode.Some? && "ALL" != c.executionNode.value {
      scheduling := scheduling[ExecutionNode := c.executionNode.value];
    }
    assert scheduling == ScheduledUpTo(c, 7);
    if c.bulletinLevel.Some? && "WARN" != c.bulletinLevel.value {
      scheduling := scheduling[BulletinLevel := c.bulletinLevel.value];
    }
    assert scheduling == ScheduledUpTo(c, 8);
  }

  // ---------------------------------------------------------------------
  // Remote process group settings

  function RemoteRank(s: RemoteSetting): nat {
    match s
    case TargetUris => 0
    case ProxyHost => 1
    case ProxyPort => 2
    case ProxyUser => 3
    case ProxyPassword => 4
    case Network => 5
    case Protocol => 6
    case Timeout => 7
    case RemoteYield => 8
  }

  function RemoteAt(n: nat): (s: RemoteSetting)
    requires n < 9
    ensures RemoteRank(s) == n
  {
    if n == 0 then TargetUris
    else if n == 1 then ProxyHost
    else if n == 2 then ProxyPort
    else if n == 3 then ProxyUser
    else if n == 4 then ProxyPassword
    else if n == 5 then Network
    else if n == 6 then Protocol
    else if n == 7 then Timeout
    else RemoteYield
  }

  /**
   * The value stored for a remote-group setting, or None when it is not
   * stored. Addresses, proxy credentials and the interface are kept when
   * present, the proxy port whenever set; protocol, timeout and yield are
   * kept unless they equal their defaults, so a null one is kept as null.
   */
  function RemoteStored(g: RemoteGroupEntity, s: RemoteSetting): Option<NString> {
    match s
    case TargetUris => if Present(g.targetUris) then Some(g.targetUris) else None
    case ProxyHost => if Present(g.proxyHost) then Some(g.proxyHost) else None
    case ProxyPort => if g.proxyPort.Some? then Some(Some(IntToString(g.proxyPort.value))) else None
    case ProxyUser => if Present(g.proxyUser) then Some(g.proxyUser) else None
    case ProxyPassword => if Present(g.proxyPassword) then Some(g.proxyPassword) else None
    case Network => if Present(g.network) then Some(g.network) else None
    case Protocol =>
      if g.transportProtocol != Some(DEFAULT_REMOTE_TRANSPORT) then Some(g.transportProtocol) else None
    case Timeout =>
      if g.communicationsTimeout != Some(DEFAULT_REMOTE_TIMEOUT) then Some(g.communicationsTimeout) else None
    case RemoteYield =>
      if g.yieldDuration != Some(DEFAULT_REMOTE_YIELD) then Some(g.yieldDuration) else None
  }

  /** The property map after the constructor has examined the first n remote settings. */
  function RemoteUpTo(g: RemoteGroupEntity, n: nat): map<string, NString>
    requires n <= 9
  {
    if n == 0 then map[]
    else
      var s := RemoteAt(n - 1);
      var m := RemoteUpTo(g, n - 1);
      if RemoteStored(g, s).Some? then m[RemoteKey(s) := RemoteStored(g, s).value] else m
  }

  lemma {:induction false} RemoteUpToAt(g: RemoteGroupEntity, n: nat, s: RemoteSetting)
    requires n <= 9
    ensures Get(RemoteUpTo(g, n), RemoteKey(s)) == if RemoteRank(s) < n then RemoteStored(g, s) else None
  {
    if n > 0 {
      RemoteUpToAt(g, n - 1, s);
      if RemoteRank(s) != n - 1 {
        if RemoteKey(s) == RemoteKey(RemoteAt(n - 1)) {
          RemoteKeyInjective(s, RemoteAt(n - 1));
        }
      }
    }
  }

  lemma {:induction false} RemoteUpToKeys(g: RemoteGroupEntity, n: nat)
    requires n <= 9
    ensures forall k :: k in RemoteUpTo(g, n) ==> exists s :: k == RemoteKey(s)
  {
    if n > 0 {
      RemoteUpToKeys(g, n - 1);
    }
  }

  /** The remote-group settings worth storing, under their property names. */
  function RemoteGroupProperties(g: RemoteGroupEntity): (r: map<string, NString>)
    ensures forall k :: k in r ==> exists s :: k == RemoteKey(s)
    ensures TARGET_URIS in r <==> Present(g.targetUris)
    ensures TARGET_URIS in r ==> r[TARGET_URIS] == g.targetUris
    ensures PROXY_HOST in r <==> Present(g.proxyHost)
    ensures PROXY_HOST in r ==> r[PROXY_HOST] == g.proxyHost
    ensures PROXY_PORT in r <==> g.proxyPort.Some?
    ensures PROXY_PORT in r ==> r[PROXY_PORT] == Some(IntToString(g.proxyPort.value))
    ensures PROXY_USER in r <==> Present(g.proxyUser)
    ensures PROXY_USER in r ==> r[PROXY_USER] == g.proxyUser
    ensures PROXY_PASSWORD in r <==> Present(g.proxyPassword)
    ensures PROXY_PASSWORD in r ==> r[PROXY_PASSWORD] == g.proxyPassword
    ensures NETWORK in r <==> Present(g.network)
    ensures NETWORK in r ==> r[NETWORK] == g.network
    ensures PROTOCOL in r <==> g.transportProtocol != Some(DEFAULT_REMOTE_TRANSPORT)
    ensures PROTOCOL in r ==> r[PROTOCOL] == g.transportProtocol
    ensures TIMEOUT in r <==> g.communicationsTimeout != Some(DEFAULT_REMOTE_TIMEOUT)
    ensures TIMEOUT in r ==> r[TIMEOUT] == g.communicationsTimeout
    ensures YIELD_DURATION in r <==> g.yieldDuration != Some(DEFAULT_REMOTE_YIELD)
    ensures YIELD_DURATION in r ==> r[YIELD_DURATION] == g.yieldDuration
  {
    var r := RemoteUpTo(g, 9);
    RemoteUpToKeys(g, 9);
    RemoteUpToAt(g, 9, TargetUris);
    RemoteUpToAt(g, 9, ProxyHost);
    RemoteUpToAt(g, 9, ProxyPort);
    RemoteUpToAt(g, 9, ProxyUser);
    RemoteUpToAt(g, 9, ProxyPassword);
    RemoteUpToAt(g, 9, Network);
    RemoteUpToAt(g, 9, Protocol);
    RemoteUpToAt(g, 9, Timeout);
    RemoteUpToAt(g, 9, RemoteYield);
    r
  }

  /** The nine conditional puts of the remote-group constructor, in source order. */
  method ChangedRemoteSettings(g: RemoteGroupEntity) returns (props: map<string, NString>)
    ensures props == RemoteGroupProperties(g)
  {
    props := map[];
    assert props == RemoteUpTo(g, 0);
    if g.targetUris.Some? && g.targetUris.value != "" {
      props := props[TARGET_URIS := g.targetUris];
    }
    assert props == RemoteUpTo(g, 1);
    if g.proxyHost.Some? && g.proxyHost.value != "" {
      props := props[PROXY_HOST := g.proxyHost];
    }
    assert props == RemoteUpTo(g, 2);
    if g.proxyPort.Some? {
      props := props[PROXY_PORT := Some(IntToString(g.proxyPort.value))];
    }
    assert props == RemoteUpTo(g, 3);
    if g.proxyUser.Some? && g.proxyUser.value != "" {
      props := props[PROXY_USER := g.proxyUser];
    }
    assert props == RemoteUpTo(g, 4);
    if g.proxyPassword.Some? && g.proxyPassword.value != "" {
      props := props[PROXY_PASSWORD := g.proxyPassword];
    }
    assert props == RemoteUpTo(g, 5);
    if g.network.Some? && g.network.value != "" {
      props := props[NETWORK := g.network];
    }
    assert props == RemoteUpTo(g, 6);
    if Some("RAW") != g.transportProtocol {
      props := props[PROTOCOL := g.transportProtocol];
    }
    assert props == RemoteUpTo(g, 7);
    if Some("30 sec") != g.communicationsTimeout {
      props := props[TIMEOUT := g.communicationsTimeout];
    }
    assert props == RemoteUpTo(g, 8);
    if Some("10 sec") != g.yieldDuration {
      props := props[YIELD_DURATION := g.yieldDuration];
    }
    assert props == RemoteUpTo(g, 9);
  }

  /** The remote ports: every input port as INPUT_PORT, then every output port as OUTPUT_PORT. */
  function RemotePortsOf(g: RemoteGroupEntity): (r: seq<RemotePort>)
    ensures |r| == |g.inputPorts| + |g.outputPorts|
    ensures forall i :: 0 <= i < |g.inputPorts| ==> r[i] == RemotePortOf(g.inputPorts[i], INPUT_PORT)
    ensures forall i :: 0 <= i < |g.outputPorts| ==>
      r[|g.inputPorts| + i] == RemotePortOf(g.outputPorts[i], OUTPUT_PORT)
  {
    seq(|g.inputPorts|, i requires 0 <= i < |g.inputPorts| => RemotePortOf(g.inputPorts[i], INPUT_PORT))
    + seq(|g.outputPorts|, i requires 0 <= i < |g.outputPorts| => RemotePortOf(g.outputPorts[i], OUTPUT_PORT))
  }

  /** The two loops that list the remote ports. */
  method ListRemotePorts(g: RemoteGroupEntity) returns (ports: seq<RemotePort>)
    ensures ports == RemotePortsOf(g)
  {
    ports := [];
    var i := 0;
    while i < |g.inputPorts|
      invariant 0 <= i <= |g.inputPorts|
      invariant |ports| == i
      invariant forall j :: 0 <= j < i ==> ports[j] == RemotePortOf(g.inputPorts[j], INPUT_PORT)
    {
      ports := ports + [RemotePortOf(g.inputPorts[i], INPUT_PORT)];
      i := i + 1;
    }
    var n := |ports|;
    i := 0;
    while i < |g.outputPorts|
      invariant 0 <= i <= |g.outputPorts|
      invariant |ports| == n + i
      invariant forall j :: 0 <= j < n ==> ports[j] == RemotePortOf(g.inputPorts[j], INPUT_PORT)
      invariant forall j :: 0 <= j < i ==> ports[n + j] == RemotePortOf(g.outputPorts[j], OUTPUT_PORT)
    {
      ports := ports + [RemotePortOf(g.outputPorts[i], OUTPUT_PORT)];
      i := i + 1;
    }
  }

  // ---------------------------------------------------------------------
  // The public constructors

  /**
   * A processor under its canonical type name: the property delta, the
   * non-default styles, the advanced rules and the changed scheduling
   * settings. Annotation markup without its rule list raises
   * NullPointerException; markup the reader rejects leaves the rules unset.
   */
  method FromProcessor(p: ProcessorEntity, reference: NString, inputs: Option<seq<ConnectionEntity>>)
    returns (r: Result<Element>)
    ensures r.Err? <==> RuleCodec.DecodeAnnotation(p.config.annotationData).Err?
    ensures r.Err? ==> r.fault == NullPointer
    ensures r.Ok? ==> Identifies(r.value, p.id, p.name, reference, p.position, inputs)
    ensures r.Ok? ==> IsDelta(r.value.properties, p.config.descriptors, p.config.properties)
    ensures r.Ok? ==> forall k :: k in r.value.styles <==> k in p.style && !DefaultStyle(k, p.style[k])
    ensures r.Ok? ==> forall k :: k in r.value.styles ==> r.value.styles[k] == p.style[k]
    ensures r.Ok? ==> r.value.advanced == RuleCodec.DecodeAnnotation(p.config.annotationData).value
    ensures r.Ok? ==> r.value.comment == p.config.comments
    ensures r.Ok? ==> r.value.scheduling == SchedulingOf(p.config)
    ensures r.Ok? ==> r.value.template.None? && r.value.remotePorts == []
  {
    var e := ElementBase(p.id, p.name, reference, p.position, inputs);
    var props := ChangedProperties(p.config.descriptors, p.config.properties);
    var styles := HandleStyles(map[], p.style);
    var advanced := RuleCodec.HandleAnnotations(p.config.annotationData);
    if advanced.Err? {
      return Err(advanced.fault);
    }
    var scheduling := ChangedScheduling(p.config);
    r := Ok(e.(properties := props, styles := styles, advanced := advanced.value,
               comment := p.config.comments, scheduling := scheduling));
  }

  /** A process group: its type is PROCESS_GROUP and it refers to the template file of its contents. */
  method FromProcessGroup(g: ProcessGroupEntity, templateName: NString, inputs: Option<seq<ConnectionEntity>>)
    returns (e: Element)
    ensures Identifies(e, g.id, g.name, Some(Name(PROCESS_GROUP)), g.position, inputs)
    ensures e.template == Some(Str(templateName) + YAML_EXT)
    ensures e.comment == g.comments
    ensures e.properties == map[] && e.styles == map[] && e.scheduling == map[]
    ensures e.remotePorts == [] && e.advanced.None?
  {
    e := ElementBase(g.id, g.name, Some(Name(PROCESS_GROUP)), g.position, inputs);
    e := e.(template := Some(Str(templateName) + ".yaml"), comment := g.comments);
  }

  /** A remote process group: its connection settings and its remote ports. */
  method FromRemoteGroup(g: RemoteGroupEntity, inputs: Option<seq<ConnectionEntity>>) returns (e: Element)
    ensures Identifies(e, g.id, g.name, Some(Name(REMOTE_PROCESS_GROUP)), g.position, inputs)
    ensures e.comment == g.comments
    ensures e.properties == RemoteGroupProperties(g)
    ensures e.remotePorts == RemotePortsOf(g)
    ensures e.template.None? && e.styles == map[] && e.scheduling == map[] && e.advanced.None?
  {
    e := ElementBase(g.id, g.name, Some(Name(REMOTE_PROCESS_GROUP)), g.position, inputs);
    var props := ChangedRemoteSettings(g);
    var ports := ListRemotePorts(g);
    e := e.(comment := g.comments, properties := props, remotePorts := ports);
  }

  /** An input or output port, typed by its port type. */
  method FromPort(p: PortEntity, inputs: Option<seq<ConnectionEntity>>) returns (e: Element)
    ensures Identifies(e, p.id, p.name, p.portType, p.position, inputs)
    ensures e.comment == p.comments
    ensures e.template.None? && e.properties == map[] && e.styles == map[] && e.scheduling == map[]
    ensures e.remotePorts == [] && e.advanced.None?
  {
    e := ElementBase(p.id, p.name, p.portType, p.position, inputs);
    e := e.(comment := p.comments);
  }

  /** A funnel: no name, type FUNNEL. */
  method FromFunnel(f: FunnelEntity, inputs: Option<seq<ConnectionEntity>>) returns (e: Element)
    ensures Identifies(e, f.id, None, Some(Name(FUNNEL)), f.position, inputs)
    ensures e.typeName == Some(Name(FUNNEL))
    ensures e.template.None? && e.comment.None? && e.properties == map[] && e.styles == map[]
    ensures e.scheduling == map[] && e.remotePorts == [] && e.advanced.None?
  {
    e := ElementBase(f.id, None, Some(Name(FUNNEL)), f.position, inputs);
  }

  /**
   * A label: no name and no inputs, its text as the comment, and its size
   * under the width and height style keys, which a style of the same name
   * overrides.
   */
  method FromLabel(l: LabelEntity) returns (e: Element)
    ensures Identifies(e, l.id, None, Some(Name(LABEL)), l.position, None)
    ensures e.typeName == Some(Name(LABEL)) && e.inputs == Some([])
    ensures e.comment == l.labelText
    ensures WIDTH in e.styles && HEIGHT in e.styles
    ensures WIDTH !in l.style ==> e.styles[WIDTH] == l.width
    ensures HEIGHT !in l.style ==> e.styles[HEIGHT] == l.height
    ensures forall k :: k in l.style && !DefaultStyle(k, l.style[k]) ==> k in e.styles && e.styles[k] == l.style[k]
    ensures forall k :: k in e.styles ==> k == WIDTH || k == HEIGHT || (k in l.style && !DefaultStyle(k, l.style[k]))
    ensures e.template.None? && e.properties == map[] && e.scheduling == map[]
    ensures e.remotePorts == [] && e.advanced.None?
  {
    e := ElementBase(l.id, None, Some(Name(LABEL)), l.position, None);
    var size := map[WIDTH := l.width, HEIGHT := l.height];
    var styles := HandleStyles(size, l.style);
    e := e.(comment := l.labelText, styles := styles);
  }
}
