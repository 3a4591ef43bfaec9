/**
 * InputConnectionYML: one incoming connection as the destination element
 * of a template stores it -- where the data comes from, which
 * relationships carry it, the port names needed when either end sits in
 * another group, the link bends, and the link settings that differ from
 * NiFi's defaults.
 */
module InputConnectionYml {
  import opened Wrappers
  import opened Text
  import opened HelperYml
  import opened Records

  /** The enum constants the strategy and compression settings default to. */
  const DO_NOT_LOAD_BALANCE := "DO_NOT_LOAD_BALANCE"
  const DO_NOT_COMPRESS := "DO_NOT_COMPRESS"

  /** Every link setting holds NiFi's default. */
  predicate AllDefaults(d: ConnectionDto) {
    !Present(d.name)
    && d.backPressureObjectThreshold == DEFAULT_BACK_PRESSURE_OBJECT_THRESHOLD
    && d.backPressureDataSizeThreshold == DEFAULT_BACK_PRESSURE_DATA_SIZE_THRESHOLD
    && d.loadBalanceStrategy == DO_NOT_LOAD_BALANCE
    && !Present(d.loadBalancePartitionAttribute)
    && d.loadBalanceCompression == DO_NOT_COMPRESS
    && d.flowFileExpiration == DEFAULT_FLOW_FILE_EXPIRATION_SEC
    && d.prioritizers == []
  }

  /** The position of each setting in the order the constructor examines them. */
  function Rank(s: LinkSetting): nat {
    match s
    case LinkName => 0
    case BackPressureObjectThreshold => 1
    case BackPressureDataSizeThreshold => 2
    case LoadBalanceStrategy => 3
    case LoadBalancePartitionAttribute => 4
    case LoadBalanceCompression => 5
    case FlowFileExpiration => 6
    case Prioritizers => 7
  }

  /** The setting examined n-th. */
  function SettingAt(n: nat): (s: LinkSetting)
    requires n < 8
    ensures Rank(s) == n
  {
    if n == 0 then LinkName
    else if n == 1 then BackPressureObjectThreshold
    else if n == 2 then BackPressureDataSizeThreshold
    else if n == 3 then LoadBalanceStrategy
    else if n == 4 then LoadBalancePartitionAttribute
    else if n == 5 then LoadBalanceCompression
    else if n == 6 then FlowFileExpiration
    else Prioritizers
  }

  /** The value stored for a setting that differs from its default; None for a default one. */
  function Stored(d: ConnectionDto, s: LinkSetting): Option<PropValue> {
    match s
    case LinkName =>
      if Present(d.name) then Some(Text(d.name.value)) else None
    case BackPressureObjectThreshold =>
      if d.backPressureObjectThreshold != DEFAULT_BACK_PRESSURE_OBJECT_THRESHOLD
      then Some(Text(IntToString(d.backPressureObjectThreshold))) else None
    case BackPressureDataSizeThreshold =>
      if d.backPressureDataSizeThreshold != DEFAULT_BACK_PRESSURE_DATA_SIZE_THRESHOLD
      then Some(Text(d.backPressureDataSizeThreshold)) else None
    case LoadBalanceStrategy =>
      if d.loadBalanceStrategy != DO_NOT_LOAD_BALANCE then Some(Text(d.loadBalanceStrategy)) else None
    case LoadBalancePartitionAttribute =>
      if Present(d.loadBalancePartitionAttribute) then Some(Text(d.loadBalancePartitionAttribute.value)) else None
    case LoadBalanceCompression =>
      if d.loadBalanceCompression != DO_NOT_COMPRESS then Some(Text(d.loadBalanceCompression)) else None
    case FlowFileExpiration =>
      if d.flowFileExpiration != DEFAULT_FLOW_FILE_EXPIRATION_SEC then Some(Text(d.flowFileExpiration)) else None
    case Prioritizers =>
      if d.prioritizers != [] then Some(TextList(d.prioritizers)) else None
  }

  /** The map after the constructor has examined the first n settings. */
  function StoredUpTo(d: ConnectionDto, n: nat): map<LinkSetting, PropValue>
    requires n <= 8
  {
    if n == 0 then map[]
    else
      var s := SettingAt(n - 1);
      var m := StoredUpTo(d, n - 1);
      if Stored(d, s).Some? then m[s := Stored(d, s).value] else m
  }

  /** After n settings, exactly the changed ones among them are stored, with their values. */
  lemma {:induction false} StoredUpToAt(d: ConnectionDto, n: nat, s: LinkSetting)
    requires n <= 8
    ensures Get(StoredUpTo(d, n), s) == if Rank(s) < n then Stored(d, s) else None
  {
    if n > 0 {
      StoredUpToAt(d, n - 1, s);
      if Rank(s) != n - 1 {
        assert s != SettingAt(n - 1);
      }
    }
  }

  /** The link settings that differ from their defaults, each under its property name. */
  function LinkProperties(d: ConnectionDto): (r: map<LinkSetting, PropValue>)
    ensures LinkName in r <==> Present(d.name)
    ensures LinkName in r ==> r[LinkName] == Text(d.name.value)
    ensures BackPressureObjectThreshold in r <==> d.backPressureObjectThreshold != DEFAULT_BACK_PRESSURE_OBJECT_THRESHOLD
    ensures BackPressureObjectThreshold in r ==>
      r[BackPressureObjectThreshold] == Text(IntToString(d.backPressureObjectThreshold))
    ensures BackPressureDataSizeThreshold in r <==>
      d.backPressureDataSizeThreshold != DEFAULT_BACK_PRESSURE_DATA_SIZE_THRESHOLD
    ensures BackPressureDataSizeThreshold in r ==>
      r[BackPressureDataSizeThreshold] == Text(d.backPressureDataSizeThreshold)
    ensures LoadBalanceStrategy in r <==> d.loadBalanceStrategy != DO_NOT_LOAD_BALANCE
    ensures LoadBalanceStrategy in r ==> r[LoadBalanceStrategy] == Text(d.loadBalanceStrategy)
    ensures LoadBalancePartitionAttribute in r <==> Present(d.loadBalancePartitionAttribute)
    ensures LoadBalancePartitionAttribute in r ==>
      r[LoadBalancePartitionAttribute] == Text(d.loadBalancePartitionAttribute.value)
    ensures LoadBalanceCompression in r <==> d.loadBalanceCompression != DO_NOT_COMPRESS
    ensures LoadBalanceCompression in r ==> r[LoadBalanceCompression] == Text(d.loadBalanceCompression)
    ensures FlowFileExpiration in r <==> d.flowFileExpiration != DEFAULT_FLOW_FILE_EXPIRATION_SEC
    ensures FlowFileExpiration in r ==> r[FlowFileExpiration] == Text(d.flowFileExpiration)
    ensures Prioritizers in r <==> d.prioritizers != []
    ensures Prioritizers in r ==> r[Prioritizers] == TextList(d.prioritizers)
  {
    var r := StoredUpTo(d, 8);
    StoredUpToAt(d, 8, LinkName);
    StoredUpToAt(d, 8, BackPressureObjectThreshold);
    StoredUpToAt(d, 8, BackPressureDataSizeThreshold);
    StoredUpToAt(d, 8, LoadBalanceStrategy);
    StoredUpToAt(d, 8, LoadBalancePartitionAttribute);
    StoredUpToAt(d, 8, LoadBalanceCompression);
    StoredUpToAt(d, 8, FlowFileExpiration);
    StoredUpToAt(d, 8, Prioritizers);
    r
  }

  /** Nothing is stored for a link exactly when all its settings are the defaults. */
  lemma LinkPropertiesEmptyIff(d: ConnectionDto)
    ensures LinkProperties(d) == map[] <==> AllDefaults(d)
  {
    var r := LinkProperties(d);
    if !AllDefaults(d) {
      assert exists k :: k in r;
    } else {
      forall s ensures s !in r {
        match s
        case LinkName =>
        case BackPressureObjectThreshold =>
        case BackPressureDataSizeThreshold =>
        case LoadBalanceStrategy =>
        case LoadBalancePartitionAttribute =>
        case LoadBalanceCompression =>
        case FlowFileExpiration =>
        case Prioritizers =>
      }
    }
  }

  /** An output port (local or remote) is named through its group. */
  predicate SourcedByGroup(t: ConnectableType) {
    t == RemoteOutputPort || t == OutputPort
  }

  /** A source inside another group or a funnel is identified by its port name. */
  predicate NamedSource(t: ConnectableType) {
    t == OutputPort || t == RemoteOutputPort || t == Funnel
  }

  /** A destination inside another group is identified by its port name. */
  predicate NamedDestination(t: ConnectableType) {
    t == InputPort || t == RemoteInputPort
  }

  /** The captured form of one incoming connection. */
  function InputConnectionOf(c: ConnectionEntity): (r: InputConnection)
    ensures SourcedByGroup(c.sourceType) ==> r.source == Some(c.sourceGroupId)
    ensures !SourcedByGroup(c.sourceType) ==> r.source == Some(c.sourceId)
    ensures r.relationships == c.component.selectedRelationships
    ensures r.fromPort == if NamedSource(c.component.source.typeName) then c.component.source.name else None
    ensures r.toPort == if NamedDestination(c.component.destination.typeName) then c.component.destination.name else None
    ensures r.position.None? <==> c.component.bends == []
    ensures r.position.Some? ==> r.position.value == c.component.bends
    ensures r.properties == LinkProperties(c.component)
    ensures r.from.None? && r.to.None?
  {
    var d := c.component;
    InputConnection(
      Some(if SourcedByGroup(c.sourceType) then c.sourceGroupId else c.sourceId),
      d.selectedRelationships,
      if NamedSource(d.source.typeName) then d.source.name else None,
      if NamedDestination(d.destination.typeName) then d.destination.name else None,
      LinkProperties(d),
      if d.bends == [] then None else Some(d.bends),
      None, None)
  }

  /** The puts at the end of the one-argument constructor, in source order. */
  method ChangedLinkSettings(d: ConnectionDto) returns (props: map<LinkSetting, PropValue>)
    ensures props == LinkProperties(d)
  {
    props := map[];
    assert props == StoredUpTo(d, 0);
    if d.name.Some? && d.name.value != "" {
      props := props[LinkName := Text(d.name.value)];
    }
    assert props == StoredUpTo(d, 1);
    if d.backPressureObjectThreshold != 10000 {
      props := props[BackPressureObjectThreshold := Text(IntToString(d.backPressureObjectThreshold))];
    }
    assert props == StoredUpTo(d, 2);
    if d.backPressureDataSizeThreshold != "1 GB" {
      props := props[BackPressureDataSizeThreshold := Text(d.backPressureDataSizeThreshold)];
    }
    assert props == StoredUpTo(d, 3);
    if d.loadBalanceStrategy != DO_NOT_LOAD_BALANCE {
      props := props[LoadBalanceStrategy := Text(d.loadBalanceStrategy)];
    }
    assert props == StoredUpTo(d, 4);
    if d.loadBalancePartitionAttribute.Some? && d.loadBalancePartitionAttribute.value != "" {
      props := props[LoadBalancePartitionAttribute := Text(d.loadBalancePartitionAttribute.value)];
    }
    assert props == StoredUpTo(d, 5);
    if d.loadBalanceCompression != DO_NOT_COMPRESS {
      props := props[LoadBalanceCompression := Text(d.loadBalanceCompression)];
    }
    assert props == StoredUpTo(d, 6);
    if d.flowFileExpiration != "0 sec" {
      props := props[FlowFileExpiration := Text(d.flowFileExpiration)];
    }
    assert props == StoredUpTo(d, 7);
    if d.prioritizers != [] {
      props := props[Prioritizers := TextList(d.prioritizers)];
    }
    assert props == StoredUpTo(d, 8);
  }

  /** The one-argument constructor: the field assignments, the bends loop and the puts in source order. */
  method InputConnectionYml(c: ConnectionEntity) returns (r: InputConnection)
    ensures r == InputConnectionOf(c)
  {
    var d := c.component;
    var source := if c.sourceType == RemoteOutputPort || c.sourceType == OutputPort then c.sourceGroupId else c.sourceId;
    var fromPort: NString := None;
    if d.source.typeName == OutputPort || d.source.typeName == RemoteOutputPort || d.source.typeName == Funnel {
      fromPort := d.source.name;
    }
    var toPort: NString := None;
    if d.destination.typeName == InputPort || d.destination.typeName == RemoteInputPort {
      toPort := d.destination.name;
    }
    var position: Option<seq<string>> := None;
    if d.bends != [] {
      var bends: seq<string> := [];
      var i := 0;
      while i < |d.bends|
        invariant 0 <= i <= |d.bends|
        invariant bends == d.bends[..i]
      {
        bends := bends + [d.bends[i]];
        i := i + 1;
      }
      assert d.bends[..i] == d.bends;
      position := Some(bends);
    }
    var props := ChangedLinkSettings(d);
    r := InputConnection(Some(source), d.selectedRelationships, fromPort, toPort, props, position, None, None);
  }

  /** The two-argument constructor: as above, with the receiving port name given by the caller. */
  method InputConnectionTo(c: ConnectionEntity, receiver: NString) returns (r: InputConnection)
    ensures r == InputConnectionOf(c).(toPort := receiver)
  {
    r := InputConnectionYml(c);
    r := r.(toPort := receiver);
  }
}
