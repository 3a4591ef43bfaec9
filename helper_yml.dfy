/**
 * The closed set of reserved canvas kinds, the case-insensitive kind tests,
 * the connectable endpoint types of the REST model, and the platform
 * defaults against which captured values are compared (HelperYML).
 */
module HelperYml {
  import opened Wrappers
  import opened Text

  /** HelperYML.ReservedComponents, in declaration (values()) order. */
  datatype ReservedKind = INPUT_PORT | OUTPUT_PORT | PROCESS_GROUP | REMOTE_PROCESS_GROUP | FUNNEL | LABEL

  const AllKinds: seq<ReservedKind> := [INPUT_PORT, OUTPUT_PORT, PROCESS_GROUP, REMOTE_PROCESS_GROUP, FUNNEL, LABEL]

  /** Enum.name() */
  function Name(k: ReservedKind): string {
    match k
    case INPUT_PORT => "INPUT_PORT"
    case OUTPUT_PORT => "OUTPUT_PORT"
    case PROCESS_GROUP => "PROCESS_GROUP"
    case REMOTE_PROCESS_GROUP => "REMOTE_PROCESS_GROUP"
    case FUNNEL => "FUNNEL"
    case LABEL => "LABEL"
  }

  /** Every character of every kind name is an upper-case letter or an underscore. */
  predicate UpperName(s: string) {
    forall i :: 0 <= i < |s| ==> ('A' <= s[i] <= 'Z' || s[i] == '_')
  }

  lemma NamesAreUpper(k: ReservedKind)
    ensures UpperName(Name(k))
  {
  }

  /** ReservedComponents.isType: the name equals the argument ignoring case; null never matches. */
  predicate IsType(k: ReservedKind, t: Option<string>) {
    t.Some? && EqualsIgnoreCase(Name(k), t.value)
  }

  predicate IsProcessGroup(t: Option<string>) {
    IsType(PROCESS_GROUP, t) || IsType(REMOTE_PROCESS_GROUP, t)
  }

  predicate IsPort(t: Option<string>) {
    IsType(INPUT_PORT, t) || IsType(OUTPUT_PORT, t)
  }

  /** The loop of isProcessor over `kinds`: false at the first kind that matches. */
  function NoKindMatches(kinds: seq<ReservedKind>, t: Option<string>): (r: bool)
    ensures r <==> forall i :: 0 <= i < |kinds| ==> !IsType(kinds[i], t)
  {
    if kinds == [] then true
    else if IsType(kinds[0], t) then false
    else NoKindMatches(kinds[1..], t)
  }

  /** HelperYML.isProcessor: a type that is none of the reserved kinds names a processor. */
  predicate IsProcessor(t: Option<string>) {
    NoKindMatches(AllKinds, t)
  }

  lemma AllKindsComplete(k: ReservedKind)
    ensures k in AllKinds
  {
  }

  /** isProcessor holds exactly when no reserved kind matches. */
  lemma IsProcessorIff(t: Option<string>)
    ensures IsProcessor(t) <==> forall k :: !IsType(k, t)
  {
    if IsProcessor(t) {
      forall k ensures !IsType(k, t) {
        AllKindsComplete(k);
        var i :| 0 <= i < |AllKinds| && AllKinds[i] == k;
      }
    }
  }

  lemma {:induction false} IsTypeUpper(k: ReservedKind, s: string)
    ensures IsType(k, Some(s)) <==> |s| == |Name(k)| && forall i :: 0 <= i < |s| ==> Upper(s[i]) == Name(k)[i]
  {
    NamesAreUpper(k);
    var n := Name(k);
    forall i | 0 <= i < |n| ensures Upper(n[i]) == n[i] {
    }
  }

  /** No string matches two different kinds, because the names differ once upper-cased. */
  lemma KindOfTypeUnique(k1: ReservedKind, k2: ReservedKind, t: Option<string>)
    requires IsType(k1, t) && IsType(k2, t)
    ensures k1 == k2
  {
    IsTypeUpper(k1, t.value);
    IsTypeUpper(k2, t.value);
    assert Name(k1) == Name(k2) by {
      forall i | 0 <= i < |Name(k1)| ensures Name(k1)[i] == Name(k2)[i] {
        assert Upper(t.value[i]) == Name(k1)[i];
      }
    }
  }

  /** A port is never a process group, and neither is a processor. */
  lemma KindsDisjoint(t: Option<string>)
    ensures !(IsPort(t) && IsProcessGroup(t))
    ensures (IsPort(t) || IsProcessGroup(t)) ==> !IsProcessor(t)
  {
    if IsPort(t) && IsProcessGroup(t) {
      var p := if IsType(INPUT_PORT, t) then INPUT_PORT else OUTPUT_PORT;
      var g := if IsType(PROCESS_GROUP, t) then PROCESS_GROUP else REMOTE_PROCESS_GROUP;
      KindOfTypeUnique(p, g, t);
    }
    IsProcessorIff(t);
  }

  /** Each kind matches its own name in any letter case, for instance "Funnel". */
  lemma IsTypeOwnName(k: ReservedKind, s: string)
    requires |s| == |Name(k)| && forall i :: 0 <= i < |s| ==> Upper(s[i]) == Name(k)[i]
    ensures IsType(k, Some(s))
  {
    IsTypeUpper(k, s);
  }

  /** ReservedComponents.valueOf: exact names only; null raises NullPointerException, others IllegalArgumentException. */
  function ValueOf(t: Option<string>): (r: Result<ReservedKind>)
    ensures r.Ok? ==> t == Some(Name(r.value))
    ensures t.None? ==> r == Err(NullPointer)
    ensures r.Err? && t.Some? ==> r == Err(IllegalArgument) && forall k :: t.value != Name(k)
  {
    match t
    case None => Err(NullPointer)
    case Some(s) =>
      if s == "INPUT_PORT" then Ok(INPUT_PORT)
      else if s == "OUTPUT_PORT" then Ok(OUTPUT_PORT)
      else if s == "PROCESS_GROUP" then Ok(PROCESS_GROUP)
      else if s == "REMOTE_PROCESS_GROUP" then Ok(REMOTE_PROCESS_GROUP)
      else if s == "FUNNEL" then Ok(FUNNEL)
      else if s == "LABEL" then Ok(LABEL)
      else Err(IllegalArgument)
  }

  /** valueOf succeeds only where isType already holds. */
  lemma ValueOfImpliesIsType(t: Option<string>)
    requires ValueOf(t).Ok?
    ensures IsType(ValueOf(t).value, t)
  {
    IsTypeUpper(ValueOf(t).value, t.value);
  }

  // ---------------------------------------------------------------------
  // ConnectableDTO.TypeEnum (and the identically named Source/DestinationTypeEnum)

  datatype ConnectableType = Processor | RemoteInputPort | RemoteOutputPort | InputPort | OutputPort | Funnel

  function ConnectableName(c: ConnectableType): string {
    match c
    case Processor => "PROCESSOR"
    case RemoteInputPort => "REMOTE_INPUT_PORT"
    case RemoteOutputPort => "REMOTE_OUTPUT_PORT"
    case InputPort => "INPUT_PORT"
    case OutputPort => "OUTPUT_PORT"
    case Funnel => "FUNNEL"
  }

  /** TypeEnum.valueOf: exact constant names; null and any other string raise. */
  function ConnectableValueOf(t: Option<string>): (r: Result<ConnectableType>)
    ensures r.Ok? ==> t == Some(ConnectableName(r.value))
    ensures r.Err? ==> forall c :: t != Some(ConnectableName(c))
  {
    match t
    case None => Err(NullPointer)
    case Some(s) =>
      if s == "PROCESSOR" then Ok(Processor)
      else if s == "REMOTE_INPUT_PORT" then Ok(RemoteInputPort)
      else if s == "REMOTE_OUTPUT_PORT" then Ok(RemoteOutputPort)
      else if s == "INPUT_PORT" then Ok(InputPort)
      else if s == "OUTPUT_PORT" then Ok(OutputPort)
      else if s == "FUNNEL" then Ok(Funnel)
      else Err(IllegalArgument)
  }

  // ---------------------------------------------------------------------
  // Names and platform defaults

  const YAML_EXT := ".yaml"

  // Style keys and their defaults
  const WIDTH := "width"
  const HEIGHT := "height"
  const BG_COLOR := "background-color"
  const FONT_SIZE := "font-size"
  const DEFAULT_STYLE_FONT_SIZE := "12px"
  const DEFAULT_STYLE_COLOR := "#fff7d7"

  // Processor scheduling keys and their defaults
  const SCHEDULING_PERIOD := "runSchedule"
  const SCHEDULING_STRATEGY := "schedulingStrategy"
  const SCHEDULABLE_TASK_COUNT := "concurrentTasks"
  const PENALTY_DURATION := "penaltyDuration"
  const YIELD_DURATION := "yieldDuration"
  const RUN_DURATION := "runDuration"
  const EXECUTION_NODE := "execution"
  const BULLETIN_LEVEL := "bulletinLevel"
  const DEFAULT_SCHEDULING_PERIOD := "0 sec"
  const DEFAULT_SCHEDULING_STRATEGY := "TIMER_DRIVEN"
  const DEFAULT_SCHEDULABLE_TASK_COUNT := 1
  const DEFAULT_PENALTY_DURATION := "30 sec"
  const DEFAULT_YIELD_DURATION := "1 sec"
  const DEFAULT_RUN_DURATION := 0
  const DEFAULT_EXECUTION_NODE := "ALL"
  const DEFAULT_BULLETIN_LEVEL := "WARN"

  /** The scheduling settings a processor element can carry, each stored under its key. */
  datatype SchedulingSetting =
    | RunSchedule | SchedulingStrategy | ConcurrentTasks | PenaltyDuration
    | Yield | RunDuration | ExecutionNode | BulletinLevel

  function SchedulingKey(s: SchedulingSetting): string {
    match s
    case RunSchedule => SCHEDULING_PERIOD
    case SchedulingStrategy => SCHEDULING_STRATEGY
    case ConcurrentTasks => SCHEDULABLE_TASK_COUNT
    case PenaltyDuration => PENALTY_DURATION
    case Yield => YIELD_DURATION
    case RunDuration => RUN_DURATION
    case ExecutionNode => EXECUTION_NODE
    case BulletinLevel => BULLETIN_LEVEL
  }

  // Remote process group keys and defaults
  const TARGET_URIS := "targetUris"
  const PROXY_HOST := "proxyHost"
  const PROXY_PORT := "proxyPort"
  const PROXY_USER := "proxyUser"
  const PROXY_PASSWORD := "proxyPassword"
  const NETWORK := "network"
  const PROTOCOL := "protocol"
  const TIMEOUT := "timeout"
  const DEFAULT_REMOTE_TRANSPORT := "RAW"
  const DEFAULT_REMOTE_TIMEOUT := "30 sec"
  const DEFAULT_REMOTE_YIELD := "10 sec"

  /** The settings a remote process group element can carry, each stored under its key. */
  datatype RemoteSetting =
    | TargetUris | ProxyHost | ProxyPort | ProxyUser | ProxyPassword
    | Network | Protocol | Timeout | RemoteYield

  function RemoteKey(s: RemoteSetting): string {
    match s
    case TargetUris => TARGET_URIS
    case ProxyHost => PROXY_HOST
    case ProxyPort => PROXY_PORT
    case ProxyUser => PROXY_USER
    case ProxyPassword => PROXY_PASSWORD
    case Network => NETWORK
    case Protocol => PROTOCOL
    case Timeout => TIMEOUT
    case RemoteYield => YIELD_DURATION
  }

  /** No two remote settings share a key. */
  lemma RemoteKeyInjective(a: RemoteSetting, b: RemoteSetting)
    requires RemoteKey(a) == RemoteKey(b)
    ensures a == b
  {
  }

  // Input connection property keys and defaults
  const NAME := "name"
  const BACK_PRESSURE_OBJECT_THRESHOLD := "backPressureObjectThreshold"
  const BACK_PRESSURE_DATA_SIZE_THRESHOLD := "backPressureDataSizeThreshold"
  const LOAD_BALANCE_STRATEGY := "loadBalanceStrategy"
  const LOAD_BALANCE_PARTITION_ATTRIBUTE := "loadBalancePartitionAttribute"
  const LOAD_BALANCE_COMPRESSION := "loadBalanceCompression"
  const FLOW_FILE_EXPIRATION := "flowFileExpiration"
  const PRIORITIZERS := "prioritizers"
  const DEFAULT_FLOW_FILE_EXPIRATION_SEC := "0 sec"
  const DEFAULT_BACK_PRESSURE_DATA_SIZE_THRESHOLD := "1 GB"
  const DEFAULT_BACK_PRESSURE_OBJECT_THRESHOLD := 10000

  /** The link settings an input connection can carry, each stored under its key. */
  datatype LinkSetting =
    | LinkName | BackPressureObjectThreshold | BackPressureDataSizeThreshold | LoadBalanceStrategy
    | LoadBalancePartitionAttribute | LoadBalanceCompression | FlowFileExpiration | Prioritizers

  function LinkKey(s: LinkSetting): string {
    match s
    case LinkName => NAME
    case BackPressureObjectThreshold => BACK_PRESSURE_OBJECT_THRESHOLD
    case BackPressureDataSizeThreshold => BACK_PRESSURE_DATA_SIZE_THRESHOLD
    case LoadBalanceStrategy => LOAD_BALANCE_STRATEGY
    case LoadBalancePartitionAttribute => LOAD_BALANCE_PARTITION_ATTRIBUTE
    case LoadBalanceCompression => LOAD_BALANCE_COMPRESSION
    case FlowFileExpiration => FLOW_FILE_EXPIRATION
    case Prioritizers => PRIORITIZERS
  }
}
