/**
 * The plain records the engine moves between: the REST toolkit entities it
 * reads during capture, the template records (TemplateYML, ElementYML,
 * InputConnectionYML, ControllerYML, RemotePortYML, RuleYML/RulesYML) it
 * writes and later reads back, and the annotation records (Criteria, Rules,
 * Conditions, Actions) of the advanced-rule markup.
 */
module Records {
  import opened Wrappers
  import opened HelperYml

  /** A Java String that may be null. */
  type NString = Option<string>

  /** A string that is neither null nor empty. */
  predicate Present(s: NString) {
    s.Some? && s.value != ""
  }

  /** String concatenation renders null as "null". */
  function Str(s: NString): string {
    match s
    case Some(v) => v
    case None => "null"
  }

  // ---------------------------------------------------------------------
  // REST toolkit entities (what the capture side lists)

  /** BundleDTO: the coordinates of the archive that provides a type. */
  datatype Bundle = Bundle(group: string, artifact: string, version: string)

  /** The embedded annotation text of a processor, already parsed at the record level. */
  datatype AnnotationText =
    | NoAnnotation              // null
    | EmptyAnnotation           // ""
    | Unreadable                // text the XML reader rejects
    | Parsed(criteria: Criteria)

  datatype ProcessorConfig = ProcessorConfig(
    descriptors: map<string, NString>,   // property name -> descriptor default value
    properties: map<string, NString>,    // property name -> configured value
    annotationData: AnnotationText,
    comments: NString,
    schedulingPeriod: NString,
    schedulingStrategy: NString,
    concurrentTasks: Option<int>,
    penaltyDuration: NString,
    yieldDuration: NString,
    runDurationMillis: Option<int>,
    executionNode: NString,
    bulletinLevel: NString)

  datatype ProcessorEntity = ProcessorEntity(
    id: string, name: NString, typeName: string, bundle: Bundle, position: string,
    config: ProcessorConfig, style: map<string, string>)

  datatype ControllerServiceEntity = ControllerServiceEntity(
    id: string, name: NString, typeName: string, bundle: Bundle,
    descriptors: map<string, NString>, properties: map<string, NString>)

  datatype PortEntity = PortEntity(id: string, name: NString, portType: NString, position: string, comments: NString)

  datatype FunnelEntity = FunnelEntity(id: string, position: string)

  /** LabelDTO; width and height are already rendered as truncated decimals. */
  datatype LabelEntity = LabelEntity(
    id: string, position: string, labelText: NString, width: string, height: string, style: map<string, string>)

  datatype ProcessGroupEntity = ProcessGroupEntity(id: string, name: NString, position: string, comments: NString)

  /** RemoteProcessGroupPortDTO with its batch settings flattened. */
  datatype RemotePortDto = RemotePortDto(
    name: NString, concurrentTasks: Option<int>, useCompression: Option<bool>,
    batchCount: Option<int>, batchSize: NString, batchDuration: NString)

  datatype RemoteGroupEntity = RemoteGroupEntity(
    id: string, name: NString, position: string, comments: NString,
    targetUris: NString, proxyHost: NString, proxyPort: Option<int>, proxyUser: NString,
    proxyPassword: NString, network: NString, transportProtocol: NString,
    communicationsTimeout: NString, yieldDuration: NString,
    inputPorts: seq<RemotePortDto>, outputPorts: seq<RemotePortDto>)

  /** ConnectableDTO as seen on a listed connection. */
  datatype Connectable = Connectable(typeName: ConnectableType, name: NString)

  /** ConnectionDTO; enum-valued settings are carried by their constant names. */
  datatype ConnectionDto = ConnectionDto(
    source: Connectable, destination: Connectable,
    selectedRelationships: Option<seq<string>>,
    bends: seq<string>,
    name: NString,
    backPressureObjectThreshold: int,
    backPressureDataSizeThreshold: string,
    loadBalanceStrategy: string,
    loadBalancePartitionAttribute: NString,
    loadBalanceCompression: string,
    flowFileExpiration: string,
    prioritizers: seq<string>)

  datatype ConnectionEntity = ConnectionEntity(
    sourceType: ConnectableType, sourceGroupId: string, sourceId: string,
    destinationType: ConnectableType, destinationGroupId: string, destinationId: string,
    component: ConnectionDto)

  // ---------------------------------------------------------------------
  // Template records

  /** A value of InputConnectionYML.properties (keyed by the setting it stores): a string or a list of strings. */
  datatype PropValue = Text(text: string) | TextList(items: seq<string>)

  /**
   * InputConnectionYML. The capture side fills source, relationships,
   * fromPort, toPort, properties and position; the import side reads the
   * `from` and `to` fields that ImportCommand and ObjectBuilder refer to.
   */
  datatype InputConnection = InputConnection(
    source: NString,
    relationships: Option<seq<string>>,
    fromPort: NString,
    toPort: NString,
    properties: map<LinkSetting, PropValue>,
    position: Option<seq<string>>,
    from: Option<seq<string>>,
    to: NString)

  /** RemotePortYML */
  datatype RemotePort = RemotePort(
    name: NString, typeName: string, maxConcurrentTasks: Option<int>, useCompression: Option<bool>,
    batchCount: Option<int>, batchSize: NString, batchDuration: NString)

  /**
   * RuleYML: a named rule with ordered condition expressions and its
   * attribute -> value actions, a TreeMap, given as its entries in key order.
   */
  datatype Rule = Rule(name: NString, conditions: seq<string>, actions: seq<(string, string)>)

  /** RulesYML as its callers build it: the flow-file policy and the ordered rules. */
  datatype RuleSet = RuleSet(policy: NString, rules: seq<Rule>)

  /** ElementYML: one canvas node of a template. */
  datatype Element = Element(
    name: NString,
    typeName: NString,
    id: NString,
    template: NString,
    position: NString,
    comment: NString,
    properties: map<string, NString>,
    styles: map<string, string>,
    scheduling: map<SchedulingSetting, string>,
    inputs: Option<seq<InputConnection>>,
    remotePorts: seq<RemotePort>,
    advanced: Option<RuleSet>)

  /** ElementYML.getType: the stored type, or the name when the type was elided. */
  function GetType(e: Element): NString {
    if e.typeName.Some? then e.typeName else e.name
  }

  /** ControllerYML, with the canonical type its callers read. */
  datatype Controller = Controller(id: NString, name: NString, typeName: NString, properties: map<string, NString>)

  /** The nested vocabulary: group -> artifact -> version -> canonical name -> type. */
  type Vocabulary = map<string, map<string, map<string, map<string, string>>>>

  /** A dependency lookup as the importers use it: canonical name -> (fully qualified type, bundle). */
  type DependencyLookup = map<string, (string, Bundle)>

  /** TemplateYML: one scope. */
  datatype Template = Template(
    name: NString, dependencies: Vocabulary, controllers: seq<Controller>, components: seq<Element>)

  // ---------------------------------------------------------------------
  // Annotation records (the advanced-rule markup, Criteria and friends)

  datatype Condition = Condition(id: NString, expression: string)

  datatype Action = Action(id: NString, attribute: string, value: string)

  /** dev.nifi.xml.Rules; a list the markup leaves out is null. */
  datatype XmlRule = XmlRule(id: NString, name: NString, conditions: Option<seq<Condition>>, actions: Option<seq<Action>>)

  /** dev.nifi.xml.Criteria; a list the markup leaves out is null. */
  datatype Criteria = Criteria(flowFilePolicy: NString, rules: Option<seq<XmlRule>>)
}
