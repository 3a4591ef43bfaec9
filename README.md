# NiFi templatizer: template capture and reconstruction

This project is a Dafny model of the engine inside the NiFi templatizer, which works in two directions.

**Export** walks a live NiFi flow, one process group at a time, and captures each group as a template. A template holds:
- the group's dependencies, as a vocabulary of short canonical type names;
- its controller services;
- its components, each with only the settings that differ from NiFi's defaults;
- the connections that enter each component, grouped by destination.

A nested process group is captured as a template of its own. The parent refers to it by file name.

**Import** reads the templates back. For each scope, in a fixed order, it does the following:
1. It creates the child process groups, descending into them.
2. It creates the controller services.
3. It creates the other components.
4. It creates the connections.

Every REST create returns a fresh id. The importer records each fresh id in an identity tracker, under the template id and under (group, name, type). Later steps resolve references through that tracker.

The model covers these parts:
- **Dependency canonicaliser** (`DependencyBuilding`): turns a qualified type and bundle into a short name, which is the class name plus `#1`, `#2`, … on a clash. It also builds the nested group→artifact→version→name→type vocabulary.
- **Dependency cache** (`Dependencies`): the static cache keyed by `group/artifact/version/type`.
- **Identity tracker** (`ObjectTracking`).
- **Reserved kinds** (`HelperYml`): the case-insensitive kind tests and the default-value constants.
- **Capture records** (`ElementYml`, `InputConnectionYml`, `ControllerYml`, `RemotePortYml`, `PropertyDelta`): delta extraction against defaults.
- **Rule codec** (`RuleCodec`): the advanced-UI rules at the record level.
- **Reconstruction builder** (`ObjectBuilding`): a scope stack, connection endpoint resolution and the property id rewrite (`PropertyRewrite`).
- **Commands** (`Exporting`, `Importing`).

Supporting modules:
- `Text`: decimal rendering and parsing, Java's `split("\\.")`, and string order.
- `TreeMaps`: an ordered map as an ascending entry list.
- `FreshIds`: the UUID oracle.
- `Workspaces`: a NiFi instance that hands out fresh node ids.
- `Records`: REST entities and template records as datatypes.
- `Wrappers`: `Option`, `Result` and the Java exception kinds as faults.

Some source classes update their fields in place. These are modelled as Dafny classes whose methods are proved against specification functions:
- DependencyBuilder, ObjectTracker, the Dependency cache;
- ObjectBuilder, ImportCommand, ExportCommand.

Expression-level code is modelled as functions.

## Model

| member | source | states |
|---|---|---|
| Dependencies.UniqueNameInjective | src/dev/nifi/api/Dependency.java:73-75 | two coordinates whose parts contain no '/' have the same unique name only if all four parts agree |
| Dependencies.NewDependency | src/dev/nifi/api/Dependency.java:26-33 | a new dependency has the given coordinates and no alias |
| Dependencies.WithAlias | src/dev/nifi/api/Dependency.java:35-39 | the five-argument constructor as written: the alias replaces the version and is also stored as the alias |
| Dependencies.WithAliasKeepingVersion | src/dev/nifi/api/Dependency.java:35-39 | corrected constructor: keeps the version and stores the alias |
| Dependencies.GetAliasFallsBack | src/dev/nifi/api/Dependency.java:41-47 | a new dependency is known by its unique name; a non-empty alias replaces it, a null or empty one does not; without an alias, slash-free coordinates that share a name are equal |
| Dependencies.WithAliasLosesVersion | src/dev/nifi/api/Dependency.java:35-39 | as written, ("g","a","1.0","P") with no alias is known as "g/a/null/P"; keeping the version gives "g/a/1.0/P" |
| Dependencies.AliasKeepingVersionFallsBack | src/dev/nifi/api/Dependency.java:35-47 | with the corrected constructor, the fallback name is the unique name of the real coordinates |
| Dependencies.AfterFind | src/dev/nifi/api/Dependency.java:59-67 | find adds exactly the requested unique name to the cache and changes no cached entry |
| Dependencies.FindIdempotent | src/dev/nifi/api/Dependency.java:59-67 | a second find with the same coordinates leaves the cache as it is |
| Dependencies.FindKeepsWellKeyed | src/dev/nifi/api/Dependency.java:59-67 | after find, every cache entry is still stored under its own unique name |
| Dependencies.DependencyCache.constructor | src/dev/nifi/api/Dependency.java:16 | the cache starts empty |
| Dependencies.DependencyCache.Find | src/dev/nifi/api/Dependency.java:59-67 | the new cache is AfterFind of the old one; the result is the entry under the unique name; a new entry has no alias |
| Dependencies.DependencyCache.FindAlias | src/dev/nifi/api/Dependency.java:69-71 | a result exists exactly when the non-null key is cached, and it is the entry under that key |
| Dependencies.DependencyCache.WriteDependencies | src/dev/nifi/api/Dependency.java:77-88 | visits every cached dependency exactly once, in strictly ascending key order |
| Dependencies.ReadInOrder | src/dev/nifi/api/Dependency.java:81-87 | the loop reads the entry under each key, in the order of the keys |
| Dependencies.VisitedInKeyOrder | src/dev/nifi/api/Dependency.java:79-87 | reading sorted keys yields the cache's values, each once, in key order |
| Dependencies.FindAliasOfGetAlias | src/dev/nifi/api/Dependency.java:41-71 | for a cached dependency without alias, findAlias(getAlias(d)) finds d again |
| DependencyBuilding.CandidateInjective | src/dev/nifi/commands/DependencyBuilder.java:113-129 | distinct counters give distinct candidate names (`cls`, `cls#1`, `cls#2`, …) |
| DependencyBuilding.ChoiceUnique | src/dev/nifi/commands/DependencyBuilder.java:115-130 | at most one counter value satisfies the loop's exit condition |
| DependencyBuilding.CandidatesBound | src/dev/nifi/commands/DependencyBuilder.java:115-130 | the candidates the loop passes over are distinct bound names, so it passes at most as many as there are names (termination) |
| DependencyBuilding.WalkCandidates | src/dev/nifi/commands/DependencyBuilder.java:113-130 | the loop stops at the first candidate that is free or bound to the same (type, bundle), after at most one step per bound name |
| DependencyBuilding.Place | src/dev/nifi/commands/DependencyBuilder.java:45-62 | placing a name changes only the entry of its bundle, and there it binds the name to the type |
| DependencyBuilding.BuildVocabulary | src/dev/nifi/commands/DependencyBuilder.java:37-66 | every bound name is placed under its bundle with its type; every placed name is a binding |
| DependencyBuilding.Recorded | src/dev/nifi/commands/DependencyBuilder.java:68-104 | the ids recorded are exactly the ids of the components submitted |
| DependencyBuilding.RecordedLast | src/dev/nifi/commands/DependencyBuilder.java:68-104 | a component id submitted twice keeps the later submission's name |
| DependencyBuilding.DependencyBuilder.constructor | src/dev/nifi/commands/DependencyBuilder.java:17-20 | all three maps start empty |
| DependencyBuilding.DependencyBuilder.GetCanonicalDependencyName | src/dev/nifi/commands/DependencyBuilder.java:28-30 | a name is found exactly for a submitted component id; it is that component's canonical name, and it is bound |
| DependencyBuilding.DependencyBuilder.ProcessDependency | src/dev/nifi/commands/DependencyBuilder.java:107-137 | fails with an index fault exactly when the type has no non-empty segment. On success, the name is the first candidate free or bound to the same (type, bundle); it is bound afterwards; only that name is added and no binding changes |
| DependencyBuilding.DependencyBuilder.Bind | src/dev/nifi/commands/DependencyBuilder.java:133-136 | the two puts keep the builder's invariant: names canonical and injective on (type, bundle) |
| DependencyBuilding.DependencyBuilder.AddProcessorDependency | src/dev/nifi/commands/DependencyBuilder.java:68-78 | records the processor id under its canonical name, which is bound to its type and bundle; a failure changes nothing |
| DependencyBuilding.DependencyBuilder.AddControllerDependency | src/dev/nifi/commands/DependencyBuilder.java:80-90 | the same for a controller service |
| DependencyBuilding.DependencyBuilder.AddAllProcessorDependencies | src/dev/nifi/commands/DependencyBuilder.java:92-97 | succeeds exactly when every type has a segment; then each processor id names a binding of its own type and bundle; bindings only grow |
| DependencyBuilding.DependencyBuilder.AddAllControllerDependencies | src/dev/nifi/commands/DependencyBuilder.java:99-104 | the same for controller services, leaving the ids of other components untouched |
| DependencyBuilding.DependencyBuilder.Build | src/dev/nifi/commands/DependencyBuilder.java:37-66 | the vocabulary holds every binding under its bundle and nothing else |
| DependencyBuilding.BindKeepsValid | src/dev/nifi/commands/DependencyBuilder.java:115-136 | binding the loop's chosen candidate keeps the builder's invariant |
| DependencyBuilding.ChoiceFreeMeansUnbound | src/dev/nifi/commands/DependencyBuilder.java:115-130 | if the loop stops at a free name, no other name is bound to the same (type, bundle) |
| DependencyBuilding.BindKeepsCanonical | src/dev/nifi/commands/DependencyBuilder.java:115-136 | every bound name stays the candidate the loop would choose for its (type, bundle) |
| DependencyBuilding.BindKeepsInjective | src/dev/nifi/commands/DependencyBuilder.java:133-136 | no two names are bound to the same (type, bundle) |
| DependencyBuilding.ResubmissionReturnsBoundName | src/dev/nifi/commands/DependencyBuilder.java:121-125 | resubmitting a bound (type, bundle) stops at the name it already has |
| ObjectTracking.MatchesAfterTrack | src/dev/nifi/utils/ObjectTracker.java:21-62 | tracking a new id adds it to the matches of its own type and leaves every other type's matches unchanged |
| ObjectTracking.Resolve | src/dev/nifi/utils/ObjectTracker.java:21-47 | the id if exactly one tracked object matches; nothing if none matches or the bucket is missing; IllegalState on more than one match; NullPointer for a null type against a non-empty bucket |
| ObjectTracking.TrackNamed | src/dev/nifi/utils/ObjectTracker.java:49-62 | adds (id, type) to the (group, name) bucket unless the id is already in it (equality by id); other buckets unchanged |
| ObjectTracking.ObjectTracker.constructor | src/dev/nifi/utils/ObjectTracker.java:13-15 | both maps start empty |
| ObjectTracking.ObjectTracker.LookupByOldId | src/dev/nifi/utils/ObjectTracker.java:17-19 | a result exists exactly for a tracked old id, and it is the new id tracked for it |
| ObjectTracking.ObjectTracker.TrackId | src/dev/nifi/utils/ObjectTracker.java:64-66 | the old id now maps to the new id; the named index is unchanged |
| ObjectTracking.ObjectTracker.Track | src/dev/nifi/utils/ObjectTracker.java:49-62 | the named index becomes TrackNamed of the old one; the id map is unchanged |
| ObjectTracking.ObjectTracker.GetIdForObject | src/dev/nifi/utils/ObjectTracker.java:21-47 | the loop collecting matches returns Resolve of the current index |
| ObjectTracking.TrackThenResolve | src/dev/nifi/utils/ObjectTracker.java:21-62 | after tracking a new object into a bucket with no match, resolving it yields its id |
| ObjectTracking.TrackFrame | src/dev/nifi/utils/ObjectTracker.java:49-62 | tracking under one (group, name) leaves every other lookup's answer unchanged |
| ObjectTracking.TrackTwiceAmbiguous | src/dev/nifi/utils/ObjectTracker.java:34-38 | two distinct ids tracked with the same (group, name, type) make the lookup fail with IllegalState |
| ObjectTracking.TrackSameIdIdempotent | src/dev/nifi/utils/ObjectTracker.java:77-79 | re-tracking an id already in the bucket changes nothing, whatever type it comes with |
| HelperYml.IsTypeUpper | src/dev/nifi/yml/HelperYML.java:30-32 | isType holds exactly for the strings that upper-case to the kind's name |
| HelperYml.IsTypeOwnName | src/dev/nifi/yml/HelperYML.java:30-32 | every case variant of a kind's name is of that kind |
| HelperYml.KindOfTypeUnique | src/dev/nifi/yml/HelperYML.java:22-33 | no string is of two kinds |
| HelperYml.NoKindMatches | src/dev/nifi/yml/HelperYML.java:134-142 | the loop of isProcessor: true exactly when no listed kind accepts the type |
| HelperYml.IsProcessorIff | src/dev/nifi/yml/HelperYML.java:134-142 | a type is a processor exactly when it is of no reserved kind |
| HelperYml.KindsDisjoint | src/dev/nifi/yml/HelperYML.java:124-142 | port and process group exclude each other, and both exclude processor |
| HelperYml.ValueOf | src/dev/nifi/commands/ImportCommand.java:210 | Enum.valueOf: the kind whose exact name is given; NullPointer for null; IllegalArgument for any other string |
| HelperYml.ValueOfImpliesIsType | src/dev/nifi/commands/ImportCommand.java:210 | a kind found by valueOf passes its own isType test |
| HelperYml.ConnectableValueOf | src/dev/nifi/utils/ObjectBuilder.java:376-384 | TypeEnum.valueOf succeeds exactly on a connectable type's exact name |
| Text.NatToStringInjective | src/dev/nifi/commands/DependencyBuilder.java:129 | distinct counters render as distinct decimal strings |
| Text.ParseIntegerOfInt | src/dev/nifi/utils/ObjectBuilder.java:289-298 | Integer.parseInt reads back any integer's decimal rendering |
| Text.LastSegmentOfQualified | src/dev/nifi/commands/DependencyBuilder.java:109-111 | the last segment of `pkg.Class` is `Class` |
| Text.LastSegmentOfSimple | src/dev/nifi/commands/DependencyBuilder.java:109-111 | a type without dots is its own last segment |
| Text.LastSegmentFails | src/dev/nifi/commands/DependencyBuilder.java:109-111 | split leaves no segment exactly when the type consists only of dots |
| Text.SegmentsAppend | src/dev/nifi/commands/DependencyBuilder.java:109-110 | splitting at a dot splits the segment list there |
| Text.DropTrailingEmptyNil | src/dev/nifi/commands/DependencyBuilder.java:109-110 | split's trailing-empty removal leaves nothing exactly when every segment is empty |
| Text.BelowTotal | src/dev/nifi/api/Dependency.java:79-80 | String.compareTo order is total on distinct strings |
| Text.BelowTransitive | src/dev/nifi/api/Dependency.java:79-80 | String.compareTo order is transitive |
| Text.SortedElements | src/dev/nifi/api/Dependency.java:79-80 | sorting a key set lists every key once, in strictly ascending order |
| TreeMaps.PutLookup | src/dev/nifi/yml/RuleYML.java:32-34 | after put, the key finds the new value and every other key finds what it found before |
| TreeMaps.PutKeys | src/dev/nifi/yml/RuleYML.java:32-34 | put adds exactly its key to the key set |
| TreeMaps.PutAscending | src/dev/nifi/yml/RuleYML.java:32-34 | put keeps the entries in ascending key order |
| FreshIds.UuidSource.NewId | src/dev/nifi/utils/ObjectBuilder.java:459-474 | each draw returns the next fresh id |
| FreshIds.RunDistinct | src/dev/nifi/utils/ObjectBuilder.java:459-474 | the ids of a run of draws are pairwise distinct |
| PropertyDelta.ChangedProperties | src/dev/nifi/yml/ElementYML.java:281-297 | keeps exactly the descriptors whose configured value differs from the default, treating null as a value. Configured keys without a descriptor never appear |
| PropertyDelta.DeltaRestores | src/dev/nifi/yml/ElementYML.java:281-297 | the defaults overlaid with the delta give back every configured value |
| PropertyDelta.DeltaUnique | src/dev/nifi/yml/ElementYML.java:281-297 | the delta is determined by the descriptors and values |
| PropertyDelta.AllDefaultsEmptyDelta | src/dev/nifi/yml/ElementYML.java:281-297 | a component at its defaults has no properties in its template |
| ControllerYml.ControllerYml | src/dev/nifi/yml/ControllerYML.java:18-38 | id and name are copied, the type is the canonical name that the call at src/dev/nifi/commands/ExportCommand.java:128 passes, and the properties are the delta against defaults |
| RemotePortYml.RemotePortOf | src/dev/nifi/yml/RemotePortYML.java:19-34 | the name is copied and the type is the kind's name; concurrent tasks are kept only when set and ≠ 1; compression only when TRUE; batch settings are copied verbatim |
| RemotePortYml.RemotePortKeepsSettings | src/dev/nifi/yml/RemotePortYML.java:19-34 | read back with the defaults, the record gives the port's settings, and capturing the result again changes nothing |
| PropertyRewrite.Rewritten | src/dev/nifi/commands/ImportCommand.java:515-530 | same keys; a value that is a tracked old id becomes its new id; any other value is unchanged |
| PropertyRewrite.RewriteIds | src/dev/nifi/utils/ObjectBuilder.java:252-268 | the loop over properties computes Rewritten |
| PropertyRewrite.SharedRewriteAsWritten | src/dev/nifi/commands/ImportCommand.java:515-530 | as written: the rewrite is done in place on a template shared by two imports, so the second import sees the first import's ids |
| PropertyRewrite.SharedTemplateKeepsFirstIds | src/dev/nifi/commands/ImportCommand.java:515-530 | a service reference "c1" imported twice keeps "node-1" the second time, where a rewrite of the original gives "node-2" |
| RuleCodec.Expressions | src/dev/nifi/yml/RuleYML.java:29-31 | one expression per condition, in input order |
| RuleCodec.ActionMapKeys | src/dev/nifi/yml/ExpressionsYML.java:17-23 | the keys are exactly the actions' attributes |
| RuleCodec.ActionMapLastWins | src/dev/nifi/yml/ExpressionsYML.java:21 | a repeated attribute takes the value of its last action |
| RuleCodec.ActionMapIgnoresIds | src/dev/nifi/yml/RulesYML.java:24-34 | actions that differ only in their ids give the same map |
| RuleCodec.ActionEntriesAscending | src/dev/nifi/yml/RuleYML.java:32-34 | the TreeMap of actions lists its attributes in ascending order |
| RuleCodec.ActionEntriesAgree | src/dev/nifi/yml/RuleYML.java:32-34 | the TreeMap and the HashMap of actions agree on every attribute |
| RuleCodec.RuleOf | src/dev/nifi/yml/RuleYML.java:28-35 | a rule with null conditions or actions is a NullPointer; otherwise one expression per condition and the actions' attribute map. The rule's name is carried as the call at src/dev/nifi/yml/ElementYML.java:363 passes it |
| RuleCodec.DecodeRules | src/dev/nifi/yml/ElementYML.java:362-365 | decodes every rule in order, or fails with NullPointer when some rule does |
| RuleCodec.DecodeAnnotation | src/dev/nifi/yml/ElementYML.java:350-374 | no annotation gives none; parsed criteria give the policy and the decoded rules; null rules are a NullPointer |
| RuleCodec.ConditionList | src/dev/nifi/yml/RuleYML.java:29-31 | the loop computes Expressions |
| RuleCodec.ExpressionsYml | src/dev/nifi/yml/ExpressionsYML.java:17-23 | the loop computes the last-wins attribute map |
| RuleCodec.RulesYml | src/dev/nifi/yml/RulesYML.java:24-34 | NullPointer on a null list; otherwise the expressions and the last-wins map |
| RuleCodec.ActionTreeMap | src/dev/nifi/yml/RuleYML.java:32-34 | the loop of puts builds the ascending action entries |
| RuleCodec.RuleYml | src/dev/nifi/yml/RuleYML.java:28-35 | the constructor computes RuleOf |
| RuleCodec.HandleAnnotations | src/dev/nifi/yml/ElementYML.java:350-374 | the method computes DecodeAnnotation |
| RuleCodec.ConditionsFor | src/dev/nifi/utils/ObjectBuilder.java:461-468 | one condition per expression, in order, each with its own id |
| RuleCodec.ActionsFor | src/dev/nifi/utils/ObjectBuilder.java:469-477 | one action per (attribute, value) entry, in order, each with its own id |
| RuleCodec.MakeConditions | src/dev/nifi/utils/ObjectBuilder.java:461-468 | builds the conditions with the next fresh ids, drawing one per expression |
| RuleCodec.MakeActions | src/dev/nifi/utils/ObjectBuilder.java:469-477 | builds the actions with the next fresh ids, drawing one per entry |
| RuleCodec.MakeRule | src/dev/nifi/utils/ObjectBuilder.java:453-480 | the rule gets the next fresh id, then its conditions and actions get theirs |
| RuleCodec.MakeAnnotationData | src/dev/nifi/utils/ObjectBuilder.java:441-480 | encodes the rule set with consecutive fresh ids, drawing exactly as many as it uses |
| RuleCodec.ActionEntriesOfActionsFor | src/dev/nifi/utils/ObjectBuilder.java:469-477 | re-reading encoded actions gives back the ascending entries |
| RuleCodec.RuleRoundTrip | src/dev/nifi/utils/ObjectBuilder.java:453-480 | decoding an encoded rule gives the rule back |
| RuleCodec.RulesRoundTrip | src/dev/nifi/utils/ObjectBuilder.java:441-480 | decoding the encoded rule list gives the list back |
| RuleCodec.AnnotationRoundTrip | src/dev/nifi/utils/ObjectBuilder.java:441-480 | decode(encode(rules)) == rules for any ids |
| RuleCodec.CapturedAscending | src/dev/nifi/yml/RuleYML.java:32-34 | captured rules have ascending action attributes |
| RuleCodec.CaptureRebuildCapture | src/dev/nifi/yml/ElementYML.java:350-374 | capture after rebuild gives the original capture |
| RuleCodec.EncodedIds | src/dev/nifi/utils/ObjectBuilder.java:441-480 | the encoded ids, in document order, are exactly the ids supplied |
| RuleCodec.AnnotationIdsDistinct | src/dev/nifi/utils/ObjectBuilder.java:459-474 | every rule, condition and action gets a non-null id, and no two share one |
| ElementYml.CapturedInputs | src/dev/nifi/yml/ElementYML.java:328-335 | no incoming list gives none; otherwise one captured connection per incoming connection, in order |
| ElementYml.HandleConnections | src/dev/nifi/yml/ElementYML.java:328-335 | the loop computes CapturedInputs |
| ElementYml.ElementBase | src/dev/nifi/yml/ElementYML.java:85-96 | id, name and position copied; the type is omitted when it equals the name; inputs captured; everything else empty |
| ElementYml.HandleStyles | src/dev/nifi/yml/ElementYML.java:299-323 | adds exactly the styles that differ from their defaults, with their values, and keeps what was there |
| ElementYml.StylesRestore | src/dev/nifi/yml/ElementYML.java:299-323 | the defaults overlaid with the captured styles give back every style |
| ElementYml.SchedulingOf | src/dev/nifi/yml/ElementYML.java:132-155 | each of the eight scheduling settings is kept exactly when it differs from its default, with its value |
| ElementYml.ChangedScheduling | src/dev/nifi/yml/ElementYML.java:132-155 | the successive puts compute SchedulingOf |
| ElementYml.RemoteGroupProperties | src/dev/nifi/yml/ElementYML.java:192-222 | each remote-group setting is kept exactly when it is present or differs from its default, with its value |
| ElementYml.ChangedRemoteSettings | src/dev/nifi/yml/ElementYML.java:192-222 | the successive puts compute RemoteGroupProperties |
| ElementYml.RemotePortsOf | src/dev/nifi/yml/ElementYML.java:225-231 | input ports first, then output ports, each captured with its kind |
| ElementYml.ListRemotePorts | src/dev/nifi/yml/ElementYML.java:225-231 | the two loops compute RemotePortsOf |
| ElementYml.FromProcessor | src/dev/nifi/yml/ElementYML.java:110-159 | fails with NullPointer exactly when the rules cannot be decoded. Otherwise it keeps the identity, the property delta, the non-default styles, the comment, the scheduling delta and the decoded rules |
| ElementYml.FromProcessGroup | src/dev/nifi/yml/ElementYML.java:169-177 | kind PROCESS_GROUP; the template is the child's file name; the comment is kept |
| ElementYml.FromRemoteGroup | src/dev/nifi/yml/ElementYML.java:184-232 | kind REMOTE_PROCESS_GROUP; its property delta; its remote ports |
| ElementYml.FromPort | src/dev/nifi/yml/ElementYML.java:240-244 | the port's own type and comment |
| ElementYml.FromFunnel | src/dev/nifi/yml/ElementYML.java:252-254 | kind FUNNEL and nothing else |
| ElementYml.FromLabel | src/dev/nifi/yml/ElementYML.java:261-271 | kind LABEL; the text as comment; width and height always present; otherwise the non-default styles |
| InputConnectionYml.LinkProperties | src/dev/nifi/yml/InputConnectionYML.java:93-116 | each of the eight connection settings is kept exactly when it differs from its default, with its value |
| InputConnectionYml.LinkPropertiesEmptyIff | src/dev/nifi/yml/InputConnectionYML.java:93-116 | no settings are written exactly when the connection is at its defaults |
| InputConnectionYml.ChangedLinkSettings | src/dev/nifi/yml/InputConnectionYML.java:93-116 | the successive puts compute LinkProperties |
| InputConnectionYml.InputConnectionOf | src/dev/nifi/yml/InputConnectionYML.java:55-117 | the source is the group id for an OUTPUT_PORT or REMOTE_OUTPUT_PORT source and the node id otherwise, so an input-port source keeps its own id. Relationships are copied, fromPort/toPort are named ports, bends are kept in order, the settings are the delta |
| InputConnectionYml.InputConnectionYml | src/dev/nifi/yml/InputConnectionYML.java:55-117 | the constructor computes InputConnectionOf |
| InputConnectionYml.InputConnectionTo | src/dev/nifi/yml/InputConnectionYML.java:119-123 | the same record with toPort replaced by the receiver |
| ObjectBuilding.Pop | src/dev/nifi/utils/ObjectBuilder.java:53-55 | an empty stack fails; otherwise the top scope's id and the stack below it |
| ObjectBuilding.Top | src/dev/nifi/utils/ObjectBuilder.java:61-63 | the top scope's id, or a failure on an empty stack |
| ObjectBuilding.SetTop | src/dev/nifi/utils/ObjectBuilder.java:57-59 | replaces only the top frame's lookup |
| ObjectBuilding.LookupIn | src/dev/nifi/utils/ObjectBuilder.java:65-67 | looks up only in the top frame's lookup; fails when there is no frame or no lookup |
| ObjectBuilding.PopAfterPush | src/dev/nifi/utils/ObjectBuilder.java:49-55 | leave after enter returns the entered id and restores the stack |
| ObjectBuilding.ScopesIsolated | src/dev/nifi/utils/ObjectBuilder.java:49-67 | a scope's lookup is visible only while the scope is on top, and leaving restores the outer stack |
| ObjectBuilding.CreatedIsFresh | src/dev/nifi/utils/ObjectBuilder.java:69-71 | a create's id differs from every id the tracker already holds; it is recorded under the template id, and the tracker's ids stay among those the server issued |
| ObjectBuilding.ParseIn | src/dev/nifi/utils/ObjectBuilder.java:289-298 | a number is accepted exactly when it parses and lies in the target range |
| ObjectBuilding.NumberSetting | src/dev/nifi/utils/ObjectBuilder.java:282-305 | an unset or empty setting is absent; an unparsable one is a NumberFormat fault |
| ObjectBuilding.SchedulingRequestOf | src/dev/nifi/utils/ObjectBuilder.java:270-306 | no scheduling block leaves scheduling unset; a fault is always NumberFormat |
| ObjectBuilding.SchedulingRoundTrip | src/dev/nifi/utils/ObjectBuilder.java:270-306 | rebuilding from a captured scheduling delta requests every non-default setting with its value and leaves the defaults unset |
| ObjectBuilding.MakeRecordsId | src/dev/nifi/utils/ObjectBuilder.java:103-233 | a successful funnel, group, remote group or label create records the template id to the fresh id |
| ObjectBuilding.MakeRecordsIdTyped | src/dev/nifi/utils/ObjectBuilder.java:73-321 | the same for ports (also tracked by name in the scope), processors (drawing its annotation's ids) and controller services |
| ObjectBuilding.FailedMakeChangesNothing | src/dev/nifi/utils/ObjectBuilder.java:103-233 | a failing funnel, group, remote group or label make changes no state |
| ObjectBuilding.FailedMakeChangesNothingTyped | src/dev/nifi/utils/ObjectBuilder.java:73-321 | the same for ports, processors and controller services |
| ObjectBuilding.MissingTypeIsFatal | src/dev/nifi/utils/ObjectBuilder.java:80-82 | a processor or service type missing from the scope's lookup is a NullPointer before any call |
| ObjectBuilding.PortFoundByName | src/dev/nifi/utils/ObjectBuilder.java:163-182 | a new port is afterwards found by (scope, name, kind) |
| ObjectBuilding.FirstOf | src/dev/nifi/utils/ObjectBuilder.java:366-372 | the first listed source port; a fault on a missing or empty list |
| ObjectBuilding.PortEndpointKind | src/dev/nifi/utils/ObjectBuilder.java:375-388 | a port endpoint takes its exact port kind; a case variant is an IllegalArgument |
| ObjectBuilding.GroupEndpointKind | src/dev/nifi/utils/ObjectBuilder.java:353-396 | a process group endpoint is the group's port kind; a remote group has none |
| ObjectBuilding.OtherEndpointKind | src/dev/nifi/utils/ObjectBuilder.java:375-388 | a funnel is FUNNEL, any non-reserved type is PROCESSOR |
| ObjectBuilding.SourceEndpoint | src/dev/nifi/utils/ObjectBuilder.java:353-396 | a group source is its named output port inside the group; any other source is its own node in the current scope |
| ObjectBuilding.DestinationEndpoint | src/dev/nifi/utils/ObjectBuilder.java:398-439 | a group destination is its named input port inside the group; any other is its own node in the scope |
| ObjectBuilding.Relationships | src/dev/nifi/utils/ObjectBuilder.java:343-347 | relationships are sent exactly when the list is non-empty and the source is neither a group nor a funnel |
| ObjectBuilding.RemoteGroupNotConnected | src/dev/nifi/utils/ObjectBuilder.java:335-338 | an edge at a remote group creates no connection |
| ObjectBuilding.ConnectionRequest | src/dev/nifi/utils/ObjectBuilder.java:323-351 | a created connection lives in the current scope and has the resolved endpoints and the relationship rule |
| ObjectBuilding.ObjectBuilder.constructor | src/dev/nifi/utils/ObjectBuilder.java:38-47 | empty stack and a fresh empty tracker |
| ObjectBuilding.ObjectBuilder.EnterProcessGroup | src/dev/nifi/utils/ObjectBuilder.java:49-51 | pushes a frame with no lookup |
| ObjectBuilding.ObjectBuilder.LeaveProcessGroup | src/dev/nifi/utils/ObjectBuilder.java:53-55 | pops the top frame, or fails on an empty stack with nothing changed |
| ObjectBuilding.ObjectBuilder.SetDependenciesLookup | src/dev/nifi/utils/ObjectBuilder.java:57-59 | sets the top frame's lookup, or fails on an empty stack |
| ObjectBuilding.ObjectBuilder.MakeControllerService | src/dev/nifi/utils/ObjectBuilder.java:73-101 | result and new state are ControllerStep of the old state |
| ObjectBuilding.ObjectBuilder.MakeFunnel | src/dev/nifi/utils/ObjectBuilder.java:103-118 | result and new state are FunnelStep of the old state |
| ObjectBuilding.ObjectBuilder.MakeProcessGroup | src/dev/nifi/utils/ObjectBuilder.java:120-140 | result and new state are GroupStep of the old state |
| ObjectBuilding.ObjectBuilder.MakeRemoteProcessGroup | src/dev/nifi/utils/ObjectBuilder.java:142-161 | result and new state are RemoteGroupStep of the old state |
| ObjectBuilding.ObjectBuilder.MakePort | src/dev/nifi/utils/ObjectBuilder.java:163-203 | result and new state are PortStep of the old state |
| ObjectBuilding.ObjectBuilder.MakeLabel | src/dev/nifi/utils/ObjectBuilder.java:205-233 | result and new state are LabelStep of the old state |
| ObjectBuilding.ObjectBuilder.MakeProcessor | src/dev/nifi/utils/ObjectBuilder.java:235-321 | result and new state are ProcessorStep of the old state |
| ObjectBuilding.ObjectBuilder.MakeConnection | src/dev/nifi/utils/ObjectBuilder.java:323-351 | result and new state are ConnectionStep of the old state |
| Importing.TemplateIndex | src/dev/nifi/commands/ImportCommand.java:89-93 | every template is reachable by its file name |
| Importing.TemplateIndexEntry | src/dev/nifi/commands/ImportCommand.java:89-93 | each key holds a listed template with that file name |
| Importing.TemplateIndexLastWins | src/dev/nifi/commands/ImportCommand.java:89-93 | on a repeated file name, the last template wins |
| Importing.IndexTemplates | src/dev/nifi/commands/ImportCommand.java:89-93 | the loop computes TemplateIndex |
| Importing.DependencyLookupOf | src/dev/nifi/commands/ImportCommand.java:547-574 | every placed name is in the flat lookup with its type and bundle, and nothing else is |
| Importing.CoveringLookupIsBindings | src/dev/nifi/commands/ImportCommand.java:547-574 | a sound, covering lookup of a built vocabulary is exactly the builder's bindings |
| Importing.BuiltVocabularyLookup | src/dev/nifi/commands/ImportCommand.java:547-574 | flattening a built vocabulary gives back the builder's name→(type, bundle) bindings |
| Importing.PutAllNames | src/dev/nifi/commands/ImportCommand.java:564-568 | the innermost loop adds each name of a bundle |
| Importing.PutAllVersions | src/dev/nifi/commands/ImportCommand.java:556-569 | the version loop |
| Importing.PutAllArtifacts | src/dev/nifi/commands/ImportCommand.java:553-570 | the artifact loop |
| Importing.CreateDependencyLookup | src/dev/nifi/commands/ImportCommand.java:547-574 | the nested loops compute DependencyLookupOf |
| Importing.CreateIsFresh | src/dev/nifi/commands/ImportCommand.java:358 | a REST create's id differs from every id the tracker already holds; recording it keeps the tracker's ids among those the server issued |
| Importing.NodeIdIsNotRoot | src/dev/nifi/commands/ImportCommand.java:115-119 | no created id is the alias "root" |
| Importing.StepsStopAtFault | src/dev/nifi/commands/ImportCommand.java:163-237 | after an exception, the remaining elements of a loop are not processed |
| Importing.IdIndex | src/dev/nifi/commands/ImportCommand.java:241-244 | every component is reachable by its template id |
| Importing.IdIndexEntry | src/dev/nifi/commands/ImportCommand.java:241-244 | each key holds a component with that id |
| Importing.IdIndexLastWins | src/dev/nifi/commands/ImportCommand.java:241-244 | on a repeated id, the last component wins |
| Importing.IndexById | src/dev/nifi/commands/ImportCommand.java:241-244 | the loop computes IdIndex |
| Importing.GroupToProcessorDestination | src/dev/nifi/commands/ImportCommand.java:340 | as written, a processor destination reached from a group is typed INPUT_PORT; the corrected rule types it PROCESSOR |
| Importing.ProcessorDestinationWhateverSource | src/dev/nifi/commands/ImportCommand.java:331-346 | with the corrected fallback, an edge into a destination of no reserved kind is typed PROCESSOR in the current scope, whatever the source |
| Importing.ControllerStepAppends | src/dev/nifi/commands/ImportCommand.java:163-194 | a service step only appends service creates in the scope, and records the service's id on success |
| Importing.ControllerPhase | src/dev/nifi/commands/ImportCommand.java:163-194 | the service phase only appends service creates in the scope |
| Importing.ControllerPhaseTracks | src/dev/nifi/commands/ImportCommand.java:191-192 | after the service phase, every service's template id is tracked |
| Importing.ElementStepAppends | src/dev/nifi/commands/ImportCommand.java:196-237 | an element step only appends element creates in the scope and leaves the id map unchanged |
| Importing.ElementPhase | src/dev/nifi/commands/ImportCommand.java:196-237 | the element phase only appends element creates in the scope |
| Importing.LinkStepAppends | src/dev/nifi/commands/ImportCommand.java:253-358 | a link step only appends connection creates and changes no tracking |
| Importing.InputsPhase | src/dev/nifi/commands/ImportCommand.java:253-358 | the same for all inputs of one component |
| Importing.LinkagePhase | src/dev/nifi/commands/ImportCommand.java:239-361 | the linkage phase only appends connection creates and changes no tracking |
| Importing.PhaseOrder | src/dev/nifi/commands/ImportCommand.java:113-133 | a successful import of a scope runs child groups, then services, then elements, then connections, each phase appending only its own calls |
| Importing.ProcessorFoundByLinkage | src/dev/nifi/commands/ImportCommand.java:501-544 | a processor created in the element phase is found by the linkage lookup under (scope, template id, type) |
| Importing.ElementDispatch | src/dev/nifi/commands/ImportCommand.java:196-237 | a known dependency creates a processor with the looked-up type and bundle; an unknown non-kind type fails as valueOf does; groups are skipped |
| Importing.PortEndpointScope | src/dev/nifi/commands/ImportCommand.java:268-281 | a port is looked up in its own group when that group was tracked, otherwise in the scope |
| Importing.RemoteGroupKind | src/dev/nifi/commands/ImportCommand.java:282-289 | a remote group is neither a port nor a process group |
| Importing.RemoteSourceSkipped | src/dev/nifi/commands/ImportCommand.java:282-289 | an edge from a remote group creates nothing |
| Importing.RemoteDestinationSkipped | src/dev/nifi/commands/ImportCommand.java:323-330 | an edge to a remote group creates nothing |
| Importing.RemoteGroupEdgesSkipped | src/dev/nifi/commands/ImportCommand.java:282-330 | any edge at a remote group creates no connection |
| Importing.UnknownSourceIsFatal | src/dev/nifi/commands/ImportCommand.java:253-259 | an input whose source id is not in the template is a NullPointer |
| Importing.ElidedTypeBreaksLinkage | src/dev/nifi/commands/ImportCommand.java:536-543 | as written, a processor whose type equals its name is tracked with a null type, and the linkage lookup then fails with NullPointer |
| Importing.GroupsStopAtFault | src/dev/nifi/commands/ImportCommand.java:135-161 | a failing child group stops the group loop |
| Importing.Importer.constructor | src/dev/nifi/commands/ImportCommand.java:64-76 | a fresh empty tracker and no root id |
| Importing.Importer.Run | src/dev/nifi/commands/ImportCommand.java:79-111 | indexes the templates by file name and imports "root.yaml" into the root group; the outcome is Imported |
| Importing.Importer.ImportTemplate | src/dev/nifi/commands/ImportCommand.java:113-133 | the outcome is the specified phase sequence for the scope; the root alias is resolved |
| Importing.Importer.CreateProcessGroups | src/dev/nifi/commands/ImportCommand.java:135-161 | outcome of the child-group loop |
| Importing.Importer.MakeProcessGroup | src/dev/nifi/commands/ImportCommand.java:381-412 | creates the group, then imports its template inside it |
| Importing.Importer.OpenProcessGroup | src/dev/nifi/commands/ImportCommand.java:381-409 | the created group id is tracked, and it is never "root" |
| Importing.Importer.MakeRemoteProcessGroup | src/dev/nifi/commands/ImportCommand.java:414-442 | new state is RemoteGroupStep |
| Importing.Importer.CreateControllerServices | src/dev/nifi/commands/ImportCommand.java:163-194 | outcome of the service loop |
| Importing.Importer.MakeControllerService | src/dev/nifi/commands/ImportCommand.java:165-193 | outcome of one service step |
| Importing.Importer.CreateElements | src/dev/nifi/commands/ImportCommand.java:196-237 | outcome of the element loop |
| Importing.Importer.MakeElement | src/dev/nifi/commands/ImportCommand.java:198-236 | outcome of one dispatch |
| Importing.Importer.MakeProcessor | src/dev/nifi/commands/ImportCommand.java:501-544 | new state is ProcessorStep |
| Importing.Importer.MakeFunnel | src/dev/nifi/commands/ImportCommand.java:363-379 | new state is FunnelStep |
| Importing.Importer.MakePort | src/dev/nifi/commands/ImportCommand.java:444-480 | new state is PortStep |
| Importing.Importer.MakeLabel | src/dev/nifi/commands/ImportCommand.java:482-499 | new state is LabelStep |
| Importing.Importer.CreateLinkage | src/dev/nifi/commands/ImportCommand.java:239-361 | outcome of the linkage loops, with the corrected destination fallback and lookups by `getType()` (see Left out) |
| Importing.Importer.Connect | src/dev/nifi/commands/ImportCommand.java:253-358 | outcome of one link step, with the corrected destination fallback and lookups by `getType()` (see Left out) |
| Exporting.BucketMembers | src/dev/nifi/commands/ExportCommand.java:99-112 | a bucket holds exactly the connections with that destination key |
| Exporting.BucketCounts | src/dev/nifi/commands/ExportCommand.java:99-112 | each connection sits in its key's bucket as often as it is listed, and in no other |
| Exporting.GroupedIsBuckets | src/dev/nifi/commands/ExportCommand.java:99-112 | the grouping loop's invariant determines the map uniquely |
| Exporting.GroupConnections | src/dev/nifi/commands/ExportCommand.java:99-112 | the map from destination key (the group id for an input-port destination, the node id otherwise) to incoming connections, in listing order |
| Exporting.BucketsOfIncoming | src/dev/nifi/commands/ExportCommand.java:99-112 | looking up a key gives its incoming connections |
| Exporting.CaptureDependencies | src/dev/nifi/commands/ExportCommand.java:121-125 | fails exactly when some processor or service type has no segment; the vocabulary places each name once and maps every component id to its binding |
| Exporting.NamesAfterBuild | src/dev/nifi/commands/ExportCommand.java:121-125 | processor names survive the service pass and the build |
| Exporting.LookupFindsPlacement | src/dev/nifi/commands/ExportCommand.java:121-125 | a singly placed name is found in the flat lookup with its type and bundle |
| Exporting.CaptureControllers | src/dev/nifi/commands/ExportCommand.java:127-130 | one captured service per service, in order |
| Exporting.CapturePorts | src/dev/nifi/commands/ExportCommand.java:132-139 | one captured element per port, in order, with its inputs |
| Exporting.CaptureProcessors | src/dev/nifi/commands/ExportCommand.java:141-144 | one captured element per processor, in order; NullPointer exactly when a processor's rules cannot be read |
| Exporting.CaptureProcessor | src/dev/nifi/commands/ExportCommand.java:141-144 | one processor captured with its canonical name as type |
| Exporting.CaptureFunnels | src/dev/nifi/commands/ExportCommand.java:146-149 | one element per funnel, in order |
| Exporting.CaptureLabels | src/dev/nifi/commands/ExportCommand.java:151-154 | one element per label, in order |
| Exporting.CaptureRemoteGroups | src/dev/nifi/commands/ExportCommand.java:163-169 | one element per remote group, in order; an unknown remote group is an API fault |
| Exporting.HeadLaidOut | src/dev/nifi/commands/ExportCommand.java:132-154 | the components are laid out as input ports, output ports, processors, funnels, labels |
| Exporting.LaidOut | src/dev/nifi/commands/ExportCommand.java:132-169 | followed by groups and then remote groups |
| Exporting.CaptureLeaves | src/dev/nifi/commands/ExportCommand.java:121-154 | succeeds exactly when all types are named and all rules readable; then services and leading components are laid out |
| Exporting.CaptureHead | src/dev/nifi/commands/ExportCommand.java:132-154 | captures the leading components in the fixed order |
| Exporting.ClosedAppend | src/dev/nifi/commands/ExportCommand.java:116-118 | adding a template without components keeps every reference resolvable |
| Exporting.ClosedReplace | src/dev/nifi/commands/ExportCommand.java:156-169 | filling in a template whose children are listed keeps every reference resolvable |
| Exporting.LaidResolved | src/dev/nifi/commands/ExportCommand.java:156-161 | every child group's template file is listed |
| Exporting.CapturedHead | src/dev/nifi/commands/ExportCommand.java:85-172 | a captured template's leading components are the group's, in the fixed order |
| Exporting.CapturedControllers | src/dev/nifi/commands/ExportCommand.java:127-130 | a captured template's services are the group's, in order |
| Exporting.Exporter.constructor | src/dev/nifi/commands/ExportCommand.java:69-71 | starts with no templates |
| Exporting.Exporter.Run | src/dev/nifi/commands/ExportCommand.java:65-83 | succeeds exactly when the root is exportable; the root template comes first, and every listed reference resolves |
| Exporting.Exporter.ConvertToTemplateYml | src/dev/nifi/commands/ExportCommand.java:85-172 | templates only grow and stay closed; it succeeds exactly when the group is exportable, and the new template is captured from the group in pre-order |
| Exporting.Exporter.CaptureGroups | src/dev/nifi/commands/ExportCommand.java:156-161 | each child group is captured and its template listed |
| Exporting.ExportableMoreFuel | src/dev/nifi/commands/ExportCommand.java:85-172 | more recursion depth never loses an export |
| Exporting.ExportedTemplatesIndexed | src/dev/nifi/commands/ImportCommand.java:89-96 | the exported templates, indexed by the importer, contain "root.yaml" and every referenced child template |
| Exporting.ProcessorRecorded | src/dev/nifi/commands/ExportCommand.java:121-125 | a processor id is recorded with its own type and bundle |
| Exporting.ControllerRecorded | src/dev/nifi/commands/ExportCommand.java:121-125 | a service id is recorded with its own type and bundle |
| Exporting.ProcessorAt | src/dev/nifi/commands/ExportCommand.java:141-144 | the captured processor's type is a name placed with the live type and bundle |
| Exporting.ControllerElement | src/dev/nifi/commands/ExportCommand.java:127-130 | the j-th captured service is the j-th live service |
| Exporting.ProcessorTypeRoundTrip | src/dev/nifi/commands/ImportCommand.java:547-574 | a captured processor's type, looked up in its template's flattened dependencies, gives back the live type and bundle |
| Exporting.ControllerTypeRoundTrip | src/dev/nifi/commands/ImportCommand.java:547-574 | the same for a controller service |

## Left out

- REST transport: every create, update and listing call is a parameter or a `Workspace` step that logs the call and returns a fresh `node-<k>` id. The model assumes a response carries the requested parent group and name.
- YAML and XML text, file listing and file writing are left out: `export` (src/dev/nifi/commands/ExportCommand.java:174-197), `loadTemplates` (src/dev/nifi/commands/ImportCommand.java:576-594) and `HelperYML.load`. Templates and rule documents are records.
- Floating point: positions, bends and label sizes (`HelperYML` positions, src/dev/nifi/yml/HelperYML.java:106-122) are opaque strings.
- `UUID.randomUUID` is a counter-based fresh-id source; only freshness is stated.
- Recursion over nested groups carries a fuel bound and fails with `StackOverflow` when the bound runs out.
- HashMap iteration order is not modelled. A loop over a map's keys picks them in any order where its result cannot depend on the order. `createDependencyLookup` takes them in ascending order; its result depends on the order only when one name sits under two bundles, which a built vocabulary never does (Importing.BuiltVocabularyLookup).
- `System.out.println` output is left out.
- ControllerYML in this snapshot has no `type` field, although the importer reads one; the model's record carries the canonical type the importer uses.
- ControllerYML in this snapshot has only the one-argument constructor (src/dev/nifi/yml/ControllerYML.java:18), yet src/dev/nifi/commands/ExportCommand.java:128 calls it with the canonical dependency name as well. The model takes that canonical name as the record's type.
- ObjectBuilder in this snapshot calls `tracker.getIdForObject(groupId, name, ReservedComponents.OUTPUT_PORT)` and `…INPUT_PORT` (src/dev/nifi/utils/ObjectBuilder.java:368, :411). ObjectTracker declares only `getIdForObject(String, String, String)` (src/dev/nifi/utils/ObjectTracker.java:21). The model takes the enum argument as its name, as ImportCommand does with `.name()`.
- REST entities are assumed complete: the fields the capture reads without a null check are non-null in the model. On a null one Java throws NullPointerException, and the model always captures. The fields are:
  - a remote port's batch settings (`getBatchSettings().getCount()`, `getSize()`, `getDuration()`, src/dev/nifi/yml/RemotePortYML.java:31-33);
  - a controller service's descriptor and property maps (src/dev/nifi/yml/ControllerYML.java:25-29);
  - a processor's `config` and its descriptor and property maps (src/dev/nifi/yml/ElementYML.java:113-116, :286-288);
  - each property descriptor, whose `getDefaultValue()` is read without a check (src/dev/nifi/yml/ElementYML.java:292, src/dev/nifi/yml/ControllerYML.java:32). The model stores only the default value, so it has no null descriptor.
- RemotePortYml.RemotePortOf: assumes the batch settings are present (see the line above on complete REST entities).
- ControllerYml.ControllerYml: assumes the descriptor and property maps and every descriptor are present (see the line above on complete REST entities).
- PropertyDelta.ChangedProperties: assumes every descriptor is present (see the line above on complete REST entities).
- ElementYml.FromProcessor: assumes `config` and its descriptor and property maps are present (see the line above on complete REST entities).
- Import keeps a reference to one template object, which can be read twice. Sharing is modelled by `PropertyRewrite.SharedRewriteAsWritten`; the import itself rewrites a copy (see Findings).
- A failing export or import reports the first fault met. When several faults apply, the model does not distinguish which exception Java would raise.
- `ProcessorYML`, `Main`, `BaseCommand`, `ClearCommand`, `SetStatusCommand` and the prototype drivers `NifiImportTemplates` and `NifiExportTemplates` are not part of this model.
- `Criteria`, `Rules` and `TemplateYML` are datatypes; their only logic is a debug `toString`, which is left out.
- ObjectBuilding.SchedulingRequestOf: states the empty case and the fault kind; the per-setting content is stated by ObjectBuilding.SchedulingRoundTrip for captured input only.
- Importing.Importer.MakeProcessor: tracks the processor under `getType()` rather than the raw `type` field (see Findings).
- Importing.Importer.CreateLinkage: runs the corrected linkage, not src/dev/nifi/commands/ImportCommand.java:268-341 as written. The destination fallback tests the destination's own kind, not the source's (:340). Every type test and lookup of the linkage uses `getType()`, not the raw `type` field: the source tests at :268, :275, :282 and :309, the destination tests at :316 and :323, the relationship test at :350-352 and the lookups at :293 and :334. The as-written behaviour is stated only by Importing.GroupToProcessorDestination and Importing.ElidedTypeBreaksLinkage (see Findings).
- Importing.Importer.Connect: the same corrected behaviour for one edge. A PROCESS_GROUP source into a processor whose type is not an exact TypeEnum name gets destination type PROCESSOR, where Java sends INPUT_PORT. A processor whose captured type was left out because it equals its name is found, where Java throws NullPointerException. An output port named `OUTPUT_PORT` has its type left out too, so Java's port tests fail on null and its edge goes out as a PROCESSOR source with a null id; the model connects the real port. The same holds for a process group named `PROCESS_GROUP` and a remote group named `REMOTE_PROCESS_GROUP`.
- HelperYml.IsTypeUpper: case folding is ASCII only. Java's `equalsIgnoreCase` also folds non-ASCII letters, so `"ınput_port"` (dotless i) is INPUT_PORT in Java and of no reserved kind in the model.
- Text.SortedElements: strings are ordered by code point, so the key order of Dependencies.DependencyCache.WriteDependencies follows code points. `String.compareTo` compares UTF-16 code units, and the two orders differ for characters outside the Basic Multilingual Plane.
- InputConnectionYml.LinkProperties: the connection fields that the capture dereferences without a null check are non-null in the model: bends, the two back-pressure thresholds, the load-balance strategy, the flow-file expiration and the prioritizers (src/dev/nifi/yml/InputConnectionYML.java:84-114). On a null one Java throws NullPointerException; the model always succeeds.
- Text.ParseInteger: reads ASCII digits only. Java's `Integer.parseInt` and `Long.parseLong` accept any Unicode decimal digit, so `"٢"` (Arabic-Indic two) is 2 in Java and a NumberFormat fault in the model.
- ObjectBuilding.ParseIn: rests on Text.ParseInteger, so it rejects non-ASCII digits that Java accepts (src/dev/nifi/utils/ObjectBuilder.java:289, :298).
- ObjectBuilding.NumberSetting: the same. A scheduling value written with non-ASCII digits raises NumberFormat in the model, where Java parses it.
- InputConnectionYML in this snapshot has no `from` or `to` field, yet src/dev/nifi/commands/ImportCommand.java:277-353 and src/dev/nifi/utils/ObjectBuilder.java:331-346 read `input.from` and `input.to`. The model's record carries both next to `fromPort` and `toPort`, and capture leaves them null. So an exported edge out of a process group does not import again: `from.get(0)` raises NullPointerException (ObjectBuilding.FirstOf).
- RuleYML and RulesYML in this snapshot do not match their callers. RuleYML has only the two-argument constructor `RuleYML(conditions, actions)` and no `name` field, yet src/dev/nifi/yml/ElementYML.java:363 calls it with the rule's name as well. No RulesYML constructor takes `(policy, rules)`, yet ElementYML.java:367 calls one. The model's records follow the calls: a rule carries its name, and the rules record carries the policy and the decoded rules.

## Findings

| source | as written | input that shows it | evidently intended | confidence | as-written member | corrected member |
|---|---|---|---|---|---|---|
| src/dev/nifi/api/Dependency.java:36 | the alias constructor calls `this(group, artifact, alias, processor)`, so the alias replaces the version; it is also stored as the alias | `("g","a","1.0","P", null)` is known as `g/a/null/P` | keep the version and store the alias | not executed | Dependencies.WithAliasLosesVersion | Dependencies.AliasKeepingVersionFallsBack |
| src/dev/nifi/commands/ImportCommand.java:340 | the destination's fallback type tests the source element's kind | a connection from a process group to a processor is sent with destination type INPUT_PORT | test the destination's own kind, giving PROCESSOR | not executed | Importing.GroupToProcessorDestination | Importing.ProcessorDestinationWhateverSource |
| src/dev/nifi/commands/ImportCommand.java:536-543 | processors are tracked, and later looked up at :293 and :334, with the raw `type` field, which capture leaves null when the type equals the name | a processor named `GenerateFlowFile` of canonical type `GenerateFlowFile` is tracked with a null type; its linkage lookup calls `equals` on null | track and look up with `getType()` | not executed | Importing.ElidedTypeBreaksLinkage | Importing.ProcessorFoundByLinkage |
| src/dev/nifi/commands/ImportCommand.java:515-530 | property values are rewritten in place on the shared template object | a template imported twice whose service property is "c1" keeps "node-1" on the second import | rewrite a copy, so each import maps the original ids | not executed | PropertyRewrite.SharedRewriteAsWritten | PropertyRewrite.Rewritten |
