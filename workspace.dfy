/**
 * The NiFi server as the import side sees it: a log of the create and
 * update requests sent to the REST API, and the ids the server assigns to
 * the components it creates. Only what the importers read back from a
 * response is modelled: its fresh id (and, implicitly, that the parent
 * group and name of the created component are those of the request).
 */
module Workspaces {
  import opened Wrappers
  import opened HelperYml
  import opened Records
  import opened FreshIds

  /** ConnectableDTO as the importers fill it in for a new connection. */
  datatype Endpoint = Endpoint(groupId: NString, id: NString, name: NString, kind: ConnectableType)

  /** The scheduling fields of a ProcessorConfigDTO; a field that is never set stays None. */
  datatype SchedulingRequest = SchedulingRequest(
    period: NString, strategy: NString, tasks: Option<int>, penalty: NString,
    yieldDuration: NString, runDuration: Option<int>, node: NString, bulletinLevel: NString)

  const Unscheduled := SchedulingRequest(None, None, None, None, None, None, None, None)

  /** ProcessorDTO with its config, as sent to createProcessor. */
  datatype ProcessorRequest = ProcessorRequest(
    typeName: string, bundle: Bundle, name: NString, position: NString,
    style: Option<map<string, string>>, properties: map<string, NString>,
    scheduling: SchedulingRequest, annotation: Option<Criteria>)

  /** One request to the REST API. */
  datatype Call =
    | CreateProcessGroup(parent: string, name: NString, position: NString)
    | UpdateComments(group: string, comments: NString)
    | CreateRemoteProcessGroup(parent: string, targetUris: NString, position: NString, inputPorts: seq<string>)
    | CreateControllerService(parent: string, serviceType: string, bundle: Bundle, name: NString,
                              properties: map<string, string>)
    | CreateFunnel(parent: string, position: NString)
    | CreatePort(parent: string, kind: ReservedKind, name: NString, comments: NString, position: NString)
    | CreateLabel(parent: string, text: NString, style: Option<map<string, string>>, position: NString)
    | CreateProcessor(parent: string, request: ProcessorRequest)
    | CreateConnection(parent: string, source: Endpoint, destination: Endpoint, relationships: Option<seq<string>>)

  /** The id the server gives to the k-th component it creates. */
  function NodeId(k: nat): string {
    Fresh("node", k)
  }

  /** Ids of different creations never coincide. */
  lemma NodeIdInjective(i: nat, j: nat)
    requires NodeId(i) == NodeId(j)
    ensures i == j
  {
    FreshInjective("node", i, j);
  }

  /** Every id in `ids` was handed out before the counter reached `next`. */
  predicate AllIssued(ids: set<string>, next: nat) {
    forall id :: id in ids ==> exists k: nat :: k < next && id == NodeId(k)
  }

  /** The next id is new, and once handed out it joins the issued ids. */
  lemma NextIsFresh(ids: set<string>, next: nat)
    requires AllIssued(ids, next)
    ensures NodeId(next) !in ids
    ensures AllIssued(ids + {NodeId(next)}, next + 1)
  {
    if NodeId(next) in ids {
      var k: nat :| k < next && NodeId(next) == NodeId(k);
      NodeIdInjective(next, k);
    }
  }

  /** The server: the id of the root process group, a creation counter and the requests received. */
  class Workspace {
    const rootId: string
    var next: nat
    var calls: seq<Call>

    constructor (rootId: string)
      ensures this.rootId == rootId && next == 0 && calls == []
    {
      this.rootId := rootId;
      next := 0;
      calls := [];
    }

    /** A create request: logged, answered with a fresh id. */
    method Create(c: Call) returns (id: string)
      modifies this
      ensures id == NodeId(old(next)) && next == old(next) + 1
      ensures calls == old(calls) + [c]
    {
      id := NodeId(next);
      next := next + 1;
      calls := calls + [c];
    }

    /** An update request: logged, no new component. */
    method Update(c: Call)
      modifies this
      ensures next == old(next) && calls == old(calls) + [c]
    {
      calls := calls + [c];
    }
  }
}
