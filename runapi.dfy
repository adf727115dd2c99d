/** The Cloud Run Admin API as the CloudRun controller and converters use it: the request
    and service shapes, long-running operations, gRPC error codes, the calls it receives,
    and a service whose answers are fixed in advance and which records every call. */
module RunApi {
  import opened Wrappers
  import opened CloudRunTypes

  datatype TrafficTargetAllocationType = AllocationUnspecified | AllocationLatest | AllocationRevision

  datatype TrafficTarget = TrafficTarget(allocationType: TrafficTargetAllocationType, revision: string, percent: int32)

  datatype ContainerPort = ContainerPort(containerPort: int32)

  /** The probe's action (the oneof ProbeType of the API's Probe). */
  datatype ProbeAction =
    | HttpGet(path: string, port: int32)
    | TcpSocket(port: int32)
    | GrpcCheck(port: int32, service: string)

  datatype Probe = Probe(
    initialDelaySeconds: int32,
    timeoutSeconds: int32,
    periodSeconds: int32,
    failureThreshold: int32,
    action: Option<ProbeAction>)

  datatype Container = Container(
    name: string,
    image: string,
    ports: seq<ContainerPort>,
    livenessProbe: Option<Probe>,
    startupProbe: Option<Probe>)

  datatype RevisionTemplate = RevisionTemplate(containers: seq<Container>)

  /** A Cloud Run service; `uri` and `latestReadyRevision` are filled in by the server. */
  datatype Service = Service(
    ingress: int32,
    template: RevisionTemplate,
    traffic: seq<TrafficTarget>,
    uri: string,
    latestReadyRevision: string)

  datatype CreateServiceRequest = CreateServiceRequest(parent: string, service: Service, serviceId: string)

  /** The handle a create or update returns. */
  datatype Operation = Operation(name: string, done: bool)

  /** An error that carries a gRPC status code, or one that carries none (for instance
      a failure to construct the client). */
  datatype RunError = GrpcError(code: int) | ClientError

  const NotFoundCode: int := 5
  const AlreadyExistsCode: int := 6

  predicate IsRunServiceNotFoundError(e: RunError) {
    e.GrpcError? && e.code == NotFoundCode
  }

  predicate IsRunServiceAlreadyExistsError(e: RunError) {
    e.GrpcError? && e.code == AlreadyExistsCode
  }

  /** The answer the API gives to each kind of call during one pass. A poll answers
      `Ok(None)` while the operation is still running. */
  datatype RunScript = RunScript(
    getService: Result<Service, RunError>,
    createService: Result<Operation, RunError>,
    updateService: Result<Operation, RunError>,
    poll: Result<Option<Service>, RunError>,
    setIamPolicy: Option<RunError>)

  datatype RunCall =
    | GetServiceCall(name: string)
    | CreateServiceCall(request: CreateServiceRequest)
    | UpdateServiceCall(service: Service)
    | PollCall(operation: string)
    | SetIamPolicyCall(resource: string, role: string, members: seq<string>)
  {
    predicate IsMutating() {
      CreateServiceCall? || UpdateServiceCall? || SetIamPolicyCall?
    }
  }

  predicate IssuesCreate(calls: seq<RunCall>) {
    exists i :: 0 <= i < |calls| && calls[i].CreateServiceCall?
  }

  predicate IssuesUpdate(calls: seq<RunCall>) {
    exists i :: 0 <= i < |calls| && calls[i].UpdateServiceCall?
  }

  /** How many of the calls change something remotely. */
  function MutatingCount(calls: seq<RunCall>): nat {
    if calls == [] then 0
    else (if calls[0].IsMutating() then 1 else 0) + MutatingCount(calls[1..])
  }

  /** Two calls, of which the first changes nothing remotely, make at most one change. */
  lemma ReadThenMutateCountsOne(a: RunCall, b: RunCall)
    requires !a.IsMutating()
    ensures MutatingCount([a, b]) <= 1
  {
    assert [a, b][1..] == [b];
    assert [b][1..] == [];
    assert MutatingCount([b]) <= 1;
    assert MutatingCount([a, b]) == MutatingCount([b]);
  }

  class RunService {
    const script: RunScript
    var calls: seq<RunCall>

    constructor (script: RunScript)
      ensures this.script == script && calls == []
    {
      this.script := script;
      calls := [];
    }

    method GetService(name: string) returns (r: Result<Service, RunError>)
      modifies this
      ensures calls == old(calls) + [GetServiceCall(name)] && r == script.getService
    {
      calls := calls + [GetServiceCall(name)];
      r := script.getService;
    }

    method CreateService(request: CreateServiceRequest) returns (r: Result<Operation, RunError>)
      modifies this
      ensures calls == old(calls) + [CreateServiceCall(request)] && r == script.createService
    {
      calls := calls + [CreateServiceCall(request)];
      r := script.createService;
    }

    method UpdateService(service: Service) returns (r: Result<Operation, RunError>)
      modifies this
      ensures calls == old(calls) + [UpdateServiceCall(service)] && r == script.updateService
    {
      calls := calls + [UpdateServiceCall(service)];
      r := script.updateService;
    }

    method Poll(operation: string) returns (r: Result<Option<Service>, RunError>)
      modifies this
      ensures calls == old(calls) + [PollCall(operation)] && r == script.poll
    {
      calls := calls + [PollCall(operation)];
      r := script.poll;
    }

    method SetIamPolicy(resource: string, role: string, members: seq<string>) returns (err: Option<RunError>)
      modifies this
      ensures calls == old(calls) + [SetIamPolicyCall(resource, role, members)] && err == script.setIamPolicy
    {
      calls := calls + [SetIamPolicyCall(resource, role, members)];
      err := script.setIamPolicy;
    }
  }
}
