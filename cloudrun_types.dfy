/** The CloudRun custom resource: containers, probes and traffic split of the desired
    state, the observed state, the probe-type and operation-type enums, and the defaults
    and required fields its schema markers declare. */
module CloudRunTypes {
  import opened Wrappers
  import opened Kube

  /** Go's int32, used for ports, percentages, probe timings and the ingress enum. */
  newtype int32 = x: int | -0x8000_0000 <= x < 0x8000_0000

  /** `probeType` is a plain string: the schema gives it no enum. */
  datatype CloudRunProbeSpec = CloudRunProbeSpec(
    probeType: string,
    port: int32,
    service: Option<string>,
    path: Option<string>)

  datatype CloudRunProbe = CloudRunProbe(
    probeSpec: CloudRunProbeSpec,
    initialDelaySeconds: int32,
    timeoutSeconds: int32,
    periodSeconds: int32,
    failureThreshold: int32)

  datatype CloudRunContainer = CloudRunContainer(
    image: string,
    port: int32,
    name: string,
    livenessProbe: Option<CloudRunProbe>,
    startupProbe: Option<CloudRunProbe>)

  datatype CloudRunTraffic = CloudRunTraffic(revision: string, percent: int32, latestRevision: bool)

  /** Desired state. `trafficMode` is the Cloud Run ingress setting as its enum number. */
  datatype CloudRunSpec = CloudRunSpec(
    location: string,
    containers: seq<CloudRunContainer>,
    projectId: string,
    traffic: seq<CloudRunTraffic>,
    trafficMode: int32,
    invokeMembers: seq<string>)

  /** `operationType` is a plain string of the operation-type string type. */
  datatype CloudRunOperation = CloudRunOperation(name: string, done: bool, operationType: string)

  /** Observed state. `operationsName` and `done` track the one outstanding operation;
      the controller reads and writes them although the Go status type lacks them. */
  datatype CloudRunStatus = CloudRunStatus(
    ready: bool,
    reconciling: bool,
    operations: seq<CloudRunOperation>,
    uri: string,
    latestReadyRevision: string,
    revisions: seq<string>,
    operationsName: string,
    done: bool)

  /** The zero status. */
  const EmptyStatus: CloudRunStatus := CloudRunStatus(false, false, [], "", "", [], "", false)

  type CloudRun = KubeObject<CloudRunSpec, CloudRunStatus>

  // ---------------------------------------------------------------------------
  // Enums
  // ---------------------------------------------------------------------------

  datatype CloudRunProbeType = HTTPGet | TCPSocket | Grpc {
    function Name(): string {
      match this
      case HTTPGet => "HTTPGet"
      case TCPSocket => "TCPSocket"
      case Grpc => "Grpc"
    }
  }

  function ParseProbeType(s: string): (r: Option<CloudRunProbeType>)
    ensures r.Some? ==> r.value.Name() == s
  {
    if s == "HTTPGet" then Some(HTTPGet)
    else if s == "TCPSocket" then Some(TCPSocket)
    else if s == "Grpc" then Some(Grpc)
    else None
  }

  lemma ProbeTypeRoundTrip(t: CloudRunProbeType, s: string)
    ensures ParseProbeType(t.Name()) == Some(t)
    ensures ParseProbeType(s).Some? <==> s == "HTTPGet" || s == "TCPSocket" || s == "Grpc"
  {
  }

  datatype CloudRunOperationType = Create | Update | Delete {
    function Name(): string {
      match this
      case Create => "create"
      case Update => "update"
      case Delete => "delete"
    }
  }

  function ParseOperationType(s: string): (r: Option<CloudRunOperationType>)
    ensures r.Some? ==> r.value.Name() == s
  {
    if s == "create" then Some(Create)
    else if s == "update" then Some(Update)
    else if s == "delete" then Some(Delete)
    else None
  }

  lemma OperationTypeRoundTrip(t: CloudRunOperationType, s: string)
    ensures ParseOperationType(t.Name()) == Some(t)
    ensures ParseOperationType(s).Some? <==> s == "create" || s == "update" || s == "delete"
  {
  }

  // ---------------------------------------------------------------------------
  // Admission: defaults then required fields, as the schema markers declare
  // ---------------------------------------------------------------------------

  datatype ProbeSpecInput = ProbeSpecInput(
    probeType: Option<string>,
    port: Option<int32>,
    service: Option<string>,
    path: Option<string>)

  datatype ProbeInput = ProbeInput(
    probeSpec: Option<ProbeSpecInput>,
    initialDelaySeconds: Option<int32>,
    timeoutSeconds: Option<int32>,
    periodSeconds: Option<int32>,
    failureThreshold: Option<int32>)

  datatype ContainerInput = ContainerInput(
    image: Option<string>,
    port: Option<int32>,
    name: Option<string>,
    livenessProbe: Option<ProbeInput>,
    startupProbe: Option<ProbeInput>)

  datatype TrafficInput = TrafficInput(revision: Option<string>, percent: Option<int32>, latestRevision: Option<bool>)

  datatype CloudRunSpecInput = CloudRunSpecInput(
    location: Option<string>,
    containers: Option<seq<ContainerInput>>,
    projectId: Option<string>,
    traffic: Option<seq<TrafficInput>>,
    trafficMode: Option<int32>,
    invokeMembers: Option<seq<string>>)

  const DefaultInitialDelaySeconds: int32 := 0
  const DefaultTimeoutSeconds: int32 := 5
  const DefaultPeriodSeconds: int32 := 10
  const DefaultFailureThreshold: int32 := 3
  const DefaultLatestRevision: bool := false
  const DefaultTrafficMode: int32 := 1
  const DefaultInvokeMembers: seq<string> := ["allUsers"]

  function OrElse<T>(o: Option<T>, default: T): T {
    if o.Some? then o.value else default
  }

  function AdmitProbeSpec(i: Option<ProbeSpecInput>): Result<CloudRunProbeSpec, AdmissionError> {
    if i.None? then Err(MissingRequired("probeSpec"))
    else if i.value.probeType.None? then Err(MissingRequired("probeSpec.probeType"))
    else if i.value.port.None? then Err(MissingRequired("probeSpec.port"))
    else Ok(CloudRunProbeSpec(i.value.probeType.value, i.value.port.value, i.value.service, i.value.path))
  }

  function AdmitProbe(i: ProbeInput): (r: Result<CloudRunProbe, AdmissionError>)
    ensures r.Err? ==> r.error.MissingRequired? && |r.error.field| >= 9 && r.error.field[..9] == "probeSpec"
    ensures r.Ok? ==> i.probeSpec.Some? && r.value.probeSpec.service == i.probeSpec.value.service
                      && r.value.probeSpec.path == i.probeSpec.value.path
  {
    match AdmitProbeSpec(i.probeSpec)
    case Err(e) => Err(e)
    case Ok(spec) =>
      Ok(CloudRunProbe(
        spec,
        OrElse(i.initialDelaySeconds, DefaultInitialDelaySeconds),
        OrElse(i.timeoutSeconds, DefaultTimeoutSeconds),
        OrElse(i.periodSeconds, DefaultPeriodSeconds),
        OrElse(i.failureThreshold, DefaultFailureThreshold)))
  }

  function AdmitOptionalProbe(i: Option<ProbeInput>): (r: Result<Option<CloudRunProbe>, AdmissionError>)
    ensures r.Ok? ==> (r.value.Some? <==> i.Some?)
    ensures r.Ok? && i.Some? ==> AdmitProbe(i.value) == Ok(r.value.value)
    ensures r.Err? ==> r.error.MissingRequired? && |r.error.field| >= 9 && r.error.field[..9] == "probeSpec"
  {
    if i.None? then Ok(None)
    else match AdmitProbe(i.value)
      case Err(e) => Err(e)
      case Ok(p) => Ok(Some(p))
  }

  function AdmitContainer(i: ContainerInput): (r: Result<CloudRunContainer, AdmissionError>)
    ensures r == Err(MissingRequired("image")) <==> i.image.None?
    ensures r.Ok? ==> i.image == Some(r.value.image) && i.name == Some(r.value.name)
    ensures r.Ok? ==> r.value.port == OrElse(i.port, 0)
    ensures r.Ok? ==> (r.value.livenessProbe.Some? <==> i.livenessProbe.Some?)
                      && (r.value.startupProbe.Some? <==> i.startupProbe.Some?)
    ensures r.Ok? && i.livenessProbe.Some? ==> AdmitProbe(i.livenessProbe.value) == Ok(r.value.livenessProbe.value)
    ensures r.Ok? && i.startupProbe.Some? ==> AdmitProbe(i.startupProbe.value) == Ok(r.value.startupProbe.value)
  {
    if i.image.None? then Err(MissingRequired("image"))
    else if i.name.None? then Err(MissingRequired("name"))
    else match AdmitOptionalProbe(i.livenessProbe)
      case Err(e) => Err(e)
      case Ok(liveness) =>
        match AdmitOptionalProbe(i.startupProbe)
        case Err(e) => Err(e)
        case Ok(startup) => Ok(CloudRunContainer(i.image.value, OrElse(i.port, 0), i.name.value, liveness, startup))
  }

  function AdmitTraffic(i: TrafficInput): (r: Result<CloudRunTraffic, AdmissionError>)
    ensures r.Err? ==> r == Err(MissingRequired("percent")) && i.percent.None?
    ensures r.Ok? ==> i.percent == Some(r.value.percent) && (i.revision.Some? ==> r.value.revision == i.revision.value)
  {
    if i.percent.None? then Err(MissingRequired("percent"))
    else Ok(CloudRunTraffic(OrElse(i.revision, ""), i.percent.value, OrElse(i.latestRevision, DefaultLatestRevision)))
  }

  function AdmitCloudRunSpec(i: CloudRunSpecInput): (r: Result<CloudRunSpec, AdmissionError>)
    ensures i.location.None? ==> r == Err(MissingRequired("location"))
    ensures i.location.Some? && i.containers.None? ==> r == Err(MissingRequired("containers"))
    ensures r.Ok? ==> i.location == Some(r.value.location) && i.projectId == Some(r.value.projectId)
    ensures r.Ok? ==> i.containers.Some? && |r.value.containers| == |i.containers.value|
    ensures r.Ok? ==> forall k :: 0 <= k < |r.value.containers| ==> AdmitContainer(i.containers.value[k]) == Ok(r.value.containers[k])
    ensures r.Ok? ==> |r.value.traffic| == |OrElse(i.traffic, [])|
    ensures r.Ok? ==> forall k :: 0 <= k < |r.value.traffic| ==> AdmitTraffic(OrElse(i.traffic, [])[k]) == Ok(r.value.traffic[k])
    ensures r.Ok? ==> r.value.trafficMode == OrElse(i.trafficMode, DefaultTrafficMode)
    ensures r.Ok? ==> r.value.invokeMembers == OrElse(i.invokeMembers, DefaultInvokeMembers)
  {
    if i.location.None? then Err(MissingRequired("location"))
    else if i.containers.None? then Err(MissingRequired("containers"))
    else if i.projectId.None? then Err(MissingRequired("projectID"))
    else match AdmitEach(i.containers.value, AdmitContainer)
      case Err(e) => Err(e)
      case Ok(containers) =>
        match AdmitEach(OrElse(i.traffic, []), AdmitTraffic)
        case Err(e) => Err(e)
        case Ok(traffic) =>
          Ok(CloudRunSpec(
            i.location.value, containers, i.projectId.value, traffic,
            OrElse(i.trafficMode, DefaultTrafficMode),
            OrElse(i.invokeMembers, DefaultInvokeMembers)))
  }

  /** Probe defaults: 0 s initial delay, 5 s timeout, 10 s period, failure threshold 3,
      each applied only when the field is omitted; the probe spec, its type and its port
      are required. */
  lemma AdmittedProbe(i: ProbeInput)
    ensures AdmitProbe(i).Ok? <==>
      i.probeSpec.Some? && i.probeSpec.value.probeType.Some? && i.probeSpec.value.port.Some?
    ensures AdmitProbe(i).Ok? ==>
      var p := AdmitProbe(i).value;
      && p.probeSpec.probeType == i.probeSpec.value.probeType.value
      && p.probeSpec.port == i.probeSpec.value.port.value
      && (i.initialDelaySeconds.None? ==> p.initialDelaySeconds == 0)
      && (i.timeoutSeconds.None? ==> p.timeoutSeconds == 5)
      && (i.periodSeconds.None? ==> p.periodSeconds == 10)
      && (i.failureThreshold.None? ==> p.failureThreshold == 3)
      && (i.initialDelaySeconds.Some? ==> p.initialDelaySeconds == i.initialDelaySeconds.value)
      && (i.timeoutSeconds.Some? ==> p.timeoutSeconds == i.timeoutSeconds.value)
      && (i.periodSeconds.Some? ==> p.periodSeconds == i.periodSeconds.value)
      && (i.failureThreshold.Some? ==> p.failureThreshold == i.failureThreshold.value)
  {
  }

  /** A traffic entry needs its percentage; LatestRevision defaults to false. */
  lemma AdmittedTraffic(i: TrafficInput)
    ensures AdmitTraffic(i).Ok? <==> i.percent.Some?
    ensures AdmitTraffic(i).Ok? ==>
      && AdmitTraffic(i).value.percent == i.percent.value
      && AdmitTraffic(i).value.latestRevision == (i.latestRevision == Some(true))
  {
  }

  /** A spec needs Location, Containers and ProjectID; TrafficMode defaults to 1 and
      InvokeMembers to [allUsers], each only when omitted; containers and traffic entries
      are admitted one by one, in order, and a rejected one rejects the spec. */
  lemma AdmittedSpec(i: CloudRunSpecInput)
    ensures AdmitCloudRunSpec(i).Ok? ==>
      var s := AdmitCloudRunSpec(i).value;
      && i.location.Some? && i.containers.Some? && i.projectId.Some?
      && s.location == i.location.value && s.projectId == i.projectId.value
      && |s.containers| == |i.containers.value|
      && (forall k :: 0 <= k < |s.containers| ==> AdmitContainer(i.containers.value[k]) == Ok(s.containers[k]))
      && (i.traffic.None? ==> s.traffic == [])
      && (i.traffic.Some? ==> |s.traffic| == |i.traffic.value|)
      && (i.traffic.Some? ==> forall k :: 0 <= k < |s.traffic| ==> AdmitTraffic(i.traffic.value[k]) == Ok(s.traffic[k]))
      && (i.trafficMode.None? ==> s.trafficMode == 1)
      && (i.trafficMode.Some? ==> s.trafficMode == i.trafficMode.value)
      && (i.invokeMembers.None? ==> s.invokeMembers == ["allUsers"])
      && (i.invokeMembers.Some? ==> s.invokeMembers == i.invokeMembers.value)
    ensures i.location.Some? && i.containers.Some? && i.projectId.Some? &&
            (forall k :: 0 <= k < |i.containers.value| ==> AdmitContainer(i.containers.value[k]).Ok?) &&
            (forall k :: 0 <= k < |OrElse(i.traffic, [])| ==> OrElse(i.traffic, [])[k].percent.Some?)
            ==> AdmitCloudRunSpec(i).Ok?
  {
    if i.location.Some? && i.containers.Some? && i.projectId.Some? {
      var cs := AdmitEach(i.containers.value, AdmitContainer);
      var ts := AdmitEach(OrElse(i.traffic, []), AdmitTraffic);
      if forall k :: 0 <= k < |OrElse(i.traffic, [])| ==> OrElse(i.traffic, [])[k].percent.Some? {
        assert forall k :: 0 <= k < |OrElse(i.traffic, [])| ==> AdmitTraffic(OrElse(i.traffic, [])[k]).Ok?;
      }
    }
  }
}
