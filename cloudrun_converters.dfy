/** Conversion of a CloudRun's desired state into a Cloud Run create-service request:
    the parent and service id, the ingress setting, one traffic target per traffic entry
    and one container per spec container, with its probes. */
module CloudRunConverters {
  import opened Wrappers
  import opened Kube
  import opened CloudRunTypes
  import opened RunApi

  /** The fully qualified name of the service the converted request creates. */
  function GetGcpCloudRunServiceFullName(c: CloudRun): (r: string)
    ensures |r| >= 9 && r[..9] == "projects/"
    ensures |r| >= |c.meta.namespace| + 1 + |c.meta.name|
    ensures r[|r| - |c.meta.namespace| - 1 - |c.meta.name|..] == c.meta.namespace + "-" + c.meta.name
  {
    "projects/" + c.spec.projectId + "/locations/" + c.spec.location + "/services/" + c.meta.namespace + "-" + c.meta.name
  }

  // ---------------------------------------------------------------------------
  // What a faithful conversion looks like, element by element
  // ---------------------------------------------------------------------------

  /** A probe the converter can handle: an HTTPGet probe has a path and a Grpc probe
      has a service (the conversion dereferences both). */
  predicate ProbeSpecConvertible(spec: CloudRunProbeSpec) {
    && (spec.probeType == "HTTPGet" ==> spec.path.Some?)
    && (spec.probeType == "Grpc" ==> spec.service.Some?)
  }

  predicate ProbeConvertible(p: Option<CloudRunProbe>) {
    p.Some? ==> ProbeSpecConvertible(p.value.probeSpec)
  }

  predicate ContainerConvertible(c: CloudRunContainer) {
    ProbeConvertible(c.livenessProbe) && ProbeConvertible(c.startupProbe)
  }

  predicate SpecConvertible(s: CloudRunSpec) {
    forall i :: 0 <= i < |s.containers| ==> ContainerConvertible(s.containers[i])
  }

  /** The action a probe runs, chosen by its kind in the probe-type enum; a probe whose
      type names no kind runs none. */
  function ProbeActionOf(spec: CloudRunProbeSpec): Option<ProbeAction>
    requires ProbeSpecConvertible(spec)
  {
    match ParseProbeType(spec.probeType)
    case None => None
    case Some(HTTPGet) => Some(HttpGet(spec.path.value, spec.port))
    case Some(TCPSocket) => Some(TcpSocket(spec.port))
    case Some(Grpc) => Some(GrpcCheck(spec.port, spec.service.value))
  }

  /** A LatestRevision entry becomes a LATEST target without a revision, any other entry
      a REVISION target naming its revision; the percentage is copied. */
  predicate TargetConverted(t: CloudRunTraffic, target: TrafficTarget) {
    && target.percent == t.percent
    && (t.latestRevision ==> target.allocationType == AllocationLatest && target.revision == "")
    && (!t.latestRevision ==> target.allocationType == AllocationRevision && target.revision == t.revision)
  }

  /** Image and name copied, exactly one port (the container's), probes converted. */
  predicate ContainerConverted(c: CloudRunContainer, out: Container)
    requires ContainerConvertible(c)
  {
    && out.image == c.image
    && out.name == c.name
    && out.ports == [ContainerPort(c.port)]
    && out.livenessProbe == ConvertToProbes(c.livenessProbe)
    && out.startupProbe == ConvertToProbes(c.startupProbe)
  }

  // ---------------------------------------------------------------------------
  // The converters
  // ---------------------------------------------------------------------------

  /** A nil probe converts to nil; otherwise the timings are copied and the action set
      according to the probe type. */
  function ConvertToProbes(p: Option<CloudRunProbe>): (r: Option<Probe>)
    requires ProbeConvertible(p)
    ensures r.Some? <==> p.Some?
    ensures p.Some? ==>
      && r.value.initialDelaySeconds == p.value.initialDelaySeconds
      && r.value.periodSeconds == p.value.periodSeconds
      && r.value.timeoutSeconds == p.value.timeoutSeconds
      && r.value.failureThreshold == p.value.failureThreshold
      && r.value.action == ProbeActionOf(p.value.probeSpec)
      && (r.value.action.None? <==> ParseProbeType(p.value.probeSpec.probeType).None?)
  {
    if p.None? then None
    else
      var probe := Probe(p.value.initialDelaySeconds, p.value.timeoutSeconds, p.value.periodSeconds, p.value.failureThreshold, None);
      var spec := p.value.probeSpec;
      if spec.probeType == "HTTPGet" then Some(probe.(action := Some(HttpGet(spec.path.value, spec.port))))
      else if spec.probeType == "TCPSocket" then Some(probe.(action := Some(TcpSocket(spec.port))))
      else if spec.probeType == "Grpc" then Some(probe.(action := Some(GrpcCheck(spec.port, spec.service.value))))
      else Some(probe)
  }

  method ConvertToTrafficTarget(c: CloudRun) returns (targets: seq<TrafficTarget>)
    ensures |targets| == |c.spec.traffic|
    ensures forall i :: 0 <= i < |targets| ==> TargetConverted(c.spec.traffic[i], targets[i])
  {
    targets := [];
    for i := 0 to |c.spec.traffic|
      invariant |targets| == i
      invariant forall k :: 0 <= k < i ==> TargetConverted(c.spec.traffic[k], targets[k])
    {
      var traffic := c.spec.traffic[i];
      if traffic.latestRevision {
        targets := targets + [TrafficTarget(AllocationLatest, "", traffic.percent)];
      } else {
        targets := targets + [TrafficTarget(AllocationRevision, traffic.revision, traffic.percent)];
      }
    }
  }

  method ConvertToContainers(c: CloudRun) returns (containers: seq<Container>)
    requires SpecConvertible(c.spec)
    ensures |containers| == |c.spec.containers|
    ensures forall i :: 0 <= i < |containers| ==> ContainerConverted(c.spec.containers[i], containers[i])
  {
    containers := [];
    for i := 0 to |c.spec.containers|
      invariant |containers| == i
      invariant forall k :: 0 <= k < i ==> ContainerConverted(c.spec.containers[k], containers[k])
    {
      var container := c.spec.containers[i];
      assert ContainerConvertible(container);
      containers := containers + [Container(
        container.name,
        container.image,
        [ContainerPort(container.port)],
        ConvertToProbes(container.livenessProbe),
        ConvertToProbes(container.startupProbe))];
    }
  }

  /** The service: ingress from the traffic mode, the converted traffic split and the
      converted containers; nothing the server fills in. */
  method ConvertToService(c: CloudRun) returns (s: Service)
    requires SpecConvertible(c.spec)
    ensures s.ingress == c.spec.trafficMode
    ensures |s.traffic| == |c.spec.traffic|
    ensures forall i :: 0 <= i < |s.traffic| ==> TargetConverted(c.spec.traffic[i], s.traffic[i])
    ensures |s.template.containers| == |c.spec.containers|
    ensures forall i :: 0 <= i < |s.template.containers| ==> ContainerConverted(c.spec.containers[i], s.template.containers[i])
    ensures s.uri == "" && s.latestReadyRevision == ""
  {
    var traffic := ConvertToTrafficTarget(c);
    var containers := ConvertToContainers(c);
    s := Service(c.spec.trafficMode, RevisionTemplate(containers), traffic, "", "");
  }

  /** The request: parent projects/P/locations/L, service id namespace-name, and the
      converted service. Its parent and id spell the service's full name. */
  method ConvertToCreateServiceRequest(c: CloudRun) returns (r: CreateServiceRequest)
    requires SpecConvertible(c.spec)
    ensures r.parent == "projects/" + c.spec.projectId + "/locations/" + c.spec.location
    ensures r.serviceId == c.meta.namespace + "-" + c.meta.name
    ensures GetGcpCloudRunServiceFullName(c) == r.parent + "/services/" + r.serviceId
    ensures r.service.ingress == c.spec.trafficMode
    ensures |r.service.traffic| == |c.spec.traffic|
    ensures forall i :: 0 <= i < |r.service.traffic| ==> TargetConverted(c.spec.traffic[i], r.service.traffic[i])
    ensures |r.service.template.containers| == |c.spec.containers|
    ensures forall i :: 0 <= i < |r.service.template.containers| ==>
      ContainerConverted(c.spec.containers[i], r.service.template.containers[i])
  {
    var service := ConvertToService(c);
    r := CreateServiceRequest(
      "projects/" + c.spec.projectId + "/locations/" + c.spec.location,
      service,
      c.meta.namespace + "-" + c.meta.name);
  }
}
