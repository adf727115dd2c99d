/** The CloudRun reconciler. A pass with no operation recorded in status fetches the
    Cloud Run service: a service that does not exist is created, a service whose first
    container runs another image than the spec's first container is updated, and either
    operation is recorded in status. A pass with an unfinished operation polls it; once
    the operation yields the service, the invoker policy is set and status takes the
    service's URI and latest ready revision.

    `ReconcilePass` states a pass as a function of the stored objects, the store's faults
    and the Cloud Run API's answers; the `Reconcile` method of `CloudRunReconciler` runs
    the pass step by step and is proved to agree with it. */
module CloudRunController {
  import opened Wrappers
  import opened Kube
  import opened CloudRunTypes
  import opened RunApi
  import CloudRunConverters

  datatype ReconcileError = StoreFailure(storeError: StoreError) | RunFailure(runError: RunError)

  type Outcome = ReconcileResult<ReconcileError>

  type Runs = Objects<CloudRunSpec, CloudRunStatus>

  /** What one pass returns, the API calls it issues in order, and the store afterwards. */
  datatype Pass = Pass(result: Outcome, calls: seq<RunCall>, objects: Runs)

  /** A missing object: no error, no requeue. */
  const Ignored: Outcome := ReconcileResult(NoRequeue, None)

  /** The regular end of a pass: look again in a minute. */
  const Recheck: Outcome := ReconcileResult(RequeueAfter(Minute), None)

  /** An operation still running: poll again in a second. */
  const PollAgain: Outcome := ReconcileResult(RequeueAfter(Second), None)

  function RunFailed(e: RunError): Outcome {
    ReconcileResult(NoRequeue, Some(RunFailure(e)))
  }

  function StoreFailed(e: StoreError): Outcome {
    ReconcileResult(NoRequeue, Some(StoreFailure(e)))
  }

  /** The end of a pass whose last step is a status write returning `err`. */
  function AfterStatusWrite(err: Option<StoreError>): Outcome {
    if err.Some? then StoreFailed(err.value) else Recheck
  }

  const InvokerRole: string := "roles/run.invoker"

  // ---------------------------------------------------------------------------
  // The pieces of the pass
  // ---------------------------------------------------------------------------

  function Parent(run: CloudRun): string {
    "projects/" + run.spec.projectId + "/locations/" + run.spec.location
  }

  /** The service the controller reads, updates and sets the policy on; it is named after
      the object alone. */
  function ServiceName(run: CloudRun): string {
    Parent(run) + "/services/" + run.meta.name
  }

  /** The request createRunService sends: the first container only (image, name, port),
      all traffic to the latest revision, the object's name as service id. */
  function CreateRunServiceRequest(run: CloudRun): (r: CreateServiceRequest)
    requires |run.spec.containers| > 0
    ensures r.parent == "projects/" + run.spec.projectId + "/locations/" + run.spec.location
    ensures r.serviceId == run.meta.name
    ensures ServiceName(run) == r.parent + "/services/" + r.serviceId
    ensures r.service.ingress == run.spec.trafficMode
    ensures |r.service.template.containers| == 1
    ensures var c := r.service.template.containers[0];
      && c.image == run.spec.containers[0].image
      && c.name == run.spec.containers[0].name
      && c.ports == [ContainerPort(run.spec.containers[0].port)]
      && c.livenessProbe.None? && c.startupProbe.None?
    ensures r.service.traffic == [TrafficTarget(AllocationLatest, "", 100)]
  {
    var first := run.spec.containers[0];
    CreateServiceRequest(
      Parent(run),
      Service(run.spec.trafficMode, RevisionTemplate([Container(first.name, first.image, [ContainerPort(first.port)], None, None)]),
              [TrafficTarget(AllocationLatest, "", 100)], "", ""),
      run.meta.name)
  }

  /** The fetched service with its first container's image replaced. */
  function WithImage(srv: Service, image: string): (s: Service)
    requires |srv.template.containers| > 0
    ensures |s.template.containers| == |srv.template.containers|
    ensures s.template.containers[0] == srv.template.containers[0].(image := image)
    ensures forall i :: 1 <= i < |s.template.containers| ==> s.template.containers[i] == srv.template.containers[i]
    ensures s.(template := srv.template) == srv
  {
    srv.(template := srv.template.(containers := srv.template.containers[0 := srv.template.containers[0].(image := image)]))
  }

  /** Status once the operation has yielded the service: no operation pending, done,
      the service's URI and latest ready revision, that revision appended to the history,
      every other field kept. */
  function CompletedStatus(st: CloudRunStatus, srv: Service): (r: CloudRunStatus)
    ensures r.done && r.operationsName == ""
    ensures r.uri == srv.uri && r.latestReadyRevision == srv.latestReadyRevision
    ensures |r.revisions| == |st.revisions| + 1
    ensures r.revisions[..|st.revisions|] == st.revisions && r.revisions[|st.revisions|] == srv.latestReadyRevision
    ensures r.(done := st.done, operationsName := st.operationsName, uri := st.uri,
               latestReadyRevision := st.latestReadyRevision, revisions := st.revisions) == st
  {
    st.(done := true, operationsName := "", uri := srv.uri, latestReadyRevision := srv.latestReadyRevision,
        revisions := st.revisions + [srv.latestReadyRevision])
  }

  /** Where the pass reaches an index into a container list, the list is non-empty (the
      source indexes without checking). */
  predicate ServiceDefined(run: CloudRun, script: RunScript) {
    && (script.getService.Err? && IsRunServiceNotFoundError(script.getService.error) ==> |run.spec.containers| > 0)
    && (script.getService.Ok? ==> |run.spec.containers| > 0 && |script.getService.value.template.containers| > 0)
  }

  predicate PassDefined(req: NamespacedName, objects: Runs, faults: StoreFaults, script: RunScript) {
    !faults.getFails && req in objects && objects[req].status.operationsName == "" ==> ServiceDefined(objects[req], script)
  }

  /** A whole pass of Reconcile. Only a missing object ends it with neither an error nor
      a requeue; an error never comes with a requeue; no pass adds or removes an object. */
  function ReconcilePass(req: NamespacedName, objects: Runs, faults: StoreFaults, script: RunScript): (p: Pass)
    requires PassDefined(req, objects, faults, script)
    ensures p.result.err.Some? ==> p.result.requeue == NoRequeue
    ensures p.result == Ignored <==> !faults.getFails && req !in objects
    ensures p.objects.Keys == objects.Keys
  {
    match StoreGet(objects, faults, req)
    case FetchFailed(e) => Pass(if e == NotFound then Ignored else StoreFailed(e), [], objects)
    case Fetched(run) =>
      if run.status.operationsName == "" then ReconcileService(run, objects, faults, script)
      else if !run.status.done then PollOperation(run, objects, faults, script)
      else Pass(Recheck, [], objects)
  }

  /** No operation recorded: the service is fetched first, then created or updated; a
      pass that fails no call and no write requeues in a minute. */
  function ReconcileService(run: CloudRun, objects: Runs, faults: StoreFaults, script: RunScript): (p: Pass)
    requires ServiceDefined(run, script)
    ensures 1 <= |p.calls| <= 2 && p.calls[0] == GetServiceCall(ServiceName(run))
    ensures p.result.err.None? ==> p.result == Recheck
    ensures p.objects.Keys == objects.Keys
  {
    var get := GetServiceCall(ServiceName(run));
    match script.getService
    case Err(e) =>
      if IsRunServiceNotFoundError(e) then
        var create := CreateServiceCall(CreateRunServiceRequest(run));
        match script.createService
        case Err(e2) => Pass(if IsRunServiceAlreadyExistsError(e2) then Recheck else RunFailed(e2), [get, create], objects)
        case Ok(op) =>
          var w := StoreStatusUpdate(objects, faults, run.(status := EmptyStatus.(operationsName := op.name, done := op.done)));
          Pass(AfterStatusWrite(w.err), [get, create], w.objects)
      else
        Pass(Recheck, [get], objects)
    case Ok(srv) =>
      if srv.template.containers[0].image != run.spec.containers[0].image then
        var update := UpdateServiceCall(WithImage(srv, run.spec.containers[0].image));
        match script.updateService
        case Err(e2) => Pass(if IsRunServiceAlreadyExistsError(e2) then Recheck else RunFailed(e2), [get, update], objects)
        case Ok(op) =>
          var w := StoreStatusUpdate(objects, faults, run.(status := run.status.(operationsName := op.name, done := op.done)));
          Pass(AfterStatusWrite(w.err), [get, update], w.objects)
      else
        Pass(Recheck, [get], objects)
  }

  /** An operation recorded and not done: poll it. Only a running operation asks to be
      polled again in a second, and only a finished one writes status. */
  function PollOperation(run: CloudRun, objects: Runs, faults: StoreFaults, script: RunScript): (p: Pass)
    ensures 1 <= |p.calls| <= 2 && p.calls[0] == PollCall(run.status.operationsName)
    ensures p.result == PollAgain <==> script.poll == Ok(None)
    ensures p.objects != objects ==> script.poll.Ok? && script.poll.value.Some? && script.setIamPolicy.None?
  {
    var poll := PollCall(run.status.operationsName);
    match script.poll
    case Err(e) => Pass(RunFailed(e), [poll], objects)
    case Ok(None) => Pass(PollAgain, [poll], objects)
    case Ok(Some(srv)) =>
      var iam := SetIamPolicyCall(ServiceName(run), InvokerRole, run.spec.invokeMembers);
      if script.setIamPolicy.Some? then
        Pass(RunFailed(script.setIamPolicy.value), [poll, iam], objects)
      else
        var w := StoreStatusUpdate(objects, faults, run.(status := CompletedStatus(run.status, srv)));
        Pass(AfterStatusWrite(w.err), [poll, iam], w.objects)
  }

  // ---------------------------------------------------------------------------
  // Names and requests
  // ---------------------------------------------------------------------------

  /** The controller names the service after the object alone, while the converters'
      full name joins namespace and name; the two never agree. */
  lemma ServiceNamesDisagree(run: CloudRun)
    ensures ServiceName(run) != CloudRunConverters.GetGcpCloudRunServiceFullName(run)
  {
    assert |CloudRunConverters.GetGcpCloudRunServiceFullName(run)| == |ServiceName(run)| + |run.meta.namespace| + 1;
  }

  /** The create request depends on the object's name, project, location, traffic mode and
      first container alone: further containers, probes, the traffic split and the
      invoke members are not sent. */
  lemma CreateRequestUsesFirstContainerOnly(a: CloudRun, b: CloudRun)
    requires |a.spec.containers| > 0 && |b.spec.containers| > 0
    requires a.meta.name == b.meta.name && a.spec.projectId == b.spec.projectId && a.spec.location == b.spec.location
    requires a.spec.trafficMode == b.spec.trafficMode
    requires a.spec.containers[0].(livenessProbe := None, startupProbe := None) ==
             b.spec.containers[0].(livenessProbe := None, startupProbe := None)
    ensures CreateRunServiceRequest(a) == CreateRunServiceRequest(b)
  {
    assert a.spec.containers[0].image == b.spec.containers[0].image;
    assert a.spec.containers[0].name == b.spec.containers[0].name;
    assert a.spec.containers[0].port == b.spec.containers[0].port;
  }

  // ---------------------------------------------------------------------------
  // What a pass does
  // ---------------------------------------------------------------------------

  /** A missing object ends the pass quietly; a failed read is returned. */
  lemma FetchFailureEndsPass(req: NamespacedName, objects: Runs, faults: StoreFaults, script: RunScript)
    requires faults.getFails || req !in objects
    ensures var p := ReconcilePass(req, objects, faults, script);
      && p.calls == [] && p.objects == objects
      && (faults.getFails ==> p.result == StoreFailed(Unavailable))
      && (!faults.getFails ==> p.result == Ignored)
  {
  }

  /** A service that does not exist is created from the object; AlreadyExists leads to a
      requeue in a minute with nothing written, any other error is returned. A successful
      create replaces the whole status by the operation's name and done flag, dropping
      URI, revisions and the rest. */
  lemma CreateIffServiceNotFound(run: CloudRun, objects: Runs, faults: StoreFaults, script: RunScript)
    requires run.status.operationsName == "" && ServiceDefined(run, script)
    ensures var p := ReconcileService(run, objects, faults, script);
      var notFound := script.getService.Err? && IsRunServiceNotFoundError(script.getService.error);
      && (IssuesCreate(p.calls) <==> notFound)
      && (notFound ==> p.calls == [GetServiceCall(ServiceName(run)), CreateServiceCall(CreateRunServiceRequest(run))])
      && (notFound && script.createService.Err? ==>
            p.objects == objects &&
            p.result == (if IsRunServiceAlreadyExistsError(script.createService.error) then Recheck
                         else RunFailed(script.createService.error)))
      && (notFound && script.createService.Ok? && run.meta.Key() in objects && !faults.statusUpdateFails ==>
            && p.result == Recheck
            && p.objects[run.meta.Key()].status ==
                 EmptyStatus.(operationsName := script.createService.value.name, done := script.createService.value.done))
  {
    var p := ReconcileService(run, objects, faults, script);
    if IssuesCreate(p.calls) {
      var i :| 0 <= i < |p.calls| && p.calls[i].CreateServiceCall?;
    }
    if script.getService.Err? && IsRunServiceNotFoundError(script.getService.error) {
      assert p.calls[1].CreateServiceCall?;
    }
  }

  /** A GetService error other than NotFound is swallowed: nothing is created or written
      and the pass asks to be run again in a minute. */
  lemma OtherGetErrorIsSwallowed(run: CloudRun, objects: Runs, faults: StoreFaults, script: RunScript)
    requires script.getService.Err? && !IsRunServiceNotFoundError(script.getService.error)
    ensures ReconcileService(run, objects, faults, script) == Pass(Recheck, [GetServiceCall(ServiceName(run))], objects)
  {
  }

  /** The scenario of the controller's test: the API implements no GetService, so the
      pass ends without error and without creating anything. */
  lemma UnimplementedGetService(req: NamespacedName, objects: Runs, script: RunScript)
    requires req in objects && objects[req].status == EmptyStatus
    requires script.getService == Err(GrpcError(12))
    ensures var p := ReconcilePass(req, objects, StoreFaults(false, false, false), script);
      && p.result.err.None?
      && !IssuesCreate(p.calls)
      && p.objects == objects
  {
    var p := ReconcilePass(req, objects, StoreFaults(false, false, false), script);
    assert p.calls == [GetServiceCall(ServiceName(objects[req]))];
  }

  /** With the service found, an update is issued exactly when its first container's image
      differs from the spec's first container's; the service sent differs from the fetched
      one in that image alone. A successful update records its operation in status and
      keeps every other status field. */
  lemma UpdateIffImageDiffers(run: CloudRun, objects: Runs, faults: StoreFaults, script: RunScript)
    requires script.getService.Ok? && ServiceDefined(run, script)
    ensures var p := ReconcileService(run, objects, faults, script);
      var srv := script.getService.value;
      var wanted := run.spec.containers[0].image;
      var differs := srv.template.containers[0].image != wanted;
      && !IssuesCreate(p.calls)
      && (IssuesUpdate(p.calls) <==> differs)
      && (!differs ==> p == Pass(Recheck, [GetServiceCall(ServiceName(run))], objects))
      && (differs ==>
            && p.calls == [GetServiceCall(ServiceName(run)), UpdateServiceCall(WithImage(srv, wanted))]
            && p.calls[1].service.template.containers[0].image == wanted
            && p.calls[1].service.(template := srv.template) == srv)
      && (differs && script.updateService.Ok? && run.meta.Key() in objects && !faults.statusUpdateFails ==>
            var op := script.updateService.value;
            && p.result == Recheck
            && p.objects[run.meta.Key()].status == run.status.(operationsName := op.name, done := op.done))
      && (differs && script.updateService.Err? ==>
            && p.objects == objects
            && p.result == (if IsRunServiceAlreadyExistsError(script.updateService.error) then Recheck
                            else RunFailed(script.updateService.error)))
  {
    var p := ReconcileService(run, objects, faults, script);
    var srv := script.getService.value;
    if IssuesUpdate(p.calls) {
      var i :| 0 <= i < |p.calls| && p.calls[i].UpdateServiceCall?;
    }
    if srv.template.containers[0].image != run.spec.containers[0].image {
      assert p.calls[1].UpdateServiceCall?;
    }
    assert forall i :: 0 <= i < |p.calls| ==> !p.calls[i].CreateServiceCall?;
  }

  /** After the update, the service carries the wanted image, so fetching it again finds
      nothing to update. */
  lemma UpdateConverges(srv: Service, image: string)
    requires |srv.template.containers| > 0
    ensures WithImage(srv, image).template.containers[0].image == image
    ensures WithImage(WithImage(srv, image), image) == WithImage(srv, image)
  {
  }

  /** An unfinished operation is only polled. While it runs the pass asks to be polled
      again in a second; a polling error is returned; once it yields the service, the
      invoker policy is set for the spec's members and only then status is written. A
      failed policy call leaves status untouched, so the next pass polls again. */
  lemma PendingOperationIsPolled(run: CloudRun, objects: Runs, faults: StoreFaults, script: RunScript)
    requires run.status.operationsName != ""
    ensures var p := PollOperation(run, objects, faults, script);
      && |p.calls| >= 1 && p.calls[0] == PollCall(run.status.operationsName)
      && !IssuesCreate(p.calls) && !IssuesUpdate(p.calls)
      && (script.poll.Err? ==> p == Pass(RunFailed(script.poll.error), [PollCall(run.status.operationsName)], objects))
      && (script.poll == Ok(None) ==> p == Pass(PollAgain, [PollCall(run.status.operationsName)], objects))
      && (script.poll.Ok? && script.poll.value.Some? ==>
            && p.calls == [PollCall(run.status.operationsName), SetIamPolicyCall(ServiceName(run), InvokerRole, run.spec.invokeMembers)]
            && (script.setIamPolicy.Some? ==> p.result == RunFailed(script.setIamPolicy.value) && p.objects == objects))
  {
    var p := PollOperation(run, objects, faults, script);
    assert forall i :: 0 <= i < |p.calls| ==> !p.calls[i].CreateServiceCall? && !p.calls[i].UpdateServiceCall?;
  }

  /** A completed operation clears the operation name, marks status done, copies URI and
      latest ready revision and appends that revision to the revision history, keeping
      the rest of status. */
  lemma CompletionRecordsRevision(run: CloudRun, objects: Runs, faults: StoreFaults, script: RunScript)
    requires run.status.operationsName != ""
    requires script.poll.Ok? && script.poll.value.Some? && script.setIamPolicy.None?
    requires run.meta.Key() in objects && !faults.statusUpdateFails
    ensures var p := PollOperation(run, objects, faults, script);
      var srv := script.poll.value.value;
      var st := p.objects[run.meta.Key()].status;
      && p.result == Recheck
      && st.done && st.operationsName == ""
      && st.uri == srv.uri && st.latestReadyRevision == srv.latestReadyRevision
      && st.revisions == run.status.revisions + [srv.latestReadyRevision]
      && st.(done := run.status.done, operationsName := run.status.operationsName, uri := run.status.uri,
             latestReadyRevision := run.status.latestReadyRevision, revisions := run.status.revisions) == run.status
  {
  }

  /** An operation that is recorded and done ends every pass without a call or a write:
      the object is never looked at again (reached when a create or update answers done
      at once). */
  lemma RecordedDoneOperationIsFinal(req: NamespacedName, objects: Runs, faults: StoreFaults, script: RunScript)
    requires !faults.getFails && req in objects
    requires objects[req].status.operationsName != "" && objects[req].status.done
    ensures ReconcilePass(req, objects, faults, script) == Pass(Recheck, [], objects)
  {
  }

  /** The passes that follow one another over a sequence of API answers; the pass
      after an undefined one is not run. */
  function Passes(req: NamespacedName, objects: Runs, faults: StoreFaults, scripts: seq<RunScript>): (r: seq<Pass>)
    ensures |r| <= |scripts|
    decreases |scripts|
  {
    if scripts == [] || !PassDefined(req, objects, faults, scripts[0]) then []
    else
      var p := ReconcilePass(req, objects, faults, scripts[0]);
      [p] + Passes(req, p.objects, faults, scripts[1..])
  }

  /** Once an object sits with a done operation recorded, every later pass, whatever the
      API would answer, issues no call and changes nothing. */
  lemma {:induction false} DoneOperationStaysFinal(req: NamespacedName, objects: Runs, faults: StoreFaults, scripts: seq<RunScript>)
    requires !faults.getFails && req in objects
    requires objects[req].status.operationsName != "" && objects[req].status.done
    ensures |Passes(req, objects, faults, scripts)| == |scripts|
    ensures forall i :: 0 <= i < |scripts| ==> Passes(req, objects, faults, scripts)[i] == Pass(Recheck, [], objects)
  {
    if scripts != [] {
      RecordedDoneOperationIsFinal(req, objects, faults, scripts[0]);
      DoneOperationStaysFinal(req, objects, faults, scripts[1..]);
      var r := Passes(req, objects, faults, scripts);
      assert r == [Pass(Recheck, [], objects)] + Passes(req, objects, faults, scripts[1..]);
    }
  }

  /** Creating and then polling: the first pass creates the service and records the
      pending operation, the second finds it finished, sets the invoker policy and
      records the service; the revision history then holds exactly its latest ready
      revision. */
  lemma CreateThenPollCompletes(req: NamespacedName, objects: Runs, create: RunScript, poll: RunScript, opName: string, srv: Service)
    requires WellKeyed(objects) && req in objects
    requires objects[req].status.operationsName == "" && |objects[req].spec.containers| > 0
    requires create.getService == Err(GrpcError(NotFoundCode)) && create.createService == Ok(Operation(opName, false))
    requires opName != ""
    requires poll.poll == Ok(Some(srv)) && poll.setIamPolicy.None?
    ensures var ps := Passes(req, objects, StoreFaults(false, false, false), [create, poll]);
      var run := objects[req];
      && |ps| == 2 && req in ps[1].objects
      && ps[0].result == Recheck && ps[1].result == Recheck
      && ps[0].calls + ps[1].calls ==
           [GetServiceCall(ServiceName(run)), CreateServiceCall(CreateRunServiceRequest(run)),
            PollCall(opName), SetIamPolicyCall(ServiceName(run), InvokerRole, run.spec.invokeMembers)]
      && ps[1].objects[req].status ==
           EmptyStatus.(done := true, uri := srv.uri, latestReadyRevision := srv.latestReadyRevision,
                        revisions := [srv.latestReadyRevision])
  {
    var faults := StoreFaults(false, false, false);
    var run := objects[req];
    var p0 := ReconcilePass(req, objects, faults, create);
    assert p0.objects[req] == run.(status := EmptyStatus.(operationsName := opName, done := false));
    var p1 := ReconcilePass(req, p0.objects, faults, poll);
    assert Passes(req, p0.objects, faults, [poll]) == [p1] + Passes(req, p1.objects, faults, []);
  }

  /** A pass changes something remotely at most once (create, update or policy). */
  lemma AtMostOneMutatingCall(req: NamespacedName, objects: Runs, faults: StoreFaults, script: RunScript)
    requires PassDefined(req, objects, faults, script)
    ensures MutatingCount(ReconcilePass(req, objects, faults, script).calls) <= 1
  {
    var p := ReconcilePass(req, objects, faults, script);
    if |p.calls| == 2 {
      assert !p.calls[0].IsMutating();
      assert p.calls == [p.calls[0], p.calls[1]];
      ReadThenMutateCountsOne(p.calls[0], p.calls[1]);
    } else if |p.calls| == 1 {
      assert p.calls[1..] == [];
    }
  }

  /** A pass writes only the requested object, and only its status. */
  lemma OnlyRequestedStatusChanges(req: NamespacedName, objects: Runs, faults: StoreFaults, script: RunScript)
    requires WellKeyed(objects) && PassDefined(req, objects, faults, script)
    ensures var p := ReconcilePass(req, objects, faults, script);
      && p.objects.Keys == objects.Keys
      && (forall k :: k in objects && k != req ==> p.objects[k] == objects[k])
      && (req in objects ==> p.objects[req].(status := objects[req].status) == objects[req])
  {
  }

  // ---------------------------------------------------------------------------
  // The reconciler
  // ---------------------------------------------------------------------------

  class CloudRunReconciler {
    const store: ObjectStore<CloudRunSpec, CloudRunStatus>
    const run: RunService

    constructor (store: ObjectStore<CloudRunSpec, CloudRunStatus>, run: RunService)
      ensures this.store == store && this.run == run
    {
      this.store := store;
      this.run := run;
    }

    /** One reconcile pass for the object named `req`. */
    method Reconcile(req: NamespacedName) returns (res: Outcome)
      requires PassDefined(req, store.objects, store.faults, run.script)
      modifies store, run
      ensures var p := ReconcilePass(req, old(store.objects), store.faults, run.script);
        res == p.result && store.objects == p.objects && run.calls == old(run.calls) + p.calls
    {
      var fetched := store.Get(req);
      if fetched.FetchFailed? {
        if fetched.err == NotFound {
          return Ignored;
        }
        return StoreFailed(fetched.err);
      }
      var cloudRun := fetched.obj;

      if cloudRun.status.operationsName == "" {
        var srv := run.GetService(ServiceName(cloudRun));
        if srv.Err? {
          if IsRunServiceNotFoundError(srv.error) {
            var cr := run.CreateService(CreateRunServiceRequest(cloudRun));
            if cr.Err? {
              if IsRunServiceAlreadyExistsError(cr.error) {
                return Recheck;
              }
              return RunFailed(cr.error);
            }
            cloudRun := cloudRun.(status := EmptyStatus.(operationsName := cr.value.name, done := cr.value.done));
            var err := store.StatusUpdate(cloudRun);
            if err.Some? {
              return StoreFailed(err.value);
            }
          }
        } else {
          var service := srv.value;
          if service.template.containers[0].image != cloudRun.spec.containers[0].image {
            service := WithImage(service, cloudRun.spec.containers[0].image);
            var cr := run.UpdateService(service);
            if cr.Err? {
              if IsRunServiceAlreadyExistsError(cr.error) {
                return Recheck;
              }
              return RunFailed(cr.error);
            }
            cloudRun := cloudRun.(status := cloudRun.status.(operationsName := cr.value.name, done := cr.value.done));
            var err := store.StatusUpdate(cloudRun);
            if err.Some? {
              return StoreFailed(err.value);
            }
          }
        }
      } else if !cloudRun.status.done {
        var srv := run.Poll(cloudRun.status.operationsName);
        if srv.Err? {
          return RunFailed(srv.error);
        }
        if srv.value.None? {
          return PollAgain;
        }
        cloudRun := cloudRun.(status := CompletedStatus(cloudRun.status, srv.value.value));
        var err := run.SetIamPolicy(ServiceName(cloudRun), InvokerRole, cloudRun.spec.invokeMembers);
        if err.Some? {
          return RunFailed(err.value);
        }
        var updateErr := store.StatusUpdate(cloudRun);
        if updateErr.Some? {
          return StoreFailed(updateErr.value);
        }
      }

      return Recheck;
    }
  }
}
