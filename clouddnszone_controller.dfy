/** The CloudDnsZone reconciler. One pass walks a fixed ladder: a missing object is a
    no-op; an object without the finalizer gets it and the pass stops; a deleting object
    has its zone deleted (when CleanupOnDelete) and its finalizer removed; an outstanding
    zone operation is polled; otherwise the zone is fetched and updated when its DNSSEC
    state differs from the spec, or created when it does not exist.

    `ReconcilePass` states a pass as a function of the stored objects, the store's faults,
    the finalizer name and the DNS service's answers; the `Reconcile` method of
    `CloudDnsZoneReconciler` runs the pass step by step against a store and a DNS service
    and is proved to agree with it. The lemmas below state what a pass does. */
module CloudDnsZoneController {
  import opened Wrappers
  import opened Kube
  import opened CloudDnsZoneTypes
  import opened CloudDns

  datatype ReconcileError = StoreFailure(storeError: StoreError) | DnsFailure(dnsError: DnsError)

  type Outcome = ReconcileResult<ReconcileError>

  type Zones = Objects<CloudDnsZoneSpec, CloudDnsZoneStatus>

  /** What one pass returns, the DNS calls it issues in order, and the store afterwards. */
  datatype Pass = Pass(result: Outcome, calls: seq<DnsCall>, objects: Zones)

  /** Every path of this reconciler returns an empty ctrl.Result. */
  const Finished: Outcome := ReconcileResult(NoRequeue, None)

  function DnsFailed(e: DnsError): Outcome {
    ReconcileResult(NoRequeue, Some(DnsFailure(e)))
  }

  /** The disposition of a pass that ends with a store write returning `err`. */
  function StoreOutcome(err: Option<StoreError>): Outcome {
    ReconcileResult(NoRequeue, if err.Some? then Some(StoreFailure(err.value)) else None)
  }

  // ---------------------------------------------------------------------------
  // Case-insensitive comparison (strings.EqualFold, ASCII letters)
  // ---------------------------------------------------------------------------

  function FoldCase(c: char): char {
    if 'A' <= c <= 'Z' then (c as int + 32) as char else c
  }

  function ToLower(s: string): (r: string)
    ensures |r| == |s|
    ensures forall i :: 0 <= i < |s| ==> r[i] == FoldCase(s[i])
  {
    if s == [] then [] else [FoldCase(s[0])] + ToLower(s[1..])
  }

  /** Equal lengths and equal letters up to case, compared letter by letter. */
  predicate EqualFold(a: string, b: string): (r: bool)
    ensures r ==> |a| == |b|
    ensures a == b ==> r
  {
    if a == [] || b == [] then a == b
    else FoldCase(a[0]) == FoldCase(b[0]) && EqualFold(a[1..], b[1..])
  }

  /** EqualFold holds exactly when both strings lower-case to the same string. */
  lemma {:induction false} EqualFoldIffSameLowerCase(a: string, b: string)
    ensures EqualFold(a, b) <==> ToLower(a) == ToLower(b)
  {
    if a != [] && b != [] {
      EqualFoldIffSameLowerCase(a[1..], b[1..]);
      assert ToLower(a) == [FoldCase(a[0])] + ToLower(a[1..]);
      assert ToLower(b) == [FoldCase(b[0])] + ToLower(b[1..]);
      if ToLower(a) == ToLower(b) {
        assert ToLower(a)[1..] == ToLower(a[1..]);
        assert ToLower(b)[1..] == ToLower(b[1..]);
      }
    } else if a != b {
      assert |ToLower(a)| != |ToLower(b)|;
    }
  }

  // ---------------------------------------------------------------------------
  // The pieces of the pass
  // ---------------------------------------------------------------------------

  /** dnsZoneUpdated: the spec's DNSSEC state and the zone's differ, ignoring case. */
  predicate DnsZoneUpdated(z: CloudDnsZone, current: ManagedZone): (r: bool)
    ensures r <==> ToLower(z.spec.dnsSecSpec.state) != ToLower(current.dnssecConfig.state)
    ensures !r ==> |z.spec.dnsSecSpec.state| == |current.dnssecConfig.state|
  {
    EqualFoldIffSameLowerCase(z.spec.dnsSecSpec.state, current.dnssecConfig.state);
    !EqualFold(z.spec.dnsSecSpec.state, current.dnssecConfig.state)
  }

  /** The zone the controller asks the service to create. */
  function ZoneToCreate(z: CloudDnsZone): (mz: ManagedZone)
    ensures mz.name == GetCloudDnsZoneFullName(z)
    ensures mz.dnsName == z.spec.dnsName + "."
    ensures mz.visibility == "PRIVATE" || mz.visibility == "PUBLIC"
    ensures mz.visibility == "PRIVATE" <==> z.spec.privateZone
    ensures mz.dnssecConfig == DnsSecConfig("NSEC3", z.spec.dnsSecSpec.state)
    ensures mz.nameServers == []
  {
    var zone := ManagedZone(
      GetCloudDnsZoneFullName(z),
      "DnsZone created by Stilas",
      z.spec.dnsName + ".",
      "PRIVATE",
      DnsSecConfig("NSEC3", z.spec.dnsSecSpec.state),
      []);
    if !z.spec.privateZone then zone.(visibility := "PUBLIC") else zone
  }

  /** The spec's NonExistence flag plays no part in the zone that is created. */
  lemma NonExistenceIgnored(z: CloudDnsZone, flag: bool)
    ensures ZoneToCreate(z.(spec := z.spec.(dnsSecSpec := z.spec.dnsSecSpec.(nonExistence := flag)))) == ZoneToCreate(z)
  {
  }

  /** A whole pass of Reconcile. It never asks for a requeue, issues at most two DNS
      calls, adds no object and keeps every object under its own identity. */
  function ReconcilePass(req: NamespacedName, objects: Zones, faults: StoreFaults, finalizer: string, script: DnsScript): (p: Pass)
    requires WellKeyed(objects)
    ensures p.result.requeue == NoRequeue
    ensures |p.calls| <= 2
    ensures p.objects.Keys <= objects.Keys
    ensures WellKeyed(p.objects)
  {
    match StoreGet(objects, faults, req)
    case FetchFailed(e) =>
      Pass(if e == NotFound then Finished else StoreOutcome(Some(e)), [], objects)
    case Fetched(z) =>
      if !ContainsFinalizer(z.meta, finalizer) then
        var w := StoreUpdate(objects, faults, z.(meta := AddFinalizer(z.meta, finalizer)), Rewritten(z.spec));
        Pass(StoreOutcome(w.err), [], w.objects)
      else if z.meta.deletionRequested then
        if z.spec.cleanupOnDelete then
          var delete := DeleteZoneCall(z.spec.projectId, GetCloudDnsZoneFullName(z));
          if script.deleteZone.Some? then
            Pass(DnsFailed(script.deleteZone.value), [delete], objects)
          else
            var w := StoreUpdate(objects, faults, z.(meta := RemoveFinalizer(z.meta, finalizer)), Rewritten(z.spec));
            Pass(StoreOutcome(w.err), [delete], w.objects)
        else
          var released := z.(meta := RemoveFinalizer(z.meta, finalizer));
          var w := StoreUpdate(objects, faults, released, Rewritten(z.spec));
          if w.err.Some? then Pass(StoreOutcome(w.err), [], w.objects)
          else ReconcileZone(released.(spec := Rewritten(z.spec).value), w.objects, faults, script)
      else
        ReconcileZone(z, objects, faults, script)
  }

  /** The part of a pass after the finalizer and deletion handling. It starts with a read
      (the pending operation, or else the zone), never asks for a requeue and writes
      status alone. */
  function ReconcileZone(z: CloudDnsZone, objects: Zones, faults: StoreFaults, script: DnsScript): (p: Pass)
    ensures 1 <= |p.calls| <= 2 && !p.calls[0].IsMutating()
    ensures p.calls[0].GetOperationCall? <==> z.status.operation != ""
    ensures p.result.requeue == NoRequeue
    ensures p.objects.Keys == objects.Keys
    ensures forall k :: k in objects ==> p.objects[k].(status := objects[k].status) == objects[k]
  {
    var project := z.spec.projectId;
    var name := GetCloudDnsZoneFullName(z);
    if z.status.operation != "" then
      var poll := GetOperationCall(project, name, z.status.operation);
      match script.getOperation
      case Err(e) => Pass(DnsFailed(e), [poll], objects)
      case Ok(op) =>
        if op.status == "DONE" then
          var w := StoreStatusUpdate(objects, faults, z.(status := z.status.(operation := "")));
          Pass(StoreOutcome(w.err), [poll], w.objects)
        else
          Pass(Finished, [poll], objects)
    else
      var get := GetZoneCall(project, name);
      match script.getZone
      case Ok(zone) =>
        if DnsZoneUpdated(z, zone) then
          var desired := zone.(dnssecConfig := zone.dnssecConfig.(state := z.spec.dnsSecSpec.state));
          var update := UpdateZoneCall(project, name, desired);
          match script.updateZone
          case Err(e) => Pass(DnsFailed(e), [get, update], objects)
          case Ok(op) =>
            var observed :=
              if op.status == "DONE" then z.(status := z.status.(nameservers := desired.nameServers))
              else z.(status := z.status.(operation := op.id));
            var w := StoreStatusUpdate(objects, faults, observed);
            Pass(StoreOutcome(w.err), [get, update], w.objects)
        else
          Pass(Finished, [get], objects)
      case Err(e) =>
        if IsNotModified(e) then
          Pass(Finished, [get], objects)
        else if IsZoneNotFound(e) then
          var create := CreateZoneCall(project, ZoneToCreate(z));
          match script.createZone
          case Err(e2) => Pass(DnsFailed(e2), [get, create], objects)
          case Ok(created) =>
            var w := StoreStatusUpdate(objects, faults, z.(status := z.status.(nameservers := created.nameServers)));
            Pass(StoreOutcome(w.err), [get, create], w.objects)
        else
          Pass(DnsFailed(e), [get], objects)
  }

  // ---------------------------------------------------------------------------
  // What a pass does
  // ---------------------------------------------------------------------------

  /** An object that is gone from the store ends the pass quietly. */
  lemma MissingObjectIsNoOp(req: NamespacedName, objects: Zones, faults: StoreFaults, finalizer: string, script: DnsScript)
    requires WellKeyed(objects) && !faults.getFails && req !in objects
    ensures ReconcilePass(req, objects, faults, finalizer, script) == Pass(Finished, [], objects)
  {
  }

  /** An object without the finalizer gets it, and the pass ends with no DNS call; the
      object is otherwise written back as read, its spec as the server re-admits it. An
      object already being deleted cannot take the finalizer: the server refuses the
      write, and since that pass changes nothing and does not depend on the DNS service,
      every later pass repeats it and the zone is never deleted. */
  lemma FinalizerAddedFirst(req: NamespacedName, objects: Zones, faults: StoreFaults, finalizer: string, script: DnsScript)
    requires WellKeyed(objects) && !faults.getFails && req in objects
    requires !ContainsFinalizer(objects[req].meta, finalizer)
    ensures var p := ReconcilePass(req, objects, faults, finalizer, script);
      var z := objects[req];
      && p.calls == []
      && p.result.requeue == NoRequeue
      && (faults.updateFails ==> p.result.err == Some(StoreFailure(Conflict)) && p.objects == objects)
      && (!faults.updateFails && (z.meta.deletionRequested || Rewritten(z.spec).Err?) ==>
            p == Pass(StoreOutcome(Some(Invalid)), [], objects))
      && (!faults.updateFails && !z.meta.deletionRequested && Rewritten(z.spec).Ok? ==>
            && p.result.err.None?
            && p.objects == objects[req := z.(meta := AddFinalizer(z.meta, finalizer), spec := Rewritten(z.spec).value)])
  {
    var z := objects[req];
    assert ContainsFinalizer(AddFinalizer(z.meta, finalizer), finalizer);
  }

  /** A zone created without a DNSSEC configuration is stored with an empty one; the
      controller's first write, adding the finalizer, leaves it as State On and
      NonExistence true, so later passes create and compare the zone with On. */
  lemma FinalizerWriteFillsDnsSecDefaults(req: NamespacedName, objects: Zones, finalizer: string, script: DnsScript)
    requires WellKeyed(objects) && req in objects
    requires !ContainsFinalizer(objects[req].meta, finalizer) && !objects[req].meta.deletionRequested
    requires objects[req].spec.dnsSecSpec == DnsSecSpec("", false)
    ensures var p := ReconcilePass(req, objects, StoreFaults(false, false, false), finalizer, script);
      && req in p.objects
      && p.objects[req].spec == objects[req].spec.(dnsSecSpec := DnsSecSpec("On", true))
      && ZoneToCreate(p.objects[req]).dnssecConfig.state == "On"
  {
    FinalizerAddedFirst(req, objects, StoreFaults(false, false, false), finalizer, script);
  }

  /** A guarded object that is not being deleted goes straight to zone reconciliation. */
  lemma LiveObjectIsReconciled(req: NamespacedName, objects: Zones, faults: StoreFaults, finalizer: string, script: DnsScript)
    requires WellKeyed(objects) && !faults.getFails && req in objects
    requires ContainsFinalizer(objects[req].meta, finalizer) && !objects[req].meta.deletionRequested
    ensures ReconcilePass(req, objects, faults, finalizer, script) == ReconcileZone(objects[req], objects, faults, script)
  {
  }

  /** Deletion with CleanupOnDelete: exactly one DeleteZone call; the finalizer leaves
      the stored object only when that call succeeded (and the write went through), and
      a failed delete is returned with the store untouched. */
  lemma DeletionWithCleanup(req: NamespacedName, objects: Zones, faults: StoreFaults, finalizer: string, script: DnsScript)
    requires WellKeyed(objects) && !faults.getFails && req in objects
    requires ContainsFinalizer(objects[req].meta, finalizer)
    requires objects[req].meta.deletionRequested && objects[req].spec.cleanupOnDelete
    ensures var p := ReconcilePass(req, objects, faults, finalizer, script);
      var z := objects[req];
      && p.calls == [DeleteZoneCall(z.spec.projectId, GetCloudDnsZoneFullName(z))]
      && (script.deleteZone.Some? ==> p.result == DnsFailed(script.deleteZone.value) && p.objects == objects)
      && (script.deleteZone.None? ==> (p.result.err.None? <==> !faults.updateFails && Rewritten(z.spec).Ok?))
      && ((req in p.objects && ContainsFinalizer(p.objects[req].meta, finalizer)) <==>
            script.deleteZone.Some? || faults.updateFails || Rewritten(z.spec).Err?)
  {
  }

  /** Deletion without CleanupOnDelete: no DeleteZone call; the finalizer is removed and,
      when that write succeeds, the pass does not stop but goes on to reconcile the zone
      as the server answered the write, with its re-admitted spec. */
  lemma DeletionWithoutCleanup(req: NamespacedName, objects: Zones, faults: StoreFaults, finalizer: string, script: DnsScript)
    requires WellKeyed(objects) && !faults.getFails && req in objects
    requires ContainsFinalizer(objects[req].meta, finalizer)
    requires objects[req].meta.deletionRequested && !objects[req].spec.cleanupOnDelete
    ensures var p := ReconcilePass(req, objects, faults, finalizer, script);
      var z := objects[req];
      var released := z.(meta := RemoveFinalizer(z.meta, finalizer));
      && !IssuesDelete(p.calls)
      && (faults.updateFails ==> p == Pass(StoreOutcome(Some(Conflict)), [], objects))
      && (!faults.updateFails && Rewritten(z.spec).Err? ==> p == Pass(StoreOutcome(Some(Invalid)), [], objects))
      && (!faults.updateFails && Rewritten(z.spec).Ok? ==>
            p == ReconcileZone(released.(spec := Rewritten(z.spec).value),
                               StoreUpdate(objects, faults, released, Rewritten(z.spec)).objects, faults, script))
  {
    var z := objects[req];
    var released := z.(meta := RemoveFinalizer(z.meta, finalizer));
    if !faults.updateFails && Rewritten(z.spec).Ok? {
      ZoneReconciliationNeverDeletes(released.(spec := Rewritten(z.spec).value),
                                     StoreUpdate(objects, faults, released, Rewritten(z.spec)).objects, faults, script);
    }
  }

  lemma ZoneReconciliationNeverDeletes(z: CloudDnsZone, objects: Zones, faults: StoreFaults, script: DnsScript)
    ensures !IssuesDelete(ReconcileZone(z, objects, faults, script).calls)
  {
  }

  /** The fall-through after finalizer removal, on one input: the object's last
      finalizer is removed, so the store drops the object; the zone is missing, so the
      pass still creates it, and the status write then fails because the object is gone.
      The zone created carries the re-admitted DNSSEC state: On where the stored one was
      empty. */
  lemma ReleasedObjectStillCreatesZone(req: NamespacedName, objects: Zones, faults: StoreFaults, finalizer: string, script: DnsScript)
    requires WellKeyed(objects) && req in objects && faults == StoreFaults(false, false, false)
    requires objects[req].meta.finalizers == [finalizer]
    requires objects[req].meta.deletionRequested && !objects[req].spec.cleanupOnDelete
    requires objects[req].status.operation == "" && Rewritten(objects[req].spec).Ok?
    requires script.getZone == Err(ApiError(404)) && script.createZone.Ok?
    ensures var p := ReconcilePass(req, objects, faults, finalizer, script);
      var z := objects[req];
      var released := z.(meta := RemoveFinalizer(z.meta, finalizer), spec := Rewritten(z.spec).value);
      && p.calls == [GetZoneCall(z.spec.projectId, GetCloudDnsZoneFullName(z)),
                     CreateZoneCall(z.spec.projectId, ZoneToCreate(released))]
      && ZoneToCreate(released).dnssecConfig.state ==
           (if z.spec.dnsSecSpec.state == "" then "On" else z.spec.dnsSecSpec.state)
      && req !in p.objects
      && p.result == StoreOutcome(Some(NotFound))
  {
    var z := objects[req];
    assert RemoveFinalizer(z.meta, finalizer).finalizers == [];
  }

  /** While an operation is outstanding it is only polled: no GetZone, UpdateZone or
      CreateZone. DONE clears the operation id in status; any other status changes
      nothing and asks for no requeue; a polling error is returned. */
  lemma PendingOperationIsOnlyPolled(z: CloudDnsZone, objects: Zones, faults: StoreFaults, script: DnsScript)
    requires z.status.operation != ""
    ensures var p := ReconcileZone(z, objects, faults, script);
      && p.calls == [GetOperationCall(z.spec.projectId, GetCloudDnsZoneFullName(z), z.status.operation)]
      && (script.getOperation.Err? ==> p.result == DnsFailed(script.getOperation.error) && p.objects == objects)
      && (script.getOperation.Ok? && script.getOperation.value.status != "DONE" ==>
            p.result == Finished && p.objects == objects)
      && (script.getOperation.Ok? && script.getOperation.value.status == "DONE" ==>
            var w := StoreStatusUpdate(objects, faults, z.(status := z.status.(operation := "")));
            p.result == StoreOutcome(w.err) && p.objects == w.objects)
  {
  }

  /** With no operation outstanding and the zone found, an update is issued exactly when
      the DNSSEC states differ ignoring case. The zone sent differs from the fetched one
      in its DNSSEC state alone, which becomes the spec's. A DONE update copies the zone's
      name servers into status; otherwise status records the operation id. */
  lemma UpdateIffDnsSecStateDiffers(z: CloudDnsZone, objects: Zones, faults: StoreFaults, script: DnsScript)
    requires z.status.operation == "" && script.getZone.Ok?
    ensures var p := ReconcileZone(z, objects, faults, script);
      var zone := script.getZone.value;
      var differs := ToLower(z.spec.dnsSecSpec.state) != ToLower(zone.dnssecConfig.state);
      && (IssuesUpdate(p.calls) <==> differs)
      && (!differs ==> p == Pass(Finished, [GetZoneCall(z.spec.projectId, GetCloudDnsZoneFullName(z))], objects))
      && (differs ==>
            && |p.calls| == 2 && p.calls[1].UpdateZoneCall?
            && p.calls[1].zoneName == GetCloudDnsZoneFullName(z)
            && p.calls[1].zone.dnssecConfig.state == z.spec.dnsSecSpec.state
            && p.calls[1].zone.(dnssecConfig := zone.dnssecConfig) == zone
            && p.calls[1].zone.dnssecConfig.nonExistence == zone.dnssecConfig.nonExistence)
      && (differs && script.updateZone.Ok? && z.meta.Key() in objects && !faults.statusUpdateFails ==>
            var op := script.updateZone.value;
            && p.result == Finished
            && p.objects[z.meta.Key()].status ==
                 (if op.status == "DONE" then z.status.(nameservers := zone.nameServers)
                  else z.status.(operation := op.id)))
      && (differs && script.updateZone.Err? ==>
            p.result == DnsFailed(script.updateZone.error) && p.objects == objects)
  {
    var p := ReconcileZone(z, objects, faults, script);
    var zone := script.getZone.value;
    EqualFoldIffSameLowerCase(z.spec.dnsSecSpec.state, zone.dnssecConfig.state);
    if IssuesUpdate(p.calls) {
      var i :| 0 <= i < |p.calls| && p.calls[i].UpdateZoneCall?;
    }
    if DnsZoneUpdated(z, zone) {
      assert p.calls[1].UpdateZoneCall?;
    }
  }

  /** With no operation outstanding, a zone is created exactly when GetZone answered
      HTTP 404, and the zone sent is the one built from the spec. A successful create
      copies the new zone's name servers into status. */
  lemma CreateIffZoneNotFound(z: CloudDnsZone, objects: Zones, faults: StoreFaults, script: DnsScript)
    requires z.status.operation == ""
    ensures var p := ReconcileZone(z, objects, faults, script);
      && (IssuesCreate(p.calls) <==> script.getZone.Err? && IsZoneNotFound(script.getZone.error))
      && (IssuesCreate(p.calls) ==>
            p.calls == [GetZoneCall(z.spec.projectId, GetCloudDnsZoneFullName(z)), CreateZoneCall(z.spec.projectId, ZoneToCreate(z))])
      && (IssuesCreate(p.calls) && script.createZone.Ok? && z.meta.Key() in objects && !faults.statusUpdateFails ==>
            && p.result == Finished
            && p.objects[z.meta.Key()].status == z.status.(nameservers := script.createZone.value.nameServers))
      && (IssuesCreate(p.calls) && script.createZone.Err? ==>
            p.result == DnsFailed(script.createZone.error) && p.objects == objects)
  {
    var p := ReconcileZone(z, objects, faults, script);
    if IssuesCreate(p.calls) {
      var i :| 0 <= i < |p.calls| && p.calls[i].CreateZoneCall?;
    }
    if script.getZone.Err? && IsZoneNotFound(script.getZone.error) {
      assert p.calls[1].CreateZoneCall?;
    }
  }

  /** A zone found in sync, or a NotModified answer, leads to no mutation and no status
      write; any other GetZone error except 404 is returned unchanged. */
  lemma NothingToDoOrGetFailed(z: CloudDnsZone, objects: Zones, faults: StoreFaults, script: DnsScript)
    requires z.status.operation == ""
    ensures var p := ReconcileZone(z, objects, faults, script);
      var get := GetZoneCall(z.spec.projectId, GetCloudDnsZoneFullName(z));
      && ((script.getZone.Ok? && EqualFold(z.spec.dnsSecSpec.state, script.getZone.value.dnssecConfig.state)) ||
          (script.getZone.Err? && IsNotModified(script.getZone.error))
          ==> p == Pass(Finished, [get], objects))
      && (script.getZone.Err? && !IsNotModified(script.getZone.error) && !IsZoneNotFound(script.getZone.error)
          ==> p == Pass(DnsFailed(script.getZone.error), [get], objects))
  {
  }

  /** A pass changes the remote zone at most once. */
  lemma AtMostOneMutatingCall(req: NamespacedName, objects: Zones, faults: StoreFaults, finalizer: string, script: DnsScript)
    requires WellKeyed(objects)
    ensures MutatingCount(ReconcilePass(req, objects, faults, finalizer, script).calls) <= 1
  {
    var p := ReconcilePass(req, objects, faults, finalizer, script);
    if |p.calls| == 2 {
      assert !p.calls[0].IsMutating();
      assert p.calls == [p.calls[0], p.calls[1]];
      ReadThenMutateCountsOne(p.calls[0], p.calls[1]);
    } else if |p.calls| == 1 {
      assert p.calls[1..] == [];
    }
  }

  /** A pass writes only the requested object, and the store stays well keyed. */
  lemma OnlyRequestedObjectChanges(req: NamespacedName, objects: Zones, faults: StoreFaults, finalizer: string, script: DnsScript)
    requires WellKeyed(objects)
    ensures var p := ReconcilePass(req, objects, faults, finalizer, script);
      && WellKeyed(p.objects)
      && (forall k :: k != req ==> (k in p.objects <==> k in objects))
      && (forall k :: k != req && k in objects ==> p.objects[k] == objects[k])
  {
    if !faults.getFails && req in objects {
      var z := objects[req];
      if ContainsFinalizer(z.meta, finalizer) && z.meta.deletionRequested && !z.spec.cleanupOnDelete {
        var released := z.(meta := RemoveFinalizer(z.meta, finalizer));
        var w := StoreUpdate(objects, faults, released, Rewritten(z.spec));
        if w.err.None? {
          ZoneWritesOnlyItsOwnObject(released.(spec := Rewritten(z.spec).value), w.objects, faults, script);
        }
      } else if ContainsFinalizer(z.meta, finalizer) && !z.meta.deletionRequested {
        ZoneWritesOnlyItsOwnObject(z, objects, faults, script);
      }
    }
  }

  lemma ZoneWritesOnlyItsOwnObject(z: CloudDnsZone, objects: Zones, faults: StoreFaults, script: DnsScript)
    requires WellKeyed(objects)
    ensures var p := ReconcileZone(z, objects, faults, script);
      && WellKeyed(p.objects)
      && (forall k :: k != z.meta.Key() ==> (k in p.objects <==> k in objects))
      && (forall k :: k != z.meta.Key() && k in objects ==> p.objects[k] == objects[k])
  {
  }

  // ---------------------------------------------------------------------------
  // The reconciler
  // ---------------------------------------------------------------------------

  class CloudDnsZoneReconciler {
    const store: ObjectStore<CloudDnsZoneSpec, CloudDnsZoneStatus>
    const dns: DnsService
    const finalizerName: string

    constructor (store: ObjectStore<CloudDnsZoneSpec, CloudDnsZoneStatus>, dns: DnsService, finalizerName: string)
      ensures this.store == store && this.dns == dns && this.finalizerName == finalizerName
    {
      this.store := store;
      this.dns := dns;
      this.finalizerName := finalizerName;
    }

    /** One reconcile pass for the object named `req`. */
    method Reconcile(req: NamespacedName) returns (res: Outcome)
      requires WellKeyed(store.objects)
      modifies store, dns
      ensures var p := ReconcilePass(req, old(store.objects), store.faults, finalizerName, dns.script);
        res == p.result && store.objects == p.objects && dns.calls == old(dns.calls) + p.calls
    {
      var fetched := store.Get(req);
      if fetched.FetchFailed? {
        if fetched.err == NotFound {
          return Finished;
        }
        return StoreOutcome(Some(fetched.err));
      }
      var dnsZone := fetched.obj;

      if !ContainsFinalizer(dnsZone.meta, finalizerName) {
        var err := PersistFinalizer(dnsZone);
        return StoreOutcome(err);
      }

      if dnsZone.meta.deletionRequested {
        if dnsZone.spec.cleanupOnDelete {
          var err := dns.DeleteZone(dnsZone.spec.projectId, GetCloudDnsZoneFullName(dnsZone));
          if err.Some? {
            return DnsFailed(err.value);
          }
          dnsZone := dnsZone.(meta := RemoveFinalizer(dnsZone.meta, finalizerName));
          var updateErr := store.Update(dnsZone, Rewritten(dnsZone.spec));
          return StoreOutcome(updateErr);
        }
        dnsZone := dnsZone.(meta := RemoveFinalizer(dnsZone.meta, finalizerName));
        var updateErr := store.Update(dnsZone, Rewritten(dnsZone.spec));
        if updateErr.Some? {
          return StoreOutcome(updateErr);
        }
        // The client decodes the server's answer into the object it sent.
        dnsZone := dnsZone.(spec := Rewritten(dnsZone.spec).value);
      }

      var project := dnsZone.spec.projectId;
      var name := GetCloudDnsZoneFullName(dnsZone);
      if dnsZone.status.operation != "" {
        var op := dns.GetOperation(project, name, dnsZone.status.operation);
        if op.Err? {
          return DnsFailed(op.error);
        }
        if op.value.status == "DONE" {
          dnsZone := dnsZone.(status := dnsZone.status.(operation := ""));
          var err := store.StatusUpdate(dnsZone);
          return StoreOutcome(err);
        }
        return Finished;
      }

      var got := dns.GetZone(project, name);
      if got.Ok? && DnsZoneUpdated(dnsZone, got.value) {
        var zone := got.value;
        zone := zone.(dnssecConfig := zone.dnssecConfig.(state := dnsZone.spec.dnsSecSpec.state));
        var op := dns.UpdateZone(project, name, zone);
        if op.Err? {
          return DnsFailed(op.error);
        }
        if op.value.status == "DONE" {
          dnsZone := dnsZone.(status := dnsZone.status.(nameservers := zone.nameServers));
          var err := store.StatusUpdate(dnsZone);
          return StoreOutcome(err);
        } else {
          dnsZone := dnsZone.(status := dnsZone.status.(operation := op.value.id));
          var err := store.StatusUpdate(dnsZone);
          return StoreOutcome(err);
        }
      }
      if got.Err? && !IsNotModified(got.error) {
        if IsZoneNotFound(got.error) {
          var zone := ZoneToCreate(dnsZone);
          var created := dns.CreateZone(project, zone);
          if created.Err? {
            return DnsFailed(created.error);
          }
          dnsZone := dnsZone.(status := dnsZone.status.(nameservers := created.value.nameServers));
          var err := store.StatusUpdate(dnsZone);
          if err.Some? {
            return StoreOutcome(err);
          }
          return Finished;
        }
        return DnsFailed(got.error);
      }
      return Finished;
    }

    /** addFinalizer: add the finalizer and write the object back. */
    method PersistFinalizer(dnsZone: CloudDnsZone) returns (err: Option<StoreError>)
      modifies store
      ensures var w := StoreUpdate(old(store.objects), store.faults, dnsZone.(meta := AddFinalizer(dnsZone.meta, finalizerName)),
                                   Rewritten(dnsZone.spec));
        store.objects == w.objects && err == w.err
    {
      var zone := dnsZone.(meta := AddFinalizer(dnsZone.meta, finalizerName));
      err := store.Update(zone, Rewritten(zone.spec));
    }
  }
}
