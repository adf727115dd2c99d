# Stilas GCP controllers in Dafny

This project models the core of the Stilas operator. It covers the two Kubernetes
reconcilers that manage Google Cloud resources, the custom-resource types they read
and write, and the converters that turn a CloudRun spec into a Cloud Run request.

- **CloudDnsZone reconciler.** One pass walks a fixed ladder:
  - a missing object is a no-op;
  - an object without the finalizer gets it, and the pass stops;
  - a deleting object may have its managed zone deleted (CleanupOnDelete) and loses its finalizer;
  - an outstanding zone operation is polled;
  - otherwise the zone is fetched. It is updated when its DNSSEC state differs from the spec, ignoring case, and created when Cloud DNS answers HTTP 404.
- **CloudRun reconciler.** A state machine over the status pair (OperationsName, Done):
  - with no operation recorded, it fetches the service. A missing service is created, and a service whose first container runs another image is updated;
  - an unfinished operation is polled. Once it yields the service, the invoker IAM policy is set, and status records the URI and the latest ready revision;
  - a recorded operation that is already done is never looked at again.
- **Converters.** They build the create-service request: names, traffic targets, containers and probes.
- **Types.** The CloudRun and CloudDnsZone specs and statuses, their enums, and the defaults and validation their schema markers declare.

Each reconciler pass is a function (`ReconcilePass`) of three inputs: the stored objects, the store's faults, and the answers of the remote API. Each has a class (`CloudDnsZoneReconciler`, `CloudRunReconciler`) with these parts:
- the object store (`Kube.ObjectStore`);
- a remote service (`CloudDns.DnsService`, `RunApi.RunService`) whose answers are fixed in advance and which logs every call;
- a `Reconcile` method that mirrors the Go code statement by statement.

`Reconcile` is proved to return the pass's result, to leave the pass's store behind, and to issue exactly the pass's calls. The lemmas state what a pass does.

Files:
- `wrappers.dfy`: Option and Result.
- `kube.dfy`: object metadata, finalizers, the store, dispositions, and list admission.
- `clouddnszone_types.dfy`, `cloudrun_types.dfy`: the custom-resource types.
- `clouddns.dfy`, `runapi.dfy`: the remote APIs as the controllers use them.
- `cloudrun_converters.dfy`: the converters.
- `clouddnszone_controller.dfy`, `cloudrun_controller.dfy`: the reconcilers.

## Model

| member | source | states |
|---|---|---|
| Kube.AddFinalizer | internal/controller/gcp/clouddnszone_controller.go:158-159 | the finalizer is present afterwards; no other finalizer appears or disappears; an already present finalizer leaves the metadata unchanged; nothing but the finalizer list changes |
| Kube.RemoveFinalizer | internal/controller/gcp/clouddnszone_controller.go:83 | the finalizer is absent afterwards; every other finalizer is kept; nothing but the finalizer list changes |
| Kube.Without | internal/controller/gcp/clouddnszone_controller.go:76 | exactly the entries different from the removed one survive; the list does not grow; a list without it is returned unchanged |
| Kube.StoreGet | internal/controller/gcp/clouddnszone_controller.go:59-64 | the object is fetched iff the read does not fail and the key is stored; a failure is NotFound exactly when the read itself did not fail |
| Kube.StoreUpdate | internal/controller/gcp/clouddnszone_controller.go:160-163 | the write succeeds iff the object is stored, no conflict occurs, the server's re-admission of the serialised spec accepts it, and it does not add a finalizer to an object being deleted; the last two are refused as Invalid; a failed write changes nothing; a successful one stores the new metadata and the re-admitted spec, keeps the server's deletion mark and the stored status, and removes a deleting object left with no finalizer; no other object changes |
| Kube.StoreStatusUpdate | internal/controller/gcp/clouddnszone_controller.go:98 | the write succeeds iff the object is stored and no conflict occurs; success replaces the stored status and nothing else |
| Kube.AdmitEach | api/gcp/v1/cloudrun_types.go:39-40 | a list is admitted iff every element is; the admitted list has the same length and holds each element's admitted value in order |
| CloudDnsZoneTypes.GetCloudDnsZoneFullName | api/gcp/v1/clouddnszone_types.go:89-91 | the name is the namespace, one dash, then the object name |
| CloudDnsZoneTypes.ParseDnsSecState | api/gcp/v1/clouddnszone_types.go:51-54 | a recognised state is the one whose name is the string |
| CloudDnsZoneTypes.DnsSecStateRoundTrip | api/gcp/v1/clouddnszone_types.go:51-54 | parsing a state's name gives the state back; exactly On, Off and Transfer are accepted |
| CloudDnsZoneTypes.AdmitDnsSecSpec | api/gcp/v1/clouddnszone_types.go:50-58 | an omitted DNSSEC configuration is admitted empty (no nested defaults; it stays so only until the controller's first write, see Rewritten); a given one is rejected only for a state outside the enum; an admitted one keeps a given State and NonExistence, and only an omitted one becomes On and true |
| CloudDnsZoneTypes.AdmitCloudDnsZoneSpec | api/gcp/v1/clouddnszone_types.go:29-48 | a missing ProjectID, and otherwise a missing DnsName, is reported as such; an admitted spec carries the given ProjectID and DnsName |
| CloudDnsZoneTypes.AdmittedZoneSpec | api/gcp/v1/clouddnszone_types.go:28-58 | a spec is admitted iff ProjectID and DnsName are given and a given DNSSEC state is in the enum; DnsName may be any string; PrivateZone and CleanupOnDelete default to false; a given DNSSEC configuration defaults State to On and NonExistence to true, and keeps both when given |
| CloudDnsZoneTypes.Serialized | api/gcp/v1/clouddnszone_types.go:29-58 | the body a write sends always carries ProjectID, DnsName, the "public" key and the DNSSEC configuration; it omits an empty State, a false NonExistence and a false CleanupOnDelete, and carries every other value as stored |
| CloudDnsZoneTypes.Rewritten | api/gcp/v1/clouddnszone_types.go:43-58 | a spec written back is refused iff its State is neither empty nor in the enum; otherwise the server stores it with an empty State made On and NonExistence made true, the rest kept |
| CloudDnsZoneTypes.RewriteIsIdempotent | api/gcp/v1/clouddnszone_types.go:43-58 | writing back a spec the server stored stores it unchanged |
| CloudDnsZoneTypes.RewriteOfAdmittedSpec | api/gcp/v1/clouddnszone_types.go:43-58 | an admitted spec is always accepted when written back; an omitted DNSSEC configuration becomes On and true; a given one keeps its State and gets NonExistence true; the spec survives unchanged iff the configuration was given and NonExistence was not given as false |
| CloudRunTypes.ParseProbeType | api/gcp/v1/cloudrun_types.go:131-137 | a recognised probe type is the one whose name is the string |
| CloudRunTypes.ProbeTypeRoundTrip | api/gcp/v1/cloudrun_types.go:131-137 | parsing a probe type's name gives it back; exactly HTTPGet, TCPSocket and Grpc are recognised |
| CloudRunTypes.ParseOperationType | api/gcp/v1/cloudrun_types.go:163-169 | a recognised operation type is the one whose name is the string |
| CloudRunTypes.OperationTypeRoundTrip | api/gcp/v1/cloudrun_types.go:163-169 | parsing an operation type's name gives it back; exactly create, update and delete are recognised |
| CloudRunTypes.AdmitProbe | api/gcp/v1/cloudrun_types.go:103-129 | a probe is rejected only for a missing part of its probe spec; an admitted probe had a probe spec, and its optional service and path are kept as given |
| CloudRunTypes.AdmitContainer | api/gcp/v1/cloudrun_types.go:61-83 | a missing image is reported as such; an admitted container carries the given image and name, the given port or 0, and a probe exactly where one was given, each the admitted form of the probe given in that same place |
| CloudRunTypes.AdmitTraffic | api/gcp/v1/cloudrun_types.go:85-101 | the only rejection is a missing Percent; an admitted entry carries the given percentage and any given revision |
| CloudRunTypes.AdmitCloudRunSpec | api/gcp/v1/cloudrun_types.go:28-58 | a missing Location, and then a missing Containers, is reported as such; an admitted spec carries the given location and project, the admitted form of each given container and traffic entry in order, and the given TrafficMode and InvokeMembers, which default to 1 and [allUsers] only when omitted |
| CloudRunTypes.AdmittedProbe | api/gcp/v1/cloudrun_types.go:103-129 | a probe is admitted iff its spec, probe type and port are given; the timings default to 0, 5, 10 and 3 and are otherwise kept |
| CloudRunTypes.AdmittedTraffic | api/gcp/v1/cloudrun_types.go:85-101 | a traffic entry is admitted iff Percent is given; LatestRevision is true only when given as true |
| CloudRunTypes.AdmittedSpec | api/gcp/v1/cloudrun_types.go:28-58 | an admitted spec had Location, Containers and ProjectID; containers and traffic entries are admitted one by one in order; TrafficMode and InvokeMembers are kept when given and default to 1 and [allUsers] otherwise; with the required fields present and every element admissible, the spec is admitted |
| CloudRunConverters.GetGcpCloudRunServiceFullName | api/gcp/v1/cloudrun_converters.go:17-19 | the name starts with projects/ and ends with the namespace, one dash and the object name |
| CloudRunConverters.ConvertToProbes | api/gcp/v1/cloudrun_converters.go:68-102 | a nil probe converts to nil; otherwise the four timings are copied, and the action is the one the probe-type enum assigns (HTTPGet with path and port, TCPSocket with port, Grpc with port and service); a type outside the enum sets no action |
| CloudRunConverters.ConvertToTrafficTarget | api/gcp/v1/cloudrun_converters.go:31-48 | one target per traffic entry, in order, with the percentage copied; a LatestRevision entry gives a LATEST target without a revision, any other entry a REVISION target carrying its revision |
| CloudRunConverters.ConvertToContainers | api/gcp/v1/cloudrun_converters.go:50-66 | one container per spec container, in order, with image and name copied, exactly one port (the container's), and both probes converted |
| CloudRunConverters.ConvertToService | api/gcp/v1/cloudrun_converters.go:21-29 | the ingress is the traffic mode; traffic and containers are converted element by element; no server-side fields are set |
| CloudRunConverters.ConvertToCreateServiceRequest | api/gcp/v1/cloudrun_converters.go:9-19 | parent projects/P/locations/L; service id namespace-name; the parent, "/services/" and the service id spell GetGcpCloudRunServiceFullName; the service is converted as above |
| CloudDnsZoneController.ToLower | internal/controller/gcp/clouddnszone_controller.go:167 | same length; every letter folded to lower case |
| CloudDnsZoneController.EqualFold | internal/controller/gcp/clouddnszone_controller.go:167 | strings equal ignoring case have the same length; equal strings are equal ignoring case |
| CloudDnsZoneController.DnsZoneUpdated | internal/controller/gcp/clouddnszone_controller.go:166-168 | the zone counts as updated iff the spec's and the zone's DNSSEC states lower-case to different strings |
| CloudDnsZoneController.EqualFoldIffSameLowerCase | internal/controller/gcp/clouddnszone_controller.go:166-168 | two DNSSEC states are equal ignoring case iff they lower-case to the same string |
| CloudDnsZoneController.ZoneToCreate | internal/controller/gcp/clouddnszone_controller.go:122-134 | the zone created has the full name, the DNS name with a trailing dot, visibility PRIVATE iff the spec says private and PUBLIC otherwise, NSEC3 with the spec's DNSSEC state, and no name servers |
| CloudDnsZoneController.NonExistenceIgnored | internal/controller/gcp/clouddnszone_controller.go:127-130 | the spec's NonExistence flag does not affect the zone created |
| CloudDnsZoneController.ReconcilePass | internal/controller/gcp/clouddnszone_controller.go:55-149 | no pass asks for a requeue; a pass issues at most two DNS calls, adds no object and keeps the store keyed by identity |
| CloudDnsZoneController.ReconcileZone | internal/controller/gcp/clouddnszone_controller.go:89-148 | the first call is a read: the pending operation when one is recorded, otherwise the zone; at most two calls; no requeue; only status is written |
| CloudDnsZoneController.MissingObjectIsNoOp | internal/controller/gcp/clouddnszone_controller.go:59-64 | an object gone from the store ends the pass without error, call or write |
| CloudDnsZoneController.FinalizerAddedFirst | internal/controller/gcp/clouddnszone_controller.go:66-67 | an object without the finalizer gets it written back with its re-admitted spec, with no DNS call and no requeue; a conflict is returned with nothing written; an object already being deleted is refused the finalizer (as is a spec the server rejects), and that pass changes nothing whatever the DNS service answers, so every later pass repeats it and no DeleteZone is ever issued |
| CloudDnsZoneController.FinalizerWriteFillsDnsSecDefaults | internal/controller/gcp/clouddnszone_controller.go:158-163 | a zone stored with an empty DNSSEC configuration holds State On and NonExistence true after the finalizer write, so the zone it would create asks for On |
| CloudDnsZoneController.LiveObjectIsReconciled | internal/controller/gcp/clouddnszone_controller.go:66-89 | a guarded object that is not being deleted goes straight to zone reconciliation |
| CloudDnsZoneController.DeletionWithCleanup | internal/controller/gcp/clouddnszone_controller.go:71-82 | exactly one DeleteZone call; a failed delete is returned with the store untouched; the finalizer leaves the object only when the delete and the write both succeed |
| CloudDnsZoneController.DeletionWithoutCleanup | internal/controller/gcp/clouddnszone_controller.go:83-89 | no DeleteZone call; the finalizer is removed; a refused write ends the pass; after a successful write the pass falls through to zone reconciliation of the object as the server answered it, with its re-admitted spec |
| CloudDnsZoneController.ReleasedObjectStillCreatesZone | internal/controller/gcp/clouddnszone_controller.go:83-89 | when the last finalizer is removed, the store drops the object, yet a missing zone is still created, with State On where the stored one was empty, and the status write then fails with NotFound |
| CloudDnsZoneController.PendingOperationIsOnlyPolled | internal/controller/gcp/clouddnszone_controller.go:90-101 | an outstanding operation is only polled; DONE clears it in status; any other status changes nothing; a polling error is returned |
| CloudDnsZoneController.UpdateIffDnsSecStateDiffers | internal/controller/gcp/clouddnszone_controller.go:102-117 | an update is issued iff the DNSSEC states differ ignoring case; the zone sent differs from the fetched one only in its DNSSEC state, which becomes the spec's; DONE copies the name servers into status, otherwise status records the operation id |
| CloudDnsZoneController.CreateIffZoneNotFound | internal/controller/gcp/clouddnszone_controller.go:118-143 | a zone is created iff GetZone answered 404, with ZoneToCreate's zone; a successful create copies its name servers into status; a failed one is returned |
| CloudDnsZoneController.NothingToDoOrGetFailed | internal/controller/gcp/clouddnszone_controller.go:103-148 | a zone in sync, or NotModified, leads to no mutation and no write; any other GetZone error except 404 is returned |
| CloudDnsZoneController.AtMostOneMutatingCall | internal/controller/gcp/clouddnszone_controller.go:55-149 | a pass issues at most one create, update or delete |
| CloudDnsZoneController.OnlyRequestedObjectChanges | internal/controller/gcp/clouddnszone_controller.go:55-149 | a pass leaves every other stored object as it was, and the store stays keyed by identity |
| CloudDnsZoneController.CloudDnsZoneReconciler.Reconcile | internal/controller/gcp/clouddnszone_controller.go:55-149 | the result, the store afterwards and the DNS calls issued are those of ReconcilePass |
| CloudDnsZoneController.CloudDnsZoneReconciler.PersistFinalizer | internal/controller/gcp/clouddnszone_controller.go:158-164 | the store afterwards and the error are those of updating the object with the finalizer added |
| CloudRunController.CreateRunServiceRequest | internal/controller/gcp/cloudrun_controller.go:162-187 | parent projects/P/locations/L and service id the object's name, so the request names the service the controller reads; the ingress is the traffic mode; only the first container is sent, with image, name and one port and no probes; one traffic target, 100% to the latest revision |
| CloudRunController.ServiceNamesDisagree | internal/controller/gcp/cloudrun_controller.go:236-238 | the name the controller uses (object name only) never equals the converters' full name (namespace-name) |
| CloudRunController.CreateRequestUsesFirstContainerOnly | internal/controller/gcp/cloudrun_controller.go:162-187 | the create request depends only on the name, project, location, traffic mode and the first container's image, name and port |
| CloudRunController.WithImage | internal/controller/gcp/cloudrun_controller.go:94 | only the first container's image changes, to the given one |
| CloudRunController.UpdateConverges | internal/controller/gcp/cloudrun_controller.go:93-94 | after the replacement the first image is the wanted one, and replacing again changes nothing |
| CloudRunController.ReconcilePass | internal/controller/gcp/cloudrun_controller.go:60-145 | only a missing object ends a pass with neither error nor requeue; an error never comes with a requeue; no object appears or disappears |
| CloudRunController.ReconcileService | internal/controller/gcp/cloudrun_controller.go:69-112 | the service is read first and at most one more call follows; a pass without error requeues after a minute; no object appears or disappears |
| CloudRunController.PollOperation | internal/controller/gcp/cloudrun_controller.go:113-141 | the operation is polled first; the pass asks to be polled again in a second iff the operation is still running; the store changes only once the operation yielded the service and the policy call succeeded |
| CloudRunController.CompletedStatus | internal/controller/gcp/cloudrun_controller.go:124-131 | status is done with no operation name, the service's URI and latest ready revision, that revision appended to the history, and every other field kept |
| CloudRunController.FetchFailureEndsPass | internal/controller/gcp/cloudrun_controller.go:64-67 | a missing object ends the pass with no error; a failed read is returned; no call, no write |
| CloudRunController.CreateIffServiceNotFound | internal/controller/gcp/cloudrun_controller.go:70-91 | a service is created iff GetService answered NotFound; AlreadyExists leads to a requeue after a minute with nothing written, any other error is returned; a successful create replaces the whole status by the operation's name and done flag |
| CloudRunController.OtherGetErrorIsSwallowed | internal/controller/gcp/cloudrun_controller.go:70-72 | any other GetService error leads to no create, no write and a requeue after a minute without error |
| CloudRunController.UnimplementedGetService | internal/controller/gcp/cloudrun_controller_test.go:40-46 | when the API implements no GetService, the pass returns no error, creates nothing and writes nothing |
| CloudRunController.UpdateIffImageDiffers | internal/controller/gcp/cloudrun_controller.go:92-112 | with the service found, an update is issued iff its first image differs from the spec's first image; the calls are then exactly the read and an update of the fetched service with that one image replaced; a successful update records the operation and keeps every other status field; a failed one writes nothing, requeues after a minute on AlreadyExists and returns any other error |
| CloudRunController.PendingOperationIsPolled | internal/controller/gcp/cloudrun_controller.go:113-136 | an unfinished operation is only polled; nil means poll again in a second; a poll error is returned; a result sets the invoker policy for the spec's members, and a policy failure is returned with nothing written |
| CloudRunController.CompletionRecordsRevision | internal/controller/gcp/cloudrun_controller.go:124-140 | completion marks status done, clears the operation name, copies URI and latest ready revision, appends that revision to the history and keeps the rest of status |
| CloudRunController.RecordedDoneOperationIsFinal | internal/controller/gcp/cloudrun_controller.go:69-144 | a recorded, done operation ends the pass with a one-minute requeue, no call and no write |
| CloudRunController.DoneOperationStaysFinal | internal/controller/gcp/cloudrun_controller.go:69-144 | from such a state every later pass, whatever the API answers, does the same |
| CloudRunController.CreateThenPollCompletes | internal/controller/gcp/cloudrun_controller.go:60-145 | a create answered by a pending operation, then a poll that yields the service: the calls are get, create, poll, set-policy, and status ends done with the service's URI and a one-entry revision history |
| CloudRunController.AtMostOneMutatingCall | internal/controller/gcp/cloudrun_controller.go:60-145 | a pass issues at most one create, update or policy call |
| CloudRunController.OnlyRequestedStatusChanges | internal/controller/gcp/cloudrun_controller.go:60-145 | a pass changes at most the requested object's status; no object appears or disappears |
| CloudRunController.CloudRunReconciler.Reconcile | internal/controller/gcp/cloudrun_controller.go:60-145 | the result, the store afterwards and the Cloud Run calls issued are those of ReconcilePass |

## Left out

- Logging, `SetupWithManager`, contexts and timeouts are not modelled.
- Closing the API client is not modelled.
- The finalizer name is a constructor parameter of the DNS reconciler, because its value is not part of this model.
- `internal/controller/gcp/cloudrun.go` is not part of this model. It duplicates the controller's helpers, and its `deleteRunService` is not called by any reconciler.
- `internal/services/gcp/clouddns.go` is not part of this model. The DNS service is a scripted capability whose errors are classified as HTTP codes.
- Classifying errors via `errors.As` and gRPC status codes is modelled as an error datatype that carries the code.
- A failure to construct a client (`getClient`) is modelled as the call failing with a code-less error. The model still records the call.
- The IAM policy call is modelled by its resource, role and members. The rest of the policy message is fixed and not modelled.
- EqualFold is modelled with ASCII case folding only. Unicode simple folding is not modelled.
- A zone returned without a DNSSEC configuration, which the source dereferences, is not modelled: the zone shape always carries one.
- CloudRunController.ReconcilePass requires a non-empty container list wherever the source indexes it: the spec's containers on create and update, and the fetched service's containers on update. The source would panic there.
- CloudRunConverters.ConvertToProbes requires an HTTPGet probe to carry a path and a Grpc probe a service, because the source dereferences both.
- The CloudRun status fields OperationsName and Done, and the CloudDnsZone status field Operation, are declared in the model. The controllers read and write them, although the Go status types do not declare them.
- The CloudRun status `Operations` list is declared but not modelled further, because no reconciler uses it.
- JSON serialisation is modelled only where it changes what is stored: the DNS reconciler's Updates send the spec through `Serialized` and the server's defaulting and validation again (`Rewritten`). The CloudRun reconciler writes status only. Field keys are not modelled.
- The status write after a create or an update rewrites the object that was read. Optimistic concurrency is modelled only as a scripted conflict fault.
- Which CloudRun probe a JSON key maps to (the startup probe is serialised as "readinessProbe") is not modelled.
