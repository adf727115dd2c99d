/** The Kubernetes side that both reconcilers share: object metadata and its finalizer
    list, the desired-state store (Get, Update, Status().Update) that may fail, the
    disposition a reconcile pass returns, and the API server's admission of a field list. */
module Kube {
  import opened Wrappers

  /** The identity a reconcile request carries. */
  datatype NamespacedName = NamespacedName(namespace: string, name: string)

  /** The metadata the reconcilers read: identity, finalizers and whether a deletion
      timestamp is set. */
  datatype ObjectMeta = ObjectMeta(
    namespace: string,
    name: string,
    finalizers: seq<string>,
    deletionRequested: bool)
  {
    function Key(): NamespacedName { NamespacedName(namespace, name) }
  }

  /** A stored custom resource: metadata, desired state and observed state. */
  datatype KubeObject<Spec, Status> = KubeObject(meta: ObjectMeta, spec: Spec, status: Status)

  // ---------------------------------------------------------------------------
  // Finalizers (the semantics of controllerutil's helpers)
  // ---------------------------------------------------------------------------

  predicate ContainsFinalizer(m: ObjectMeta, f: string) {
    f in m.finalizers
  }

  /** Appends `f` unless it is already present; nothing else in the metadata changes. */
  function AddFinalizer(m: ObjectMeta, f: string): (r: ObjectMeta)
    ensures ContainsFinalizer(r, f)
    ensures forall g :: ContainsFinalizer(r, g) <==> g == f || ContainsFinalizer(m, g)
    ensures ContainsFinalizer(m, f) ==> r == m
    ensures r.(finalizers := m.finalizers) == m
  {
    if f in m.finalizers then m else m.(finalizers := m.finalizers + [f])
  }

  /** Drops every occurrence of `f`; nothing else in the metadata changes. */
  function RemoveFinalizer(m: ObjectMeta, f: string): (r: ObjectMeta)
    ensures !ContainsFinalizer(r, f)
    ensures forall g :: g != f ==> (ContainsFinalizer(r, g) <==> ContainsFinalizer(m, g))
    ensures r.(finalizers := m.finalizers) == m
  {
    m.(finalizers := Without(m.finalizers, f))
  }

  /** The list with every occurrence of `f` filtered out, order kept. */
  function Without(s: seq<string>, f: string): (r: seq<string>)
    ensures forall g :: g in r <==> g in s && g != f
    ensures |r| <= |s|
    ensures f !in s ==> r == s
  {
    if s == [] then []
    else if s[0] == f then Without(s[1..], f)
    else [s[0]] + Without(s[1..], f)
  }

  // ---------------------------------------------------------------------------
  // The desired-state store
  // ---------------------------------------------------------------------------

  /** NotFound, a conflict, the server unreachable, or a write the server refuses as
      invalid. */
  datatype StoreError = NotFound | Conflict | Unavailable | Invalid

  /** Which of the store's calls fail during one pass (a read error other than not-found,
      an optimistic-concurrency conflict on Update or on Status().Update). */
  datatype StoreFaults = StoreFaults(getFails: bool, updateFails: bool, statusUpdateFails: bool)

  type Objects<Spec, Status> = map<NamespacedName, KubeObject<Spec, Status>>

  /** Every stored object sits under its own identity. */
  predicate WellKeyed<Spec, Status>(objects: Objects<Spec, Status>) {
    forall k :: k in objects ==> objects[k].meta.Key() == k
  }

  datatype Fetch<T> = Fetched(obj: T) | FetchFailed(err: StoreError)

  /** The outcome of a write: the store afterwards and the error returned, if any. */
  datatype Written<Spec, Status> = Written(objects: Objects<Spec, Status>, err: Option<StoreError>)

  function StoreGet<Spec, Status>(objects: Objects<Spec, Status>, faults: StoreFaults, key: NamespacedName)
    : (r: Fetch<KubeObject<Spec, Status>>)
    ensures r.Fetched? <==> !faults.getFails && key in objects
    ensures r.Fetched? ==> r.obj == objects[key]
    ensures r.FetchFailed? ==> (r.err == NotFound <==> !faults.getFails)
  {
    if faults.getFails then FetchFailed(Unavailable)
    else if key in objects then Fetched(objects[key])
    else FetchFailed(NotFound)
  }

  /** `meta` names a finalizer that the server's copy `current` does not hold. */
  predicate AddsFinalizer(current: ObjectMeta, meta: ObjectMeta) {
    exists g :: g in meta.finalizers && g !in current.finalizers
  }

  /** Update writes metadata and spec but not status (the status subresource is enabled);
      the deletion timestamp is the server's. The spec stored is not `obj.spec` itself:
      the server decodes the request body, applies the schema's defaults and validates
      it again, and `admitted` is what that yields for the body the client serialised.
      The server refuses an invalid spec, and a finalizer added to an object that is being
      deleted. Once a deleting object has no finalizer left the store removes it. */
  function StoreUpdate<Spec, Status>(objects: Objects<Spec, Status>, faults: StoreFaults, obj: KubeObject<Spec, Status>,
                                     admitted: Result<Spec, AdmissionError>)
    : (w: Written<Spec, Status>)
    ensures var key := obj.meta.Key();
      w.err == Some(Invalid) <==>
        && key in objects && !faults.updateFails
        && (admitted.Err? || (objects[key].meta.deletionRequested && AddsFinalizer(objects[key].meta, obj.meta)))
    ensures var key := obj.meta.Key();
      w.err.None? <==>
        && key in objects && !faults.updateFails && admitted.Ok?
        && !(objects[key].meta.deletionRequested && AddsFinalizer(objects[key].meta, obj.meta))
    ensures w.err.Some? ==> w.objects == objects
    ensures forall k :: k != obj.meta.Key() ==> (k in w.objects <==> k in objects)
    ensures forall k :: k != obj.meta.Key() && k in objects ==> w.objects[k] == objects[k]
    ensures var key := obj.meta.Key();
      w.err.None? ==>
        var current := objects[key];
        && (current.meta.deletionRequested && obj.meta.finalizers == [] ==> key !in w.objects)
        && (!(current.meta.deletionRequested && obj.meta.finalizers == []) ==>
              && key in w.objects
              && w.objects[key].meta == obj.meta.(deletionRequested := current.meta.deletionRequested)
              && w.objects[key].spec == admitted.value
              && w.objects[key].status == current.status)
  {
    var key := obj.meta.Key();
    if key !in objects then Written(objects, Some(NotFound))
    else if faults.updateFails then Written(objects, Some(Conflict))
    else if admitted.Err? then Written(objects, Some(Invalid))
    else if objects[key].meta.deletionRequested && AddsFinalizer(objects[key].meta, obj.meta) then Written(objects, Some(Invalid))
    else
      var old_ := objects[key];
      var stored := old_.(meta := obj.meta.(deletionRequested := old_.meta.deletionRequested), spec := admitted.value);
      if stored.meta.deletionRequested && stored.meta.finalizers == [] then Written(objects - {key}, None)
      else Written(objects[key := stored], None)
  }

  /** Status().Update writes the status and nothing else. */
  function StoreStatusUpdate<Spec, Status>(objects: Objects<Spec, Status>, faults: StoreFaults, obj: KubeObject<Spec, Status>)
    : (w: Written<Spec, Status>)
    ensures w.err.None? <==> obj.meta.Key() in objects && !faults.statusUpdateFails
    ensures w.err.Some? ==> w.objects == objects
    ensures w.err.None? ==> w.objects == objects[obj.meta.Key() := objects[obj.meta.Key()].(status := obj.status)]
  {
    var key := obj.meta.Key();
    if key !in objects then Written(objects, Some(NotFound))
    else if faults.statusUpdateFails then Written(objects, Some(Conflict))
    else Written(objects[key := objects[key].(status := obj.status)], None)
  }

  /** The store as the reconcilers see it: one object per identity, with scripted faults. */
  class ObjectStore<Spec, Status> {
    var objects: Objects<Spec, Status>
    const faults: StoreFaults

    constructor (objects: Objects<Spec, Status>, faults: StoreFaults)
      ensures this.objects == objects && this.faults == faults
    {
      this.objects := objects;
      this.faults := faults;
    }

    method Get(key: NamespacedName) returns (r: Fetch<KubeObject<Spec, Status>>)
      ensures r == StoreGet(objects, faults, key)
    {
      r := StoreGet(objects, faults, key);
    }

    /** Update of `obj`, whose serialised spec the server's defaulting and validation turn
        into `admitted`. */
    method Update(obj: KubeObject<Spec, Status>, admitted: Result<Spec, AdmissionError>) returns (err: Option<StoreError>)
      modifies this
      ensures var w := StoreUpdate(old(objects), faults, obj, admitted); objects == w.objects && err == w.err
    {
      var w := StoreUpdate(objects, faults, obj, admitted);
      objects, err := w.objects, w.err;
    }

    method StatusUpdate(obj: KubeObject<Spec, Status>) returns (err: Option<StoreError>)
      modifies this
      ensures var w := StoreStatusUpdate(old(objects), faults, obj); objects == w.objects && err == w.err
    {
      var w := StoreStatusUpdate(objects, faults, obj);
      objects, err := w.objects, w.err;
    }
  }

  // ---------------------------------------------------------------------------
  // What a pass returns to the scheduler
  // ---------------------------------------------------------------------------

  /** ctrl.Result: no requeue, or requeue after a delay in seconds. */
  datatype Requeue = NoRequeue | RequeueAfter(seconds: nat)

  const Second: nat := 1
  const Minute: nat := 60

  datatype ReconcileResult<+E> = ReconcileResult(requeue: Requeue, err: Option<E>)

  // ---------------------------------------------------------------------------
  // Admission of a declarative object (defaults, then validation)
  // ---------------------------------------------------------------------------

  /** Why the API server rejects an object: a required field is missing, or a value is not
      in the field's enum. */
  datatype AdmissionError = MissingRequired(field: string) | NotInEnum(field: string, value: string)

  /** Admits every element of a list with `admit`, keeping order; the first rejection wins. */
  function AdmitEach<I, O>(xs: seq<I>, admit: I -> Result<O, AdmissionError>): (r: Result<seq<O>, AdmissionError>)
    ensures r.Ok? <==> forall i :: 0 <= i < |xs| ==> admit(xs[i]).Ok?
    ensures r.Ok? ==> |r.value| == |xs| && forall i :: 0 <= i < |xs| ==> admit(xs[i]) == Ok(r.value[i])
  {
    if xs == [] then Ok([])
    else match admit(xs[0])
      case Err(e) => Err(e)
      case Ok(y) =>
        match AdmitEach(xs[1..], admit)
        case Err(e) => Err(e)
        case Ok(ys) =>
          assert forall i :: 1 <= i < |xs| ==> xs[i] == xs[1..][i - 1];
          Ok([y] + ys)
  }
}
