/**
 * Object metadata shared by every Kubernetes object of the model, and the
 * owner-reference operations of controller-runtime's controllerutil package
 * that the reconciler relies on (SetControllerReference and its helpers),
 * stated by their documented behaviour.
 */
module Meta {
  import opened Wrappers

  /** What a reconcile request carries: the parent's namespace and name. */
  datatype NamespacedName = NamespacedName(namespace: string, name: string)

  datatype TypeMeta = TypeMeta(kind: string, apiVersion: string)

  datatype GroupVersionKind = GroupVersionKind(group: string, version: string, kind: string)

  /** A back-reference from a child to an owner; at most one should have `controller` set. */
  datatype OwnerReference = OwnerReference(
    group: string, version: string, kind: string,
    name: string, uid: string,
    controller: bool, blockOwnerDeletion: bool)

  datatype ObjectMeta = ObjectMeta(
    name: string, namespace: string, uid: string,
    ownerReferences: seq<OwnerReference>)

  /**
   * The controller reference `metav1.NewControllerRef` builds for an owner of kind `gvk`:
   * it names the owner by group, version, kind, name and uid, and has both flags set.
   */
  function NewControllerRef(owner: ObjectMeta, gvk: GroupVersionKind): (r: OwnerReference)
    ensures r.controller && r.blockOwnerDeletion
    ensures r.group == gvk.group && r.version == gvk.version && r.kind == gvk.kind
    ensures r.name == owner.name && r.uid == owner.uid
  {
    OwnerReference(gvk.group, gvk.version, gvk.kind, owner.name, owner.uid, true, true)
  }

  /** Two references name the same owner when group, kind and name agree (version and uid do not matter). */
  predicate ReferSameObject(a: OwnerReference, b: OwnerReference)
  {
    a.group == b.group && a.kind == b.kind && a.name == b.name
  }

  /** `metav1.GetControllerOf`: the first reference whose controller flag is set. */
  function ControllerOf(refs: seq<OwnerReference>): (r: Option<OwnerReference>)
    ensures r.Some? ==> r.value in refs && r.value.controller
    ensures r.Some? ==> exists i | 0 <= i < |refs| :: refs[i] == r.value && forall j | 0 <= j < i :: !refs[j].controller
    ensures r.None? ==> forall i | 0 <= i < |refs| :: !refs[i].controller
  {
    if |refs| == 0 then None
    else if refs[0].controller then Some(refs[0])
    else
      var r := ControllerOf(refs[1..]);
      assert r.Some? ==> exists i | 0 <= i < |refs[1..]| :: refs[1..][i] == r.value && forall j | 0 <= j < i :: !refs[1..][j].controller;
      assert r.Some? ==> exists i | 1 <= i < |refs| :: refs[i] == r.value && forall j | 0 <= j < i :: !refs[j].controller by {
        if r.Some? {
          var i :| 0 <= i < |refs[1..]| && refs[1..][i] == r.value && forall j | 0 <= j < i :: !refs[1..][j].controller;
          assert refs[i + 1] == r.value && forall j | 0 <= j < i + 1 :: !refs[j].controller;
        }
      }
      r
  }

  /** The position of the first reference to the same owner as `ref`, if any. */
  function IndexOwnerRef(refs: seq<OwnerReference>, ref: OwnerReference): (r: Option<nat>)
    ensures r.Some? ==> r.value < |refs| && ReferSameObject(refs[r.value], ref)
    ensures r.Some? ==> forall j | 0 <= j < r.value :: !ReferSameObject(refs[j], ref)
    ensures r.None? ==> forall j | 0 <= j < |refs| :: !ReferSameObject(refs[j], ref)
  {
    if |refs| == 0 then None
    else if ReferSameObject(refs[0], ref) then Some(0)
    else match IndexOwnerRef(refs[1..], ref)
      case None => None
      case Some(k) => Some(k + 1)
  }

  /** Replace the first reference to the same owner by `ref`, or append `ref` when there is none. */
  function UpsertOwnerRef(refs: seq<OwnerReference>, ref: OwnerReference): (r: seq<OwnerReference>)
    ensures ref in r
    ensures |refs| <= |r| <= |refs| + 1
    ensures forall j | 0 <= j < |refs| && !ReferSameObject(refs[j], ref) :: r[j] == refs[j]
    ensures forall j | |refs| <= j < |r| :: r[j] == ref
    // appended exactly when no reference names the same owner; otherwise the first such one is replaced in place
    ensures IndexOwnerRef(refs, ref).None? <==> |r| == |refs| + 1
    ensures IndexOwnerRef(refs, ref).Some? ==>
      && r[IndexOwnerRef(refs, ref).value] == ref
      && forall j | 0 <= j < |refs| && j != IndexOwnerRef(refs, ref).value :: r[j] == refs[j]
  {
    match IndexOwnerRef(refs, ref)
    case None => refs + [ref]
    case Some(i) => assert refs[i := ref][i] == ref; refs[i := ref]
  }

  /**
   * `after` is `before` with `ref` put in: every reference to another owner
   * keeps its place, `ref` is present, and the list grows by one exactly when
   * no reference named `ref`'s owner.
   */
  predicate KeepsOthers(before: seq<OwnerReference>, after: seq<OwnerReference>, ref: OwnerReference)
  {
    && ref in after
    && |before| <= |after| <= |before| + 1
    && (|after| == |before| + 1 <==> forall j | 0 <= j < |before| :: !ReferSameObject(before[j], ref))
    && forall j | 0 <= j < |before| && !ReferSameObject(before[j], ref) :: after[j] == before[j]
  }

  /** True when some other owner already holds the controller reference. */
  predicate ControlledByOther(refs: seq<OwnerReference>, ref: OwnerReference)
  {
    ControllerOf(refs).Some? && !ReferSameObject(ControllerOf(refs).value, ref)
  }

  /**
   * `controllerutil.SetControllerReference`: make `owner` (of kind `gvk`) the controller of the
   * object described by `controlled`. Fails, returning the existing controller reference, when
   * another owner already controls the object.
   */
  function SetControllerReference(owner: ObjectMeta, gvk: GroupVersionKind, controlled: ObjectMeta)
    : (r: Result<ObjectMeta, OwnerReference>)
    ensures r.Failure? <==> ControlledByOther(controlled.ownerReferences, NewControllerRef(owner, gvk))
    ensures r.Failure? ==> r.error == ControllerOf(controlled.ownerReferences).value
    ensures r.Failure? ==> r.error in controlled.ownerReferences && r.error.controller
    ensures r.Success? ==>
      && r.value.name == controlled.name && r.value.namespace == controlled.namespace
      && r.value.uid == controlled.uid
      && ControllerOf(r.value.ownerReferences) == Some(NewControllerRef(owner, gvk))
    // references to other owners stay where they were; the list grows only when the owner had none
    ensures r.Success? ==> KeepsOthers(controlled.ownerReferences, r.value.ownerReferences, NewControllerRef(owner, gvk))
  {
    var ref := NewControllerRef(owner, gvk);
    var refs := controlled.ownerReferences;
    if ControlledByOther(refs, ref) then
      Failure(ControllerOf(refs).value)
    else
      UpsertTakesControl(refs, ref);
      Success(controlled.(ownerReferences := UpsertOwnerRef(refs, ref)))
  }

  /** Naming the same owner is an equivalence that disregards version, uid and both flags. */
  lemma ReferSameObjectEquivalence(a: OwnerReference, b: OwnerReference, c: OwnerReference)
    ensures ReferSameObject(a, a)
    ensures ReferSameObject(a, b) ==> ReferSameObject(b, a)
    ensures ReferSameObject(a, b) && ReferSameObject(b, c) ==> ReferSameObject(a, c)
    ensures ReferSameObject(a, b) <==>
      ReferSameObject(a.(version := b.version, uid := b.uid, controller := b.controller, blockOwnerDeletion := b.blockOwnerDeletion), b)
  {
  }

  /** After an upsert that no other controller blocks, `ref` is the controlled's controller. */
  lemma {:induction false} UpsertTakesControl(refs: seq<OwnerReference>, ref: OwnerReference)
    requires ref.controller
    requires !ControlledByOther(refs, ref)
    ensures ControllerOf(UpsertOwnerRef(refs, ref)) == Some(ref)
  {
    if |refs| == 0 {
      assert UpsertOwnerRef(refs, ref) == [ref];
    } else if ReferSameObject(refs[0], ref) {
      assert UpsertOwnerRef(refs, ref) == refs[0 := ref];
    } else {
      assert !refs[0].controller;
      assert ControllerOf(refs) == ControllerOf(refs[1..]);
      UpsertTakesControl(refs[1..], ref);
      UpsertCons(refs, ref);
      var u := UpsertOwnerRef(refs, ref);
      assert u[1..] == UpsertOwnerRef(refs[1..], ref);
    }
  }

  /** Upserting past a first reference to a different owner leaves that reference in front. */
  lemma UpsertCons(refs: seq<OwnerReference>, ref: OwnerReference)
    requires |refs| > 0 && !ReferSameObject(refs[0], ref)
    ensures UpsertOwnerRef(refs, ref) == [refs[0]] + UpsertOwnerRef(refs[1..], ref)
  {
    match IndexOwnerRef(refs[1..], ref)
    case None =>
    case Some(k) =>
      assert refs[k + 1 := ref] == [refs[0]] + refs[1..][k := ref];
  }

  /** Upserting the same reference twice is the same as upserting it once. */
  lemma UpsertIdempotent(refs: seq<OwnerReference>, ref: OwnerReference)
    ensures UpsertOwnerRef(UpsertOwnerRef(refs, ref), ref) == UpsertOwnerRef(refs, ref)
  {
    var u := UpsertOwnerRef(refs, ref);
    match IndexOwnerRef(refs, ref)
    case None =>
      assert ReferSameObject(u[|refs|], ref);
      assert forall j | 0 <= j < |refs| :: u[j] == refs[j];
    case Some(i) =>
      assert ReferSameObject(u[i], ref);
      assert forall j | 0 <= j < i :: u[j] == refs[j];
  }

  /** Setting the same controller twice changes nothing the second time. */
  lemma SetControllerReferenceIdempotent(owner: ObjectMeta, gvk: GroupVersionKind, controlled: ObjectMeta)
    requires SetControllerReference(owner, gvk, controlled).Success?
    ensures SetControllerReference(owner, gvk, SetControllerReference(owner, gvk, controlled).value)
         == SetControllerReference(owner, gvk, controlled)
  {
    UpsertIdempotent(controlled.ownerReferences, NewControllerRef(owner, gvk));
  }
}
