/** The admission webhook for StorageClasses, and that it lets other users do no more than the
    controller can live with. */
module Webhook {
  import opened Calls
  import opened Kube
  import opened StorageClasses
  import opened StorageClassPass
  import opened StorageClassTheorems
  import opened StorageClassConvergence
  import opened StorageClassRuns

  const CONTROLLER_USER := "system:serviceaccount:d8-csi-ceph:controller"
  const MANAGED_PROVISIONERS: seq<string> := [CEPHFS_PROVISIONER, RBD_PROVISIONER]

  datatype Operation = Create | Update | Delete

  /** Panicked: the webhook dereferenced a nil allowVolumeExpansion and gave no answer. */
  datatype Verdict = Admitted | Denied | Panicked

  datatype Change = Changed | Unchanged | NilDereference

  function ChangedExceptAnnotations(prev: StorageClass, new_: StorageClass): Change {
    if prev.provisioner != new_.provisioner then Changed
    else if prev.bindingMode != new_.bindingMode then Changed
    else if prev.reclaimPolicy != new_.reclaimPolicy then Changed
    else if prev.parameters != new_.parameters then Changed
    else if prev.expansion.None? || new_.expansion.None? then NilDereference
    else if prev.expansion != new_.expansion then Changed
    else if prev.mountOptions != new_.mountOptions then Changed
    else if prev.topologies != new_.topologies then Changed
    else if (prev.name, prev.labels, prev.finalizers, prev.terminating) != (new_.name, new_.labels, new_.finalizers, new_.terminating)
      then Changed
    else Unchanged
  }

  /** `obj` is the new object, or the stored one for a delete; `prev` is the stored one. */
  function SCValidate(user: string, op: Operation, prev: StorageClass, obj: StorageClass): Verdict {
    if obj.provisioner !in MANAGED_PROVISIONERS then Admitted
    else if user == CONTROLLER_USER then Admitted
    else if op.Update? then
      match ChangedExceptAnnotations(prev, obj)
      case NilDereference => Verdict.Panicked
      case Unchanged => Admitted
      case Changed => Denied
    else Denied
  }

  /** All fields that the webhook compares before allowVolumeExpansion are the same, and one of the
      objects has no such value. */
  predicate Incomparable(prev: StorageClass, obj: StorageClass) {
    && prev.provisioner == obj.provisioner && prev.bindingMode == obj.bindingMode && prev.reclaimPolicy == obj.reclaimPolicy
    && prev.parameters == obj.parameters && (prev.expansion.None? || obj.expansion.None?)
  }

  /** The controller may do anything, and anybody may do anything with a class whose provisioner is
      not managed here. For other users the webhook admits an update exactly if the new object is of a provisioner it
      does not manage, whatever the stored one is, or if nothing but annotations changes, on a
      class that has an allowVolumeExpansion value; one without it makes it crash. So that a managed class is not handed over
      rests on the server, which lets nobody change the provisioner. */
  lemma AdmittedUpdates(user: string, prev: StorageClass, obj: StorageClass)
    ensures user == "system:serviceaccount:d8-csi-ceph:controller" || !AllowedProvisioner(obj.provisioner) ==>
      forall op :: SCValidate(user, op, prev, obj) == Admitted
    ensures user != "system:serviceaccount:d8-csi-ceph:controller" && AllowedProvisioner(obj.provisioner) ==>
      && SCValidate(user, Create, prev, obj) == Denied && SCValidate(user, Delete, prev, obj) == Denied
      && SCValidate(user, Update, prev, obj) ==
           if obj.(annotations := prev.annotations) == prev && prev.expansion.Some? then Admitted
           else if Incomparable(prev, obj) then Verdict.Panicked
           else Denied
  {
  }

  /** A request by a user other than the controller about one StorageClass. */
  datatype Request = Put(user: string, obj: StorageClass) | Remove(user: string)

  predicate ByOthers(r: Request) {
    r.user != CONTROLLER_USER
  }

  /** How the server keeps an object. */
  function Stored(sc: StorageClass): StorageClass {
    if sc.annotations == Some(map[]) then sc.(annotations := None) else sc
  }

  /** The server takes an update that changes neither name nor provisioner and that the webhook
      admits; no answer counts as a refusal. */
  function Handle(sc: Option<StorageClass>, r: Request): Option<StorageClass> {
    match (sc, r)
    case (None, Put(user, obj)) => if SCValidate(user, Create, obj, obj) == Admitted then Some(Stored(obj)) else None
    case (None, Remove(_)) => None
    case (Some(stored), Put(user, obj)) =>
      if obj.name == stored.name && obj.provisioner == stored.provisioner && SCValidate(user, Update, stored, obj) == Admitted
      then Some(Stored(obj)) else sc
    case (Some(stored), Remove(user)) =>
      if SCValidate(user, Delete, stored, stored) != Admitted then sc
      else if stored.finalizers == [] then None
      else Some(stored.(terminating := true))
  }

  function HandleAll(sc: Option<StorageClass>, requests: seq<Request>): Option<StorageClass>
    decreases |requests|
  {
    if requests == [] then sc else HandleAll(Handle(sc, requests[0]), requests[1..])
  }

  /** Whatever other users send about a class of an allowed provisioner, it stays there, and
      stays as it is but for annotations. */
  lemma {:induction false} OnlyAnnotationsChange(sc: StorageClass, requests: seq<Request>)
    requires AllowedProvisioner(sc.provisioner) && forall r :: r in requests ==> ByOthers(r)
    ensures var t := HandleAll(Some(sc), requests);
      t.Some? && t.value.(annotations := sc.annotations) == sc
    decreases |requests|
  {
    if requests != [] {
      assert ByOthers(requests[0]);
      OnlyAnnotationsChange(Handle(Some(sc), requests[0]).value, requests[1..]);
    }
  }

  /** And no class of an allowed provisioner appears by their doing. */
  lemma {:induction false} NothingManagedAppears(sc: Option<StorageClass>, requests: seq<Request>)
    requires sc.Some? ==> !AllowedProvisioner(sc.value.provisioner)
    requires forall r :: r in requests ==> ByOthers(r)
    ensures var t := HandleAll(sc, requests); t.Some? ==> !AllowedProvisioner(t.value.provisioner)
    decreases |requests|
  {
    if requests != [] {
      assert ByOthers(requests[0]);
      NothingManagedAppears(Handle(sc, requests[0]), requests[1..]);
    }
  }

  /** Webhook and controller agree: after any requests of others about a class that was as
      wanted, the controller finds no difference exactly if there still are annotations. */
  lemma WebhookAndControllerAgree(sc: StorageClass, requests: seq<Request>, ceph: CephStorageClass, cfg: Config, id: string)
    requires ValidSpec(ceph.spec) && Wanted(sc, ceph, cfg, id)
    requires forall r :: r in requests ==> ByOthers(r)
    ensures var t := HandleAll(Some(sc), requests);
      && t.Some?
      && !Unreadable(t.value, ceph) && t.value.provisioner == sc.provisioner
      && (Wanted(t.value, ceph, cfg, id) <==> t.value.annotations.Some?)
      && SCDiff(t.value, UpdateStorageClass(ceph, t.value, cfg, id)) == (if t.value.annotations.Some? then Same else Differs)
  {
    hide SCDiff, UpdateStorageClass, HandleAll;
    OnlyAnnotationsChange(sc, requests);
    DiffDecides(HandleAll(Some(sc), requests).value, ceph, cfg, id);
  }

  /** So annotation edits never cause a recreate of a class that is as wanted, and dropping all
      annotations does. */
  lemma OnlyDroppedAnnotationsRecreate(s: Store, cfg: Config, n: string, requests: seq<Request>)
    requires WellFormed(s) && Live(s, n) && Served(s, cfg, n) && forall r :: r in requests ==> ByOthers(r)
    ensures var sc := HandleAll(Some(s.scs[n]), requests);
      sc.Some? && (DueForRecreate(s.(scs := s.scs[n := sc.value]), cfg, n) <==> sc.value.annotations.None?)
  {
    hide HandleAll, SCDiff, UpdateStorageClass, VSCInPlace, KnownToHaveFailed, NewStatus, ValidSpec, Unreadable, Wanted;
    CephName(s, n);
    ServedNeedsNoRetry(s, cfg, n);
    var ceph := s.cephs[n];
    WantedIsServed(s.scs[n], ceph, cfg, s.clusterIDs[ceph.spec.connection]);
    WebhookAndControllerAgree(s.scs[n], requests, ceph, cfg, s.clusterIDs[ceph.spec.connection]);
    OnlyAnnotationsChange(s.scs[n], requests);
  }
}
