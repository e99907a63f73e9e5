/** PersistentVolumes as the migration hooks see them. */
module Volumes {
  import opened Kube

  const RETAIN := "Retain"
  const PV_PROTECTION := "kubernetes.io/pv-protection"
  const DELETION_SECRET_NAMESPACE := "volume.kubernetes.io/provisioner-deletion-secret-namespace"
  const DELETION_SECRET_NAME := "volume.kubernetes.io/provisioner-deletion-secret-name"

  datatype SecretRef = SecretRef(namespace: string, name: string)

  /** `rest` holds every CSI field the hooks only copy (volume handle, attributes, ...). */
  datatype CSI = CSI(driver: string, expand: Option<SecretRef>, stage: Option<SecretRef>, rest: string)

  /** `uid` stands for the UID and creation timestamp, `rv` for the resource version; 0 means
      unset. `rest` holds every other field, which the hooks only copy. */
  datatype PV = PV(name: string, uid: nat, rv: nat, terminating: bool, finalizers: seq<string>,
                   annotations: Option<map<string, string>>, storageClass: string, policy: string,
                   csi: Option<CSI>, rest: string)

  function Annotations(pv: PV): map<string, string> {
    if pv.annotations.Some? then pv.annotations.value else map[]
  }

  /** A volume of the class under one of the two Ceph drivers. */
  predicate Eligible(pv: PV, scName: string) {
    && pv.csi.Some? && (pv.csi.value.driver == "rbd.csi.ceph.com" || pv.csi.value.driver == "cephfs.csi.ceph.com")
    && pv.storageClass == scName
  }

  predicate RefDiffers(ref: Option<SecretRef>, secret: string) {
    ref.Some? && ref.value != SecretRef("d8-csi-ceph", secret)
  }

  /** The immutable secret references name something else than the new secret. */
  predicate NeedsRecreate(pv: PV, secret: string) {
    pv.csi.Some? && (RefDiffers(pv.csi.value.expand, secret) || RefDiffers(pv.csi.value.stage, secret))
  }

  /** The annotations do not say that the new secret is the one to delete with. */
  predicate NeedsUpdate(pv: PV, secret: string) {
    || pv.annotations.None?
    || Lookup(pv.annotations.value, "volume.kubernetes.io/provisioner-deletion-secret-namespace") != "d8-csi-ceph"
    || Lookup(pv.annotations.value, "volume.kubernetes.io/provisioner-deletion-secret-name") != secret
  }

  /** Both references are set, so rewriting them cannot crash. */
  predicate BothRefs(pv: PV) {
    pv.csi.Some? && pv.csi.value.expand.Some? && pv.csi.value.stage.Some?
  }

  function Sanitize(pv: PV): PV {
    pv.(uid := 0, rv := 0, finalizers := [])
  }

  function Rewrite(pv: PV, secret: string): (r: PV)
    requires BothRefs(pv)
  {
    var ref := Some(SecretRef(MODULE_NAMESPACE, secret));
    pv.(uid := 0, rv := 0,
        csi := Some(pv.csi.value.(expand := ref, stage := ref)),
        annotations := Some(Annotations(pv)[DELETION_SECRET_NAMESPACE := MODULE_NAMESPACE]
                                           [DELETION_SECRET_NAME := secret]))
  }

  function DeletionKeys(): set<string> {
    {"volume.kubernetes.io/provisioner-deletion-secret-namespace", "volume.kubernetes.io/provisioner-deletion-secret-name"}
  }

  predicate SameRef(was: Option<SecretRef>, now: Option<SecretRef>, target: Option<string>) {
    now == was
    || (was.Some? && target.Some? && now == Some(SecretRef(MODULE_NAMESPACE, target.value)))
  }

  predicate SameEntry(was: map<string, string>, now: map<string, string>, key: string) {
    (key in was <==> key in now) && (key in was ==> now[key] == was[key])
  }

  /** `now` is the volume `was`: everything but the two secret references, the two deletion
      annotations, the finalizers and what the server assigns is the original value; the
      references and annotations are the original or the new ones; the reclaim policy is the
      original or Retain. */
  ghost predicate SameVolume(was: PV, now: PV, target: Option<string>) {
    && now.name == was.name && now.storageClass == was.storageClass && now.rest == was.rest
    && (now.policy == was.policy || now.policy == RETAIN)
    && (now.csi.Some? <==> was.csi.Some?)
    && (was.csi.Some? ==>
      && now.csi.value.driver == was.csi.value.driver
      && now.csi.value.rest == was.csi.value.rest
      && SameRef(was.csi.value.expand, now.csi.value.expand, target)
      && SameRef(was.csi.value.stage, now.csi.value.stage, target))
    && SameAnnotations(Annotations(was), Annotations(now), target)
  }

  ghost predicate SameAnnotations(was: map<string, string>, now: map<string, string>, target: Option<string>) {
    && (forall k :: k != DELETION_SECRET_NAMESPACE && k != DELETION_SECRET_NAME ==> SameEntry(was, now, k))
    && (SameEntry(was, now, DELETION_SECRET_NAMESPACE)
      || (target.Some? && Lookup(now, DELETION_SECRET_NAMESPACE) == MODULE_NAMESPACE))
    && (SameEntry(was, now, DELETION_SECRET_NAME)
      || (target.Some? && Lookup(now, DELETION_SECRET_NAME) == target.value))
  }

  /** Rewriting moves both references and both deletion annotations to the new secret, takes away
      what the server assigns, and changes nothing else. */
  lemma RewriteMigrates(was: PV, pv: PV, secret: string)
    requires BothRefs(pv) && SameVolume(was, pv, Some(secret))
    ensures !NeedsRecreate(Rewrite(pv, secret), secret) && !NeedsUpdate(Rewrite(pv, secret), secret)
    ensures SameVolume(was, Rewrite(pv, secret), Some(secret))
    ensures var r := Rewrite(pv, secret); var ref := Some(SecretRef("d8-csi-ceph", secret));
      && r == pv.(uid := 0, rv := 0, csi := r.csi, annotations := r.annotations)
      && r.csi == Some(CSI(pv.csi.value.driver, ref, ref, pv.csi.value.rest))
      && r.annotations.Some? && r.annotations.value.Keys == Annotations(pv).Keys + DeletionKeys()
      && forall k :: k in Annotations(pv) && k !in DeletionKeys() ==> r.annotations.value[k] == Annotations(pv)[k]
  {
    assert |DELETION_SECRET_NAME| != |DELETION_SECRET_NAMESPACE|;
    var before, now := Annotations(pv), Annotations(Rewrite(pv, secret));
    forall k | k != DELETION_SECRET_NAMESPACE && k != DELETION_SECRET_NAME
      ensures SameEntry(Annotations(was), now, k)
    {
      assert SameEntry(Annotations(was), before, k);
    }
  }
}
