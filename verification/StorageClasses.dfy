/** StorageClasses, VolumeSnapshotClasses and the CephStorageClass they are made from: the
    functions that compute what the controller wants, and the server's store. */
module StorageClasses {
  import opened Kube
  import opened LabelPrefixes

  const CONTROLLER_NAME := "d8-ceph-storage-class-controller"
  const FINALIZER := "storage.deckhouse.io/ceph-storage-class-controller"
  const VSC_MANAGED_VALUE := "ceph-storage-class-controller"
  const SNAPSHOT_CLASS_ANNOTATION := "storage.deckhouse.io/volumesnapshotclass"
  const IMAGE_FEATURES := "layering,exclusive-lock,object-map,fast-diff"
  const LEGACY_MSGR_OPTION := "ms_mode=legacy"
  const IMMEDIATE := "Immediate"
  const RBD := "RBD"
  const CEPHFS := "CephFS"
  const READY := "Ready"
  const PHASE_CREATED := "Created"
  const PHASE_FAILED := "Failed"
  const REASON_RECONCILED := "Reconciled"
  const REASON_FAILED := "ReconcileFailed"
  const SAYS_CREATED := "Successfully created"
  const SAYS_UPDATED := "Successfully updated"
  const SAYS_RECONCILED := "Successfully reconciled"

  /** Reclaim policy and binding mode are set by server defaulting; expansion may be nil. The
      server keeps an empty annotation map as no annotations. */
  datatype StorageClass = StorageClass(
    name: string, labels: map<string, string>, annotations: Option<map<string, string>>,
    finalizers: seq<string>, terminating: bool, provisioner: string, reclaimPolicy: string,
    bindingMode: string, expansion: Option<bool>, parameters: map<string, string>,
    mountOptions: seq<string>, topologies: seq<string>)

  datatype SnapshotClass = SnapshotClass(
    name: string, labels: map<string, string>, annotations: Option<map<string, string>>,
    finalizers: seq<string>, terminating: bool, driver: string, deletionPolicy: string,
    parameters: map<string, string>)

  datatype ConditionStatus = True | False | Unknown
  datatype Condition = Condition(kind: string, status: ConditionStatus, generation: int, reason: string, message: string)
  datatype Status = Status(phase: string, observedGeneration: int, conditions: seq<Condition>, reason: string)

  datatype RbdSpec = RbdSpec(fsType: string, pool: string)
  datatype Spec = Spec(connection: string, reclaimPolicy: string, kind: string,
                       rbd: Option<RbdSpec>, fsName: Option<string>)
  datatype CephStorageClass = CephStorageClass(
    name: string, labels: map<string, string>, finalizers: seq<string>, terminating: bool,
    generation: int, spec: Spec, status: Option<Status>)

  /** The controller's settings: namespace, prefixes, whether messenger checksums are off, and
      whether the VolumeSnapshotClass CRD is there. */
  datatype Config = Config(namespace: string, ignoredPrefixes: seq<string>, crcDisabled: bool, snapshots: bool)

  // ---- Conditions, phase and retry ----

  function GetCondition(conds: seq<Condition>, kind: string): Option<Condition> {
    if conds == [] then None else if conds[0].kind == kind then Some(conds[0]) else GetCondition(conds[1..], kind)
  }

  function SetCondition(conds: seq<Condition>, c: Condition): seq<Condition> {
    if conds == [] then [c]
    else if conds[0].kind == c.kind then [c] + conds[1..]
    else [conds[0]] + SetCondition(conds[1..], c)
  }

  lemma {:induction false} GetAfterSet(conds: seq<Condition>, c: Condition, kind: string)
    ensures GetCondition(SetCondition(conds, c), kind) == if kind == c.kind then Some(c) else GetCondition(conds, kind)
  {
    if conds != [] {
      GetAfterSet(conds[1..], c, kind);
    }
  }

  lemma {:induction false} SetAgain(conds: seq<Condition>, c: Condition)
    ensures SetCondition(SetCondition(conds, c), c) == SetCondition(conds, c)
  {
    if conds != [] {
      SetAgain(conds[1..], c);
    }
  }

  function HasStatus(conds: seq<Condition>, kind: string, status: ConditionStatus): bool {
    GetCondition(conds, kind).Some? && GetCondition(conds, kind).value.status == status
  }

  function PhaseFromReady(conds: seq<Condition>): string {
    if HasStatus(conds, READY, True) then PHASE_CREATED else PHASE_FAILED
  }

  predicate ShouldRetryFailed(status: Option<Status>) {
    status.Some?
    && if GetCondition(status.value.conditions, READY).None? then status.value.phase == PHASE_FAILED
       else HasStatus(status.value.conditions, READY, False)
  }

  /** The last pass is known to have failed: the Ready condition says False or, on an object that has
      no such condition, the phase says Failed. Of several Ready conditions the first counts. */
  predicate KnownToHaveFailed(status: Option<Status>) {
    status.Some? &&
      var conds := status.value.conditions;
      || (&& status.value.phase == "Failed" && forall j :: 0 <= j < |conds| ==> conds[j].kind != "Ready")
      || (exists i :: 0 <= i < |conds| && FirstReady(conds, i) && conds[i].status == False)
  }

  predicate FirstReady(conds: seq<Condition>, i: nat) {
    i < |conds| && conds[i].kind == "Ready" && forall j :: 0 <= j < i ==> conds[j].kind != "Ready"
  }

  lemma {:induction false} ConditionFound(conds: seq<Condition>)
    ensures GetCondition(conds, READY).None? <==> forall j :: 0 <= j < |conds| ==> conds[j].kind != "Ready"
    ensures forall i: nat :: FirstReady(conds, i) ==> GetCondition(conds, READY) == Some(conds[i])
    ensures GetCondition(conds, READY).Some? ==> exists i: nat :: FirstReady(conds, i) && GetCondition(conds, READY) == Some(conds[i])
  {
    if conds != [] {
      if conds[0].kind == READY {
        assert FirstReady(conds, 0);
      } else {
        ConditionFound(conds[1..]);
        forall i: nat | FirstReady(conds, i) ensures i > 0 && FirstReady(conds[1..], i - 1) {
        }
        forall i: nat | FirstReady(conds[1..], i) ensures FirstReady(conds, i + 1) && conds[i + 1] == conds[1..][i] {
        }
      }
    }
  }

  lemma RetryDecides(status: Option<Status>)
    ensures ShouldRetryFailed(status) <==> KnownToHaveFailed(status)
  {
    if status.Some? {
      ConditionFound(status.value.conditions);
    }
  }

  /** The phase is Created exactly if the Ready condition says True; with Unknown, or none, it is Failed. */
  lemma PhaseDecides(conds: seq<Condition>)
    ensures PhaseFromReady(conds) ==
      if exists i: nat :: FirstReady(conds, i) && conds[i].status == True then "Created" else "Failed"
  {
    ConditionFound(conds);
  }

  predicate ShouldPublishStatus(terminating: bool, err: Error, requeue: bool) {
    !terminating || err != NoError || requeue
  }

  /** The text of the error, or what the pass says where there is none. */
  function ReadyCondition(generation: int, err: Error, text: string, msg: string): Condition {
    Condition(READY, if err == NoError then True else False, generation,
              if err == NoError then REASON_RECONCILED else REASON_FAILED, if text == "" then msg else text)
  }

  /** The status after a pass that ended with an error of this text (none: "") and said `msg`. */
  function NewStatus(prev: Option<Status>, generation: int, err: Error, text: string, msg: string): Status {
    var conds := SetCondition(if prev.Some? then prev.value.conditions else [], ReadyCondition(generation, err, text, msg));
    Status(PhaseFromReady(conds), generation, conds, msg)
  }

  /** A written status says Ready=True exactly after a pass without error, its phase is Created
      exactly then, it is about the reconciled generation, its condition carries the text of the
      error and its reason what the pass said, and only a failure asks for a retry. */
  lemma StatusTellsTheOutcome(prev: Option<Status>, generation: int, err: Error, text: string, msg: string)
    ensures var s := NewStatus(prev, generation, err, text, msg);
      && (HasStatus(s.conditions, READY, True) <==> err == NoError)
      && s.phase == (if err == NoError then "Created" else "Failed")
      && (KnownToHaveFailed(Some(s)) <==> err != NoError)
      && s.observedGeneration == generation
      && s.reason == msg
      && GetCondition(s.conditions, READY).Some?
      && GetCondition(s.conditions, READY).value.message == (if text == "" then msg else text)
      && GetCondition(s.conditions, READY).value.generation == generation
      && NewStatus(Some(s), generation, err, text, msg) == s
  {
    var c := ReadyCondition(generation, err, text, msg);
    var conds := if prev.Some? then prev.value.conditions else [];
    GetAfterSet(conds, c, READY);
    SetAgain(conds, c);
    RetryDecides(Some(NewStatus(prev, generation, err, text, msg)));
    hide KnownToHaveFailed;
  }

  // ---- What the controller wants ----

  predicate ValidSpec(spec: Spec) {
    && spec.connection != "" && spec.reclaimPolicy != ""
    && ((spec.kind == RBD && spec.rbd.Some? && spec.rbd.value.fsType != "" && spec.rbd.value.pool != "")
        || (spec.kind == CEPHFS && spec.fsName.Some? && spec.fsName.value != ""))
  }

  /** What the validation writes about a spec. */
  function Complaints(spec: Spec): string {
    FieldComplaints(spec) + TypeComplaints(spec)
  }

  function FieldComplaints(spec: Spec): string {
    (if spec.connection == "" then "the spec.clusterConnectionName field is empty; " else "")
    + (if spec.reclaimPolicy == "" then "the spec.reclaimPolicy field is empty; " else "")
    + (if spec.kind == "" then "the spec.type field is empty; " else "")
  }

  function TypeComplaints(spec: Spec): string {
    if spec.kind == RBD then
      if spec.rbd.None? then "CephStorageClass type is RBD but the spec.rbd field is empty; "
      else (if spec.rbd.value.fsType == "" then "the spec.rbd.defaultFSType field is empty; " else "")
           + (if spec.rbd.value.pool == "" then "the spec.rbd.pool field is empty; " else "")
    else if spec.kind == CEPHFS then
      if spec.fsName.None? then "CephStorageClass type is RBD but the spec.cephfs field is empty; "
      else if spec.fsName.value == "" then "the spec.cephfs.fsName field is empty; " else ""
    else "the spec.type field is not valid: " + spec.kind + ". Allowed values: RBD, CephFS"
  }

  /** Nothing is complained about exactly if the spec is valid. */
  lemma ComplaintsDecide(spec: Spec)
    ensures ValidSpec(spec) <==> Complaints(spec) == ""
  {
  }

  function Provisioner(kind: string): string {
    if kind == RBD then RBD_PROVISIONER else if kind == CEPHFS then CEPHFS_PROVISIONER else ""
  }

  function Parameters(spec: Spec, cfg: Config, clusterID: string): map<string, string>
    requires ValidSpec(spec)
  {
    var secret := CONNECTION_SECRET_PREFIX + spec.connection;
    var common := map[
      "clusterID" := clusterID,
      "csi.storage.k8s.io/provisioner-secret-name" := secret,
      "csi.storage.k8s.io/provisioner-secret-namespace" := cfg.namespace,
      "csi.storage.k8s.io/node-stage-secret-name" := secret,
      "csi.storage.k8s.io/node-stage-secret-namespace" := cfg.namespace,
      "csi.storage.k8s.io/controller-expand-secret-name" := secret,
      "csi.storage.k8s.io/controller-expand-secret-namespace" := cfg.namespace];
    if spec.kind == RBD then
      var rbd := common["imageFeatures" := IMAGE_FEATURES]["csi.storage.k8s.io/fstype" := spec.rbd.value.fsType]
                       ["pool" := spec.rbd.value.pool];
      if cfg.crcDisabled then rbd["mapOptions" := LEGACY_MSGR_OPTION] else rbd
    else
      var fs := common["fsName" := spec.fsName.value];
      if cfg.crcDisabled then fs["kernelMountOptions" := LEGACY_MSGR_OPTION] else fs
  }

  function ConfigureStorageClass(ceph: CephStorageClass, cfg: Config, clusterID: string): StorageClass
    requires ValidSpec(ceph.spec)
  {
    StorageClass(ceph.name, FilterLabels(ceph.labels, cfg.ignoredPrefixes)[MANAGED_LABEL := CONTROLLER_NAME],
                 Some(map[SNAPSHOT_CLASS_ANNOTATION := ceph.name]), [FINALIZER], false, Provisioner(ceph.spec.kind),
                 ceph.spec.reclaimPolicy, IMMEDIATE, Some(true), Parameters(ceph.spec, cfg, clusterID),
                 if ceph.spec.kind == RBD then ["discard"] else [], [])
  }

  /** What a StorageClass made by the controller says about the spec it was made from. */
  function SpecFrom(sc: StorageClass): Spec {
    var secret := Lookup(sc.parameters, "csi.storage.k8s.io/node-stage-secret-name");
    var connection := if |CONNECTION_SECRET_PREFIX| <= |secret| then secret[|CONNECTION_SECRET_PREFIX|..] else "";
    if sc.provisioner == RBD_PROVISIONER then
      Spec(connection, sc.reclaimPolicy, RBD,
           Some(RbdSpec(Lookup(sc.parameters, "csi.storage.k8s.io/fstype"), Lookup(sc.parameters, "pool"))), None)
    else Spec(connection, sc.reclaimPolicy, CEPHFS, None, Some(Lookup(sc.parameters, "fsName")))
  }

  /** The part of a spec that its kind uses. */
  function Relevant(spec: Spec): Spec {
    if spec.kind == RBD then spec.(fsName := None) else spec.(rbd := None)
  }

  /** The spec can be read off the StorageClass again, so that no two specs share one. */
  lemma SpecRoundTrip(ceph: CephStorageClass, cfg: Config, clusterID: string)
    requires ValidSpec(ceph.spec)
    ensures SpecFrom(ConfigureStorageClass(ceph, cfg, clusterID)) == Relevant(ceph.spec)
    ensures Lookup(ConfigureStorageClass(ceph, cfg, clusterID).parameters, "clusterID") == clusterID
  {
    var sc := ConfigureStorageClass(ceph, cfg, clusterID);
    assert Lookup(sc.parameters, "csi.storage.k8s.io/node-stage-secret-name") == CONNECTION_SECRET_PREFIX + ceph.spec.connection;
  }

  function UpdateStorageClass(ceph: CephStorageClass, prev: StorageClass, cfg: Config, clusterID: string): StorageClass
    requires ValidSpec(ceph.spec)
  {
    var sc := ConfigureStorageClass(ceph, cfg, clusterID);
    if prev.annotations.Some? then sc.(annotations := prev.annotations) else sc
  }

  datatype Diff = Same | Differs | OtherProvisioner | Panics

  /** The first difference decides; a nil allowVolumeExpansion is only hit if nothing before
      it differs. */
  function SCDiff(prev: StorageClass, new_: StorageClass): Diff {
    if prev.provisioner != new_.provisioner then OtherProvisioner
    else if prev.reclaimPolicy != new_.reclaimPolicy then Differs
    else if prev.bindingMode != new_.bindingMode then Differs
    else if prev.expansion.None? || new_.expansion.None? then Panics
    else if prev.expansion != new_.expansion then Differs
    else if prev.parameters != new_.parameters then Differs
    else if prev.mountOptions != new_.mountOptions then Differs
    else if prev.labels != new_.labels then Differs
    else if prev.annotations != new_.annotations then Differs
    else if prev.finalizers != new_.finalizers then Differs
    else Same
  }

  // ---- What the StorageClass has to be ----

  function WantedProvisioner(spec: Spec): string {
    if spec.kind == "RBD" then "rbd.csi.ceph.com" else "cephfs.csi.ceph.com"
  }

  /** Every parameter, and no other: cluster, the Secret of the connection for each CSI operation,
      what the type needs, and the messenger option if checksums are off. */
  predicate WantedParameters(params: map<string, string>, spec: Spec, cfg: Config, clusterID: string)
    requires ValidSpec(spec)
  {
    && (spec.kind == "RBD" ==>
      var own := CommonParameters(spec, cfg, clusterID)
        + map["imageFeatures" := "layering,exclusive-lock,object-map,fast-diff",
              "csi.storage.k8s.io/fstype" := spec.rbd.value.fsType, "pool" := spec.rbd.value.pool];
      params == if cfg.crcDisabled then own["mapOptions" := "ms_mode=legacy"] else own)
    && (spec.kind != "RBD" ==>
      var own := CommonParameters(spec, cfg, clusterID)["fsName" := spec.fsName.value];
      params == if cfg.crcDisabled then own["kernelMountOptions" := "ms_mode=legacy"] else own)
  }

  function CommonParameters(spec: Spec, cfg: Config, clusterID: string): map<string, string> {
    var secret := "csi-ceph-secret-for-" + spec.connection;
    map["clusterID" := clusterID,
        "csi.storage.k8s.io/provisioner-secret-name" := secret,
        "csi.storage.k8s.io/provisioner-secret-namespace" := cfg.namespace,
        "csi.storage.k8s.io/node-stage-secret-name" := secret,
        "csi.storage.k8s.io/node-stage-secret-namespace" := cfg.namespace,
        "csi.storage.k8s.io/controller-expand-secret-name" := secret,
        "csi.storage.k8s.io/controller-expand-secret-namespace" := cfg.namespace]
  }

  /** A label is copied unless a non-empty prefix in the settings starts its key; the one that marks the
      controller's classes is set. */
  predicate WantedLabels(labels: map<string, string>, src: map<string, string>, cfg: Config) {
    && "storage.deckhouse.io/managed-by" in labels
    && labels["storage.deckhouse.io/managed-by"] == "d8-ceph-storage-class-controller"
    && (forall k :: k in src && (forall p :: p in cfg.ignoredPrefixes && p != "" ==> !(p <= k)) ==> k in labels)
    && forall k :: k in labels && k != "storage.deckhouse.io/managed-by" ==>
      k in src && labels[k] == src[k] && forall p :: p in cfg.ignoredPrefixes && p != "" ==> !(p <= k)
  }

  /** Field by field: the StorageClass is what the CephStorageClass asks for. Annotations may be any,
      but not none. */
  predicate Wanted(sc: StorageClass, ceph: CephStorageClass, cfg: Config, clusterID: string)
    requires ValidSpec(ceph.spec)
  {
    && sc.provisioner == WantedProvisioner(ceph.spec)
    && sc.reclaimPolicy == ceph.spec.reclaimPolicy && sc.bindingMode == "Immediate" && sc.expansion == Some(true)
    && WantedParameters(sc.parameters, ceph.spec, cfg, clusterID)
    && sc.mountOptions == (if ceph.spec.kind == "RBD" then ["discard"] else [])
    && WantedLabels(sc.labels, ceph.labels, cfg)
    && sc.annotations.Some?
    && sc.finalizers == ["storage.deckhouse.io/ceph-storage-class-controller"]
  }

  /** The comparison reads allowVolumeExpansion, and there is none. */
  predicate Unreadable(sc: StorageClass, ceph: CephStorageClass) {
    sc.reclaimPolicy == ceph.spec.reclaimPolicy && sc.bindingMode == "Immediate" && sc.expansion.None?
  }

  lemma LabelsDecide(labels: map<string, string>, src: map<string, string>, cfg: Config)
    ensures labels == FilterLabels(src, cfg.ignoredPrefixes)[MANAGED_LABEL := CONTROLLER_NAME] <==> WantedLabels(labels, src, cfg)
  {
    var made := FilterLabels(src, cfg.ignoredPrefixes)[MANAGED_LABEL := CONTROLLER_NAME];
    forall k ensures IsIgnoredLabelKey(k, cfg.ignoredPrefixes) <==> exists p :: p in cfg.ignoredPrefixes && p != "" && p <= k {
      if IsIgnoredLabelKey(k, cfg.ignoredPrefixes) {
        var i :| 0 <= i < |cfg.ignoredPrefixes| && cfg.ignoredPrefixes[i] != "" && cfg.ignoredPrefixes[i] <= k;
        assert cfg.ignoredPrefixes[i] in cfg.ignoredPrefixes;
      }
    }
    if WantedLabels(labels, src, cfg) {
      hide IsIgnoredLabelKey;
      assert labels == made;
    }
  }

  lemma WantedIsAllowed(spec: Spec)
    ensures AllowedProvisioner(WantedProvisioner(spec))
  {
  }

  lemma ParametersDecide(params: map<string, string>, spec: Spec, cfg: Config, clusterID: string)
    requires ValidSpec(spec)
    ensures params == Parameters(spec, cfg, clusterID) <==> WantedParameters(params, spec, cfg, clusterID)
  {
    var common := CommonParameters(spec, cfg, clusterID);
    if spec.kind == RBD {
      var rbd := spec.rbd.value;
      Extended(common, "imageFeatures", IMAGE_FEATURES, "csi.storage.k8s.io/fstype", rbd.fsType, "pool", rbd.pool);
    }
  }

  lemma Extended(m: map<string, string>, a: string, x: string, b: string, y: string, c: string, z: string)
    ensures m + map[a := x, b := y, c := z] == m[a := x][b := y][c := z]
  {
  }

  /** The comparison finds no difference exactly if every field is as wanted. Another provisioner is an
      error, and a missing allowVolumeExpansion a crash unless something before it differs. */
  lemma DiffDecides(sc: StorageClass, ceph: CephStorageClass, cfg: Config, clusterID: string)
    requires ValidSpec(ceph.spec)
    ensures SCDiff(sc, UpdateStorageClass(ceph, sc, cfg, clusterID)) ==
      if sc.provisioner != WantedProvisioner(ceph.spec) then OtherProvisioner
      else if Wanted(sc, ceph, cfg, clusterID) then Same
      else if Unreadable(sc, ceph) then Panics
      else Differs
    ensures Wanted(sc, ceph, cfg, clusterID) ==> !Unreadable(sc, ceph)
  {
    hide Parameters, WantedParameters, FilterLabels, WantedLabels;
    ParametersDecide(sc.parameters, ceph.spec, cfg, clusterID);
    LabelsDecide(sc.labels, ceph.labels, cfg);
  }

  function SnapshotParameters(spec: Spec, cfg: Config, clusterID: string): map<string, string> {
    var params := map[
      "clusterID" := clusterID,
      "csi.storage.k8s.io/snapshotter-secret-name" := CONNECTION_SECRET_PREFIX + spec.connection,
      "csi.storage.k8s.io/snapshotter-secret-namespace" := cfg.namespace];
    if spec.kind == RBD then params["imageFeatures" := IMAGE_FEATURES] else params
  }

  function ConfigureSnapshotClass(prev: Option<SnapshotClass>, ceph: CephStorageClass, cfg: Config, clusterID: string): SnapshotClass {
    var managed := map[MANAGED_LABEL := VSC_MANAGED_VALUE];
    SnapshotClass(ceph.name, if prev.Some? then prev.value.labels + managed else managed,
                  if prev.Some? then prev.value.annotations else None, [FINALIZER], false,
                  Provisioner(ceph.spec.kind), ceph.spec.reclaimPolicy, SnapshotParameters(ceph.spec, cfg, clusterID))
  }

  /** StorageClass and snapshot class of one CephStorageClass speak of the same cluster, secret,
      driver and policy. */
  lemma ClassesAgree(ceph: CephStorageClass, prev: Option<SnapshotClass>, cfg: Config, clusterID: string)
    requires ValidSpec(ceph.spec)
    ensures var sc, vsc := ConfigureStorageClass(ceph, cfg, clusterID), ConfigureSnapshotClass(prev, ceph, cfg, clusterID);
      && vsc.name == sc.name && vsc.driver == sc.provisioner && vsc.deletionPolicy == sc.reclaimPolicy
      && Lookup(vsc.parameters, "clusterID") == Lookup(sc.parameters, "clusterID")
      && Lookup(vsc.parameters, "csi.storage.k8s.io/snapshotter-secret-name")
         == Lookup(sc.parameters, "csi.storage.k8s.io/provisioner-secret-name")
      && Lookup(vsc.parameters, "csi.storage.k8s.io/snapshotter-secret-namespace")
         == Lookup(sc.parameters, "csi.storage.k8s.io/provisioner-secret-namespace")
  {
    hide FilterLabels, Parameters, SnapshotParameters;
    ParametersSay(ceph.spec, cfg, clusterID);
    SnapshotParametersSay(ceph.spec, cfg, clusterID);
  }

  lemma ParametersSay(spec: Spec, cfg: Config, clusterID: string)
    requires ValidSpec(spec)
    ensures var params := Parameters(spec, cfg, clusterID);
      && Lookup(params, "clusterID") == clusterID
      && Lookup(params, "csi.storage.k8s.io/provisioner-secret-name") == CONNECTION_SECRET_PREFIX + spec.connection
      && Lookup(params, "csi.storage.k8s.io/provisioner-secret-namespace") == cfg.namespace
  {
  }

  lemma SnapshotParametersSay(spec: Spec, cfg: Config, clusterID: string)
    ensures var params := SnapshotParameters(spec, cfg, clusterID);
      && Lookup(params, "clusterID") == clusterID
      && Lookup(params, "csi.storage.k8s.io/snapshotter-secret-name") == CONNECTION_SECRET_PREFIX + spec.connection
      && Lookup(params, "csi.storage.k8s.io/snapshotter-secret-namespace") == cfg.namespace
  {
  }

  predicate SameSnapshotClass(a: SnapshotClass, b: SnapshotClass) {
    a.deletionPolicy == b.deletionPolicy && a.parameters == b.parameters && a.labels == b.labels && a.annotations == b.annotations
  }

  /** What the controller keeps of the snapshot class: policy, parameters, and the label that marks it. */
  predicate WantedSnapshots(vsc: SnapshotClass, spec: Spec, cfg: Config, clusterID: string) {
    && vsc.deletionPolicy == spec.reclaimPolicy
    && vsc.parameters ==
         map["clusterID" := clusterID,
             "csi.storage.k8s.io/snapshotter-secret-name" := "csi-ceph-secret-for-" + spec.connection,
             "csi.storage.k8s.io/snapshotter-secret-namespace" := cfg.namespace]
         + (if spec.kind == "RBD" then map["imageFeatures" := "layering,exclusive-lock,object-map,fast-diff"] else map[])
    && "storage.deckhouse.io/managed-by" in vsc.labels
    && vsc.labels["storage.deckhouse.io/managed-by"] == "ceph-storage-class-controller"
  }

  /** And what it writes when that is not so: driver and finalizer are set as well, other labels and
      the annotations are kept. */
  predicate MadeSnapshots(vsc: SnapshotClass, prev: Option<SnapshotClass>, ceph: CephStorageClass) {
    && vsc.name == ceph.name && vsc.driver == WantedProvisioner(ceph.spec)
    && vsc.finalizers == ["storage.deckhouse.io/ceph-storage-class-controller"]
    && vsc.labels.Keys == (if prev.Some? then prev.value.labels.Keys else {}) + {"storage.deckhouse.io/managed-by"}
    && (prev.Some? ==> forall k :: k in prev.value.labels && k != "storage.deckhouse.io/managed-by" ==> vsc.labels[k] == prev.value.labels[k])
    && vsc.annotations == if prev.Some? then prev.value.annotations else None
  }

  lemma SnapshotsDecide(prev: SnapshotClass, ceph: CephStorageClass, cfg: Config, clusterID: string)
    ensures SameSnapshotClass(prev, ConfigureSnapshotClass(Some(prev), ceph, cfg, clusterID)) <==>
      WantedSnapshots(prev, ceph.spec, cfg, clusterID)
  {
    var managed := map[MANAGED_LABEL := VSC_MANAGED_VALUE];
    assert prev.labels + managed == prev.labels[MANAGED_LABEL := VSC_MANAGED_VALUE];
    if WantedSnapshots(prev, ceph.spec, cfg, clusterID) {
      assert prev.labels[MANAGED_LABEL := VSC_MANAGED_VALUE] == prev.labels;
    } else if prev.labels + managed == prev.labels {
      assert MANAGED_LABEL in prev.labels && prev.labels[MANAGED_LABEL] == VSC_MANAGED_VALUE;
    }
  }

  lemma SnapshotsAreMade(prev: Option<SnapshotClass>, ceph: CephStorageClass, cfg: Config, clusterID: string)
    requires ValidSpec(ceph.spec)
    ensures var vsc := ConfigureSnapshotClass(prev, ceph, cfg, clusterID);
      WantedSnapshots(vsc, ceph.spec, cfg, clusterID) && MadeSnapshots(vsc, prev, ceph)
  {
  }

  /** The provisioners this module serves. */
  predicate AllowedProvisioner(p: string) {
    p == "rbd.csi.ceph.com" || p == "cephfs.csi.ceph.com"
  }
}
