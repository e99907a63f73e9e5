/** The API server as the migration hooks use it: the stored objects, the writes the hooks and
    the outside world make, when each write is allowed, and what every lawful run keeps. */
module MigrationStore {
  import opened Kube
  import opened Volumes
  import ClusterConfigs
  import LabelPrefixes

  const BACKUP_DATE_LABEL := "storage.deckhouse.io/backup-date"
  const BACKUP_SOURCE_LABEL := "storage.deckhouse.io/backup-source"
  const RESOURCE_KIND_LABEL := "storage.deckhouse.io/resource-kind"
  const RECREATED_LABEL := "storage.deckhouse.io/pv-recreated-successfully"
  const KIND_PV := "PersistentVolume"
  const MIGRATED_LABEL := "storage.deckhouse.io/migratedFromCephCSI"
  const MIGRATED_VALUE := "true"

  /** Encoding to JSON and base64 is taken to be invertible; Garbage is data that does not decode. */
  datatype Payload = Manifest(pv: PV) | Garbage
  datatype Backup = Backup(name: string, labels: map<string, string>, data: Payload)

  datatype FsClass = FsClass(postfix: string, pool: string, reclaimPolicy: string,
                             expansion: Option<bool>, mountOptions: seq<string>, fsName: string)
  datatype RbdClass = RbdClass(postfix: string, pool: string, reclaimPolicy: string,
                               expansion: Option<bool>, mountOptions: seq<string>, fsType: string)
  datatype CephFsSpec = CephFsSpec(subvolumeGroup: string, classes: seq<FsClass>)
  datatype Driver = Driver(name: string, labels: map<string, string>, clusterID: string,
                           userID: string, userKey: string, monitors: seq<string>,
                           cephfs: Option<CephFsSpec>, rbd: Option<seq<RbdClass>>)
  datatype Connection = Connection(name: string, labels: map<string, string>, spec: ClusterConfigs.Spec)
  datatype ClassSpec = Rbd(pool: string, fsType: string) | CephFs(fsName: string)
  datatype CephClass = CephClass(name: string, labels: map<string, string>, connection: string,
                                 spec: ClassSpec, reclaimPolicy: string)

  datatype Store = Store(pvs: map<string, PV>, backups: map<string, Backup>,
                         connections: map<string, Connection>, classes: map<string, CephClass>,
                         drivers: map<string, Driver>, clock: nat)

  /** What is fixed for a whole migration: the volumes there at the start, the secret each
      storage class moves to, the label of our backups, the connections and classes that were stored
      and the drivers that were labelled before the start, and whether anybody else creates volumes. */
  datatype World = World(orig: map<string, PV>, target: map<string, string>, source: string,
                         connections: set<string>, classes: set<string>, settled: set<string>, intruders: bool)

  function Target(w: World, sc: string): Option<string> {
    if sc in w.target then Some(w.target[sc]) else None
  }

  function ClassName(driver: string, postfix: string): string {
    driver + "-" + postfix
  }

  function ClassNames(d: Driver): seq<string> {
    (if d.cephfs.None? then []
     else seq(|d.cephfs.value.classes|, i requires 0 <= i < |d.cephfs.value.classes| => ClassName(d.name, d.cephfs.value.classes[i].postfix)))
    + (if d.rbd.None? then []
       else seq(|d.rbd.value|, i requires 0 <= i < |d.rbd.value| => ClassName(d.name, d.rbd.value[i].postfix)))
  }

  predicate IsMigrated(d: Driver) {
    Says(d.labels, "storage.deckhouse.io/migratedFromCephCSI", "true")
  }

  // ---- What the hook makes from a driver ----

  /** Field by field, the connection that the driver describes. */
  predicate OwnConnection(d: Driver, c: Connection) {
    && c.name == d.name && c.labels == map["storage.deckhouse.io/migratedFromCephCSI" := "true"]
    && c.spec.clusterID == d.clusterID && c.spec.monitors == d.monitors
    && c.spec.userID == d.userID && c.spec.userKey == d.userKey
    && c.spec.subvolumeGroup ==
         if d.cephfs.Some? && d.cephfs.value.subvolumeGroup != "" then Some(d.cephfs.value.subvolumeGroup) else None
  }

  /** What both kinds of classes have: name, connection and policy; the label of the migration; and a
      label each for the mount options and for volumes that must not grow, if the driver says so. */
  predicate OwnBasics(d: Driver, postfix: string, reclaimPolicy: string, mountOptions: seq<string>, labelled: bool,
                      expansion: Option<bool>, c: CephClass) {
    && c.name == d.name + "-" + postfix && c.connection == d.name && c.reclaimPolicy == reclaimPolicy
    && Says(c.labels, "storage.deckhouse.io/migratedFromCephCSI", "true")
    && ("storage.deckhouse.io/mount-options" in c.labels <==> labelled)
    && (labelled ==> c.labels["storage.deckhouse.io/mount-options"] == LabelPrefixes.Join(mountOptions))
    && ("storage.deckhouse.io/allow-volume-expansion" in c.labels <==> expansion == Some(false))
    && (expansion == Some(false) ==> c.labels["storage.deckhouse.io/allow-volume-expansion"] == "false")
    && c.labels.Keys <= {"storage.deckhouse.io/migratedFromCephCSI", "storage.deckhouse.io/mount-options",
                         "storage.deckhouse.io/allow-volume-expansion", "storage.deckhouse.io/cephfs-pool"}
  }

  predicate OwnFsClass(d: Driver, fs: FsClass, c: CephClass) {
    && OwnBasics(d, fs.postfix, fs.reclaimPolicy, fs.mountOptions, fs.mountOptions != [], fs.expansion, c)
    && c.spec == CephFs(fs.fsName)
    && ("storage.deckhouse.io/cephfs-pool" in c.labels <==> fs.pool != "")
    && (fs.pool != "" ==> c.labels["storage.deckhouse.io/cephfs-pool"] == fs.pool)
  }

  predicate OwnRbdClass(d: Driver, rbd: RbdClass, c: CephClass) {
    && OwnBasics(d, rbd.postfix, rbd.reclaimPolicy, rbd.mountOptions, rbd.mountOptions != [] && rbd.mountOptions != ["discard"],
                 rbd.expansion, c)
    && c.spec == Rbd(rbd.pool, rbd.fsType)
    && "storage.deckhouse.io/cephfs-pool" !in c.labels
  }

  /** The class is the one that the driver describes under its name. */
  ghost predicate OwnClass(d: Driver, c: CephClass) {
    && (d.cephfs.Some? ==> forall i :: 0 <= i < |d.cephfs.value.classes| ==>
          c.name == ClassName(d.name, d.cephfs.value.classes[i].postfix) ==> OwnFsClass(d, d.cephfs.value.classes[i], c))
    && (d.rbd.Some? ==> forall i :: 0 <= i < |d.rbd.value| ==>
          c.name == ClassName(d.name, d.rbd.value[i].postfix) ==> OwnRbdClass(d, d.rbd.value[i], c))
  }

  /** The driver with the label of the migration. */
  function Marked(d: Driver): Driver {
    d.(labels := d.labels["storage.deckhouse.io/migratedFromCephCSI" := "true"])
  }

  /** A backup of a volume that is labelled as not recreated. */
  predicate Outstanding(b: Backup, source: string) {
    && Says(b.labels, "storage.deckhouse.io/backup-source", source)
    && Says(b.labels, "storage.deckhouse.io/resource-kind", "PersistentVolume")
    && Says(b.labels, "storage.deckhouse.io/pv-recreated-successfully", "false")
  }

  predicate Says(labels: map<string, string>, key: string, value: string) {
    key in labels && labels[key] == value
  }

  /** Writes. The last two are made by the outside world: the pv-protection controller and
      somebody who creates volumes. */
  datatype Op =
    | CreateBackup(backup: Backup)
    | PutBackup(backup: Backup)
    | StripAndRetain(name: string)
    | Strip(name: string)
    | SetPolicy(name: string, policy: string)
    | DeletePV(name: string)
    | CreatePV(pv: PV)
    | PutPV(pv: PV)
    | CreateConnection(connection: Connection)
    | CreateClass(class_: CephClass)
    | PutDriver(driver: Driver)
    | Protect(name: string)
    | Intrude(pv: PV)

  /** How the server answers. */
  function Verdict(s: Store, op: Op): Error {
    match op
    case CreateBackup(b) => if b.name in s.backups then AlreadyExists else NoError
    case PutBackup(b) => if b.name in s.backups then NoError else NotFound
    case StripAndRetain(n) => if n in s.pvs then NoError else NotFound
    case Strip(n) => if n in s.pvs then NoError else NotFound
    case SetPolicy(n, _) => if n in s.pvs then NoError else NotFound
    case DeletePV(n) => if n in s.pvs then NoError else NotFound
    case CreatePV(pv) => Admit(s, pv)
    case PutPV(pv) =>
      if pv.name !in s.pvs then NotFound
      else if s.pvs[pv.name].rv != pv.rv then Conflict else NoError
    case CreateConnection(c) => if c.name in s.connections then AlreadyExists else NoError
    case CreateClass(c) => if c.name in s.classes then AlreadyExists else NoError
    case PutDriver(d) => if d.name in s.drivers then NoError else NotFound
    case Protect(n) =>
      if n in s.pvs && !s.pvs[n].terminating && PV_PROTECTION !in s.pvs[n].finalizers then NoError else NotFound
    case Intrude(pv) => Admit(s, pv)
  }

  function Admit(s: Store, pv: PV): Error {
    if pv.rv != 0 then Invalid else if pv.name in s.pvs then AlreadyExists else NoError
  }

  /** A write of `pv`: a terminating object goes away with its last finalizer. */
  function Written(s: Store, pv: PV): Store {
    s.(pvs := if pv.terminating && pv.finalizers == [] then s.pvs - {pv.name} else s.pvs[pv.name := pv.(rv := s.clock)],
       clock := s.clock + 1)
  }

  function Born(s: Store, pv: PV): Store {
    Written(s, pv.(uid := s.clock, terminating := false))
  }

  function Apply(s: Store, op: Op): Store {
    if Verdict(s, op) != NoError then s else
    match op
    case CreateBackup(b) => s.(backups := s.backups[b.name := b])
    case PutBackup(b) => s.(backups := s.backups[b.name := b])
    case StripAndRetain(n) => Written(s, s.pvs[n].(finalizers := [], policy := RETAIN))
    case Strip(n) => Written(s, s.pvs[n].(finalizers := []))
    case SetPolicy(n, p) => Written(s, s.pvs[n].(policy := p))
    case DeletePV(n) =>
      Written(s, s.pvs[n].(terminating := true))
    case CreatePV(pv) => Born(s, pv)
    case PutPV(pv) => Written(s, pv.(uid := s.pvs[pv.name].uid, terminating := s.pvs[pv.name].terminating))
    case CreateConnection(c) => s.(connections := s.connections[c.name := c])
    case CreateClass(c) => s.(classes := s.classes[c.name := c])
    case PutDriver(d) => s.(drivers := s.drivers[d.name := d])
    case Protect(n) => Written(s, s.pvs[n].(finalizers := s.pvs[n].finalizers + [PV_PROTECTION]))
    case Intrude(pv) => Born(s, pv)
  }

  function Replay(s: Store, log: seq<Op>): Store {
    if log == [] then s else Apply(Replay(s, log[..|log| - 1]), log[|log| - 1])
  }

  // ---- What a run keeps ----

  ghost predicate WellFormed(s: Store) {
    && (forall n :: n in s.pvs ==>
      && s.pvs[n].name == n && 0 < s.pvs[n].rv < s.clock
      && (s.pvs[n].terminating ==> s.pvs[n].finalizers != []))
    && (forall b :: b in s.backups ==> s.backups[b].name == b)
    && (forall d :: d in s.drivers ==> s.drivers[d].name == d)
    && (forall c :: c in s.connections ==> s.connections[c].name == c)
    && (forall c :: c in s.classes ==> s.classes[c].name == c)
    && 0 < s.clock
  }

  /** A backup labelled "false" from which volume n can be created again. */
  ghost predicate Holds(w: World, b: Backup, n: string) {
    Outstanding(b, w.source) && b.data.Manifest? && b.data.pv.name == n && b.data.pv.rv == 0
  }

  ghost predicate Pending(w: World, s: Store, n: string) {
    exists b :: b in s.backups && Holds(w, s.backups[b], n)
  }

  ghost predicate NothingLost(w: World, s: Store) {
    forall n :: n in w.orig ==> n in s.pvs || Pending(w, s, n)
  }

  ghost predicate Faithful(w: World, pv: PV) {
    pv.name in w.orig && SameVolume(w.orig[pv.name], pv, Target(w, w.orig[pv.name].storageClass))
  }

  ghost predicate OursWith(w: World, b: Backup) {
    BACKUP_SOURCE_LABEL in b.labels && b.labels[BACKUP_SOURCE_LABEL] == w.source && b.data.Manifest?
  }

  ghost predicate Conserved(w: World, s: Store) {
    && (forall n :: n in w.orig ==> w.orig[n].name == n)
    && (forall n :: n in s.pvs ==> Faithful(w, s.pvs[n]))
    && (forall b :: b in s.backups && OursWith(w, s.backups[b]) ==> Faithful(w, s.backups[b].data.pv))
  }

  /** The volume's class has a new secret, and a reference still names something else. */
  predicate MustMove(w: World, pv: PV) {
    pv.storageClass in w.target && NeedsRecreate(pv, w.target[pv.storageClass])
  }

  /** A backup from which the recovery would create its volume. */
  predicate Awaits(w: World, b: Backup) {
    Outstanding(b, w.source) && b.data.Manifest?
  }

  /** Backups are of volumes that had to move, and no volume has two of them outstanding. */
  ghost predicate BackupsSound(w: World, s: Store) {
    && (forall b :: b in s.backups && OursWith(w, s.backups[b]) ==> MustMove(w, s.backups[b].data.pv))
    && (forall a, b :: a in s.backups && b in s.backups && Awaits(w, s.backups[a]) && Awaits(w, s.backups[b]) ==>
          s.backups[a].data.pv.name == s.backups[b].data.pv.name ==> a == b)
  }

  /** Only the annotations of the volume are not those of its class's new secret. */
  predicate UpdateOnly(w: World, pv: PV) {
    && pv.storageClass in w.target && Eligible(pv, pv.storageClass)
    && !NeedsRecreate(pv, w.target[pv.storageClass]) && NeedsUpdate(pv, w.target[pv.storageClass])
  }

  /** The outside world may change the volume under an update: it can still be protected. */
  predicate Exposed(w: World, pv: PV) {
    UpdateOnly(w, pv) && !pv.terminating && PV_PROTECTION !in pv.finalizers
  }

  ghost function Exposures(w: World, s: Store): set<string> {
    set n | n in s.pvs && Exposed(w, s.pvs[n])
  }

  /** Volume n is in the store and all its set references name the new secret. */
  ghost predicate Moved(w: World, s: Store, n: string) {
    n in s.pvs && s.pvs[n].storageClass in w.target && !NeedsRecreate(s.pvs[n], w.target[s.pvs[n].storageClass])
  }

  /** So for every original volume of the class under one of the two Ceph drivers. */
  ghost predicate ClassMoved(w: World, s: Store, c: string) {
    forall n :: n in w.orig && CephVolume(w.orig[n]) && w.orig[n].storageClass == c ==> Moved(w, s, n)
  }

  predicate CephVolume(pv: PV) {
    pv.csi.Some? && (pv.csi.value.driver == "rbd.csi.ceph.com" || pv.csi.value.driver == "cephfs.csi.ceph.com")
  }

  /** Connections and classes that were not stored before the start have been made from a driver,
      and say what it says. */
  ghost predicate PlanIsOwn(w: World, s: Store) {
    && (forall c :: c in s.connections && c !in w.connections ==> c in s.drivers && OwnConnection(s.drivers[c], s.connections[c]))
    && (forall c :: c in s.classes && c !in w.classes ==>
          && (exists d :: d in s.drivers && c in ClassNames(s.drivers[d]))
          && (forall d :: d in s.drivers && c in ClassNames(s.drivers[d]) ==> OwnClass(s.drivers[d], s.classes[c])))
  }

  /** What the migrated label promises: the connection of the driver and all its classes are there, and
      are the driver's own unless they were there before the start, and the volumes are moved. */
  ghost predicate DriverDone(w: World, s: Store, d: Driver) {
    && d.name in s.connections && (d.name !in w.connections ==> OwnConnection(d, s.connections[d.name]))
    && forall c :: c in ClassNames(d) ==>
      c in s.classes && (c !in w.classes ==> OwnClass(d, s.classes[c])) && ClassMoved(w, s, c)
  }

  ghost predicate LabelsTruthful(w: World, s: Store) {
    forall d :: d in s.drivers && d !in w.settled && IsMigrated(s.drivers[d]) ==> DriverDone(w, s, s.drivers[d])
  }

  ghost predicate Inv(w: World, s: Store) {
    && WellFormed(s)
    && NothingLost(w, s)
    && PlanIsOwn(w, s)
    && (!w.intruders ==> Conserved(w, s) && LabelsTruthful(w, s) && BackupsSound(w, s))
  }

  // ---- When a write is allowed ----

  /** Destroying n: a backup labelled "false" can bring it back, and (nobody else creating
      volumes) the volume really has to move. */
  ghost predicate MayDestroy(w: World, s: Store, n: string) {
    && Pending(w, s, n)
    && (!w.intruders && n in s.pvs ==> MustMove(w, s.pvs[n]))
  }

  /** No other backup of the volume is outstanding. */
  ghost predicate OnlyBackup(w: World, s: Store, b: Backup) {
    b.data.Manifest? ==>
      forall k :: k in s.backups && k != b.name && Awaits(w, s.backups[k]) ==> s.backups[k].data.pv.name != b.data.pv.name
  }

  ghost predicate Relabelled(s: Store, b: Backup) {
    && b.name in s.backups && RECREATED_LABEL in b.labels
    && b == s.backups[b.name].(labels := s.backups[b.name].labels[RECREATED_LABEL := b.labels[RECREATED_LABEL]])
    && (b.labels[RECREATED_LABEL] == "false" || (b.data.Manifest? ==> b.data.pv.name in s.pvs))
  }

  ghost predicate Guard(w: World, s: Store, op: Op) {
    match op
    case CreateBackup(b) =>
      && OursWith(w, b) && b.data.pv.rv == 0 && RECREATED_LABEL !in b.labels
      && (!w.intruders ==> Faithful(w, b.data.pv) && MustMove(w, b.data.pv))
    case PutBackup(b) => Relabelled(s, b) && (!w.intruders && b.labels[RECREATED_LABEL] == "false" ==> OnlyBackup(w, s, b))
    case StripAndRetain(n) => MayDestroy(w, s, n)
    case Strip(n) => MayDestroy(w, s, n)
    case SetPolicy(n, p) => !w.intruders && n in s.pvs ==> p == RETAIN || (n in w.orig && p == w.orig[n].policy)
    case DeletePV(n) => MayDestroy(w, s, n) && (!w.intruders && n in s.pvs ==> s.pvs[n].policy == RETAIN)
    case CreatePV(pv) => !w.intruders ==> Faithful(w, pv) && !UpdateOnly(w, pv)
    case PutPV(pv) =>
      && pv.name in s.pvs && pv.rv < s.clock
      && (s.pvs[pv.name].rv == pv.rv ==>
        pv.(annotations := s.pvs[pv.name].annotations) == s.pvs[pv.name] && Annotations(pv) == Annotations(s.pvs[pv.name]))
    case CreateConnection(c) => c.name in s.drivers && OwnConnection(s.drivers[c.name], c)
    case CreateClass(c) =>
      && (exists d :: d in s.drivers && c.name in ClassNames(s.drivers[d]))
      && forall d :: d in s.drivers && c.name in ClassNames(s.drivers[d]) ==> OwnClass(s.drivers[d], c)
    case PutDriver(d) => d.name in s.drivers && d == Marked(s.drivers[d.name]) && (!w.intruders ==> DriverDone(w, s, d))
    case Protect(_) => true
    case Intrude(_) => w.intruders
  }

  /** A write of the outside world. */
  predicate ByWorld(op: Op) {
    op.Protect? || op.Intrude?
  }

  /** The last write of the hook set volume n to Retain and took its finalizers. */
  ghost predicate Patched(s: Store, log: seq<Op>, n: string) {
    exists j :: 0 <= j < |log| && PatchedAt(s, log, n, j)
  }

  ghost predicate PatchedAt(s: Store, log: seq<Op>, n: string, j: nat)
    requires j < |log|
  {
    && log[j] == StripAndRetain(n) && n in Replay(s, log[..j]).pvs
    && forall x :: j < x < |log| ==> ByWorld(log[x])
  }

  /** Every write of the log was allowed when it was made, and every delete followed on its patch. */
  ghost predicate Lawful(w: World, s: Store, log: seq<Op>) {
    forall i | 0 <= i < |log| :: LawfulAt(w, s, log[..i], log[i])
  }

  ghost predicate LawfulAt(w: World, s: Store, log: seq<Op>, op: Op) {
    Guard(w, Replay(s, log), op) && (op.DeletePV? ==> Patched(s, log, op.name))
  }

  /** Connections and classes stay as they are; drivers, too, but for the label of the migration. */
  ghost predicate PlanGrows(s: Store, t: Store) {
    && (forall c :: c in s.connections ==> c in t.connections && t.connections[c] == s.connections[c])
    && (forall c :: c in s.classes ==> c in t.classes && t.classes[c] == s.classes[c])
    && s.drivers.Keys == t.drivers.Keys
    && (forall d :: d in s.drivers ==> t.drivers[d] == s.drivers[d] || t.drivers[d] == Marked(s.drivers[d]))
  }

  /** What only grows: moved volumes stay moved, connections and classes stay; and what only
      shrinks: the volumes that can still be protected under an update. */
  ghost predicate Onward(w: World, s: Store, t: Store) {
    && PlanGrows(s, t)
    && s.clock <= t.clock
    && (!w.intruders ==> (forall n :: Moved(w, s, n) ==> Moved(w, t, n)) && Exposures(w, t) <= Exposures(w, s))
  }

  // ---- One step ----

  /** The volume a write changes, and what becomes of it (None: it goes away). */
  function Rewritten(s: Store, op: Op): Option<(string, Option<PV>)> {
    if Verdict(s, op) != NoError then None else
    match op
    case StripAndRetain(n) => Some((n, Kept(s, s.pvs[n].(finalizers := [], policy := RETAIN))))
    case Strip(n) => Some((n, Kept(s, s.pvs[n].(finalizers := []))))
    case SetPolicy(n, p) => Some((n, Kept(s, s.pvs[n].(policy := p))))
    case DeletePV(n) => Some((n, Kept(s, s.pvs[n].(terminating := true))))
    case CreatePV(pv) => Some((pv.name, Kept(s, pv.(uid := s.clock, terminating := false))))
    case PutPV(pv) => Some((pv.name, Kept(s, pv.(uid := s.pvs[pv.name].uid, terminating := s.pvs[pv.name].terminating))))
    case Protect(n) => Some((n, Kept(s, s.pvs[n].(finalizers := s.pvs[n].finalizers + [PV_PROTECTION]))))
    case Intrude(pv) => Some((pv.name, Kept(s, pv.(uid := s.clock, terminating := false))))
    case _ => None
  }

  function Kept(s: Store, pv: PV): Option<PV> {
    if pv.terminating && pv.finalizers == [] then None else Some(pv.(rv := s.clock))
  }

  ghost predicate VolumesChange(s: Store, t: Store, change: Option<(string, Option<PV>)>) {
    match change
    case None => t.pvs == s.pvs && t.clock == s.clock
    case Some((n, None)) => t.pvs == s.pvs - {n} && t.clock == s.clock + 1 && Others(s, t)
    case Some((n, Some(pv))) => t.pvs == s.pvs[n := pv] && t.clock == s.clock + 1 && Others(s, t)
  }

  ghost predicate Others(s: Store, t: Store) {
    t.backups == s.backups && t.connections == s.connections && t.classes == s.classes && t.drivers == s.drivers
  }

  predicate WritesVolume(op: Op) {
    !op.CreateBackup? && !op.PutBackup? && !op.CreateConnection? && !op.CreateClass? && !op.PutDriver?
  }

  lemma WrittenIsKept(s: Store, pv: PV)
    ensures VolumesChange(s, Written(s, pv), Some((pv.name, Kept(s, pv))))
  {
  }

  lemma ApplyChanges(w: World, s: Store, op: Op)
    requires WellFormed(s)
    ensures VolumesChange(s, Apply(s, op), Rewritten(s, op))
  {
    hide Written, Kept, VolumesChange;
    if Verdict(s, op) == NoError && WritesVolume(op) {
      match op
      case StripAndRetain(n) => WrittenIsKept(s, s.pvs[n].(finalizers := [], policy := RETAIN));
      case Strip(n) => WrittenIsKept(s, s.pvs[n].(finalizers := []));
      case SetPolicy(n, p) => WrittenIsKept(s, s.pvs[n].(policy := p));
      case DeletePV(n) => WrittenIsKept(s, s.pvs[n].(terminating := true));
      case CreatePV(pv) => WrittenIsKept(s, pv.(uid := s.clock, terminating := false));
      case PutPV(pv) => WrittenIsKept(s, pv.(uid := s.pvs[pv.name].uid, terminating := s.pvs[pv.name].terminating));
      case Protect(n) => WrittenIsKept(s, s.pvs[n].(finalizers := s.pvs[n].finalizers + [PV_PROTECTION]));
      case Intrude(pv) => WrittenIsKept(s, pv.(uid := s.clock, terminating := false));
    } else {
      NothingWritten(s, op);
    }
  }

  lemma NothingWritten(s: Store, op: Op)
    requires Verdict(s, op) != NoError || !WritesVolume(op)
    ensures Rewritten(s, op) == None && VolumesChange(s, Apply(s, op), None)
  {
  }

  lemma ChangeIsWellFormed(s: Store, op: Op, n: string, pv: PV)
    requires WellFormed(s) && Rewritten(s, op) == Some((n, Some(pv)))
    ensures pv.name == n && pv.rv == s.clock && (pv.terminating ==> pv.finalizers != [])
  {
  }

  lemma VolumeWritesOnly(s: Store, op: Op)
    ensures WritesVolume(op) ==> Others(s, Apply(s, op))
  {
  }

  /** Names stay right; connections, classes and labels only grow. */
  ghost predicate OthersGrow(s: Store, t: Store) {
    (forall b :: b in t.backups ==> t.backups[b].name == b) && PlanNamed(t) && PlanGrows(s, t)
  }

  ghost predicate PlanNamed(t: Store) {
    && (forall d :: d in t.drivers ==> t.drivers[d].name == d)
    && (forall c :: c in t.connections ==> t.connections[c].name == c)
    && (forall c :: c in t.classes ==> t.classes[c].name == c)
  }

  lemma OthersStep(w: World, s: Store, op: Op)
    requires WellFormed(s) && Guard(w, s, op)
    ensures OthersGrow(s, Apply(s, op))
  {
    hide MayDestroy, DriverDone, Faithful, OursWith, OnlyBackup, UpdateOnly, PlanGrows, PlanNamed, OwnConnection, OwnClass, ClassNames;
    PlanStep(w, s, op);
    if WritesVolume(op) {
      hide Apply, Guard;
      VolumeWritesOnly(s, op);
    }
  }

  lemma PlanStep(w: World, s: Store, op: Op)
    requires WellFormed(s) && Guard(w, s, op)
    ensures PlanGrows(s, Apply(s, op)) && PlanNamed(Apply(s, op))
  {
    hide Guard, Apply;
    if op.PutDriver? {
      LabelGrows(w, s, op.driver);
    } else {
      OthersAdd(s, op);
    }
  }

  lemma LabelGrows(w: World, s: Store, d: Driver)
    requires WellFormed(s) && Guard(w, s, PutDriver(d))
    ensures PlanGrows(s, Apply(s, PutDriver(d))) && PlanNamed(Apply(s, PutDriver(d)))
  {
    hide DriverDone, Marked, ClassNames, OwnClass, OwnConnection;
    MarkedIsSame(s.drivers[d.name]);
    var t := Apply(s, PutDriver(d));
    assert t.drivers == s.drivers[d.name := d] && t.connections == s.connections && t.classes == s.classes;
    hide Apply, IsMigrated;
  }

  /** The label changes nothing that a connection or a class is made from. */
  lemma MarkedIsSame(d: Driver)
    ensures Marked(d).name == d.name && ClassNames(Marked(d)) == ClassNames(d) && IsMigrated(Marked(d)) && Marked(Marked(d)) == Marked(d)
    ensures Marked(d).(labels := d.labels) == d
    ensures forall c :: OwnConnection(Marked(d), c) <==> OwnConnection(d, c)
    ensures forall c :: OwnClass(Marked(d), c) <==> OwnClass(d, c)
  {
    assert Marked(Marked(d)).labels == Marked(d).labels;
    hide OwnBasics;
    forall c ensures OwnClass(Marked(d), c) <==> OwnClass(d, c) {
      OwnOfMarked(d, c);
    }
  }

  lemma OwnOfMarked(d: Driver, c: CephClass)
    ensures forall fs :: OwnFsClass(Marked(d), fs, c) <==> OwnFsClass(d, fs, c)
    ensures forall rbd :: OwnRbdClass(Marked(d), rbd, c) <==> OwnRbdClass(d, rbd, c)
    ensures OwnClass(Marked(d), c) <==> OwnClass(d, c)
  {
    hide LabelPrefixes.Join;
  }

  lemma OthersAdd(s: Store, op: Op)
    requires !op.PutDriver?
    ensures var t := Apply(s, op);
      && t.drivers == s.drivers
      && (t.connections == s.connections
          || (op.CreateConnection? && op.connection.name !in s.connections
              && t.connections == s.connections[op.connection.name := op.connection]))
      && (t.classes == s.classes
          || (op.CreateClass? && op.class_.name !in s.classes && t.classes == s.classes[op.class_.name := op.class_]))
  {
    if WritesVolume(op) {
      VolumeWritesOnly(s, op);
    }
  }

  lemma WellFormedStep(w: World, s: Store, op: Op)
    requires WellFormed(s) && Guard(w, s, op)
    ensures WellFormed(Apply(s, op))
  {
    hide Guard, Apply;
    ApplyChanges(w, s, op);
    OthersStep(w, s, op);
    match Rewritten(s, op) {
      case None =>
      case Some((n, None)) =>
      case Some((n, Some(pv))) => ChangeIsWellFormed(s, op, n, pv);
    }
  }

  lemma BackupsStay(w: World, s: Store, op: Op, b: string, n: string)
    requires Inv(w, s) && Guard(w, s, op)
    requires b in s.backups && Holds(w, s.backups[b], n)
    ensures n in s.pvs || Pending(w, Apply(s, op), n)
    ensures !op.PutBackup? ==> Pending(w, Apply(s, op), n)
  {
    hide Conserved, LabelsTruthful, BackupsSound, PlanIsOwn, NothingLost, MayDestroy, DriverDone, Faithful, OursWith, OnlyBackup, UpdateOnly;
    var t := Apply(s, op);
    ApplyChanges(w, s, op);
    if op.PutBackup? && op.backup.name == b {
      if op.backup.labels[RECREATED_LABEL] == "false" {
        assert Holds(w, t.backups[b], n);
      }
    } else {
      assert b in t.backups && t.backups[b] == s.backups[b];
    }
  }

  lemma NothingLostStep(w: World, s: Store, op: Op)
    requires Inv(w, s) && Guard(w, s, op)
    ensures NothingLost(w, Apply(s, op))
  {
    var t := Apply(s, op);
    ApplyChanges(w, s, op);
    forall n | n in w.orig ensures n in t.pvs || Pending(w, t, n) {
      if Pending(w, s, n) {
        var b :| b in s.backups && Holds(w, s.backups[b], n);
        BackupsStay(w, s, op, b, n);
      }
      RemovalIsGuarded(w, s, op, n);
    }
  }

  lemma RemovalIsGuarded(w: World, s: Store, op: Op, n: string)
    requires Inv(w, s) && Guard(w, s, op)
    ensures n in s.pvs && n !in Apply(s, op).pvs ==>
      MayDestroy(w, s, n) && (op == StripAndRetain(n) || op == Strip(n) || op == DeletePV(n))
    ensures n in s.pvs && n !in Apply(s, op).pvs && !w.intruders ==> s.pvs[n].policy == RETAIN || s.pvs[n].terminating
  {
    hide Conserved, LabelsTruthful, BackupsSound, PlanIsOwn, NothingLost, MayDestroy, DriverDone, Faithful, OursWith, OnlyBackup, UpdateOnly;
    ApplyChanges(w, s, op);
  }

  /** A write leaves the secret references and the class of a stored volume alone. */
  lemma ChangeKeepsRefs(w: World, s: Store, op: Op, n: string, pv: PV)
    requires WellFormed(s) && Guard(w, s, op) && Rewritten(s, op) == Some((n, Some(pv))) && n in s.pvs
    ensures pv.csi == s.pvs[n].csi && pv.storageClass == s.pvs[n].storageClass
  {
    hide MayDestroy, DriverDone, Faithful, OursWith, Relabelled, OnlyBackup, UpdateOnly;
  }

  /** What a write leaves of the volume it is about: all that conservation is about, but for the
      policy, which it may set to Retain or to the original one. */
  predicate KeepsContent(was: PV, now: PV) {
    && now.name == was.name && now.storageClass == was.storageClass && now.rest == was.rest && now.csi == was.csi
    && Annotations(now) == Annotations(was)
  }

  predicate PolicyStays(w: World, was: PV, now: PV) {
    now.policy == was.policy || now.policy == RETAIN || (was.name in w.orig && now.policy == w.orig[was.name].policy)
  }

  lemma PatchKeepsContent(w: World, s: Store, op: Op, n: string, pv: PV)
    requires WellFormed(s) && Guard(w, s, op) && !w.intruders && Rewritten(s, op) == Some((n, Some(pv)))
    requires !op.CreatePV? && !op.Intrude? && !op.PutPV?
    ensures n in s.pvs && KeepsContent(s.pvs[n], pv) && PolicyStays(w, s.pvs[n], pv)
  {
    hide MayDestroy, DriverDone, OursWith, Relabelled, OnlyBackup, UpdateOnly, MustMove, Faithful;
  }

  lemma UpdateKeepsContent(w: World, s: Store, put: PV, n: string, pv: PV)
    requires Guard(w, s, PutPV(put)) && Rewritten(s, PutPV(put)) == Some((n, Some(pv)))
    ensures n in s.pvs && KeepsContent(s.pvs[n], pv) && PolicyStays(w, s.pvs[n], pv)
  {
  }

  lemma SameContentIsFaithful(w: World, was: PV, now: PV)
    requires Faithful(w, was) && KeepsContent(was, now) && PolicyStays(w, was, now)
    ensures Faithful(w, now)
  {
    hide SameAnnotations, SameRef;
  }

  lemma ChangeIsFaithful(w: World, s: Store, op: Op, n: string, pv: PV)
    requires WellFormed(s) && Conserved(w, s) && Guard(w, s, op) && !w.intruders
    requires Rewritten(s, op) == Some((n, Some(pv)))
    ensures Faithful(w, pv)
  {
    hide Faithful, KeepsContent, PolicyStays, Rewritten, Guard;
    NobodyIntrudes(w, s, op);
    if op.CreatePV? {
      CreatedIsFaithful(w, s, op.pv, n, pv);
    } else {
      if op.PutPV? {
        UpdateKeepsContent(w, s, op.pv, n, pv);
      } else {
        PatchKeepsContent(w, s, op, n, pv);
      }
      SameContentIsFaithful(w, s.pvs[n], pv);
    }
  }

  lemma NobodyIntrudes(w: World, s: Store, op: Op)
    requires Guard(w, s, op)
    ensures op.Intrude? ==> w.intruders
  {
  }

  lemma CreatedIsFaithful(w: World, s: Store, new_: PV, n: string, pv: PV)
    requires Guard(w, s, CreatePV(new_)) && !w.intruders && Rewritten(s, CreatePV(new_)) == Some((n, Some(pv)))
    ensures Faithful(w, pv)
  {
    hide SameAnnotations, SameRef, UpdateOnly;
  }

  lemma BackupsConserved(w: World, s: Store, op: Op)
    requires WellFormed(s) && Conserved(w, s) && Guard(w, s, op) && !w.intruders
    ensures var t := Apply(s, op); forall b :: b in t.backups && OursWith(w, t.backups[b]) ==> Faithful(w, t.backups[b].data.pv)
  {
    hide Faithful, DriverDone, MayDestroy, OnlyBackup, UpdateOnly, MustMove, OwnClass, OwnConnection, ClassNames, Marked;
    if WritesVolume(op) {
      hide Apply, Guard;
      VolumeWritesOnly(s, op);
    }
  }

  lemma ConservedStep(w: World, s: Store, op: Op)
    requires Inv(w, s) && Guard(w, s, op) && !w.intruders
    ensures Conserved(w, Apply(s, op))
  {
    hide Faithful, NothingLost, LabelsTruthful, BackupsSound, PlanIsOwn, Guard, Apply, Rewritten, OursWith;
    BackupsConserved(w, s, op);
    ApplyChanges(w, s, op);
    match Rewritten(s, op) {
      case None =>
      case Some((n, None)) =>
      case Some((n, Some(pv))) => ChangeIsFaithful(w, s, op, n, pv);
    }
  }

  lemma MovedStays(w: World, s: Store, op: Op, n: string)
    requires Inv(w, s) && Guard(w, s, op) && !w.intruders && Moved(w, s, n)
    ensures Moved(w, Apply(s, op), n)
  {
    hide RefDiffers, DriverDone, NothingLost, LabelsTruthful, BackupsSound, PlanIsOwn, Conserved, Guard, Apply, Rewritten, Pending;
    ApplyChanges(w, s, op);
    RemovalIsGuarded(w, s, op, n);
    match Rewritten(s, op) {
      case None =>
      case Some((m, None)) =>
      case Some((m, Some(pv))) =>
        if m == n {
          ChangeKeepsRefs(w, s, op, n, pv);
        }
    }
  }

  lemma ChangeExposes(w: World, s: Store, op: Op, n: string, pv: PV)
    requires WellFormed(s) && Guard(w, s, op) && !w.intruders && Rewritten(s, op) == Some((n, Some(pv))) && Exposed(w, pv)
    ensures n in s.pvs && Exposed(w, s.pvs[n])
  {
    hide Guard, Rewritten, RefDiffers;
    NobodyIntrudes(w, s, op);
    if op.CreatePV? {
      CreatedIsRewritten(w, s, op.pv, n, pv);
    } else if op.StripAndRetain? || op.Strip? || op.DeletePV? {
      DestroyedMustMove(w, s, op, n, pv);
    } else if op.PutPV? {
      WrittenBack(w, s, op.pv, n, pv);
    } else {
      PatchedIsExposed(w, s, op, n, pv);
    }
  }

  lemma CreatedIsRewritten(w: World, s: Store, new_: PV, n: string, pv: PV)
    requires Guard(w, s, CreatePV(new_)) && !w.intruders && Rewritten(s, CreatePV(new_)) == Some((n, Some(pv)))
    ensures !UpdateOnly(w, pv)
  {
    hide Faithful;
  }

  lemma DestroyedMustMove(w: World, s: Store, op: Op, n: string, pv: PV)
    requires WellFormed(s) && (op.StripAndRetain? || op.Strip? || op.DeletePV?)
    requires Guard(w, s, op) && !w.intruders && Rewritten(s, op) == Some((n, Some(pv)))
    ensures !UpdateOnly(w, pv)
  {
    hide Pending, RefDiffers;
  }

  lemma WrittenBack(w: World, s: Store, put: PV, n: string, pv: PV)
    requires Guard(w, s, PutPV(put)) && Rewritten(s, PutPV(put)) == Some((n, Some(pv))) && Exposed(w, pv)
    ensures n in s.pvs && Exposed(w, s.pvs[n])
  {
    hide RefDiffers;
  }

  lemma PatchedIsExposed(w: World, s: Store, op: Op, n: string, pv: PV)
    requires WellFormed(s) && (op.SetPolicy? || op.Protect? || !WritesVolume(op))
    requires Rewritten(s, op) == Some((n, Some(pv))) && Exposed(w, pv)
    ensures n in s.pvs && Exposed(w, s.pvs[n])
  {
    hide RefDiffers;
  }

  lemma ExposureStep(w: World, s: Store, op: Op)
    requires WellFormed(s) && Guard(w, s, op) && !w.intruders
    ensures Exposures(w, Apply(s, op)) <= Exposures(w, s)
  {
    hide Guard, Apply, Rewritten, Exposed, WellFormed;
    ApplyChanges(w, s, op);
    match Rewritten(s, op) {
      case None =>
      case Some((n, None)) =>
      case Some((n, Some(pv))) =>
        if Exposed(w, pv) {
          ChangeExposes(w, s, op, n, pv);
        }
    }
  }

  lemma BackupsSoundStep(w: World, s: Store, op: Op)
    requires WellFormed(s) && BackupsSound(w, s) && Guard(w, s, op) && !w.intruders
    ensures BackupsSound(w, Apply(s, op))
  {
    hide MayDestroy, DriverDone, Faithful, MustMove, UpdateOnly;
    if WritesVolume(op) {
      hide Apply, Guard;
      VolumeWritesOnly(s, op);
    }
  }

  lemma OnwardStep(w: World, s: Store, op: Op)
    requires Inv(w, s) && Guard(w, s, op)
    ensures Onward(w, s, Apply(s, op))
  {
    hide Guard, Apply, Exposures, Moved, NothingLost, Conserved, LabelsTruthful, BackupsSound, Rewritten;
    ApplyChanges(w, s, op);
    OthersStep(w, s, op);
    if !w.intruders {
      ExposureStep(w, s, op);
      forall n | Moved(w, s, n) ensures Moved(w, Apply(s, op), n) {
        MovedStays(w, s, op, n);
      }
    }
  }

  /** Nothing but what a driver says is made. */
  lemma OwnStep(w: World, s: Store, op: Op)
    requires WellFormed(s) && PlanIsOwn(w, s) && Guard(w, s, op)
    ensures PlanIsOwn(w, Apply(s, op))
  {
    hide MayDestroy, DriverDone, Faithful, OursWith, OnlyBackup, UpdateOnly, OwnConnection, OwnClass, ClassNames, Relabelled, Marked,
      Apply, MustMove, WellFormed;
    if op.PutDriver? {
      OwnAfterLabel(w, s, op.driver);
    } else {
      OthersAdd(s, op);
    }
  }

  lemma OwnAfterLabel(w: World, s: Store, d: Driver)
    requires WellFormed(s) && PlanIsOwn(w, s) && Guard(w, s, PutDriver(d))
    ensures PlanIsOwn(w, Apply(s, PutDriver(d)))
  {
    hide DriverDone, OwnConnection, OwnClass, ClassNames, Marked;
    var t := Apply(s, PutDriver(d));
    MarkedIsSame(s.drivers[d.name]);
    forall e | e in s.drivers ensures e in t.drivers && ClassNames(t.drivers[e]) == ClassNames(s.drivers[e])
      ensures forall c :: OwnClass(t.drivers[e], c) <==> OwnClass(s.drivers[e], c)
      ensures forall c :: OwnConnection(t.drivers[e], c) <==> OwnConnection(s.drivers[e], c)
    {
    }
  }

  lemma OnwardDone(w: World, s: Store, t: Store, d: Driver)
    requires !w.intruders && Onward(w, s, t) && DriverDone(w, s, d)
    ensures DriverDone(w, t, d)
  {
  }

  /** Only a PutDriver changes drivers, and that of its own driver only. */
  lemma DriversStep(s: Store, op: Op, d: string)
    ensures d in Apply(s, op).drivers && (op.PutDriver? ==> op.driver.name != d) ==>
      d in s.drivers && Apply(s, op).drivers[d] == s.drivers[d]
    ensures op.PutDriver? && op.driver.name in s.drivers ==> Apply(s, op).drivers[op.driver.name] == op.driver
  {
  }

  lemma LabelsStep(w: World, s: Store, op: Op)
    requires Inv(w, s) && Guard(w, s, op) && !w.intruders && Onward(w, s, Apply(s, op))
    ensures LabelsTruthful(w, Apply(s, op))
  {
    hide WellFormed, Conserved, NothingLost, BackupsSound, Onward, MayDestroy, Apply, DriverDone, OnlyBackup, UpdateOnly;
    var t := Apply(s, op);
    forall d | d in t.drivers && d !in w.settled && IsMigrated(t.drivers[d]) ensures DriverDone(w, t, t.drivers[d]) {
      DriversStep(s, op, d);
      OnwardDone(w, s, t, t.drivers[d]);
    }
  }

  lemma StepKeepsInv(w: World, s: Store, op: Op)
    requires Inv(w, s) && Guard(w, s, op)
    ensures Inv(w, Apply(s, op)) && Onward(w, s, Apply(s, op))
  {
    hide WellFormed, Conserved, NothingLost, LabelsTruthful, BackupsSound, Onward, Guard, Apply, PlanIsOwn;
    WellFormedStep(w, s, op);
    OwnStep(w, s, op);
    NothingLostStep(w, s, op);
    OnwardStep(w, s, op);
    if !w.intruders {
      ConservedStep(w, s, op);
      BackupsSoundStep(w, s, op);
      LabelsStep(w, s, op);
    }
  }
}
