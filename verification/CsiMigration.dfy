/** The hook that migrates from the ceph-csi module, driver by driver. */
module CsiMigration {
  import opened Kube
  import opened Volumes
  import opened MigrationStore
  import opened MigrationCluster
  import opened PvMigration
  import opened PvRecovery
  import ClusterConfigs
  import LabelPrefixes

  const BACKUP_SOURCE := "migrate-from-ceph-csi-module"
  const MOUNT_OPTIONS_LABEL := "storage.deckhouse.io/mount-options"
  const ALLOW_EXPANSION_LABEL := "storage.deckhouse.io/allow-volume-expansion"
  const CEPHFS_POOL_LABEL := "storage.deckhouse.io/cephfs-pool"
  const DISCARD := "discard"

  // ---- What the hook makes ----

  method MakeConnection(driver: Driver) returns (c: Connection)
    ensures OwnConnection(driver, c)
  {
    c := Connection(driver.name, map[MIGRATED_LABEL := MIGRATED_VALUE],
                    ClusterConfigs.Spec(driver.clusterID, driver.monitors, driver.userID, driver.userKey, None));
    if driver.cephfs.Some? {
      if driver.cephfs.value.subvolumeGroup != "" {
        c := c.(spec := c.spec.(subvolumeGroup := Some(driver.cephfs.value.subvolumeGroup)));
      }
    }
  }

  lemma LabelKeysDiffer()
    ensures |CEPHFS_POOL_LABEL| < |MOUNT_OPTIONS_LABEL| < |MIGRATED_LABEL| < |ALLOW_EXPANSION_LABEL|
  {
  }

  method MakeFsClass(driver: Driver, fs: FsClass) returns (c: CephClass)
    ensures OwnFsClass(driver, fs, c)
  {
    hide LabelPrefixes.Join;
    LabelKeysDiffer();
    var labels := map[MIGRATED_LABEL := MIGRATED_VALUE];
    if fs.pool != "" {
      labels := labels[CEPHFS_POOL_LABEL := fs.pool];
    }
    if |fs.mountOptions| > 0 {
      labels := labels[MOUNT_OPTIONS_LABEL := LabelPrefixes.Join(fs.mountOptions)];
    }
    if fs.expansion.Some? && !fs.expansion.value {
      labels := labels[ALLOW_EXPANSION_LABEL := "false"];
    }
    c := CephClass(ClassName(driver.name, fs.postfix), labels, driver.name, CephFs(fs.fsName), fs.reclaimPolicy);
  }

  /** allowVolumeExpansion is read without a check. */
  method MakeRbdClass(driver: Driver, rbd: RbdClass) returns (c: CephClass)
    requires rbd.expansion.Some?
    ensures OwnRbdClass(driver, rbd, c)
  {
    hide LabelPrefixes.Join;
    LabelKeysDiffer();
    var labels := map[MIGRATED_LABEL := MIGRATED_VALUE];
    if |rbd.mountOptions| > 0 && !(|rbd.mountOptions| == 1 && rbd.mountOptions[0] == DISCARD) {
      labels := labels[MOUNT_OPTIONS_LABEL := LabelPrefixes.Join(rbd.mountOptions)];
    }
    if !rbd.expansion.value {
      labels := labels[ALLOW_EXPANSION_LABEL := "false"];
    }
    c := CephClass(ClassName(driver.name, rbd.postfix), labels, driver.name, Rbd(rbd.pool, rbd.fsType), rbd.reclaimPolicy);
  }

  // ---- What the hook is told ----

  /** The secret every class of the driver moves to is the driver's own. */
  ghost predicate Planned(w: World, d: Driver) {
    forall c :: c in ClassNames(d) ==> c in w.target && w.target[c] == CONNECTION_SECRET_PREFIX + d.name
  }

  ghost predicate NoRepeats(names: seq<string>) {
    forall i, j :: 0 <= i < j < |names| ==> names[i] != names[j]
  }

  /** The plan covers every driver that still has to be migrated, and the names of their
      classes, made of driver and postfix, are all distinct. */
  ghost predicate GoodPlan(w: World, s: Store) {
    && (forall d :: d in s.drivers ==> Planned(w, s.drivers[d]) && NoRepeats(ClassNames(s.drivers[d])))
    && (forall d, e, c :: d in s.drivers && e in s.drivers && d != e && c in ClassNames(s.drivers[d]) ==>
      c !in ClassNames(s.drivers[e]))
  }

  /** No other driver has a class of this name. */
  ghost predicate Apart(s: Store, d: Driver) {
    forall e, c :: e in s.drivers && e != d.name && c in ClassNames(d) ==> c !in ClassNames(s.drivers[e])
  }

  lemma ClassNameNth(d: Driver, i: nat)
    ensures d.cephfs.Some? && i < |d.cephfs.value.classes| ==>
      i < |ClassNames(d)| && ClassNames(d)[i] == ClassName(d.name, d.cephfs.value.classes[i].postfix)
    ensures d.rbd.Some? && i < |d.rbd.value| ==>
      var k := |ClassNames(d)| - |d.rbd.value| + i;
      0 <= k < |ClassNames(d)| && ClassNames(d)[k] == ClassName(d.name, d.rbd.value[i].postfix)
    ensures |ClassNames(d)| == (if d.cephfs.Some? then |d.cephfs.value.classes| else 0) + (if d.rbd.Some? then |d.rbd.value| else 0)
  {
  }

  /** The class made from the i-th entry is the driver's: no other entry has its name. */
  lemma FsClassIsOwn(d: Driver, i: nat, c: CephClass)
    requires NoRepeats(ClassNames(d))
    requires d.cephfs.Some? && i < |d.cephfs.value.classes| && OwnFsClass(d, d.cephfs.value.classes[i], c)
    ensures c.name == ClassName(d.name, d.cephfs.value.classes[i].postfix) && OwnClass(d, c)
  {
    hide OwnFsClass, OwnRbdClass, ClassNames;
    OwnFsName(d, d.cephfs.value.classes[i], c);
    ClassNameNth(d, i);
    forall j: nat | j < |d.cephfs.value.classes| && c.name == ClassName(d.name, d.cephfs.value.classes[j].postfix) ensures j == i {
      ClassNameNth(d, j);
    }
    if d.rbd.Some? {
      forall j: nat | j < |d.rbd.value| ensures c.name != ClassName(d.name, d.rbd.value[j].postfix) {
        ClassNameNth(d, j);
      }
    }
  }

  lemma RbdClassIsOwn(d: Driver, i: nat, c: CephClass)
    requires NoRepeats(ClassNames(d))
    requires d.rbd.Some? && i < |d.rbd.value| && OwnRbdClass(d, d.rbd.value[i], c)
    ensures c.name == ClassName(d.name, d.rbd.value[i].postfix) && OwnClass(d, c)
  {
    hide OwnFsClass, OwnRbdClass, ClassNames;
    OwnRbdName(d, d.rbd.value[i], c);
    ClassNameNth(d, i);
    forall j: nat | j < |d.rbd.value| && c.name == ClassName(d.name, d.rbd.value[j].postfix) ensures j == i {
      ClassNameNth(d, j);
    }
    if d.cephfs.Some? {
      forall j: nat | j < |d.cephfs.value.classes| ensures c.name != ClassName(d.name, d.cephfs.value.classes[j].postfix) {
        ClassNameNth(d, j);
      }
    }
  }

  lemma OwnFsName(d: Driver, fs: FsClass, c: CephClass)
    ensures OwnFsClass(d, fs, c) ==> c.name == ClassName(d.name, fs.postfix)
  {
  }

  lemma OwnRbdName(d: Driver, rbd: RbdClass, c: CephClass)
    ensures OwnRbdClass(d, rbd, c) ==> c.name == ClassName(d.name, rbd.postfix)
  {
  }

  /** Such a class may be created. */
  lemma OnlyOwnClass(w: World, s: Store, d: Driver, c: CephClass)
    requires OnTheStore(s, d) && Apart(s, d) && c.name in ClassNames(d) && OwnClass(d, c)
    ensures Guard(w, s, CreateClass(c))
  {
    hide OwnClass, ClassNames, Marked;
    MarkedIsSame(d);
  }

  /** The driver is stored as it was listed, or has been labelled since. */
  ghost predicate OnTheStore(s: Store, d: Driver) {
    d.name in s.drivers && (s.drivers[d.name] == d || s.drivers[d.name] == Marked(d))
  }

  // ---- The listed volumes while the classes are worked through ----

  /** Every original volume was listed as it was. */
  ghost predicate FullList(w: World, items: seq<PV>) {
    && Distinct(items)
    && (forall j :: 0 <= j < |items| ==> Faithful(w, items[j]))
    && (forall n :: n in w.orig ==> exists j :: 0 <= j < |items| && items[j].name == n)
  }

  /** Volumes of classes not worked on yet are as listed. */
  ghost predicate Fresh(s: Store, listed: seq<PV>, now: seq<PV>, worked: set<string>) {
    && |now| == |listed|
    && (forall j :: 0 <= j < |now| ==> now[j].name == listed[j].name && now[j].storageClass == listed[j].storageClass)
    && (forall j :: 0 <= j < |now| && listed[j].storageClass !in worked ==> now[j] == listed[j] && Tracks(s, listed[j]))
  }

  lemma ListIsFull(w: World, s: Store, items: seq<PV>)
    requires Inv(w, s) && !w.intruders && Lists(s, items) && forall n :: n in w.orig ==> n in s.pvs
    ensures FullList(w, items)
  {
  }

  lemma ListIsFresh(w: World, s: Store, items: seq<PV>)
    requires Inv(w, s) && Lists(s, items)
    ensures Fresh(s, items, items, {})
  {
  }

  lemma FreshDrifts(w: World, s: Store, t: Store, listed: seq<PV>, now: seq<PV>, worked: set<string>)
    requires VolumesDrifted(w, s, t) && Fresh(s, listed, now, worked)
    ensures Fresh(t, listed, now, worked)
  {
  }

  lemma SettledIsMoved(w: World, s: Store, item: PV, c: string, secret: string)
    requires c in w.target && w.target[c] == secret && item.name in w.orig
    requires CephVolume(w.orig[item.name]) && w.orig[item.name].storageClass == c
    requires Faithful(w, item) && Eligible(item, c) ==> Settled(s, item, secret)
    requires item.name in s.pvs ==> s.pvs[item.name].name == item.name && Faithful(w, s.pvs[item.name])
    requires Faithful(w, item)
    ensures Moved(w, s, item.name)
  {
    hide SameAnnotations, Annotations;
  }

  /** When the volumes of a class are settled, the class is moved. */
  lemma SettledClassIsMoved(w: World, s: Store, listed: seq<PV>, c: string, secret: string)
    requires Inv(w, s) && !w.intruders && FullList(w, listed) && c in w.target && w.target[c] == secret
    requires forall j :: 0 <= j < |listed| && Eligible(listed[j], c) ==> Settled(s, listed[j], secret)
    ensures ClassMoved(w, s, c)
  {
    hide Settled, Eligible, Moved, NeedsRecreate, NothingLost, LabelsTruthful, SameVolume, PlanIsOwn, CephVolume;
    forall n | n in w.orig && CephVolume(w.orig[n]) && w.orig[n].storageClass == c ensures Moved(w, s, n) {
      var j :| 0 <= j < |listed| && listed[j].name == n;
      assert Faithful(w, listed[j]);
      SettledIsMoved(w, s, listed[j], c, secret);
    }
  }

  /** When a class is moved, a listing of its volumes leaves nothing to recreate. */
  lemma MovedLeavesNothing(w: World, s: Store, items: seq<PV>, c: string, secret: string)
    requires Inv(w, s) && !w.intruders && Lists(s, items) && ClassMoved(w, s, c)
    requires c in w.target && w.target[c] == secret
    ensures NothingToRecreate(items, c, secret)
  {
  }

  // ---- Runs in which no call fails ----

  /** What the hook finds when it lists: the store, the volumes in it, and the time in the names
      of the backups to come. */
  datatype Found = Found(db: Store, pvs: seq<PV>, backupTime: string)

  /** No volume of the class that has to be recreated is obstructed. */
  predicate Clear(w: World, f: Found, c: string) {
    c in w.target && NoneObstructed(f.db, f.pvs, |f.pvs|, f.backupTime, c, w.target[c])
  }

  /** Making a new RBD class reads allowVolumeExpansion, which must not be nil. */
  predicate Creatable(s: Store, d: Driver) {
    d.rbd.Some? ==> CreatableUpTo(s, d, |d.rbd.value|)
  }

  predicate CreatableNth(s: Store, d: Driver, i: nat)
    requires d.rbd.Some? && i < |d.rbd.value|
  {
    ClassName(d.name, d.rbd.value[i].postfix) in s.classes || d.rbd.value[i].expansion.Some?
  }

  predicate CreatableUpTo(s: Store, d: Driver, k: nat)
    requires d.rbd.Some?
  {
    forall i :: 0 <= i < k && i < |d.rbd.value| ==> CreatableNth(s, d, i)
  }

  lemma CreatableStep(s: Store, d: Driver, i: nat)
    requires d.rbd.Some?
    ensures CreatableUpTo(s, d, 0)
    ensures i < |d.rbd.value| ==> (CreatableUpTo(s, d, i + 1) <==> CreatableUpTo(s, d, i) && CreatableNth(s, d, i))
    ensures i < |d.rbd.value| && Creatable(s, d) ==> CreatableNth(s, d, i)
    ensures Creatable(s, d) <==> CreatableUpTo(s, d, |d.rbd.value|)
  {
    hide CreatableNth;
  }

  predicate DriverClear(w: World, f: Found, d: Driver) {
    Creatable(f.db, d) && forall i :: 0 <= i < |ClassNames(d)| ==> Clear(w, f, ClassNames(d)[i])
  }

  /** What is in the way of the class, if anything, is that volumes are terminating. */
  predicate ClassRecreatable(w: World, f: Found, c: string) {
    c in w.target && AllRecreatable(f.db, f.pvs, f.backupTime, c, w.target[c])
  }

  predicate DriverRecreatable(w: World, f: Found, d: Driver) {
    Creatable(f.db, d) && forall i :: 0 <= i < |ClassNames(d)| ==> ClassRecreatable(w, f, ClassNames(d)[i])
  }

  /** The outside world protected a listed volume before its update. */
  ghost predicate Hit(w: World, f: Found, t: Store) {
    exists j :: 0 <= j < |f.pvs| && Overtaken(w, t, f.pvs[j])
  }

  /** What a step without failing calls does: it succeeds only if nothing is in its way, fails if
      nothing is only over a hit, and if it fails although everything is recreatable, over a hit or
      over terminating volumes, of which it then leaves fewer. */
  ghost predicate CalmOutcome(w: World, f: Found, s: Store, t: Store, err: Error, clear: bool, recreatable: bool) {
    && Terminating(t) <= Terminating(s)
    && (err == NoError ==> clear)
    && (err != NoError && clear ==> Hit(w, f, t))
    && (err != NoError && recreatable ==> Hit(w, f, t) || Terminating(t) < Terminating(s))
  }

  /** Classes not worked on yet are as found: no backup has taken a name their volumes need, and
      no such class has been made. */
  ghost predicate Ahead(f: Found, s: Store, worked: set<string>) {
    && (forall j :: 0 <= j < |f.pvs| && f.pvs[j].storageClass !in worked ==>
      (BackupName(f.backupTime, f.pvs[j].name) in s.backups <==> BackupName(f.backupTime, f.pvs[j].name) in f.db.backups))
    && (forall c :: c in s.classes && c !in worked ==> c in f.db.classes)
  }

  ghost predicate CalmRun(cl: Cluster, f: Found, worked: set<string>)
    reads cl
  {
    !cl.world.intruders && Calm(cl.weather) && Ahead(f, cl.db, worked)
  }

  /** So obstruction of the next class can be told from what was found. */
  lemma ClearNow(w: World, f: Found, s: Store, now: seq<PV>, worked: set<string>, c: string)
    requires Fresh(s, f.pvs, now, worked) && Ahead(f, s, worked) && c !in worked && c in w.target
    ensures Clear(w, f, c) <==> NoneObstructed(s, now, |now|, f.backupTime, c, w.target[c])
    ensures ClassRecreatable(w, f, c) <==> AllRecreatable(s, now, f.backupTime, c, w.target[c])
    ensures forall t :: SomeOvertaken(w, t, now, c) ==> Hit(w, f, t)
  {
    hide NeedsRecreate, Tracks, BothRefs, Overtaken;
    forall t | SomeOvertaken(w, t, now, c) ensures Hit(w, f, t) {
      var j :| 0 <= j < |now| && Eligible(now[j], c) && Overtaken(w, t, now[j]);
      assert now[j] == f.pvs[j];
    }
    forall j | 0 <= j < |now| && (Eligible(now[j], c) || Eligible(f.pvs[j], c))
      ensures now[j] == f.pvs[j] && (Recreatable(s, now[j], f.backupTime) <==> Recreatable(f.db, f.pvs[j], f.backupTime))
    {
    }
  }

  lemma SameObstruction(s: Store, t: Store, items: seq<PV>, backupTime: string, c: string, secret: string)
    requires t.backups == s.backups
    ensures NoneObstructed(s, items, |items|, backupTime, c, secret) <==> NoneObstructed(t, items, |items|, backupTime, c, secret)
    ensures AllRecreatable(s, items, backupTime, c, secret) <==> AllRecreatable(t, items, backupTime, c, secret)
  {
  }

  /** The backups of class c take no name that a volume of another class needs. */
  lemma NameStaysFree(f: Found, m: Store, t: Store, now: seq<PV>, c: string, j: nat)
    requires Distinct(f.pvs) && j < |f.pvs| && f.pvs[j].storageClass != c && |now| == |f.pvs|
    requires forall i :: 0 <= i < |now| ==> now[i].name == f.pvs[i].name && now[i].storageClass == f.pvs[i].storageClass
    requires NoIdentityTaken(m, t, now, |now|, f.backupTime, c)
    ensures BackupName(f.backupTime, f.pvs[j].name) in t.backups <==> BackupName(f.backupTime, f.pvs[j].name) in m.backups
  {
    hide Eligible;
    var k := BackupName(f.backupTime, f.pvs[j].name);
    if k in t.backups && k !in m.backups {
      var i :| 0 <= i < |now| && Eligible(now[i], c) && k == BackupName(f.backupTime, now[i].name);
      BackupNamesDiffer(f.backupTime, now[i].name, f.pvs[j].name);
      EligibleClass(now[i], c);
      assert false;
    }
  }

  /** `s` before the class was made, `m` after that, `t` after its volumes were moved. */
  lemma AheadAfterClass(f: Found, s: Store, m: Store, t: Store, now: seq<PV>, worked: set<string>, c: string)
    requires Distinct(f.pvs) && Fresh(s, f.pvs, now, worked) && Ahead(f, s, worked) && c !in worked
    requires m.backups == s.backups && m.classes.Keys <= s.classes.Keys + {c}
    requires NoIdentityTaken(m, t, now, |now|, f.backupTime, c) && t.classes == m.classes
    ensures Ahead(f, t, worked + {c})
  {
    hide Tracks, NoIdentityTaken, Distinct, BackupName;
    forall j | 0 <= j < |f.pvs| && f.pvs[j].storageClass !in worked + {c}
      ensures BackupName(f.backupTime, f.pvs[j].name) in t.backups <==> BackupName(f.backupTime, f.pvs[j].name) in f.db.backups
    {
      NameStaysFree(f, m, t, now, c, j);
    }
    forall k | k in t.classes && k !in worked + {c} ensures k in f.db.classes {
      assert k in m.classes.Keys;
    }
  }

  lemma EligibleClass(pv: PV, c: string)
    requires Eligible(pv, c)
    ensures pv.storageClass == c
  {
  }

  method FindName(names: seq<string>, name: string) returns (found: bool)
    ensures found <==> name in names
  {
    for i := 0 to |names|
      invariant name !in names[..i]
    {
      if names[i] == name {
        return true;
      }
    }
    return false;
  }

  /** A class is there and its volumes are moved. */
  ghost predicate ClassDone(w: World, s: Store, c: string) {
    c in s.classes && (!w.intruders ==> ClassMoved(w, s, c))
  }

  /** Nothing but the object of the write was added. */
  ghost predicate Added(s: Store, t: Store, op: Op) {
    && (op.CreateClass? ==> t.connections == s.connections && t.classes.Keys <= s.classes.Keys + {op.class_.name})
    && (op.CreateConnection? ==> t.classes == s.classes && t.connections.Keys <= s.connections.Keys + {op.connection.name})
  }

  /** Makes a write that only adds a connection or class. */
  method Add(cl: Cluster, op: Op, ghost listed: seq<PV>, ghost now: seq<PV>, ghost worked: set<string>) returns (err: Error)
    requires cl.Valid() && (op.CreateConnection? || op.CreateClass?) && Guard(cl.world, cl.db, op)
    requires Fresh(cl.db, listed, now, worked)
    modifies cl
    ensures cl.Valid() && cl.Advanced()
    ensures Fresh(cl.db, listed, now, worked) && cl.db.backups == old(cl.db.backups) && cl.db.drivers == old(cl.db.drivers)
    ensures Added(old(cl.db), cl.db, op)
    ensures !cl.world.intruders ==> Terminating(cl.db) == Terminating(old(cl.db))
    ensures err == NoError && op.CreateConnection? ==> op.connection.name in cl.db.connections
    ensures err == NoError && op.CreateClass? ==> op.class_.name in cl.db.classes
    ensures old(Calm(cl.weather)) ==> (err == NoError <==> Verdict(old(cl.db), op) == NoError)
  {
    hide Onward, Inv, Lawful, Replay, Quiet, Fresh, VolumesDrifted, Terminating, Guard;
    var echo;
    ghost var at;
    err, echo, at := cl.Request(op);
    FreshDrifts(cl.world, old(cl.db), at, listed, now, worked);
    if cl.db != at {
      AddKeepsVolumes(cl.world, at, cl.db, op);
      FreshDrifts(cl.world, at, cl.db, listed, now, worked);
    }
    if !cl.world.intruders {
      DriftKeepsTerminating(cl.world, old(cl.db), at);
    }
  }

  lemma AddKeepsVolumes(w: World, at: Store, t: Store, op: Op)
    requires (op.CreateConnection? || op.CreateClass?) && t == Apply(at, op)
    ensures VolumesDrifted(w, at, t) && t.backups == at.backups && t.drivers == at.drivers && Added(at, t, op)
      && Terminating(t) == Terminating(at)
  {
  }

  /** Creates the class, if it was not listed, and moves its volumes. */
  method MigrateClass(cl: Cluster, pvList: array<PV>, ghost f: Found, ghost worked: set<string>,
                      name: string, missing: Option<CephClass>, newSecretName: string, backupTime: string)
    returns (err: Error)
    requires cl.Valid() && cl.world.source == BACKUP_SOURCE && backupTime == f.backupTime
    requires !cl.world.intruders ==> FullList(cl.world, f.pvs)
    requires Distinct(f.pvs) && Fresh(cl.db, f.pvs, pvList[..], worked) && name !in worked
    requires name in cl.world.target && cl.world.target[name] == newSecretName
    requires missing.None? <==> name in f.db.classes
    requires if missing.None? then name in cl.db.classes
             else missing.value.name == name && Guard(cl.world, cl.db, CreateClass(missing.value))
    requires !cl.world.intruders ==> NoneOutstanding(cl.db, BACKUP_SOURCE)
    modifies cl, pvList
    ensures cl.Valid() && cl.Advanced() && OnlyStamped(old(cl.db), cl.db, backupTime)
    ensures err == NoError ==>
      && Fresh(cl.db, f.pvs, pvList[..], worked + {name})
      && ClassDone(cl.world, cl.db, name)
      && (!cl.world.intruders ==> NoneOutstanding(cl.db, BACKUP_SOURCE) && cl.db.connections == old(cl.db.connections))
    ensures old(CalmRun(cl, f, worked)) ==>
      && CalmOutcome(cl.world, f, old(cl.db), cl.db, err, Clear(cl.world, f, name),
                     ClassRecreatable(cl.world, f, name))
      && (err == NoError ==> CalmRun(cl, f, worked + {name}))
  {
    hide Onward, Inv, Lawful, Replay, Quiet, Fresh, ClassMoved, Settled, Tracks, NoneAdded, Terminating, NoneObstructed,
      AllRecreatable, Ahead, Clear, ClassRecreatable, NoIdentityTaken, Distinct, FullList, OnlyStamped, NoneOutstanding,
      SomeOvertaken, Hit, Guard, OthersStay, AllUpdated, NamesOnly;
    ghost var start := cl.db;
    ghost var calm := CalmRun(cl, f, worked);
    OnwardRefl(cl.world, cl.db);
    StampedSame(start, start, backupTime);
    if calm {
      NotMadeYet(f, cl.db, worked, name);
      ClearNow(cl.world, f, cl.db, pvList[..], worked, name);
    }
    if missing.Some? {
      err := Add(cl, CreateClass(missing.value), f.pvs, pvList[..], worked);
      StampedSame(start, cl.db, backupTime);
      if err != NoError {
        return;
      }
    }
    ghost var middle := cl.db;
    ghost var now := pvList[..];
    FreshIsListed(cl.db, f.pvs, now, worked, name);
    SameObstruction(start, middle, now, backupTime, name, newSecretName);
    SameOutstanding(start, middle, BACKUP_SOURCE);
    err := MigratePVsToNewSecret(cl, pvList, backupTime, name, newSecretName, BACKUP_SOURCE);
    OnwardTrans(cl.world, start, middle, cl.db);
    StampedTrans(start, middle, cl.db, backupTime);
    if err != NoError {
      return;
    }
    FreshAfterClass(middle, cl.db, f.pvs, now, pvList[..], worked, name);
    ClassesGrow(cl.world, middle, cl.db);
    if !cl.world.intruders {
      SettledClassIsMoved(cl.world, cl.db, f.pvs, name, newSecretName);
      StillNone(middle, cl.db, BACKUP_SOURCE);
    }
    if calm {
      AheadAfterClass(f, start, middle, cl.db, now, worked, name);
    }
  }

  lemma NotMadeYet(f: Found, s: Store, worked: set<string>, c: string)
    requires Ahead(f, s, worked) && c !in worked
    ensures c !in f.db.classes ==> c !in s.classes
  {
  }

  lemma ClassesGrow(w: World, s: Store, t: Store)
    requires Onward(w, s, t)
    ensures forall c :: c in s.classes ==> c in t.classes
    ensures forall c :: c in s.connections ==> c in t.connections
    ensures forall d :: d in s.drivers ==> d in t.drivers && (t.drivers[d] == s.drivers[d] || t.drivers[d] == Marked(s.drivers[d]))
  {
    hide Exposures, Moved, Marked;
  }

  /** Names of drivers and classes, and what was listed of a driver, stay. */
  lemma DriverStays(w: World, s: Store, t: Store, d: Driver)
    requires Onward(w, s, t)
    ensures OnTheStore(s, d) ==> OnTheStore(t, d)
    ensures Apart(s, d) ==> Apart(t, d)
  {
    hide Exposures, Moved, Marked, ClassNames;
    if OnTheStore(s, d) {
      MarkedIsSame(d);
    }
    assert t.drivers.Keys == s.drivers.Keys;
    if Apart(s, d) {
      forall e, c | e in t.drivers && e != d.name && c in ClassNames(d) ensures c !in ClassNames(t.drivers[e]) {
        assert e in s.drivers.Keys;
        MarkedIsSame(s.drivers[e]);
      }
    }
  }

  lemma SameOutstanding(s: Store, t: Store, source: string)
    requires s.backups == t.backups
    ensures NoneOutstanding(s, source) <==> NoneOutstanding(t, source)
  {
  }

  lemma StampedSame(s: Store, t: Store, backupTime: string)
    requires t.backups == s.backups
    ensures OnlyStamped(s, t, backupTime)
  {
  }

  lemma StampedTrans(a: Store, b: Store, c: Store, backupTime: string)
    requires OnlyStamped(a, b, backupTime) && OnlyStamped(b, c, backupTime)
    ensures OnlyStamped(a, c, backupTime)
  {
  }

  lemma FreshIsListed(s: Store, listed: seq<PV>, now: seq<PV>, worked: set<string>, c: string)
    requires Fresh(s, listed, now, worked) && Distinct(listed) && c !in worked
    ensures Distinct(now) && |now| == |listed|
    ensures forall j :: 0 <= j < |now| && (Eligible(listed[j], c) || Eligible(now[j], c)) ==>
      now[j] == listed[j] && Tracks(s, now[j])
  {
  }

  lemma FreshAfterClass(s: Store, t: Store, listed: seq<PV>, before: seq<PV>, after: seq<PV>, worked: set<string>, c: string)
    requires Fresh(s, listed, before, worked) && |after| == |before|
    requires forall j :: 0 <= j < |after| ==> after[j].name == before[j].name && after[j].storageClass == before[j].storageClass
    requires forall j :: 0 <= j < |after| && !Eligible(before[j], c) ==>
      after[j] == before[j] && (Tracks(s, before[j]) ==> Tracks(t, before[j]))
    ensures Fresh(t, listed, after, worked + {c})
  {
  }

  ghost function FirstClasses(d: Driver, k: nat): set<string> {
    set i | 0 <= i < k && i < |ClassNames(d)| :: ClassNames(d)[i]
  }

  /** The first k classes of the driver are done. */
  ghost predicate DriverState(w: World, s: Store, listed: seq<PV>, now: seq<PV>, worked: set<string>, d: Driver, k: nat) {
    && k <= |ClassNames(d)|
    && Fresh(s, listed, now, worked + FirstClasses(d, k))
    && d.name in s.connections
    && forall i :: 0 <= i < k ==> ClassDone(w, s, ClassNames(d)[i])
  }

  lemma DriverStep(w: World, s: Store, t: Store, listed: seq<PV>, now: seq<PV>, after: seq<PV>, worked: set<string>,
                   d: Driver, k: nat)
    requires DriverState(w, s, listed, now, worked, d, k) && k < |ClassNames(d)| && Onward(w, s, t)
    requires Fresh(t, listed, after, (worked + FirstClasses(d, k)) + {ClassNames(d)[k]})
    requires ClassDone(w, t, ClassNames(d)[k])
    ensures DriverState(w, t, listed, after, worked, d, k + 1)
  {
  }

  lemma OneMore(d: Driver, worked: set<string>, k: nat)
    requires k < |ClassNames(d)|
    ensures (worked + FirstClasses(d, k)) + {ClassNames(d)[k]} == worked + FirstClasses(d, k + 1)
  {
  }

  lemma NextClass(d: Driver, worked: set<string>, k: nat)
    requires NoRepeats(ClassNames(d)) && k < |ClassNames(d)| && forall c :: c in ClassNames(d) ==> c !in worked
    ensures ClassNames(d)[k] !in worked + FirstClasses(d, k)
  {
  }

  /** Class k of the driver. */
  method MigrateNth(cl: Cluster, pvList: array<PV>, ghost f: Found, ghost worked: set<string>, ghost d: Driver,
                    ghost k: nat, name: string, missing: Option<CephClass>, ghost classNames: seq<string>,
                    newSecretName: string, backupTime: string, ghost calm: bool)
    returns (err: Error)
    requires k < |ClassNames(d)| && name == ClassNames(d)[k] && newSecretName == CONNECTION_SECRET_PREFIX + d.name
    requires DriverCall(cl, f, worked, d, classNames) && backupTime == f.backupTime
    requires DriverState(cl.world, cl.db, f.pvs, pvList[..], worked, d, k)
    requires missing.None? <==> name in classNames
    requires missing.Some? ==> missing.value.name == name && OwnClass(d, missing.value)
    requires calm ==> CalmRun(cl, f, worked + FirstClasses(d, k))
    modifies cl, pvList
    ensures cl.Valid() && cl.Advanced() && OnlyStamped(old(cl.db), cl.db, backupTime)
    ensures err == NoError ==>
      && DriverCall(cl, f, worked, d, classNames)
      && DriverState(cl.world, cl.db, f.pvs, pvList[..], worked, d, k + 1)
      && (!cl.world.intruders ==> cl.db.connections == old(cl.db.connections))
    ensures calm ==>
      && CalmOutcome(cl.world, f, old(cl.db), cl.db, err, Clear(cl.world, f, name), ClassRecreatable(cl.world, f, name))
      && (err == NoError ==> CalmRun(cl, f, worked + FirstClasses(d, k + 1)))
  {
    hide Onward, Inv, Lawful, Replay, Quiet, Fresh, ClassDone, NoneOutstanding, FullList, Distinct, Clear, Ahead,
      CalmOutcome, ClassRecreatable, OnlyStamped, Guard, Apart, OnTheStore, OwnClass;
    ghost var start := cl.db;
    ghost var now := pvList[..];
    if missing.Some? {
      OnlyOwnClass(cl.world, cl.db, d, missing.value);
    }
    NextClass(d, worked, k);
    OneMore(d, worked, k);
    err := MigrateClass(cl, pvList, f, worked + FirstClasses(d, k), name, missing, newSecretName, backupTime);
    ClassesGrow(cl.world, start, cl.db);
    DriverStays(cl.world, start, cl.db, d);
    if err == NoError {
      DriverStep(cl.world, start, cl.db, f.pvs, now, pvList[..], worked, d, k);
    }
  }

  method EnsureConnection(cl: Cluster, ghost f: Found, ghost now: seq<PV>, ghost worked: set<string>, driver: Driver,
                          connectionNames: seq<string>)
    returns (err: Error)
    requires cl.Valid() && Fresh(cl.db, f.pvs, now, worked) && OnTheStore(cl.db, driver)
    requires forall c :: c in connectionNames ==> c in cl.db.connections
    modifies cl
    ensures cl.Valid() && cl.Advanced() && cl.db.backups == old(cl.db.backups) && cl.db.classes == old(cl.db.classes)
    ensures cl.db.drivers == old(cl.db.drivers)
    ensures cl.db.connections.Keys <= old(cl.db.connections).Keys + {driver.name}
    ensures !cl.world.intruders ==> Terminating(cl.db) == Terminating(old(cl.db))
    ensures err == NoError ==> DriverState(cl.world, cl.db, f.pvs, now, worked, driver, 0)
    ensures old(Calm(cl.weather)) && (driver.name in old(cl.db.connections) ==> driver.name in connectionNames) ==> err == NoError
  {
    hide Onward, Inv, Lawful, Replay, Quiet, Fresh, DriverState, Terminating, OwnConnection, Guard;
    OnwardRefl(cl.world, cl.db);
    err := NoError;
    var found := FindName(connectionNames, driver.name);
    if !found {
      var connection := MakeConnection(driver);
      ConnectionMayBeMade(cl.world, cl.db, driver, connection);
      err := Add(cl, CreateConnection(connection), f.pvs, now, worked);
    }
    if err == NoError {
      DriverStarts(cl.world, cl.db, f.pvs, now, worked, driver);
    }
  }

  lemma ConnectionMayBeMade(w: World, s: Store, d: Driver, c: Connection)
    requires OnTheStore(s, d) && OwnConnection(d, c)
    ensures c.name == d.name && Guard(w, s, CreateConnection(c))
  {
    MarkedIsSame(d);
    hide Marked;
  }

  /** The first k classes of the driver, from the given one on, are clear. */
  predicate ClearUpTo(w: World, f: Found, d: Driver, from: nat, k: nat) {
    forall i :: from <= i < k && i < |ClassNames(d)| ==> Clear(w, f, ClassNames(d)[i])
  }

  lemma ClearStep(w: World, f: Found, d: Driver, from: nat, i: nat, k: nat)
    ensures ClearUpTo(w, f, d, from, from)
    ensures from <= i < |ClassNames(d)| ==>
      (ClearUpTo(w, f, d, from, i + 1) <==> ClearUpTo(w, f, d, from, i) && Clear(w, f, ClassNames(d)[i]))
    ensures from <= i < k && i < |ClassNames(d)| && ClearUpTo(w, f, d, from, k) ==> Clear(w, f, ClassNames(d)[i])
  {
    hide Clear, ClassNames;
  }

  method MigrateFsClasses(cl: Cluster, pvList: array<PV>, ghost f: Found, ghost worked: set<string>, driver: Driver,
                          classNames: seq<string>, backupTime: string)
    returns (err: Error)
    requires cl.Valid() && DriverCall(cl, f, worked, driver, classNames) && backupTime == f.backupTime
    requires driver.cephfs.Some? && DriverState(cl.world, cl.db, f.pvs, pvList[..], worked, driver, 0)
    modifies cl, pvList
    ensures cl.Valid() && cl.Advanced() && OnlyStamped(old(cl.db), cl.db, backupTime)
    ensures |driver.cephfs.value.classes| <= |ClassNames(driver)|
    ensures err == NoError ==>
      && DriverCall(cl, f, worked, driver, classNames)
      && DriverState(cl.world, cl.db, f.pvs, pvList[..], worked, driver, |driver.cephfs.value.classes|)
      && (!cl.world.intruders ==> cl.db.connections == old(cl.db.connections))
    ensures old(CalmRun(cl, f, worked + FirstClasses(driver, 0))) ==>
      && CalmOutcome(cl.world, f, old(cl.db), cl.db, err, ClearUpTo(cl.world, f, driver, 0, |driver.cephfs.value.classes|),
                     DriverRecreatable(cl.world, f, driver))
      && (err == NoError ==> CalmRun(cl, f, worked + FirstClasses(driver, |driver.cephfs.value.classes|)))
  {
    hide Onward, Inv, Lawful, Replay, Quiet, ClassDone, NoneOutstanding, FullList, Distinct, DriverState, Planned, NoRepeats,
      Clear, CalmRun, Ahead, FirstClasses, ClearUpTo, CalmOutcome, ClassRecreatable, DriverRecreatable, OnlyStamped,
      DriverCall, Terminating, Calm, NoneOutstanding, OwnClass, OwnFsClass, ClassName, Apart, OnTheStore, ClassNames;
    ClassNameNth(driver, 0);
    ghost var start := cl.db;
    ghost var calm := CalmRun(cl, f, worked + FirstClasses(driver, 0));
    ClearStep(cl.world, f, driver, 0, 0, 0);
    OnwardRefl(cl.world, cl.db);
    StampedSame(start, start, backupTime);
    var fs := driver.cephfs.value.classes;
    CalmEnd(cl.world, f, start, start, true, true);
    for i := 0 to |fs|
      invariant cl.Valid() && cl.Advanced() && OnlyStamped(start, cl.db, backupTime)
      invariant DriverCall(cl, f, worked, driver, classNames)
      invariant DriverState(cl.world, cl.db, f.pvs, pvList[..], worked, driver, i)
      invariant !cl.world.intruders ==> cl.db.connections == start.connections
      invariant calm ==> CalmRun(cl, f, worked + FirstClasses(driver, i)) && ClearUpTo(cl.world, f, driver, 0, i)
      invariant calm ==> CalmOutcome(cl.world, f, start, cl.db, NoError, true, true)
    {
      ghost var middle := cl.db;
      var name := ClassName(driver.name, fs[i].postfix);
      ClassNameNth(driver, i);
      ClearStep(cl.world, f, driver, 0, i, |fs|);
      var missing := None;
      var found := FindName(classNames, name);
      if !found {
        var cephClass := MakeFsClass(driver, fs[i]);
        CallFacts(cl, f, worked, driver, classNames);
        FsClassIsOwn(driver, i, cephClass);
        missing := Some(cephClass);
      }
      err := MigrateNth(cl, pvList, f, worked, driver, i, name, missing, classNames,
                        CONNECTION_SECRET_PREFIX + driver.name, backupTime, calm);
      Chain(cl.world, start, middle, cl.db, backupTime);
      if calm {
        RecreatableNth(cl.world, f, driver, i);
        CalmChain(cl.world, f, start, middle, cl.db, err, Clear(cl.world, f, ClassNames(driver)[i]),
                  ClassRecreatable(cl.world, f, ClassNames(driver)[i]), ClearUpTo(cl.world, f, driver, 0, |fs|),
                  DriverRecreatable(cl.world, f, driver));
      }
      if err != NoError {
        return;
      }
    }
    if calm {
      CalmEnd(cl.world, f, start, cl.db, ClearUpTo(cl.world, f, driver, 0, |fs|), DriverRecreatable(cl.world, f, driver));
    }
    return NoError;
  }

  /** One more step, after steps that succeeded. */
  lemma CalmChain(w: World, f: Found, a: Store, b: Store, c: Store, err: Error, clear: bool, recreatable: bool,
                  allClear: bool, allRecreatable: bool)
    requires CalmOutcome(w, f, a, b, NoError, true, true) && CalmOutcome(w, f, b, c, err, clear, recreatable)
    requires (allClear ==> clear) && (allRecreatable ==> recreatable)
    ensures err != NoError ==> CalmOutcome(w, f, a, c, err, allClear, allRecreatable)
    ensures err == NoError ==> CalmOutcome(w, f, a, c, NoError, true, true) && clear
  {
    hide Hit, Terminating;
  }

  lemma CalmEnd(w: World, f: Found, a: Store, b: Store, allClear: bool, allRecreatable: bool)
    requires allClear
    ensures a == b || CalmOutcome(w, f, a, b, NoError, true, true) ==> CalmOutcome(w, f, a, b, NoError, allClear, allRecreatable)
  {
    hide Hit, Terminating;
  }

  lemma RecreatableNth(w: World, f: Found, d: Driver, k: nat)
    requires k < |ClassNames(d)|
    ensures DriverRecreatable(w, f, d) ==> Creatable(f.db, d) && ClassRecreatable(w, f, ClassNames(d)[k])
  {
    hide ClassRecreatable, ClassNames, Creatable;
  }

  lemma RbdClassNth(d: Driver, offset: nat, i: nat)
    requires d.rbd.Some? && offset == |ClassNames(d)| - |d.rbd.value| && i < |d.rbd.value|
    ensures ClassName(d.name, d.rbd.value[i].postfix) == ClassNames(d)[offset + i]
  {
  }

  predicate RbdClearNth(w: World, f: Found, d: Driver, offset: nat, i: nat)
    requires d.rbd.Some? && i < |d.rbd.value| && offset + i < |ClassNames(d)|
  {
    CreatableNth(f.db, d, i) && Clear(w, f, ClassNames(d)[offset + i])
  }

  /** RBD class i of the driver. */
  method MigrateRbdNth(cl: Cluster, pvList: array<PV>, ghost f: Found, ghost worked: set<string>, driver: Driver,
                       ghost offset: nat, i: nat, classNames: seq<string>, backupTime: string)
    returns (err: Error)
    requires DriverCall(cl, f, worked, driver, classNames) && backupTime == f.backupTime
    requires driver.rbd.Some? && offset == |ClassNames(driver)| - |driver.rbd.value| && i < |driver.rbd.value|
    requires DriverState(cl.world, cl.db, f.pvs, pvList[..], worked, driver, offset + i)
    modifies cl, pvList
    ensures cl.Valid() && cl.Advanced() && OnlyStamped(old(cl.db), cl.db, backupTime)
    ensures err == NoError ==>
      && DriverCall(cl, f, worked, driver, classNames)
      && DriverState(cl.world, cl.db, f.pvs, pvList[..], worked, driver, offset + i + 1)
      && (!cl.world.intruders ==> cl.db.connections == old(cl.db.connections))
      && CreatableNth(f.db, driver, i)
    ensures old(CalmRun(cl, f, worked + FirstClasses(driver, offset + i))) ==>
      && CalmOutcome(cl.world, f, old(cl.db), cl.db, err, RbdClearNth(cl.world, f, driver, offset, i),
                     CreatableNth(f.db, driver, i) && ClassRecreatable(cl.world, f, ClassNames(driver)[offset + i]))
      && (err == NoError ==> CalmRun(cl, f, worked + FirstClasses(driver, offset + i + 1)))
  {
    hide Onward, Inv, Lawful, Replay, Quiet, ClassDone, NoneOutstanding, FullList, Distinct, DriverState, Planned, NoRepeats,
      Clear, CalmRun, Ahead, FirstClasses, ClassRecreatable, Terminating, OnlyStamped, Hit, OwnClass, OwnRbdClass, ClassName,
      Apart, OnTheStore;
    OnwardRefl(cl.world, cl.db);
    StampedSame(cl.db, cl.db, backupTime);
    RbdClassNth(driver, offset, i);
    var class_ := driver.rbd.value[i];
    var name := ClassName(driver.name, class_.postfix);
    var missing := None;
    var found := FindName(classNames, name);
    if !found {
      if class_.expansion.None? {
        return Crashed;
      }
      var cephClass := MakeRbdClass(driver, class_);
      RbdClassIsOwn(driver, i, cephClass);
      missing := Some(cephClass);
    }
    err := MigrateNth(cl, pvList, f, worked, driver, offset + i, name, missing, classNames,
                      CONNECTION_SECRET_PREFIX + driver.name, backupTime, CalmRun(cl, f, worked + FirstClasses(driver, offset + i)));
  }

  method MigrateRbdClasses(cl: Cluster, pvList: array<PV>, ghost f: Found, ghost worked: set<string>, driver: Driver,
                           ghost offset: nat, classNames: seq<string>, backupTime: string)
    returns (err: Error)
    requires cl.Valid() && DriverCall(cl, f, worked, driver, classNames) && backupTime == f.backupTime
    requires driver.rbd.Some? && offset == |ClassNames(driver)| - |driver.rbd.value|
    requires DriverState(cl.world, cl.db, f.pvs, pvList[..], worked, driver, offset)
    modifies cl, pvList
    ensures cl.Valid() && cl.Advanced() && OnlyStamped(old(cl.db), cl.db, backupTime)
    ensures err == NoError ==>
      && DriverCall(cl, f, worked, driver, classNames)
      && DriverState(cl.world, cl.db, f.pvs, pvList[..], worked, driver, |ClassNames(driver)|)
      && (!cl.world.intruders ==> cl.db.connections == old(cl.db.connections))
    ensures old(CalmRun(cl, f, worked + FirstClasses(driver, offset))) ==>
      && CalmOutcome(cl.world, f, old(cl.db), cl.db, err, RbdClear(cl.world, f, driver, offset),
                     DriverRecreatable(cl.world, f, driver))
      && (err == NoError ==> CalmRun(cl, f, worked + FirstClasses(driver, |ClassNames(driver)|)))
  {
    hide Onward, Inv, Lawful, Replay, Quiet, ClassDone, NoneOutstanding, FullList, Distinct, DriverState, Planned, NoRepeats,
      Clear, CalmRun, Ahead, FirstClasses, ClearUpTo, CreatableUpTo, CreatableNth, Creatable, ClassNames, RbdClearNth,
      CalmOutcome, ClassRecreatable, DriverRecreatable, OnlyStamped, DriverCall, Calm;
    ghost var start := cl.db;
    ghost var calm := CalmRun(cl, f, worked + FirstClasses(driver, offset));
    ClearStep(cl.world, f, driver, offset, offset, offset);
    CreatableStep(f.db, driver, 0);
    OnwardRefl(cl.world, cl.db);
    StampedSame(start, start, backupTime);
    CalmEnd(cl.world, f, start, start, true, true);
    var rbd := driver.rbd.value;
    for i := 0 to |rbd|
      invariant cl.Valid() && cl.Advanced() && OnlyStamped(start, cl.db, backupTime)
      invariant DriverCall(cl, f, worked, driver, classNames)
      invariant DriverState(cl.world, cl.db, f.pvs, pvList[..], worked, driver, offset + i)
      invariant !cl.world.intruders ==> cl.db.connections == start.connections
      invariant calm ==>
        CalmRun(cl, f, worked + FirstClasses(driver, offset + i)) && ClearUpTo(cl.world, f, driver, offset, offset + i)
      invariant calm ==> CalmOutcome(cl.world, f, start, cl.db, NoError, true, true)
      invariant CreatableUpTo(f.db, driver, i)
    {
      ghost var middle := cl.db;
      err := MigrateRbdNth(cl, pvList, f, worked, driver, offset, i, classNames, backupTime);
      Chain(cl.world, start, middle, cl.db, backupTime);
      RbdStep(cl.world, f, driver, offset, i);
      if calm {
        CalmChain(cl.world, f, start, middle, cl.db, err, RbdClearNth(cl.world, f, driver, offset, i),
                  CreatableNth(f.db, driver, i) && ClassRecreatable(cl.world, f, ClassNames(driver)[offset + i]),
                  RbdClear(cl.world, f, driver, offset), DriverRecreatable(cl.world, f, driver));
      }
      if err != NoError {
        return;
      }
    }
    CreatableStep(f.db, driver, 0);
    if calm {
      CalmEnd(cl.world, f, start, cl.db, RbdClear(cl.world, f, driver, offset), DriverRecreatable(cl.world, f, driver));
    }
    return NoError;
  }

  predicate RbdClear(w: World, f: Found, d: Driver, offset: nat) {
    Creatable(f.db, d) && ClearUpTo(w, f, d, offset, |ClassNames(d)|)
  }

  lemma RbdStep(w: World, f: Found, d: Driver, offset: nat, i: nat)
    requires d.rbd.Some? && offset == |ClassNames(d)| - |d.rbd.value| && i < |d.rbd.value|
    ensures CreatableUpTo(f.db, d, i) && CreatableNth(f.db, d, i) ==> CreatableUpTo(f.db, d, i + 1)
    ensures ClearUpTo(w, f, d, offset, offset + i) && RbdClearNth(w, f, d, offset, i) ==> ClearUpTo(w, f, d, offset, offset + i + 1)
    ensures RbdClear(w, f, d, offset) ==> RbdClearNth(w, f, d, offset, i)
    ensures DriverRecreatable(w, f, d) ==> CreatableNth(f.db, d, i) && ClassRecreatable(w, f, ClassNames(d)[offset + i])
  {
    hide ClassRecreatable, ClassNames, Creatable, CreatableNth, CreatableUpTo, ClearUpTo, Clear;
    CreatableStep(f.db, d, i);
    ClearStep(w, f, d, offset, offset + i, |ClassNames(d)|);
  }

  /** What stays the same while one driver is worked on. */
  ghost predicate DriverCall(cl: Cluster, f: Found, worked: set<string>, driver: Driver, classNames: seq<string>)
    reads cl
  {
    && cl.Valid() && cl.world.source == BACKUP_SOURCE
    && (!cl.world.intruders ==> FullList(cl.world, f.pvs) && NoneOutstanding(cl.db, BACKUP_SOURCE))
    && Distinct(f.pvs)
    && OnTheStore(cl.db, driver) && Apart(cl.db, driver)
    && NoRepeats(ClassNames(driver)) && (forall c :: c in ClassNames(driver) ==> c !in worked)
    && Planned(cl.world, driver)
    && (forall c :: c in classNames ==> c in cl.db.classes)
    && (forall c :: c in classNames <==> c in f.db.classes)
  }

  lemma CallFacts(cl: Cluster, f: Found, worked: set<string>, driver: Driver, classNames: seq<string>)
    requires DriverCall(cl, f, worked, driver, classNames)
    ensures OnTheStore(cl.db, driver) && Apart(cl.db, driver) && NoRepeats(ClassNames(driver))
    ensures forall c :: c in classNames <==> c in f.db.classes
  {
  }

  lemma ClearInParts(w: World, f: Found, d: Driver)
    ensures var fs := if d.cephfs.Some? then |d.cephfs.value.classes| else 0;
      && fs == |ClassNames(d)| - (if d.rbd.Some? then |d.rbd.value| else 0)
      && (DriverClear(w, f, d) <==>
            Creatable(f.db, d) && ClearUpTo(w, f, d, 0, fs) && ClearUpTo(w, f, d, fs, |ClassNames(d)|))
    ensures d.rbd.None? ==> Creatable(f.db, d)
    ensures forall k :: ClearUpTo(w, f, d, k, k)
  {
    hide Clear;
  }

  lemma FirstAndAll(d: Driver, worked: set<string>)
    ensures worked + FirstClasses(d, 0) == worked
    ensures worked + FirstClasses(d, |ClassNames(d)|) == worked + set c | c in ClassNames(d)
  {
    hide ClassNames;
  }

  lemma AheadSame(f: Found, s: Store, t: Store, worked: set<string>)
    requires t.backups == s.backups && t.classes == s.classes
    ensures Ahead(f, t, worked) <==> Ahead(f, s, worked)
  {
  }

  /** Connection and classes of one driver. */
  method MigrateDriverClasses(cl: Cluster, pvList: array<PV>, ghost f: Found, ghost worked: set<string>, driver: Driver,
                              connectionNames: seq<string>, classNames: seq<string>, backupTime: string)
    returns (err: Error)
    requires DriverCall(cl, f, worked, driver, classNames) && backupTime == f.backupTime
    requires Fresh(cl.db, f.pvs, pvList[..], worked)
    requires forall c :: c in connectionNames ==> c in cl.db.connections
    modifies cl, pvList
    ensures cl.Valid() && cl.Advanced() && OnlyStamped(old(cl.db), cl.db, backupTime)
    ensures err == NoError ==>
      && DriverCall(cl, f, worked, driver, classNames)
      && DriverState(cl.world, cl.db, f.pvs, pvList[..], worked, driver, |ClassNames(driver)|)
      && (!cl.world.intruders ==> cl.db.connections.Keys <= old(cl.db.connections).Keys + {driver.name})
    ensures old(CalmRun(cl, f, worked)) && (driver.name in old(cl.db.connections) ==> driver.name in connectionNames) ==>
      && CalmOutcome(cl.world, f, old(cl.db), cl.db, err, DriverClear(cl.world, f, driver), DriverRecreatable(cl.world, f, driver))
      && (err == NoError ==> CalmRun(cl, f, worked + FirstClasses(driver, |ClassNames(driver)|)))
  {
    hide Onward, Inv, Lawful, Replay, Quiet, Fresh, ClassDone, NoneOutstanding, FullList, Distinct, DriverState, Planned,
      NoRepeats, Ahead, FirstClasses, Creatable, ClearUpTo, DriverClear, ClassNames, Hit,
      DriverRecreatable, Terminating, OnlyStamped, OnTheStore, Apart;
    ghost var start := cl.db;
    err := EnsureConnection(cl, f, pvList[..], worked, driver, connectionNames);
    DriverStays(cl.world, start, cl.db, driver);
    AheadSame(f, start, cl.db, worked);
    ClassesGrow(cl.world, start, cl.db);
    SameOutstanding(start, cl.db, BACKUP_SOURCE);
    StampedSame(start, cl.db, backupTime);
    ClearInParts(cl.world, f, driver);
    FirstAndAll(driver, worked);
    if err != NoError {
      return;
    }
    ghost var middle := cl.db;
    if driver.cephfs.Some? {
      err := MigrateFsClasses(cl, pvList, f, worked, driver, classNames, backupTime);
      Chain(cl.world, start, middle, cl.db, backupTime);
      if err != NoError {
        return;
      }
    }
    middle := cl.db;
    if driver.rbd.Some? {
      err := MigrateRbdClasses(cl, pvList, f, worked, driver, |ClassNames(driver)| - |driver.rbd.value|, classNames, backupTime);
      Chain(cl.world, start, middle, cl.db, backupTime);
    }
  }

  /** Connection, classes and volumes of one driver, and then its label. */
  method MigrateDriver(cl: Cluster, pvList: array<PV>, ghost f: Found, ghost worked: set<string>, driver: Driver,
                       connectionNames: seq<string>, classNames: seq<string>, backupTime: string)
    returns (err: Error)
    requires DriverCall(cl, f, worked, driver, classNames) && backupTime == f.backupTime
    requires Fresh(cl.db, f.pvs, pvList[..], worked)
    requires forall c :: c in connectionNames ==> c in cl.db.connections
    modifies cl, pvList
    ensures cl.Valid() && cl.Advanced() && OnlyStamped(old(cl.db), cl.db, backupTime)
    ensures err == NoError ==>
      && Fresh(cl.db, f.pvs, pvList[..], worked + set c | c in ClassNames(driver))
      && driver.name in cl.db.drivers && cl.db.drivers[driver.name] == Marked(driver) && IsMigrated(cl.db.drivers[driver.name])
      && (!cl.world.intruders ==>
            && DriverDone(cl.world, cl.db, Marked(driver))
            && NoneOutstanding(cl.db, BACKUP_SOURCE)
            && cl.db.connections.Keys <= old(cl.db.connections).Keys + {driver.name})
    ensures old(CalmRun(cl, f, worked)) && (driver.name in old(cl.db.connections) ==> driver.name in connectionNames) ==>
      && CalmOutcome(cl.world, f, old(cl.db), cl.db, err, DriverClear(cl.world, f, driver), DriverRecreatable(cl.world, f, driver))
      && (err == NoError ==> CalmRun(cl, f, worked + set c | c in ClassNames(driver)))
  {
    hide Onward, Inv, Lawful, Replay, Quiet, Fresh, ClassDone, NoneOutstanding, FullList, Distinct, DriverState, Planned,
      NoRepeats, Ahead, FirstClasses, DriverClear, ClassNames, DriverRecreatable, Terminating, OnlyStamped, Hit, DriverDone,
      IsMigrated, OnTheStore, Apart;
    ghost var start := cl.db;
    err := MigrateDriverClasses(cl, pvList, f, worked, driver, connectionNames, classNames, backupTime);
    if err != NoError {
      return;
    }
    ghost var middle := cl.db;
    FirstAndAll(driver, worked);
    var labels := driver.labels;
    labels := labels[MIGRATED_LABEL := MIGRATED_VALUE];
    var labelled := driver.(labels := labels);
    DriverIsDone(cl.world, cl.db, f.pvs, pvList[..], worked, driver, labelled);
    err := PutLabel(cl, labelled, f.pvs, pvList[..], worked + set c | c in ClassNames(driver));
    AheadSame(f, middle, cl.db, worked + set c | c in ClassNames(driver));
    SameOutstanding(middle, cl.db, BACKUP_SOURCE);
    StampedSame(middle, cl.db, backupTime);
    Chain(cl.world, start, middle, cl.db, backupTime);
    if !cl.world.intruders {
      OnwardDone(cl.world, middle, cl.db, labelled);
    }
  }

  lemma Chain(w: World, a: Store, b: Store, c: Store, backupTime: string)
    requires Onward(w, a, b) && Onward(w, b, c) && OnlyStamped(a, b, backupTime) && OnlyStamped(b, c, backupTime)
    ensures Onward(w, a, c) && OnlyStamped(a, c, backupTime)
  {
    OnwardTrans(w, a, b, c);
  }

  lemma DriverStarts(w: World, s: Store, listed: seq<PV>, now: seq<PV>, worked: set<string>, d: Driver)
    requires Fresh(s, listed, now, worked) && d.name in s.connections
    ensures DriverState(w, s, listed, now, worked, d, 0)
  {
  }

  lemma DriverIsDone(w: World, s: Store, listed: seq<PV>, now: seq<PV>, worked: set<string>, d: Driver, labelled: Driver)
    requires Inv(w, s) && DriverState(w, s, listed, now, worked, d, |ClassNames(d)|)
    requires labelled == d.(labels := d.labels[MIGRATED_LABEL := MIGRATED_VALUE]) && OnTheStore(s, d)
    ensures labelled == Marked(d) && Guard(w, s, PutDriver(labelled)) && IsMigrated(labelled)
    ensures Fresh(s, listed, now, worked + set c | c in ClassNames(d))
  {
    hide Conserved, NothingLost, LabelsTruthful, BackupsSound, Fresh, ClassNames, ClassMoved, OwnConnection, OwnClass, IsMigrated;
    FirstAndAll(d, worked);
    MarkedIsSame(d);
    assert labelled == Marked(d);
    hide Marked;
    forall c | c in ClassNames(d) ensures ClassDone(w, s, c) {
      var i :| 0 <= i < |ClassNames(d)| && ClassNames(d)[i] == c;
    }
  }

  method PutLabel(cl: Cluster, labelled: Driver, ghost listed: seq<PV>, ghost now: seq<PV>, ghost worked: set<string>)
    returns (err: Error)
    requires cl.Valid() && Guard(cl.world, cl.db, PutDriver(labelled)) && Fresh(cl.db, listed, now, worked)
    modifies cl
    ensures cl.Valid() && cl.Advanced() && cl.db.backups == old(cl.db.backups) && Fresh(cl.db, listed, now, worked)
    ensures cl.db.classes == old(cl.db.classes) && cl.db.connections == old(cl.db.connections)
    ensures !cl.world.intruders ==> Terminating(cl.db) == Terminating(old(cl.db))
    ensures old(Calm(cl.weather)) ==> err == NoError
    ensures err == NoError ==> labelled.name in cl.db.drivers && cl.db.drivers[labelled.name] == labelled
  {
    hide Onward, Inv, Lawful, Replay, Quiet, Fresh, VolumesDrifted, DriverDone, Terminating;
    var echo;
    ghost var at;
    err, echo, at := cl.Request(PutDriver(labelled));
    FreshDrifts(cl.world, old(cl.db), at, listed, now, worked);
    if cl.db != at {
      LabelKeepsVolumes(cl.world, at, cl.db, labelled);
      FreshDrifts(cl.world, at, cl.db, listed, now, worked);
    }
    if !cl.world.intruders {
      DriftKeepsTerminating(cl.world, old(cl.db), at);
    }
  }

  lemma LabelKeepsVolumes(w: World, at: Store, t: Store, d: Driver)
    requires t == Apply(at, PutDriver(d))
    ensures VolumesDrifted(w, at, t) && t.backups == at.backups && t.classes == at.classes && t.connections == at.connections
      && Terminating(t) == Terminating(at)
  {
  }

  // ---- The hook ----

  ghost predicate AllMigrated(s: Store) {
    forall d :: d in s.drivers ==> IsMigrated(s.drivers[d])
  }

  /** The drivers still to be migrated. */
  ghost predicate ListsDrivers(s: Store, drivers: seq<Driver>) {
    && (forall i :: 0 <= i < |drivers| ==> drivers[i].name in s.drivers && s.drivers[drivers[i].name] == drivers[i])
    && (forall i, j :: 0 <= i < j < |drivers| ==> drivers[i].name != drivers[j].name)
    && (forall d :: d in s.drivers && !IsMigrated(s.drivers[d]) ==> s.drivers[d] in drivers)
    && (forall i :: 0 <= i < |drivers| ==> !IsMigrated(drivers[i]))
  }

  method SelectDrivers(names: seq<string>, all: seq<Driver>) returns (drivers: seq<Driver>)
    requires |names| == |all| && forall i :: 0 <= i < |all| ==> all[i].name == names[i]
    requires forall i, j :: 0 <= i < j < |names| ==> names[i] != names[j]
    ensures forall i :: 0 <= i < |drivers| ==> drivers[i] in all && !IsMigrated(drivers[i])
    ensures forall i, j :: 0 <= i < j < |drivers| ==> drivers[i].name != drivers[j].name
    ensures forall d :: d in all && !IsMigrated(d) ==> d in drivers
  {
    drivers := [];
    for i := 0 to |all|
      invariant forall j :: 0 <= j < |drivers| ==> drivers[j] in all[..i] && !IsMigrated(drivers[j])
      invariant forall j, k :: 0 <= j < k < |drivers| ==> drivers[j].name != drivers[k].name
      invariant forall d :: d in all[..i] && !IsMigrated(d) ==> d in drivers
    {
      assert forall j :: 0 <= j < |drivers| ==> drivers[j].name != names[i];
      if !(MIGRATED_LABEL in all[i].labels && all[i].labels[MIGRATED_LABEL] == MIGRATED_VALUE) {
        drivers := drivers + [all[i]];
      }
    }
  }

  method ListDrivers(cl: Cluster) returns (err: Error, drivers: seq<Driver>)
    requires cl.Valid()
    modifies cl
    ensures cl.Valid() && cl.Advanced() && Drifted(cl.world, old(cl.db), cl.db) && OnlyWorld(old(cl.log), cl.log)
    ensures err == NoError ==> ListsDrivers(cl.db, drivers)
    ensures old(Calm(cl.weather)) ==> err == NoError
  {
    hide Onward, Lawful, Replay, Conserved, Quiet, LabelsTruthful, NothingLost, BackupsSound, PlanIsOwn;
    err := cl.Read();
    if err != NoError {
      return err, [];
    }
    var names, all := Listing(cl.db.drivers);
    drivers := SelectDrivers(names, all);
    forall d | d in cl.db.drivers && !IsMigrated(cl.db.drivers[d]) ensures cl.db.drivers[d] in drivers {
      assert d in names;
      var i :| 0 <= i < |names| && names[i] == d;
      assert all[i] == cl.db.drivers[d];
    }
  }

  method ListConnections(cl: Cluster) returns (err: Error, names: seq<string>)
    requires cl.Valid()
    modifies cl
    ensures cl.Valid() && cl.Advanced() && Drifted(cl.world, old(cl.db), cl.db)
    ensures err == NoError ==> forall c :: c in names <==> c in cl.db.connections
    ensures old(Calm(cl.weather)) ==> err == NoError
  {
    hide Onward, Inv, Lawful, Replay, Quiet;
    err := cl.Read();
    var items;
    names, items := Listing(cl.db.connections);
  }

  method ListClasses(cl: Cluster) returns (err: Error, names: seq<string>)
    requires cl.Valid()
    modifies cl
    ensures cl.Valid() && cl.Advanced() && Drifted(cl.world, old(cl.db), cl.db)
    ensures err == NoError ==> forall c :: c in names <==> c in cl.db.classes
    ensures old(Calm(cl.weather)) ==> err == NoError
  {
    hide Onward, Inv, Lawful, Replay, Quiet;
    err := cl.Read();
    var items;
    names, items := Listing(cl.db.classes);
  }

  /** Names of the classes of the first i drivers. */
  ghost function Worked(drivers: seq<Driver>, i: nat): set<string>
    requires i <= |drivers|
  {
    set j, c | 0 <= j < i && c in ClassNames(drivers[j]) :: c
  }

  lemma WorkedGrows(drivers: seq<Driver>, i: nat)
    requires i < |drivers|
    ensures Worked(drivers, i) + (set c | c in ClassNames(drivers[i])) == Worked(drivers, i + 1)
  {
  }

  /** Where the hook stands before driver i. */
  ghost predicate HookState(w: World, s: Store, drivers: seq<Driver>, i: nat) {
    && i <= |drivers|
    && (forall j :: 0 <= j < |drivers| ==>
      OnTheStore(s, drivers[j]) && Apart(s, drivers[j]))
    && (forall d :: d in s.drivers && !IsMigrated(s.drivers[d]) ==> exists j :: i <= j < |drivers| && drivers[j].name == d)
    && (forall j :: 0 <= j < |drivers| ==> Planned(w, drivers[j]) && NoRepeats(ClassNames(drivers[j])))
    && (forall j, k, c :: 0 <= j < k < |drivers| && c in ClassNames(drivers[j]) ==> c !in ClassNames(drivers[k]))
  }

  lemma HookStarts(w: World, s: Store, drivers: seq<Driver>)
    requires WellFormed(s) && GoodPlan(w, s) && ListsDrivers(s, drivers)
    ensures HookState(w, s, drivers, 0)
  {
  }

  lemma PlanOnward(w: World, s: Store, t: Store)
    requires WellFormed(s) && WellFormed(t) && Onward(w, s, t) && GoodPlan(w, s)
    ensures GoodPlan(w, t)
  {
    hide WellFormed, Onward, NoRepeats, ClassNames;
    forall d | d in t.drivers ensures d in s.drivers && SameClasses(s.drivers[d], t.drivers[d]) {
      SameDriver(w, s, t, d);
    }
  }

  ghost predicate SameClasses(d: Driver, e: Driver) {
    e.name == d.name && ClassNames(e) == ClassNames(d)
  }

  lemma SameDriver(w: World, s: Store, t: Store, d: string)
    requires Onward(w, s, t) && d in t.drivers
    ensures d in s.drivers && SameClasses(s.drivers[d], t.drivers[d])
  {
    hide Exposures, Moved, Marked, ClassNames;
    assert d in s.drivers.Keys;
    MarkedIsSame(s.drivers[d]);
  }

  lemma HookDrifts(w: World, s: Store, t: Store, drivers: seq<Driver>, i: nat)
    requires HookState(w, s, drivers, i) && t.drivers == s.drivers
    ensures HookState(w, t, drivers, i)
  {
  }

  lemma HookStep(w: World, s: Store, t: Store, drivers: seq<Driver>, i: nat)
    requires HookState(w, s, drivers, i) && i < |drivers| && Onward(w, s, t)
    requires drivers[i].name in t.drivers && IsMigrated(t.drivers[drivers[i].name])
    ensures HookState(w, t, drivers, i + 1)
  {
    hide OnTheStore, Apart, ClassNames, Planned, NoRepeats, Onward, IsMigrated;
    forall j | 0 <= j < |drivers| ensures OnTheStore(t, drivers[j]) && Apart(t, drivers[j]) {
      DriverStays(w, s, t, drivers[j]);
    }
    forall d | d in t.drivers && !IsMigrated(t.drivers[d]) ensures exists j :: i + 1 <= j < |drivers| && drivers[j].name == d {
      StillToDo(w, s, t, d);
      var j :| i <= j < |drivers| && drivers[j].name == d;
    }
  }

  /** A driver that is not labelled now was not before. */
  lemma StillToDo(w: World, s: Store, t: Store, d: string)
    requires Onward(w, s, t) && d in t.drivers && !IsMigrated(t.drivers[d])
    ensures d in s.drivers && !IsMigrated(s.drivers[d])
  {
    hide Exposures, Moved, ClassNames;
    assert d in s.drivers.Keys;
  }

  lemma HookEnds(w: World, s: Store, drivers: seq<Driver>)
    requires HookState(w, s, drivers, |drivers|)
    ensures AllMigrated(s)
  {
  }

  ghost predicate OriginalsThere(w: World, s: Store) {
    forall n :: n in w.orig ==> n in s.pvs
  }

  lemma OriginalsDrift(w: World, s: Store, t: Store)
    requires Drifted(w, s, t) && OriginalsThere(w, s)
    ensures OriginalsThere(w, t)
  {
  }

  /** Lists volumes, connections and classes. */
  method ListAll(cl: Cluster, ghost drivers: seq<Driver>)
    returns (err: Error, pvs: seq<PV>, connectionNames: seq<string>, classNames: seq<string>)
    requires cl.Valid() && HookState(cl.world, cl.db, drivers, 0) && OriginalsThere(cl.world, cl.db)
    modifies cl
    ensures cl.Valid() && cl.Advanced() && Others(old(cl.db), cl.db)
    ensures !cl.world.intruders ==> Terminating(cl.db) == Terminating(old(cl.db))
    ensures HookState(cl.world, cl.db, drivers, 0)
    ensures err == NoError ==>
      && Distinct(pvs) && Fresh(cl.db, pvs, pvs, {}) && (!cl.world.intruders ==> FullList(cl.world, pvs))
      && (forall c :: c in connectionNames <==> c in cl.db.connections)
      && (forall c :: c in classNames <==> c in cl.db.classes)
      && (!cl.world.intruders ==> ListsTouched(old(cl.db), pvs))
    ensures old(Calm(cl.weather)) ==> err == NoError
  {
    hide Onward, Inv, Lawful, Replay, Quiet, Fresh, FullList, Lists, HookState, VolumesDrifted, OriginalsThere,
      Distinct, ListsTouched, Terminating;
    connectionNames, classNames := [], [];
    ghost var start := cl.db;
    err, pvs := ListPVs(cl);
    HookDrifts(cl.world, start, cl.db, drivers, 0);
    OriginalsDrift(cl.world, start, cl.db);
    StillTerminating(cl.world, start, cl.db);
    if err != NoError {
      return;
    }
    ListIsFresh(cl.world, cl.db, pvs);
    ListIsDistinct(cl.db, pvs);
    if !cl.world.intruders {
      ListIsFull(cl.world, cl.db, pvs) by { OriginalsMeans(cl.world, cl.db); }
      ListIsTouched(cl.world, start, cl.db, pvs);
    }
    ghost var middle := cl.db;
    err, connectionNames := ListConnections(cl);
    OnwardTrans(cl.world, start, middle, cl.db);
    HookDrifts(cl.world, middle, cl.db, drivers, 0);
    FreshDrifts(cl.world, middle, cl.db, pvs, pvs, {});
    StillTerminating(cl.world, middle, cl.db);
    if err != NoError {
      return;
    }
    middle := cl.db;
    err, classNames := ListClasses(cl);
    OnwardTrans(cl.world, start, middle, cl.db);
    HookDrifts(cl.world, middle, cl.db, drivers, 0);
    FreshDrifts(cl.world, middle, cl.db, pvs, pvs, {});
    StillTerminating(cl.world, middle, cl.db);
  }

  lemma StillTerminating(w: World, s: Store, t: Store)
    requires VolumesDrifted(w, s, t)
    ensures !w.intruders ==> Terminating(t) == Terminating(s)
  {
    if !w.intruders {
      DriftKeepsTerminating(w, s, t);
    }
  }

  /** The items are the stored volumes, but for what the outside world added meanwhile. */
  ghost predicate ListsTouched(s: Store, items: seq<PV>) {
    && (forall j :: 0 <= j < |items| ==> items[j].name in s.pvs && Touched(s.clock, s.pvs[items[j].name], items[j]))
    && (forall n :: n in s.pvs ==> exists j :: 0 <= j < |items| && items[j].name == n)
  }

  lemma ListIsTouched(w: World, s: Store, t: Store, items: seq<PV>)
    requires !w.intruders && VolumesDrifted(w, s, t) && Lists(t, items)
    ensures ListsTouched(s, items)
  {
    hide Touched;
    forall n | n in s.pvs ensures exists j :: 0 <= j < |items| && items[j].name == n {
      assert n in t.pvs;
    }
    forall j | 0 <= j < |items| ensures items[j].name in s.pvs {
      assert items[j].name in t.pvs.Keys;
    }
  }

  lemma OriginalsMeans(w: World, s: Store)
    requires OriginalsThere(w, s)
    ensures forall n :: n in w.orig ==> n in s.pvs
  {
  }

  lemma ListIsDistinct(s: Store, items: seq<PV>)
    requires Lists(s, items)
    ensures Distinct(items)
  {
  }

  lemma HookDriver(w: World, s: Store, drivers: seq<Driver>, i: nat)
    requires HookState(w, s, drivers, i) && i < |drivers|
    ensures OnTheStore(s, drivers[i]) && Apart(s, drivers[i])
    ensures Planned(w, drivers[i]) && NoRepeats(ClassNames(drivers[i]))
    ensures forall c :: c in ClassNames(drivers[i]) ==> c !in Worked(drivers, i)
  {
  }

  // ---- When the whole hook succeeds ----

  /** The volume has to be recreated for class c to be moved. */
  predicate InTheWay(w: World, pv: PV, c: string) {
    c in w.target && Eligible(pv, c) && NeedsRecreate(pv, w.target[c])
  }

  /** The backup's volume is missing: the recovery will create it. */
  predicate Returns(w: World, s: Store, b: Backup) {
    Awaits(w, b) && b.data.pv.name !in s.pvs
  }

  /** Every volume of the class that has to be recreated, stored or about to return from a backup,
      has both references, and the name for its next backup is free. */
  predicate StoredRecreatable(w: World, s: Store, backupTime: string, c: string) {
    && c in w.target
    && (forall n :: n in s.pvs && InTheWay(w, s.pvs[n], c) ==> Recreatable(s, s.pvs[n], backupTime))
    && (forall k :: k in s.backups && Returns(w, s, s.backups[k]) && InTheWay(w, s.backups[k].data.pv, c) ==>
      Recreatable(s, s.backups[k].data.pv, backupTime))
  }

  /** And none of the stored ones is being deleted. */
  predicate ClassClear(w: World, s: Store, backupTime: string, c: string) {
    && StoredRecreatable(w, s, backupTime, c)
    && (forall n :: n in s.pvs && InTheWay(w, s.pvs[n], c) ==> !s.pvs[n].terminating)
  }

  /** Nothing is in the way of any driver that is still to be migrated. */
  predicate HookClear(w: World, s: Store, backupTime: string) {
    forall d :: d in s.drivers && !IsMigrated(s.drivers[d]) ==>
      && Creatable(s, s.drivers[d])
      && forall i :: 0 <= i < |ClassNames(s.drivers[d])| ==> ClassClear(w, s, backupTime, ClassNames(s.drivers[d])[i])
  }

  /** What is in the way, if anything, is that volumes are terminating. */
  predicate HookRecreatable(w: World, s: Store, backupTime: string) {
    forall d :: d in s.drivers && !IsMigrated(s.drivers[d]) ==>
      && Creatable(s, s.drivers[d])
      && forall i :: 0 <= i < |ClassNames(s.drivers[d])| ==> StoredRecreatable(w, s, backupTime, ClassNames(s.drivers[d])[i])
  }

  /** What a run from store s to store t without failing calls does: it succeeds only if the
      outstanding backups decode and nothing is in the way; if that is so it can only fail because
      the outside world protects a volume between its listing and its update, which then cannot
      happen to it again; and a run that fails over terminating volumes leaves fewer of them. */
  ghost predicate HookOutcome(w: World, s: Store, t: Store, err: Error, backupTime: string) {
    && Terminating(t) <= Terminating(s) && Exposures(w, t) <= Exposures(w, s)
    && (err == NoError ==> AllRestorable(s, w.source) && HookClear(w, s, backupTime))
    && (err != NoError && AllRestorable(s, w.source) && HookClear(w, s, backupTime) ==> Exposures(w, t) < Exposures(w, s))
    && (err != NoError && AllRestorable(s, w.source) && HookRecreatable(w, s, backupTime) ==>
      Exposures(w, t) < Exposures(w, s) || Terminating(t) < Terminating(s))
  }

  lemma FoundClear(w: World, s: Store, f: Found, c: string)
    requires ListsTouched(s, f.pvs) && Others(s, f.db) && NoneOutstanding(s, w.source)
    ensures Clear(w, f, c) <==> ClassClear(w, s, f.backupTime, c)
    ensures ClassRecreatable(w, f, c) <==> StoredRecreatable(w, s, f.backupTime, c)
  {
    hide Eligible, RefDiffers, BothRefs, Outstanding, NeedsRecreate;
    forall j | 0 <= j < |f.pvs|
      ensures var item, pv := f.pvs[j], s.pvs[f.pvs[j].name];
        && item.csi == pv.csi && item.storageClass == pv.storageClass && item.terminating == pv.terminating
        && (Eligible(item, c) <==> Eligible(pv, c))
        && (c in w.target ==> (NeedsRecreate(item, w.target[c]) <==> NeedsRecreate(pv, w.target[c])))
        && (Recreatable(f.db, item, f.backupTime) <==> Recreatable(s, pv, f.backupTime))
    {
      SameForMigration(s, f.db, s.pvs[f.pvs[j].name], f.pvs[j], f.backupTime, c);
    }
    forall n | n in s.pvs ensures exists j :: 0 <= j < |f.pvs| && f.pvs[j].name == n {
    }
  }

  lemma SameForMigration(s: Store, t: Store, pv: PV, item: PV, backupTime: string, c: string)
    requires Touched(s.clock, pv, item) && item.name == pv.name && t.backups.Keys == s.backups.Keys
    ensures item.csi == pv.csi && item.storageClass == pv.storageClass && item.terminating == pv.terminating
    ensures Eligible(item, c) <==> Eligible(pv, c)
    ensures forall secret :: NeedsRecreate(item, secret) <==> NeedsRecreate(pv, secret)
    ensures Recreatable(t, item, backupTime) <==> Recreatable(s, pv, backupTime)
  {
  }

  lemma FoundDriversRecreatable(w: World, s: Store, f: Found, drivers: seq<Driver>)
    requires ListsTouched(s, f.pvs) && Others(s, f.db) && NoneOutstanding(s, w.source)
    requires ListsDrivers(s, drivers) && HookRecreatable(w, s, f.backupTime)
    ensures forall j :: 0 <= j < |drivers| ==> DriverRecreatable(w, f, drivers[j])
  {
    hide ClassRecreatable, StoredRecreatable, Creatable, ClassNames, ListsTouched, NoneOutstanding;
    forall j | 0 <= j < |drivers| ensures DriverRecreatable(w, f, drivers[j]) {
      CreatableSame(s, f.db, drivers[j]);
      assert s.drivers[drivers[j].name] == drivers[j];
      forall i | 0 <= i < |ClassNames(drivers[j])| ensures ClassRecreatable(w, f, ClassNames(drivers[j])[i]) {
        FoundClear(w, s, f, ClassNames(drivers[j])[i]);
      }
    }
  }

  // ---- The recovery and what is in the way ----

  /** The recovery gave back what was missing, and no backup is outstanding any more. */
  ghost predicate Recovered(w: World, s: Store, t: Store) {
    Restored(w, s, t) && AllRevived(w, s, t) && NoneOutstanding(t, w.source)
  }

  lemma RecoveredDrifts(w: World, s: Store, m: Store, t: Store)
    requires Recovered(w, s, m) && Drifted(w, m, t)
    ensures Recovered(w, s, t)
  {
    hide Restored, Revived;
    DriftRestores(w, m, t);
    RestoredTrans(w, s, m, t);
  }

  /** A volume that is there after the recovery is for the migration what it was before: a stored
      volume or that of the one outstanding backup. */
  lemma ComesFrom(w: World, s: Store, t: Store, n: string, backupTime: string, c: string)
    requires !w.intruders && WellFormed(t) && Restored(w, s, t) && n in t.pvs && n !in s.pvs
    ensures !t.pvs[n].terminating
    ensures exists k ::
      && k in s.backups && Returns(w, s, s.backups[k]) && s.backups[k].data.pv.name == n
      && SameInTheWay(w, s, t, s.backups[k].data.pv, t.pvs[n], backupTime, c)
  {
    hide Eligible, RefDiffers, Outstanding;
    assert Revived(w, s, t.pvs[n]);
    var k :| k in s.backups && Revives(w, s.backups[k], t.pvs[n]);
    assert Returns(w, s, s.backups[k]);
    ContentIsInTheWay(w, s, t, s.backups[k].data.pv, t.pvs[n], backupTime, c);
  }

  ghost predicate SameInTheWay(w: World, s: Store, t: Store, p: PV, q: PV, backupTime: string, c: string) {
    && (InTheWay(w, p, c) <==> InTheWay(w, q, c))
    && (Recreatable(s, p, backupTime) <==> Recreatable(t, q, backupTime))
  }

  lemma ContentIsInTheWay(w: World, s: Store, t: Store, p: PV, q: PV, backupTime: string, c: string)
    requires SameContent(q, p) && t.backups.Keys == s.backups.Keys
    ensures SameInTheWay(w, s, t, p, q, backupTime, c)
  {
  }

  lemma StoredStays(w: World, s: Store, t: Store, n: string, backupTime: string, c: string)
    requires Restored(w, s, t) && n in s.pvs
    ensures n in t.pvs && SameInTheWay(w, s, t, s.pvs[n], t.pvs[n], backupTime, c)
      && t.pvs[n].terminating == s.pvs[n].terminating
  {
    TouchedIsSame(s.clock, s.pvs[n], t.pvs[n]);
    ContentIsInTheWay(w, s, t, s.pvs[n], t.pvs[n], backupTime, c);
  }

  /** A backup whose volume returns. */
  lemma ReturnsAs(w: World, s: Store, t: Store, k: string, backupTime: string, c: string)
    requires !w.intruders && WellFormed(t) && Recovered(w, s, t) && BackupsSound(w, s)
    requires k in s.backups && Returns(w, s, s.backups[k])
    ensures var pv := s.backups[k].data.pv;
      pv.name in t.pvs && SameInTheWay(w, s, t, pv, t.pvs[pv.name], backupTime, c)
  {
    hide Restored, Outstanding, MustMove, SameInTheWay, WellFormed;
    var n := s.backups[k].data.pv.name;
    ComesFrom(w, s, t, n, backupTime, c);
  }

  lemma RecoveredClear(w: World, s: Store, t: Store, backupTime: string, c: string)
    requires !w.intruders && WellFormed(t) && Recovered(w, s, t) && BackupsSound(w, s)
    ensures StoredRecreatable(w, s, backupTime, c) <==> StoredRecreatable(w, t, backupTime, c)
    ensures ClassClear(w, s, backupTime, c) <==> ClassClear(w, t, backupTime, c)
  {
    hide Restored, AllRevived, InTheWay, Recreatable, BackupsSound, WellFormed;
    forall k | k in t.backups ensures !Returns(w, t, t.backups[k]) {
    }
    forall n | n in s.pvs ensures n in t.pvs && SameInTheWay(w, s, t, s.pvs[n], t.pvs[n], backupTime, c)
      && t.pvs[n].terminating == s.pvs[n].terminating
    {
      StoredStays(w, s, t, n, backupTime, c);
    }
    forall k | k in s.backups && Returns(w, s, s.backups[k])
      ensures var pv := s.backups[k].data.pv; pv.name in t.pvs && SameInTheWay(w, s, t, pv, t.pvs[pv.name], backupTime, c)
    {
      ReturnsAs(w, s, t, k, backupTime, c);
    }
    forall n | n in t.pvs && n !in s.pvs
      ensures exists k ::
        && k in s.backups && Returns(w, s, s.backups[k])
        && SameInTheWay(w, s, t, s.backups[k].data.pv, t.pvs[n], backupTime, c)
      ensures !t.pvs[n].terminating
    {
      ComesFrom(w, s, t, n, backupTime, c);
    }
  }

  lemma RecoveredHook(w: World, s: Store, t: Store, backupTime: string)
    requires !w.intruders && WellFormed(t) && Recovered(w, s, t) && BackupsSound(w, s)
    ensures HookClear(w, s, backupTime) <==> HookClear(w, t, backupTime)
    ensures HookRecreatable(w, s, backupTime) <==> HookRecreatable(w, t, backupTime)
  {
    hide WellFormed, ClassClear, StoredRecreatable, Creatable, ClassNames, BackupsSound, AllRevived, NoneOutstanding;
    assert t.drivers == s.drivers && t.classes == s.classes;
    hide Recovered;
    forall c ensures StoredRecreatable(w, s, backupTime, c) <==> StoredRecreatable(w, t, backupTime, c)
      ensures ClassClear(w, s, backupTime, c) <==> ClassClear(w, t, backupTime, c)
    {
      RecoveredClear(w, s, t, backupTime, c);
    }
    forall d | d in s.drivers ensures Creatable(t, s.drivers[d]) <==> Creatable(s, s.drivers[d]) {
      CreatableSame(s, t, s.drivers[d]);
    }
  }

  lemma CreatableSame(s: Store, t: Store, d: Driver)
    requires t.classes == s.classes
    ensures Creatable(t, d) <==> Creatable(s, d)
  {
    if d.rbd.Some? {
      forall i | 0 <= i < |d.rbd.value| ensures CreatableNth(t, d, i) <==> CreatableNth(s, d, i) {
      }
    }
  }

  lemma FoundDriverClear(w: World, s: Store, f: Found, d: Driver)
    requires ListsTouched(s, f.pvs) && Others(s, f.db) && NoneOutstanding(s, w.source)
    ensures DriverClear(w, f, d) <==>
      Creatable(s, d) && forall i :: 0 <= i < |ClassNames(d)| ==> ClassClear(w, s, f.backupTime, ClassNames(d)[i])
  {
    hide Clear, ClassClear, ClassNames, ListsTouched, Creatable, NoneOutstanding;
    CreatableSame(s, f.db, d);
    forall i | 0 <= i < |ClassNames(d)|
      ensures Clear(w, f, ClassNames(d)[i]) <==> ClassClear(w, s, f.backupTime, ClassNames(d)[i])
    {
      FoundClear(w, s, f, ClassNames(d)[i]);
    }
  }

  predicate AllClear(w: World, f: Found, drivers: seq<Driver>, upTo: nat) {
    forall j :: 0 <= j < upTo && j < |drivers| ==> DriverClear(w, f, drivers[j])
  }

  lemma AllClearStep(w: World, f: Found, drivers: seq<Driver>, i: nat)
    ensures AllClear(w, f, drivers, 0)
    ensures i < |drivers| ==> (AllClear(w, f, drivers, i + 1) <==> AllClear(w, f, drivers, i) && DriverClear(w, f, drivers[i]))
    ensures i < |drivers| && AllClear(w, f, drivers, |drivers|) ==> DriverClear(w, f, drivers[i])
  {
    hide DriverClear;
  }

  lemma AllClearIsHookClear(w: World, s: Store, f: Found, drivers: seq<Driver>)
    requires ListsTouched(s, f.pvs) && Others(s, f.db) && ListsDrivers(s, drivers) && NoneOutstanding(s, w.source)
    ensures AllClear(w, f, drivers, |drivers|) <==> HookClear(w, s, f.backupTime)
  {
    hide DriverClear, ClassClear, Creatable, ClassNames, ListsTouched, Others, NoneOutstanding;
    forall j | 0 <= j < |drivers|
      ensures DriverClear(w, f, drivers[j]) <==>
        && Creatable(s, drivers[j])
        && forall i :: 0 <= i < |ClassNames(drivers[j])| ==> ClassClear(w, s, f.backupTime, ClassNames(drivers[j])[i])
    {
      FoundDriverClear(w, s, f, drivers[j]);
    }
    if AllClear(w, f, drivers, |drivers|) {
      forall d | d in s.drivers && !IsMigrated(s.drivers[d])
        ensures Creatable(s, s.drivers[d])
        ensures forall i :: 0 <= i < |ClassNames(s.drivers[d])| ==> ClassClear(w, s, f.backupTime, ClassNames(s.drivers[d])[i])
      {
        var j :| 0 <= j < |drivers| && drivers[j] == s.drivers[d];
      }
    }
  }

  /** Connections made so far are listed ones or those of the first i drivers. */
  ghost predicate ConnectionsAhead(s: Store, drivers: seq<Driver>, i: nat, connectionNames: seq<string>) {
    forall c :: c in s.connections ==> c in connectionNames || exists j :: 0 <= j < i && j < |drivers| && drivers[j].name == c
  }

  lemma ConnectionsGrow(s: Store, t: Store, drivers: seq<Driver>, i: nat, connectionNames: seq<string>)
    requires i < |drivers| && ConnectionsAhead(s, drivers, i, connectionNames)
    requires t.connections.Keys <= s.connections.Keys + {drivers[i].name}
    ensures ConnectionsAhead(t, drivers, i + 1, connectionNames)
  {
    forall c | c in t.connections
      ensures c in connectionNames || exists j :: 0 <= j < i + 1 && j < |drivers| && drivers[j].name == c
    {
      assert c in t.connections.Keys;
      if c in s.connections && c !in connectionNames {
        var j :| 0 <= j < i && j < |drivers| && drivers[j].name == c;
      }
    }
  }

  lemma ConnectionIsListed(s: Store, drivers: seq<Driver>, i: nat, connectionNames: seq<string>)
    requires i < |drivers| && ConnectionsAhead(s, drivers, i, connectionNames)
    requires forall j, k :: 0 <= j < k < |drivers| ==> drivers[j].name != drivers[k].name
    ensures drivers[i].name in s.connections ==> drivers[i].name in connectionNames
  {
  }

  lemma AheadAtFirst(f: Found)
    ensures Ahead(f, f.db, {})
  {
  }

  lemma HitIsExposed(w: World, s: Store, f: Found, t: Store)
    requires !w.intruders && ListsTouched(s, f.pvs) && Onward(w, s, t) && Hit(w, f, t)
    ensures Exposures(w, t) < Exposures(w, s)
  {
    hide UpdateOnly, Moved;
    var j :| 0 <= j < |f.pvs| && Overtaken(w, t, f.pvs[j]);
    assert Touched(s.clock, s.pvs[f.pvs[j].name], f.pvs[j]);
    assert f.pvs[j].name in Exposures(w, s);
  }

  /** What was found decides the outcome of the loop over the drivers. */
  lemma LoopOutcome(w: World, s: Store, f: Found, drivers: seq<Driver>, t: Store, err: Error)
    requires !w.intruders && ListsTouched(s, f.pvs) && Others(s, f.db) && NoneOutstanding(s, w.source) && ListsDrivers(s, drivers)
    requires Onward(w, s, t) && Terminating(t) <= Terminating(s)
    requires err == NoError ==> AllClear(w, f, drivers, |drivers|)
    requires err != NoError ==> exists i :: 0 <= i < |drivers| && StepFailed(w, f, s, t, drivers[i])
    ensures HookOutcome(w, s, t, err, f.backupTime)
  {
    hide ListsTouched, Hit, Terminating, Exposures, HookClear, HookRecreatable, Creatable, DriverClear, DriverRecreatable,
      ListsDrivers;
    assert AllRestorable(s, w.source);
    hide NoneOutstanding, AllRestorable, Moved;
    AllClearIsHookClear(w, s, f, drivers);
    if Hit(w, f, t) {
      HitIsExposed(w, s, f, t);
    }
    if err != NoError {
      var i :| 0 <= i < |drivers| && StepFailed(w, f, s, t, drivers[i]);
      AllClearStep(w, f, drivers, i);
      if HookRecreatable(w, s, f.backupTime) {
        FoundDriversRecreatable(w, s, f, drivers);
      }
    }
  }

  /** The loop ended at driver d. */
  ghost predicate StepFailed(w: World, f: Found, s: Store, t: Store, d: Driver) {
    && (DriverClear(w, f, d) ==> Hit(w, f, t))
    && (DriverRecreatable(w, f, d) ==> Hit(w, f, t) || Terminating(t) < Terminating(s))
  }

  /** The loop over the drivers; HookOutcome says what a run without failing calls does. */
  method MigrateDrivers(cl: Cluster, drivers: seq<Driver>, backupTime: string) returns (err: Error)
    requires cl.Valid() && cl.world.source == BACKUP_SOURCE && ListsDrivers(cl.db, drivers)
    requires HookState(cl.world, cl.db, drivers, 0) && OriginalsThere(cl.world, cl.db) && NoneOutstanding(cl.db, BACKUP_SOURCE)
    modifies cl
    ensures cl.Valid() && cl.Advanced() && OnlyStamped(old(cl.db), cl.db, backupTime)
    ensures err == NoError && !cl.world.intruders ==> AllMigrated(cl.db) && NoneOutstanding(cl.db, BACKUP_SOURCE)
    ensures !cl.world.intruders && old(Calm(cl.weather)) ==> HookOutcome(cl.world, old(cl.db), cl.db, err, backupTime)
  {
    hide Onward, Inv, Lawful, Replay, Quiet, Fresh, FullList, HookState, NoneOutstanding, AllMigrated,
      Distinct, Planned, NoRepeats, Worked, ListsTouched, HookClear, Ahead, ConnectionsAhead, HookOutcome, Hit,
      DriverClear, ClassNames, ListsDrivers, DriverRecreatable, HookRecreatable, Terminating, AllClear, OnlyStamped;
    ghost var start := cl.db;
    ghost var calm := !cl.world.intruders && Calm(cl.weather);
    var pvs, connectionNames, classNames;
    err, pvs, connectionNames, classNames := ListAll(cl, drivers);
    StampedSame(start, cl.db, backupTime);
    if err != NoError {
      return;
    }
    SameOutstanding(start, cl.db, BACKUP_SOURCE);
    var pvList := new PV[|pvs|](i requires 0 <= i < |pvs| => pvs[i]);
    assert pvList[..] == pvs;
    WorkedNone(drivers);
    ghost var f := Found(cl.db, pvs, backupTime);
    DriversAreListed(start, drivers);
    AheadAtFirst(f);
    AllClearStep(cl.world, f, drivers, 0);
    AllListed(cl.db, drivers, connectionNames);
    for i := 0 to |drivers|
      invariant cl.Valid() && cl.Advanced() && fresh(pvList) && OnlyStamped(start, cl.db, backupTime)
      invariant HookState(cl.world, cl.db, drivers, i)
      invariant Fresh(cl.db, pvs, pvList[..], Worked(drivers, i))
      invariant forall c :: c in connectionNames ==> c in cl.db.connections
      invariant forall c :: c in classNames ==> c in cl.db.classes
      invariant !cl.world.intruders ==>
        NoneOutstanding(cl.db, BACKUP_SOURCE) && ConnectionsAhead(cl.db, drivers, i, connectionNames)
      invariant calm ==> CalmRun(cl, f, Worked(drivers, i)) && AllClear(cl.world, f, drivers, i)
      invariant calm ==> Terminating(cl.db) <= Terminating(start)
    {
      ghost var middle := cl.db;
      HookDriver(cl.world, cl.db, drivers, i);
      AllClearStep(cl.world, f, drivers, i);
      if calm {
        ConnectionIsListed(cl.db, drivers, i, connectionNames);
      }
      err := MigrateDriver(cl, pvList, f, Worked(drivers, i), drivers[i], connectionNames, classNames, backupTime);
      Chain(cl.world, start, middle, cl.db, backupTime);
      ClassesGrow(cl.world, middle, cl.db);
      if err != NoError {
        if calm {
          assert StepFailed(cl.world, f, start, cl.db, drivers[i]);
          LoopOutcome(cl.world, start, f, drivers, cl.db, err);
        }
        return;
      }
      HookStep(cl.world, middle, cl.db, drivers, i);
      WorkedGrows(drivers, i);
      if !cl.world.intruders {
        ConnectionsGrow(middle, cl.db, drivers, i, connectionNames);
      }
    }
    HookEnds(cl.world, cl.db, drivers);
    if calm {
      LoopOutcome(cl.world, start, f, drivers, cl.db, NoError);
    }
    return NoError;
  }

  lemma DriversAreListed(s: Store, drivers: seq<Driver>)
    requires ListsDrivers(s, drivers)
    ensures forall j, k :: 0 <= j < k < |drivers| ==> drivers[j].name != drivers[k].name
  {
  }

  lemma AllListed(s: Store, drivers: seq<Driver>, connectionNames: seq<string>)
    requires forall c :: c in s.connections ==> c in connectionNames
    ensures ConnectionsAhead(s, drivers, 0, connectionNames)
  {
  }

  lemma WorkedNone(drivers: seq<Driver>)
    ensures Worked(drivers, 0) == {}
  {
  }

  /** Recovery first, then every driver that is not migrated yet. Success, in any weather, means
      that every driver is labelled, and nothing else about it changed, that no backup is outstanding,
      and that the labels tell the truth. However it ends, connections and classes that were not
      there before the start are those that a driver describes, field by field. HookOutcome says, of the store the run starts from, when a run without failing
      calls succeeds, and what a failing one uses up. If nothing is left to migrate, and no
      backup is outstanding, the hook writes nothing at all. */
  method HandlerMigrateFromCephCsiModule(cl: Cluster, backupTime: string) returns (err: Error)
    requires cl.Valid() && cl.world.source == BACKUP_SOURCE && GoodPlan(cl.world, cl.db)
    modifies cl
    ensures cl.Valid() && cl.Advanced() && OnlyStamped(old(cl.db), cl.db, backupTime)
    ensures PlanIsOwn(cl.world, cl.db)
    ensures err == NoError && !cl.world.intruders ==> AllMigrated(cl.db) && NoneOutstanding(cl.db, BACKUP_SOURCE)
    ensures err == NoError && !cl.world.intruders ==>
      cl.db.drivers.Keys == old(cl.db.drivers).Keys && forall d :: d in cl.db.drivers ==> cl.db.drivers[d] == Marked(old(cl.db.drivers)[d])
    ensures err == NoError && !cl.world.intruders ==>
      forall d :: d in cl.db.drivers && d !in cl.world.settled ==> DriverDone(cl.world, cl.db, cl.db.drivers[d])
    ensures !cl.world.intruders && old(Calm(cl.weather)) ==> HookOutcome(cl.world, old(cl.db), cl.db, err, backupTime)
    ensures !cl.world.intruders && old(Calm(cl.weather)) && Exposures(cl.world, old(cl.db)) == {} ==>
      (err == NoError <==> AllRestorable(old(cl.db), BACKUP_SOURCE) && HookClear(cl.world, old(cl.db), backupTime))
    ensures old(AllMigrated(cl.db) && NoneOutstanding(cl.db, BACKUP_SOURCE)) ==> OnlyWorld(old(cl.log), cl.log)
  {
    hide Onward, Inv, Lawful, Replay, Quiet, WellFormed, DriverDone, GoodPlan, ListsDrivers, HookState, OnlyWorld,
      NoneOutstanding, AllMigrated, VolumesDrifted, Outstanding, OriginalsThere, Recovered, Restored, AllRevived,
      HookClear, AllRestorable, HookRecreatable, Terminating, Exposures, OnlyStamped, HookOutcome, PlanIsOwn, Marked;
    ghost var start, logged := cl.db, cl.log;
    err := ProcessRemovedPVs(cl, BACKUP_SOURCE);
    RestoredStamps(cl.world, start, cl.db, backupTime);
    if err != NoError {
      NotRestored(cl.world, start, cl.db, err, backupTime);
      ExactlyIfClear(cl.world, start, cl.db, err, backupTime);
      MadeFromDrivers(cl.world, cl.db);
      return;
    }
    NoneLeft(cl.world, start, cl.db);
    ghost var middle, listed := cl.db, cl.log;
    var drivers;
    err, drivers := ListDrivers(cl);
    OnwardTrans(cl.world, start, middle, cl.db);
    OnlyWorldTrans(logged, listed, cl.log);
    StampedSame(middle, cl.db, backupTime);
    StampedTrans(start, middle, cl.db, backupTime);
    if err != NoError {
      MadeFromDrivers(cl.world, cl.db);
      return;
    }
    OriginalsDrift(cl.world, middle, cl.db);
    RecoveredDrifts(cl.world, start, middle, cl.db);
    PlanHolds(cl.world, start, cl.db, drivers);
    if |drivers| != 0 {
      middle := cl.db;
      err := MigrateDrivers(cl, drivers, backupTime);
      Chain(cl.world, start, middle, cl.db, backupTime);
      if !cl.world.intruders && old(Calm(cl.weather)) {
        OutcomeFromStart(cl.world, start, middle, cl.db, err, backupTime);
      }
      ExactlyIfClear(cl.world, start, cl.db, err, backupTime);
      if err != NoError {
        MadeFromDrivers(cl.world, cl.db);
        return;
      }
    } else {
      HookEnds(cl.world, cl.db, drivers);
      if !cl.world.intruders && old(Calm(cl.weather)) {
        OutcomeFromStart(cl.world, start, cl.db, cl.db, NoError, backupTime) by {
          NothingToDo(cl.world, cl.db, backupTime);
        }
      }
      ExactlyIfClear(cl.world, start, cl.db, NoError, backupTime);
    }
    MadeFromDrivers(cl.world, cl.db);
    AllLabelled(cl.world, cl.db);
    if !cl.world.intruders {
      AllMarked(cl.world, start, cl.db);
    }
  }

  lemma MadeFromDrivers(w: World, s: Store)
    requires Inv(w, s)
    ensures PlanIsOwn(w, s)
  {
  }

  lemma AllMarked(w: World, s: Store, t: Store)
    requires Onward(w, s, t) && AllMigrated(t)
    ensures t.drivers.Keys == s.drivers.Keys && forall d :: d in t.drivers ==> t.drivers[d] == Marked(s.drivers[d])
  {
    hide Exposures, Moved;
    forall d | d in t.drivers ensures d in s.drivers && t.drivers[d] == Marked(s.drivers[d]) {
      assert d in s.drivers.Keys;
      if t.drivers[d] == s.drivers[d] {
        assert Marked(s.drivers[d]).labels == s.drivers[d].labels;
      }
    }
  }

  lemma ExactlyIfClear(w: World, s: Store, t: Store, err: Error, backupTime: string)
    ensures HookOutcome(w, s, t, err, backupTime) && Exposures(w, s) == {} ==>
      (err == NoError <==> AllRestorable(s, w.source) && HookClear(w, s, backupTime))
  {
    hide HookClear, Terminating, HookRecreatable;
  }

  lemma OnlyWorldTrans(a: seq<Op>, b: seq<Op>, c: seq<Op>)
    requires OnlyWorld(b, c)
    ensures OnlyWorld(a, b) ==> OnlyWorld(a, c)
  {
  }

  lemma RestoredStamps(w: World, s: Store, t: Store, backupTime: string)
    requires Restored(w, s, t)
    ensures OnlyStamped(s, t, backupTime)
  {
    assert forall k :: k in t.backups ==> k in s.backups.Keys;
  }

  /** A recovery that fails without failing calls found a backup that does not decode. */
  lemma NotRestored(w: World, s: Store, t: Store, err: Error, backupTime: string)
    requires err != NoError && Restored(w, s, t) && Onward(w, s, t)
    ensures !w.intruders && !AllRestorable(s, w.source) ==> HookOutcome(w, s, t, err, backupTime)
  {
    if !w.intruders {
      RestoredTerminating(w, s, t);
    }
  }

  /** What is still to do is what was to do at the start. */
  lemma PlanHolds(w: World, s: Store, t: Store, drivers: seq<Driver>)
    requires Inv(w, s) && Inv(w, t) && Onward(w, s, t) && GoodPlan(w, s) && ListsDrivers(t, drivers) && Recovered(w, s, t)
    ensures HookState(w, t, drivers, 0)
    ensures AllMigrated(s) ==> drivers == []
    ensures NoneOutstanding(t, w.source)
  {
    hide Onward, HookState, AllRevived, NoneOutstanding, GoodPlan;
    PlanOnward(w, s, t);
    HookStarts(w, t, drivers);
    if drivers != [] {
      assert !IsMigrated(t.drivers[drivers[0].name]);
    }
  }

  lemma OutcomeFromStart(w: World, s: Store, m: Store, t: Store, err: Error, backupTime: string)
    requires !w.intruders && Inv(w, s) && Inv(w, m) && Recovered(w, s, m) && Onward(w, s, m) && AllRestorable(s, w.source)
    requires HookOutcome(w, m, t, err, backupTime)
    ensures HookOutcome(w, s, t, err, backupTime)
  {
    hide HookClear, HookRecreatable, Terminating, Exposures, WellFormed, Conserved, NothingLost, LabelsTruthful,
      BackupsSound, Restored, AllRevived;
    RestoredTerminating(w, s, m);
    RecoveredHook(w, s, m, backupTime);
    assert AllRestorable(m, w.source);
  }

  lemma NothingToDo(w: World, s: Store, backupTime: string)
    requires AllMigrated(s) && NoneOutstanding(s, w.source)
    ensures HookOutcome(w, s, s, NoError, backupTime)
  {
  }

  lemma NoneLeft(w: World, s: Store, t: Store)
    requires NoneOutstanding(t, BACKUP_SOURCE) && w.source == BACKUP_SOURCE && Restored(w, s, t) && AllRevived(w, s, t)
    requires forall n :: n in w.orig ==> n in t.pvs
    ensures Recovered(w, s, t) && OriginalsThere(w, t)
  {
  }

  lemma AllLabelled(w: World, s: Store)
    requires Inv(w, s)
    ensures !w.intruders && AllMigrated(s) ==>
      forall d :: d in s.drivers && d !in w.settled ==> DriverDone(w, s, s.drivers[d])
  {
  }
}
