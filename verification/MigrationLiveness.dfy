/** Restarts lead to the end: run again and again without failing calls, the hook finishes after
    as many runs as there are volumes that can be in its way. */
module MigrationLiveness {
  import opened Kube
  import opened Volumes
  import opened MigrationStore
  import opened MigrationCluster
  import opened PvMigration
  import opened PvRecovery
  import opened CsiMigration
  import opened MigrationRuns

  /** No volume was created with only one of the two references. */
  ghost predicate PairedRefs(w: World) {
    forall n :: n in w.orig && w.orig[n].csi.Some? ==>
      (w.orig[n].csi.value.expand.Some? <==> w.orig[n].csi.value.stage.Some?)
  }

  /** The hook reads allowVolumeExpansion of every RBD class it makes. */
  predicate ExpansionsSet(s: Store) {
    forall d :: d in s.drivers && s.drivers[d].rbd.Some? ==>
      forall i :: 0 <= i < |s.drivers[d].rbd.value| ==> s.drivers[d].rbd.value[i].expansion.Some?
  }

  /** No backup carries this time. */
  ghost predicate Unstamped(s: Store, backupTime: string) {
    forall n :: BackupName(backupTime, n) !in s.backups
  }

  predicate DistinctTimes(times: seq<string>) {
    forall i, j :: 0 <= i < j < |times| ==> times[i] != times[j] && |times[i]| == |times[j]|
  }

  lemma PairsStay(w: World, pv: PV, c: string, backupTime: string)
    requires PairedRefs(w) && Faithful(w, pv) && InTheWay(w, pv, c)
    ensures BothRefs(pv)
  {
    hide SameAnnotations, Eligible;
  }

  /** At a fresh time nothing but terminating volumes can be in the way, in any state of a run. */
  lemma ReadyToRun(w: World, s: Store, backupTime: string)
    requires Inv(w, s) && !w.intruders && w.source == BACKUP_SOURCE
    requires GoodPlan(w, s) && PairedRefs(w) && ExpansionsSet(s) && Unstamped(s, backupTime)
    ensures HookRecreatable(w, s, backupTime)
  {
    hide InTheWay, BothRefs, PairedRefs, Faithful, NoRepeats, ClassNames, Outstanding, BackupName;
    forall d | d in s.drivers ensures Creatable(s, s.drivers[d]) {
    }
    forall c | c in w.target ensures StoredRecreatable(w, s, backupTime, c) {
      ClassIsReady(w, s, backupTime, c);
    }
  }

  lemma ClassIsReady(w: World, s: Store, backupTime: string, c: string)
    requires Inv(w, s) && !w.intruders && c in w.target && PairedRefs(w) && Unstamped(s, backupTime)
    ensures StoredRecreatable(w, s, backupTime, c)
  {
    hide InTheWay, BothRefs, PairedRefs, Faithful, BackupName;
    forall n | n in s.pvs && InTheWay(w, s.pvs[n], c) ensures Recreatable(s, s.pvs[n], backupTime) {
      PairsStay(w, s.pvs[n], c, backupTime);
    }
    forall k | k in s.backups && Returns(w, s, s.backups[k]) && InTheWay(w, s.backups[k].data.pv, c)
      ensures Recreatable(s, s.backups[k].data.pv, backupTime)
    {
      PairsStay(w, s.backups[k].data.pv, c, backupTime);
    }
  }

  lemma StampsDiffer(s: string, t: string, a: string, b: string)
    requires BackupName(s, a) == BackupName(t, b) && |s| == |t|
    ensures s == t
  {
    assert s == BackupName(s, a)[..|s|];
    assert t == BackupName(t, b)[..|t|];
  }

  /** A run uses up no other time than its own. */
  lemma StillUnstamped(s: Store, t: Store, times: seq<string>, i: nat)
    requires i < |times| && DistinctTimes(times) && OnlyStamped(s, t, times[i])
    requires forall j :: i <= j < |times| ==> Unstamped(s, times[j])
    ensures forall j :: i < j < |times| ==> Unstamped(t, times[j])
  {
    forall j, n | i < j < |times| ensures BackupName(times[j], n) !in t.backups {
      if BackupName(times[j], n) in t.backups {
        assert Unstamped(s, times[j]);
        var m :| BackupName(times[j], n) == BackupName(times[i], m);
        StampsDiffer(times[j], times[i], n, m);
      }
    }
  }

  lemma PlanStays(w: World, s: Store, t: Store)
    requires Inv(w, s) && Inv(w, t) && Onward(w, s, t) && GoodPlan(w, s) && ExpansionsSet(s)
    ensures GoodPlan(w, t) && ExpansionsSet(t)
  {
    hide GoodPlan, Conserved, BackupsSound, NothingLost, LabelsTruthful;
    PlanOnward(w, s, t);
    ClassesGrow(w, s, t);
    assert t.drivers.Keys == s.drivers.Keys;
    forall d | d in t.drivers ensures d in s.drivers && t.drivers[d].rbd == s.drivers[d].rbd {
      assert d in s.drivers.Keys;
    }
  }

  /** How many failing runs the store has left. */
  ghost function Chances(w: World, s: Store): nat {
    |Terminating(s)| + |Exposures(w, s)|
  }

  lemma Fewer<T>(a: set<T>, b: set<T>)
    requires a <= b
    ensures |a| <= |b| && (a < b ==> |a| < |b|)
  {
    assert b == a + (b - a);
    if a < b {
      var x :| x in b - a;
    }
  }

  lemma ChancesShrink(w: World, s: Store, t: Store, err: Error, backupTime: string)
    requires HookOutcome(w, s, t, err, backupTime) && err != NoError
    requires AllRestorable(s, w.source) && HookRecreatable(w, s, backupTime)
    ensures Chances(w, t) < Chances(w, s)
  {
    hide Terminating, Exposures, HookClear, HookRecreatable, AllRestorable;
    Fewer(Terminating(t), Terminating(s));
    Fewer(Exposures(w, t), Exposures(w, s));
  }

  /** One more run, at the i-th time. */
  method RunAgain(cl: Cluster, times: seq<string>, i: nat) returns (err: Error)
    requires Ready(cl, times, i) && i < |times|
    modifies cl
    ensures Onward(cl.world, old(cl.db), cl.db) && Ready(cl, times, i + 1)
    ensures err == NoError ==>
      && AllMigrated(cl.db) && NoneOutstanding(cl.db, BACKUP_SOURCE)
      && forall d :: d in cl.db.drivers && d !in cl.world.settled ==> DriverDone(cl.world, cl.db, cl.db.drivers[d])
    ensures err != NoError ==> Chances(cl.world, cl.db) < Chances(cl.world, old(cl.db))
  {
    hide Inv, Onward, Lawful, Replay, Quiet, GoodPlan, PairedRefs, ExpansionsSet, Unstamped, DistinctTimes, HookOutcome,
      HookRecreatable, AllRestorable, AllMigrated, NoneOutstanding, DriverDone, Terminating, Exposures, OnlyStamped, Chances,
      OursRestorable;
    ghost var start := cl.db;
    RecoveryIsAlwaysPossible(cl.world, cl.origin, cl.log);
    ReadyToRun(cl.world, cl.db, times[i]);
    err := HandlerMigrateFromCephCsiModule(cl, times[i]);
    PlanStays(cl.world, start, cl.db);
    StillUnstamped(start, cl.db, times, i);
    if err != NoError {
      ChancesShrink(cl.world, start, cl.db, err, times[i]);
    }
  }

  /** From the i-th time on the hook can be run without failing calls and other creators. */
  ghost predicate Ready(cl: Cluster, times: seq<string>, i: nat)
    reads cl
  {
    && cl.Valid() && cl.world.source == BACKUP_SOURCE && !cl.world.intruders && Calm(cl.weather)
    && OursRestorable(cl.world, cl.origin) && PairedRefs(cl.world)
    && GoodPlan(cl.world, cl.db) && ExpansionsSet(cl.db)
    && DistinctTimes(times) && forall j :: i <= j < |times| ==> Unstamped(cl.db, times[j])
  }

  /** The hook, started again until it succeeds. From any store that a lawful run leaves behind,
      however often it was abandoned, it succeeds after at most one run for every terminating
      volume and every volume that can still be protected under an update, and one more. */
  method MigrateUntilDone(cl: Cluster, times: seq<string>) returns (runs: nat)
    requires Ready(cl, times, 0) && |times| > Chances(cl.world, cl.db)
    modifies cl
    ensures 1 <= runs <= Chances(cl.world, old(cl.db)) + 1
    ensures cl.Valid() && Onward(cl.world, old(cl.db), cl.db)
    ensures AllMigrated(cl.db) && NoneOutstanding(cl.db, BACKUP_SOURCE)
    ensures forall d :: d in cl.db.drivers && d !in cl.world.settled ==> DriverDone(cl.world, cl.db, cl.db.drivers[d])
  {
    hide Onward, Chances, AllMigrated, NoneOutstanding, DriverDone, Ready;
    ghost var start := cl.db;
    var err := RunAgain(cl, times, 0);
    runs := 1;
    while err != NoError
      invariant Ready(cl, times, runs) && Onward(cl.world, start, cl.db) && runs >= 1
      invariant err != NoError ==> Chances(cl.world, cl.db) + runs <= Chances(cl.world, start)
      invariant err == NoError ==>
        && runs <= Chances(cl.world, start) + 1
        && AllMigrated(cl.db) && NoneOutstanding(cl.db, BACKUP_SOURCE)
        && forall d :: d in cl.db.drivers && d !in cl.world.settled ==> DriverDone(cl.world, cl.db, cl.db.drivers[d])
      decreases err != NoError, Chances(cl.world, cl.db)
    {
      ghost var middle := cl.db;
      err := RunAgain(cl, times, runs);
      OnwardTrans(cl.world, start, middle, cl.db);
      runs := runs + 1;
    }
    assert cl.Valid() by { IsValid(cl, times, runs); }
  }

  lemma IsValid(cl: Cluster, times: seq<string>, i: nat)
    requires Ready(cl, times, i)
    ensures cl.Valid()
  {
  }
}
