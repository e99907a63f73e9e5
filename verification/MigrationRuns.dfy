/** What holds in every state of every run: any number of passes, each abandoned at any point,
    with failing calls and a busy outside world. A run is a log of writes each of which was
    allowed when it was made; the migration methods only ever append such writes. */
module MigrationRuns {
  import opened Kube
  import opened Volumes
  import opened MigrationStore
  import opened MigrationCluster
  import opened PvMigration
  import opened PvRecovery

  /** A migration may start from any well-formed store without earlier backups of this hook. */
  lemma StartIsSafe(w: World, s: Store)
    requires WellFormed(s) && w.orig == s.pvs
    requires forall b :: b in s.backups ==> !OursWith(w, s.backups[b])
    requires forall d :: d in s.drivers && IsMigrated(s.drivers[d]) ==> d in w.settled
    requires s.connections.Keys <= w.connections && s.classes.Keys <= w.classes
    ensures Inv(w, s)
    ensures (forall b :: b in s.backups ==> !FromHook(w, s.backups[b])) ==> OursRestorable(w, s)
  {
  }

  /** A crash: the log of an abandoned pass is a prefix of what it would have been. */
  lemma CrashKeepsLaw(w: World, s: Store, log: seq<Op>, k: nat)
    requires Lawful(w, s, log) && k <= |log|
    ensures Lawful(w, s, log[..k])
  {
    forall i | 0 <= i < k ensures LawfulAt(w, s, log[..k][..i], log[..k][i]) {
      assert log[..k][..i] == log[..i];
    }
  }

  /** The last write of a lawful run. */
  lemma LawAtEnd(w: World, s: Store, log: seq<Op>)
    requires Lawful(w, s, log) && log != []
    ensures Lawful(w, s, log[..|log| - 1]) && LawfulAt(w, s, log[..|log| - 1], log[|log| - 1])
  {
    CrashKeepsLaw(w, s, log, |log| - 1);
  }

  /** A restart: the next pass goes on from the store the last one left. */
  lemma {:induction false} RestartKeepsLaw(w: World, s: Store, a: seq<Op>, b: seq<Op>)
    requires Lawful(w, s, a) && Lawful(w, Replay(s, a), b)
    ensures Lawful(w, s, a + b) && Replay(s, a + b) == Replay(Replay(s, a), b)
  {
    hide Lawful, Guard, Apply, Patched;
    if b == [] {
      assert a + b == a;
    } else {
      var last := |b| - 1;
      LawAtEnd(w, Replay(s, a), b);
      RestartKeepsLaw(w, s, a, b[..last]);
      if b[last].DeletePV? {
        RestartKeepsPatched(s, a, b[..last], b[last].name);
      }
      LogGrows(w, s, a + b[..last], b[last]);
      assert a + b == (a + b[..last]) + [b[last]];
    }
  }

  lemma {:induction false} ReplayGoesOn(s: Store, a: seq<Op>, b: seq<Op>)
    ensures Replay(s, a + b) == Replay(Replay(s, a), b)
  {
    hide Apply;
    if b == [] {
      assert a + b == a;
    } else {
      var last := |b| - 1;
      ReplayGoesOn(s, a, b[..last]);
      assert (a + b)[..|a + b| - 1] == a + b[..last];
    }
  }

  lemma RestartKeepsPatched(s: Store, a: seq<Op>, b: seq<Op>, n: string)
    requires Patched(Replay(s, a), b, n)
    ensures Patched(s, a + b, n)
  {
    hide Replay;
    var j :| 0 <= j < |b| && PatchedAt(Replay(s, a), b, n, j);
    assert (a + b)[..|a| + j] == a + b[..j];
    ReplayGoesOn(s, a, b[..j]);
    assert PatchedAt(s, a + b, n, |a| + j);
  }

  lemma {:induction false} RunKeepsInv(w: World, s: Store, log: seq<Op>)
    requires Inv(w, s) && Lawful(w, s, log)
    ensures Inv(w, Replay(s, log)) && Onward(w, s, Replay(s, log))
  {
    hide Inv, Onward, Guard, Apply, Lawful;
    if log == [] {
      StillOnward(w, s);
    } else {
      var last := |log| - 1;
      LawAtEnd(w, s, log);
      RunKeepsInv(w, s, log[..last]);
      StepKeepsInv(w, Replay(s, log[..last]), log[last]);
      OnwardChain(w, s, Replay(s, log[..last]), Replay(s, log));
    }
  }

  lemma StillOnward(w: World, s: Store)
    ensures Onward(w, s, s)
  {
  }

  lemma OnwardChain(w: World, a: Store, b: Store, c: Store)
    requires Onward(w, a, b) && Onward(w, b, c)
    ensures Onward(w, a, c)
  {
  }

  /** No volume is ever lost: at every point of every run, also if others create volumes, each
      original volume is in the store (a terminating one still held by a finalizer) or in a
      backup labelled "false" from which it can be created again. */
  lemma NoVolumeIsLost(w: World, s: Store, log: seq<Op>, k: nat, n: string)
    requires Inv(w, s) && Lawful(w, s, log) && k <= |log| && n in w.orig
    ensures var t := Replay(s, log[..k]);
      || (n in t.pvs && (t.pvs[n].terminating ==> t.pvs[n].finalizers != []))
      || Pending(w, t, n)
  {
    CrashKeepsLaw(w, s, log, k);
    RunKeepsInv(w, s, log[..k]);
  }

  /** Every stored volume, and every volume in a backup of the hook, is an original one, but for
      the references and annotations of the new secret, its finalizers, and the reclaim policy,
      which is the original one or Retain. */
  lemma VolumesAreConserved(w: World, s: Store, log: seq<Op>, k: nat)
    requires Inv(w, s) && Lawful(w, s, log) && k <= |log| && !w.intruders
    ensures Conserved(w, Replay(s, log[..k]))
  {
    CrashKeepsLaw(w, s, log, k);
    RunKeepsInv(w, s, log[..k]);
  }

  predicate Destructive(op: Op) {
    op.StripAndRetain? || op.Strip? || op.DeletePV?
  }

  /** Every write of the hook that can destroy a volume is only made while an outstanding backup
      holds that volume, whoever else creates volumes; and, if nobody does, the backup is faithful
      to the original and the volume has to move. */
  lemma DestructionIsGuarded(w: World, s: Store, log: seq<Op>, k: nat)
    requires Inv(w, s) && Lawful(w, s, log) && k < |log| && Destructive(log[k])
    ensures var t := Replay(s, log[..k]);
      exists b :: b in t.backups && Holds(w, t.backups[b], log[k].name) && (!w.intruders ==> Faithful(w, t.backups[b].data.pv))
    ensures !w.intruders && log[k].name in Replay(s, log[..k]).pvs ==> MustMove(w, Replay(s, log[..k]).pvs[log[k].name])
  {
    hide Inv, Lawful, Replay, Faithful;
    CrashKeepsLaw(w, s, log, k);
    LawAt(w, s, log, k);
    RunKeepsInv(w, s, log[..k]);
    BackupIsFaithful(w, Replay(s, log[..k]), log[k].name);
  }

  lemma BackupIsFaithful(w: World, s: Store, n: string)
    requires Inv(w, s) && Pending(w, s, n)
    ensures exists b :: b in s.backups && Holds(w, s.backups[b], n) && (!w.intruders ==> Faithful(w, s.backups[b].data.pv))
  {
  }

  lemma LawAt(w: World, s: Store, log: seq<Op>, k: nat)
    requires Lawful(w, s, log) && k < |log|
    ensures LawfulAt(w, s, log[..k], log[k])
  {
  }

  /** Somebody else created volume n at step i, with another policy than Retain. */
  ghost predicate Reborn(s: Store, log: seq<Op>, n: string, i: nat)
    requires i < |log|
  {
    log[i].Intrude? && log[i].pv.name == n && log[i].pv.policy != RETAIN && Verdict(Replay(s, log[..i]), log[i]) == NoError
  }

  ghost predicate RebornSince(s: Store, log: seq<Op>, n: string, j: nat, k: nat)
    requires k <= |log|
  {
    exists i :: j < i < k && Reborn(s, log, n, i)
  }

  /** A delete follows on the patch of its volume, step j. The volume it meets has another policy
      than Retain exactly if somebody else created it, with that policy, since the patch. */
  lemma DeleteMeetsRetain(w: World, s: Store, log: seq<Op>, k: nat, n: string)
    requires Inv(w, s) && Lawful(w, s, log) && k < |log| && log[k] == DeletePV(n) && n in Replay(s, log[..k]).pvs
    ensures exists j ::
      && 0 <= j < k && PatchedAt(s, log[..k], n, j)
      && (Replay(s, log[..k]).pvs[n].policy != RETAIN <==> RebornSince(s, log, n, j, k))
    ensures !w.intruders ==> Replay(s, log[..k]).pvs[n].policy == RETAIN
  {
    hide Inv, Guard, Replay, Verdict;
    LawAt(w, s, log, k);
    var j :| 0 <= j < k && PatchedAt(s, log[..k], n, j);
    SincePatch(w, s, log, k, n, j, k);
    DeleteGuard(w, s, log[..k], n);
  }

  lemma DeleteGuard(w: World, s: Store, log: seq<Op>, n: string)
    requires LawfulAt(w, s, log, DeletePV(n))
    ensures !w.intruders && n in Replay(s, log).pvs ==> Replay(s, log).pvs[n].policy == RETAIN
  {
  }

  /** At step x: after the patch of step j the volume, if it is there, is under Retain unless it
      was created anew. */
  ghost predicate Told(s: Store, log: seq<Op>, n: string, j: nat, x: nat)
    requires x <= |log|
  {
    var t := Replay(s, log[..x]);
    if n in t.pvs then t.pvs[n].policy != RETAIN <==> RebornSince(s, log, n, j, x) else !RebornSince(s, log, n, j, x)
  }

  lemma ToldFirst(s: Store, log: seq<Op>, n: string, j: nat)
    requires j < |log| && log[j] == StripAndRetain(n) && n in Replay(s, log[..j]).pvs && WellFormed(Replay(s, log[..j]))
    ensures Told(s, log, n, j, j + 1)
  {
    hide Apply, Verdict, Reborn;
    OneMoreOp(s, log, j);
    PatchRetains(Replay(s, log[..j]), n);
  }

  lemma ToldStep(s: Store, log: seq<Op>, n: string, j: nat, x: nat)
    requires j < x < |log| && Told(s, log, n, j, x) && WellFormed(Replay(s, log[..x])) && ByWorld(log[x])
    ensures Told(s, log, n, j, x + 1)
  {
    hide Apply, Verdict, Replay, WellFormed;
    assert RebornSince(s, log, n, j, x + 1) <==> RebornSince(s, log, n, j, x) || Reborn(s, log, n, x);
    hide RebornSince;
    OneMoreOp(s, log, x);
    WorldKeepsPolicy(Replay(s, log[..x]), log[x], n);
  }

  lemma OneMoreOp(s: Store, log: seq<Op>, x: nat)
    requires x < |log|
    ensures Replay(s, log[..x + 1]) == Apply(Replay(s, log[..x]), log[x])
  {
    assert log[..x + 1][..x] == log[..x];
  }

  lemma {:induction false} SincePatch(w: World, s: Store, log: seq<Op>, k: nat, n: string, j: nat, x: nat)
    requires Inv(w, s) && Lawful(w, s, log) && j < x <= k <= |log| && PatchedAt(s, log[..k], n, j)
    ensures Told(s, log, n, j, x)
  {
    hide Inv, Lawful, Replay, Told, WellFormed, ByWorld;
    CrashKeepsLaw(w, s, log, x - 1);
    RunKeepsInv(w, s, log[..x - 1]);
    InvIsWellFormed(w, Replay(s, log[..x - 1]));
    assert log[..k][..j] == log[..j] && log[..k][x - 1] == log[x - 1];
    if x == j + 1 {
      ToldFirst(s, log, n, j);
    } else {
      SincePatch(w, s, log, k, n, j, x - 1);
      ToldStep(s, log, n, j, x - 1);
    }
  }

  lemma PatchRetains(s: Store, n: string)
    requires n in s.pvs && s.pvs[n].name == n
    ensures var t := Apply(s, StripAndRetain(n)); n in t.pvs ==> t.pvs[n].policy == RETAIN
  {
  }

  lemma WorldKeepsPolicy(s: Store, op: Op, n: string)
    requires WellFormed(s) && ByWorld(op)
    ensures var t := Apply(s, op); var created := op.Intrude? && op.pv.name == n && Verdict(s, op) == NoError;
      && (n in s.pvs ==> n in t.pvs && t.pvs[n].policy == s.pvs[n].policy && !created)
      && (n !in s.pvs ==> (n in t.pvs <==> created))
      && (n !in s.pvs && n in t.pvs ==> t.pvs[n].policy == op.pv.policy)
  {
  }

  /** A volume that goes away at step k went away by one of the three destructive writes, never
      under another policy than Retain unless it was terminating already, and one of the
      outstanding backups brings back the same volume. */
  lemma DestructionCanBeUndone(w: World, s: Store, log: seq<Op>, k: nat, n: string)
    requires Inv(w, s) && Lawful(w, s, log) && k < |log| && !w.intruders
    requires n in Replay(s, log[..k]).pvs && n !in Apply(Replay(s, log[..k]), log[k]).pvs
    ensures log[k] == StripAndRetain(n) || log[k] == Strip(n) || log[k] == DeletePV(n)
    ensures Replay(s, log[..k]).pvs[n].policy == RETAIN || Replay(s, log[..k]).pvs[n].terminating
    ensures var t := Apply(Replay(s, log[..k]), log[k]);
      exists b :: b in t.backups && Restores(w, t, t.backups[b], n)
  {
    hide Inv, Lawful, Guard, Restores, Apply, Replay, NeedsRecreate;
    CrashKeepsLaw(w, s, log, k);
    LawAt(w, s, log, k);
    RunKeepsInv(w, s, log[..k]);
    RemovalCanBeUndone(w, Replay(s, log[..k]), log[k], n);
  }

  lemma RemovalCanBeUndone(w: World, m: Store, op: Op, n: string)
    requires Inv(w, m) && Guard(w, m, op) && !w.intruders && n in m.pvs && n !in Apply(m, op).pvs
    ensures op == StripAndRetain(n) || op == Strip(n) || op == DeletePV(n)
    ensures m.pvs[n].policy == RETAIN || m.pvs[n].terminating
    ensures var t := Apply(m, op); exists b :: b in t.backups && Restores(w, t, t.backups[b], n)
  {
    hide Guard, Apply, Restores, NeedsRecreate, Conserved, WellFormed, NothingLost, LabelsTruthful, BackupsSound, PlanIsOwn, Pending;
    RemovalIsGuarded(w, m, op, n);
    StepKeepsInv(w, m, op);
    VolumeWritesOnly(m, op);
    BackupBringsBack(w, m, Apply(m, op), n);
  }

  /** The recovery procedure acts on the backup, and creating its volume gives back volume n. */
  ghost predicate Restores(w: World, s: Store, b: Backup, n: string) {
    && Outstanding(b, w.source) && b.data.Manifest?
    && n in Apply(s, CreatePV(b.data.pv)).pvs
    && Faithful(w, Apply(s, CreatePV(b.data.pv)).pvs[n])
  }

  lemma BackupBringsBack(w: World, m: Store, t: Store, n: string)
    requires Pending(w, m, n) && t.backups == m.backups && Conserved(w, t) && n !in t.pvs && !w.intruders
    ensures exists b :: b in t.backups && Restores(w, t, t.backups[b], n)
  {
  }

  /** Once a volume names the new secret it never goes away and never goes back. */
  lemma MovedForever(w: World, s: Store, log: seq<Op>, j: nat, k: nat, n: string)
    requires Inv(w, s) && Lawful(w, s, log) && j <= k <= |log| && !w.intruders
    requires Moved(w, Replay(s, log[..j]), n)
    ensures Moved(w, Replay(s, log[..k]), n)
  {
    CrashKeepsLaw(w, s, log, k);
    assert log[..k][..j] == log[..j];
    MovedToTheEnd(w, s, log[..k], j, n);
  }

  lemma {:induction false} MovedToTheEnd(w: World, s: Store, log: seq<Op>, j: nat, n: string)
    requires Inv(w, s) && Lawful(w, s, log) && j <= |log| && !w.intruders
    requires Moved(w, Replay(s, log[..j]), n)
    ensures Moved(w, Replay(s, log), n)
  {
    hide Inv, Guard, Apply, Lawful, Moved;
    if j == |log| {
      assert log[..j] == log;
    } else {
      var last := |log| - 1;
      LawAtEnd(w, s, log);
      assert log[..last][..j] == log[..j];
      MovedToTheEnd(w, s, log[..last], j, n);
      RunKeepsInv(w, s, log[..last]);
      MovedStays(w, Replay(s, log[..last]), log[last], n);
    }
  }

  /** The migrated label tells the truth in every state of every run, also long after it was set: the
      driver has its connection and all its classes, those made in the migration say what the driver
      says, and every original volume of these classes under one of the two Ceph drivers is there and
      names the new secret in each reference it has. */
  lemma LabelIsTruthful(w: World, s: Store, log: seq<Op>, k: nat, d: string)
    requires Inv(w, s) && Lawful(w, s, log) && k <= |log| && !w.intruders
    requires d in Replay(s, log[..k]).drivers && d !in w.settled
    requires Says(Replay(s, log[..k]).drivers[d].labels, "storage.deckhouse.io/migratedFromCephCSI", "true")
    ensures var t := Replay(s, log[..k]); var driver := t.drivers[d];
      && d in t.connections && (d !in w.connections ==> OwnConnection(driver, t.connections[d]))
      && (forall c :: c in ClassNames(driver) ==> c in t.classes && (c !in w.classes ==> OwnClass(driver, t.classes[c])))
      && forall n ::
        (&& n in w.orig && w.orig[n].storageClass in ClassNames(driver) && w.orig[n].csi.Some?
         && (w.orig[n].csi.value.driver == "rbd.csi.ceph.com" || w.orig[n].csi.value.driver == "cephfs.csi.ceph.com")) ==>
          w.orig[n].storageClass in w.target && NamesOnly(t, n, w.target[w.orig[n].storageClass])
  {
    CrashKeepsLaw(w, s, log, k);
    RunKeepsInv(w, s, log[..k]);
    var t := Replay(s, log[..k]);
    hide Replay, OwnConnection, OwnClass, ClassNames, BackupsSound, NothingLost, PlanIsOwn, SameAnnotations, SameRef;
    forall n | n in w.orig && w.orig[n].storageClass in ClassNames(t.drivers[d]) && CephVolume(w.orig[n])
      ensures w.orig[n].storageClass in w.target && NamesOnly(t, n, w.target[w.orig[n].storageClass])
    {
      assert ClassMoved(w, t, w.orig[n].storageClass) && Moved(w, t, n);
      assert Faithful(w, t.pvs[n]);
    }
  }

  lemma DriverKeepsName(w: World, s: Store, log: seq<Op>, d: string)
    requires Inv(w, s) && Lawful(w, s, log) && d in Replay(s, log).drivers
    ensures Replay(s, log).drivers[d].name == d
  {
    RunKeepsInv(w, s, log);
  }

  /** In every state of every run, also if others create volumes: a connection or class that was not
      stored before the start was made from a driver, and says what the driver says. */
  lemma NothingElseIsMade(w: World, s: Store, log: seq<Op>, k: nat)
    requires Inv(w, s) && Lawful(w, s, log) && k <= |log|
    ensures var t := Replay(s, log[..k]);
      && (forall c :: c in t.connections && c !in w.connections ==> c in t.drivers && OwnConnection(t.drivers[c], t.connections[c]))
      && (forall c :: c in t.classes && c !in w.classes ==>
            exists d :: d in t.drivers && c in ClassNames(t.drivers[d]) && OwnClass(t.drivers[d], t.classes[c]))
  {
    CrashKeepsLaw(w, s, log, k);
    RunKeepsInv(w, s, log[..k]);
    hide Replay, OwnConnection, OwnClass, ClassNames, BackupsSound, NothingLost, LabelsTruthful, Conserved, WellFormed;
  }

  /** Backups of the hook always decode to volumes the server accepts, so that a recovery in
      which no call fails succeeds from every state a run can leave behind. */
  lemma {:induction false} RecoveryIsAlwaysPossible(w: World, s: Store, log: seq<Op>)
    requires Lawful(w, s, log) && OursRestorable(w, s)
    ensures OursRestorable(w, Replay(s, log)) && AllRestorable(Replay(s, log), w.source)
  {
    if log != [] {
      var last := |log| - 1;
      CrashKeepsLaw(w, s, log, last);
      RecoveryIsAlwaysPossible(w, s, log[..last]);
      RestorableStep(w, Replay(s, log[..last]), log[last]);
    }
  }

  predicate FromHook(w: World, b: Backup) {
    BACKUP_SOURCE_LABEL in b.labels && b.labels[BACKUP_SOURCE_LABEL] == w.source
  }

  ghost predicate OursRestorable(w: World, s: Store) {
    forall b :: b in s.backups && FromHook(w, s.backups[b]) ==> Restorable(s.backups[b])
  }

  lemma RestorableStep(w: World, s: Store, op: Op)
    requires Guard(w, s, op) && OursRestorable(w, s)
    ensures OursRestorable(w, Apply(s, op))
  {
  }

  /** What the code does not give: after a crash between patch and delete the recovery finds
      the volume there and leaves it as it is, so that Retain is what the next pass copies: the
      policy survives such a crash exactly if it was Retain. */
  lemma CrashAfterPatchForgetsPolicy(w: World, s: Store, n: string, b: string, secret: string)
    requires WellFormed(s) && n in s.pvs && !s.pvs[n].terminating && BothRefs(s.pvs[n])
    requires b in s.backups && Holds(w, s.backups[b], n)
    ensures var t := Apply(Apply(s, StripAndRetain(n)), CreatePV(s.backups[b].data.pv));
      n in t.pvs && (Rewrite(t.pvs[n], secret).policy == s.pvs[n].policy <==> s.pvs[n].policy == RETAIN)
  {
  }

  // ---- When the outside world takes its finalizer away ----

  function WithoutProtection(finalizers: seq<string>): seq<string> {
    if finalizers == [] then []
    else (if finalizers[0] == PV_PROTECTION then [] else [finalizers[0]]) + WithoutProtection(finalizers[1..])
  }

  /** The pv-protection controller lets go of a volume that is being deleted. No lawful run has this. */
  function LetGo(s: Store, n: string): Store {
    if n in s.pvs && s.pvs[n].terminating
    then Written(s, s.pvs[n].(finalizers := WithoutProtection(s.pvs[n].finalizers))) else s
  }

  /** The recovery of one backup without failing calls, and then that. */
  function RecoveredAndLetGo(s: Store, b: Backup): Store
    requires b.data.Manifest?
  {
    LetGo(Apply(Apply(s, CreatePV(b.data.pv)), PutBackup(Labelled(b, "true"))), b.data.pv.name)
  }

  ghost predicate Lost(w: World, s: Store, n: string) {
    n !in s.pvs && !Pending(w, s, n)
  }

  ghost predicate OnlyHolder(w: World, s: Store, k: string, n: string) {
    forall j :: j in s.backups && j != k ==> !Holds(w, s.backups[j], n)
  }

  /** What the code does not give: the recovery takes a volume that is still being deleted for one
      that is there, and labels its backup as done. So the volume is lost exactly if nothing but
      pv-protection holds it and no other backup does, when the recovery comes. */
  lemma LostWhenLetGo(w: World, s: Store, n: string, k: string)
    requires (n in s.pvs ==> s.pvs[n].name == n) && k in s.backups && s.backups[k].name == k && Holds(w, s.backups[k], n)
    ensures Lost(w, RecoveredAndLetGo(s, s.backups[k]), n) <==>
      n in s.pvs && s.pvs[n].terminating && WithoutProtection(s.pvs[n].finalizers) == [] && OnlyHolder(w, s, k, n)
  {
    hide WithoutProtection;
    var b := s.backups[k];
    var t := RecoveredAndLetGo(s, b);
    assert t.backups == s.backups[k := Labelled(b, "true")];
    PendingElsewhere(w, s, t, k, n);
  }

  lemma PendingElsewhere(w: World, s: Store, t: Store, k: string, n: string)
    requires k in s.backups && t.backups == s.backups[k := Labelled(s.backups[k], "true")]
    ensures Pending(w, t, n) <==> !OnlyHolder(w, s, k, n)
  {
    if !OnlyHolder(w, s, k, n) {
      var j :| j in s.backups && j != k && Holds(w, s.backups[j], n);
      assert t.backups[j] == s.backups[j];
    }
  }

  /** A crash after the delete of a live volume leaves such a store exactly if the outside world
      had protected the volume again between patch and delete. */
  lemma CrashAfterDeleteLosesVolume(w: World, s: Store, n: string, k: string, again: bool)
    requires WellFormed(s) && n in s.pvs && !s.pvs[n].terminating
    requires k in s.backups && Holds(w, s.backups[k], n) && OnlyHolder(w, s, k, n)
    ensures var patched := Apply(s, StripAndRetain(n));
      var crashed := Apply(if again then Apply(patched, Protect(n)) else patched, DeletePV(n));
      Lost(w, RecoveredAndLetGo(crashed, crashed.backups[k]), n) <==> again
  {
    hide Holds, OnlyHolder, RecoveredAndLetGo, Lost, WithoutProtection;
    var patched := Apply(s, StripAndRetain(n));
    var crashed := Apply(if again then Apply(patched, Protect(n)) else patched, DeletePV(n));
    DeletedAfterPatch(s, n, again);
    SameHolders(w, s, crashed, k, n);
    LostWhenLetGo(w, crashed, n, k);
  }

  lemma SameHolders(w: World, s: Store, t: Store, k: string, n: string)
    requires t.backups == s.backups
    ensures OnlyHolder(w, t, k, n) <==> OnlyHolder(w, s, k, n)
  {
  }

  /** Volume n is live under its name, with these finalizers. */
  predicate LiveWith(s: Store, n: string, finalizers: seq<string>) {
    n in s.pvs && s.pvs[n].name == n && !s.pvs[n].terminating && s.pvs[n].finalizers == finalizers
  }

  lemma PatchLeaves(s: Store, n: string)
    requires n in s.pvs && LiveWith(s, n, s.pvs[n].finalizers)
    ensures var t := Apply(s, StripAndRetain(n)); LiveWith(t, n, []) && t.backups == s.backups
  {
  }

  lemma ProtectLeaves(s: Store, n: string)
    requires LiveWith(s, n, [])
    ensures var t := Apply(s, Protect(n)); LiveWith(t, n, [PV_PROTECTION]) && t.backups == s.backups
  {
    assert [] + [PV_PROTECTION] == [PV_PROTECTION];
  }

  lemma DeleteLeaves(s: Store, n: string, finalizers: seq<string>)
    requires LiveWith(s, n, finalizers)
    ensures var t := Apply(s, DeletePV(n));
      && t.backups == s.backups && (n in t.pvs <==> finalizers != [])
      && (n in t.pvs ==> t.pvs[n].name == n && t.pvs[n].terminating && t.pvs[n].finalizers == finalizers)
  {
  }

  lemma DeletedAfterPatch(s: Store, n: string, again: bool)
    requires n in s.pvs && LiveWith(s, n, s.pvs[n].finalizers)
    ensures var patched := Apply(s, StripAndRetain(n));
      var crashed := Apply(if again then Apply(patched, Protect(n)) else patched, DeletePV(n));
      && crashed.backups == s.backups && (n in crashed.pvs <==> again)
      && (again ==> crashed.pvs[n].name == n && crashed.pvs[n].terminating && WithoutProtection(crashed.pvs[n].finalizers) == [])
  {
    hide Apply;
    var patched := Apply(s, StripAndRetain(n));
    PatchLeaves(s, n);
    if again {
      ProtectLeaves(patched, n);
      DeleteLeaves(Apply(patched, Protect(n)), n, [PV_PROTECTION]);
      assert [PV_PROTECTION][1..] == [] && WithoutProtection([PV_PROTECTION]) == [];
    } else {
      DeleteLeaves(patched, n, []);
    }
  }
}
