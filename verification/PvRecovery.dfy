/** The recovery procedure that runs first on every start: volumes whose backup still says
    "false" are created again if they are missing. */
module PvRecovery {
  import opened Kube
  import opened Volumes
  import opened MigrationStore
  import opened MigrationCluster
  import opened PvMigration

  ghost predicate ListsOutstanding(s: Store, source: string, items: seq<Backup>, from: nat) {
    && (forall i :: from <= i < |items| ==>
      items[i].name in s.backups && s.backups[items[i].name] == items[i] && Outstanding(items[i], source))
    && (forall i, j :: 0 <= i < j < |items| ==> items[i].name != items[j].name)
    && (forall k :: k in s.backups && Outstanding(s.backups[k], source) ==>
      exists i :: from <= i < |items| && items[i].name == k)
  }

  /** How the server selects by labels. */
  predicate Matches(labels: map<string, string>, selector: map<string, string>) {
    forall k :: k in selector ==> k in labels && labels[k] == selector[k]
  }

  lemma SelectorMeans(b: Backup, source: string)
    ensures Matches(b.labels, map[BACKUP_SOURCE_LABEL := source, RESOURCE_KIND_LABEL := KIND_PV, RECREATED_LABEL := "false"])
      <==> Outstanding(b, source)
  {
    var selector := map[BACKUP_SOURCE_LABEL := source, RESOURCE_KIND_LABEL := KIND_PV, RECREATED_LABEL := "false"];
    assert BACKUP_SOURCE_LABEL in selector && RESOURCE_KIND_LABEL in selector && RECREATED_LABEL in selector;
    assert BACKUP_SOURCE_LABEL[21] != RESOURCE_KIND_LABEL[21] && |BACKUP_SOURCE_LABEL| == |RESOURCE_KIND_LABEL| < |RECREATED_LABEL|;
  }

  method Select(names: seq<string>, all: seq<Backup>, source: string) returns (items: seq<Backup>)
    requires |names| == |all| && forall i :: 0 <= i < |all| ==> all[i].name == names[i]
    requires forall i, j :: 0 <= i < j < |names| ==> names[i] != names[j]
    ensures forall i :: 0 <= i < |items| ==> items[i] in all && Outstanding(items[i], source)
    ensures forall i, j :: 0 <= i < j < |items| ==> items[i].name != items[j].name
    ensures forall b :: b in all && Outstanding(b, source) ==> b in items
  {
    hide Outstanding, Matches;
    var selector := map[BACKUP_SOURCE_LABEL := source, RESOURCE_KIND_LABEL := KIND_PV, RECREATED_LABEL := "false"];
    items := [];
    for i := 0 to |all|
      invariant forall j :: 0 <= j < |items| ==> items[j] in all[..i] && Outstanding(items[j], source)
      invariant forall j, k :: 0 <= j < k < |items| ==> items[j].name != items[k].name
      invariant forall b :: b in all[..i] && Outstanding(b, source) ==> b in items
    {
      assert forall j :: 0 <= j < |items| ==> items[j].name != names[i];
      SelectorMeans(all[i], source);
      if Matches(all[i].labels, selector) {
        items := items + [all[i]];
      }
    }
  }

  method ListOutstanding(cl: Cluster, source: string) returns (err: Error, items: seq<Backup>)
    requires cl.Valid()
    modifies cl
    ensures cl.Valid() && cl.Advanced() && OnlyWorld(old(cl.log), cl.log)
    ensures Drifted(cl.world, old(cl.db), cl.db)
    ensures err == NoError ==> ListsOutstanding(cl.db, source, items, 0)
    ensures old(Calm(cl.weather)) ==> err == NoError
  {
    hide Onward, Lawful, Replay, Conserved, Quiet, LabelsTruthful, NothingLost, BackupsSound, PlanIsOwn;
    err := cl.Read();
    if err != NoError {
      return err, [];
    }
    var names, all := Listing(cl.db.backups);
    items := Select(names, all, source);
    SelectedAreOutstanding(cl.db, names, all, source, items);
  }

  lemma SelectedAreOutstanding(s: Store, names: seq<string>, all: seq<Backup>, source: string, items: seq<Backup>)
    requires WellFormed(s) && |names| == |all|
    requires forall i :: 0 <= i < |names| ==> names[i] in s.backups && all[i] == s.backups[names[i]]
    requires forall k :: k in s.backups ==> k in names
    requires forall i :: 0 <= i < |items| ==> items[i] in all && Outstanding(items[i], source)
    requires forall i, j :: 0 <= i < j < |items| ==> items[i].name != items[j].name
    requires forall b :: b in all && Outstanding(b, source) ==> b in items
    ensures ListsOutstanding(s, source, items, 0)
  {
  }

  /** The backup decodes to a volume the server accepts. */
  predicate Restorable(b: Backup) {
    b.data.Manifest? && b.data.pv.rv == 0
  }

  predicate AllRestorable(s: Store, source: string) {
    forall k :: k in s.backups && Outstanding(s.backups[k], source) ==> Restorable(s.backups[k])
  }

  lemma RestoreAllowed(w: World, s: Store, b: Backup)
    requires Inv(w, s) && b.name in s.backups && s.backups[b.name] == b && Outstanding(b, w.source) && b.data.Manifest?
    ensures Guard(w, s, CreatePV(b.data.pv))
  {
  }

  // ---- What a recovery does to the store ----

  /** Volume q is the one in the backup, created again. */
  ghost predicate Revives(w: World, b: Backup, q: PV) {
    Awaits(w, b) && SameContent(q, b.data.pv) && !q.terminating
  }

  /** Volumes that were there are still there as they were; a volume that was not is revived from
      an outstanding backup (nobody else creating volumes); of the backups only labels changed,
      and none became outstanding. */
  ghost predicate Restored(w: World, s: Store, t: Store) {
    && s.clock <= t.clock && SamePlan(s, t)
    && (forall n :: n in s.pvs ==> n in t.pvs && Touched(s.clock, s.pvs[n], t.pvs[n]))
    && (!w.intruders ==> forall n :: n in t.pvs && n !in s.pvs ==> Revived(w, s, t.pvs[n]))
    && t.backups.Keys == s.backups.Keys && (forall k :: k in s.backups ==> t.backups[k].data == s.backups[k].data)
    && NoneAdded(s, t, w.source)
  }

  ghost predicate Revived(w: World, s: Store, q: PV) {
    exists k :: k in s.backups && Revives(w, s.backups[k], q)
  }

  /** Every volume with an outstanding backup is there. */
  ghost predicate AllRevived(w: World, s: Store, t: Store) {
    forall k :: k in s.backups && Awaits(w, s.backups[k]) ==> s.backups[k].data.pv.name in t.pvs
  }

  lemma RestoredRefl(w: World, s: Store)
    ensures Restored(w, s, s)
  {
  }

  lemma StaysRevived(w: World, a: Store, b: Store, p: PV, q: PV)
    requires Restored(w, a, b)
    ensures Revived(w, b, q) ==> Revived(w, a, q)
    ensures Revived(w, a, p) && Touched(b.clock, p, q) ==> Revived(w, a, q)
  {
    hide Touched, SamePlan;
    if Revived(w, b, q) {
      var k :| k in b.backups && Revives(w, b.backups[k], q);
      assert k in a.backups.Keys && a.backups[k] == b.backups[k];
    }
    if Revived(w, a, p) && Touched(b.clock, p, q) {
      var k :| k in a.backups && Revives(w, a.backups[k], p);
      TouchedIsSame(b.clock, p, q);
      assert Revives(w, a.backups[k], q);
    }
  }

  lemma TouchedIsSame(clock: nat, p: PV, q: PV)
    requires Touched(clock, p, q)
    ensures SameContent(p, q) && q.terminating == p.terminating
  {
  }

  lemma RestoredTrans(w: World, a: Store, b: Store, c: Store)
    requires Restored(w, a, b) && Restored(w, b, c)
    ensures Restored(w, a, c)
  {
    hide Revived;
    if !w.intruders {
      forall n | n in c.pvs && n !in a.pvs ensures Revived(w, a, c.pvs[n]) {
        if n in b.pvs {
          StaysRevived(w, a, b, b.pvs[n], c.pvs[n]);
        } else {
          StaysRevived(w, a, b, c.pvs[n], c.pvs[n]);
        }
      }
    }
  }

  lemma DriftRestores(w: World, s: Store, t: Store)
    requires Drifted(w, s, t)
    ensures Restored(w, s, t)
  {
    if !w.intruders {
      forall n | n in t.pvs ensures n in s.pvs {
        assert n in t.pvs.Keys;
      }
    }
  }

  lemma CreateRestores(w: World, at: Store, b: Backup)
    requires WellFormed(at) && b.name in at.backups && at.backups[b.name] == b && Awaits(w, b)
    ensures var t := Apply(at, CreatePV(b.data.pv));
      && Restored(w, at, t) && t.backups == at.backups
      && (b.data.pv.rv == 0 ==> b.data.pv.name in t.pvs)
    ensures var verdict := Verdict(at, CreatePV(b.data.pv));
      b.data.pv.rv == 0 <==> verdict == NoError || verdict == AlreadyExists
  {
    var t := Apply(at, CreatePV(b.data.pv));
    forall n | n in t.pvs && n !in at.pvs ensures Revived(w, at, t.pvs[n]) {
      assert Revives(w, at.backups[b.name], t.pvs[n]);
    }
  }

  lemma RelabelRestores(w: World, at: Store, b: Backup)
    requires b.name in at.backups && at.backups[b.name] == b
    ensures var t := Apply(at, PutBackup(Labelled(b, "true")));
      Restored(w, at, t) && t.pvs == at.pvs && t.backups == at.backups[b.name := Labelled(b, "true")]
    ensures Verdict(at, PutBackup(Labelled(b, "true"))) == NoError
  {
  }

  /** So a recovery leaves as many terminating volumes as there were. */
  lemma RestoredTerminating(w: World, s: Store, t: Store)
    requires Restored(w, s, t) && !w.intruders
    ensures Terminating(t) == Terminating(s)
  {
    hide NoneAdded, SameContent;
    forall n | n in Terminating(t) ensures n in Terminating(s) {
      assert n !in s.pvs ==> Revived(w, s, t.pvs[n]);
    }
    forall n | n in Terminating(s) ensures n in Terminating(t) {
      assert Touched(s.clock, s.pvs[n], t.pvs[n]);
    }
  }

  // ---- The procedure ----

  method CreateIfMissing(cl: Cluster, obj: PV, ghost backup: Backup) returns (err: Error)
    requires cl.Valid() && backup.name in cl.db.backups && cl.db.backups[backup.name] == backup
    requires Outstanding(backup, cl.world.source) && backup.data == Manifest(obj)
    modifies cl
    ensures cl.Valid() && cl.Advanced()
    ensures Restored(cl.world, old(cl.db), cl.db) && cl.db.backups == old(cl.db.backups)
    ensures err == NoError ==> obj.name in cl.db.pvs
    ensures old(Calm(cl.weather)) ==> (err == NoError <==> obj.rv == 0)
  {
    hide Onward, Inv, Lawful, Replay, Quiet, Rewritten, Verdict, Guard, Restored, VolumesDrifted, Outstanding;
    RestoreAllowed(cl.world, cl.db, backup);
    var echo;
    ghost var at;
    err, echo, at := cl.Request(CreatePV(obj));
    InvIsWellFormed(cl.world, at);
    DriftRestores(cl.world, old(cl.db), at);
    CreateRestores(cl.world, at, backup);
    RestoredTrans(cl.world, old(cl.db), at, cl.db) by { RestoredRefl(cl.world, at); }
    if err == AlreadyExists {
      AlreadyThere(at, obj);
      err := NoError;
    }
  }

  lemma AlreadyThere(at: Store, pv: PV)
    ensures Verdict(at, CreatePV(pv)) == AlreadyExists ==> pv.name in at.pvs && Apply(at, CreatePV(pv)) == at
  {
  }

  method Relabel(cl: Cluster, backup: Backup) returns (err: Error)
    requires cl.Valid() && backup.name in cl.db.backups && cl.db.backups[backup.name] == backup
    requires backup.data.Manifest? ==> backup.data.pv.name in cl.db.pvs
    modifies cl
    ensures cl.Valid() && cl.Advanced()
    ensures Restored(cl.world, old(cl.db), cl.db)
    ensures var now := old(cl.db.backups)[backup.name := Labelled(backup, "true")];
      (cl.db.backups == old(cl.db.backups) || cl.db.backups == now) && (err == NoError ==> cl.db.backups == now)
    ensures old(Calm(cl.weather)) ==> err == NoError
  {
    hide Onward, Inv, Lawful, Replay, Quiet, Rewritten, Verdict, Guard, Restored, VolumesDrifted, Apply;
    InvIsWellFormed(cl.world, cl.db);
    RelabelAllowed(cl.world, cl.db, backup.name, "true");
    var echo;
    ghost var at;
    err, echo, at := cl.Request(PutBackup(Labelled(backup, "true")));
    DriftRestores(cl.world, old(cl.db), at);
    RelabelRestores(cl.world, at, backup);
    RestoredTrans(cl.world, old(cl.db), at, cl.db) by { RestoredRefl(cl.world, at); }
  }

  /** Creates the volume of one backup if it is missing, and labels the backup as done. */
  method RestoreOne(cl: Cluster, backup: Backup) returns (err: Error)
    requires cl.Valid() && backup.name in cl.db.backups && cl.db.backups[backup.name] == backup
    requires Outstanding(backup, cl.world.source)
    modifies cl
    ensures cl.Valid() && cl.Advanced()
    ensures Restored(cl.world, old(cl.db), cl.db)
    ensures err == NoError ==>
      && cl.db.backups == old(cl.db.backups)[backup.name := Labelled(backup, "true")]
      && backup.data.Manifest? && backup.data.pv.name in cl.db.pvs
    ensures old(Calm(cl.weather)) ==> (err == NoError <==> Restorable(backup))
  {
    hide Onward, Inv, Lawful, Replay, Quiet, Guard, Restored, Outstanding;
    ghost var start := cl.db;
    OnwardRefl(cl.world, cl.db);
    RestoredRefl(cl.world, cl.db);
    match backup.data {
      case Garbage =>
        return Undecodable;
      case Manifest(obj) =>
        err := CreateIfMissing(cl, obj, backup);
        if err != NoError {
          return;
        }
        ghost var middle := cl.db;
        err := Relabel(cl, backup);
        OnwardTrans(cl.world, start, middle, cl.db);
        RestoredTrans(cl.world, start, middle, cl.db);
        StillThere(cl.world, middle, cl.db, obj.name);
    }
  }

  lemma StillThere(w: World, s: Store, t: Store, n: string)
    requires Restored(w, s, t) && n in s.pvs
    ensures n in t.pvs
  {
  }

  lemma OutstandingStep(s: Store, t: Store, source: string, items: seq<Backup>, i: nat)
    requires i < |items| && ListsOutstanding(s, source, items, i)
    requires t.backups == s.backups[items[i].name := Labelled(items[i], "true")]
    ensures ListsOutstanding(t, source, items, i + 1)
  {
  }

  lemma NothingMissing(w: World, s: Store, items: seq<Backup>)
    requires Inv(w, s) && ListsOutstanding(s, w.source, items, |items|)
    ensures (forall n :: n in w.orig ==> n in s.pvs) && NoneOutstanding(s, w.source)
  {
  }

  /** The volumes of the first i listed backups are there. */
  ghost predicate FirstThere(t: Store, items: seq<Backup>, i: nat) {
    forall j :: 0 <= j < i && j < |items| && items[j].data.Manifest? ==> items[j].data.pv.name in t.pvs
  }

  lemma FirstStep(w: World, s: Store, t: Store, items: seq<Backup>, i: nat)
    requires Restored(w, s, t) && FirstThere(s, items, i) && i < |items|
    requires items[i].data.Manifest? && items[i].data.pv.name in t.pvs
    ensures FirstThere(t, items, i + 1)
  {
  }

  lemma FirstAreAll(w: World, s: Store, m: Store, t: Store, items: seq<Backup>)
    requires ListsOutstanding(m, w.source, items, 0) && m.backups == s.backups && FirstThere(t, items, |items|)
    ensures AllRevived(w, s, t)
  {
  }

  /** After a successful recovery every original volume is in the store, every volume with an
      outstanding backup too, and no backup is outstanding; Restored says that nothing else
      changed. When no call fails it succeeds exactly if the outstanding backups decode to
      volumes the server admits. If none is outstanding nothing is written. */
  method ProcessRemovedPVs(cl: Cluster, backupSourceName: string) returns (err: Error)
    requires cl.Valid() && backupSourceName == cl.world.source
    modifies cl
    ensures cl.Valid() && cl.Advanced()
    ensures Restored(cl.world, old(cl.db), cl.db)
    ensures err == NoError ==>
      && (forall n :: n in cl.world.orig ==> n in cl.db.pvs)
      && AllRevived(cl.world, old(cl.db), cl.db)
      && NoneOutstanding(cl.db, backupSourceName)
    ensures old(Calm(cl.weather)) ==> (err == NoError <==> AllRestorable(old(cl.db), backupSourceName))
    ensures old(NoneOutstanding(cl.db, backupSourceName)) ==> OnlyWorld(old(cl.log), cl.log)
  {
    hide Onward, Inv, Lawful, Replay, Quiet, Restored, Rewritten, VolumesDrifted, FirstThere, OnlyWorld;
    ghost var start := cl.db;
    var items;
    err, items := ListOutstanding(cl, backupSourceName);
    DriftRestores(cl.world, start, cl.db);
    if err != NoError {
      return;
    }
    ghost var listed := cl.db;
    NoneYet(cl.db, items);
    if |items| == 0 {
      NothingMissing(cl.world, cl.db, items);
      FirstAreAll(cl.world, start, listed, cl.db, items);
      return;
    }
    assert items[0].name in start.backups;
    for i := 0 to |items|
      invariant cl.Valid() && cl.Advanced()
      invariant Restored(cl.world, start, cl.db) && FirstThere(cl.db, items, i)
      invariant ListsOutstanding(cl.db, backupSourceName, items, i)
      invariant forall j :: i <= j < |items| ==> items[j].name in start.backups && start.backups[items[j].name] == items[j]
      invariant old(Calm(cl.weather)) ==> forall j :: 0 <= j < i ==> Restorable(items[j])
    {
      ghost var middle := cl.db;
      err := RestoreOne(cl, items[i]);
      RestoredTrans(cl.world, start, middle, cl.db);
      OnwardTrans(cl.world, start, middle, cl.db);
      if err != NoError {
        return;
      }
      OutstandingStep(middle, cl.db, backupSourceName, items, i);
      FirstStep(cl.world, middle, cl.db, items, i) by { RestoredRefl(cl.world, cl.db); }
    }
    NothingMissing(cl.world, cl.db, items);
    FirstAreAll(cl.world, start, listed, cl.db, items);
    return NoError;
  }

  lemma NoneYet(s: Store, items: seq<Backup>)
    ensures FirstThere(s, items, 0)
  {
  }
}
