/** The recovery procedure and the loop that moves PersistentVolumes to a new secret. */
module PvMigration {
  import opened Kube
  import opened Volumes
  import opened MigrationStore
  import opened MigrationCluster

  const BACKUP_ATTEMPTS := 4
  const POLL_ATTEMPTS := 36

  function BackupName(backupTime: string, pvName: string): string {
    backupTime + "-persistentvolume-" + pvName
  }

  lemma BackupNamesDiffer(backupTime: string, a: string, b: string)
    requires BackupName(backupTime, a) == BackupName(backupTime, b)
    ensures a == b
  {
    var prefix := backupTime + "-persistentvolume-";
    assert a == BackupName(backupTime, a)[|prefix|..];
    assert b == BackupName(backupTime, b)[|prefix|..];
  }

  function BackupOf(pv: PV, backupTime: string, source: string): Backup {
    Backup(BackupName(backupTime, pv.name),
           map[BACKUP_DATE_LABEL := backupTime, BACKUP_SOURCE_LABEL := source, RESOURCE_KIND_LABEL := KIND_PV],
           Manifest(Sanitize(pv)))
  }

  function Labelled(b: Backup, value: string): Backup {
    b.(labels := b.labels[RECREATED_LABEL := value])
  }

  /** The listed item is still what the store has, but for what the outside world adds. */
  ghost predicate Tracks(s: Store, item: PV) {
    item.name in s.pvs && item.rv < s.clock && Touched(item.rv + 1, item, s.pvs[item.name])
  }

  lemma TracksDrifts(w: World, s: Store, t: Store, item: PV)
    requires Tracks(s, item) && VolumesDrifted(w, s, t)
    ensures Tracks(t, item)
  {
  }

  function WithAnnotations(pv: PV): PV {
    pv.(annotations := Some(Annotations(pv)))
  }

  ghost predicate NoneOutstanding(s: Store, source: string) {
    forall k :: k in s.backups ==> !Outstanding(s.backups[k], source)
  }

  /** Backs the volume up, trying again whatever goes wrong. The backup is named after time, kind and
      volume, labelled with time, source and kind, and holds the volume as it is but for finalizers
      and what the server assigns. */
  method BackupResource(cl: Cluster, pv: PV, backupTime: string, backupSourceName: string)
    returns (err: Error, backupName: string)
    requires cl.Valid() && backupSourceName == cl.world.source
    requires !cl.world.intruders ==> Faithful(cl.world, Sanitize(pv)) && MustMove(cl.world, Sanitize(pv))
    modifies cl
    ensures cl.Valid() && cl.Advanced()
    ensures VolumesDrifted(cl.world, old(cl.db), cl.db) && SamePlan(old(cl.db), cl.db)
    ensures var b := Backup(
        backupTime + "-persistentvolume-" + pv.name,
        map["storage.deckhouse.io/backup-date" := backupTime, "storage.deckhouse.io/backup-source" := backupSourceName,
            "storage.deckhouse.io/resource-kind" := "PersistentVolume"],
        Manifest(pv.(uid := 0, rv := 0, finalizers := [])));
      && backupName == b.name && b == BackupOf(pv, backupTime, backupSourceName)
      && (cl.db.backups == old(cl.db.backups) || cl.db.backups == old(cl.db.backups)[b.name := b])
      && (err == NoError ==> b.name !in old(cl.db.backups) && cl.db.backups == old(cl.db.backups)[b.name := b])
      && (old(Calm(cl.weather)) ==> (err == NoError <==> b.name !in old(cl.db.backups)))
    ensures err != NoError ==> cl.weather == After(old(cl.weather), 4)
  {
    hide Inv, Onward, Lawful, Replay, Conserved, Quiet;
    var backup := BackupOf(pv, backupTime, backupSourceName);
    backupName := backup.name;
    err := Transient;
    OnwardRefl(cl.world, cl.db);
    for i := 0 to BACKUP_ATTEMPTS
      invariant cl.Valid() && cl.Advanced()
      invariant VolumesDrifted(cl.world, old(cl.db), cl.db) && SamePlan(old(cl.db), cl.db)
      invariant err != NoError && cl.weather == After(old(cl.weather), i)
      invariant cl.db.backups == old(cl.db.backups)
        || (backupName !in old(cl.db.backups) && cl.db.backups == old(cl.db.backups)[backupName := backup])
      invariant old(Calm(cl.weather)) ==> cl.db.backups == old(cl.db.backups)
      invariant old(Calm(cl.weather)) && i > 0 ==> backupName in old(cl.db.backups)
    {
      ghost var before := cl.db;
      var echo;
      ghost var at;
      err, echo, at := cl.Request(CreateBackup(backup));
      InvIsWellFormed(cl.world, at);
      ApplyChanges(cl.world, at, CreateBackup(backup));
      OnwardTrans(cl.world, old(cl.db), before, cl.db);
      VolumesDriftedTrans(cl.world, old(cl.db), before, cl.db);
      if err == NoError {
        return;
      }
    }
  }

  lemma RelabelAllowed(w: World, s: Store, name: string, value: string)
    requires WellFormed(s) && name in s.backups
    requires value != "false" && s.backups[name].data.Manifest? ==> s.backups[name].data.pv.name in s.pvs
    requires value == "false" && !w.intruders ==> OnlyBackup(w, s, s.backups[name])
    ensures Guard(w, s, PutBackup(Labelled(s.backups[name], value)))
  {
  }

  method SetRecreateLabelToBackupResource(cl: Cluster, backupName: string, labelValue: string) returns (err: Error)
    requires cl.Valid()
    requires labelValue != "false" && backupName in cl.db.backups && cl.db.backups[backupName].data.Manifest?
      ==> cl.db.backups[backupName].data.pv.name in cl.db.pvs
    requires labelValue == "false" && !cl.world.intruders && backupName in cl.db.backups
      ==> OnlyBackup(cl.world, cl.db, cl.db.backups[backupName])
    modifies cl
    ensures cl.Valid() && cl.Advanced()
    ensures VolumesDrifted(cl.world, old(cl.db), cl.db) && SamePlan(old(cl.db), cl.db)
    ensures err == NoError ==> backupName in old(cl.db.backups)
    ensures backupName in old(cl.db.backups) ==>
      var was := old(cl.db.backups)[backupName];
      var now := old(cl.db.backups)[backupName :=
        Backup(backupName, was.labels["storage.deckhouse.io/pv-recreated-successfully" := labelValue], was.data)];
      && (cl.db.backups == old(cl.db.backups) || cl.db.backups == now)
      && (err == NoError ==> cl.db.backups == now)
      && (old(Calm(cl.weather)) ==> err == NoError)
    ensures backupName !in old(cl.db.backups) ==> cl.db.backups == old(cl.db.backups)
  {
    hide Onward, Lawful, Replay, Conserved, Quiet, LabelsTruthful, NothingLost, BackupsSound, PlanIsOwn;
    err := cl.Read();
    if err != NoError {
      return;
    }
    if backupName !in cl.db.backups {
      return NotFound;
    }
    var backup := Labelled(cl.db.backups[backupName], labelValue);
    RelabelAllowed(cl.world, cl.db, backupName, labelValue);
    ghost var middle := cl.db;
    var echo;
    ghost var at;
    err, echo, at := cl.Request(PutBackup(backup));
    ApplyChanges(cl.world, at, PutBackup(backup));
    OnwardTrans(cl.world, old(cl.db), middle, cl.db);
    VolumesDriftedTrans(cl.world, old(cl.db), middle, cl.db);
  }

  /** Connections, classes and drivers are as before. */
  ghost predicate SamePlan(s: Store, t: Store) {
    t.connections == s.connections && t.classes == s.classes && t.drivers == s.drivers
  }

  /** Everything but volume n and backup b is as before, but for what the outside world adds. */
  ghost predicate Elsewhere(w: World, s: Store, t: Store, n: string, b: string) {
    && s.clock <= t.clock && SamePlan(s, t)
    && (forall m :: m in s.pvs && m != n ==> m in t.pvs && Touched(s.clock, s.pvs[m], t.pvs[m]))
    && (!w.intruders ==> t.pvs.Keys <= s.pvs.Keys + {n} && (forall m :: m in s.pvs && m != n ==> m in t.pvs))
    && (forall k :: k in s.backups && k != b ==> k in t.backups && t.backups[k] == s.backups[k])
    && (b in s.backups ==> b in t.backups)
    && t.backups.Keys <= s.backups.Keys + {b}
  }

  lemma ElsewhereTrans(w: World, a: Store, b: Store, c: Store, n: string, k: string)
    requires Elsewhere(w, a, b, n, k) && Elsewhere(w, b, c, n, k)
    ensures Elsewhere(w, a, c, n, k)
  {
  }

  lemma DriftIsElsewhere(w: World, s: Store, t: Store, n: string, b: string)
    requires VolumesDrifted(w, s, t) && SamePlan(s, t)
    requires t.backups == s.backups || (b in t.backups && t.backups == s.backups[b := t.backups[b]])
    ensures Elsewhere(w, s, t, n, b)
  {
  }

  lemma OnlyOwnVolume(s: Store, op: Op)
    ensures (op.PutPV? || op.CreatePV?) && Rewritten(s, op).Some? ==> Rewritten(s, op).value.0 == op.pv.name
    ensures (op.StripAndRetain? || op.Strip? || op.DeletePV? || op.SetPolicy?) && Rewritten(s, op).Some? ==>
      Rewritten(s, op).value.0 == op.name
  {
  }

  lemma TouchedRefl(s: Store, t: Store)
    ensures forall n :: n in s.pvs && n in t.pvs && t.pvs[n] == s.pvs[n] ==> Touched(s.clock, s.pvs[n], t.pvs[n])
  {
  }

  /** A write of volume n and the drift before it. */
  lemma WriteIsElsewhere(w: World, s: Store, at: Store, t: Store, op: Op, n: string, b: string)
    requires WellFormed(at) && Drifted(w, s, at) && (t == at || t == Apply(at, op))
    requires op == StripAndRetain(n) || op == Strip(n) || op == DeletePV(n) || (op.SetPolicy? && op.name == n)
      || ((op.CreatePV? || op.PutPV?) && op.pv.name == n)
    ensures Elsewhere(w, s, t, n, b) && t.backups == s.backups
  {
    hide Apply, Verdict, Rewritten, Touched;
    ApplyChanges(w, at, op);
    OnlyOwnVolume(at, op);
    VolumeWritesOnly(at, op);
    TouchedRefl(s, at);
    assert VolumesDrifted(w, s, at);
    forall m | m in s.pvs && m != n ensures m in t.pvs && Touched(s.clock, s.pvs[m], t.pvs[m]) {
      assert Touched(s.clock, s.pvs[m], at.pvs[m]);
    }
  }

  /** What is listed: every stored volume once. */
  ghost predicate Lists(s: Store, items: seq<PV>) {
    && (forall i :: 0 <= i < |items| ==> items[i].name in s.pvs && s.pvs[items[i].name] == items[i])
    && (forall i, j :: 0 <= i < j < |items| ==> items[i].name != items[j].name)
    && (forall n :: n in s.pvs ==> exists i :: 0 <= i < |items| && items[i].name == n)
  }

  method ListPVs(cl: Cluster) returns (err: Error, items: seq<PV>)
    requires cl.Valid()
    modifies cl
    ensures cl.Valid() && cl.Advanced()
    ensures Drifted(cl.world, old(cl.db), cl.db)
    ensures err == NoError ==> Lists(cl.db, items)
    ensures old(Calm(cl.weather)) ==> err == NoError
  {
    hide Onward, Lawful, Replay, Conserved, Quiet, LabelsTruthful, NothingLost, BackupsSound, PlanIsOwn;
    err := cl.Read();
    if err != NoError {
      return err, [];
    }
    var names;
    names, items := Listing(cl.db.pvs);
    ListingIsListed(cl.db, names, items);
  }

  lemma ListingIsListed(s: Store, names: seq<string>, items: seq<PV>)
    requires WellFormed(s) && |names| == |items|
    requires forall i :: 0 <= i < |names| ==> names[i] in s.pvs && items[i] == s.pvs[names[i]]
    requires forall i, j :: 0 <= i < j < |names| ==> names[i] != names[j]
    requires forall k :: k in s.pvs ==> k in names
    ensures Lists(s, items)
  {
  }

  method FindPV(items: seq<PV>, name: string) returns (found: Option<PV>)
    ensures found.None? ==> forall i :: 0 <= i < |items| ==> items[i].name != name
    ensures found.Some? ==> found.value in items && found.value.name == name
  {
    for i := 0 to |items|
      invariant forall j :: 0 <= j < i ==> items[j].name != name
    {
      if items[i].name == name {
        return Some(items[i]);
      }
    }
    return None;
  }

  lemma DestroyStays(w: World, s: Store, t: Store, n: string)
    requires MayDestroy(w, s, n) && t.backups == s.backups
    requires !w.intruders && n in t.pvs ==>
      n in s.pvs && t.pvs[n].storageClass == s.pvs[n].storageClass && t.pvs[n].csi == s.pvs[n].csi
    ensures MayDestroy(w, t, n)
  {
  }

  lemma ElsewhereRefl(w: World, s: Store, n: string, b: string)
    ensures Elsewhere(w, s, s, n, b)
  {
  }

  /** Volume n is gone or on its way out (nobody else creating volumes). */
  ghost predicate Leaving(w: World, s: Store, n: string) {
    !w.intruders && n in s.pvs ==> s.pvs[n].terminating
  }

  lemma DriftKeepsLeaving(w: World, s: Store, t: Store, n: string)
    requires Drifted(w, s, t) && Leaving(w, s, n) && MayDestroy(w, s, n)
    ensures Leaving(w, t, n) && MayDestroy(w, t, n)
    ensures !w.intruders ==> (n in t.pvs <==> n in s.pvs)
  {
  }

  /** Stripping a volume that is on its way out makes it go away. */
  lemma StripEnds(w: World, at: Store, t: Store, n: string)
    requires WellFormed(at) && Leaving(w, at, n) && MayDestroy(w, at, n)
    requires t == at || t == Apply(at, Strip(n))
    ensures Leaving(w, t, n) && MayDestroy(w, t, n)
    ensures !w.intruders && t == Apply(at, Strip(n)) ==> n !in t.pvs
  {
  }

  lemma ListedOrGone(w: World, s: Store, items: seq<PV>, n: string, found: Option<PV>)
    requires WellFormed(s) && Lists(s, items)
    requires found.None? ==> forall i :: 0 <= i < |items| ==> items[i].name != n
    requires found.Some? ==> found.value in items && found.value.name == n
    ensures found.Some? <==> n in s.pvs
    ensures found.Some? && s.pvs[n].terminating ==> |found.value.finalizers| > 0
  {
  }

  /** One round of the poll: look the volume up, and take its finalizers away if it has any. */
  method PollOnce(cl: Cluster, name: string, ghost b: string) returns (err: Error, gone: bool)
    requires cl.Valid() && MayDestroy(cl.world, cl.db, name) && Leaving(cl.world, cl.db, name)
    modifies cl
    ensures cl.Valid() && cl.Advanced() && MayDestroy(cl.world, cl.db, name) && Leaving(cl.world, cl.db, name)
    ensures Elsewhere(cl.world, old(cl.db), cl.db, name, b) && cl.db.backups == old(cl.db.backups)
    ensures gone ==> name !in cl.db.pvs && err == NoError
    ensures !cl.world.intruders && err == NoError ==> name !in cl.db.pvs
    ensures !cl.world.intruders && old(Calm(cl.weather)) ==> err == NoError && (name !in old(cl.db.pvs) ==> gone)
  {
    hide Onward, Lawful, Replay, Conserved, Quiet, LabelsTruthful, NothingLost, BackupsSound, PlanIsOwn, Elsewhere, VolumesDrifted,
      Pending, WellFormed, Lists;
    ghost var start := cl.db;
    gone := false;
    var items;
    err, items := ListPVs(cl);
    ghost var middle := cl.db;
    DriftKeepsLeaving(cl.world, start, middle, name);
    DriftIsElsewhere(cl.world, start, middle, name, b);
    if err != NoError {
      return;
    }
    var found := FindPV(items, name);
    ListedOrGone(cl.world, cl.db, items, name, found);
    if found.None? {
      return NoError, true;
    }
    if |found.value.finalizers| > 0 {
      var echo;
      ghost var at;
      err, echo, at := cl.Request(Strip(name));
      DriftKeepsLeaving(cl.world, middle, at, name);
      StripEnds(cl.world, at, cl.db, name);
      WriteIsElsewhere(cl.world, middle, at, cl.db, Strip(name), name, b);
      ElsewhereTrans(cl.world, start, middle, cl.db, name, b);
      OnwardTrans(cl.world, start, middle, cl.db);
    }
  }

  /** Polls until the volume is gone. */
  method AwaitDeletion(cl: Cluster, name: string, ghost b: string) returns (err: Error)
    requires cl.Valid() && MayDestroy(cl.world, cl.db, name) && Leaving(cl.world, cl.db, name)
    modifies cl
    ensures cl.Valid() && cl.Advanced()
    ensures Elsewhere(cl.world, old(cl.db), cl.db, name, b) && cl.db.backups == old(cl.db.backups)
    ensures err == NoError ==> name !in cl.db.pvs
    ensures !cl.world.intruders && old(Calm(cl.weather)) ==> err == NoError
  {
    hide Onward, Inv, Lawful, Replay, Quiet, Elsewhere, MayDestroy, Leaving;
    ghost var start := cl.db;
    OnwardRefl(cl.world, cl.db);
    ElsewhereRefl(cl.world, cl.db, name, b);
    for k := 0 to POLL_ATTEMPTS
      invariant cl.Valid() && cl.Advanced()
      invariant Elsewhere(cl.world, start, cl.db, name, b) && cl.db.backups == start.backups
      invariant MayDestroy(cl.world, cl.db, name) && Leaving(cl.world, cl.db, name)
      invariant !cl.world.intruders && old(Calm(cl.weather)) ==> k <= 1 && (k == 1 ==> name !in cl.db.pvs)
    {
      ghost var middle := cl.db;
      var gone;
      err, gone := PollOnce(cl, name, b);
      ElsewhereTrans(cl.world, start, middle, cl.db, name, b);
      OnwardTrans(cl.world, start, middle, cl.db);
      if err != NoError || gone {
        return;
      }
    }
    return Timeout;
  }

  // ---- Recreating one volume ----

  /** The backup of a volume that still has to move allows it to be destroyed. */
  lemma BackupAllows(w: World, s: Store, item: PV, backupTime: string)
    requires Tracks(s, item) && MustMove(w, item)
    requires var b := Labelled(BackupOf(WithAnnotations(item), backupTime, w.source), "false");
      b.name in s.backups && s.backups[b.name] == b
    ensures MayDestroy(w, s, item.name)
  {
  }

  /** Backs the volume up and labels the backup as not recreated yet. */
  method BackupAndMark(cl: Cluster, ghost item: PV, pv: PV, backupTime: string, newSecretName: string,
                       backupSourceName: string)
    returns (err: Error, backupName: string)
    requires cl.Valid() && backupSourceName == cl.world.source
    requires pv == WithAnnotations(item) && Tracks(cl.db, item)
    requires item.storageClass in cl.world.target && cl.world.target[item.storageClass] == newSecretName
    requires NeedsRecreate(item, newSecretName)
    requires !cl.world.intruders ==> NoneOutstanding(cl.db, backupSourceName)
    modifies cl
    ensures cl.Valid() && cl.Advanced()
    ensures VolumesDrifted(cl.world, old(cl.db), cl.db) && Tracks(cl.db, item)
    ensures backupName == BackupName(backupTime, item.name)
    ensures Elsewhere(cl.world, old(cl.db), cl.db, item.name, backupName)
    ensures err == NoError ==>
      && backupName in cl.db.backups
      && cl.db.backups[backupName] == Labelled(BackupOf(pv, backupTime, backupSourceName), "false")
      && MayDestroy(cl.world, cl.db, item.name)
    ensures old(Calm(cl.weather)) ==> (err == NoError <==> backupName !in old(cl.db.backups))
  {
    hide Onward, Inv, Lawful, Replay, Conserved, Quiet, Elsewhere, VolumesDrifted, MayDestroy, Faithful, Tracks;
    ghost var start := cl.db;
    if !cl.world.intruders {
      TrackedIsFaithful(cl.world, cl.db, item);
    }
    err, backupName := BackupResource(cl, pv, backupTime, backupSourceName);
    ghost var middle := cl.db;
    TracksDrifts(cl.world, start, middle, item);
    DriftIsElsewhere(cl.world, start, middle, item.name, backupName);
    if err != NoError {
      return;
    }
    if !cl.world.intruders {
      FirstBackup(cl.world, start, middle, BackupOf(pv, backupTime, backupSourceName));
    }
    err := SetRecreateLabelToBackupResource(cl, backupName, "false");
    VolumesDriftedTrans(cl.world, start, middle, cl.db);
    OnwardTrans(cl.world, start, middle, cl.db);
    TracksDrifts(cl.world, start, cl.db, item);
    DriftIsElsewhere(cl.world, start, cl.db, item.name, backupName);
    if err == NoError {
      BackupAllows(cl.world, cl.db, item, backupTime);
    }
  }

  /** The only new backup can be labelled "false". */
  lemma FirstBackup(w: World, s: Store, t: Store, b: Backup)
    requires NoneOutstanding(s, w.source) && t.backups == s.backups[b.name := b]
    ensures OnlyBackup(w, t, b)
  {
  }

  lemma TrackedIsFaithful(w: World, s: Store, item: PV)
    requires Inv(w, s) && !w.intruders && Tracks(s, item)
    ensures Faithful(w, item) && Faithful(w, WithAnnotations(item)) && Faithful(w, Sanitize(WithAnnotations(item)))
    ensures item.storageClass == w.orig[item.name].storageClass
  {
  }

  /** After the patch the volume may be deleted; a terminating one is gone already. */
  lemma PatchedMayBeDeleted(w: World, at: Store, n: string)
    requires WellFormed(at) && MayDestroy(w, at, n) && Verdict(at, StripAndRetain(n)) == NoError
    ensures var t := Apply(at, StripAndRetain(n));
      && Guard(w, t, DeletePV(n)) && t.backups == at.backups
      && (n in t.pvs <==> !at.pvs[n].terminating)
      && (n in t.pvs ==> !t.pvs[n].terminating)
    ensures Echo(at, StripAndRetain(n)).Some? && Echo(at, StripAndRetain(n)).value.name == n
    ensures Echo(at, StripAndRetain(n)).value.storageClass == at.pvs[n].storageClass
  {
  }

  lemma DeletedLeaves(w: World, at: Store, t: Store, n: string)
    requires WellFormed(at) && Guard(w, at, DeletePV(n)) && t == Apply(at, DeletePV(n))
    ensures MayDestroy(w, t, n) && Leaving(w, t, n) && t.backups == at.backups
    ensures n !in at.pvs ==> t == at
  {
    ApplyChanges(w, at, DeletePV(n));
    DestroyStays(w, at, t, n);
  }

  /** Patches the volume to Retain and takes its finalizers away. */
  method RetainAndStrip(cl: Cluster, name: string, ghost b: string) returns (err: Error, echo: Option<PV>)
    requires cl.Valid() && MayDestroy(cl.world, cl.db, name) && name in cl.db.pvs
    modifies cl
    ensures cl.Valid() && cl.Advanced()
    ensures Elsewhere(cl.world, old(cl.db), cl.db, name, b) && cl.db.backups == old(cl.db.backups)
    ensures err == NoError ==>
      && LawfulAt(cl.world, cl.origin, cl.log, DeletePV(name))
      && (name in cl.db.pvs <==> !old(cl.db.pvs)[name].terminating)
      && echo.Some? && echo.value.name == name && echo.value.storageClass == old(cl.db.pvs)[name].storageClass
    ensures old(Calm(cl.weather)) ==> err == NoError
  {
    hide Onward, Inv, Lawful, Replay, Quiet, Elsewhere, MayDestroy, Rewritten, Echo;
    ghost var at;
    err, echo, at := cl.Request(StripAndRetain(name));
    InvIsWellFormed(cl.world, at);
    WriteIsElsewhere(cl.world, old(cl.db), at, cl.db, StripAndRetain(name), name, b);
    assert Touched(old(cl.db).clock, old(cl.db).pvs[name], at.pvs[name]);
    if err == NoError {
      PatchedMayBeDeleted(cl.world, at, name);
      JustPatched(cl.origin, cl.log, name);
    }
  }

  lemma JustPatched(s: Store, log: seq<Op>, n: string)
    requires log != [] && log[|log| - 1] == StripAndRetain(n) && n in Replay(s, log[..|log| - 1]).pvs
    ensures Patched(s, log, n)
  {
    assert PatchedAt(s, log, n, |log| - 1);
  }

  lemma InvIsWellFormed(w: World, s: Store)
    requires Inv(w, s)
    ensures WellFormed(s)
  {
  }

  method Delete(cl: Cluster, name: string, ghost b: string) returns (err: Error)
    requires cl.Valid() && LawfulAt(cl.world, cl.origin, cl.log, DeletePV(name))
    modifies cl
    ensures cl.Valid() && cl.Advanced()
    ensures Elsewhere(cl.world, old(cl.db), cl.db, name, b) && cl.db.backups == old(cl.db.backups)
    ensures err == NoError ==> MayDestroy(cl.world, cl.db, name) && Leaving(cl.world, cl.db, name)
    ensures !cl.world.intruders && old(Calm(cl.weather)) ==>
      (err == NoError <==> name in old(cl.db.pvs)) && (err != NoError ==> name !in cl.db.pvs)
  {
    hide Onward, Inv, Lawful, Replay, Quiet, Elsewhere, MayDestroy, Rewritten, Guard, Leaving;
    ghost var at;
    var echo;
    err, echo, at := cl.Request(DeletePV(name));
    InvIsWellFormed(cl.world, at);
    WriteIsElsewhere(cl.world, old(cl.db), at, cl.db, DeletePV(name), name, b);
    if err == NoError {
      DeletedLeaves(cl.world, at, cl.db, name);
    } else {
      DeletedLeaves(cl.world, at, Apply(at, DeletePV(name)), name);
    }
  }

  /** Patches, deletes and waits. A volume that was terminating already is gone after the patch,
      so that deleting it fails. */
  method TakeDown(cl: Cluster, pv: PV, ghost b: string) returns (err: Error, patched: PV)
    requires cl.Valid() && MayDestroy(cl.world, cl.db, pv.name) && pv.name in cl.db.pvs
    modifies cl
    ensures cl.Valid() && cl.Advanced()
    ensures Elsewhere(cl.world, old(cl.db), cl.db, pv.name, b) && cl.db.backups == old(cl.db.backups)
    ensures err == NoError ==> pv.name !in cl.db.pvs
    ensures !cl.world.intruders && old(Calm(cl.weather)) ==>
      pv.name !in cl.db.pvs && (err == NoError <==> !old(cl.db.pvs)[pv.name].terminating)
    ensures patched.name == pv.name
    ensures patched == pv || patched.storageClass == old(cl.db.pvs)[pv.name].storageClass
  {
    hide Onward, Inv, Lawful, Replay, Quiet, Elsewhere, MayDestroy, Guard, Leaving;
    ghost var start := cl.db;
    patched := pv;
    var echo;
    err, echo := RetainAndStrip(cl, pv.name, b);
    if err != NoError {
      return;
    }
    patched := echo.value;
    ghost var middle := cl.db;
    err := Delete(cl, pv.name, b);
    ElsewhereTrans(cl.world, start, middle, cl.db, pv.name, b);
    OnwardTrans(cl.world, start, middle, cl.db);
    if err != NoError {
      return;
    }
    middle := cl.db;
    err := AwaitDeletion(cl, pv.name, b);
    ElsewhereTrans(cl.world, start, middle, cl.db, pv.name, b);
    OnwardTrans(cl.world, start, middle, cl.db);
  }

  /** The same volume, but for finalizers and what the server assigns. */
  ghost predicate SameContent(p: PV, q: PV) {
    p.(uid := 0, rv := 0, finalizers := [], terminating := false) == q.(uid := 0, rv := 0, finalizers := [], terminating := false)
  }

  predicate Recreated(b: Backup) {
    Lookup(b.labels, RECREATED_LABEL) == "true"
  }

  /** No backup became outstanding. */
  ghost predicate NoneAdded(s: Store, t: Store, source: string) {
    forall k :: k in t.backups && Outstanding(t.backups[k], source) ==> k in s.backups && s.backups[k] == t.backups[k]
  }

  lemma RecreatedAddsNone(w: World, s: Store, t: Store, n: string, b: string)
    requires Elsewhere(w, s, t, n, b)
    requires b in t.backups && (Recreated(t.backups[b]) || (b in s.backups && t.backups[b] == s.backups[b]))
    ensures NoneAdded(s, t, w.source)
  {
  }

  lemma CreatedIsThere(w: World, at: Store, pv: PV)
    requires WellFormed(at) && Verdict(at, CreatePV(pv)) == NoError
    ensures var t := Apply(at, CreatePV(pv));
      pv.name in t.pvs && SameContent(t.pvs[pv.name], pv) && !t.pvs[pv.name].terminating && t.backups == at.backups
  {
  }

  lemma DriftKeepsContent(w: World, s: Store, t: Store, n: string, pv: PV)
    requires VolumesDrifted(w, s, t) && n in s.pvs && SameContent(s.pvs[n], pv)
    ensures n in t.pvs && SameContent(t.pvs[n], pv) && t.pvs[n].terminating == s.pvs[n].terminating
  {
  }

  /** Creates the rewritten volume and labels the backup as done. If somebody else created it
      first, only its reclaim policy is patched and the whole migration stops there. */
  method Install(cl: Cluster, newPV: PV, backupName: string) returns (err: Error, stop: bool)
    requires cl.Valid() && newPV.rv == 0 && newPV.name !in cl.db.pvs
    requires !cl.world.intruders ==> Faithful(cl.world, newPV) && !UpdateOnly(cl.world, newPV)
    requires backupName in cl.db.backups
    requires cl.db.backups[backupName].data.Manifest? && cl.db.backups[backupName].data.pv.name == newPV.name
    modifies cl
    ensures cl.Valid() && cl.Advanced()
    ensures Elsewhere(cl.world, old(cl.db), cl.db, newPV.name, backupName)
    ensures err != NoError ==> stop
    ensures stop && !cl.world.intruders ==> err != NoError
    ensures stop && err == NoError ==> newPV.name in cl.db.pvs && cl.db.pvs[newPV.name].policy == newPV.policy
    ensures !stop ==>
      && newPV.name in cl.db.pvs && SameContent(cl.db.pvs[newPV.name], newPV)
      && !cl.db.pvs[newPV.name].terminating
      && backupName in cl.db.backups && Recreated(cl.db.backups[backupName])
    ensures !cl.world.intruders && old(Calm(cl.weather)) ==> !stop
  {
    hide Onward, Inv, Lawful, Replay, Quiet, Elsewhere, Rewritten, Faithful, SameContent;
    ghost var start := cl.db;
    ghost var at;
    var echo;
    err, echo, at := cl.Request(CreatePV(newPV));
    InvIsWellFormed(cl.world, at);
    WriteIsElsewhere(cl.world, start, at, cl.db, CreatePV(newPV), newPV.name, backupName);
    if err != NoError {
      if err == AlreadyExists {
        ghost var middle := cl.db;
        err := PatchPolicy(cl, newPV, backupName);
        ElsewhereTrans(cl.world, start, middle, cl.db, newPV.name, backupName);
        OnwardTrans(cl.world, start, middle, cl.db);
      }
      return err, true;
    }
    CreatedIsThere(cl.world, at, newPV);
    ghost var middle := cl.db;
    err := SetRecreateLabelToBackupResource(cl, backupName, "true");
    OnwardTrans(cl.world, start, middle, cl.db);
    DriftIsElsewhere(cl.world, middle, cl.db, newPV.name, backupName);
    ElsewhereTrans(cl.world, start, middle, cl.db, newPV.name, backupName);
    DriftKeepsContent(cl.world, middle, cl.db, newPV.name, newPV);
    stop := err != NoError;
  }

  /** Gives the volume that somebody else created the policy it is to have. */
  method PatchPolicy(cl: Cluster, newPV: PV, ghost b: string) returns (err: Error)
    requires cl.Valid() && (!cl.world.intruders ==> Faithful(cl.world, newPV))
    modifies cl
    ensures cl.Valid() && cl.Advanced() && Elsewhere(cl.world, old(cl.db), cl.db, newPV.name, b)
    ensures cl.db.backups == old(cl.db.backups)
    ensures err == NoError ==> newPV.name in cl.db.pvs && cl.db.pvs[newPV.name].policy == newPV.policy
    ensures !cl.world.intruders && old(Calm(cl.weather)) ==> (err == NoError <==> newPV.name in old(cl.db.pvs))
  {
    hide Onward, Inv, Lawful, Replay, Quiet, Elsewhere, Rewritten, Faithful;
    ghost var at;
    var echo;
    PolicyAllowed(cl.world, cl.db, newPV);
    err, echo, at := cl.Request(SetPolicy(newPV.name, newPV.policy));
    InvIsWellFormed(cl.world, at);
    WriteIsElsewhere(cl.world, old(cl.db), at, cl.db, SetPolicy(newPV.name, newPV.policy), newPV.name, b);
    PolicyIsSet(at, newPV.name, newPV.policy);
  }

  lemma PolicyIsSet(at: Store, n: string, policy: string)
    requires WellFormed(at)
    ensures var t := Apply(at, SetPolicy(n, policy));
      Verdict(at, SetPolicy(n, policy)) == NoError ==> n in t.pvs && t.pvs[n].policy == policy
  {
  }

  lemma PolicyAllowed(w: World, s: Store, pv: PV)
    requires !w.intruders ==> Faithful(w, pv)
    ensures Guard(w, s, SetPolicy(pv.name, pv.policy))
  {
  }

  /** Why a volume that has to be recreated cannot be in this run: it is being deleted, one of
      its references is not set, or its backup would need a name that is taken. */
  predicate Obstructed(s: Store, item: PV, backupTime: string) {
    item.terminating || !Recreatable(s, item, backupTime)
  }

  predicate Recreatable(s: Store, item: PV, backupTime: string) {
    BothRefs(item) && BackupName(backupTime, item.name) !in s.backups
  }

  /** Takes the volume down and puts the new one in its place. */
  method Replace(cl: Cluster, pv: PV, newPV: PV, backupName: string) returns (err: Error, stop: bool, patched: PV)
    requires cl.Valid() && MayDestroy(cl.world, cl.db, pv.name) && pv.name in cl.db.pvs
    requires newPV.rv == 0 && newPV.name == pv.name
    requires !cl.world.intruders ==> Faithful(cl.world, newPV) && !UpdateOnly(cl.world, newPV)
    requires backupName in cl.db.backups
    requires cl.db.backups[backupName].data.Manifest? && cl.db.backups[backupName].data.pv.name == newPV.name
    modifies cl
    ensures cl.Valid() && cl.Advanced() && Elsewhere(cl.world, old(cl.db), cl.db, pv.name, backupName)
    ensures patched.name == pv.name
    ensures patched == pv || patched.storageClass == old(cl.db.pvs)[pv.name].storageClass
    ensures err != NoError ==> stop
    ensures stop && !cl.world.intruders ==> err != NoError
    ensures stop && err == NoError ==> pv.name in cl.db.pvs && cl.db.pvs[pv.name].policy == newPV.policy
    ensures !stop ==>
      && pv.name in cl.db.pvs && SameContent(cl.db.pvs[pv.name], newPV) && !cl.db.pvs[pv.name].terminating
      && backupName in cl.db.backups && Recreated(cl.db.backups[backupName])
    ensures !cl.world.intruders && old(Calm(cl.weather)) ==>
      && (err == NoError <==> !old(cl.db.pvs)[pv.name].terminating)
      && (err != NoError ==> pv.name !in cl.db.pvs)
  {
    hide Onward, Inv, Lawful, Replay, Quiet, Elsewhere, Faithful, SameContent, MayDestroy, UpdateOnly;
    ghost var start := cl.db;
    stop := true;
    err, patched := TakeDown(cl, pv, backupName);
    if err != NoError {
      return;
    }
    ghost var middle := cl.db;
    err, stop := Install(cl, newPV, backupName);
    ElsewhereTrans(cl.world, start, middle, cl.db, pv.name, backupName);
    OnwardTrans(cl.world, start, middle, cl.db);
  }

  /** Recreates one volume with the new secret: backup, mark, patch, delete, wait, create, mark. */
  method RecreatePV(cl: Cluster, ghost item: PV, pv: PV, backupTime: string, newSecretName: string,
                    backupSourceName: string)
    returns (err: Error, stop: bool, patched: PV)
    requires cl.Valid() && backupSourceName == cl.world.source
    requires pv == WithAnnotations(item) && Tracks(cl.db, item)
    requires item.storageClass in cl.world.target && cl.world.target[item.storageClass] == newSecretName
    requires NeedsRecreate(item, newSecretName)
    requires !cl.world.intruders ==> NoneOutstanding(cl.db, backupSourceName)
    modifies cl
    ensures cl.Valid() && cl.Advanced()
    ensures Elsewhere(cl.world, old(cl.db), cl.db, item.name, BackupName(backupTime, item.name))
    ensures patched.name == item.name && patched.storageClass == item.storageClass
    ensures err != NoError ==> stop
    ensures stop && !cl.world.intruders ==> err != NoError
    ensures stop && err == NoError ==> item.name in cl.db.pvs && cl.db.pvs[item.name].policy == item.policy
    ensures !stop ==>
      && BothRefs(item) && item.name in cl.db.pvs
      && SameContent(cl.db.pvs[item.name], Rewrite(item, newSecretName))
      && NoneAdded(old(cl.db), cl.db, backupSourceName)
    ensures !cl.world.intruders && old(Calm(cl.weather)) ==>
      && (err == NoError <==> !Obstructed(old(cl.db), item, backupTime))
      && (item.name in cl.db.pvs && cl.db.pvs[item.name].terminating ==> item.terminating)
      && (item.terminating && Recreatable(old(cl.db), item, backupTime) ==> item.name !in cl.db.pvs)
  {
    hide Onward, Inv, Lawful, Replay, Quiet, Elsewhere, Faithful, SameContent, MayDestroy, NeedsRecreate, NoneOutstanding, NoneAdded,
      UpdateOnly;
    ghost var start := cl.db;
    patched := pv;
    stop := true;
    var backupName;
    err, backupName := BackupAndMark(cl, item, pv, backupTime, newSecretName, backupSourceName);
    ghost var middle := cl.db;
    if err != NoError {
      return;
    }
    if pv.csi.None? || pv.csi.value.stage.None? || pv.csi.value.expand.None? {
      return Crashed, true, pv;
    }
    var newPV := Rewrite(pv, newSecretName);
    assert newPV == Rewrite(item, newSecretName);
    if !cl.world.intruders {
      RewrittenIsFaithful(cl.world, cl.db, item, newSecretName);
    }
    err, stop, patched := Replace(cl, pv, newPV, backupName);
    ElsewhereTrans(cl.world, start, middle, cl.db, item.name, backupName);
    OnwardTrans(cl.world, start, middle, cl.db);
    if !stop {
      RecreatedAddsNone(cl.world, start, cl.db, item.name, backupName);
    }
  }

  lemma RewrittenIsFaithful(w: World, s: Store, item: PV, secret: string)
    requires Inv(w, s) && !w.intruders && Tracks(s, item) && BothRefs(item)
    requires item.storageClass in w.target && w.target[item.storageClass] == secret
    ensures Faithful(w, Rewrite(item, secret)) && !UpdateOnly(w, Rewrite(item, secret))
  {
    TrackedIsFaithful(w, s, item);
    RewriteMigrates(w.orig[item.name], item, secret);
  }

  // ---- The loop over the listed volumes ----

  /** The volume has what this run was to give it: a volume with other references is there
      again, rewritten and with the policy it was listed with; any other is as listed. */
  ghost predicate Settled(s: Store, item: PV, secret: string) {
    && item.name in s.pvs
    && if NeedsRecreate(item, secret)
       then BothRefs(item) && SameContent(s.pvs[item.name], Rewrite(item, secret))
       else s.pvs[item.name].csi == item.csi && s.pvs[item.name].policy == item.policy
            && Annotations(s.pvs[item.name]) == Annotations(item)
  }

  /** The listed volume only needed an update and could still be protected; it no longer can. */
  ghost predicate Overtaken(w: World, s: Store, item: PV) {
    Exposed(w, item) && item.name !in Exposures(w, s)
  }

  predicate Distinct(items: seq<PV>) {
    forall i, j :: 0 <= i < j < |items| ==> items[i].name != items[j].name
  }

  ghost function Terminating(s: Store): set<string> {
    set n | n in s.pvs && s.pvs[n].terminating
  }

  lemma DriftKeepsTerminating(w: World, s: Store, t: Store)
    requires !w.intruders && VolumesDrifted(w, s, t)
    ensures Terminating(t) == Terminating(s)
  {
    forall n | n in t.pvs ensures n in s.pvs && t.pvs[n].terminating == s.pvs[n].terminating {
      assert n in t.pvs.Keys;
    }
  }

  lemma ElsewhereTracks(w: World, s: Store, t: Store, n: string, b: string, item: PV)
    requires Elsewhere(w, s, t, n, b) && Tracks(s, item) && item.name != n
    ensures Tracks(t, item)
  {
  }

  lemma ElsewhereSettled(w: World, s: Store, t: Store, n: string, b: string, item: PV, secret: string)
    requires Elsewhere(w, s, t, n, b) && Settled(s, item, secret) && item.name != n
    ensures Settled(t, item, secret)
  {
  }

  /** What one iteration does for item i. */
  method MigrateOne(cl: Cluster, item: PV, backupTime: string, scName: string, newSecretName: string,
                    backupSourceName: string)
    returns (err: Error, stop: bool, after: PV)
    requires cl.Valid() && backupSourceName == cl.world.source
    requires scName in cl.world.target && cl.world.target[scName] == newSecretName
    requires Eligible(item, scName) ==> Tracks(cl.db, item)
    requires !cl.world.intruders ==> NoneOutstanding(cl.db, backupSourceName)
    modifies cl
    ensures cl.Valid() && cl.Advanced()
    ensures Elsewhere(cl.world, old(cl.db), cl.db, item.name, BackupName(backupTime, item.name))
    ensures after.name == item.name && after.storageClass == item.storageClass
    ensures !Eligible(item, scName) ==> cl.db == old(cl.db) && cl.log == old(cl.log) && !stop && after == item
    ensures !NeedsRecreate(item, newSecretName) && !NeedsUpdate(item, newSecretName) ==>
      cl.db == old(cl.db) && cl.log == old(cl.log) && !stop
    ensures !stop && OnlyUpdate(item, scName, newSecretName) ==>
      Updated(old(cl.log), cl.log, item)
    ensures err != NoError ==> stop
    ensures stop && !cl.world.intruders ==> err != NoError
    ensures !stop && Eligible(item, scName) ==> Settled(cl.db, item, newSecretName)
    ensures !stop ==> NoneAdded(old(cl.db), cl.db, backupSourceName)
    ensures (Eligible(item, scName) && NeedsRecreate(item, newSecretName)) || NothingRecreated(old(cl.log), cl.log)
    ensures !cl.world.intruders && old(Calm(cl.weather)) && Eligible(item, scName) ==>
      && (err == NoError ==> !(NeedsRecreate(item, newSecretName) && Obstructed(old(cl.db), item, backupTime)))
      && (err != NoError ==>
        (NeedsRecreate(item, newSecretName) && Obstructed(old(cl.db), item, backupTime)) || Overtaken(cl.world, cl.db, item))
      && (item.name in cl.db.pvs && cl.db.pvs[item.name].terminating ==> item.terminating)
      && (NeedsRecreate(item, newSecretName) && item.terminating && Recreatable(old(cl.db), item, backupTime) ==>
        item.name !in cl.db.pvs)
  {
    hide Onward, Inv, Lawful, Replay, Quiet, Faithful, MayDestroy, Rewritten, NeedsRecreate, NeedsUpdate, Updated, NothingRecreated;
    OnwardRefl(cl.world, cl.db);
    NothingYet(cl.log);
    err, stop := NoError, false;
    var skip, needRecreate, needUpdate;
    skip, needRecreate, needUpdate, after := Check(item, scName, newSecretName);
    if skip {
      return;
    }
    if needRecreate {
      err, stop, after := RecreatePV(cl, item, after, backupTime, newSecretName, backupSourceName);
    } else if needUpdate {
      ghost var at, logged := cl.db, cl.log;
      err, at := PutUnchanged(cl, item, after, BackupName(backupTime, item.name));
      stop := err != NoError;
      OvertakenIfTouched(cl.world, at, cl.db, item) by { UpdateOnlyMeans(cl.world, item, scName); }
    }
  }

  lemma UpdateOnlyMeans(w: World, item: PV, sc: string)
    requires Eligible(item, sc) && sc in w.target && !NeedsRecreate(item, w.target[sc]) && NeedsUpdate(item, w.target[sc])
    ensures UpdateOnly(w, item)
  {
  }

  /** What the loop finds out about one item: whether it is of the class, whether a reference names
      another secret, whether the annotations do; missing annotations are made an empty map. */
  method Check(item: PV, scName: string, newSecretName: string)
    returns (skip: bool, needRecreate: bool, needUpdate: bool, pv: PV)
    ensures skip <==> !Eligible(item, scName)
    ensures !skip ==> needRecreate == NeedsRecreate(item, newSecretName) && needUpdate == NeedsUpdate(item, newSecretName)
    ensures pv == if skip then item else WithAnnotations(item)
  {
    skip, needRecreate, needUpdate, pv := true, false, false, item;
    if item.csi.None? {
      return;
    }
    var csi := item.csi.value;
    if csi.driver !in ALLOWED_PROVISIONERS {
      return;
    }
    if item.storageClass != scName {
      return;
    }
    skip := false;
    if csi.expand.Some? {
      if csi.expand.value.namespace != MODULE_NAMESPACE || csi.expand.value.name != newSecretName {
        needRecreate := true;
      }
    }
    if csi.stage.Some? {
      if csi.stage.value.namespace != MODULE_NAMESPACE || csi.stage.value.name != newSecretName {
        needRecreate := true;
      }
    }
    if pv.annotations.Some? {
      if Lookup(pv.annotations.value, DELETION_SECRET_NAMESPACE) != MODULE_NAMESPACE
         || Lookup(pv.annotations.value, DELETION_SECRET_NAME) != newSecretName {
        needUpdate := true;
      }
    } else {
      pv := pv.(annotations := Some(map[]));
      needUpdate := true;
    }
  }

  /** The volume was written back as it was listed, missing annotations being made an empty map. */
  ghost predicate Updated(before: seq<Op>, after: seq<Op>, item: PV) {
    exists i :: |before| <= i < |after| && after[i] == PutPV(item.(annotations := Some(Annotations(item))))
  }

  /** The update-only branch writes the volume back as it was listed: the annotations it found
      missing are not filled in. If the call itself does not fail, it succeeds exactly if the
      volume is still as listed when the call arrives at the store `at`. */
  method PutUnchanged(cl: Cluster, ghost item: PV, pv: PV, ghost b: string) returns (err: Error, ghost at: Store)
    requires cl.Valid() && Tracks(cl.db, item) && pv == WithAnnotations(item)
    modifies cl
    ensures cl.Valid() && cl.Advanced() && NothingRecreated(old(cl.log), cl.log)
    ensures err == NoError ==> Updated(old(cl.log), cl.log, item)
    ensures Elsewhere(cl.world, old(cl.db), cl.db, item.name, b)
    ensures cl.db.backups == old(cl.db.backups)
    ensures item.name in cl.db.pvs && cl.db.pvs[item.name].terminating == item.terminating
    ensures cl.db.pvs[item.name].csi == item.csi && cl.db.pvs[item.name].policy == item.policy
    ensures Annotations(cl.db.pvs[item.name]) == Annotations(item)
    ensures Drifted(cl.world, old(cl.db), at) && Tracks(at, item) && (cl.db == at || cl.db == Apply(at, PutPV(pv)))
    ensures old(Calm(cl.weather)) ==> (err == NoError <==> at.pvs[item.name] == item) && (err != NoError ==> cl.db == at)
  {
    hide Onward, Lawful, Replay, Quiet, Faithful, MayDestroy, NothingLost, LabelsTruthful, Conserved, BackupsSound, PlanIsOwn;
    var echo;
    ghost var start := cl.db;
    err, echo, at := cl.Request(PutPV(pv));
    TracksDrifts(cl.world, start, at, item);
    WriteIsElsewhere(cl.world, start, at, cl.db, PutPV(pv), item.name, b);
    PutKeepsContent(cl.world, start, at, cl.db, item, pv);
  }

  lemma OvertakenIfTouched(w: World, at: Store, t: Store, item: PV)
    requires Tracks(at, item)
    ensures t == at && at.pvs[item.name] != item && UpdateOnly(w, item) ==> Overtaken(w, t, item)
  {
  }

  lemma PutKeepsContent(w: World, s: Store, at: Store, t: Store, item: PV, pv: PV)
    requires WellFormed(at) && Drifted(w, s, at) && Tracks(at, item) && pv == WithAnnotations(item)
    requires t == at || t == Apply(at, PutPV(pv))
    ensures item.name in t.pvs
    ensures t.pvs[item.name].terminating == item.terminating && t.pvs[item.name].csi == item.csi
    ensures t.pvs[item.name].policy == item.policy && Annotations(t.pvs[item.name]) == Annotations(item)
  {
  }

  /** New backups are those of the first `upTo` items of the class. */
  ghost predicate NoIdentityTaken(s: Store, t: Store, items: seq<PV>, upTo: nat, backupTime: string, sc: string) {
    && s.backups.Keys <= t.backups.Keys
    && forall k :: k in t.backups && k !in s.backups ==>
      exists j :: 0 <= j < upTo && j < |items| && Eligible(items[j], sc) && k == BackupName(backupTime, items[j].name)
  }

  lemma IdentityFree(s: Store, t: Store, items: seq<PV>, i: nat, backupTime: string, sc: string)
    requires Distinct(items) && i < |items| && NoIdentityTaken(s, t, items, i, backupTime, sc)
    ensures Recreatable(s, items[i], backupTime) <==> Recreatable(t, items[i], backupTime)
  {
    hide Eligible, BothRefs;
    var k := BackupName(backupTime, items[i].name);
    if k in t.backups && k !in s.backups {
      var j :| 0 <= j < i && k == BackupName(backupTime, items[j].name);
      BackupNamesDiffer(backupTime, items[j].name, items[i].name);
    }
  }

  lemma IdentityTaken(w: World, s: Store, m: Store, t: Store, items: seq<PV>, i: nat, backupTime: string, sc: string)
    requires i < |items| && NoIdentityTaken(s, m, items, i, backupTime, sc)
    requires Elsewhere(w, m, t, items[i].name, BackupName(backupTime, items[i].name))
    requires !Eligible(items[i], sc) ==> t == m
    ensures NoIdentityTaken(s, t, items, i + 1, backupTime, sc)
  {
  }

  lemma TerminatingShrinks(w: World, s: Store, t: Store, item: PV, b: string)
    requires !w.intruders && Elsewhere(w, s, t, item.name, b) && Tracks(s, item)
    requires item.name in t.pvs && t.pvs[item.name].terminating ==> item.terminating
    ensures Terminating(t) <= Terminating(s)
    ensures item.terminating && item.name !in t.pvs ==> Terminating(t) < Terminating(s)
  {
    forall m | m in Terminating(t) ensures m in Terminating(s) {
      if m != item.name {
        assert Touched(s.clock, s.pvs[m], t.pvs[m]);
      }
    }
    if item.terminating && item.name !in t.pvs {
      assert item.name in Terminating(s);
    }
  }

  /** Where the loop stands before item i. */
  ghost predicate LoopState(w: World, s0: Store, s: Store, items: seq<PV>, i: nat, backupTime: string, sc: string, secret: string) {
    && i <= |items|
    && (forall j :: 0 <= j < |items| && Eligible(items[j], sc) && i <= j ==> Tracks(s, items[j]))
    && (forall j :: 0 <= j < |items| && !Eligible(items[j], sc) && Tracks(s0, items[j]) ==> Tracks(s, items[j]))
    && (forall j :: 0 <= j < i && Eligible(items[j], sc) ==> Settled(s, items[j], secret))
    && NoIdentityTaken(s0, s, items, i, backupTime, sc)
    && NoneAdded(s0, s, w.source) && SamePlan(s0, s) && OthersStay(s0, s, items, sc)
  }

  /** The name is that of a listed volume of the class. */
  ghost predicate Named(items: seq<PV>, sc: string, n: string) {
    exists j :: 0 <= j < |items| && Eligible(items[j], sc) && items[j].name == n
  }

  /** Volumes that are not of the class are as they were, but for what the outside world adds. */
  ghost predicate OthersStay(s: Store, t: Store, items: seq<PV>, sc: string) {
    s.clock <= t.clock && forall n :: n in s.pvs && !Named(items, sc, n) ==> n in t.pvs && Touched(s.clock, s.pvs[n], t.pvs[n])
  }

  lemma OthersStayStep(w: World, s0: Store, s: Store, t: Store, items: seq<PV>, i: nat, b: string, sc: string)
    requires i < |items| && OthersStay(s0, s, items, sc) && Elsewhere(w, s, t, items[i].name, b)
    requires !Eligible(items[i], sc) ==> t == s
    ensures OthersStay(s0, t, items, sc)
  {
    hide Eligible;
    forall n | n in s0.pvs && !Named(items, sc, n) ensures n in t.pvs && Touched(s0.clock, s0.pvs[n], t.pvs[n]) {
      if Eligible(items[i], sc) {
        assert items[i].name != n;
      }
    }
  }

  /** Of the first i listed volumes of the class, those that only needed an update were written back. */
  ghost predicate AllUpdated(before: seq<Op>, after: seq<Op>, items: seq<PV>, i: nat, sc: string, secret: string) {
    before <= after && forall j :: 0 <= j < i && j < |items| && OnlyUpdate(items[j], sc, secret) ==> Updated(before, after, items[j])
  }

  predicate OnlyUpdate(item: PV, sc: string, secret: string) {
    Eligible(item, sc) && !NeedsRecreate(item, secret) && NeedsUpdate(item, secret)
  }

  lemma AllUpdatedStep(a: seq<Op>, b: seq<Op>, c: seq<Op>, items: seq<PV>, i: nat, sc: string, secret: string)
    requires i < |items| && b <= c && AllUpdated(a, b, items, i, sc, secret)
    requires OnlyUpdate(items[i], sc, secret) ==> Updated(b, c, items[i])
    ensures AllUpdated(a, c, items, i + 1, sc, secret)
  {
    hide OnlyUpdate;
    forall j | 0 <= j < i + 1 && OnlyUpdate(items[j], sc, secret) ensures Updated(a, c, items[j]) {
      var now := PutPV(items[j].(annotations := Some(Annotations(items[j]))));
      if j < i {
        assert Updated(a, b, items[j]);
        var k :| |a| <= k < |b| && b[k] == now;
        assert c[k] == now;
      } else {
        var k :| |b| <= k < |c| && c[k] == now;
        assert |a| <= k;
      }
    }
  }

  lemma NoneUpdatedYet(log: seq<Op>, items: seq<PV>, sc: string, secret: string)
    ensures AllUpdated(log, log, items, 0, sc, secret)
  {
  }

  /** A settled volume of the class names the new secret in each reference it has. */
  lemma SettledNames(s: Store, item: PV, secret: string)
    requires Settled(s, item, secret) && item.csi.Some?
    ensures NamesOnly(s, item.name, secret)
  {
  }

  /** The volume is there, and each reference it has is to the secret in the module's namespace. */
  predicate NamesOnly(s: Store, n: string, secret: string) {
    && n in s.pvs && s.pvs[n].csi.Some?
    && (s.pvs[n].csi.value.expand.Some? ==> s.pvs[n].csi.value.expand.value == SecretRef("d8-csi-ceph", secret))
    && (s.pvs[n].csi.value.stage.Some? ==> s.pvs[n].csi.value.stage.value == SecretRef("d8-csi-ceph", secret))
  }

  lemma AllSettledName(s: Store, items: seq<PV>, sc: string, secret: string)
    requires forall j :: 0 <= j < |items| && Eligible(items[j], sc) ==> Settled(s, items[j], secret)
    ensures forall j :: 0 <= j < |items| && CephVolume(items[j]) && items[j].storageClass == sc ==> NamesOnly(s, items[j].name, secret)
  {
    hide Settled, NamesOnly;
    forall j | 0 <= j < |items| && CephVolume(items[j]) && items[j].storageClass == sc ensures NamesOnly(s, items[j].name, secret) {
      SettledNames(s, items[j], secret);
    }
  }

  lemma LoopStep(w: World, s0: Store, s: Store, t: Store, items: seq<PV>, i: nat, backupTime: string, sc: string, secret: string)
    requires Distinct(items) && i < |items| && LoopState(w, s0, s, items, i, backupTime, sc, secret)
    requires Elsewhere(w, s, t, items[i].name, BackupName(backupTime, items[i].name))
    requires !Eligible(items[i], sc) ==> t == s
    requires Eligible(items[i], sc) ==> Settled(t, items[i], secret)
    requires NoneAdded(s, t, w.source)
    ensures LoopState(w, s0, t, items, i + 1, backupTime, sc, secret)
  {
    IdentityTaken(w, s0, s, t, items, i, backupTime, sc);
    var b := BackupName(backupTime, items[i].name);
    OthersStayStep(w, s0, s, t, items, i, b, sc);
    hide OthersStay;
    forall j | 0 <= j < |items| && j != i
      ensures Tracks(s, items[j]) ==> Tracks(t, items[j])
      ensures Settled(s, items[j], secret) ==> Settled(t, items[j], secret)
    {
      if Tracks(s, items[j]) {
        ElsewhereTracks(w, s, t, items[i].name, b, items[j]);
      }
      if Settled(s, items[j], secret) {
        ElsewhereSettled(w, s, t, items[i].name, b, items[j], secret);
      }
    }
  }

  /** Other classes' items are still as listed, also when the loop ends at item i. */
  lemma LoopEnds(w: World, s0: Store, s: Store, t: Store, items: seq<PV>, i: nat, backupTime: string, sc: string, secret: string)
    requires Distinct(items) && i < |items| && LoopState(w, s0, s, items, i, backupTime, sc, secret)
    requires Elsewhere(w, s, t, items[i].name, BackupName(backupTime, items[i].name)) && Eligible(items[i], sc)
    ensures forall j :: 0 <= j < |items| && !Eligible(items[j], sc) && Tracks(s0, items[j]) ==> Tracks(t, items[j])
    ensures OnlyStamped(s0, t, backupTime) && SamePlan(s0, t) && OthersStay(s0, t, items, sc)
  {
    OthersStayStep(w, s0, s, t, items, i, BackupName(backupTime, items[i].name), sc);
    hide OthersStay;
  }

  /** A listed volume of the class was protected under its update. */
  ghost predicate SomeOvertaken(w: World, s: Store, items: seq<PV>, sc: string) {
    exists j :: 0 <= j < |items| && Eligible(items[j], sc) && Overtaken(w, s, items[j])
  }

  /** Every backup that was added carries the time in its name. */
  ghost predicate OnlyStamped(s: Store, t: Store, backupTime: string) {
    forall k :: k in t.backups && k !in s.backups ==> exists n :: k == BackupName(backupTime, n)
  }

  /** No volume among the first `upTo` items that has to be recreated is obstructed. */
  predicate NoneObstructed(s: Store, items: seq<PV>, upTo: nat, backupTime: string, sc: string, secret: string) {
    forall j :: 0 <= j < |items| && j < upTo && Eligible(items[j], sc) && NeedsRecreate(items[j], secret) ==>
      !Obstructed(s, items[j], backupTime)
  }

  predicate AllRecreatable(s: Store, items: seq<PV>, backupTime: string, sc: string, secret: string) {
    forall j :: 0 <= j < |items| && Eligible(items[j], sc) && NeedsRecreate(items[j], secret) ==>
      Recreatable(s, items[j], backupTime)
  }

  /** What failure-free calls give: the loop so far met no obstructed volume and left no more
      terminating volumes than there were. */
  ghost predicate CalmState(s0: Store, s: Store, items: seq<PV>, i: nat, backupTime: string, sc: string, secret: string) {
    Terminating(s) <= Terminating(s0) && NoneObstructed(s0, items, i, backupTime, sc, secret)
  }

  /** What a run without failing calls gives: success means that no volume was obstructed; a failure
      although none was, that the outside world protected a volume between listing and update; and
      if nothing but terminating volumes is in the way, a failure uses one of the two up. */
  ghost predicate CalmResult(w: World, s0: Store, t: Store, items: seq<PV>, backupTime: string, sc: string,
                             secret: string, err: Error) {
    && Terminating(t) <= Terminating(s0)
    && (err == NoError ==> NoneObstructed(s0, items, |items|, backupTime, sc, secret))
    && (err != NoError && NoneObstructed(s0, items, |items|, backupTime, sc, secret) ==> SomeOvertaken(w, t, items, sc))
    && (err != NoError && AllRecreatable(s0, items, backupTime, sc, secret) ==>
      SomeOvertaken(w, t, items, sc) || Terminating(t) < Terminating(s0))
  }

  lemma CalmStep(w: World, s0: Store, s: Store, t: Store, items: seq<PV>, i: nat, backupTime: string, sc: string,
                 secret: string, err: Error)
    requires !w.intruders && Distinct(items) && i < |items|
    requires LoopState(w, s0, s, items, i, backupTime, sc, secret) && CalmState(s0, s, items, i, backupTime, sc, secret)
    requires Elsewhere(w, s, t, items[i].name, BackupName(backupTime, items[i].name))
    requires !Eligible(items[i], sc) ==> t == s && err == NoError
    requires Eligible(items[i], sc) ==>
      && (err == NoError ==> !(NeedsRecreate(items[i], secret) && Obstructed(s, items[i], backupTime)))
      && (err != NoError ==>
        (NeedsRecreate(items[i], secret) && Obstructed(s, items[i], backupTime)) || Overtaken(w, t, items[i]))
      && (items[i].name in t.pvs && t.pvs[items[i].name].terminating ==> items[i].terminating)
      && (NeedsRecreate(items[i], secret) && items[i].terminating && Recreatable(s, items[i], backupTime) ==>
        items[i].name !in t.pvs)
    ensures err == NoError ==> CalmState(s0, t, items, i + 1, backupTime, sc, secret)
    ensures err != NoError ==> CalmResult(w, s0, t, items, backupTime, sc, secret, err)
  {
    hide Elsewhere, Settled, NoIdentityTaken, Tracks, Terminating, Overtaken;
    IdentityFree(s0, s, items, i, backupTime, sc);
    if Eligible(items[i], sc) {
      TerminatingShrinks(w, s, t, items[i], BackupName(backupTime, items[i].name));
    }
  }

  predicate NothingToRecreate(items: seq<PV>, sc: string, secret: string) {
    forall j :: 0 <= j < |items| && Eligible(items[j], sc) ==> !NeedsRecreate(items[j], secret)
  }

  /** Moves every listed volume of a storage class to the new secret.
      Items of other classes are not touched, and are still as the store has them; no volume but
      those of the class is written, however the loop ends.
      Success means that every volume of the class is settled, whatever went on outside, and so names
      the new secret, and that those that only needed an update were written back.
      CalmResult says what a run without failing calls gives.
      If all references name the new secret already, nothing is recreated. */
  method MigratePVsToNewSecret(cl: Cluster, pvList: array<PV>, backupTime: string, scName: string,
                               newSecretName: string, backupSourceName: string)
    returns (err: Error)
    requires cl.Valid() && backupSourceName == cl.world.source
    requires scName in cl.world.target && cl.world.target[scName] == newSecretName
    requires Distinct(pvList[..])
    requires forall j :: 0 <= j < pvList.Length && Eligible(pvList[j], scName) ==> Tracks(cl.db, pvList[j])
    requires !cl.world.intruders ==> NoneOutstanding(cl.db, backupSourceName)
    modifies cl, pvList
    ensures cl.Valid() && cl.Advanced() && OnlyStamped(old(cl.db), cl.db, backupTime) && SamePlan(old(cl.db), cl.db)
    ensures OthersStay(old(cl.db), cl.db, old(pvList[..]), scName)
    ensures forall j :: 0 <= j < pvList.Length ==>
      pvList[j].name == old(pvList[j]).name && pvList[j].storageClass == old(pvList[j]).storageClass
    ensures forall j :: 0 <= j < pvList.Length && !Eligible(old(pvList[j]), scName) ==>
      pvList[j] == old(pvList[j]) && (Tracks(old(cl.db), pvList[j]) ==> Tracks(cl.db, pvList[j]))
    ensures !cl.world.intruders && err == NoError ==>
      forall j :: 0 <= j < pvList.Length && Eligible(old(pvList[j]), scName) ==>
        Settled(cl.db, old(pvList[j]), newSecretName)
    ensures !cl.world.intruders && err == NoError ==>
      forall j :: 0 <= j < pvList.Length && CephVolume(old(pvList[j])) && old(pvList[j]).storageClass == scName ==>
        NamesOnly(cl.db, old(pvList[j]).name, newSecretName)
    ensures !cl.world.intruders && err == NoError ==>
      AllUpdated(old(cl.log), cl.log, old(pvList[..]), pvList.Length, scName, newSecretName)
    ensures !cl.world.intruders && err == NoError ==> NoneAdded(old(cl.db), cl.db, backupSourceName)
    ensures !cl.world.intruders && err == NoError ==>
      NoIdentityTaken(old(cl.db), cl.db, old(pvList[..]), pvList.Length, backupTime, scName)
    ensures old(NothingToRecreate(pvList[..], scName, newSecretName)) ==> NothingRecreated(old(cl.log), cl.log)
    ensures !cl.world.intruders && old(Calm(cl.weather)) ==>
      CalmResult(cl.world, old(cl.db), cl.db, old(pvList[..]), backupTime, scName, newSecretName, err)
  {
    hide Onward, Inv, Lawful, Replay, Quiet, Faithful, MayDestroy, Rewritten, Elsewhere, Settled, Tracks,
      NoIdentityTaken, Obstructed, Recreatable, Terminating, NoneObstructed, AllRecreatable, CalmState, NoneAdded,
      LoopState, NothingRecreated, NothingToRecreate, Eligible, NeedsRecreate, Overtaken, ListKept, NoneOutstanding,
      CalmResult, OnlyStamped, OthersStay, AllUpdated, Updated, NamesOnly, OnlyUpdate;
    ghost var items := pvList[..];
    ghost var logged := cl.log;
    ghost var start := cl.db;
    ghost var calm := !cl.world.intruders && Calm(cl.weather);
    OnwardRefl(cl.world, cl.db);
    LoopStarts(cl.world, start, items, backupTime, scName, newSecretName);
    NothingYet(logged);
    NoneUpdatedYet(logged, items, scName, newSecretName);
    ListKeptAtFirst(items, scName);
    for i := 0 to pvList.Length
      invariant cl.Valid() && cl.Advanced()
      invariant ListKept(items, pvList[..], i, scName)
      invariant LoopState(cl.world, start, cl.db, items, i, backupTime, scName, newSecretName)
      invariant calm ==> CalmState(start, cl.db, items, i, backupTime, scName, newSecretName)
      invariant NothingToRecreate(items, scName, newSecretName) ==> NothingRecreated(logged, cl.log)
      invariant AllUpdated(logged, cl.log, items, i, scName, newSecretName)
    {
      ghost var middle, before, now := cl.db, cl.log, pvList[..];
      var item := pvList[i];
      ListKeptItem(items, now, i, scName);
      LoopItem(cl.world, start, cl.db, items, i, backupTime, scName, newSecretName);
      StillNone(start, cl.db, backupSourceName);
      var stop, after;
      err, stop, after := MigrateOne(cl, item, backupTime, scName, newSecretName, backupSourceName);
      pvList[i] := after;
      assert pvList[..] == now[i := after];
      ListKeptStep(items, now, i, scName, after);
      OnwardTrans(cl.world, start, middle, cl.db);
      StillNothing(items, i, scName, newSecretName, logged, before, cl.log);
      if calm {
        CalmStep(cl.world, start, middle, cl.db, items, i, backupTime, scName, newSecretName, err);
      }
      if stop {
        ListKeptAll(items, pvList[..], i + 1, scName);
        LoopEnds(cl.world, start, middle, cl.db, items, i, backupTime, scName, newSecretName);
        return;
      }
      LoopStep(cl.world, start, middle, cl.db, items, i, backupTime, scName, newSecretName);
      AllUpdatedStep(logged, before, cl.log, items, i, scName, newSecretName);
    }
    AllSettledName(cl.db, items, scName, newSecretName) by {
      LoopDone(cl.world, start, cl.db, items, backupTime, scName, newSecretName);
    }
    ListKeptAll(items, pvList[..], |items|, scName);
    LoopDone(cl.world, start, cl.db, items, backupTime, scName, newSecretName);
    if calm {
      CalmEnds(cl.world, start, cl.db, items, backupTime, scName, newSecretName);
    }
    return NoError;
  }

  /** While the loop is at item i: items after it, and of other classes, are as listed. */
  ghost predicate ListKept(items: seq<PV>, now: seq<PV>, i: nat, sc: string) {
    && |now| == |items|
    && (forall j :: 0 <= j < |items| && (i <= j || !Eligible(items[j], sc)) ==> now[j] == items[j])
    && (forall j :: 0 <= j < |items| ==> now[j].name == items[j].name && now[j].storageClass == items[j].storageClass)
  }

  lemma ListKeptAtFirst(items: seq<PV>, sc: string)
    ensures ListKept(items, items, 0, sc)
  {
  }

  lemma ListKeptItem(items: seq<PV>, now: seq<PV>, i: nat, sc: string)
    requires i < |items| && ListKept(items, now, i, sc)
    ensures |now| == |items| && now[i] == items[i]
  {
  }

  lemma ListKeptStep(items: seq<PV>, now: seq<PV>, i: nat, sc: string, after: PV)
    requires i < |items| && ListKept(items, now, i, sc)
    requires after.name == items[i].name && after.storageClass == items[i].storageClass
    requires !Eligible(items[i], sc) ==> after == items[i]
    ensures ListKept(items, now[i := after], i + 1, sc)
  {
  }

  lemma ListKeptAll(items: seq<PV>, now: seq<PV>, i: nat, sc: string)
    requires ListKept(items, now, i, sc)
    ensures forall j :: 0 <= j < |items| ==> now[j].name == items[j].name && now[j].storageClass == items[j].storageClass
    ensures forall j :: 0 <= j < |items| && !Eligible(items[j], sc) ==> now[j] == items[j]
  {
  }

  lemma StillNothing(items: seq<PV>, i: nat, sc: string, secret: string, a: seq<Op>, b: seq<Op>, c: seq<Op>)
    requires i < |items| && ((Eligible(items[i], sc) && NeedsRecreate(items[i], secret)) || NothingRecreated(b, c))
    requires NothingToRecreate(items, sc, secret) ==> NothingRecreated(a, b)
    ensures NothingToRecreate(items, sc, secret) ==> NothingRecreated(a, c)
  {
  }

  lemma NothingYet(log: seq<Op>)
    ensures NothingRecreated(log, log)
  {
  }

  lemma LoopStarts(w: World, s: Store, items: seq<PV>, backupTime: string, sc: string, secret: string)
    requires forall j :: 0 <= j < |items| && Eligible(items[j], sc) ==> Tracks(s, items[j])
    ensures LoopState(w, s, s, items, 0, backupTime, sc, secret) && CalmState(s, s, items, 0, backupTime, sc, secret)
  {
  }

  lemma LoopItem(w: World, s0: Store, s: Store, items: seq<PV>, i: nat, backupTime: string, sc: string, secret: string)
    requires i < |items| && LoopState(w, s0, s, items, i, backupTime, sc, secret)
    ensures Eligible(items[i], sc) ==> Tracks(s, items[i])
    ensures NoneAdded(s0, s, w.source)
  {
  }

  lemma StillNone(s: Store, t: Store, source: string)
    requires NoneAdded(s, t, source)
    ensures NoneOutstanding(s, source) ==> NoneOutstanding(t, source)
  {
  }

  lemma LoopDone(w: World, s0: Store, s: Store, items: seq<PV>, backupTime: string, sc: string, secret: string)
    requires LoopState(w, s0, s, items, |items|, backupTime, sc, secret)
    ensures forall j :: 0 <= j < |items| && Eligible(items[j], sc) ==> Settled(s, items[j], secret)
    ensures forall j :: 0 <= j < |items| && !Eligible(items[j], sc) && Tracks(s0, items[j]) ==> Tracks(s, items[j])
    ensures NoneAdded(s0, s, w.source) && SamePlan(s0, s) && NoIdentityTaken(s0, s, items, |items|, backupTime, sc)
    ensures OnlyStamped(s0, s, backupTime) && OthersStay(s0, s, items, sc)
  {
  }

  lemma CalmEnds(w: World, s0: Store, s: Store, items: seq<PV>, backupTime: string, sc: string, secret: string)
    requires CalmState(s0, s, items, |items|, backupTime, sc, secret)
    ensures CalmResult(w, s0, s, items, backupTime, sc, secret, NoError)
  {
  }
}
