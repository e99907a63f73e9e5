/** The whole hook that migrates from the ceph-csi module: its drivers first, then the snapshots. */
module CsiHook {
  import opened Kube
  import opened MigrationStore
  import opened MigrationCluster
  import opened PvMigration
  import opened CsiMigration
  import S = SnapshotMigration

  const OLD_SECRET_PREFIX := "csi-"
  const MIGRATION := S.Migration(MIGRATED_LABEL, OLD_SECRET_PREFIX, CONNECTION_SECRET_PREFIX)

  /** The class named the old secret of driver d, and this run is to migrate it. */
  predicate OfDriver(c: S.VSClass, d: string) {
    S.Unmigrated(c.driver, c.labels, MIGRATION) && d != "" && S.Says(c, "csi.storage.k8s.io/snapshotter-secret-name", "csi-" + d)
  }

  predicate NamesSecret(c: S.VSClass, secret: string) {
    && Lookup(c.labels, "storage.deckhouse.io/migratedFromCephCSI") == "true"
    && S.Says(c, "csi.storage.k8s.io/snapshotter-secret-name", secret)
    && S.Says(c, "csi.storage.k8s.io/snapshotter-secret-namespace", "d8-csi-ceph")
  }

  predicate DeletesWith(v: S.VSContent, secret: string) {
    && Lookup(v.annotations, "snapshot.storage.kubernetes.io/deletion-secret-name") == secret
    && Lookup(v.annotations, "snapshot.storage.kubernetes.io/deletion-secret-namespace") == "d8-csi-ceph"
  }

  /** The snapshot classes of driver d, and their contents that were not migrated before, name
      the secret that the driver's volumes have moved to. */
  ghost predicate SnapshotsFollow(classes: map<string, S.VSClass>, contents: map<string, S.VSContent>,
                                  migrated: map<string, S.VSClass>, annotated: map<string, S.VSContent>, d: string) {
    var secret := "csi-ceph-secret-for-" + d;
    && (forall n :: n in classes && OfDriver(classes[n], d) ==> n in migrated && NamesSecret(migrated[n], secret))
    && (forall n :: n in contents && Due(contents[n], classes, d) ==> n in annotated && DeletesWith(annotated[n], secret))
  }

  predicate Due(v: S.VSContent, classes: map<string, S.VSClass>, d: string) {
    && S.Unmigrated(v.driver, v.labels, MIGRATION)
    && v.className.Some? && v.className.value in classes && OfDriver(classes[v.className.value], d)
  }

  lemma OwnedByDriver(c: S.VSClass, d: string, connections: map<string, Connection>, conns: seq<Connection>)
    requires OfDriver(c, d) && d in connections && S.ListsConnections(conns, connections)
    ensures S.Belongs(c, MIGRATION, conns, d)
    ensures NamesSecret(S.MigratedClass(c, MIGRATION, conns), "csi-ceph-secret-for-" + d)
  {
    hide S.MigratedClass;
    assert connections[d] in conns && connections[d].name == d;
    assert S.BelongsBySecret(c, MIGRATION, conns, d);
    S.MigratedClassIsRight(c, MIGRATION, conns);
  }

  lemma SnapshotsAreThere(classes: map<string, S.VSClass>, contents: map<string, S.VSContent>,
                          migrated: map<string, S.VSClass>, annotated: map<string, S.VSContent>, d: string,
                          connections: map<string, Connection>, conns: seq<Connection>)
    requires d in connections && S.ListsConnections(conns, connections)
    requires migrated.Keys == classes.Keys && annotated.Keys == contents.Keys
    requires forall n :: n in migrated ==> migrated[n] == S.MigratedClass(classes[n], MIGRATION, conns)
    requires forall n :: n in annotated ==> annotated[n] == S.MigratedContent(contents[n], classes, MIGRATION, conns)
    ensures SnapshotsFollow(classes, contents, migrated, annotated, d)
  {
    hide S.MigratedClass, S.MigratedContent, S.Belongs, S.Unmigrated, S.ListsConnections;
    var secret := "csi-ceph-secret-for-" + d;
    forall n | n in classes && OfDriver(classes[n], d) ensures n in migrated && NamesSecret(migrated[n], secret) {
      OwnedByDriver(classes[n], d, connections, conns);
      assert n in migrated.Keys;
    }
    forall n | n in contents && Due(contents[n], classes, d) ensures n in annotated && DeletesWith(annotated[n], secret) {
      var c := classes[contents[n].className.value];
      OwnedByDriver(c, d, connections, conns);
      assert S.FollowsTo(contents[n], classes, MIGRATION, conns, d);
      S.ContentsFollowTheirClass(contents[n], classes, MIGRATION, conns);
      assert n in annotated.Keys;
    }
  }

  lemma DriversAreConnected(w: World, s: Store)
    requires Inv(w, s)
    ensures forall c :: c in s.connections ==> s.connections[c].name == c
    ensures (forall d :: d in s.drivers && d !in w.settled ==> DriverDone(w, s, s.drivers[d])) ==>
      forall d :: d in s.drivers && d !in w.settled ==> d in s.connections
  {
  }

  /** One run of the hook. After success, in any weather, every driver is labelled and done, no
      backup is outstanding, and the snapshot classes and contents of the drivers name the same
      secrets as their volumes. A run that fails before the snapshots leaves them alone.
      Without failing calls it ends as HookOutcome says. */
  method RunHook(cl: Cluster, client: S.Client, backupTime: string) returns (err: Error)
    requires cl.Valid() && cl.world.source == BACKUP_SOURCE && GoodPlan(cl.world, cl.db)
    requires S.Named(client.classes, client.contents)
    modifies cl, client
    ensures cl.Valid() && cl.Advanced()
    ensures err == NoError && !cl.world.intruders ==>
      && AllMigrated(cl.db) && NoneOutstanding(cl.db, BACKUP_SOURCE)
      && (forall d :: d in cl.db.drivers && d !in cl.world.settled ==> DriverDone(cl.world, cl.db, cl.db.drivers[d]))
      && (forall d :: d in cl.db.drivers && d !in cl.world.settled ==>
        SnapshotsFollow(old(client.classes), old(client.contents), client.classes, client.contents, d))
    ensures !cl.world.intruders && !AllMigrated(cl.db) ==>
      client.classes == old(client.classes) && client.contents == old(client.contents)
    ensures !cl.world.intruders && old(Calm(cl.weather)) && old(client.faults) == [] ==>
      HookOutcome(cl.world, old(cl.db), cl.db, err, backupTime)
  {
    hide Inv, Onward, Lawful, Replay, Quiet, GoodPlan, AllMigrated, NoneOutstanding, DriverDone, HookOutcome, OnlyStamped,
      OnlyWorld, Exposures, HookClear, SnapshotsFollow, S.MigratedClass, S.MigratedContent, S.ListsConnections;
    err := HandlerMigrateFromCephCsiModule(cl, backupTime);
    if err != NoError {
      return;
    }
    DriversAreConnected(cl.world, cl.db);
    ghost var conns;
    err, conns := client.MigrateVSClassesAndVSContents(MIGRATION, cl.db.connections);
    if err == NoError && !cl.world.intruders {
      forall d | d in cl.db.drivers && d !in cl.world.settled
        ensures SnapshotsFollow(old(client.classes), old(client.contents), client.classes, client.contents, d)
      {
        SnapshotsAreThere(old(client.classes), old(client.contents), client.classes, client.contents, d, cl.db.connections, conns);
      }
    }
  }
}
