/** The parts together: what the migration hook makes is what the controllers serve. */
module EndToEnd {
  import opened Kube
  import opened Volumes
  import M = MigrationStore
  import MigrationRuns
  import opened CsiMigration
  import C = ConnectionPass
  import ConnectionTheorems
  import ConnectionConvergence
  import ClusterConfigs
  import S = StorageClasses
  import opened Calls

  /** The secret is there and holds the credentials. */
  predicate HoldsCredentials(s: C.Store, ref: SecretRef, userID: string, userKey: string) {
    && ref.namespace == "d8-csi-ceph" && ref.name in s.secrets
    && var data := s.secrets[ref.name].data;
    && Lookup(data, "userID") == userID && Lookup(data, "adminID") == userID
    && Lookup(data, "userKey") == userKey && Lookup(data, "adminKey") == userKey
  }

  /** The list has an entry for the cluster, with the monitors and the subvolume group given; the
      Secret of the connection holds its credentials, and the entry refers both drivers to it. */
  predicate Connected(s: C.Store, name: string, spec: ClusterConfigs.Spec) {
    && HoldsCredentials(s, SecretRef("d8-csi-ceph", "csi-ceph-secret-for-" + name), spec.userID, spec.userKey)
    && spec.clusterID in ConnectionTheorems.Entries(s)
    && var entry := ConnectionTheorems.Entries(s)[spec.clusterID];
    && entry.clusterID == spec.clusterID && entry.monitors == spec.monitors
    && entry.subvolumeGroup == (if spec.subvolumeGroup.Some? then spec.subvolumeGroup.value else "")
    && HoldsCredentials(s, SecretRef(entry.cephFSSecret.namespace, entry.cephFSSecret.name), spec.userID, spec.userKey)
    && HoldsCredentials(s, SecretRef(entry.rbdSecret.namespace, entry.rbdSecret.name), spec.userID, spec.userKey)
  }

  /** A reconciled connection has its Secret with its credentials, and its entry in the list. */
  lemma ReconciledConnectionServes(net: C.Net, conn: C.Connection)
    requires ConnectionTheorems.Known(net, conn) && ConnectionTheorems.Clean(net.db) && !conn.terminating
    requires C.Run(net, MODULE_NAMESPACE, conn).err == NoError && !C.Run(net, MODULE_NAMESPACE, conn).requeue
    ensures Connected(C.Run(net, MODULE_NAMESPACE, conn).net.db, conn.name, conn.spec)
  {
    hide C.Run, ConnectionTheorems.Entries, ConnectionTheorems.WellFormed, ConnectionTheorems.Clean;
    ConnectionConvergence.ReadyUnlessRequeued(net, MODULE_NAMESPACE, conn);
  }

  /** In every state of every run of the hook: a volume of a driver that is labelled names, in each
      reference it has, the Secret that the controller keeps for the connection the hook has made.
      Once that connection, as it is stored, is reconciled, the Secret is there and holds the driver's
      credentials, and the list has the driver's monitors and subvolume group. */
  lemma MovedVolumeFindsItsSecret(w: M.World, start: M.Store, log: seq<M.Op>, d: string, n: string, net: C.Net, conn: C.Connection)
    requires M.Inv(w, start) && M.Lawful(w, start, log) && !w.intruders
    requires d in M.Replay(start, log).drivers && d !in w.settled && d !in w.connections
    requires M.IsMigrated(M.Replay(start, log).drivers[d]) && Planned(w, M.Replay(start, log).drivers[d])
    requires n in w.orig && w.orig[n].storageClass in M.ClassNames(M.Replay(start, log).drivers[d]) && M.CephVolume(w.orig[n])
    requires conn.name == d && d in M.Replay(start, log).connections && conn.spec == M.Replay(start, log).connections[d].spec
    requires ConnectionTheorems.Known(net, conn) && ConnectionTheorems.Clean(net.db) && !conn.terminating
    requires C.Run(net, MODULE_NAMESPACE, conn).err == NoError && !C.Run(net, MODULE_NAMESPACE, conn).requeue
    ensures var s := M.Replay(start, log); var driver := s.drivers[d]; var t := C.Run(net, MODULE_NAMESPACE, conn).net.db;
      && n in s.pvs && s.pvs[n].csi.Some?
      && var csi := s.pvs[n].csi.value;
      && (csi.expand.Some? ==> HoldsCredentials(t, csi.expand.value, driver.userID, driver.userKey))
      && (csi.stage.Some? ==> HoldsCredentials(t, csi.stage.value, driver.userID, driver.userKey))
      && driver.clusterID in ConnectionTheorems.Entries(t)
      && ConnectionTheorems.Entries(t)[driver.clusterID].monitors == driver.monitors
      && ConnectionTheorems.Entries(t)[driver.clusterID].subvolumeGroup
           == (if driver.cephfs.Some? then driver.cephfs.value.subvolumeGroup else "")
  {
    hide C.Run, HoldsCredentials, ConnectionTheorems.Entries, ConnectionTheorems.WellFormed, ConnectionTheorems.Clean,
      M.ClassNames, M.OwnClass, M.Inv, M.Replay, M.Lawful;
    assert log[..|log|] == log;
    MigrationRuns.LabelIsTruthful(w, start, log, |log|, d);
    ReconciledConnectionServes(net, conn);
    MigrationRuns.DriverKeepsName(w, start, log, d);
  }

  /** The CephStorageClass made by the hook, as its controller reads it. */
  function StorageSpecOf(c: M.CephClass): S.Spec {
    match c.spec
    case Rbd(pool, fsType) => S.Spec(c.connection, c.reclaimPolicy, S.RBD, Some(S.RbdSpec(fsType, pool)), None)
    case CephFs(fsName) => S.Spec(c.connection, c.reclaimPolicy, S.CEPHFS, None, Some(fsName))
  }

  /** The StorageClass that the controller keeps for a class of the driver names the Secret that its
      volumes were moved to. */
  lemma ClassAndVolumesAgree(w: M.World, d: M.Driver, c: M.CephClass, ceph: S.CephStorageClass, sc: S.StorageClass,
                             cfg: S.Config, id: string, key: string)
    requires Planned(w, d) && c.name in M.ClassNames(d) && c.connection == d.name
    requires ceph.spec == StorageSpecOf(c) && S.ValidSpec(ceph.spec) && S.Wanted(sc, ceph, cfg, id)
    requires key in ["csi.storage.k8s.io/provisioner-secret-name", "csi.storage.k8s.io/node-stage-secret-name",
                     "csi.storage.k8s.io/controller-expand-secret-name"]
    ensures Lookup(sc.parameters, key) == w.target[c.name] == "csi-ceph-secret-for-" + d.name
  {
    hide M.ClassNames, S.WantedParameters, S.WantedLabels;
    S.ParametersDecide(sc.parameters, ceph.spec, cfg, id);
  }

  /** What a driver says about a class is what the StorageClass that the controller keeps says. */
  lemma ClassesSurvive(d: M.Driver, fs: M.FsClass, rbd: M.RbdClass, c: M.CephClass, ceph: S.CephStorageClass,
                       sc: S.StorageClass, cfg: S.Config, id: string)
    requires ceph.spec == StorageSpecOf(c) && S.ValidSpec(ceph.spec) && S.Wanted(sc, ceph, cfg, id)
    ensures M.OwnFsClass(d, fs, c) ==> S.SpecFrom(sc) == S.Spec(d.name, fs.reclaimPolicy, "CephFS", None, Some(fs.fsName))
    ensures M.OwnRbdClass(d, rbd, c) ==>
      S.SpecFrom(sc) == S.Spec(d.name, rbd.reclaimPolicy, "RBD", Some(S.RbdSpec(rbd.fsType, rbd.pool)), None)
  {
    S.SpecRoundTrip(ceph, cfg, id);
    S.ParametersDecide(sc.parameters, ceph.spec, cfg, id);
    hide S.Parameters, S.WantedParameters, S.WantedLabels;
  }
}
