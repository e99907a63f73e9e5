/** Where reconciling a CephStorageClass ends: the fixed points and how passes lead to them, when
    one pass succeeds, and that two undisturbed passes repair whatever failures have left behind. */
module StorageClassConvergence {
  import opened Calls
  import opened Finalizers
  import opened Kube
  import opened LabelPrefixes
  import opened StorageClasses
  import opened StorageClassPass
  import opened StorageClassTheorems

  /** The finalizer is set, the classes are in place, and the status is that of a success. */
  predicate Served(s: Store, cfg: Config, n: string)
    requires n in s.cephs
  {
    var ceph := s.cephs[n];
    && FINALIZER in ceph.finalizers
    && InPlace(s, cfg, ceph)
    && ceph.status.Some? && ceph.status == Some(Success(ceph, ceph.status.value.reason))
  }

  /** And the status says what a pass with nothing to do says. */
  predicate AtRest(s: Store, cfg: Config, n: string)
    requires n in s.cephs
  {
    Served(s, cfg, n) && s.cephs[n].status.value.reason == SAYS_RECONCILED
  }

  function Success(ceph: CephStorageClass, msg: string): Status {
    NewStatus(ceph.status, ceph.generation, NoError, "", msg)
  }

  /** The store with the status of a pass that had nothing to do. */
  function Noted(s: Store, n: string): Store
    requires n in s.cephs
  {
    s.(cephs := s.cephs[n := s.cephs[n].(status := Some(Success(s.cephs[n], SAYS_RECONCILED)))])
  }

  predicate Live(s: Store, n: string) {
    n in s.cephs && !s.cephs[n].terminating
  }

  lemma ServedNeedsNoRetry(s: Store, cfg: Config, n: string)
    requires n in s.cephs && Served(s, cfg, n)
    ensures !KnownToHaveFailed(s.cephs[n].status)
  {
    StatusTellsTheOutcome(s.cephs[n].status, s.cephs[n].generation, NoError, "", s.cephs[n].status.value.reason);
    RetryDecides(s.cephs[n].status);
  }

  /** The message is in two places of the status, and decides whether a served object is at rest. */
  lemma RestIsInTheMessage(s: Store, cfg: Config, n: string)
    requires n in s.cephs && Served(s, cfg, n)
    ensures var status := s.cephs[n].status.value; var ready := GetCondition(status.conditions, READY);
      && ready.Some? && ready.value.message == status.reason
      && (AtRest(s, cfg, n) <==> status.reason == SAYS_RECONCILED && ready.value.message == SAYS_RECONCILED)
      && (AtRest(s, cfg, n) <==> s.cephs[n].status == Some(Success(s.cephs[n], SAYS_RECONCILED)))
  {
    StatusTellsTheOutcome(s.cephs[n].status, s.cephs[n].generation, NoError, "", s.cephs[n].status.value.reason);
  }

  /** From InPlace on, only the finalizer, a retry and the status can still call for writes. */
  lemma InPlaceRun(net: Net, cfg: Config, ceph: CephStorageClass)
    requires net.faults == [] && InPlace(net.db, cfg, ceph)
    requires !ceph.terminating && FINALIZER in ceph.finalizers && !KnownToHaveFailed(ceph.status)
    ensures Run(net, cfg, ceph) == Result(net, false, NoError, "", SAYS_RECONCILED)
  {
    hide Wanted, WantedSnapshots, SCDiff, SameSnapshotClass, ConfigureSnapshotClass, UpdateStorageClass, ShouldRetryFailed,
      KnownToHaveFailed;
    var id := net.db.clusterIDs[ceph.spec.connection];
    DiffDecides(net.db.scs[ceph.name], ceph, cfg, id);
    WantedIsServed(net.db.scs[ceph.name], ceph, cfg, id);
    RetryDecides(ceph.status);
    if cfg.snapshots {
      SnapshotsDecide(net.db.vscs[ceph.name], ceph, cfg, id);
    }
  }

  lemma WantedIsServed(sc: StorageClass, ceph: CephStorageClass, cfg: Config, id: string)
    requires ValidSpec(ceph.spec)
    ensures Wanted(sc, ceph, cfg, id) ==> AllowedProvisioner(sc.provisioner) && sc.provisioner == WantedProvisioner(ceph.spec)
    ensures AllowedProvisioner(WantedProvisioner(ceph.spec))
  {
    hide WantedParameters, WantedLabels;
  }

  lemma SmoothReads(net: Net, cfg: Config)
    requires net.faults == []
    ensures Read(net) == (net, NoError) && Lists(net, cfg) == (net, NoError)
  {
  }

  /** An undisturbed pass over a served object succeeds. It writes nothing but the status, and
      that only if it says something else than that the object is reconciled. */
  lemma ServedNext(net: Net, cfg: Config, n: string)
    requires WellFormed(net.db) && Live(net.db, n) && net.faults == [] && Served(net.db, cfg, n)
    ensures var next := if AtRest(net.db, cfg, n) then net else Net(Noted(net.db, n), [], net.sent + [WriteStatus(n)]);
      Pass(net, cfg, n) == Done(next, false, NoError, NoError)
  {
    hide Run, InPlace, NewStatus, ShouldRetryFailed;
    var ceph := net.db.cephs[n];
    CephName(net.db, n);
    SmoothReads(net, cfg);
    ServedNeedsNoRetry(net.db, cfg, n);
    InPlaceRun(net, cfg, ceph);
    RestIsInTheMessage(net.db, cfg, n);
  }

  /** Noting the success leads to rest. */
  lemma NotedIsRest(s: Store, cfg: Config, n: string)
    requires WellFormed(s) && Live(s, n) && Served(s, cfg, n)
    ensures WellFormed(Noted(s, n)) && Live(Noted(s, n), n) && AtRest(Noted(s, n), cfg, n)
  {
    hide NewStatus, InPlace, GetCondition, HasStatus, ShouldRetryFailed;
    var ceph := s.cephs[n];
    StatusTellsTheOutcome(ceph.status, ceph.generation, NoError, "", SAYS_RECONCILED);
    InPlaceFrame(s, Noted(s, n), cfg, ceph) by { assert InPlace(s, cfg, ceph); }
    InPlaceSpec(Noted(s, n), cfg, ceph, Noted(s, n).cephs[n]);
  }

  /** A pass that says it succeeded, and whose status was written, leaves the object served; at
      rest exactly if it wrote no StorageClass. */
  lemma SuccessIsServed(net: Net, cfg: Config, n: string)
    requires WellFormed(net.db) && Live(net.db, n)
    ensures var o := Pass(net, cfg, n);
      o.Done? && o.err == NoError && o.statusErr == NoError ==>
        Live(o.net.db, n) && Served(o.net.db, cfg, n) && (AtRest(o.net.db, cfg, n) <==> NoSCWrites(net, o.net))
  {
    hide RunLive, Only, WellFormed, InPlace, NewStatus, NoSCWrites, Served, AtRest, UpdateStatus, Success;
    var o := Pass(net, cfg, n);
    var ceph := net.db.cephs[n];
    var net1 := Read(net).0;
    CephName(net1.db, n);
    var net2 := Lists(net1, cfg).0;
    if o.Done? && o.err == NoError && o.statusErr == NoError {
      var r := Run(net2, cfg, ceph);
      LiveSuccessIsInPlace(net2, cfg, ceph);
      RunFrame(net2, cfg, ceph);
      RunKeepsStatus(net2, cfg, ceph);
      RunSpeaks(net2, cfg, ceph);
      SuccessHasFinalizer(net2, cfg, ceph);
      StatusIsWritten(r.net, ceph, r.msg);
      UpdateStatusFrame(r.net, ceph, r.err, r.text, r.msg);
      OnlySameIDs(n, r.net, o.net);
      InPlaceFrame(r.net.db, o.net.db, cfg, ceph);
      StatusServes(o.net.db, cfg, n, ceph, r.msg);
      StatusSendsNoSC(net, net2, r.net, o.net, n);
    }
  }

  lemma StatusIsWritten(net: Net, ceph: CephStorageClass, msg: string)
    requires ceph.name in net.db.cephs && net.db.cephs[ceph.name].status == ceph.status
    ensures var r := UpdateStatus(net, ceph, NoError, "", msg);
      r.1 == NoError ==> ceph.name in r.0.db.cephs && r.0.db.cephs[ceph.name].status == Some(Success(ceph, msg))
    ensures UpdateStatus(net, ceph, NoError, "", msg).1 != NotFound
  {
    hide NewStatus;
  }

  lemma StatusServes(s: Store, cfg: Config, n: string, ceph: CephStorageClass, msg: string)
    requires n in s.cephs && FINALIZER in s.cephs[n].finalizers && InPlace(s, cfg, ceph)
    requires s.cephs[n].(finalizers := ceph.finalizers, status := ceph.status) == ceph
    requires s.cephs[n].status == Some(Success(ceph, msg))
    ensures Served(s, cfg, n) && (AtRest(s, cfg, n) <==> msg == SAYS_RECONCILED)
  {
    hide InPlace, NewStatus, GetCondition, HasStatus, ShouldRetryFailed;
    StatusTellsTheOutcome(ceph.status, ceph.generation, NoError, "", msg);
    InPlaceSpec(s, cfg, ceph, s.cephs[n]);
  }

  lemma StatusSendsNoSC(a: Net, start: Net, b: Net, c: Net, n: string)
    requires start.sent == a.sent && Only(n, start, b) && KeepsSC(b, c)
    ensures NoSCWrites(a, c) <==> NoSCWrites(start, b)
  {
    NoWritesRefl(a);
    StillNoSCWrites(a, a, start, b, c);
  }

  lemma InPlaceSpec(s: Store, cfg: Config, ceph: CephStorageClass, latest: CephStorageClass)
    requires InPlace(s, cfg, ceph)
    requires latest.(finalizers := ceph.finalizers, status := ceph.status) == ceph
    ensures InPlace(s, cfg, latest)
  {
    hide WantedParameters, WantedLabels, WantedSnapshots;
  }

  lemma SuccessHasFinalizer(net: Net, cfg: Config, ceph: CephStorageClass)
    requires WellFormed(net.db) && !ceph.terminating
    requires ceph.name in net.db.cephs && net.db.cephs[ceph.name] == ceph
    ensures var r := RunLive(net, cfg, ceph);
      r.err == NoError ==> ceph.name in r.net.db.cephs && FINALIZER in r.net.db.cephs[ceph.name].finalizers
  {
    hide Text, Complaints, Only, ReconcileSC, ReconcileVSC, WellFormed, AddFinalizer;
    if ValidSpec(ceph.spec) {
      var n := ceph.name;
      var (net1, err1) := AddFinalizer(net, ceph);
      FinalizerFrame(net, ceph);
      AddedFinalizer(net, ceph);
      OnlyWellFormed(n, net, net1);
      var (net2, err2, id) := GetClusterID(net1, ceph.spec);
      ReconcileSCFrame(net2, cfg, ceph, id);
      var net3 := ReconcileSC(net2, cfg, ceph, id).0;
      OnlyWellFormed(n, net2, net3);
      ReconcileVSCFrame(net3, cfg, ceph, id);
    }
  }

  /** The fixed points: an undisturbed pass succeeds without sending a single write exactly if
      both classes are in place, the finalizer is set and the status says so, message included. */
  lemma FixedPoint(net: Net, cfg: Config, n: string)
    requires WellFormed(net.db) && Live(net.db, n) && net.faults == []
    ensures Pass(net, cfg, n) == Done(net, false, NoError, NoError) <==> AtRest(net.db, cfg, n)
  {
    hide Pass, Served;
    if Served(net.db, cfg, n) {
      ServedNext(net, cfg, n);
    } else {
      SuccessIsServed(net, cfg, n);
    }
  }

  /** After one pass that succeeds, however many calls it took, the next undisturbed one succeeds
      and writes neither class nor finalizer; it writes the status exactly if the first one wrote
      the StorageClass, as the status then still says so; and the one after it sends nothing. */
  lemma Convergence(net: Net, cfg: Config, n: string)
    requires WellFormed(net.db) && Live(net.db, n)
    ensures var o := Pass(net, cfg, n); var second := Pass(Net(o.net.db, [], []), cfg, n);
      o.Done? && o.err == NoError && o.statusErr == NoError ==>
        && second.Done? && second.err == NoError && second.statusErr == NoError && !second.requeue
        && second.net.sent == (if NoSCWrites(net, o.net) then [] else [WriteStatus(n)])
        && var third := Net(second.net.db, [], []); Pass(third, cfg, n) == Done(third, false, NoError, NoError)
  {
    hide Pass, Served, AtRest, NoSCWrites, Noted;
    SuccessIsServed(net, cfg, n);
    PassFrame(net, cfg, n);
    var o := Pass(net, cfg, n);
    OnlyWellFormed(n, net, o.net);
    if o.Done? && o.err == NoError && o.statusErr == NoError {
      ServedNext(Net(o.net.db, [], []), cfg, n);
      NotedIsRest(o.net.db, cfg, n);
      var second := Pass(Net(o.net.db, [], []), cfg, n);
      FixedPoint(Net(second.net.db, [], []), cfg, n);
    }
  }

  /** An undisturbed pass over a live object that does not crash always leaves its outcome in the
      status, whether it succeeded or not, and also if it had nothing to do. */
  lemma LivePassSpeaks(net: Net, cfg: Config, n: string)
    requires WellFormed(net.db) && Live(net.db, n) && net.faults == []
    ensures var o := Pass(net, cfg, n); var ceph := net.db.cephs[n]; var run := Run(net, cfg, ceph);
      && (o.Panicked? <==> run.err == Crashed)
      && (!o.Panicked? ==>
            && o.Done? && o.err == run.err && o.statusErr == NoError && n in o.net.db.cephs
            && o.net.db.cephs[n].status == Some(NewStatus(ceph.status, ceph.generation, run.err, run.text, run.msg)))
  {
    hide RunLive, WellFormed, NewStatus, Only;
    var ceph := net.db.cephs[n];
    CephName(net.db, n);
    SmoothReads(net, cfg);
    SmoothCalls(net, cfg, ceph);
    RunKeepsStatus(net, cfg, ceph);
  }

  lemma SmoothCalls(net: Net, cfg: Config, ceph: CephStorageClass)
    requires net.faults == [] && !ceph.terminating
    ensures RunLive(net, cfg, ceph).net.faults == []
  {
    hide Text, Complaints, ConfigureStorageClass, ConfigureSnapshotClass, UpdateStorageClass, SCDiff, SameSnapshotClass,
      ShouldRetryFailed, AddsFinalizer, RemoveFirst, PutSC, PutVSC, PutCeph, DropSC, AllowedProvisioner;
    if ValidSpec(ceph.spec) {
      var (net1, err1) := AddFinalizer(net, ceph);
      var (net2, err2, id) := GetClusterID(net1, ceph.spec);
      SmoothSCCalls(net2, cfg, ceph, id);
    }
  }

  lemma SmoothSCCalls(net: Net, cfg: Config, ceph: CephStorageClass, id: string)
    requires net.faults == [] && ValidSpec(ceph.spec)
    ensures ReconcileSC(net, cfg, ceph, id).0.faults == []
  {
    hide ConfigureStorageClass, UpdateStorageClass, SCDiff, ShouldRetryFailed, RemoveFirst, PutSC, DropSC, AllowedProvisioner, ValidSpec;
  }

  // ---- When one undisturbed pass is enough ----

  predicate ConnectionKnown(s: Store, spec: Spec) {
    spec.connection in s.clusterIDs && s.clusterIDs[spec.connection] != ""
  }

  /** Deleting it takes it away at once. */
  predicate Replaceable(sc: StorageClass) {
    !sc.terminating && RemoveFirst(sc.finalizers, FINALIZER) == []
  }

  predicate SCReconcilable(s: Store, cfg: Config, ceph: CephStorageClass)
    requires ValidSpec(ceph.spec) && ConnectionKnown(s, ceph.spec)
  {
    ceph.name in s.scs ==>
      var sc := s.scs[ceph.name];
      && sc.provisioner == WantedProvisioner(ceph.spec) && !Unreadable(sc, ceph)
      && ((Wanted(sc, ceph, cfg, s.clusterIDs[ceph.spec.connection]) && !KnownToHaveFailed(ceph.status)) || Replaceable(sc))
  }

  predicate VSCReconcilable(s: Store, cfg: Config, ceph: CephStorageClass) {
    (ceph.name in s.vscs && s.vscs[ceph.name].terminating && FINALIZER !in s.vscs[ceph.name].finalizers)
    ==> VSCInPlace(s, cfg, ceph)
  }

  predicate Reconcilable(s: Store, cfg: Config, ceph: CephStorageClass) {
    && ValidSpec(ceph.spec) && ConnectionKnown(s, ceph.spec)
    && SCReconcilable(s, cfg, ceph) && (cfg.snapshots ==> VSCReconcilable(s, cfg, ceph))
  }

  lemma SmoothDelete(net: Net, sc: StorageClass)
    requires WellFormed(net.db) && net.faults == []
    requires sc.name in net.db.scs && net.db.scs[sc.name] == sc && AllowedProvisioner(sc.provisioner)
    ensures var r := DeleteStorageClass(net, sc);
      && r.0.faults == []
      && (r.1 == NoError && sc.name !in r.0.db.scs <==> Replaceable(sc))
      && (RemoveFirst(sc.finalizers, FINALIZER) == [] ==> sc.name !in r.0.db.scs)
  {
    RemoveFirstLeaves(sc.finalizers, FINALIZER);
  }

  lemma RemoveFirstLeaves(list: seq<string>, x: string)
    ensures x !in list ==> RemoveFirst(list, x) == list
  {
  }

  lemma SmoothRecreate(net: Net, sc: StorageClass, new_: StorageClass)
    requires WellFormed(net.db) && net.faults == []
    requires sc.name in net.db.scs && net.db.scs[sc.name] == sc && AllowedProvisioner(sc.provisioner) && new_.name == sc.name
    ensures var r := RecreateStorageClass(net, sc, new_);
      r.0.faults == [] && (r.1 == NoError <==> Replaceable(sc))
  {
    hide WellFormed, DeleteStorageClass, Replaceable;
    SmoothDelete(net, sc);
  }

  lemma SmoothSC(net: Net, cfg: Config, ceph: CephStorageClass)
    requires WellFormed(net.db) && net.faults == [] && ValidSpec(ceph.spec) && ConnectionKnown(net.db, ceph.spec)
    ensures var r := ReconcileSC(net, cfg, ceph, net.db.clusterIDs[ceph.spec.connection]);
      r.0.faults == [] && (r.1 == NoError <==> SCReconcilable(net.db, cfg, ceph))
  {
    hide RecreateStorageClass, Replaceable, Parameters, FilterLabels, SCDiff, Wanted, Unreadable, ShouldRetryFailed, KnownToHaveFailed,
      WellFormed;
    if ceph.name in net.db.scs {
      var sc, id := net.db.scs[ceph.name], net.db.clusterIDs[ceph.spec.connection];
      SCNames(net.db, ceph.name);
      if AllowedProvisioner(sc.provisioner) {
        SmoothRecreate(net, sc, UpdateStorageClass(ceph, sc, cfg, id));
      }
      DiffDecides(sc, ceph, cfg, id);
      WantedIsServed(sc, ceph, cfg, id);
      RetryDecides(ceph.status);
    }
  }

  lemma SmoothVSC(net: Net, cfg: Config, ceph: CephStorageClass)
    requires WellFormed(net.db) && net.faults == [] && ConnectionKnown(net.db, ceph.spec)
    ensures var r := ReconcileVSC(net, cfg, ceph, net.db.clusterIDs[ceph.spec.connection]);
      r.0.faults == [] && (r.1 == NoError <==> VSCReconcilable(net.db, cfg, ceph))
  {
    hide WantedSnapshots, SameSnapshotClass, SnapshotParameters;
    if ceph.name in net.db.vscs {
      SnapshotsDecide(net.db.vscs[ceph.name], ceph, cfg, net.db.clusterIDs[ceph.spec.connection]);
    }
  }

  /** The two class steps of an undisturbed pass, from the store they find. */
  lemma SmoothClasses(net: Net, cfg: Config, ceph: CephStorageClass)
    requires WellFormed(net.db) && net.faults == [] && ValidSpec(ceph.spec) && ConnectionKnown(net.db, ceph.spec)
    ensures var id := net.db.clusterIDs[ceph.spec.connection]; var r := ReconcileSC(net, cfg, ceph, id);
      && r.0.faults == [] && (r.1 == NoError <==> SCReconcilable(net.db, cfg, ceph))
      && var v := ReconcileVSC(r.0, cfg, ceph, id);
      && v.0.faults == [] && (v.1 == NoError <==> VSCReconcilable(net.db, cfg, ceph))
  {
    hide Only, ReconcileSC, ReconcileVSC, WellFormed, SCReconcilable, VSCReconcilable;
    var n := ceph.name;
    var id := net.db.clusterIDs[ceph.spec.connection];
    SmoothSC(net, cfg, ceph);
    ReconcileSCFrame(net, cfg, ceph, id);
    var net3 := ReconcileSC(net, cfg, ceph, id).0;
    OnlyWellFormed(n, net, net3);
    OnlySameIDs(n, net, net3);
    SmoothVSC(net3, cfg, ceph);
    SameSnapshots(net.db, net3.db, cfg, ceph);
  }

  lemma SmoothLive(net: Net, cfg: Config, ceph: CephStorageClass)
    requires WellFormed(net.db) && net.faults == [] && !ceph.terminating
    requires ceph.name in net.db.cephs && net.db.cephs[ceph.name] == ceph
    ensures var r := RunLive(net, cfg, ceph);
      r.net.faults == [] && (r.err == NoError <==> Reconcilable(net.db, cfg, ceph))
  {
    hide Text, Complaints, Only, ReconcileSC, ReconcileVSC, WellFormed, SCReconcilable, VSCReconcilable, KeepsSC, KeepsVSC;
    if ValidSpec(ceph.spec) {
      var n := ceph.name;
      var (net1, err1) := AddFinalizer(net, ceph);
      FinalizerFrame(net, ceph);
      OnlyWellFormed(n, net, net1);
      OnlySameIDs(n, net, net1);
      if ConnectionKnown(net.db, ceph.spec) {
        SmoothClasses(net1, cfg, ceph);
        FinalizerKeepsClasses(net, ceph);
        SameClasses(net.db, net1.db, cfg, ceph);
        SameSnapshots(net.db, net1.db, cfg, ceph);
      }
    }
  }

  lemma FinalizerKeepsClasses(net: Net, ceph: CephStorageClass)
    requires WellFormed(net.db)
    ensures var t := AddFinalizer(net, ceph).0.db; t.scs == net.db.scs && t.vscs == net.db.vscs
  {
    hide Only, AddFinalizer, WellFormed;
    FinalizerFrame(net, ceph);
  }

  lemma SameClasses(s: Store, t: Store, cfg: Config, ceph: CephStorageClass)
    requires t.scs == s.scs && t.clusterIDs == s.clusterIDs && ValidSpec(ceph.spec) && ConnectionKnown(s, ceph.spec)
    ensures SCReconcilable(t, cfg, ceph) <==> SCReconcilable(s, cfg, ceph)
  {
  }

  lemma SameSnapshots(s: Store, t: Store, cfg: Config, ceph: CephStorageClass)
    requires t.vscs == s.vscs && t.clusterIDs == s.clusterIDs
    ensures VSCReconcilable(t, cfg, ceph) <==> VSCReconcilable(s, cfg, ceph)
  {
  }

  /** An undisturbed pass over a live object succeeds, and so leaves it served, exactly if the
      spec is valid, the connection has a cluster id, no class of another provisioner and no
      StorageClass without an allowVolumeExpansion value is in the way, and what has to be
      replaced can be. */
  lemma OnePassSuffices(net: Net, cfg: Config, n: string)
    requires WellFormed(net.db) && Live(net.db, n) && net.faults == []
    ensures var o := Pass(net, cfg, n);
      && (o.Done? && o.err == NoError && o.statusErr == NoError <==> Reconcilable(net.db, cfg, net.db.cephs[n]))
      && (Reconcilable(net.db, cfg, net.db.cephs[n]) ==> Live(o.net.db, n) && Served(o.net.db, cfg, n))
  {
    hide RunLive, Only, WellFormed, Reconcilable, NewStatus, Served, AtRest, NoSCWrites;
    var ceph := net.db.cephs[n];
    SmoothReads(net, cfg);
    CephName(net.db, n);
    SmoothLive(net, cfg, ceph);
    RunKeepsStatus(net, cfg, ceph);
    SuccessIsServed(net, cfg, n);
  }

  // ---- What is carried over ----

  /** Annotations of a StorageClass that is still there, and all a snapshot class carries. */
  ghost predicate CarriedOver(n: string, s: Store, t: Store) {
    && (n in s.scs && n in t.scs && s.scs[n].annotations.Some? ==> t.scs[n].annotations == s.scs[n].annotations)
    && (n in s.vscs ==> n in t.vscs && t.vscs[n].annotations == s.vscs[n].annotations && LabelsKept(s.vscs[n], t.vscs[n]))
  }

  ghost predicate LabelsKept(a: SnapshotClass, b: SnapshotClass) {
    forall k :: k in a.labels && k != MANAGED_LABEL ==> k in b.labels && b.labels[k] == a.labels[k]
  }

  lemma ReconcileSCCarries(net: Net, cfg: Config, ceph: CephStorageClass, id: string)
    requires WellFormed(net.db) && ValidSpec(ceph.spec)
    ensures CarriedOver(ceph.name, net.db, ReconcileSC(net, cfg, ceph, id).0.db)
  {
    hide Only, DeleteStorageClass, Parameters, FilterLabels, WellFormed;
    var n := ceph.name;
    ReconcileSCFrame(net, cfg, ceph, id);
    if n in net.db.scs {
      DeleteSCFrame(net, n);
    }
  }

  lemma ReconcileVSCCarries(net: Net, cfg: Config, ceph: CephStorageClass, id: string)
    requires WellFormed(net.db)
    ensures CarriedOver(ceph.name, net.db, ReconcileVSC(net, cfg, ceph, id).0.db)
  {
    hide Only, SnapshotParameters, Send, AddsFinalizer, WellFormed, SameSnapshotClass;
    SCNames(net.db, ceph.name);
    ReconcileVSCFrame(net, cfg, ceph, id);
  }

  /** The server as it is when a live pass gets to the StorageClass, and when it gets to the
      snapshot class. */
  function AtClasses(net: Net, ceph: CephStorageClass): (Net, Error, string) {
    GetClusterID(AddFinalizer(net, ceph).0, ceph.spec)
  }

  function AtSnapshots(net: Net, cfg: Config, ceph: CephStorageClass): Net
    requires ValidSpec(ceph.spec)
  {
    var (net2, err2, id) := AtClasses(net, ceph);
    ReconcileSC(net2, cfg, ceph, id).0
  }

  /** A live pass changes the StorageClass in one step only, and the snapshot class likewise. */
  lemma LiveSteps(net: Net, cfg: Config, ceph: CephStorageClass)
    requires WellFormed(net.db) && !ceph.terminating
    ensures var net2 := AtClasses(net, ceph).0;
      WellFormed(net2.db) && net2.db.scs == net.db.scs && net2.db.vscs == net.db.vscs && net2.db.clusterIDs == net.db.clusterIDs
    ensures ValidSpec(ceph.spec) ==>
      var net3 := AtSnapshots(net, cfg, ceph);
      WellFormed(net3.db) && net3.db.vscs == net.db.vscs && net3.db.clusterIDs == net.db.clusterIDs
    ensures var t := RunLive(net, cfg, ceph).net.db;
      && (t.scs == net.db.scs || (ValidSpec(ceph.spec) && t.scs == AtSnapshots(net, cfg, ceph).db.scs))
      && (t.vscs == net.db.vscs
          || (ValidSpec(ceph.spec) && t.vscs == ReconcileVSC(AtSnapshots(net, cfg, ceph), cfg, ceph, AtClasses(net, ceph).2).0.db.vscs))
  {
    hide Text, Complaints, Only, ReconcileSC, ReconcileVSC, WellFormed, AddFinalizer;
    var n := ceph.name;
    var net1 := AddFinalizer(net, ceph).0;
    FinalizerFrame(net, ceph);
    OnlyWellFormed(n, net, net1);
    OnlySameIDs(n, net, net1);
    if ValidSpec(ceph.spec) {
      var (net2, err2, id) := AtClasses(net, ceph);
      ReconcileSCFrame(net2, cfg, ceph, id);
      var net3 := ReconcileSC(net2, cfg, ceph, id).0;
      OnlyWellFormed(n, net2, net3);
      OnlySameIDs(n, net2, net3);
      ReconcileVSCFrame(net3, cfg, ceph, id);
    }
  }

  /** The rest of a pass leaves both classes alone. */
  lemma PassClasses(net: Net, cfg: Config, n: string)
    requires WellFormed(net.db) && Live(net.db, n)
    ensures var t := Pass(net, cfg, n).net.db; var start := Lists(Read(net).0, cfg).0;
      && start.db == net.db
      && ((t.scs == net.db.scs && t.vscs == net.db.vscs)
          || var r := RunLive(start, cfg, net.db.cephs[n]).net.db; t.scs == r.scs && t.vscs == r.vscs)
  {
    hide Only, RunLive, WellFormed, UpdateStatus;
    var ceph := net.db.cephs[n];
    var start := Lists(Read(net).0, cfg).0;
    var r := Run(start, cfg, ceph);
    RunFrame(start, cfg, ceph);
    UpdateStatusFrame(r.net, ceph, r.err, r.text, r.msg);
  }

  /** No pass over a live object, however its calls fail, changes the annotations of a
      StorageClass that is there before and after it, or takes annotations or labels from the
      snapshot class. */
  lemma PassCarries(net: Net, cfg: Config, n: string)
    requires WellFormed(net.db) && Live(net.db, n)
    ensures CarriedOver(n, net.db, Pass(net, cfg, n).net.db)
  {
    hide Pass, RunLive, ReconcileSC, ReconcileVSC, WellFormed, LabelsKept, AtClasses;
    var ceph := net.db.cephs[n];
    CephName(net.db, n);
    LabelsKeptRefl(net.db, n);
    PassClasses(net, cfg, n);
    var start := Lists(Read(net).0, cfg).0;
    LiveSteps(start, cfg, ceph);
    if ValidSpec(ceph.spec) {
      var (net2, err2, id) := AtClasses(start, ceph);
      ReconcileSCCarries(net2, cfg, ceph, id);
      ReconcileVSCCarries(AtSnapshots(start, cfg, ceph), cfg, ceph, id);
    }
  }

  lemma LabelsKeptRefl(s: Store, n: string)
    ensures n in s.vscs ==> LabelsKept(s.vscs[n], s.vscs[n])
  {
  }

  // ---- What failures leave behind ----

  /** Nothing is in the way that only somebody else could remove. */
  predicate Healable(s: Store, cfg: Config, ceph: CephStorageClass) {
    && ValidSpec(ceph.spec) && ConnectionKnown(s, ceph.spec)
    && (ceph.name in s.scs ==> HealableSC(s.scs[ceph.name], ceph.spec))
    && (ceph.name in s.vscs && s.vscs[ceph.name].terminating ==> FINALIZER in s.vscs[ceph.name].finalizers)
  }

  predicate HealableSC(sc: StorageClass, spec: Spec) {
    sc.provisioner == WantedProvisioner(spec) && sc.expansion.Some? && RemoveFirst(sc.finalizers, FINALIZER) == []
  }

  lemma DeleteKeepsHealable(net: Net, sc: StorageClass, spec: Spec)
    requires WellFormed(net.db) && sc.name in net.db.scs && net.db.scs[sc.name] == sc && HealableSC(sc, spec)
    ensures var t := DeleteStorageClass(net, sc).0.db;
      sc.name in t.scs ==> HealableSC(t.scs[sc.name], spec)
  {
    hide Send, Provisioner, WellFormed;
  }

  lemma NewIsHealable(ceph: CephStorageClass, cfg: Config, id: string)
    requires ValidSpec(ceph.spec)
    ensures HealableSC(ConfigureStorageClass(ceph, cfg, id), ceph.spec) && ConfigureStorageClass(ceph, cfg, id).name == ceph.name
    ensures forall prev ::
      HealableSC(UpdateStorageClass(ceph, prev, cfg, id), ceph.spec) && UpdateStorageClass(ceph, prev, cfg, id).name == ceph.name
  {
    hide Parameters, FilterLabels;
    assert RemoveFirst([FINALIZER], FINALIZER) == [];
  }

  lemma ReconcileSCKeepsHealable(net: Net, cfg: Config, ceph: CephStorageClass, id: string)
    requires WellFormed(net.db) && ValidSpec(ceph.spec)
    requires ceph.name in net.db.scs ==> HealableSC(net.db.scs[ceph.name], ceph.spec)
    ensures var t := ReconcileSC(net, cfg, ceph, id).0.db;
      ceph.name in t.scs ==> HealableSC(t.scs[ceph.name], ceph.spec)
  {
    hide RecreateStorageClass, SendCreateSC, SCDiff, WellFormed, ShouldRetryFailed, HealableSC, UpdateStorageClass,
      ConfigureStorageClass;
    var n := ceph.name;
    NewIsHealable(ceph, cfg, id);
    SCNames(net.db, n);
    if n in net.db.scs {
      RecreateKeepsHealable(net, net.db.scs[n], UpdateStorageClass(ceph, net.db.scs[n], cfg, id), ceph.spec);
    } else {
      CreateIsHealable(net, ConfigureStorageClass(ceph, cfg, id), ceph.spec);
    }
  }

  lemma CreateIsHealable(net: Net, new_: StorageClass, spec: Spec)
    requires HealableSC(new_, spec) && (new_.name in net.db.scs ==> HealableSC(net.db.scs[new_.name], spec))
    ensures var t := SendCreateSC(net, new_).0.db; new_.name in t.scs ==> HealableSC(t.scs[new_.name], spec)
  {
    hide HealableSC;
  }

  lemma RecreateKeepsHealable(net: Net, sc: StorageClass, new_: StorageClass, spec: Spec)
    requires WellFormed(net.db) && sc.name in net.db.scs && net.db.scs[sc.name] == sc && HealableSC(sc, spec)
    requires HealableSC(new_, spec) && new_.name == sc.name
    ensures var t := RecreateStorageClass(net, sc, new_).0.db; sc.name in t.scs ==> HealableSC(t.scs[sc.name], spec)
  {
    hide DeleteStorageClass, SendCreateSC, HealableSC, WellFormed;
    DeleteKeepsHealable(net, sc, spec);
    CreateIsHealable(DeleteStorageClass(net, sc).0, new_, spec);
  }

  lemma ReconcileVSCKeepsHealable(net: Net, cfg: Config, ceph: CephStorageClass, id: string)
    requires WellFormed(net.db)
    requires ceph.name in net.db.vscs && net.db.vscs[ceph.name].terminating ==> FINALIZER in net.db.vscs[ceph.name].finalizers
    ensures var t := ReconcileVSC(net, cfg, ceph, id).0.db;
      ceph.name in t.vscs && t.vscs[ceph.name].terminating ==> FINALIZER in t.vscs[ceph.name].finalizers
  {
    hide SnapshotParameters;
  }

  /** However the calls of a pass fail, what it leaves behind can be repaired. */
  lemma PassKeepsHealable(net: Net, cfg: Config, n: string)
    requires WellFormed(net.db) && Live(net.db, n) && Healable(net.db, cfg, net.db.cephs[n])
    ensures var t := Pass(net, cfg, n).net.db;
      WellFormed(t) && Live(t, n) && Healable(t, cfg, t.cephs[n])
  {
    hide Pass, RunLive, ReconcileSC, ReconcileVSC, WellFormed, HealableSC, AtClasses, Parameters;
    var ceph := net.db.cephs[n];
    CephName(net.db, n);
    PassKeepsObject(net, cfg, n);
    PassClasses(net, cfg, n);
    var start := Lists(Read(net).0, cfg).0;
    LiveSteps(start, cfg, ceph);
    var (net2, err2, id) := AtClasses(start, ceph);
    ReconcileSCKeepsHealable(net2, cfg, ceph, id);
    ReconcileVSCKeepsHealable(AtSnapshots(start, cfg, ceph), cfg, ceph, id);
  }

  /** A pass over a live object changes at most its finalizers and its status. */
  lemma PassKeepsObject(net: Net, cfg: Config, n: string)
    requires WellFormed(net.db) && Live(net.db, n)
    ensures var t := Pass(net, cfg, n).net.db;
      && WellFormed(t) && Live(t, n) && t.clusterIDs == net.db.clusterIDs
      && t.cephs[n].(finalizers := net.db.cephs[n].finalizers, status := net.db.cephs[n].status) == net.db.cephs[n]
  {
    hide Only, RunLive, WellFormed, UpdateStatus;
    var ceph := net.db.cephs[n];
    CephName(net.db, n);
    PassFrame(net, cfg, n);
    OnlyWellFormed(n, net, Pass(net, cfg, n).net);
    OnlySameIDs(n, net, Pass(net, cfg, n).net);
    var start := Lists(Read(net).0, cfg).0;
    RunKeepsStatus(start, cfg, ceph);
    var r := RunLive(start, cfg, ceph);
    RunFrame(start, cfg, ceph);
    UpdateStatusFrame(r.net, ceph, r.err, r.text, r.msg);
  }

  /** Only a StorageClass that is already being deleted can make an undisturbed pass fail; the
      pass takes it away, and the create branch of the next one puts the new one in. */
  lemma SecondPassSuffices(net: Net, cfg: Config, n: string)
    requires WellFormed(net.db) && Live(net.db, n) && Healable(net.db, cfg, net.db.cephs[n]) && net.faults == []
    ensures var t := Pass(net, cfg, n).net.db;
      Live(t, n) && (Served(t, cfg, n) || Reconcilable(t, cfg, t.cephs[n]))
  {
    hide Only, WellFormed, Served, Healable, RunLive, Pass, Reconcilable;
    var ceph := net.db.cephs[n];
    var t := Pass(net, cfg, n).net.db;
    CephName(net.db, n);
    PassKeepsHealable(net, cfg, n);
    OnePassSuffices(net, cfg, n);
    if !Reconcilable(net.db, cfg, ceph) {
      StuckPass(net, cfg, n);
      AbsentIsReconcilable(t, cfg, n);
    }
  }

  /** What is healable and has no StorageClass takes one pass. */
  lemma AbsentIsReconcilable(s: Store, cfg: Config, n: string)
    requires WellFormed(s) && n in s.cephs && n !in s.scs && Healable(s, cfg, s.cephs[n])
    ensures Reconcilable(s, cfg, s.cephs[n])
  {
    hide ValidSpec, VSCInPlace, HealableSC;
    CephName(s, n);
  }

  lemma StuckPass(net: Net, cfg: Config, n: string)
    requires WellFormed(net.db) && Live(net.db, n) && net.faults == []
    requires Healable(net.db, cfg, net.db.cephs[n]) && !Reconcilable(net.db, cfg, net.db.cephs[n])
    ensures n !in Pass(net, cfg, n).net.db.scs
  {
    hide Only, WellFormed, RunLive, Healable, Reconcilable, UpdateStatus;
    var ceph := net.db.cephs[n];
    CephName(net.db, n);
    SmoothReads(net, cfg);
    StuckIsTakenAway(net, cfg, ceph);
    var r := RunLive(net, cfg, ceph);
    RunFrame(net, cfg, ceph);
    UpdateStatusFrame(r.net, ceph, r.err, r.text, r.msg);
  }

  lemma StuckIsTakenAway(net: Net, cfg: Config, ceph: CephStorageClass)
    requires WellFormed(net.db) && net.faults == [] && !ceph.terminating
    requires ceph.name in net.db.cephs && net.db.cephs[ceph.name] == ceph
    requires Healable(net.db, cfg, ceph) && !Reconcilable(net.db, cfg, ceph)
    ensures ceph.name !in RunLive(net, cfg, ceph).net.db.scs
  {
    hide Text, Complaints, Only, WellFormed, ReconcileVSC, DeleteStorageClass, VSCInPlace, SCDiff, UpdateStorageClass, Wanted,
      ShouldRetryFailed, KnownToHaveFailed;
    var n := ceph.name;
    var (net1, err1) := AddFinalizer(net, ceph);
    FinalizerFrame(net, ceph);
    OnlyWellFormed(n, net, net1);
    OnlySameIDs(n, net, net1);
    var sc := net.db.scs[n];
    SCNames(net.db, n);
    DiffDecides(sc, ceph, cfg, net.db.clusterIDs[ceph.spec.connection]);
    RetryDecides(ceph.status);
    SmoothDelete(net1, sc);
  }

  /** The store after passes over n whose calls fail as scripted. */
  function Passes(s: Store, cfg: Config, n: string, scripts: seq<seq<Fault>>): Store
    decreases |scripts|
  {
    if scripts == [] then s else Passes(Pass(Net(s, scripts[0], []), cfg, n).net.db, cfg, n, scripts[1..])
  }

  /** Self-stabilisation: after any number of passes failing in any way, two undisturbed ones
      leave both classes as they should be, and a third comes to rest. */
  lemma {:induction false} TwoPassesHeal(s: Store, cfg: Config, n: string, scripts: seq<seq<Fault>>)
    requires WellFormed(s) && Live(s, n) && Healable(s, cfg, s.cephs[n])
    ensures var t := Passes(s, cfg, n, scripts + [[], []]); Live(t, n) && Served(t, cfg, n)
    ensures var t := Passes(s, cfg, n, scripts + [[], [], []]); Live(t, n) && AtRest(t, cfg, n)
    decreases |scripts|
  {
    hide Pass, AtRest, Served, Healable, Reconcilable, WellFormed;
    if scripts == [] {
      var t := Pass(Net(s, [], []), cfg, n).net.db;
      var u := Pass(Net(t, [], []), cfg, n).net.db;
      SecondIsServed(s, cfg, n);
      ThirdIsRest(u, cfg, n);
      var two: seq<seq<Fault>>, three: seq<seq<Fault>> := [[], []], [[], [], []];
      assert scripts + two == two && two[1..] == [[]] && two[1..][1..] == [];
      assert Passes(s, cfg, n, two) == Passes(t, cfg, n, two[1..]) == Passes(u, cfg, n, []);
      assert scripts + three == three && three[1..] == two;
      assert Passes(s, cfg, n, three) == Passes(t, cfg, n, two) == Passes(u, cfg, n, two[1..]);
    } else {
      PassKeepsHealable(Net(s, scripts[0], []), cfg, n);
      TwoPassesHeal(Pass(Net(s, scripts[0], []), cfg, n).net.db, cfg, n, scripts[1..]);
      assert (scripts + [[], []])[1..] == scripts[1..] + [[], []];
      assert (scripts + [[], [], []])[1..] == scripts[1..] + [[], [], []];
    }
  }

  lemma SecondIsServed(s: Store, cfg: Config, n: string)
    requires WellFormed(s) && Live(s, n) && Healable(s, cfg, s.cephs[n])
    ensures var t := Pass(Net(s, [], []), cfg, n).net.db; var u := Pass(Net(t, [], []), cfg, n).net.db;
      WellFormed(u) && Live(u, n) && Served(u, cfg, n)
  {
    hide Pass, Served, AtRest, Healable, Reconcilable, WellFormed, Noted;
    PassKeepsHealable(Net(s, [], []), cfg, n);
    SecondPassSuffices(Net(s, [], []), cfg, n);
    var t := Pass(Net(s, [], []), cfg, n).net.db;
    PassKeepsHealable(Net(t, [], []), cfg, n);
    OnePassSuffices(Net(t, [], []), cfg, n);
    if Served(t, cfg, n) {
      ServedNext(Net(t, [], []), cfg, n);
      NotedIsRest(t, cfg, n);
      RestIsServed(t, cfg, n);
      RestIsServed(Noted(t, n), cfg, n);
    }
  }

  lemma RestIsServed(s: Store, cfg: Config, n: string)
    requires n in s.cephs
    ensures AtRest(s, cfg, n) ==> Served(s, cfg, n)
  {
    hide Served;
  }

  lemma ThirdIsRest(s: Store, cfg: Config, n: string)
    requires WellFormed(s) && Live(s, n) && Served(s, cfg, n)
    ensures var t := Pass(Net(s, [], []), cfg, n).net.db; Live(t, n) && AtRest(t, cfg, n)
  {
    hide Pass, Served, AtRest, WellFormed, Noted;
    ServedNext(Net(s, [], []), cfg, n);
    NotedIsRest(s, cfg, n);
  }
}
