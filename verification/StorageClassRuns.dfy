/** Whole runs of the CephStorageClass controller: passes over any objects in any order, failing
    in any way, between writes of other users. A crash is a pass all of whose later calls are lost. */
module StorageClassRuns {
  import opened Calls
  import opened Finalizers
  import opened Kube
  import opened StorageClasses
  import opened StorageClassPass
  import opened StorageClassTheorems
  import opened StorageClassConvergence

  datatype Event = Others(to: Store) | Reconcile(name: string, faults: seq<Fault>)

  function Step(s: Store, e: Event, cfg: Config): Store {
    match e
    case Others(to) => to
    case Reconcile(n, faults) => Pass(Net(s, faults, []), cfg, n).net.db
  }

  function After(s: Store, run: seq<Event>, cfg: Config): Store
    decreases |run|
  {
    if run == [] then s else After(Step(s, run[0], cfg), run[1..], cfg)
  }

  // ---- No orphans ----

  /** What other users may do: anything but take the controller's finalizer from a
      CephStorageClass, or make a live class of their own that looks like the controller's. */
  ghost predicate Civil(s: Store, t: Store, cfg: Config) {
    && WellFormed(t)
    && (forall n :: Held(s, n) ==> Held(t, n))
    && (forall n :: n in t.scs && Owned(t.scs[n]) && !t.scs[n].terminating ==>
          n in s.scs && Owned(s.scs[n]) && !s.scs[n].terminating)
    && (forall n :: n in t.vscs && OwnedVSC(t.vscs[n]) && !t.vscs[n].terminating ==>
          n in s.vscs && OwnedVSC(s.vscs[n]) && !s.vscs[n].terminating)
  }

  ghost predicate AllCivil(s: Store, run: seq<Event>, cfg: Config)
    decreases |run|
  {
    run == [] || ((run[0].Others? ==> Civil(s, run[0].to, cfg)) && AllCivil(Step(s, run[0], cfg), run[1..], cfg))
  }

  ghost predicate NoOrphans(s: Store, cfg: Config) {
    forall n :: NoOrphan(s, cfg, n)
  }

  lemma OtherNamesStay(n: string, s: Store, t: Store, m: string)
    requires DiffersIn(n, s, t) && m != n
    ensures (m in t.scs <==> m in s.scs) && (m in s.scs ==> t.scs[m] == s.scs[m])
    ensures (m in t.vscs <==> m in s.vscs) && (m in s.vscs ==> t.vscs[m] == s.vscs[m])
    ensures (m in t.cephs <==> m in s.cephs) && (m in s.cephs ==> t.cephs[m] == s.cephs[m])
  {
    assert m in t.scs <==> m in t.scs - {n};
    assert m in s.scs <==> m in s.scs - {n};
    assert m in t.vscs <==> m in t.vscs - {n};
    assert m in s.vscs <==> m in s.vscs - {n};
    assert m in t.cephs <==> m in t.cephs - {n};
    assert m in s.cephs <==> m in s.cephs - {n};
  }

  lemma PassLeavesNoOrphans(s: Store, n: string, faults: seq<Fault>, cfg: Config)
    requires WellFormed(s) && NoOrphans(s, cfg)
    ensures var t := Pass(Net(s, faults, []), cfg, n).net.db; WellFormed(t) && NoOrphans(t, cfg)
  {
    hide Pass, WellFormed;
    var net := Net(s, faults, []);
    var t := Pass(net, cfg, n).net.db;
    PassFrame(net, cfg, n);
    forall m ensures NoOrphan(t, cfg, m) {
      assert NoOrphan(s, cfg, m);
      if m == n {
        PassLeavesNoOrphan(net, cfg, n);
      } else {
        OtherNamesStay(n, s, t, m);
      }
    }
  }

  /** In every state of every run: a live StorageClass or snapshot class made by the controller
      has its CephStorageClass, which carries the controller's finalizer. */
  lemma {:induction false} NoOrphanEver(s: Store, run: seq<Event>, cfg: Config)
    requires WellFormed(s) && NoOrphans(s, cfg) && AllCivil(s, run, cfg)
    ensures WellFormed(After(s, run, cfg)) && NoOrphans(After(s, run, cfg), cfg)
    decreases |run|
  {
    hide Pass, WellFormed;
    if run != [] {
      match run[0]
      case Reconcile(n, faults) =>
        PassLeavesNoOrphans(s, n, faults, cfg);
        NoOrphanEver(Step(s, run[0], cfg), run[1..], cfg);
      case Others(to) =>
        forall n ensures NoOrphan(to, cfg, n) {
          assert NoOrphan(s, cfg, n);
        }
        NoOrphanEver(to, run[1..], cfg);
    }
  }

  // ---- Foreign classes ----

  /** The StorageClasses that the passes of a run write, in any way. */
  function Written(s: Store, run: seq<Event>, cfg: Config): set<string>
    decreases |run|
  {
    if run == [] then {}
    else
      (if run[0].Others? then {} else WrittenBy(Pass(Net(s, run[0].faults, []), cfg, run[0].name).net))
      + Written(Step(s, run[0], cfg), run[1..], cfg)
  }

  function WrittenBy(net: Net): set<string> {
    set i | 0 <= i < |net.sent| && IsSCWrite(net.sent[i]) :: net.sent[i].name
  }

  /** Class n is there and of another provisioner. */
  predicate Foreign(s: Store, n: string) {
    n in s.scs && !AllowedProvisioner(s.scs[n].provisioner)
  }

  /** What others do leaves class n foreign. */
  ghost predicate LeftForeign(run: seq<Event>, n: string) {
    forall e :: e in run && e.Others? ==> WellFormed(e.to) && Foreign(e.to, n)
  }

  /** Class n as others have put it last. */
  function LastPut(s: Store, run: seq<Event>, n: string): StorageClass
    requires Foreign(s, n) && LeftForeign(run, n)
    decreases |run|
  {
    if run == [] then s.scs[n]
    else
      assert forall e :: e in run[1..] ==> e in run;
      assert run[0] in run;
      if run[0].Others? then LastPut(run[0].to, run[1..], n) else LastPut(s, run[1..], n)
  }

  /** Passes over any CephStorageClasses in any order, failing in any way, between writes of others
      that leave the class foreign: they send nothing about a StorageClass of another provisioner,
      and it stays as the others have put it. */
  lemma {:induction false} ForeignStaysForever(s: Store, run: seq<Event>, cfg: Config, n: string)
    requires WellFormed(s) && Foreign(s, n) && LeftForeign(run, n)
    ensures n !in Written(s, run, cfg)
    ensures Foreign(After(s, run, cfg), n) && After(s, run, cfg).scs[n] == LastPut(s, run, n)
    decreases |run|
  {
    hide Pass, WellFormed;
    if run != [] {
      var e := run[0];
      assert e in run && forall x :: x in run[1..] ==> x in run;
      match e
      case Others(to) => ForeignStaysForever(to, run[1..], cfg, n);
      case Reconcile(name, faults) =>
        var net := Net(s, faults, []);
        var o := Pass(net, cfg, name);
        PassFrame(net, cfg, name);
        OnlyWellFormed(name, net, o.net);
        if name == n {
          ForeignIsLeftAlone(net, cfg, n);
        } else {
          OtherNamesStay(name, s, o.net.db, n);
        }
        ForeignStaysForever(o.net.db, run[1..], cfg, n);
        SamePut(s, o.net.db, run[1..], n);
    }
  }

  lemma {:induction false} SamePut(s: Store, t: Store, run: seq<Event>, n: string)
    requires Foreign(s, n) && Foreign(t, n) && s.scs[n] == t.scs[n] && LeftForeign(run, n)
    ensures LastPut(s, run, n) == LastPut(t, run, n)
    decreases |run|
  {
    if run != [] {
      assert run[0] in run && forall x :: x in run[1..] ==> x in run;
      if !run[0].Others? {
        SamePut(s, t, run[1..], n);
      }
    }
  }

  // ---- Needless recreation ----

  /** The live object n has a StorageClass that differs from what is wanted, or a status that
      asks for another attempt. */
  predicate DueForRecreate(s: Store, cfg: Config, n: string) {
    && Live(s, n) && n in s.scs
    && var ceph, sc := s.cephs[n], s.scs[n];
    && ValidSpec(ceph.spec) && ConnectionKnown(s, ceph.spec)
    && sc.provisioner == WantedProvisioner(ceph.spec) && !Unreadable(sc, ceph)
    && (!Wanted(sc, ceph, cfg, s.clusterIDs[ceph.spec.connection]) || KnownToHaveFailed(ceph.status))
  }

  /** The pass started to delete the StorageClass of a live object, so as to create it anew. */
  predicate Recreates(s: Store, e: Event, cfg: Config, n: string) {
    e.Reconcile? && Live(s, n) && DeleteSC(n) in Pass(Net(s, e.faults, []), cfg, e.name).net.sent
  }

  /** A pass over n that got as far as doing something and then failed, or failed to write the status. */
  predicate Fails(s: Store, e: Event, cfg: Config, n: string) {
    e.Reconcile? && e.name == n &&
    match Pass(Net(s, e.faults, []), cfg, n)
    case Absent(_) => false
    case Aborted(_) => false
    case Panicked(_) => true
    case Done(_, _, err, statusErr) => err != NoError || statusErr != NoError
  }

  /** Somebody else changed the CephStorageClass, its StorageClass, or a connection's cluster id. */
  predicate Changes(s: Store, e: Event, n: string) {
    e.Others? && !SameInputs(s, e.to, n)
  }

  predicate SameInputs(s: Store, t: Store, n: string) {
    && (n in t.cephs <==> n in s.cephs) && (n in s.cephs ==> t.cephs[n] == s.cephs[n])
    && (n in t.scs <==> n in s.scs) && (n in s.scs ==> t.scs[n] == s.scs[n])
    && t.clusterIDs == s.clusterIDs
  }

  function One(b: bool): nat { if b then 1 else 0 }

  function RecreateCount(s: Store, run: seq<Event>, cfg: Config, n: string): nat
    decreases |run|
  {
    if run == [] then 0 else One(Recreates(s, run[0], cfg, n)) + RecreateCount(Step(s, run[0], cfg), run[1..], cfg, n)
  }

  function CauseCount(s: Store, run: seq<Event>, cfg: Config, n: string): nat
    decreases |run|
  {
    if run == [] then 0
    else One(Fails(s, run[0], cfg, n)) + One(Changes(s, run[0], n)) + CauseCount(Step(s, run[0], cfg), run[1..], cfg, n)
  }

  lemma LiveRecreatesIfDue(net: Net, cfg: Config, ceph: CephStorageClass)
    requires WellFormed(net.db) && !ceph.terminating && ceph.name in net.db.cephs && net.db.cephs[ceph.name] == ceph
    ensures DueForRecreate(net.db, cfg, ceph.name) || NoDelete(net, RunLive(net, cfg, ceph).net)
  {
    hide Only, WellFormed, ReconcileSC, ReconcileVSC, AddFinalizer, ValidSpec, Text, Complaints, DueForRecreate;
    var n := ceph.name;
    if ValidSpec(ceph.spec) {
      var (net1, err1) := AddFinalizer(net, ceph);
      FinalizerSendsNoDelete(net, ceph);
      FinalizerFrame(net, ceph);
      OnlyWellFormed(n, net, net1);
      OnlySameIDs(n, net, net1);
      var (net2, err2, id) := GetClusterID(net1, ceph.spec);
      ReconcileSCFrame(net2, cfg, ceph, id);
      if ConnectionKnown(net.db, ceph.spec) && id == net.db.clusterIDs[ceph.spec.connection] {
        DeletesIfDue(net.db, net2, cfg, ceph);
      }
      var net3 := ReconcileSC(net2, cfg, ceph, id).0;
      OnlyWellFormed(n, net2, net3);
      ReconcileVSCFrame(net3, cfg, ceph, id);
    }
  }

  lemma DeletesIfDue(s: Store, net: Net, cfg: Config, ceph: CephStorageClass)
    requires ValidSpec(ceph.spec) && ConnectionKnown(s, ceph.spec) && net.db.scs == s.scs
    requires !ceph.terminating && ceph.name in s.cephs && s.cephs[ceph.name] == ceph
    ensures DueForRecreate(s, cfg, ceph.name)
      || NoDelete(net, ReconcileSC(net, cfg, ceph, s.clusterIDs[ceph.spec.connection]).0)
  {
    hide RecreateStorageClass, SCDiff, UpdateStorageClass, ConfigureStorageClass, ShouldRetryFailed, ValidSpec, AllowedProvisioner,
      Wanted, Unreadable, KnownToHaveFailed, WantedProvisioner;
    RetryDecides(ceph.status);
    if ceph.name in s.scs {
      DiffDecides(s.scs[ceph.name], ceph, cfg, s.clusterIDs[ceph.spec.connection]);
    }
  }

  lemma FinalizerSendsNoDelete(net: Net, ceph: CephStorageClass)
    ensures NoDelete(net, AddFinalizer(net, ceph).0)
  {
  }

  ghost predicate NoDelete(a: Net, b: Net) {
    a.sent <= b.sent && forall i :: |a.sent| <= i < |b.sent| ==> !b.sent[i].DeleteSC?
  }

  lemma RecreatesOnlyIfDue(s: Store, e: Event, cfg: Config, n: string)
    requires WellFormed(s) && Recreates(s, e, cfg, n)
    ensures e.name == n && DueForRecreate(s, cfg, n)
  {
    hide Only, WellFormed, RunLive, DueForRecreate, UpdateStatus;
    var net := Net(s, e.faults, []);
    PassSent(net, cfg, e.name);
    var ceph := s.cephs[n];
    CephName(s, n);
    var start := Lists(Read(net).0, cfg).0;
    LiveRecreatesIfDue(start, cfg, ceph);
    var r := RunLive(start, cfg, ceph);
    RunFrame(start, cfg, ceph);
    UpdateStatusFrame(r.net, ceph, r.err, r.text, r.msg);
  }

  lemma PassSent(net: Net, cfg: Config, n: string)
    requires WellFormed(net.db) && net.sent == []
    ensures forall w :: w in Pass(net, cfg, n).net.sent ==> w.name == n
  {
    hide Pass, WellFormed, DiffersIn;
    PassFrame(net, cfg, n);
  }

  lemma ServedIsNotDue(s: Store, cfg: Config, n: string)
    requires WellFormed(s) && Live(s, n) && Served(s, cfg, n)
    ensures !DueForRecreate(s, cfg, n)
  {
    hide ValidSpec, KnownToHaveFailed, NewStatus, VSCInPlace, WellFormed, Wanted;
    CephName(s, n);
    ServedNeedsNoRetry(s, cfg, n);
  }

  lemma SameInputsSameDue(s: Store, t: Store, cfg: Config, n: string)
    requires SameInputs(s, t, n)
    ensures DueForRecreate(t, cfg, n) <==> DueForRecreate(s, cfg, n)
  {
  }

  /** One step: what is due pays for a recreate, and only a failure or a change makes one due. */
  lemma StepIsCharged(s: Store, e: Event, cfg: Config, n: string)
    requires WellFormed(s) && (e.Others? ==> WellFormed(e.to))
    ensures WellFormed(Step(s, e, cfg))
    ensures One(Recreates(s, e, cfg, n)) + One(DueForRecreate(Step(s, e, cfg), cfg, n))
         <= One(DueForRecreate(s, cfg, n)) + One(Fails(s, e, cfg, n)) + One(Changes(s, e, n))
  {
    hide DueForRecreate, Served, AtRest, WellFormed, Pass;
    var t := Step(s, e, cfg);
    if e.Others? {
      if SameInputs(s, e.to, n) {
        SameInputsSameDue(s, t, cfg, n);
      }
    } else {
      var net := Net(s, e.faults, []);
      PassFrame(net, cfg, e.name);
      OnlyWellFormed(e.name, net, Pass(net, cfg, e.name).net);
      if Recreates(s, e, cfg, n) {
        RecreatesOnlyIfDue(s, e, cfg, n);
      }
      if e.name != n {
        OtherNamesStay(e.name, s, t, n);
        SameInputsSameDue(s, t, cfg, n);
      } else {
        PassSettles(net, cfg, n);
      }
    }
  }

  /** After a pass without failure there is nothing due that was not due before. */
  lemma PassSettles(net: Net, cfg: Config, n: string)
    requires WellFormed(net.db)
    ensures var o := Pass(net, cfg, n);
      match o
      case Absent(_) => !DueForRecreate(o.net.db, cfg, n)
      case Aborted(_) => o.net.db == net.db && o.net.sent == net.sent
      case Panicked(_) => true
      case Done(_, _, err, statusErr) => err == NoError && statusErr == NoError ==> !DueForRecreate(o.net.db, cfg, n)
  {
    if Live(net.db, n) {
      PassSettlesLive(net, cfg, n);
    } else {
      PassOverDeleting(net, cfg, n);
    }
  }

  lemma PassSettlesLive(net: Net, cfg: Config, n: string)
    requires WellFormed(net.db) && Live(net.db, n)
    ensures var o := Pass(net, cfg, n);
      && !o.Absent?
      && (o.Aborted? ==> o.net.db == net.db && o.net.sent == net.sent)
      && (o.Done? && o.err == NoError && o.statusErr == NoError ==> !DueForRecreate(o.net.db, cfg, n))
  {
    hide RunLive, WellFormed, UpdateStatus, DueForRecreate, Served, AtRest, Only;
    SuccessIsServed(net, cfg, n);
    var o := Pass(net, cfg, n);
    if o.Done? && o.err == NoError && o.statusErr == NoError {
      PassFrame(net, cfg, n);
      OnlyWellFormed(n, net, o.net);
      ServedIsNotDue(o.net.db, cfg, n);
    }
  }

  /** An object that is gone or being deleted does not come back to life. */
  lemma PassOverDeleting(net: Net, cfg: Config, n: string)
    requires WellFormed(net.db) && !Live(net.db, n)
    ensures var o := Pass(net, cfg, n);
      && !Live(o.net.db, n)
      && (o.Aborted? ==> o.net.db == net.db && o.net.sent == net.sent)
  {
    hide WellFormed, RunDeleting, Only;
    if n in net.db.cephs {
      var ceph := net.db.cephs[n];
      CephName(net.db, n);
      var start := Lists(Read(net).0, cfg).0;
      DeletingStaysDeleting(start, cfg, ceph);
      var r := RunDeleting(start, cfg, ceph);
      RunFrame(start, cfg, ceph);
      UpdateStatusFrame(r.net, ceph, r.err, r.text, r.msg);
    }
  }

  lemma DeletingStaysDeleting(net: Net, cfg: Config, ceph: CephStorageClass)
    requires WellFormed(net.db) && ceph.name in net.db.cephs && net.db.cephs[ceph.name] == ceph && ceph.terminating
    ensures !Live(RunDeleting(net, cfg, ceph).net.db, ceph.name)
  {
    hide Only, WellFormed, TeardownSC, TeardownVSC;
    var n := ceph.name;
    TeardownSCFrame(net, n);
    var net1 := TeardownSC(net, n).0;
    OnlyWellFormed(n, net, net1);
    TeardownVSCFrame(net1, n);
  }

  ghost predicate OthersWellFormed(run: seq<Event>) {
    forall e :: e in run && e.Others? ==> WellFormed(e.to)
  }

  /** Every recreate of a StorageClass is paid for: over any run there are at most as many as
      changes made by others and failed passes over it, and one more if one was due at the start. */
  lemma {:induction false} RecreatesAreCharged(s: Store, run: seq<Event>, cfg: Config, n: string)
    requires WellFormed(s) && OthersWellFormed(run)
    ensures RecreateCount(s, run, cfg, n) + One(DueForRecreate(After(s, run, cfg), cfg, n))
         <= One(DueForRecreate(s, cfg, n)) + CauseCount(s, run, cfg, n)
    decreases |run|
  {
    hide DueForRecreate, WellFormed, Recreates, Fails, Changes, Step;
    if run != [] {
      assert run[0] in run;
      StepIsCharged(s, run[0], cfg, n);
      RecreatesAreCharged(Step(s, run[0], cfg), run[1..], cfg, n);
    }
  }

  lemma DueDeletes(net: Net, cfg: Config, ceph: CephStorageClass)
    requires WellFormed(net.db) && net.faults == [] && ceph.name in net.db.cephs && net.db.cephs[ceph.name] == ceph
    requires DueForRecreate(net.db, cfg, ceph.name)
    ensures DeleteSC(ceph.name) in RunLive(net, cfg, ceph).net.sent
  {
    hide Text, Complaints, Only, WellFormed, ReconcileVSC, SCDiff, UpdateStorageClass, ConfigureStorageClass, ShouldRetryFailed,
      Wanted, Unreadable, KnownToHaveFailed, WantedProvisioner, AllowedProvisioner;
    var n := ceph.name;
    var (net1, err1) := AddFinalizer(net, ceph);
    FinalizerFrame(net, ceph);
    OnlyWellFormed(n, net, net1);
    OnlySameIDs(n, net, net1);
    SCNames(net.db, n);
    var id := net.db.clusterIDs[ceph.spec.connection];
    RetryDecides(ceph.status);
    DiffDecides(net.db.scs[n], ceph, cfg, id);
    WantedIsServed(net.db.scs[n], ceph, cfg, id);
    var net3 := ReconcileSC(net1, cfg, ceph, id).0;
    SmoothDeleteIsSent(net1, net.db.scs[n]);
    assert DeleteSC(n) in net3.sent;
    ReconcileSCFrame(net1, cfg, ceph, id);
    OnlyWellFormed(n, net1, net3);
    ReconcileVSCFrame(net3, cfg, ceph, id);
    SentStays(n, net3, ReconcileVSC(net3, cfg, ceph, id).0, DeleteSC(n));
  }

  lemma SmoothDeleteIsSent(net: Net, sc: StorageClass)
    requires WellFormed(net.db) && net.faults == []
    requires sc.name in net.db.scs && net.db.scs[sc.name] == sc && AllowedProvisioner(sc.provisioner)
    ensures DeleteSC(sc.name) in DeleteStorageClass(net, sc).0.sent
  {
  }

  lemma SentStays(n: string, a: Net, b: Net, w: Write)
    requires Only(n, a, b) && w in a.sent
    ensures w in b.sent
  {
  }

  /** An undisturbed pass recreates the StorageClass exactly if that is due. */
  lemma RecreatedExactlyIfDue(s: Store, cfg: Config, n: string)
    requires WellFormed(s)
    ensures Recreates(s, Reconcile(n, []), cfg, n) <==> DueForRecreate(s, cfg, n)
  {
    hide Only, WellFormed, RunLive, DueForRecreate, UpdateStatus;
    if Recreates(s, Reconcile(n, []), cfg, n) {
      RecreatesOnlyIfDue(s, Reconcile(n, []), cfg, n);
    } else if DueForRecreate(s, cfg, n) {
      DueIsLive(s, cfg, n);
      var ceph := s.cephs[n];
      var net := Net(s, [], []);
      CephName(s, n);
      DueDeletes(net, cfg, ceph);
      var r := RunLive(net, cfg, ceph);
      RunFrame(net, cfg, ceph);
      UpdateStatusFrame(r.net, ceph, r.err, r.text, r.msg);
      SentStays(n, r.net, UpdateStatus(r.net, ceph, r.err, r.text, r.msg).0, DeleteSC(n));
      SmoothReads(net, cfg);
    }
  }

  lemma DueIsLive(s: Store, cfg: Config, n: string)
    requires DueForRecreate(s, cfg, n)
    ensures Live(s, n)
  {
  }
}
