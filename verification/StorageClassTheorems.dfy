/** What one reconcile pass of the CephStorageClass controller guarantees. */
module StorageClassTheorems {
  import opened Calls
  import opened Finalizers
  import opened Kube
  import opened LabelPrefixes
  import opened StorageClasses
  import opened StorageClassPass

  ghost predicate WellFormed(s: Store) {
    && (forall n :: n in s.scs ==> s.scs[n].name == n && (s.scs[n].terminating ==> s.scs[n].finalizers != []))
    && (forall n :: n in s.vscs ==> s.vscs[n].name == n && (s.vscs[n].terminating ==> s.vscs[n].finalizers != []))
    && (forall n :: n in s.cephs ==> s.cephs[n].name == n && (s.cephs[n].terminating ==> s.cephs[n].finalizers != []))
  }

  // ---- Frames ----

  /** Only objects called n are written, and the store differs in them only. */
  ghost predicate Only(n: string, a: Net, b: Net) {
    && WellFormed(b.db)
    && a.sent <= b.sent
    && (forall i :: |a.sent| <= i < |b.sent| ==> b.sent[i].name == n)
    && DiffersIn(n, a.db, b.db)
  }

  ghost predicate DiffersIn(n: string, s: Store, t: Store) {
    t.scs - {n} == s.scs - {n} && t.vscs - {n} == s.vscs - {n} && t.cephs - {n} == s.cephs - {n} && t.clusterIDs == s.clusterIDs
  }

  lemma OnlyTrans(n: string, a: Net, b: Net, c: Net)
    requires Only(n, a, b) && Only(n, b, c)
    ensures Only(n, a, c)
  {
  }

  /** Which kinds of objects the steps of a pass write. */
  ghost predicate KeepsCeph(a: Net, b: Net) { b.db.cephs == a.db.cephs }
  ghost predicate KeepsSC(a: Net, b: Net) {
    b.db.scs == a.db.scs && NoSCWrites(a, b)
  }
  ghost predicate KeepsVSC(a: Net, b: Net) { b.db.vscs == a.db.vscs }

  predicate IsSCWrite(w: Write) { w.CreateSC? || w.UpdateSC? || w.DeleteSC? }

  ghost predicate NoSCWrites(a: Net, b: Net) {
    a.sent <= b.sent && forall i :: |a.sent| <= i < |b.sent| ==> !IsSCWrite(b.sent[i])
  }

  lemma SendFrame(n: string, net: Net, write: Write, verdict: Error, effect: Store)
    requires WellFormed(net.db) && write.name == n
    requires verdict == NoError ==> WellFormed(effect) && DiffersIn(n, net.db, effect)
    ensures var r := Send(net, write, verdict, effect).0;
      Only(n, net, r) && (r.db == net.db || (verdict == NoError && r.db == effect))
    ensures !IsSCWrite(write) ==> NoSCWrites(net, Send(net, write, verdict, effect).0)
  {
  }

  lemma PutSCFrame(s: Store, sc: StorageClass)
    requires WellFormed(s)
    ensures WellFormed(PutSC(s, sc)) && DiffersIn(sc.name, s, PutSC(s, sc))
  {
  }

  lemma DropSCFrame(s: Store, n: string)
    requires WellFormed(s) && n in s.scs
    ensures WellFormed(DropSC(s, n)) && DiffersIn(n, s, DropSC(s, n))
    ensures n in DropSC(s, n).scs ==> DropSC(s, n).scs[n].terminating && Fading(s.scs[n], DropSC(s, n).scs[n])
  {
  }

  lemma PutVSCFrame(s: Store, vsc: SnapshotClass)
    requires WellFormed(s)
    ensures WellFormed(PutVSC(s, vsc)) && DiffersIn(vsc.name, s, PutVSC(s, vsc))
  {
  }

  lemma DropVSCFrame(s: Store, n: string)
    requires WellFormed(s) && n in s.vscs
    ensures WellFormed(DropVSC(s, n)) && DiffersIn(n, s, DropVSC(s, n))
    ensures n in DropVSC(s, n).vscs ==> DropVSC(s, n).vscs[n].terminating && FadingVSC(s.vscs[n], DropVSC(s, n).vscs[n])
  {
  }

  ghost predicate SCCall(n: string, a: Net, b: Net) {
    Only(n, a, b) && KeepsCeph(a, b) && KeepsVSC(a, b)
  }

  ghost predicate VSCCall(n: string, a: Net, b: Net) {
    Only(n, a, b) && KeepsCeph(a, b) && KeepsSC(a, b)
  }

  lemma SendSCFrame(net: Net, sc: StorageClass)
    requires WellFormed(net.db)
    ensures SCCall(sc.name, net, SendCreateSC(net, sc).0)
    ensures SCCall(sc.name, net, SendUpdateSC(net, sc).0)
    ensures SCCall(sc.name, net, SendDeleteSC(net, sc.name).0)
    ensures var r := SendDeleteSC(net, sc.name);
      && (r.1 == NoError && sc.name in r.0.db.scs ==> r.0.db.scs[sc.name].terminating)
      && (sc.name in r.0.db.scs ==> sc.name in net.db.scs && Fading(net.db.scs[sc.name], r.0.db.scs[sc.name]))
  {
    hide WellFormed, DiffersIn, Only, Send;
    var n := sc.name;
    PutSCFrame(net.db, sc);
    SendFrame(n, net, CreateSC(n), if n in net.db.scs then AlreadyExists else NoError, PutSC(net.db, sc));
    SendFrame(n, net, UpdateSC(n), if n !in net.db.scs then NotFound else NoError, PutSC(net.db, sc));
    if n in net.db.scs {
      DropSCFrame(net.db, n);
      SendFrame(n, net, DeleteSC(n), NoError, DropSC(net.db, n));
    } else {
      SendFrame(n, net, DeleteSC(n), NotFound, net.db);
    }
  }

  lemma SendVSCFrame(net: Net, vsc: SnapshotClass)
    requires WellFormed(net.db)
    ensures VSCCall(vsc.name, net, SendCreateVSC(net, vsc).0)
    ensures VSCCall(vsc.name, net, SendUpdateVSC(net, vsc).0)
    ensures VSCCall(vsc.name, net, SendDeleteVSC(net, vsc.name).0)
    ensures var r := SendDeleteVSC(net, vsc.name);
      && (r.1 == NoError && vsc.name in r.0.db.vscs ==> r.0.db.vscs[vsc.name].terminating)
      && (vsc.name in r.0.db.vscs ==> vsc.name in net.db.vscs && FadingVSC(net.db.vscs[vsc.name], r.0.db.vscs[vsc.name]))
  {
    hide WellFormed, DiffersIn, Only, Send, AddsFinalizer;
    var n := vsc.name;
    PutVSCFrame(net.db, vsc);
    SendFrame(n, net, CreateVSC(n), if n in net.db.vscs then AlreadyExists else NoError, PutVSC(net.db, vsc));
    if n in net.db.vscs {
      var stored := net.db.vscs[n];
      PutVSCFrame(net.db, vsc.(terminating := stored.terminating));
      SendFrame(n, net, UpdateVSC(n), if stored.terminating && AddsFinalizer(stored.finalizers, vsc.finalizers) then Forbidden else NoError,
                PutVSC(net.db, vsc.(terminating := stored.terminating)));
      DropVSCFrame(net.db, n);
      SendFrame(n, net, DeleteVSC(n), NoError, DropVSC(net.db, n));
    } else {
      SendFrame(n, net, UpdateVSC(n), NotFound, net.db);
      SendFrame(n, net, DeleteVSC(n), NotFound, net.db);
    }
  }

  /** Only finalizers were taken away and the deletion mark set. */
  ghost predicate Fading(a: StorageClass, b: StorageClass) {
    b.(finalizers := a.finalizers, terminating := a.terminating) == a && (a.terminating ==> b.terminating)
  }

  ghost predicate FadingVSC(a: SnapshotClass, b: SnapshotClass) {
    b.(finalizers := a.finalizers, terminating := a.terminating) == a && (a.terminating ==> b.terminating)
  }

  lemma DeleteSCFrame(net: Net, n: string)
    requires WellFormed(net.db) && n in net.db.scs
    ensures var r := DeleteStorageClass(net, net.db.scs[n]);
      && SCCall(n, net, r.0)
      && (r.1 == NoError && n in r.0.db.scs ==> r.0.db.scs[n].terminating)
      && (n in r.0.db.scs ==> Fading(net.db.scs[n], r.0.db.scs[n]))
  {
    hide Only, SendDeleteSC, SendUpdateSC, Fading, RemoveFirst;
    var sc := net.db.scs[n];
    OnlyRefl(n, net);
    FadingRefl(sc);
    DroppedSCFrame(net, n);
    StrippedSCFrame(net, n);
    var (net', err) := SendUpdateSC(net, sc.(finalizers := RemoveFirst(sc.finalizers, FINALIZER)));
    OnlyWellFormed(n, net, net');
    DroppedSCFrame(net', n);
    OnlyTrans(n, net, net', SendDeleteSC(net', n).0);
    FadingTrans(net.db, net'.db, SendDeleteSC(net', n).0.db, n);
  }

  lemma FadingRefl(sc: StorageClass)
    ensures Fading(sc, sc)
  {
  }

  lemma FadingTrans(a: Store, b: Store, c: Store, n: string)
    requires n in b.scs ==> n in a.scs && Fading(a.scs[n], b.scs[n])
    requires n in c.scs ==> n in b.scs && Fading(b.scs[n], c.scs[n])
    ensures n in c.scs ==> n in a.scs && Fading(a.scs[n], c.scs[n])
  {
  }

  /** The strip of a StorageClass. */
  lemma StrippedSCFrame(net: Net, n: string)
    requires WellFormed(net.db) && n in net.db.scs
    ensures var sc := net.db.scs[n]; var t := SendUpdateSC(net, sc.(finalizers := RemoveFirst(sc.finalizers, FINALIZER))).0;
      SCCall(n, net, t) && (n in t.db.scs ==> Fading(sc, t.db.scs[n]))
  {
    hide Only, RemoveFirst, WellFormed;
    SCNames(net.db, n);
    var sc := net.db.scs[n];
    SendSCFrame(net, sc.(finalizers := RemoveFirst(sc.finalizers, FINALIZER)));
  }

  /** Its delete. */
  lemma DroppedSCFrame(net: Net, n: string)
    requires WellFormed(net.db)
    ensures var r := SendDeleteSC(net, n);
      && SCCall(n, net, r.0)
      && (r.1 == NoError && n in r.0.db.scs ==> r.0.db.scs[n].terminating)
      && (n in r.0.db.scs ==> n in net.db.scs && Fading(net.db.scs[n], r.0.db.scs[n]))
  {
    hide Only, SendDeleteSC, WellFormed;
    SendSCFrame(net, StorageClass(n, map[], None, [], false, "", "", "", None, map[], [], []));
  }

  lemma OnlyWellFormed(n: string, a: Net, b: Net)
    requires Only(n, a, b)
    ensures WellFormed(b.db)
  {
  }

  lemma RecreateSCFrame(net: Net, n: string, new_: StorageClass)
    requires WellFormed(net.db) && n in net.db.scs && new_.name == n && !new_.terminating
    ensures var r := RecreateStorageClass(net, net.db.scs[n], new_);
      SCCall(n, net, r.0)
  {
    hide Only, SendCreateSC, DeleteStorageClass, WellFormed;
    DeleteSCFrame(net, n);
    var (net', err) := DeleteStorageClass(net, net.db.scs[n]);
    OnlyWellFormed(n, net, net');
    SendSCFrame(net', new_);
    OnlyTrans(n, net, net', SendCreateSC(net', new_).0);
  }

  lemma ReconcileSCFrame(net: Net, cfg: Config, ceph: CephStorageClass, id: string)
    requires WellFormed(net.db) && ValidSpec(ceph.spec)
    ensures var r := ReconcileSC(net, cfg, ceph, id);
      SCCall(ceph.name, net, r.0)
  {
    hide Only, WellFormed, RecreateStorageClass, SendCreateSC, SCDiff, Parameters;
    OnlyRefl(ceph.name, net);
    SendSCFrame(net, ConfigureStorageClass(ceph, cfg, id));
    if ceph.name in net.db.scs {
      RecreateSCFrame(net, ceph.name, UpdateStorageClass(ceph, net.db.scs[ceph.name], cfg, id));
    }
  }

  lemma ReconcileVSCFrame(net: Net, cfg: Config, ceph: CephStorageClass, id: string)
    requires WellFormed(net.db)
    ensures var r := ReconcileVSC(net, cfg, ceph, id);
      VSCCall(ceph.name, net, r.0)
  {
    hide Only, WellFormed, SendCreateVSC, SendUpdateVSC, SnapshotParameters;
    OnlyRefl(ceph.name, net);
    SendVSCFrame(net, ConfigureSnapshotClass(None, ceph, cfg, id));
    if ceph.name in net.db.vscs {
      SendVSCFrame(net, ConfigureSnapshotClass(Some(net.db.vscs[ceph.name]), ceph, cfg, id));
    }
  }

  lemma FinalizerFrame(net: Net, ceph: CephStorageClass)
    requires WellFormed(net.db)
    ensures Only(ceph.name, net, AddFinalizer(net, ceph).0) && Only(ceph.name, net, DropFinalizer(net, ceph).0)
    ensures KeepsSC(net, AddFinalizer(net, ceph).0) && KeepsVSC(net, AddFinalizer(net, ceph).0)
    ensures KeepsSC(net, DropFinalizer(net, ceph).0) && KeepsVSC(net, DropFinalizer(net, ceph).0)
  {
    hide Only, SendUpdateCeph, WellFormed;
    OnlyRefl(ceph.name, net);
    SendCephFrame(net, ceph.(finalizers := ceph.finalizers + [FINALIZER]));
    SendCephFrame(net, ceph.(finalizers := RemoveFirst(ceph.finalizers, FINALIZER)));
  }

  lemma SendCephFrame(net: Net, ceph: CephStorageClass)
    requires WellFormed(net.db)
    ensures var r := SendUpdateCeph(net, ceph); Only(ceph.name, net, r.0) && KeepsSC(net, r.0) && KeepsVSC(net, r.0)
  {
    hide Only, Send, DiffersIn, WellFormed;
    PutCephFrame(net.db, ceph);
    SendFrame(ceph.name, net, UpdateCeph(ceph.name), if ceph.name !in net.db.cephs then NotFound else NoError, PutCeph(net.db, ceph));
  }

  lemma PutCephFrame(s: Store, ceph: CephStorageClass)
    requires WellFormed(s)
    ensures WellFormed(PutCeph(s, ceph)) && DiffersIn(ceph.name, s, PutCeph(s, ceph))
    ensures PutCeph(s, ceph).scs == s.scs && PutCeph(s, ceph).vscs == s.vscs
  {
  }

  lemma TeardownVSCFrame(net: Net, n: string)
    requires WellFormed(net.db)
    ensures var r := TeardownVSC(net, n);
      && VSCCall(n, net, r.0)
      && (r.1 == NoError && n in r.0.db.vscs ==> r.0.db.vscs[n].terminating || !AllowedProvisioner(r.0.db.vscs[n].driver))
      && (n in r.0.db.vscs ==> n in net.db.vscs && FadingVSC(net.db.vscs[n], r.0.db.vscs[n]))
  {
    hide Only, SendDeleteVSC, SendUpdateVSC, FadingVSC, RemoveFirst;
    OnlyRefl(n, net);
    FadingVSCRefl(net.db, n);
    if n in net.db.vscs {
      DroppedVSCFrame(net, n);
      StrippedVSCFrame(net, n);
      var vsc := net.db.vscs[n];
      var (net', err) := SendUpdateVSC(net, vsc.(finalizers := RemoveFirst(vsc.finalizers, FINALIZER)));
      OnlyWellFormed(n, net, net');
      DroppedVSCFrame(net', n);
      OnlyTrans(n, net, net', SendDeleteVSC(net', n).0);
      FadingVSCTrans(net.db, net'.db, SendDeleteVSC(net', n).0.db, n);
    }
  }

  lemma FadingVSCRefl(s: Store, n: string)
    ensures n in s.vscs ==> FadingVSC(s.vscs[n], s.vscs[n])
  {
  }

  lemma FadingVSCTrans(a: Store, b: Store, c: Store, n: string)
    requires n in b.vscs ==> n in a.vscs && FadingVSC(a.vscs[n], b.vscs[n])
    requires n in c.vscs ==> n in b.vscs && FadingVSC(b.vscs[n], c.vscs[n])
    ensures n in c.vscs ==> n in a.vscs && FadingVSC(a.vscs[n], c.vscs[n])
  {
  }

  /** The strip of a teardown. */
  lemma StrippedVSCFrame(net: Net, n: string)
    requires WellFormed(net.db) && n in net.db.vscs
    ensures var vsc := net.db.vscs[n];
      var t := SendUpdateVSC(net, vsc.(finalizers := RemoveFirst(vsc.finalizers, FINALIZER))).0;
      VSCCall(n, net, t) && (n in t.db.vscs ==> FadingVSC(vsc, t.db.vscs[n]))
  {
    hide Only, AddsFinalizer, RemoveFirst, WellFormed;
    SCNames(net.db, n);
    var vsc := net.db.vscs[n];
    SendVSCFrame(net, vsc.(finalizers := RemoveFirst(vsc.finalizers, FINALIZER)));
  }

  lemma SCNames(s: Store, n: string)
    requires WellFormed(s)
    ensures n in s.scs ==> s.scs[n].name == n
    ensures n in s.vscs ==> s.vscs[n].name == n
  {
  }

  /** Its delete. */
  lemma DroppedVSCFrame(net: Net, n: string)
    requires WellFormed(net.db)
    ensures var r := SendDeleteVSC(net, n);
      && VSCCall(n, net, r.0)
      && (r.1 == NoError && n in r.0.db.vscs ==> r.0.db.vscs[n].terminating)
      && (n in r.0.db.vscs ==> n in net.db.vscs && FadingVSC(net.db.vscs[n], r.0.db.vscs[n]))
  {
    hide Only, SendDeleteVSC, WellFormed;
    SendVSCFrame(net, SnapshotClass(n, map[], None, [], false, "", "", map[]));
  }

  lemma TeardownSCFrame(net: Net, n: string)
    requires WellFormed(net.db)
    ensures var r := TeardownSC(net, n);
      && SCCall(n, net, r.0)
      && (r.1 == NoError && n in r.0.db.scs ==> r.0.db.scs[n].terminating || !AllowedProvisioner(r.0.db.scs[n].provisioner))
      && (n in r.0.db.scs ==> n in net.db.scs && Fading(net.db.scs[n], r.0.db.scs[n]))
  {
    hide Only, DeleteStorageClass;
    OnlyRefl(n, net);
    if n in net.db.scs {
      DeleteSCFrame(net, n);
    }
  }

  lemma RunLiveFrame(net: Net, cfg: Config, ceph: CephStorageClass)
    requires WellFormed(net.db) && !ceph.terminating
    ensures Only(ceph.name, net, RunLive(net, cfg, ceph).net)
  {
    hide Text, Complaints, WellFormed, ReconcileSC, ReconcileVSC, Only;
    OnlyRefl(ceph.name, net);
    if ValidSpec(ceph.spec) {
      var (net1, err1) := AddFinalizer(net, ceph);
      FinalizerFrame(net, ceph);
      var (net2, err2, id) := GetClusterID(net1, ceph.spec);
      ReadFrame(ceph.name, net, net1, net2);
      ReconcileSCFrame(net2, cfg, ceph, id);
      var net3 := ReconcileSC(net2, cfg, ceph, id).0;
      OnlyTrans(ceph.name, net, net2, net3);
      ReconcileVSCFrame(net3, cfg, ceph, id);
      OnlyTrans(ceph.name, net, net3, ReconcileVSC(net3, cfg, ceph, id).0);
    }
  }

  lemma RunDeletingFrame(net: Net, cfg: Config, ceph: CephStorageClass)
    requires WellFormed(net.db)
    ensures Only(ceph.name, net, RunDeleting(net, cfg, ceph).net)
  {
    hide WellFormed, Only, TeardownSC, TeardownVSC, DropFinalizer;
    var n := ceph.name;
    TeardownSCFrame(net, n);
    var net1 := TeardownSC(net, n).0;
    OnlyWellFormed(n, net, net1);
    TeardownVSCFrame(net1, n);
    var net2 := if cfg.snapshots then TeardownVSC(net1, n).0 else net1;
    OnlyRefl(n, net1);
    OnlyTrans(n, net, net1, net2);
    OnlyWellFormed(n, net, net2);
    FinalizerFrame(net2, ceph);
    OnlyTrans(n, net, net2, DropFinalizer(net2, ceph).0);
  }

  lemma StatusEffectFrame(s: Store, n: string, status: Status)
    requires WellFormed(s) && n in s.cephs
    ensures var t := s.(cephs := s.cephs[n := s.cephs[n].(status := Some(status))]); WellFormed(t) && DiffersIn(n, s, t)
  {
  }

  lemma UpdateStatusFrame(net: Net, ceph: CephStorageClass, err: Error, text: string, msg: string)
    requires WellFormed(net.db)
    ensures var r := UpdateStatus(net, ceph, err, text, msg).0;
      && Only(ceph.name, net, r) && KeepsSC(net, r) && KeepsVSC(net, r)
      && (ceph.name in r.db.cephs <==> ceph.name in net.db.cephs)
      && (ceph.name in net.db.cephs ==>
        r.db.cephs[ceph.name].(status := net.db.cephs[ceph.name].status) == net.db.cephs[ceph.name])
  {
    hide Only, Send, DiffersIn, WellFormed, NewStatus;
    var n := ceph.name;
    OnlyRefl(n, net);
    var net' := Read(net).0;
    ReadFrame(n, net, net, net');
    if n in net'.db.cephs {
      var latest := net'.db.cephs[n];
      var status := NewStatus(latest.status, ceph.generation, err, text, msg);
      var effect := net'.db.(cephs := net'.db.cephs[n := latest.(status := Some(status))]);
      StatusEffectFrame(net'.db, n, status);
      SendFrame(n, net', WriteStatus(n), NoError, effect);
      OnlyTrans(n, net, net', Send(net', WriteStatus(n), NoError, effect).0);
    }
  }

  /** A pass for name n writes nothing but objects called n, however its calls fail. */
  lemma PassFrame(net: Net, cfg: Config, n: string)
    requires WellFormed(net.db)
    ensures Only(n, net, Pass(net, cfg, n).net)
  {
    hide Only, WellFormed, RunLive, RunDeleting, UpdateStatus;
    OnlyRefl(n, net);
    var net1 := Read(net).0;
    ReadFrame(n, net, net, net1);
    if n in net1.db.cephs {
      var ceph := net1.db.cephs[n];
      CephName(net1.db, n);
      var net2 := Lists(net1, cfg).0;
      ReadFrame(n, net, net1, net2);
      RunDeletingFrame(net2, cfg, ceph);
      if !ceph.terminating {
        RunLiveFrame(net2, cfg, ceph);
      }
      var r := Run(net2, cfg, ceph);
      OnlyTrans(n, net, net2, r.net);
      OnlyWellFormed(n, net, r.net);
      UpdateStatusFrame(r.net, ceph, r.err, r.text, r.msg);
      OnlyTrans(n, net, r.net, UpdateStatus(r.net, ceph, r.err, r.text, r.msg).0);
    }
  }

  lemma CephName(s: Store, n: string)
    requires WellFormed(s) && n in s.cephs
    ensures s.cephs[n].name == n
  {
  }

  lemma OnlyRefl(n: string, net: Net)
    requires WellFormed(net.db)
    ensures Only(n, net, net)
  {
  }

  lemma ReadFrame(n: string, a: Net, b: Net, c: Net)
    requires Only(n, a, b) && c.db == b.db && c.sent == b.sent
    ensures Only(n, a, c) && WellFormed(c.db) && WellFormed(b.db)
  {
  }

  // ---- Foreign classes ----

  lemma LiveSkipsForeign(net: Net, cfg: Config, ceph: CephStorageClass)
    requires WellFormed(net.db) && ceph.name in net.db.scs && !AllowedProvisioner(net.db.scs[ceph.name].provisioner)
    ensures KeepsSC(net, RunLive(net, cfg, ceph).net)
  {
    hide Text, Complaints, Only, ReconcileVSC, AddFinalizer, SCDiff, UpdateStorageClass, WellFormed, ConfigureStorageClass,
      RecreateStorageClass, SendCreateSC, ValidSpec, AllowedProvisioner;
    FinalizerFrame(net, ceph);
  }

  lemma DeletingSkipsForeign(net: Net, cfg: Config, ceph: CephStorageClass)
    requires WellFormed(net.db) && ceph.name in net.db.scs && !AllowedProvisioner(net.db.scs[ceph.name].provisioner)
    ensures KeepsSC(net, RunDeleting(net, cfg, ceph).net)
  {
    hide Only, TeardownVSC, DropFinalizer, WellFormed;
    TeardownVSCFrame(net, ceph.name);
    var net2 := TeardownVSC(net, ceph.name).0;
    OnlyWellFormed(ceph.name, net, net2);
    FinalizerFrame(net, ceph);
    FinalizerFrame(net2, ceph);
  }

  /** A StorageClass of another provisioner is never written or deleted, whatever happens. */
  lemma ForeignIsLeftAlone(net: Net, cfg: Config, n: string)
    requires WellFormed(net.db) && n in net.db.scs && !AllowedProvisioner(net.db.scs[n].provisioner)
    ensures NoSCWrites(net, Pass(net, cfg, n).net) && Pass(net, cfg, n).net.db.scs == net.db.scs
  {
    hide Only, RunLive, RunDeleting, UpdateStatus, WellFormed;
    var net1 := Read(net).0;
    if n in net1.db.cephs {
      var ceph := net1.db.cephs[n];
      CephName(net1.db, n);
      var net2 := Lists(net1, cfg).0;
      var r := Run(net2, cfg, ceph);
      LiveSkipsForeign(net2, cfg, ceph);
      DeletingSkipsForeign(net2, cfg, ceph);
      RunFrame(net2, cfg, ceph);
      UpdateStatusFrame(r.net, ceph, r.err, r.text, r.msg);
    }
  }

  lemma RunFrame(net: Net, cfg: Config, ceph: CephStorageClass)
    requires WellFormed(net.db)
    ensures Only(ceph.name, net, Run(net, cfg, ceph).net) && WellFormed(Run(net, cfg, ceph).net.db)
  {
    RunDeletingFrame(net, cfg, ceph);
    if !ceph.terminating {
      RunLiveFrame(net, cfg, ceph);
    }
  }

  // ---- No orphans ----

  predicate Owned(sc: StorageClass) {
    AllowedProvisioner(sc.provisioner) && Lookup(sc.labels, MANAGED_LABEL) == CONTROLLER_NAME
  }

  predicate OwnedVSC(vsc: SnapshotClass) {
    AllowedProvisioner(vsc.driver) && Lookup(vsc.labels, MANAGED_LABEL) == VSC_MANAGED_VALUE
  }

  /** The CephStorageClass is there and carries the controller's finalizer. */
  predicate Held(s: Store, n: string) {
    n in s.cephs && FINALIZER in s.cephs[n].finalizers
  }

  predicate NoOrphan(s: Store, cfg: Config, n: string) {
    && (n in s.scs && Owned(s.scs[n]) && !s.scs[n].terminating ==> Held(s, n))
    && (cfg.snapshots && n in s.vscs && OwnedVSC(s.vscs[n]) && !s.vscs[n].terminating ==> Held(s, n))
  }

  lemma LiveLeavesNoOrphan(net: Net, cfg: Config, ceph: CephStorageClass)
    requires WellFormed(net.db) && NoOrphan(net.db, cfg, ceph.name) && !ceph.terminating
    requires ceph.name in net.db.cephs && net.db.cephs[ceph.name] == ceph
    ensures NoOrphan(RunLive(net, cfg, ceph).net.db, cfg, ceph.name)
  {
    hide Text, Complaints, Only, ReconcileSC, ReconcileVSC, Owned, OwnedVSC, WellFormed;
    var n := ceph.name;
    if ValidSpec(ceph.spec) {
      var (net1, err1) := AddFinalizer(net, ceph);
      FinalizerFrame(net, ceph);
      if err1 == NoError {
        assert Held(net1.db, n);
        var (net2, err2, id) := GetClusterID(net1, ceph.spec);
        OnlyWellFormed(n, net, net1);
        ReconcileSCFrame(net2, cfg, ceph, id);
        var net3 := ReconcileSC(net2, cfg, ceph, id).0;
        OnlyWellFormed(n, net2, net3);
        ReconcileVSCFrame(net3, cfg, ceph, id);
        assert Held(RunLive(net, cfg, ceph).net.db, n);
      }
    }
  }

  lemma DeletingLeavesNoOrphan(net: Net, cfg: Config, ceph: CephStorageClass)
    requires WellFormed(net.db) && NoOrphan(net.db, cfg, ceph.name)
    ensures NoOrphan(RunDeleting(net, cfg, ceph).net.db, cfg, ceph.name)
  {
    hide Only, TeardownSC, TeardownVSC, DropFinalizer, WellFormed;
    var n := ceph.name;
    TeardownSCFrame(net, n);
    var net1 := TeardownSC(net, n).0;
    OnlyWellFormed(n, net, net1);
    TeardownVSCFrame(net1, n);
    var net2 := if cfg.snapshots then TeardownVSC(net1, n).0 else net1;
    OnlyRefl(n, net1);
    OnlyWellFormed(n, net1, net2);
    FinalizerFrame(net2, ceph);
    assert NoOrphan(net1.db, cfg, n);
    assert NoOrphan(net2.db, cfg, n);
  }

  /** With failures at any call, a live class made by the controller has its CephStorageClass,
      which carries the finalizer: after any pass if before it. */
  lemma PassLeavesNoOrphan(net: Net, cfg: Config, n: string)
    requires WellFormed(net.db) && NoOrphan(net.db, cfg, n)
    ensures NoOrphan(Pass(net, cfg, n).net.db, cfg, n)
  {
    hide RunLive, RunDeleting, UpdateStatus, Only, Owned, OwnedVSC, WellFormed;
    var net1 := Read(net).0;
    if n in net1.db.cephs {
      var ceph := net1.db.cephs[n];
      CephName(net1.db, n);
      var net2 := Lists(net1, cfg).0;
      if ceph.terminating {
        DeletingLeavesNoOrphan(net2, cfg, ceph);
      } else {
        LiveLeavesNoOrphan(net2, cfg, ceph);
      }
      var r := Run(net2, cfg, ceph);
      RunFrame(net2, cfg, ceph);
      UpdateStatusFrame(r.net, ceph, r.err, r.text, r.msg);
    }
  }

  // ---- Ready means ready ----

  /** The StorageClass is there and, field by field, what the CephStorageClass asks for. */
  predicate SCInPlace(s: Store, cfg: Config, ceph: CephStorageClass) {
    && ValidSpec(ceph.spec)
    && ceph.spec.connection in s.clusterIDs && s.clusterIDs[ceph.spec.connection] != ""
    && ceph.name in s.scs && Wanted(s.scs[ceph.name], ceph, cfg, s.clusterIDs[ceph.spec.connection])
  }

  predicate VSCInPlace(s: Store, cfg: Config, ceph: CephStorageClass) {
    && ceph.spec.connection in s.clusterIDs && ceph.name in s.vscs
    && WantedSnapshots(s.vscs[ceph.name], ceph.spec, cfg, s.clusterIDs[ceph.spec.connection])
  }

  predicate InPlace(s: Store, cfg: Config, ceph: CephStorageClass) {
    SCInPlace(s, cfg, ceph) && (cfg.snapshots ==> VSCInPlace(s, cfg, ceph))
  }

  /** The annotations of the StorageClass are those it had; one that had none, or was not there, gets
      the annotation that names its snapshot class. */
  predicate Annotated(prev: Option<StorageClass>, sc: StorageClass) {
    sc.annotations == if prev.Some? && prev.value.annotations.Some? then prev.value.annotations
                      else Some(map["storage.deckhouse.io/volumesnapshotclass" := sc.name])
  }

  function Stored<T>(m: map<string, T>, n: string): Option<T> {
    if n in m then Some(m[n]) else None
  }

  lemma ConfiguredIsWanted(ceph: CephStorageClass, prev: Option<StorageClass>, cfg: Config, id: string)
    requires ValidSpec(ceph.spec)
    ensures var sc := if prev.Some? then UpdateStorageClass(ceph, prev.value, cfg, id) else ConfigureStorageClass(ceph, cfg, id);
      Wanted(sc, ceph, cfg, id) && Annotated(prev, sc) && sc.name == ceph.name && !sc.terminating && sc.topologies == []
  {
    hide Parameters, FilterLabels, WantedParameters, WantedLabels;
    var sc := if prev.Some? then UpdateStorageClass(ceph, prev.value, cfg, id) else ConfigureStorageClass(ceph, cfg, id);
    ParametersDecide(sc.parameters, ceph.spec, cfg, id);
    LabelsDecide(sc.labels, ceph.labels, cfg);
  }

  lemma ReconcileSCPuts(net: Net, cfg: Config, ceph: CephStorageClass, id: string)
    requires WellFormed(net.db) && ValidSpec(ceph.spec)
    ensures var r := ReconcileSC(net, cfg, ceph, id);
      r.1 == NoError ==>
        && ceph.name in r.0.db.scs && Wanted(r.0.db.scs[ceph.name], ceph, cfg, id)
        && Annotated(Stored(net.db.scs, ceph.name), r.0.db.scs[ceph.name])
  {
    hide DeleteStorageClass, SCDiff, Wanted, Parameters, FilterLabels;
    if ceph.name in net.db.scs {
      DiffDecides(net.db.scs[ceph.name], ceph, cfg, id);
      WantedIsAnnotated(net.db.scs[ceph.name], ceph, cfg, id);
      ConfiguredIsWanted(ceph, Some(net.db.scs[ceph.name]), cfg, id);
    } else {
      ConfiguredIsWanted(ceph, None, cfg, id);
    }
  }

  lemma WantedIsAnnotated(sc: StorageClass, ceph: CephStorageClass, cfg: Config, id: string)
    requires ValidSpec(ceph.spec)
    ensures Wanted(sc, ceph, cfg, id) ==> Annotated(Some(sc), sc)
  {
    hide WantedParameters, WantedLabels;
  }

  /** Afterwards the snapshot class is as wanted; one that was not is made so. */
  lemma ReconcileVSCPuts(net: Net, cfg: Config, ceph: CephStorageClass, id: string)
    requires WellFormed(net.db) && ValidSpec(ceph.spec)
    ensures var r := ReconcileVSC(net, cfg, ceph, id); var prev := Stored(net.db.vscs, ceph.name);
      r.1 == NoError ==>
        && ceph.name in r.0.db.vscs && WantedSnapshots(r.0.db.vscs[ceph.name], ceph.spec, cfg, id)
        && if prev.Some? && WantedSnapshots(prev.value, ceph.spec, cfg, id) then r.0.db.vscs[ceph.name] == prev.value
           else MadeSnapshots(r.0.db.vscs[ceph.name], prev, ceph)
  {
    hide ConfigureSnapshotClass, SameSnapshotClass, AddsFinalizer;
    var prev := Stored(net.db.vscs, ceph.name);
    SnapshotsAreMade(prev, ceph, cfg, id);
    if prev.Some? {
      SnapshotsDecide(prev.value, ceph, cfg, id);
    }
    hide WantedSnapshots;
  }

  /** What a run without error leaves: both classes as wanted, and what it wrote of annotations and of
      the snapshot class. */
  lemma LiveSuccessIsInPlace(net: Net, cfg: Config, ceph: CephStorageClass)
    requires WellFormed(net.db) && !ceph.terminating
    ensures var t := RunLive(net, cfg, ceph).net.db;
      RunLive(net, cfg, ceph).err == NoError ==>
        && InPlace(t, cfg, ceph)
        && Annotated(Stored(net.db.scs, ceph.name), t.scs[ceph.name])
        && (cfg.snapshots ==>
              if VSCInPlace(net.db, cfg, ceph) then t.vscs[ceph.name] == net.db.vscs[ceph.name]
              else MadeSnapshots(t.vscs[ceph.name], Stored(net.db.vscs, ceph.name), ceph))
  {
    hide Text, Complaints, Only, ReconcileSC, ReconcileVSC, WellFormed, Wanted, WantedSnapshots, MadeSnapshots, Annotated;
    if ValidSpec(ceph.spec) {
      var n := ceph.name;
      var (net1, err1) := AddFinalizer(net, ceph);
      FinalizerFrame(net, ceph);
      OnlyWellFormed(n, net, net1);
      var (net2, err2, id) := GetClusterID(net1, ceph.spec);
      ReconcileSCFrame(net2, cfg, ceph, id);
      ReconcileSCPuts(net2, cfg, ceph, id);
      var net3 := ReconcileSC(net2, cfg, ceph, id).0;
      OnlyWellFormed(n, net2, net3);
      OnlySameIDs(n, net2, net3);
      ReconcileVSCFrame(net3, cfg, ceph, id);
      ReconcileVSCPuts(net3, cfg, ceph, id);
      OnlySameIDs(n, net3, ReconcileVSC(net3, cfg, ceph, id).0);
    }
  }

  lemma OnlySameIDs(n: string, a: Net, b: Net)
    requires Only(n, a, b)
    ensures b.db.clusterIDs == a.db.clusterIDs
  {
  }

  lemma InPlaceFrame(s: Store, t: Store, cfg: Config, ceph: CephStorageClass)
    requires InPlace(s, cfg, ceph) && t.scs == s.scs && t.vscs == s.vscs && t.clusterIDs == s.clusterIDs
    ensures InPlace(t, cfg, ceph)
  {
  }

  /** Ready=True is sound: if the status of a live object changes during a pass (also if the
      reply of the write is lost), then Ready is True and the phase Created only if both classes
      are as the reconciled spec asks for; the status is about the reconciled generation, and
      carries the text of the pass's error and what it said. */
  lemma ReadyIsSound(net: Net, cfg: Config, n: string)
    requires WellFormed(net.db) && n in net.db.cephs && !net.db.cephs[n].terminating
    ensures var o := Pass(net, cfg, n); var ceph := net.db.cephs[n]; var run := Run(Lists(Read(net).0, cfg).0, cfg, ceph);
      && (o.Done? && o.err == NoError ==> InPlace(o.net.db, cfg, ceph))
      && (run.text == "" <==> run.err == NoError)
      && (n in o.net.db.cephs && o.net.db.cephs[n].status != ceph.status ==>
        && o.Done? && o.err == run.err
        && o.net.db.cephs[n].status == Some(NewStatus(ceph.status, ceph.generation, run.err, run.text, run.msg)))
  {
    hide RunLive, Only, WellFormed, InPlace, NewStatus;
    var ceph := net.db.cephs[n];
    var net1 := Read(net).0;
    CephName(net1.db, n);
    var net2 := Lists(net1, cfg).0;
    LiveSuccessIsInPlace(net2, cfg, ceph);
    var r := Run(net2, cfg, ceph);
    RunFrame(net2, cfg, ceph);
    RunKeepsStatus(net2, cfg, ceph);
    RunSpeaks(net2, cfg, ceph);
    UpdateStatusFrame(r.net, ceph, r.err, r.text, r.msg);
    var u := UpdateStatus(r.net, ceph, r.err, r.text, r.msg).0;
    if r.err == NoError {
      OnlySameIDs(n, r.net, u);
      InPlaceFrame(r.net.db, u.db, cfg, ceph);
    }
  }

  /** A pass has an error text exactly if it has an error; and if it succeeds it says that it
      reconciled exactly if it wrote no StorageClass. */
  lemma RunSpeaks(net: Net, cfg: Config, ceph: CephStorageClass)
    requires WellFormed(net.db) && !ceph.terminating
    ensures var r := RunLive(net, cfg, ceph);
      && (r.text == "" <==> r.err == NoError)
      && (r.err == NoError ==> (r.msg == SAYS_RECONCILED <==> NoSCWrites(net, r.net)))
  {
    hide Only, ReconcileSC, ReconcileVSC, WellFormed, AddFinalizer, Complaints, CodeName, NoSCWrites;
    if ValidSpec(ceph.spec) {
      var n := ceph.name;
      var (net1, err1) := AddFinalizer(net, ceph);
      FinalizerFrame(net, ceph);
      OnlyWellFormed(n, net, net1);
      var (net2, err2, id) := GetClusterID(net1, ceph.spec);
      ReconcileSCFrame(net2, cfg, ceph, id);
      ReconcileSCSpeaks(net2, cfg, ceph, id);
      var net3 := ReconcileSC(net2, cfg, ceph, id).0;
      OnlyWellFormed(n, net2, net3);
      ReconcileVSCFrame(net3, cfg, ceph, id);
      var net4 := if cfg.snapshots then ReconcileVSC(net3, cfg, ceph, id).0 else net3;
      NoWritesRefl(net3);
      SentByOnly(n, net2, net3);
      StillNoSCWrites(net, net1, net2, net3, net4);
    }
  }

  lemma NoWritesRefl(net: Net)
    ensures NoSCWrites(net, net)
  {
  }

  lemma SentByOnly(n: string, a: Net, b: Net)
    requires Only(n, a, b)
    ensures a.sent <= b.sent
  {
  }

  lemma StillNoSCWrites(a: Net, a': Net, b: Net, c: Net, d: Net)
    requires NoSCWrites(a, a') && a'.sent == b.sent && b.sent <= c.sent && NoSCWrites(c, d)
    ensures NoSCWrites(a, d) <==> NoSCWrites(b, c)
  {
    if NoSCWrites(a, d) {
      forall i | |b.sent| <= i < |c.sent| ensures !IsSCWrite(c.sent[i]) {
        assert c.sent[i] == d.sent[i];
      }
    }
    if NoSCWrites(b, c) {
      forall i | |a.sent| <= i < |d.sent| ensures !IsSCWrite(d.sent[i]) {
      }
    }
  }

  lemma ReconcileSCSpeaks(net: Net, cfg: Config, ceph: CephStorageClass, id: string)
    requires WellFormed(net.db) && ValidSpec(ceph.spec)
    ensures var r := ReconcileSC(net, cfg, ceph, id);
      r.1 == NoError ==> (r.2 == SAYS_RECONCILED <==> NoSCWrites(net, r.0))
  {
    hide SCDiff, UpdateStorageClass, ConfigureStorageClass, ShouldRetryFailed, WellFormed;
    CreateSends(net, ConfigureStorageClass(ceph, cfg, id));
    if ceph.name in net.db.scs {
      RecreateSends(net, net.db.scs[ceph.name], UpdateStorageClass(ceph, net.db.scs[ceph.name], cfg, id));
    }
    SaysDiffer();
  }

  lemma SaysDiffer()
    ensures SAYS_CREATED != SAYS_RECONCILED && SAYS_UPDATED != SAYS_RECONCILED
  {
    assert SAYS_CREATED[13] != SAYS_RECONCILED[13];
    assert SAYS_UPDATED[13] != SAYS_RECONCILED[13];
  }

  /** Creating after a delete is a write. */
  lemma RecreateSends(net: Net, sc: StorageClass, new_: StorageClass)
    ensures var r := RecreateStorageClass(net, sc, new_); r.1 == NoError ==> !NoSCWrites(net, r.0)
  {
    hide DeleteStorageClass;
    var (net', err) := DeleteStorageClass(net, sc);
    DeleteAppends(net, sc);
    CreateSends(net', new_);
    if err == NoError {
      var r := SendCreateSC(net', new_);
      assert r.0.sent[|net'.sent|] == CreateSC(new_.name);
    }
  }

  lemma CreateSends(net: Net, sc: StorageClass)
    ensures var r := SendCreateSC(net, sc).0; r.sent == net.sent + [CreateSC(sc.name)] && !NoSCWrites(net, r)
  {
    var r := SendCreateSC(net, sc).0;
    assert r.sent[|net.sent|] == CreateSC(sc.name);
  }

  lemma DeleteAppends(net: Net, sc: StorageClass)
    ensures net.sent <= DeleteStorageClass(net, sc).0.sent
  {
  }

  lemma AddedFinalizer(net: Net, ceph: CephStorageClass)
    requires ceph.name in net.db.cephs && net.db.cephs[ceph.name] == ceph && !ceph.terminating
    ensures var r := AddFinalizer(net, ceph);
      && ceph.name in r.0.db.cephs && r.0.db.cephs[ceph.name].(finalizers := ceph.finalizers) == ceph
      && (r.1 == NoError ==> FINALIZER in r.0.db.cephs[ceph.name].finalizers)
      && (FINALIZER in ceph.finalizers ==> r == (net, NoError))
  {
  }

  lemma ClassesKeepCeph(net: Net, cfg: Config, ceph: CephStorageClass, id: string)
    requires WellFormed(net.db) && ValidSpec(ceph.spec)
    ensures var net3 := ReconcileSC(net, cfg, ceph, id).0;
      net3.db.cephs == net.db.cephs && ReconcileVSC(net3, cfg, ceph, id).0.db.cephs == net.db.cephs
  {
    hide ReconcileSC, ReconcileVSC, Only, WellFormed, KeepsSC, KeepsVSC;
    ReconcileSCFrame(net, cfg, ceph, id);
    var net3 := ReconcileSC(net, cfg, ceph, id).0;
    OnlyWellFormed(ceph.name, net, net3);
    ReconcileVSCFrame(net3, cfg, ceph, id);
  }

  /** The steps before the status write leave the status as it is. */
  lemma RunKeepsStatus(net: Net, cfg: Config, ceph: CephStorageClass)
    requires WellFormed(net.db) && !ceph.terminating
    requires ceph.name in net.db.cephs && net.db.cephs[ceph.name] == ceph
    ensures var t := RunLive(net, cfg, ceph).net.db;
      ceph.name in t.cephs && t.cephs[ceph.name].(finalizers := ceph.finalizers) == ceph
  {
    hide ValidSpec, Text, Complaints, Only, ReconcileSC, ReconcileVSC, WellFormed, AddFinalizer, KeepsSC, KeepsVSC;
    if ValidSpec(ceph.spec) {
      var (net1, err1) := AddFinalizer(net, ceph);
      FinalizerFrame(net, ceph);
      AddedFinalizer(net, ceph);
      OnlyWellFormed(ceph.name, net, net1);
      var (net2, err2, id) := GetClusterID(net1, ceph.spec);
      ClassesKeepCeph(net2, cfg, ceph, id);
    }
  }
}
