/** When the deletion of a CephStorageClass ends: what a pass over it that succeeds has done, when an
    undisturbed one succeeds, and how many of them it takes after any failures. */
module StorageClassDeletion {
  import opened Calls
  import opened Finalizers
  import opened Kube
  import opened StorageClasses
  import opened StorageClassPass
  import opened StorageClassTheorems
  import opened StorageClassConvergence

  predicate Ending(s: Store, n: string) {
    n in s.cephs && s.cephs[n].terminating
  }

  /** The classes are gone, being deleted, or of another provisioner. */
  predicate Down(s: Store, cfg: Config, n: string) {
    && (n in s.scs ==> s.scs[n].terminating || !AllowedProvisioner(s.scs[n].provisioner))
    && (cfg.snapshots && n in s.vscs ==> s.vscs[n].terminating || !AllowedProvisioner(s.vscs[n].driver))
  }

  /** The classes are gone or being deleted. */
  predicate Gone(s: Store, cfg: Config, n: string) {
    && (n in s.scs ==> s.scs[n].terminating)
    && (cfg.snapshots && n in s.vscs ==> s.vscs[n].terminating)
  }

  /** A live class of another provisioner has the name. */
  predicate Occupied(s: Store, cfg: Config, n: string) {
    || (n in s.scs && !AllowedProvisioner(s.scs[n].provisioner) && !s.scs[n].terminating)
    || (cfg.snapshots && n in s.vscs && !AllowedProvisioner(s.vscs[n].driver) && !s.vscs[n].terminating)
  }

  /** A class that is being deleted and held by the controller's finalizer only: it goes with the
      finalizer, and the delete after that finds nothing. */
  predicate HalfGoneSC(s: Store, n: string) {
    n in s.scs && AllowedProvisioner(s.scs[n].provisioner) && s.scs[n].terminating && RemoveFirst(s.scs[n].finalizers, FINALIZER) == []
  }

  predicate HalfGoneVSC(s: Store, cfg: Config, n: string) {
    && cfg.snapshots && n in s.vscs && AllowedProvisioner(s.vscs[n].driver)
    && s.vscs[n].terminating && RemoveFirst(s.vscs[n].finalizers, FINALIZER) == []
  }

  // ---- What success means ----

  /** The pass has taken its finalizer, but for repetitions of it, and the classes are down. */
  predicate Released(s: Store, cfg: Config, ceph: CephStorageClass) {
    && (Held(s, ceph.name) <==> FINALIZER in RemoveFirst(ceph.finalizers, FINALIZER))
    && Down(s, cfg, ceph.name)
  }

  lemma DropReleases(net: Net, ceph: CephStorageClass)
    requires ceph.name in net.db.cephs && net.db.cephs[ceph.name] == ceph && ceph.terminating
    ensures var r := DropFinalizer(net, ceph);
      && (r.1 == NoError ==> (Held(r.0.db, ceph.name) <==> FINALIZER in RemoveFirst(ceph.finalizers, FINALIZER)))
      && (ceph.name in r.0.db.cephs ==>
            || r.0.db.cephs[ceph.name] == ceph
            || r.0.db.cephs[ceph.name] == ceph.(finalizers := RemoveFirst(ceph.finalizers, FINALIZER)))
      && (net.faults == [] ==> r.1 == NoError && r.0.faults == [])
  {
    hide Send;
    if FINALIZER !in ceph.finalizers {
      RemoveNothing(ceph.finalizers, FINALIZER);
    }
    var cut := ceph.(finalizers := RemoveFirst(ceph.finalizers, FINALIZER));
    SendMeans(net, UpdateCeph(ceph.name), NoError, PutCeph(net.db, cut));
  }

  lemma SendMeans(net: Net, write: Write, verdict: Error, effect: Store)
    ensures var r := Send(net, write, verdict, effect);
      && (r.1 == NoError ==> verdict == NoError && r.0.db == effect)
      && (r.0.db == net.db || (verdict == NoError && r.0.db == effect))
      && (net.faults == [] ==> r.0.faults == [] && r.1 == verdict)
  {
  }

  /** The two class steps leave the object alone. */
  lemma TeardownFrame(net: Net, cfg: Config, n: string)
    requires WellFormed(net.db)
    ensures var (net1, err1) := TeardownSC(net, n);
      var (net2, err2) := if cfg.snapshots then TeardownVSC(net1, n) else (net1, NoError);
      && WellFormed(net1.db) && WellFormed(net2.db) && net2.db.cephs == net.db.cephs && net2.db.scs == net1.db.scs
      && net1.db.vscs == net.db.vscs && net1.db.cephs == net.db.cephs
      && (err1 == NoError && err2 == NoError ==> Down(net2.db, cfg, n))
  {
    hide Only, TeardownSC, TeardownVSC, WellFormed, Fading, FadingVSC;
    TeardownSCFrame(net, n);
    var net1 := TeardownSC(net, n).0;
    OnlyWellFormed(n, net, net1);
    TeardownVSCFrame(net1, n);
    if cfg.snapshots {
      OnlyWellFormed(n, net1, TeardownVSC(net1, n).0);
    }
  }

  /** However its calls went: a deleting run that reports success has released the object, and one
      after which the object is gone has taken the classes down. */
  lemma RunReleases(net: Net, cfg: Config, ceph: CephStorageClass)
    requires WellFormed(net.db) && ceph.name in net.db.cephs && net.db.cephs[ceph.name] == ceph && ceph.terminating
    ensures var r := RunDeleting(net, cfg, ceph); var t := r.net.db;
      && (r.err == NoError ==> !r.requeue && Released(t, cfg, ceph))
      && (if ceph.name in t.cephs
          then t.cephs[ceph.name] == ceph || t.cephs[ceph.name] == ceph.(finalizers := RemoveFirst(ceph.finalizers, FINALIZER))
          else Down(t, cfg, ceph.name))
      && (r.err != NoError ==> r.requeue)
  {
    hide TeardownSC, TeardownVSC, DropFinalizer, WellFormed, RemoveFirst, Text, Held;
    var n := ceph.name;
    TeardownFrame(net, cfg, n);
    var net1 := TeardownSC(net, n).0;
    var net2 := if cfg.snapshots then TeardownVSC(net1, n).0 else net1;
    DropReleases(net2, ceph);
    DropKeepsClasses(net2, ceph);
  }

  lemma DropKeepsClasses(net: Net, ceph: CephStorageClass)
    ensures var t := DropFinalizer(net, ceph).0.db; t.scs == net.db.scs && t.vscs == net.db.vscs
  {
    hide RemoveFirst;
  }

  lemma StatusKeeps(net: Net, r: Result, ceph: CephStorageClass, cfg: Config)
    requires WellFormed(r.net.db)
    ensures var t := UpdateStatus(r.net, ceph, r.err, r.text, r.msg).0.db; var n := ceph.name;
      && t.scs == r.net.db.scs && t.vscs == r.net.db.vscs
      && (n in t.cephs <==> n in r.net.db.cephs)
      && (n in t.cephs ==> t.cephs[n].finalizers == r.net.db.cephs[n].finalizers && t.cephs[n].terminating == r.net.db.cephs[n].terminating)
  {
    hide UpdateStatus, Only, WellFormed;
    UpdateStatusFrame(r.net, ceph, r.err, r.text, r.msg);
  }

  /** However its calls went, a pass over an object being deleted that reports success and does not
      ask to come again has released it. Live classes are left exactly if they are of another
      provisioner: those are not touched. */
  lemma SuccessReleases(net: Net, cfg: Config, n: string)
    requires WellFormed(net.db) && Ending(net.db, n)
    ensures var o := Pass(net, cfg, n);
      o.Done? && o.err == NoError && !o.requeue ==>
        && Released(o.net.db, cfg, net.db.cephs[n])
        && (Gone(o.net.db, cfg, n) <==> !Occupied(net.db, cfg, n))
  {
    hide RunDeleting, WellFormed, UpdateStatus, Released, Gone, Occupied;
    var ceph := net.db.cephs[n];
    CephName(net.db, n);
    var start := Lists(Read(net).0, cfg).0;
    RunReleases(start, cfg, ceph);
    RunKeepsOccupied(start, cfg, ceph);
    hide RemoveFirst, Held;
    ReleasedGone(net.db, RunDeleting(start, cfg, ceph).net.db, cfg, ceph);
  }

  /** Which classes are foreign and live is as before. */
  lemma RunKeepsOccupied(net: Net, cfg: Config, ceph: CephStorageClass)
    requires WellFormed(net.db)
    ensures Occupied(RunDeleting(net, cfg, ceph).net.db, cfg, ceph.name) <==> Occupied(net.db, cfg, ceph.name)
  {
    hide TeardownSC, TeardownVSC, DropFinalizer, Only, WellFormed, Text;
    var n := ceph.name;
    TeardownFrame(net, cfg, n);
    TeardownSCFrame(net, n);
    ForeignStays(net, n);
    var net1 := TeardownSC(net, n).0;
    TeardownVSCFrame(net1, n);
    ForeignStays(net1, n);
    var net2 := if cfg.snapshots then TeardownVSC(net1, n).0 else net1;
    DropKeepsClasses(net2, ceph);
  }

  lemma ForeignStays(net: Net, n: string)
    ensures n in net.db.scs && !AllowedProvisioner(net.db.scs[n].provisioner) ==> TeardownSC(net, n) == (net, NoError)
    ensures n in net.db.vscs && !AllowedProvisioner(net.db.vscs[n].driver) ==> TeardownVSC(net, n) == (net, NoError)
  {
  }

  lemma ReleasedGone(s: Store, t: Store, cfg: Config, ceph: CephStorageClass)
    requires Occupied(t, cfg, ceph.name) <==> Occupied(s, cfg, ceph.name)
    ensures Released(t, cfg, ceph) ==> (Gone(t, cfg, ceph.name) <==> !Occupied(s, cfg, ceph.name))
  {
    hide Held, RemoveFirst;
  }

  // ---- When one undisturbed pass is enough ----

  lemma SmoothTeardownSC(net: Net, n: string)
    requires WellFormed(net.db) && net.faults == []
    ensures var r := TeardownSC(net, n);
      && r.0.faults == [] && (r.1 == NoError <==> !HalfGoneSC(net.db, n))
      && (HalfGoneSC(net.db, n) ==> n !in r.0.db.scs)
  {
    hide AllowedProvisioner;
    if n in net.db.scs && FINALIZER !in net.db.scs[n].finalizers {
      RemoveNothing(net.db.scs[n].finalizers, FINALIZER);
    }
  }

  lemma SmoothTeardownVSC(net: Net, n: string, cfg: Config)
    requires WellFormed(net.db) && net.faults == [] && cfg.snapshots
    ensures var r := TeardownVSC(net, n);
      && r.0.faults == [] && (r.1 == NoError <==> !HalfGoneVSC(net.db, cfg, n))
      && (HalfGoneVSC(net.db, cfg, n) ==> n !in r.0.db.vscs)
  {
    hide AllowedProvisioner, AddsFinalizer;
    if n in net.db.vscs {
      RemovedAddsNone(net.db.vscs[n].finalizers);
      if FINALIZER !in net.db.vscs[n].finalizers {
        RemoveNothing(net.db.vscs[n].finalizers, FINALIZER);
      }
    }
  }

  lemma {:induction false} RemovedAreThere(list: seq<string>)
    ensures forall f :: f in RemoveFirst(list, FINALIZER) ==> f in list
  {
    if list != [] {
      RemovedAreThere(list[1..]);
    }
  }

  lemma RemovedAddsNone(list: seq<string>)
    ensures !AddsFinalizer(list, RemoveFirst(list, FINALIZER))
  {
    RemovedAreThere(list);
  }

  lemma SmoothDeleting(net: Net, cfg: Config, ceph: CephStorageClass)
    requires WellFormed(net.db) && net.faults == []
    requires ceph.name in net.db.cephs && net.db.cephs[ceph.name] == ceph && ceph.terminating
    ensures var r := RunDeleting(net, cfg, ceph); var n := ceph.name;
      && (r.err == NoError <==> !HalfGoneSC(net.db, n) && !HalfGoneVSC(net.db, cfg, n))
      && (HalfGoneSC(net.db, n) ==> n !in r.net.db.scs && r.net.db.vscs == net.db.vscs)
      && (!HalfGoneSC(net.db, n) && HalfGoneVSC(net.db, cfg, n) ==>
            n !in r.net.db.vscs && r.net.db.scs == TeardownSC(net, n).0.db.scs)
      && r.err != Crashed
  {
    hide TeardownSC, TeardownVSC, DropFinalizer, WellFormed, RemoveFirst, Text, Held, HalfGoneSC;
    var n := ceph.name;
    TeardownFrame(net, cfg, n);
    SmoothTeardownSC(net, n);
    var net1 := TeardownSC(net, n).0;
    if cfg.snapshots {
      SmoothTeardownVSC(net1, n, cfg);
    }
    var net2 := if cfg.snapshots then TeardownVSC(net1, n).0 else net1;
    DropReleases(net2, ceph);
    TeardownNeverCrashes(net, n);
    TeardownNeverCrashes(net1, n);
  }

  lemma TeardownNeverCrashes(net: Net, n: string)
    ensures TeardownSC(net, n).1 != Crashed && TeardownVSC(net, n).1 != Crashed
  {
    hide RemoveFirst, AddsFinalizer;
  }

  /** An undisturbed pass over an object being deleted ends, and succeeds exactly if neither class is
      half gone; then it has released the object, and both classes are gone or being deleted
      exactly if no live class of another provisioner has the name. */
  lemma OnePassReleases(net: Net, cfg: Config, n: string)
    requires WellFormed(net.db) && Ending(net.db, n) && net.faults == []
    ensures var o := Pass(net, cfg, n); var easy := !HalfGoneSC(net.db, n) && !HalfGoneVSC(net.db, cfg, n);
      && o.Done? && (o.err == NoError && !o.requeue <==> easy)
      && (easy ==> Released(o.net.db, cfg, net.db.cephs[n]) && (Gone(o.net.db, cfg, n) <==> !Occupied(net.db, cfg, n)))
  {
    SuccessReleases(net, cfg, n);
    hide RunDeleting, WellFormed, UpdateStatus, Released, Gone, Occupied, HalfGoneSC, HalfGoneVSC;
    CephName(net.db, n);
    SmoothReads(net, cfg);
    SmoothDeleting(net, cfg, net.db.cephs[n]);
    RunReleases(net, cfg, net.db.cephs[n]);
  }

  // ---- After any failures ----

  /** No list of finalizers has the controller's twice. */
  predicate Once(s: Store, n: string) {
    && (n in s.scs ==> FINALIZER !in RemoveFirst(s.scs[n].finalizers, FINALIZER))
    && (n in s.vscs ==> FINALIZER !in RemoveFirst(s.vscs[n].finalizers, FINALIZER))
    && (n in s.cephs ==> FINALIZER !in RemoveFirst(s.cephs[n].finalizers, FINALIZER))
  }

  /** The object is being deleted, or gone after its classes went down. */
  predicate OnItsWay(s: Store, cfg: Config, n: string) {
    Once(s, n) && (Ending(s, n) || (n !in s.cephs && Down(s, cfg, n)))
  }

  /** Released, and nothing left that would make another pass fail. */
  predicate Finished(s: Store, cfg: Config, n: string) {
    !Held(s, n) && Down(s, cfg, n) && InTheWay(s, cfg, n) == 0
  }

  function InTheWay(s: Store, cfg: Config, n: string): nat {
    if Ending(s, n) then (if HalfGoneSC(s, n) then 1 else 0) + (if HalfGoneVSC(s, cfg, n) then 1 else 0) else 0
  }

  lemma OnceMore(list: seq<string>)
    requires FINALIZER !in RemoveFirst(list, FINALIZER)
    ensures FINALIZER !in RemoveFirst(RemoveFirst(list, FINALIZER), FINALIZER)
    ensures RemoveFirst(RemoveFirst(list, FINALIZER), FINALIZER) == RemoveFirst(list, FINALIZER)
  {
    RemoveNothing(RemoveFirst(list, FINALIZER), FINALIZER);
  }

  /** What a teardown leaves of the StorageClass: if it succeeds, no class that is half gone. */
  lemma TeardownSCOnce(net: Net, n: string)
    requires WellFormed(net.db) && (n in net.db.scs ==> FINALIZER !in RemoveFirst(net.db.scs[n].finalizers, FINALIZER))
    ensures var r := TeardownSC(net, n); var t := r.0.db;
      && (n in t.scs ==> FINALIZER !in RemoveFirst(t.scs[n].finalizers, FINALIZER))
      && (r.1 == NoError ==> !HalfGoneSC(t, n))
  {
    hide AllowedProvisioner, Send;
    if n in net.db.scs {
      var sc := net.db.scs[n];
      OnceMore(sc.finalizers);
      if FINALIZER !in sc.finalizers {
        RemoveNothing(sc.finalizers, FINALIZER);
      }
      hide RemoveFirst;
    }
  }

  lemma TeardownVSCOnce(net: Net, n: string)
    requires WellFormed(net.db) && (n in net.db.vscs ==> FINALIZER !in RemoveFirst(net.db.vscs[n].finalizers, FINALIZER))
    ensures var r := TeardownVSC(net, n); var t := r.0.db;
      && (n in t.vscs ==> FINALIZER !in RemoveFirst(t.vscs[n].finalizers, FINALIZER))
      && (r.1 == NoError ==> n in t.vscs && AllowedProvisioner(t.vscs[n].driver) && t.vscs[n].terminating ==>
            RemoveFirst(t.vscs[n].finalizers, FINALIZER) != [])
  {
    hide AllowedProvisioner, Send, AddsFinalizer;
    if n in net.db.vscs {
      var vsc := net.db.vscs[n];
      OnceMore(vsc.finalizers);
      if FINALIZER !in vsc.finalizers {
        RemoveNothing(vsc.finalizers, FINALIZER);
      }
      hide RemoveFirst;
    }
  }

  lemma RunKeepsOnce(net: Net, cfg: Config, ceph: CephStorageClass)
    requires WellFormed(net.db) && Once(net.db, ceph.name)
    requires ceph.name in net.db.cephs && net.db.cephs[ceph.name] == ceph && ceph.terminating
    ensures var r := RunDeleting(net, cfg, ceph);
      && Once(r.net.db, ceph.name)
      && (r.err == NoError ==> !HalfGoneSC(r.net.db, ceph.name) && !HalfGoneVSC(r.net.db, cfg, ceph.name))
  {
    hide TeardownSC, TeardownVSC, DropFinalizer, WellFormed, Text, Held, Released, Down, RemoveFirst;
    var n := ceph.name;
    RunReleases(net, cfg, ceph);
    OnceMore(ceph.finalizers);
    TeardownFrame(net, cfg, n);
    TeardownSCOnce(net, n);
    var net1 := TeardownSC(net, n).0;
    TeardownVSCOnce(net1, n);
    var net2 := if cfg.snapshots then TeardownVSC(net1, n).0 else net1;
    DropKeepsClasses(net2, ceph);
  }

  /** No pass, however its calls fail, leads astray. */
  lemma PassKeepsWay(net: Net, cfg: Config, n: string)
    requires WellFormed(net.db) && OnItsWay(net.db, cfg, n)
    ensures var t := Pass(net, cfg, n).net.db; WellFormed(t) && OnItsWay(t, cfg, n)
  {
    hide RunDeleting, WellFormed, UpdateStatus, Down, Only, RemoveFirst, Released;
    PassFrame(net, cfg, n);
    OnlyWellFormed(n, net, Pass(net, cfg, n).net);
    if Ending(net.db, n) {
      var ceph := net.db.cephs[n];
      CephName(net.db, n);
      var start := Lists(Read(net).0, cfg).0;
      RunReleases(start, cfg, ceph);
      RunKeepsOnce(start, cfg, ceph);
      var r := RunDeleting(start, cfg, ceph);
      RunFrame(start, cfg, ceph);
      StatusKeeps(start, r, ceph, cfg);
      SameDown(r.net.db, UpdateStatus(r.net, ceph, r.err, r.text, r.msg).0.db, cfg, n);
    }
  }

  lemma SameDown(s: Store, t: Store, cfg: Config, n: string)
    requires t.scs == s.scs && t.vscs == s.vscs
    ensures Down(t, cfg, n) <==> Down(s, cfg, n)
    ensures (HalfGoneSC(t, n) <==> HalfGoneSC(s, n)) && (HalfGoneVSC(t, cfg, n) <==> HalfGoneVSC(s, cfg, n))
  {
  }

  /** An undisturbed pass finishes, or takes away a class that was half gone. */
  lemma PassFinishes(s: Store, cfg: Config, n: string)
    requires WellFormed(s) && OnItsWay(s, cfg, n)
    ensures var t := Pass(Net(s, [], []), cfg, n).net.db;
      Finished(t, cfg, n) || InTheWay(t, cfg, n) < InTheWay(s, cfg, n)
  {
    var net := Net(s, [], []);
    SmoothReads(net, cfg);
    if Ending(s, n) {
      hide Pass, WellFormed, Down, Gone, Occupied, RemoveFirst, HalfGoneSC, HalfGoneVSC;
      OnePassReleases(net, cfg, n);
      PassClears(net, cfg, n);
      CephName(s, n);
    }
  }

  /** An undisturbed pass leaves no half gone StorageClass, and takes a half gone snapshot class away if
      it gets there. */
  lemma PassClears(net: Net, cfg: Config, n: string)
    requires WellFormed(net.db) && OnItsWay(net.db, cfg, n) && Ending(net.db, n) && net.faults == []
    ensures var t := Pass(net, cfg, n).net.db;
      && !HalfGoneSC(t, n)
      && (HalfGoneVSC(t, cfg, n) ==> HalfGoneSC(net.db, n) && HalfGoneVSC(net.db, cfg, n))
  {
    hide RunDeleting, TeardownSC, WellFormed, UpdateStatus, Down, Released, RemoveFirst;
    var ceph := net.db.cephs[n];
    CephName(net.db, n);
    SmoothReads(net, cfg);
    SmoothDeleting(net, cfg, ceph);
    SmoothTeardownSC(net, n);
    TeardownSCOnce(net, n);
    RunReleases(net, cfg, ceph);
    RunKeepsOnce(net, cfg, ceph);
    var r := RunDeleting(net, cfg, ceph);
    RunFrame(net, cfg, ceph);
    StatusKeeps(net, r, ceph, cfg);
    var t := UpdateStatus(r.net, ceph, r.err, r.text, r.msg).0.db;
    SameDown(r.net.db, t, cfg, n);
  }

  lemma {:induction false} StaysFinished(s: Store, cfg: Config, n: string, passes: seq<seq<Fault>>)
    requires WellFormed(s) && OnItsWay(s, cfg, n) && |passes| > InTheWay(s, cfg, n)
    requires forall p :: p in passes ==> p == []
    ensures Finished(Passes(s, cfg, n, passes), cfg, n)
    decreases |passes|
  {
    hide Pass, WellFormed, OnItsWay, InTheWay, Down, Held;
    var t := Pass(Net(s, [], []), cfg, n).net.db;
    PassKeepsWay(Net(s, [], []), cfg, n);
    PassFinishes(s, cfg, n);
    assert passes[0] in passes && passes[0] == [];
    if |passes| == 1 {
      assert passes[1..] == [];
    } else {
      assert forall p :: p in passes[1..] ==> p in passes;
      StaysFinished(t, cfg, n, passes[1..]);
    }
  }

  /** After any number of passes failing in any way, three undisturbed ones have released the object
      and taken its classes down: one for each class that may be half gone, and one more. */
  lemma {:induction false} ThreePassesRelease(s: Store, cfg: Config, n: string, scripts: seq<seq<Fault>>)
    requires WellFormed(s) && Ending(s, n) && Once(s, n)
    ensures Finished(Passes(s, cfg, n, scripts + [[], [], []]), cfg, n)
  {
    AfterFailures(s, cfg, n, scripts);
  }

  lemma {:induction false} AfterFailures(s: Store, cfg: Config, n: string, scripts: seq<seq<Fault>>)
    requires WellFormed(s) && OnItsWay(s, cfg, n)
    ensures Finished(Passes(s, cfg, n, scripts + [[], [], []]), cfg, n)
    decreases |scripts|
  {
    hide Pass, WellFormed, Finished, OnItsWay;
    var three: seq<seq<Fault>> := [[], [], []];
    if scripts == [] {
      assert scripts + three == three;
      StaysFinished(s, cfg, n, three);
    } else {
      PassKeepsWay(Net(s, scripts[0], []), cfg, n);
      AfterFailures(Pass(Net(s, scripts[0], []), cfg, n).net.db, cfg, n, scripts[1..]);
      assert (scripts + three)[1..] == scripts[1..] + three;
    }
  }
}
