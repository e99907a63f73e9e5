/** The CephStorageClass controller as it works: a client with a server behind it, listings taken
    once per pass and searched by name, writes in order with early returns. Every method does
    exactly what the pass function of the same step says. */
module StorageClassController {
  import opened Calls
  import opened Finalizers
  import opened Kube
  import opened StorageClasses
  import opened StorageClassPass
  import opened StorageClassTheorems

  ghost predicate ListsSCs(list: seq<StorageClass>, s: Store) {
    && (forall sc :: sc in list ==> sc.name in s.scs && s.scs[sc.name] == sc)
    && (forall n :: n in s.scs ==> s.scs[n] in list)
  }

  ghost predicate ListsVSCs(list: seq<SnapshotClass>, s: Store) {
    && (forall vsc :: vsc in list ==> vsc.name in s.vscs && s.vscs[vsc.name] == vsc)
    && (forall n :: n in s.vscs ==> s.vscs[n] in list)
  }

  method FindSC(list: seq<StorageClass>, name: string, ghost s: Store) returns (found: Option<StorageClass>)
    requires WellFormed(s) && ListsSCs(list, s)
    ensures found == if name in s.scs then Some(s.scs[name]) else None
  {
    for i := 0 to |list|
      invariant forall j :: 0 <= j < i ==> list[j].name != name
    {
      if list[i].name == name {
        return Some(list[i]);
      }
    }
    return None;
  }

  method FindVSClass(list: seq<SnapshotClass>, name: string, ghost s: Store) returns (found: Option<SnapshotClass>)
    requires WellFormed(s) && ListsVSCs(list, s)
    ensures found == if name in s.vscs then Some(s.vscs[name]) else None
  {
    for i := 0 to |list|
      invariant forall j :: 0 <= j < i ==> list[j].name != name
    {
      if list[i].name == name {
        return Some(list[i]);
      }
    }
    return None;
  }

  /** Checks the spec and writes down what is wrong with it. */
  method Validate(spec: Spec) returns (passed: bool, msg: string)
    ensures passed <==> ValidSpec(spec)
    ensures msg == "Validation of CephStorageClass failed: " + Complaints(spec)
  {
    hide FieldComplaints, TypeComplaints;
    var text;
    passed, text := ValidateFields(spec);
    var typePassed, typeText := ValidateType(spec);
    passed := passed && typePassed;
    msg := "Validation of CephStorageClass failed: " + (text + typeText);
  }

  method ValidateFields(spec: Spec) returns (passed: bool, text: string)
    ensures passed <==> spec.connection != "" && spec.reclaimPolicy != "" && spec.kind != ""
    ensures text == FieldComplaints(spec)
  {
    passed, text := true, "";
    if spec.connection == "" {
      passed := false;
      text := text + "the spec.clusterConnectionName field is empty; ";
    }
    if spec.reclaimPolicy == "" {
      passed := false;
      text := text + "the spec.reclaimPolicy field is empty; ";
    }
    if spec.kind == "" {
      passed := false;
      text := text + "the spec.type field is empty; ";
    }
  }

  method ValidateType(spec: Spec) returns (passed: bool, text: string)
    ensures passed <==>
      || (spec.kind == "RBD" && spec.rbd.Some? && spec.rbd.value.fsType != "" && spec.rbd.value.pool != "")
      || (spec.kind == "CephFS" && spec.fsName.Some? && spec.fsName.value != "")
    ensures text == TypeComplaints(spec)
  {
    passed, text := true, "";
    if spec.kind == RBD {
      if spec.rbd.None? {
        passed := false;
        text := "CephStorageClass type is RBD but the spec.rbd field is empty; ";
      } else {
        if spec.rbd.value.fsType == "" {
          passed := false;
          text := text + "the spec.rbd.defaultFSType field is empty; ";
        }
        if spec.rbd.value.pool == "" {
          passed := false;
          text := text + "the spec.rbd.pool field is empty; ";
        }
      }
    } else if spec.kind == CEPHFS {
      if spec.fsName.None? {
        passed := false;
        text := "CephStorageClass type is RBD but the spec.cephfs field is empty; ";
      } else if spec.fsName.value == "" {
        passed := false;
        text := "the spec.cephfs.fsName field is empty; ";
      }
    } else {
      passed := false;
      text := "the spec.type field is not valid: " + spec.kind + ". Allowed values: RBD, CephFS";
    }
  }

  /** Which of the two reconcile functions is to run, if any. */
  datatype ReconcileType = CreateReconcile | UpdateReconcile | NothingToDo

  class Controller {
    const cfg: Config
    var db: Store
    var faults: seq<Fault>
    var sent: seq<Write>

    constructor (cfg: Config, db: Store, faults: seq<Fault>)
      ensures this.cfg == cfg && Server() == Net(db, faults, [])
    {
      this.cfg, this.db, this.faults, sent := cfg, db, faults, [];
    }

    function Server(): Net
      reads this
    {
      Net(db, faults, sent)
    }

    /** The state after a call, as computed by one of the Send functions. */
    method Become(net: Net)
      modifies this
      ensures Server() == net
    {
      db, faults, sent := net.db, net.faults, net.sent;
    }

    method Get() returns (err: Error)
      modifies this
      ensures (Server(), err) == Read(old(Server()))
    {
      var (net, e) := Read(Server());
      Become(net);
      return e;
    }

    method ListStorageClasses() returns (list: seq<StorageClass>, err: Error)
      requires WellFormed(db)
      modifies this
      ensures (Server(), err) == Read(old(Server()))
      ensures err == NoError ==> ListsSCs(list, db)
    {
      err := Get();
      var keys;
      keys, list := Listing(db.scs);
      forall n | n in db.scs ensures db.scs[n] in list {
        var i :| 0 <= i < |keys| && keys[i] == n;
        assert list[i] == db.scs[n];
      }
    }

    method ListSnapshotClasses() returns (list: seq<SnapshotClass>, err: Error)
      requires WellFormed(db)
      modifies this
      ensures (Server(), err) == Read(old(Server()))
      ensures err == NoError ==> ListsVSCs(list, db)
    {
      err := Get();
      var keys;
      keys, list := Listing(db.vscs);
      forall n | n in db.vscs ensures db.vscs[n] in list {
        var i :| 0 <= i < |keys| && keys[i] == n;
        assert list[i] == db.vscs[n];
      }
    }

    method CreateSC(sc: StorageClass) returns (err: Error)
      modifies this
      ensures (Server(), err) == SendCreateSC(old(Server()), sc)
    {
      var (net, e) := SendCreateSC(Server(), sc);
      Become(net);
      return e;
    }

    /** Removes the controller's finalizer with an update, unless it is not there. */
    method RemoveSCFinalizer(sc: StorageClass) returns (err: Error)
      modifies this
      ensures (Server(), err) == if FINALIZER in sc.finalizers
        then SendUpdateSC(old(Server()), sc.(finalizers := RemoveFirst(sc.finalizers, FINALIZER)))
        else (old(Server()), NoError)
    {
      var left, removed := RemoveFinalizer(sc.finalizers, FINALIZER);
      if !removed {
        return NoError;
      }
      var (net, e) := SendUpdateSC(Server(), sc.(finalizers := left));
      Become(net);
      return e;
    }

    method DeleteSC(sc: StorageClass) returns (err: Error)
      modifies this
      ensures (Server(), err) == DeleteStorageClass(old(Server()), sc)
    {
      if sc.provisioner !in ALLOWED_PROVISIONERS {
        return Rejected;
      }
      err := RemoveSCFinalizer(sc);
      if err != NoError {
        return;
      }
      var (net, e) := SendDeleteSC(Server(), sc.name);
      Become(net);
      return e;
    }

    method RecreateSC(prev: StorageClass, new_: StorageClass) returns (err: Error)
      modifies this
      ensures (Server(), err) == RecreateStorageClass(old(Server()), prev, new_)
    {
      err := DeleteSC(prev);
      if err != NoError {
        return;
      }
      err := CreateSC(new_);
    }

    /** Says which reconcile function a live object needs, from the listing alone. */
    method Identify(list: seq<StorageClass>, ceph: CephStorageClass, clusterID: string) returns (type_: ReconcileType, err: Error)
      requires WellFormed(db) && ListsSCs(list, db) && ValidSpec(ceph.spec)
      ensures err == NoError && type_ == CreateReconcile <==> ceph.name !in db.scs
      ensures ceph.name in db.scs ==>
        var sc := db.scs[ceph.name];
        if sc.provisioner != WantedProvisioner(ceph.spec) then err == Rejected
        else if Unreadable(sc, ceph) then err == Crashed
        else
          && err == NoError
          && (type_ == NothingToDo <==> Wanted(sc, ceph, cfg, clusterID) && !KnownToHaveFailed(ceph.status))
          && (type_ == UpdateReconcile <==> !Wanted(sc, ceph, cfg, clusterID) || KnownToHaveFailed(ceph.status))
    {
      var found := FindSC(list, ceph.name, db);
      if found.None? {
        return CreateReconcile, NoError;
      }
      var sc := found.value;
      DiffDecides(sc, ceph, cfg, clusterID);
      RetryDecides(ceph.status);
      if sc.provisioner !in ALLOWED_PROVISIONERS {
        return NothingToDo, Rejected;
      }
      match SCDiff(sc, UpdateStorageClass(ceph, sc, cfg, clusterID)) {
        case OtherProvisioner => return NothingToDo, Rejected;
        case Panics => return NothingToDo, Crashed;
        case Differs => return UpdateReconcile, NoError;
        case Same =>
          if ShouldRetryFailed(ceph.status) {
            return UpdateReconcile, NoError;
          }
          return NothingToDo, NoError;
      }
    }

    method ReconcileStorageClass(list: seq<StorageClass>, ceph: CephStorageClass, clusterID: string)
      returns (err: Error, msg: string)
      requires WellFormed(db) && ListsSCs(list, db) && ValidSpec(ceph.spec)
      modifies this
      ensures (Server(), err, msg) == ReconcileSC(old(Server()), cfg, ceph, clusterID)
    {
      hide SCDiff, Wanted, Unreadable, ShouldRetryFailed, KnownToHaveFailed, UpdateStorageClass, RecreateStorageClass,
        ConfigureStorageClass, SendCreateSC, WantedProvisioner, WellFormed;
      RetryDecides(ceph.status);
      if ceph.name in db.scs {
        DiffDecides(db.scs[ceph.name], ceph, cfg, clusterID);
        WantedIsAllowed(ceph.spec);
      }
      var type_;
      type_, err := Identify(list, ceph, clusterID);
      if err != NoError {
        return err, "";
      }
      match type_ {
        case CreateReconcile =>
          err := CreateSC(ConfigureStorageClass(ceph, cfg, clusterID));
          msg := SAYS_CREATED;
        case UpdateReconcile =>
          var found := FindSC(list, ceph.name, db);
          err := RecreateSC(found.value, UpdateStorageClass(ceph, found.value, cfg, clusterID));
          msg := SAYS_UPDATED;
        case NothingToDo =>
          msg := SAYS_RECONCILED;
      }
      if err != NoError {
        msg := "";
      }
    }

    method ReconcileSnapshotClass(list: seq<SnapshotClass>, ceph: CephStorageClass, clusterID: string) returns (err: Error)
      requires WellFormed(db) && ListsVSCs(list, db)
      modifies this
      ensures (Server(), err) == ReconcileVSC(old(Server()), cfg, ceph, clusterID)
    {
      var prev := FindVSClass(list, ceph.name, db);
      var new_ := ConfigureSnapshotClass(prev, ceph, cfg, clusterID);
      var net := Server();
      err := NoError;
      if prev.None? {
        var (net', e) := SendCreateVSC(net, new_);
        Become(net');
        err := e;
      } else if !SameSnapshotClass(prev.value, new_) {
        var (net', e) := SendUpdateVSC(net, new_);
        Become(net');
        err := e;
      }
    }

    method AddCephFinalizer(ceph: CephStorageClass) returns (err: Error)
      modifies this
      ensures (Server(), err) == AddFinalizer(old(Server()), ceph)
    {
      if FINALIZER in ceph.finalizers {
        return NoError;
      }
      var (net, e) := SendUpdateCeph(Server(), ceph.(finalizers := ceph.finalizers + [FINALIZER]));
      Become(net);
      return e;
    }

    method RemoveCephFinalizer(ceph: CephStorageClass) returns (err: Error)
      modifies this
      ensures (Server(), err) == DropFinalizer(old(Server()), ceph)
    {
      var left, removed := RemoveFinalizer(ceph.finalizers, FINALIZER);
      if !removed {
        return NoError;
      }
      var (net, e) := SendUpdateCeph(Server(), ceph.(finalizers := left));
      Become(net);
      return e;
    }

    method ClusterIDOf(spec: Spec) returns (clusterID: string, err: Error)
      modifies this
      ensures (Server(), err, clusterID) == GetClusterID(old(Server()), spec)
    {
      err := Get();
      if err != NoError {
        return "", err;
      }
      if spec.connection !in db.clusterIDs {
        return "", NotFound;
      }
      if db.clusterIDs[spec.connection] == "" {
        return "", Invalid;
      }
      return db.clusterIDs[spec.connection], NoError;
    }

    method TeardownStorageClass(list: seq<StorageClass>, ceph: CephStorageClass) returns (err: Error)
      requires WellFormed(db) && ListsSCs(list, db)
      modifies this
      ensures (Server(), err) == TeardownSC(old(Server()), ceph.name)
    {
      var found := FindSC(list, ceph.name, db);
      err := NoError;
      if found.Some? && found.value.provisioner in ALLOWED_PROVISIONERS {
        err := DeleteSC(found.value);
      }
    }

    method TeardownSnapshotClass(list: seq<SnapshotClass>, ceph: CephStorageClass) returns (err: Error)
      requires WellFormed(db) && ListsVSCs(list, db)
      modifies this
      ensures (Server(), err) == TeardownVSC(old(Server()), ceph.name)
    {
      var found := FindVSClass(list, ceph.name, db);
      if found.None? || found.value.driver !in ALLOWED_PROVISIONERS {
        return NoError;
      }
      var left, removed := RemoveFinalizer(found.value.finalizers, FINALIZER);
      if removed {
        var (net, e) := SendUpdateVSC(Server(), found.value.(finalizers := left));
        Become(net);
        if e != NoError {
          return e;
        }
      }
      var (net, e) := SendDeleteVSC(Server(), ceph.name);
      Become(net);
      return e;
    }

    method RunEventReconcile(scs: seq<StorageClass>, vscs: Option<seq<SnapshotClass>>, ceph: CephStorageClass)
      returns (requeue: bool, err: Error, text: string, msg: string)
      requires WellFormed(db) && ListsSCs(scs, db)
      requires vscs.Some? == cfg.snapshots && (vscs.Some? ==> ListsVSCs(vscs.value, db))
      modifies this
      ensures Result(Server(), requeue, err, text, msg) == Run(old(Server()), cfg, ceph)
    {
      hide Only, DeleteStorageClass, TeardownVSC, ReconcileSC, ReconcileVSC, AddFinalizer, DropFinalizer, Text, Complaints;
      ghost var net0 := Server();
      text := "";
      if ceph.terminating {
        err := TeardownStorageClass(scs, ceph);
        if err != NoError {
          text := Text("delete a storage class", err);
          return true, err, text, text;
        }
        TeardownSCFrame(net0, ceph.name);
        OnlyWellFormed(ceph.name, net0, Server());
        if vscs.Some? {
          err := TeardownSnapshotClass(vscs.value, ceph);
          if err != NoError {
            return true, err, Text("delete a volume snapshot class", err), "";
          }
        }
        err := RemoveCephFinalizer(ceph);
        if err != NoError {
          text := Text("remove a finalizer", err);
        }
        return err != NoError, err, text, text;
      }
      var valid;
      valid, msg := Validate(ceph.spec);
      if !valid {
        return false, Invalid, "CephStorageClass " + ceph.name + " has invalid spec: " + msg, msg;
      }
      err := AddCephFinalizer(ceph);
      if err != NoError {
        text := Text("add a finalizer", err);
        return true, err, text, text;
      }
      FinalizerFrame(net0, ceph);
      OnlyWellFormed(ceph.name, net0, Server());
      var clusterID;
      clusterID, err := ClusterIDOf(ceph.spec);
      if err != NoError {
        text := Text("get clusterID", err);
        return true, err, text, text;
      }
      ghost var net2 := Server();
      err, msg := ReconcileStorageClass(scs, ceph, clusterID);
      if err != NoError {
        text := Text("reconcile the StorageClass", err);
        return true, err, text, text;
      }
      ReconcileSCFrame(net2, cfg, ceph, clusterID);
      OnlyWellFormed(ceph.name, net2, Server());
      if vscs.Some? {
        err := ReconcileSnapshotClass(vscs.value, ceph, clusterID);
        return err != NoError, err, Text("reconcile the VolumeSnapshotClass", err), msg;
      }
      return false, NoError, text, msg;
    }

    /** The Ready condition takes the text of the error, or the message if there is none. */
    method WriteStatus(ceph: CephStorageClass, reconcileErr: Error, text: string, msg: string) returns (err: Error)
      modifies this
      ensures (Server(), err) == UpdateStatus(old(Server()), ceph, reconcileErr, text, msg)
    {
      var cond := Condition(READY, if reconcileErr == NoError then True else False, ceph.generation,
                            if reconcileErr == NoError then REASON_RECONCILED else REASON_FAILED, text);
      if cond.message == "" {
        cond := cond.(message := msg);
      }
      err := Get();
      if err != NoError {
        return;
      }
      if ceph.name !in db.cephs {
        return NotFound;
      }
      var latest := db.cephs[ceph.name];
      var status := if latest.status.Some? then latest.status.value else Status("", 0, [], "");
      status := status.(observedGeneration := ceph.generation);
      status := status.(conditions := SetCondition(status.conditions, cond));
      status := status.(phase := PhaseFromReady(status.conditions));
      status := status.(reason := msg);
      if latest.status == Some(status) {
        return NoError;
      }
      var (net, e) := Send(Server(), Write.WriteStatus(ceph.name), NoError,
                           db.(cephs := db.cephs[ceph.name := latest.(status := Some(status))]));
      Become(net);
      return e;
    }

    /** The reconciler called by the work queue: does exactly one pass. */
    method Reconcile(name: string) returns (o: Outcome)
      requires WellFormed(db)
      modifies this
      ensures o == Pass(old(Server()), cfg, name) && Server() == o.net
    {
      hide Only, Run, UpdateStatus, WellFormed;
      var err := Get();
      if err != NoError {
        return Aborted(Server());
      }
      if name !in db.cephs {
        return Absent(Server());
      }
      var ceph := db.cephs[name];
      var scs;
      scs, err := ListStorageClasses();
      if err != NoError {
        return Aborted(Server());
      }
      var vscs := None;
      if cfg.snapshots {
        var list;
        list, err := ListSnapshotClasses();
        if err != NoError {
          return Aborted(Server());
        }
        vscs := Some(list);
      }
      var requeue, runErr, text, msg := RunEventReconcile(scs, vscs, ceph);
      if runErr == Crashed {
        return Panicked(Server());
      }
      var statusErr := NoError;
      if !ceph.terminating || runErr != NoError || requeue {
        statusErr := WriteStatus(ceph, runErr, text, msg);
        if statusErr == NotFound {
          statusErr := NoError;
        } else if statusErr != NoError {
          requeue := true;
        }
      }
      return Done(Server(), requeue, runErr, statusErr);
    }
  }
}
