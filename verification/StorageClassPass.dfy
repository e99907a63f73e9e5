/** One reconcile pass of the CephStorageClass controller as a function of the store and of how
    the API calls fail. Reads are current: nobody else writes between the calls of a pass. */
module StorageClassPass {
  import opened Calls
  import opened Finalizers
  import opened Kube
  import opened LabelPrefixes
  import opened StorageClasses

  datatype Store = Store(scs: map<string, StorageClass>, vscs: map<string, SnapshotClass>,
                         cephs: map<string, CephStorageClass>, clusterIDs: map<string, string>)

  /** A write request as it is sent. */
  datatype Write =
    | CreateSC(name: string) | UpdateSC(name: string) | DeleteSC(name: string)
    | CreateVSC(name: string) | UpdateVSC(name: string) | DeleteVSC(name: string)
    | UpdateCeph(name: string) | WriteStatus(name: string)

  type Net = Link<Store, Write>

  // ---- What the server does with a write ----

  function PutSC(s: Store, sc: StorageClass): Store {
    s.(scs := if sc.terminating && sc.finalizers == [] then s.scs - {sc.name} else s.scs[sc.name := sc])
  }

  function DropSC(s: Store, name: string): Store
    requires name in s.scs
  {
    if s.scs[name].finalizers == [] then s.(scs := s.scs - {name})
    else s.(scs := s.scs[name := s.scs[name].(terminating := true)])
  }

  function PutVSC(s: Store, vsc: SnapshotClass): Store {
    s.(vscs := if vsc.terminating && vsc.finalizers == [] then s.vscs - {vsc.name} else s.vscs[vsc.name := vsc])
  }

  function DropVSC(s: Store, name: string): Store
    requires name in s.vscs
  {
    if s.vscs[name].finalizers == [] then s.(vscs := s.vscs - {name})
    else s.(vscs := s.vscs[name := s.vscs[name].(terminating := true)])
  }

  function PutCeph(s: Store, ceph: CephStorageClass): Store {
    s.(cephs := if ceph.terminating && ceph.finalizers == [] then s.cephs - {ceph.name} else s.cephs[ceph.name := ceph])
  }

  function SendCreateSC(net: Net, sc: StorageClass): (Net, Error) {
    Send(net, CreateSC(sc.name), if sc.name in net.db.scs then AlreadyExists else NoError, PutSC(net.db, sc))
  }

  function SendUpdateSC(net: Net, sc: StorageClass): (Net, Error) {
    Send(net, UpdateSC(sc.name), if sc.name !in net.db.scs then NotFound else NoError, PutSC(net.db, sc))
  }

  function SendDeleteSC(net: Net, name: string): (Net, Error) {
    if name !in net.db.scs then Send(net, DeleteSC(name), NotFound, net.db)
    else Send(net, DeleteSC(name), NoError, DropSC(net.db, name))
  }

  function SendCreateVSC(net: Net, vsc: SnapshotClass): (Net, Error) {
    Send(net, CreateVSC(vsc.name), if vsc.name in net.db.vscs then AlreadyExists else NoError, PutVSC(net.db, vsc))
  }

  /** The server keeps the deletion mark and lets nobody add finalizers to a terminating object. */
  function SendUpdateVSC(net: Net, vsc: SnapshotClass): (Net, Error) {
    if vsc.name !in net.db.vscs then Send(net, UpdateVSC(vsc.name), NotFound, net.db)
    else
      var stored := net.db.vscs[vsc.name];
      Send(net, UpdateVSC(vsc.name),
           if stored.terminating && AddsFinalizer(stored.finalizers, vsc.finalizers) then Forbidden else NoError,
           PutVSC(net.db, vsc.(terminating := stored.terminating)))
  }

  function SendDeleteVSC(net: Net, name: string): (Net, Error) {
    if name !in net.db.vscs then Send(net, DeleteVSC(name), NotFound, net.db)
    else Send(net, DeleteVSC(name), NoError, DropVSC(net.db, name))
  }

  function SendUpdateCeph(net: Net, ceph: CephStorageClass): (Net, Error) {
    Send(net, UpdateCeph(ceph.name), if ceph.name !in net.db.cephs then NotFound else NoError, PutCeph(net.db, ceph))
  }

  // ---- The steps of a pass ----

  function DeleteStorageClass(net: Net, sc: StorageClass): (Net, Error) {
    if !AllowedProvisioner(sc.provisioner) then (net, Rejected)
    else if FINALIZER in sc.finalizers then
      var (net', err) := SendUpdateSC(net, sc.(finalizers := RemoveFirst(sc.finalizers, FINALIZER)));
      if err != NoError then (net', err) else SendDeleteSC(net', sc.name)
    else SendDeleteSC(net, sc.name)
  }

  function RecreateStorageClass(net: Net, sc: StorageClass, new_: StorageClass): (Net, Error) {
    var (net', err) := DeleteStorageClass(net, sc);
    if err != NoError then (net', err) else SendCreateSC(net', new_)
  }

  /** Create, recreate, or leave alone; and what the pass says if that succeeds. */
  function ReconcileSC(net: Net, cfg: Config, ceph: CephStorageClass, clusterID: string): (Net, Error, string)
    requires ValidSpec(ceph.spec)
  {
    if ceph.name !in net.db.scs then Saying(SendCreateSC(net, ConfigureStorageClass(ceph, cfg, clusterID)), SAYS_CREATED)
    else
      var sc := net.db.scs[ceph.name];
      if !AllowedProvisioner(sc.provisioner) then (net, Rejected, "")
      else
        var new_ := UpdateStorageClass(ceph, sc, cfg, clusterID);
        match SCDiff(sc, new_)
        case OtherProvisioner => (net, Rejected, "")
        case Panics => (net, Crashed, "")
        case Differs => Saying(RecreateStorageClass(net, sc, new_), SAYS_UPDATED)
        case Same =>
          if ShouldRetryFailed(ceph.status) then Saying(RecreateStorageClass(net, sc, new_), SAYS_UPDATED)
          else (net, NoError, SAYS_RECONCILED)
  }

  function Saying(r: (Net, Error), msg: string): (Net, Error, string) {
    (r.0, r.1, if r.1 == NoError then msg else "")
  }

  function ReconcileVSC(net: Net, cfg: Config, ceph: CephStorageClass, clusterID: string): (Net, Error) {
    if ceph.name !in net.db.vscs then SendCreateVSC(net, ConfigureSnapshotClass(None, ceph, cfg, clusterID))
    else
      var vsc := net.db.vscs[ceph.name];
      var new_ := ConfigureSnapshotClass(Some(vsc), ceph, cfg, clusterID);
      if SameSnapshotClass(vsc, new_) then (net, NoError) else SendUpdateVSC(net, new_)
  }

  function AddFinalizer(net: Net, ceph: CephStorageClass): (Net, Error) {
    if FINALIZER in ceph.finalizers then (net, NoError)
    else SendUpdateCeph(net, ceph.(finalizers := ceph.finalizers + [FINALIZER]))
  }

  function GetClusterID(net: Net, spec: Spec): (Net, Error, string) {
    var (net', err) := Read(net);
    if err != NoError then (net', err, "")
    else if spec.connection !in net'.db.clusterIDs then (net', NotFound, "")
    else if net'.db.clusterIDs[spec.connection] == "" then (net', Invalid, "")
    else (net', NoError, net'.db.clusterIDs[spec.connection])
  }

  /** Result of a pass: what was sent, whether to come again, the error, its text (none: ""), and
      what the pass says. */
  datatype Result = Result(net: Net, requeue: bool, err: Error, text: string, msg: string)

  /** The text of an error, abbreviated to what failed and how. */
  function Text(what: string, err: Error): string {
    if err == NoError then "" else "unable to " + what + ": " + CodeName(err)
  }

  function CodeName(err: Error): string {
    match err
    case NoError => ""
    case Transient => "transient"
    case NotFound => "not found"
    case AlreadyExists => "already exists"
    case Conflict => "conflict"
    case Invalid => "invalid"
    case Forbidden => "forbidden"
    case Timeout => "timeout"
    case Undecodable => "undecodable"
    case Crashed => "crashed"
    case Rejected => "rejected"
  }

  /** The pass stops at an error and says what it was. */
  function Stop(net: Net, err: Error, what: string): Result {
    Result(net, true, err, Text(what, err), Text(what, err))
  }

  function RunLive(net: Net, cfg: Config, ceph: CephStorageClass): Result {
    if !ValidSpec(ceph.spec) then
      var msg := "Validation of CephStorageClass failed: " + Complaints(ceph.spec);
      Result(net, false, Invalid, "CephStorageClass " + ceph.name + " has invalid spec: " + msg, msg)
    else
      var (net1, err1) := AddFinalizer(net, ceph);
      if err1 != NoError then Stop(net1, err1, "add a finalizer")
      else
        var (net2, err2, clusterID) := GetClusterID(net1, ceph.spec);
        if err2 != NoError then Stop(net2, err2, "get clusterID")
        else
          var (net3, err3, msg) := ReconcileSC(net2, cfg, ceph, clusterID);
          if err3 != NoError then Stop(net3, err3, "reconcile the StorageClass")
          else if !cfg.snapshots then Result(net3, false, NoError, "", msg)
          else
            var (net4, err4) := ReconcileVSC(net3, cfg, ceph, clusterID);
            Result(net4, err4 != NoError, err4, Text("reconcile the VolumeSnapshotClass", err4), msg)
  }

  function TeardownSC(net: Net, name: string): (Net, Error) {
    if name !in net.db.scs || !AllowedProvisioner(net.db.scs[name].provisioner) then (net, NoError)
    else DeleteStorageClass(net, net.db.scs[name])
  }

  function TeardownVSC(net: Net, name: string): (Net, Error) {
    if name !in net.db.vscs || !AllowedProvisioner(net.db.vscs[name].driver) then (net, NoError)
    else
      var vsc := net.db.vscs[name];
      if FINALIZER in vsc.finalizers then
        var (net', err) := SendUpdateVSC(net, vsc.(finalizers := RemoveFirst(vsc.finalizers, FINALIZER)));
        if err != NoError then (net', err) else SendDeleteVSC(net', name)
      else SendDeleteVSC(net, name)
  }

  function DropFinalizer(net: Net, ceph: CephStorageClass): (Net, Error) {
    if FINALIZER !in ceph.finalizers then (net, NoError)
    else SendUpdateCeph(net, ceph.(finalizers := RemoveFirst(ceph.finalizers, FINALIZER)))
  }

  function RunDeleting(net: Net, cfg: Config, ceph: CephStorageClass): Result {
    var (net1, err1) := TeardownSC(net, ceph.name);
    if err1 != NoError then Stop(net1, err1, "delete a storage class")
    else
      var (net2, err2) := if cfg.snapshots then TeardownVSC(net1, ceph.name) else (net1, NoError);
      if err2 != NoError then Result(net2, true, err2, Text("delete a volume snapshot class", err2), "")
      else
        var (net3, err3) := DropFinalizer(net2, ceph);
        if err3 != NoError then Stop(net3, err3, "remove a finalizer") else Result(net3, false, NoError, "", "")
  }

  function Run(net: Net, cfg: Config, ceph: CephStorageClass): Result {
    if ceph.terminating then RunDeleting(net, cfg, ceph) else RunLive(net, cfg, ceph)
  }

  /** Writes the outcome into the latest object, unless that changes nothing. */
  function UpdateStatus(net: Net, ceph: CephStorageClass, err: Error, text: string, msg: string): (Net, Error) {
    var (net', readErr) := Read(net);
    if readErr != NoError then (net', readErr)
    else if ceph.name !in net'.db.cephs then (net', NotFound)
    else
      var latest := net'.db.cephs[ceph.name];
      var status := NewStatus(latest.status, ceph.generation, err, text, msg);
      if latest.status == Some(status) then (net', NoError)
      else Send(net', WriteStatus(ceph.name), NoError, net'.db.(cephs := net'.db.cephs[ceph.name := latest.(status := Some(status))]))
  }

  /** Outcome of a whole pass: Absent (no such object), Aborted (a read failed, nothing was
      done), Panicked (no status was written), or done with the error of the pass and that of
      the status write. */
  datatype Outcome = Absent(net: Net) | Aborted(net: Net) | Panicked(net: Net) | Done(net: Net, requeue: bool, err: Error, statusErr: Error)

  function Lists(net: Net, cfg: Config): (Net, Error) {
    var (net1, err1) := Read(net);
    if err1 != NoError || !cfg.snapshots then (net1, err1) else Read(net1)
  }

  function Publish(r: Result, ceph: CephStorageClass): Outcome {
    if r.err == Crashed then Panicked(r.net)
    else if ShouldPublishStatus(ceph.terminating, r.err, r.requeue) then
      var (net, statusErr) := UpdateStatus(r.net, ceph, r.err, r.text, r.msg);
      if statusErr == NotFound then Done(net, r.requeue, r.err, NoError)
      else Done(net, r.requeue || statusErr != NoError, r.err, statusErr)
    else Done(r.net, r.requeue, r.err, NoError)
  }

  function Pass(net: Net, cfg: Config, name: string): Outcome {
    var (net1, err1) := Read(net);
    if err1 != NoError then Aborted(net1)
    else if name !in net1.db.cephs then Absent(net1)
    else
      var ceph := net1.db.cephs[name];
      var (net2, err2) := Lists(net1, cfg);
      if err2 != NoError then Aborted(net2) else Publish(Run(net2, cfg, ceph), ceph)
  }
}
