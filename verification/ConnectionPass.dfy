/** One reconcile pass of the CephClusterConnection controller as a function of the store and of
    how the API calls fail. Reads are current: nobody else writes between the calls of a pass. */
module ConnectionPass {
  import opened Calls
  import opened ClusterConfigs
  import opened Finalizers
  import opened Kube

  const CONTROLLER_NAME := "d8-ceph-cluster-connection-controller"
  const FINALIZER := "storage.deckhouse.io/ceph-cluster-connection-controller"

  /** What config.json of the ConfigMap decodes to. */
  datatype Content = Missing | Malformed | Configs(list: seq<ClusterConfig>)
  datatype ConfigMap = ConfigMap(labels: map<string, string>, finalizers: seq<string>, terminating: bool, content: Content)
  datatype Secret = Secret(labels: map<string, string>, finalizers: seq<string>, terminating: bool, data: map<string, string>)
  datatype Connection = Connection(name: string, finalizers: seq<string>, terminating: bool, spec: Spec)

  /** The ceph-csi ConfigMap, the Secrets of the module's namespace, and the connections. */
  datatype Store = Store(configMap: Option<ConfigMap>, secrets: map<string, Secret>, connections: map<string, Connection>)

  datatype Write =
    | CreateConfigMap | UpdateConfigMap
    | CreateSecret(name: string) | UpdateSecret(name: string) | DeleteSecret(name: string)
    | UpdateConnection(name: string)

  type Net = Link<Store, Write>

  // ---- What the server does with a write ----

  function PutConfigMap(s: Store, cm: ConfigMap): Store {
    s.(configMap := if cm.terminating && cm.finalizers == [] then None else Some(cm))
  }

  function PutSecret(s: Store, name: string, secret: Secret): Store {
    s.(secrets := if secret.terminating && secret.finalizers == [] then s.secrets - {name} else s.secrets[name := secret])
  }

  function PutConnection(s: Store, conn: Connection): Store {
    s.(connections := if conn.terminating && conn.finalizers == [] then s.connections - {conn.name}
                      else s.connections[conn.name := conn])
  }

  function SendCreateConfigMap(net: Net, cm: ConfigMap): (Net, Error) {
    Send(net, CreateConfigMap, if net.db.configMap.Some? then AlreadyExists else NoError, PutConfigMap(net.db, cm))
  }

  function SendUpdateConfigMap(net: Net, cm: ConfigMap): (Net, Error) {
    match net.db.configMap
    case None => Send(net, UpdateConfigMap, NotFound, net.db)
    case Some(stored) =>
      Send(net, UpdateConfigMap,
           if stored.terminating && AddsFinalizer(stored.finalizers, cm.finalizers) then Forbidden else NoError,
           PutConfigMap(net.db, cm.(terminating := stored.terminating)))
  }

  function SendCreateSecret(net: Net, name: string, secret: Secret): (Net, Error) {
    Send(net, CreateSecret(name), if name in net.db.secrets then AlreadyExists else NoError, PutSecret(net.db, name, secret))
  }

  /** The server adds stringData to the data sent. */
  function SendUpdateSecret(net: Net, name: string, secret: Secret, stringData: map<string, string>): (Net, Error) {
    if name !in net.db.secrets then Send(net, UpdateSecret(name), NotFound, net.db)
    else
      var stored := net.db.secrets[name];
      Send(net, UpdateSecret(name),
           if stored.terminating && AddsFinalizer(stored.finalizers, secret.finalizers) then Forbidden else NoError,
           PutSecret(net.db, name, secret.(terminating := stored.terminating, data := secret.data + stringData)))
  }

  function SendDeleteSecret(net: Net, name: string): (Net, Error) {
    if name !in net.db.secrets then Send(net, DeleteSecret(name), NotFound, net.db)
    else
      var stored := net.db.secrets[name];
      Send(net, DeleteSecret(name), NoError,
           if stored.finalizers == [] then net.db.(secrets := net.db.secrets - {name})
           else net.db.(secrets := net.db.secrets[name := stored.(terminating := true)]))
  }

  function SendUpdateConnection(net: Net, conn: Connection): (Net, Error) {
    if conn.name !in net.db.connections then Send(net, UpdateConnection(conn.name), NotFound, net.db)
    else
      var stored := net.db.connections[conn.name];
      Send(net, UpdateConnection(conn.name),
           if stored.terminating && AddsFinalizer(stored.finalizers, conn.finalizers) then Forbidden else NoError,
           PutConnection(net.db, conn.(terminating := stored.terminating)))
  }

  // ---- What the controller wants ----

  predicate ValidSpec(spec: Spec) {
    spec.clusterID != "" && spec.monitors != [] && spec.userID != "" && spec.userKey != ""
  }

  function WantedData(spec: Spec): map<string, string> {
    map["userID" := spec.userID, "userKey" := spec.userKey, "adminID" := spec.userID, "adminKey" := spec.userKey]
  }

  function WithRequired(finalizers: seq<string>): seq<string> {
    if FINALIZER in finalizers then finalizers else finalizers + [FINALIZER]
  }

  function Labelled(labels: map<string, string>): map<string, string> {
    labels[MANAGED_LABEL := CONTROLLER_NAME]
  }

  predicate HasRequired(labels: map<string, string>, finalizers: seq<string>) {
    && Lookup(labels, "storage.deckhouse.io/managed-by") == "d8-ceph-cluster-connection-controller"
    && "storage.deckhouse.io/ceph-cluster-connection-controller" in finalizers
  }

  /** Every occurrence of the controller's finalizer goes. */
  function WithoutFinalizer(finalizers: seq<string>): (left: seq<string>)
    ensures FINALIZER !in left && forall f :: f in left <==> f in finalizers && f != FINALIZER
  {
    if finalizers == [] then []
    else (if finalizers[0] == FINALIZER then [] else [finalizers[0]]) + WithoutFinalizer(finalizers[1..])
  }

  // ---- The steps of a pass ----

  function AddFinalizer(net: Net, conn: Connection): (Net, Error) {
    if FINALIZER in conn.finalizers then (net, NoError)
    else SendUpdateConnection(net, conn.(finalizers := conn.finalizers + [FINALIZER]))
  }

  /** Decodes the list; what does not decode is started anew. */
  function Decoded(content: Content): seq<ClusterConfig> {
    if content.Configs? then content.list else []
  }

  function Edited(list: seq<ClusterConfig>, conn: Connection, namespace: string): seq<ClusterConfig> {
    if conn.terminating then Drop(list, conn.spec.clusterID)
    else Put(list, GenerateClusterConfig(conn.name, conn.spec, namespace))
  }

  /** The result says whether to come again, without an error, for the ConfigMap to be gone. */
  function UpdateConfigMapIfNeeded(net: Net, cm: ConfigMap, conn: Connection, namespace: string): (Net, bool, Error) {
    if cm.terminating then
      var (net', err) := SendUpdateConfigMap(net, cm.(finalizers := WithoutFinalizer(cm.finalizers)));
      (net', err == NoError, err)
    else
      var list := Edited(Decoded(cm.content), conn, namespace);
      if cm.content == Configs(list) && HasRequired(cm.labels, cm.finalizers) then (net, false, NoError)
      else
        var (net', err) := SendUpdateConfigMap(net, ConfigMap(Labelled(cm.labels), WithRequired(cm.finalizers), false, Configs(list)));
        (net', false, err)
  }

  function ReconcileConfigMap(net: Net, conn: Connection, namespace: string): (Net, bool, Error) {
    match net.db.configMap
    case None =>
      if conn.terminating then (net, false, NoError)
      else if namespace == "" then (net, false, Invalid)
      else
        var (net', err) := SendCreateConfigMap(net, ConfigMap(map[MANAGED_LABEL := CONTROLLER_NAME], [FINALIZER], false,
                                                              Configs([GenerateClusterConfig(conn.name, conn.spec, namespace)])));
        (net', false, err)
    case Some(cm) => UpdateConfigMapIfNeeded(net, cm, conn, namespace)
  }

  function RemoveAndDeleteSecret(net: Net, name: string): (Net, Error) {
    if name !in net.db.secrets then (net, NoError)
    else
      var secret := net.db.secrets[name];
      if FINALIZER in secret.finalizers then
        var (net', err) := SendUpdateSecret(net, name, secret.(finalizers := RemoveFirst(secret.finalizers, FINALIZER)), map[]);
        if err != NoError then (net', err) else SendDeleteSecret(net', name)
      else SendDeleteSecret(net, name)
  }

  function ReconcileSecret(net: Net, conn: Connection): (Net, Error) {
    var name := SecretName(conn.name);
    if conn.terminating then RemoveAndDeleteSecret(net, name)
    else if name !in net.db.secrets then
      SendCreateSecret(net, name, Secret(map[MANAGED_LABEL := CONTROLLER_NAME], [FINALIZER], false, WantedData(conn.spec)))
    else
      var secret := net.db.secrets[name];
      var differs := secret.data != WantedData(conn.spec);
      if !differs && HasRequired(secret.labels, secret.finalizers) then (net, NoError)
      else
        SendUpdateSecret(net, name, secret.(labels := Labelled(secret.labels), finalizers := WithRequired(secret.finalizers)),
                         if differs then WantedData(conn.spec) else map[])
  }

  function DropFinalizer(net: Net, conn: Connection): (Net, Error) {
    if FINALIZER !in conn.finalizers then (net, NoError)
    else SendUpdateConnection(net, conn.(finalizers := RemoveFirst(conn.finalizers, FINALIZER)))
  }

  /** Result of a pass: what was sent, whether to come again, the error. */
  datatype Result = Result(net: Net, requeue: bool, err: Error)

  /** RunCephClusterConnectionEventReconcile. */
  function Run(net: Net, namespace: string, conn: Connection): Result {
    if !conn.terminating && !ValidSpec(conn.spec) then Result(net, false, Invalid)
    else
      var (net1, err1) := AddFinalizer(net, conn);
      if err1 != NoError then Result(net1, true, err1)
      else
        var held := conn.(finalizers := WithRequired(conn.finalizers));
        var (net2, err2) := Read(net1);
        if err2 != NoError then Result(net2, true, err2)
        else
          var (net3, again, err3) := ReconcileConfigMap(net2, held, namespace);
          if err3 != NoError || again then Result(net3, true, err3)
          else
            var (net4, err4) := Read(net3);
            if err4 != NoError then Result(net4, true, err4)
            else
              var (net5, err5) := ReconcileSecret(net4, held);
              if err5 != NoError then Result(net5, true, err5)
              else if !conn.terminating then Result(net5, false, NoError)
              else
                var (net6, err6) := DropFinalizer(net5, held);
                Result(net6, err6 != NoError, err6)
  }

  /** The pass of the work queue for one name; None if the object is gone or could not be read. */
  function Pass(net: Net, namespace: string, name: string): (Net, Option<Result>) {
    var (net1, err1) := Read(net);
    if err1 != NoError || name !in net1.db.connections then (net1, None)
    else
      var r := Run(net1, namespace, net1.db.connections[name]);
      (r.net, Some(r))
  }
}
