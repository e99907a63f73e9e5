/** What one reconcile pass of the CephClusterConnection controller guarantees. */
module ConnectionTheorems {
  import opened Calls
  import opened ClusterConfigs
  import opened ConnectionPass
  import opened Finalizers
  import opened Kube

  ghost predicate WellFormed(s: Store) {
    && (s.configMap.Some? && s.configMap.value.terminating ==> s.configMap.value.finalizers != [])
    && (forall k :: k in s.secrets && s.secrets[k].terminating ==> s.secrets[k].finalizers != [])
    && (forall n :: n in s.connections ==> s.connections[n].name == n)
    && (forall n :: n in s.connections && s.connections[n].terminating ==> s.connections[n].finalizers != [])
  }

  /** The shared list, as the map it stands for. */
  function Entries(s: Store): map<string, ClusterConfig> {
    if s.configMap.Some? then MapOf(Decoded(s.configMap.value.content)) else map[]
  }

  /** The cluster ids in the list are distinct. */
  predicate Clean(s: Store) {
    s.configMap.Some? ==> Distinct(Decoded(s.configMap.value.content))
  }

  predicate ConfigMapTerminating(s: Store) {
    s.configMap.Some? && s.configMap.value.terminating
  }

  predicate Held(s: Store, n: string) {
    n in s.connections && FINALIZER in s.connections[n].finalizers
  }

  // ---- Frames ----

  ghost predicate OnlyConfigMap(s: Store, t: Store) {
    WellFormed(t) && t.secrets == s.secrets && t.connections == s.connections
  }

  ghost predicate OnlySecret(s: Store, t: Store, name: string) {
    WellFormed(t) && t.configMap == s.configMap && t.connections == s.connections && t.secrets - {name} == s.secrets - {name}
  }

  ghost predicate OnlyConnection(s: Store, t: Store, n: string) {
    WellFormed(t) && t.configMap == s.configMap && t.secrets == s.secrets && t.connections - {n} == s.connections - {n}
  }

  /** The entry that a finished pass over the connection leaves, as an update of the map. */
  function Target(entries: map<string, ClusterConfig>, conn: Connection, namespace: string): map<string, ClusterConfig> {
    if conn.terminating then entries - {conn.spec.clusterID}
    else entries[conn.spec.clusterID := GenerateClusterConfig(conn.name, conn.spec, namespace)]
  }

  lemma EditedRefines(list: seq<ClusterConfig>, conn: Connection, namespace: string)
    requires Distinct(list)
    ensures Distinct(Edited(list, conn, namespace))
    ensures MapOf(Edited(list, conn, namespace)) == Target(MapOf(list), conn, namespace)
  {
    DropRefines(list, conn.spec.clusterID);
    PutRefines(list, GenerateClusterConfig(conn.name, conn.spec, namespace));
  }

  lemma EditedTwice(list: seq<ClusterConfig>, conn: Connection, namespace: string)
    requires !conn.terminating
    ensures Edited(Edited(list, conn, namespace), conn, namespace) == Edited(list, conn, namespace)
  {
    PutRefines(list, GenerateClusterConfig(conn.name, conn.spec, namespace));
  }

  lemma ConfigMapFrame(net: Net, conn: Connection, namespace: string)
    requires WellFormed(net.db)
    ensures OnlyConfigMap(net.db, ReconcileConfigMap(net, conn, namespace).0.db)
  {
    hide Edited, Labelled, WithRequired, HasRequired, GenerateClusterConfig;
  }

  /** Reconciling the ConfigMap is one update of the shared map, and is done if reported so. */
  lemma ConfigMapRefines(net: Net, conn: Connection, namespace: string)
    requires WellFormed(net.db) && Clean(net.db) && !ConfigMapTerminating(net.db)
    ensures var (r, again, err) := ReconcileConfigMap(net, conn, namespace);
      && Clean(r.db) && !ConfigMapTerminating(r.db) && (net.db.configMap.Some? ==> r.db.configMap.Some?)
      && (Entries(r.db) == Entries(net.db) || Entries(r.db) == Target(Entries(net.db), conn, namespace))
      && (err == NoError && !again ==> Entries(r.db) == Target(Entries(net.db), conn, namespace))
      && !again
  {
    hide Drop, Put, Labelled, WithRequired, HasRequired, Edited, MapOf, Distinct;
    if net.db.configMap.Some? {
      EditedRefines(Decoded(net.db.configMap.value.content), conn, namespace);
    } else {
      SingleEntry(GenerateClusterConfig(conn.name, conn.spec, namespace));
    }
  }

  lemma SingleEntry(c: ClusterConfig)
    ensures Distinct([c]) && MapOf([c]) == map[c.clusterID := c] && MapOf([]) == map[]
  {
  }

  /** A ConfigMap that is being deleted is never reported as done, and loses all or nothing. */
  lemma TerminatingConfigMap(net: Net, conn: Connection, namespace: string)
    requires WellFormed(net.db) && Clean(net.db) && ConfigMapTerminating(net.db)
    ensures var (r, again, err) := ReconcileConfigMap(net, conn, namespace);
      && (again <==> err == NoError) && Clean(r.db)
      && (r.db.configMap == None || Entries(r.db) == Entries(net.db))
  {
  }

  lemma SecretFrame(net: Net, conn: Connection)
    requires WellFormed(net.db)
    ensures OnlySecret(net.db, ReconcileSecret(net, conn).0.db, SecretName(conn.name))
  {
    hide SecretName, Labelled, WithRequired, HasRequired, WantedData, AddsFinalizer, RemoveFirst;
    if SecretName(conn.name) in net.db.secrets && conn.terminating {
      var secret := net.db.secrets[SecretName(conn.name)];
      DeleteSecretFrame(net, SecretName(conn.name));
      var stripped := secret.(finalizers := RemoveFirst(secret.finalizers, FINALIZER));
      UpdateSecretFrame(net, SecretName(conn.name), stripped, map[]);
      DeleteSecretFrame(SendUpdateSecret(net, SecretName(conn.name), stripped, map[]).0, SecretName(conn.name));
    }
  }

  lemma DeleteSecretFrame(net: Net, name: string)
    requires WellFormed(net.db)
    ensures var r := SendDeleteSecret(net, name);
      && OnlySecret(net.db, r.0.db, name)
      && (r.1 == NoError ==> name !in r.0.db.secrets || r.0.db.secrets[name].terminating)
  {
  }

  lemma UpdateSecretFrame(net: Net, name: string, secret: Secret, stringData: map<string, string>)
    requires WellFormed(net.db)
    ensures OnlySecret(net.db, SendUpdateSecret(net, name, secret, stringData).0.db, name)
  {
  }

  lemma FinalizerFrame(net: Net, conn: Connection)
    requires WellFormed(net.db) && conn.name in net.db.connections && net.db.connections[conn.name] == conn
    ensures var r := AddFinalizer(net, conn);
      && OnlyConnection(net.db, r.0.db, conn.name) && conn.name in r.0.db.connections
      && r.0.db.connections[conn.name].(finalizers := conn.finalizers) == conn
      && (FINALIZER in conn.finalizers ==> r == (net, NoError))
      && (r.1 == NoError ==> r.0.db.connections[conn.name] == conn.(finalizers := WithRequired(conn.finalizers)))
  {
  }

  lemma AddedOne(list: seq<string>, f: string)
    ensures AddsFinalizer(list, list + [f]) <==> f !in list
  {
  }

  lemma DropFinalizerFrame(net: Net, conn: Connection)
    requires WellFormed(net.db) && conn.name in net.db.connections && net.db.connections[conn.name] == conn
    ensures var r := DropFinalizer(net, conn); OnlyConnection(net.db, r.0.db, conn.name)
    ensures var t := DropFinalizer(net, conn).0.db;
      conn.name in t.connections ==> t.connections[conn.name].(finalizers := conn.finalizers) == conn
  {
    hide AddsFinalizer;
  }

  // ---- A pass in stages ----

  lemma HeldStaysHeld(conn: Connection)
    ensures FINALIZER in WithRequired(conn.finalizers)
  {
  }

  ghost predicate Known(net: Net, conn: Connection) {
    WellFormed(net.db) && conn.name in net.db.connections && net.db.connections[conn.name] == conn
  }

  /** The store after the ConfigMap stage, if the pass got there. */
  function AtMap(net: Net, conn: Connection): Net {
    Read(AddFinalizer(net, conn).0).0
  }

  function AfterMap(net: Net, namespace: string, conn: Connection): (Net, bool, Error) {
    ReconcileConfigMap(AtMap(net, conn), conn.(finalizers := WithRequired(conn.finalizers)), namespace)
  }

  predicate ReachesMap(net: Net, conn: Connection) {
    (conn.terminating || ValidSpec(conn.spec)) && AddFinalizer(net, conn).1 == NoError && Read(AddFinalizer(net, conn).0).1 == NoError
  }

  /** What the pass does to the shared ConfigMap is what its ConfigMap stage does, and if that was
      not done the pass does not report success and touches neither Secret nor finalizer. */
  lemma RunByMap(net: Net, namespace: string, conn: Connection)
    requires Known(net, conn)
    ensures var r := Run(net, namespace, conn);
      && WellFormed(r.net.db)
      && r.net.db.connections - {conn.name} == net.db.connections - {conn.name}
      && r.net.db.secrets - {SecretName(conn.name)} == net.db.secrets - {SecretName(conn.name)}
      && (conn.name in r.net.db.connections ==> r.net.db.connections[conn.name].(finalizers := conn.finalizers) == conn)
      && (!conn.terminating ==> conn.name in r.net.db.connections)
    ensures var r := Run(net, namespace, conn);
      if ReachesMap(net, conn) then
        var (m, again, err) := AfterMap(net, namespace, conn);
        && AtMap(net, conn).db.configMap == net.db.configMap && WellFormed(AtMap(net, conn).db)
        && r.net.db.configMap == m.db.configMap
        && (err != NoError || again ==> Held(r.net.db, conn.name) && r.requeue)
        && (!conn.terminating ==> Held(r.net.db, conn.name))
      else
        && r.net.db.configMap == net.db.configMap && r.err != NoError
        && (Held(net.db, conn.name) ==> Held(r.net.db, conn.name))
  {
    hide ReconcileConfigMap, ReconcileSecret, DropFinalizer, AddFinalizer, WellFormed, SecretName, WithRequired;
    FinalizerFrame(net, conn);
    HeldStaysHeld(conn);
    RequiredIsHeld(conn.finalizers);
    if ReachesMap(net, conn) {
      var held := conn.(finalizers := WithRequired(conn.finalizers));
      var net2 := AtMap(net, conn);
      ConfigMapFrame(net2, held, namespace);
      var net4 := Read(AfterMap(net, namespace, conn).0).0;
      SecretFrame(net4, held);
      DropFinalizerFrame(ReconcileSecret(net4, held).0, held);
    }
  }

  lemma RequiredIsHeld(finalizers: seq<string>)
    ensures FINALIZER in finalizers ==> WithRequired(finalizers) == finalizers
  {
  }

  /** A pass, however its calls fail, either leaves the shared map as it is or makes exactly the
      change its connection asks for, and makes it if it reports success. Ids stay distinct. */
  lemma PassUpdatesMap(net: Net, namespace: string, conn: Connection)
    requires Known(net, conn) && Clean(net.db) && !ConfigMapTerminating(net.db)
    ensures var r := Run(net, namespace, conn); var t := r.net.db;
      && Clean(t) && !ConfigMapTerminating(t) && (net.db.configMap.Some? ==> t.configMap.Some?)
      && (Entries(t) == Entries(net.db) || Entries(t) == Target(Entries(net.db), conn, namespace))
      && (r.err == NoError && !r.requeue ==> Entries(t) == Target(Entries(net.db), conn, namespace))
      && (Entries(t) != Entries(net.db) ==> ReachesMap(net, conn))
  {
    hide Run, ReconcileConfigMap, AddFinalizer, WellFormed, WithRequired, GenerateClusterConfig, MapOf, Distinct;
    RunByMap(net, namespace, conn);
    if ReachesMap(net, conn) {
      ConfigMapRefines(AtMap(net, conn), conn.(finalizers := WithRequired(conn.finalizers)), namespace);
    }
  }

  /** Teardown is in order: however the calls fail, a connection loses the controller's finalizer
      only in a pass over a connection being deleted, and then its cluster id is gone from the
      shared list and its Secret is gone or being deleted. */
  lemma TeardownIsOrdered(net: Net, namespace: string, conn: Connection)
    requires Known(net, conn) && Clean(net.db) && Held(net.db, conn.name)
    ensures var t := Run(net, namespace, conn).net.db;
      !Held(t, conn.name) ==>
        && conn.terminating
        && conn.spec.clusterID !in Entries(t)
        && (SecretName(conn.name) in t.secrets ==> t.secrets[SecretName(conn.name)].terminating)
  {
    hide Run, ReconcileConfigMap, AddFinalizer, WellFormed, WithRequired, MapOf, Distinct, SecretName;
    var t := Run(net, namespace, conn).net.db;
    if !Held(t, conn.name) {
      RunByMap(net, namespace, conn);
      if ConfigMapTerminating(net.db) {
        TerminatingConfigMap(AtMap(net, conn), conn.(finalizers := WithRequired(conn.finalizers)), namespace);
        assert false;
      }
      ConfigMapRefines(AtMap(net, conn), conn.(finalizers := WithRequired(conn.finalizers)), namespace);
      SecretGoesFirst(net, namespace, conn);
    }
  }

  lemma SecretGoesFirst(net: Net, namespace: string, conn: Connection)
    requires Known(net, conn) && Held(net.db, conn.name) && !Held(Run(net, namespace, conn).net.db, conn.name)
    ensures var t := Run(net, namespace, conn).net.db;
      conn.terminating && (SecretName(conn.name) in t.secrets ==> t.secrets[SecretName(conn.name)].terminating)
  {
    hide ReconcileConfigMap, ReconcileSecret, DropFinalizer, AddFinalizer, WellFormed, SecretName, WithRequired;
    FinalizerFrame(net, conn);
    HeldStaysHeld(conn);
    RequiredIsHeld(conn.finalizers);
    var held := conn.(finalizers := WithRequired(conn.finalizers));
    var net2 := AtMap(net, conn);
    ConfigMapFrame(net2, held, namespace);
    var net4 := Read(AfterMap(net, namespace, conn).0).0;
    SecretFrame(net4, held);
    DropFinalizerFrame(ReconcileSecret(net4, held).0, held);
    SecretTeardown(net4, held);
  }

  lemma SecretTeardown(net: Net, conn: Connection)
    requires WellFormed(net.db) && conn.terminating
    ensures var r := ReconcileSecret(net, conn);
      r.1 == NoError ==> SecretName(conn.name) !in r.0.db.secrets || r.0.db.secrets[SecretName(conn.name)].terminating
  {
  }
}
