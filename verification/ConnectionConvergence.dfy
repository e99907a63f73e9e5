/** Where reconciling a CephClusterConnection ends, and what it takes to get there. */
module ConnectionConvergence {
  import opened Calls
  import opened ClusterConfigs
  import opened ConnectionPass
  import opened ConnectionTheorems
  import opened Finalizers
  import opened Kube
  import StorageClasses

  /** The ConfigMap needs no write for the live connection. */
  predicate MapAtRest(s: Store, conn: Connection, namespace: string) {
    && s.configMap.Some? && !s.configMap.value.terminating
    && s.configMap.value.content.Configs? && Edited(s.configMap.value.content.list, conn, namespace) == s.configMap.value.content.list
    && HasRequired(s.configMap.value.labels, s.configMap.value.finalizers)
  }

  predicate SecretAtRest(s: Store, conn: Connection) {
    && SecretName(conn.name) in s.secrets
    && var secret := s.secrets[SecretName(conn.name)];
    && secret.data == WantedData(conn.spec) && HasRequired(secret.labels, secret.finalizers)
  }

  predicate AtRest(s: Store, conn: Connection, namespace: string) {
    ValidSpec(conn.spec) && FINALIZER in conn.finalizers && MapAtRest(s, conn, namespace) && SecretAtRest(s, conn)
  }

  lemma NowRequired(labels: map<string, string>, finalizers: seq<string>)
    ensures HasRequired(Labelled(labels), WithRequired(finalizers))
    ensures HasRequired(map[MANAGED_LABEL := CONTROLLER_NAME], [FINALIZER])
  {
  }

  /** A ConfigMap step that reports success leaves a ConfigMap that a repetition would not write. */
  lemma MapComesToRest(net: Net, conn: Connection, namespace: string)
    requires !conn.terminating
    ensures var (r, again, err) := ReconcileConfigMap(net, conn, namespace);
      err == NoError && !again ==> MapAtRest(r.db, conn, namespace)
  {
    hide Put, Drop, GenerateClusterConfig, AddsFinalizer, HasRequired, Labelled, WithRequired;
    NowRequired(map[], []);
    if net.db.configMap.Some? {
      var cm := net.db.configMap.value;
      NowRequired(cm.labels, cm.finalizers);
      EditedTwice(Decoded(cm.content), conn, namespace);
    } else {
      SinglePut(GenerateClusterConfig(conn.name, conn.spec, namespace));
    }
  }

  lemma SinglePut(c: ClusterConfig)
    ensures Put([c], c) == [c]
  {
  }

  /** The four keys the controller wants in the Secret. */
  function WantedKeys(): set<string> {
    {"userID", "userKey", "adminID", "adminKey"}
  }

  /** What a successful Secret step leaves. Since the server only adds to the data, keys of
      others stay. */
  lemma SecretStep(net: Net, conn: Connection)
    requires !conn.terminating
    ensures var r := ReconcileSecret(net, conn); var name := SecretName(conn.name);
      r.1 == NoError ==>
        && name in r.0.db.secrets
        && HasRequired(r.0.db.secrets[name].labels, r.0.db.secrets[name].finalizers)
        && r.0.db.secrets[name].data ==
             if name in net.db.secrets then net.db.secrets[name].data + WantedData(conn.spec) else WantedData(conn.spec)
  {
  }

  lemma OwnKeysOnly(data: map<string, string>, spec: Spec)
    ensures data + WantedData(spec) == WantedData(spec) <==> data.Keys <= WantedKeys()
  {
  }

  /** One update of the Secret reaches a state that the next pass does not write exactly if the
      stored keys were among the four wanted ones; otherwise every pass writes it again. */
  lemma SecretConverges(net: Net, conn: Connection)
    requires !conn.terminating && ReconcileSecret(net, conn).1 == NoError
    ensures var t := ReconcileSecret(net, conn).0.db; var next := Net(t, [], []);
      && (ReconcileSecret(next, conn).0.sent == [] <==> SecretAtRest(t, conn))
      && (SecretAtRest(t, conn) <==>
            SecretName(conn.name) in net.db.secrets ==> net.db.secrets[SecretName(conn.name)].data.Keys <= WantedKeys())
  {
    hide ReconcileSecret, HasRequired, WantedData, SecretName;
    SecretStep(net, conn);
    QuietSecret(Net(ReconcileSecret(net, conn).0.db, [], []), conn);
    if SecretName(conn.name) in net.db.secrets {
      OwnKeysOnly(net.db.secrets[SecretName(conn.name)].data, conn.spec);
    }
  }

  lemma QuietSecret(net: Net, conn: Connection)
    requires !conn.terminating
    ensures ReconcileSecret(net, conn) == (net, NoError) <==> SecretAtRest(net.db, conn)
    ensures ReconcileSecret(net, conn).0.sent == net.sent <==> SecretAtRest(net.db, conn)
  {
  }

  lemma QuietMap(net: Net, conn: Connection, namespace: string)
    requires !conn.terminating
    ensures ReconcileConfigMap(net, conn, namespace) == (net, false, NoError) <==> MapAtRest(net.db, conn, namespace)
    ensures MapAtRest(net.db, conn, namespace) ==> ReconcileConfigMap(net, conn, namespace).0.sent == net.sent
  {
  }

  /** The fixed points: an undisturbed pass over a live connection succeeds without a write
      exactly if finalizer, list entry and Secret are as wanted. */
  lemma FixedPoint(net: Net, namespace: string, conn: Connection)
    requires Known(net, conn) && !conn.terminating && net.faults == []
    ensures Run(net, namespace, conn) == Result(net, false, NoError) <==> AtRest(net.db, conn, namespace)
  {
    hide ReconcileConfigMap, ReconcileSecret, MapAtRest, SecretAtRest, ValidSpec, WellFormed;
    RequiredIsHeld(conn.finalizers);
    QuietMap(net, conn, namespace);
    QuietSecret(net, conn);
    if Run(net, namespace, conn) == Result(net, false, NoError) {
      SentGrows(net, namespace, conn);
    }
  }

  lemma SentGrows(net: Net, namespace: string, conn: Connection)
    requires Run(net, namespace, conn).net.sent == net.sent && !conn.terminating && Run(net, namespace, conn).err == NoError
    requires net.faults == [] && !Run(net, namespace, conn).requeue
    ensures FINALIZER in conn.finalizers
    ensures ReconcileConfigMap(net, conn, namespace) == (net, false, NoError) && ReconcileSecret(net, conn) == (net, NoError)
  {
  }

  lemma LiveSuccess(net: Net, namespace: string, conn: Connection)
    requires Known(net, conn) && !conn.terminating
    ensures var r := Run(net, namespace, conn); var name := SecretName(conn.name);
      r.err == NoError && !r.requeue ==>
        && ValidSpec(conn.spec) && Held(r.net.db, conn.name)
        && MapAtRest(r.net.db, conn, namespace)
        && name in r.net.db.secrets && HasRequired(r.net.db.secrets[name].labels, r.net.db.secrets[name].finalizers)
        && r.net.db.secrets[name].data ==
             if name in net.db.secrets then net.db.secrets[name].data + WantedData(conn.spec) else WantedData(conn.spec)
  {
    hide ReconcileConfigMap, ReconcileSecret, AddFinalizer, MapAtRest, HasRequired, WantedData, ValidSpec,
      WellFormed, SecretName, WithRequired;
    FinalizerFrame(net, conn);
    HeldStaysHeld(conn);
    var held := conn.(finalizers := WithRequired(conn.finalizers));
    var net2 := AtMap(net, conn);
    ConfigMapFrame(net2, held, namespace);
    var net4 := Read(AfterMap(net, namespace, conn).0).0;
    SecretFrame(net4, held);
    MapComesToRest(net2, held, namespace);
    SecretStep(net4, held);
    var r := Run(net, namespace, conn);
    if r.err == NoError && !r.requeue {
      MapIgnoresFinalizers(r.net.db, conn, held, namespace);
      MapIgnoresSecrets(AfterMap(net, namespace, conn).0.db, r.net.db, held, namespace);
    }
  }

  lemma MapIgnoresFinalizers(s: Store, conn: Connection, held: Connection, namespace: string)
    requires held == conn.(finalizers := held.finalizers)
    ensures MapAtRest(s, held, namespace) <==> MapAtRest(s, conn, namespace)
  {
  }

  lemma MapIgnoresSecrets(s: Store, t: Store, conn: Connection, namespace: string)
    requires t.configMap == s.configMap
    ensures MapAtRest(t, conn, namespace) <==> MapAtRest(s, conn, namespace)
  {
  }

  /** After a pass over a live connection that reports success, however it went, the next
      undisturbed pass leaves the shared list alone; and it sends nothing at all exactly if the
      Secret held no keys of others. */
  lemma Convergence(net: Net, namespace: string, conn: Connection)
    requires Known(net, conn) && !conn.terminating
    requires Run(net, namespace, conn).err == NoError && !Run(net, namespace, conn).requeue
    ensures var t := Run(net, namespace, conn).net.db; var next := Net(t, [], []); var name := SecretName(conn.name);
      && Held(t, conn.name)
      && ReconcileConfigMap(next, t.connections[conn.name], namespace) == (next, false, NoError)
      && (Run(next, namespace, t.connections[conn.name]) == Result(next, false, NoError) <==>
            name in net.db.secrets ==> net.db.secrets[name].data.Keys <= WantedKeys())
  {
    hide Run, ReconcileConfigMap, HasRequired, WantedData, ValidSpec, WellFormed, SecretName, MapAtRest;
    var t := Run(net, namespace, conn).net.db;
    LiveSuccess(net, namespace, conn);
    RunByMap(net, namespace, conn);
    var later := t.connections[conn.name];
    var next := Net(t, [], []);
    MapIgnoresFinalizers(t, conn, later, namespace);
    QuietMap(next, later, namespace);
    FixedPoint(next, namespace, later);
    if SecretName(conn.name) in net.db.secrets {
      OwnKeysOnly(net.db.secrets[SecretName(conn.name)].data, conn.spec);
    }
  }

  // ---- When one undisturbed pass is enough ----

  /** The Secret can be brought to what is wanted, or taken away, at once. */
  predicate SecretReconcilable(s: Store, conn: Connection) {
    SecretName(conn.name) in s.secrets && s.secrets[SecretName(conn.name)].terminating ==>
      var secret := s.secrets[SecretName(conn.name)];
      if conn.terminating then RemoveFirst(secret.finalizers, FINALIZER) != []
      else FINALIZER in secret.finalizers
  }

  /** All that a connection must say. */
  predicate Complete(spec: Spec) {
    |spec.clusterID| > 0 && |spec.monitors| > 0 && |spec.userID| > 0 && |spec.userKey| > 0
  }

  lemma CompleteIsValid(spec: Spec)
    ensures ValidSpec(spec) <==> Complete(spec)
  {
  }

  predicate Reconcilable(s: Store, conn: Connection, namespace: string) {
    && (conn.terminating ==> FINALIZER in conn.finalizers)
    && (!conn.terminating ==> Complete(conn.spec) && (s.configMap.None? ==> namespace != ""))
    && !ConfigMapTerminating(s)
    && SecretReconcilable(s, conn)
  }

  lemma SmoothSecret(net: Net, conn: Connection)
    requires WellFormed(net.db) && net.faults == []
    ensures var r := ReconcileSecret(net, conn);
      r.0.faults == [] && (r.1 == NoError <==> SecretReconcilable(net.db, conn))
  {
    hide SecretName, WantedData, Labelled;
    var name := SecretName(conn.name);
    if name in net.db.secrets {
      var secret := net.db.secrets[name];
      AddedOne(secret.finalizers, FINALIZER);
      NothingAdded(secret.finalizers);
      if FINALIZER !in secret.finalizers {
        RemoveNothing(secret.finalizers, FINALIZER);
      }
    }
  }

  lemma NothingAdded(finalizers: seq<string>)
    ensures !AddsFinalizer(finalizers, finalizers)
    ensures !AddsFinalizer(finalizers, RemoveFirst(finalizers, FINALIZER))
    ensures !AddsFinalizer(finalizers, WithoutFinalizer(finalizers))
  {
  }

  lemma {:induction false} RemovedAreThere(finalizers: seq<string>)
    ensures forall f :: f in RemoveFirst(finalizers, FINALIZER) ==> f in finalizers
  {
    if finalizers != [] {
      RemovedAreThere(finalizers[1..]);
    }
  }

  lemma SmoothMap(net: Net, conn: Connection, namespace: string)
    requires WellFormed(net.db) && net.faults == []
    ensures var (r, again, err) := ReconcileConfigMap(net, conn, namespace);
      && r.faults == []
      && (err == NoError && !again <==>
            !ConfigMapTerminating(net.db) && (net.db.configMap.None? && !conn.terminating ==> namespace != ""))
      && (ConfigMapTerminating(net.db) ==> err == NoError && again)
      && (ConfigMapTerminating(net.db) && WithoutFinalizer(net.db.configMap.value.finalizers) == [] ==> r.db.configMap == None)
  {
  }

  /** An undisturbed pass succeeds exactly if the spec is valid, the ConfigMap is not being
      deleted, and the Secret is not half gone; and then it releases a connection being deleted. */
  lemma OnePassSuffices(net: Net, namespace: string, conn: Connection)
    requires Known(net, conn) && net.faults == []
    ensures var r := Run(net, namespace, conn);
      && (r.err == NoError && !r.requeue <==> Reconcilable(net.db, conn, namespace))
      && (Reconcilable(net.db, conn, namespace) && conn.terminating ==> Released(r.net.db, conn))
  {
    Releases(net, namespace, conn);
    CompleteIsValid(conn.spec);
    hide Released, Complete;
    hide ReconcileConfigMap, ReconcileSecret, ValidSpec, WellFormed, SecretReconcilable, RemoveFirst, AddsFinalizer,
      SecretName;
    if conn.terminating || ValidSpec(conn.spec) {
      AddedOne(conn.finalizers, FINALIZER);
      FinalizerFrame(net, conn);
      var (net1, err1) := AddFinalizer(net, conn);
      if err1 == NoError {
        HeldStaysHeld(conn);
        RequiredIsHeld(conn.finalizers);
        var held := conn.(finalizers := WithRequired(conn.finalizers));
        SmoothMap(net1, held, namespace);
        ConfigMapFrame(net1, held, namespace);
        var net3 := ReconcileConfigMap(net1, held, namespace).0;
        SmoothSecret(net3, held);
        SecretsOnly(net.db, net3.db, conn, held);
        SecretFrame(net3, held);
        SmoothDrop(ReconcileSecret(net3, held).0, held);
      }
    }
  }

  lemma SecretsOnly(s: Store, t: Store, conn: Connection, held: Connection)
    requires t.secrets == s.secrets && held == conn.(finalizers := held.finalizers)
    ensures SecretReconcilable(t, held) <==> SecretReconcilable(s, conn)
  {
  }

  lemma SmoothDrop(net: Net, conn: Connection)
    requires net.faults == [] && conn.name in net.db.connections && net.db.connections[conn.name] == conn
    ensures DropFinalizer(net, conn).1 == NoError
    ensures var t := DropFinalizer(net, conn).0.db;
      FINALIZER !in RemoveFirst(conn.finalizers, FINALIZER) ==> !Held(t, conn.name)
  {
    NothingAdded(conn.finalizers);
    if FINALIZER !in conn.finalizers {
      RemoveNothing(conn.finalizers, FINALIZER);
    }
  }

  /** The connection has lost the controller's finalizer, but for repetitions of it, and the Secret
      is gone or being deleted. */
  predicate Released(s: Store, conn: Connection) {
    && (Held(s, conn.name) <==> FINALIZER in RemoveFirst(conn.finalizers, FINALIZER))
    && (SecretName(conn.name) in s.secrets ==> s.secrets[SecretName(conn.name)].terminating)
  }

  /** However its calls went, a pass over a connection being deleted that reports success and does
      not ask to come again has released it, and its cluster id is gone from the list. */
  lemma Releases(net: Net, namespace: string, conn: Connection)
    requires Known(net, conn)
    ensures var r := Run(net, namespace, conn);
      conn.terminating && r.err == NoError && !r.requeue ==>
        && FINALIZER in conn.finalizers && Released(r.net.db, conn)
        && (Clean(net.db) ==> conn.spec.clusterID !in Entries(r.net.db))
  {
    var r := Run(net, namespace, conn);
    if conn.terminating && r.err == NoError && !r.requeue {
      ReleasesFinalizer(net, namespace, conn);
      if Clean(net.db) {
        ReleasesEntry(net, namespace, conn);
      }
    }
  }

  lemma ReleasesFinalizer(net: Net, namespace: string, conn: Connection)
    requires Known(net, conn) && conn.terminating
    requires Run(net, namespace, conn).err == NoError && !Run(net, namespace, conn).requeue
    ensures FINALIZER in conn.finalizers && Released(Run(net, namespace, conn).net.db, conn)
  {
    hide ReconcileConfigMap, ReconcileSecret, WellFormed, SecretName, RemoveFirst, AddsFinalizer;
    AddedOne(conn.finalizers, FINALIZER);
    FinalizerFrame(net, conn);
    RequiredIsHeld(conn.finalizers);
    var net2 := AtMap(net, conn);
    ConfigMapFrame(net2, conn, namespace);
    var net4 := Read(AfterMap(net, namespace, conn).0).0;
    SecretFrame(net4, conn);
    SecretTeardown(net4, conn);
    DropFinalizerFrame(ReconcileSecret(net4, conn).0, conn);
  }

  lemma ReleasesEntry(net: Net, namespace: string, conn: Connection)
    requires Known(net, conn) && conn.terminating && Clean(net.db)
    requires Run(net, namespace, conn).err == NoError && !Run(net, namespace, conn).requeue
    ensures conn.spec.clusterID !in Entries(Run(net, namespace, conn).net.db)
  {
    hide Run, WellFormed, MapOf, ReconcileConfigMap, AddFinalizer;
    RunByMap(net, namespace, conn);
    RunRequeueOnlyFromMap(net, namespace, conn);
    if ConfigMapTerminating(net.db) {
      TerminatingConfigMap(AtMap(net, conn), conn.(finalizers := WithRequired(conn.finalizers)), namespace);
      assert false;
    }
    PassUpdatesMap(net, namespace, conn);
  }

  /** A ConfigMap that is being deleted, held by the controller's finalizer only: an undisturbed
      pass lets it go, reports no error and asks to come again; the next one succeeds, making the
      ConfigMap anew for a live connection and finishing the teardown of one being deleted. */
  lemma TwoPassesReplaceConfigMap(net: Net, namespace: string, conn: Connection)
    requires Known(net, conn) && net.faults == [] && ConfigMapTerminating(net.db)
    requires WithoutFinalizer(net.db.configMap.value.finalizers) == []
    requires Reconcilable(net.db.(configMap := None), conn, namespace)
    ensures var r := Run(net, namespace, conn); var t := r.net.db;
      && r.requeue && r.err == NoError && t.configMap == None && Held(t, conn.name)
      && var later := Run(Net(t, [], []), namespace, t.connections[conn.name]);
      && !later.requeue && later.err == NoError
      && Entries(later.net.db) == Target(map[], conn, namespace)
      && (conn.terminating ==> Released(later.net.db, conn))
  {
    hide Run, ReconcileConfigMap, ValidSpec, WellFormed, RemoveFirst, AddsFinalizer, SecretName, WithoutFinalizer,
      MapOf, GenerateClusterConfig, Released;
    var r := Run(net, namespace, conn);
    CompleteIsValid(conn.spec);
    AddedOne(conn.finalizers, FINALIZER);
    SmoothFinalizer(net, conn);
    var held := conn.(finalizers := WithRequired(conn.finalizers));
    SmoothMap(AddFinalizer(net, conn).0, held, namespace);
    RunByMap(net, namespace, conn);
    RunRequeues(net, namespace, conn);
    var next := Net(r.net.db, [], []);
    var conn2 := r.net.db.connections[conn.name];
    FinalizerFrame(net, conn);
    ConfigMapFrame(AtMap(net, conn), held, namespace);
    RequiredIsHeld(conn.finalizers);
    SecretsOnly(net.db, r.net.db, conn, conn2);
    OnePassSuffices(next, namespace, conn2);
    PassUpdatesMap(next, namespace, conn2);
  }

  lemma SmoothFinalizer(net: Net, conn: Connection)
    requires Known(net, conn) && net.faults == [] && (conn.terminating ==> FINALIZER in conn.finalizers)
    ensures var r := AddFinalizer(net, conn);
      r.1 == NoError && r.0.faults == [] && WellFormed(r.0.db) && r.0.db.configMap == net.db.configMap
  {
  }

  /** If the ConfigMap stage asks to come again, the pass does so there and then. */
  lemma RunRequeues(net: Net, namespace: string, conn: Connection)
    requires Known(net, conn) && ReachesMap(net, conn) && AfterMap(net, namespace, conn).1 && AfterMap(net, namespace, conn).2 == NoError
    ensures var r := Run(net, namespace, conn);
      r == Result(AfterMap(net, namespace, conn).0, true, NoError) && r.net.db.secrets == net.db.secrets
  {
  }

  /** Such a pass reports no error although the list has no entry for the connection: the status
      written after it says Ready=True and Created. */
  lemma RequeueLooksReady(net: Net, namespace: string, conn: Connection, prev: Option<StorageClasses.Status>, generation: int,
                          msg: string)
    requires Known(net, conn) && net.faults == [] && ConfigMapTerminating(net.db) && !conn.terminating && ValidSpec(conn.spec)
    requires WithoutFinalizer(net.db.configMap.value.finalizers) == []
    ensures var r := Run(net, namespace, conn);
      && conn.spec.clusterID !in Entries(r.net.db)
      && StorageClasses.ShouldPublishStatus(conn.terminating, r.err, r.requeue)
      && StorageClasses.NewStatus(prev, generation, r.err, "", msg).phase == StorageClasses.PHASE_CREATED
  {
    hide Run, ReconcileConfigMap, ValidSpec, WellFormed, WithoutFinalizer, StorageClasses.NewStatus;
    SmoothFinalizer(net, conn);
    SmoothMap(AddFinalizer(net, conn).0, conn.(finalizers := WithRequired(conn.finalizers)), namespace);
    RunRequeues(net, namespace, conn);
    StorageClasses.StatusTellsTheOutcome(prev, generation, NoError, "", msg);
  }

  /** The new ConfigMap knows the connection of that pass only: the others' entries are missing
      until they are reconciled again. */
  lemma NewConfigMapKnowsOne(net: Net, namespace: string, conn: Connection, other: string)
    requires Known(net, conn) && net.db.configMap == None && !conn.terminating
    requires Run(net, namespace, conn).err == NoError && !Run(net, namespace, conn).requeue
    ensures other in Entries(Run(net, namespace, conn).net.db) <==> other == conn.spec.clusterID
  {
    hide Run, WellFormed, MapOf;
    PassUpdatesMap(net, namespace, conn);
  }

  /** Tearing a connection down leaves the entry of another one in the list exactly if their cluster
      ids differ. */
  lemma SharedIdIsTornDown(net: Net, namespace: string, conn: Connection, other: Connection)
    requires Known(net, conn) && Known(net, other) && other != conn && Clean(net.db) && !ConfigMapTerminating(net.db)
    requires conn.terminating && other.spec.clusterID in Entries(net.db)
    requires Run(net, namespace, conn).err == NoError && !Run(net, namespace, conn).requeue
    ensures other.name in Run(net, namespace, conn).net.db.connections
    ensures other.spec.clusterID in Entries(Run(net, namespace, conn).net.db) <==> other.spec.clusterID != conn.spec.clusterID
  {
    hide Run, WellFormed, MapOf;
    PassUpdatesMap(net, namespace, conn);
    RunByMap(net, namespace, conn);
    assert other.name in net.db.connections - {conn.name};
  }

  /** The list is the given one with the connection's entry, and its Secret holds all it should. */
  predicate Serves(s: Store, entries: map<string, ClusterConfig>, conn: Connection, namespace: string) {
    && Entries(s) == Target(entries, conn, namespace)
    && SecretName(conn.name) in s.secrets && WantedIn(s.secrets[SecretName(conn.name)].data, conn.spec)
  }

  /** When a pass over a live connection reports no error, and its status so says Ready, it asks to
      come again exactly if the ConfigMap was being deleted. List entry and Secret are as wanted
      exactly if it was not, or if another finalizer holds it and they were as wanted before. */
  lemma ReadyUnlessRequeued(net: Net, namespace: string, conn: Connection)
    requires Known(net, conn) && Clean(net.db) && !conn.terminating && Run(net, namespace, conn).err == NoError
    ensures Run(net, namespace, conn).requeue <==> ConfigMapTerminating(net.db)
    ensures Serves(Run(net, namespace, conn).net.db, Entries(net.db), conn, namespace) <==>
      (ConfigMapTerminating(net.db) ==>
        && WithoutFinalizer(net.db.configMap.value.finalizers) != []
        && Serves(net.db, Entries(net.db), conn, namespace))
  {
    hide Run, WellFormed, MapOf, ReconcileConfigMap, AddFinalizer, WantedData, WantedIn, MapAtRest, HasRequired, Distinct,
      Decoded, SecretName, WithoutFinalizer;
    RunByMap(net, namespace, conn);
    RunRequeueOnlyFromMap(net, namespace, conn);
    var held := conn.(finalizers := WithRequired(conn.finalizers));
    if ConfigMapTerminating(net.db) {
      TerminatingConfigMap(AtMap(net, conn), held, namespace);
      FinalizerFrame(net, conn);
      TerminatingStays(AtMap(net, conn), held, namespace);
      RunRequeues(net, namespace, conn);
      assert conn.spec.clusterID in Target(Entries(net.db), conn, namespace);
    } else {
      ConfigMapRefines(AtMap(net, conn), held, namespace);
      PassUpdatesMap(net, namespace, conn);
      LiveSuccess(net, namespace, conn);
      WantedStays(if SecretName(conn.name) in net.db.secrets then net.db.secrets[SecretName(conn.name)].data else map[], conn.spec);
      assert map[] + WantedData(conn.spec) == WantedData(conn.spec);
    }
  }

  /** Stripping a ConfigMap that is being deleted leaves its list, if another finalizer holds it. */
  lemma TerminatingStays(net: Net, conn: Connection, namespace: string)
    requires ConfigMapTerminating(net.db)
    ensures var (r, again, err) := ReconcileConfigMap(net, conn, namespace); var left := WithoutFinalizer(net.db.configMap.value.finalizers);
      err == NoError ==> r.db.secrets == net.db.secrets && Entries(r.db) == if left == [] then map[] else Entries(net.db)
  {
    hide MapOf, WithoutFinalizer;
  }

  /** A pass that reports no error asks to come again only for the sake of the ConfigMap. */
  lemma RunRequeueOnlyFromMap(net: Net, namespace: string, conn: Connection)
    requires Run(net, namespace, conn).err == NoError
    ensures ReachesMap(net, conn) && AfterMap(net, namespace, conn).2 == NoError
    ensures Run(net, namespace, conn).requeue <==> AfterMap(net, namespace, conn).1
  {
    hide ReconcileConfigMap, ReconcileSecret, AddFinalizer, DropFinalizer;
  }

  /** All that the controller wants is in the data. */
  predicate WantedIn(data: map<string, string>, spec: Spec) {
    && Lookup(data, "userID") == spec.userID && Lookup(data, "adminID") == spec.userID
    && Lookup(data, "userKey") == spec.userKey && Lookup(data, "adminKey") == spec.userKey
  }

  lemma WantedStays(data: map<string, string>, spec: Spec)
    ensures WantedIn(data + WantedData(spec), spec)
  {
  }
}
