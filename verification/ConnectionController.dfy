/** The CephClusterConnection controller as it works: listings searched by name, labels, finalizers
    and data edited in place, writes in order with early returns. Every method does exactly what
    the pass function of the same step says. */
module ConnectionController {
  import opened Calls
  import opened ClusterConfigs
  import opened ConnectionPass
  import opened ConnectionTheorems
  import opened Finalizers
  import opened Kube

  /** compareSecretsData: same size and every wanted key with its value, which is equality. */
  method CompareSecretsData(stored: map<string, string>, wanted: map<string, string>) returns (differs: bool)
    ensures differs <==> stored != wanted
  {
    if |wanted| != |stored| {
      return true;
    }
    var rest := wanted.Keys;
    while rest != {}
      invariant rest <= wanted.Keys
      invariant forall k :: k in wanted && k !in rest ==> k in stored && stored[k] == wanted[k]
      decreases rest
    {
      var key :| key in rest;
      if key !in stored || stored[key] != wanted[key] {
        return true;
      }
      rest := rest - {key};
    }
    SameSizeSubset(wanted, stored);
    return false;
  }

  lemma SameSizeSubset(a: map<string, string>, b: map<string, string>)
    requires |a| == |b| && forall k :: k in a ==> k in b && b[k] == a[k]
    ensures a == b
  {
    assert |a.Keys| == |b.Keys|;
    assert b.Keys == a.Keys + (b.Keys - a.Keys);
    assert |b.Keys - a.Keys| == 0;
  }

  /** addRequiredMetadataIfNeeded on the label map and finalizer list of an object. */
  method AddRequiredMetadata(labels: map<string, string>, finalizers: seq<string>)
    returns (newLabels: map<string, string>, newFinalizers: seq<string>, added: bool)
    ensures newLabels == Labelled(labels) && newFinalizers == WithRequired(finalizers)
    ensures added <==> !HasRequired(labels, finalizers)
    ensures !added ==> newLabels == labels && newFinalizers == finalizers
  {
    newLabels, newFinalizers, added := labels, finalizers, false;
    if Lookup(newLabels, MANAGED_LABEL) != CONTROLLER_NAME {
      newLabels := newLabels[MANAGED_LABEL := CONTROLLER_NAME];
      added := true;
    }
    if FINALIZER !in newFinalizers {
      newFinalizers := newFinalizers + [FINALIZER];
      added := true;
    }
  }

  /** A connection that is being deleted is not checked. */
  method Validate(conn: Connection) returns (passed: bool)
    ensures passed <==> conn.terminating || ValidSpec(conn.spec)
  {
    if conn.terminating {
      return true;
    }
    passed := true;
    if conn.spec.clusterID == "" {
      passed := false;
    }
    if |conn.spec.monitors| == 0 {
      passed := false;
    }
    if conn.spec.userID == "" {
      passed := false;
    }
    if conn.spec.userKey == "" {
      passed := false;
    }
  }

  class Controller {
    const namespace: string
    var db: Store
    var faults: seq<Fault>
    var sent: seq<Write>

    constructor (namespace: string, db: Store, faults: seq<Fault>)
      ensures this.namespace == namespace && Server() == Net(db, faults, [])
    {
      this.namespace, this.db, this.faults, sent := namespace, db, faults, [];
    }

    function Server(): Net
      reads this
    {
      Net(db, faults, sent)
    }

    /** The state after a call, as computed by one of the Send functions. */
    method Become(net: Net)
      modifies this
      ensures Server() == net
    {
      db, faults, sent := net.db, net.faults, net.sent;
    }

    method Get() returns (err: Error)
      modifies this
      ensures (Server(), err) == Read(old(Server()))
    {
      var (net, e) := Read(Server());
      Become(net);
      return e;
    }

    method UpdateConnection(conn: Connection) returns (err: Error)
      modifies this
      ensures (Server(), err) == SendUpdateConnection(old(Server()), conn)
    {
      var (net, e) := SendUpdateConnection(Server(), conn);
      Become(net);
      return e;
    }

    /** Adds the controller's finalizer, to the object in hand and then on the server. */
    method AddFinalizerIfNotExists(conn: Connection) returns (held: Connection, err: Error)
      modifies this
      ensures (Server(), err) == AddFinalizer(old(Server()), conn)
      ensures held == conn.(finalizers := WithRequired(conn.finalizers))
    {
      held, err := conn, NoError;
      if FINALIZER !in held.finalizers {
        held := held.(finalizers := held.finalizers + [FINALIZER]);
        err := UpdateConnection(held);
      }
    }

    method RemoveFinalizerIfExists(conn: Connection) returns (err: Error)
      modifies this
      ensures (Server(), err) == DropFinalizer(old(Server()), conn)
    {
      var left, removed := RemoveFinalizer(conn.finalizers, FINALIZER);
      err := NoError;
      if removed {
        err := UpdateConnection(conn.(finalizers := left));
      }
    }

    method UpdateConfigMap(cm: ConfigMap, conn: Connection) returns (again: bool, err: Error)
      modifies this
      ensures (Server(), again, err) == UpdateConfigMapIfNeeded(old(Server()), cm, conn, namespace)
    {
      if cm.terminating {
        var (net, e) := SendUpdateConfigMap(Server(), cm.(finalizers := WithoutFinalizer(cm.finalizers)));
        Become(net);
        return e == NoError, e;
      }
      var needUpdate := false;
      var configs := [];
      if cm.content.Configs? {
        configs := cm.content.list;
      } else {
        needUpdate := true;
      }
      var updated;
      configs, updated := UpdateClusterConfigsIfNeeded(configs, conn.name, conn.spec, conn.terminating, namespace);
      if updated {
        needUpdate := true;
      }
      var labels, finalizers, added := AddRequiredMetadata(cm.labels, cm.finalizers);
      if added {
        needUpdate := true;
      }
      if !needUpdate {
        return false, NoError;
      }
      var (net, e) := SendUpdateConfigMap(Server(), ConfigMap(labels, finalizers, false, Configs(configs)));
      Become(net);
      return false, e;
    }

    method ReconcileMap(configMap: Option<ConfigMap>, conn: Connection) returns (again: bool, err: Error)
      requires configMap == db.configMap
      modifies this
      ensures (Server(), again, err) == ReconcileConfigMap(old(Server()), conn, namespace)
    {
      if configMap.None? {
        if conn.terminating {
          return false, NoError;
        }
        if namespace == "" {
          return false, Invalid;
        }
        var configs := [GenerateClusterConfig(conn.name, conn.spec, namespace)];
        var (net, e) := SendCreateConfigMap(Server(), ConfigMap(map[MANAGED_LABEL := CONTROLLER_NAME], [FINALIZER], false, Configs(configs)));
        Become(net);
        return false, e;
      }
      again, err := UpdateConfigMap(configMap.value, conn);
    }

    method RemoveFinalizerAndDeleteSecret(name: string, secret: Option<Secret>) returns (err: Error)
      requires secret == if name in db.secrets then Some(db.secrets[name]) else None
      modifies this
      ensures (Server(), err) == RemoveAndDeleteSecret(old(Server()), name)
    {
      if secret.None? {
        return NoError;
      }
      var left, removed := RemoveFinalizer(secret.value.finalizers, FINALIZER);
      if removed {
        var (net, e) := SendUpdateSecret(Server(), name, secret.value.(finalizers := left), map[]);
        Become(net);
        if e != NoError {
          return e;
        }
      }
      var (net, e) := SendDeleteSecret(Server(), name);
      Become(net);
      return e;
    }

    method UpdateSecretIfNeeded(name: string, stored: Secret, spec: Spec) returns (err: Error)
      modifies this
      ensures var differs := stored.data != WantedData(spec);
        (Server(), err) == if !differs && HasRequired(stored.labels, stored.finalizers) then (old(Server()), NoError)
          else SendUpdateSecret(old(Server()), name,
                                stored.(labels := Labelled(stored.labels), finalizers := WithRequired(stored.finalizers)),
                                if differs then WantedData(spec) else map[])
    {
      var wanted := WantedData(spec);
      var stringData := map[];
      var needUpdate := CompareSecretsData(stored.data, wanted);
      if needUpdate {
        stringData := wanted;
      }
      var labels, finalizers, added := AddRequiredMetadata(stored.labels, stored.finalizers);
      if added {
        needUpdate := true;
      }
      if !needUpdate {
        return NoError;
      }
      var (net, e) := SendUpdateSecret(Server(), name, stored.(labels := labels, finalizers := finalizers), stringData);
      Become(net);
      return e;
    }

    /** Lists the Secrets and looks for the one of the connection. */
    method FindSecret(name: string) returns (secret: Option<Secret>)
      ensures secret == if name in db.secrets then Some(db.secrets[name]) else None
    {
      var names, secrets := Listing(db.secrets);
      for i := 0 to |names|
        invariant name !in names[..i]
      {
        if names[i] == name {
          return Some(secrets[i]);
        }
      }
      assert names[..|names|] == names;
      return None;
    }

    method ReconcileSecretOf(conn: Connection) returns (err: Error)
      modifies this
      ensures (Server(), err) == ReconcileSecret(old(Server()), conn)
    {
      var name := SecretName(conn.name);
      var secret := FindSecret(name);
      if conn.terminating {
        err := RemoveFinalizerAndDeleteSecret(name, secret);
        return;
      }
      if secret.None? {
        var (net, e) := SendCreateSecret(Server(), name,
                                         Secret(map[MANAGED_LABEL := CONTROLLER_NAME], [FINALIZER], false, WantedData(conn.spec)));
        Become(net);
        return e;
      }
      err := UpdateSecretIfNeeded(name, secret.value, conn.spec);
    }

    /** RunCephClusterConnectionEventReconcile: does exactly one pass. */
    method RunEventReconcile(conn: Connection) returns (requeue: bool, err: Error)
      modifies this
      ensures Result(Server(), requeue, err) == Run(old(Server()), namespace, conn)
    {
      hide ReconcileConfigMap, ReconcileSecret, AddFinalizer, DropFinalizer, WithRequired;
      var valid := Validate(conn);
      if !valid {
        return false, Invalid;
      }
      var held;
      held, err := AddFinalizerIfNotExists(conn);
      if err != NoError {
        return true, err;
      }
      err := Get();
      if err != NoError {
        return true, err;
      }
      var again;
      again, err := ReconcileMap(db.configMap, held);
      if err != NoError || again {
        return true, err;
      }
      err := Get();
      if err != NoError {
        return true, err;
      }
      err := ReconcileSecretOf(held);
      if err != NoError {
        return true, err;
      }
      if conn.terminating {
        err := RemoveFinalizerIfExists(held);
        if err != NoError {
          return true, err;
        }
      }
      return false, NoError;
    }
  }
}
