/** Whole runs: users create, change and delete connections while the controller reconciles them
    in any order and its calls fail in any way. The shared list stays the map it stands for. */
module ConnectionRuns {
  import opened Calls
  import opened ClusterConfigs
  import opened ConnectionPass
  import opened ConnectionTheorems
  import opened Kube

  datatype Event = Apply(conn: Connection) | Remove(name: string) | Reconcile(name: string, faults: seq<Fault>)

  function Step(s: Store, e: Event, namespace: string): Store {
    match e
    case Apply(conn) => PutConnection(s, conn)
    case Remove(n) =>
      if n !in s.connections then s
      else if s.connections[n].finalizers == [] then s.(connections := s.connections - {n})
      else s.(connections := s.connections[n := s.connections[n].(terminating := true)])
    case Reconcile(n, faults) => Pass(Net(s, faults, []), namespace, n).0.db
  }

  /** What users may do: cluster ids are distinct and cannot be changed, the deletion mark is set
      by deleting only, and nobody but the controller takes its finalizer away. */
  predicate Lawful(s: Store, e: Event) {
    e.Apply? ==>
      var n := e.conn.name;
      if n in s.connections then
        && e.conn.spec.clusterID == s.connections[n].spec.clusterID
        && e.conn.terminating == s.connections[n].terminating
        && (FINALIZER in s.connections[n].finalizers ==> FINALIZER in e.conn.finalizers)
      else
        !e.conn.terminating && forall m :: m in s.connections ==> s.connections[m].spec.clusterID != e.conn.spec.clusterID
  }

  /** For each name, what its entry may now be made from: the spec that was last reconciled with
      success and what was tried since; None stands for no entry. */
  type Goals = map<string, set<Option<Spec>>>

  function GoalsOf(g: Goals, n: string): set<Option<Spec>> {
    if n in g then g[n] else {None}
  }

  function Track(s: Store, g: Goals, e: Event, namespace: string): Goals {
    if !e.Reconcile? || e.name !in s.connections then g
    else
      var conn := s.connections[e.name];
      var aim := if conn.terminating then None else Some(conn.spec);
      match Pass(Net(s, e.faults, []), namespace, e.name).1
      case None => g
      case Some(r) =>
        if r.err == NoError && !r.requeue then g[e.name := {aim}] else g[e.name := GoalsOf(g, e.name) + {aim}]
  }

  ghost predicate EntryMatches(entries: map<string, ClusterConfig>, n: string, id: string, namespace: string, goal: Option<Spec>) {
    match goal
    case None => id !in entries
    case Some(spec) => spec.clusterID == id && id in entries && EntryOf(entries[id], n, spec, namespace)
  }

  ghost predicate MeetsAGoal(s: Store, g: Goals, n: string, namespace: string) {
    if n in s.connections then exists o :: o in GoalsOf(g, n) && EntryMatches(Entries(s), n, s.connections[n].spec.clusterID, namespace, o)
    else None in GoalsOf(g, n)
  }

  /** The entry's cluster id is that of a connection that still carries the finalizer. */
  ghost predicate HasOwner(s: Store, id: string) {
    exists n :: Held(s, n) && s.connections[n].spec.clusterID == id
  }

  ghost predicate DistinctIDs(s: Store) {
    forall m, n :: m in s.connections && n in s.connections && m != n ==>
      s.connections[m].spec.clusterID != s.connections[n].spec.clusterID
  }

  ghost predicate Inv(s: Store, g: Goals, namespace: string) {
    && WellFormed(s) && Clean(s) && s.configMap.Some? && !s.configMap.value.terminating
    && DistinctIDs(s)
    && (forall id :: id in Entries(s) ==> HasOwner(s, id))
    && (forall n :: MeetsAGoal(s, g, n, namespace))
  }

  // ---- The start ----

  /** EnsureConfigMapExists: a missing ConfigMap is made with an empty list. */
  function Ensured(s: Store): Store {
    if s.configMap.Some? then s else s.(configMap := Some(ConfigMap(map[], [], false, Configs([]))))
  }

  lemma StartKeepsInv(s: Store, namespace: string)
    requires WellFormed(s) && s.configMap == None && DistinctIDs(s)
    ensures Inv(Ensured(s), map[], namespace)
  {
    forall n ensures MeetsAGoal(Ensured(s), map[], n, namespace) {
      assert None in GoalsOf(map[], n);
      if n in s.connections {
        assert EntryMatches(Entries(Ensured(s)), n, s.connections[n].spec.clusterID, namespace, None);
      }
    }
  }

  // ---- Steps of users ----

  /** A connection without the finalizer has no entry, so it meets the goal None. */
  lemma UnheldHasNoEntry(s: Store, g: Goals, n: string, namespace: string)
    requires Inv(s, g, namespace) && n in s.connections && !Held(s, n)
    ensures s.connections[n].spec.clusterID !in Entries(s) && None in GoalsOf(g, n)
  {
    hide Entries;
    assert MeetsAGoal(s, g, n, namespace);
  }

  ghost predicate UserStep(s: Store, t: Store, n: string) {
    && t.configMap == s.configMap && t.connections - {n} == s.connections - {n}
    && (n in s.connections && n in t.connections ==> t.connections[n].spec.clusterID == s.connections[n].spec.clusterID)
    && (Held(s, n) ==> Held(t, n))
  }

  lemma SameElsewhere(s: Store, t: Store, n: string, m: string)
    requires t.connections - {n} == s.connections - {n} && m != n
    ensures m in t.connections <==> m in s.connections
    ensures m in s.connections ==> t.connections[m] == s.connections[m]
  {
    assert m in t.connections <==> m in t.connections - {n};
    assert m in s.connections <==> m in s.connections - {n};
  }

  lemma UserStepKeepsInv(s: Store, t: Store, g: Goals, n: string, namespace: string)
    requires Inv(s, g, namespace) && UserStep(s, t, n) && WellFormed(t) && DistinctIDs(t)
    requires n !in s.connections && n in t.connections ==> t.connections[n].spec.clusterID !in Entries(s)
    ensures Inv(t, g, namespace)
  {
    hide MapOf, WellFormed, DistinctIDs, Distinct;
    assert Entries(t) == Entries(s);
    forall id | id in Entries(t) ensures HasOwner(t, id) {
      assert HasOwner(s, id);
      var m :| Held(s, m) && s.connections[m].spec.clusterID == id;
      if m != n {
        SameElsewhere(s, t, n, m);
      }
      assert Held(t, m) && t.connections[m].spec.clusterID == id;
    }
    forall m ensures MeetsAGoal(t, g, m, namespace) {
      assert MeetsAGoal(s, g, m, namespace);
      if m != n {
        SameElsewhere(s, t, n, m);
      } else if n in s.connections && n !in t.connections {
        UnheldHasNoEntry(s, g, n, namespace);
      } else if n !in s.connections && n in t.connections {
        assert EntryMatches(Entries(t), n, t.connections[n].spec.clusterID, namespace, None);
      }
    }
  }

  lemma NewIDHasNoEntry(s: Store, g: Goals, id: string, namespace: string)
    requires Inv(s, g, namespace) && forall m :: m in s.connections ==> s.connections[m].spec.clusterID != id
    ensures id !in Entries(s)
  {
  }

  lemma ApplyKeepsInv(s: Store, g: Goals, conn: Connection, namespace: string)
    requires Inv(s, g, namespace) && Lawful(s, Apply(conn))
    ensures Inv(PutConnection(s, conn), g, namespace)
  {
    hide Entries, MeetsAGoal, HasOwner;
    var t := PutConnection(s, conn);
    if conn.name !in s.connections {
      NewIDHasNoEntry(s, g, conn.spec.clusterID, namespace);
    }
    UserStepKeepsInv(s, t, g, conn.name, namespace);
  }

  lemma RemoveKeepsInv(s: Store, g: Goals, n: string, namespace: string)
    requires Inv(s, g, namespace)
    ensures Inv(Step(s, Remove(n), namespace), g, namespace)
  {
    hide Entries, MeetsAGoal, HasOwner;
    if n in s.connections {
      UserStepKeepsInv(s, Step(s, Remove(n), namespace), g, n, namespace);
    }
  }

  // ---- Steps of the controller ----

  ghost predicate PassStep(s: Store, t: Store, conn: Connection, namespace: string) {
    && Known(Net(s, [], []), conn)
    && t.connections - {conn.name} == s.connections - {conn.name}
    && (conn.name in t.connections ==> t.connections[conn.name].(finalizers := conn.finalizers) == conn)
    && (Entries(t) == Entries(s) || Entries(t) == Target(Entries(s), conn, namespace))
    && (Entries(t) != Entries(s) && !conn.terminating ==> Held(t, conn.name))
    && (Held(s, conn.name) && !Held(t, conn.name) ==> conn.terminating && conn.spec.clusterID !in Entries(t))
    && (conn.name !in t.connections ==> conn.terminating && !Held(t, conn.name))
  }

  lemma PassIsAStep(s: Store, faults: seq<Fault>, conn: Connection, namespace: string)
    requires Known(Net(s, faults, []), conn) && Clean(s) && s.configMap.Some? && !s.configMap.value.terminating
    ensures var r := Run(Net(s, faults, []), namespace, conn); var t := r.net.db;
      && WellFormed(t) && Clean(t) && t.configMap.Some? && !t.configMap.value.terminating
      && PassStep(s, t, conn, namespace)
      && (r.err == NoError && !r.requeue ==> Entries(t) == Target(Entries(s), conn, namespace))
  {
    hide Run, ReachesMap, AfterMap, MapOf, WellFormed, Distinct, GenerateClusterConfig;
    var net := Net(s, faults, []);
    RunByMap(net, namespace, conn);
    PassUpdatesMap(net, namespace, conn);
    if Held(s, conn.name) {
      TeardownIsOrdered(net, namespace, conn);
    }
  }

  lemma PassKeepsOwners(s: Store, t: Store, g: Goals, conn: Connection, namespace: string)
    requires Inv(s, g, namespace) && PassStep(s, t, conn, namespace)
    ensures forall id :: id in Entries(t) ==> HasOwner(t, id)
  {
    hide Entries, MeetsAGoal, WellFormed;
    forall id | id in Entries(t) ensures HasOwner(t, id) {
      if id in Entries(s) {
        assert HasOwner(s, id);
        var m :| Held(s, m) && s.connections[m].spec.clusterID == id;
        if m != conn.name {
          SameElsewhere(s, t, conn.name, m);
        }
        assert Held(t, m) && t.connections[m].spec.clusterID == id;
      } else {
        assert Held(t, conn.name) && t.connections[conn.name].spec.clusterID == id;
      }
    }
  }

  /** The pass moves the entry of its own connection to the aim, or leaves it; the entries of the
      others stay, since their ids are different. */
  lemma PassKeepsGoals(s: Store, t: Store, g: Goals, g': Goals, conn: Connection, namespace: string, m: string)
    requires Inv(s, g, namespace) && PassStep(s, t, conn, namespace)
    requires var aim := if conn.terminating then None else Some(conn.spec);
      || g' == g[conn.name := GoalsOf(g, conn.name) + {aim}]
      || (g' == g[conn.name := {aim}] && Entries(t) == Target(Entries(s), conn, namespace))
    ensures MeetsAGoal(t, g', m, namespace)
  {
    hide Entries, WellFormed, HasOwner, GenerateClusterConfig;
    assert MeetsAGoal(s, g, m, namespace);
    var id := conn.spec.clusterID;
    if m != conn.name {
      SameElsewhere(s, t, conn.name, m);
      assert GoalsOf(g', m) == GoalsOf(g, m);
      if m in s.connections {
        var o :| o in GoalsOf(g, m) && EntryMatches(Entries(s), m, s.connections[m].spec.clusterID, namespace, o);
        assert s.connections[m].spec.clusterID != id;
        assert EntryMatches(Entries(t), m, t.connections[m].spec.clusterID, namespace, o);
      }
    } else if m in t.connections {
      var aim := if conn.terminating then None else Some(conn.spec);
      if Entries(t) == Target(Entries(s), conn, namespace) {
        AimIsMet(Entries(s), conn, namespace);
        assert aim in GoalsOf(g', m) && EntryMatches(Entries(t), m, id, namespace, aim);
      } else {
        var o :| o in GoalsOf(g, m) && EntryMatches(Entries(s), m, id, namespace, o);
        assert o in GoalsOf(g', m) && EntryMatches(Entries(t), m, id, namespace, o);
      }
    }
  }

  lemma AimIsMet(entries: map<string, ClusterConfig>, conn: Connection, namespace: string)
    ensures EntryMatches(Target(entries, conn, namespace), conn.name, conn.spec.clusterID, namespace,
                         if conn.terminating then None else Some(conn.spec))
  {
  }

  lemma ReconcileKeepsInv(s: Store, g: Goals, n: string, faults: seq<Fault>, namespace: string)
    requires Inv(s, g, namespace)
    ensures Inv(Step(s, Reconcile(n, faults), namespace), Track(s, g, Reconcile(n, faults), namespace), namespace)
  {
    hide Run, Entries, WellFormed, HasOwner, MeetsAGoal, Clean, PassStep;
    var t := Step(s, Reconcile(n, faults), namespace);
    var g' := Track(s, g, Reconcile(n, faults), namespace);
    if n in s.connections && Pass(Net(s, faults, []), namespace, n).1.Some? {
      var conn := s.connections[n];
      NameOf(s, n);
      var net := Read<Store, Write>(Net(s, faults, [])).0;
      PassIsAStep(s, net.faults, conn, namespace);
      PassKeepsOwners(s, t, g, conn, namespace);
      PassKeepsDistinct(s, t, conn, namespace);
      forall m ensures MeetsAGoal(t, g', m, namespace) {
        PassKeepsGoals(s, t, g, g', conn, namespace, m);
      }
    }
  }

  lemma NameOf(s: Store, n: string)
    requires WellFormed(s) && n in s.connections
    ensures s.connections[n].name == n
  {
  }

  lemma PassKeepsDistinct(s: Store, t: Store, conn: Connection, namespace: string)
    requires DistinctIDs(s) && PassStep(s, t, conn, namespace)
    ensures DistinctIDs(t)
  {
    hide Entries, WellFormed, Target;
    forall m | m in t.connections && m != conn.name ensures m in s.connections && t.connections[m] == s.connections[m] {
      SameElsewhere(s, t, conn.name, m);
    }
  }

  // ---- Runs ----

  function After(s: Store, run: seq<Event>, namespace: string): Store
    decreases |run|
  {
    if run == [] then s else After(Step(s, run[0], namespace), run[1..], namespace)
  }

  function GoalsAfter(s: Store, g: Goals, run: seq<Event>, namespace: string): Goals
    decreases |run|
  {
    if run == [] then g else GoalsAfter(Step(s, run[0], namespace), Track(s, g, run[0], namespace), run[1..], namespace)
  }

  predicate AllLawful(s: Store, run: seq<Event>, namespace: string)
    decreases |run|
  {
    run == [] || (Lawful(s, run[0]) && AllLawful(Step(s, run[0], namespace), run[1..], namespace))
  }

  lemma {:induction false} RunKeepsInv(s: Store, g: Goals, run: seq<Event>, namespace: string)
    requires Inv(s, g, namespace) && AllLawful(s, run, namespace)
    ensures Inv(After(s, run, namespace), GoalsAfter(s, g, run, namespace), namespace)
    decreases |run|
  {
    hide Inv, Pass, Lawful;
    if run != [] {
      match run[0] {
        case Apply(conn) => ApplyKeepsInv(s, g, conn, namespace);
        case Remove(n) => RemoveKeepsInv(s, g, n, namespace);
        case Reconcile(n, faults) => ReconcileKeepsInv(s, g, n, faults, namespace);
      }
      RunKeepsInv(Step(s, run[0], namespace), Track(s, g, run[0], namespace), run[1..], namespace);
    }
  }

  /** The list refines a map, whatever the order and however passes fail: its ids stay distinct;
      every entry belongs to a connection that still carries the finalizer; and the entry of each
      connection is the configuration generated from the spec last reconciled, or from one tried
      since, or absent if none was or a teardown was tried. */
  lemma ListIsTheMap(s: Store, run: seq<Event>, namespace: string)
    requires WellFormed(s) && s.configMap == None && DistinctIDs(s) && AllLawful(Ensured(s), run, namespace)
    ensures var t := After(Ensured(s), run, namespace); var g := GoalsAfter(Ensured(s), map[], run, namespace);
      && Clean(t)
      && (forall id :: id in Entries(t) ==> HasOwner(t, id))
      && (forall n :: MeetsAGoal(t, g, n, namespace))
  {
    hide WellFormed, Entries, HasOwner, MeetsAGoal, After, GoalsAfter, AllLawful, Clean;
    StartKeepsInv(s, namespace);
    RunKeepsInv(Ensured(s), map[], run, namespace);
  }

  /** Every connection's last pass reported success. */
  predicate AllSettled(s: Store, g: Goals) {
    forall n :: n in s.connections ==> exists o :: o in GoalsOf(g, n) && GoalsOf(g, n) == {o}
  }

  lemma OnlyGoalIsMet(s: Store, g: Goals, n: string, namespace: string, o: Option<Spec>)
    requires MeetsAGoal(s, g, n, namespace) && n in s.connections && GoalsOf(g, n) == {o}
    ensures EntryMatches(Entries(s), n, s.connections[n].spec.clusterID, namespace, o)
  {
    hide Entries, EntryMatches;
  }

  /** Once every connection's last pass succeeded, the map is exactly the configurations of the
      last reconciled specs: two runs that end with the same connections and the same specs
      reconciled end with the same map, in whatever order things happened. */
  lemma OrderDoesNotMatter(s: Store, t: Store, g: Goals, h: Goals, namespace: string)
    requires Inv(s, g, namespace) && Inv(t, h, namespace)
    requires s.connections == t.connections && AllSettled(s, g)
    requires forall n :: n in s.connections ==> GoalsOf(g, n) == GoalsOf(h, n)
    ensures Entries(s) == Entries(t)
  {
    hide Entries, WellFormed, Clean, DistinctIDs, MeetsAGoal;
    forall id ensures (id in Entries(s) <==> id in Entries(t)) && (id in Entries(s) ==> Entries(s)[id] == Entries(t)[id]) {
      if id in Entries(s) || id in Entries(t) {
        assert HasOwner(s, id) || HasOwner(t, id);
        var n :| n in s.connections && s.connections[n].spec.clusterID == id;
        var o :| o in GoalsOf(g, n) && GoalsOf(g, n) == {o};
        OnlyGoalIsMet(s, g, n, namespace, o);
        OnlyGoalIsMet(t, h, n, namespace, o);
      }
    }
  }
}
