/** Moving VolumeSnapshotClasses and VolumeSnapshotContents to the new secrets. Nobody else writes
    meanwhile, so that every update finds the object as it was listed. */
module SnapshotMigration {
  import opened Kube
  import MigrationStore

  const LABEL_TRUE := "true"
  const LABEL_FALSE := "false"
  const CLUSTER_ID := "clusterID"
  const SNAPSHOTTER_SECRET_NAME := "csi.storage.k8s.io/snapshotter-secret-name"
  const SNAPSHOTTER_SECRET_NAMESPACE := "csi.storage.k8s.io/snapshotter-secret-namespace"
  const DELETION_SECRET_NAME := "snapshot.storage.kubernetes.io/deletion-secret-name"
  const DELETION_SECRET_NAMESPACE := "snapshot.storage.kubernetes.io/deletion-secret-namespace"

  /** Parameters may be nil; writing into nil parameters would crash. */
  datatype VSClass = VSClass(name: string, labels: map<string, string>, driver: string, parameters: Option<map<string, string>>)
  datatype VSContent = VSContent(name: string, labels: map<string, string>, annotations: map<string, string>,
                                 driver: string, className: Option<string>)
  type Connection = MigrationStore.Connection

  /** Label key and secret prefixes of the migration at hand. */
  datatype Migration = Migration(key: string, oldPrefix: string, newPrefix: string)

  function Parameter(c: VSClass, key: string): string {
    if c.parameters.Some? then Lookup(c.parameters.value, key) else ""
  }

  // ---- Which connection a class belongs to ----

  /** The old secret's name is the prefix and the connection's name. */
  predicate NamedBySecret(secretName: string, prefix: string, name: string) {
    prefix != "" && secretName == prefix + name
  }

  method ConnectionNameByOldSecretName(secretName: string, prefix: string, conns: seq<Connection>) returns (name: string)
    ensures name != "" ==> NamedBySecret(secretName, prefix, name) && exists c :: c in conns && c.name == name
    ensures name == "" ==> forall c :: c in conns && c.name != "" ==> !NamedBySecret(secretName, prefix, c.name)
  {
    if secretName == "" {
      return "";
    }
    var rest := if prefix <= secretName then secretName[|prefix|..] else secretName;
    if rest == secretName {
      return "";
    }
    assert secretName == prefix + rest;
    forall n | NamedBySecret(secretName, prefix, n) ensures n == rest {
      assert n == secretName[|prefix|..];
    }
    for i := 0 to |conns|
      invariant forall j :: 0 <= j < i ==> conns[j].name != rest
    {
      if conns[i].name == rest {
        return conns[i].name;
      }
    }
    return "";
  }

  /** The connection at position i is the first one listed for the cluster. */
  predicate FirstOf(conns: seq<Connection>, clusterID: string, i: int) {
    0 <= i < |conns| && conns[i].spec.clusterID == clusterID && forall j :: 0 <= j < i ==> conns[j].spec.clusterID != clusterID
  }

  method ConnectionNameByClusterID(clusterID: string, conns: seq<Connection>) returns (name: string)
    ensures clusterID != "" ==> forall i :: FirstOf(conns, clusterID, i) ==> name == conns[i].name
    ensures name != "" ==> clusterID != "" && exists i :: FirstOf(conns, clusterID, i) && conns[i].name == name
    ensures name == "" && clusterID != "" && (forall c :: c in conns ==> c.name != "") ==>
      forall c :: c in conns ==> c.spec.clusterID != clusterID
  {
    if clusterID == "" {
      return "";
    }
    for i := 0 to |conns|
      invariant forall j :: 0 <= j < i ==> conns[j].spec.clusterID != clusterID
    {
      if conns[i].spec.clusterID == clusterID {
        assert FirstOf(conns, clusterID, i);
        return conns[i].name;
      }
    }
    return "";
  }

  /** The first connection listed for the cluster. */
  function ByClusterID(clusterID: string, conns: seq<Connection>): string {
    if clusterID == "" || conns == [] then ""
    else if conns[0].spec.clusterID == clusterID then conns[0].name
    else ByClusterID(clusterID, conns[1..])
  }

  /** What the old secret's name leaves after the prefix, if a connection has that name. */
  function BySecret(secretName: string, prefix: string, conns: seq<Connection>): string {
    if prefix != "" && prefix <= secretName && exists c :: c in conns && c.name == secretName[|prefix|..] then secretName[|prefix|..] else ""
  }

  function Owner(c: VSClass, m: Migration, conns: seq<Connection>): string {
    var name := BySecret(Parameter(c, SNAPSHOTTER_SECRET_NAME), m.oldPrefix, conns);
    if name != "" then name else ByClusterID(Parameter(c, CLUSTER_ID), conns)
  }

  lemma BySecretIsNamed(secretName: string, prefix: string, conns: seq<Connection>, name: string)
    requires name != "" ==> NamedBySecret(secretName, prefix, name) && exists c :: c in conns && c.name == name
    requires name == "" ==> forall c :: c in conns && c.name != "" ==> !NamedBySecret(secretName, prefix, c.name)
    ensures name == BySecret(secretName, prefix, conns)
  {
  }

  lemma {:induction false} ByClusterIDIsFirst(clusterID: string, conns: seq<Connection>)
    ensures forall i :: clusterID != "" && FirstOf(conns, clusterID, i) ==> ByClusterID(clusterID, conns) == conns[i].name
    ensures ByClusterID(clusterID, conns) != "" ==>
      clusterID != "" && exists i :: FirstOf(conns, clusterID, i) && conns[i].name == ByClusterID(clusterID, conns)
    ensures (forall c :: c in conns ==> c.spec.clusterID != clusterID) ==> ByClusterID(clusterID, conns) == ""
  {
    if conns != [] {
      if conns[0].spec.clusterID == clusterID {
        assert clusterID != "" ==> FirstOf(conns, clusterID, 0);
      } else {
        ByClusterIDIsFirst(clusterID, conns[1..]);
        forall i | FirstOf(conns, clusterID, i) ensures i > 0 && FirstOf(conns[1..], clusterID, i - 1) {
        }
        forall i | FirstOf(conns[1..], clusterID, i) ensures FirstOf(conns, clusterID, i + 1) && conns[i + 1] == conns[1..][i] {
        }
      }
    }
  }

  /** The parameter is there and has this value. */
  predicate Says(c: VSClass, key: string, value: string) {
    c.parameters.Some? && key in c.parameters.value && c.parameters.value[key] == value
  }

  /** A listed connection of this name is the one whose old secret the class names. */
  ghost predicate BelongsBySecret(c: VSClass, m: Migration, conns: seq<Connection>, name: string) {
    && name != "" && m.oldPrefix != "" && Says(c, "csi.storage.k8s.io/snapshotter-secret-name", m.oldPrefix + name)
    && exists k :: k in conns && k.name == name
  }

  /** The class is of the connection with this name: by its old secret, or else by its cluster id,
      of which the first listed connection counts. */
  ghost predicate Belongs(c: VSClass, m: Migration, conns: seq<Connection>, name: string) {
    || BelongsBySecret(c, m, conns, name)
    || (&& (forall other :: !BelongsBySecret(c, m, conns, other))
        && name != ""
        && exists i :: 0 <= i < |conns| && conns[i].name == name && FirstOf(conns, conns[i].spec.clusterID, i)
             && conns[i].spec.clusterID != "" && Says(c, "clusterID", conns[i].spec.clusterID))
  }

  lemma OwnerBelongs(c: VSClass, m: Migration, conns: seq<Connection>)
    ensures Owner(c, m, conns) != "" ==> Belongs(c, m, conns, Owner(c, m, conns))
    ensures forall name :: Belongs(c, m, conns, name) ==> Owner(c, m, conns) == name
  {
    var secret, id := Parameter(c, SNAPSHOTTER_SECRET_NAME), Parameter(c, CLUSTER_ID);
    ByClusterIDIsFirst(id, conns);
    var found := BySecret(secret, m.oldPrefix, conns);
    forall name | BelongsBySecret(c, m, conns, name) ensures found == name {
      assert (m.oldPrefix + name)[|m.oldPrefix|..] == name;
    }
    if found != "" {
      assert m.oldPrefix + found == secret;
      assert BelongsBySecret(c, m, conns, found);
    } else if Owner(c, m, conns) != "" {
      var i :| FirstOf(conns, id, i) && conns[i].name == ByClusterID(id, conns);
      assert Says(c, "clusterID", conns[i].spec.clusterID);
    }
  }

  // ---- What migration makes of an object ----

  predicate ToMigrate(c: VSClass, m: Migration) {
    Allowed(c.driver) && Lookup(c.labels, m.key) != LABEL_TRUE
  }

  /** A class with an owner has parameters: the owner was found by one of them. */
  lemma OwnedHasParameters(c: VSClass, m: Migration, conns: seq<Connection>)
    ensures Owner(c, m, conns) != "" ==> c.parameters.Some?
  {
  }

  function MigratedClass(c: VSClass, m: Migration, conns: seq<Connection>): VSClass {
    if !ToMigrate(c, m) then c
    else if Owner(c, m, conns) == "" then c.(labels := c.labels[m.key := LABEL_FALSE])
    else
      OwnedHasParameters(c, m, conns);
      c.(labels := c.labels[m.key := LABEL_TRUE],
         parameters := Some(c.parameters.value[SNAPSHOTTER_SECRET_NAME := m.newPrefix + Owner(c, m, conns)]
                                              [SNAPSHOTTER_SECRET_NAMESPACE := MODULE_NAMESPACE]))
  }

  /** The class gets a new secret in this run. */
  predicate Moves(c: VSClass, m: Migration, conns: seq<Connection>) {
    ToMigrate(c, m) && Owner(c, m, conns) != ""
  }

  predicate Allowed(driver: string) {
    driver == "rbd.csi.ceph.com" || driver == "cephfs.csi.ceph.com"
  }

  lemma AllowedIsListed(driver: string)
    ensures Allowed(driver) <==> driver in ALLOWED_PROVISIONERS
  {
  }

  function Annotated(v: VSContent, secretName: string, m: Migration): VSContent {
    v.(labels := v.labels[m.key := LABEL_TRUE],
       annotations := v.annotations[DELETION_SECRET_NAME := secretName][DELETION_SECRET_NAMESPACE := MODULE_NAMESPACE])
  }

  function ContentOf(v: VSContent, secretName: string, m: Migration): VSContent {
    if Allowed(v.driver) && Lookup(v.labels, m.key) != LABEL_TRUE then Annotated(v, secretName, m) else v
  }

  /** The content follows its class if that is migrated in this run. */
  function MigratedContent(v: VSContent, classes: map<string, VSClass>, m: Migration, conns: seq<Connection>): VSContent {
    if v.className.Some? && v.className.value in classes && Moves(classes[v.className.value], m, conns)
    then ContentOf(v, m.newPrefix + Owner(classes[v.className.value], m, conns), m)
    else v
  }

  ghost predicate Named(classes: map<string, VSClass>, contents: map<string, VSContent>) {
    (forall n :: n in classes ==> classes[n].name == n) && (forall n :: n in contents ==> contents[n].name == n)
  }

  ghost predicate ListsClasses(list: seq<VSClass>, classes: map<string, VSClass>) {
    && (forall i :: 0 <= i < |list| ==> list[i].name in classes && classes[list[i].name] == list[i])
    && (forall i, j :: 0 <= i < j < |list| ==> list[i].name != list[j].name)
    && (forall n :: n in classes ==> classes[n] in list && classes[n].name == n)
  }

  ghost predicate ListsContents(list: seq<VSContent>, contents: map<string, VSContent>) {
    && (forall i :: 0 <= i < |list| ==> list[i].name in contents && contents[list[i].name] == list[i])
    && (forall i, j :: 0 <= i < j < |list| ==> list[i].name != list[j].name)
    && (forall n :: n in contents ==> contents[n] in list && contents[n].name == n)
  }

  /** Every stored connection once, in some order. */
  ghost predicate ListsConnections(list: seq<Connection>, connections: map<string, Connection>) {
    && (forall i :: 0 <= i < |list| ==> list[i].name in connections && connections[list[i].name] == list[i])
    && (forall i, j :: 0 <= i < j < |list| ==> list[i].name != list[j].name)
    && (forall n :: n in connections ==> connections[n] in list && connections[n].name == n)
  }

  /** The contents of the classes in `done` are as aimed at, those of the class `current` may be,
      the others are as listed. */
  ghost predicate Progress(contents: map<string, VSContent>, orig: map<string, VSContent>, aim: map<string, VSContent>,
                           done: set<string>, current: Option<string>) {
    && contents.Keys == orig.Keys == aim.Keys
    && forall n :: n in orig ==>
      var class_ := orig[n].className;
      if class_.Some? && class_.value in done then contents[n] == aim[n]
      else if class_.Some? && class_ == current then contents[n] == orig[n] || contents[n] == aim[n]
      else contents[n] == orig[n]
  }

  /** Of the contents listed for the class, the first i are as aimed at and the rest as listed. */
  ghost predicate Reached(contents: map<string, VSContent>, list: seq<VSContent>, i: nat, className: string, aim: map<string, VSContent>) {
    forall j :: 0 <= j < |list| && list[j].className == Some(className) ==>
      list[j].name in contents && list[j].name in aim && contents[list[j].name] == if j < i then aim[list[j].name] else list[j]
  }

  lemma EnterClass(contents: map<string, VSContent>, list: seq<VSContent>, className: string,
                   orig: map<string, VSContent>, aim: map<string, VSContent>, done: set<string>)
    requires ListsContents(list, orig) && Progress(contents, orig, aim, done, None) && className !in done
    ensures Progress(contents, orig, aim, done, Some(className)) && Reached(contents, list, 0, className, aim)
  {
  }

  /** Writing the i-th content, or passing it over. */
  lemma NextContent(contents: map<string, VSContent>, after: map<string, VSContent>, list: seq<VSContent>, i: nat, className: string,
                    orig: map<string, VSContent>, aim: map<string, VSContent>, done: set<string>)
    requires i < |list| && ListsContents(list, orig) && className !in done
    requires Progress(contents, orig, aim, done, Some(className)) && Reached(contents, list, i, className, aim)
    requires list[i].name in aim
    requires after == contents || (list[i].className == Some(className) && after == contents[list[i].name := aim[list[i].name]])
    ensures Progress(after, orig, aim, done, Some(className))
    ensures after == contents[list[i].name := aim[list[i].name]] && list[i].className == Some(className) ==>
      Reached(after, list, i + 1, className, aim)
    ensures list[i].className != Some(className) ==> Reached(after, list, i + 1, className, aim)
  {
    assert forall n :: n in contents <==> n in orig;
    if list[i].className == Some(className) && after == contents[list[i].name := aim[list[i].name]] {
      assert after.Keys == contents.Keys;
      NextReached(contents, after, list, i, className, aim);
    } else if list[i].className != Some(className) {
      assert after == contents;
    }
  }

  lemma NextReached(contents: map<string, VSContent>, after: map<string, VSContent>, list: seq<VSContent>, i: nat, className: string,
                    aim: map<string, VSContent>)
    requires i < |list| && Reached(contents, list, i, className, aim) && list[i].className == Some(className)
    requires forall k, j :: 0 <= k < j < |list| ==> list[k].name != list[j].name
    requires list[i].name in aim && after == contents[list[i].name := aim[list[i].name]]
    ensures Reached(after, list, i + 1, className, aim)
  {
  }

  lemma ListedContent(contents: map<string, VSContent>, list: seq<VSContent>, i: nat, className: string,
                      orig: map<string, VSContent>, aim: map<string, VSContent>, done: set<string>)
    requires i < |list| && ListsContents(list, orig)
    requires Progress(contents, orig, aim, done, Some(className)) && Reached(contents, list, i, className, aim)
    ensures list[i].name in contents && list[i].name in aim && list[i].name in orig && orig[list[i].name] == list[i]
    ensures list[i].className == Some(className) ==> contents[list[i].name] == list[i]
  {
  }

  lemma LeaveClass(contents: map<string, VSContent>, list: seq<VSContent>, className: string,
                   orig: map<string, VSContent>, aim: map<string, VSContent>, done: set<string>)
    requires ListsContents(list, orig) && Progress(contents, orig, aim, done, Some(className))
    requires Reached(contents, list, |list|, className, aim)
    ensures Progress(contents, orig, aim, done + {className}, None)
  {
  }

  /** The first i classes listed are migrated, the rest are as listed. */
  ghost predicate ClassesReached(classes: map<string, VSClass>, list: seq<VSClass>, i: nat, m: Migration, conns: seq<Connection>) {
    forall j :: 0 <= j < |list| ==>
      list[j].name in classes && classes[list[j].name] == if j < i then MigratedClass(list[j], m, conns) else list[j]
  }

  /** The classes done are among the first i, and all of those that get a new secret. */
  ghost predicate DoneSoFar(done: set<string>, list: seq<VSClass>, i: nat, m: Migration, conns: seq<Connection>) {
    && (forall j :: 0 <= j < |list| && list[j].name in done ==> j < i)
    && (forall j :: 0 <= j < |list| && j < i && Moves(list[j], m, conns) ==> list[j].name in done)
  }

  lemma NextClass(classes: map<string, VSClass>, after: map<string, VSClass>, list: seq<VSClass>, i: nat, orig: map<string, VSClass>,
                  m: Migration, conns: seq<Connection>)
    requires i < |list| && ListsClasses(list, orig) && ClassesReached(classes, list, i, m, conns) && classes.Keys == orig.Keys
    requires after == classes || after == classes[list[i].name := MigratedClass(list[i], m, conns)]
    ensures after.Keys == orig.Keys
    ensures after == classes[list[i].name := MigratedClass(list[i], m, conns)] ==> ClassesReached(after, list, i + 1, m, conns)
    ensures forall n :: n in after ==> after[n] == orig[n] || after[n] == MigratedClass(orig[n], m, conns)
  {
    hide MigratedClass;
    forall n | n in after ensures after[n] == orig[n] || after[n] == MigratedClass(orig[n], m, conns) {
      assert n in orig.Keys;
      var j :| 0 <= j < |list| && list[j] == orig[n];
    }
  }

  /** Where the loop over the classes stands before the i-th. */
  ghost predicate LoopAt(classes: map<string, VSClass>, contents: map<string, VSContent>, list: seq<VSClass>, i: nat,
                         origClasses: map<string, VSClass>, orig: map<string, VSContent>, aim: map<string, VSContent>,
                         done: set<string>, m: Migration, conns: seq<Connection>) {
    && classes.Keys == origClasses.Keys
    && ClassesReached(classes, list, i, m, conns) && DoneSoFar(done, list, i, m, conns)
    && Progress(contents, orig, aim, done, None)
  }

  /** Every class and content is as it was or as migration makes it. */
  ghost predicate BetweenRuns(classes: map<string, VSClass>, contents: map<string, VSContent>, origClasses: map<string, VSClass>,
                              orig: map<string, VSContent>, m: Migration, conns: seq<Connection>) {
    && classes.Keys == origClasses.Keys && contents.Keys == orig.Keys
    && (forall n :: n in classes ==> classes[n] == origClasses[n] || classes[n] == MigratedClass(origClasses[n], m, conns))
    && (forall n :: n in contents ==> contents[n] == orig[n] || contents[n] == MigratedContent(orig[n], origClasses, m, conns))
  }

  lemma BetweenMeans(classes: map<string, VSClass>, contents: map<string, VSContent>, origClasses: map<string, VSClass>,
                     orig: map<string, VSContent>, m: Migration, conns: seq<Connection>)
    requires BetweenRuns(classes, contents, origClasses, orig, m, conns)
    ensures classes.Keys == origClasses.Keys && contents.Keys == orig.Keys
    ensures forall n :: n in classes ==> classes[n] == origClasses[n] || classes[n] == MigratedClass(origClasses[n], m, conns)
    ensures forall n :: n in contents ==> contents[n] == orig[n] || contents[n] == MigratedContent(orig[n], origClasses, m, conns)
  {
  }

  lemma Start(list: seq<VSClass>, orig: map<string, VSContent>, origClasses: map<string, VSClass>, aim: map<string, VSContent>,
              m: Migration, conns: seq<Connection>)
    requires ListsClasses(list, origClasses) && aim == map n | n in orig :: MigratedContent(orig[n], origClasses, m, conns)
    ensures LoopAt(origClasses, orig, list, 0, origClasses, orig, aim, {}, m, conns) && IsAim(aim, orig, origClasses, m, conns)
  {
  }

  lemma ListedClass(classes: map<string, VSClass>, list: seq<VSClass>, i: nat, orig: map<string, VSClass>,
                    m: Migration, conns: seq<Connection>)
    requires i < |list| && ListsClasses(list, orig) && ClassesReached(classes, list, i, m, conns)
    ensures list[i].name in classes && classes[list[i].name] == list[i]
    ensures list[i].name in orig && orig[list[i].name] == list[i]
  {
  }

  lemma NextDone(done: set<string>, list: seq<VSClass>, i: nat, orig: map<string, VSClass>, m: Migration, conns: seq<Connection>)
    requires i < |list| && ListsClasses(list, orig) && DoneSoFar(done, list, i, m, conns)
    ensures list[i].name !in done
    ensures DoneSoFar(done + {list[i].name}, list, i + 1, m, conns)
    ensures !Moves(list[i], m, conns) ==> DoneSoFar(done, list, i + 1, m, conns)
  {
  }

  /** When the loop has gone through all classes. */
  lemma AllDone(classes: map<string, VSClass>, contents: map<string, VSContent>, list: seq<VSClass>,
                origClasses: map<string, VSClass>, orig: map<string, VSContent>, aim: map<string, VSContent>,
                done: set<string>, m: Migration, conns: seq<Connection>)
    requires ListsClasses(list, origClasses) && IsAim(aim, orig, origClasses, m, conns)
    requires LoopAt(classes, contents, list, |list|, origClasses, orig, aim, done, m, conns)
    ensures classes.Keys == origClasses.Keys && contents.Keys == orig.Keys
    ensures forall n :: n in classes ==> classes[n] == MigratedClass(origClasses[n], m, conns)
    ensures forall n :: n in contents ==> n in orig && contents[n] == MigratedContent(orig[n], origClasses, m, conns)
  {
  }

  ghost predicate IsAim(aim: map<string, VSContent>, orig: map<string, VSContent>, classes: map<string, VSClass>,
                        m: Migration, conns: seq<Connection>) {
    aim.Keys == orig.Keys && forall n :: n in orig ==> aim[n] == MigratedContent(orig[n], classes, m, conns)
  }

  lemma AimOf(aim: map<string, VSContent>, orig: map<string, VSContent>, classes: map<string, VSClass>, c: VSClass,
              m: Migration, conns: seq<Connection>)
    requires IsAim(aim, orig, classes, m, conns) && c.name in classes && classes[c.name] == c && Moves(c, m, conns)
    ensures forall n :: n in orig && orig[n].className == Some(c.name) ==>
      aim[n] == ContentOf(orig[n], m.newPrefix + Owner(c, m, conns), m)
  {
  }

  // ---- A run that is cut short ----

  /** The class loop would annotate the content with its class. */
  predicate Due(v: VSContent, className: string, m: Migration) {
    v.className == Some(className) && Allowed(v.driver) && Lookup(v.labels, m.key) != LABEL_TRUE
  }

  /** Class c is the only one to migrate, gets a new secret, and has a content that is due. */
  ghost predicate MovesAlone(classes: map<string, VSClass>, contents: map<string, VSContent>, c: string,
                             m: Migration, conns: seq<Connection>) {
    && c in classes && Moves(classes[c], m, conns)
    && (forall n :: n in classes && n != c ==> !ToMigrate(classes[n], m))
    && exists n :: n in contents && Due(contents[n], c, m)
  }

  ghost predicate OneMoves(classes: map<string, VSClass>, contents: map<string, VSContent>, m: Migration, conns: seq<Connection>) {
    exists c :: MovesAlone(classes, contents, c, m, conns)
  }

  /** The run has migrated that class and nothing else. */
  ghost predicate CutShort(classes: map<string, VSClass>, contents: map<string, VSContent>, after: map<string, VSClass>,
                           contentsAfter: map<string, VSContent>, m: Migration, conns: seq<Connection>) {
    && contentsAfter == contents
    && exists c :: MovesAlone(classes, contents, c, m, conns) && after == classes[c := MigratedClass(classes[c], m, conns)]
  }

  lemma CutShortHere(classes: map<string, VSClass>, contents: map<string, VSContent>, after: map<string, VSClass>,
                     contentsAfter: map<string, VSContent>, c: string, m: Migration, conns: seq<Connection>)
    requires MovesAlone(classes, contents, c, m, conns) && contentsAfter == contents
    requires after == classes[c := MigratedClass(classes[c], m, conns)]
    ensures CutShort(classes, contents, after, contentsAfter, m, conns)
  {
  }

  ghost predicate Untouched(list: seq<VSClass>, i: nat, c: string) {
    forall j :: 0 <= j < i && j < |list| ==> list[j].name != c
  }

  lemma UnmovedStays(c: VSClass, m: Migration, conns: seq<Connection>)
    ensures !ToMigrate(c, m) ==> !Moves(c, m, conns) && MigratedClass(c, m, conns) == c
  {
  }

  lemma AloneAt(list: seq<VSClass>, contentList: seq<VSContent>, classes: map<string, VSClass>, contents: map<string, VSContent>,
                i: nat, c: string, m: Migration, conns: seq<Connection>)
    requires ListsClasses(list, classes) && ListsContents(contentList, contents) && i < |list|
    requires MovesAlone(classes, contents, c, m, conns)
    ensures list[i].name != c ==>
      !ToMigrate(list[i], m)
    ensures list[i].name == c ==>
      Moves(list[i], m, conns) && classes[c] == list[i] && exists v :: v in contentList && Due(v, c, m)
  {
    hide Due, Owner;
    var n :| n in contents && Due(contents[n], c, m);
    assert contents[n] in contentList;
  }

  lemma AloneIsListed(list: seq<VSClass>, classes: map<string, VSClass>, contents: map<string, VSContent>, c: string,
                      m: Migration, conns: seq<Connection>)
    requires ListsClasses(list, classes) && MovesAlone(classes, contents, c, m, conns)
    ensures !Untouched(list, |list|, c)
  {
    assert classes[c] in list;
  }

  lemma AnnotatedDiffers(v: VSContent, className: string, secretName: string, m: Migration)
    ensures Due(v, className, m) ==> Annotated(v, secretName, m) != v
  {
    assert Lookup(Annotated(v, secretName, m).labels, m.key) == LABEL_TRUE;
  }

  /** Contents between a run's start and its end. */
  lemma Between(contents: map<string, VSContent>, orig: map<string, VSContent>, aim: map<string, VSContent>, done: set<string>,
                current: Option<string>, classes: map<string, VSClass>, m: Migration, conns: seq<Connection>)
    requires Progress(contents, orig, aim, done, current) && IsAim(aim, orig, classes, m, conns)
    ensures contents.Keys == orig.Keys
    ensures forall n :: n in contents ==> contents[n] == orig[n] || contents[n] == MigratedContent(orig[n], classes, m, conns)
  {
  }

  // ---- The migration ----

  class Client {
    var classes: map<string, VSClass>
    var contents: map<string, VSContent>
    var faults: seq<Fault>

    constructor (classes: map<string, VSClass>, contents: map<string, VSContent>, faults: seq<Fault>)
      ensures this.classes == classes && this.contents == contents && this.faults == faults
    {
      this.classes, this.contents, this.faults := classes, contents, faults;
    }

    method NextFault() returns (f: Fault)
      modifies this`faults
      ensures old(faults) == [] ==> f == Smooth && faults == []
      ensures old(faults) != [] ==> f == old(faults)[0] && faults == old(faults)[1..]
    {
      if faults == [] {
        return Smooth;
      }
      f, faults := faults[0], faults[1..];
    }

    method UpdateClassIfNeeded(prev: VSClass, c: VSClass) returns (err: Error)
      requires prev.name == c.name && c.name in classes && classes[c.name] == prev
      modifies this`classes, this`faults
      ensures classes == old(classes) || classes == old(classes)[c.name := c]
      ensures err == NoError ==> classes == old(classes)[c.name := c]
      ensures old(faults) == [] ==> err == NoError && faults == []
      ensures old(faults) != [] && prev != c ==> faults == old(faults)[1..] && (old(faults)[0] == Smooth ==> err == NoError)
    {
      if prev == c {
        assert classes == classes[c.name := c];
        return NoError;
      }
      var f := NextFault();
      if f != LostRequest {
        classes := classes[c.name := c];
      }
      return if f == Smooth then NoError else Transient;
    }

    method UpdateContentIfNeeded(prev: VSContent, v: VSContent) returns (err: Error)
      requires prev.name == v.name && v.name in contents && contents[v.name] == prev
      modifies this`contents, this`faults
      ensures contents == old(contents) || contents == old(contents)[v.name := v]
      ensures err == NoError ==> contents == old(contents)[v.name := v]
      ensures old(faults) == [] ==> err == NoError && faults == []
      ensures old(faults) != [] && prev != v ==>
        faults == old(faults)[1..] && (old(faults)[0] == LostRequest ==> err != NoError && contents == old(contents))
    {
      if prev == v {
        assert contents == contents[v.name := v];
        return NoError;
      }
      var f := NextFault();
      if f != LostRequest {
        contents := contents[v.name := v];
      }
      return if f == Smooth then NoError else Transient;
    }

    method Annotate(v: VSContent, newSecretName: string, m: Migration) returns (newContent: VSContent)
      ensures newContent == Annotated(v, newSecretName, m) && newContent.name == v.name
    {
      newContent := v.(labels := v.labels[m.key := LABEL_TRUE]);
      newContent := newContent.(annotations := newContent.annotations[DELETION_SECRET_NAME := newSecretName]);
      newContent := newContent.(annotations := newContent.annotations[DELETION_SECRET_NAMESPACE := MODULE_NAMESPACE]);
    }

    method MigrateVSContents(list: seq<VSContent>, className: string, newSecretName: string, m: Migration,
                             ghost orig: map<string, VSContent>, ghost aim: map<string, VSContent>, ghost done: set<string>)
      returns (err: Error)
      requires ListsContents(list, orig) && Progress(contents, orig, aim, done, None) && className !in done
      requires forall n :: n in orig && orig[n].className == Some(className) ==> aim[n] == ContentOf(orig[n], newSecretName, m)
      modifies this`contents, this`faults
      ensures Progress(contents, orig, aim, done, Some(className))
      ensures err == NoError ==> Progress(contents, orig, aim, done + {className}, None)
      ensures old(faults) == [] ==> err == NoError && faults == []
      ensures old(faults) != [] && old(faults)[0] == LostRequest && (exists v :: v in list && Due(v, className, m)) ==>
        err != NoError && contents == old(contents) && faults == old(faults)[1..]
    {
      hide ContentOf, Annotated, Allowed, Lookup, Progress, Reached;
      ghost var lost := old(faults) != [] && old(faults)[0] == LostRequest;
      EnterClass(contents, list, className, orig, aim, done);
      for i := 0 to |list|
        invariant Progress(contents, orig, aim, done, Some(className))
        invariant Reached(contents, list, i, className, aim)
        invariant old(faults) == [] ==> faults == []
        invariant lost ==> contents == old(contents) && faults == old(faults) && forall j :: 0 <= j < i ==> !Due(list[j], className, m)
      {
        var v := list[i];
        ghost var before := contents;
        ListedContent(contents, list, i, className, orig, aim, done);
        SkippedContent(v, newSecretName, m);
        AllowedIsListed(v.driver);
        if v.driver !in ALLOWED_PROVISIONERS || v.className.None? || v.className.value != className || Lookup(v.labels, m.key) == LABEL_TRUE {
          if v.className == Some(className) {
            assert contents == contents[v.name := v];
          }
          NextContent(before, contents, list, i, className, orig, aim, done);
          continue;
        }
        var newContent := Annotate(v, newSecretName, m);
        AnnotatedDiffers(v, className, newSecretName, m);
        err := UpdateContentIfNeeded(v, newContent);
        NextContent(before, contents, list, i, className, orig, aim, done);
        if err != NoError {
          return;
        }
      }
      LeaveClass(contents, list, className, orig, aim, done);
      return NoError;
    }

    /** One class of the loop; `moved` says that it got a new secret. */
    method MigrateVSClass(c: VSClass, m: Migration, conns: seq<Connection>) returns (moved: bool, newSecretName: string, err: Error)
      requires c.name in classes && classes[c.name] == c
      modifies this`classes, this`faults
      ensures classes == old(classes) || classes == old(classes)[c.name := MigratedClass(c, m, conns)]
      ensures err == NoError ==> classes == old(classes)[c.name := MigratedClass(c, m, conns)]
      ensures err == NoError ==> (moved <==> Moves(c, m, conns))
      ensures err == NoError && moved ==> newSecretName == m.newPrefix + Owner(c, m, conns)
      ensures old(faults) == [] ==> err == NoError && faults == []
      ensures !ToMigrate(c, m) ==> err == NoError && faults == old(faults)
      ensures Moves(c, m, conns) && old(faults) != [] && old(faults)[0] == Smooth ==> err == NoError && faults == old(faults)[1..]
    {
      hide BySecret, ByClusterID;
      moved, newSecretName := false, "";
      AllowedIsListed(c.driver);
      if c.driver !in ALLOWED_PROVISIONERS || Lookup(c.labels, m.key) == LABEL_TRUE {
        assert classes == classes[c.name := c];
        return false, "", NoError;
      }
      var oldSecretName := Parameter(c, SNAPSHOTTER_SECRET_NAME);
      var owner := ConnectionNameByOldSecretName(oldSecretName, m.oldPrefix, conns);
      BySecretIsNamed(oldSecretName, m.oldPrefix, conns, owner);
      if owner == "" {
        owner := ConnectionNameByClusterID(Parameter(c, CLUSTER_ID), conns);
        ByClusterIDIsFirst(Parameter(c, CLUSTER_ID), conns);
        if owner == "" {
          err := UpdateClassIfNeeded(c, c.(labels := c.labels[m.key := LABEL_FALSE]));
          return false, "", err;
        }
      }
      OwnedHasParameters(c, m, conns);
      newSecretName := m.newPrefix + owner;
      var params := c.parameters.value;
      params := params[SNAPSHOTTER_SECRET_NAME := newSecretName];
      params := params[SNAPSHOTTER_SECRET_NAMESPACE := MODULE_NAMESPACE];
      err := UpdateClassIfNeeded(c, c.(parameters := Some(params), labels := c.labels[m.key := LABEL_TRUE]));
      moved := true;
    }

    /** Lists, then goes through the classes. Whatever fails, every class and every content is
        afterwards either as it was or as migration makes it, going by the connections in the order
        listed; and without an error all are as migration makes them. */
    method MigrateVSClassesAndVSContents(m: Migration, connections: map<string, Connection>)
      returns (err: Error, ghost conns: seq<Connection>)
      requires Named(classes, contents) && forall n :: n in connections ==> connections[n].name == n
      modifies this
      ensures classes.Keys == old(classes).Keys && contents.Keys == old(contents).Keys
      ensures ListsConnections(conns, connections) || (err != NoError && classes == old(classes) && contents == old(contents))
      ensures forall n :: n in classes ==> classes[n] == old(classes)[n] || classes[n] == MigratedClass(old(classes)[n], m, conns)
      ensures forall n :: n in contents ==>
        contents[n] == old(contents)[n] || contents[n] == MigratedContent(old(contents)[n], old(classes), m, conns)
      ensures err == NoError ==>
        && (forall n :: n in classes ==> classes[n] == MigratedClass(old(classes)[n], m, conns))
        && (forall n :: n in contents ==> contents[n] == MigratedContent(old(contents)[n], old(classes), m, conns))
      ensures old(faults) == [] ==> err == NoError
      ensures |old(faults)| >= 5 && old(faults)[..4] == [Smooth, Smooth, Smooth, Smooth] && old(faults)[4] == LostRequest ==>
        && ListsConnections(conns, connections)
        && (OneMoves(old(classes), old(contents), m, conns) ==>
              CutShort(old(classes), old(contents), classes, contents, m, conns) && faults == old(faults)[5..])
    {
      hide ListsConnections, MigratedClass, MigratedContent, OneMoves, CutShort;
      FirstFour(faults);
      conns := [];
      var list, contentList, connectionList;
      err, list := ListClasses();
      if err != NoError {
        return;
      }
      err, contentList := ListContents();
      if err != NoError {
        return;
      }
      err, connectionList := ListConnections(connections);
      if err != NoError {
        return;
      }
      conns := connectionList;
      err := MigrateListed(list, contentList, m, connectionList);
    }

    /** The loop over the listed classes. */
    method MigrateListed(list: seq<VSClass>, contentList: seq<VSContent>, m: Migration, conns: seq<Connection>) returns (err: Error)
      requires ListsClasses(list, classes) && ListsContents(contentList, contents)
      modifies this
      ensures classes.Keys == old(classes).Keys && contents.Keys == old(contents).Keys
      ensures forall n :: n in classes ==> classes[n] == old(classes)[n] || classes[n] == MigratedClass(old(classes)[n], m, conns)
      ensures forall n :: n in contents ==>
        contents[n] == old(contents)[n] || contents[n] == MigratedContent(old(contents)[n], old(classes), m, conns)
      ensures err == NoError ==>
        && (forall n :: n in classes ==> classes[n] == MigratedClass(old(classes)[n], m, conns))
        && (forall n :: n in contents ==> contents[n] == MigratedContent(old(contents)[n], old(classes), m, conns))
      ensures old(faults) == [] ==> err == NoError
      ensures |old(faults)| >= 2 && old(faults)[0] == Smooth && old(faults)[1] == LostRequest ==>
        OneMoves(old(classes), old(contents), m, conns) ==>
          CutShort(old(classes), old(contents), classes, contents, m, conns) && faults == old(faults)[2..]
    {
      hide MigratedClass, Moves, MigratedContent, IsAim, ListsClasses, ListsContents, MovesAlone, CutShort, ToMigrate, Due, LoopAt,
        BetweenRuns;
      ghost var orig, origClasses := contents, classes;
      ghost var aim := map n | n in orig :: MigratedContent(orig[n], origClasses, m, conns);
      ghost var done: set<string> := {};
      ghost var lost := |old(faults)| >= 2 && old(faults)[0] == Smooth && old(faults)[1] == LostRequest;
      ghost var alone := OneMoves(origClasses, orig, m, conns);
      ghost var only :| alone ==> MovesAlone(origClasses, orig, only, m, conns);
      Start(list, orig, origClasses, aim, m, conns);
      for i := 0 to |list|
        invariant LoopAt(classes, contents, list, i, origClasses, orig, aim, done, m, conns)
        invariant old(faults) == [] ==> faults == []
        invariant lost && alone ==> Untouched(list, i, only) && classes == origClasses && contents == orig && faults == old(faults)
      {
        if lost && alone {
          AloneAt(list, contentList, origClasses, orig, i, only, m, conns);
        }
        err, done := MigrateNext(list, contentList, i, m, conns, origClasses, orig, aim, done);
        if err != NoError {
          if lost && alone {
            CutShortHere(origClasses, orig, classes, contents, only, m, conns);
          }
          BetweenMeans(classes, contents, origClasses, orig, m, conns);
          return;
        }
      }
      if alone {
        AloneIsListed(list, origClasses, orig, only, m, conns);
      }
      AllDone(classes, contents, list, origClasses, orig, aim, done, m, conns);
      return NoError;
    }

    /** The i-th listed class, and its contents if it gets a new secret. */
    method MigrateNext(list: seq<VSClass>, contentList: seq<VSContent>, i: nat, m: Migration, conns: seq<Connection>,
                       ghost origClasses: map<string, VSClass>, ghost orig: map<string, VSContent>,
                       ghost aim: map<string, VSContent>, ghost done: set<string>)
      returns (err: Error, ghost doneNow: set<string>)
      requires ListsClasses(list, origClasses) && ListsContents(contentList, orig) && i < |list|
      requires IsAim(aim, orig, origClasses, m, conns) && LoopAt(classes, contents, list, i, origClasses, orig, aim, done, m, conns)
      modifies this
      ensures BetweenRuns(classes, contents, origClasses, orig, m, conns)
      ensures err == NoError ==> LoopAt(classes, contents, list, i + 1, origClasses, orig, aim, doneNow, m, conns)
      ensures old(faults) == [] ==> err == NoError && faults == []
      ensures !ToMigrate(list[i], m) ==>
        err == NoError && classes == old(classes) && contents == old(contents) && faults == old(faults)
      ensures
        (&& |old(faults)| >= 2 && old(faults)[0] == Smooth && old(faults)[1] == LostRequest
         && Moves(list[i], m, conns) && exists v :: v in contentList && Due(v, list[i].name, m)) ==>
          && err != NoError && contents == old(contents) && faults == old(faults)[2..]
          && classes == old(classes)[list[i].name := MigratedClass(list[i], m, conns)]
    {
      hide MigratedClass, Moves, ContentOf, Owner, MigratedContent, Progress, ClassesReached, DoneSoFar, IsAim,
        ListsClasses, ListsContents, Due, ToMigrate;
      var c := list[i];
      ghost var before := classes;
      doneNow := done;
      ListedClass(classes, list, i, origClasses, m, conns);
      NextDone(done, list, i, origClasses, m, conns);
      UnmovedStays(c, m, conns);
      var moved, newSecretName;
      moved, newSecretName, err := MigrateVSClass(c, m, conns);
      NextClass(before, classes, list, i, origClasses, m, conns);
      Between(contents, orig, aim, done, None, origClasses, m, conns);
      assert MigratedClass(c, m, conns) == c ==> classes == before;
      if err != NoError {
        return;
      }
      if moved {
        AimOf(aim, orig, origClasses, c, m, conns);
        err := MigrateVSContents(contentList, c.name, newSecretName, m, orig, aim, done);
        if err != NoError {
          Between(contents, orig, aim, done, Some(c.name), origClasses, m, conns);
          return;
        }
        doneNow := done + {c.name};
        Between(contents, orig, aim, doneNow, None, origClasses, m, conns);
      }
    }

    method ListClasses() returns (err: Error, list: seq<VSClass>)
      requires Named(classes, contents)
      modifies this`faults
      ensures err == NoError ==> ListsClasses(list, classes)
      ensures old(faults) == [] ==> err == NoError && faults == []
      ensures old(faults) != [] && old(faults)[0] == Smooth ==> err == NoError && faults == old(faults)[1..]
    {
      var f := NextFault();
      var names;
      names, list := Listing(classes);
      forall n | n in classes ensures classes[n] in list {
        var i :| 0 <= i < |names| && names[i] == n;
        assert list[i] == classes[n];
      }
      err := if f == Smooth then NoError else Transient;
    }

    method ListContents() returns (err: Error, list: seq<VSContent>)
      requires Named(classes, contents)
      modifies this`faults
      ensures err == NoError ==> ListsContents(list, contents)
      ensures old(faults) == [] ==> err == NoError && faults == []
      ensures old(faults) != [] && old(faults)[0] == Smooth ==> err == NoError && faults == old(faults)[1..]
    {
      var f := NextFault();
      var names;
      names, list := Listing(contents);
      forall n | n in contents ensures contents[n] in list {
        var i :| 0 <= i < |names| && names[i] == n;
        assert list[i] == contents[n];
      }
      err := if f == Smooth then NoError else Transient;
    }

    method ListConnections(connections: map<string, Connection>) returns (err: Error, list: seq<Connection>)
      requires forall n :: n in connections ==> connections[n].name == n
      modifies this`faults
      ensures err == NoError ==> ListsConnections(list, connections)
      ensures old(faults) == [] ==> err == NoError && faults == []
      ensures old(faults) != [] && old(faults)[0] == Smooth ==> err == NoError && faults == old(faults)[1..]
    {
      var f := NextFault();
      var names;
      names, list := Listing(connections);
      forall n | n in connections ensures connections[n] in list {
        var i :| 0 <= i < |names| && names[i] == n;
        assert list[i] == connections[n];
      }
      err := if f == Smooth then NoError else Transient;
    }
  }

  lemma FirstFour(f: seq<Fault>)
    ensures |f| >= 5 && f[..4] == [Smooth, Smooth, Smooth, Smooth] ==>
      && f[0] == Smooth && f[1..][0] == Smooth && f[2..][0] == Smooth && f[3..][0] == Smooth && f[3..][1] == f[4]
      && f[1..][1..] == f[2..] && f[2..][1..] == f[3..] && f[3..][2..] == f[5..]
  {
    if |f| >= 5 && f[..4] == [Smooth, Smooth, Smooth, Smooth] {
      assert f[0] == f[..4][0] && f[1] == f[..4][1] && f[2] == f[..4][2] && f[3] == f[..4][3];
    }
  }

  lemma SkippedContent(v: VSContent, secretName: string, m: Migration)
    ensures ContentOf(v, secretName, m) ==
      if Allowed(v.driver) && Lookup(v.labels, m.key) != LABEL_TRUE then Annotated(v, secretName, m) else v
  {
  }

  // ---- What that means ----

  /** One entry of the map has the value, all others are as they were. */
  predicate OnlyEntry(was: map<string, string>, now: map<string, string>, key: string, value: string) {
    && now.Keys == was.Keys + {key} && now[key] == value
    && forall k :: k in was && k != key ==> now[k] == was[k]
  }

  /** The class is of a Ceph driver and not labelled "true" yet. */
  predicate Unmigrated(driver: string, labels: map<string, string>, m: Migration) {
    && (driver == "rbd.csi.ceph.com" || driver == "cephfs.csi.ceph.com")
    && !(m.key in labels && labels[m.key] == "true")
  }

  /** What migration makes of a class: one of another driver, or labelled "true", stays as it is; one
      that belongs to a listed connection gets the label "true" and that connection's secret; any
      other gets the label "false". Nothing else changes. */
  lemma MigratedClassIsRight(c: VSClass, m: Migration, conns: seq<Connection>)
    ensures var d := MigratedClass(c, m, conns);
      && (!Unmigrated(c.driver, c.labels, m) ==> d == c)
      && (Unmigrated(c.driver, c.labels, m) ==> OnlyEntry(c.labels, d.labels, m.key, Lookup(d.labels, m.key)))
      && (Unmigrated(c.driver, c.labels, m) && (forall name :: !Belongs(c, m, conns, name)) ==>
            d == c.(labels := d.labels) && d.labels[m.key] == "false")
      && forall name :: Unmigrated(c.driver, c.labels, m) && Belongs(c, m, conns, name) ==>
            && d == c.(labels := d.labels, parameters := d.parameters) && d.labels[m.key] == "true"
            && c.parameters.Some? && d.parameters.Some? && SecretMoved(c.parameters.value, d.parameters.value, m.newPrefix + name)
  {
    var owner := Owner(c, m, conns);
    OwnedHasParameters(c, m, conns);
    OwnerBelongs(c, m, conns);
    forall name | Belongs(c, m, conns, name) ensures name == owner != "" {
    }
    if Unmigrated(c.driver, c.labels, m) && owner != "" {
      assert SecretMoved(c.parameters.value, MigratedClass(c, m, conns).parameters.value, m.newPrefix + owner) by {
        KeysDiffer();
      }
    }
  }

  /** Of the parameters the two about the snapshotter's secret are set, the rest is as it was. */
  predicate SecretMoved(was: map<string, string>, now: map<string, string>, secret: string) {
    && now.Keys == was.Keys + {"csi.storage.k8s.io/snapshotter-secret-name", "csi.storage.k8s.io/snapshotter-secret-namespace"}
    && now["csi.storage.k8s.io/snapshotter-secret-name"] == secret
    && now["csi.storage.k8s.io/snapshotter-secret-namespace"] == "d8-csi-ceph"
    && forall k :: k in was && k != "csi.storage.k8s.io/snapshotter-secret-name" && k != "csi.storage.k8s.io/snapshotter-secret-namespace" ==>
         now[k] == was[k]
  }

  lemma KeysDiffer()
    ensures SNAPSHOTTER_SECRET_NAME != SNAPSHOTTER_SECRET_NAMESPACE && DELETION_SECRET_NAME != DELETION_SECRET_NAMESPACE
  {
    assert |SNAPSHOTTER_SECRET_NAME| < |SNAPSHOTTER_SECRET_NAMESPACE| && |DELETION_SECRET_NAME| < |DELETION_SECRET_NAMESPACE|;
  }

  /** Of the annotations the two about the deletion secret are set, the rest is as it was. */
  predicate DeletionMoved(was: map<string, string>, now: map<string, string>, secret: string) {
    && now.Keys == was.Keys + {"snapshot.storage.kubernetes.io/deletion-secret-name",
                               "snapshot.storage.kubernetes.io/deletion-secret-namespace"}
    && now["snapshot.storage.kubernetes.io/deletion-secret-name"] == secret
    && now["snapshot.storage.kubernetes.io/deletion-secret-namespace"] == "d8-csi-ceph"
    && forall k ::
         k in was && k != "snapshot.storage.kubernetes.io/deletion-secret-name"
         && k != "snapshot.storage.kubernetes.io/deletion-secret-namespace" ==>
           now[k] == was[k]
  }

  /** A content changes exactly if it is of a Ceph driver, is not labelled "true" yet, and its class
      is such and belongs to a listed connection; and then it gets the label and is to be deleted with
      the secret that the class gets. Nothing else changes. */
  lemma ContentsFollowTheirClass(v: VSContent, classes: map<string, VSClass>, m: Migration, conns: seq<Connection>)
    ensures var w := MigratedContent(v, classes, m, conns);
      && (forall name :: FollowsTo(v, classes, m, conns, name) ==>
            && w == v.(labels := w.labels, annotations := w.annotations)
            && OnlyEntry(v.labels, w.labels, m.key, "true") && DeletionMoved(v.annotations, w.annotations, m.newPrefix + name))
      && ((forall name :: !FollowsTo(v, classes, m, conns, name)) ==> w == v)
  {
    if v.className.Some? && v.className.value in classes {
      var c := classes[v.className.value];
      OwnerBelongs(c, m, conns);
      var owner := Owner(c, m, conns);
      if Unmigrated(c.driver, c.labels, m) && Unmigrated(v.driver, v.labels, m) && owner != "" {
        assert FollowsTo(v, classes, m, conns, owner);
        KeysDiffer();
      }
    }
  }

  ghost predicate FollowsTo(v: VSContent, classes: map<string, VSClass>, m: Migration, conns: seq<Connection>, name: string) {
    && v.className.Some? && v.className.value in classes && Unmigrated(v.driver, v.labels, m)
    && var c := classes[v.className.value]; Unmigrated(c.driver, c.labels, m) && Belongs(c, m, conns, name)
  }

  /** Migrating a second time, with the same connections, changes no class. */
  lemma SecondTimeChangesNothing(c: VSClass, m: Migration, conns: seq<Connection>)
    ensures MigratedClass(MigratedClass(c, m, conns), m, conns) == MigratedClass(c, m, conns)
  {
  }

  /** What the code does not give: a run that ends after the update of a class and before that of
      a content of it, which a run that goes on would annotate, leaves the content behind for
      good: no later run annotates it, whatever connections there are then. */
  lemma ForgottenContents(v: VSContent, classes: map<string, VSClass>, m: Migration, conns: seq<Connection>, later: seq<Connection>)
    requires v.className.Some? && v.className.value in classes && Moves(classes[v.className.value], m, conns)
    requires Allowed(v.driver) && Lookup(v.labels, m.key) != LABEL_TRUE
    ensures Lookup(MigratedContent(v, classes, m, conns).labels, m.key) == LABEL_TRUE
    ensures var interrupted := classes[v.className.value := MigratedClass(classes[v.className.value], m, conns)];
      MigratedContent(v, interrupted, m, later) == v
  {
  }

  /** And runs do end there: the update of a content is lost, the next run succeeds, and the class is
      migrated, and all contents are as they were, also those that were due. */
  method RunAndRunAgain(client: Client, ghost c: string, m: Migration, connections: map<string, Connection>,
                        later: map<string, Connection>)
    returns (err: Error)
    requires Named(client.classes, client.contents)
    requires forall n :: n in connections ==> connections[n].name == n
    requires forall n :: n in later ==> later[n].name == n
    requires forall conns :: ListsConnections(conns, connections) ==>
      MovesAlone(client.classes, client.contents, c, m, conns)
    requires client.faults == [Smooth, Smooth, Smooth, Smooth, LostRequest]
    modifies client
    ensures err == NoError
    ensures c in client.classes && Lookup(client.classes[c].labels, m.key) == LABEL_TRUE
    ensures client.contents == old(client.contents)
  {
    hide ListsConnections, MovesAlone, MigratedClass, MigratedContent, CutShort;
    ghost var classes, contents := client.classes, client.contents;
    assert client.faults[..4] == [Smooth, Smooth, Smooth, Smooth];
    ghost var conns;
    err, conns := client.MigrateVSClassesAndVSContents(m, connections);
    ghost var labelled := client.classes;
    assert OneMoves(classes, contents, m, conns);
    NoneMovesAgain(classes, labelled, contents, client.contents, c, m, conns);
    err, conns := client.MigrateVSClassesAndVSContents(m, later);
    assert forall n :: n in client.classes ==> client.classes[n] == labelled[n];
    assert forall n :: n in client.contents ==> client.contents[n] == contents[n];
  }

  lemma NoneMovesAgain(classes: map<string, VSClass>, after: map<string, VSClass>, contents: map<string, VSContent>,
                       contentsAfter: map<string, VSContent>, c: string, m: Migration, conns: seq<Connection>)
    requires Named(classes, contents) && MovesAlone(classes, contents, c, m, conns)
    requires CutShort(classes, contents, after, contentsAfter, m, conns)
    ensures contentsAfter == contents && Named(after, contents) && c in after && Lookup(after[c].labels, m.key) == LABEL_TRUE
    ensures forall n, later :: n in after ==> MigratedClass(after[n], m, later) == after[n]
    ensures forall n, later :: n in contents ==> MigratedContent(contents[n], after, m, later) == contents[n]
  {
    hide Owner, ContentOf;
  }
}
