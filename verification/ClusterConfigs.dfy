/** The list of clusters in the ceph-csi ConfigMap, edited in place and used as a map from
    cluster id to configuration that all CephClusterConnections share. */
module ClusterConfigs {
  import opened Kube

  datatype SecretReference = SecretReference(name: string, namespace: string)
  datatype ClusterConfig = ClusterConfig(clusterID: string, monitors: seq<string>, subvolumeGroup: string,
                                         cephFSSecret: SecretReference, rbdSecret: SecretReference)

  datatype Spec = Spec(clusterID: string, monitors: seq<string>, userID: string, userKey: string, subvolumeGroup: Option<string>)

  function SecretName(connection: string): string {
    CONNECTION_SECRET_PREFIX + connection
  }

  function GenerateClusterConfig(connection: string, spec: Spec, namespace: string): ClusterConfig {
    var secret := SecretReference(SecretName(connection), namespace);
    ClusterConfig(spec.clusterID, spec.monitors, if spec.subvolumeGroup.Some? then spec.subvolumeGroup.value else "", secret, secret)
  }

  /** Field by field, the entry of a connection: cluster id, monitors and subvolume group are its
      spec's, and both drivers are told to use its Secret. */
  predicate EntryOf(c: ClusterConfig, connection: string, spec: Spec, namespace: string) {
    && c.clusterID == spec.clusterID && c.monitors == spec.monitors
    && c.subvolumeGroup == (if spec.subvolumeGroup.Some? then spec.subvolumeGroup.value else "")
    && c.cephFSSecret.name == "csi-ceph-secret-for-" + connection && c.cephFSSecret.namespace == namespace
    && c.rbdSecret.name == "csi-ceph-secret-for-" + connection && c.rbdSecret.namespace == namespace
  }

  // ---- The list as a map ----

  /** The first entry for a cluster id counts. */
  function MapOf(list: seq<ClusterConfig>): map<string, ClusterConfig> {
    if list == [] then map[] else MapOf(list[1..])[list[0].clusterID := list[0]]
  }

  predicate Distinct(list: seq<ClusterConfig>) {
    forall i, j :: 0 <= i < j < |list| ==> list[i].clusterID != list[j].clusterID
  }

  /** Position of the first entry for the id, or the length of the list. */
  function Position(list: seq<ClusterConfig>, id: string): (i: nat)
    ensures i <= |list|
    ensures i < |list| ==> list[i].clusterID == id
    ensures forall j :: 0 <= j < i ==> list[j].clusterID != id
  {
    if list == [] || list[0].clusterID == id then 0 else 1 + Position(list[1..], id)
  }

  /** Replace the first entry for the id in place, or append. */
  function Put(list: seq<ClusterConfig>, c: ClusterConfig): seq<ClusterConfig> {
    var i := Position(list, c.clusterID);
    if i < |list| then list[i := c] else list + [c]
  }

  /** Cut the first entry for the id out. */
  function Drop(list: seq<ClusterConfig>, id: string): seq<ClusterConfig> {
    var i := Position(list, id);
    if i < |list| then list[..i] + list[i + 1..] else list
  }

  lemma {:induction false} MapOfAt(list: seq<ClusterConfig>, id: string)
    ensures id in MapOf(list) <==> Position(list, id) < |list|
    ensures id in MapOf(list) ==> MapOf(list)[id] == list[Position(list, id)]
  {
    if list != [] {
      MapOfAt(list[1..], id);
    }
  }

  /** Putting keeps the ids distinct and is the update of the map; it leaves the list as it is
      exactly if the map says so already. */
  lemma PutRefines(list: seq<ClusterConfig>, c: ClusterConfig)
    ensures MapOf(Put(list, c)) == MapOf(list)[c.clusterID := c]
    ensures Put(list, c) == list <==> c.clusterID in MapOf(list) && MapOf(list)[c.clusterID] == c
    ensures Distinct(list) ==> Distinct(Put(list, c))
    ensures Put(Put(list, c), c) == Put(list, c)
  {
    var out := Put(list, c);
    var want := MapOf(list)[c.clusterID := c];
    forall id ensures (id in MapOf(out) <==> id in want) && (id in want ==> MapOf(out)[id] == want[id]) {
      MapOfAt(list, id);
      MapOfAt(out, id);
      PutPosition(list, c, id);
    }
    assert MapOf(out) == want;
    MapOfAt(list, c.clusterID);
    PutPosition(list, c, c.clusterID);
  }

  lemma PutPosition(list: seq<ClusterConfig>, c: ClusterConfig, id: string)
    ensures var out := Put(list, c);
      if id == c.clusterID then Position(out, id) < |out| && out[Position(out, id)] == c
      else if Position(list, id) < |list| then Position(out, id) == Position(list, id) && out[Position(out, id)] == list[Position(list, id)]
      else Position(out, id) == |out|
  {
    var out := Put(list, c);
    var i, k := Position(list, c.clusterID), Position(list, id);
    forall j | 0 <= j < |list| && j != i ensures out[j] == list[j] {}
    if id == c.clusterID {
      FirstPosition(out, id, i);
    } else if k < |list| {
      FirstPosition(out, id, k);
    }
  }

  lemma FirstPosition(list: seq<ClusterConfig>, id: string, i: nat)
    requires i < |list| && list[i].clusterID == id && forall j :: 0 <= j < i ==> list[j].clusterID != id
    ensures Position(list, id) == i
  {
  }

  /** Cutting is removal from the map as long as the ids are distinct. */
  lemma DropRefines(list: seq<ClusterConfig>, id: string)
    requires Distinct(list)
    ensures Distinct(Drop(list, id))
    ensures MapOf(Drop(list, id)) == MapOf(list) - {id}
    ensures Drop(list, id) == list <==> id !in MapOf(list)
    ensures Drop(Drop(list, id), id) == Drop(list, id)
  {
    hide MapOf, Drop;
    var out := Drop(list, id);
    DropSize(list, id);
    DropSize(out, id);
    forall k ensures (k in MapOf(out) <==> k in MapOf(list) && k != id) && (k in MapOf(out) ==> MapOf(out)[k] == MapOf(list)[k]) {
      MapOfAt(list, k);
      MapOfAt(out, k);
      DropPosition(list, id, k);
    }
    assert MapOf(out) == MapOf(list) - {id};
    MapOfAt(list, id);
    DropPosition(list, id, id);
    DropKeepsDistinct(list, id);
  }

  lemma DropPosition(list: seq<ClusterConfig>, id: string, k: string)
    requires Distinct(list)
    ensures var out := Drop(list, id);
      if k == id || Position(list, k) == |list| then Position(out, k) == |out|
      else Position(out, k) < |out| && out[Position(out, k)] == list[Position(list, k)]
  {
    var out := Drop(list, id);
    var i, p := Position(list, id), Position(list, k);
    var q := if k == id || p == |list| then |out| else if p < i then p else p - 1;
    forall j | 0 <= j < q ensures out[j].clusterID != k {
      DropNth(list, id, j);
    }
    if q < |out| {
      DropNth(list, id, q);
      FirstPosition(out, k, q);
    }
  }

  /** At most one entry has the id. */
  predicate Once(list: seq<ClusterConfig>, id: string) {
    forall i, j :: 0 <= i < j < |list| ==> list[i].clusterID != id || list[j].clusterID != id
  }

  /** Cutting one entry out removes the id from the map exactly if no other entry has it; otherwise
      the next entry for the id comes to light. */
  lemma DropRemovesIfOnce(list: seq<ClusterConfig>, id: string)
    ensures id !in MapOf(Drop(list, id)) <==> Once(list, id)
  {
    hide MapOf, Drop;
    var out := Drop(list, id);
    var i := Position(list, id);
    MapOfAt(out, id);
    DropSize(list, id);
    if Once(list, id) {
      forall k | 0 <= k < |out| ensures out[k].clusterID != id {
        DropNth(list, id, k);
        assert i < |list| ==> list[i].clusterID == id;
      }
    } else {
      var j, k :| 0 <= j < k < |list| && list[j].clusterID == id && list[k].clusterID == id;
      assert i <= j;
      DropNth(list, id, k - 1);
    }
  }

  lemma DropSize(list: seq<ClusterConfig>, id: string)
    ensures Position(list, id) == |list| ==> Drop(list, id) == list
    ensures Position(list, id) < |list| ==> |Drop(list, id)| == |list| - 1
  {
    hide Position;
  }

  lemma DropNth(list: seq<ClusterConfig>, id: string, j: nat)
    requires j < |Drop(list, id)|
    ensures j < Position(list, id) ==> Drop(list, id)[j] == list[j]
    ensures Position(list, id) <= j ==> j + 1 < |list| && Drop(list, id)[j] == list[j + 1]
  {
    hide Position;
  }

  lemma DropKeepsDistinct(list: seq<ClusterConfig>, id: string)
    requires Distinct(list)
    ensures Distinct(Drop(list, id))
  {
    hide Drop, Position;
    var out := Drop(list, id);
    forall j, k | 0 <= j < k < |out| ensures out[j].clusterID != out[k].clusterID {
      DropNth(list, id, j);
      DropNth(list, id, k);
    }
  }

  // ---- The edit ----

  method FindClusterConfigByClusterID(configs: seq<ClusterConfig>, id: string) returns (index: int, found: bool)
    ensures found <==> id in MapOf(configs)
    ensures found ==> index == Position(configs, id) && index < |configs|
    ensures !found ==> index == -1
  {
    MapOfAt(configs, id);
    for i := 0 to |configs|
      invariant forall j :: 0 <= j < i ==> configs[j].clusterID != id
    {
      if configs[i].clusterID == id {
        FirstPosition(configs, id, i);
        return i, true;
      }
    }
    return -1, false;
  }

  /** updateClusterConfigsIfNeeded: `updated` exactly if the shared map had to change. Afterwards the
      entry for the cluster id is the connection's, or gone, and all others are as they were. */
  method UpdateClusterConfigsIfNeeded(list: seq<ClusterConfig>, connection: string, spec: Spec, delete: bool, namespace: string)
    returns (configs: seq<ClusterConfig>, updated: bool)
    ensures configs == if delete then Drop(list, spec.clusterID) else Put(list, GenerateClusterConfig(connection, spec, namespace))
    ensures updated <==> configs != list
    ensures !delete ==> MapOf(configs) == MapOf(list)[spec.clusterID := GenerateClusterConfig(connection, spec, namespace)]
    ensures !delete ==> spec.clusterID in MapOf(configs) && EntryOf(MapOf(configs)[spec.clusterID], connection, spec, namespace)
    ensures delete && Distinct(list) ==> MapOf(configs) == MapOf(list) - {spec.clusterID}
    ensures Distinct(list) ==> Distinct(configs)
  {
    configs, updated := list, false;
    var index, exists_ := FindClusterConfigByClusterID(configs, spec.clusterID);
    MapOfAt(list, spec.clusterID);
    if delete {
      if exists_ {
        configs := configs[..index] + configs[index + 1..];
        updated := true;
      }
      if Distinct(list) {
        DropRefines(list, spec.clusterID);
      }
    } else {
      var wanted := GenerateClusterConfig(connection, spec, namespace);
      if exists_ {
        if configs[index] != wanted {
          configs := configs[index := wanted];
          updated := true;
        }
      } else {
        configs := configs + [wanted];
        updated := true;
      }
      PutRefines(list, wanted);
    }
  }
}
