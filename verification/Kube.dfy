/** What every part of the model takes from Kubernetes: error codes, the ways a
    single API call can go wrong, and finalizer lists. */
module Kube {
  datatype Option<+T> = None | Some(value: T)

  /** What a caller gets back from one API call (NoError stands for a nil error).
      Crashed is a nil dereference in the calling code. */
  datatype Error =
    | NoError
    | Transient
    | NotFound
    | AlreadyExists
    | Conflict
    | Invalid
    | Forbidden
    | Timeout
    | Undecodable
    | Crashed
    | Rejected

  /** One call either goes through, is lost on the way to the server (no effect), or takes
      effect while its reply is lost. The last two look the same to the caller. A crash of
      the caller before or after a call leaves the same store behind as one of them. */
  datatype Fault = Smooth | LostRequest | LostReply

  const MODULE_NAMESPACE := "d8-csi-ceph"
  const MANAGED_LABEL := "storage.deckhouse.io/managed-by"
  const CONNECTION_SECRET_PREFIX := "csi-ceph-secret-for-"
  const RBD_PROVISIONER := "rbd.csi.ceph.com"
  const CEPHFS_PROVISIONER := "cephfs.csi.ceph.com"
  const ALLOWED_PROVISIONERS: seq<string> := [RBD_PROVISIONER, CEPHFS_PROVISIONER]

  /** A Go map lookup: a missing key reads as the empty string. */
  function Lookup(m: map<string, string>, key: string): string {
    if key in m then m[key] else ""
  }

  /** A listing: every stored object once, in some order, with its key. */
  method Listing<T>(m: map<string, T>) returns (keys: seq<string>, items: seq<T>)
    ensures |keys| == |items|
    ensures forall i :: 0 <= i < |keys| ==> keys[i] in m && items[i] == m[keys[i]]
    ensures forall i, j :: 0 <= i < j < |keys| ==> keys[i] != keys[j]
    ensures forall k :: k in m ==> k in keys
  {
    keys, items := [], [];
    var rest := m.Keys;
    while rest != {}
      invariant rest <= m.Keys && |keys| == |items|
      invariant forall i :: 0 <= i < |keys| ==> keys[i] in m && items[i] == m[keys[i]]
      invariant forall k :: k in keys <==> k in m && k !in rest
      invariant forall i, j :: 0 <= i < j < |keys| ==> keys[i] != keys[j]
      decreases rest
    {
      var k :| k in rest;
      keys := keys + [k];
      items := items + [m[k]];
      rest := rest - {k};
    }
  }
}
