/** Finalizer lists, as both controllers edit them. */
module Finalizers {
  /** A terminating object gets no new finalizers. */
  function AddsFinalizer(before: seq<string>, after: seq<string>): bool {
    exists f :: f in after && f !in before
  }

  function RemoveFirst(list: seq<string>, x: string): seq<string> {
    if list == [] then [] else if list[0] == x then list[1..] else [list[0]] + RemoveFirst(list[1..], x)
  }

  lemma {:induction false} RemoveFirstAt(list: seq<string>, i: nat, x: string)
    requires i < |list| && list[i] == x && x !in list[..i]
    ensures RemoveFirst(list, x) == list[..i] + list[i + 1..]
  {
    if i > 0 {
      assert list[1..][..i - 1] == list[..i][1..];
      assert list[0] != x by { assert list[..i][0] == list[0]; }
      RemoveFirstAt(list[1..], i - 1, x);
      assert list[..i] == [list[0]] + list[1..][..i - 1];
    }
  }

  lemma {:induction false} RemoveNothing(list: seq<string>, x: string)
    requires x !in list
    ensures RemoveFirst(list, x) == list
  {
    if list != [] {
      RemoveNothing(list[1..], x);
    }
  }

  /** The slice edit of removeFinalizerIfExists. */
  method RemoveFinalizer(finalizers: seq<string>, name: string) returns (left: seq<string>, removed: bool)
    ensures left == RemoveFirst(finalizers, name) && (removed <==> name in finalizers)
  {
    for i := 0 to |finalizers|
      invariant name !in finalizers[..i]
    {
      if finalizers[i] == name {
        RemoveFirstAt(finalizers, i, name);
        return finalizers[..i] + finalizers[i + 1..], true;
      }
    }
    RemoveNothing(finalizers, name);
    return finalizers, false;
  }
}
