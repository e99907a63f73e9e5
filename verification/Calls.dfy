/** A client's view of the API server during one reconcile pass: what is stored, how the calls to
    come will fail, and the writes sent so far. */
module Calls {
  import opened Kube

  /** Calls beyond the script of faults go through. */
  datatype Link<S, W> = Net(db: S, faults: seq<Fault>, sent: seq<W>)

  function NextFault<S, W>(net: Link<S, W>): Fault {
    if net.faults == [] then Smooth else net.faults[0]
  }

  function Rest<S, W>(net: Link<S, W>): seq<Fault> {
    if net.faults == [] then [] else net.faults[1..]
  }

  function Read<S, W>(net: Link<S, W>): (Link<S, W>, Error) {
    (net.(faults := Rest(net)), if NextFault(net) == Smooth then NoError else Transient)
  }

  /** A write the server answers with `verdict`, and carries out only if that is no error. */
  function Send<S, W>(net: Link<S, W>, write: W, verdict: Error, effect: S): (r: (Link<S, W>, Error))
    ensures r.1 == NoError ==> verdict == NoError && r.0.db == effect
    ensures r.0.db == net.db || (verdict == NoError && r.0.db == effect)
    ensures r.0.sent == net.sent + [write]
    ensures net.faults == [] ==> r.0.faults == [] && r.1 == verdict
  {
    var sent := net.sent + [write];
    if NextFault(net) == LostRequest then (Net(net.db, Rest(net), sent), Transient)
    else
      var db := if verdict == NoError then effect else net.db;
      (Net(db, Rest(net), sent), if NextFault(net) == LostReply then Transient else verdict)
  }
}
