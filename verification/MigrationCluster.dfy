/** The API server as an object: every call first lets the outside world act, may then fail on
    either side, and appends the writes it makes to a log that only contains allowed writes.
    Abandoning the caller between two calls (a crash) leaves a valid cluster behind. */
module MigrationCluster {
  import opened Kube
  import opened Volumes
  import opened MigrationStore

  datatype Event = Protecting(name: string) | Intruding(pv: PV)

  /** What happens around one API call: events just before it, and how it fails, if it does. */
  datatype Outcome = Outcome(events: seq<Event>, fault: Fault)

  predicate Quiet(w: World, o: Outcome) {
    !w.intruders ==> forall e :: e in o.events ==> e.Protecting?
  }

  /** No call fails. */
  predicate Calm(weather: seq<Outcome>) {
    forall o :: o in weather ==> o.fault == Smooth
  }

  /** What is to come after n more calls. */
  function After(weather: seq<Outcome>, n: nat): seq<Outcome> {
    if n <= |weather| then weather[n..] else []
  }

  // ---- What the outside world may have done ----

  ghost predicate Touched(clock: nat, p: PV, q: PV) {
    q == p
    || (!p.terminating && PV_PROTECTION !in p.finalizers && clock <= q.rv
        && q == p.(finalizers := p.finalizers + [PV_PROTECTION], rv := q.rv))
  }

  ghost predicate Drifted(w: World, s: Store, t: Store) {
    && Others(s, t)
    && VolumesDrifted(w, s, t)
  }

  ghost predicate VolumesDrifted(w: World, s: Store, t: Store) {
    && s.clock <= t.clock
    && (forall n :: n in s.pvs ==> n in t.pvs && Touched(s.clock, s.pvs[n], t.pvs[n]))
    && (!w.intruders ==> t.pvs.Keys == s.pvs.Keys)
  }

  lemma VolumesDriftedTrans(w: World, a: Store, b: Store, c: Store)
    requires VolumesDrifted(w, a, b) && VolumesDrifted(w, b, c)
    ensures VolumesDrifted(w, a, c)
  {
  }

  lemma ProtectDriftsOnce(w: World, m: Store, n: string)
    requires WellFormed(m)
    ensures Drifted(w, m, Apply(m, Protect(n)))
  {
    hide Rewritten, Apply;
    ApplyChanges(w, m, Protect(n));
    VolumeWritesOnly(m, Protect(n));
    ProtectTouches(m, n);
  }

  lemma ProtectTouches(m: Store, n: string)
    requires WellFormed(m)
    ensures match Rewritten(m, Protect(n))
      case None => true
      case Some((k, pv)) => k in m.pvs && pv.Some? && Touched(m.clock, m.pvs[k], pv.value)
  {
  }

  lemma ProtectDrifts(w: World, s: Store, m: Store, n: string)
    requires WellFormed(m) && Drifted(w, s, m)
    ensures Drifted(w, s, Apply(m, Protect(n)))
  {
    hide Apply, VolumesDrifted;
    ProtectDriftsOnce(w, m, n);
    VolumesDriftedTrans(w, s, m, Apply(m, Protect(n)));
  }

  lemma IntrudeDrifts(w: World, s: Store, m: Store, pv: PV)
    requires WellFormed(m) && Drifted(w, s, m) && w.intruders
    ensures Drifted(w, s, Apply(m, Intrude(pv)))
  {
  }

  lemma DriftKeepsMayDestroy(w: World, s: Store, t: Store, n: string)
    requires Drifted(w, s, t) && MayDestroy(w, s, n)
    ensures MayDestroy(w, t, n)
  {
  }

  /** Whatever the outside world does, an allowed write stays allowed. */
  lemma DriftKeepsGuard(w: World, s: Store, t: Store, op: Op)
    requires Inv(w, s) && Inv(w, t) && Drifted(w, s, t) && Guard(w, s, op)
    ensures Guard(w, t, op)
  {
    hide Conserved, NothingLost, LabelsTruthful, BackupsSound, PlanIsOwn, WellFormed, MayDestroy, DriverDone, Drifted, Touched,
      Faithful, OursWith, UpdateOnly, MustMove;
    DriftMeans(w, s, t);
    match op
    case StripAndRetain(n) => DriftKeepsMayDestroy(w, s, t, n);
    case Strip(n) => DriftKeepsMayDestroy(w, s, t, n);
    case DeletePV(n) => DriftKeepsMayDestroy(w, s, t, n);
    case PutDriver(d) => if !w.intruders { DriftKeepsDone(w, s, t, d); }
    case PutPV(pv) => DriftKeepsPut(w, s, t, pv);
    case _ =>
  }

  lemma DriftMeans(w: World, s: Store, t: Store)
    requires Drifted(w, s, t)
    ensures Others(s, t) && s.clock <= t.clock
    ensures forall n :: n in s.pvs ==> n in t.pvs && t.pvs[n].policy == s.pvs[n].policy
    ensures !w.intruders ==> t.pvs.Keys == s.pvs.Keys
  {
  }

  lemma DriftKeepsPut(w: World, s: Store, t: Store, pv: PV)
    requires WellFormed(s) && Drifted(w, s, t) && Guard(w, s, PutPV(pv))
    ensures Guard(w, t, PutPV(pv))
  {
  }

  lemma DriftKeepsDone(w: World, s: Store, t: Store, d: Driver)
    requires Drifted(w, s, t) && DriverDone(w, s, d)
    ensures DriverDone(w, t, d)
  {
  }

  /** The object a patch sends back. */
  function Echo(s: Store, op: Op): Option<PV> {
    match Rewritten(s, op)
    case Some((_, Some(pv))) => Some(pv)
    case Some((n, None)) => if n in s.pvs then Some(s.pvs[n].(finalizers := [])) else None
    case None => None
  }

  /** Writes that take a volume down or bring one up. */
  predicate Recreating(op: Op) {
    op.StripAndRetain? || op.Strip? || op.DeletePV? || op.CreatePV?
  }

  /** What was added to the log recreates nothing. */
  ghost predicate NothingRecreated(before: seq<Op>, after: seq<Op>) {
    before <= after && forall i :: |before| <= i < |after| ==> !Recreating(after[i])
  }

  lemma WorldRecreatesNothing(before: seq<Op>, after: seq<Op>)
    requires OnlyWorld(before, after)
    ensures NothingRecreated(before, after)
  {
  }

  /** What was added to the log are writes of the outside world. */
  ghost predicate OnlyWorld(before: seq<Op>, after: seq<Op>) {
    before <= after && forall i :: |before| <= i < |after| ==> ByWorld(after[i])
  }

  /** A patched volume stays patched, whatever the outside world does. */
  lemma PatchedGrows(s: Store, before: seq<Op>, after: seq<Op>, n: string)
    requires Patched(s, before, n) && OnlyWorld(before, after)
    ensures Patched(s, after, n)
  {
    var j :| 0 <= j < |before| && PatchedAt(s, before, n, j);
    assert after[..j] == before[..j];
    assert PatchedAt(s, after, n, j);
  }

  class Cluster {
    var db: Store
    var weather: seq<Outcome>
    ghost const world: World
    ghost const origin: Store
    ghost var log: seq<Op>

    ghost predicate Valid()
      reads this
    {
      && Inv(world, db)
      && Lawful(world, origin, log)
      && db == Replay(origin, log)
      && forall o :: o in weather ==> Quiet(world, o)
    }

    /** The store only moved on, through allowed writes. */
    twostate predicate Advanced()
      reads this
    {
      && old(log) <= log
      && Onward(world, old(db), db)
      && (old(Calm(weather)) ==> Calm(weather))
    }

    constructor (ghost w: World, s: Store, weather: seq<Outcome>)
      requires Inv(w, s) && forall o :: o in weather ==> Quiet(w, o)
      ensures Valid() && world == w && origin == s && db == s && log == [] && this.weather == weather
    {
      db, origin, world, log := s, s, w, [];
      this.weather := weather;
    }

    method Commit(op: Op)
      requires Valid() && LawfulAt(world, origin, log, op)
      modifies this`db, this`log
      ensures Valid() && Advanced()
      ensures db == Apply(old(db), op) && log == old(log) + [op]
    {
      StepKeepsInv(world, db, op);
      LogGrows(world, origin, log, op);
      db := Apply(db, op);
      log := log + [op];
    }

    method Happen(event: Event, ghost start: Store)
      requires Valid() && Onward(world, start, db) && Drifted(world, start, db)
      requires !world.intruders ==> event.Protecting?
      modifies this`db, this`log
      ensures Valid() && OnlyWorld(old(log), log) && Onward(world, start, db) && Drifted(world, start, db)
    {
      ghost var middle := db;
      match event {
        case Protecting(n) =>
          ProtectDrifts(world, start, db, n);
          Commit(Protect(n));
        case Intruding(pv) =>
          IntrudeDrifts(world, start, db, pv);
          Commit(Intrude(pv));
      }
      OnwardTrans(world, start, middle, db);
    }

    method HappenAll(events: seq<Event>)
      requires Valid() && (!world.intruders ==> forall e :: e in events ==> e.Protecting?)
      modifies this`db, this`log
      ensures Valid() && OnlyWorld(old(log), log) && Onward(world, old(db), db) && Drifted(world, old(db), db)
    {
      ghost var start := db;
      for i := 0 to |events|
        invariant Valid() && OnlyWorld(old(log), log) && Onward(world, start, db) && Drifted(world, start, db)
      {
        Happen(events[i], start);
      }
    }

    /** The outside world acts, and it is decided how the call fails. */
    method Arrive() returns (fault: Fault)
      requires Valid()
      modifies this
      ensures Valid() && Advanced() && OnlyWorld(old(log), log)
      ensures Drifted(world, old(db), db)
      ensures old(Calm(weather)) ==> fault == Smooth
      ensures weather == After(old(weather), 1)
    {
      fault := Smooth;
      if weather != [] {
        var outcome := weather[0];
        weather := weather[1..];
        assert Quiet(world, outcome);
        HappenAll(outcome.events);
        fault := outcome.fault;
      }
    }

    /** A write. `at` is the store the call finds when it arrives; the echoed object is what the
        server sends back. */
    method Request(op: Op) returns (err: Error, echo: Option<PV>, ghost at: Store)
      requires Valid() && LawfulAt(world, origin, log, op)
      modifies this
      ensures Valid() && Advanced()
      ensures Inv(world, at) && Drifted(world, old(db), at) && Guard(world, at, op)
      ensures db == at || db == Apply(at, op)
      ensures err == NoError ==> db == Apply(at, op) && Verdict(at, op) == NoError && echo == Echo(at, op)
      ensures old(Calm(weather)) ==> err == Verdict(at, op)
      ensures weather == After(old(weather), 1)
      ensures err == NoError ==> |old(log)| < |log| && log[|log| - 1] == op && Replay(origin, log[..|log| - 1]) == at
      ensures err == AlreadyExists ==> err == Verdict(at, op)
      ensures !Recreating(op) ==> NothingRecreated(old(log), log)
    {
      hide Inv, Onward, Lawful, Replay, Guard, Apply, Verdict, Echo, Quiet, Drifted, Patched;
      echo := None;
      ghost var before := log;
      var fault := Arrive();
      at := db;
      DriftKeepsGuard(world, old(db), db, op);
      WorldRecreatesNothing(before, log);
      if op.DeletePV? {
        PatchedGrows(origin, before, log, op.name);
      }
      if fault == LostRequest {
        return Transient, None, at;
      }
      err := Verdict(db, op);
      echo := Echo(db, op);
      ghost var start, arrived := old(db), log;
      Commit(op);
      assert log[..|log| - 1] == arrived;
      OnwardTrans(world, start, at, db);
      if fault == LostReply {
        err := Transient;
      }
    }

    /** The outcome of a read: the store does not change under it. */
    method Read() returns (err: Error)
      requires Valid()
      modifies this
      ensures Valid() && Advanced() && OnlyWorld(old(log), log)
      ensures Drifted(world, old(db), db)
      ensures err == NoError || err == Transient
      ensures old(Calm(weather)) ==> err == NoError
    {
      var fault := Arrive();
      err := if fault == Smooth then NoError else Transient;
    }
  }

  lemma LogGrows(w: World, s: Store, log: seq<Op>, op: Op)
    requires Lawful(w, s, log) && LawfulAt(w, s, log, op)
    ensures Lawful(w, s, log + [op]) && Replay(s, log + [op]) == Apply(Replay(s, log), op)
  {
    var longer := log + [op];
    assert longer[..|longer| - 1] == log;
    forall i | 0 <= i < |longer| ensures LawfulAt(w, s, longer[..i], longer[i]) {
      if i < |log| {
        assert longer[..i] == log[..i];
      }
    }
  }

  lemma OnwardRefl(w: World, s: Store)
    ensures Onward(w, s, s)
  {
  }

  lemma OnwardTrans(w: World, a: Store, b: Store, c: Store)
    requires Onward(w, a, b) && Onward(w, b, c)
    ensures Onward(w, a, c)
  {
  }
}
