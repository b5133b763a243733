/**
 What a driver did and saw, in order: the events that matter to the protocol, the rule each has to obey,
 and the proof that a log which obeys them is a sequence of steps the whole-system model allows.
 */
module DriveLog {
  import opened Domain
  import World
  import Store

  datatype DriveEvent =
    | Signed(tx: Tx)
    | Bound(tx: Tx, kind: Store.BindKind, ok: bool)
    | Sent(tx: Tx)
    | Acked
    | Rejected(tx: Tx)  // a stateless reject of these bytes, on a chain where that is final
    | Consumed          // "nonce too low", and none of the tracked attempts has a receipt
    | VoidTried(tx: Tx, mode: Store.VoidMode, ok: bool)

  /** The flight and the evidence against it. */
  datatype View = View(flight: World.Flight, rejected: set<Tx>, consumed: bool)

  /** A void needs the evidence for its verdict, a nonce that nobody has acknowledged, and no cancel in doubt. */
  ghost predicate Allowed(k: Pair, v: View, ev: DriveEvent) {
    var f := v.flight;
    match ev
    case Signed(tx) => tx.slot == Slot(k, f.nonce) && tx.owner == f.owner
    case Bound(tx, kind, _) => tx.slot.pair == k && World.FitsFlight(f, tx, kind)
    case Sent(tx) => tx in f.attempts
    case Acked => true
    case Rejected(tx) => tx in f.attempts
    case Consumed => true
    case VoidTried(tx, mode, _) =>
      f.unaccepted && !f.cancelLost && tx in f.attempts && tx.slot == Slot(k, f.nonce) && if mode.NonceUnused? then tx in v.rejected else v.consumed
  }

  ghost function Moved(v: View, ev: DriveEvent): View {
    match ev
    case Bound(tx, kind, ok) =>
      if ok then v.(flight := v.flight.(attempts := v.flight.attempts + {tx}), consumed := false)
      else if kind.Cancel? then v.(flight := v.flight.(cancelLost := true))
      else v
    case Acked => v.(flight := v.flight.(unaccepted := false))
    case Rejected(tx) => v.(rejected := v.rejected + {tx})
    case Consumed => v.(consumed := true)
    case _ => v
  }

  ghost function Replay(v: View, log: seq<DriveEvent>): View {
    if log == [] then v else Moved(Replay(v, log[..|log| - 1]), log[|log| - 1])
  }

  ghost predicate Lawful(k: Pair, v: View, log: seq<DriveEvent>) {
    log == [] || (Lawful(k, v, log[..|log| - 1]) && Allowed(k, Replay(v, log[..|log| - 1]), log[|log| - 1]))
  }

  lemma Extend(k: Pair, v: View, log: seq<DriveEvent>, ev: DriveEvent)
    requires Lawful(k, v, log) && Allowed(k, Replay(v, log), ev)
    ensures Lawful(k, v, log + [ev]) && Replay(v, log + [ev]) == Moved(Replay(v, log), ev)
  {
    assert (log + [ev])[..|log|] == log;
  }

  lemma {:induction false} LawfulPrefix(k: Pair, v: View, log: seq<DriveEvent>, i: nat)
    requires Lawful(k, v, log) && i < |log|
    ensures Lawful(k, v, log[..i]) && Allowed(k, Replay(v, log[..i]), log[i]) && Replay(v, log[..i + 1]) == Moved(Replay(v, log[..i]), log[i])
  {
    if i < |log| - 1 {
      LawfulPrefix(k, v, log[..|log| - 1], i);
      assert log[..|log| - 1][..i] == log[..i] && log[..|log| - 1][..i + 1] == log[..i + 1];
    } else {
      assert log[..i + 1] == log;
    }
  }

  /** Nothing is sent that was not committed first. */
  lemma {:induction false} SentWasCommitted(k: Pair, v: View, log: seq<DriveEvent>, i: nat)
    requires Lawful(k, v, log) && i < |log| && log[i].Sent?
    ensures log[i].tx in v.flight.attempts || exists m :: 0 <= m < i && log[m].Bound? && log[m].tx == log[i].tx && log[m].ok
  {
    if i < |log| - 1 {
      SentWasCommitted(k, v, log[..|log| - 1], i);
    } else {
      TrackedWasCommitted(v, log[..i], log[i].tx);
    }
  }

  lemma {:induction false} TrackedWasCommitted(v: View, log: seq<DriveEvent>, tx: Tx)
    requires tx in Replay(v, log).flight.attempts
    ensures tx in v.flight.attempts || exists m :: 0 <= m < |log| && log[m].Bound? && log[m].tx == tx && log[m].ok
  {
    if log != [] {
      var last := |log| - 1;
      if !(log[last].Bound? && log[last].tx == tx && log[last].ok) { TrackedWasCommitted(v, log[..last], tx); }
    }
  }

  // ---- Counting ----

  function Binds(log: seq<DriveEvent>, kind: Store.BindKind, ok: bool): nat {
    if log == [] then 0
    else
      var ev := log[|log| - 1];
      Binds(log[..|log| - 1], kind, ok) + if ev.Bound? && ev.kind == kind && ev.ok == ok then 1 else 0
  }

  /** Signed attempts whose bind the driver was not told to have committed. */
  function FailedBinds(log: seq<DriveEvent>): nat { Binds(log, Store.Replacement, false) + Binds(log, Store.Cancel, false) }

  function Signings(log: seq<DriveEvent>): nat {
    if log == [] then 0 else Signings(log[..|log| - 1]) + if log[|log| - 1].Signed? then 1 else 0
  }

  // ---- Every lawful log is a sequence of steps of the whole system ----

  /** The step an event stands for; signing and looking change nothing that others can see. */
  ghost function StepOf(e: nat, k: Pair, ev: DriveEvent): Option<World.Action> {
    match ev
    case Bound(tx, kind, ok) => Some(World.BindMore(e, tx, kind, ok))
    case Sent(tx) => Some(World.Send(e, k, tx))
    case Acked => Some(World.Accepted(e, k))
    case VoidTried(tx, mode, ok) => Some(if mode.NonceUnused? then World.VoidUnused(e, k, tx, ok) else World.VoidForeign(e, k, tx, ok))
    case _ => None
  }

  /** The event tells the truth about the world: H2, H3, and a bind reported as committed was committed. */
  ghost predicate Truthful(w: World.World, e: nat, k: Pair, ev: DriveEvent)
    requires World.HasFlight(w, e, k)
  {
    match ev
    case Bound(tx, kind, ok) => ok ==> Store.Bind(w.db, e, tx, kind).1.Bound?
    case Rejected(tx) => tx in w.dead
    case Consumed => World.TakenByOther(w, w.procs[e].flights[k], Slot(k, w.procs[e].flights[k].nonce))
    case _ => true
  }

  /** The driver's picture of its nonce agrees with the world. */
  ghost predicate Pictures(v: View, w: World.World, e: nat, k: Pair) {
    && World.HasFlight(w, e, k) && w.procs[e].flights[k] == v.flight && v.rejected <= w.dead
    && (v.consumed ==> World.TakenByOther(w, v.flight, Slot(k, v.flight.nonce)))
  }

  ghost function WorldAfter(w: World.World, e: nat, k: Pair, ev: DriveEvent): World.World {
    var a := StepOf(e, k, ev);
    if a.Some? && World.Enabled(w, a.value) then World.Apply(w, a.value) else w
  }

  /** One event: its step is enabled, a void's included, and the picture stays true unless the flight is over. */
  lemma DriverStepIsWorldStep(w: World.World, e: nat, k: Pair, v: View, ev: DriveEvent)
    requires Pictures(v, w, e, k) && Allowed(k, v, ev) && Truthful(w, e, k, ev)
    ensures StepOf(e, k, ev).Some? ==> World.Enabled(w, StepOf(e, k, ev).value)
    ensures World.HasFlight(WorldAfter(w, e, k, ev), e, k) ==> Pictures(Moved(v, ev), WorldAfter(w, e, k, ev), e, k)
  {
    hide Store.Bind, Store.Void;
  }

  /** Whatever else happens in between: the flight is its driver's, rejects and final nonces stay. */
  ghost predicate Meanwhile(w: World.World, w': World.World, e: nat, k: Pair) {
    && World.HasFlight(w, e, k) && World.HasFlight(w', e, k) && w'.procs[e].flights[k] == w.procs[e].flights[k]
    && w.dead <= w'.dead && w.final <= w'.final
    && forall s :: s in w.final && s in w.chain ==> s in w'.chain && w'.chain[s] == w.chain[s]
  }

  /** Steps that are the driver's own, or end it. */
  ghost predicate IsOwnStep(a: World.Action, e: nat, k: Pair) {
    match a
    case Crash(e') => e' == e
    case BindMore(e', tx, _, _) => e' == e && tx.slot.pair == k
    case Accepted(e', k') => e' == e && k' == k
    case VoidUnused(e', k', _, _) => e' == e && k' == k
    case VoidForeign(e', k', _, _) => e' == e && k' == k
    case EndFlight(e', k') => e' == e && k' == k
    case _ => false
  }

  lemma OthersInterfereLittle(w: World.World, a: World.Action, e: nat, k: Pair)
    requires World.HasFlight(w, e, k) && e <= w.db.epoch && World.Enabled(w, a) && !IsOwnStep(a, e, k)
    ensures Meanwhile(w, World.Apply(w, a), e, k)
  {
    hide Store.AddJob, Store.AddTopup, Store.FailQueued, Store.RequeueFront, Store.FailTopup, Store.EnsurePair, Store.PutJob, Store.Bind, Store.Void, Store.Settle,
         Store.Confirm, Store.Demote;
  }

  /** `ws[i]` is the world in which event i happens, with anybody's steps between one event and the next. */
  ghost predicate IsDrive(ws: seq<World.World>, e: nat, k: Pair, log: seq<DriveEvent>) {
    && |ws| == |log|
    && (forall i {:trigger log[i]} :: 0 <= i < |log| ==> World.HasFlight(ws[i], e, k) && Truthful(ws[i], e, k, log[i]))
    && (forall i {:trigger log[i]} :: 0 <= i < |log| - 1 ==> Meanwhile(WorldAfter(ws[i], e, k, log[i]), ws[i + 1], e, k))
  }

  /** A whole lawful log: every one of its steps, each bind, send and void, is one the system model enables. */
  lemma {:induction false} DriveIsWorldRun(ws: seq<World.World>, e: nat, k: Pair, v: View, log: seq<DriveEvent>, i: nat)
    requires Lawful(k, v, log) && IsDrive(ws, e, k, log) && i < |log| && Pictures(v, ws[0], e, k)
    ensures Pictures(Replay(v, log[..i]), ws[i], e, k)
    ensures StepOf(e, k, log[i]).Some? ==> World.Enabled(ws[i], StepOf(e, k, log[i]).value)
  {
    hide Allowed, Moved, Truthful, StepOf;
    LawfulPrefix(k, v, log, i);
    if i > 0 {
      LawfulPrefix(k, v, log, i - 1);
      DriveIsWorldRun(ws, e, k, v, log, i - 1);
      DriverStepIsWorldStep(ws[i - 1], e, k, Replay(v, log[..i - 1]), log[i - 1]);
      assert Meanwhile(WorldAfter(ws[i - 1], e, k, log[i - 1]), ws[i], e, k);
    }
    DriverStepIsWorldStep(ws[i], e, k, Replay(v, log[..i]), log[i]);
  }
}
