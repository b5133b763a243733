/**
 How nonces change hands. A payload keeps its slot until a void gives it up. Once a nonce was torn it can carry
 live attempts of two owners; recovery resumes all of them as one flight, under the owner of the oldest. That
 adds nothing to flights of one owner each: such a flight can send, and everything it tries to bind is refused.
 */
module Takeover {
  import opened Domain
  import opened World
  import opened Invariant
  import opened Hands
  import Runs
  import StepsVoid
  import Store

  // ---- Where slots and bindings change ----

  ghost predicate Claims(db: Db, a: Action) { a.BindFirst? && Store.Bind(db, a.e, a.tx, Store.First).1.Bound? }

  ghost predicate GivesBack(db: Db, a: Action, s: Slot) {
    a.VoidUnused? && a.e == db.epoch && a.tx.slot == s && s in db.slots && db.slots[s] == a.tx.owner
  }

  ghost predicate SendsBack(db: Db, a: Action, j: nat) { a.VoidForeign? && a.e == db.epoch && a.tx.owner == Job(j) }

  ghost predicate Holds(db: Db, s: Slot, o: Owner) { s in db.slots && db.slots[s] == o }

  ghost predicate Proper(a: Action) { a.BindMore? ==> !a.kind.First? }

  /** Nothing that matters for who holds what has changed. */
  ghost predicate Steady(db: Db, db': Db) {
    && db'.slots == db.slots
    && (forall j :: j in db.jobs ==> j in db'.jobs && db'.jobs[j].binding == db.jobs[j].binding)
    && (forall t :: t in db.topups && !db.topups[t].Requested? ==> t in db'.topups && !db'.topups[t].Requested?)
  }

  lemma SettleIsSteady(db: Db, tx: Tx, inc: Inclusion, confirmNow: bool)
    ensures Steady(db, Store.Settle(db, tx, inc, confirmNow, false).0)
  {
    hide Store.SlotMinedByOther, Store.InclusionFits, Store.IncludedAttempts, Store.ConfirmedAttempts, Store.AddGas, Store.PutOwner;
  }

  lemma VerdictIsSteady(db: Db, tx: Tx)
    ensures Steady(db, Store.Confirm(db, tx).0) && Steady(db, Store.Demote(db, tx).0)
  {
    hide Store.ConfirmedAttempts, Store.AddGas, Store.PutOwner;
  }

  lemma MoreIsSteady(db: Db, e: nat, tx: Tx, kind: Store.BindKind)
    requires !kind.First?
    ensures Steady(db, Store.Bind(db, e, tx, kind).0)
  {
    hide Store.PutOwner, Store.SlotFits, Store.OwnerMoves, Store.RaiseMark;
  }

  lemma IntakeIsSteady(db: Db, a: Action)
    requires IsIntake(a)
    ensures Steady(db, DbAfter(db, a))
  {
    hide Store.PutJob;
  }

  lemma SteadyWhenSame(db: Db, db': Db)
    requires db'.jobs == db.jobs && db'.topups == db.topups && db'.slots == db.slots
    ensures Steady(db, db')
  {}

  lemma SteadyStep(db: Db, a: Action)
    requires Proper(a) && !a.BindFirst? && !a.VoidUnused? && !a.VoidForeign?
    ensures Steady(db, DbAfter(db, a))
  {
    hide Steady, Store.PutJob, Store.Bind, Store.Settle, Store.Confirm, Store.Demote, Store.Void, Store.AddJob, Store.AddTopup, Store.FailQueued,
         Store.RequeueFront, Store.FailTopup;
    if IsIntake(a) {
      IntakeIsSteady(db, a);
    } else {
      match a
      case BindMore(e, tx, kind, _) => MoreIsSteady(db, e, tx, kind);
      case SettleInclusion(_, tx, inc, confirmNow) => SettleIsSteady(db, tx, inc, confirmNow);
      case SettleConfirmation(tx) => VerdictIsSteady(db, tx);
      case Demote(tx) => VerdictIsSteady(db, tx);
      case _ => SteadyWhenSame(db, DbAfter(db, a));
    }
  }

  lemma SlotMoves(db: Db, a: Action, s: Slot, o: Owner)
    requires Proper(a)
    ensures Holds(DbAfter(db, a), s, o) <==> (Holds(db, s, o) && !GivesBack(db, a, s)) || (Claims(db, a) && a.tx.slot == s && a.tx.owner == o)
  {
    hide Store.Bind, Store.Void;
    match a
    case BindFirst(e, tx, _) => ClaimMoves(db, e, tx);
    case VoidUnused(e, _, tx, _) => VoidMoves(db, e, tx);
    case VoidForeign(e, _, tx, _) => VoidMoves(db, e, tx);
    case _ =>
      hide DbAfter;
      SteadyStep(db, a);
  }

  lemma ClaimMoves(db: Db, e: nat, tx: Tx)
    ensures var (db', r) := Store.Bind(db, e, tx, Store.First);
            if r.Bound? then tx.slot !in db.slots && db'.slots == db.slots[tx.slot := tx.owner] else db' == db
  {
    hide Store.PutOwner, Store.OwnerMoves, Store.RaiseMark;
  }

  lemma VoidMoves(db: Db, e: nat, tx: Tx)
    ensures var db' := Store.Void(db, e, tx, Store.NonceUnused, Store.Fail).0; db'.slots == if e == db.epoch then Store.FreedSlots(db.slots, tx) else db.slots
    ensures Store.Void(db, e, tx, Store.NonceTakenByForeignTx, Store.Requeue).0.slots == db.slots
  {
    hide Store.PutOwner, Store.DroppedAttempts, Store.LowerMark;
  }

  lemma GivingBackDrops(db: Db, a: Action, s: Slot)
    requires GivesBack(db, a, s)
    ensures DbAfter(db, a).attempts == Store.DroppedAttempts(db.attempts, s)
  {}

  lemma BindingMoves(db: Db, a: Action, j: nat)
    requires Proper(a) && j in db.jobs
    ensures j in DbAfter(db, a).jobs
    ensures DbAfter(db, a).jobs[j].binding == db.jobs[j].binding || SendsBack(db, a, j)
            || (Claims(db, a) && a.tx.owner == Job(j) && db.jobs[j].status.Queued?)
  {
    hide Store.PutOwner, Store.DroppedAttempts, Store.RaiseMark, Store.LowerMark, Store.FreedSlots, Store.SlotFits;
    if !a.BindFirst? && !a.VoidUnused? && !a.VoidForeign? {
      hide DbAfter;
      SteadyStep(db, a);
    }
  }

  lemma TopupMoves(db: Db, a: Action, t: nat)
    requires Proper(a) && t in db.topups && !db.topups[t].Requested?
    ensures t in DbAfter(db, a).topups && !DbAfter(db, a).topups[t].Requested?
  {
    hide Store.PutOwner, Store.DroppedAttempts, Store.RaiseMark, Store.LowerMark, Store.FreedSlots, Store.SlotFits;
    if !a.BindFirst? && !a.VoidUnused? && !a.VoidForeign? {
      hide DbAfter;
      SteadyStep(db, a);
    }
  }

  // ---- A job's attempts are at its nonce, or at one that is decided ----

  ghost predicate AtHome(w: World, t: Tx) {
    t.owner.Job? ==> t.owner.job in w.db.jobs && (w.db.jobs[t.owner.job].binding == Some(t.slot) || t.slot in w.final)
  }

  ghost predicate AllAtHome(w: World) { forall t :: t in w.db.attempts ==> AtHome(w, t) }

  lemma BoundIsHome(w: World, a: Action, t: Tx)
    requires Inv(w) && Enabled(w, a) && t in Apply(w, a).db.attempts && t !in w.db.attempts
    ensures AtHome(Apply(w, a), t)
  {
    hide Apply, AttemptsOk, JobsOk, LeaderOk, TopupsOk, IncludedOnce;
    NewAttempts(w, a, t);
    TablesFollow(w, a);
    ChainRemembers(w, a);
    if t.owner.Job? && a.BindMore? { assert SlotOk(w, t.slot); }
  }

  lemma SendingBackIsFinal(w: World, a: Action, j: nat)
    requires Inv(w) && Enabled(w, a) && SendsBack(w.db, a, j) && j in w.db.jobs
    ensures a.tx.slot in w.final && (w.db.jobs[j].status.Queued? || w.db.jobs[j].binding.None? || w.db.jobs[j].binding == Some(a.tx.slot))
  {
    hide AttemptsOk, JobsOk, SlotsOk, ChainOk, TopupsOk, IncludedOnce;
    StepsVoid.FlightFacts(w, a.e, a.k, a.tx);
  }

  lemma StaysHome(w: World, a: Action, t: Tx)
    requires Inv(w) && Enabled(w, a) && t in w.db.attempts && AtHome(w, t)
    ensures AtHome(Apply(w, a), t)
  {
    hide Apply, Enabled, AttemptsOk, SlotsOk, LeaderOk, ChainOk, TopupsOk, IncludedOnce, ProcsOk, Claims;
    if t.owner.Job? {
      var j := t.owner.job;
      assert JobOk(w.db.jobs[j], w.db.attempts, j);
      EnabledIsProper(w, a);
      TablesFollow(w, a);
      ChainRemembers(w, a);
      BindingMoves(w.db, a, j);
      if SendsBack(w.db, a, j) { SendingBackIsFinal(w, a, j); }
    }
  }

  lemma EnabledIsProper(w: World, a: Action)
    requires Enabled(w, a)
    ensures Proper(a)
  {}

  lemma {:induction false} AlwaysAtHome(ws: seq<World>, acts: seq<Action>, i: nat)
    requires IsRun(ws, acts) && i < |ws|
    ensures AllAtHome(ws[i])
  {
    hide Inv, CancelsOk, Enabled, Apply, AtHome;
    if i > 0 {
      AlwaysAtHome(ws, acts, i - 1);
      Runs.RunKeeps(ws, acts, i - 1);
      forall t | t in ws[i].db.attempts ensures AtHome(ws[i], t) {
        if t in ws[i - 1].db.attempts { StaysHome(ws[i - 1], acts[i - 1], t); } else { BoundIsHome(ws[i - 1], acts[i - 1], t); }
      }
    }
  }

  // ---- A payload is on a slot of its owner until a void gives it up ----

  ghost predicate Backed(w: World, t: Tx) {
    Impossible(w, t) || t in w.escaped || t in w.missed || Holds(w.db, t.slot, t.owner)
  }

  lemma MarksStay(w: World, a: Action)
    requires Enabled(w, a)
    ensures w.escaped <= Apply(w, a).escaped && w.missed <= Apply(w, a).missed
  {
    hide Store.PutJob, Store.Bind, Store.Settle, Store.Confirm, Store.Demote, Store.Void;
  }

  lemma GivenBackIsGivenUp(w: World, a: Action, t: Tx)
    requires Inv(w) && Enabled(w, a) && GivesBack(w.db, a, t.slot) && t in w.db.attempts && t.owner == a.tx.owner && t.Payload()
    ensures Backed(Apply(w, a), t)
  {
    hide JobsOk, SlotsOk, TopupsOk, IncludedOnce, Store.Void;
    StepsVoid.FlightFacts(w, a.e, a.k, a.tx);
    hide LeaderOk, ProcsOk;
    StepsVoid.VoidSettlesTheNonce(w, a.e, a.k, a.tx, Store.NonceUnused, Store.Fail, t);
    var w' := Voided(w, a.e, a.tx, Store.NonceUnused, Store.Fail);
    assert Unheld(w', t) ==> Unheld(Apply(w, a), t);
  }

  lemma StaysBacked(w: World, a: Action, t: Tx)
    requires Inv(w) && Enabled(w, a) && t in w.db.attempts && t.Payload() && Backed(w, t)
    ensures Backed(Apply(w, a), t)
  {
    hide Apply, Enabled, AttemptsOk, JobsOk, SlotsOk, LeaderOk, ChainOk, TopupsOk, IncludedOnce, ProcsOk, Impossible, Claims;
    EnabledIsProper(w, a);
    TablesFollow(w, a);
    MarksStay(w, a);
    if Impossible(w, t) { ImpossibleForever(w, a, t); }
    SlotMoves(w.db, a, t.slot, t.owner);
    if Holds(w.db, t.slot, t.owner) && GivesBack(w.db, a, t.slot) { GivenBackIsGivenUp(w, a, t); }
  }

  /** In every state of every run a payload that can still be mined is on a slot of its owner, or some void gave it up. */
  lemma {:induction false} PayloadsAreBacked(ws: seq<World>, acts: seq<Action>, i: nat, t: Tx)
    requires IsRun(ws, acts) && i < |ws| && t in ws[i].db.attempts && t.Payload()
    ensures Backed(ws[i], t)
  {
    hide Inv, CancelsOk, Enabled, Apply, Impossible, Store.Bind;
    var w, a := ws[i - 1], acts[i - 1];
    Runs.RunKeeps(ws, acts, i - 1);
    if t in w.db.attempts {
      PayloadsAreBacked(ws, acts, i - 1, t);
      StaysBacked(w, a, t);
    } else {
      NewcomerHolds(w, a, t);
    }
  }

  lemma NewcomerHolds(w: World, a: Action, t: Tx)
    requires Inv(w) && Enabled(w, a) && t in Apply(w, a).db.attempts && t !in w.db.attempts
    ensures Holds(Apply(w, a).db, t.slot, t.owner)
  {
    hide Apply, Enabled, AttemptsOk, JobsOk, SlotsOk, LeaderOk, TopupsOk, IncludedOnce, Store.Bind;
    NewAttempts(w, a, t);
    TablesFollow(w, a);
    BoundHolds(w.db, a.e, t, if a.BindFirst? then Store.First else a.kind);
  }

  // ---- A nonce does not come back to an earlier owner ----

  /** The leader is not driving the owner's first broadcast at this nonce. */
  ghost predicate NotUnderWay(w: World, s: Slot, o: Owner) {
    HasFlight(w, w.db.epoch, s.pair) ==>
      var f := w.procs[w.db.epoch].flights[s.pair];
      !(f.unaccepted && f.nonce == s.nonce && f.owner == o)
  }

  /** The owner is done with the nonce: it no longer holds it and is in no state to claim it. */
  ghost predicate Ousted(w: World, s: Slot, o: Owner) {
    && !Holds(w.db, s, o)
    && (o.Job? ==> o.job in w.db.jobs && w.db.jobs[o.job].binding == Some(s) && NotUnderWay(w, s, o))
    && (o.Topup? ==> o.topup in w.db.topups && !w.db.topups[o.topup].Requested?)
  }

  /** `u` came too late to be mined, and is in play only while its owner holds the nonce. */
  ghost predicate TooLate(w: World, u: Tx) {
    && u in w.db.attempts && u !in w.mined && u.slot in w.final && u.slot in w.chain
    && (w.db.attempts[u].status.Retired() || Holds(w.db, u.slot, u.owner))
  }

  ghost predicate Displaced(w: World, u: Tx, o: Owner) { Ousted(w, u.slot, o) || TooLate(w, u) }

  lemma BoundHolds(db: Db, e: nat, tx: Tx, kind: Store.BindKind)
    requires Store.Bind(db, e, tx, kind).1.Bound?
    ensures Holds(Store.Bind(db, e, tx, kind).0, tx.slot, tx.owner) && e == db.epoch
    ensures kind.First? ==> match tx.owner case Job(j) => j in db.jobs && db.jobs[j].status.Queued? case Topup(t) => t in db.topups && db.topups[t].Requested?
  {
    hide Store.PutOwner;
  }

  lemma BinderDrives(w: World, a: Action, o: Owner)
    requires Enabled(w, a) && IsBind(a) && a.e == w.db.epoch && o != a.tx.owner
    ensures NotUnderWay(Apply(w, a), a.tx.slot, o) && Apply(w, a).mined == w.mined
  {
    hide Apply, Store.Bind;
    EpochMoves(w, a);
    BindFlights(w, a);
  }

  lemma BindFlights(w: World, a: Action)
    requires Enabled(w, a) && IsBind(a)
    ensures HasFlight(Apply(w, a), a.e, a.tx.slot.pair) ==> Apply(w, a).procs[a.e].flights[a.tx.slot.pair].owner == a.tx.owner
    ensures Apply(w, a).mined == w.mined
  {
    hide Store.Bind;
  }

  /** When another owner's attempt is stored at the nonce of `t`, the owner of `t` has been ousted, or the nonce is decided. */
  lemma NewcomerDisplaces(w: World, a: Action, t: Tx, u: Tx)
    requires Inv(w) && AtHome(w, t) && Enabled(w, a) && t in w.db.attempts && u !in w.db.attempts && u in Apply(w, a).db.attempts
    requires t.slot == u.slot && t.owner != u.owner
    ensures Displaced(Apply(w, a), u, t.owner)
  {
    hide Apply, Enabled, JobsOk, SlotsOk, LeaderOk, IncludedOnce, ProcsOk, NotUnderWay, Store.Bind;
    NewAttempts(w, a, u);
    BoundHolds(w.db, a.e, u, if a.BindFirst? then Store.First else a.kind);
    BinderDrives(w, a, t.owner);
    TablesFollow(w, a);
    ChainRemembers(w, a);
    EnabledIsProper(w, a);
    assert AttemptOk(w, t);
    if t.owner.Job? { BindingMoves(w.db, a, t.owner.job); } else { TopupMoves(w.db, a, t.owner.topup); }
  }

  lemma StaysIdle(w: World, a: Action, s: Slot, o: Owner)
    requires Enabled(w, a) && NotUnderWay(w, s, o) && !(Claims(w.db, a) && a.tx.owner == o)
    ensures NotUnderWay(Apply(w, a), s, o)
  {
    hide Apply, Enabled, Store.Bind;
    var w' := Apply(w, a);
    if HasFlight(w', w'.db.epoch, s.pair) && w'.procs[w'.db.epoch].flights[s.pair].unaccepted { FlightsContinue(w, a, s.pair); }
  }

  lemma OnlyItsDriverSendsBack(w: World, a: Action, j: nat, s: Slot)
    requires Inv(w) && Enabled(w, a) && SendsBack(w.db, a, j) && j in w.db.jobs && w.db.jobs[j].binding == Some(s) && !w.db.jobs[j].status.Queued?
    ensures !NotUnderWay(w, s, Job(j))
  {
    hide AttemptsOk, JobsOk, SlotsOk, ChainOk, TopupsOk, IncludedOnce;
    StepsVoid.FlightFacts(w, a.e, a.k, a.tx);
    assert FlightOk(w.procs[a.e], a.k);
  }

  lemma StaysOusted(w: World, a: Action, s: Slot, o: Owner)
    requires Inv(w) && Enabled(w, a) && Ousted(w, s, o)
    ensures Ousted(Apply(w, a), s, o)
  {
    hide Apply, Enabled, AttemptsOk, SlotsOk, LeaderOk, IncludedOnce, ProcsOk, ChainOk, TopupsOk, NotUnderWay, Store.Bind;
    EnabledIsProper(w, a);
    TablesFollow(w, a);
    SlotMoves(w.db, a, s, o);
    if Claims(w.db, a) { BoundHolds(w.db, a.e, a.tx, Store.First); }
    if o.Job? {
      assert JobOk(w.db.jobs[o.job], w.db.attempts, o.job);
      BindingMoves(w.db, a, o.job);
      if SendsBack(w.db, a, o.job) { OnlyItsDriverSendsBack(w, a, o.job, s); }
      StaysIdle(w, a, s, o);
    } else {
      TopupMoves(w.db, a, o.topup);
    }
  }

  lemma StoredStays(db: Db, a: Action)
    ensures db.attempts.Keys <= DbAfter(db, a).attempts.Keys
  {
    hide Store.PutOwner, Store.PutJob;
    if !IsBind(a) { OnlyBindsStore(db, a); }
  }

  lemma NotMinedHere(w: World, a: Action, u: Tx)
    requires Enabled(w, a) && u !in w.mined && u.slot in w.chain
    ensures u !in Apply(w, a).mined
  {
    hide Store.PutJob, Store.Bind, Store.Settle, Store.Confirm, Store.Demote, Store.Void;
  }

  lemma StaysTooLate(w: World, a: Action, u: Tx)
    requires Inv(w) && Enabled(w, a) && TooLate(w, u)
    ensures TooLate(Apply(w, a), u)
  {
    hide Apply, Enabled, JobsOk, SlotsOk, LeaderOk, IncludedOnce, ProcsOk, ChainOk, TopupsOk, Claims;
    EnabledIsProper(w, a);
    TablesFollow(w, a);
    ChainRemembers(w, a);
    NotMinedHere(w, a, u);
    StoredStays(w.db, a);
    StepRetires(w.db, a);
    if !w.db.attempts[u].status.Retired() {
      assert AttemptOk(w, u);
      SlotMoves(w.db, a, u.slot, u.owner);
      if GivesBack(w.db, a, u.slot) { GivingBackDrops(w.db, a, u.slot); }
    }
  }

  /** `t` was stored before `u`, by the state with number i. */
  ghost predicate Older(ws: seq<World>, i: nat, t: Tx, u: Tx)
    requires i < |ws|
  {
    exists n :: 0 <= n < i && t in ws[n].db.attempts && u !in ws[n].db.attempts
  }

  lemma {:induction false} OlderIsDisplaced(ws: seq<World>, acts: seq<Action>, n: nat, i: nat, t: Tx, u: Tx)
    requires IsRun(ws, acts) && n < i < |ws| && t.slot == u.slot && t.owner != u.owner
    requires t in ws[n].db.attempts && u !in ws[n].db.attempts && u in ws[i].db.attempts
    ensures Displaced(ws[i], u, t.owner)
    decreases i
  {
    hide Inv, CancelsOk, Enabled, Apply, AtHome, Ousted, TooLate;
    var w := ws[i - 1];
    Runs.RunKeeps(ws, acts, i - 1);
    if u in w.db.attempts {
      OlderIsDisplaced(ws, acts, n, i - 1, t, u);
      if Ousted(w, u.slot, t.owner) { StaysOusted(w, acts[i - 1], u.slot, t.owner); } else { StaysTooLate(w, acts[i - 1], u); }
    } else {
      AlwaysAtHome(ws, acts, i - 1);
      StoredForever(ws, acts, n, i - 1);
      NewcomerDisplaces(w, acts[i - 1], t, u);
    }
  }

  lemma {:induction false} StoredForever(ws: seq<World>, acts: seq<Action>, n: nat, i: nat)
    requires IsRun(ws, acts) && n <= i < |ws|
    ensures ws[n].db.attempts.Keys <= ws[i].db.attempts.Keys
    decreases i
  {
    hide Enabled, Apply;
    if n < i {
      StoredForever(ws, acts, n, i - 1);
      TablesFollow(ws[i - 1], acts[i - 1]);
      StoredStays(ws[i - 1].db, acts[i - 1]);
    }
  }

  /** Of two owners with attempts at one nonce, the earlier no longer holds it while the later's is in play. */
  lemma OldestIsOusted(ws: seq<World>, acts: seq<Action>, i: nat, t: Tx, u: Tx)
    requires IsRun(ws, acts) && i < |ws| && t.slot == u.slot && t.owner != u.owner && Older(ws, i, t, u)
    requires u in ws[i].db.attempts && !ws[i].db.attempts[u].status.Retired()
    ensures !Holds(ws[i].db, t.slot, t.owner)
  {
    var n :| 0 <= n < i && t in ws[n].db.attempts && u !in ws[n].db.attempts;
    OlderIsDisplaced(ws, acts, n, i, t, u);
  }

  // ---- Recovery of such a nonce ----

  /** The walk that loaded the pair's live attempts in step m is still going on in state i. */
  ghost predicate Walking(ws: seq<World>, acts: seq<Action>, e: nat, k: Pair, m: nat, i: nat)
    requires |acts| < |ws|
  {
    && m < i <= |acts| && acts[m] == LoadLive(e, k)
    && forall n {:trigger ws[n]} :: m < n <= i ==> e in ws[n].procs && k in ws[n].procs[e].walk
  }

  lemma {:induction false} NobodyClaims(ws: seq<World>, acts: seq<Action>, e: nat, k: Pair, m: nat, i: nat, s: Slot, o: Owner)
    requires IsRun(ws, acts) && Walking(ws, acts, e, k, m, i) && ws[i].db.epoch == e && s.pair == k && Holds(ws[i].db, s, o)
    ensures Holds(ws[m].db, s, o)
    decreases i
  {
    hide Inv, CancelsOk, Enabled, Apply, Store.Bind;
    var w, a := ws[i - 1], acts[i - 1];
    TablesFollow(w, a);
    EnabledIsProper(w, a);
    SlotMoves(w.db, a, s, o);
    if i - 1 > m {
      Runs.RunKeeps(ws, acts, i - 1);
      StillLeads(w, a, e);
      if Claims(w.db, a) {
        BoundHolds(w.db, a.e, a.tx, Store.First);
        ClaimNeedsNoWalk(w, a);
      }
      NobodyClaims(ws, acts, e, k, m, i - 1, s, o);
    }
  }

  lemma ClaimNeedsNoWalk(w: World, a: Action)
    requires Enabled(w, a) && a.BindFirst?
    ensures a.e in w.procs && a.tx.slot.pair !in w.procs[a.e].walk
  {}

  lemma StillLeads(w: World, a: Action, e: nat)
    requires Inv(w) && Enabled(w, a) && e in w.procs && Apply(w, a).db.epoch == e
    ensures w.db.epoch == e
  {
    hide Apply, Enabled, AttemptsOk, JobsOk, SlotsOk, LeaderOk, IncludedOnce, ChainOk, TopupsOk;
    EpochMoves(w, a);
  }

  /**
   Recovery that finds live attempts of several owners at a nonce signs under the owner of the oldest. The
   store refuses every such bind, so no bind of a flight with several owners changes a table.
   */
  lemma MixedNonceIsRefused(ws: seq<World>, acts: seq<Action>, e: nat, k: Pair, m: nat, i: nat, t: Tx, u: Tx, tx: Tx, kind: Store.BindKind)
    requires IsRun(ws, acts) && Walking(ws, acts, e, k, m, i) && t in LiveOf(ws[m].db, k) && u in LiveOf(ws[m].db, k)
    requires t.slot == u.slot == tx.slot && t.owner == tx.owner != u.owner && Older(ws, m, t, u) && !kind.First?
    ensures !Store.Bind(ws[i].db, e, tx, kind).1.Bound? && Store.Bind(ws[i].db, e, tx, kind).0 == ws[i].db
  {
    if Store.Bind(ws[i].db, e, tx, kind).1.Bound? {
      BoundHolds(ws[i].db, e, tx, kind);
      NobodyClaims(ws, acts, e, k, m, i, tx.slot, tx.owner);
      OldestIsOusted(ws, acts, m, t, u);
    }
  }

  /** What such a flight can do is send, and each of its sends is that of a flight of one owner. */
  lemma MixedSendIsOneOwners(w: World, e: nat, k: Pair, nonce: nat, txs: set<Tx>, tx: Tx) returns (w1: World, w2: World, w3: World)
    requires e in w.procs && k in w.procs[e].walk && k !in w.procs[e].flights && tx in txs && txs <= w.procs[e].walk[k]
    requires forall t :: t in txs ==> t.slot == Slot(k, nonce)
    ensures var own := set t | t in txs && t.owner == tx.owner; Enabled(w, Resume(e, k, nonce, own)) && w1 == Apply(w, Resume(e, k, nonce, own))
    ensures Enabled(w1, Send(e, k, tx)) && w2 == Apply(w1, Send(e, k, tx))
    ensures Enabled(w2, EndFlight(e, k)) && w3 == Apply(w2, EndFlight(e, k)) == w.(sent := w.sent + {tx})
  {
    var own := set t | t in txs && t.owner == tx.owner;
    assert tx in own;
    w1 := Apply(w, Resume(e, k, nonce, own));
    w2 := Apply(w1, Send(e, k, tx));
    w3 := Apply(w2, EndFlight(e, k));
    assert w3.procs[e].flights == w.procs[e].flights;
    assert w3.procs[e] == w.procs[e];
    assert w3.procs == w.procs;
  }
}
