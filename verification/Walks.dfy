/**
 Where the exceptions come from: only a process that starts a recovery walk after losing its lease can learn
 of the attempts at a nonce the leader has not decided. If zombies start no walks, nothing is ever missed,
 no nonce is ever torn, and the promises hold outright.
 */
module Walks {
  import opened Domain
  import opened World
  import opened Invariant
  import opened Hands
  import Runs
  import Safety
  import StepsCancel
  import StepsOwn
  import Store

  /** Live attempts are loaded by the current leader only. */
  ghost predicate LeaderWalks(w: World, a: Action) { a.LoadLive? ==> a.e == w.db.epoch }

  // ---- The leader knows every attempt at a nonce it has not decided, and nobody else knows any ----

  ghost predicate Accounted(w: World, f: Flight, t: Tx) {
    t in f.attempts || Unheld(w, t) || Impossible(w, t)
  }

  /** An attempt in play has no receipt recorded and is in nobody's hands but this flight's. */
  ghost predicate Secret(w: World, f: Flight, t: Tx)
    requires t in w.db.attempts
  {
    !w.db.attempts[t].status.Dropped? ==>
      && w.db.attempts[t].status.Broadcast? && (t in f.attempts || Unheld(w, t))
      && forall e :: e in w.procs && e != w.db.epoch ==> t !in w.procs[e].held
  }

  ghost predicate KnowsAll(w: World) {
    w.missed == {} && (w.db.epoch in w.procs ==>
      var flights := w.procs[w.db.epoch].flights;
      forall k, t :: k in flights && flights[k].unaccepted && t in w.db.attempts && t.slot == Slot(k, flights[k].nonce) && t.owner == flights[k].owner ==>
        Accounted(w, flights[k], t) && Secret(w, flights[k], t))
  }

  /** Nobody can report an attempt at an undecided nonce: those who hold it are still driving it. */
  lemma NobodyReports(w: World, k: Pair, e: nat, tx: Tx)
    requires Inv(w) && Owned(w.db) && KnowsAll(w) && HasFlight(w, w.db.epoch, k) && w.procs[w.db.epoch].flights[k].unaccepted
    requires tx in w.db.attempts && tx.slot == Slot(k, w.procs[w.db.epoch].flights[k].nonce) && MayReport(w, e, tx)
    ensures w.db.attempts[tx].status.Dropped?
  {
    hide AttemptsOk, JobsOk, SlotsOk, ChainOk, TopupsOk, IncludedOnce, ProcsOk, JobsCarried, Impossible;
    var p, f := w.procs[w.db.epoch], w.procs[w.db.epoch].flights[k];
    assert LeaderFlightOk(w.db, p, k) && FreshFlightOk(w.db.slots, w.db.pairs, p, k);
    assert tx.owner == f.owner ==> Secret(w, f, tx);
  }

  lemma SettleLeavesOthers(db: Db, tx: Tx, inc: Inclusion, confirmNow: bool, t: Tx)
    requires t in db.attempts && db.attempts[t].status.Broadcast? && (t.slot == tx.slot ==> tx !in db.attempts || db.attempts[tx].status.Dropped?)
    ensures var after := Store.Settle(db, tx, inc, confirmNow, false).0.attempts; t in after && after[t].status.Broadcast?
  {
    hide Store.PutOwner, Store.SlotMinedByOther, Store.InclusionFits;
    var included := Store.AfterInclusion(db, tx, inc, false).attempts;
    assert included == Store.IncludedAttempts(db.attempts, tx, inc);
  }

  lemma OtherWritesLeave(db: Db, a: Action, t: Tx)
    requires t in db.attempts && db.attempts[t].status.Broadcast? && !a.SettleInclusion?
    ensures var after := DbAfter(db, a).attempts; t in after && (after[t].status.Broadcast? || after[t].status.Dropped?)
  {
    hide Store.PutJob, Store.Bind, Store.Confirm, Store.Demote, Store.Void;
    match a
    case BindFirst(e, tx, _) => BindLeaves(db, e, tx, Store.First, Store.NonceUnused, Store.Fail, t);
    case BindMore(e, tx, kind, _) => BindLeaves(db, e, tx, kind, Store.NonceUnused, Store.Fail, t);
    case VoidUnused(e, _, tx, _) => BindLeaves(db, e, tx, Store.First, Store.NonceUnused, Store.Fail, t);
    case VoidForeign(e, _, tx, _) => BindLeaves(db, e, tx, Store.First, Store.NonceTakenByForeignTx, Store.Requeue, t);
    case SettleConfirmation(tx) => ConfirmLeaves(db, tx, t);
    case Demote(tx) => ConfirmLeaves(db, tx, t);
    case _ =>
  }

  lemma BindLeaves(db: Db, e: nat, tx: Tx, kind: Store.BindKind, mode: Store.VoidMode, d: Store.Disposition, t: Tx)
    requires t in db.attempts && db.attempts[t].status.Broadcast?
    ensures var after := Store.Bind(db, e, tx, kind).0.attempts; t in after && after[t].status.Broadcast?
    ensures var after := Store.Void(db, e, tx, mode, d).0.attempts; t in after && (after[t].status.Broadcast? || after[t].status.Dropped?)
  {
    hide Store.PutOwner;
  }

  lemma ConfirmLeaves(db: Db, tx: Tx, t: Tx)
    requires t in db.attempts && db.attempts[t].status.Broadcast?
    ensures var after := Store.Confirm(db, tx).0.attempts; t in after && after[t].status.Broadcast?
    ensures var after := Store.Demote(db, tx).0.attempts; t in after && after[t].status.Broadcast?
  {
    hide Store.PutOwner;
  }

  /** Other processes pick up nothing at a pair the leader is flying. */
  lemma OthersPickUpNothing(w: World, a: Action, k: Pair, t: Tx)
    requires Enabled(w, a) && LeaderWalks(w, a) && Continues(w, Apply(w, a), k) && t in w.db.attempts && t.slot.pair == k
    requires forall e :: e in w.procs && e != w.db.epoch ==> t !in w.procs[e].held
    ensures forall e :: e in Apply(w, a).procs && e != w.db.epoch ==> t !in Apply(w, a).procs[e].held
  {
    if IsBind(a) {
      hide Apply, Enabled;
      BindPicksUpOne(w, a, t);
    } else {
      hide Store.PutJob, Store.Bind, Store.Settle, Store.Confirm, Store.Demote, Store.Void;
    }
  }

  lemma BindPicksUpOne(w: World, a: Action, t: Tx)
    requires Enabled(w, a) && IsBind(a) && t in w.db.attempts
    ensures forall e :: e in Apply(w, a).procs && t in Apply(w, a).procs[e].held ==> e in w.procs && t in w.procs[e].held
  {
    hide Store.AfterBind, Store.SlotFits, Store.OwnerMoves;
  }

  /** The bytes of a fresh bind are stored without a receipt and held by nobody but the binder. */
  ghost predicate Private(w: World, e: nat, t: Tx) {
    && t in w.db.attempts && w.db.attempts[t].status.Broadcast?
    && forall e' :: e' in w.procs && e' != e ==> t !in w.procs[e'].held
  }

  lemma FirstIsPrivate(w: World, e: nat, t: Tx, reported: bool)
    requires CanBindFirst(w, e, t) && t in AfterBindFirst(w, e, t, reported).db.attempts && t !in w.db.attempts
    requires forall e' :: e' in w.procs ==> t !in w.procs[e'].held
    ensures Private(AfterBindFirst(w, e, t, reported), e, t)
  {
    hide Store.PutOwner, Store.SlotFits, Store.OwnerMoves, Store.RaiseMark;
  }

  lemma MoreIsPrivate(w: World, e: nat, t: Tx, kind: Store.BindKind, reported: bool)
    requires CanBindMore(w, e, t, kind) && t in AfterBindMore(w, e, t, kind, reported).db.attempts && t !in w.db.attempts
    requires forall e' :: e' in w.procs ==> t !in w.procs[e'].held
    ensures Private(AfterBindMore(w, e, t, kind, reported), e, t)
  {
    hide Store.PutOwner, Store.SlotFits, Store.OwnerMoves, Store.RaiseMark;
  }

  lemma NewIsSecret(w: World, a: Action, t: Tx)
    requires ProcsOk(w.procs, w.db.epoch, w.db.attempts.Keys) && Enabled(w, a) && IsBind(a) && a.tx == t
    requires t in Apply(w, a).db.attempts && t !in w.db.attempts
    ensures Private(Apply(w, a), a.e, t)
  {
    assert forall e :: e in w.procs ==> t !in w.procs[e].held;
    hide ProcsOk, Private, AfterBindFirst, AfterBindMore;
    if a.BindFirst? { FirstIsPrivate(w, a.e, t, a.reported); } else { MoreIsPrivate(w, a.e, t, a.kind, a.reported); }
  }

  /** A new attempt at the leader's nonce, the leader's own: tracked or in nobody's hands. */
  lemma NewIsKnown(w: World, a: Action, k: Pair, t: Tx)
    requires Inv(w) && Enabled(w, a) && HasFlight(Apply(w, a), Apply(w, a).db.epoch, k)
    requires t in Apply(w, a).db.attempts && t !in w.db.attempts && t.slot.pair == k
    ensures var w' := Apply(w, a); Accounted(w', w'.procs[w'.db.epoch].flights[k], t) && Secret(w', w'.procs[w'.db.epoch].flights[k], t)
  {
    hide Apply, Enabled, AttemptsOk, JobsOk, SlotsOk, LeaderOk, ChainOk, TopupsOk, IncludedOnce, ProcsOk, Impossible, Unheld, Store.Bind;
    NewAttempts(w, a, t);
    StepsCancel.BinderLeads(w, a, t);
    NewIsSecret(w, a, t);
  }

  lemma OldIsKnown(w: World, a: Action, k: Pair, t: Tx)
    requires Inv(w) && Owned(w.db) && KnowsAll(w) && Enabled(w, a) && LeaderWalks(w, a) && Continues(w, Apply(w, a), k) && t in w.db.attempts
    requires var f := w.procs[w.db.epoch].flights[k]; t.slot == Slot(k, f.nonce) && t.owner == f.owner
    ensures var w' := Apply(w, a); t in w'.db.attempts
    ensures var w' := Apply(w, a); Accounted(w', w'.procs[w'.db.epoch].flights[k], t) && Secret(w', w'.procs[w'.db.epoch].flights[k], t)
  {
    hide Apply, AttemptsOk, JobsOk, SlotsOk, LeaderOk, ChainOk, TopupsOk, IncludedOnce, ProcsOk, Impossible, Unheld, SlotsOwned, JobsCarried;
    hide Store.Bind, Store.Settle, Store.Confirm, Store.Demote, Store.Void, Store.PutJob;
    var f := w.procs[w.db.epoch].flights[k];
    assert Accounted(w, f, t) && Secret(w, f, t);
    TablesFollow(w, a);
    StepRetires(w.db, a);
    if Impossible(w, t) { ImpossibleForever(w, a, t); }
    if Unheld(w, t) { UnheldStays(w, a, t); }
    if !w.db.attempts[t].status.Dropped? {
      OthersPickUpNothing(w, a, k, t);
      StaysBroadcast(w, a, k, t);
    }
  }

  lemma StaysBroadcast(w: World, a: Action, k: Pair, t: Tx)
    requires Inv(w) && Owned(w.db) && KnowsAll(w) && Enabled(w, a) && HasFlight(w, w.db.epoch, k) && w.procs[w.db.epoch].flights[k].unaccepted
    requires t in w.db.attempts && t.slot == Slot(k, w.procs[w.db.epoch].flights[k].nonce) && w.db.attempts[t].status.Broadcast?
    ensures var after := DbAfter(w.db, a).attempts; t in after && (after[t].status.Broadcast? || after[t].status.Dropped?)
  {
    hide Inv, Owned, KnowsAll, Store.Settle;
    if a.SettleInclusion? {
      if a.tx.slot == t.slot && a.tx in w.db.attempts { NobodyReports(w, k, a.e, a.tx); }
      SettleLeavesOthers(w.db, a.tx, a.inc, a.confirmNow, t);
    } else {
      OtherWritesLeave(w.db, a, t);
    }
  }

  /** A nonce just bound was free, so whatever was signed for it before is out of play. */
  lemma FreshIsKnown(w: World, a: Action, k: Pair, t: Tx)
    requires Inv(w) && Owned(w.db) && w.missed == {} && Enabled(w, a) && TakesOff(w, a, k)
    requires t in w.db.attempts && t.slot == a.tx.slot && t.owner == a.tx.owner
    ensures Impossible(w, t) && w.db.attempts[t].status.Dropped?
  {
    hide JobsOk, SlotsOk, LeaderOk, ChainOk, IncludedOnce, ProcsOk, JobsCarried;
    StepsCancel.EarlierLifeIsOver(w, a, t);
  }

  lemma StaysKnown(w: World, a: Action, k: Pair, t: Tx)
    requires Inv(w) && Owned(w.db) && KnowsAll(w) && Enabled(w, a) && LeaderWalks(w, a)
    requires HasFlight(Apply(w, a), Apply(w, a).db.epoch, k) && t in Apply(w, a).db.attempts
    requires var f := Apply(w, a).procs[Apply(w, a).db.epoch].flights[k]; f.unaccepted && t.slot == Slot(k, f.nonce) && t.owner == f.owner
    ensures var w' := Apply(w, a); Accounted(w', w'.procs[w'.db.epoch].flights[k], t) && Secret(w', w'.procs[w'.db.epoch].flights[k], t)
  {
    hide Apply, Enabled, AttemptsOk, JobsOk, SlotsOk, LeaderOk, ChainOk, TopupsOk, IncludedOnce, ProcsOk, Impossible, Unheld, SlotsOwned, JobsCarried, Accounted, LeaderWalks;
    FlightsContinue(w, a, k);
    if t !in w.db.attempts {
      NewIsKnown(w, a, k, t);
    } else if Continues(w, Apply(w, a), k) {
      OldIsKnown(w, a, k, t);
    } else {
      FreshIsKnown(w, a, k, t);
      ImpossibleForever(w, a, t);
      TablesFollow(w, a);
      StepRetires(w.db, a);
      StaysImpossible(Apply(w, a), k, t);
    }
  }

  lemma StaysImpossible(w: World, k: Pair, t: Tx)
    requires Impossible(w, t)
    ensures forall f :: Accounted(w, f, t)
  {}

  /** With every minable attempt accounted for, an attempt on the chain is one the driver tracks. */
  lemma HolderIsTracked(w: World, k: Pair, t: Tx)
    requires Inv(w) && KnowsAll(w) && HasFlight(w, w.db.epoch, k) && Safety.OnChain(w, t)
    requires var f := w.procs[w.db.epoch].flights[k]; f.unaccepted && t.slot == Slot(k, f.nonce) && t.owner == f.owner
    ensures t in w.procs[w.db.epoch].flights[k].attempts
  {
    hide JobsOk, SlotsOk, LeaderOk, TopupsOk, IncludedOnce, AttemptsOk, ProcsOk, Impossible;
    Safety.OnChainIsPossible(w, t);
    assert Accounted(w, w.procs[w.db.epoch].flights[k], t);
  }

  lemma HoldersAreTracked(w: World, k: Pair, tx: Tx)
    requires Inv(w) && KnowsAll(w) && HasFlight(w, w.db.epoch, k)
    requires var f := w.procs[w.db.epoch].flights[k]; f.unaccepted && tx.slot == Slot(k, f.nonce) && tx.owner == f.owner
    ensures Overlooked(w, tx) <= w.procs[w.db.epoch].flights[k].attempts
  {
    hide Inv, KnowsAll;
    forall t | t in Overlooked(w, tx) ensures t in w.procs[w.db.epoch].flights[k].attempts { HolderIsTracked(w, k, t); }
  }

  lemma NothingMissed(w: World, a: Action)
    requires Inv(w) && KnowsAll(w) && Enabled(w, a)
    ensures Apply(w, a).missed == {}
  {
    hide Apply, KnowsAll, JobsOk, SlotsOk, LeaderOk, TopupsOk, IncludedOnce, AttemptsOk, ChainOk;
    MissedOnlyThere(w, a);
    if a.VoidForeign? && a.e == w.db.epoch {
      assert FlightOk(w.procs[a.e], a.k);
      HoldersAreTracked(w, a.k, a.tx);
    }
    KnownIsUnmissed(w);
  }

  lemma KnownIsUnmissed(w: World)
    requires KnowsAll(w)
    ensures w.missed == {}
  {}

  lemma MissedOnlyThere(w: World, a: Action)
    requires Enabled(w, a)
    ensures Apply(w, a).missed == if a.VoidForeign? && a.e == w.db.epoch then w.missed + Overlooked(w, a.tx) else w.missed
  {
    hide Store.Void, Store.Bind, Store.Settle, Store.Confirm, Store.Demote, Store.PutJob;
  }

  lemma KnowsAllStep(w: World, a: Action)
    requires Inv(w) && Owned(w.db) && KnowsAll(w) && Enabled(w, a) && LeaderWalks(w, a)
    ensures KnowsAll(Apply(w, a))
  {
    hide Apply, Enabled, Inv, Owned, Impossible, Unheld, LeaderWalks, Accounted, Secret;
    var w' := Apply(w, a);
    NothingMissed(w, a);
    if w'.db.epoch in w'.procs {
      var flights := w'.procs[w'.db.epoch].flights;
      forall k, t | k in flights && flights[k].unaccepted && t in w'.db.attempts && t.slot == Slot(k, flights[k].nonce) && t.owner == flights[k].owner
        ensures Accounted(w', flights[k], t) && Secret(w', flights[k], t)
      {
        StaysKnown(w, a, k, t);
      }
    }
  }

  /** A driver that knows all has nothing settled under its nonce when it voids. */
  lemma NothingTears(w: World, a: Action)
    requires Inv(w) && KnowsAll(w) && Enabled(w, a)
    ensures !StepsOwn.Tears(w, a)
  {
    hide AttemptsOk, JobsOk, SlotsOk, LeaderOk, ChainOk, TopupsOk, IncludedOnce, Impossible;
    if a.VoidUnused? && a.e == w.db.epoch {
      assert FlightOk(w.procs[a.e], a.k);
      var f := w.procs[a.e].flights[a.k];
      forall t | t in w.db.attempts && t.slot == a.tx.slot && t.owner == a.tx.owner
        ensures w.db.attempts[t].status.Broadcast? || w.db.attempts[t].status.Dropped?
      {
        assert Secret(w, f, t);
      }
    }
  }

  ghost predicate OnlyLeadersWalk(ws: seq<World>, acts: seq<Action>)
    requires |acts| <= |ws|
  {
    forall i {:trigger acts[i]} :: 0 <= i < |acts| ==> LeaderWalks(ws[i], acts[i])
  }

  /** If zombies start no walks, nothing is ever missed and no nonce is ever torn. */
  lemma {:induction false} NothingIsMissedOrTorn(ws: seq<World>, acts: seq<Action>, n: nat)
    requires IsRun(ws, acts) && OnlyLeadersWalk(ws, acts) && n < |ws|
    ensures KnowsAll(ws[n]) && ws[n].missed == {} && Runs.TornBy(ws, acts, n) == {}
  {
    hide Inv, CancelsOk, KnowsAll, OwnedBut, Apply, Enabled, LeaderWalks, StepsOwn.Tears;
    if n == 0 {
      EmptyKnowsAll();
    } else {
      NothingIsMissedOrTorn(ws, acts, n - 1);
      Runs.RunKeeps(ws, acts, n - 1);
      Runs.OwnedButTorn(ws, acts, n - 1);
      NothingTears(ws[n - 1], acts[n - 1]);
      KnowsAllStep(ws[n - 1], acts[n - 1]);
    }
    KnownIsUnmissed(ws[n]);
  }

  lemma EmptyKnowsAll()
    ensures KnowsAll(Empty)
  {}

  /** If zombies start no walks, no run ever puts two payloads of one owner on the chain. */
  lemma AtMostOnceIfZombiesDoNotWalk(ws: seq<World>, acts: seq<Action>, i: nat, t: Tx, u: Tx)
    requires IsRun(ws, acts) && OnlyLeadersWalk(ws, acts) && i < |ws|
    requires Safety.OnChain(ws[i], t) && Safety.OnChain(ws[i], u) && t.owner == u.owner && t.Payload() && u.Payload()
    ensures t == u
  {
    NothingIsMissedOrTorn(ws, acts, i);
    Safety.AtMostOnce(ws, acts, i, t, u);
  }

  /** If zombies start no walks, no job is ever lost. */
  lemma NoJobIsLostIfZombiesDoNotWalk(ws: seq<World>, acts: seq<Action>, i: nat, j: nat)
    requires IsRun(ws, acts) && OnlyLeadersWalk(ws, acts) && i < |ws| && j in ws[i].db.jobs && !ws[i].db.jobs[j].status.Terminal()
    ensures ws[i].db.jobs[j].status.Queued? || Safety.Recoverable(ws[i].db, j)
  {
    NothingIsMissedOrTorn(ws, acts, i);
    Safety.NoJobIsLost(ws, acts, i, j);
  }
}
