/**
 Facts about single steps that need no invariant over rows: what is impossible stays impossible, whose hands
 the bytes of an attempt are in, and where the leader's flights come from.
 */
module Hands {
  import opened Domain
  import opened World
  import opened Invariant
  import Store

  ghost predicate IsIntake(a: Action) { a.AddJob? || a.AddTopup? || a.FailQueued? || a.RequeueFront? || a.FailTopup? }

  ghost predicate IsChain(a: Action) { a.Mine? || a.MineForeign? || a.Reorg? || a.Finalize? || a.Reject? }

  ghost predicate IsLocal(a: Action) {
    a.Crash? || a.Send? || a.Accepted? || a.EndFlight? || a.LoadLive? || a.Resume? || a.RecoverDone?
  }

  ghost predicate IsBind(a: Action) { a.BindFirst? || a.BindMore? }

  // ---- Impossible is forever ----

  /** Replaced and dropped attempts keep their status, whoever writes. */
  ghost predicate RetiredStay(before: Attempts, after: Attempts) {
    forall t :: t in before && before[t].status.Retired() ==> t in after && after[t].status == before[t].status
  }

  lemma SettleRetires(db: Db, tx: Tx, inc: Inclusion, confirmNow: bool)
    ensures RetiredStay(db.attempts, Store.Settle(db, tx, inc, confirmNow, false).0.attempts)
  {
    hide Store.PutOwner, Store.SlotMinedByOther, Store.InclusionFits;
    var included := Store.AfterInclusion(db, tx, inc, false);
    assert included.attempts == Store.IncludedAttempts(db.attempts, tx, inc);
    ConfirmRetires(included, tx);
  }

  lemma ConfirmRetires(db: Db, tx: Tx)
    ensures RetiredStay(db.attempts, Store.Confirm(db, tx).0.attempts) && RetiredStay(db.attempts, Store.Demote(db, tx).0.attempts)
  {
    hide Store.PutOwner;
  }

  lemma BindRetires(db: Db, e: nat, tx: Tx, kind: Store.BindKind, mode: Store.VoidMode, d: Store.Disposition)
    ensures RetiredStay(db.attempts, Store.Bind(db, e, tx, kind).0.attempts) && RetiredStay(db.attempts, Store.Void(db, e, tx, mode, d).0.attempts)
  {
    hide Store.PutOwner;
  }

  lemma SameRetires(db: Db)
    ensures RetiredStay(db.attempts, db.attempts)
  {}

  lemma StepRetires(db: Db, a: Action)
    ensures RetiredStay(db.attempts, DbAfter(db, a).attempts)
  {
    SameRetires(db);
    hide RetiredStay, Store.PutJob, Store.Bind, Store.Settle, Store.Confirm, Store.Demote, Store.Void;
    match a
    case SettleInclusion(_, tx, inc, confirmNow) => SettleRetires(db, tx, inc, confirmNow);
    case SettleConfirmation(tx) => ConfirmRetires(db, tx);
    case Demote(tx) => ConfirmRetires(db, tx);
    case BindFirst(e, tx, _) => BindRetires(db, e, tx, Store.First, Store.NonceUnused, Store.Fail);
    case BindMore(e, tx, kind, _) => BindRetires(db, e, tx, kind, Store.NonceUnused, Store.Fail);
    case VoidUnused(e, _, tx, _) => BindRetires(db, e, tx, Store.First, Store.NonceUnused, Store.Fail);
    case VoidForeign(e, _, tx, _) => BindRetires(db, e, tx, Store.First, Store.NonceTakenByForeignTx, Store.Requeue);
    case _ =>
  }

  /** Bytes nobody holds stay that way until somebody loads them. */
  lemma UnheldStays(w: World, a: Action, t: Tx)
    requires ProcsOk(w.procs, w.db.epoch, w.db.attempts.Keys) && Enabled(w, a) && t in w.db.attempts && Unheld(w, t)
    requires a.LoadLive? ==> t !in LiveOf(w.db, a.k)
    ensures Unheld(Apply(w, a), t)
  {
    if IsBind(a) {
      hide ProcsOk, Unheld, Store.Bind, AfterBindFirst, AfterBindMore;
      BindLeavesUnheld(w, a, t);
    } else {
      if a.Send? { assert FlightOk(w.procs[a.e], a.k); }
      hide ProcsOk, Store.PutJob, Store.Bind, Store.Settle, Store.Confirm, Store.Demote, Store.Void;
    }
  }

  lemma BindLeavesUnheld(w: World, a: Action, t: Tx)
    requires Enabled(w, a) && IsBind(a) && t in w.db.attempts && Unheld(w, t)
    ensures Unheld(Apply(w, a), t)
  {
    hide Store.AfterBind, Store.SlotFits, Store.OwnerMoves;
  }

  lemma ChainRemembers(w: World, a: Action)
    requires Enabled(w, a)
    ensures var w' := Apply(w, a);
            && w.dead <= w'.dead && w.final <= w'.final
            && forall s :: s in w.final && s in w.chain ==> s in w'.chain && w'.chain[s] == w.chain[s]
  {
    hide Store.PutJob, Store.Bind, Store.Settle, Store.Confirm, Store.Demote, Store.Void;
  }

  /** What can no longer be mined can never be mined again. */
  lemma ImpossibleForever(w: World, a: Action, t: Tx)
    requires ProcsOk(w.procs, w.db.epoch, w.db.attempts.Keys) && Enabled(w, a) && Impossible(w, t)
    ensures Impossible(Apply(w, a), t)
  {
    hide Apply, Enabled, ProcsOk;
    ChainRemembers(w, a);
    if t in w.db.attempts && w.db.attempts[t].status.Retired() && Unheld(w, t) {
      TablesFollow(w, a);
      StepRetires(w.db, a);
      UnheldStays(w, a, t);
    }
  }

  /** The flight is not a new one, and still tracks what it tracked. */
  ghost predicate Continues(w: World, w': World, k: Pair) {
    && w'.db.epoch == w.db.epoch && HasFlight(w, w.db.epoch, k) && HasFlight(w', w.db.epoch, k)
    && var f, f' := w.procs[w.db.epoch].flights[k], w'.procs[w.db.epoch].flights[k];
       f.unaccepted && f.nonce == f'.nonce && f.owner == f'.owner && f.attempts <= f'.attempts && (f.cancelLost ==> f'.cancelLost)
  }

  /** Steps that never touch a process. */
  lemma ProcsUntouched(w: World, a: Action)
    requires Enabled(w, a) && (IsIntake(a) || IsChain(a) || a.SettleInclusion? || a.SettleConfirmation? || a.Demote?)
    ensures Apply(w, a).procs == w.procs
  {
    hide Store.PutJob, Store.Settle, Store.Confirm, Store.Demote;
  }

  /** A first bind that committed and was reported starts a flight with the one attempt. */
  ghost predicate TakesOff(w: World, a: Action, k: Pair) {
    && a.BindFirst? && a.e == w.db.epoch && a.tx.slot.pair == k && Store.Bind(w.db, a.e, a.tx, Store.First).1.Bound?
    && CanBindFirst(w, a.e, a.tx) && a.reported
  }

  lemma LocalContinues(w: World, a: Action, k: Pair)
    requires Enabled(w, a) && (IsLocal(a) || a.VoidUnused? || a.VoidForeign?) && HasFlight(Apply(w, a), w.db.epoch, k)
    requires Apply(w, a).procs[w.db.epoch].flights[k].unaccepted && Apply(w, a).db.epoch == w.db.epoch
    ensures Continues(w, Apply(w, a), k)
  {
    hide Store.Void;
  }

  lemma BindContinues(w: World, a: Action, k: Pair)
    requires Enabled(w, a) && IsBind(a) && HasFlight(Apply(w, a), w.db.epoch, k)
    requires Apply(w, a).procs[w.db.epoch].flights[k].unaccepted && Apply(w, a).db.epoch == w.db.epoch
    ensures Continues(w, Apply(w, a), k)
            || (TakesOff(w, a, k) && Apply(w, a).procs[w.db.epoch].flights[k] == Flight(a.tx.owner, a.tx.slot.nonce, {a.tx}, true, false))
  {
    hide Store.AfterBind, Store.SlotFits, Store.OwnerMoves;
  }

  /** After any step an undecided flight of the leader is an old one, or was just started by a first bind. */
  lemma FlightsContinue(w: World, a: Action, k: Pair)
    requires Enabled(w, a) && HasFlight(Apply(w, a), Apply(w, a).db.epoch, k)
    requires Apply(w, a).procs[Apply(w, a).db.epoch].flights[k].unaccepted
    ensures Apply(w, a).db.epoch == w.db.epoch
    ensures Continues(w, Apply(w, a), k)
            || (TakesOff(w, a, k) && Apply(w, a).procs[w.db.epoch].flights[k] == Flight(a.tx.owner, a.tx.slot.nonce, {a.tx}, true, false))
  {
    hide Apply, Enabled, TakesOff;
    EpochMoves(w, a);
    if a.Acquire? {
      AcquireIsBare(w, a);
    } else if IsBind(a) {
      BindContinues(w, a, k);
    } else if IsLocal(a) || a.VoidUnused? || a.VoidForeign? {
      LocalContinues(w, a, k);
    } else {
      ProcsUntouched(w, a);
    }
  }

  lemma AcquireIsBare(w: World, a: Action)
    requires Enabled(w, a) && a.Acquire?
    ensures Apply(w, a).db.epoch in Apply(w, a).procs && Apply(w, a).procs[Apply(w, a).db.epoch].flights == map[]
  {}

  lemma EpochMoves(w: World, a: Action)
    requires Enabled(w, a)
    ensures Apply(w, a).db.epoch == if a.Acquire? then w.db.epoch + 1 else w.db.epoch
  {
    hide Store.PutOwner, Store.PutJob;
  }

  /** Only a bind stores a new attempt. */
  lemma OnlyBindsStore(db: Db, a: Action)
    requires !a.BindFirst? && !a.BindMore?
    ensures DbAfter(db, a).attempts.Keys == db.attempts.Keys
  {
    hide Store.PutJob, Store.Settle, Store.Confirm, Store.Demote, Store.Void;
    match a
    case SettleInclusion(_, tx, inc, confirmNow) => SettleStoresNothing(db, tx, inc, confirmNow);
    case SettleConfirmation(tx) => ConfirmStoresNothing(db, tx);
    case Demote(tx) => ConfirmStoresNothing(db, tx);
    case VoidUnused(e, _, tx, _) => VoidStoresNothing(db, e, tx, Store.NonceUnused, Store.Fail);
    case VoidForeign(e, _, tx, _) => VoidStoresNothing(db, e, tx, Store.NonceTakenByForeignTx, Store.Requeue);
    case _ =>
  }

  lemma SettleStoresNothing(db: Db, tx: Tx, inc: Inclusion, confirmNow: bool)
    ensures Store.Settle(db, tx, inc, confirmNow, false).0.attempts.Keys == db.attempts.Keys
  {
    hide Store.PutOwner, Store.SlotMinedByOther;
    var included := Store.AfterInclusion(db, tx, inc, false);
    assert included.attempts == Store.IncludedAttempts(db.attempts, tx, inc);
    ConfirmStoresNothing(included, tx);
  }

  lemma ConfirmStoresNothing(db: Db, tx: Tx)
    ensures Store.Confirm(db, tx).0.attempts.Keys == db.attempts.Keys && Store.Demote(db, tx).0.attempts.Keys == db.attempts.Keys
  {
    hide Store.PutOwner;
  }

  lemma VoidStoresNothing(db: Db, e: nat, tx: Tx, mode: Store.VoidMode, d: Store.Disposition)
    ensures Store.Void(db, e, tx, mode, d).0.attempts.Keys == db.attempts.Keys
  {
    hide Store.PutOwner;
  }

  /** A new attempt is in a flight of the process that bound it, or in nobody's hands. */
  lemma NewAttempts(w: World, a: Action, t: Tx)
    requires ProcsOk(w.procs, w.db.epoch, w.db.attempts.Keys) && ChainOk(w) && Enabled(w, a)
    requires t in Apply(w, a).db.attempts && t !in w.db.attempts
    ensures (a.BindFirst? || a.BindMore?) && a.tx == t && Store.Bind(w.db, a.e, t, if a.BindFirst? then Store.First else a.kind).1.Bound?
    ensures Tracked(Apply(w, a), a.e, t)
  {
    hide Apply, Enabled, ProcsOk, ChainOk, Unheld, Store.Bind;
    TablesFollow(w, a);
    if !a.BindFirst? && !a.BindMore? { OnlyBindsStore(w.db, a); } else { BoundIsTracked(w, a, t); }
  }

  /** The bytes of a fresh bind are in its flight, or in nobody's hands; a cancel's driver then knows that it may exist. */
  ghost predicate Tracked(w: World, e: nat, t: Tx) {
    || (HasFlight(w, e, t.slot.pair) && t in w.procs[e].flights[t.slot.pair].attempts)
    || (Unheld(w, t) && (!t.Payload() ==> HasFlight(w, e, t.slot.pair) && w.procs[e].flights[t.slot.pair].cancelLost))
  }

  lemma FirstIsTracked(w: World, e: nat, tx: Tx, reported: bool, t: Tx)
    requires Unheld(w, t) && CanBindFirst(w, e, tx) && t in AfterBindFirst(w, e, tx, reported).db.attempts && t !in w.db.attempts
    ensures tx == t && Store.Bind(w.db, e, t, Store.First).1.Bound? && Tracked(AfterBindFirst(w, e, tx, reported), e, t)
  {
    hide Store.PutOwner, Store.SlotFits, Store.OwnerMoves;
  }

  lemma MoreIsTracked(w: World, e: nat, tx: Tx, kind: Store.BindKind, reported: bool, t: Tx)
    requires Unheld(w, t) && CanBindMore(w, e, tx, kind) && t in AfterBindMore(w, e, tx, kind, reported).db.attempts && t !in w.db.attempts
    ensures tx == t && Store.Bind(w.db, e, t, kind).1.Bound? && Tracked(AfterBindMore(w, e, tx, kind, reported), e, t)
  {
    hide Store.PutOwner, Store.SlotFits, Store.OwnerMoves;
  }

  lemma BoundIsTracked(w: World, a: Action, t: Tx)
    requires ProcsOk(w.procs, w.db.epoch, w.db.attempts.Keys) && ChainOk(w) && Enabled(w, a) && IsBind(a)
    requires t in Apply(w, a).db.attempts && t !in w.db.attempts
    ensures a.tx == t && Store.Bind(w.db, a.e, t, if a.BindFirst? then Store.First else a.kind).1.Bound? && Tracked(Apply(w, a), a.e, t)
  {
    assert Unheld(w, t);
    hide ProcsOk, ChainOk, Unheld, Tracked, Store.Bind, AfterBindFirst, AfterBindMore;
    if a.BindFirst? { FirstIsTracked(w, a.e, a.tx, a.reported, t); } else { MoreIsTracked(w, a.e, a.tx, a.kind, a.reported, t); }
  }
}
