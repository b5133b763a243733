/** The lives of a job, a top-up and an attempt, one store call at a time: what happens to each, and what that makes of its row. */
module Lifecycle {
  import opened Domain
  import opened World
  import Store

  // ---- Jobs ----

  /** What a store call means to one job; `Passes` is everything that does not concern it. */
  datatype JobEvent =
    | Passes
    | Taken(tx: Tx)                             // bound to a nonce
    | Outbid(tx: Tx)                            // replaced at higher fees
    | Withdrawn                                 // a cancel was bound
    | Landed(tx: Tx, how: Outcome, final: bool) // its payload was recorded as mined
    | Final                                     // its payload was confirmed
    | CancelFinal                               // its cancel was confirmed
    | Undone                                    // its payload's inclusion was taken back
    | GivenUp                                   // its nonce was given back
    | SentBack                                  // its nonce went to somebody else
    | Rejected                                  // failed while queued
    | PutBack                                   // returned to the queue

  ghost predicate Landing(db: Db, tx: Tx, a: Action) { a.SettleInclusion? && a.tx == tx && Store.Settle(db, tx, a.inc, a.confirmNow, false).1.Applied? }

  ghost predicate Recorded(db: Db, tx: Tx) { tx in db.attempts && db.attempts[tx].status.Included? }

  ghost function BindEvent(tx: Tx, kind: Store.BindKind): JobEvent {
    match kind case First => Taken(tx) case Replacement => Outbid(tx) case Cancel => Withdrawn
  }

  ghost function EventFor(db: Db, a: Action, j: nat): JobEvent {
    match a
    case FailQueued(i) => if i == j then Rejected else Passes
    case RequeueFront(i) => if i == j then PutBack else Passes
    case BindFirst(e, tx, _) => if tx.owner == Job(j) && Store.Bind(db, e, tx, Store.First).1.Bound? then Taken(tx) else Passes
    case BindMore(e, tx, kind, _) => if tx.owner == Job(j) && Store.Bind(db, e, tx, kind).1.Bound? then BindEvent(tx, kind) else Passes
    case SettleInclusion(_, tx, inc, confirmNow) =>
      if tx.owner != Job(j) || !Landing(db, tx, a) then Passes
      else if tx.purpose.ForJob? then Landed(tx, inc.outcome, confirmNow)
      else if confirmNow then CancelFinal else Passes
    case SettleConfirmation(tx) => if tx.owner != Job(j) || !Recorded(db, tx) then Passes else if tx.purpose.ForJob? then Final else CancelFinal
    case Demote(tx) => if tx.owner == Job(j) && Recorded(db, tx) && tx.purpose.ForJob? then Undone else Passes
    case VoidUnused(e, _, tx, _) => if tx.owner == Job(j) && e == db.epoch then GivenUp else Passes
    case VoidForeign(e, _, tx, _) => if tx.owner == Job(j) && e == db.epoch then SentBack else Passes
    case _ => Passes
  }

  ghost predicate Fails(row: JobRow, row': JobRow) { row' == row.(status := JobStatus.Failed, webhookSeq := row.webhookSeq + 1) }

  /** The life of a job: each event has its effect in the states it applies to, and none elsewhere. */
  ghost predicate Lives(row: JobRow, ev: JobEvent, row': JobRow) {
    var st := row.status;
    match ev
    case Passes => row' == row
    case Taken(tx) => st.Queued? && row' == row.(status := JobStatus.Sent, binding := Some(tx.slot), txHash := Some(tx))
    case Outbid(tx) => (st.Sent? || st.Cancelling?) && row' == row.(txHash := Some(tx))
    case Withdrawn => (st.Sent? || st.Cancelling?) && row' == row.(status := JobStatus.Cancelling)
    case Landed(tx, how, final) =>
      && (st.Sent? || st.Cancelling?)
      && row' == row.(status := if final then JobStatus.Confirmed else JobStatus.Included, outcome := Some(how), txHash := Some(tx),
                      webhookSeq := row.webhookSeq + if final then 2 else 1)
    case Final => if st.Included? then row' == row.(status := JobStatus.Confirmed, webhookSeq := row.webhookSeq + 1) else row' == row
    case CancelFinal => if st.Cancelling? then Fails(row, row') else row' == row
    case Undone => if st.Included? then row' == row.(status := JobStatus.Sent, outcome := None) else row' == row
    case GivenUp => if st.Sent? || st.Cancelling? then Fails(row, row') else row' == row
    case SentBack =>
      if st.Sent? || st.Cancelling? then row' == row.(status := JobStatus.Queued, binding := None, txHash := None, requeues := row.requeues + 1)
      else row' == row
    case Rejected => if st.Queued? then Fails(row, row') else row' == row
    case PutBack => if st.Queued? then row' == row.(requeues := row.requeues + 1) else row' == row
  }

  ghost predicate JobLives(db: Db, db': Db, a: Action, j: nat)
    requires j in db.jobs
  {
    j in db'.jobs && Lives(db.jobs[j], EventFor(db, a, j), db'.jobs[j])
  }

  lemma BindLives(db: Db, a: Action, j: nat)
    requires j in db.jobs && (a.BindFirst? || a.BindMore?)
    ensures JobLives(db, DbAfter(db, a), a, j)
  {
    hide Store.SlotFits, Store.RaiseMark, Store.PutOwner;
  }

  lemma SettleLives(db: Db, a: Action, j: nat)
    requires j in db.jobs && a.SettleInclusion?
    ensures JobLives(db, DbAfter(db, a), a, j)
  {
    hide Store.PutOwner, Store.SlotMinedByOther, Store.ConfirmedAttempts, Store.AddGas;
  }

  lemma VerdictLives(db: Db, a: Action, j: nat)
    requires j in db.jobs && (a.SettleConfirmation? || a.Demote?)
    ensures JobLives(db, DbAfter(db, a), a, j)
  {
    hide Store.PutOwner, Store.ConfirmedAttempts, Store.AddGas;
  }

  lemma VoidLives(db: Db, a: Action, j: nat)
    requires j in db.jobs && (a.VoidUnused? || a.VoidForeign?)
    ensures JobLives(db, DbAfter(db, a), a, j)
  {
    hide Store.PutOwner, Store.DroppedAttempts, Store.LowerMark, Store.FreedSlots;
  }

  lemma IntakeLives(db: Db, a: Action, j: nat)
    requires j in db.jobs && (a.AddJob? || a.FailQueued? || a.RequeueFront?)
    ensures JobLives(db, DbAfter(db, a), a, j)
  {
    hide Store.PutJob;
  }

  lemma RestLives(db: Db, a: Action, j: nat)
    requires j in db.jobs && DbAfter(db, a).jobs == db.jobs && EventFor(db, a, j) == Passes
    ensures JobLives(db, DbAfter(db, a), a, j)
  {}

  /** Every store call, with any arguments, moves every job exactly as the event it means to the job says. */
  lemma JobStep(db: Db, a: Action, j: nat)
    requires j in db.jobs
    ensures JobLives(db, DbAfter(db, a), a, j)
  {
    hide JobLives, Store.AddJob, Store.FailQueued, Store.RequeueFront, Store.Bind, Store.Settle, Store.Confirm, Store.Demote, Store.Void;
    if a.BindFirst? || a.BindMore? { BindLives(db, a, j); }
    else if a.SettleInclusion? { SettleLives(db, a, j); }
    else if a.SettleConfirmation? || a.Demote? { VerdictLives(db, a, j); }
    else if a.VoidUnused? || a.VoidForeign? { VoidLives(db, a, j); }
    else if a.AddJob? || a.FailQueued? || a.RequeueFront? { IntakeLives(db, a, j); }
    else { RestLives(db, a, j); }
  }

  // ---- Top-ups ----

  /** What a store call makes of a top-up. An inclusion with immediate confirmation is two moves in one. */
  ghost function TopupAfter(db: Db, a: Action, t: nat): TopupStatus
    requires t in db.topups
  {
    var st := db.topups[t];
    match a
    case FailTopup(i) => if i == t && st.Requested? then TopupStatus.Failed else st
    case BindFirst(e, tx, _) => if tx.owner == Topup(t) && Store.Bind(db, e, tx, Store.First).1.Bound? then TopupStatus.Sent else st
    case BindMore(e, tx, kind, _) => if tx.owner == Topup(t) && Store.Bind(db, e, tx, kind).1.Bound? then TopupStatus.Sent else st
    case SettleInclusion(_, tx, _, confirmNow) =>
      if tx.owner != Topup(t) || !Landing(db, tx, a) then st
      else if confirmNow && (st.Sent? || st.Included?) then TopupStatus.Confirmed
      else if st.Sent? then TopupStatus.Included else st
    case SettleConfirmation(tx) => if tx.owner == Topup(t) && Recorded(db, tx) && st.Included? then TopupStatus.Confirmed else st
    case Demote(tx) => if tx.owner == Topup(t) && Recorded(db, tx) && st.Included? then TopupStatus.Sent else st
    case VoidUnused(e, _, tx, _) => if tx.owner == Topup(t) && e == db.epoch && st.Sent? then TopupStatus.Failed else st
    case VoidForeign(e, _, tx, _) => if tx.owner == Topup(t) && e == db.epoch && st.Sent? then TopupStatus.Failed else st
    case _ => st
  }

  ghost predicate TopupLives(db: Db, db': Db, a: Action, t: nat)
    requires t in db.topups
  {
    t in db'.topups && db'.topups[t] == TopupAfter(db, a, t)
  }

  lemma TopupSettles(db: Db, a: Action, t: nat)
    requires t in db.topups && a.SettleInclusion?
    ensures TopupLives(db, DbAfter(db, a), a, t)
  {
    hide Store.PutOwner, Store.SlotMinedByOther, Store.InclusionFits, Store.ConfirmedAttempts, Store.AddGas, Store.JobsAfter;
  }

  lemma TopupIsJudged(db: Db, a: Action, t: nat)
    requires t in db.topups && (a.SettleConfirmation? || a.Demote?)
    ensures TopupLives(db, DbAfter(db, a), a, t)
  {
    hide Store.PutOwner, Store.ConfirmedAttempts, Store.AddGas, Store.JobsAfter;
  }

  lemma TopupBinds(db: Db, a: Action, t: nat)
    requires t in db.topups && (a.BindFirst? || a.BindMore?)
    ensures TopupLives(db, DbAfter(db, a), a, t)
  {
    hide Store.PutOwner, Store.SlotFits, Store.RaiseMark;
  }

  lemma TopupIsVoided(db: Db, a: Action, t: nat)
    requires t in db.topups && (a.VoidUnused? || a.VoidForeign?)
    ensures TopupLives(db, DbAfter(db, a), a, t)
  {
    hide Store.PutOwner, Store.DroppedAttempts, Store.LowerMark, Store.FreedSlots;
  }

  lemma TopupRests(db: Db, a: Action, t: nat)
    requires t in db.topups && !a.BindFirst? && !a.BindMore? && !a.SettleInclusion? && !a.SettleConfirmation? && !a.Demote? && !a.VoidUnused? && !a.VoidForeign?
    ensures TopupLives(db, DbAfter(db, a), a, t)
  {
    hide Store.PutJob;
  }

  lemma TopupStep(db: Db, a: Action, t: nat)
    requires t in db.topups
    ensures TopupLives(db, DbAfter(db, a), a, t)
  {
    hide TopupLives, DbAfter;
    if a.BindFirst? || a.BindMore? { TopupBinds(db, a, t); }
    else if a.SettleInclusion? { TopupSettles(db, a, t); }
    else if a.SettleConfirmation? || a.Demote? { TopupIsJudged(db, a, t); }
    else if a.VoidUnused? || a.VoidForeign? { TopupIsVoided(db, a, t); }
    else { TopupRests(db, a, t); }
  }

  // ---- Attempts ----

  /** A sibling of the transaction that was mined, or given up, while nobody had a receipt for it. */
  ghost predicate Waiting(row: AttemptRow, t: Tx, s: Slot) { t.slot == s && row.status.Broadcast? }

  /** What a store call makes of a stored attempt; bytes are kept exactly as long as they may be sent again. */
  ghost function AttemptAfter(db: Db, a: Action, t: Tx): AttemptRow
    requires t in db.attempts
  {
    var row := db.attempts[t];
    match a
    case SettleInclusion(_, tx, inc, confirmNow) =>
      if !Landing(db, tx, a) then row
      else if t == tx then AttemptRow(if confirmNow then AttemptStatus.Confirmed else AttemptStatus.Included, row.raw && !confirmNow, inc.gasUsed, inc.feePaid)
      else if Waiting(row, t, tx.slot) then row.(status := AttemptStatus.Replaced, raw := row.raw && !confirmNow)
      else if t.slot == tx.slot && row.status.Replaced? && confirmNow then row.(raw := false)
      else row
    case SettleConfirmation(tx) =>
      if !Recorded(db, tx) || t.slot != tx.slot then row
      else if t == tx then row.(status := AttemptStatus.Confirmed, raw := false)
      else if row.status.Replaced? then row.(raw := false)
      else row
    case Demote(tx) => if t == tx && Recorded(db, tx) then row.(status := AttemptStatus.Broadcast) else row
    case VoidUnused(e, _, tx, _) => if e == db.epoch && Waiting(row, t, tx.slot) then row.(status := AttemptStatus.Dropped, raw := false) else row
    case VoidForeign(e, _, tx, _) => if e == db.epoch && Waiting(row, t, tx.slot) then row.(status := AttemptStatus.Dropped, raw := false) else row
    case _ => row
  }

  ghost predicate AttemptLives(db: Db, db': Db, a: Action, t: Tx)
    requires t in db.attempts
  {
    t in db'.attempts && db'.attempts[t] == AttemptAfter(db, a, t)
  }

  lemma AttemptSettles(db: Db, a: Action, t: Tx)
    requires t in db.attempts && a.SettleInclusion?
    ensures AttemptLives(db, DbAfter(db, a), a, t)
  {
    hide Store.PutOwner, Store.SlotMinedByOther, Store.InclusionFits, Store.AddGas;
  }

  lemma AttemptIsJudged(db: Db, a: Action, t: Tx)
    requires t in db.attempts && (a.SettleConfirmation? || a.Demote?)
    ensures AttemptLives(db, DbAfter(db, a), a, t)
  {
    hide Store.PutOwner, Store.AddGas;
  }

  lemma AttemptIsVoided(db: Db, a: Action, t: Tx)
    requires t in db.attempts && (a.VoidUnused? || a.VoidForeign?)
    ensures AttemptLives(db, DbAfter(db, a), a, t)
  {
    hide Store.PutOwner, Store.LowerMark, Store.FreedSlots;
  }

  lemma AttemptRests(db: Db, a: Action, t: Tx)
    requires t in db.attempts && !a.SettleInclusion? && !a.SettleConfirmation? && !a.Demote? && !a.VoidUnused? && !a.VoidForeign?
    ensures AttemptLives(db, DbAfter(db, a), a, t)
  {
    hide Store.PutOwner, Store.PutJob, Store.SlotFits, Store.OwnerMoves, Store.RaiseMark;
  }

  /** Every store call moves every stored attempt exactly as said; a new one starts without a receipt and with its bytes. */
  lemma AttemptStep(db: Db, a: Action, t: Tx)
    ensures t in db.attempts ==> AttemptLives(db, DbAfter(db, a), a, t)
    ensures t !in db.attempts && t in DbAfter(db, a).attempts ==> DbAfter(db, a).attempts[t] == AttemptRow(AttemptStatus.Broadcast, true, 0, 0)
  {
    hide AttemptLives, DbAfter;
    if t !in db.attempts { NewAttemptIsFresh(db, a, t); }
    else if a.SettleInclusion? { AttemptSettles(db, a, t); }
    else if a.SettleConfirmation? || a.Demote? { AttemptIsJudged(db, a, t); }
    else if a.VoidUnused? || a.VoidForeign? { AttemptIsVoided(db, a, t); }
    else { AttemptRests(db, a, t); }
  }

  lemma NewAttemptIsFresh(db: Db, a: Action, t: Tx)
    requires t !in db.attempts
    ensures t in DbAfter(db, a).attempts ==> DbAfter(db, a).attempts[t] == AttemptRow(AttemptStatus.Broadcast, true, 0, 0)
  {
    hide Store.PutOwner, Store.PutJob, Store.SlotFits, Store.OwnerMoves, Store.RaiseMark, Store.LowerMark, Store.FreedSlots, Store.AddGas,
         Store.SlotMinedByOther, Store.InclusionFits;
  }

  /** After any store calls at most one attempt at a nonce is recorded as mined. */
  lemma {:induction false} OneMinedPerNonce(dbs: seq<Db>, acts: seq<Action>, n: nat, t: Tx, u: Tx)
    requires IsTableRun(dbs, acts) && n < |dbs| && t in dbs[n].attempts && u in dbs[n].attempts && t.slot == u.slot
    requires dbs[n].attempts[t].status.Mined() && dbs[n].attempts[u].status.Mined()
    ensures t == u
  {
    hide DbAfter;
    var db, a := dbs[n - 1], acts[n - 1];
    AttemptStep(db, a, t);
    AttemptStep(db, a, u);
    var tWas, uWas := t in db.attempts && db.attempts[t].status.Mined(), u in db.attempts && db.attempts[u].status.Mined();
    if tWas && uWas { OneMinedPerNonce(dbs, acts, n - 1, t, u); }
    else if uWas { LandsAlone(db, a, t, u); }
    else if tWas { LandsAlone(db, a, u, t); }
  }

  lemma LandsAlone(db: Db, a: Action, t: Tx, u: Tx)
    requires Landing(db, t, a) && u in db.attempts && u.slot == t.slot && db.attempts[u].status.Mined()
    ensures t == u
  {
    hide Store.AfterInclusion, Store.InclusionFits;
  }
}
