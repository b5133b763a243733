/** Handing the outbox to receivers: leases, retries, giving up, and operator redelivery. */
module Delivery {
  import opened Domain
  import opened World
  import opened Trace
  import Store

  type Deliveries = seq<Domain.Delivery>

  /** Due, pending, and no earlier event of the same job is still pending. */
  predicate Claimable(ds: Deliveries, now: int, i: nat)
    requires i < |ds|
  {
    && ds[i].status.Pending? && ds[i].dueAt <= now
    && forall e :: 0 <= e < |ds| && ds[e].job == ds[i].job && ds[e].sequence < ds[i].sequence ==> !ds[e].status.Pending?
  }

  /**
   What one claim may take: claimable rows that no concurrent dispatcher holds locked, the longest due
   first, up to the limit.
   */
  ghost predicate ClaimedRows(ds: Deliveries, now: int, limit: nat, locked: set<nat>, batch: set<nat>) {
    && |batch| <= limit
    && (forall i :: i in batch ==> i < |ds| && i !in locked && Claimable(ds, now, i))
    && (forall i :: 0 <= i < |ds| && i !in locked && i !in batch && Claimable(ds, now, i) ==>
          |batch| == limit && forall b :: b in batch ==> ds[b].dueAt <= ds[i].dueAt)
  }

  /** Index of the longest-due claimable row outside `skip`; |ds| when there is none. */
  method NextDue(ds: Deliveries, now: int, skip: set<nat>) returns (best: nat)
    ensures best <= |ds|
    ensures best < |ds| ==> best !in skip && Claimable(ds, now, best)
    ensures forall i :: 0 <= i < |ds| && i !in skip && Claimable(ds, now, i) ==> best < |ds| && ds[best].dueAt <= ds[i].dueAt
  {
    best := |ds|;
    for i := 0 to |ds|
      invariant best < i || best == |ds|
      invariant best < |ds| ==> best !in skip && Claimable(ds, now, best)
      invariant forall k :: 0 <= k < i && k !in skip && Claimable(ds, now, k) ==> best < |ds| && ds[best].dueAt <= ds[k].dueAt
    {
      if i !in skip && Claimable(ds, now, i) && (best == |ds| || ds[i].dueAt < ds[best].dueAt) { best := i; }
    }
  }

  method ClaimDue(ds: Deliveries, now: int, limit: nat, locked: set<nat>) returns (batch: set<nat>)
    ensures ClaimedRows(ds, now, limit, locked, batch)
  {
    batch := {};
    while |batch| < limit
      invariant |batch| <= limit
      invariant forall i :: i in batch ==> i < |ds| && i !in locked && Claimable(ds, now, i)
      invariant forall i, b :: 0 <= i < |ds| && i !in locked && i !in batch && b in batch && Claimable(ds, now, i) ==> ds[b].dueAt <= ds[i].dueAt
      decreases limit - |batch|
    {
      var next := NextDue(ds, now, locked + batch);
      if next == |ds| { return; }
      batch := batch + {next};
    }
  }

  datatype Step =
    | Tables(a: Action)
    | Claim(batch: set<nat>, lease: nat)
    | Answered(i: nat)
    | Retry(i: nat, secs: nat)
    | GiveUp(i: nat)
    | Defer(i: nat, secs: nat)
    | Redeliver(i: nat)
    | Tick(dt: nat)

  ghost predicate CanStep(db: Db, s: Step) {
    match s
    case Claim(batch, _) => forall i :: i in batch ==> i < |db.deliveries| && Claimable(db.deliveries, db.clock, i)
    case Answered(i) => i < |db.deliveries|
    case Retry(i, _) => i < |db.deliveries|
    case GiveUp(i) => i < |db.deliveries|
    case Defer(i, _) => i < |db.deliveries|
    case Redeliver(i) => i < |db.deliveries|
    case _ => true
  }

  function Leased(ds: Deliveries, batch: set<nat>, until: int): Deliveries {
    seq(|ds|, i requires 0 <= i < |ds| => if i in batch then ds[i].(dueAt := until) else ds[i])
  }

  ghost function After(db: Db, s: Step): Db
    requires CanStep(db, s)
  {
    var ds := db.deliveries;
    match s
    case Tables(a) => DbAfter(db, a)
    case Claim(batch, lease) => db.(deliveries := Leased(ds, batch, db.clock + lease))
    case Answered(i) => db.(deliveries := ds[i := ds[i].(status := Delivered, tries := ds[i].tries + 1)])
    case Retry(i, secs) => db.(deliveries := ds[i := ds[i].(tries := ds[i].tries + 1, dueAt := db.clock + secs)])
    case GiveUp(i) => db.(deliveries := ds[i := ds[i].(status := Dead, tries := ds[i].tries + 1)])
    case Defer(i, secs) => if ds[i].status.Pending? then db.(deliveries := ds[i := ds[i].(dueAt := db.clock + secs)]) else db
    case Redeliver(i) => db.(deliveries := ds[i := ds[i].(status := Pending, dueAt := db.clock)])
    case Tick(dt) => db.(clock := db.clock + dt)
  }

  ghost predicate IsOutboxRun(dbs: seq<Db>, steps: seq<Step>) {
    && |dbs| == |steps| + 1 && dbs[0] == Empty.db
    && forall i {:trigger steps[i]} :: 0 <= i < |steps| ==> CanStep(dbs[i], steps[i]) && dbs[i + 1] == After(dbs[i], steps[i])
  }

  // ---- Delivery never touches what an event says ----

  ghost predicate SameNotices(ds: Deliveries, ds': Deliveries) {
    |ds'| == |ds| && forall i :: 0 <= i < |ds| ==> ds'[i] == ds[i].(status := ds'[i].status, dueAt := ds'[i].dueAt, tries := ds'[i].tries)
  }

  lemma {:induction false} NoticesDecideEvents(ds: Deliveries, ds': Deliveries, j: nat)
    requires SameNotices(ds, ds')
    ensures Events(ds', j) == Events(ds, j) && forall e :: Store.MaxVersion(ds', j, e) == Store.MaxVersion(ds, j, e)
  {
    if ds != [] { NoticesDecideEvents(ds[..|ds| - 1], ds'[..|ds| - 1], j); }
  }

  lemma DeliveryKeepsBooks(db: Db, ds: Deliveries, clock: int)
    requires BooksOk(db) && SameNotices(db.deliveries, ds)
    ensures BooksOk(db.(deliveries := ds, clock := clock))
  {
    forall j | j in db.jobs ensures JobTraceOk(db.jobs, ds, j) {
      assert JobTraceOk(db.jobs, db.deliveries, j);
      NoticesDecideEvents(db.deliveries, ds, j);
    }
  }

  lemma OutboxStepKeepsBooks(db: Db, s: Step)
    requires BooksOk(db) && CanStep(db, s)
    ensures BooksOk(After(db, s))
  {
    hide BooksOk, DbAfter;
    if s.Tables? {
      StepKeepsBooks(db, s.a);
    } else {
      var db' := After(db, s);
      assert db' == db.(deliveries := db'.deliveries, clock := db'.clock);
      DeliveryKeepsBooks(db, db'.deliveries, db'.clock);
    }
  }

  lemma {:induction false} BooksAlwaysInOrder(dbs: seq<Db>, steps: seq<Step>, n: nat)
    requires IsOutboxRun(dbs, steps) && n < |dbs|
    ensures BooksOk(dbs[n])
  {
    if n > 0 {
      BooksAlwaysInOrder(dbs, steps, n - 1);
      OutboxStepKeepsBooks(dbs[n - 1], steps[n - 1]);
    }
  }

  // ---- Order ----

  /** Some step before the n-th took row i out of `pending`. */
  ghost predicate LeftPending(steps: seq<Step>, n: nat, i: nat) {
    exists m :: 0 <= m < n && m < |steps| && (steps[m] == Answered(i) || steps[m] == GiveUp(i))
  }

  /** New rows are pending and due at once. */
  ghost predicate AppendsPending(ds: Deliveries, now: int, ds': Deliveries) {
    |ds| <= |ds'| && ds'[..|ds|] == ds && forall i :: |ds| <= i < |ds'| ==> ds'[i].status.Pending? && ds'[i].dueAt == now && ds'[i].tries == 0
  }

  lemma JobAppends(db: Db, j: nat, row: JobRow)
    requires j in db.jobs
    ensures AppendsPending(db.deliveries, db.clock, Store.PutJob(db, j, row, false).deliveries)
  {}

  lemma OwnerAppends(db: Db, tx: Tx, c: Store.Change, reincluded: bool)
    ensures AppendsPending(db.deliveries, db.clock, Store.PutOwner(db, tx, c, reincluded).deliveries)
  {}

  lemma SettleAppends(db: Db, tx: Tx, inc: Inclusion, confirmNow: bool)
    ensures AppendsPending(db.deliveries, db.clock, Store.Settle(db, tx, inc, confirmNow, false).0.deliveries) && Store.Settle(db, tx, inc, confirmNow, false).0.clock == db.clock
  {
    hide Store.PutOwner;
    var including := db.(attempts := Store.IncludedAttempts(db.attempts, tx, inc),
                         gas := Store.AddGas(db.gas, GasKey(tx.slot.pair, tx.purpose), 1, inc.gasUsed, inc.feePaid));
    OwnerAppends(including, tx, Store.ToIncluded(inc), false);
    ConfirmAppends(Store.AfterInclusion(db, tx, inc, false), tx);
  }

  lemma ConfirmAppends(db: Db, tx: Tx)
    ensures AppendsPending(db.deliveries, db.clock, Store.Confirm(db, tx).0.deliveries) && Store.Confirm(db, tx).0.clock == db.clock
  {}

  lemma DemoteAppends(db: Db, tx: Tx)
    ensures AppendsPending(db.deliveries, db.clock, Store.Demote(db, tx).0.deliveries) && Store.Demote(db, tx).0.clock == db.clock
  {}

  lemma BindAppends(db: Db, epoch: nat, tx: Tx, kind: Store.BindKind)
    ensures AppendsPending(db.deliveries, db.clock, Store.Bind(db, epoch, tx, kind).0.deliveries) && Store.Bind(db, epoch, tx, kind).0.clock == db.clock
  {
    hide Store.PutOwner;
    OwnerAppends(db.(slots := if kind.First? then db.slots[tx.slot := tx.owner] else db.slots,
                     attempts := db.attempts[tx := AttemptRow(AttemptStatus.Broadcast, true, 0, 0)],
                     pairs := Store.RaiseMark(db.pairs, tx.slot)), tx, Store.ToBound(kind), false);
  }

  lemma VoidAppends(db: Db, epoch: nat, tx: Tx, mode: Store.VoidMode, d: Store.Disposition)
    ensures AppendsPending(db.deliveries, db.clock, Store.Void(db, epoch, tx, mode, d).0.deliveries) && Store.Void(db, epoch, tx, mode, d).0.clock == db.clock
  {
    hide Store.PutOwner;
    OwnerAppends(db.(attempts := Store.DroppedAttempts(db.attempts, tx.slot),
                     slots := if mode.NonceUnused? then Store.FreedSlots(db.slots, tx) else db.slots,
                     pairs := if mode.NonceUnused? then Store.LowerMark(db.pairs, tx.slot) else db.pairs),
                 tx, Store.ToVoided(d), false);
  }

  /** Store calls only ever append rows, and append them pending. */
  lemma TablesAppend(db: Db, a: Action)
    ensures AppendsPending(db.deliveries, db.clock, DbAfter(db, a).deliveries) && DbAfter(db, a).clock == db.clock
  {
    hide Store.PutJob, Store.Settle, Store.Confirm, Store.Demote, Store.Bind, Store.Void;
    match a
    case FailQueued(j) => if j in db.jobs { JobAppends(db, j, Store.FailedRow(db.jobs[j])); }
    case RequeueFront(j) => if j in db.jobs { JobAppends(db, j, db.jobs[j].(requeues := db.jobs[j].requeues + 1)); }
    case SettleInclusion(_, tx, inc, confirmNow) => SettleAppends(db, tx, inc, confirmNow);
    case SettleConfirmation(tx) => ConfirmAppends(db, tx);
    case Demote(tx) => DemoteAppends(db, tx);
    case BindFirst(e, tx, _) => BindAppends(db, e, tx, Store.First);
    case BindMore(e, tx, kind, _) => BindAppends(db, e, tx, kind);
    case VoidUnused(e, _, tx, _) => VoidAppends(db, e, tx, Store.NonceUnused, Store.Fail);
    case VoidForeign(e, _, tx, _) => VoidAppends(db, e, tx, Store.NonceTakenByForeignTx, Store.Requeue);
    case _ =>
  }

  /** Only an answer or giving up takes a row out of `pending`. */
  lemma LeavesPendingOnlyByAnswer(db: Db, s: Step, i: nat)
    requires CanStep(db, s) && i < |After(db, s).deliveries| && !After(db, s).deliveries[i].status.Pending?
    ensures s == Answered(i) || s == GiveUp(i) || (i < |db.deliveries| && !db.deliveries[i].status.Pending?)
  {
    hide DbAfter;
    if s.Tables? { TablesAppend(db, s.a); }
  }

  lemma {:induction false} NonPendingHasLeft(dbs: seq<Db>, steps: seq<Step>, n: nat, i: nat)
    requires IsOutboxRun(dbs, steps) && n < |dbs| && i < |dbs[n].deliveries| && !dbs[n].deliveries[i].status.Pending?
    ensures LeftPending(steps, n, i)
  {
    hide After, CanStep;
    if n > 0 {
      var s, db := steps[n - 1], dbs[n - 1];
      LeavesPendingOnlyByAnswer(db, s, i);
      if s == Answered(i) || s == GiveUp(i) {
        assert LeftPending(steps, n, i);
      } else {
        NonPendingHasLeft(dbs, steps, n - 1, i);
      }
    }
  }

  /** Every earlier event of the job is in the table. */
  lemma {:induction false} EarlierEventExists(ds: Deliveries, j: nat, n: nat) returns (e: nat)
    requires n < |Events(ds, j)|
    ensures e < |ds| && ds[e].job == j && ds[e].sequence == Events(ds, j)[n].sequence
  {
    var last := |ds| - 1;
    if ds[last].job == j && n == |Events(ds, j)| - 1 {
      e := last;
    } else {
      e := EarlierEventExists(ds[..last], j, n);
    }
  }

  lemma {:induction false} SequenceIsInTrace(ds: Deliveries, i: nat) returns (n: nat)
    requires i < |ds|
    ensures n < |Events(ds, ds[i].job)| && Events(ds, ds[i].job)[n].sequence == ds[i].sequence
  {
    var last := |ds| - 1;
    if i == last { n := |Events(ds, ds[i].job)| - 1; } else { n := SequenceIsInTrace(ds[..last], i); }
  }

  /**
   With any number of dispatchers, crashes, expiring leases, retries and redeliveries: when an event is
   claimed, each of its job's earlier sequence numbers belongs to an event that has left `pending` before.
   */
  lemma DeliveredInOrder(dbs: seq<Db>, steps: seq<Step>, n: nat, i: nat, q: nat) returns (e: nat)
    requires IsOutboxRun(dbs, steps) && n < |steps| && steps[n].Claim? && i in steps[n].batch
    requires i < |dbs[n].deliveries| && 1 <= q < dbs[n].deliveries[i].sequence
    ensures var ds := dbs[n].deliveries; e < |ds| && ds[e].job == ds[i].job && ds[e].sequence == q && !ds[e].status.Pending?
    ensures LeftPending(steps, n, e)
  {
    var ds := dbs[n].deliveries;
    BooksAlwaysInOrder(dbs, steps, n);
    assert JobTraceOk(dbs[n].jobs, ds, ds[i].job);
    var at := SequenceIsInTrace(ds, i);
    e := EarlierEventExists(ds, ds[i].job, q - 1);
    NonPendingHasLeft(dbs, steps, n, e);
  }

  /** Whether a row is claimable is decided by the rows of its own job. */
  lemma JobsDoNotBlockEachOther(ds: Deliveries, ds': Deliveries, now: int, i: nat)
    requires |ds'| == |ds| && i < |ds| && forall k :: 0 <= k < |ds| && (ds[k].job == ds[i].job || ds'[k].job == ds[i].job) ==> ds'[k] == ds[k]
    ensures Claimable(ds, now, i) <==> Claimable(ds', now, i)
  {}

  /** A job with anything pending always has a next event, which needs only to fall due. */
  lemma {:induction false} NextEventExists(ds: Deliveries, i: nat) returns (k: nat)
    requires i < |ds| && ds[i].status.Pending?
    ensures k < |ds| && ds[k].job == ds[i].job && ds[k].status.Pending?
    ensures forall now :: ds[k].dueAt <= now ==> Claimable(ds, now, k)
    decreases ds[i].sequence
  {
    if e :| 0 <= e < |ds| && ds[e].job == ds[i].job && ds[e].sequence < ds[i].sequence && ds[e].status.Pending? {
      k := NextEventExists(ds, e);
    } else {
      k := i;
    }
  }

  // ---- Leases ----

  /** The step puts row i off for so many seconds. */
  ghost predicate PutsOff(db: Db, s: Step, i: nat, secs: nat) {
    && i < |db.deliveries|
    && match s
       case Claim(batch, lease) => i in batch && secs == lease
       case Retry(k, delay) => k == i && secs == delay
       case Defer(k, delay) => k == i && secs == delay && db.deliveries[i].status.Pending?
       case _ => false
  }

  /** The step sets a new time for row i, whatever was agreed before. */
  ghost predicate Reschedules(s: Step, i: nat) {
    match s
    case Retry(k, _) => k == i
    case Defer(k, _) => k == i
    case Redeliver(k) => k == i
    case _ => false
  }

  /** A step that does not reschedule a row never makes it due earlier, and turns no clock back. */
  lemma NotDueEarlier(db: Db, s: Step, i: nat, from: int)
    requires CanStep(db, s) && i < |db.deliveries| && db.deliveries[i].dueAt >= from && !Reschedules(s, i)
    ensures var db' := After(db, s); i < |db'.deliveries| && db'.deliveries[i].dueAt >= from && db'.clock >= db.clock
  {
    hide DbAfter;
    if s.Tables? { TablesAppend(db, s.a); }
  }

  lemma PutOffUntil(db: Db, s: Step, i: nat, secs: nat)
    requires CanStep(db, s) && PutsOff(db, s, i, secs)
    ensures i < |After(db, s).deliveries| && After(db, s).deliveries[i].dueAt == db.clock + secs
  {
    hide DbAfter;
  }

  lemma {:induction false} StaysPutOff(dbs: seq<Db>, steps: seq<Step>, n: nat, m: nat, i: nat, secs: nat)
    requires IsOutboxRun(dbs, steps) && n < m < |dbs| && PutsOff(dbs[n], steps[n], i, secs)
    requires forall k :: n < k < m ==> !Reschedules(steps[k], i)
    ensures i < |dbs[m].deliveries| && dbs[m].deliveries[i].dueAt >= dbs[n].clock + secs
    decreases m
  {
    hide Reschedules, PutsOff, After, CanStep;
    if m == n + 1 {
      PutOffUntil(dbs[n], steps[n], i, secs);
    } else {
      StaysPutOff(dbs, steps, n, m - 1, i, secs);
      NotDueEarlier(dbs[m - 1], steps[m - 1], i, dbs[n].clock + secs);
    }
  }

  /**
   A lease holds: a row claimed, to be retried or deferred for some time is claimed again only when that time
   is over, unless it was rescheduled in between. So no two dispatchers send it at once.
   */
  lemma NotClaimedBefore(dbs: seq<Db>, steps: seq<Step>, n: nat, m: nat, i: nat, secs: nat)
    requires IsOutboxRun(dbs, steps) && n < m < |steps| && PutsOff(dbs[n], steps[n], i, secs) && steps[m].Claim? && i in steps[m].batch
    ensures dbs[m].clock >= dbs[n].clock + secs || exists k :: n < k < m && Reschedules(steps[k], i)
  {
    if forall k :: n < k < m ==> !Reschedules(steps[k], i) { StaysPutOff(dbs, steps, n, m, i, secs); }
  }

  /** An operator's redelivery makes any row pending and due, so it is claimable unless an earlier event of its job is pending. */
  lemma RedeliveredIsDue(db: Db, i: nat)
    requires CanStep(db, Redeliver(i))
    ensures var ds, ds' := db.deliveries, After(db, Redeliver(i)).deliveries;
            && i < |ds'| && ds'[i].status.Pending? && ds'[i].dueAt == db.clock
            && (Claimable(ds', db.clock, i) <==> forall e :: 0 <= e < |ds| && ds[e].job == ds[i].job && ds[e].sequence < ds[i].sequence ==> !ds[e].status.Pending?)
  {
    var ds, ds' := db.deliveries, After(db, Redeliver(i)).deliveries;
    assert forall e :: 0 <= e < |ds| && e != i ==> ds'[e] == ds[e];
  }

  /** An event that was answered or given up is claimed again only after a redelivery. */
  lemma {:induction false} SettledIsNotClaimed(dbs: seq<Db>, steps: seq<Step>, n: nat, m: nat, i: nat)
    requires IsOutboxRun(dbs, steps) && n < m < |dbs| && (steps[n] == Answered(i) || steps[n] == GiveUp(i))
    requires forall k :: n < k < m ==> steps[k] != Redeliver(i)
    ensures i < |dbs[m].deliveries| && !dbs[m].deliveries[i].status.Pending?
    ensures m < |steps| && steps[m].Claim? ==> i !in steps[m].batch
    decreases m
  {
    hide DbAfter;
    if m > n + 1 {
      SettledIsNotClaimed(dbs, steps, n, m - 1, i);
      StaysSettled(dbs[m - 1], steps[m - 1], i);
    }
  }

  lemma StaysSettled(db: Db, s: Step, i: nat)
    requires CanStep(db, s) && i < |db.deliveries| && !db.deliveries[i].status.Pending? && s != Redeliver(i)
    ensures i < |After(db, s).deliveries| && !After(db, s).deliveries[i].status.Pending?
  {
    hide DbAfter;
    if s.Tables? { TablesAppend(db, s.a); }
  }

  ghost function Ticked(steps: seq<Step>, n: nat): nat
    requires n <= |steps|
  {
    if n == 0 then 0 else Ticked(steps, n - 1) + if steps[n - 1].Tick? then steps[n - 1].dt else 0
  }

  /** The clock shows the time that has passed, whatever else was done. */
  lemma {:induction false} ClockTells(dbs: seq<Db>, steps: seq<Step>, n: nat)
    requires IsOutboxRun(dbs, steps) && n < |dbs|
    ensures dbs[n].clock == dbs[0].clock + Ticked(steps, n)
  {
    if n > 0 {
      ClockTells(dbs, steps, n - 1);
      ClockMoves(dbs[n - 1], steps[n - 1]);
    }
  }

  lemma ClockMoves(db: Db, s: Step)
    requires CanStep(db, s)
    ensures After(db, s).clock == db.clock + if s.Tick? then s.dt else 0
  {
    hide DbAfter;
    if s.Tables? { TablesAppend(db, s.a); }
  }

  /** The last of the steps that settle row i or bring it back. */
  ghost predicate LastRuling(steps: seq<Step>, n: nat, i: nat, m: nat)
    requires n <= |steps|
  {
    m < n && (steps[m] == Answered(i) || steps[m] == GiveUp(i)) && forall k :: m < k < n ==> !Rules(steps[k], i)
  }

  ghost predicate Rules(s: Step, i: nat) { s == Answered(i) || s == GiveUp(i) || s == Redeliver(i) }

  /** A row says what became of it last: delivered if that was an answer, dead if it was given up. */
  lemma {:induction false} StatusTellsTheLast(dbs: seq<Db>, steps: seq<Step>, n: nat, i: nat) returns (m: nat)
    requires IsOutboxRun(dbs, steps) && n < |dbs| && i < |dbs[n].deliveries| && !dbs[n].deliveries[i].status.Pending?
    ensures LastRuling(steps, n, i, m)
    ensures dbs[n].deliveries[i].status == if steps[m].Answered? then Delivered else Dead
  {
    hide After, CanStep;
    var s, db := steps[n - 1], dbs[n - 1];
    LeavesPendingOnlyByAnswer(db, s, i);
    StatusMoves(db, s, i);
    if Rules(s, i) { m := n - 1; } else { m := StatusTellsTheLast(dbs, steps, n - 1, i); }
  }

  lemma StatusMoves(db: Db, s: Step, i: nat)
    requires CanStep(db, s) && i < |After(db, s).deliveries|
    ensures s == Answered(i) ==> After(db, s).deliveries[i].status == Delivered
    ensures s == GiveUp(i) ==> After(db, s).deliveries[i].status == Dead
    ensures s == Redeliver(i) ==> After(db, s).deliveries[i].status == Pending
    ensures !Rules(s, i) && i < |db.deliveries| ==> After(db, s).deliveries[i].status == db.deliveries[i].status
  {
    hide DbAfter;
    if s.Tables? { TablesAppend(db, s.a); }
  }

  /** The step is an answer of any kind to an attempt to deliver row i. */
  ghost predicate Tried(s: Step, i: nat) { s == Answered(i) || s == GiveUp(i) || (s.Retry? && s.i == i) }

  ghost function Tries(steps: seq<Step>, n: nat, i: nat): nat
    requires n <= |steps|
  {
    if n == 0 then 0 else Tries(steps, n - 1, i) + if Tried(steps[n - 1], i) then 1 else 0
  }

  lemma TriesMove(db: Db, s: Step, i: nat)
    requires CanStep(db, s)
    ensures i < |db.deliveries| ==>
              i < |After(db, s).deliveries| && After(db, s).deliveries[i].tries == db.deliveries[i].tries + if Tried(s, i) then 1 else 0
    ensures i >= |db.deliveries| ==> !Tried(s, i) && (i < |After(db, s).deliveries| ==> After(db, s).deliveries[i].tries == 0)
  {
    hide DbAfter;
    if s.Tables? { TablesAppend(db, s.a); }
  }

  /** A row counts every attempt to deliver it, and nothing else. */
  lemma {:induction false} TriesAreCounted(dbs: seq<Db>, steps: seq<Step>, n: nat, i: nat)
    requires IsOutboxRun(dbs, steps) && n < |dbs|
    ensures Tries(steps, n, i) == if i < |dbs[n].deliveries| then dbs[n].deliveries[i].tries else 0
  {
    hide After, CanStep, Tried;
    if n > 0 {
      TriesAreCounted(dbs, steps, n - 1, i);
      TriesMove(dbs[n - 1], steps[n - 1], i);
    }
  }
}
