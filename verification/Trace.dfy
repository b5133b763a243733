/** The webhook trace of every job, and the terminal counters, after any store calls. */
module Trace {
  import opened Domain
  import opened World
  import Store

  /** The columns of a delivery that never change. */
  datatype Notice = Notice(event: Event, version: nat, sequence: nat, reincluded: bool)

  /** A job's events in the order they were written. */
  function Events(ds: seq<Delivery>, j: nat): (t: seq<Notice>)
    ensures |t| <= |ds|
  {
    if ds == [] then []
    else
      var d := ds[|ds| - 1];
      Events(ds[..|ds| - 1], j) + (if d.job == j then [Notice(d.event, d.version, d.sequence, d.reincluded)] else [])
  }

  /**
   `included` any number of times, then at most one closing event; numbered from 1 without gaps; the
   n-th `included` is version n and says `reincluded` from the second on.
   */
  ghost predicate TraceOk(row: JobRow, t: seq<Notice>) {
    && |t| == row.webhookSeq
    && (forall i :: 0 <= i < |t| ==> t[i].sequence == i + 1)
    && (forall i :: 0 <= i < |t| && (i < |t| - 1 || !row.status.Terminal()) ==> t[i] == Notice(Event.Included, i + 1, i + 1, i > 0))
    && (row.status.Included? ==> |t| >= 1)
    && (row.status.Confirmed? ==> |t| >= 2 && t[|t| - 1] == Notice(Event.Confirmed, 1, |t|, false))
    && (row.status.Failed? ==> |t| >= 1 && t[|t| - 1] == Notice(Event.Failed, 1, |t|, false))
  }

  /** An open job has issued as many versions of `included` as it has events, and none of the others. */
  ghost predicate VersionsOk(row: JobRow, ds: seq<Delivery>, j: nat) {
    !row.status.Terminal() ==>
      && Store.MaxVersion(ds, j, Event.Included) == row.webhookSeq
      && Store.MaxVersion(ds, j, Event.Confirmed) == 0
      && Store.MaxVersion(ds, j, Event.Failed) == 0
  }

  ghost predicate JobTraceOk(jobs: Jobs, ds: seq<Delivery>, j: nat)
    requires j in jobs
  {
    TraceOk(jobs[j], Events(ds, j)) && VersionsOk(jobs[j], ds, j)
  }

  ghost predicate TracesOk(db: Db) {
    && (forall j :: j in db.jobs ==> JobTraceOk(db.jobs, db.deliveries, j))
    && (forall i :: 0 <= i < |db.deliveries| ==> db.deliveries[i].job in db.jobs)
  }

  /** How the engine is allowed to change a job row. */
  ghost predicate LegalMove(row: JobRow, row': JobRow) {
    (OutcomeOk(row) ==> OutcomeOk(row')) &&
    if row'.webhookSeq == row.webhookSeq then
      row' == row || (!row.status.Terminal() && !row'.status.Terminal() && (row'.status.Included? ==> row.status.Included?))
    else
      && row'.webhookSeq == row.webhookSeq + 1 && !row.status.Terminal()
      && (row'.status.Included? || row'.status.Failed? || (row'.status.Confirmed? && row.status.Included?))
  }

  lemma EventsOfAppend(ds: seq<Delivery>, d: Delivery, j: nat)
    ensures Events(ds + [d], j) == Events(ds, j) + (if d.job == j then [Notice(d.event, d.version, d.sequence, d.reincluded)] else [])
    ensures forall e :: Store.MaxVersion(ds + [d], j, e) ==
              if d.job == j && d.event == e && d.version > Store.MaxVersion(ds, j, e) then d.version else Store.MaxVersion(ds, j, e)
  {}

  lemma {:induction false} NoEventsOfStrangers(ds: seq<Delivery>, j: nat)
    requires forall i :: 0 <= i < |ds| ==> ds[i].job != j
    ensures Events(ds, j) == [] && forall e :: Store.MaxVersion(ds, j, e) == 0
  {
    if ds != [] { NoEventsOfStrangers(ds[..|ds| - 1], j); }
  }

  lemma PutJobKeepsTrace(db: Db, j: nat, row: JobRow, i: nat)
    requires TracesOk(db) && j in db.jobs && LegalMove(db.jobs[j], row) && i in db.jobs
    ensures var db' := Store.PutJob(db, j, row, false); JobTraceOk(db'.jobs, db'.deliveries, i)
  {
    hide LegalMove, TraceOk, Events, Store.MaxVersion;
    assert JobTraceOk(db.jobs, db.deliveries, i);
    if row.webhookSeq > db.jobs[j].webhookSeq {
      var ds := db.deliveries;
      var e := Store.EventOf(row.status);
      var version := Store.MaxVersion(ds, j, e) + 1;
      var d := Delivery(j, e, version, row.webhookSeq, e.Included? && version > 1, Pending, db.clock, 0);
      EventsOfAppend(ds, d, i);
      assert Store.PutJob(db, j, row, false).deliveries == ds + [d];
      if i == j {
        AnnouncedKeepsTrace(db.jobs[j], row, ds, d, j);
      } else {
        assert Events(ds + [d], i) == Events(ds, i);
        assert forall e' :: Store.MaxVersion(ds + [d], i, e') == Store.MaxVersion(ds, i, e');
      }
    } else {
      QuietKeepsTrace(db.jobs[j], row, db.deliveries, j);
    }
  }

  lemma QuietKeepsTrace(row: JobRow, row': JobRow, ds: seq<Delivery>, j: nat)
    requires LegalMove(row, row') && row'.webhookSeq <= row.webhookSeq
    ensures TraceOk(row, Events(ds, j)) ==> TraceOk(row', Events(ds, j))
    ensures VersionsOk(row, ds, j) ==> VersionsOk(row', ds, j)
  {}

  lemma AnnouncedKeepsTrace(row: JobRow, row': JobRow, ds: seq<Delivery>, d: Delivery, j: nat)
    requires TraceOk(row, Events(ds, j)) && VersionsOk(row, ds, j) && LegalMove(row, row') && row'.webhookSeq > row.webhookSeq
    requires var e := Store.EventOf(row'.status); var version := Store.MaxVersion(ds, j, e) + 1;
      d == Delivery(j, e, version, row'.webhookSeq, e.Included? && version > 1, d.status, d.dueAt, d.tries)
    ensures TraceOk(row', Events(ds + [d], j)) && VersionsOk(row', ds + [d], j)
  {}

  lemma PutJobKeeps(db: Db, j: nat, row: JobRow)
    requires TracesOk(db) && j in db.jobs && LegalMove(db.jobs[j], row)
    ensures TracesOk(Store.PutJob(db, j, row, false))
  {
    var db' := Store.PutJob(db, j, row, false);
    forall i | i in db'.jobs ensures JobTraceOk(db'.jobs, db'.deliveries, i) { PutJobKeepsTrace(db, j, row, i); }
  }

  // ---- Terminal counters ----

  ghost function CountJobs(jobs: Jobs, ids: set<nat>, key: RollupKey): (n: nat)
    requires ids <= jobs.Keys
  {
    if ids == {} then 0 else var j :| j in ids; Counts(jobs[j], key) + CountJobs(jobs, ids - {j}, key)
  }

  /** A finished job belongs under its chain, the signer it was bound to if any, and how it ended. */
  ghost predicate Files(row: JobRow, key: RollupKey) {
    && row.chain == key.chain
    && (if key.signer.Some? then row.binding.Some? && row.binding.value.pair.signer == key.signer.value else row.binding.None?)
    && match key.bucket
       case Succeeded => row.status.Confirmed? && row.outcome == Some(Success)
       case RevertedJobs => row.status.Confirmed? && row.outcome == Some(Reverted)
       case FailedJobs => row.status.Failed?
  }

  ghost function Counts(row: JobRow, key: RollupKey): nat { if Files(row, key) then 1 else 0 }

  /** A row tells how its transaction ended exactly while one is recorded as mined. */
  ghost predicate OutcomeOk(row: JobRow) { row.outcome.Some? <==> row.status.Included? || row.status.Confirmed? }

  ghost predicate OutcomesOk(jobs: Jobs) { forall j :: j in jobs ==> OutcomeOk(jobs[j]) }

  lemma {:induction false} CountSplit(jobs: Jobs, ids: set<nat>, j: nat, key: RollupKey)
    requires ids <= jobs.Keys && j in ids
    ensures CountJobs(jobs, ids, key) == Counts(jobs[j], key) + CountJobs(jobs, ids - {j}, key)
    decreases |ids|
  {
    var i :| i in ids && CountJobs(jobs, ids, key) == Counts(jobs[i], key) + CountJobs(jobs, ids - {i}, key);
    if i != j {
      CountSplit(jobs, ids - {i}, j, key);
      CountSplit(jobs, ids - {j}, i, key);
      assert ids - {i} - {j} == ids - {j} - {i};
    }
  }

  lemma {:induction false} CountSame(jobs: Jobs, jobs': Jobs, ids: set<nat>, key: RollupKey)
    requires ids <= jobs.Keys && ids <= jobs'.Keys
    requires forall j :: j in ids ==> Counts(jobs[j], key) == Counts(jobs'[j], key)
    ensures CountJobs(jobs, ids, key) == CountJobs(jobs', ids, key)
    decreases |ids|
  {
    if ids != {} {
      var j :| j in ids;
      CountSplit(jobs, ids, j, key);
      CountSplit(jobs', ids, j, key);
      CountSame(jobs, jobs', ids - {j}, key);
    }
  }

  function CounterOf(rollup: map<RollupKey, nat>, key: RollupKey): nat {
    if key in rollup then rollup[key] else 0
  }

  ghost predicate RollupOk(db: Db) {
    forall key :: CounterOf(db.rollup, key) == CountJobs(db.jobs, db.jobs.Keys, key)
  }

  lemma FiledUnderItsKey(row: JobRow, key: RollupKey)
    requires OutcomeOk(row)
    ensures Files(row, key) <==> row.status.Terminal() && key == Store.RollupKeyOf(row)
  {
    var k := Store.RollupKeyOf(row);
    assert key == k <==> key.chain == k.chain && key.signer == k.signer && key.bucket == k.bucket;
    assert row.outcome.Some? ==> row.outcome.value.Success? || row.outcome.value.Reverted?;
    assert key.bucket.Succeeded? || key.bucket.RevertedJobs? || key.bucket.FailedJobs?;
  }

  lemma PutJobKeepsRollup(db: Db, j: nat, row: JobRow)
    requires RollupOk(db) && j in db.jobs && LegalMove(db.jobs[j], row) && OutcomeOk(db.jobs[j])
    ensures RollupOk(Store.PutJob(db, j, row, false))
  {
    var db' := Store.PutJob(db, j, row, false);
    forall key ensures CounterOf(db'.rollup, key) == CountJobs(db'.jobs, db'.jobs.Keys, key) {
      assert CounterOf(db.rollup, key) == CountJobs(db.jobs, db.jobs.Keys, key);
      CountSplit(db.jobs, db.jobs.Keys, j, key);
      CountSplit(db'.jobs, db'.jobs.Keys, j, key);
      CountSame(db.jobs, db'.jobs, db.jobs.Keys - {j}, key);
      assert db'.jobs.Keys == db.jobs.Keys;
      FiledUnderItsKey(db.jobs[j], key);
      FiledUnderItsKey(row, key);
    }
  }

  lemma NewJobKeepsRollup(db: Db, j: nat, row: JobRow)
    requires RollupOk(db) && j !in db.jobs && !row.status.Terminal()
    ensures RollupOk(db.(jobs := db.jobs[j := row]))
  {
    var jobs := db.jobs[j := row];
    forall key ensures CounterOf(db.rollup, key) == CountJobs(jobs, jobs.Keys, key) {
      assert CounterOf(db.rollup, key) == CountJobs(db.jobs, db.jobs.Keys, key);
      CountSplit(jobs, jobs.Keys, j, key);
      assert jobs.Keys - {j} == db.jobs.Keys;
      CountSame(db.jobs, jobs, db.jobs.Keys, key);
    }
  }

  // ---- The transactions ----

  ghost predicate BooksOk(db: Db) { TracesOk(db) && RollupOk(db) && OutcomesOk(db.jobs) }

  lemma PutKeeps(db: Db, j: nat, row: JobRow)
    requires BooksOk(db) && j in db.jobs && LegalMove(db.jobs[j], row)
    ensures BooksOk(Store.PutJob(db, j, row, false))
  {
    PutJobKeeps(db, j, row);
    PutJobKeepsRollup(db, j, row);
  }

  lemma PutOwnerKeeps(db: Db, tx: Tx, c: Store.Change)
    requires BooksOk(db)
    requires tx.owner.Job? && tx.owner.job in db.jobs ==> LegalMove(db.jobs[tx.owner.job], Store.NextJob(db.jobs[tx.owner.job], tx, c))
    ensures BooksOk(Store.PutOwner(db, tx, c, false))
  {
    if tx.owner.Job? && tx.owner.job in db.jobs {
      PutKeeps(db, tx.owner.job, Store.NextJob(db.jobs[tx.owner.job], tx, c));
    }
  }

  /** The books do not look at the other tables. */
  lemma SameBooks(db: Db, db': Db)
    requires BooksOk(db) && db'.jobs == db.jobs && db'.deliveries == db.deliveries && db'.rollup == db.rollup
    ensures BooksOk(db')
  {}

  lemma BindKeepsBooks(db: Db, e: nat, tx: Tx, kind: Store.BindKind)
    requires BooksOk(db)
    ensures BooksOk(Store.Bind(db, e, tx, kind).0)
  {
    hide BooksOk, Store.PutOwner, Store.RaiseMark, Store.SlotFits;
    if Store.Bind(db, e, tx, kind).1.Bound? {
      var db1 := db.(slots := if kind.First? then db.slots[tx.slot := tx.owner] else db.slots,
                     attempts := db.attempts[tx := AttemptRow(AttemptStatus.Broadcast, true, 0, 0)],
                     pairs := Store.RaiseMark(db.pairs, tx.slot));
      SameBooks(db, db1);
      PutOwnerKeeps(db1, tx, Store.ToBound(kind));
    }
  }

  lemma ConfirmKeepsBooks(db: Db, tx: Tx)
    requires BooksOk(db)
    ensures BooksOk(Store.Confirm(db, tx).0)
  {
    var db1 := db.(attempts := Store.ConfirmedAttempts(db.attempts, tx));
    SameBooks(db, db1);
    PutOwnerKeeps(db1, tx, Store.ToConfirmed);
  }

  lemma SettleKeepsBooks(db: Db, tx: Tx, inc: Inclusion, confirmNow: bool)
    requires BooksOk(db)
    ensures BooksOk(Store.Settle(db, tx, inc, confirmNow, false).0)
  {
    if Store.Settle(db, tx, inc, confirmNow, false).1.Applied? {
      var db1 := db.(attempts := Store.IncludedAttempts(db.attempts, tx, inc),
                     gas := Store.AddGas(db.gas, GasKey(tx.slot.pair, tx.purpose), 1, inc.gasUsed, inc.feePaid));
      SameBooks(db, db1);
      PutOwnerKeeps(db1, tx, Store.ToIncluded(inc));
      ConfirmKeepsBooks(Store.AfterInclusion(db, tx, inc, false), tx);
    }
  }

  lemma DemoteKeepsBooks(db: Db, tx: Tx)
    requires BooksOk(db)
    ensures BooksOk(Store.Demote(db, tx).0)
  {
    hide BooksOk, Store.PutOwner;
    if tx in db.attempts && db.attempts[tx].status.Included? {
      var row := db.attempts[tx];
      var db1 := db.(attempts := db.attempts[tx := row.(status := AttemptStatus.Broadcast)],
                     gas := Store.AddGas(db.gas, GasKey(tx.slot.pair, tx.purpose), -1, 0 - row.gasUsed, 0 - row.feePaid));
      SameBooks(db, db1);
      PutOwnerKeeps(db1, tx, Store.ToDemoted);
    }
  }

  lemma VoidKeepsBooks(db: Db, e: nat, tx: Tx, mode: Store.VoidMode, d: Store.Disposition)
    requires BooksOk(db)
    ensures BooksOk(Store.Void(db, e, tx, mode, d).0)
  {
    hide BooksOk, Store.PutOwner, Store.DroppedAttempts, Store.FreedSlots, Store.LowerMark;
    var db1 := db.(attempts := Store.DroppedAttempts(db.attempts, tx.slot),
                   slots := if mode.NonceUnused? then Store.FreedSlots(db.slots, tx) else db.slots,
                   pairs := if mode.NonceUnused? then Store.LowerMark(db.pairs, tx.slot) else db.pairs);
    SameBooks(db, db1);
    PutOwnerKeeps(db1, tx, Store.ToVoided(d));
  }

  lemma AddJobKeepsBooks(db: Db, j: nat, c: nat)
    requires BooksOk(db)
    ensures BooksOk(Store.AddJob(db, j, c))
  {
    if j !in db.jobs {
      NoEventsOfStrangers(db.deliveries, j);
      NewJobKeepsRollup(db, j, JobRow(c, JobStatus.Queued, None, None, None, 0, 0));
      var db' := Store.AddJob(db, j, c);
      forall i | i in db'.jobs ensures JobTraceOk(db'.jobs, db'.deliveries, i) {
        if i != j { assert JobTraceOk(db.jobs, db.deliveries, i); }
      }
    }
  }

  lemma StepKeepsBooks(db: Db, a: Action)
    requires BooksOk(db)
    ensures BooksOk(DbAfter(db, a))
  {
    hide BooksOk, Store.AddJob, Store.PutJob, Store.Bind, Store.Settle, Store.Confirm, Store.Demote, Store.Void;
    match a
    case AddJob(j, c) => AddJobKeepsBooks(db, j, c);
    case FailQueued(j) => if j in db.jobs && db.jobs[j].status.Queued? { PutKeeps(db, j, Store.FailedRow(db.jobs[j])); }
    case RequeueFront(j) =>
      if j in db.jobs && db.jobs[j].status.Queued? { PutKeeps(db, j, db.jobs[j].(requeues := db.jobs[j].requeues + 1)); }
    case BindFirst(e, tx, _) => BindKeepsBooks(db, e, tx, Store.First);
    case BindMore(e, tx, kind, _) => BindKeepsBooks(db, e, tx, kind);
    case SettleInclusion(_, tx, inc, confirmNow) => SettleKeepsBooks(db, tx, inc, confirmNow);
    case SettleConfirmation(tx) => ConfirmKeepsBooks(db, tx);
    case Demote(tx) => DemoteKeepsBooks(db, tx);
    case VoidUnused(e, _, tx, _) => VoidKeepsBooks(db, e, tx, Store.NonceUnused, Store.Fail);
    case VoidForeign(e, _, tx, _) => VoidKeepsBooks(db, e, tx, Store.NonceTakenByForeignTx, Store.Requeue);
    case _ => SameBooks(db, DbAfter(db, a));
  }

  lemma {:induction false} BooksAlways(dbs: seq<Db>, acts: seq<Action>, i: nat)
    requires IsTableRun(dbs, acts) && i < |dbs|
    ensures BooksOk(dbs[i])
  {
    if i > 0 {
      BooksAlways(dbs, acts, i - 1);
      StepKeepsBooks(dbs[i - 1], acts[i - 1]);
    }
  }

  /** After any store calls a job's events are `included*` closed by its one terminal event, if it is terminal. */
  lemma TraceIsWellFormed(dbs: seq<Db>, acts: seq<Action>, i: nat, j: nat)
    requires IsTableRun(dbs, acts) && i < |dbs| && j in dbs[i].jobs
    ensures TraceOk(dbs[i].jobs[j], Events(dbs[i].deliveries, j))
  {
    BooksAlways(dbs, acts, i);
    assert JobTraceOk(dbs[i].jobs, dbs[i].deliveries, j);
  }

  /** After any store calls each counter is the number of terminal jobs filed under it. */
  lemma RollupCountsTerminalJobs(dbs: seq<Db>, acts: seq<Action>, i: nat, key: RollupKey)
    requires IsTableRun(dbs, acts) && i < |dbs|
    ensures CounterOf(dbs[i].rollup, key) == CountJobs(dbs[i].jobs, dbs[i].jobs.Keys, key)
  {
    BooksAlways(dbs, acts, i);
  }
}
