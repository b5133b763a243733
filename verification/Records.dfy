/** What a job's row says, told from the store calls alone: which transaction, how it ended, where it belongs. */
module Records {
  import opened Domain
  import opened World
  import Lifecycle
  import Store

  // ---- The steps that leave a mark on a job's row ----

  /** An inclusion of a payload of the job is recorded. */
  ghost predicate Reports(db: Db, a: Action, j: nat) {
    a.SettleInclusion? && a.tx.owner == Job(j) && a.tx.purpose.ForJob? && Store.Settle(db, a.tx, a.inc, a.confirmNow, false).1.Applied?
  }

  /** An attempt that carries the job's payload is bound. */
  ghost predicate Signs(db: Db, a: Action, j: nat) {
    || (a.BindFirst? && a.tx.owner == Job(j) && Store.Bind(db, a.e, a.tx, Store.First).1.Bound?)
    || (a.BindMore? && a.tx.owner == Job(j) && !a.kind.Cancel? && Store.Bind(db, a.e, a.tx, a.kind).1.Bound?)
  }

  ghost predicate Names(db: Db, a: Action, j: nat) { Signs(db, a, j) || Reports(db, a, j) }

  ghost predicate SendsBack(db: Db, a: Action, j: nat) {
    a.VoidForeign? && a.e == db.epoch && a.tx.owner == Job(j) && j in db.jobs && db.jobs[j].status.Bindable()
  }

  ghost predicate Requeues(db: Db, a: Action, j: nat) {
    SendsBack(db, a, j) || (a == RequeueFront(j) && j in db.jobs && db.jobs[j].status.Queued?)
  }

  ghost predicate Mined(row: JobRow) { row.status.Included? || row.status.Confirmed? }

  /** The row after a step, as far as it can be told without looking at attempts. */
  ghost predicate RowMoves(row: JobRow, row': JobRow, named: Option<Tx>, sentBack: bool, requeued: bool) {
    && row'.chain == row.chain
    && row'.requeues == row.requeues + (if requeued then 1 else 0)
    && row'.txHash == (if named.Some? then named else if sentBack then None else row.txHash)
    && (row.status.Confirmed? ==> row' == row)
  }

  ghost function NamedBy(db: Db, a: Action, j: nat): Option<Tx> { if Names(db, a, j) then Some(a.tx) else None }

  /** The job's row moves as the kind of the step says, and not otherwise. */
  ghost predicate Told(db: Db, db': Db, a: Action, j: nat)
    requires j in db.jobs
  {
    && j in db'.jobs && RowMoves(db.jobs[j], db'.jobs[j], NamedBy(db, a, j), SendsBack(db, a, j), Requeues(db, a, j))
    && (if Reports(db, a, j) then Mined(db'.jobs[j]) && db'.jobs[j].outcome == Some(a.inc.outcome)
        else (Mined(db'.jobs[j]) ==> Mined(db.jobs[j]) && db'.jobs[j].outcome == db.jobs[j].outcome))
  }

  lemma StepMoves(db: Db, a: Action, j: nat)
    requires j in db.jobs
    ensures Told(db, DbAfter(db, a), a, j)
  {
    hide DbAfter, Store.Bind, Store.Settle;
    Lifecycle.JobStep(db, a, j);
  }

  lemma OutcomeMoves(db: Db, a: Action, j: nat)
    requires j in DbAfter(db, a).jobs && Mined(DbAfter(db, a).jobs[j])
    ensures j in db.jobs
    ensures DbAfter(db, a).jobs[j].outcome == if Reports(db, a, j) then Some(a.inc.outcome) else db.jobs[j].outcome
    ensures !Reports(db, a, j) ==> Mined(db.jobs[j])
  {
    hide DbAfter, Reports, RowMoves, NamedBy, SendsBack, Requeues;
    if j !in db.jobs { OnlyAddJobAdds(db, a, j); } else { StepMoves(db, a, j); }
  }

  // ---- Over any store calls ----

  /** The chain a job belongs to is the one it was added with. */
  lemma {:induction false} ChainIsTheFirstOne(dbs: seq<Db>, acts: seq<Action>, n: nat, j: nat) returns (m: nat)
    requires IsTableRun(dbs, acts) && n < |dbs| && j in dbs[n].jobs
    ensures m < n && j !in dbs[m].jobs && acts[m] == AddJob(j, dbs[n].jobs[j].chain)
  {
    hide Store.AddJob, DbAfter, NamedBy, SendsBack, Requeues, Reports;
    if j in dbs[n - 1].jobs {
      m := ChainIsTheFirstOne(dbs, acts, n - 1, j);
      StepMoves(dbs[n - 1], acts[n - 1], j);
    } else {
      m := n - 1;
      OnlyAddJobAdds(dbs[n - 1], acts[n - 1], j);
    }
  }

  lemma OnlyAddJobAdds(db: Db, a: Action, j: nat)
    requires j !in db.jobs && j in DbAfter(db, a).jobs
    ensures a == AddJob(j, DbAfter(db, a).jobs[j].chain) && DbAfter(db, a).jobs[j] == JobRow(a.chainId, JobStatus.Queued, None, None, None, 0, 0)
  {
    hide Store.PutOwner, Store.PutJob, Store.SlotFits, Store.SlotMinedByOther, Store.InclusionFits, Store.IncludedAttempts, Store.ConfirmedAttempts,
         Store.DroppedAttempts, Store.RaiseMark, Store.LowerMark, Store.AddGas, Store.FreedSlots;
  }

  ghost function RequeuesOf(dbs: seq<Db>, acts: seq<Action>, n: nat, j: nat): nat
    requires n <= |acts| <= |dbs|
  {
    if n == 0 then 0 else RequeuesOf(dbs, acts, n - 1, j) + if Requeues(dbs[n - 1], acts[n - 1], j) then 1 else 0
  }

  /** A job counts how often it went back to the queue. */
  lemma {:induction false} RequeuesAreCounted(dbs: seq<Db>, acts: seq<Action>, n: nat, j: nat)
    requires IsTableRun(dbs, acts) && n < |dbs|
    ensures RequeuesOf(dbs, acts, n, j) == if j in dbs[n].jobs then dbs[n].jobs[j].requeues else 0
  {
    hide DbAfter, NamedBy, Reports, Mined;
    if n > 0 {
      RequeuesAreCounted(dbs, acts, n - 1, j);
      if j in dbs[n - 1].jobs { StepMoves(dbs[n - 1], acts[n - 1], j); }
      else if j in dbs[n].jobs { OnlyAddJobAdds(dbs[n - 1], acts[n - 1], j); }
    }
  }

  /** The last step before n that did this to job j. */
  ghost predicate LastNaming(dbs: seq<Db>, acts: seq<Action>, n: nat, j: nat, m: nat)
    requires n <= |acts| <= |dbs|
  {
    m < n && Names(dbs[m], acts[m], j) && forall k :: m < k < n ==> !Names(dbs[k], acts[k], j)
  }

  /** The transaction a row names is the payload last bound or recorded as mined, whichever came later. */
  lemma {:induction false} HashIsTheLastOne(dbs: seq<Db>, acts: seq<Action>, n: nat, j: nat) returns (m: nat)
    requires IsTableRun(dbs, acts) && n < |dbs| && j in dbs[n].jobs && dbs[n].jobs[j].txHash.Some?
    ensures LastNaming(dbs, acts, n, j, m) && dbs[n].jobs[j].txHash == Some(acts[m].tx)
  {
    hide DbAfter, Names, SendsBack, Requeues, Reports, Mined;
    if j !in dbs[n - 1].jobs { OnlyAddJobAdds(dbs[n - 1], acts[n - 1], j); }
    StepMoves(dbs[n - 1], acts[n - 1], j);
    if Names(dbs[n - 1], acts[n - 1], j) { m := n - 1; } else { m := HashIsTheLastOne(dbs, acts, n - 1, j); }
  }

  ghost predicate LastReport(dbs: seq<Db>, acts: seq<Action>, n: nat, j: nat, m: nat)
    requires n <= |acts| <= |dbs|
  {
    m < n && Reports(dbs[m], acts[m], j) && forall k :: m < k < n ==> !Reports(dbs[k], acts[k], j)
  }

  /** The attempt a mined row names carries the same verdict, and the cost that was reported. */
  ghost predicate Backed(db: Db, j: nat, tx: Tx, inc: Inclusion)
    requires j in db.jobs
  {
    && tx in db.attempts && db.jobs[j].txHash == Some(tx)
    && (db.jobs[j].status.Included? ==> db.attempts[tx].status.Included?) && (db.jobs[j].status.Confirmed? ==> db.attempts[tx].status.Confirmed?)
    && db.attempts[tx].gasUsed == inc.gasUsed && db.attempts[tx].feePaid == inc.feePaid
  }

  /** An attempt recorded as included is the one its job's row names. */
  ghost predicate IncludedOk(db: Db) {
    forall t :: t in db.attempts && t.owner.Job? && t.purpose.ForJob? && db.attempts[t].status.Included? ==>
      NamedByItsJob(db, t)
  }

  ghost predicate NamedByItsJob(db: Db, t: Tx)
    requires t.owner.Job?
  {
    t.owner.job in db.jobs && db.jobs[t.owner.job].status.Included? && db.jobs[t.owner.job].txHash == Some(t)
  }

  lemma LandedIsKnown(db: Db, a: Action, t: Tx)
    requires Lifecycle.Landing(db, t, a) && t.owner.Job? && t.purpose.ForJob?
    ensures t.owner.job in db.jobs && t in db.attempts && db.attempts[t].status.Broadcast?
  {
    hide Store.AfterInclusion, Store.SlotMinedByOther;
  }

  lemma IncludedIsNamed(db: Db, a: Action, t: Tx)
    requires t in DbAfter(db, a).attempts && t.owner.Job? && t.purpose.ForJob? && DbAfter(db, a).attempts[t].status.Included?
    requires IncludedOk(db)
    ensures NamedByItsJob(DbAfter(db, a), t)
  {
    hide DbAfter, Store.Bind, Store.Settle;
    Lifecycle.AttemptStep(db, a, t);
    if Lifecycle.Landing(db, t, a) { LandedIsKnown(db, a, t); }
    Lifecycle.JobStep(db, a, t.owner.job);
  }

  lemma IncludedStep(db: Db, a: Action)
    requires IncludedOk(db)
    ensures IncludedOk(DbAfter(db, a))
  {
    hide DbAfter, Store.Bind, Store.Settle;
    var db' := DbAfter(db, a);
    forall t | t in db'.attempts && t.owner.Job? && t.purpose.ForJob? && db'.attempts[t].status.Included? ensures NamedByItsJob(db', t) {
      IncludedIsNamed(db, a, t);
    }
  }

  lemma {:induction false} IncludedAlways(dbs: seq<Db>, acts: seq<Action>, n: nat)
    requires IsTableRun(dbs, acts) && n < |dbs|
    ensures IncludedOk(dbs[n])
  {
    hide DbAfter;
    if n > 0 {
      IncludedAlways(dbs, acts, n - 1);
      IncludedStep(dbs[n - 1], acts[n - 1]);
    }
  }

  // ---- What a mined row is backed by ----

  lemma NewlyBacked(db: Db, a: Action, j: nat)
    requires Reports(db, a, j)
    ensures j in DbAfter(db, a).jobs && Backed(DbAfter(db, a), j, a.tx, a.inc) && a.tx.owner == Job(j) && a.tx.purpose.ForJob?
  {
    LandedIsKnown(db, a, a.tx);
    hide DbAfter, Store.Settle;
    Lifecycle.AttemptStep(db, a, a.tx);
    Lifecycle.JobStep(db, a, j);
  }

  lemma StaysBacked(db: Db, a: Action, j: nat, t: Tx, i: Inclusion)
    requires IncludedOk(db) && j in db.jobs && Mined(db.jobs[j]) && Backed(db, j, t, i) && t.owner == Job(j) && t.purpose.ForJob?
    ensures var db' := DbAfter(db, a); j in db'.jobs && (Mined(db'.jobs[j]) ==> Backed(db', j, t, i))
  {
    hide DbAfter, Store.Bind, Store.Settle;
    Lifecycle.AttemptStep(db, a, t);
    Lifecycle.JobStep(db, a, j);
    if Lifecycle.Landing(db, t, a) { LandedIsKnown(db, a, t); }
  }

  /**
   After any store calls, an included or confirmed job has the outcome of the last inclusion recorded for a
   payload of it, names that transaction, and the attempt has that inclusion's gas and fee.
   */
  lemma {:induction false} MinedRowTellsTheInclusion(dbs: seq<Db>, acts: seq<Action>, n: nat, j: nat) returns (m: nat)
    requires IsTableRun(dbs, acts) && n < |dbs| && j in dbs[n].jobs && Mined(dbs[n].jobs[j])
    ensures LastReport(dbs, acts, n, j, m)
    ensures dbs[n].jobs[j].outcome == Some(acts[m].inc.outcome) && Backed(dbs[n], j, acts[m].tx, acts[m].inc)
  {
    hide DbAfter, Backed, IncludedOk, Told, Mined, Store.Settle;
    var db, a := dbs[n - 1], acts[n - 1];
    OutcomeMoves(db, a, j);
    if Reports(db, a, j) {
      m := n - 1;
      NewlyBacked(db, a, j);
    } else {
      m := MinedRowTellsTheInclusion(dbs, acts, n - 1, j);
      IncludedAlways(dbs, acts, n - 1);
      StaysBacked(db, a, j, acts[m].tx, acts[m].inc);
    }
  }
}
