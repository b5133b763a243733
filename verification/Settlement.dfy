/** The write-behind queue: strictly FIFO, each write retried until its outcome is known. */
module Settlement {
  import opened Domain
  import opened World
  import Store
  import Database

  datatype SettleOp =
    | WriteInclusion(tx: Tx, inc: Inclusion, confirmNow: bool, reincluded: bool)
    | WriteConfirmation(tx: Tx)
    | Flush

  /** A transient failure of one try: the connection died before the COMMIT, or right after it. */
  datatype Fault = BeforeCommit | AfterCommit

  function ApplyOp(db: Db, op: SettleOp): (r: (Db, Store.Settled)) {
    match op
    case WriteInclusion(tx, inc, confirmNow, reincluded) => Store.Settle(db, tx, inc, confirmNow, reincluded)
    case WriteConfirmation(tx) => Store.Confirm(db, tx)
    case Flush => (db, Store.Noop)
  }

  /** A result that retrying cannot fix: the write is parked in dead_letters. */
  predicate Parked(r: Store.Settled) { r.OwnerConflict? || r.MinedTwice? }

  /** Each write applied once, in order. */
  function ApplyAll(db: Db, ops: seq<SettleOp>): Db {
    if ops == [] then db else ApplyOp(ApplyAll(db, ops[..|ops| - 1]), ops[|ops| - 1]).0
  }

  /** The writes that find the tables refusing them. */
  function DeadLetters(db: Db, ops: seq<SettleOp>): seq<SettleOp> {
    if ops == [] then []
    else
      var last := ops[|ops| - 1];
      DeadLetters(db, ops[..|ops| - 1]) + (if Parked(ApplyOp(ApplyAll(db, ops[..|ops| - 1]), last).1) then [last] else [])
  }

  /** Running a write again on its own result changes nothing, and never turns a success into a refusal. */
  lemma RetryIsHarmless(db: Db, op: SettleOp)
    ensures var (db', r) := ApplyOp(db, op);
            ApplyOp(db', op).0 == db' && (Parked(ApplyOp(db', op).1) <==> Parked(r))
  {
    if op.WriteInclusion? && ApplyOp(db, op).1.Applied? {
      var included := Store.AfterInclusion(db, op.tx, op.inc, op.reincluded);
      assert included.attempts[op.tx].status.Included?;
    }
  }

  /** At its turn every write is applied, or its attempt is already past it, or it is kept as a dead letter. */
  lemma {:induction false} NothingIsSwallowed(db: Db, ops: seq<SettleOp>, i: nat)
    requires i < |ops| && !ops[i].Flush?
    ensures var now := ApplyAll(db, ops[..i]);
            || ApplyOp(now, ops[i]).1.Applied?
            || (ApplyOp(now, ops[i]).1.Noop?
                && (ops[i].tx in now.attempts ==> if ops[i].WriteInclusion? then !now.attempts[ops[i].tx].status.Broadcast? else !now.attempts[ops[i].tx].status.Included?))
            || ops[i] in DeadLetters(db, ops)
  {
    var last := |ops| - 1;
    if i < last {
      NothingIsSwallowed(db, ops[..last], i);
      assert ops[..last][..i] == ops[..i];
    }
  }

  /**
   Drains the queue. `faults[i]` is what goes wrong with write i before a try gets its answer. Neither the
   faults nor their number show in the outcome, and a flush resolves on exactly the writes before it.
   */
  method Run(db: Database.Database, ops: seq<SettleOp>, faults: seq<seq<Fault>>) returns (dead: seq<SettleOp>, flushed: seq<Db>)
    requires |faults| == |ops|
    modifies db
    ensures db.State() == ApplyAll(old(db.State()), ops)
    ensures dead == DeadLetters(old(db.State()), ops)
    ensures |flushed| == |ops| && forall i :: 0 <= i < |ops| && ops[i].Flush? ==> flushed[i] == ApplyAll(old(db.State()), ops[..i])
  {
    hide ApplyOp;
    ghost var start := db.State();
    dead, flushed := [], [];
    for i := 0 to |ops|
      invariant db.State() == ApplyAll(start, ops[..i]) && dead == DeadLetters(start, ops[..i])
      invariant |flushed| == i && forall k :: 0 <= k < i && ops[k].Flush? ==> flushed[k] == ApplyAll(start, ops[..k])
    {
      flushed := flushed + [db.State()];
      assert ops[..i + 1][..i] == ops[..i];
      var r := ApplyOnce(db, ops[i], faults[i]);
      if Parked(r) { dead := dead + [ops[i]]; }
    }
    assert ops[..|ops|] == ops;
  }

  /** One write with its retry loop. */
  method ApplyOnce(db: Database.Database, op: SettleOp, faults: seq<Fault>) returns (r: Store.Settled)
    modifies db
    ensures db.State() == ApplyOp(old(db.State()), op).0 && (Parked(r) <==> Parked(ApplyOp(old(db.State()), op).1))
  {
    ghost var start := db.State();
    ghost var done := ApplyOp(start, op);
    RetryIsHarmless(start, op);
    for i := 0 to |faults|
      invariant db.State() == start || db.State() == done.0
    {
      if faults[i].AfterCommit? { r := TryWrite(db, op); }
    }
    r := TryWrite(db, op);
  }

  method TryWrite(db: Database.Database, op: SettleOp) returns (r: Store.Settled)
    modifies db
    ensures (db.State(), r) == ApplyOp(old(db.State()), op)
  {
    match op {
      case WriteInclusion(tx, inc, confirmNow, reincluded) => r := db.SettleInclusion(tx, inc, confirmNow, reincluded);
      case WriteConfirmation(tx) => r := db.SettleConfirmation(tx);
      case Flush => r := Store.Noop;
    }
  }

  // ---- Retries among everybody else's writes ----

  /** The attempt has left `broadcast`, and a confirmed one stays confirmed. */
  ghost predicate StaysSettled(before: Attempts, after: Attempts, tx: Tx)
    requires tx in before
  {
    tx in after && !after[tx].status.Broadcast? && (before[tx].status.Confirmed? ==> after[tx].status.Confirmed?)
  }

  lemma SettleLeavesSettled(db: Db, t: Tx, inc: Inclusion, confirmNow: bool, tx: Tx)
    requires tx in db.attempts && !db.attempts[tx].status.Broadcast?
    ensures StaysSettled(db.attempts, Store.Settle(db, t, inc, confirmNow, false).0.attempts, tx)
    ensures StaysSettled(db.attempts, Store.Confirm(db, t).0.attempts, tx)
  {
    hide Store.PutOwner, Store.SlotMinedByOther;
    var included := Store.AfterInclusion(db, t, inc, false);
    assert included.attempts == Store.IncludedAttempts(db.attempts, t, inc);
  }

  lemma BindingLeavesSettled(db: Db, e: nat, t: Tx, kind: Store.BindKind, mode: Store.VoidMode, d: Store.Disposition, tx: Tx)
    requires tx in db.attempts && !db.attempts[tx].status.Broadcast?
    ensures StaysSettled(db.attempts, Store.Bind(db, e, t, kind).0.attempts, tx)
    ensures StaysSettled(db.attempts, Store.Void(db, e, t, mode, d).0.attempts, tx)
    ensures t != tx ==> StaysSettled(db.attempts, Store.Demote(db, t).0.attempts, tx)
  {
    hide Store.PutOwner, Store.SlotFits, Store.OwnerMoves;
  }

  lemma SameIsSettled(db: Db, tx: Tx)
    requires tx in db.attempts && !db.attempts[tx].status.Broadcast?
    ensures StaysSettled(db.attempts, db.attempts, tx)
  {}

  /** Only a demotion of this very attempt makes it eligible for inclusion again. */
  lemma SettledStays(db: Db, a: Action, tx: Tx)
    requires tx in db.attempts && !db.attempts[tx].status.Broadcast? && a != Demote(tx)
    ensures StaysSettled(db.attempts, DbAfter(db, a).attempts, tx)
  {
    hide StaysSettled, Store.PutJob, Store.Bind, Store.Settle, Store.Confirm, Store.Demote, Store.Void;
    SameIsSettled(db, tx);
    match a
    case SettleInclusion(_, t, inc, confirmNow) => SettleLeavesSettled(db, t, inc, confirmNow, tx);
    case SettleConfirmation(t) => SettleLeavesSettled(db, t, Inclusion(Success, 0, 0), false, tx);
    case BindFirst(e, t, _) => BindingLeavesSettled(db, e, t, Store.First, Store.NonceUnused, Store.Fail, tx);
    case BindMore(e, t, kind, _) => BindingLeavesSettled(db, e, t, kind, Store.NonceUnused, Store.Fail, tx);
    case VoidUnused(e, _, t, _) => BindingLeavesSettled(db, e, t, Store.First, Store.NonceUnused, Store.Fail, tx);
    case VoidForeign(e, _, t, _) => BindingLeavesSettled(db, e, t, Store.First, Store.NonceTakenByForeignTx, Store.Requeue, tx);
    case Demote(t) => BindingLeavesSettled(db, 0, t, Store.First, Store.NonceUnused, Store.Fail, tx);
    case _ =>
  }

  /** A late retry of an inclusion is a no-op whatever ran in between, unless that was the demotion it must survive. */
  lemma {:induction false} LateInclusionRetryIsNoop(dbs: seq<Db>, acts: seq<Action>, i: nat, k: nat, op: SettleOp)
    requires IsTableRun(dbs, acts) && i <= k < |dbs| && op.WriteInclusion?
    requires op.tx in dbs[i].attempts && !dbs[i].attempts[op.tx].status.Broadcast?
    requires forall n :: i <= n < k ==> acts[n] != Demote(op.tx)
    ensures op.tx in dbs[k].attempts && !dbs[k].attempts[op.tx].status.Broadcast?
    ensures ApplyOp(dbs[k], op) == (dbs[k], Store.Noop)
  {
    if i < k {
      LateInclusionRetryIsNoop(dbs, acts, i, k - 1, op);
      SettledStays(dbs[k - 1], acts[k - 1], op.tx);
    }
  }

  /** A late retry of a confirmation is a no-op whatever ran in between. */
  lemma {:induction false} LateConfirmationRetryIsNoop(dbs: seq<Db>, acts: seq<Action>, i: nat, k: nat, tx: Tx)
    requires IsTableRun(dbs, acts) && i <= k < |dbs| && tx in dbs[i].attempts && dbs[i].attempts[tx].status.Confirmed?
    ensures tx in dbs[k].attempts && dbs[k].attempts[tx].status.Confirmed?
    ensures ApplyOp(dbs[k], WriteConfirmation(tx)) == (dbs[k], Store.Noop)
  {
    if i < k {
      LateConfirmationRetryIsNoop(dbs, acts, i, k - 1, tx);
      ConfirmedIsForever(dbs[k - 1], acts[k - 1], tx);
    }
  }

  lemma ConfirmedIsForever(db: Db, a: Action, tx: Tx)
    requires tx in db.attempts && db.attempts[tx].status.Confirmed?
    ensures var db' := DbAfter(db, a); tx in db'.attempts && db'.attempts[tx].status.Confirmed?
  {
    if a != Demote(tx) { SettledStays(db, a, tx); }
  }
}
