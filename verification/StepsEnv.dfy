/** What the chain and the intake of work can do, and every step together. */
module StepsEnv {
  import opened Domain
  import opened World
  import opened Invariant
  import opened StepsBind
  import opened StepsMined
  import opened StepsProc
  import opened StepsVoid
  import Store

  // ---- The chain ----

  /** The chain moves on without forgetting anything that is final, rejected or once seen mined. */
  ghost predicate ChainMoves(w: World, w': World) {
    && w' == w.(chain := w'.chain, final := w'.final, mined := w'.mined, dead := w'.dead)
    && w.final <= w'.final && w.mined <= w'.mined && w.dead <= w'.dead
    && (forall s :: s in w.final && s in w.chain ==> s in w'.chain && w'.chain[s] == w.chain[s])
  }

  lemma ChainKeeps(w: World, w': World)
    requires Inv(w) && ChainMoves(w, w') && ChainOk(w')
    ensures Inv(w')
  {}

  lemma ChainStepKeeps(w: World, a: Action)
    requires Inv(w) && Enabled(w, a) && (a.Mine? || a.MineForeign? || a.Reorg? || a.Finalize? || a.Reject?)
    ensures Inv(Apply(w, a))
  {
    hide AttemptsOk, JobsOk, SlotsOk, LeaderOk, ProcsOk, TopupsOk, IncludedOnce;
    ChainKeeps(w, Apply(w, a));
  }

  // ---- Intake ----

  /** New owners may appear, queued jobs may fail or be requeued, requested top-ups may fail. */
  ghost predicate IntakeMoves(db: Db, db': Db) {
    && db' == db.(jobs := db'.jobs, topups := db'.topups, deliveries := db'.deliveries, rollup := db'.rollup)
    && (forall j :: j in db.jobs ==>
          && j in db'.jobs && db'.jobs[j].binding == db.jobs[j].binding
          && (db'.jobs[j].status == db.jobs[j].status || (db.jobs[j].status.Queued? && db'.jobs[j].status.Failed?)))
    && (forall j :: j in db'.jobs && j !in db.jobs ==> db'.jobs[j].status.Queued? && db'.jobs[j].binding.None?)
    && (forall t :: t in db.topups ==>
          t in db'.topups && (db'.topups[t] == db.topups[t] || (db.topups[t].Requested? && db'.topups[t].Failed?)))
  }

  lemma IntakeKeepsAttempts(w: World, db: Db)
    requires AttemptsOk(w) && TopupsOk(w.db.topups, w.db.attempts) && IntakeMoves(w.db, db)
    ensures AttemptsOk(w.(db := db))
  {}

  lemma IntakeKeepsJobs(db: Db, db': Db)
    requires JobsOk(db.jobs, db.attempts) && IntakeMoves(db, db')
    requires forall j :: j in db.jobs && db.jobs[j].status.Queued? ==> db.jobs[j].binding.None?
    ensures JobsOk(db'.jobs, db'.attempts)
  {
    forall j | j in db'.jobs ensures JobOk(db'.jobs[j], db'.attempts, j) {
      if j in db.jobs {
        assert JobOk(db.jobs[j], db.attempts, j);
      }
    }
  }

  lemma IntakeKeepsSlots(w: World, db: Db)
    requires SlotsOk(w) && IntakeMoves(w.db, db)
    ensures SlotsOk(w.(db := db))
  {}

  lemma IntakeKeepsLeader(w: World, db: Db)
    requires LeaderOk(w.db, w.procs) && IntakeMoves(w.db, db)
    requires forall j :: j in w.db.jobs && w.db.jobs[j].status.Queued? ==> w.db.jobs[j].binding.None?
    ensures LeaderOk(db, w.procs)
  {
    if db.epoch in w.procs {
      var p := w.procs[db.epoch];
      forall k | k in p.flights ensures LeaderFlightOk(db, p, k) {
        assert LeaderFlightOk(w.db, p, k);
        forall t | t in p.flights[k].attempts ensures DrivenHere(db.jobs, t) { assert DrivenHere(w.db.jobs, t); }
      }
      forall k, t | k in p.walk && t in p.walk[k] ensures BoundHere(db.jobs, t) { assert BoundHere(w.db.jobs, t); }
      forall k | k in p.cursor ensures CursorOk(db, p, k) { assert CursorOk(w.db, p, k); }
    }
  }

  lemma IntakeKeeps(w: World, db: Db)
    requires Inv(w) && IntakeMoves(w.db, db)
    ensures Inv(w.(db := db))
  {
    forall j | j in w.db.jobs && w.db.jobs[j].status.Queued? ensures w.db.jobs[j].binding.None? { assert JobOk(w.db.jobs[j], w.db.attempts, j); }
    IntakeKeepsAttempts(w, db);
    IntakeKeepsJobs(w.db, db);
    IntakeKeepsSlots(w, db);
    IntakeKeepsLeader(w, db);
    TopupsKnown(w);
    IntakeKeepsTopups(w.db, db);
  }

  lemma TopupsKnown(w: World)
    requires AttemptsOk(w)
    ensures forall t :: t in w.db.attempts && t.owner.Topup? ==> t.owner.topup in w.db.topups
  {}

  lemma IntakeKeepsTopups(db: Db, db': Db)
    requires TopupsOk(db.topups, db.attempts) && IntakeMoves(db, db')
    requires forall t :: t in db.attempts && t.owner.Topup? ==> t.owner.topup in db.topups
    ensures TopupsOk(db'.topups, db'.attempts)
  {}

  lemma IntakeStepMoves(w: World, a: Action)
    requires Enabled(w, a) && (a.AddJob? || a.AddTopup? || a.FailQueued? || a.RequeueFront? || a.FailTopup?)
    ensures var w' := Apply(w, a); w' == w.(db := w'.db) && IntakeMoves(w.db, w'.db)
  {}

  // ---- Binding and voiding, with and without an acknowledged commit ----

  lemma BindFirstKeeps(w: World, e: nat, tx: Tx, reported: bool)
    requires Inv(w) && CanBindFirst(w, e, tx)
    ensures Inv(AfterBindFirst(w, e, tx, reported))
  {
    if Claims(w, e, tx) {
      ClaimKeeps(w, e, tx);
      ClaimIsReady(w, e, tx);
      if reported { TakeOffAfterClaim(w, e, tx); }
    }
  }

  lemma TakeOffAfterClaim(w: World, e: nat, tx: Tx)
    requires Claims(w, e, tx) && Inv(w.(db := Store.AfterBind(w.db, tx, Store.First)))
    requires ReadyToFly(Store.AfterBind(w.db, tx, Store.First), w.procs[e], tx)
    ensures Inv(AfterBindFirst(w, e, tx, true))
  {
    hide AttemptsOk, JobsOk, SlotsOk, LeaderOk, ProcsOk, ChainOk, TopupsOk, IncludedOnce;
    TakeOffKeeps(w.(db := Store.AfterBind(w.db, tx, Store.First)), e, tx);
  }

  lemma ClaimIsReady(w: World, e: nat, tx: Tx)
    requires LeaderOk(w.db, w.procs) && Claims(w, e, tx)
    ensures ReadyToFly(Store.AfterBind(w.db, tx, Store.First), w.procs[e], tx)
    ensures Mark(w.db.pairs, tx.slot.pair) < tx.slot.nonce
  {}

  lemma BindMoreKeeps(w: World, e: nat, tx: Tx, kind: Store.BindKind, reported: bool)
    requires Inv(w) && CanBindMore(w, e, tx, kind)
    ensures Inv(AfterBindMore(w, e, tx, kind, reported))
  {
    hide AttemptsOk, JobsOk, SlotsOk, LeaderOk, ProcsOk, ChainOk, TopupsOk, IncludedOnce;
    var bound := Store.Bind(w.db, e, tx, kind).1.Bound?;
    if bound {
      PurposeFits(w, e, tx, kind);
      AddKeeps(w, e, tx, kind);
      AddIsDriven(w, e, tx, kind);
    }
    if bound && reported {
      JoinAfterAdd(w, e, tx, kind);
    } else if kind.Cancel? {
      CancelInDoubt(w, e, tx);
    }
  }

  lemma CancelInDoubt(w: World, e: nat, tx: Tx)
    requires HasFlight(w, e, tx.slot.pair) && Inv(w.(db := Store.Bind(w.db, e, tx, Store.Cancel).0))
    ensures var w1, f := w.(db := Store.Bind(w.db, e, tx, Store.Cancel).0), w.procs[e].flights[tx.slot.pair];
            Inv(SetFlight(w1, e, tx.slot.pair, f.(cancelLost := true), {}))
  {
    hide Inv, Store.Bind;
    var w1, q := w.(db := Store.Bind(w.db, e, tx, Store.Cancel).0), w.procs[e];
    var p := q.(flights := q.flights[tx.slot.pair := q.flights[tx.slot.pair].(cancelLost := true)]);
    FewerFlights(w1, e, p);
    assert q.held + {} == q.held;
  }

  lemma JoinAfterAdd(w: World, e: nat, tx: Tx, kind: Store.BindKind)
    requires Adds(w, e, tx, kind) && Inv(w.(db := Store.AfterBind(w.db, tx, kind)))
    requires DrivenHere(Store.AfterBind(w.db, tx, kind).jobs, tx)
    ensures Inv(AfterBindMore(w, e, tx, kind, true))
  {
    hide AttemptsOk, JobsOk, SlotsOk, LeaderOk, ProcsOk, ChainOk, TopupsOk, IncludedOnce;
    JoinKeeps(w.(db := Store.AfterBind(w.db, tx, kind)), e, tx);
  }

  lemma PurposeFits(w: World, e: nat, tx: Tx, kind: Store.BindKind)
    requires AttemptsOk(w) && ProcsOk(w.procs, w.db.epoch, w.db.attempts.Keys) && CanBindMore(w, e, tx, kind)
    requires Store.Bind(w.db, e, tx, kind).1.Bound?
    ensures Adds(w, e, tx, kind)
  {}

  lemma AddIsDriven(w: World, e: nat, tx: Tx, kind: Store.BindKind)
    requires LeaderOk(w.db, w.procs) && ProcsOk(w.procs, w.db.epoch, w.db.attempts.Keys) && Adds(w, e, tx, kind)
    ensures DrivenHere(Store.AfterBind(w.db, tx, kind).jobs, tx)
  {}

  lemma AfterVoidKeeps(w: World, e: nat, k: Pair, tx: Tx, mode: Store.VoidMode, d: Store.Disposition, reported: bool)
    requires Inv(w) && CancelsOk(w) && CanVoid(w, e, k, tx)
    requires if mode.NonceUnused? then d.Fail? else d.Requeue? && TakenByOther(w, w.procs[e].flights[k], tx.slot)
    ensures Inv(AfterVoid(w, e, k, tx, mode, d, reported))
  {
    VoidKeeps(w, e, k, tx, mode, d);
    if e == w.db.epoch && reported {
      var w1 := Voided(w, e, tx, mode, d);
      var p := w.procs[e].(flights := w.procs[e].flights - {k});
      FewerFlights(w1, e, p);
      if mode.NonceUnused? {
        VoidFreesTheNonce(w, e, k, tx, d);
        CursorKeeps(DropFlight(w1, e, k), e, k, tx.slot.nonce);
      }
    }
  }

  /** After a NonceUnused void the nonce is free and the mark is below it, so the next send may take it. */
  lemma VoidFreesTheNonce(w: World, e: nat, k: Pair, tx: Tx, d: Store.Disposition)
    requires LeaderOk(w.db, w.procs) && ProcsOk(w.procs, w.db.epoch, w.db.attempts.Keys) && e == w.db.epoch && CanVoid(w, e, k, tx)
    ensures var db := Store.Void(w.db, e, tx, Store.NonceUnused, d).0;
            tx.slot == Slot(k, tx.slot.nonce) && k in db.pairs && Mark(db.pairs, k) < tx.slot.nonce && tx.slot !in db.slots
  {}

  lemma RecoverDoneKeeps(w: World, e: nat, k: Pair, n: nat)
    requires Inv(w) && e in w.procs && k !in w.procs[e].flights
    ensures var db := Store.EnsurePair(w.db, k); Inv(SetCursor(w.(db := db), e, k, Max(n, Mark(db.pairs, k) + 1)))
  {
    hide AttemptsOk, JobsOk, SlotsOk, LeaderOk, ProcsOk, ChainOk, TopupsOk, IncludedOnce;
    EnsurePairKeeps(w, k);
    ReconciledKeeps(w.(db := Store.EnsurePair(w.db, k)), e, k, n);
  }

  lemma ReconciledKeeps(w: World, e: nat, k: Pair, n: nat)
    requires Inv(w) && e in w.procs && k !in w.procs[e].flights && k in w.db.pairs
    ensures Inv(SetCursor(w, e, k, Max(n, Mark(w.db.pairs, k) + 1)))
  {
    CursorKeeps(w, e, k, Max(n, Mark(w.db.pairs, k) + 1));
  }

  lemma EnsurePairKeepsLeader(db: Db, p: Proc, k: Pair)
    requires LeaderProcOk(db, p)
    ensures LeaderProcOk(Store.EnsurePair(db, k), p)
  {}

  lemma EnsurePairKeeps(w: World, k: Pair)
    requires Inv(w)
    ensures Inv(w.(db := Store.EnsurePair(w.db, k)))
  {
    EnsurePairKeepsRows(w, k);
    if w.db.epoch in w.procs { EnsurePairKeepsLeader(w.db, w.procs[w.db.epoch], k); }
    hide AttemptsOk, SlotsOk, JobsOk, ProcsOk, TopupsOk, IncludedOnce;
  }

  lemma EnsurePairKeepsRows(w: World, k: Pair)
    requires AttemptsOk(w) && SlotsOk(w)
    ensures var w' := w.(db := Store.EnsurePair(w.db, k)); AttemptsOk(w') && SlotsOk(w')
  {
    var w' := w.(db := Store.EnsurePair(w.db, k));
    forall t | t in w'.db.attempts ensures AttemptOk(w', t) { assert AttemptOk(w, t); assert Impossible(w, t) ==> Impossible(w', t); }
    forall s | s in w'.db.slots ensures SlotOk(w', s) { assert SlotOk(w, s); }
  }

  // ---- Every step ----

  /** One step of anybody keeps the invariant. */
  lemma StepKeeps(w: World, a: Action)
    requires Inv(w) && CancelsOk(w) && Enabled(w, a)
    ensures Inv(Apply(w, a))
  {
    hide AttemptsOk, JobsOk, SlotsOk, LeaderOk, ProcsOk, ChainOk, TopupsOk, IncludedOnce;
    hide AfterBindFirst, AfterBindMore, AfterVoid, Store.Settle, Store.Confirm, Store.Demote, IntakeMoves;
    match a
    case AddJob(_, _) => IntakeStepMoves(w, a); IntakeKeeps(w, Apply(w, a).db);
    case AddTopup(_) => IntakeStepMoves(w, a); IntakeKeeps(w, Apply(w, a).db);
    case FailQueued(_) => IntakeStepMoves(w, a); IntakeKeeps(w, Apply(w, a).db);
    case RequeueFront(_) => IntakeStepMoves(w, a); IntakeKeeps(w, Apply(w, a).db);
    case FailTopup(_) => IntakeStepMoves(w, a); IntakeKeeps(w, Apply(w, a).db);
    case Acquire => AcquireKeeps(w);
    case Crash(e) => CrashKeeps(w, e);
    case BindFirst(e, tx, reported) => BindFirstKeeps(w, e, tx, reported);
    case BindMore(e, tx, kind, reported) => BindMoreKeeps(w, e, tx, kind, reported);
    case Send(e, k, tx) => SendKeeps(w, e, k, tx);
    case Accepted(e, k) => FewerFlights(w, e, Apply(w, a).procs[e]);
    case VoidUnused(e, k, tx, reported) => AfterVoidKeeps(w, e, k, tx, Store.NonceUnused, Store.Fail, reported);
    case VoidForeign(e, k, tx, reported) => AfterVoidKeeps(w, e, k, tx, Store.NonceTakenByForeignTx, Store.Requeue, reported);
    case EndFlight(e, k) => FewerFlights(w, e, Apply(w, a).procs[e]);
    case LoadLive(e, k) => LoadKeeps(w, e, k);
    case Resume(e, k, n, txs) => ResumeKeeps(w, e, k, n, txs);
    case RecoverDone(e, k, n) => RecoverDoneKeeps(w, e, k, n);
    case SettleInclusion(_, tx, inc, confirmNow) => InclusionKeeps(w, tx, inc, confirmNow);
    case SettleConfirmation(tx) => ConfirmKeeps(w, tx);
    case Demote(tx) => DemoteKeeps(w, tx);
    case Mine(_) => ChainStepKeeps(w, a);
    case MineForeign(_) => ChainStepKeeps(w, a);
    case Reorg(_) => ChainStepKeeps(w, a);
    case Finalize(_) => ChainStepKeeps(w, a);
    case Reject(_) => ChainStepKeeps(w, a);
  }
}
