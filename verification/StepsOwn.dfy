/** Ownership of a nonce survives every step but one: a stateless-reject void over an inclusion recorded at that nonce. */
module StepsOwn {
  import opened Domain
  import opened World
  import opened Invariant
  import StepsBind
  import StepsEnv
  import StepsMined
  import StepsVoid
  import Store

  /** The void gives the slot away although an attempt there was recorded as mined, or as having lost to one. */
  ghost predicate Tears(w: World, a: Action) {
    a.VoidUnused? && a.e == w.db.epoch && !NothingSettled(w.db.attempts, a.tx.slot, a.tx.owner)
  }

  // ---- Slots ----

  lemma BindKeepsSlotsOwned(db: Db, e: nat, tx: Tx, kind: Store.BindKind, torn: set<Slot>)
    requires SlotsOwned(db.attempts, db.slots, torn)
    ensures var db' := Store.Bind(db, e, tx, kind).0; SlotsOwned(db'.attempts, db'.slots, torn)
  {
    hide Store.PutOwner, Store.OwnerMoves;
  }

  lemma MinedKeepsSlotsOwned(db: Db, tx: Tx, inc: Inclusion, confirmNow: bool, torn: set<Slot>)
    requires SlotsOwned(db.attempts, db.slots, torn)
    ensures var db' := Store.Settle(db, tx, inc, confirmNow, false).0; SlotsOwned(db'.attempts, db'.slots, torn)
  {
    hide Store.PutOwner, Store.SlotMinedByOther, Store.InclusionFits, Store.AfterInclusion, Store.Confirm, SlotsOwned;
    if tx in db.attempts && db.attempts[tx].status.Broadcast? {
      InclusionKeepsSlotsOwned(db, tx, inc, torn);
      VerdictKeepsSlotsOwned(Store.AfterInclusion(db, tx, inc, false), tx, torn);
    }
  }

  lemma InclusionKeepsSlotsOwned(db: Db, tx: Tx, inc: Inclusion, torn: set<Slot>)
    requires SlotsOwned(db.attempts, db.slots, torn) && tx in db.attempts && db.attempts[tx].status.Broadcast?
    ensures var included := Store.AfterInclusion(db, tx, inc, false); SlotsOwned(included.attempts, included.slots, torn)
  {
    hide Store.PutOwner, Store.AddGas;
  }

  lemma VerdictKeepsSlotsOwned(db: Db, tx: Tx, torn: set<Slot>)
    requires SlotsOwned(db.attempts, db.slots, torn)
    ensures var db' := Store.Confirm(db, tx).0; SlotsOwned(db'.attempts, db'.slots, torn)
    ensures var db' := Store.Demote(db, tx).0; SlotsOwned(db'.attempts, db'.slots, torn)
  {
    hide Store.PutOwner;
  }

  /** Safe if the slot is the owner's and all its attempts there are dropped with it. */
  lemma VoidKeepsSlotsOwned(db: Db, e: nat, tx: Tx, mode: Store.VoidMode, d: Store.Disposition, torn: set<Slot>)
    requires SlotsOwned(db.attempts, db.slots, torn) && (tx.slot in db.slots ==> db.slots[tx.slot] == tx.owner)
    requires mode.NonceUnused? && e == db.epoch && tx.slot !in torn ==> NothingSettled(db.attempts, tx.slot, tx.owner)
    ensures var db' := Store.Void(db, e, tx, mode, d).0; SlotsOwned(db'.attempts, db'.slots, torn)
  {
    hide Store.PutOwner;
  }

  // ---- Jobs ----

  lemma BindKeepsCarried(db: Db, e: nat, tx: Tx, kind: Store.BindKind, torn: set<Slot>)
    requires OwnedBut(db, torn) && (kind.Cancel? <==> !tx.Payload())
    ensures var db' := Store.Bind(db, e, tx, kind).0; JobsCarried(db'.jobs, db'.attempts, torn)
  {
    if Store.Bind(db, e, tx, kind).1.Bound? {
      StepsBind.BindTables(db, tx, kind);
      hide Store.AfterBind;
      var db' := Store.AfterBind(db, tx, kind);
      forall j | j in db'.jobs && db'.jobs[j].status.Bindable() ensures Kept(db'.jobs[j], db'.attempts, j, torn) {
        if tx.owner == Job(j) && kind.First? {
          assert Carries(db'.jobs[j], db'.attempts, j, tx);
        } else {
          assert Kept(db.jobs[j], db.attempts, j, torn);
          if u :| Carries(db.jobs[j], db.attempts, j, u) { assert u.slot !in torn ==> Carries(db'.jobs[j], db'.attempts, j, u); }
        }
      }
    }
  }

  lemma InclusionKeepsCarried(w: World, tx: Tx, inc: Inclusion, torn: set<Slot>)
    requires OwnedBut(w.db, torn) && AttemptsOk(w) && tx in w.db.attempts && w.db.attempts[tx].status.Broadcast?
    requires !Store.SlotMinedByOther(w.db.attempts, tx) && Store.InclusionFits(w.db.jobs, tx)
    ensures var db := Store.AfterInclusion(w.db, tx, inc, false); JobsCarried(db.jobs, db.attempts, torn)
  {
    hide Store.PutOwner;
    var db, db' := w.db, Store.AfterInclusion(w.db, tx, inc, false);
    assert AttemptOk(w, tx);
    hide AttemptsOk;
    forall j | j in db'.jobs && db'.jobs[j].status.Bindable() ensures Kept(db'.jobs[j], db'.attempts, j, torn) {
      assert Kept(db.jobs[j], db.attempts, j, torn);
      if u :| Carries(db.jobs[j], db.attempts, j, u) { assert u.slot !in torn ==> Carries(db'.jobs[j], db'.attempts, j, if u.slot == tx.slot then tx else u); }
    }
  }

  lemma ConfirmKeepsCarried(w: World, tx: Tx, torn: set<Slot>)
    requires OwnedBut(w.db, torn) && AttemptsOk(w)
    ensures var db := Store.Confirm(w.db, tx).0; JobsCarried(db.jobs, db.attempts, torn)
  {
    if tx in w.db.attempts && w.db.attempts[tx].status.Included? {
      hide Store.PutOwner;
      var db, db' := w.db, Store.Confirm(w.db, tx).0;
      assert AttemptOk(w, tx);
      hide AttemptsOk;
      forall j | j in db'.jobs && db'.jobs[j].status.Bindable() ensures Kept(db'.jobs[j], db'.attempts, j, torn) {
        assert Kept(db.jobs[j], db.attempts, j, torn);
        if u :| Carries(db.jobs[j], db.attempts, j, u) { assert u.slot !in torn ==> Carries(db'.jobs[j], db'.attempts, j, u); }
      }
    }
  }

  lemma DemoteKeepsCarried(w: World, tx: Tx, torn: set<Slot>)
    requires OwnedBut(w.db, torn) && AttemptsOk(w)
    ensures var db := Store.Demote(w.db, tx).0; JobsCarried(db.jobs, db.attempts, torn)
  {
    if tx in w.db.attempts && w.db.attempts[tx].status.Included? {
      hide Store.PutOwner;
      var db, db' := w.db, Store.Demote(w.db, tx).0;
      assert AttemptOk(w, tx);
      hide AttemptsOk;
      forall j | j in db'.jobs && db'.jobs[j].status.Bindable() ensures Kept(db'.jobs[j], db'.attempts, j, torn) {
        if db.jobs[j].status.Bindable() {
          assert Kept(db.jobs[j], db.attempts, j, torn);
          if u :| Carries(db.jobs[j], db.attempts, j, u) { assert u.slot !in torn ==> Carries(db'.jobs[j], db'.attempts, j, u); }
        } else {
          assert Carries(db'.jobs[j], db'.attempts, j, tx);
        }
      }
    }
  }

  lemma VoidKeepsCarried(db: Db, e: nat, tx: Tx, mode: Store.VoidMode, d: Store.Disposition, torn: set<Slot>)
    requires OwnedBut(db, torn) && (tx.slot in db.slots ==> db.slots[tx.slot] == tx.owner)
    ensures var db' := Store.Void(db, e, tx, mode, d).0; JobsCarried(db'.jobs, db'.attempts, torn)
  {
    if e == db.epoch {
      hide Store.PutOwner;
      var db' := Store.Void(db, e, tx, mode, d).0;
      forall j | j in db'.jobs && db'.jobs[j].status.Bindable() ensures Kept(db'.jobs[j], db'.attempts, j, torn) {
        assert Kept(db.jobs[j], db.attempts, j, torn);
        if u :| Carries(db.jobs[j], db.attempts, j, u) { assert u.slot !in torn ==> Carries(db'.jobs[j], db'.attempts, j, u); }
      }
    }
  }

  lemma IntakeKeepsOwned(db: Db, db': Db, torn: set<Slot>)
    requires OwnedBut(db, torn) && StepsEnv.IntakeMoves(db, db')
    requires forall t :: t in db.attempts && t.owner.Job? ==> t.owner.job in db.jobs
    requires forall j :: j in db.jobs && db.jobs[j].status.Queued? ==> db.jobs[j].binding.None?
    ensures OwnedBut(db', torn)
  {
    forall j | j in db'.jobs && db'.jobs[j].status.Bindable() ensures Kept(db'.jobs[j], db'.attempts, j, torn) {
      assert Kept(db.jobs[j], db.attempts, j, torn);
      if u :| Carries(db.jobs[j], db.attempts, j, u) { assert u.slot !in torn ==> Carries(db'.jobs[j], db'.attempts, j, u); }
    }
  }

  // ---- Every step ----

  lemma VoidKeepsOwned(w: World, a: Action, torn: set<Slot>)
    requires Inv(w) && OwnedBut(w.db, torn) && Enabled(w, a) && (a.VoidUnused? || a.VoidForeign?) && (Tears(w, a) ==> a.tx.slot in torn)
    ensures OwnedBut(DbAfter(w.db, a), torn)
  {
    hide AttemptsOk, JobsOk, SlotsOk, LeaderOk, ChainOk, TopupsOk, IncludedOnce, ProcsOk, SlotsOwned, JobsCarried, Store.Void;
    if a.e == w.db.epoch {
      StepsVoid.FlightFacts(w, a.e, a.k, a.tx);
      var mode, d := if a.VoidUnused? then Store.NonceUnused else Store.NonceTakenByForeignTx, if a.VoidUnused? then Store.Fail else Store.Requeue;
      VoidKeepsSlotsOwned(w.db, a.e, a.tx, mode, d, torn);
      VoidKeepsCarried(w.db, a.e, a.tx, mode, d, torn);
    } else {
      StaleVoid(w.db, a.e, a.tx);
    }
  }

  lemma StaleVoid(db: Db, e: nat, tx: Tx)
    requires e != db.epoch
    ensures forall mode, d :: Store.Void(db, e, tx, mode, d).0 == db
  {}

  lemma SettleKeepsOwned(w: World, tx: Tx, inc: Inclusion, confirmNow: bool, torn: set<Slot>)
    requires Inv(w) && OwnedBut(w.db, torn) && tx in w.mined && (confirmNow ==> FinalOurs(w, tx))
    ensures OwnedBut(Store.Settle(w.db, tx, inc, confirmNow, false).0, torn)
  {
    MinedKeepsSlotsOwned(w.db, tx, inc, confirmNow, torn);
    if StepsMined.CanInclude(w, tx) {
      MinedKeepsSlotsOwned(w.db, tx, inc, false, torn);
      StepsMined.InclusionOnlyKeeps(w, tx, inc, false);
      hide Inv, SlotsOwned, JobsCarried, Store.AfterInclusion, Store.Confirm;
      IncludingKeepsOwned(w, tx, inc, torn);
      var w1 := w.(db := Store.AfterInclusion(w.db, tx, inc, false));
      ConfirmingKeepsOwned(w1, tx, torn);
    }
  }

  lemma IncludingKeepsOwned(w: World, tx: Tx, inc: Inclusion, torn: set<Slot>)
    requires Inv(w) && OwnedBut(w.db, torn) && StepsMined.CanInclude(w, tx)
    ensures OwnedBut(Store.AfterInclusion(w.db, tx, inc, false), torn)
  {
    hide SlotsOk, LeaderOk, ChainOk, TopupsOk, IncludedOnce, ProcsOk, JobsCarried, Store.PutOwner;
    InclusionKeepsCarried(w, tx, inc, torn);
    assert Store.AfterInclusion(w.db, tx, inc, false).attempts == Store.IncludedAttempts(w.db.attempts, tx, inc);
  }

  lemma ConfirmingKeepsOwned(w: World, tx: Tx, torn: set<Slot>)
    requires Inv(w) && OwnedBut(w.db, torn)
    ensures OwnedBut(Store.Confirm(w.db, tx).0, torn)
  {
    hide AttemptsOk, JobsOk, SlotsOk, LeaderOk, ChainOk, TopupsOk, IncludedOnce, ProcsOk, SlotsOwned, JobsCarried, Store.Confirm;
    VerdictKeepsSlotsOwned(w.db, tx, torn);
    ConfirmKeepsCarried(w, tx, torn);
  }

  lemma OwnersInTables(w: World)
    requires AttemptsOk(w) && JobsOk(w.db.jobs, w.db.attempts)
    ensures forall t :: t in w.db.attempts && t.owner.Job? ==> t.owner.job in w.db.jobs
    ensures forall j :: j in w.db.jobs && w.db.jobs[j].status.Queued? ==> w.db.jobs[j].binding.None?
  {
    forall t | t in w.db.attempts && t.owner.Job? ensures t.owner.job in w.db.jobs { assert AttemptOk(w, t); }
    forall j | j in w.db.jobs && w.db.jobs[j].status.Queued? ensures w.db.jobs[j].binding.None? { assert JobOk(w.db.jobs[j], w.db.attempts, j); }
  }

  lemma BindKeepsOwned(w: World, a: Action, torn: set<Slot>)
    requires OwnedBut(w.db, torn) && Enabled(w, a) && (a.BindFirst? || a.BindMore?)
    ensures OwnedBut(DbAfter(w.db, a), torn)
  {
    var kind := if a.BindFirst? then Store.First else a.kind;
    hide Store.Bind, SlotsOwned, JobsCarried;
    BindKeepsSlotsOwned(w.db, a.e, a.tx, kind, torn);
    BindKeepsCarried(w.db, a.e, a.tx, kind, torn);
  }

  lemma SettleGuard(w: World, a: Action)
    requires Enabled(w, a) && a.SettleInclusion?
    ensures a.tx in w.mined && (a.confirmNow ==> FinalOurs(w, a.tx))
  {}

  /** What a step adds to the nonces that ownership is not promised for. */
  ghost function TornAt(w: World, a: Action): set<Slot> { if Tears(w, a) then {a.tx.slot} else {} }

  /** Every step keeps ownership of all nonces but the one it tears. */
  lemma OwnStep(w: World, a: Action, torn: set<Slot>)
    requires Inv(w) && OwnedBut(w.db, torn) && Enabled(w, a)
    ensures OwnedBut(Apply(w, a).db, torn + TornAt(w, a))
  {
    MoreTorn(w.db, torn, torn + TornAt(w, a));
    OwnStepBut(w, a, torn + TornAt(w, a));
  }

  lemma MoreTorn(db: Db, torn: set<Slot>, torn': set<Slot>)
    requires OwnedBut(db, torn) && torn <= torn'
    ensures OwnedBut(db, torn')
  {
    forall j | j in db.jobs && db.jobs[j].status.Bindable() ensures Kept(db.jobs[j], db.attempts, j, torn') { assert Kept(db.jobs[j], db.attempts, j, torn); }
  }

  lemma OwnStepBut(w: World, a: Action, torn: set<Slot>)
    requires Inv(w) && OwnedBut(w.db, torn) && Enabled(w, a) && (Tears(w, a) ==> a.tx.slot in torn)
    ensures OwnedBut(Apply(w, a).db, torn)
  {
    hide Apply, Enabled, AttemptsOk, JobsOk, SlotsOk, LeaderOk, ChainOk, TopupsOk, IncludedOnce, ProcsOk, SlotsOwned, JobsCarried, Tears, StepsEnv.IntakeMoves;
    hide Store.PutJob, Store.Bind, Store.Settle, Store.Confirm, Store.Demote, Store.Void;
    TablesFollow(w, a);
    match a
    case BindFirst(_, _, _) => BindKeepsOwned(w, a, torn);
    case BindMore(_, _, _, _) => BindKeepsOwned(w, a, torn);
    case VoidUnused(_, _, _, _) => VoidKeepsOwned(w, a, torn);
    case VoidForeign(_, _, _, _) => VoidKeepsOwned(w, a, torn);
    case SettleInclusion(_, tx, inc, confirmNow) => SettleGuard(w, a); SettleKeepsOwned(w, tx, inc, confirmNow, torn);
    case SettleConfirmation(tx) => ConfirmingKeepsOwned(w, tx, torn);
    case Demote(tx) => VerdictKeepsSlotsOwned(w.db, tx, torn); DemoteKeepsCarried(w, tx, torn);
    case AddJob(_, _) => OwnersInTables(w); StepsEnv.IntakeStepMoves(w, a); IntakeKeepsOwned(w.db, Apply(w, a).db, torn);
    case FailQueued(_) => OwnersInTables(w); StepsEnv.IntakeStepMoves(w, a); IntakeKeepsOwned(w.db, Apply(w, a).db, torn);
    case RequeueFront(_) => OwnersInTables(w); StepsEnv.IntakeStepMoves(w, a); IntakeKeepsOwned(w.db, Apply(w, a).db, torn);
    case _ =>
  }
}
