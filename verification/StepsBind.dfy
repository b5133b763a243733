/** Claiming a nonce, adding attempts to it, and giving it back keep the invariant. */
module StepsBind {
  import opened Domain
  import opened World
  import opened Invariant
  import Store

  // ---- First bind ----

  ghost predicate Claims(w: World, e: nat, tx: Tx) {
    CanBindFirst(w, e, tx) && Store.Bind(w.db, e, tx, Store.First).1.Bound?
  }

  /** The tables a bind leaves behind, one by one. */
  lemma BindTables(db: Db, tx: Tx, kind: Store.BindKind)
    ensures var r := Store.AfterBind(db, tx, kind);
            && r.slots == (if kind.First? then db.slots[tx.slot := tx.owner] else db.slots)
            && r.attempts == db.attempts[tx := AttemptRow(AttemptStatus.Broadcast, true, 0, 0)]
            && r.pairs == Store.RaiseMark(db.pairs, tx.slot) && r.epoch == db.epoch
            && r.jobs == Store.JobsAfter(db.jobs, tx, Store.ToBound(kind)) && r.topups == Store.TopupsAfter(db.topups, tx, Store.ToBound(kind))
  {}

  lemma ClaimKeepsAttempt(w: World, e: nat, tx: Tx, t: Tx)
    requires AttemptsOk(w) && TopupsOk(w.db.topups, w.db.attempts) && ChainOk(w) && Claims(w, e, tx)
    requires t == tx || t in w.db.attempts
    ensures AttemptOk(w.(db := Store.AfterBind(w.db, tx, Store.First)), t)
  {
    hide Store.AfterBind;
    BindTables(w.db, tx, Store.First);
    if t != tx { assert AttemptOk(w, t); } else { ClaimedIsOk(w, e, tx); }
  }

  lemma ClaimedIsOk(w: World, e: nat, tx: Tx)
    requires ChainOk(w) && Claims(w, e, tx)
    ensures AttemptOk(w.(db := Store.AfterBind(w.db, tx, Store.First)), tx)
  {}

  lemma ClaimKeepsRows(w: World, e: nat, tx: Tx)
    requires AttemptsOk(w) && TopupsOk(w.db.topups, w.db.attempts) && ChainOk(w) && IncludedOnce(w.db.attempts) && Claims(w, e, tx)
    ensures var db := Store.AfterBind(w.db, tx, Store.First); AttemptsOk(w.(db := db)) && IncludedOnce(db.attempts)
  {
    var db := Store.AfterBind(w.db, tx, Store.First);
    forall t | t in db.attempts ensures AttemptOk(w.(db := db), t) { ClaimKeepsAttempt(w, e, tx, t); }
  }

  lemma ClaimKeepsJobs(w: World, e: nat, tx: Tx)
    requires AttemptsOk(w) && JobsOk(w.db.jobs, w.db.attempts) && Claims(w, e, tx)
    ensures var db := Store.AfterBind(w.db, tx, Store.First); JobsOk(db.jobs, db.attempts)
  {
    var db := Store.AfterBind(w.db, tx, Store.First);
    forall j | j in db.jobs ensures JobOk(db.jobs[j], db.attempts, j) {
      if tx.owner != Job(j) {
        assert JobOk(w.db.jobs[j], w.db.attempts, j);
        MoreAttemptsKeepJob(db.jobs[j], w.db.attempts, db.attempts, j);
      }
    }
  }

  lemma MoreAttemptsKeepJob(row: JobRow, attempts: Attempts, attempts': Attempts, j: nat)
    requires JobOk(row, attempts, j)
    requires forall t :: t in attempts ==> t in attempts' && attempts'[t] == attempts[t]
    ensures JobOk(row, attempts', j)
  {}

  lemma ClaimKeepsSlots(w: World, e: nat, tx: Tx)
    requires SlotsOk(w) && TopupsOk(w.db.topups, w.db.attempts) && Claims(w, e, tx) && tx.slot.pair in w.db.pairs
    requires forall t :: t in w.db.attempts ==> OwnerKnown(w.db.jobs, w.db.topups, t)
    ensures SlotsOk(w.(db := Store.AfterBind(w.db, tx, Store.First)))
  {
    hide Store.AfterBind;
    BindTables(w.db, tx, Store.First);
    var w' := w.(db := Store.AfterBind(w.db, tx, Store.First));
    forall s | s in w'.db.slots ensures SlotOk(w', s) {
      if s != tx.slot { assert SlotOk(w, s); }
    }
  }

  lemma ClaimKeepsLeader(w: World, e: nat, tx: Tx)
    requires LeaderOk(w.db, w.procs) && ProcsOk(w.procs, w.db.epoch, w.db.attempts.Keys) && Claims(w, e, tx)
    ensures LeaderOk(Store.AfterBind(w.db, tx, Store.First), w.procs)
  {
    hide Store.AfterBind;
    BindTables(w.db, tx, Store.First);
    var db := Store.AfterBind(w.db, tx, Store.First);
    var p := w.procs[e];
    forall k | k in p.flights ensures LeaderFlightOk(db, p, k) {
      assert LeaderFlightOk(w.db, p, k) && FlightOk(p, k);
    }
    forall k, t | k in p.walk && t in p.walk[k] ensures BoundHere(db.jobs, t) { assert BoundHere(w.db.jobs, t); }
    forall k | k in p.cursor ensures CursorOk(db, p, k) { assert CursorOk(w.db, p, k); }
  }

  /** Chain and processes only ask which attempts are stored, so a longer list will do. */
  lemma MoreStored(w: World, db: Db)
    requires ProcsOk(w.procs, w.db.epoch, w.db.attempts.Keys) && ChainOk(w) && db.epoch == w.db.epoch && w.db.attempts.Keys <= db.attempts.Keys
    ensures ProcsOk(w.procs, db.epoch, db.attempts.Keys) && ChainOk(w.(db := db))
  {
    forall e | e in w.procs ensures ProcOk(db.attempts.Keys, w.procs[e]) { assert ProcOk(w.db.attempts.Keys, w.procs[e]); }
  }

  lemma ClaimKeepsRest(w: World, e: nat, tx: Tx)
    requires TopupsOk(w.db.topups, w.db.attempts) && ProcsOk(w.procs, w.db.epoch, w.db.attempts.Keys) && ChainOk(w) && Claims(w, e, tx)
    requires forall t :: t in w.db.attempts ==> OwnerKnown(w.db.jobs, w.db.topups, t)
    ensures var db := Store.AfterBind(w.db, tx, Store.First);
            TopupsOk(db.topups, db.attempts) && ProcsOk(w.procs, db.epoch, db.attempts.Keys) && ChainOk(w.(db := db))
  {
    hide Store.AfterBind, ProcsOk, ChainOk;
    BindTables(w.db, tx, Store.First);
    MoreStored(w, Store.AfterBind(w.db, tx, Store.First));
  }

  lemma ClaimKeeps(w: World, e: nat, tx: Tx)
    requires Inv(w) && Claims(w, e, tx)
    ensures Inv(w.(db := Store.AfterBind(w.db, tx, Store.First)))
  {
    assert CursorOk(w.db, w.procs[e], tx.slot.pair);
    OwnersKnown(w);
    ClaimKeepsRows(w, e, tx);
    ClaimKeepsJobs(w, e, tx);
    ClaimKeepsSlots(w, e, tx);
    ClaimKeepsLeader(w, e, tx);
    ClaimKeepsRest(w, e, tx);
  }

  lemma OwnersKnown(w: World)
    requires AttemptsOk(w)
    ensures forall t :: t in w.db.attempts ==> OwnerKnown(w.db.jobs, w.db.topups, t)
  {}

  // ---- Replacement and cancel ----

  ghost predicate Adds(w: World, e: nat, tx: Tx, kind: Store.BindKind) {
    CanBindMore(w, e, tx, kind) && Store.Bind(w.db, e, tx, kind).1.Bound?
    && (tx.owner.Job? ==> !tx.purpose.ForTopup?) && (tx.owner.Topup? ==> !tx.purpose.ForJob?)
  }

  /** A new payload at a nonce in flight belongs to a job that is bound to that very nonce. */
  lemma PayloadIsBoundHere(w: World, e: nat, tx: Tx, kind: Store.BindKind)
    requires LeaderOk(w.db, w.procs) && ProcsOk(w.procs, w.db.epoch, w.db.attempts.Keys) && Adds(w, e, tx, kind)
    requires tx.Payload() && tx.owner.Job?
    ensures w.db.jobs[tx.owner.job].binding == Some(tx.slot)
  {}

  lemma AddKeepsAttempt(w: World, e: nat, tx: Tx, kind: Store.BindKind, t: Tx)
    requires AttemptsOk(w) && SlotsOk(w) && ChainOk(w) && Adds(w, e, tx, kind)
    requires tx.Payload() && tx.owner.Job? ==> w.db.jobs[tx.owner.job].binding == Some(tx.slot)
    requires t == tx || t in w.db.attempts
    ensures AttemptOk(w.(db := Store.AfterBind(w.db, tx, kind)), t)
  {
    if t != tx { AddKeepsOld(w, e, tx, kind, t); } else { AddedIsOk(w, e, tx, kind); }
  }

  lemma AddKeepsOld(w: World, e: nat, tx: Tx, kind: Store.BindKind, t: Tx)
    requires AttemptsOk(w) && Adds(w, e, tx, kind) && t != tx && t in w.db.attempts
    requires tx.Payload() && tx.owner.Job? ==> w.db.jobs[tx.owner.job].binding == Some(tx.slot)
    ensures AttemptOk(w.(db := Store.AfterBind(w.db, tx, kind)), t)
  {
    assert AttemptOk(w, t);
    hide Store.AfterBind, AttemptsOk, FitsFlight;
    BindTables(w.db, tx, kind);
  }

  lemma AddedIsOk(w: World, e: nat, tx: Tx, kind: Store.BindKind)
    requires SlotsOk(w) && ChainOk(w) && Adds(w, e, tx, kind)
    requires tx.Payload() && tx.owner.Job? ==> w.db.jobs[tx.owner.job].binding == Some(tx.slot)
    ensures AttemptOk(w.(db := Store.AfterBind(w.db, tx, kind)), tx)
  {
    hide Store.AfterBind;
    BindTables(w.db, tx, kind);
    assert SlotOk(w, tx.slot);
  }

  lemma AddKeepsRows(w: World, e: nat, tx: Tx, kind: Store.BindKind)
    requires AttemptsOk(w) && SlotsOk(w) && ChainOk(w) && IncludedOnce(w.db.attempts) && Adds(w, e, tx, kind)
    requires tx.Payload() && tx.owner.Job? ==> w.db.jobs[tx.owner.job].binding == Some(tx.slot)
    ensures var db := Store.AfterBind(w.db, tx, kind); AttemptsOk(w.(db := db)) && IncludedOnce(db.attempts)
  {
    var db := Store.AfterBind(w.db, tx, kind);
    forall t | t in db.attempts ensures AttemptOk(w.(db := db), t) { AddKeepsAttempt(w, e, tx, kind, t); }
  }

  lemma AddKeepsJobs(w: World, e: nat, tx: Tx, kind: Store.BindKind)
    requires JobsOk(w.db.jobs, w.db.attempts) && Adds(w, e, tx, kind)
    ensures var db := Store.AfterBind(w.db, tx, kind); JobsOk(db.jobs, db.attempts)
  {
    var db := Store.AfterBind(w.db, tx, kind);
    forall j | j in db.jobs ensures JobOk(db.jobs[j], db.attempts, j) {
      assert JobOk(w.db.jobs[j], w.db.attempts, j);
      if tx.owner != Job(j) { MoreAttemptsKeepJob(db.jobs[j], w.db.attempts, db.attempts, j); }
    }
  }

  lemma AddKeepsMarks(w: World, e: nat, tx: Tx, kind: Store.BindKind, k: Pair)
    requires SlotsOk(w) && Adds(w, e, tx, kind)
    ensures var pairs := Store.AfterBind(w.db, tx, kind).pairs;
            Mark(pairs, k) == Mark(w.db.pairs, k) && (k in pairs <==> k in w.db.pairs)
  {}

  lemma AddKeepsSlots(w: World, e: nat, tx: Tx, kind: Store.BindKind)
    requires SlotsOk(w) && ProcsOk(w.procs, w.db.epoch, w.db.attempts.Keys) && Adds(w, e, tx, kind)
    ensures SlotsOk(w.(db := Store.AfterBind(w.db, tx, kind)))
  {
    hide Store.AfterBind;
    BindTables(w.db, tx, kind);
    var w' := w.(db := Store.AfterBind(w.db, tx, kind));
    var p := w.procs[e];
    assert FlightOk(p, tx.slot.pair);
    var u :| u in p.flights[tx.slot.pair].attempts;
    forall s | s in w'.db.slots ensures SlotOk(w', s) {
      assert SlotOk(w, s) && u in w.db.attempts;
      AddKeepsMarks(w, e, tx, kind, s.pair);
    }
  }

  lemma AddKeepsLeader(w: World, e: nat, tx: Tx, kind: Store.BindKind)
    requires LeaderOk(w.db, w.procs) && SlotsOk(w) && Adds(w, e, tx, kind)
    ensures LeaderOk(Store.AfterBind(w.db, tx, kind), w.procs)
  {
    var db := Store.AfterBind(w.db, tx, kind);
    var p := w.procs[e];
    forall k | k in p.flights ensures LeaderFlightOk(db, p, k) {
      assert LeaderFlightOk(w.db, p, k);
      AddKeepsMarks(w, e, tx, kind, k);
      forall t | t in p.flights[k].attempts ensures DrivenHere(db.jobs, t) { assert DrivenHere(w.db.jobs, t); }
    }
    forall k, t | k in p.walk && t in p.walk[k] ensures BoundHere(db.jobs, t) { assert BoundHere(w.db.jobs, t); }
    forall k | k in p.cursor ensures CursorOk(db, p, k) {
      assert CursorOk(w.db, p, k);
      AddKeepsMarks(w, e, tx, kind, k);
    }
  }

  lemma AddKeepsTopups(w: World, e: nat, tx: Tx, kind: Store.BindKind)
    requires TopupsOk(w.db.topups, w.db.attempts) && ProcsOk(w.procs, w.db.epoch, w.db.attempts.Keys) && Adds(w, e, tx, kind)
    ensures var db := Store.AfterBind(w.db, tx, kind); TopupsOk(db.topups, db.attempts)
  {
    hide Store.AfterBind;
    BindTables(w.db, tx, kind);
    var p := w.procs[e];
    assert FlightOk(p, tx.slot.pair);
    var u :| u in p.flights[tx.slot.pair].attempts;
    assert u in w.db.attempts && u.owner == tx.owner && u.slot == tx.slot;
  }

  lemma AddKeepsRest(w: World, e: nat, tx: Tx, kind: Store.BindKind)
    requires TopupsOk(w.db.topups, w.db.attempts) && ProcsOk(w.procs, w.db.epoch, w.db.attempts.Keys) && ChainOk(w) && Adds(w, e, tx, kind)
    ensures var db := Store.AfterBind(w.db, tx, kind);
            TopupsOk(db.topups, db.attempts) && ProcsOk(w.procs, db.epoch, db.attempts.Keys) && ChainOk(w.(db := db))
  {
    AddKeepsTopups(w, e, tx, kind);
    hide Store.AfterBind, TopupsOk, ProcsOk, ChainOk;
    BindTables(w.db, tx, kind);
    MoreStored(w, Store.AfterBind(w.db, tx, kind));
  }

  lemma AddKeeps(w: World, e: nat, tx: Tx, kind: Store.BindKind)
    requires Inv(w) && Adds(w, e, tx, kind)
    ensures Inv(w.(db := Store.AfterBind(w.db, tx, kind)))
  {
    if tx.Payload() && tx.owner.Job? { PayloadIsBoundHere(w, e, tx, kind); }
    AddKeepsRows(w, e, tx, kind);
    AddKeepsJobs(w, e, tx, kind);
    AddKeepsSlots(w, e, tx, kind);
    AddKeepsLeader(w, e, tx, kind);
    AddKeepsRest(w, e, tx, kind);
  }
}
