/** Undoing a binding keeps the invariant, for both verdicts a driver may reach. */
module StepsVoid {
  import opened Domain
  import opened World
  import opened Invariant
  import Store

  /** The facts about the flight that both kinds of void rest on. */
  ghost predicate Undoes(w: World, e: nat, k: Pair, tx: Tx) {
    && e == w.db.epoch && CanVoid(w, e, k, tx)
    && tx.slot.pair == k
    && k !in w.procs[e].walk && k in w.procs[e].cursor && w.procs[e].cursor[k] == tx.slot.nonce + 1
    && (if tx.slot in w.db.slots then w.db.slots[tx.slot] == tx.owner && Mark(w.db.pairs, k) == tx.slot.nonce
        else Mark(w.db.pairs, k) < tx.slot.nonce)
    && (tx.owner.Job? ==>
          && tx.owner.job in w.db.jobs
          && var row := w.db.jobs[tx.owner.job];
             row.status.Queued? || (row.status.Failed? && row.binding.None?) || row.binding == Some(tx.slot))
  }

  lemma FlightFacts(w: World, e: nat, k: Pair, tx: Tx)
    requires LeaderOk(w.db, w.procs) && ProcsOk(w.procs, w.db.epoch, w.db.attempts.Keys)
    requires e == w.db.epoch && CanVoid(w, e, k, tx)
    ensures Undoes(w, e, k, tx) && tx in w.db.attempts
  {}

  /** What the two verdicts rest on; for a foreign void the nonce is gone for good, and not to a cancel of the owner. */
  ghost predicate VerdictHolds(w: World, tx: Tx, mode: Store.VoidMode, d: Store.Disposition) {
    if mode.NonceUnused? then d.Fail?
    else
      && d.Requeue? && tx.slot in w.final && tx.slot in w.chain
      && forall t :: t in Overlooked(w, tx) && !t.Payload() ==> w.db.attempts[t].status.Dropped?
  }

  /** Each attempt of the owner here is impossible from now on, or recorded as given up alive. */
  lemma VoidSettlesTheNonce(w: World, e: nat, k: Pair, tx: Tx, mode: Store.VoidMode, d: Store.Disposition, t: Tx)
    requires AttemptsOk(w) && ChainOk(w) && Undoes(w, e, k, tx) && VerdictHolds(w, tx, mode, d)
    requires t in w.db.attempts && t.slot == tx.slot && t.owner == tx.owner
    ensures var w' := Voided(w, e, tx, mode, d); Impossible(w', t) || t in w'.escaped || t in w'.missed || (mode.NonceUnused? && !t.Payload())
  {
    assert AttemptOk(w, t);
  }

  lemma VoidKeepsOthers(w: World, e: nat, k: Pair, tx: Tx, mode: Store.VoidMode, d: Store.Disposition, t: Tx)
    requires AttemptsOk(w) && Undoes(w, e, k, tx) && VerdictHolds(w, tx, mode, d)
    requires t in w.db.attempts && t.owner != tx.owner
    ensures AttemptOk(Voided(w, e, tx, mode, d), t)
  {
    hide Store.PutOwner;
    assert AttemptOk(w, t);
    var w' := Voided(w, e, tx, mode, d);
    if Impossible(w, t) { assert Impossible(w', t); }
    assert t.owner.Job? ==> w'.db.jobs[t.owner.job] == w.db.jobs[t.owner.job];
    assert t.owner.Topup? ==> w'.db.topups[t.owner.topup] == w.db.topups[t.owner.topup];
  }

  lemma VoidKeepsAttempt(w: World, e: nat, k: Pair, tx: Tx, mode: Store.VoidMode, d: Store.Disposition, t: Tx)
    requires AttemptsOk(w) && TopupsOk(w.db.topups, w.db.attempts) && ChainOk(w) && Undoes(w, e, k, tx) && VerdictHolds(w, tx, mode, d)
    requires t in w.db.attempts && tx in w.db.attempts
    ensures AttemptOk(Voided(w, e, tx, mode, d), t)
  {
    assert AttemptOk(w, t);
    if t.owner != tx.owner {
      VoidKeepsOthers(w, e, k, tx, mode, d, t);
    } else if t.slot == tx.slot {
      VoidKeepsHere(w, e, k, tx, mode, d, t);
    } else {
      VoidKeepsElsewhere(w, e, k, tx, mode, d, t);
    }
  }

  lemma VoidKeepsHere(w: World, e: nat, k: Pair, tx: Tx, mode: Store.VoidMode, d: Store.Disposition, t: Tx)
    requires AttemptsOk(w) && ChainOk(w) && Undoes(w, e, k, tx) && VerdictHolds(w, tx, mode, d)
    requires t in w.db.attempts && t.slot == tx.slot && t.owner == tx.owner
    ensures AttemptOk(Voided(w, e, tx, mode, d), t)
  {
    hide Store.PutOwner;
    assert AttemptOk(w, t);
    var w' := Voided(w, e, tx, mode, d);
    if Impossible(w, t) { assert Impossible(w', t); }
    VoidSettlesTheNonce(w, e, k, tx, mode, d, t);
  }

  lemma VoidKeepsElsewhere(w: World, e: nat, k: Pair, tx: Tx, mode: Store.VoidMode, d: Store.Disposition, t: Tx)
    requires AttemptsOk(w) && TopupsOk(w.db.topups, w.db.attempts) && Undoes(w, e, k, tx) && VerdictHolds(w, tx, mode, d)
    requires t in w.db.attempts && tx in w.db.attempts && t.slot != tx.slot && t.owner == tx.owner
    ensures AttemptOk(Voided(w, e, tx, mode, d), t)
  {
    hide Store.PutOwner;
    assert AttemptOk(w, t);
    assert tx.owner.Job?;
  }

  lemma VoidKeepsRows(w: World, e: nat, k: Pair, tx: Tx, mode: Store.VoidMode, d: Store.Disposition)
    requires AttemptsOk(w) && IncludedOnce(w.db.attempts) && TopupsOk(w.db.topups, w.db.attempts) && ChainOk(w)
    requires Undoes(w, e, k, tx) && VerdictHolds(w, tx, mode, d) && tx in w.db.attempts
    ensures var w' := Voided(w, e, tx, mode, d); AttemptsOk(w') && IncludedOnce(w'.db.attempts)
  {
    var w' := Voided(w, e, tx, mode, d);
    forall t | t in w'.db.attempts ensures AttemptOk(w', t) { VoidKeepsAttempt(w, e, k, tx, mode, d, t); }
  }

  lemma VoidKeepsJob(w: World, e: nat, k: Pair, tx: Tx, mode: Store.VoidMode, d: Store.Disposition, j: nat)
    requires AttemptsOk(w) && j in w.db.jobs && JobOk(w.db.jobs[j], w.db.attempts, j)
    requires Undoes(w, e, k, tx) && VerdictHolds(w, tx, mode, d)
    ensures var db := Voided(w, e, tx, mode, d).db; j in db.jobs && JobOk(db.jobs[j], db.attempts, j)
  {
    hide Store.PutOwner;
    var db := Voided(w, e, tx, mode, d).db;
    var row, row' := w.db.jobs[j], db.jobs[j];
    if row'.status.Included? {
      var u :| u in w.db.attempts && PayloadOf(u, j) && w.db.attempts[u].status.Included?;
      assert db.attempts[u].status.Included?;
    } else if row'.status.Confirmed? {
      var u :| u in w.db.attempts && PayloadOf(u, j) && w.db.attempts[u].status.Confirmed?;
      assert db.attempts[u].status.Confirmed?;
    }
  }

  lemma VoidKeepsSlots(w: World, e: nat, k: Pair, tx: Tx, mode: Store.VoidMode, d: Store.Disposition)
    requires SlotsOk(w) && Undoes(w, e, k, tx) && VerdictHolds(w, tx, mode, d)
    ensures SlotsOk(Voided(w, e, tx, mode, d))
  {
    hide Store.PutOwner;
    var w' := Voided(w, e, tx, mode, d);
    forall s | s in w'.db.slots ensures SlotOk(w', s) { assert SlotOk(w, s); }
  }

  lemma VoidKeepsFlight(w: World, e: nat, k: Pair, tx: Tx, mode: Store.VoidMode, d: Store.Disposition, k': Pair)
    requires Undoes(w, e, k, tx) && VerdictHolds(w, tx, mode, d)
    requires k' in w.procs[e].flights && LeaderFlightOk(w.db, w.procs[e], k') && FlightOk(w.procs[e], k')
    requires k in w.procs[e].flights && FlightOk(w.procs[e], k)
    ensures LeaderFlightOk(Voided(w, e, tx, mode, d).db, w.procs[e], k')
  {}

  lemma VoidKeepsLeader(w: World, e: nat, k: Pair, tx: Tx, mode: Store.VoidMode, d: Store.Disposition)
    requires LeaderOk(w.db, w.procs) && ProcsOk(w.procs, w.db.epoch, w.db.attempts.Keys)
    requires Undoes(w, e, k, tx) && VerdictHolds(w, tx, mode, d)
    ensures LeaderOk(Voided(w, e, tx, mode, d).db, w.procs)
  {
    hide Store.PutOwner;
    var db := Voided(w, e, tx, mode, d).db;
    var p := w.procs[e];
    assert FlightOk(p, k);
    forall k' | k' in p.flights ensures LeaderFlightOk(db, p, k') { VoidKeepsFlight(w, e, k, tx, mode, d, k'); }
    forall k', t | k' in p.walk && t in p.walk[k'] ensures BoundHere(db.jobs, t) {
      assert BoundHere(w.db.jobs, t) && WalkOk(p, k');
    }
    forall k' | k' in p.cursor ensures CursorOk(db, p, k') { assert CursorOk(w.db, p, k'); }
  }

  lemma VoidKeepsRest(w: World, e: nat, tx: Tx, mode: Store.VoidMode, d: Store.Disposition)
    requires TopupsOk(w.db.topups, w.db.attempts) && ProcsOk(w.procs, w.db.epoch, w.db.attempts.Keys) && ChainOk(w)
    requires !mode.NonceUnused? ==> tx.slot in w.final && tx.slot in w.chain
    ensures var w' := Voided(w, e, tx, mode, d);
            TopupsOk(w'.db.topups, w'.db.attempts) && ProcsOk(w'.procs, w'.db.epoch, w'.db.attempts.Keys) && ChainOk(w')
  {
    hide Store.PutOwner;
  }

  lemma VoidKeepsJobs(w: World, e: nat, k: Pair, tx: Tx, mode: Store.VoidMode, d: Store.Disposition)
    requires AttemptsOk(w) && JobsOk(w.db.jobs, w.db.attempts) && Undoes(w, e, k, tx) && VerdictHolds(w, tx, mode, d)
    ensures var db := Voided(w, e, tx, mode, d).db; JobsOk(db.jobs, db.attempts)
  {
    var db := Voided(w, e, tx, mode, d).db;
    forall j | j in db.jobs ensures JobOk(db.jobs[j], db.attempts, j) { VoidKeepsJob(w, e, k, tx, mode, d, j); }
  }

  /** An untracked cancel of the owner that holds the nonce is not in play any more. */
  lemma VerdictsHold(w: World, e: nat, k: Pair, tx: Tx)
    requires ProcsOk(w.procs, w.db.epoch, w.db.attempts.Keys) && ChainOk(w) && CancelsOk(w) && e == w.db.epoch && CanVoid(w, e, k, tx)
    ensures VerdictHolds(w, tx, Store.NonceUnused, Store.Fail)
    ensures TakenByOther(w, w.procs[e].flights[k], tx.slot) ==> VerdictHolds(w, tx, Store.NonceTakenByForeignTx, Store.Requeue)
  {
    assert FlightOk(w.procs[e], k);
    if TakenByOther(w, w.procs[e].flights[k], tx.slot) {
      forall t | t in Overlooked(w, tx) && !t.Payload() ensures w.db.attempts[t].status.Dropped? {
        assert UnknownCancel(w, k, t) && !Impossible(w, t);
      }
    }
  }

  lemma VoidKeeps(w: World, e: nat, k: Pair, tx: Tx, mode: Store.VoidMode, d: Store.Disposition)
    requires Inv(w) && CancelsOk(w) && CanVoid(w, e, k, tx)
    requires if mode.NonceUnused? then d.Fail? else d.Requeue? && TakenByOther(w, w.procs[e].flights[k], tx.slot)
    ensures Inv(Voided(w, e, tx, mode, d))
  {
    if e == w.db.epoch {
      FlightFacts(w, e, k, tx);
      VerdictsHold(w, e, k, tx);
      VoidKeepsRows(w, e, k, tx, mode, d);
      VoidKeepsJobs(w, e, k, tx, mode, d);
      VoidKeepsSlots(w, e, k, tx, mode, d);
      VoidKeepsLeader(w, e, k, tx, mode, d);
      VoidKeepsRest(w, e, tx, mode, d);
    }
  }
}
