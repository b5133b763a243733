/**
 Where the code promises more than it keeps, each with the exact condition under which it does keep it.

 1. A `Deterministic` answer condemns the bytes just sent, but the void it triggers gives up every attempt
    at the nonce. `never_accepted` survives an indeterminate answer and a fee replacement, so an earlier
    attempt may still be in a pool: the job is failed and its payload is mined afterwards.
 2. "Nonce too low" makes the driver look for receipts of the attempts it tracks. An attempt whose commit it
    was never told of may have been picked up, sent and mined by a zombie: the job is requeued and executes
    a second time.
 3. The void on a stateless reject deletes the slot without looking for an included attempt. If a zombie has
    recorded one, the nonce is given away although it is used up.
 4. A top-up does not look at the purpose of the attempt that was mined: a confirmed cancel marks it
    confirmed although nothing was transferred.
 */
module Findings {
  import opened Domain
  import opened World
  import opened Invariant
  import StepsEnv
  import StepsVoid
  import Safety
  import Store

  // ---- 1. Voiding on a stateless reject ----

  /** Every payload the driver tracks at the nonce was itself rejected. */
  ghost predicate AllTrackedRejected(w: World, f: Flight) {
    forall t :: t in f.attempts && t.Payload() ==> t in w.dead
  }

  /** No other process has a payload for the nonce in hand, or it was rejected as well. */
  ghost predicate NobodyElseHolds(w: World, f: Flight, s: Slot) {
    forall t :: t in w.db.attempts && t.slot == s && t.owner == f.owner && t.Payload() && t !in f.attempts ==> t in w.dead || Unheld(w, t)
  }

  ghost predicate NoPayloadSurvivesAt(w: World, s: Slot, j: nat) {
    forall t :: t in w.db.attempts && t.slot == s && PayloadOf(t, j) ==> Impossible(w, t)
  }

  /**
   Failing the job is sound exactly when everything the driver tracks was rejected and nobody else holds
   anything. Away from this nonce there is nothing to worry about but what a foreign void missed before.
   */
  lemma VoidIsSoundIff(w: World, e: nat, k: Pair, tx: Tx, j: nat)
    requires Inv(w) && e == w.db.epoch && CanVoid(w, e, k, tx)
    requires tx.owner == Job(j) && j in w.db.jobs && w.db.jobs[j].status.Bindable() && tx.slot !in w.final
    ensures var w', f := Voided(w, e, tx, Store.NonceUnused, Store.Fail), w.procs[e].flights[k];
            && j in w'.db.jobs && w'.db.jobs[j].status.Failed?
            && (NoPayloadSurvivesAt(w', tx.slot, j) <==> AllTrackedRejected(w, f) && NobodyElseHolds(w, f, tx.slot))
            && forall t :: t in w'.db.attempts && PayloadOf(t, j) && t.slot != tx.slot ==> Impossible(w', t) || t in w.missed
  {
    hide JobsOk, SlotsOk, ChainOk, TopupsOk, IncludedOnce, AttemptsOk, LeaderOk, ProcsOk, Impossible, Unheld;
    StepsVoid.FlightFacts(w, e, k, tx);
    DroppedIsImpossibleIff(w, e, k, tx, j);
    NothingElsewhere(w, e, tx, j);
  }

  lemma NothingElsewhere(w: World, e: nat, tx: Tx, j: nat)
    requires AttemptsOk(w) && e == w.db.epoch && tx.owner == Job(j) && j in w.db.jobs && w.db.jobs[j].status.Bindable()
    requires w.db.jobs[j].binding == Some(tx.slot)
    ensures var w' := Voided(w, e, tx, Store.NonceUnused, Store.Fail);
            && j in w'.db.jobs && w'.db.jobs[j].status.Failed?
            && forall t :: t in w'.db.attempts && PayloadOf(t, j) && t.slot != tx.slot ==> Impossible(w', t) || t in w.missed
  {
    var w' := Voided(w, e, tx, Store.NonceUnused, Store.Fail);
    assert w'.db.jobs == Store.JobsAfter(w.db.jobs, tx, Store.ToVoided(Store.Fail));
    assert w'.db.attempts == Store.DroppedAttempts(w.db.attempts, tx.slot);
    forall t | t in w'.db.attempts && PayloadOf(t, j) && t.slot != tx.slot ensures Impossible(w', t) || t in w.missed { assert AttemptOk(w, t); }
  }

  lemma DroppedIsImpossibleIff(w: World, e: nat, k: Pair, tx: Tx, j: nat)
    requires AttemptsOk(w) && ChainOk(w) && ProcsOk(w.procs, w.db.epoch, w.db.attempts.Keys) && CanVoid(w, e, k, tx) && e == w.db.epoch
    requires tx.owner == Job(j) && tx.slot !in w.final
    ensures var w', f := Voided(w, e, tx, Store.NonceUnused, Store.Fail), w.procs[e].flights[k];
            NoPayloadSurvivesAt(w', tx.slot, j) <==> AllTrackedRejected(w, f) && NobodyElseHolds(w, f, tx.slot)
  {
    var w', f := Voided(w, e, tx, Store.NonceUnused, Store.Fail), w.procs[e].flights[k];
    assert w'.db.attempts == Store.DroppedAttempts(w.db.attempts, tx.slot);
    assert FlightOk(w.procs[e], k);
    forall t | t in w.db.attempts && t.slot == tx.slot && PayloadOf(t, j)
      ensures Impossible(w', t) <==> t in w.dead || Unheld(w, t)
      ensures t in f.attempts ==> !Unheld(w, t)
    {
      assert AttemptOk(w, t);
    }
  }

  /** One attempt at the nonce is the case the comment in the driver has in mind: its reject settles the matter. */
  lemma SingleAttemptIsSound(w: World, f: Flight, tx: Tx)
    requires f.attempts == {tx} && tx in w.dead
    requires forall t :: t in w.db.attempts && t.slot == tx.slot && t.owner == f.owner && t.Payload() ==> t == tx
    ensures AllTrackedRejected(w, f) && NobodyElseHolds(w, f, tx.slot)
  {}

  // ---- 2. Voiding on "nonce too low" ----

  /** Requeueing the job is sound exactly when no stored payload of it, tracked or not, holds the nonce. */
  lemma RequeueIsSoundIff(w: World, e: nat, k: Pair, tx: Tx, j: nat)
    requires Inv(w) && e == w.db.epoch && Enabled(w, VoidForeign(e, k, tx, true))
    requires tx.owner == Job(j) && j in w.db.jobs && w.db.jobs[j].status.Bindable()
    ensures var w' := Voided(w, e, tx, Store.NonceTakenByForeignTx, Store.Requeue);
            && j in w'.db.jobs && w'.db.jobs[j].status.Queued?
            && (NoPayloadSurvivesAt(w', tx.slot, j) <==> forall t :: t in w.db.attempts && PayloadOf(t, j) ==> w.chain[tx.slot] != Ours(t))
  {
    hide JobsOk, SlotsOk, TopupsOk, IncludedOnce, LeaderOk, ProcsOk;
    var w' := Voided(w, e, tx, Store.NonceTakenByForeignTx, Store.Requeue);
    assert w'.db.jobs == Store.JobsAfter(w.db.jobs, tx, Store.ToVoided(Store.Requeue));
    assert w'.db.attempts == Store.DroppedAttempts(w.db.attempts, tx.slot);
    if t :| t in w.db.attempts && PayloadOf(t, j) && w.chain[tx.slot] == Ours(t) {
      assert t.slot == tx.slot && Safety.OnChain(w, t);
      Safety.OnChainIsPossible(w, t);
      assert !Impossible(w', t);
    }
  }

  // ---- 3. Voiding over a recorded inclusion ----

  /**
   Giving the nonce back keeps every attempt that is still in play on a slot of its own, and the mark over
   it, exactly when no inclusion was recorded there (and nothing tore the nonce before).
   */
  lemma OwnershipKeptIff(w: World, torn: set<Slot>, e: nat, k: Pair, tx: Tx)
    requires Inv(w) && OwnedBut(w.db, torn) && e == w.db.epoch && CanVoid(w, e, k, tx) && tx.slot !in torn
    ensures var db := Voided(w, e, tx, Store.NonceUnused, Store.Fail).db;
            && (NothingSettled(w.db.attempts, tx.slot, tx.owner) <==>
                forall t :: t in db.attempts && t.slot == tx.slot && !db.attempts[t].status.Dropped? ==> t.slot in db.slots)
            && (NothingSettled(w.db.attempts, tx.slot, tx.owner) <==>
                forall t :: t in db.attempts && t.slot == tx.slot && !db.attempts[t].status.Dropped? ==> t.slot.nonce <= Mark(db.pairs, k))
  {
    hide JobsOk, TopupsOk, IncludedOnce, ChainOk, SlotsOk, LeaderOk, ProcsOk, Store.Void, Impossible;
    StepsVoid.FlightFacts(w, e, k, tx);
    StepsEnv.VoidFreesTheNonce(w, e, k, tx, Store.Fail);
    VoidDrops(w.db, e, tx);
    var db := Voided(w, e, tx, Store.NonceUnused, Store.Fail).db;
    OwnedBySlotOwner(w, torn, tx);
    FreedIff(w.db.attempts, db, tx, k);
  }

  lemma VoidDrops(db: Db, e: nat, tx: Tx)
    requires e == db.epoch
    ensures Store.Void(db, e, tx, Store.NonceUnused, Store.Fail).0.attempts == Store.DroppedAttempts(db.attempts, tx.slot)
  {}

  lemma OwnedBySlotOwner(w: World, torn: set<Slot>, tx: Tx)
    requires SlotsOwned(w.db.attempts, w.db.slots, torn) && tx.slot !in torn && (tx.slot in w.db.slots ==> w.db.slots[tx.slot] == tx.owner)
    ensures forall t :: t in w.db.attempts && t.slot == tx.slot && !w.db.attempts[t].status.Dropped? ==> t.owner == tx.owner
  {}

  lemma FreedIff(before: Attempts, db: Db, tx: Tx, k: Pair)
    requires db.attempts == Store.DroppedAttempts(before, tx.slot) && tx.slot !in db.slots && Mark(db.pairs, k) < tx.slot.nonce
    requires forall t :: t in before && t.slot == tx.slot && !before[t].status.Dropped? ==> t.owner == tx.owner
    ensures NothingSettled(before, tx.slot, tx.owner) <==>
            forall t :: t in db.attempts && t.slot == tx.slot && !db.attempts[t].status.Dropped? ==> t.slot in db.slots
    ensures NothingSettled(before, tx.slot, tx.owner) <==>
            forall t :: t in db.attempts && t.slot == tx.slot && !db.attempts[t].status.Dropped? ==> t.slot.nonce <= Mark(db.pairs, k)
  {}

  // ---- 4. A top-up and its cancel ----

  /** A confirmation moves an included top-up to confirmed; its transfer happened iff the attempt was no cancel. */
  lemma TopupPaidIff(w: World, tx: Tx, t: nat)
    requires Inv(w) && FinalOurs(w, tx) && tx.owner == Topup(t) && tx in w.db.attempts && w.db.attempts[tx].status.Included?
    requires t in w.db.topups && w.db.topups[t].Included?
    ensures Store.Confirm(w.db, tx).0.topups[t].Confirmed?
    ensures (exists u: Tx :: u.owner == Topup(t) && u.Payload() && Safety.OnChain(w, u)) <==> tx.Payload()
  {}
}
