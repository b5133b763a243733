/** The promises of the engine, over every run with crashes, zombies, lost acknowledgements and re-orgs. */
module Safety {
  import opened Domain
  import opened World
  import opened Invariant
  import Hands
  import Runs
  import StepsEnv
  import Store
  import Takeover

  /** `tx` is on the canonical chain. */
  ghost predicate OnChain(w: World, tx: Tx) {
    tx.slot in w.chain && w.chain[tx.slot] == Ours(tx)
  }

  lemma OnChainIsPossible(w: World, tx: Tx)
    requires Inv(w) && OnChain(w, tx)
    ensures tx in w.db.attempts && !Impossible(w, tx)
  {}

  /** Two transactions on the chain with the same owner's payload: one of them was missed by a foreign void. */
  lemma AtMostOnce(ws: seq<World>, acts: seq<Action>, i: nat, t: Tx, u: Tx)
    requires IsRun(ws, acts) && i < |ws|
    requires OnChain(ws[i], t) && OnChain(ws[i], u) && t.owner == u.owner && t.Payload() && u.Payload()
    ensures t == u || t in ws[i].missed || u in ws[i].missed
  {
    Runs.RunKeeps(ws, acts, i);
    OnChainIsPossible(ws[i], t);
    OnChainIsPossible(ws[i], u);
    assert AttemptOk(ws[i], t) && AttemptOk(ws[i], u);
  }

  /** A foreign void sends the owner elsewhere although `tx`, which the driver did not track, holds the nonce. */
  ghost predicate Misses(w: World, a: Action, tx: Tx) {
    && a.VoidForeign? && a.e == w.db.epoch && CanVoid(w, a.e, a.k, a.tx)
    && tx !in w.procs[a.e].flights[a.k].attempts && tx in Overlooked(w, a.tx)
  }

  lemma {:induction false} MissHasACause(ws: seq<World>, acts: seq<Action>, k: nat, tx: Tx) returns (i: nat)
    requires IsRun(ws, acts) && k < |ws| && tx in ws[k].missed
    ensures i < k && Misses(ws[i], acts[i], tx)
  {
    hide Store.Void, Store.Bind, Store.Settle;
    if tx in ws[k - 1].missed { i := MissHasACause(ws, acts, k - 1, tx); } else { i := k - 1; }
  }

  /** No run whose foreign voids looked at every stored attempt executes a payload twice. */
  lemma AtMostOnceIfAllLookedAt(ws: seq<World>, acts: seq<Action>, i: nat, t: Tx, u: Tx)
    requires IsRun(ws, acts) && i < |ws|
    requires OnChain(ws[i], t) && OnChain(ws[i], u) && t.owner == u.owner && t.Payload() && u.Payload()
    requires forall n {:trigger acts[n]} :: 0 <= n < i ==> !Misses(ws[n], acts[n], t) && !Misses(ws[n], acts[n], u)
    ensures t == u
  {
    AtMostOnce(ws, acts, i, t, u);
    if t in ws[i].missed { var n := MissHasACause(ws, acts, i, t); }
    if u in ws[i].missed { var n := MissHasACause(ws, acts, i, u); }
  }

  // ---- Terminal truth ----

  lemma TerminalSurvivesSettle(db: Db, tx: Tx, inc: Inclusion, confirmNow: bool, j: nat)
    requires j in db.jobs && db.jobs[j].status.Terminal()
    ensures var db' := Store.Settle(db, tx, inc, confirmNow, false).0; j in db'.jobs && db'.jobs[j] == db.jobs[j]
  {}

  lemma TerminalSurvivesBind(db: Db, e: nat, tx: Tx, kind: Store.BindKind, j: nat)
    requires j in db.jobs && db.jobs[j].status.Terminal()
    ensures var db' := Store.Bind(db, e, tx, kind).0; j in db'.jobs && db'.jobs[j] == db.jobs[j]
  {}

  lemma TerminalSurvivesVerdict(db: Db, tx: Tx, j: nat)
    requires j in db.jobs && db.jobs[j].status.Terminal()
    ensures var db' := Store.Confirm(db, tx).0; j in db'.jobs && db'.jobs[j] == db.jobs[j]
    ensures var db' := Store.Demote(db, tx).0; j in db'.jobs && db'.jobs[j] == db.jobs[j]
  {}

  lemma TerminalSurvivesVoid(db: Db, e: nat, tx: Tx, mode: Store.VoidMode, d: Store.Disposition, j: nat)
    requires j in db.jobs && db.jobs[j].status.Terminal()
    ensures var db' := Store.Void(db, e, tx, mode, d).0; j in db'.jobs && db'.jobs[j] == db.jobs[j]
  {}

  /** A terminal job row never changes again, whoever writes. */
  lemma TerminalRowStays(db: Db, a: Action, j: nat)
    requires j in db.jobs && db.jobs[j].status.Terminal()
    ensures var db' := DbAfter(db, a); j in db'.jobs && db'.jobs[j] == db.jobs[j]
  {
    hide Store.PutJob, Store.Bind, Store.Settle, Store.Void, Store.Confirm, Store.Demote;
    match a
    case BindFirst(e, tx, _) => TerminalSurvivesBind(db, e, tx, Store.First, j);
    case BindMore(e, tx, kind, _) => TerminalSurvivesBind(db, e, tx, kind, j);
    case SettleInclusion(_, tx, inc, confirmNow) => TerminalSurvivesSettle(db, tx, inc, confirmNow, j);
    case SettleConfirmation(tx) => TerminalSurvivesVerdict(db, tx, j);
    case Demote(tx) => TerminalSurvivesVerdict(db, tx, j);
    case VoidUnused(e, _, tx, _) => TerminalSurvivesVoid(db, e, tx, Store.NonceUnused, Store.Fail, j);
    case VoidForeign(e, _, tx, _) => TerminalSurvivesVoid(db, e, tx, Store.NonceTakenByForeignTx, Store.Requeue, j);
    case _ =>
  }

  lemma {:induction false} TerminalForever(ws: seq<World>, acts: seq<Action>, i: nat, k: nat, j: nat)
    requires IsRun(ws, acts) && i <= k < |ws| && j in ws[i].db.jobs && ws[i].db.jobs[j].status.Terminal()
    ensures j in ws[k].db.jobs && ws[k].db.jobs[j] == ws[i].db.jobs[j]
  {
    if i < k {
      TerminalForever(ws, acts, i, k - 1, j);
      TablesFollow(ws[k - 1], acts[k - 1]);
      TerminalRowStays(ws[k - 1].db, acts[k - 1], j);
    }
  }

  /** Once a job is failed, no payload of it that was not given up alive is on the chain or ever will be. */
  lemma FailedNeverExecutes(ws: seq<World>, acts: seq<Action>, i: nat, k: nat, j: nat, tx: Tx)
    requires IsRun(ws, acts) && i <= k < |ws| && j in ws[i].db.jobs && ws[i].db.jobs[j].status.Failed? && PayloadOf(tx, j)
    ensures !OnChain(ws[k], tx) || tx in ws[k].escaped || tx in ws[k].missed
  {
    TerminalForever(ws, acts, i, k, j);
    Runs.RunKeeps(ws, acts, k);
    assert tx in ws[k].db.attempts ==> AttemptOk(ws[k], tx);
    if OnChain(ws[k], tx) { OnChainIsPossible(ws[k], tx); }
  }

  /** A stateless reject of a sibling gives `tx` up although it was neither rejected itself nor unsent. */
  ghost predicate GivenUpAlive(w: World, a: Action, tx: Tx) {
    a.VoidUnused? && a.e == w.db.epoch && tx in StillAlive(w, a.tx)
  }

  lemma {:induction false} EscapeHasACause(ws: seq<World>, acts: seq<Action>, k: nat, tx: Tx) returns (i: nat)
    requires IsRun(ws, acts) && k < |ws| && tx in ws[k].escaped
    ensures i < k && GivenUpAlive(ws[i], acts[i], tx)
  {
    hide Store.Void, Store.Bind, Store.Settle;
    if tx in ws[k - 1].escaped { i := EscapeHasACause(ws, acts, k - 1, tx); } else { i := k - 1; }
  }

  /** In a run whose voids never gave `tx` up alive, a failed job's payload `tx` never executes. */
  lemma FailedIsFinal(ws: seq<World>, acts: seq<Action>, i: nat, k: nat, j: nat, tx: Tx)
    requires IsRun(ws, acts) && i <= k < |ws| && j in ws[i].db.jobs && ws[i].db.jobs[j].status.Failed? && PayloadOf(tx, j)
    requires forall n {:trigger acts[n]} :: 0 <= n < k ==> !GivenUpAlive(ws[n], acts[n], tx) && !Misses(ws[n], acts[n], tx)
    ensures !OnChain(ws[k], tx)
  {
    FailedNeverExecutes(ws, acts, i, k, j, tx);
    if tx in ws[k].escaped { var n := EscapeHasACause(ws, acts, k, tx); }
    if tx in ws[k].missed { var n := MissHasACause(ws, acts, k, tx); }
  }

  /** And if such a void failed the job, nothing but luck keeps the payload off the chain: the run can mine it. */
  lemma EscapedCanExecute(ws: seq<World>, acts: seq<Action>, n: nat, j: nat, tx: Tx) returns (ws': seq<World>, acts': seq<Action>)
    requires IsRun(ws, acts) && |acts| == n + 1 && GivenUpAlive(ws[n], acts[n], tx) && PayloadOf(tx, j)
    requires j in ws[n + 1].db.jobs && ws[n + 1].db.jobs[j].status.Failed? && tx in ws[n + 1].sent && tx.slot !in ws[n + 1].chain
    ensures IsRun(ws', acts') && acts <= acts' && ws <= ws'
    ensures var w := ws'[|acts'|]; j in w.db.jobs && w.db.jobs[j].status.Failed? && OnChain(w, tx)
  {
    hide Store.Void;
    var w := ws[n + 1];
    assert tx !in w.dead;
    acts' := acts + [Mine(tx)];
    ws' := ws + [Apply(w, Mine(tx))];
  }

  /** Once a job is confirmed, its payload is on the chain and stays there (exactly once, by AtMostOnce). */
  lemma ConfirmedStaysExecuted(ws: seq<World>, acts: seq<Action>, i: nat, k: nat, j: nat) returns (tx: Tx)
    requires IsRun(ws, acts) && i <= k < |ws| && j in ws[i].db.jobs && ws[i].db.jobs[j].status.Confirmed?
    ensures PayloadOf(tx, j) && OnChain(ws[k], tx)
  {
    TerminalForever(ws, acts, i, k, j);
    Runs.RunKeeps(ws, acts, k);
    var db := ws[k].db;
    assert JobOk(db.jobs[j], db.attempts, j);
    tx :| tx in db.attempts && PayloadOf(tx, j) && db.attempts[tx].status.Confirmed?;
    assert AttemptOk(ws[k], tx);
  }

  // ---- Nothing is lost ----

  /** The live attempts that recovery loads for the job's pair contain one of its own, with its bytes. */
  ghost predicate Recoverable(db: Db, j: nat)
    requires j in db.jobs
  {
    exists tx :: tx in db.attempts && tx.owner == Job(j) && db.jobs[j].binding == Some(tx.slot) && tx in LiveOf(db, tx.slot.pair) && db.attempts[tx].raw
  }

  /** The job is bound to a nonce that was torn from its slot. */
  ghost predicate BoundAt(db: Db, j: nat, torn: set<Slot>)
    requires j in db.jobs
  {
    db.jobs[j].binding.Some? && db.jobs[j].binding.value in torn
  }

  /** A job that is not terminal is queued, or recovery of its pair finds an attempt with its bytes stored, or its own nonce was torn. */
  lemma NoJobIsLost(ws: seq<World>, acts: seq<Action>, i: nat, j: nat)
    requires IsRun(ws, acts) && i < |ws| && j in ws[i].db.jobs && !ws[i].db.jobs[j].status.Terminal()
    ensures ws[i].db.jobs[j].status.Queued? || Recoverable(ws[i].db, j) || BoundAt(ws[i].db, j, Runs.TornBy(ws, acts, i))
  {
    hide Runs.TornBy;
    Runs.OwnedButTorn(ws, acts, i);
    Runs.RunKeeps(ws, acts, i);
    var db, torn := ws[i].db, Runs.TornBy(ws, acts, i);
    assert JobOk(db.jobs[j], db.attempts, j);
    if db.jobs[j].status.Bindable() && !BoundAt(db, j, torn) {
      assert Kept(db.jobs[j], db.attempts, j, torn);
      var tx :| Carries(db.jobs[j], db.attempts, j, tx);
      assert AttemptOk(ws[i], tx) && tx in LiveOf(db, tx.slot.pair);
    } else if db.jobs[j].status.Included? {
      var tx :| tx in db.attempts && PayloadOf(tx, j) && db.attempts[tx].status.Included?;
      assert AttemptOk(ws[i], tx) && tx in LiveOf(db, tx.slot.pair);
    }
  }

  // ---- Fencing and ownership ----

  /** Whatever was ever broadcast, by anyone, is a committed attempt. */
  lemma BroadcastIsCommitted(ws: seq<World>, acts: seq<Action>, i: nat, tx: Tx)
    requires IsRun(ws, acts) && i < |ws| && tx in ws[i].sent
    ensures tx in ws[i].db.attempts
  {
    Runs.RunKeeps(ws, acts, i);
  }

  lemma {:induction false} EpochNeverFalls(ws: seq<World>, acts: seq<Action>, i: nat, k: nat)
    requires IsRun(ws, acts) && i <= k < |ws|
    ensures ws[i].db.epoch <= ws[k].db.epoch
  {
    if i < k {
      EpochNeverFalls(ws, acts, i, k - 1);
      EpochStep(ws[k - 1], acts[k - 1]);
    }
  }

  lemma EpochStep(w: World, a: Action)
    requires Enabled(w, a)
    ensures w.db.epoch <= Apply(w, a).db.epoch
  {
    hide Apply, Enabled;
    Hands.EpochMoves(w, a);
  }

  /** The epoch under which an action writes a binding. */
  ghost predicate WritesBinding(a: Action, e: nat) {
    (a.BindFirst? || a.BindMore? || a.VoidUnused? || a.VoidForeign?) && a.e == e
  }

  /** After a successor's epoch bump, no bind or void of an earlier leader changes a single row. */
  lemma StaleLeaderIsFenced(ws: seq<World>, acts: seq<Action>, i: nat, k: nat, e: nat)
    requires IsRun(ws, acts) && i <= k < |acts| && e < ws[i].db.epoch && WritesBinding(acts[k], e)
    ensures ws[k + 1].db == ws[k].db
  {
    EpochNeverFalls(ws, acts, i, k);
  }

  /** All attempts that were not dropped at a nonce that was never torn belong to the owner of the slot. */
  lemma OneOwnerPerNonce(ws: seq<World>, acts: seq<Action>, i: nat, t: Tx, u: Tx)
    requires IsRun(ws, acts) && i < |ws| && t in ws[i].db.attempts && u in ws[i].db.attempts && t.slot == u.slot
    requires t.slot !in Runs.TornBy(ws, acts, i)
    requires !ws[i].db.attempts[t].status.Dropped? && !ws[i].db.attempts[u].status.Dropped?
    ensures t.slot in ws[i].db.slots && t.owner == u.owner == ws[i].db.slots[t.slot]
  {
    Runs.OwnedButTorn(ws, acts, i);
  }

  /** A nonce serves one owner: of two owners' payloads signed for it, one can never be mined, or escaped. */
  lemma NonceServesOneJob(ws: seq<World>, acts: seq<Action>, i: nat, t: Tx, u: Tx)
    requires IsRun(ws, acts) && i < |ws| && t in ws[i].db.attempts && u in ws[i].db.attempts && t.slot == u.slot
    requires t.owner != u.owner && t.Payload() && u.Payload()
    ensures Impossible(ws[i], t) || Impossible(ws[i], u) || t in ws[i].escaped || u in ws[i].escaped
  {
    Runs.RunKeeps(ws, acts, i);
    Takeover.PayloadsAreBacked(ws, acts, i, t);
    Takeover.PayloadsAreBacked(ws, acts, i, u);
    // a missed one holds the nonce for good
    assert t in ws[i].missed ==> FinalOurs(ws[i], t);
    assert u in ws[i].missed ==> FinalOurs(ws[i], u);
  }

  // ---- Nonce freshness ----

  /** The high-water mark covers every held slot, also after a void has stepped it back. */
  lemma MarkCoversSlots(ws: seq<World>, acts: seq<Action>, i: nat, s: Slot)
    requires IsRun(ws, acts) && i < |ws| && s in ws[i].db.slots
    ensures s.nonce <= Mark(ws[i].db.pairs, s.pair)
  {
    Runs.RunKeeps(ws, acts, i);
    assert SlotOk(ws[i], s);
  }

  /** Every first bind that commits takes a nonce strictly above the mark and leaves the mark on it. */
  lemma FirstBindIsFresh(ws: seq<World>, acts: seq<Action>, i: nat)
    requires IsRun(ws, acts) && i < |acts| && acts[i].BindFirst? && ws[i + 1].db != ws[i].db
    ensures var s := acts[i].tx.slot;
            Mark(ws[i].db.pairs, s.pair) < s.nonce && Mark(ws[i + 1].db.pairs, s.pair) == s.nonce
  {
    Runs.RunKeeps(ws, acts, i);
    StepsEnv.ClaimIsReady(ws[i], acts[i].e, acts[i].tx);
  }

  /** Whatever nonce the node claims, recovery leaves the cursor above every slot the pair holds. */
  lemma RecoveredCursorIsAbove(ws: seq<World>, acts: seq<Action>, i: nat, s: Slot)
    requires IsRun(ws, acts) && i < |acts| && acts[i].RecoverDone? && s in ws[i].db.slots && s.pair == acts[i].k
    ensures var a := acts[i]; a.e in ws[i + 1].procs && a.k in ws[i + 1].procs[a.e].cursor && s.nonce < ws[i + 1].procs[a.e].cursor[a.k]
    ensures acts[i].chainNonce <= ws[i + 1].procs[acts[i].e].cursor[acts[i].k]
  {
    Runs.RunKeeps(ws, acts, i);
    assert SlotOk(ws[i], s);
  }

  /** A nonce that a void gave back is the next one its process binds: no gap is left that would hold up later ones. */
  lemma FreedNonceIsNext(ws: seq<World>, acts: seq<Action>, i: nat)
    requires IsRun(ws, acts) && i < |acts| && acts[i].VoidUnused? && acts[i].reported && acts[i].e == ws[i].db.epoch
    ensures var a, p := acts[i], ws[i + 1].procs;
            && a.e in p && a.k !in p[a.e].flights && a.k in p[a.e].cursor && p[a.e].cursor[a.k] == a.tx.slot.nonce
            && a.tx.slot !in ws[i + 1].db.slots && Mark(ws[i + 1].db.pairs, a.k) < a.tx.slot.nonce
  {
    assert Store.Void(ws[i].db, acts[i].e, acts[i].tx, Store.NonceUnused, Store.Fail).1;
    hide Store.Void, AttemptsOk, JobsOk, SlotsOk, LeaderOk, ProcsOk, ChainOk, TopupsOk, IncludedOnce;
    Runs.RunKeeps(ws, acts, i);
    StepsEnv.VoidFreesTheNonce(ws[i], acts[i].e, acts[i].k, acts[i].tx, Store.Fail);
  }

  /** A job that recovery finds can go on: any process with the pair idle can load it, take it over and send its bytes again. */
  lemma RecoverableCanBeResent(w: World, e: nat, j: nat) returns (tx: Tx, w1: World, w2: World, w3: World)
    requires j in w.db.jobs && Recoverable(w.db, j) && e in w.procs && w.db.jobs[j].binding.Some? && w.db.jobs[j].binding.value.pair !in w.procs[e].flights
    ensures tx.owner == Job(j) && w.db.jobs[j].binding == Some(tx.slot) && tx in w.db.attempts && w.db.attempts[tx].raw
    ensures Enabled(w, LoadLive(e, tx.slot.pair)) && w1 == Apply(w, LoadLive(e, tx.slot.pair))
    ensures var own := set t | t in LiveOf(w.db, tx.slot.pair) && t.slot == tx.slot && t.owner == tx.owner;
            Enabled(w1, Resume(e, tx.slot.pair, tx.slot.nonce, own)) && w2 == Apply(w1, Resume(e, tx.slot.pair, tx.slot.nonce, own))
    ensures Enabled(w2, Send(e, tx.slot.pair, tx)) && w3 == Apply(w2, Send(e, tx.slot.pair, tx)) && tx in w3.sent && w3.db == w.db
  {
    tx :| tx in w.db.attempts && tx.owner == Job(j) && w.db.jobs[j].binding == Some(tx.slot) && tx in LiveOf(w.db, tx.slot.pair) && w.db.attempts[tx].raw;
    var own := set t | t in LiveOf(w.db, tx.slot.pair) && t.slot == tx.slot && t.owner == tx.owner;
    assert tx in own;
    w1 := Apply(w, LoadLive(e, tx.slot.pair));
    w2 := Apply(w1, Resume(e, tx.slot.pair, tx.slot.nonce, own));
    w3 := Apply(w2, Send(e, tx.slot.pair, tx));
  }

  // ---- What can happen ----

  /** A process that died never acts again: its epoch is given to nobody else. */
  lemma {:induction false} CrashedStaysGone(ws: seq<World>, acts: seq<Action>, i: nat, k: nat)
    requires IsRun(ws, acts) && i < k < |ws| && acts[i].Crash?
    ensures acts[i].e !in ws[k].procs && acts[i].e <= ws[k].db.epoch
    decreases k
  {
    hide Store.PutJob, Store.Bind, Store.Settle, Store.Confirm, Store.Demote, Store.Void;
    if k == i + 1 {
      Runs.RunKeeps(ws, acts, i);
    } else {
      CrashedStaysGone(ws, acts, i, k - 1);
      NobodyReturns(ws[k - 1], acts[k - 1], acts[i].e);
    }
  }

  lemma NobodyReturns(w: World, a: Action, e: nat)
    requires Enabled(w, a) && e !in w.procs && e <= w.db.epoch
    ensures e !in Apply(w, a).procs && e <= Apply(w, a).db.epoch
  {
    hide Store.PutOwner, Store.PutJob, Store.SlotFits, Store.OwnerMoves;
    Hands.EpochMoves(w, a);
  }

  lemma VoidRequeues(db: Db, e: nat, tx: Tx, j: nat)
    requires e == db.epoch && tx.owner == Job(j) && j in db.jobs && db.jobs[j].status.Bindable()
    ensures var jobs := Store.Void(db, e, tx, Store.NonceTakenByForeignTx, Store.Requeue).0.jobs; j in jobs && jobs[j].status.Queued?
  {}

  /** Whoever else has the key can take the nonce of an unacknowledged job for good; the job then goes back to the queue. */
  lemma ForeignTakerRequeues(w: World, e: nat, k: Pair, tx: Tx, j: nat) returns (w1: World, w2: World, w3: World)
    requires e == w.db.epoch && CanVoid(w, e, k, tx) && tx.owner == Job(j) && j in w.db.jobs && w.db.jobs[j].status.Bindable()
    requires tx.slot !in w.chain
    ensures Enabled(w, MineForeign(tx.slot)) && w1 == Apply(w, MineForeign(tx.slot))
    ensures Enabled(w1, Finalize(tx.slot)) && w2 == Apply(w1, Finalize(tx.slot))
    ensures Enabled(w2, VoidForeign(e, k, tx, true)) && w3 == Apply(w2, VoidForeign(e, k, tx, true)) && j in w3.db.jobs && w3.db.jobs[j].status.Queued?
  {
    hide Store.Void;
    w1 := Apply(w, MineForeign(tx.slot));
    w2 := Apply(w1, Finalize(tx.slot));
    w3 := Apply(w2, VoidForeign(e, k, tx, true));
    VoidRequeues(w.db, e, tx, j);
  }

  /** An included job whose payload is on the chain can be confirmed, and then it is. */
  lemma IncludedCanBeConfirmed(w: World, tx: Tx, j: nat) returns (w': World)
    requires OnChain(w, tx) && PayloadOf(tx, j) && tx.purpose.ForJob? && tx in w.db.attempts && w.db.attempts[tx].status.Included?
    requires j in w.db.jobs && w.db.jobs[j].status.Included?
    ensures Enabled(w, Finalize(tx.slot)) && Enabled(Apply(w, Finalize(tx.slot)), SettleConfirmation(tx))
    ensures w' == Apply(Apply(w, Finalize(tx.slot)), SettleConfirmation(tx)) && j in w'.db.jobs && w'.db.jobs[j].status.Confirmed?
  {
    w' := Apply(Apply(w, Finalize(tx.slot)), SettleConfirmation(tx));
  }
}
