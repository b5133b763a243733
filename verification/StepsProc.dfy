/** Steps that only move a process: flights, recovery walks, cursors, crashes and a change of leader. */
module StepsProc {
  import opened Domain
  import opened World
  import opened Invariant
  import Store

  /** Replacing one process keeps every invariant about rows as long as it picks up no retired bytes. */
  ghost predicate PicksUpOnlyLive(w: World, e: nat, p: Proc) {
    forall t :: t in p.held && !(e in w.procs && t in w.procs[e].held) ==> t in w.db.attempts && !w.db.attempts[t].status.Retired()
  }

  lemma ProcKeepsRows(w: World, e: nat, p: Proc)
    requires AttemptsOk(w) && SlotsOk(w) && ChainOk(w) && PicksUpOnlyLive(w, e, p)
    ensures var w' := w.(procs := w.procs[e := p]); AttemptsOk(w') && SlotsOk(w') && ChainOk(w')
  {}

  ghost predicate LeaderProcOk(db: Db, p: Proc) {
    && (forall k :: k in p.flights ==> LeaderFlightOk(db, p, k))
    && (forall k, t :: k in p.walk && t in p.walk[k] ==> BoundHere(db.jobs, t))
    && (forall k :: k in p.cursor ==> CursorOk(db, p, k))
  }

  lemma ProcKeeps(w: World, e: nat, p: Proc)
    requires Inv(w) && PicksUpOnlyLive(w, e, p) && e <= w.db.epoch && ProcOk(w.db.attempts.Keys, p)
    requires e == w.db.epoch ==> LeaderProcOk(w.db, p)
    ensures Inv(w.(procs := w.procs[e := p]))
  {
    ProcKeepsRows(w, e, p);
    ProcKeepsProcs(w, e, p);
  }

  lemma ProcKeepsProcs(w: World, e: nat, p: Proc)
    requires ProcsOk(w.procs, w.db.epoch, w.db.attempts.Keys) && LeaderOk(w.db, w.procs)
    requires e <= w.db.epoch && ProcOk(w.db.attempts.Keys, p) && (e == w.db.epoch ==> LeaderProcOk(w.db, p))
    ensures ProcsOk(w.procs[e := p], w.db.epoch, w.db.attempts.Keys) && LeaderOk(w.db, w.procs[e := p])
  {}

  lemma ProcFacts(w: World, e: nat)
    requires ProcsOk(w.procs, w.db.epoch, w.db.attempts.Keys) && LeaderOk(w.db, w.procs) && e in w.procs
    ensures e <= w.db.epoch && ProcOk(w.db.attempts.Keys, w.procs[e]) && (e == w.db.epoch ==> LeaderProcOk(w.db, w.procs[e]))
  {}

  /** A flight disappears, loses `unaccepted` or comes to doubt a cancel. */
  lemma FewerFlights(w: World, e: nat, p: Proc)
    requires Inv(w) && e in w.procs && OnlyDrops(w.procs[e], p)
    ensures Inv(w.(procs := w.procs[e := p]))
  {
    ProcFacts(w, e);
    FewerFlightsProc(w.db, w.procs[e], p, e == w.db.epoch);
    ProcKeeps(w, e, p);
  }

  ghost predicate OnlyDrops(q: Proc, p: Proc) {
    && p.held == q.held && p.cursor == q.cursor && p.walk == q.walk
    && forall k :: k in p.flights ==> k in q.flights && (p.flights[k] == q.flights[k] || p.flights[k] == q.flights[k].(unaccepted := false) || p.flights[k] == q.flights[k].(cancelLost := true))
  }

  lemma FewerFlightsProc(db: Db, q: Proc, p: Proc, leads: bool)
    requires ProcOk(db.attempts.Keys, q) && (leads ==> LeaderProcOk(db, q)) && OnlyDrops(q, p)
    ensures ProcOk(db.attempts.Keys, p) && (leads ==> LeaderProcOk(db, p))
  {
    forall k | k in p.flights ensures FlightOk(p, k) { assert FlightOk(q, k); }
    forall k | k in p.walk ensures WalkOk(p, k) { assert WalkOk(q, k); }
    if leads {
      forall k | k in p.flights ensures LeaderFlightOk(db, p, k) { assert LeaderFlightOk(db, q, k); }
      forall k | k in p.cursor ensures CursorOk(db, p, k) { assert CursorOk(db, q, k); }
    }
  }

  /** Setting a cursor above the mark, with no flight of the pair in the air. */
  lemma CursorKeeps(w: World, e: nat, k: Pair, n: nat)
    requires Inv(w) && e in w.procs && k !in w.procs[e].flights
    requires k in w.db.pairs && Mark(w.db.pairs, k) < n
    ensures Inv(SetCursor(w, e, k, n))
  {
    var q := w.procs[e];
    var p := q.(cursor := q.cursor[k := n], walk := q.walk - {k});
    assert ProcOk(w.db.attempts.Keys, q);
    forall k' | k' in p.flights ensures FlightOk(p, k') { assert FlightOk(q, k'); }
    forall k' | k' in p.walk ensures WalkOk(p, k') { assert WalkOk(q, k'); }
    if e == w.db.epoch {
      forall k' | k' in p.flights ensures LeaderFlightOk(w.db, p, k') { assert LeaderFlightOk(w.db, q, k'); }
      forall k', t | k' in p.walk && t in p.walk[k'] ensures BoundHere(w.db.jobs, t) { assert k' in q.walk && t in q.walk[k']; }
      forall k' | k' in p.cursor ensures CursorOk(w.db, p, k') { if k' != k { assert CursorOk(w.db, q, k'); } }
    }
    ProcKeeps(w, e, p);
  }

  /** What a reported first bind leaves behind in the process. */
  ghost function TakenOff(q: Proc, tx: Tx): Proc {
    var k := tx.slot.pair;
    q.(cursor := q.cursor[k := tx.slot.nonce + 1], walk := q.walk - {k},
       flights := q.flights[k := Flight(tx.owner, tx.slot.nonce, {tx}, true, false)], held := q.held + {tx})
  }

  ghost predicate ReadyToFly(db: Db, q: Proc, tx: Tx) {
    && tx.slot.pair !in q.flights && tx.slot.pair !in q.walk && tx in db.attempts && tx.Payload()
    && tx.slot in db.slots && db.slots[tx.slot] == tx.owner && tx.slot.pair in db.pairs && Mark(db.pairs, tx.slot.pair) == tx.slot.nonce
    && DrivenHere(db.jobs, tx)
  }

  /** A reported first bind puts the transaction in the air and the cursor behind it. */
  lemma TakeOffKeeps(w: World, e: nat, tx: Tx)
    requires Inv(w) && e in w.procs && ReadyToFly(w.db, w.procs[e], tx) && !w.db.attempts[tx].status.Retired()
    ensures Inv(SetFlight(SetCursor(w, e, tx.slot.pair, tx.slot.nonce + 1), e, tx.slot.pair,
                          Flight(tx.owner, tx.slot.nonce, {tx}, true, false), {tx}))
  {
    hide AttemptsOk, JobsOk, SlotsOk, ChainOk, TopupsOk, IncludedOnce;
    ProcFacts(w, e);
    TakeOffProc(w.db, w.procs[e], tx, e == w.db.epoch);
    ProcKeeps(w, e, TakenOff(w.procs[e], tx));
    assert w.(procs := w.procs[e := TakenOff(w.procs[e], tx)])
        == SetFlight(SetCursor(w, e, tx.slot.pair, tx.slot.nonce + 1), e, tx.slot.pair, Flight(tx.owner, tx.slot.nonce, {tx}, true, false), {tx});
  }

  lemma TakeOffProc(db: Db, q: Proc, tx: Tx, leads: bool)
    requires ProcOk(db.attempts.Keys, q) && (leads ==> LeaderProcOk(db, q)) && ReadyToFly(db, q, tx)
    ensures ProcOk(db.attempts.Keys, TakenOff(q, tx)) && (leads ==> LeaderProcOk(db, TakenOff(q, tx)))
  {
    var p := TakenOff(q, tx);
    var k := tx.slot.pair;
    forall k' | k' in p.flights ensures FlightOk(p, k') { if k' != k { assert FlightOk(q, k'); } }
    forall k' | k' in p.walk ensures WalkOk(p, k') { assert WalkOk(q, k'); }
    if leads {
      forall k' | k' in p.flights ensures LeaderFlightOk(db, p, k') {
        if k' != k { assert LeaderFlightOk(db, q, k'); } else { assert tx in p.flights[k].attempts; }
      }
      forall k', t | k' in p.walk && t in p.walk[k'] ensures BoundHere(db.jobs, t) { assert k' in q.walk && t in q.walk[k']; }
      forall k' | k' in p.cursor ensures CursorOk(db, p, k') { if k' != k { assert CursorOk(db, q, k'); } }
    }
  }

  ghost function Joined(q: Proc, tx: Tx): Proc
    requires tx.slot.pair in q.flights
  {
    var f := q.flights[tx.slot.pair];
    q.(flights := q.flights[tx.slot.pair := f.(attempts := f.attempts + {tx})], held := q.held + {tx})
  }

  /** A reported replacement or cancel joins the attempts in the air. */
  lemma JoinKeeps(w: World, e: nat, tx: Tx)
    requires Inv(w) && HasFlight(w, e, tx.slot.pair) && tx in w.db.attempts && !w.db.attempts[tx].status.Retired()
    requires var f := w.procs[e].flights[tx.slot.pair]; f.nonce == tx.slot.nonce && f.owner == tx.owner
    requires e == w.db.epoch ==> DrivenHere(w.db.jobs, tx)
    ensures var f := w.procs[e].flights[tx.slot.pair];
            Inv(SetFlight(w, e, tx.slot.pair, f.(attempts := f.attempts + {tx}), {tx}))
  {
    ProcFacts(w, e);
    JoinProc(w.db, w.procs[e], tx, e == w.db.epoch);
    ProcKeeps(w, e, Joined(w.procs[e], tx));
  }

  lemma JoinProc(db: Db, q: Proc, tx: Tx, leads: bool)
    requires ProcOk(db.attempts.Keys, q) && (leads ==> LeaderProcOk(db, q) && DrivenHere(db.jobs, tx)) && tx in db.attempts
    requires tx.slot.pair in q.flights && q.flights[tx.slot.pair].nonce == tx.slot.nonce && q.flights[tx.slot.pair].owner == tx.owner
    ensures ProcOk(db.attempts.Keys, Joined(q, tx)) && (leads ==> LeaderProcOk(db, Joined(q, tx)))
  {
    var p := Joined(q, tx);
    forall k | k in p.flights ensures FlightOk(p, k) { assert FlightOk(q, k); }
    forall k | k in p.walk ensures WalkOk(p, k) { assert WalkOk(q, k); }
    if leads {
      forall k | k in p.flights ensures LeaderFlightOk(db, p, k) { JoinedFlight(db, q, p, tx, k); }
      forall k | k in p.cursor ensures CursorOk(db, p, k) { assert CursorOk(db, q, k); }
    }
  }

  lemma JoinedFlight(db: Db, q: Proc, p: Proc, tx: Tx, k: Pair)
    requires k in q.flights && LeaderFlightOk(db, q, k) && DrivenHere(db.jobs, tx) && p.cursor == q.cursor && p.walk == q.walk
    requires k in p.flights && (p.flights[k] == q.flights[k] || p.flights[k] == q.flights[k].(attempts := q.flights[k].attempts + {tx}))
    ensures LeaderFlightOk(db, p, k)
  {}

  /** Recovery loads the live attempts of an idle pair. */
  lemma LoadKeeps(w: World, e: nat, k: Pair)
    requires Inv(w) && Enabled(w, LoadLive(e, k))
    ensures Inv(Apply(w, LoadLive(e, k)))
  {
    var q := w.procs[e];
    var live := LiveOf(w.db, k);
    var p := q.(walk := q.walk[k := live], held := q.held + live);
    assert ProcOk(w.db.attempts.Keys, q);
    LiveWalk(w, p, k);
    forall k' | k' in p.flights ensures FlightOk(p, k') { assert FlightOk(q, k'); }
    forall k' | k' in p.walk ensures WalkOk(p, k') { if k' != k { assert WalkOk(q, k'); } }
    if e == w.db.epoch {
      forall k' | k' in p.flights ensures LeaderFlightOk(w.db, p, k') { assert LeaderFlightOk(w.db, q, k'); }
      forall k', t | k' in p.walk && t in p.walk[k'] ensures BoundHere(w.db.jobs, t) {
        if k' != k { assert k' in q.walk && t in q.walk[k']; }
      }
      forall k' | k' in p.cursor ensures CursorOk(w.db, p, k') { assert CursorOk(w.db, q, k'); }
    }
    ProcKeeps(w, e, p);
  }

  lemma LiveWalk(w: World, p: Proc, k: Pair)
    requires AttemptsOk(w) && k in p.walk && p.walk[k] == LiveOf(w.db, k) && LiveOf(w.db, k) <= p.held
    ensures WalkOk(p, k) && forall t :: t in p.walk[k] ==> BoundHere(w.db.jobs, t)
  {}

  /** Recovery resumes one nonce of its walk. */
  lemma ResumeKeeps(w: World, e: nat, k: Pair, n: nat, txs: set<Tx>)
    requires Inv(w) && Enabled(w, Resume(e, k, n, txs))
    ensures Inv(Apply(w, Resume(e, k, n, txs)))
  {
    var q := w.procs[e];
    var w' := Apply(w, Resume(e, k, n, txs));
    var p := w'.procs[e];
    assert ProcOk(w.db.attempts.Keys, q) && WalkOk(q, k);
    forall k' | k' in p.flights ensures FlightOk(p, k') { if k' != k { assert FlightOk(q, k'); } }
    forall k' | k' in p.walk ensures WalkOk(p, k') { assert WalkOk(q, k'); }
    if e == w.db.epoch {
      forall k' | k' in p.flights ensures LeaderFlightOk(w.db, p, k') {
        if k' != k { assert LeaderFlightOk(w.db, q, k'); }
        else {
          forall t | t in txs ensures DrivenHere(w.db.jobs, t) { assert BoundHere(w.db.jobs, t); }
        }
      }
      forall k' | k' in p.cursor ensures CursorOk(w.db, p, k') { assert CursorOk(w.db, q, k'); }
    }
    ProcKeeps(w, e, p);
  }

  lemma CrashKeeps(w: World, e: nat)
    requires Inv(w)
    ensures Inv(w.(procs := w.procs - {e}))
  {}

  lemma BumpKeeps(w: World)
    requires Inv(w)
    ensures Inv(w.(db := Store.BumpEpoch(w.db)))
  {}

  lemma AcquireKeeps(w: World)
    requires Inv(w)
    ensures Inv(w.(db := Store.BumpEpoch(w.db), procs := w.procs[w.db.epoch + 1 := Proc(map[], map[], map[], {})]))
  {
    BumpKeeps(w);
    var w1, e, p := w.(db := Store.BumpEpoch(w.db)), w.db.epoch + 1, Proc(map[], map[], map[], {});
    assert PicksUpOnlyLive(w1, e, p) && ProcOk(w1.db.attempts.Keys, p) && LeaderProcOk(w1.db, p);
    ProcKeeps(w1, e, p);
  }

  lemma SendKeeps(w: World, e: nat, k: Pair, tx: Tx)
    requires Inv(w) && Enabled(w, Send(e, k, tx))
    ensures Inv(Apply(w, Send(e, k, tx)))
  {
    assert FlightOk(w.procs[e], k);
    assert tx in w.procs[e].held && tx in w.db.attempts;
    SendKeepsRows(w, e, tx);
    SendKeepsChain(w, tx);
    hide AttemptsOk, SlotsOk, JobsOk, LeaderOk, TopupsOk, IncludedOnce, ProcsOk, ChainOk;
  }

  lemma SendKeepsChain(w: World, tx: Tx)
    requires ChainOk(w) && tx in w.db.attempts
    ensures ChainOk(w.(sent := w.sent + {tx}))
  {}

  lemma SendKeepsRows(w: World, e: nat, tx: Tx)
    requires AttemptsOk(w) && SlotsOk(w) && e in w.procs && tx in w.procs[e].held
    ensures var w' := w.(sent := w.sent + {tx}); AttemptsOk(w') && SlotsOk(w')
  {
    var w' := w.(sent := w.sent + {tx});
    forall t | t in w'.db.attempts ensures AttemptOk(w', t) {
      assert AttemptOk(w, t);
      assert Impossible(w, t) ==> Impossible(w', t);
    }
    forall s | s in w'.db.slots ensures SlotOk(w', s) { assert SlotOk(w, s); }
  }
}
