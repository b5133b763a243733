/**
 The whole system as a state machine: the tables, every process that ever became leader (keyed by the
 epoch it was given, so a zombie is simply a process whose epoch is no longer the current one), and an
 adversarial chain.

 Four hypotheses are part of `Enabled`:
   H1  a (signer, nonce) holds at most one canonical transaction: `chain` is a map;
   H2  bytes a node rejected by a stateless rule are never mined: `dead`;
   H3  "nonce consumed and no tracked attempt has a receipt" is concluded only when the nonce is held for
       good by a transaction the driver does not track: `TakenByOther`;
   H4  a confirmation is written only for an inclusion that can no longer be re-orged: `FinalOurs`.
 */
module World {
  import opened Domain
  import Store

  datatype Entry = Ours(tx: Tx) | Foreign

  /**
   The driver's in-memory state of one nonce. `unaccepted` is the driver's `never_accepted`; `cancelLost`
   says that a cancel was signed whose bind was not reported as committed. A cancel is the last rung of
   every ladder, so from then on the driver only watches: it sends nothing and voids nothing.
   */
  datatype Flight = Flight(owner: Owner, nonce: nat, attempts: set<Tx>, unaccepted: bool, cancelLost: bool)

  /**
   One process. `walk` holds the live attempts a running recovery has loaded, `cursor` the next nonce of
   each reconciled pair, and `held` every transaction whose bytes this process has ever had a use for.
   */
  datatype Proc = Proc(flights: map<Pair, Flight>, walk: map<Pair, set<Tx>>, cursor: map<Pair, nat>, held: set<Tx>)

  datatype World = World(db: Db, procs: map<nat, Proc>, chain: map<Slot, Entry>, final: set<Slot>,
                         mined: set<Tx>, sent: set<Tx>, dead: set<Tx>, escaped: set<Tx>, missed: set<Tx>)

  /**
   `reported` tells whether the process learnt that its transaction committed; false is a COMMIT whose
   acknowledgement was lost.
   */
  datatype Action =
    | AddJob(j: nat, chainId: nat)
    | AddTopup(t: nat)
    | FailQueued(j: nat)
    | RequeueFront(j: nat)
    | FailTopup(t: nat)
    | Acquire
    | Crash(e: nat)
    | BindFirst(e: nat, tx: Tx, reported: bool)
    | BindMore(e: nat, tx: Tx, kind: Store.BindKind, reported: bool)
    | Send(e: nat, k: Pair, tx: Tx)
    | Accepted(e: nat, k: Pair)
    | VoidUnused(e: nat, k: Pair, tx: Tx, reported: bool)
    | VoidForeign(e: nat, k: Pair, tx: Tx, reported: bool)
    | EndFlight(e: nat, k: Pair)
    | LoadLive(e: nat, k: Pair)
    | Resume(e: nat, k: Pair, nonce: nat, txs: set<Tx>)
    | RecoverDone(e: nat, k: Pair, chainNonce: nat)
    | SettleInclusion(e: nat, tx: Tx, inc: Inclusion, confirmNow: bool)
    | SettleConfirmation(tx: Tx)
    | Demote(tx: Tx)
    | Mine(tx: Tx)
    | MineForeign(s: Slot)
    | Reorg(gone: set<Slot>)
    | Finalize(s: Slot)
    | Reject(tx: Tx)

  ghost const Empty: World :=
    World(Db(0, map[], map[], map[], map[], map[], map[], map[], [], 0), map[], map[], {}, {}, {}, {}, {}, {})

  /** All that "nonce too low" and a receipt lookup for each tracked attempt can tell the driver. */
  ghost predicate TakenByOther(w: World, f: Flight, s: Slot) {
    s in w.final && s in w.chain && forall t :: t in f.attempts ==> w.chain[s] != Ours(t)
  }

  ghost predicate FinalOurs(w: World, tx: Tx) {
    tx.slot in w.final && tx.slot in w.chain && w.chain[tx.slot] == Ours(tx)
  }

  /** No process ever got hold of these bytes, so nobody can send them. */
  ghost predicate Unheld(w: World, tx: Tx) {
    tx !in w.sent && forall e :: e in w.procs ==> tx !in w.procs[e].held
  }

  /** No attempt of the owner at the nonce was ever recorded as mined, or as having lost to one that was. */
  ghost predicate NothingSettled(attempts: Attempts, s: Slot, o: Owner) {
    forall t :: t in attempts && t.slot == s && t.owner == o ==> attempts[t].status.Broadcast? || attempts[t].status.Dropped?
  }

  /** The process has had this transaction in hand, and is not still driving it towards its first acknowledgement. */
  ghost predicate MayReport(w: World, e: nat, tx: Tx) {
    && e in w.procs && tx in w.procs[e].held
    && !(tx.slot.pair in w.procs[e].flights && w.procs[e].flights[tx.slot.pair].unaccepted && tx in w.procs[e].flights[tx.slot.pair].attempts)
  }

  /** The owner's attempts at the nonce of `tx` that were not rejected and may be in somebody's hands. */
  ghost function StillAlive(w: World, tx: Tx): set<Tx> {
    set t | t in w.db.attempts && t.slot == tx.slot && t.owner == tx.owner && t !in w.dead && !Unheld(w, t)
  }

  /** The owner's transaction that holds the nonce of `tx`, if there is one. */
  ghost function Overlooked(w: World, tx: Tx): set<Tx> {
    set t | t in w.db.attempts && t.slot == tx.slot && t.owner == tx.owner && t.slot in w.chain && w.chain[t.slot] == Ours(t)
  }

  ghost predicate HasFlight(w: World, e: nat, k: Pair) {
    e in w.procs && k in w.procs[e].flights
  }

  /** `execute`: the pair is reconciled and idle, and its nonce cursor names the slot. */
  ghost predicate CanBindFirst(w: World, e: nat, tx: Tx) {
    && e in w.procs
    && tx.Payload() && (tx.purpose.ForJob? <==> tx.owner.Job?)
    && tx.slot.pair !in w.procs[e].flights && tx.slot.pair !in w.procs[e].walk
    && tx.slot.pair in w.procs[e].cursor && w.procs[e].cursor[tx.slot.pair] == tx.slot.nonce
    // a job id is in one place of a process's queue at a time
    && (forall k :: k in w.procs[e].flights ==> w.procs[e].flights[k].owner != tx.owner)
  }

  /** Another attempt at the nonce in flight; a fee replacement needs an original to copy. */
  ghost predicate FitsFlight(f: Flight, tx: Tx, kind: Store.BindKind) {
    && f.nonce == tx.slot.nonce && f.owner == tx.owner && !kind.First?
    && (kind.Cancel? <==> !tx.Payload())
    && (kind.Replacement? ==> exists t :: t in f.attempts && t.Payload() && t.purpose == tx.purpose)
  }

  ghost predicate CanBindMore(w: World, e: nat, tx: Tx, kind: Store.BindKind) {
    HasFlight(w, e, tx.slot.pair) && FitsFlight(w.procs[e].flights[tx.slot.pair], tx, kind)
  }

  /** The driver holds a verdict on a first broadcast that nobody has acknowledged yet. */
  ghost predicate CanVoid(w: World, e: nat, k: Pair, tx: Tx) {
    && HasFlight(w, e, k) && w.procs[e].flights[k].unaccepted && !w.procs[e].flights[k].cancelLost
    && tx in w.procs[e].flights[k].attempts
  }

  ghost predicate Enabled(w: World, a: Action) {
    match a
    case AddJob(j, _) => true
    case AddTopup(t) => true
    case FailQueued(j) => true
    case RequeueFront(j) => true
    case FailTopup(t) => true
    case Acquire => true
    case Crash(e) => e in w.procs
    case BindFirst(e, tx, _) => CanBindFirst(w, e, tx)
    case BindMore(e, tx, kind, _) => CanBindMore(w, e, tx, kind)
    case Send(e, k, tx) => HasFlight(w, e, k) && tx in w.procs[e].flights[k].attempts
    case Accepted(e, k) => HasFlight(w, e, k)
    case VoidUnused(e, k, tx, _) => CanVoid(w, e, k, tx) && tx in w.dead
    case VoidForeign(e, k, tx, _) => CanVoid(w, e, k, tx) && TakenByOther(w, w.procs[e].flights[k], tx.slot)
    case EndFlight(e, k) => HasFlight(w, e, k)
    case LoadLive(e, k) => e in w.procs && k !in w.procs[e].flights
    case Resume(e, k, nonce, txs) =>
      && e in w.procs && k in w.procs[e].walk && k !in w.procs[e].flights
      && txs != {} && txs <= w.procs[e].walk[k]
      && (forall t, u :: t in txs && u in txs ==> t.slot == Slot(k, nonce) && t.owner == u.owner)
    case RecoverDone(e, k, _) => e in w.procs && k !in w.procs[e].flights
    case SettleInclusion(e, tx, _, confirmNow) => MayReport(w, e, tx) && tx in w.mined && (confirmNow ==> FinalOurs(w, tx))
    case SettleConfirmation(tx) => FinalOurs(w, tx)
    case Demote(tx) => true
    case Mine(tx) => tx in w.sent && tx !in w.dead && tx.slot !in w.chain
    case MineForeign(s) => s !in w.chain
    case Reorg(gone) => gone !! w.final
    case Finalize(s) => s in w.chain
    case Reject(tx) => tx in w.sent && tx !in w.mined
  }

  ghost function LiveOf(db: Db, k: Pair): set<Tx> {
    set t | t in db.attempts && t.slot.pair == k && db.attempts[t].status.Live()
  }

  ghost function SetFlight(w: World, e: nat, k: Pair, f: Flight, more: set<Tx>): World
    requires e in w.procs
  {
    var p := w.procs[e];
    w.(procs := w.procs[e := p.(flights := p.flights[k := f], held := p.held + more)])
  }

  ghost function DropFlight(w: World, e: nat, k: Pair): World
    requires e in w.procs
  {
    var p := w.procs[e];
    w.(procs := w.procs[e := p.(flights := p.flights - {k})])
  }

  ghost function SetCursor(w: World, e: nat, k: Pair, n: nat): World
    requires e in w.procs
  {
    var p := w.procs[e];
    w.(procs := w.procs[e := p.(cursor := p.cursor[k := n], walk := p.walk - {k})])
  }

  ghost function AfterBindFirst(w: World, e: nat, tx: Tx, reported: bool): World
    requires CanBindFirst(w, e, tx)
  {
    var (db, r) := Store.Bind(w.db, e, tx, Store.First);
    var w1 := w.(db := db);
    if r.Bound? && reported then
      SetFlight(SetCursor(w1, e, tx.slot.pair, tx.slot.nonce + 1), e, tx.slot.pair, Flight(tx.owner, tx.slot.nonce, {tx}, true, false), {tx})
    else w1
  }

  ghost function AfterBindMore(w: World, e: nat, tx: Tx, kind: Store.BindKind, reported: bool): World
    requires CanBindMore(w, e, tx, kind)
  {
    var (db, r) := Store.Bind(w.db, e, tx, kind);
    var w1 := w.(db := db);
    var f := w.procs[e].flights[tx.slot.pair];
    if r.Bound? && reported then SetFlight(w1, e, tx.slot.pair, f.(attempts := f.attempts + {tx}), {tx})
    else if kind.Cancel? then SetFlight(w1, e, tx.slot.pair, f.(cancelLost := true), {})
    else w1
  }

  /**
   The tables after a void. `escaped` records what a stateless reject gave up although it was not rejected
   itself, `missed` what a foreign void gave up although it holds the nonce.
   */
  ghost function Voided(w: World, e: nat, tx: Tx, mode: Store.VoidMode, d: Store.Disposition): World {
    w.(db := Store.Void(w.db, e, tx, mode, d).0,
       escaped := if w.db.epoch == e && mode.NonceUnused? then w.escaped + StillAlive(w, tx) else w.escaped,
       missed := if w.db.epoch == e && !mode.NonceUnused? then w.missed + Overlooked(w, tx) else w.missed)
  }

  ghost function AfterVoid(w: World, e: nat, k: Pair, tx: Tx, mode: Store.VoidMode, d: Store.Disposition, reported: bool): World
    requires HasFlight(w, e, k)
  {
    var committed := Store.Void(w.db, e, tx, mode, d).1;
    var w1 := Voided(w, e, tx, mode, d);
    if committed && reported then
      var w2 := DropFlight(w1, e, k);
      if mode.NonceUnused? then SetCursor(w2, e, k, tx.slot.nonce) else w2
    else w1
  }

  ghost function Apply(w: World, a: Action): World
    requires Enabled(w, a)
  {
    match a
    case AddJob(j, c) => w.(db := Store.AddJob(w.db, j, c))
    case AddTopup(t) => w.(db := Store.AddTopup(w.db, t))
    case FailQueued(j) => w.(db := Store.FailQueued(w.db, j))
    case RequeueFront(j) => w.(db := Store.RequeueFront(w.db, j))
    case FailTopup(t) => w.(db := Store.FailTopup(w.db, t))
    case Acquire => w.(db := Store.BumpEpoch(w.db), procs := w.procs[w.db.epoch + 1 := Proc(map[], map[], map[], {})])
    case Crash(e) => w.(procs := w.procs - {e})
    case BindFirst(e, tx, reported) => AfterBindFirst(w, e, tx, reported)
    case BindMore(e, tx, kind, reported) => AfterBindMore(w, e, tx, kind, reported)
    case Send(e, k, tx) => w.(sent := w.sent + {tx})
    case Accepted(e, k) => SetFlight(w, e, k, w.procs[e].flights[k].(unaccepted := false), {})
    case VoidUnused(e, k, tx, reported) => AfterVoid(w, e, k, tx, Store.NonceUnused, Store.Fail, reported)
    case VoidForeign(e, k, tx, reported) => AfterVoid(w, e, k, tx, Store.NonceTakenByForeignTx, Store.Requeue, reported)
    case EndFlight(e, k) => DropFlight(w, e, k)
    case LoadLive(e, k) =>
      var p := w.procs[e];
      var live := LiveOf(w.db, k);
      w.(procs := w.procs[e := p.(walk := p.walk[k := live], held := p.held + live)])
    case Resume(e, k, nonce, txs) =>
      var t :| t in txs;
      SetFlight(w, e, k, Flight(t.owner, nonce, txs, false, false), {})
    case RecoverDone(e, k, chainNonce) =>
      var db := Store.EnsurePair(w.db, k);
      SetCursor(w.(db := db), e, k, Max(chainNonce, Mark(db.pairs, k) + 1))
    case SettleInclusion(_, tx, inc, confirmNow) => w.(db := Store.Settle(w.db, tx, inc, confirmNow, false).0)
    case SettleConfirmation(tx) => w.(db := Store.Confirm(w.db, tx).0)
    case Demote(tx) => w.(db := Store.Demote(w.db, tx).0)
    case Mine(tx) => w.(chain := w.chain[tx.slot := Ours(tx)], mined := w.mined + {tx})
    case MineForeign(s) => w.(chain := w.chain[s := Foreign])
    case Reorg(gone) => w.(chain := w.chain - gone)
    case Finalize(s) => w.(final := w.final + {s})
    case Reject(tx) => w.(dead := w.dead + {tx})
  }

  /** The tables after an action: what any sequence of store calls, in any order, can do to them. */
  function DbAfter(db: Db, a: Action): Db {
    match a
    case AddJob(j, c) => Store.AddJob(db, j, c)
    case AddTopup(t) => Store.AddTopup(db, t)
    case FailQueued(j) => Store.FailQueued(db, j)
    case RequeueFront(j) => Store.RequeueFront(db, j)
    case FailTopup(t) => Store.FailTopup(db, t)
    case Acquire => Store.BumpEpoch(db)
    case BindFirst(e, tx, _) => Store.Bind(db, e, tx, Store.First).0
    case BindMore(e, tx, kind, _) => Store.Bind(db, e, tx, kind).0
    case VoidUnused(e, _, tx, _) => Store.Void(db, e, tx, Store.NonceUnused, Store.Fail).0
    case VoidForeign(e, _, tx, _) => Store.Void(db, e, tx, Store.NonceTakenByForeignTx, Store.Requeue).0
    case RecoverDone(_, k, _) => Store.EnsurePair(db, k)
    case SettleInclusion(_, tx, inc, confirmNow) => Store.Settle(db, tx, inc, confirmNow, false).0
    case SettleConfirmation(tx) => Store.Confirm(db, tx).0
    case Demote(tx) => Store.Demote(db, tx).0
    case _ => db
  }

  lemma TablesFollow(w: World, a: Action)
    requires Enabled(w, a)
    ensures Apply(w, a).db == DbAfter(w.db, a)
  {}

  /** A run starts from empty tables and takes enabled steps only. */
  ghost predicate IsRun(ws: seq<World>, acts: seq<Action>) {
    && |ws| == |acts| + 1
    && ws[0] == Empty
    && forall i {:trigger acts[i]} :: 0 <= i < |acts| ==> Enabled(ws[i], acts[i]) && ws[i + 1] == Apply(ws[i], acts[i])
  }

  /** Any sequence of store calls with any arguments, in particular the tables of any run of the system. */
  ghost predicate IsTableRun(dbs: seq<Db>, acts: seq<Action>) {
    && |dbs| == |acts| + 1
    && dbs[0] == Empty.db
    && forall i {:trigger acts[i]} :: 0 <= i < |acts| ==> dbs[i + 1] == DbAfter(dbs[i], acts[i])
  }

  lemma TablesOfRun(ws: seq<World>, acts: seq<Action>) returns (dbs: seq<Db>)
    requires IsRun(ws, acts)
    ensures IsTableRun(dbs, acts) && forall i :: 0 <= i < |ws| ==> dbs[i] == ws[i].db
  {
    dbs := seq(|ws|, i requires 0 <= i < |ws| => ws[i].db);
    forall i | 0 <= i < |acts| ensures dbs[i + 1] == DbAfter(dbs[i], acts[i]) { TablesFollow(ws[i], acts[i]); }
  }
}
