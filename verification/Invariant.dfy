/**
 What every reachable state of the system satisfies. `Impossible` is the notion everything rests on: a
 signed transaction that can never be on the canonical chain again, whatever happens next.
 */
module Invariant {
  import opened Domain
  import opened World

  ghost predicate Impossible(w: World, tx: Tx) {
    || tx in w.dead
    || (tx.slot in w.final && tx.slot in w.chain && w.chain[tx.slot] != Ours(tx))
    || (tx in w.db.attempts && w.db.attempts[tx].status.Retired() && Unheld(w, tx))
  }

  /** The owner's row stands behind `tx`: it is bound to exactly this nonce and, unless `tx` escaped, has not been given up. */
  ghost predicate OwnerStands(jobs: Jobs, topups: Topups, escaped: set<Tx>, tx: Tx) {
    match tx.owner
    case Job(j) =>
      && j in jobs && jobs[j].binding == Some(tx.slot) && !jobs[j].status.Queued?
      && (tx.Payload() && tx !in escaped ==> !jobs[j].status.Failed?)
    case Topup(t) => t in topups && (tx.Payload() && tx !in escaped ==> !topups[t].Failed?)
  }

  ghost predicate OwnerKnown(jobs: Jobs, topups: Topups, tx: Tx) {
    match tx.owner
    case Job(j) => j in jobs && !tx.purpose.ForTopup?
    case Topup(t) => t in topups && !tx.purpose.ForJob?
  }

  /** How an attempt's status and its job's status go together. */
  ghost predicate JobAgrees(row: JobRow, tx: Tx, st: AttemptStatus) {
    && (tx.Payload() && (st.Live() || st.Confirmed?) ==> row.binding == Some(tx.slot) && !row.status.Queued?)
    && (tx.Payload() && st.Included? ==> row.status.Included?)
    && (tx.Payload() && st.Confirmed? ==> row.status.Confirmed?)
  }

  ghost predicate AttemptOk(w: World, tx: Tx)
    requires tx in w.db.attempts
  {
    var row := w.db.attempts[tx];
    && OwnerKnown(w.db.jobs, w.db.topups, tx)
    && (row.status.Live() ==> row.raw)
    && (Impossible(w, tx) || tx in w.missed || OwnerStands(w.db.jobs, w.db.topups, w.escaped, tx))
    && (tx in w.missed && !tx.Payload() ==> row.status.Dropped?)
    && (row.status.Mined() ==> tx in w.mined)
    && (row.status.Confirmed? ==> FinalOurs(w, tx))
    && (tx.owner.Job? ==> JobAgrees(w.db.jobs[tx.owner.job], tx, row.status))
  }

  ghost predicate AttemptsOk(w: World) {
    forall tx :: tx in w.db.attempts ==> AttemptOk(w, tx)
  }

  ghost predicate PayloadOf(tx: Tx, j: nat) { tx.owner == Job(j) && tx.Payload() }

  /** A job has at most one payload recorded as included. */
  ghost predicate IncludedOnce(attempts: Attempts) {
    forall t, u :: t in attempts && u in attempts && t.owner == u.owner && t.owner.Job? && t.Payload() && u.Payload() ==>
      attempts[t].status.Included? && attempts[u].status.Included? ==> t == u
  }

  /** A queued job is bound to nothing, an included or confirmed one has the attempt to show for it. */
  ghost predicate JobOk(row: JobRow, attempts: Attempts, j: nat) {
    && (row.status.Queued? ==> row.binding.None?)
    && (row.status.Included? ==> exists tx :: tx in attempts && PayloadOf(tx, j) && attempts[tx].status.Included?)
    && (row.status.Confirmed? ==> exists tx :: tx in attempts && PayloadOf(tx, j) && attempts[tx].status.Confirmed?)
  }

  ghost predicate JobsOk(jobs: Jobs, attempts: Attempts) {
    forall j :: j in jobs ==> JobOk(jobs[j], attempts, j)
  }

  ghost predicate SlotOk(w: World, s: Slot)
    requires s in w.db.slots
  {
    && s.pair in w.db.pairs && s.nonce <= Mark(w.db.pairs, s.pair)
    && match w.db.slots[s]
       case Job(j) =>
         j in w.db.jobs && ((w.db.jobs[j].binding == Some(s) && !w.db.jobs[j].status.Queued?) || s in w.final)
       case Topup(t) =>
         t in w.db.topups && !w.db.topups[t].Requested? && forall tx :: tx in w.db.attempts && tx.owner == Topup(t) ==> tx.slot == s
  }

  ghost predicate SlotsOk(w: World) {
    forall s :: s in w.db.slots ==> SlotOk(w, s)
  }

  ghost predicate TopupsOk(topups: Topups, attempts: Attempts) {
    && (forall t, u :: t in attempts && u in attempts && t.owner == u.owner && t.owner.Topup? ==> t.slot == u.slot)
    && (forall t :: t in attempts && t.owner.Topup? && t.owner.topup in topups ==> !topups[t.owner.topup].Requested?)
  }

  ghost predicate FlightOk(p: Proc, k: Pair)
    requires k in p.flights
  {
    var f := p.flights[k];
    && f.attempts != {}
    && forall t :: t in f.attempts ==> t in p.held && t.slot == Slot(k, f.nonce) && t.owner == f.owner
  }

  ghost predicate WalkOk(p: Proc, k: Pair)
    requires k in p.walk
  {
    forall t :: t in p.walk[k] ==> t in p.held && t.slot.pair == k
  }

  ghost predicate ProcOk(stored: set<Tx>, p: Proc) {
    && p.held <= stored
    && (forall k :: k in p.flights ==> FlightOk(p, k))
    && (forall k :: k in p.walk ==> WalkOk(p, k))
  }

  ghost predicate ProcsOk(procs: map<nat, Proc>, epoch: nat, stored: set<Tx>) {
    forall e :: e in procs ==> e <= epoch && ProcOk(stored, procs[e])
  }

  /** Unless a committed void went unreported, the flight's owner holds its nonce and the mark sits on it. */
  ghost predicate FreshFlightOk(slots: map<Slot, Owner>, pairs: Pairs, p: Proc, k: Pair)
    requires k in p.flights
  {
    var f := p.flights[k];
    var s := Slot(k, f.nonce);
    && k !in p.walk && k in p.cursor && p.cursor[k] == f.nonce + 1
    && (if s in slots then slots[s] == f.owner && Mark(pairs, k) == f.nonce else Mark(pairs, k) < f.nonce)
    && exists t :: t in f.attempts && t.Payload()
  }

  /** A job whose payload the leader is driving is bound nowhere else. */
  ghost predicate DrivenHere(jobs: Jobs, t: Tx) {
    t.owner.Job? && t.Payload() ==>
      && t.owner.job in jobs
      && var row := jobs[t.owner.job];
         row.status.Queued? || (row.status.Failed? && row.binding.None?) || row.binding == Some(t.slot)
  }

  ghost predicate BoundHere(jobs: Jobs, t: Tx) {
    t.owner.Job? && t.Payload() ==>
      t.owner.job in jobs && !jobs[t.owner.job].status.Queued? && jobs[t.owner.job].binding == Some(t.slot)
  }

  ghost predicate LeaderFlightOk(db: Db, p: Proc, k: Pair)
    requires k in p.flights
  {
    && (p.flights[k].unaccepted ==> FreshFlightOk(db.slots, db.pairs, p, k))
    && (forall t :: t in p.flights[k].attempts ==> DrivenHere(db.jobs, t))
  }

  ghost predicate CursorOk(db: Db, p: Proc, k: Pair)
    requires k in p.cursor
  {
    k in db.pairs && (Mark(db.pairs, k) < p.cursor[k] || Slot(k, p.cursor[k]) in db.slots)
  }

  ghost predicate LeaderOk(db: Db, procs: map<nat, Proc>) {
    db.epoch in procs ==>
      var p := procs[db.epoch];
      && (forall k :: k in p.flights ==> LeaderFlightOk(db, p, k))
      && (forall k, t :: k in p.walk && t in p.walk[k] ==> BoundHere(db.jobs, t))
      && (forall k :: k in p.cursor ==> CursorOk(db, p, k))
  }

  ghost predicate ChainOk(w: World) {
    && (forall t :: t in w.sent ==> t in w.db.attempts)
    && (forall t :: t in w.mined ==> t in w.sent && t !in w.dead)
    && (forall s :: s in w.chain && w.chain[s].Ours? ==> w.chain[s].tx.slot == s && w.chain[s].tx in w.mined)
    && (forall s :: s in w.final ==> s in w.chain)
    && (forall t :: t in w.missed ==> t in w.db.attempts && FinalOurs(w, t))
  }

  ghost predicate Inv(w: World) {
    && AttemptsOk(w) && IncludedOnce(w.db.attempts) && JobsOk(w.db.jobs, w.db.attempts) && SlotsOk(w)
    && TopupsOk(w.db.topups, w.db.attempts) && ProcsOk(w.procs, w.db.epoch, w.db.attempts.Keys)
    && LeaderOk(w.db, w.procs) && ChainOk(w)
  }

  /** A cancel the driver does not know of is out of play, unless its bind is known to be in doubt. */
  ghost predicate CancelsOk(w: World) {
    w.db.epoch in w.procs ==>
      forall k, t :: k in w.procs[w.db.epoch].flights && UnknownCancel(w, k, t) ==> w.db.attempts[t].status.Dropped? || Impossible(w, t)
  }

  /** A stored cancel at the leader's unacknowledged nonce that its driver neither tracks nor has reason to suspect. */
  ghost predicate UnknownCancel(w: World, k: Pair, t: Tx)
    requires w.db.epoch in w.procs && k in w.procs[w.db.epoch].flights
  {
    var f := w.procs[w.db.epoch].flights[k];
    f.unaccepted && !f.cancelLost && t in w.db.attempts && t.slot == Slot(k, f.nonce) && t.owner == f.owner && !t.Payload() && t !in f.attempts
  }

  // ---- Ownership of nonces; a void over a recorded inclusion can break it ----

  /** The attempt through which recovery finds a job again. */
  ghost predicate Carries(row: JobRow, attempts: Attempts, j: nat, tx: Tx) {
    tx in attempts && tx.owner == Job(j) && row.binding == Some(tx.slot) && attempts[tx].status.Live()
  }

  /** Attempts in play belong to the owner of their slot; `torn` are the nonces for which that is not promised. */
  ghost predicate SlotsOwned(attempts: Attempts, slots: map<Slot, Owner>, torn: set<Slot>) {
    forall tx :: tx in attempts && !attempts[tx].status.Dropped? && tx.slot !in torn ==> tx.slot in slots && slots[tx.slot] == tx.owner
  }

  /** A job that was sent is bound, and can be found again unless its nonce was torn. */
  ghost predicate Kept(row: JobRow, attempts: Attempts, j: nat, torn: set<Slot>) {
    row.binding.Some? && (row.binding.value !in torn ==> exists tx :: Carries(row, attempts, j, tx))
  }

  /** A job without a receipt can be found again; its live cancel shows in its status. */
  ghost predicate JobsCarried(jobs: Jobs, attempts: Attempts, torn: set<Slot>) {
    && (forall j :: j in jobs && jobs[j].status.Bindable() ==> Kept(jobs[j], attempts, j, torn))
    && (forall tx :: tx in attempts && tx.owner.Job? && tx.owner.job in jobs && !tx.Payload() && tx.slot !in torn
                     && Carries(jobs[tx.owner.job], attempts, tx.owner.job, tx) ==>
          jobs[tx.owner.job].status.Cancelling? || jobs[tx.owner.job].status.Failed?)
  }

  /** Ownership of nonces, everywhere but at those that were torn from their slots. */
  ghost predicate OwnedBut(db: Db, torn: set<Slot>) { SlotsOwned(db.attempts, db.slots, torn) && JobsCarried(db.jobs, db.attempts, torn) }

  ghost predicate Owned(db: Db) { OwnedBut(db, {}) }
}
