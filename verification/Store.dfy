/**
 Every SQL transaction of the store as a function from tables to tables: the specification that the
 imperative `Database` meets and that all protocol proofs reason about. A refused transaction returns
 the tables unchanged.
 */
module Store {
  import opened Domain

  datatype BindKind = First | Replacement | Cancel

  datatype BindResult = Bound | Fenced | SlotTaken | StateConflict | DuplicateHash

  datatype VoidMode = NonceUnused | NonceTakenByForeignTx

  datatype Disposition = Requeue | Fail

  datatype Settled = Applied | Noop | OwnerConflict | MinedTwice

  // ---- Outbox and counters, written inside other transactions ----

  /** Highest version issued so far for this job and event; 0 when none. */
  function MaxVersion(ds: seq<Delivery>, j: nat, e: Event): (v: nat) {
    if ds == [] then 0
    else
      var d := ds[|ds| - 1];
      var rest := MaxVersion(ds[..|ds| - 1], j, e);
      if d.job == j && d.event == e && d.version > rest then d.version else rest
  }

  function Enqueue(ds: seq<Delivery>, now: int, j: nat, e: Event, sequence: nat, reincluded: bool): seq<Delivery> {
    var version := MaxVersion(ds, j, e) + 1;
    ds + [Delivery(j, e, version, sequence, reincluded || (e.Included? && version > 1), Pending, now, 0)]
  }

  function AddGas(gas: map<GasKey, GasRow>, key: GasKey, n: int, used: int, fee: int): map<GasKey, GasRow> {
    if key in gas then
      gas[key := GasRow(gas[key].count + n, Max(gas[key].gas + used, 0), Max(gas[key].fee + fee, 0))]
    else
      gas[key := GasRow(Max(n, 0), Max(used, 0), Max(fee, 0))]
  }

  function BumpRollup(rollup: map<RollupKey, nat>, key: RollupKey): map<RollupKey, nat> {
    rollup[key := if key in rollup then rollup[key] + 1 else 1]
  }

  /** The counter a terminal job is counted under; `row` must be terminal for the answer to mean anything. */
  function RollupKeyOf(row: JobRow): RollupKey {
    RollupKey(row.chain, if row.binding.Some? then Some(row.binding.value.pair.signer) else None,
              if row.status.Failed? then FailedJobs else if row.outcome == Some(Success) then Succeeded else RevertedJobs)
  }

  function EventOf(status: JobStatus): Event {
    if status.Included? then Event.Included else if status.Confirmed? then Event.Confirmed else Event.Failed
  }

  /**
   Writes a job row. A transition that raises `webhookSeq` enqueues its event in the same transaction,
   and one that is terminal is also counted; the source does this at each of its five call sites.
   */
  function PutJob(db: Db, j: nat, row: JobRow, reincluded: bool): (r: Db)
    requires j in db.jobs
    ensures r.jobs == db.jobs[j := row] && r.topups == db.topups && r.attempts == db.attempts && r.slots == db.slots
    ensures r.pairs == db.pairs && r.epoch == db.epoch && r.gas == db.gas && r.clock == db.clock
  {
    var announced := row.webhookSeq > db.jobs[j].webhookSeq;
    db.(jobs := db.jobs[j := row],
        deliveries := if announced then Enqueue(db.deliveries, db.clock, j, EventOf(row.status), row.webhookSeq, reincluded)
                      else db.deliveries,
        rollup := if announced && row.status.Terminal() then BumpRollup(db.rollup, RollupKeyOf(row)) else db.rollup)
  }

  // ---- The owner's row in each transaction that drives an attempt ----

  datatype Change = ToBound(kind: BindKind) | ToIncluded(inc: Inclusion) | ToConfirmed | ToDemoted | ToVoided(d: Disposition)

  function FailedRow(row: JobRow): JobRow {
    row.(status := JobStatus.Failed, webhookSeq := row.webhookSeq + 1)
  }

  /** The job row of `tx` after the transaction; unchanged where the UPDATE's WHERE clause misses. */
  function NextJob(row: JobRow, tx: Tx, c: Change): JobRow {
    match c
    case ToBound(First) => row.(status := JobStatus.Sent, binding := Some(tx.slot), txHash := Some(tx))
    case ToBound(Replacement) => row.(txHash := Some(tx))
    case ToBound(Cancel) => row.(status := JobStatus.Cancelling)
    case ToIncluded(inc) =>
      // a mined cancel consumes the nonce; the job fails only once that is confirmed
      if !tx.purpose.ForJob? then row
      else row.(status := JobStatus.Included, outcome := Some(inc.outcome), txHash := Some(tx), webhookSeq := row.webhookSeq + 1)
    case ToConfirmed =>
      if tx.purpose.ForJob? then
        if row.status.Included? then row.(status := JobStatus.Confirmed, webhookSeq := row.webhookSeq + 1) else row
      else
        if row.status.Cancelling? then FailedRow(row) else row
    case ToDemoted =>
      if tx.purpose.ForJob? && row.status.Included? then row.(status := JobStatus.Sent, outcome := None) else row
    case ToVoided(d) =>
      if !row.status.Bindable() then row
      else if d.Fail? then FailedRow(row)
      else row.(status := JobStatus.Queued, binding := None, txHash := None, requeues := row.requeues + 1)
  }

  /** Top-ups take no notice of an attempt's purpose: a mined cancel moves them like a mined payload. */
  function NextTopup(status: TopupStatus, c: Change): TopupStatus {
    match c
    case ToBound(_) => TopupStatus.Sent
    case ToIncluded(_) => if status.Sent? then TopupStatus.Included else status
    case ToConfirmed => if status.Included? then TopupStatus.Confirmed else status
    case ToDemoted => if status.Included? then TopupStatus.Sent else status
    case ToVoided(_) => if status.Sent? then TopupStatus.Failed else status
  }

  function JobsAfter(jobs: Jobs, tx: Tx, c: Change): Jobs {
    if tx.owner.Job? && tx.owner.job in jobs then jobs[tx.owner.job := NextJob(jobs[tx.owner.job], tx, c)] else jobs
  }

  function TopupsAfter(topups: Topups, tx: Tx, c: Change): Topups {
    if tx.owner.Topup? && tx.owner.topup in topups then topups[tx.owner.topup := NextTopup(topups[tx.owner.topup], c)] else topups
  }

  function PutOwner(db: Db, tx: Tx, c: Change, reincluded: bool): (r: Db)
    ensures r.jobs == JobsAfter(db.jobs, tx, c) && r.topups == TopupsAfter(db.topups, tx, c)
    ensures r.attempts == db.attempts && r.slots == db.slots && r.pairs == db.pairs && r.epoch == db.epoch && r.gas == db.gas
    ensures r.clock == db.clock
  {
    match tx.owner
    case Job(j) => if j in db.jobs then PutJob(db, j, NextJob(db.jobs[j], tx, c), reincluded) else db
    case Topup(t) => if t in db.topups then db.(topups := db.topups[t := NextTopup(db.topups[t], c)]) else db
  }

  // ---- Jobs and top-ups ----

  function AddJob(db: Db, j: nat, chain: nat): Db {
    if j in db.jobs then db else db.(jobs := db.jobs[j := JobRow(chain, JobStatus.Queued, None, None, None, 0, 0)])
  }

  function AddTopup(db: Db, t: nat): Db {
    if t in db.topups then db else db.(topups := db.topups[t := Requested])
  }

  /** `fail_job` as its callers use it: only a queued job may be failed this way. */
  function FailQueued(db: Db, j: nat): Db {
    if j in db.jobs && db.jobs[j].status.Queued? then PutJob(db, j, FailedRow(db.jobs[j]), false) else db
  }

  function RequeueFront(db: Db, j: nat): Db {
    if j in db.jobs && db.jobs[j].status.Queued? then
      PutJob(db, j, db.jobs[j].(requeues := db.jobs[j].requeues + 1), false)
    else db
  }

  function FailTopup(db: Db, t: nat): Db {
    if t in db.topups && db.topups[t].Requested? then db.(topups := db.topups[t := TopupStatus.Failed]) else db
  }

  function EnsurePair(db: Db, k: Pair): Db {
    if k in db.pairs then db else db.(pairs := db.pairs[k := None])
  }

  function BumpEpoch(db: Db): Db { db.(epoch := db.epoch + 1) }

  // ---- Binding ----

  /** The compare-and-set on the nonce slot. */
  predicate SlotFits(db: Db, tx: Tx, kind: BindKind) {
    if kind.First? then tx.slot !in db.slots else tx.slot in db.slots && db.slots[tx.slot] == tx.owner
  }

  /** The conditional status update of the owner matches a row. */
  predicate OwnerMoves(db: Db, tx: Tx, kind: BindKind) {
    match tx.owner
    case Job(j) => j in db.jobs && (if kind.First? then db.jobs[j].status.Queued? else db.jobs[j].status.Bindable())
    case Topup(t) => t in db.topups && (if kind.First? then db.topups[t].Requested? else db.topups[t].Sent?)
  }

  function RaiseMark(pairs: Pairs, s: Slot): Pairs {
    if s.pair in pairs then
      pairs[s.pair := Some(if pairs[s.pair].Some? && pairs[s.pair].value > s.nonce then pairs[s.pair].value else s.nonce)]
    else pairs
  }

  function Bind(db: Db, epoch: nat, tx: Tx, kind: BindKind): (r: (Db, BindResult)) {
    if db.epoch != epoch then (db, Fenced)
    else if !SlotFits(db, tx, kind) then (db, SlotTaken)
    else if tx in db.attempts then (db, DuplicateHash)
    else if !OwnerMoves(db, tx, kind) then (db, StateConflict)
    else (AfterBind(db, tx, kind), Bound)
  }

  /** The tables after a bind whose gates all passed. */
  function AfterBind(db: Db, tx: Tx, kind: BindKind): Db {
    PutOwner(db.(slots := if kind.First? then db.slots[tx.slot := tx.owner] else db.slots,
                 attempts := db.attempts[tx := AttemptRow(AttemptStatus.Broadcast, true, 0, 0)],
                 pairs := RaiseMark(db.pairs, tx.slot)),
             tx, ToBound(kind), false)
  }

  // ---- Inclusion, confirmation, demotion ----

  /** The unique index on mined attempts would refuse this inclusion. */
  predicate SlotMinedByOther(attempts: Attempts, tx: Tx) {
    exists t :: t in attempts && t != tx && t.slot == tx.slot && attempts[t].status.Mined()
  }

  function IncludedAttempts(attempts: Attempts, tx: Tx, inc: Inclusion): Attempts {
    map t | t in attempts ::
      if t == tx then attempts[t].(status := AttemptStatus.Included, gasUsed := inc.gasUsed, feePaid := inc.feePaid)
      else if t.slot == tx.slot && attempts[t].status.Broadcast? then attempts[t].(status := AttemptStatus.Replaced)
      else attempts[t]
  }

  /** Whether the owner accepts the inclusion of `tx`; only a payload of a job can be refused. */
  predicate InclusionFits(jobs: Jobs, tx: Tx) {
    tx.owner.Job? && tx.purpose.ForJob? ==> tx.owner.job in jobs && jobs[tx.owner.job].status.Bindable()
  }

  function AfterInclusion(db: Db, tx: Tx, inc: Inclusion, reincluded: bool): Db {
    PutOwner(db.(attempts := IncludedAttempts(db.attempts, tx, inc),
                 gas := AddGas(db.gas, GasKey(tx.slot.pair, tx.purpose), 1, inc.gasUsed, inc.feePaid)),
             tx, ToIncluded(inc), reincluded)
  }

  function Settle(db: Db, tx: Tx, inc: Inclusion, confirmNow: bool, reincluded: bool): (r: (Db, Settled)) {
    if tx !in db.attempts || !db.attempts[tx].status.Broadcast? then (db, Noop)
    else if SlotMinedByOther(db.attempts, tx) then (db, MinedTwice)
    else if !InclusionFits(db.jobs, tx) then (db, OwnerConflict)
    else
      var included := AfterInclusion(db, tx, inc, reincluded);
      (if confirmNow then Confirm(included, tx).0 else included, Applied)
  }

  function ConfirmedAttempts(attempts: Attempts, tx: Tx): Attempts {
    map t | t in attempts ::
      if t == tx then attempts[t].(status := AttemptStatus.Confirmed, raw := false)
      else if t.slot == tx.slot && attempts[t].status.Replaced? then attempts[t].(raw := false)
      else attempts[t]
  }

  function Confirm(db: Db, tx: Tx): (r: (Db, Settled)) {
    if tx !in db.attempts || !db.attempts[tx].status.Included? then (db, Noop)
    else (PutOwner(db.(attempts := ConfirmedAttempts(db.attempts, tx)), tx, ToConfirmed, false), Applied)
  }

  function Demote(db: Db, tx: Tx): (r: (Db, Settled)) {
    if tx !in db.attempts || !db.attempts[tx].status.Included? then (db, Noop)
    else
      var row := db.attempts[tx];
      (PutOwner(db.(attempts := db.attempts[tx := row.(status := AttemptStatus.Broadcast)],
                    gas := AddGas(db.gas, GasKey(tx.slot.pair, tx.purpose), -1, 0 - row.gasUsed, 0 - row.feePaid)),
                tx, ToDemoted, false), Applied)
  }

  // ---- Voiding a binding ----

  function DroppedAttempts(attempts: Attempts, s: Slot): Attempts {
    map t | t in attempts ::
      if t.slot == s && attempts[t].status.Broadcast? then attempts[t].(status := AttemptStatus.Dropped, raw := false)
      else attempts[t]
  }

  function LowerMark(pairs: Pairs, s: Slot): Pairs {
    if s.pair in pairs && pairs[s.pair] == Some(s.nonce) then
      pairs[s.pair := if s.nonce == 0 then None else Some(s.nonce - 1)]
    else pairs
  }

  function FreedSlots(slots: map<Slot, Owner>, tx: Tx): map<Slot, Owner> {
    if tx.slot in slots && slots[tx.slot] == tx.owner then slots - {tx.slot} else slots
  }

  function Void(db: Db, epoch: nat, tx: Tx, mode: VoidMode, d: Disposition): (r: (Db, bool)) {
    if db.epoch != epoch then (db, false)
    else
      (PutOwner(db.(attempts := DroppedAttempts(db.attempts, tx.slot),
                    slots := if mode.NonceUnused? then FreedSlots(db.slots, tx) else db.slots,
                    pairs := if mode.NonceUnused? then LowerMark(db.pairs, tx.slot) else db.pairs),
                tx, ToVoided(d), false), true)
  }
}
