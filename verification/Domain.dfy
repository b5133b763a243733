/**
 The engine's nouns: pairs, nonce slots, signed transactions, and the rows of the Postgres tables.
 A signed transaction stands for its own hash: `salt` is the part of a signature that differs between
 two signings of the same fields, so equal values mean equal bytes.
 */
module Domain {

  datatype Option<+T> = None | Some(value: T)

  /** One (chain, signer) pair; it owns a nonce sequence. */
  datatype Pair = Pair(chain: nat, signer: nat)

  datatype Slot = Slot(pair: Pair, nonce: nat)

  datatype Owner = Job(job: nat) | Topup(topup: nat)

  datatype Purpose = ForJob | ForTopup | ForCancel

  datatype FeeQuote = FeeQuote(maxFee: nat, tip: nat)

  datatype Tx = Tx(slot: Slot, purpose: Purpose, owner: Owner, gasLimit: nat, fees: FeeQuote, value: nat, salt: nat)
  {
    /** A cancel is a zero-value self-transfer; everything else carries its owner's payload. */
    predicate Payload() { !purpose.ForCancel? }
  }

  datatype Outcome = Success | Reverted

  datatype Inclusion = Inclusion(outcome: Outcome, gasUsed: nat, feePaid: nat)

  datatype JobStatus = Queued | Sent | Included | Confirmed | Cancelling | Failed
  {
    predicate Terminal() { Confirmed? || Failed? }
    predicate Bindable() { Sent? || Cancelling? }
  }

  datatype TopupStatus = Requested | Sent | Included | Confirmed | Failed

  datatype AttemptStatus = Broadcast | Included | Confirmed | Replaced | Dropped
  {
    /** What recovery loads: no receipt yet, or awaiting confirmation. */
    predicate Live() { Broadcast? || Included? }
    predicate Mined() { Included? || Confirmed? }
    /** Lost for good: no transition leads out of these. */
    predicate Retired() { Replaced? || Dropped? }
  }

  /** `binding` is the row's (signer, nonce); `webhookSeq` numbers the job's events. */
  datatype JobRow = JobRow(chain: nat, status: JobStatus, outcome: Option<Outcome>, binding: Option<Slot>,
                           txHash: Option<Tx>, webhookSeq: nat, requeues: nat)

  /** `raw` says whether the signed bytes are still stored. */
  datatype AttemptRow = AttemptRow(status: AttemptStatus, raw: bool, gasUsed: nat, feePaid: nat)

  datatype GasKey = GasKey(pair: Pair, purpose: Purpose)

  datatype GasRow = GasRow(count: int, gas: int, fee: int)

  datatype Bucket = Succeeded | RevertedJobs | FailedJobs

  /** `signer` is None for a job that never reached a signer. */
  datatype RollupKey = RollupKey(chain: nat, signer: Option<nat>, bucket: Bucket)

  datatype Event = Included | Confirmed | Failed

  datatype DeliveryStatus = Pending | Delivered | Dead

  datatype Delivery = Delivery(job: nat, event: Event, version: nat, sequence: nat, reincluded: bool,
                               status: DeliveryStatus, dueAt: int, tries: nat)

  /** All tables as one value; `clock` is the database's now(). */
  datatype Db = Db(epoch: nat, jobs: map<nat, JobRow>, topups: map<nat, TopupStatus>,
                   attempts: map<Tx, AttemptRow>, slots: map<Slot, Owner>, pairs: map<Pair, Option<nat>>,
                   gas: map<GasKey, GasRow>, rollup: map<RollupKey, nat>, deliveries: seq<Delivery>, clock: int)

  type Jobs = map<nat, JobRow>

  type Topups = map<nat, TopupStatus>

  type Attempts = map<Tx, AttemptRow>

  type Pairs = map<Pair, Option<nat>>

  /** The pair's high-water mark, with NULL (and a missing row) read as -1. */
  function Mark(pairs: Pairs, k: Pair): int {
    if k in pairs && pairs[k].Some? then pairs[k].value else -1
  }

  function Max(a: int, b: int): int { if a >= b then a else b }

  function Min(a: int, b: int): int { if a <= b then a else b }
}
