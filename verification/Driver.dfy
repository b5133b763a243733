/**
 The driver of one nonce: broadcast, watch, and walk the chain kind's stuck ladder until the nonce is
 mined or given up. Everything the outside world answers arrives in `Round`s, one per turn of the loop,
 so a result over all sequences of rounds is a result over all behaviours of node, signer and store.
 */
module Driver {
  import opened Domain
  import opened Fees
  import opened Costs
  import opened Balance
  import opened Ledgers
  import opened DriveLog
  import World
  import Store

  datatype StuckStep = Rebroadcast | Diagnose | Bump | Noop

  datatype SendClass = AlreadyKnown | AcceptedPending | Indeterminate | PoolBusy | NonceTooLow | NonceTooHigh
                     | FeeTooLow | InsufficientFunds | Deterministic

  datatype SendAnswer = Accepted | MinedAtOnce(receipt: Receipt) | NotDelivered | SendError(reason: SendClass)

  /** `Failed` covers every refusal and every error, including a commit whose acknowledgement was lost. */
  datatype StoreAnswer = Committed | Fenced | Failed

  datatype Round = Round(
    stopped: bool,                 // shutdown or lost lease
    send: SendAnswer,              // if this turn broadcasts
    receipts: seq<Receipt>,        // what polling found, in the order asked
    healthy: bool,                 // the chain is up
    stuck: bool,                   // time and head both moved far enough
    chainNonce: Option<nat>,       // eth_getTransactionCount
    lateReceipts: seq<Receipt>,    // what the four look-up rounds after "nonce too low" found
    baseFee: Option<nat>,          // the ladder step's base-fee read
    freshBaseFee: Option<nat>,     // the replacement's own base-fee read
    decodes: bool,                 // the original's bytes could be decoded
    cancelGas: Option<nat>,        // gas for a plain transfer
    signature: Option<nat>,        // the signer's answer
    bind: StoreAnswer,
    void: StoreAnswer,
    balance: Option<nat>,
    head: nat,
    others: seq<Call>)             // what other tasks did to the ledger in the meantime

  datatype Outcome = Mined(receipt: Receipt) | Voided(requeued: bool) | Unresolved | NeedsRecovery | Aborted | StillRunning

  datatype Next = Poll | Again | Done(outcome: Outcome)
  {
    /** The nonce is still in flight as far as this process knows. */
    predicate Open() { Done? ==> !outcome.Mined? && !outcome.Voided? }
  }

  function Ladder(kind: Kind): seq<StuckStep> {
    match kind
    case Geth => [Rebroadcast, Diagnose, Bump, Noop]
    case Monad => [Diagnose, Rebroadcast, Bump, Noop]
    case Arbitrum => [Rebroadcast, Diagnose]
  }

  /** A cancel is the last resort of every ladder that has one. */
  lemma NoopIsLast(kind: Kind, pos: nat)
    requires pos < |Ladder(kind)|
    ensures Ladder(kind)[pos].Noop? ==> pos == |Ladder(kind)| - 1
  {}

  /** Where nothing can be replaced there is neither bump nor cancel; elsewhere the nonce is looked at before both. */
  lemma LadderShape(kind: Kind)
    ensures |Ladder(kind)| == (if kind.Replaces() then 4 else 2) && {Ladder(kind)[0], Ladder(kind)[1]} == {Rebroadcast, Diagnose}
    ensures kind.Replaces() ==> Ladder(kind)[2] == Bump && Ladder(kind)[3] == Noop
    ensures Ladder(kind)[0] == Diagnose <==> kind.Monad?
  {}

  function Noops(steps: seq<StuckStep>): nat {
    if steps == [] then 0 else Noops(steps[..|steps| - 1]) + if steps[|steps| - 1].Noop? then 1 else 0
  }

  lemma NoopsNext(steps: seq<StuckStep>, from: nat, pos: nat)
    requires from <= pos < |steps|
    ensures Noops(steps[from..pos + 1]) == Noops(steps[from..pos]) + if steps[pos].Noop? then 1 else 0
  {
    assert steps[from..pos + 1][..pos - from] == steps[from..pos];
  }

  // ---- Fees and costs along the attempt list ----

  /** Dearer than its predecessor (unless that one is at the 128-bit limit) and acceptable to the pool. */
  ghost predicate Outbids(kind: Kind, prev: FeeQuote, next: FeeQuote) {
    && Sane(next) && next.maxFee >= prev.maxFee && (next.maxFee == prev.maxFee ==> prev.maxFee == U128_MAX)
    && (kind.Replaces() ==> Accepts(kind, prev, next))
  }

  /** From the last of the first `from` attempts on, each outbids the one before. */
  ghost predicate Climbs(kind: Kind, attempts: seq<Tx>, from: nat) {
    forall i {:trigger attempts[i]} :: 0 < from <= i < |attempts| ==> Outbids(kind, attempts[i - 1].fees, attempts[i].fees)
  }

  /** Position of the oldest attempt that is not a cancel, or of the oldest when all are. */
  function Original(attempts: seq<Tx>): (o: nat)
    requires attempts != []
    ensures o < |attempts|
  {
    if attempts[0].Payload() || |attempts| == 1 then 0
    else
      var o := 1 + Original(attempts[1..]);
      if attempts[o].Payload() then o else 0
  }

  lemma {:induction false} OriginalIsOldest(attempts: seq<Tx>)
    requires attempts != []
    ensures var o := Original(attempts);
            && (forall i :: 0 <= i < o ==> !attempts[i].Payload())
            && (attempts[o].Payload() || (o == 0 && forall i :: 0 <= i < |attempts| ==> !attempts[i].Payload()))
  {
    if !attempts[0].Payload() && |attempts| > 1 {
      OriginalIsOldest(attempts[1..]);
      forall i | 1 <= i < |attempts| ensures attempts[i] == attempts[1..][i - 1] {}
    }
  }

  /** A fee replacement asks for exactly what the original asked for. */
  ghost predicate SamePayload(tx: Tx, original: Tx) {
    tx.purpose == original.purpose && tx.value == original.value && tx.gasLimit == original.gasLimit
  }

  /** What was added repeats the oldest payload there was at the start, or is a cancel, which moves nothing. */
  ghost predicate Faithful(initial: seq<Tx>, attempts: seq<Tx>)
    requires initial != []
  {
    forall i :: |initial| <= i < |attempts| ==>
      if attempts[i].Payload() then SamePayload(attempts[i], initial[Original(initial)]) else attempts[i].value == 0
  }

  /** What one more attempt may be. */
  ghost predicate Repeats(attempts: seq<Tx>, tx: Tx)
    requires attempts != []
  {
    if tx.Payload() then attempts[Original(attempts)].Payload() && SamePayload(tx, attempts[Original(attempts)]) else tx.value == 0
  }

  /** Adding attempts at the end does not change which one is the original. */
  lemma OriginalStays(initial: seq<Tx>, attempts: seq<Tx>)
    requires initial != [] && initial <= attempts && attempts[Original(attempts)].Payload() && Faithful(initial, attempts)
    ensures SamePayload(attempts[Original(attempts)], initial[Original(initial)])
  {
    OriginalIsOldest(initial);
    OriginalIsOldest(attempts);
    assert attempts[Original(initial)] == initial[Original(initial)];
  }

  function Dearest(attempts: seq<Tx>): nat {
    if attempts == [] then 0 else Max(Dearest(attempts[..|attempts| - 1]), WorstCase(attempts[|attempts| - 1]))
  }

  lemma {:induction false} DearestCovers(attempts: seq<Tx>, i: nat)
    requires i < |attempts|
    ensures WorstCase(attempts[i]) <= Dearest(attempts)
  {
    if i < |attempts| - 1 { DearestCovers(attempts[..|attempts| - 1], i); }
  }

  /** No more than one of the attempts can cost is ever reserved. */
  lemma {:induction false} DearestIsReached(attempts: seq<Tx>) returns (i: nat)
    requires attempts != []
    ensures i < |attempts| && WorstCase(attempts[i]) == Dearest(attempts)
  {
    var last := |attempts| - 1;
    i := last;
    if last > 0 && Dearest(attempts[..last]) > WorstCase(attempts[last]) { i := DearestIsReached(attempts[..last]); }
  }

  function Quote(kind: Kind, prev: FeeQuote, baseFee: nat, t: Tunables): Option<FeeQuote> {
    if kind.Replaces() then Replacement(kind, prev, baseFee, t.maxFeeCap, t)
    else
      // no pool means nothing to outbid: a fresh quote is a valid new attempt
      var q := FreshQuote(baseFee, t);
      if q.maxFee > prev.maxFee then Some(q) else None
  }

  lemma QuoteOutbids(kind: Kind, prev: FeeQuote, baseFee: nat, t: Tunables)
    requires Sane(prev) && Configured(t) && Quote(kind, prev, baseFee, t).Some?
    ensures Outbids(kind, prev, Quote(kind, prev, baseFee, t).value)
  {}

  /** Without a pool a new attempt is made exactly when today's fees are higher, at today's fees. */
  lemma FreshAttemptIff(prev: FeeQuote, baseFee: nat, t: Tunables)
    ensures Quote(Arbitrum, prev, baseFee, t).Some? <==> FreshQuote(baseFee, t).maxFee > prev.maxFee
    ensures Quote(Arbitrum, prev, baseFee, t).Some? ==> Quote(Arbitrum, prev, baseFee, t).value == FreshQuote(baseFee, t)
  {}

  /** A pool replacement stays within the cap for jobs, and is missing only if no acceptable quote would. */
  lemma QuoteIsWithinCapIff(kind: Kind, prev: FeeQuote, baseFee: nat, t: Tunables, other: FeeQuote)
    requires kind.Replaces() && Sane(prev) && Configured(t)
    ensures Quote(kind, prev, baseFee, t).Some? ==> Quote(kind, prev, baseFee, t).value.maxFee <= t.maxFeeCap
    ensures Quote(kind, prev, baseFee, t).None? ==> !(Accepts(kind, prev, other) && other.maxFee <= t.maxFeeCap)
  {}

  lemma CancelOutbids(kind: Kind, prev: FeeQuote, baseFee: nat, t: Tunables)
    requires Sane(prev) && Configured(t) && Replacement(kind, prev, baseFee, t.cancelFeeCap, t).Some?
    ensures Outbids(kind, prev, Replacement(kind, prev, baseFee, t.cancelFeeCap, t).value)
  {}

  /** Along the attempts a run adds, later ones are strictly dearer than all earlier ones. */
  lemma {:induction false} LaterIsDearer(kind: Kind, attempts: seq<Tx>, from: nat, i: nat, j: nat)
    requires Climbs(kind, attempts, from) && 0 < from <= i + 1 && i < j < |attempts|
    ensures attempts[i].fees.maxFee < attempts[j].fees.maxFee || attempts[i].fees.maxFee == attempts[j].fees.maxFee == U128_MAX
    decreases j
  {
    assert Outbids(kind, attempts[j - 1].fees, attempts[j].fees);
    if i < j - 1 {
      LaterIsDearer(kind, attempts, from, i, j - 1);
      assert Outbids(kind, attempts[j - 2].fees, attempts[j - 1].fees);
    }
  }

  /** One nonce; all that is added is for the oldest attempt's owner; dearer and dearer; `reserve` is the cost of the dearest. */
  ghost predicate Fitting(kind: Kind, slot: Slot, owner: Owner, initial: seq<Tx>, attempts: seq<Tx>, reserve: nat) {
    && initial != [] && initial <= attempts && initial[0].owner == owner && Faithful(initial, attempts)
    && (forall i :: |initial| <= i < |attempts| ==> attempts[i].owner == owner)
    && (forall tx :: tx in attempts ==> tx.slot == slot && WorstCase(tx) <= reserve) && reserve == Dearest(attempts)
    && Sane(attempts[|attempts| - 1].fees) && Climbs(kind, attempts, |initial|)
  }

  lemma FaithfulNext(initial: seq<Tx>, attempts: seq<Tx>, tx: Tx)
    requires initial != [] && initial <= attempts && Faithful(initial, attempts) && Repeats(attempts, tx)
    ensures Faithful(initial, attempts + [tx])
  {
    if tx.Payload() { OriginalStays(initial, attempts); }
  }

  lemma ClimbsNext(kind: Kind, attempts: seq<Tx>, from: nat, tx: Tx)
    requires attempts != [] && Climbs(kind, attempts, from) && Outbids(kind, attempts[|attempts| - 1].fees, tx.fees)
    ensures Climbs(kind, attempts + [tx], from)
  {
    hide Outbids;
  }

  lemma FittingNext(kind: Kind, slot: Slot, owner: Owner, initial: seq<Tx>, attempts: seq<Tx>, reserve: nat, tx: Tx)
    requires Fitting(kind, slot, owner, initial, attempts, reserve)
    requires tx.slot == slot && tx.owner == owner && Outbids(kind, attempts[|attempts| - 1].fees, tx.fees) && Repeats(attempts, tx)
    ensures Fitting(kind, slot, owner, initial, attempts + [tx], Max(reserve, WorstCase(tx)))
  {
    ClimbsNext(kind, attempts, |initial|, tx);
    FaithfulNext(initial, attempts, tx);
    hide Accepts, WorstCase, Climbs, Faithful, Repeats;
    assert (attempts + [tx])[..|attempts|] == attempts;
  }

  /** How many attempts were added, and why there cannot be more; every signature ends in one bind. */
  ghost predicate Counted(log: seq<DriveEvent>, added: int, bumps: nat, maxBumps: nat, noops: nat) {
    && bumps == Binds(log, Store.Replacement, true) <= maxBumps
    && Binds(log, Store.Cancel, true) <= noops
    && added == bumps + Binds(log, Store.Cancel, true)
    && Signings(log) == added + FailedBinds(log)
  }

  lemma CountedNext(log: seq<DriveEvent>, added: int, bumps: nat, maxBumps: nat, noops: nat, tx: Tx, how: Store.BindKind, ok: bool)
    requires Counted(log, added, bumps, maxBumps, noops) && !how.First?
    requires ok ==> if how.Cancel? then Binds(log, Store.Cancel, true) < noops else bumps < maxBumps
    ensures Counted(log + [Signed(tx)] + [Bound(tx, how, ok)], if ok then added + 1 else added,
                    if ok && how.Replacement? then bumps + 1 else bumps, maxBumps, noops)
    ensures Signings(log + [Signed(tx)] + [Bound(tx, how, ok)]) == Signings(log) + 1 && Sends(log + [Signed(tx)] + [Bound(tx, how, ok)]) == Sends(log)
    ensures Binds(log + [Signed(tx)] + [Bound(tx, how, ok)], Store.Cancel, false) == Binds(log, Store.Cancel, false) + if how.Cancel? && !ok then 1 else 0
  {
    var signed := log + [Signed(tx)];
    assert signed[..|log|] == log && (signed + [Bound(tx, how, ok)])[..|signed|] == signed;
    assert forall kind, yes :: Binds(signed, kind, yes) == Binds(log, kind, yes);
  }

  lemma LogNext(log: seq<DriveEvent>, added: int, bumps: nat, maxBumps: nat, noops: nat, ev: DriveEvent)
    requires Counted(log, added, bumps, maxBumps, noops) && !ev.Signed? && !ev.Bound?
    ensures Counted(log + [ev], added, bumps, maxBumps, noops) && Binds(log + [ev], Store.Cancel, false) == Binds(log, Store.Cancel, false)
    ensures Sends(log + [ev]) == Sends(log) + if ev.Sent? then 1 else 0
  {
    assert (log + [ev])[..|log|] == log;
  }

  // ---- What an answer leads to ----

  /** A write that did not commit leaves the nonce in flight, unless the lease is gone. */
  function Reply(answer: StoreAnswer, committed: Next): Next {
    match answer
    case Committed => committed
    case Fenced => Done(Aborted)
    case Failed => Next.Poll
  }

  predicate Usable(attempts: seq<Tx>, r: Receipt) { r.tx in attempts && r.block.Some? }

  /** The first receipt of one of the attempts that names its block. */
  function FirstMined(attempts: seq<Tx>, receipts: seq<Receipt>): (found: Option<Receipt>)
    ensures found.Some? ==> Usable(attempts, found.value)
  {
    if receipts == [] then None
    else if Usable(attempts, receipts[0]) then Some(receipts[0])
    else FirstMined(attempts, receipts[1..])
  }

  /** It is found unless there is none, and nothing before it would have done. */
  lemma {:induction false} FirstMinedIsFirst(attempts: seq<Tx>, receipts: seq<Receipt>) returns (n: nat)
    ensures n <= |receipts| && forall i :: 0 <= i < n ==> !Usable(attempts, receipts[i])
    ensures FirstMined(attempts, receipts) == if n < |receipts| then Some(receipts[n]) else None
  {
    if receipts == [] || Usable(attempts, receipts[0]) {
      n := 0;
    } else {
      n := FirstMinedIsFirst(attempts, receipts[1..]);
      n := n + 1;
    }
  }

  function Looked(attempts: seq<Tx>, receipts: seq<Receipt>, otherwise: Next): Next {
    var found := FirstMined(attempts, receipts);
    if found.Some? then Done(Mined(found.value)) else otherwise
  }

  /** Before more funds are asked for, the ledger is brought in line with the chain. */
  function Updated(b: Books, r: Round): Books {
    if r.balance.Some? then After(b, Reconcile(b.epoch, r.balance.value, r.head)) else b
  }

  // ---- The turns of the loop ----

  /** What one turn did: nothing more, a broadcast, or a look for receipts and perhaps a step down the ladder. */
  datatype Turn = Stop | Send(next: Next) | Look(found: bool, climb: Option<Next>)
  {
    predicate Resends() { (Send? && next.Again?) || (Look? && climb == Some(Again)) }
    predicate Parks() { Look? && climb == Some(Done(Unresolved)) }
    /** A ladder that has come to its end keeps the driver watching. */
    predicate Ends() { Stop? || (Send? && next.Done?) || (Look? && (found || (climb.Some? && climb.value.Done? && !Parks()))) }
  }

  ghost predicate Ended(turn: Turn, outcome: Outcome) {
    match turn
    case Stop => outcome.Aborted?
    case Send(next) => next == Done(outcome)
    case Look(found, climb) => if found then outcome.Mined? else climb == Some(Done(outcome))
  }

  ghost predicate Parked(turns: seq<Turn>) {
    turns != [] && (turns[|turns| - 1].Parks() || Parked(turns[..|turns| - 1]))
  }

  /** The turn that is due after `turns`, given the round and the attempts known from the start. */
  ghost predicate Due(turns: seq<Turn>, r: Round, initial: seq<Tx>, turn: Turn) {
    && (turn.Stop? <==> r.stopped)
    && (turn.Send? <==> !r.stopped && (turns == [] || turns[|turns| - 1].Resends()))
    && (turn.Look? ==>
          && (!turn.found ==> forall x :: x in r.receipts ==> !Usable(initial, x))
          && (turn.climb.Some? <==> !turn.found && r.healthy && r.stuck && !Parked(turns)))
  }

  /** Broadcast first and again whenever asked to, otherwise look; climb only when stuck on a healthy chain, and not once parked. */
  ghost predicate InTurn(rounds: seq<Round>, initial: seq<Tx>, turns: seq<Turn>) {
    turns == [] ||
    (var n := |turns| - 1;
     && n < |rounds| && InTurn(rounds, initial, turns[..n]) && Due(turns[..n], rounds[n], initial, turns[n])
     && (n > 0 ==> !turns[n - 1].Ends()))
  }

  function Sends(log: seq<DriveEvent>): nat {
    if log == [] then 0 else Sends(log[..|log| - 1]) + if log[|log| - 1].Sent? then 1 else 0
  }

  function Broadcasts(turns: seq<Turn>): nat {
    if turns == [] then 0 else Broadcasts(turns[..|turns| - 1]) + if turns[|turns| - 1].Send? then 1 else 0
  }

  lemma InTurnNext(rounds: seq<Round>, initial: seq<Tx>, turns: seq<Turn>, turn: Turn)
    requires InTurn(rounds, initial, turns) && |turns| < |rounds| && (turns == [] || !turns[|turns| - 1].Ends())
    requires Due(turns, rounds[|turns|], initial, turn)
    ensures InTurn(rounds, initial, turns + [turn]) && Broadcasts(turns + [turn]) == Broadcasts(turns) + if turn.Send? then 1 else 0
    ensures Parked(turns + [turn]) <==> Parked(turns) || turn.Parks()
  {
    assert (turns + [turn])[..|turns|] == turns;
  }

  lemma NoTurnsYet(rounds: seq<Round>, initial: seq<Tx>)
    ensures InTurn(rounds, initial, []) && !Parked([]) && Broadcasts([]) == 0
  {}

  // ---- The driver ----

  class InFlight {
    const kind: Kind
    const t: Tunables
    const slot: Slot
    const owner: Owner
    const ledger: Ledger
    const value: nat // what the owner's payload transfers
    var attempts: seq<Tx>
    var worstCase: nat
    var ladderPos: nat
    var bumps: nat
    var neverAccepted: bool

    // where this run began, and what it has done since
    ghost const initial: seq<Tx>
    ghost const startPos: nat
    ghost const unsent: bool
    ghost const opening: Books
    ghost var log: seq<DriveEvent>
    ghost var trail: seq<Call>

    ghost function Start(): View {
      View(World.Flight(owner, slot.nonce, (set tx | tx in initial), unsent, false), {}, false)
    }

    ghost function AsFlight(): World.Flight
      reads this
    {
      World.Flight(owner, slot.nonce, (set tx | tx in attempts), neverAccepted, CancelLost())
    }

    /** A cancel was signed and its bind was not reported as committed. */
    ghost predicate CancelLost()
      reads this
    {
      Binds(log, Store.Cancel, false) > 0
    }

    ghost predicate AttemptsOk()
      reads this
    {
      Configured(t) && Fitting(kind, slot, owner, initial, attempts, worstCase) && value == initial[Original(initial)].value
    }

    ghost predicate CountsOk()
      reads this
    {
      && startPos <= ladderPos <= |Ladder(kind)|
      && Counted(log, |attempts| - |initial|, bumps, Max(1, t.maxBumps), Noops(Ladder(kind)[startPos..ladderPos]))
    }

    ghost predicate Valid()
      reads this
    {
      && AttemptsOk() && CountsOk()
      && Lawful(slot.pair, Start(), log) && Replay(Start(), log).flight == AsFlight()
      && (neverAccepted ==> unsent)
    }

    /**
     The ledger holds enough for whichever attempt gets mined, unless an earlier settlement of the nonce was
     undone behind the driver's back; nothing else that touches this nonce is anybody's doing but the driver's.
     */
    ghost predicate Covered()
      reads this, ledger
    {
      && (Intact(slot.nonce, trail) ==> Reserved(ledger.Books(), slot.nonce) >= worstCase)
      && SharedCalls(slot.nonce, worstCase, trail) && ledger.Books() == AfterAll(opening, trail)
    }

    /** The last call debits what `r` cost, from books that had reserved at least that much. */
    ghost predicate Debited(r: Receipt)
      reads this, ledger
    {
      && trail != [] && r.block.Some?
      && var before := trail[..|trail| - 1];
      && SharedCalls(slot.nonce, worstCase, before) && ledger.Books() == AfterAll(opening, trail)
      && trail[|trail| - 1] == Settle(slot.nonce, Spent(kind, r), r.block.value)
      && (Honest(r) && Intact(slot.nonce, before) ==> Spent(kind, r) <= Reserved(AfterAll(opening, before), slot.nonce))
    }

    /** The last call gives the reservation back. */
    ghost predicate Released()
      reads this, ledger
    {
      && trail != [] && SharedCalls(slot.nonce, worstCase, trail[..|trail| - 1])
      && trail[|trail| - 1] == Call.Release(slot.nonce) && ledger.Books() == AfterAll(opening, trail)
    }

    /** A nonce just bound by `execute`. */
    constructor Execute(kind: Kind, t: Tunables, ledger: Ledger, tx: Tx)
      requires Configured(t) && Sane(tx.fees)
      modifies ledger
      ensures Valid() && Covered() && attempts == [tx] && initial == [tx] && unsent && startPos == 0 && ladderPos == 0 && log == [] && !CancelLost() && slot == tx.slot
      ensures this.ledger == ledger && this.kind == kind && this.t == t && opening == old(ledger.Books())
    {
      this.kind, this.t, this.ledger, slot, owner, value := kind, t, ledger, tx.slot, tx.owner, tx.value;
      attempts, worstCase, ladderPos, bumps, neverAccepted := [tx], WorstCase(tx), 0, 0, true;
      initial, startPos, unsent, log := [tx], 0, true, [];
      opening, trail := ledger.Books(), [Call.Reserve(tx.slot.nonce, WorstCase(tx))];
      new;
      assert trail[..0] == [];
      ledger.Reserve(slot.nonce, worstCase);
    }

    /**
     A nonce taken over from the store, with all its live attempts, oldest first; the oldest one's owner signs.
     One that already carries a cancel is at the end of its ladder.
     */
    constructor Resume(kind: Kind, t: Tunables, ledger: Ledger, stored: seq<Tx>)
      requires Configured(t) && stored != [] && Sane(stored[|stored| - 1].fees)
      requires forall tx :: tx in stored ==> tx.slot == stored[0].slot
      modifies ledger
      ensures Valid() && Covered() && attempts == stored && initial == stored && owner == stored[0].owner && !unsent && log == [] && !CancelLost()
      ensures startPos == if exists tx :: tx in stored && !tx.Payload() then |Ladder(kind)| else 0
      ensures this.ledger == ledger && this.kind == kind && this.t == t && opening == old(ledger.Books())
    {
      this.kind, this.t, this.ledger, slot, owner, value := kind, t, ledger, stored[0].slot, stored[0].owner, stored[Original(stored)].value;
      var cancelled := exists tx :: tx in stored && !tx.Payload();
      var pos := if cancelled then |Ladder(kind)| else 0;
      attempts, worstCase, ladderPos, bumps, neverAccepted := stored, Dearest(stored), pos, 0, false;
      initial, startPos, unsent, log := stored, pos, false, [];
      opening, trail := ledger.Books(), [Call.Reserve(stored[0].slot.nonce, Dearest(stored))];
      new;
      assert trail[..0] == [];
      forall i | 0 <= i < |stored| ensures WorstCase(stored[i]) <= worstCase { DearestCovers(stored, i); }
      ledger.Reserve(slot.nonce, worstCase);
    }

    method Resolve(rounds: seq<Round>) returns (outcome: Outcome, ghost turns: seq<Turn>)
      requires Valid() && Covered() && !CancelLost()
      requires forall r, c :: r in rounds && c in r.others ==> Foreign(c, slot.nonce)
      modifies this, ledger
      ensures Valid()
      ensures |attempts| <= |initial| + Limit()
      ensures Signings(log) == |attempts| - |initial| + FailedBinds(log)
      ensures Signings(log) <= Limit() <==> FailedBinds(log) <= Limit() - (|attempts| - |initial|)
      ensures outcome.Mined? ==> outcome.receipt.tx in attempts && Debited(outcome.receipt)
      ensures !outcome.Mined? && !outcome.Voided? ==> Covered()
      ensures outcome.Voided? ==> unsent && neverAccepted && Released()
      ensures Faithful(initial, attempts)
      ensures InTurn(rounds, initial, turns) && Sends(log) == old(Sends(log)) + Broadcasts(turns)
      ensures if turns != [] && turns[|turns| - 1].Ends() then Ended(turns[|turns| - 1], outcome) else outcome.StillRunning? && |turns| == |rounds|
    {
      hide Lawful, Replay, Fitting, Counted, AfterAll, Foreign, InTurn, Broadcasts, Sends, Parked, Covered, Debited, Released, Faithful, FirstMined, Usable, Binds, Signings;
      var sending, parked := true, false;
      outcome, turns := StillRunning, [];
      NoTurnsYet(rounds, initial);
      for i := 0 to |rounds|
        invariant Valid() && Covered() && outcome == StillRunning
        // a cancel is the ladder's last rung: once its fate is in doubt the driver only watches
        invariant CancelLost() ==> !sending && ladderPos == |Ladder(kind)|
        invariant |turns| == i && InTurn(rounds, initial, turns) && (i > 0 ==> !turns[i - 1].Ends())
        invariant sending == (i == 0 || turns[i - 1].Resends()) && parked == Parked(turns)
        invariant Sends(log) == old(Sends(log)) + Broadcasts(turns)
      {
        var r := rounds[i];
        var next := Next.Poll;
        ghost var turn := Stop;
        OthersAct(r.others);
        if r.stopped {
          next := Done(Aborted);
        } else if sending {
          next := Broadcast(r);
          sending, turn := next.Again?, Send(next);
        } else {
          next, turn := Watch(r, parked);
          sending := next.Again?;
          if next == Done(Unresolved) {
            // keep watching slowly: it may still land
            parked, next := true, Next.Poll;
          }
        }
        InTurnNext(rounds, initial, turns, turn);
        turns := turns + [turn];
        if next.Done? {
          outcome := next.outcome;
          break;
        }
      }
      BoundHolds();
    }

    /** A turn without a broadcast: look for receipts and, if there is none, take a step down the ladder when it is time. */
    method Watch(r: Round, parked: bool) returns (next: Next, ghost turn: Turn)
      requires Valid() && Covered() && (CancelLost() ==> ladderPos == |Ladder(kind)|)
      modifies this, ledger
      ensures Valid() && (next.Open() ==> Covered()) && Sends(log) == old(Sends(log))
      ensures CancelLost() ==> !next.Again? && ladderPos == |Ladder(kind)|
      ensures next.Done? && next.outcome.Mined? ==> next.outcome.receipt.tx in attempts && Debited(next.outcome.receipt)
      ensures !(next.Done? && next.outcome.Voided?)
      ensures turn.Look? && turn.found == FirstMined(old(attempts), r.receipts).Some?
      ensures !turn.found ==> forall x :: x in r.receipts ==> !Usable(initial, x)
      ensures turn.climb == if turn.found || !r.healthy || !r.stuck || parked then None else Some(next)
      ensures turn.climb.None? ==> next == Looked(old(attempts), r.receipts, Next.Poll)
    {
      hide Lawful, Replay, Fitting, Counted, AfterAll, Sends, Covered, Debited;
      next := LookForReceipt(r.receipts);
      InitialIsTracked(r.receipts);
      turn := Look(next.Done?, None);
      if !next.Done? && r.healthy && !parked && r.stuck {
        next := Escalate(r);
        turn := Look(false, Some(next));
      }
    }

    lemma InitialIsTracked(receipts: seq<Receipt>)
      requires Valid()
      ensures FirstMined(attempts, receipts).None? ==> forall x :: x in receipts ==> !Usable(initial, x)
    {
      var n := FirstMinedIsFirst(attempts, receipts);
    }

    /** Other tasks share the ledger; all they can do to this nonce is to undo an earlier settlement of it. */
    method OthersAct(calls: seq<Call>)
      requires Valid() && Covered() && forall c :: c in calls ==> Foreign(c, slot.nonce)
      modifies this`trail, ledger
      ensures Valid() && Covered() && trail == old(trail) + calls
    {
      hide Lawful, Replay, Counted, Fitting, AfterAll, Noops, Ladder, After;
      for i := 0 to |calls|
        invariant Valid() && Covered() && trail == old(trail) + calls[..i]
      {
        AfterAllNext(opening, trail, calls[i]);
        assert Foreign(calls[i], slot.nonce);
        IntactNext(slot.nonce, trail, calls[i]);
        if Spares(calls[i], slot.nonce) { SparedIsUnchanged(ledger.Books(), calls[i], slot.nonce); }
        ledger.Do(calls[i]);
        trail := trail + [calls[i]];
      }
    }

    /** The most attempts one run may add. */
    ghost function Limit(): nat
      requires startPos <= |Ladder(kind)|
    {
      Max(1, t.maxBumps) + Noops(Ladder(kind)[startPos..])
    }

    lemma BoundHolds()
      requires Valid()
      ensures |attempts| <= |initial| + Limit() && Faithful(initial, attempts) && Signings(log) == |attempts| - |initial| + FailedBinds(log)
    {
      NoopsSplit(Ladder(kind), startPos, ladderPos, |Ladder(kind)|);
      assert Ladder(kind)[startPos..|Ladder(kind)|] == Ladder(kind)[startPos..];
    }

    method Broadcast(r: Round) returns (next: Next)
      requires Valid() && Covered() && !CancelLost()
      modifies this, ledger
      ensures Valid() && (next.Open() ==> Covered()) && !CancelLost()
      ensures next.Done? && next.outcome.Mined? ==> next.outcome.receipt.tx in attempts && Debited(next.outcome.receipt)
      ensures next.Done? && next.outcome.Voided? ==> neverAccepted && r.send.SendError? && GivesUp(r.send.reason, r) && Released()
      ensures ladderPos == old(ladderPos)
      ensures r.send.Accepted? ==> next.Poll? && !neverAccepted && attempts == old(attempts)
      ensures old(log) + [DriveEvent.Sent(old(attempts)[|old(attempts)| - 1])] <= log && Sends(log) == old(Sends(log)) + 1
      ensures r.send.NotDelivered? ==> next.Again? && neverAccepted == old(neverAccepted) && attempts == old(attempts)
      ensures r.send.MinedAtOnce? ==> next == (if Usable(old(attempts), r.send.receipt) then Done(Mined(r.send.receipt)) else Next.Poll) && neverAccepted == old(neverAccepted) && attempts == old(attempts)
    {
      hide Lawful, Counted, Climbs, AfterAll, WorstCase, Spent, Dearest, Noops, Ladder, SharedCalls, Intact;
      var tx := attempts[|attempts| - 1];
      Note(DriveEvent.Sent(tx));
      match r.send
      case Accepted => Acknowledge(); next := Next.Poll;
      case MinedAtOnce(receipt) =>
        next := OnReceipt(receipt);
      case NotDelivered => next := Again;
      case SendError(reason) => next := OnSendError(reason, tx, r);
    }

    method Acknowledge()
      requires Valid()
      modifies this`neverAccepted, this`log
      ensures Valid() && !neverAccepted && CancelLost() == old(CancelLost()) && log == old(log) + [Acked] && Sends(log) == old(Sends(log))
    {
      LogNext(log, |attempts| - |initial|, bumps, Max(1, t.maxBumps), Noops(Ladder(kind)[startPos..ladderPos]), Acked);
      Record(Acked);
      neverAccepted := false;
    }

    method OnReceipt(r: Receipt) returns (next: Next)
      requires Valid() && Covered()
      modifies this`trail, ledger
      ensures Valid()
      ensures next == if r.tx in attempts && r.block.Some? then Done(Mined(r)) else Next.Poll
      ensures next.Open() ==> Covered() && ledger.Books() == old(ledger.Books())
      ensures next.Done? ==> ledger.Books() == After(old(ledger.Books()), Settle(slot.nonce, Spent(kind, r), r.block.value))
      ensures next.Done? && Honest(r) && Intact(slot.nonce, old(trail)) ==> Spent(kind, r) <= Reserved(old(ledger.Books()), slot.nonce)
      ensures next.Done? ==> Debited(r) && trail[..|trail| - 1] == old(trail)
    {
      hide Lawful, Replay, Counted, Climbs, AfterAll, WorstCase, Spent, Dearest, Noops, Ladder;
      if r.tx !in attempts || r.block.None? { return Next.Poll; }
      if Honest(r) { SpentIsWithinWorstCase(kind, r); }
      ghost var debit := Settle(slot.nonce, Spent(kind, r), r.block.value);
      AfterAllNext(opening, trail, debit);
      assert (trail + [debit])[..|trail|] == trail;
      ledger.Settle(slot.nonce, Spent(kind, r), r.block.value);
      trail := trail + [debit];
      return Done(Mined(r));
    }

    method LookForReceipt(receipts: seq<Receipt>) returns (next: Next)
      requires Valid() && Covered()
      modifies this`trail, ledger
      ensures Valid()
      ensures next == Looked(attempts, receipts, Next.Poll)
      ensures next.Open() ==> Covered()
      ensures next.Done? ==> next.outcome.receipt.tx in attempts && Debited(next.outcome.receipt)
    {
      hide Lawful, Replay, Counted, Fitting, AfterAll, WorstCase, Spent, Noops, Ladder;
      next := Next.Poll;
      for i := 0 to |receipts|
        invariant next.Poll? && Valid() && Covered()
        invariant FirstMined(attempts, receipts[i..]) == FirstMined(attempts, receipts)
      {
        assert receipts[i..][1..] == receipts[i + 1..];
        next := OnReceipt(receipts[i]);
        if next.Done? { return; }
      }
    }

    /** The answers on which a nonce that no node ever acknowledged is given up. */
    ghost predicate GivesUp(reason: SendClass, r: Round)
      reads this
    {
      || (reason.Deterministic? && kind.TrustsStatelessRejects())
      || (reason.NonceTooLow? && NoneMined(r.lateReceipts))
    }

    ghost predicate NoneMined(receipts: seq<Receipt>)
      reads this
    {
      FirstMined(attempts, receipts).None?
    }

    /** After "nonce too low": a receipt decides; failing that, a nonce never acknowledged is somebody else's. */
    ghost function AfterLateLook(unaccepted: bool, r: Round): Next
      reads this
    {
      Looked(attempts, r.lateReceipts, if unaccepted then Reply(r.void, Done(Voided(true))) else Done(Unresolved))
    }

    method OnSendError(reason: SendClass, tx: Tx, r: Round) returns (next: Next)
      requires Valid() && Covered() && tx in attempts && !CancelLost()
      modifies this, ledger
      ensures Valid() && (next.Open() ==> Covered()) && ladderPos == old(ladderPos) && !CancelLost()
      ensures next.Done? && next.outcome.Mined? ==> next.outcome.receipt.tx in attempts && Debited(next.outcome.receipt)
      ensures next.Done? && next.outcome.Voided? <==> old(neverAccepted) && r.void.Committed? && old(GivesUp(reason, r))
      ensures next.Done? && next.outcome.Voided? ==> Released()
      ensures neverAccepted == (old(neverAccepted) && !reason.AlreadyKnown? && !reason.AcceptedPending?)
      ensures reason.Indeterminate? || reason.AlreadyKnown? || reason.AcceptedPending? ==> next.Poll?
      ensures reason.NonceTooLow? ==> next == old(AfterLateLook(neverAccepted, r))
      ensures reason.NonceTooHigh? ==> next == Done(NeedsRecovery)
      ensures reason.PoolBusy? || reason.InsufficientFunds? ==> next.Again?
      ensures reason.InsufficientFunds? ==> ledger.Books() == old(Updated(ledger.Books(), r))
      ensures reason.FeeTooLow? ==> next == old(if WouldSign(r) then Reply(r.bind, Again) else Next.Poll)
      ensures attempts == if reason.FeeTooLow? && next.Again? then old(attempts) + [old(Successor(r))] else old(attempts)
      ensures reason.Deterministic? ==> next == old(if neverAccepted && kind.TrustsStatelessRejects() then Reply(r.void, Done(Voided(false))) else Next.Poll)
      ensures old(log) <= log && Sends(log) == old(Sends(log))
    {
      hide Lawful, Replay, Counted, Climbs, AfterAll, WorstCase, Spent, Dearest, Noops, Ladder, Quote;
      match reason
      case AlreadyKnown => Acknowledge(); next := Next.Poll;
      case AcceptedPending => Acknowledge(); next := Next.Poll;
      case Indeterminate => next := Next.Poll;
      case PoolBusy => next := Again;
      case NonceTooLow => next := OnNonceTooLow(tx, neverAccepted, r);
      case NonceTooHigh => next := Done(NeedsRecovery);
      case FeeTooLow => next := ReplaceWithFreshFees(r);
      case InsufficientFunds => next := FundAndRetry(r);
      case Deterministic =>
        if neverAccepted && kind.TrustsStatelessRejects() {
          Note(Rejected(tx));
          next := Void(tx, Store.NonceUnused, false, r);
        } else {
          next := Next.Poll;
        }
    }

    method OnNonceTooLow(tx: Tx, unaccepted: bool, r: Round) returns (next: Next)
      requires Valid() && Covered() && tx in attempts && (unaccepted ==> neverAccepted && !CancelLost())
      modifies this`log, this`trail, ledger
      ensures Valid() && (next.Open() ==> Covered()) && CancelLost() == old(CancelLost())
      ensures next == AfterLateLook(unaccepted, r) && old(log) <= log && Sends(log) == old(Sends(log))
      ensures next.Done? && next.outcome.Voided? ==> Released()
      ensures next.Done? && next.outcome.Mined? ==> next.outcome.receipt.tx in attempts && Debited(next.outcome.receipt)
    {
      next := LookForReceipt(r.lateReceipts);
      if next.Done? { return; }
      if unaccepted {
        Note(Consumed);
        next := Void(tx, Store.NonceTakenByForeignTx, true, r);
      } else {
        next := Done(Unresolved);
      }
    }

    method Void(tx: Tx, mode: Store.VoidMode, requeue: bool, r: Round) returns (next: Next)
      requires Valid() && Covered() && Allowed(slot.pair, Replay(Start(), log), VoidTried(tx, mode, r.void.Committed?))
      modifies this`log, this`trail, ledger
      ensures Valid() && (next.Open() ==> Covered()) && CancelLost() == old(CancelLost())
      ensures next == Reply(r.void, Done(Voided(requeue))) && old(log) <= log && Sends(log) == old(Sends(log))
      ensures r.void.Committed? ==> ledger.Books() == After(old(ledger.Books()), Release(slot.nonce)) && Released()
    {
      hide Counted, Fitting, AfterAll, Noops, Ladder, Lawful, Replay, Allowed;
      Note(VoidTried(tx, mode, r.void.Committed?));
      match r.void
      case Committed =>
        AfterAllNext(opening, trail, Call.Release(slot.nonce));
        assert (trail + [Call.Release(slot.nonce)])[..|trail|] == trail;
        ledger.Release(slot.nonce);
        trail := trail + [Call.Release(slot.nonce)];
        next := Done(Voided(requeue));
      case Fenced => next := Done(Aborted);
      case Failed => next := Next.Poll;
    }

    /** Logs what was seen or done, other than a signature or a bind. */
    ghost method Note(ev: DriveEvent)
      requires Valid() && Allowed(slot.pair, Replay(Start(), log), ev) && !ev.Signed? && !ev.Bound? && !ev.Acked?
      modifies this`log
      ensures Valid() && log == old(log) + [ev] && Replay(Start(), log) == Moved(old(Replay(Start(), log)), ev)
      ensures CancelLost() == old(CancelLost()) && Sends(log) == old(Sends(log)) + if ev.Sent? then 1 else 0
    {
      LogNext(log, |attempts| - |initial|, bumps, Max(1, t.maxBumps), Noops(Ladder(kind)[startPos..ladderPos]), ev);
      Record(ev);
    }

    method FundAndRetry(r: Round) returns (next: Next)
      requires Valid() && Covered()
      modifies this`trail, ledger
      ensures Valid() && Covered() && next == Again
      ensures ledger.Books() == Updated(old(ledger.Books()), r)
    {
      hide Lawful, Replay, Counted, Fitting, AfterAll, Noops, Ladder;
      var ticket := ledger.BeginReconcile();
      if r.balance.Some? {
        AfterAllNext(opening, trail, Call.Reconcile(ticket, r.balance.value, r.head));
        IntactNext(slot.nonce, trail, Call.Reconcile(ticket, r.balance.value, r.head));
        var _ := ledger.Reconcile(ticket, r.balance.value, r.head);
        trail := trail + [Call.Reconcile(ticket, r.balance.value, r.head)];
      }
      return Again;
    }

    /** Everything a replacement needs is at hand, so one gets signed. */
    predicate WouldSign(r: Round)
      reads this
      requires attempts != []
    {
      && bumps < Max(1, t.maxBumps) && r.freshBaseFee.Some? && r.decodes && r.signature.Some?
      && Quote(kind, attempts[|attempts| - 1].fees, r.freshBaseFee.value, t).Some?
      && attempts[Original(attempts)].Payload()
    }

    /** The replacement that gets signed then: the original, at fees that outbid the newest attempt. */
    ghost function Successor(r: Round): Tx
      reads this
      requires attempts != [] && WouldSign(r)
    {
      var o := attempts[Original(attempts)];
      Tx(slot, o.purpose, owner, o.gasLimit, Quote(kind, attempts[|attempts| - 1].fees, r.freshBaseFee.value, t).value, o.value, r.signature.value)
    }

    method ReplaceWithFreshFees(r: Round) returns (next: Next)
      requires Valid() && Covered()
      modifies this, ledger
      ensures Valid() && Covered() && next.Open() && CancelLost() == old(CancelLost())
      ensures neverAccepted == old(neverAccepted) && ladderPos == old(ladderPos)
      ensures next == old(if WouldSign(r) then Reply(r.bind, Again) else Next.Poll) && old(log) <= log && Sends(log) == old(Sends(log))
      ensures attempts == if next.Again? then old(attempts) + [old(Successor(r))] else old(attempts)
      ensures bumps == old(bumps) + if next.Again? then 1 else 0
      ensures Signings(log) == old(Signings(log)) + if old(WouldSign(r)) then 1 else 0
    {
      hide Lawful, Replay, Climbs, Accepts, WorstCase, Signings;
      next := Next.Poll;
      if bumps >= Max(1, t.maxBumps) || r.freshBaseFee.None? { return; }
      var prev := attempts[|attempts| - 1].fees;
      var quote := Quote(kind, prev, r.freshBaseFee.value, t);
      var original := FirstPayload();
      if quote.None? || original.None? || !r.decodes || r.signature.None? { return; }
      QuoteOutbids(kind, prev, r.freshBaseFee.value, t);
      var o := original.value;
      var tx := Tx(slot, o.purpose, owner, o.gasLimit, quote.value, o.value, r.signature.value);
      next := Commit(tx, Store.Replacement, r.bind);
    }

    /** The oldest attempt that carries the owner's payload. */
    method FirstPayload() returns (found: Option<Tx>)
      requires attempts != []
      ensures found == if attempts[Original(attempts)].Payload() then Some(attempts[Original(attempts)]) else None
    {
      for i := 0 to |attempts|
        invariant forall k :: 0 <= k < i ==> !attempts[k].Payload()
      {
        OriginalIsOldest(attempts);
        if attempts[i].Payload() { return Some(attempts[i]); }
      }
      OriginalIsOldest(attempts);
      return None;
    }

    /** Persist a signed attempt; only then track it, reserve for it and send it. */
    method Commit(tx: Tx, how: Store.BindKind, answer: StoreAnswer) returns (next: Next)
      requires Valid() && Covered()
      requires tx.slot == slot && tx.owner == owner && World.FitsFlight(AsFlight(), tx, how)
      requires Outbids(kind, attempts[|attempts| - 1].fees, tx.fees) && Repeats(attempts, tx)
      requires how.Replacement? ==> bumps < Max(1, t.maxBumps)
      requires how.Cancel? ==> Binds(log, Store.Cancel, true) < Noops(Ladder(kind)[startPos..ladderPos])
      modifies this, ledger
      ensures Valid() && Covered() && next.Open()
      ensures neverAccepted == old(neverAccepted) && ladderPos == old(ladderPos)
      ensures attempts == if answer.Committed? then old(attempts) + [tx] else old(attempts)
      ensures bumps == old(bumps) + if answer.Committed? && how.Replacement? then 1 else 0
      ensures Signings(log) == old(Signings(log)) + 1
      ensures CancelLost() == (old(CancelLost()) || (how.Cancel? && !answer.Committed?))
      ensures next == Reply(answer, Again) && old(log) <= log && Sends(log) == old(Sends(log))
    {
      hide Fitting, Counted, Lawful, Replay, Noops, Ladder, WorstCase, Signings, Sends, Binds, AfterAll, Dearest, Outbids, Repeats, Original, SharedCalls, Intact, Reserved;
      CountedNext(log, |attempts| - |initial|, bumps, Max(1, t.maxBumps), Noops(Ladder(kind)[startPos..ladderPos]), tx, how, answer.Committed?);
      FittingNext(kind, slot, owner, initial, attempts, worstCase, tx);
      Record(Signed(tx));
      Record(Bound(tx, how, answer.Committed?));
      hide Allowed, World.FitsFlight;
      match answer
      case Committed =>
        if how.Replacement? { bumps := bumps + 1; }
        Secure(WorstCase(tx));
        attempts := attempts + [tx];
        assert AsFlight().attempts == old(AsFlight().attempts) + {tx};
        next := Again;
      case Fenced => next := Done(Aborted);
      case Failed => next := Next.Poll;
    }

    /** Reserves for one more attempt. */
    method Secure(cost: nat)
      requires Covered()
      modifies this`worstCase, this`trail, ledger
      ensures Covered() && worstCase == Max(old(worstCase), cost)
    {
      hide AfterAll;
      worstCase := Max(worstCase, cost);
      AfterAllNext(opening, trail, Call.Reserve(slot.nonce, worstCase));
      IntactNext(slot.nonce, trail, Call.Reserve(slot.nonce, worstCase));
      ledger.Reserve(slot.nonce, worstCase);
      trail := trail + [Call.Reserve(slot.nonce, worstCase)];
    }

    ghost method Record(ev: DriveEvent)
      requires Lawful(slot.pair, Start(), log) && Allowed(slot.pair, Replay(Start(), log), ev)
      modifies this`log
      ensures log == old(log) + [ev]
      ensures Lawful(slot.pair, Start(), log) && Replay(Start(), log) == Moved(old(Replay(Start(), log)), ev)
    {
      Extend(slot.pair, Start(), log, ev);
      log := log + [ev];
    }

    /** The ladder's end, a look that failed, and a bump whose fee is still the problem do not move on. */
    predicate Stays(r: Round)
      reads this
      requires attempts != []
    {
      || ladderPos >= |Ladder(kind)|
      || (Ladder(kind)[ladderPos].Diagnose? && r.chainNonce.None?)
      || (Ladder(kind)[ladderPos].Bump? && bumps < t.maxBumps && Underpriced(r))
    }

    predicate Underpriced(r: Round)
      reads this
      requires attempts != []
    {
      var last := attempts[|attempts| - 1];
      Sat((if r.baseFee.Some? then r.baseFee.value else 0) + last.fees.tip) > last.fees.maxFee
    }

    /** An underpriced attempt is one whose sender would not pay the full tip at this base fee. */
    lemma UnderpricedCutsTheTip(r: Round)
      requires attempts != [] && r.baseFee.Some?
      requires var q := attempts[|attempts| - 1].fees; Sane(q) && r.baseFee.value + q.tip <= U128_MAX
      ensures var q := attempts[|attempts| - 1].fees; Underpriced(r) <==> Min(q.tip, q.maxFee - r.baseFee.value) < q.tip
    {}

    /** On the bump step with a max fee below the base fee, and a store that does not answer. */
    predicate BumpKeepsFailing(r: Round)
      reads this
      requires attempts != []
    {
      && ladderPos < |Ladder(kind)| && Ladder(kind)[ladderPos].Bump? && bumps < t.maxBumps
      && Underpriced(r) && WouldSign(r) && r.bind.Failed?
    }

    /** Where the rung leads that the ladder is on. */
    ghost function Rung(r: Round): Next
      reads this
      requires attempts != []
    {
      if ladderPos >= |Ladder(kind)| then Done(Unresolved)
      else
        match Ladder(kind)[ladderPos]
        case Rebroadcast => Again
        case Diagnose => Diagnosis(r)
        case Bump => if bumps >= t.maxBumps || !Underpriced(r) then Again else if WouldSign(r) then Reply(r.bind, Again) else Next.Poll
        case Noop => if WouldCancel(r) then Reply(r.bind, Again) else Next.Poll
    }

    /** What the rung adds if it asks for a broadcast. */
    ghost function RungAdds(r: Round): seq<Tx>
      reads this
      requires attempts != []
    {
      if ladderPos >= |Ladder(kind)| then []
      else if Ladder(kind)[ladderPos].Bump? && bumps < t.maxBumps && Underpriced(r) && WouldSign(r) then [Successor(r)]
      else if Ladder(kind)[ladderPos].Noop? && WouldCancel(r) then [CancelTx(r)]
      else []
    }

    method Escalate(r: Round) returns (next: Next)
      requires Valid() && Covered() && (CancelLost() ==> ladderPos == |Ladder(kind)|)
      modifies this, ledger
      ensures Valid() && (next.Open() ==> Covered())
      ensures next.Done? && next.outcome.Mined? ==> next.outcome.receipt.tx in attempts && Debited(next.outcome.receipt)
      ensures ladderPos == old(ladderPos) + if old(Stays(r)) then 0 else 1
      ensures CancelLost() ==> !next.Again? && ladderPos == |Ladder(kind)|
      ensures !(next.Done? && next.outcome.Voided?) && neverAccepted == old(neverAccepted)
      ensures next == old(Rung(r)) && old(log) <= log && Sends(log) == old(Sends(log))
      ensures attempts == old(attempts) + if next.Again? then old(RungAdds(r)) else []
      ensures old(BumpKeepsFailing(r)) ==>
                BumpKeepsFailing(r) && next.Poll? && attempts == old(attempts) && Signings(log) == old(Signings(log)) + 1
    {
      assert attempts != [];
      if ladderPos < |Ladder(kind)| { NoopIsLast(kind, ladderPos); }
      hide Ladder, Lawful, Replay, Fitting, Counted, Climbs, Accepts, WorstCase, Signings, Sends, Quote, Diagnosis, Successor, CancelTx, WouldCancel, Original, Covered, Debited;
      if ladderPos >= |Ladder(kind)| { return Done(Unresolved); }
      match Ladder(kind)[ladderPos]
      case Rebroadcast => Descend(); next := Again;
      case Diagnose => next := DiagnoseNonce(r);
      case Bump => next := BumpFees(r);
      case Noop => next := CancelNonce(r);
    }

    method BumpFees(r: Round) returns (next: Next)
      requires Valid() && Covered() && ladderPos < |Ladder(kind)| && Ladder(kind)[ladderPos].Bump?
      modifies this, ledger
      ensures Valid() && Covered() && next.Open() && neverAccepted == old(neverAccepted) && CancelLost() == old(CancelLost())
      ensures ladderPos == old(ladderPos) + if old(bumps < t.maxBumps && Underpriced(r)) then 0 else 1
      ensures next == old(Rung(r)) && old(log) <= log && Sends(log) == old(Sends(log))
      ensures attempts == old(attempts) + if next.Again? then old(RungAdds(r)) else []
      ensures old(BumpKeepsFailing(r)) ==>
                BumpKeepsFailing(r) && next.Poll? && attempts == old(attempts) && Signings(log) == old(Signings(log)) + 1
    {
      assert attempts != [];
      hide Ladder, Lawful, Replay, Fitting, Counted, Quote, Signings, Sends, Successor, Original, Covered, Diagnosis, CancelTx, WouldCancel, Binds, Configured;
      if Underpriced(r) && bumps < t.maxBumps {
        // stay on this step while the fee keeps being the problem
        next := ReplaceWithFreshFees(r);
      } else {
        Descend();
        next := Again;
      }
    }

    method Descend()
      requires Valid() && ladderPos < |Ladder(kind)|
      modifies this`ladderPos
      ensures Valid() && ladderPos == old(ladderPos) + 1 && CancelLost() == old(CancelLost())
      ensures Covered() == old(Covered())
      ensures Ladder(kind)[old(ladderPos)].Noop? ==> Binds(log, Store.Cancel, true) < Noops(Ladder(kind)[startPos..ladderPos])
    {
      NoopsNext(Ladder(kind), startPos, ladderPos);
      ladderPos := ladderPos + 1;
    }

    /** What the balance can pay for does not cover the dearest attempt. */
    predicate Underfunded(r: Round)
      reads this
    {
      r.balance.Some? && Spendable(kind, r.balance.value, value) < worstCase
    }

    /** The balance is found wanting exactly when it does not cover the reservation and what the chain holds back. */
    lemma UnderfundedIff(r: Round)
      requires r.balance.Some? && worstCase > 0
      ensures Underfunded(r) <==> r.balance.value < worstCase + if kind.Monad? && value > 0 then MONAD_RESERVE else 0
    {
      SpendableCoversIff(kind, r.balance.value, value, worstCase);
    }

    /** On a nonce the chain has not reached, has passed, or is waiting for. */
    ghost function Diagnosis(r: Round): Next
      reads this
    {
      if r.chainNonce.None? then Next.Poll
      else if r.chainNonce.value < slot.nonce then Done(NeedsRecovery)
      else if r.chainNonce.value > slot.nonce then AfterLateLook(false, r)
      else if Underfunded(r) then Again
      else Next.Poll
    }

    method DiagnoseNonce(r: Round) returns (next: Next)
      requires Valid() && Covered() && ladderPos < |Ladder(kind)|
      modifies this, ledger
      ensures Valid() && (next.Open() ==> Covered()) && attempts == old(attempts) && neverAccepted == old(neverAccepted) && CancelLost() == old(CancelLost())
      ensures ladderPos == old(ladderPos) + if r.chainNonce.None? then 0 else 1
      ensures r.chainNonce == Some(slot.nonce) && old(Underfunded(r)) ==> ledger.Books() == old(Updated(ledger.Books(), r))
      ensures next == old(Diagnosis(r)) && !(next.Done? && next.outcome.Voided?) && old(log) <= log && Sends(log) == old(Sends(log))
      ensures next.Done? && next.outcome.Mined? ==> next.outcome.receipt.tx in attempts && Debited(next.outcome.receipt)
    {
      if r.chainNonce.None? { return Next.Poll; } // could not look; the same step is tried again
      Descend();
      if r.chainNonce.value < slot.nonce { return Done(NeedsRecovery); }
      if r.chainNonce.value > slot.nonce {
        next := OnNonceTooLow(attempts[|attempts| - 1], false, r);
        return;
      }
      if Underfunded(r) { next := FundAndRetry(r); return; }
      return Next.Poll;
    }

    predicate WouldCancel(r: Round)
      reads this
      requires attempts != []
    {
      CancelQuote(r).Some? && r.cancelGas.Some? && r.signature.Some?
    }

    function CancelQuote(r: Round): Option<FeeQuote>
      reads this
      requires attempts != []
    {
      Replacement(kind, attempts[|attempts| - 1].fees, if r.baseFee.Some? then r.baseFee.value else 0, t.cancelFeeCap, t)
    }

    ghost function CancelTx(r: Round): Tx
      reads this
      requires attempts != [] && WouldCancel(r)
    {
      Tx(slot, ForCancel, owner, r.cancelGas.value, CancelQuote(r).value, 0, r.signature.value)
    }

    /** Replaces the nonce with a zero-value self-transfer; every earlier attempt stays tracked. */
    method CancelNonce(r: Round) returns (next: Next)
      requires Valid() && Covered() && ladderPos < |Ladder(kind)| && Ladder(kind)[ladderPos].Noop?
      modifies this, ledger
      ensures Valid() && Covered() && next.Open() && ladderPos == old(ladderPos) + 1 && neverAccepted == old(neverAccepted)
      ensures CancelLost() ==> old(CancelLost()) || !next.Again?
      ensures next == old(if WouldCancel(r) then Reply(r.bind, Again) else Next.Poll)
      ensures attempts == (if next.Again? then old(attempts) + [old(CancelTx(r))] else old(attempts)) && old(log) <= log && Sends(log) == old(Sends(log))
    {
      hide Lawful, Replay, Climbs, Accepts, WorstCase, Signings, Sends, Noops, Original, Replacement, SharedCalls, Intact;
      Descend();
      next := Next.Poll;
      var quote := CancelQuote(r);
      if quote.None? || r.cancelGas.None? || r.signature.None? { return; }
      CancelOutbids(kind, attempts[|attempts| - 1].fees, if r.baseFee.Some? then r.baseFee.value else 0, t);
      var tx := Tx(slot, ForCancel, owner, r.cancelGas.value, quote.value, 0, r.signature.value);
      next := Commit(tx, Store.Cancel, r.bind);
    }
  }

  /**
   The bound is on attempts, not on signatures: while binds fail, every turn on the bump step signs one
   more replacement that is then forgotten.
   */
  method SignaturesAreUnbounded(f: InFlight, r: Round, n: nat)
    requires f.Valid() && f.Covered() && !f.CancelLost() && f.BumpKeepsFailing(r)
    modifies f, f.ledger
    ensures f.Valid() && f.Covered() && Signings(f.log) == old(Signings(f.log)) + n && f.attempts == old(f.attempts)
  {
    for i := 0 to n
      invariant f.Valid() && f.Covered() && !f.CancelLost() && f.BumpKeepsFailing(r)
      invariant Signings(f.log) == old(Signings(f.log)) + i && f.attempts == old(f.attempts)
    {
      var _ := f.Escalate(r);
    }
  }

  const Rules := Tunables(20_000, 1, 5_000, 6_000, 5)
  const Cheap := Tx(Slot(Pair(1, 7), 0), ForJob, Job(1), 21000, FeeQuote(100, 1), 0, 0)

  /** The node has the transaction and answers; the base fee has risen; the store does not take binds. */
  const Stuck := Round(false, Accepted, [], true, true, Some(0), [], Some(500), Some(500), true, Some(21000), Some(1), StoreAnswer.Failed, StoreAnswer.Failed, None, 0, [])

  method TwoRungsDown(f: InFlight)
    requires f.Valid() && f.Covered() && !f.CancelLost() && f.kind == Geth && f.ladderPos == 0 && f.attempts == [Cheap] && f.slot == Cheap.slot
    modifies f, f.ledger
    ensures f.Valid() && f.Covered() && !f.CancelLost() && f.ladderPos == 2 && f.attempts == [Cheap]
  {
    hide Lawful, Replay, Counted, Fitting, AfterAll, Noops, Signings, Quote, SharedCalls;
    assert Ladder(Geth) == [Rebroadcast, Diagnose, Bump, Noop];
    var _ := f.Broadcast(Stuck);
    var _ := f.Escalate(Stuck);
    var _ := f.Broadcast(Stuck);
    var _ := f.Escalate(Stuck);
  }

  lemma BumpIsDue(f: InFlight)
    requires f.Valid() && f.kind == Geth && f.t == Rules && f.ladderPos == 2 && f.attempts == [Cheap] == f.initial
    ensures f.BumpKeepsFailing(Stuck)
  {
    CheapCanBeReplaced();
    hide Lawful, Replay, Quote, Fitting, Signings, Noops;
    assert f.bumps == 0;
    assert Ladder(Geth)[2] == Bump;
    assert Cheap in f.attempts && Cheap.Payload();
  }

  lemma CheapCanBeReplaced()
    ensures Quote(Geth, Cheap.fees, 500, Rules).Some?
  {}

  /** Such a flight exists: execute, and two rungs down the ladder every turn signs another replacement. */
  method SignatureFlood(n: nat) returns (f: InFlight)
    ensures fresh(f) && f.Valid() && f.initial == [Cheap] && f.attempts == [Cheap] && Signings(f.log) >= n
  {
    hide Lawful, Replay, Counted, Fitting, AfterAll, Noops, Quote, SharedCalls, Ladder;
    var ledger := new Ledger();
    f := new InFlight.Execute(Geth, Rules, ledger, Cheap);
    TwoRungsDown(f);
    BumpIsDue(f);
    SignaturesAreUnbounded(f, Stuck, n);
  }

  /** `Cheap` is mined at its full price. */
  const FullPrice := Receipt(Cheap, Success, 21000, Some(100), Some(9))

  /**
   The bound on the debit can fail: recovery resumes a nonce whose earlier inclusion the confirmer is just
   undoing, and the undoing puts back the reservation that recovery had handed it, which is zero.
   */
  method DebitBeyondReservation() returns (f: InFlight)
    ensures fresh(f) && f.Valid() && f.initial == [Cheap] && Honest(FullPrice) && f.Debited(FullPrice)
    ensures Spent(f.kind, FullPrice) > Reserved(AfterAll(f.opening, f.trail[..|f.trail| - 1]), Cheap.slot.nonce)
  {
    hide Lawful, Replay, Counted, Fitting, Noops, Ladder;
    var ledger := new Ledger();
    f := new InFlight.Resume(Geth, Rules, ledger, [Cheap]);
    var undo := Call.Unsettle(Cheap.slot.nonce, Spent(Geth, FullPrice), 0);
    f.OthersAct([undo]);
    ghost var shared := f.trail;
    assert shared[..|shared| - 1] + [undo] == shared;
    var _ := f.OnReceipt(FullPrice);
    assert Reserved(AfterAll(f.opening, shared), Cheap.slot.nonce) == 0;
  }

  lemma {:induction false} NoopsSplit(steps: seq<StuckStep>, from: nat, mid: nat, end: nat)
    requires from <= mid <= end <= |steps|
    ensures Noops(steps[from..mid]) <= Noops(steps[from..end])
    decreases end
  {
    if mid < end {
      NoopsSplit(steps, from, mid, end - 1);
      NoopsNext(steps, from, end - 1);
    }
  }
}
