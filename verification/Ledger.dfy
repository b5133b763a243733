/** The per-pair balance ledger: its state as a value, and what each call makes of it. */
module Balance {
  import opened Domain
  import opened Costs

  /** A mined top-up that may be spent from `at` on. */
  datatype Incoming = Incoming(at: int, amount: nat)

  datatype Books = Books(confirmed: nat, reservations: map<nat, nat>, asOfBlock: nat, epoch: nat, initialised: bool,
                         maturing: seq<Incoming>)

  datatype Call =
    | Initialise(balance: nat, block: nat)
    | Reserve(nonce: nat, worstCase: nat)
    | Release(nonce: nat)
    | Settle(nonce: nat, spent: nat, block: nat)
    | Unsettle(nonce: nat, spent: nat, worstCase: nat)
    | Credit(amount: nat, block: nat, now: int, maturity: nat)
    | Mature(now: int)
    | Reconcile(ticket: nat, balance: nat, block: nat)

  const Fresh := Books(0, map[], 0, 0, false, [])

  /** The saturating fold over credits that are not spendable yet. */
  function MaturingSum(cs: seq<Incoming>): nat {
    if cs == [] then 0 else SatAdd(MaturingSum(cs[..|cs| - 1]), cs[|cs| - 1].amount)
  }

  function Unripe(cs: seq<Incoming>, now: int): seq<Incoming> {
    if cs == [] then []
    else
      var rest, last := Unripe(cs[..|cs| - 1], now), cs[|cs| - 1];
      if last.at <= now then rest else rest + [last]
  }

  function Ripe(cs: seq<Incoming>, now: int): seq<Incoming> {
    if cs == [] then []
    else
      var rest, last := Ripe(cs[..|cs| - 1], now), cs[|cs| - 1];
      if last.at <= now then rest + [last] else rest
  }

  function Reserved(b: Books, nonce: nat): nat {
    if nonce in b.reservations then b.reservations[nonce] else 0
  }

  /** A balance read counts only if no settlement raced it and it is not older than what is known. */
  predicate Acceptable(b: Books, ticket: nat, block: nat) {
    b.epoch == ticket && b.asOfBlock <= block
  }

  function After(b: Books, c: Call): Books {
    match c
    case Initialise(balance, block) =>
      b.(confirmed := balance, asOfBlock := Max(b.asOfBlock, block), initialised := true, epoch := b.epoch + 1)
    case Reserve(nonce, worstCase) => b.(reservations := b.reservations[nonce := Max(Reserved(b, nonce), worstCase)])
    case Release(nonce) => b.(reservations := b.reservations - {nonce})
    case Settle(nonce, spent, block) =>
      b.(reservations := b.reservations - {nonce}, confirmed := SatSub(b.confirmed, spent),
         asOfBlock := Max(b.asOfBlock, block), epoch := b.epoch + 1)
    case Unsettle(nonce, spent, worstCase) =>
      b.(confirmed := SatAdd(b.confirmed, spent), reservations := b.reservations[nonce := worstCase], epoch := b.epoch + 1)
    case Credit(amount, block, now, maturity) =>
      var counted := b.(epoch := b.epoch + 1, asOfBlock := Max(b.asOfBlock, block));
      if maturity == 0 then counted.(confirmed := SatAdd(b.confirmed, amount))
      else counted.(maturing := b.maturing + [Incoming(now + maturity, amount)])
    case Mature(now) =>
      b.(maturing := Unripe(b.maturing, now), confirmed := SatAdd(b.confirmed, MaturingSum(Ripe(b.maturing, now))))
    case Reconcile(ticket, balance, block) =>
      if Acceptable(b, ticket, block) then
        b.(confirmed := SatSub(balance, MaturingSum(b.maturing)), asOfBlock := block, initialised := true)
      else b
  }

  function AfterAll(b: Books, cs: seq<Call>): Books {
    if cs == [] then b else After(AfterAll(b, cs[..|cs| - 1]), cs[|cs| - 1])
  }

  lemma AfterAllNext(b: Books, cs: seq<Call>, c: Call)
    ensures AfterAll(b, cs + [c]) == After(AfterAll(b, cs), c)
  {
    assert (cs + [c])[..|cs|] == cs;
  }

  /** The call leaves the reservation of this nonce alone. */
  predicate Spares(c: Call, nonce: nat) {
    (c.Reserve? || c.Release? || c.Settle? || c.Unsettle?) ==> c.nonce != nonce
  }

  lemma SparedIsUnchanged(b: Books, c: Call, nonce: nat)
    requires Spares(c, nonce)
    ensures Reserved(After(b, c), nonce) == Reserved(b, nonce)
  {}

  /** Until a driver is done, its nonce sees its own reservations, up to `limit`; all else is other tasks' business. */
  ghost predicate OwnCalls(nonce: nat, limit: nat, cs: seq<Call>) {
    forall i :: 0 <= i < |cs| ==> Spares(cs[i], nonce) || (cs[i].Reserve? && cs[i].worstCase <= limit)
  }

  /** Such calls raise the reservation of that nonce, never beyond the limit, whatever other tasks do in between. */
  lemma {:induction false} OwnCallsOnlyRaise(b: Books, nonce: nat, limit: nat, cs: seq<Call>)
    requires OwnCalls(nonce, limit, cs)
    ensures Reserved(b, nonce) <= Reserved(AfterAll(b, cs), nonce) <= Max(Reserved(b, nonce), limit)
  {
    if cs != [] { OwnCallsOnlyRaise(b, nonce, limit, cs[..|cs| - 1]); }
  }

  /** One call of another task: the confirmer may yet undo an earlier settlement of this very nonce. */
  predicate Foreign(c: Call, nonce: nat) { Spares(c, nonce) || c.Unsettle? }

  /** What a nonce sees until its driver is done when a settlement of it is being undone at the same time. */
  ghost predicate SharedCalls(nonce: nat, limit: nat, cs: seq<Call>) {
    forall i :: 0 <= i < |cs| ==> Foreign(cs[i], nonce) || (cs[i].Reserve? && cs[i].worstCase <= limit)
  }

  predicate Undoes(c: Call, nonce: nat) { c.Unsettle? && c.nonce == nonce }

  /** Every undone settlement of the nonce was followed by a reservation of it. */
  ghost predicate Intact(nonce: nat, cs: seq<Call>) {
    cs == [] || (var last := cs[|cs| - 1]; !Undoes(last, nonce) && ((last.Reserve? && last.nonce == nonce) || Intact(nonce, cs[..|cs| - 1])))
  }

  lemma IntactNext(nonce: nat, cs: seq<Call>, c: Call)
    ensures Intact(nonce, cs + [c]) <==> !Undoes(c, nonce) && ((c.Reserve? && c.nonce == nonce) || Intact(nonce, cs))
  {
    assert (cs + [c])[..|cs|] == cs;
  }

  /** Otherwise what is reserved is what the undoing put there, whatever the driver had reserved before. */
  lemma {:induction false} UndoingOverwrites(b: Books, nonce: nat, limit: nat, cs: seq<Call>) returns (i: nat)
    requires SharedCalls(nonce, limit, cs) && !Intact(nonce, cs)
    ensures i < |cs| && Undoes(cs[i], nonce) && Reserved(AfterAll(b, cs), nonce) == cs[i].worstCase
  {
    var last := |cs| - 1;
    if Undoes(cs[last], nonce) {
      i := last;
    } else {
      i := UndoingOverwrites(b, nonce, limit, cs[..last]);
      SparedIsUnchanged(AfterAll(b, cs[..last]), cs[last], nonce);
    }
  }

  /** Any interleaving of calls, from any number of tasks. */
  ghost predicate IsHistory(bs: seq<Books>, cs: seq<Call>) {
    && |bs| == |cs| + 1 && bs[0] == Fresh
    && forall i {:trigger cs[i]} :: 0 <= i < |cs| ==> bs[i + 1] == After(bs[i], cs[i])
  }

  /** Calls that report something mined at a block. */
  predicate Reports(c: Call) { c.Settle? || c.Credit? }

  /** Calls after which a read that began earlier is no longer trusted. */
  predicate Invalidates(c: Call) { Reports(c) || c.Initialise? || c.Unsettle? }

  // ---- Freshness ----

  lemma {:induction false} BlockNeverFalls(bs: seq<Books>, cs: seq<Call>, m: nat, n: nat)
    requires IsHistory(bs, cs) && m <= n < |bs|
    ensures bs[m].asOfBlock <= bs[n].asOfBlock && bs[m].epoch <= bs[n].epoch
    decreases n
  {
    if m < n {
      BlockNeverFalls(bs, cs, m, n - 1);
      assert bs[n] == After(bs[n - 1], cs[n - 1]);
    }
  }

  /**
   An accepted read was taken at or above the block of every settlement and credit ever applied, and
   nothing was settled, credited, reversed or reset between the ticket and its use.
   */
  lemma AcceptedReadIsFresh(bs: seq<Books>, cs: seq<Call>, ticketAt: nat, n: nat, m: nat)
    requires IsHistory(bs, cs) && ticketAt <= n < |cs| && cs[n].Reconcile?
    requires cs[n].ticket == bs[ticketAt].epoch && Acceptable(bs[n], cs[n].ticket, cs[n].block)
    requires m < n
    ensures Reports(cs[m]) || cs[m].Initialise? ==> cs[m].block <= cs[n].block
    ensures ticketAt <= m ==> !Invalidates(cs[m])
  {
    BlockNeverFalls(bs, cs, m + 1, n);
    assert bs[m + 1] == After(bs[m], cs[m]);
    if ticketAt <= m { BlockNeverFalls(bs, cs, ticketAt, m); }
  }

  /** And conversely: a read with an untouched ticket at a high enough block is never turned away. */
  lemma {:induction false} QuietTicketIsAccepted(bs: seq<Books>, cs: seq<Call>, ticketAt: nat, n: nat)
    requires IsHistory(bs, cs) && ticketAt <= n < |bs|
    requires forall m :: ticketAt <= m < n ==> !Invalidates(cs[m])
    ensures bs[n].epoch == bs[ticketAt].epoch
    ensures Acceptable(bs[n], bs[ticketAt].epoch, bs[n].asOfBlock)
    decreases n
  {
    if ticketAt < n {
      QuietTicketIsAccepted(bs, cs, ticketAt, n - 1);
      assert !Invalidates(cs[n - 1]) && bs[n] == After(bs[n - 1], cs[n - 1]);
    }
  }

  /** The block of the newest knowledge is the greatest block of anything applied so far. */
  ghost predicate BlockOf(c: Call, block: nat) {
    (Reports(c) || c.Initialise? || c.Reconcile?) && c.block == block
  }

  lemma {:induction false} AsOfBlockWasReported(bs: seq<Books>, cs: seq<Call>, n: nat) returns (m: nat)
    requires IsHistory(bs, cs) && n < |bs| && bs[n].asOfBlock > 0
    ensures m < n && BlockOf(cs[m], bs[n].asOfBlock)
  {
    assert bs[n] == After(bs[n - 1], cs[n - 1]);
    if bs[n].asOfBlock == bs[n - 1].asOfBlock {
      m := AsOfBlockWasReported(bs, cs, n - 1);
    } else {
      m := n - 1;
    }
  }

  // ---- What the balance adds up to ----

  /** The same sum without a ceiling. */
  function Exact(cs: seq<Incoming>): nat {
    if cs == [] then 0 else Exact(cs[..|cs| - 1]) + cs[|cs| - 1].amount
  }

  lemma {:induction false} MaturingSumIsClamped(cs: seq<Incoming>)
    ensures MaturingSum(cs) == Min(Exact(cs), U256_MAX)
  {
    if cs != [] { MaturingSumIsClamped(cs[..|cs| - 1]); }
  }

  lemma ExactAppend(cs: seq<Incoming>, c: Incoming)
    ensures Exact(cs + [c]) == Exact(cs) + c.amount
  {}

  lemma {:induction false} RipeAndUnripe(cs: seq<Incoming>, now: int)
    ensures Exact(Ripe(cs, now)) + Exact(Unripe(cs, now)) == Exact(cs)
  {
    if cs != [] {
      var rest, last := cs[..|cs| - 1], cs[|cs| - 1];
      RipeAndUnripe(rest, now);
      if last.at <= now { ExactAppend(Ripe(rest, now), last); } else { ExactAppend(Unripe(rest, now), last); }
    }
  }

  /** Maturing splits the credits in two: due ones and the rest, none lost and none twice. */
  lemma {:induction false} MaturingSplits(cs: seq<Incoming>, now: int, c: Incoming)
    ensures multiset(Ripe(cs, now))[c] == if c.at <= now then multiset(cs)[c] else 0
    ensures multiset(Unripe(cs, now))[c] == if c.at > now then multiset(cs)[c] else 0
  {
    if cs != [] {
      MaturingSplits(cs[..|cs| - 1], now, c);
      assert cs == cs[..|cs| - 1] + [cs[|cs| - 1]];
    }
  }

  lemma SplitNext(cs: seq<Incoming>, i: nat, now: int)
    requires i < |cs|
    ensures var c := cs[i];
            if c.at <= now then
              MaturingSum(Ripe(cs[..i + 1], now)) == SatAdd(MaturingSum(Ripe(cs[..i], now)), c.amount) && Unripe(cs[..i + 1], now) == Unripe(cs[..i], now)
            else
              MaturingSum(Ripe(cs[..i + 1], now)) == MaturingSum(Ripe(cs[..i], now)) && Unripe(cs[..i + 1], now) == Unripe(cs[..i], now) + [c]
  {
    assert cs[..i + 1][..i] == cs[..i];
    var ripe := Ripe(cs[..i], now);
    assert (ripe + [cs[i]])[..|ripe|] == ripe;
  }

  /** A credit that matures can be spent from its time on and not before; one that does not can be spent at once. */
  lemma CreditIsSpendableIff(b: Books, amount: nat, block: nat, now: int, maturity: nat, at: int)
    requires b.confirmed + amount <= U256_MAX
    ensures var c := After(b, Credit(amount, block, now, maturity));
            && c.confirmed == b.confirmed + (if maturity == 0 then amount else 0)
            && Exact(Ripe(c.maturing, at)) == Exact(Ripe(b.maturing, at)) + if maturity > 0 && at >= now + maturity then amount else 0
  {
    if maturity > 0 {
      var c := Incoming(now + maturity, amount);
      assert (b.maturing + [c])[..|b.maturing|] == b.maturing;
      ExactAppend(Ripe(b.maturing, at), c);
    }
  }

  /** Everything the pair owns on chain, as far as the ledger knows. */
  function Total(b: Books): nat { b.confirmed + Exact(b.maturing) }

  /** An accepted read makes the total equal to it exactly when the maturing credits fit inside it. */
  lemma ReadBecomesTotalIff(b: Books, ticket: nat, balance: nat, block: nat)
    requires Acceptable(b, ticket, block) && balance <= U256_MAX
    ensures Total(After(b, Reconcile(ticket, balance, block))) == balance <==> balance >= Exact(b.maturing)
  {
    MaturingSumIsClamped(b.maturing);
  }

  /** A reset does not drop maturing credits, so it counts them twice unless there are none. */
  lemma ResetBecomesTotalIff(b: Books, balance: nat, block: nat)
    ensures Total(After(b, Initialise(balance, block))) == balance <==> Exact(b.maturing) == 0
  {}

  /** Maturing moves money from one pocket to the other; only the 256-bit ceiling can lose any. */
  lemma MatureKeepsTotalIff(b: Books, now: int)
    requires b.confirmed <= U256_MAX
    ensures Total(After(b, Mature(now))) == Total(b) <==> b.confirmed + Exact(Ripe(b.maturing, now)) <= U256_MAX
  {
    RipeAndUnripe(b.maturing, now);
    MaturingSumIsClamped(Ripe(b.maturing, now));
  }

  /** No clamp took effect in this call. */
  ghost predicate Unclamped(b: Books, c: Call) {
    match c
    case Settle(_, spent, _) => b.confirmed >= spent
    case Unsettle(_, spent, _) => b.confirmed + spent <= U256_MAX
    case Credit(amount, _, _, maturity) => maturity == 0 ==> b.confirmed + amount <= U256_MAX
    case Mature(now) => b.confirmed <= U256_MAX && b.confirmed + Exact(Ripe(b.maturing, now)) <= U256_MAX
    case _ => true
  }

  /** What a call says moved in or out. */
  function Flow(c: Call): int {
    match c
    case Settle(_, spent, _) => 0 - spent
    case Unsettle(_, spent, _) => spent
    case Credit(amount, _, _, _) => amount
    case _ => 0
  }

  function Flows(cs: seq<Call>): int {
    if cs == [] then 0 else Flows(cs[..|cs| - 1]) + Flow(cs[|cs| - 1])
  }

  lemma TotalMovesByFlow(b: Books, c: Call)
    requires !c.Initialise? && !c.Reconcile? && Unclamped(b, c)
    ensures Total(After(b, c)) == Total(b) + Flow(c)
  {
    if c.Mature? {
      MatureKeepsTotalIff(b, c.now);
    } else if c.Credit? {
      ExactAppend(b.maturing, Incoming(c.now + c.maturity, c.amount));
    }
  }

  /** Between two balance reads the total moves by exactly what was reported, in any order of calls. */
  lemma {:induction false} TotalFollowsReports(bs: seq<Books>, cs: seq<Call>, from: nat, n: nat)
    requires IsHistory(bs, cs) && from <= n < |bs|
    requires forall m {:trigger cs[m]} :: from <= m < n ==> !cs[m].Initialise? && !cs[m].Reconcile? && Unclamped(bs[m], cs[m])
    ensures Total(bs[n]) == Total(bs[from]) + Flows(cs[from..n])
    decreases n
  {
    hide After, Total, Unclamped, Flow;
    if from < n {
      TotalFollowsReports(bs, cs, from, n - 1);
      assert cs[from..n][..n - 1 - from] == cs[from..n - 1];
      TotalMovesByFlow(bs[n - 1], cs[n - 1]);
    }
  }

  /** Undoing a settlement with the reservation it released restores the books, unless the debit was clamped. */
  lemma UnsettleUndoesSettleIff(b: Books, nonce: nat, spent: nat, block: nat)
    requires nonce in b.reservations && b.confirmed <= U256_MAX && spent <= U256_MAX
    ensures var c := After(After(b, Settle(nonce, spent, block)), Unsettle(nonce, spent, Reserved(b, nonce)));
            c.reservations == b.reservations && (c.confirmed == b.confirmed <==> b.confirmed >= spent)
  {}

  // ---- Reservations ----

  /** A call touches the reservation of its own nonce only, and a nonce that is done with has none. */
  lemma ReservedAfter(b: Books, c: Call, nonce: nat)
    ensures Spares(c, nonce) ==> Reserved(After(b, c), nonce) == Reserved(b, nonce) && (nonce in After(b, c).reservations <==> nonce in b.reservations)
    ensures !Spares(c, nonce) && (c.Release? || c.Settle?) ==> nonce !in After(b, c).reservations
    ensures !Spares(c, nonce) && c.Unsettle? ==> Reserved(After(b, c), nonce) == c.worstCase
    ensures !Spares(c, nonce) && c.Reserve? ==> Reserved(After(b, c), nonce) >= c.worstCase && nonce in After(b, c).reservations
  {}

  /** A call that makes the balance known. */
  ghost predicate Informs(b: Books, c: Call) { c.Initialise? || (c.Reconcile? && b.epoch == c.ticket && b.asOfBlock <= c.block) }

  /** The balance counts as known exactly from the first reset or accepted read on. */
  lemma {:induction false} InitialisedIff(bs: seq<Books>, cs: seq<Call>, n: nat)
    requires IsHistory(bs, cs) && n < |bs|
    ensures bs[n].initialised <==> exists m :: 0 <= m < n && Informs(bs[m], cs[m])
  {
    if n > 0 {
      InitialisedIff(bs, cs, n - 1);
      assert bs[n] == After(bs[n - 1], cs[n - 1]);
      if Informs(bs[n - 1], cs[n - 1]) { assert bs[n].initialised; }
    }
  }

  /** Reserving several attempts at one nonce, in any order, leaves the dearest of them. */
  function ReserveAll(b: Books, nonce: nat, costs: seq<nat>): Books {
    if costs == [] then b else After(ReserveAll(b, nonce, costs[..|costs| - 1]), Reserve(nonce, costs[|costs| - 1]))
  }

  lemma {:induction false} ReservationIsTheDearest(b: Books, nonce: nat, costs: seq<nat>)
    ensures var r := Reserved(ReserveAll(b, nonce, costs), nonce);
            r >= Reserved(b, nonce) && (forall c :: c in costs ==> c <= r) && (r == Reserved(b, nonce) || r in costs)
  {
    if costs != [] {
      ReservationIsTheDearest(b, nonce, costs[..|costs| - 1]);
      assert costs == costs[..|costs| - 1] + [costs[|costs| - 1]];
    }
  }
}

/** The ledger object itself; each method takes the lock for its whole body, so calls do not overlap. */
module Ledgers {
  import opened Domain
  import opened Costs
  import opened Balance

  class Ledger {
    var confirmed: nat
    var reservations: map<nat, nat>
    var asOfBlock: nat
    var epoch: nat
    var initialised: bool
    var maturing: seq<Incoming>

    function Books(): Books
      reads this
    {
      Balance.Books(confirmed, reservations, asOfBlock, epoch, initialised, maturing)
    }

    constructor ()
      ensures Books() == Fresh
    {
      confirmed, reservations, asOfBlock, epoch, initialised, maturing := 0, map[], 0, 0, false, [];
    }

    method Initialise(balance: nat, block: nat)
      modifies this
      ensures Books() == After(old(Books()), Call.Initialise(balance, block))
    {
      confirmed := balance;
      asOfBlock := Max(asOfBlock, block);
      initialised := true;
      epoch := epoch + 1;
    }

    method Reserve(nonce: nat, worstCase: nat)
      modifies this
      ensures Books() == After(old(Books()), Call.Reserve(nonce, worstCase))
    {
      if nonce !in reservations { reservations := reservations[nonce := 0]; }
      reservations := reservations[nonce := Max(reservations[nonce], worstCase)];
    }

    method Release(nonce: nat)
      modifies this
      ensures Books() == After(old(Books()), Call.Release(nonce))
    {
      reservations := reservations - {nonce};
    }

    method Settle(nonce: nat, spent: nat, block: nat)
      modifies this
      ensures Books() == After(old(Books()), Call.Settle(nonce, spent, block))
    {
      reservations := reservations - {nonce};
      confirmed := SatSub(confirmed, spent);
      asOfBlock := Max(asOfBlock, block);
      epoch := epoch + 1;
    }

    method Unsettle(nonce: nat, spent: nat, worstCase: nat)
      modifies this
      ensures Books() == After(old(Books()), Call.Unsettle(nonce, spent, worstCase))
    {
      confirmed := SatAdd(confirmed, spent);
      reservations := reservations[nonce := worstCase];
      epoch := epoch + 1;
    }

    method Credit(amount: nat, block: nat, now: int, maturity: nat)
      modifies this
      ensures Books() == After(old(Books()), Call.Credit(amount, block, now, maturity))
    {
      epoch := epoch + 1;
      asOfBlock := Max(asOfBlock, block);
      if maturity == 0 {
        confirmed := SatAdd(confirmed, amount);
      } else {
        maturing := maturing + [Incoming(now + maturity, amount)];
      }
    }

    method Mature(now: int)
      modifies this
      ensures Books() == After(old(Books()), Call.Mature(now))
    {
      hide SatAdd;
      var credits, matured, kept := maturing, 0, [];
      for i := 0 to |credits|
        invariant matured == MaturingSum(Ripe(credits[..i], now)) && kept == Unripe(credits[..i], now) && Books() == old(Books())
      {
        SplitNext(credits, i, now);
        if credits[i].at <= now {
          matured := SatAdd(matured, credits[i].amount);
        } else {
          kept := kept + [credits[i]];
        }
      }
      assert credits[..|credits|] == credits;
      maturing := kept;
      confirmed := SatAdd(confirmed, matured);
    }

    method Maturing() returns (sum: nat)
      ensures sum == Min(Exact(maturing), U256_MAX)
    {
      sum := 0;
      for i := 0 to |maturing|
        invariant sum == MaturingSum(maturing[..i])
      {
        assert maturing[..i + 1][..i] == maturing[..i];
        sum := SatAdd(sum, maturing[i].amount);
      }
      assert maturing[..|maturing|] == maturing;
      MaturingSumIsClamped(maturing);
    }

    method BeginReconcile() returns (ticket: nat)
      ensures forall block :: block >= asOfBlock ==> Acceptable(Books(), ticket, block)
    {
      ticket := epoch;
    }

    method Reconcile(ticket: nat, balance: nat, block: nat) returns (applied: bool)
      modifies this
      ensures applied <==> Acceptable(old(Books()), ticket, block)
      ensures Books() == After(old(Books()), Call.Reconcile(ticket, balance, block))
    {
      if epoch != ticket || block < asOfBlock { return false; }
      var pending := Maturing();
      MaturingSumIsClamped(maturing);
      confirmed := SatSub(balance, pending);
      asOfBlock := block;
      initialised := true;
      return true;
    }

    /** Any call, by name. */
    method Do(c: Call)
      modifies this
      ensures Books() == After(old(Books()), c)
    {
      match c
      case Initialise(balance, block) => Initialise(balance, block);
      case Reserve(nonce, worstCase) => Reserve(nonce, worstCase);
      case Release(nonce) => Release(nonce);
      case Settle(nonce, spent, block) => Settle(nonce, spent, block);
      case Unsettle(nonce, spent, worstCase) => Unsettle(nonce, spent, worstCase);
      case Credit(amount, block, now, maturity) => Credit(amount, block, now, maturity);
      case Mature(now) => Mature(now);
      case Reconcile(ticket, balance, block) => var _ := Reconcile(ticket, balance, block);
    }
  }
}
