/**
 Fee and cost arithmetic of the chain kinds, with the source's saturating 128-bit fees and 256-bit
 amounts. Arc and the OP Stack use geth's fee rules.
 */
module Fees {
  import opened Domain

  const U128_MAX: nat := 0xFFFF_FFFF_FFFF_FFFF_FFFF_FFFF_FFFF_FFFF

  datatype Kind = Geth | Monad | Arbitrum
  {
    /** Same-nonce replacement exists. */
    predicate Replaces() { !Arbitrum? }
    predicate TrustsStatelessRejects() { !Monad? }
  }

  datatype Tunables = Tunables(multiplierBps: nat, priorityFee: nat, maxFeeCap: nat, cancelFeeCap: nat, maxBumps: nat)

  /** The caps and the tip are configured as 128-bit numbers. */
  ghost predicate Configured(t: Tunables) {
    t.priorityFee <= U128_MAX && t.maxFeeCap <= U128_MAX && t.cancelFeeCap <= U128_MAX
  }

  /** A quote a node would parse: 128-bit fields, and the tip within the max fee (EIP-1559). */
  ghost predicate Sane(q: FeeQuote) { q.tip <= q.maxFee <= U128_MAX }

  function Sat(x: nat): nat { Min(x, U128_MAX) }

  function DivCeil(a: nat, b: nat): nat
    requires b > 0
  {
    (a + b - 1) / b
  }

  function BumpPct(prev: nat, pct: nat): nat {
    Max(DivCeil(Sat(prev * (100 + pct)), 100), Sat(prev + 1))
  }

  function Scaled(baseFee: nat, t: Tunables): nat { Sat(baseFee * t.multiplierBps) / 10_000 }

  /** Fees for a fresh transaction. */
  function FreshQuote(baseFee: nat, t: Tunables): FeeQuote {
    var maxFee := Max(Min(Sat(Scaled(baseFee, t) + t.priorityFee), t.maxFeeCap), t.priorityFee);
    FeeQuote(maxFee, Min(t.priorityFee, maxFee))
  }

  function GethReplacement(prev: FeeQuote, baseFee: nat, cap: nat, t: Tunables): Option<FeeQuote> {
    var minFee, minTip := BumpPct(prev.maxFee, 10), BumpPct(prev.tip, 10);
    var maxFee := Max(Sat(Scaled(baseFee, t) + minTip), minFee);
    if maxFee > cap then
      if minFee <= cap then Some(FeeQuote(cap, Min(minTip, cap))) else None
    else Some(FeeQuote(maxFee, Min(minTip, maxFee)))
  }

  function MonadReplacement(prev: FeeQuote, baseFee: nat, cap: nat, t: Tunables): Option<FeeQuote> {
    var maxFee := Min(Max(Sat(Scaled(baseFee, t) + prev.tip), Sat(prev.maxFee + 1)), cap);
    if maxFee > prev.maxFee then Some(FeeQuote(maxFee, Min(prev.tip, maxFee))) else None
  }

  function Replacement(kind: Kind, prev: FeeQuote, baseFee: nat, cap: nat, t: Tunables): Option<FeeQuote> {
    match kind
    case Geth => GethReplacement(prev, baseFee, cap, t)
    case Monad => MonadReplacement(prev, baseFee, cap, t)
    case Arbitrum => None
  }

  /** The pool's own rule for letting `next` take the place of `prev`. */
  predicate Accepts(kind: Kind, prev: FeeQuote, next: FeeQuote) {
    match kind
    case Geth => next.maxFee >= BumpPct(prev.maxFee, 10) && next.tip >= BumpPct(prev.tip, 10)
    case Monad => next.maxFee > prev.maxFee && next.tip >= prev.tip
    case Arbitrum => false
  }

  // ---- The bump ----

  /** Short of saturation the bump is exactly the least fee that is 10% higher and higher at all. */
  lemma BumpIsLeastTenPercent(prev: nat, x: nat)
    requires prev * 110 <= U128_MAX
    ensures x >= BumpPct(prev, 10) <==> (x * 100 >= prev * 110 && x > prev)
  {}

  /** Under any saturation the bump still rises, until the type itself has no higher value. */
  lemma BumpRises(prev: nat)
    requires prev <= U128_MAX
    ensures prev <= BumpPct(prev, 10) <= U128_MAX
    ensures BumpPct(prev, 10) > prev <==> prev < U128_MAX
  {}

  lemma BumpIsMonotone(a: nat, b: nat)
    requires a <= b
    ensures BumpPct(a, 10) <= BumpPct(b, 10)
  {}

  // ---- One replacement ----

  /** Whatever replacement is quoted, the pool takes it, it respects the cap, and it costs more. */
  lemma ReplacementIsAccepted(kind: Kind, prev: FeeQuote, baseFee: nat, cap: nat, t: Tunables)
    requires Sane(prev) && cap <= U128_MAX && Replacement(kind, prev, baseFee, cap, t).Some?
    ensures var q := Replacement(kind, prev, baseFee, cap, t).value;
            Accepts(kind, prev, q) && Sane(q) && q.maxFee <= cap && (prev.maxFee < U128_MAX ==> q.maxFee > prev.maxFee)
  {}

  /** No quote is given only when the cap leaves none that the pool would take. */
  lemma NoReplacementMeansNoneExists(kind: Kind, prev: FeeQuote, baseFee: nat, cap: nat, t: Tunables, q: FeeQuote)
    requires Sane(prev) && cap <= U128_MAX && Accepts(kind, prev, q) && q.maxFee <= cap
    ensures Replacement(kind, prev, baseFee, cap, t).Some?
  {}

  /** A fresh quote is sane; it stays within the cap exactly when the configured tip does. */
  lemma FreshQuoteIsSane(baseFee: nat, t: Tunables)
    requires Configured(t)
    ensures Sane(FreshQuote(baseFee, t))
    ensures FreshQuote(baseFee, t).maxFee <= t.maxFeeCap <==> t.priorityFee <= t.maxFeeCap
  {}

  // ---- What a quote leaves room for ----

  /** `c` is the base fee times the multiplier, in whole wei, as far as 128 bits reach. */
  ghost predicate IsScaled(baseFee: nat, t: Tunables, c: nat) {
    c * 10_000 <= Min(baseFee * t.multiplierBps, U128_MAX) < (c + 1) * 10_000
  }

  /** A fresh quote pays the scaled base fee and the tip, unless that breaks the cap; the tip itself is never cut. */
  lemma FreshQuoteFollowsBaseFee(baseFee: nat, t: Tunables, c: nat)
    requires Configured(t) && IsScaled(baseFee, t, c)
    ensures var q := FreshQuote(baseFee, t);
            q.tip == t.priorityFee && q.maxFee == if c + t.priorityFee <= t.maxFeeCap then c + t.priorityFee else Max(t.maxFeeCap, t.priorityFee)
  {}

  lemma Enlarged(baseFee: nat, t: Tunables)
    requires t.multiplierBps >= 10_000
    ensures baseFee * t.multiplierBps >= baseFee * 10_000
  {}

  /** So with a multiplier of at least one it can be mined at the base fee it was made for, unless the cap is in the way. */
  lemma FreshQuoteCoversBaseFee(baseFee: nat, t: Tunables)
    requires Configured(t) && t.multiplierBps >= 10_000 && baseFee * t.multiplierBps <= U128_MAX
    ensures var q := FreshQuote(baseFee, t); q.maxFee >= baseFee + q.tip || q.maxFee >= t.maxFeeCap
  {
    Enlarged(baseFee, t);
  }

  /**
   A replacement raises the tip as little as the pool allows, and its max fee is the least that the pool takes
   and that pays the scaled base fee on top of the tip; if that breaks the cap, it is the cap.
   */
  lemma ReplacementIsLeast(kind: Kind, prev: FeeQuote, baseFee: nat, cap: nat, t: Tunables, c: nat, other: FeeQuote)
    requires Sane(prev) && cap <= U128_MAX && Replacement(kind, prev, baseFee, cap, t).Some? && IsScaled(baseFee, t, c)
    ensures var q := Replacement(kind, prev, baseFee, cap, t).value;
            && (Accepts(kind, prev, other) ==> q.tip <= other.tip)
            && (Accepts(kind, prev, other) && other.tip == q.tip && other.maxFee >= c + q.tip ==> q.maxFee <= other.maxFee)
            && (q.maxFee >= c + q.tip || q.maxFee == cap)
  {
    BumpIsMonotone(prev.tip, prev.maxFee);
  }

  // ---- Chains of replacements at one nonce ----

  /** Each quote replaced the one before it, against whatever base fee was read at the time. */
  ghost predicate FeeChain(kind: Kind, qs: seq<FeeQuote>, bases: seq<nat>, cap: nat, t: Tunables) {
    && |qs| == |bases| + 1
    && forall i {:trigger bases[i]} :: 0 <= i < |bases| ==> Replacement(kind, qs[i], bases[i], cap, t) == Some(qs[i + 1])
  }

  lemma {:induction false} ChainIsSane(kind: Kind, qs: seq<FeeQuote>, bases: seq<nat>, cap: nat, t: Tunables, n: nat)
    requires FeeChain(kind, qs, bases, cap, t) && Sane(qs[0]) && cap <= U128_MAX && n < |qs|
    ensures Sane(qs[n]) && (n > 0 ==> qs[n].maxFee <= cap && Accepts(kind, qs[n - 1], qs[n]))
  {
    if n > 0 {
      ChainIsSane(kind, qs, bases, cap, t, n - 1);
      assert Replacement(kind, qs[n - 1], bases[n - 1], cap, t) == Some(qs[n]);
      ReplacementIsAccepted(kind, qs[n - 1], bases[n - 1], cap, t);
    }
  }

  /** Every replacement of a chain would be accepted over each earlier one, not only over the last. */
  lemma {:induction false} LaterOutbidsEarlier(kind: Kind, qs: seq<FeeQuote>, bases: seq<nat>, cap: nat, t: Tunables, i: nat, j: nat)
    requires FeeChain(kind, qs, bases, cap, t) && Sane(qs[0]) && cap <= U128_MAX && i < j < |qs|
    ensures Accepts(kind, qs[i], qs[j])
    decreases j
  {
    hide BumpPct, Replacement;
    ChainIsSane(kind, qs, bases, cap, t, j);
    if i < j - 1 {
      LaterOutbidsEarlier(kind, qs, bases, cap, t, i, j - 1);
      ChainIsSane(kind, qs, bases, cap, t, j - 1);
      BumpRises(qs[j - 1].maxFee);
      BumpRises(qs[j - 1].tip);
    }
  }

  function Pow(b: nat, n: nat): nat { if n == 0 then 1 else b * Pow(b, n - 1) }

  lemma CrossMultiply(a: nat, b: nat, p: nat, q: nat, x: nat)
    requires a * p >= x * q && b * 10 >= a * 11
    ensures b * (10 * p) >= x * (11 * q)
  {}

  /** On geth's rules n replacements multiply the max fee by at least 1.1^n, so the cap ends every chain. */
  lemma {:induction false} GethChainGrows(qs: seq<FeeQuote>, bases: seq<nat>, cap: nat, t: Tunables, n: nat)
    requires FeeChain(Geth, qs, bases, cap, t) && Sane(qs[0]) && qs[0].maxFee <= cap && cap * 110 <= U128_MAX && n < |qs|
    ensures qs[0].maxFee * Pow(11, n) <= qs[n].maxFee * Pow(10, n)
    ensures qs[n].maxFee <= cap
  {
    ChainIsSane(Geth, qs, bases, cap, t, n);
    if n > 0 {
      GethChainGrows(qs, bases, cap, t, n - 1);
      var a, b := qs[n - 1].maxFee, qs[n].maxFee;
      BumpIsLeastTenPercent(a, b);
      CrossMultiply(a, b, Pow(10, n - 1), Pow(11, n - 1), qs[0].maxFee);
    }
  }

  // ---- A cancel can always outbid the job it cancels ----

  /** Every sane quote within the job cap leaves room for a cancel, whatever the base fee. */
  ghost predicate CancelAlwaysFits(kind: Kind, t: Tunables) {
    forall q: FeeQuote, baseFee: nat :: Sane(q) && q.maxFee <= t.maxFeeCap ==> Replacement(kind, q, baseFee, t.cancelFeeCap, t).Some?
  }

  /** The configuration rule that guarantees it, and nothing weaker does. */
  lemma CancelAlwaysFitsIff(kind: Kind, t: Tunables)
    requires Configured(t) && kind.Replaces()
    ensures CancelAlwaysFits(kind, t) <==> (if kind.Geth? then t.cancelFeeCap >= BumpPct(t.maxFeeCap, 10) else t.cancelFeeCap > t.maxFeeCap)
  {
    hide Scaled, BumpPct;
    var top := FeeQuote(t.maxFeeCap, 0);
    if CancelAlwaysFits(kind, t) {
      assert Replacement(kind, top, 0, t.cancelFeeCap, t).Some?;
      BumpRises(t.maxFeeCap);
    }
    forall q: FeeQuote, baseFee: nat | Sane(q) && q.maxFee <= t.maxFeeCap
      ensures kind.Geth? && t.cancelFeeCap >= BumpPct(t.maxFeeCap, 10) ==> Replacement(kind, q, baseFee, t.cancelFeeCap, t).Some?
      ensures kind.Monad? && t.cancelFeeCap > t.maxFeeCap ==> Replacement(kind, q, baseFee, t.cancelFeeCap, t).Some?
    {
      BumpIsMonotone(q.maxFee, t.maxFeeCap);
    }
  }

  /** So with that rule kept, no chain of replacements from a fresh quote ends beyond a cancel's reach. */
  lemma ReachableQuoteCanBeCancelled(kind: Kind, qs: seq<FeeQuote>, bases: seq<nat>, t: Tunables, firstBase: nat, baseFee: nat)
    requires Configured(t) && t.priorityFee <= t.maxFeeCap && kind.Replaces()
    requires if kind.Geth? then t.cancelFeeCap >= BumpPct(t.maxFeeCap, 10) else t.cancelFeeCap > t.maxFeeCap
    requires FeeChain(kind, qs, bases, t.maxFeeCap, t) && qs[0] == FreshQuote(firstBase, t)
    ensures var cancel := Replacement(kind, qs[|qs| - 1], baseFee, t.cancelFeeCap, t);
            cancel.Some? && Accepts(kind, qs[|qs| - 1], cancel.value) && cancel.value.maxFee <= t.cancelFeeCap
  {
    hide Replacement, BumpPct, FreshQuote, Accepts;
    FreshQuoteIsSane(firstBase, t);
    ChainIsSane(kind, qs, bases, t.maxFeeCap, t, |qs| - 1);
    CancelAlwaysFitsIff(kind, t);
    ReplacementIsAccepted(kind, qs[|qs| - 1], baseFee, t.cancelFeeCap, t);
  }
}

/** What a transaction can cost at most, and what a mined one did cost. */
module Costs {
  import opened Domain
  import opened Fees

  const U256_MAX: nat := 0xFFFF_FFFF_FFFF_FFFF_FFFF_FFFF_FFFF_FFFF_FFFF_FFFF_FFFF_FFFF_FFFF_FFFF_FFFF_FFFF

  function SatAdd(a: nat, b: nat): nat { Min(a + b, U256_MAX) }

  function SatMul(a: nat, b: nat): nat { Min(a * b, U256_MAX) }

  function SatSub(a: nat, b: nat): nat { Max(a - b, 0) }

  /** `price` is the effective gas price, missing on some nodes; an unusable receipt has no block yet. */
  datatype Receipt = Receipt(tx: Tx, outcome: Outcome, gasUsed: nat, price: Option<nat>, block: Option<nat>)

  function PriceOf(r: Receipt): nat { if r.price.Some? then r.price.value else 0 }

  function WorstCase(tx: Tx): nat { SatAdd(SatMul(tx.gasLimit, tx.fees.maxFee), tx.value) }

  /** Monad charges the gas limit; the others charge the gas used. */
  function FeePaid(kind: Kind, r: Receipt): nat {
    SatMul(if kind.Monad? then r.tx.gasLimit else r.gasUsed, PriceOf(r))
  }

  /** What the ledger debits for a mined attempt. */
  function Spent(kind: Kind, r: Receipt): nat {
    SatAdd(FeePaid(kind, r), if r.outcome.Success? then r.tx.value else 0)
  }

  const MONAD_RESERVE: nat := 10_000_000_000_000_000_000

  /** Monad holds a reserve back from transactions that move native value. */
  function Spendable(kind: Kind, balance: nat, value: nat): nat {
    if kind.Monad? && value > 0 then SatSub(balance, MONAD_RESERVE) else balance
  }

  /** EIP-1559: the effective price is at most the max fee; gas used is at most the limit. */
  ghost predicate Honest(r: Receipt) {
    PriceOf(r) <= r.tx.fees.maxFee && r.gasUsed <= r.tx.gasLimit
  }

  lemma ProductIsMonotone(a: nat, b: nat, c: nat, d: nat)
    requires a <= c && b <= d
    ensures a * b <= c * d
  {}

  /** Short of saturation a mined attempt costs the gas charged at its price, and its value only if it succeeded. */
  lemma SpentIsExact(kind: Kind, r: Receipt)
    requires r.tx.gasLimit * PriceOf(r) + r.gasUsed * PriceOf(r) + r.tx.value <= U256_MAX
    ensures Spent(Monad, r) == r.tx.gasLimit * PriceOf(r) + if r.outcome.Success? then r.tx.value else 0
    ensures !kind.Monad? ==> Spent(kind, r) == r.gasUsed * PriceOf(r) + if r.outcome.Success? then r.tx.value else 0
  {}

  /** The worst case is no overestimate: a success that burns all its gas at the max fee costs exactly that. */
  lemma WorstCaseIsReached(kind: Kind, tx: Tx)
    ensures var r := Receipt(tx, Success, tx.gasLimit, Some(tx.fees.maxFee), None); Honest(r) && Spent(kind, r) == WorstCase(tx)
  {}

  /** A balance is enough exactly if it also covers Monad's ten-token reserve where that applies. */
  lemma SpendableCoversIff(kind: Kind, balance: nat, value: nat, need: nat)
    requires need > 0
    ensures Spendable(kind, balance, value) >= need <==> balance >= need + if kind.Monad? && value > 0 then 10 * 1_000_000_000_000_000_000 else 0
  {}

  lemma SpentIsWithinWorstCase(kind: Kind, r: Receipt)
    requires Honest(r)
    ensures Spent(kind, r) <= WorstCase(r.tx)
  {
    ProductIsMonotone(if kind.Monad? then r.tx.gasLimit else r.gasUsed, PriceOf(r), r.tx.gasLimit, r.tx.fees.maxFee);
  }
}
