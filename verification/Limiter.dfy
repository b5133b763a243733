/**
 The RPC rate limiter's dispatcher: one token bucket, three lanes, reserved credit for the two lower
 lanes, and a rate that halves on throttling and recovers on its own. Floats are modelled as reals.
 */
module Limiter {

  /** A caller waiting for permission; `alive` is false once it has given up. */
  datatype Waiter = Waiter(id: nat, alive: bool)

  /** Lane 0 sends, lane 1 reads, lane 2 is background work. */
  const SEND: nat := 0
  const READ: nat := 1
  const BACKGROUND: nat := 2

  datatype Config = Config(rate: real, reservedRead: real, reservedBackground: real)
  {
    ghost predicate Valid() { rate >= 1.0 && reservedRead >= 0.0 && reservedBackground >= 0.0 }
    function Burst(): real { RMax(rate / 5.0, 1.0) }
    function Reserved(lane: nat): real { if lane == READ then reservedRead else if lane == BACKGROUND then reservedBackground else 0.0 }
  }

  datatype Bucket = Bucket(tokens: real, factor: real, credit: seq<real>, queues: seq<seq<Waiter>>)

  /** A permission given out, with the bucket it was taken from. */
  datatype Grant = Grant(lane: nat, waiter: Waiter, before: Bucket)

  function RMax(a: real, b: real): real { if a >= b then a else b }

  function RMin(a: real, b: real): real { if a <= b then a else b }

  ghost predicate BucketOk(cfg: Config, b: Bucket) {
    && |b.credit| == 3 && |b.queues| == 3
    && 0.0 <= b.tokens <= cfg.Burst() && 0.25 <= b.factor <= 1.0
    && (forall l :: 0 <= l < 3 ==> 0.0 <= b.credit[l] <= RMax(cfg.Reserved(l), 1.0))
  }

  /** A lower lane that has both a waiter and a full credit. */
  predicate Credited(b: Bucket, lane: nat)
    requires |b.credit| == 3 && |b.queues| == 3 && lane < 3
  {
    b.queues[lane] != [] && b.credit[lane] >= 1.0
  }

  predicate AllEmpty(b: Bucket)
    requires |b.queues| == 3
  {
    b.queues[0] == [] && b.queues[1] == [] && b.queues[2] == []
  }

  /** The lane served next; 3 when nobody waits. */
  function Pick(b: Bucket): nat
    requires |b.credit| == 3 && |b.queues| == 3
  {
    if Credited(b, READ) then READ
    else if Credited(b, BACKGROUND) then BACKGROUND
    else if b.queues[0] != [] then 0
    else if b.queues[1] != [] then 1
    else if b.queues[2] != [] then 2
    else 3
  }

  function Waiting(b: Bucket): nat
    requires |b.queues| == 3
  {
    |b.queues[0]| + |b.queues[1]| + |b.queues[2]|
  }

  function Popped(b: Bucket, lane: nat): Bucket
    requires |b.queues| == 3 && lane < 3 && b.queues[lane] != []
  {
    b.(queues := b.queues[lane := b.queues[lane][1..]])
  }

  function Charged(b: Bucket, lane: nat): Bucket
    requires |b.credit| == 3 && lane < 3
  {
    b.(tokens := b.tokens - 1.0, credit := if lane > 0 then b.credit[lane := RMax(b.credit[lane] - 1.0, 0.0)] else b.credit)
  }

  /** The grant loop of one round, first grant first. */
  function Drain(b: Bucket): (r: (Bucket, seq<Grant>))
    requires |b.credit| == 3 && |b.queues| == 3
    ensures |r.0.credit| == 3 && |r.0.queues| == 3
    decreases Waiting(b)
  {
    var lane := Pick(b);
    if b.tokens < 1.0 || lane == 3 then (b, [])
    else
      var w := b.queues[lane][0];
      if w.alive then
        var (end, rest) := Drain(Charged(Popped(b, lane), lane));
        (end, [Grant(lane, w, b)] + rest)
      else Drain(Popped(b, lane))
  }

  function Refilled(cfg: Config, b: Bucket, elapsed: real, penalised: bool): Bucket
    requires |b.credit| == 3
  {
    var factor := if penalised then RMax(b.factor * 0.5, 0.25) else RMin(b.factor + 0.05 * elapsed, 1.0);
    var tokens := if penalised then RMin(b.tokens, 1.0) else b.tokens;
    b.(factor := factor,
       tokens := RMin(tokens + Share(elapsed, cfg.rate, factor), cfg.Burst()),
       credit := [b.credit[0], Topped(b.credit[1], elapsed, cfg.reservedRead, factor), Topped(b.credit[2], elapsed, cfg.reservedBackground, factor)])
  }

  /** What a rate yields over a time at the current factor. */
  function Share(elapsed: real, rate: real, factor: real): real { elapsed * (rate * factor) }

  function Topped(credit: real, elapsed: real, reserved: real, factor: real): real {
    RMin(credit + Share(elapsed, reserved, factor), RMax(reserved, 1.0))
  }

  function Joined(b: Bucket, arrivals: seq<seq<Waiter>>): Bucket
    requires |b.queues| == 3 && |arrivals| == 3
  {
    b.(queues := [b.queues[0] + arrivals[0], b.queues[1] + arrivals[1], b.queues[2] + arrivals[2]])
  }

  /** What one turn of the dispatcher's loop is told. */
  datatype Turn = Turn(arrivals: seq<seq<Waiter>>, elapsed: real, penalised: bool)

  function RoundOf(cfg: Config, b: Bucket, turn: Turn): (Bucket, seq<Grant>)
    requires |b.credit| == 3 && |b.queues| == 3 && |turn.arrivals| == 3
  {
    Drain(Refilled(cfg, Joined(b, turn.arrivals), turn.elapsed, turn.penalised))
  }

  /** One turn of the grant loop. */
  lemma DrainNext(b: Bucket)
    requires |b.credit| == 3 && |b.queues| == 3 && b.tokens >= 1.0 && Pick(b) != 3
    ensures var lane := Pick(b);
            lane < 3 && b.queues[lane] != []
            && (b.queues[lane][0].alive ==>
                  var next := Drain(Charged(Popped(b, lane), lane));
                  Drain(b).0 == next.0 && Drain(b).1 == [Grant(lane, b.queues[lane][0], b)] + next.1)
            && (!b.queues[lane][0].alive ==> Drain(b) == Drain(Popped(b, lane)))
  {}

  lemma DrainDone(b: Bucket)
    requires |b.credit| == 3 && |b.queues| == 3 && (b.tokens < 1.0 || Pick(b) == 3)
    ensures Drain(b) == (b, [])
  {}

  // ---- One round ----

  /** A round spends exactly one token per grant, and stops only for lack of tokens or of waiters. */
  lemma {:induction false} DrainSpendsTokens(cfg: Config, b: Bucket)
    requires BucketOk(cfg, b)
    ensures var (end, gs) := Drain(b);
            BucketOk(cfg, end) && end.factor == b.factor && end.tokens == b.tokens - |gs| as real && (end.tokens < 1.0 || AllEmpty(end))
    decreases Waiting(b)
  {
    var lane := Pick(b);
    if b.tokens >= 1.0 && lane != 3 {
      if b.queues[lane][0].alive {
        DrainSpendsTokens(cfg, Charged(Popped(b, lane), lane));
      } else {
        DrainSpendsTokens(cfg, Popped(b, lane));
      }
    }
  }

  /** A send is never granted while a lower lane has a waiter with a full credit. */
  lemma {:induction false} SendsYieldToCredit(b: Bucket, i: nat)
    requires |b.credit| == 3 && |b.queues| == 3 && i < |Drain(b).1|
    ensures var g := Drain(b).1[i];
            |g.before.credit| == 3 && |g.before.queues| == 3 && g.lane < 3 && g.before.tokens >= 1.0
            && (g.lane == SEND ==> !Credited(g.before, READ) && !Credited(g.before, BACKGROUND))
            && (g.lane == READ && !Credited(g.before, READ) ==> g.before.queues[SEND] == [] && !Credited(g.before, BACKGROUND))
            && (g.lane == BACKGROUND && Credited(g.before, BACKGROUND) ==> !Credited(g.before, READ))
            && (g.lane == BACKGROUND && !Credited(g.before, BACKGROUND) ==> g.before.queues[SEND] == [] && g.before.queues[READ] == [])
    decreases Waiting(b)
  {
    var lane := Pick(b);
    if !b.queues[lane][0].alive {
      SendsYieldToCredit(Popped(b, lane), i);
    } else if i > 0 {
      SendsYieldToCredit(Charged(Popped(b, lane), lane), i - 1);
    }
  }

  /** Grants to others made while background work was waiting with a full credit. */
  function PassedOver(gs: seq<Grant>): nat {
    if gs == [] then 0
    else
      var g := gs[0];
      PassedOver(gs[1..]) + if g.lane != BACKGROUND && |g.before.credit| == 3 && |g.before.queues| == 3 && Credited(g.before, BACKGROUND) then 1 else 0
  }

  /** Credited background work is passed over at most once per whole read credit in a round. */
  lemma {:induction false} BackgroundIsNotStarved(b: Bucket)
    requires |b.credit| == 3 && |b.queues| == 3 && b.credit[READ] >= 0.0
    ensures PassedOver(Drain(b).1) <= b.credit[READ].Floor
    decreases Waiting(b)
  {
    var lane := Pick(b);
    if b.tokens >= 1.0 && lane != 3 {
      if b.queues[lane][0].alive {
        var next := Charged(Popped(b, lane), lane);
        BackgroundIsNotStarved(next);
        assert Drain(b).1[1..] == Drain(next).1;
      } else {
        BackgroundIsNotStarved(Popped(b, lane));
      }
    }
  }

  /** Grants to the lower lanes made while a send was waiting. */
  function SendsPassedOver(gs: seq<Grant>): nat {
    if gs == [] then 0
    else
      var g := gs[0];
      SendsPassedOver(gs[1..]) + if g.lane != SEND && |g.before.queues| == 3 && g.before.queues[SEND] != [] then 1 else 0
  }

  lemma FloorDrops(x: real)
    requires x >= 1.0
    ensures x.Floor == (x - 1.0).Floor + 1
  {}

  /** A send waits for no more grants in a round than there are whole credits in the lower lanes. */
  lemma {:induction false} SendsAreDelayedLittle(b: Bucket)
    requires |b.credit| == 3 && |b.queues| == 3 && b.credit[READ] >= 0.0 && b.credit[BACKGROUND] >= 0.0
    ensures SendsPassedOver(Drain(b).1) <= b.credit[READ].Floor + b.credit[BACKGROUND].Floor
    decreases Waiting(b)
  {
    var lane := Pick(b);
    if b.tokens >= 1.0 && lane != 3 {
      if b.queues[lane][0].alive {
        var next := Charged(Popped(b, lane), lane);
        if lane > 0 && b.credit[lane] >= 1.0 { FloorDrops(b.credit[lane]); }
        SendsAreDelayedLittle(next);
        assert Drain(b).1[1..] == Drain(next).1;
      } else {
        SendsAreDelayedLittle(Popped(b, lane));
      }
    }
  }

  function Alive(q: seq<Waiter>): seq<Waiter> {
    if q == [] then [] else (if q[0].alive then [q[0]] else []) + Alive(q[1..])
  }

  function Of(gs: seq<Grant>, lane: nat): seq<Waiter> {
    if gs == [] then [] else (if gs[0].lane == lane then [gs[0].waiter] else []) + Of(gs[1..], lane)
  }

  /** Within a lane permissions go out in arrival order, once each, and never to a caller that left. */
  lemma {:induction false} LanesAreFifo(b: Bucket, l: nat)
    requires |b.credit| == 3 && |b.queues| == 3 && l < 3
    ensures var (end, gs) := Drain(b); Of(gs, l) + Alive(end.queues[l]) == Alive(b.queues[l])
    decreases Waiting(b)
  {
    var lane := Pick(b);
    if b.tokens >= 1.0 && lane != 3 {
      if b.queues[lane][0].alive {
        var next := Charged(Popped(b, lane), lane);
        LanesAreFifo(next, l);
        assert Drain(b).1[1..] == Drain(next).1;
      } else {
        LanesAreFifo(Popped(b, lane), l);
      }
    }
  }

  lemma ProductIsPositive(a: real, b: real)
    requires a >= 0.0 && b >= 0.0
    ensures a * b >= 0.0
  {}

  lemma ShareIsBounded(elapsed: real, rate: real, factor: real)
    requires elapsed >= 0.0 && rate >= 0.0 && 0.0 <= factor <= 1.0
    ensures 0.0 <= Share(elapsed, rate, factor) <= rate * elapsed
  {
    var gain := rate * factor;
    ProductIsPositive(rate, factor);
    ProductIsPositive(rate, 1.0 - factor);
    assert rate * (1.0 - factor) == rate - gain;
    ProductIsPositive(elapsed, gain);
    ProductIsPositive(elapsed, rate - gain);
    assert elapsed * (rate - gain) == elapsed * rate - elapsed * gain;
  }

  lemma RefillIsBounded(cfg: Config, b: Bucket, elapsed: real, penalised: bool)
    requires cfg.Valid() && BucketOk(cfg, b) && elapsed >= 0.0
    ensures var r := Refilled(cfg, b, elapsed, penalised);
            BucketOk(cfg, r) && r.tokens <= b.tokens + cfg.rate * elapsed && r.queues == b.queues
  {
    hide Share;
    var factor := Refilled(cfg, b, elapsed, penalised).factor;
    assert 0.25 <= factor <= 1.0;
    ShareIsBounded(elapsed, cfg.rate, factor);
    ShareIsBounded(elapsed, cfg.reservedRead, factor);
    ShareIsBounded(elapsed, cfg.reservedBackground, factor);
  }

  lemma ShareIs(elapsed: real, rate: real, factor: real)
    ensures Share(elapsed, rate, factor) == elapsed * (rate * factor)
  {}

  lemma PenaltyCuts(cfg: Config, b: Bucket, turn: Turn)
    requires cfg.Valid() && BucketOk(cfg, b) && |turn.arrivals| == 3 && turn.elapsed >= 0.0 && turn.penalised
    ensures var (end, gs) := RoundOf(cfg, b, turn);
            end.factor == RMax(b.factor / 2.0, 0.25) && |gs| as real <= 1.0 + Share(turn.elapsed, cfg.rate, end.factor)
  {
    hide Drain, Share;
    var joined := Joined(b, turn.arrivals);
    RefillIsBounded(cfg, joined, turn.elapsed, true);
    DrainSpendsTokens(cfg, Refilled(cfg, joined, turn.elapsed, true));
  }

  /** A throttled round starts from one token at most and refills at no more than half the rate, or a quarter of the full one. */
  lemma PenaltyCutsTheRound(cfg: Config, b: Bucket, turn: Turn)
    requires cfg.Valid() && BucketOk(cfg, b) && |turn.arrivals| == 3 && turn.elapsed >= 0.0 && turn.penalised
    ensures var (end, gs) := RoundOf(cfg, b, turn);
            end.factor == RMax(b.factor / 2.0, 0.25) && |gs| as real <= 1.0 + turn.elapsed * (cfg.rate * end.factor)
  {
    hide RoundOf, Share;
    PenaltyCuts(cfg, b, turn);
    ShareIs(turn.elapsed, cfg.rate, RoundOf(cfg, b, turn).0.factor);
  }

  lemma ToppedReturns(credit: real, elapsed: real, reserved: real, factor: real)
    requires elapsed >= 0.0 && reserved >= 0.0 && factor >= 0.25
    ensures Topped(credit, elapsed, reserved, factor) >= RMin(credit + Share(elapsed, reserved, 0.25), RMax(reserved, 1.0))
  {
    ShareGrows(elapsed, reserved, 0.25, factor);
    hide Share;
  }

  /** However often it is throttled, a lane that waits earns at least a quarter of its reserved credit. */
  lemma CreditReturns(cfg: Config, b: Bucket, elapsed: real, penalised: bool, lane: nat)
    requires cfg.Valid() && BucketOk(cfg, b) && elapsed >= 0.0 && 1 <= lane < 3
    ensures Refilled(cfg, b, elapsed, penalised).credit[lane] >= RMin(b.credit[lane] + elapsed * (cfg.Reserved(lane) * 0.25), RMax(cfg.Reserved(lane), 1.0))
  {
    hide Share, Topped;
    var factor := Refilled(cfg, b, elapsed, penalised).factor;
    assert factor >= 0.25;
    ToppedReturns(b.credit[lane], elapsed, cfg.Reserved(lane), factor);
    ShareIs(elapsed, cfg.Reserved(lane), 0.25);
  }

  lemma ShareGrows(elapsed: real, rate: real, low: real, high: real)
    requires elapsed >= 0.0 && rate >= 0.0 && low <= high
    ensures Share(elapsed, rate, low) <= Share(elapsed, rate, high)
  {
    var gain := rate * (high - low);
    ProductIsPositive(rate, high - low);
    ProductIsPositive(elapsed, gain);
    assert gain == rate * high - rate * low;
    assert elapsed * gain == elapsed * (rate * high) - elapsed * (rate * low);
  }

  lemma RoundIsBounded(cfg: Config, b: Bucket, turn: Turn)
    requires cfg.Valid() && BucketOk(cfg, b) && |turn.arrivals| == 3 && turn.elapsed >= 0.0
    ensures var (end, gs) := RoundOf(cfg, b, turn);
            BucketOk(cfg, end) && |gs| as real + end.tokens <= b.tokens + cfg.rate * turn.elapsed && (end.tokens < 1.0 || AllEmpty(end))
  {
    hide Refilled, Drain;
    var joined := Joined(b, turn.arrivals);
    RefillIsBounded(cfg, joined, turn.elapsed, turn.penalised);
    DrainSpendsTokens(cfg, Refilled(cfg, joined, turn.elapsed, turn.penalised));
  }

  // ---- Any number of rounds ----

  ghost predicate IsService(cfg: Config, bs: seq<Bucket>, turns: seq<Turn>) {
    && cfg.Valid() && |bs| == |turns| + 1 && BucketOk(cfg, bs[0])
    && (forall i {:trigger bs[i]} :: 0 <= i < |bs| ==> |bs[i].credit| == 3 && |bs[i].queues| == 3)
    && (forall i {:trigger turns[i]} :: 0 <= i < |turns| ==>
          |turns[i].arrivals| == 3 && turns[i].elapsed >= 0.0 && bs[i + 1] == RoundOf(cfg, bs[i], turns[i]).0)
  }

  ghost function Granted(cfg: Config, bs: seq<Bucket>, turns: seq<Turn>, m: nat, n: nat): nat
    requires IsService(cfg, bs, turns) && m <= n <= |turns|
    decreases n
  {
    if m == n then 0 else Granted(cfg, bs, turns, m, n - 1) + |RoundOf(cfg, bs[n - 1], turns[n - 1]).1|
  }

  function Elapsed(turns: seq<Turn>, m: nat, n: nat): real
    requires m <= n <= |turns|
    decreases n
  {
    if m == n then 0.0 else Elapsed(turns, m, n - 1) + turns[n - 1].elapsed
  }

  lemma {:induction false} BucketStaysOk(cfg: Config, bs: seq<Bucket>, turns: seq<Turn>, n: nat)
    requires IsService(cfg, bs, turns) && n < |bs|
    ensures BucketOk(cfg, bs[n])
  {
    hide RoundOf, BucketOk;
    if n > 0 {
      BucketStaysOk(cfg, bs, turns, n - 1);
      RoundIsBounded(cfg, bs[n - 1], turns[n - 1]);
    }
  }

  lemma {:induction false} TokensPayForGrants(cfg: Config, bs: seq<Bucket>, turns: seq<Turn>, m: nat, n: nat)
    requires IsService(cfg, bs, turns) && m <= n <= |turns|
    ensures Granted(cfg, bs, turns, m, n) as real + bs[n].tokens <= bs[m].tokens + cfg.rate * Elapsed(turns, m, n)
    decreases n
  {
    hide RoundOf, BucketOk;
    if m < n {
      TokensPayForGrants(cfg, bs, turns, m, n - 1);
      BucketStaysOk(cfg, bs, turns, n - 1);
      RoundIsBounded(cfg, bs[n - 1], turns[n - 1]);
      assert cfg.rate * Elapsed(turns, m, n) == cfg.rate * Elapsed(turns, m, n - 1) + cfg.rate * turns[n - 1].elapsed;
    }
  }

  /** Between any two rounds, under any arrivals and penalties: at most one burst plus rate times time. */
  lemma RateBound(cfg: Config, bs: seq<Bucket>, turns: seq<Turn>, m: nat, n: nat)
    requires IsService(cfg, bs, turns) && m <= n <= |turns|
    ensures Granted(cfg, bs, turns, m, n) as real <= RMax(cfg.rate / 5.0, 1.0) + cfg.rate * Elapsed(turns, m, n)
  {
    hide RoundOf;
    TokensPayForGrants(cfg, bs, turns, m, n);
    BucketStaysOk(cfg, bs, turns, m);
    BucketStaysOk(cfg, bs, turns, n);
  }

  // ---- Order across rounds ----

  lemma {:induction false} AliveSplits(a: seq<Waiter>, b: seq<Waiter>)
    ensures Alive(a + b) == Alive(a) + Alive(b)
  {
    if a == [] {
      assert a + b == b;
    } else {
      var first := if a[0].alive then [a[0]] else [];
      assert (a + b)[1..] == a[1..] + b;
      AliveSplits(a[1..], b);
      assert Alive(a + b) == first + Alive(a[1..] + b) && Alive(a) == first + Alive(a[1..]);
    }
  }

  /** A round serves the lane's queue in order, with those who just arrived at its end. */
  lemma RoundIsFifo(cfg: Config, b: Bucket, turn: Turn, l: nat)
    requires |b.credit| == 3 && |b.queues| == 3 && |turn.arrivals| == 3 && l < 3
    ensures var (end, gs) := RoundOf(cfg, b, turn);
            |end.queues| == 3 && Of(gs, l) + Alive(end.queues[l]) == Alive(b.queues[l]) + Alive(turn.arrivals[l])
  {
    hide Drain, Share, Topped;
    LanesAreFifo(Refilled(cfg, Joined(b, turn.arrivals), turn.elapsed, turn.penalised), l);
    AliveSplits(b.queues[l], turn.arrivals[l]);
  }

  ghost function Served(cfg: Config, bs: seq<Bucket>, turns: seq<Turn>, n: nat, l: nat): seq<Waiter>
    requires IsService(cfg, bs, turns) && n <= |turns|
  {
    if n == 0 then [] else Served(cfg, bs, turns, n - 1, l) + Of(RoundOf(cfg, bs[n - 1], turns[n - 1]).1, l)
  }

  function Arrived(turns: seq<Turn>, n: nat, l: nat): seq<Waiter>
    requires n <= |turns| && l < 3 && forall i :: 0 <= i < |turns| ==> |turns[i].arrivals| == 3
  {
    if n == 0 then [] else Arrived(turns, n - 1, l) + Alive(turns[n - 1].arrivals[l])
  }

  /** Over any rounds a lane's callers are served in the order they arrived in, each once, and none is forgotten. */
  lemma {:induction false} ServedInOrder(cfg: Config, bs: seq<Bucket>, turns: seq<Turn>, n: nat, l: nat)
    requires IsService(cfg, bs, turns) && n <= |turns| && l < 3
    ensures Served(cfg, bs, turns, n, l) + Alive(bs[n].queues[l]) == Alive(bs[0].queues[l]) + Arrived(turns, n, l)
  {
    hide RoundOf, BucketOk;
    if n > 0 {
      ServedInOrder(cfg, bs, turns, n - 1, l);
      RoundIsFifo(cfg, bs[n - 1], turns[n - 1], l);
      var before, granted := Served(cfg, bs, turns, n - 1, l), Of(RoundOf(cfg, bs[n - 1], turns[n - 1]).1, l);
      calc {
        before + granted + Alive(bs[n].queues[l]);
        before + (granted + Alive(bs[n].queues[l]));
        before + (Alive(bs[n - 1].queues[l]) + Alive(turns[n - 1].arrivals[l]));
        before + Alive(bs[n - 1].queues[l]) + Alive(turns[n - 1].arrivals[l]);
      }
    }
  }

  // ---- What is earned ----

  lemma RefillEarns(cfg: Config, b: Bucket, elapsed: real, penalised: bool)
    requires cfg.Valid() && BucketOk(cfg, b) && elapsed >= 0.0 && b.tokens < 1.0 && cfg.rate * elapsed + 1.0 <= cfg.Burst()
    ensures Refilled(cfg, b, elapsed, penalised).tokens >= b.tokens + Share(elapsed, cfg.rate, 0.25)
  {
    hide Share, Topped;
    var factor := Refilled(cfg, b, elapsed, penalised).factor;
    assert 0.25 <= factor <= 1.0;
    ShareIsBounded(elapsed, cfg.rate, factor);
    ShareGrows(elapsed, cfg.rate, 0.25, factor);
    AddsUp(b.tokens, Share(elapsed, cfg.rate, factor), cfg.rate * elapsed, cfg.Burst());
    assert Refilled(cfg, b, elapsed, penalised).tokens == RMin(b.tokens + Share(elapsed, cfg.rate, factor), cfg.Burst());
  }

  lemma AddsUp(tokens: real, share: real, most: real, burst: real)
    requires tokens < 1.0 && share <= most && most + 1.0 <= burst
    ensures RMin(tokens + share, burst) == tokens + share
  {}

  lemma RoundEarns(cfg: Config, b: Bucket, turn: Turn)
    requires cfg.Valid() && BucketOk(cfg, b) && |turn.arrivals| == 3 && turn.elapsed >= 0.0
    requires b.tokens < 1.0 && cfg.rate * turn.elapsed + 1.0 <= cfg.Burst()
    ensures var (end, gs) := RoundOf(cfg, b, turn); |gs| as real + end.tokens >= b.tokens + Share(turn.elapsed, cfg.rate, 0.25)
  {
    hide Refilled, Drain, Share;
    var joined := Joined(b, turn.arrivals);
    RefillIsBounded(cfg, joined, turn.elapsed, turn.penalised);
    RefillEarns(cfg, joined, turn.elapsed, turn.penalised);
    DrainSpendsTokens(cfg, Refilled(cfg, joined, turn.elapsed, turn.penalised));
  }

  /** Callers are left over and the turn is short. */
  ghost predicate Pressed(cfg: Config, b: Bucket, turn: Turn) {
    |b.queues| == 3 && !AllEmpty(b) && cfg.rate * turn.elapsed + 1.0 <= RMax(cfg.rate / 5.0, 1.0)
  }

  lemma ShareAdds(a: real, b: real, rate: real)
    ensures Share(a + b, rate, 0.25) == Share(a, rate, 0.25) + Share(b, rate, 0.25)
    ensures Share(0.0, rate, 0.25) == 0.0 && Share(a, rate, 0.25) == a * (rate * 0.25)
  {}

  lemma PressedRoundEarns(cfg: Config, bs: seq<Bucket>, turns: seq<Turn>, n: nat)
    requires IsService(cfg, bs, turns) && 0 < n < |turns| && Pressed(cfg, bs[n], turns[n])
    ensures |RoundOf(cfg, bs[n], turns[n]).1| as real + bs[n + 1].tokens >= bs[n].tokens + Share(turns[n].elapsed, cfg.rate, 0.25)
  {
    hide RoundOf, BucketOk, AllEmpty, Share;
    BucketStaysOk(cfg, bs, turns, n);
    LeftoversMeanNoTokens(cfg, bs, turns, n);
    RoundEarns(cfg, bs[n], turns[n]);
  }

  lemma {:induction false} PressedRoundsEarn(cfg: Config, bs: seq<Bucket>, turns: seq<Turn>, m: nat, n: nat)
    requires IsService(cfg, bs, turns) && 0 < m <= n <= |turns|
    requires forall i :: m <= i < n ==> Pressed(cfg, bs[i], turns[i])
    ensures Granted(cfg, bs, turns, m, n) as real + bs[n].tokens >= bs[m].tokens + Share(Elapsed(turns, m, n), cfg.rate, 0.25)
    decreases n
  {
    hide RoundOf, BucketOk, AllEmpty, Share, Pressed;
    if m < n {
      PressedRoundsEarn(cfg, bs, turns, m, n - 1);
      PressedRoundEarns(cfg, bs, turns, n - 1);
      ShareAdds(Elapsed(turns, m, n - 1), turns[n - 1].elapsed, cfg.rate);
    } else {
      ShareAdds(0.0, 0.0, cfg.rate);
    }
  }

  /** However often it is throttled, a limiter with callers waiting grants at least a quarter of the rate. */
  lemma RateFloor(cfg: Config, bs: seq<Bucket>, turns: seq<Turn>, m: nat, n: nat)
    requires IsService(cfg, bs, turns) && 0 < m <= n <= |turns|
    requires forall i :: m <= i < n ==> Pressed(cfg, bs[i], turns[i])
    ensures Granted(cfg, bs, turns, m, n) as real + bs[n].tokens >= bs[m].tokens + Elapsed(turns, m, n) * (cfg.rate * 0.25)
  {
    hide Pressed, Granted, IsService;
    PressedRoundsEarn(cfg, bs, turns, m, n);
    ShareAdds(Elapsed(turns, m, n), 0.0, cfg.rate);
  }

  lemma LeftoversMeanNoTokens(cfg: Config, bs: seq<Bucket>, turns: seq<Turn>, n: nat)
    requires IsService(cfg, bs, turns) && 0 < n <= |turns| && !AllEmpty(bs[n])
    ensures bs[n].tokens < 1.0
  {
    hide RoundOf, BucketOk, AllEmpty;
    BucketStaysOk(cfg, bs, turns, n - 1);
    RoundIsBounded(cfg, bs[n - 1], turns[n - 1]);
  }

  lemma FactorMoves(cfg: Config, b: Bucket, turn: Turn)
    requires cfg.Valid() && BucketOk(cfg, b) && |turn.arrivals| == 3 && turn.elapsed >= 0.0 && !turn.penalised
    ensures RoundOf(cfg, b, turn).0.factor == RMin(b.factor + turn.elapsed / 20.0, 1.0)
  {
    hide Drain;
    var joined := Joined(b, turn.arrivals);
    RefillIsBounded(cfg, joined, turn.elapsed, false);
    DrainSpendsTokens(cfg, Refilled(cfg, joined, turn.elapsed, false));
  }

  lemma RisesOn(factor: real, before: real, more: real)
    requires more >= 0.0
    ensures RMin(RMin(factor + before / 20.0, 1.0) + more / 20.0, 1.0) == RMin(factor + (before + more) / 20.0, 1.0)
  {}

  lemma FactorIsBounded(cfg: Config, b: Bucket)
    requires BucketOk(cfg, b)
    ensures 0.25 <= b.factor <= 1.0
  {}

  /** Without new throttling the rate recovers by a twentieth per second, so fully within fifteen seconds. */
  lemma {:induction false} RateRecovers(cfg: Config, bs: seq<Bucket>, turns: seq<Turn>, m: nat, n: nat)
    requires IsService(cfg, bs, turns) && m <= n <= |turns| && forall i :: m <= i < n ==> !turns[i].penalised
    ensures bs[n].factor == RMin(bs[m].factor + Elapsed(turns, m, n) / 20.0, 1.0)
    ensures Elapsed(turns, m, n) >= 15.0 ==> bs[n].factor == 1.0
    decreases n
  {
    hide RoundOf, BucketOk;
    BucketStaysOk(cfg, bs, turns, m);
    FactorIsBounded(cfg, bs[m]);
    if m < n {
      RateRecovers(cfg, bs, turns, m, n - 1);
      BucketStaysOk(cfg, bs, turns, n - 1);
      FactorMoves(cfg, bs[n - 1], turns[n - 1]);
      RisesOn(bs[m].factor, Elapsed(turns, m, n - 1), turns[n - 1].elapsed);
    }
  }

  // ---- The dispatcher ----

  class Dispatcher {
    const cfg: Config
    var tokens: real
    var factor: real
    var credit: seq<real>
    var queues: seq<seq<Waiter>>
    var seenPenalties: nat

    function State(): Bucket
      reads this
    {
      Bucket(tokens, factor, credit, queues)
    }

    constructor (cfg: Config)
      requires cfg.Valid()
      ensures BucketOk(cfg, State()) && this.cfg == cfg && AllEmpty(State()) && tokens == cfg.Burst() && factor == 1.0 && seenPenalties == 0
    {
      this.cfg := cfg;
      tokens, factor, credit, queues, seenPenalties := cfg.Burst(), 1.0, [0.0, 0.0, 0.0], [[], [], []], 0;
    }

    /** One turn of the loop: pull, refill, grant. */
    method Round(arrivals: seq<seq<Waiter>>, elapsed: real, penalties: nat) returns (gs: seq<Grant>)
      requires |credit| == 3 && |queues| == 3 && |arrivals| == 3
      modifies this
      ensures (State(), gs) == RoundOf(cfg, old(State()), Turn(arrivals, elapsed, penalties != old(seenPenalties)))
      ensures seenPenalties == penalties
    {
      hide Drain, Refilled;
      for lane := 0 to 3
        invariant |queues| == 3 && State() == old(State()).(queues := queues) && seenPenalties == old(seenPenalties)
        invariant forall l :: 0 <= l < 3 ==> queues[l] == old(queues)[l] + if l < lane then arrivals[l] else []
      {
        queues := queues[lane := queues[lane] + arrivals[lane]];
      }
      assert State() == Joined(old(State()), arrivals);
      Refill(elapsed, penalties);
      gs := GrantAll();
    }

    method Refill(elapsed: real, penalties: nat)
      requires |credit| == 3
      modifies this`tokens, this`factor, this`credit, this`seenPenalties
      ensures |credit| == 3 && seenPenalties == penalties
      ensures State() == Refilled(cfg, old(State()), elapsed, penalties != old(seenPenalties))
    {
      hide Topped, Share, RMin, RMax;
      if penalties != seenPenalties {
        seenPenalties := penalties;
        factor := RMax(factor * 0.5, 0.25);
        tokens := RMin(tokens, 1.0);
      } else {
        factor := RMin(factor + 0.05 * elapsed, 1.0);
      }
      tokens := RMin(tokens + Share(elapsed, cfg.rate, factor), cfg.Burst());
      credit := credit[1 := Topped(credit[1], elapsed, cfg.reservedRead, factor)];
      credit := credit[2 := Topped(credit[2], elapsed, cfg.reservedBackground, factor)];
      assert credit == [old(credit)[0], Topped(old(credit)[1], elapsed, cfg.reservedRead, factor), Topped(old(credit)[2], elapsed, cfg.reservedBackground, factor)];
    }

    method GrantAll() returns (gs: seq<Grant>)
      requires |credit| == 3 && |queues| == 3
      modifies this`tokens, this`credit, this`queues
      ensures (State(), gs) == Drain(old(State()))
    {
      hide Drain, Pick;
      gs := [];
      while tokens >= 1.0
        invariant |credit| == 3 && |queues| == 3
        invariant Drain(old(State())).0 == Drain(State()).0 && Drain(old(State())).1 == gs + Drain(State()).1
        decreases Waiting(State())
      {
        var lane := Pick(State());
        if lane == 3 { break; }
        var before := State();
        DrainNext(before);
        var waiter := queues[lane][0];
        queues := queues[lane := queues[lane][1..]];
        assert State() == Popped(before, lane);
        if waiter.alive {
          gs := gs + [Grant(lane, waiter, before)];
          tokens := tokens - 1.0;
          if lane > 0 { credit := credit[lane := RMax(credit[lane] - 1.0, 0.0)]; }
          assert State() == Charged(Popped(before, lane), lane);
        }
      }
      DrainDone(State());
      assert gs + [] == gs;
    }
  }
}
