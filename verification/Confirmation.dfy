/** The confirmation verifier: looks at every inclusion again after a delay, and decides. */
module Confirmation {
  import opened Domain

  datatype Rule = Immediate | BlockHash | TxMembership(window: nat) | FinalizedTag

  datatype Block = Block(number: nat, hash: nat, txs: set<Tx>)

  datatype Item = Item(tx: Tx, number: nat, hash: nat, due: int, misses: nat)

  datatype Verdict = Verified | NotYet | Missing

  /** What the node shows during one tick; every height is fetched at most once. */
  datatype View = View(blocks: map<nat, Block>, finalized: Option<Block>)

  /** The block the node shows at a height; the finalized one is at hand without another fetch. */
  function Shown(rule: Rule, v: View, n: nat): Option<Block> {
    if rule.FinalizedTag? && v.finalized.Some? && v.finalized.value.number == n then v.finalized
    else if n in v.blocks then Some(v.blocks[n]) else None
  }

  function Window(rule: Rule): nat { if rule.TxMembership? then rule.window else 0 }

  /** A block within the rule's reach of the recorded height shows that the transaction is still mined. */
  ghost predicate Evidence(rule: Rule, item: Item, v: View, n: nat) {
    && n <= item.number + Window(rule) && item.number <= n + Window(rule)
    && Shown(rule, v, n).Some? && item.tx in Shown(rule, v, n).value.txs
    && (!rule.TxMembership? ==> Shown(rule, v, n).value.hash == item.hash)
  }

  /** The recorded height itself can be looked at, and for a tag rule the tag has reached it. */
  ghost predicate Decidable(rule: Rule, item: Item, v: View) {
    Shown(rule, v, item.number).Some? && (rule.FinalizedTag? ==> v.finalized.Some? && item.number <= v.finalized.value.number)
  }

  /** The block behind the finalized tag decides about its own height, whether or not it can be fetched again. */
  lemma FinalizedBlockDecides(item: Item, v: View)
    requires v.finalized.Some? && v.finalized.value.number == item.number
    ensures Decidable(FinalizedTag, item, v)
    ensures Evidence(FinalizedTag, item, v, item.number) <==> v.finalized.value.hash == item.hash && item.tx in v.finalized.value.txs
  {}

  predicate At(rule: Rule, item: Item, v: View, n: nat) {
    Shown(rule, v, n).Some? && item.tx in Shown(rule, v, n).value.txs
  }

  function Below(n: nat, d: nat): nat { if n >= d then n - d else 0 }

  /** Confirmed iff there is evidence, missing iff there could be and is none; below block 0 there is nothing to see. */
  method Check(rule: Rule, item: Item, v: View) returns (verdict: Verdict)
    ensures verdict.NotYet? <==> !rule.Immediate? && !Decidable(rule, item, v)
    ensures verdict.Verified? <==> rule.Immediate? || (Decidable(rule, item, v) && exists n: nat :: Evidence(rule, item, v, n))
  {
    if rule.Immediate? { return Verified; }
    if rule.FinalizedTag? && (v.finalized.None? || v.finalized.value.number < item.number) { return NotYet; }
    var b := Shown(rule, v, item.number);
    if b.None? { return NotYet; }
    if !rule.TxMembership? {
      verdict := if b.value.hash == item.hash && item.tx in b.value.txs then Verified else Missing;
      assert forall n: nat :: Evidence(rule, item, v, n) ==> n == item.number;
      assert Evidence(rule, item, v, item.number) <==> verdict.Verified?;
      return;
    }
    if item.tx in b.value.txs {
      assert Evidence(rule, item, v, item.number);
      return Verified;
    }
    for d := 1 to rule.window + 1
      invariant forall n: nat :: n < item.number + d && item.number < n + d ==> !At(rule, item, v, n)
    {
      if At(rule, item, v, Below(item.number, d)) {
        assert Evidence(rule, item, v, Below(item.number, d));
        return Verified;
      }
      if At(rule, item, v, item.number + d) {
        assert Evidence(rule, item, v, item.number + d);
        return Verified;
      }
    }
    assert forall n: nat :: Evidence(rule, item, v, n) ==> At(rule, item, v, n);
    verdict := Missing;
  }

  // ---- The life of one item ----

  /** The receipt lookup after a second miss; `Moved` names the block the transaction is in now. */
  datatype Lookup = Moved(number: nat, hash: nat) | FoundUnusable | Gone | Unreachable

  datatype Demotion = Applied | AlreadyOver | StoreFailed

  datatype Look = Look(verdict: Verdict, pairKnown: bool, lookup: Lookup, demotion: Demotion)

  datatype Fate = Keep(item: Item) | Passed | Undone | Unowned

  function Found(l: Look): bool { l.lookup.Moved? || l.lookup.FoundUnusable? }

  function OnMissing(item: Item, l: Look, later: int): Fate {
    if !l.pairKnown then Unowned
    else
      match l.lookup
      case Moved(number, hash) => Keep(item.(number := number, hash := hash, misses := 0, due := later))
      case FoundUnusable => Keep(item.(misses := 0, due := later))
      case Unreachable => Keep(item.(due := later))
      case Gone => if l.demotion.StoreFailed? then Keep(item.(due := later)) else Undone
  }

  function Next(item: Item, l: Look, later: int): Fate {
    match l.verdict
    case Verified => Passed
    case NotYet => Keep(item.(due := later))
    case Missing =>
      var missed := item.(misses := item.misses + 1);
      if missed.misses < 2 then Keep(missed.(due := later)) else OnMissing(missed, l, later)
  }

  /** A second look in a row that misses the transaction, before which no receipt turned up. */
  ghost predicate MissedTwice(item: Item, l: Look) { l.verdict.Missing? && item.misses >= 1 }

  /** Exactly when an item passes, is undone, or is left alone, and what is kept of it otherwise. */
  lemma FateIs(item: Item, l: Look, later: int)
    ensures Next(item, l, later) == Passed <==> l.verdict.Verified?
    ensures Next(item, l, later) == Undone <==> MissedTwice(item, l) && l.pairKnown && l.lookup.Gone? && !l.demotion.StoreFailed?
    ensures Next(item, l, later) == Unowned <==> MissedTwice(item, l) && !l.pairKnown
    ensures Next(item, l, later).Keep? ==>
              var kept := Next(item, l, later).item;
              && kept.tx == item.tx && kept.due == later
              && kept.misses == (if l.verdict.NotYet? then item.misses else if MissedTwice(item, l) && Found(l) then 0 else item.misses + 1)
              && (if MissedTwice(item, l) && l.lookup.Moved? then kept.number == l.lookup.number && kept.hash == l.lookup.hash
                  else kept.number == item.number && kept.hash == item.hash)
  {}

  /** The item's states under a sequence of looks that all kept it. */
  ghost predicate IsWatch(items: seq<Item>, looks: seq<Look>, laters: seq<int>) {
    && |items| == |looks| + 1 == |laters| + 1 && items[0].misses == 0
    && forall i {:trigger looks[i]} :: 0 <= i < |looks| ==> Next(items[i], looks[i], laters[i]) == Keep(items[i + 1])
  }

  /** A miss on record was never followed by a receipt. */
  lemma {:induction false} MissIsUnanswered(items: seq<Item>, looks: seq<Look>, laters: seq<int>, n: nat) returns (m: nat)
    requires IsWatch(items, looks, laters) && n < |items| && items[n].misses > 0
    ensures m < n && looks[m].verdict.Missing?
    ensures forall k :: m < k < n && looks[k].verdict.Missing? ==> !Found(looks[k])
  {
    var l := looks[n - 1];
    assert Next(items[n - 1], l, laters[n - 1]) == Keep(items[n]);
    if items[n - 1].misses == 0 {
      m := n - 1;
    } else {
      m := MissIsUnanswered(items, looks, laters, n - 1);
    }
  }

  /**
   An inclusion is undone only when two looks missed it, no receipt turned up between them, and the
   receipt asked for after the second is gone as well.
   */
  lemma UndoneAfterTwoMisses(items: seq<Item>, looks: seq<Look>, laters: seq<int>, last: Look, later: int) returns (m: nat)
    requires IsWatch(items, looks, laters) && Next(items[|looks|], last, later) == Undone
    ensures last.verdict.Missing? && last.lookup.Gone?
    ensures m < |looks| && looks[m].verdict.Missing?
    ensures forall k :: m < k < |looks| && looks[k].verdict.Missing? ==> !Found(looks[k])
  {
    m := MissIsUnanswered(items, looks, laters, |looks|);
  }

  // ---- One tick over all pending items ----

  datatype Ended = Ended(item: Item, fate: Fate)

  /** The fate of a pending item: the one its look decides, if it is due. */
  function FateOf(item: Item, l: Look, now: int, later: int): Fate {
    if item.due <= now then Next(item, l, later) else Keep(item)
  }

  function LeftOf(pending: seq<Item>, looks: seq<Look>, now: int, later: int): seq<Item>
    requires |looks| == |pending|
  {
    if pending == [] then []
    else
      var n := |pending| - 1;
      var rest, fate := LeftOf(pending[..n], looks[..n], now, later), FateOf(pending[n], looks[n], now, later);
      if fate.Keep? then rest + [fate.item] else rest
  }

  function EndedOf(pending: seq<Item>, looks: seq<Look>, now: int, later: int): seq<Ended>
    requires |looks| == |pending|
  {
    if pending == [] then []
    else
      var n := |pending| - 1;
      var rest, fate := EndedOf(pending[..n], looks[..n], now, later), FateOf(pending[n], looks[n], now, later);
      if fate.Keep? then rest else rest + [Ended(pending[n], fate)]
  }

  /** Every item meets the fate its own look decides; nothing is decided while the chain is down. */
  method Tick(pending: seq<Item>, now: int, down: bool, looks: seq<Look>, later: int) returns (left: seq<Item>, ended: seq<Ended>)
    requires |looks| == |pending|
    ensures !down ==> left == LeftOf(pending, looks, now, later) && ended == EndedOf(pending, looks, now, later)
    ensures down ==> left == pending && ended == []
  {
    hide Next;
    left, ended := pending, [];
    if down { return; }
    left := [];
    for i := 0 to |pending|
      invariant left == LeftOf(pending[..i], looks[..i], now, later) && ended == EndedOf(pending[..i], looks[..i], now, later)
    {
      assert pending[..i + 1][..i] == pending[..i] && looks[..i + 1][..i] == looks[..i];
      var fate := FateOf(pending[i], looks[i], now, later);
      if fate.Keep? { left := left + [fate.item]; } else { ended := ended + [Ended(pending[i], fate)]; }
    }
    assert pending[..|pending|] == pending && looks[..|looks|] == looks;
  }

  /** An item that is not due is left as it is; one that is due meets what its look decides. */
  lemma {:induction false} EachMeetsItsFate(pending: seq<Item>, looks: seq<Look>, now: int, later: int, i: nat)
    requires |looks| == |pending| && i < |pending|
    ensures pending[i].due > now ==> pending[i] in LeftOf(pending, looks, now, later)
    ensures pending[i].due <= now ==>
              var fate := Next(pending[i], looks[i], later);
              if fate.Keep? then fate.item in LeftOf(pending, looks, now, later) else Ended(pending[i], fate) in EndedOf(pending, looks, now, later)
  {
    var n := |pending| - 1;
    if i < n { EachMeetsItsFate(pending[..n], looks[..n], now, later, i); }
  }

  function TxsOf(items: seq<Item>): multiset<Tx> {
    if items == [] then multiset{} else TxsOf(items[..|items| - 1]) + multiset{items[|items| - 1].tx}
  }

  function EndedTxs(es: seq<Ended>): multiset<Tx> {
    if es == [] then multiset{} else EndedTxs(es[..|es| - 1]) + multiset{es[|es| - 1].item.tx}
  }

  lemma TxsAppend(items: seq<Item>, i: Item)
    ensures TxsOf(items + [i]) == TxsOf(items) + multiset{i.tx}
  {
    assert (items + [i])[..|items|] == items;
  }

  lemma EndedAppend(es: seq<Ended>, e: Ended)
    ensures EndedTxs(es + [e]) == EndedTxs(es) + multiset{e.item.tx}
  {
    assert (es + [e])[..|es|] == es;
  }

  lemma KeptIsSame(item: Item, l: Look, now: int, later: int)
    ensures FateOf(item, l, now, later).Keep? ==> FateOf(item, l, now, later).item.tx == item.tx
  {}

  /** Every watched transaction is still watched after a tick or has met one end. */
  lemma {:induction false} NothingIsDropped(pending: seq<Item>, looks: seq<Look>, now: int, later: int)
    requires |looks| == |pending|
    ensures TxsOf(LeftOf(pending, looks, now, later)) + EndedTxs(EndedOf(pending, looks, now, later)) == TxsOf(pending)
  {
    if pending != [] {
      var n := |pending| - 1;
      NothingIsDropped(pending[..n], looks[..n], now, later);
      var fate := FateOf(pending[n], looks[n], now, later);
      KeptIsSame(pending[n], looks[n], now, later);
      hide FateOf;
      if fate.Keep? {
        TxsAppend(LeftOf(pending[..n], looks[..n], now, later), fate.item);
      } else {
        EndedAppend(EndedOf(pending[..n], looks[..n], now, later), Ended(pending[n], fate));
      }
    }
  }
}
