/** Bringing one pair back in line with the chain: the ordered walk over live nonces, then the next nonce. */
module Recovery {
  import opened Domain

  /** An attempt as loaded from the store; `raw` tells whether its bytes are still there. */
  datatype Loaded = Loaded(tx: Tx, included: bool, raw: bool)

  datatype Lookup = Mined | NotMined | Unreachable

  datatype Resumed = Settled | Voided | NotBound | Aborted | Unresolved | Gap

  /** What the outside answers while one nonce is handled. */
  datatype Answers = Answers(stopping: bool, receipt: Lookup, demoted: bool, resumed: Resumed)

  datatype How = StillIncluded | NothingStored | Driven(resumed: Resumed)

  /** One nonce handled: the attempts that were driven, and how it ended. */
  datatype Visit = Visit(nonce: nat, driven: seq<Loaded>, how: How)

  datatype End = Reconciled(next: nat) | TryAgain | Stopped | Operator

  function GroupAt(live: seq<Loaded>, nonce: nat): seq<Loaded> {
    if live == [] then []
    else
      var rest, last := GroupAt(live[..|live| - 1], nonce), live[|live| - 1];
      if last.tx.slot.nonce == nonce then rest + [last] else rest
  }

  function WithBytes(group: seq<Loaded>): seq<Loaded> {
    if group == [] then []
    else
      var rest, last := WithBytes(group[..|group| - 1]), group[|group| - 1];
      if last.raw then rest + [last] else rest
  }

  ghost predicate HasNonce(live: seq<Loaded>, n: nat) { exists i :: 0 <= i < |live| && live[i].tx.slot.nonce == n }

  ghost predicate Visited(walk: seq<Visit>, n: nat) { exists i :: 0 <= i < |walk| && walk[i].nonce == n }

  predicate SomeIncluded(group: seq<Loaded>) { exists i :: 0 <= i < |group| && group[i].included }

  /** Loading keeps the order of the store, oldest attempt first. */
  lemma {:induction false} GroupsSplit(a: seq<Loaded>, b: seq<Loaded>, nonce: nat)
    ensures GroupAt(a + b, nonce) == GroupAt(a, nonce) + GroupAt(b, nonce)
    ensures |b| == 1 ==> GroupAt(b, nonce) == if b[0].tx.slot.nonce == nonce then b else []
  {
    if b == [] {
      assert a + b == a;
    } else {
      GroupsSplit(a, b[..|b| - 1], nonce);
      assert (a + b)[..|a + b| - 1] == a + b[..|b| - 1];
    }
  }

  lemma {:induction false} BytesSplit(a: seq<Loaded>, b: seq<Loaded>)
    ensures WithBytes(a + b) == WithBytes(a) + WithBytes(b)
    ensures |b| == 1 ==> WithBytes(b) == if b[0].raw then b else []
  {
    if b == [] {
      assert a + b == a;
    } else {
      BytesSplit(a, b[..|b| - 1]);
      assert (a + b)[..|a + b| - 1] == a + b[..|b| - 1];
    }
  }

  /** A recorded inclusion that the chain still shows. */
  ghost predicate Vouched(group: seq<Loaded>, a: Answers) { !a.stopping && SomeIncluded(group) && a.receipt.Mined? }

  /** A recorded inclusion about which nothing can be done now: not checked, or gone and not undone. */
  ghost predicate Unsure(group: seq<Loaded>, a: Answers) {
    !a.stopping && SomeIncluded(group) && (a.receipt.Unreachable? || (a.receipt.NotMined? && !a.demoted))
  }

  ghost predicate Open(group: seq<Loaded>, a: Answers) { !a.stopping && !Vouched(group, a) && !Unsure(group, a) }

  ghost predicate Drivable(group: seq<Loaded>, a: Answers) { Open(group, a) && WithBytes(group) != [] }

  /** The nonce is left behind in this way: its fate is known or watched, nothing unresolved is stepped over. */
  ghost predicate Passes(group: seq<Loaded>, a: Answers, how: How) {
    match how
    case StillIncluded => Vouched(group, a)
    case NothingStored => Open(group, a) && WithBytes(group) == []
    case Driven(r) => Drivable(group, a) && a.resumed == r && (r.Settled? || r.Voided? || r.NotBound?)
  }

  /** Recovery ends at this nonce. */
  ghost predicate Halts(group: seq<Loaded>, a: Answers, end: End) {
    match end
    case TryAgain => Unsure(group, a)
    case Stopped => a.stopping || (Drivable(group, a) && a.resumed.Aborted?)
    case Operator => Drivable(group, a) && (a.resumed.Unresolved? || a.resumed.Gap?)
    case Reconciled(_) => false
  }

  ghost predicate VisitOk(live: seq<Loaded>, answers: map<nat, Answers>, v: Visit) {
    && HasNonce(live, v.nonce) && v.nonce in answers
    && var group, a := GroupAt(live, v.nonce), answers[v.nonce];
       Passes(group, a, v.how) && v.driven == if Drivable(group, a) then WithBytes(group) else []
  }

  /** Lowest nonce first, none skipped. */
  ghost predicate OrderlyWalk(live: seq<Loaded>, answers: map<nat, Answers>, walk: seq<Visit>) {
    && (forall i :: 0 <= i < |walk| ==> VisitOk(live, answers, walk[i]))
    && (forall i, j :: 0 <= i < j < |walk| ==> walk[i].nonce < walk[j].nonce)
    && (forall n: nat, j :: HasNonce(live, n) && 0 <= j < |walk| && n < walk[j].nonce ==> Visited(walk[..j], n))
  }

  method Group(live: seq<Loaded>) returns (groups: map<nat, seq<Loaded>>)
    ensures forall n: nat :: n in groups <==> HasNonce(live, n)
    ensures forall n :: n in groups ==> groups[n] == GroupAt(live, n)
  {
    groups := map[];
    for i := 0 to |live|
      invariant forall n: nat :: n in groups <==> HasNonce(live[..i], n)
      invariant forall n: nat :: GroupAt(live[..i], n) == if n in groups then groups[n] else []
    {
      var a := live[i];
      assert live[..i + 1][..i] == live[..i];
      forall n: nat ensures HasNonce(live[..i + 1], n) <==> HasNonce(live[..i], n) || n == a.tx.slot.nonce {
        if n == a.tx.slot.nonce { assert live[..i + 1][i].tx.slot.nonce == n; }
        if HasNonce(live[..i], n) {
          var k :| 0 <= k < i && live[k].tx.slot.nonce == n;
          assert live[..i + 1][k].tx.slot.nonce == n;
        }
      }
      var at := a.tx.slot.nonce;
      groups := groups[at := if at in groups then groups[at] + [a] else [a]];
    }
    assert live[..|live|] == live;
  }

  method Least(ns: set<nat>) returns (m: nat)
    requires ns != {}
    ensures m in ns && forall n :: n in ns ==> m <= n
  {
    var rest := ns;
    m :| m in rest;
    rest := rest - {m};
    while rest != {}
      invariant rest < ns && m in ns && m !in rest
      invariant forall n :: n in ns && n !in rest ==> m <= n
      decreases rest
    {
      var n :| n in rest;
      if n < m { m := n; }
      rest := rest - {n};
    }
  }

  /** Handles one nonce; None when recovery must stop here. */
  method Handle(nonce: nat, group: seq<Loaded>, a: Answers) returns (how: Option<How>, driven: seq<Loaded>, end: End)
    ensures forall h :: how == Some(h) <==> Passes(group, a, h)
    ensures forall e :: how.None? && end == e <==> Halts(group, a, e)
    ensures driven == if Drivable(group, a) then WithBytes(group) else []
  {
    how, driven, end := None, [], Stopped;
    if a.stopping { return; }
    if SomeIncluded(group) {
      match a.receipt
      case Mined => return Some(StillIncluded), [], Stopped;
      case Unreachable => return None, [], TryAgain;
      case NotMined => if !a.demoted { return None, [], TryAgain; }
    }
    driven := Stored(group);
    if driven == [] { return Some(NothingStored), driven, Stopped; }
    match a.resumed
    case Aborted => end := Stopped;
    case Unresolved => end := Operator;
    case Gap => end := Operator;
    case _ => how := Some(Driven(a.resumed));
  }

  method Stored(group: seq<Loaded>) returns (kept: seq<Loaded>)
    ensures kept == WithBytes(group)
  {
    kept := [];
    for i := 0 to |group|
      invariant kept == WithBytes(group[..i])
    {
      assert group[..i + 1][..i] == group[..i];
      if group[i].raw { kept := kept + [group[i]]; }
    }
    assert group[..|group|] == group;
  }

  /**
   `mark` is the stored high-water mark (None when the store did not answer), `chainNonce` the chain's
   answer if it is asked. The pair is reconciled only after every live nonce was handled in order.
   */
  method Recover(live: seq<Loaded>, answers: map<nat, Answers>, mark: Option<Option<nat>>, booting: bool, chainNonce: Option<nat>, balanceRead: bool)
      returns (walk: seq<Visit>, end: End, nextSet: Option<nat>, ghost haltedAt: Option<nat>)
    requires forall i :: 0 <= i < |live| ==> live[i].tx.slot.nonce in answers
    ensures OrderlyWalk(live, answers, walk)
    ensures haltedAt.Some? ==> Pending(live, walk, haltedAt.value) && nextSet.None?
    ensures haltedAt.Some? ==> haltedAt.value in answers && Halts(GroupAt(live, haltedAt.value), answers[haltedAt.value], end)
    ensures haltedAt.None? ==> forall n: nat :: HasNonce(live, n) ==> Visited(walk, n)
    ensures haltedAt.None? ==> nextSet == if mark.Some? then NextNonce(live, mark.value, booting, chainNonce) else None
    ensures haltedAt.None? ==> end == if nextSet.Some? && balanceRead then Reconciled(nextSet.value) else TryAgain
  {
    hide Passes, Halts, Drivable;
    walk, end, nextSet, haltedAt := [], Stopped, None, None;
    var groups := Group(live);
    var left := groups.Keys;
    while left != {}
      invariant left <= groups.Keys && OrderlyWalk(live, answers, walk)
      invariant forall n :: n in groups.Keys ==> (n in left <==> !Visited(walk, n))
      invariant forall n, i :: n in left && 0 <= i < |walk| ==> walk[i].nonce < n
      decreases left
    {
      var nonce := Least(left);
      assert HasNonce(live, nonce);
      var how, driven, stop := Handle(nonce, groups[nonce], answers[nonce]);
      if how.None? {
        end, haltedAt := stop, Some(nonce);
        return;
      }
      WalkOn(live, answers, walk, Visit(nonce, driven, how.value), left);
      walk := walk + [Visit(nonce, driven, how.value)];
      left := left - {nonce};
    }
    if mark.None? { end := TryAgain; return; }
    nextSet := NextNonce(live, mark.value, booting, chainNonce);
    end := if nextSet.None? || !balanceRead then TryAgain else Reconciled(nextSet.value);
  }

  /** The lowest nonce that was not left behind. */
  ghost predicate Pending(live: seq<Loaded>, walk: seq<Visit>, n: nat) {
    HasNonce(live, n) && !Visited(walk, n) && forall m: nat :: m < n && HasNonce(live, m) ==> Visited(walk, m)
  }

  /** Extending the walk by the least nonce left. */
  lemma WalkOn(live: seq<Loaded>, answers: map<nat, Answers>, walk: seq<Visit>, v: Visit, left: set<nat>)
    requires OrderlyWalk(live, answers, walk) && VisitOk(live, answers, v) && v.nonce in left && forall n :: n in left ==> v.nonce <= n
    requires forall n: nat :: HasNonce(live, n) ==> (n in left <==> !Visited(walk, n))
    requires forall n, i :: n in left && 0 <= i < |walk| ==> walk[i].nonce < n
    ensures OrderlyWalk(live, answers, walk + [v])
    ensures forall n: nat :: Visited(walk + [v], n) <==> Visited(walk, n) || n == v.nonce
  {
    hide VisitOk;
    var longer := walk + [v];
    forall n: nat ensures Visited(longer, n) <==> Visited(walk, n) || n == v.nonce {
      if n == v.nonce { assert longer[|walk|].nonce == n; }
      if i :| 0 <= i < |walk| && walk[i].nonce == n { assert longer[i].nonce == n; }
    }
    forall n: nat, j | HasNonce(live, n) && 0 <= j < |longer| && n < longer[j].nonce ensures Visited(longer[..j], n) {
      if j < |walk| { assert longer[..j] == walk[..j]; } else { assert longer[..j] == walk; }
    }
  }

  /** The chain is one floor, the highest nonce ever bound the other; None when the chain did not answer. */
  function NextNonce(live: seq<Loaded>, mark: Option<nat>, booting: bool, chainNonce: Option<nat>): (next: Option<nat>)
    ensures next.Some? && mark.Some? ==> next.value > mark.value
    ensures next.Some? && chainNonce.Some? && (mark.None? || live != [] || !booting) ==> next.value >= chainNonce.value
    ensures next.Some? ==> (mark.Some? && next.value == mark.value + 1) || ((mark.None? || live != [] || !booting) && next == chainNonce)
    ensures next.None? <==> chainNonce.None? && (mark.None? || live != [] || !booting)
  {
    var asked := mark.None? || live != [] || !booting;
    if asked && chainNonce.None? then None
    else Some(Max(if asked then chainNonce.value else 0, if mark.Some? then mark.value + 1 else 0))
  }
}
