/**
 The driver's bind: up to six tries at one transaction over a connection that may fail before, during or
 after COMMIT, while every other process keeps using the store.
 */
module Binding {
  import opened Domain
  import opened World
  import Store

  /** One round: what others commit first, whether the call reaches the store, and which answers arrive. */
  datatype Try = Try(meanwhile: seq<Action>, reaches: bool, answered: bool, existsAnswered: bool)

  datatype Verdict = Ok | Refused(why: Store.BindResult) | Unknown

  function Later(db: Db, acts: seq<Action>): Db
    decreases |acts|
  {
    if acts == [] then db else Later(DbAfter(db, acts[0]), acts[1..])
  }

  lemma AttemptRowsStay(db: Db, a: Action)
    ensures db.attempts.Keys <= DbAfter(db, a).attempts.Keys
  {
    hide Store.PutOwner, Store.PutJob;
    match a
    case SettleInclusion(_, tx, inc, confirmNow) => SettleKeepsRows(db, tx, inc, confirmNow);
    case _ => hide Store.Settle;
  }

  lemma SettleKeepsRows(db: Db, tx: Tx, inc: Inclusion, confirmNow: bool)
    ensures db.attempts.Keys <= Store.Settle(db, tx, inc, confirmNow, false).0.attempts.Keys
  {}

  lemma {:induction false} AttemptStays(db: Db, acts: seq<Action>, tx: Tx)
    requires tx in db.attempts
    ensures tx in Later(db, acts).attempts
    decreases |acts|
  {
    if acts != [] {
      AttemptRowsStay(db, acts[0]);
      AttemptStays(DbAfter(db, acts[0]), acts[1..], tx);
    }
  }

  /** A stored hash is never stored again. */
  lemma BindOnce(db: Db, epoch: nat, tx: Tx, kind: Store.BindKind)
    ensures var (after, r) := Store.Bind(db, epoch, tx, kind);
            (r.Bound? ==> tx !in db.attempts && tx in after.attempts) && (!r.Bound? ==> after == db)
  {}

  /** The tables when the call of one round is over. */
  function Called(db: Db, epoch: nat, tx: Tx, kind: Store.BindKind, t: Try): Db {
    var now := Later(db, t.meanwhile);
    if t.reaches then Store.Bind(now, epoch, tx, kind).0 else now
  }

  /** The answer that ends the round, if one arrives: the store's own, or that the attempt is there. */
  function Answer(db: Db, epoch: nat, tx: Tx, kind: Store.BindKind, t: Try): Verdict {
    var now := Later(db, t.meanwhile);
    if t.reaches && t.answered then
      var r := Store.Bind(now, epoch, tx, kind).1;
      if r.Bound? then Ok else Refused(r)
    else if t.existsAnswered && tx in Called(db, epoch, tx, kind, t).attempts then Ok
    else Unknown
  }

  /** The first round with an answer decides; without one, all are used up. */
  function Decided(db: Db, epoch: nat, tx: Tx, kind: Store.BindKind, tries: seq<Try>): (Db, Verdict)
    decreases |tries|
  {
    if tries == [] then (db, Unknown)
    else
      var v := Answer(db, epoch, tx, kind, tries[0]);
      if v.Unknown? then Decided(Called(db, epoch, tx, kind, tries[0]), epoch, tx, kind, tries[1..])
      else (Called(db, epoch, tx, kind, tries[0]), v)
  }

  /**
   Ok means the attempt is stored, so it may be broadcast; it was stored at most once, however often the
   call was repeated. Without an Ok the attempt can still be there, but then some answer got lost, and a
   refusal that was never preceded by a lost answer means it is not.
   */
  method Bind(before: Db, epoch: nat, tx: Tx, kind: Store.BindKind, tries: seq<Try>)
      returns (db: Db, verdict: Verdict, commits: nat, lost: bool)
    requires |tries| == 6
    ensures (db, verdict) == Decided(before, epoch, tx, kind, tries)
    ensures commits <= 1
    ensures verdict.Ok? ==> tx in db.attempts
    ensures verdict.Refused? ==> !verdict.why.Bound?
    ensures !verdict.Ok? && commits == 1 ==> lost
    ensures lost ==> exists i :: 0 <= i < |tries| && tries[i].reaches && !tries[i].answered
  {
    hide Store.Bind, DbAfter;
    db, verdict, commits, lost := before, Unknown, 0, false;
    for round := 0 to |tries|
      invariant commits <= 1 && verdict.Unknown?
      invariant Decided(before, epoch, tx, kind, tries) == Decided(db, epoch, tx, kind, tries[round..])
      invariant commits == 1 ==> tx in db.attempts && lost
      invariant lost ==> exists i :: 0 <= i < round && tries[i].reaches && !tries[i].answered
    {
      var t := tries[round];
      assert tries[round..][1..] == tries[round + 1..];
      if tx in db.attempts { AttemptStays(db, t.meanwhile, tx); }
      db := Later(db, t.meanwhile);
      if t.reaches {
        BindOnce(db, epoch, tx, kind);
        var (after, r) := Store.Bind(db, epoch, tx, kind);
        db := after;
        if r.Bound? { commits := commits + 1; }
        if t.answered {
          verdict := if r.Bound? then Ok else Refused(r);
          return;
        }
        lost := true;
      }
      if t.existsAnswered && tx in db.attempts {
        verdict := Ok;
        return;
      }
    }
  }
}
