/** Gas conservation: the ledger rows are exactly what the mined attempts add up to, after any store calls. */
module GasLedger {
  import opened Domain
  import opened World
  import Store

  datatype Figure = Count | Gas | Fee

  /** What one attempt contributes to a ledger row: nothing unless it is recorded as mined. */
  ghost function Share(attempts: Attempts, t: Tx, key: GasKey, f: Figure): (n: int)
    requires t in attempts
    ensures n >= 0
  {
    if GasKey(t.slot.pair, t.purpose) == key && attempts[t].status.Mined() then
      match f case Count => 1 case Gas => attempts[t].gasUsed case Fee => attempts[t].feePaid
    else 0
  }

  ghost function Sum(attempts: Attempts, txs: set<Tx>, key: GasKey, f: Figure): (n: int)
    requires txs <= attempts.Keys
    ensures n >= 0
  {
    if txs == {} then 0 else var t :| t in txs; Share(attempts, t, key, f) + Sum(attempts, txs - {t}, key, f)
  }

  lemma {:induction false} SumSplit(attempts: Attempts, txs: set<Tx>, t: Tx, key: GasKey, f: Figure)
    requires txs <= attempts.Keys && t in txs
    ensures Sum(attempts, txs, key, f) == Share(attempts, t, key, f) + Sum(attempts, txs - {t}, key, f)
    decreases |txs|
  {
    var u :| u in txs && Sum(attempts, txs, key, f) == Share(attempts, u, key, f) + Sum(attempts, txs - {u}, key, f);
    if u != t {
      SumSplit(attempts, txs - {u}, t, key, f);
      SumSplit(attempts, txs - {t}, u, key, f);
      assert txs - {u} - {t} == txs - {t} - {u};
    }
  }

  lemma {:induction false} SumSame(attempts: Attempts, attempts': Attempts, txs: set<Tx>, key: GasKey, f: Figure)
    requires txs <= attempts.Keys && txs <= attempts'.Keys
    requires forall t :: t in txs ==> Share(attempts, t, key, f) == Share(attempts', t, key, f)
    ensures Sum(attempts, txs, key, f) == Sum(attempts', txs, key, f)
    decreases |txs|
  {
    if txs != {} {
      var t :| t in txs;
      SumSplit(attempts, txs, t, key, f);
      SumSplit(attempts', txs, t, key, f);
      SumSame(attempts, attempts', txs - {t}, key, f);
    }
  }

  /** Changing the share of one attempt changes the sum by exactly the difference. */
  lemma SumMoves(attempts: Attempts, attempts': Attempts, tx: Tx, key: GasKey, f: Figure)
    requires attempts'.Keys == attempts.Keys && tx in attempts
    requires forall t :: t in attempts && t != tx ==> Share(attempts, t, key, f) == Share(attempts', t, key, f)
    ensures Sum(attempts', attempts'.Keys, key, f) - Share(attempts', tx, key, f) == Sum(attempts, attempts.Keys, key, f) - Share(attempts, tx, key, f)
  {
    SumSplit(attempts, attempts.Keys, tx, key, f);
    SumSplit(attempts', attempts'.Keys, tx, key, f);
    SumSame(attempts, attempts', attempts.Keys - {tx}, key, f);
  }

  /** The row as the API reads it; a missing row counts as zero. */
  function RowOf(gas: map<GasKey, GasRow>, key: GasKey): GasRow {
    if key in gas then gas[key] else GasRow(0, 0, 0)
  }

  ghost function Totals(attempts: Attempts, key: GasKey): GasRow {
    GasRow(Sum(attempts, attempts.Keys, key, Count), Sum(attempts, attempts.Keys, key, Gas), Sum(attempts, attempts.Keys, key, Fee))
  }

  ghost predicate GasOk(db: Db) {
    forall key :: RowOf(db.gas, key) == Totals(db.attempts, key)
  }

  lemma TotalsMove(attempts: Attempts, attempts': Attempts, tx: Tx, key: GasKey)
    requires attempts'.Keys == attempts.Keys && tx in attempts
    requires forall t, f :: t in attempts && t != tx ==> Share(attempts, t, key, f) == Share(attempts', t, key, f)
    ensures var a, b := Totals(attempts, key), Totals(attempts', key);
            && b.count == a.count + Share(attempts', tx, key, Count) - Share(attempts, tx, key, Count)
            && b.gas == a.gas + Share(attempts', tx, key, Gas) - Share(attempts, tx, key, Gas)
            && b.fee == a.fee + Share(attempts', tx, key, Fee) - Share(attempts, tx, key, Fee)
  {
    SumMoves(attempts, attempts', tx, key, Count);
    SumMoves(attempts, attempts', tx, key, Gas);
    SumMoves(attempts, attempts', tx, key, Fee);
  }

  lemma TotalsStay(attempts: Attempts, attempts': Attempts, key: GasKey)
    requires attempts'.Keys == attempts.Keys
    requires forall t, f :: t in attempts ==> Share(attempts, t, key, f) == Share(attempts', t, key, f)
    ensures Totals(attempts', key) == Totals(attempts, key)
  {
    SumSame(attempts, attempts', attempts.Keys, key, Count);
    SumSame(attempts, attempts', attempts.Keys, key, Gas);
    SumSame(attempts, attempts', attempts.Keys, key, Fee);
  }

  lemma NewAttemptAddsNothing(attempts: Attempts, tx: Tx, row: AttemptRow, key: GasKey)
    requires tx !in attempts && !row.status.Mined()
    ensures Totals(attempts[tx := row], key) == Totals(attempts, key)
  {
    var attempts' := attempts[tx := row];
    assert attempts'.Keys - {tx} == attempts.Keys;
    forall f: Figure ensures Sum(attempts', attempts'.Keys, key, f) == Sum(attempts, attempts.Keys, key, f) {
      SumSplit(attempts', attempts'.Keys, tx, key, f);
      SumSame(attempts, attempts', attempts.Keys, key, f);
    }
  }

  // ---- The transactions ----

  lemma InclusionKeepsGas(db: Db, tx: Tx, inc: Inclusion, r: bool)
    requires GasOk(db) && tx in db.attempts && db.attempts[tx].status.Broadcast?
    ensures GasOk(Store.AfterInclusion(db, tx, inc, r))
  {
    var db' := Store.AfterInclusion(db, tx, inc, r);
    forall key ensures RowOf(db'.gas, key) == Totals(db'.attempts, key) {
      assert RowOf(db.gas, key) == Totals(db.attempts, key);
      TotalsMove(db.attempts, db'.attempts, tx, key);
    }
  }

  lemma DemoteKeepsGas(db: Db, tx: Tx)
    requires GasOk(db)
    ensures GasOk(Store.Demote(db, tx).0)
  {
    var db' := Store.Demote(db, tx).0;
    if tx in db.attempts && db.attempts[tx].status.Included? {
      forall key ensures RowOf(db'.gas, key) == Totals(db'.attempts, key) {
        assert RowOf(db.gas, key) == Totals(db.attempts, key);
        TotalsMove(db.attempts, db'.attempts, tx, key);
        assert Totals(db'.attempts, key).gas >= 0 && Totals(db'.attempts, key).fee >= 0 && Totals(db'.attempts, key).count >= 0;
      }
    }
  }

  lemma ConfirmKeepsGas(db: Db, tx: Tx)
    requires GasOk(db)
    ensures GasOk(Store.Confirm(db, tx).0)
  {
    var db' := Store.Confirm(db, tx).0;
    forall key ensures RowOf(db'.gas, key) == Totals(db'.attempts, key) {
      assert RowOf(db.gas, key) == Totals(db.attempts, key);
      TotalsStay(db.attempts, db'.attempts, key);
    }
  }

  lemma VoidKeepsGas(db: Db, e: nat, tx: Tx, mode: Store.VoidMode, d: Store.Disposition)
    requires GasOk(db)
    ensures GasOk(Store.Void(db, e, tx, mode, d).0)
  {
    var db' := Store.Void(db, e, tx, mode, d).0;
    forall key ensures RowOf(db'.gas, key) == Totals(db'.attempts, key) {
      assert RowOf(db.gas, key) == Totals(db.attempts, key);
      TotalsStay(db.attempts, db'.attempts, key);
    }
  }

  lemma BindKeepsGas(db: Db, e: nat, tx: Tx, kind: Store.BindKind)
    requires GasOk(db)
    ensures GasOk(Store.Bind(db, e, tx, kind).0)
  {
    if Store.Bind(db, e, tx, kind).1.Bound? {
      var db' := Store.AfterBind(db, tx, kind);
      forall key ensures RowOf(db'.gas, key) == Totals(db'.attempts, key) {
        assert RowOf(db.gas, key) == Totals(db.attempts, key);
        NewAttemptAddsNothing(db.attempts, tx, db'.attempts[tx], key);
      }
    }
  }

  lemma SettleKeepsGas(db: Db, tx: Tx, inc: Inclusion, confirmNow: bool, r: bool)
    requires GasOk(db)
    ensures GasOk(Store.Settle(db, tx, inc, confirmNow, r).0)
  {
    if Store.Settle(db, tx, inc, confirmNow, r).1.Applied? {
      InclusionKeepsGas(db, tx, inc, r);
      ConfirmKeepsGas(Store.AfterInclusion(db, tx, inc, r), tx);
    }
  }

  lemma StepKeepsGas(db: Db, a: Action)
    requires GasOk(db)
    ensures GasOk(DbAfter(db, a))
  {
    hide Store.PutJob, Store.Bind, Store.Settle, Store.Confirm, Store.Demote, Store.Void;
    match a
    case BindFirst(e, tx, _) => BindKeepsGas(db, e, tx, Store.First);
    case BindMore(e, tx, kind, _) => BindKeepsGas(db, e, tx, kind);
    case SettleInclusion(_, tx, inc, confirmNow) => SettleKeepsGas(db, tx, inc, confirmNow, false);
    case SettleConfirmation(tx) => ConfirmKeepsGas(db, tx);
    case Demote(tx) => DemoteKeepsGas(db, tx);
    case VoidUnused(e, _, tx, _) => VoidKeepsGas(db, e, tx, Store.NonceUnused, Store.Fail);
    case VoidForeign(e, _, tx, _) => VoidKeepsGas(db, e, tx, Store.NonceTakenByForeignTx, Store.Requeue);
    case _ =>
      assert DbAfter(db, a).gas == db.gas && DbAfter(db, a).attempts == db.attempts;
  }

  /** After any store calls, each row is the count and the sums over the attempts recorded as mined. */
  lemma {:induction false} GasIsConserved(dbs: seq<Db>, acts: seq<Action>, i: nat, key: GasKey)
    requires IsTableRun(dbs, acts) && i < |dbs|
    ensures RowOf(dbs[i].gas, key) == Totals(dbs[i].attempts, key)
  {
    GasAlways(dbs, acts, i);
  }

  lemma {:induction false} GasAlways(dbs: seq<Db>, acts: seq<Action>, i: nat)
    requires IsTableRun(dbs, acts) && i < |dbs|
    ensures GasOk(dbs[i])
  {
    if i > 0 {
      GasAlways(dbs, acts, i - 1);
      StepKeepsGas(dbs[i - 1], acts[i - 1]);
    }
  }
}
