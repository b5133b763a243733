/** A driver that may void knows every cancel that could hold its nonce. */
module StepsCancel {
  import opened Domain
  import opened World
  import opened Invariant
  import opened Hands
  import Store

  /** What the owner signed at this nonce in an earlier life is out of play when the owner is bound again. */
  lemma EarlierLifeIsOver(w: World, a: Action, t: Tx)
    requires Inv(w) && Enabled(w, a) && a.BindFirst? && Store.Bind(w.db, a.e, a.tx, Store.First).1.Bound?
    requires t in w.db.attempts && t.slot == a.tx.slot && t.owner == a.tx.owner
    ensures Impossible(w, t) || t in w.missed
    ensures !t.Payload() ==> Impossible(w, t) || w.db.attempts[t].status.Dropped?
  {
    assert AttemptOk(w, t);
  }

  lemma UnknownStaysOut(w: World, a: Action, k: Pair, t: Tx)
    requires Inv(w) && CancelsOk(w) && Enabled(w, a) && HasFlight(Apply(w, a), Apply(w, a).db.epoch, k) && UnknownCancel(Apply(w, a), k, t)
    ensures Apply(w, a).db.attempts[t].status.Dropped? || Impossible(Apply(w, a), t)
  {
    hide Apply, Enabled, AttemptsOk, JobsOk, SlotsOk, LeaderOk, ChainOk, TopupsOk, IncludedOnce, ProcsOk, Impossible, Unheld, Store.Bind;
    var w' := Apply(w, a);
    FlightsContinue(w, a, k);
    if t !in w.db.attempts {
      NewAttempts(w, a, t);
      BinderLeads(w, a, t);
    } else {
      TablesFollow(w, a);
      StepRetires(w.db, a);
      if !Continues(w, w', k) { EarlierLifeIsOver(w, a, t); }
      if Impossible(w, t) { ImpossibleForever(w, a, t); }
    }
  }

  lemma BinderLeads(w: World, a: Action, t: Tx)
    requires Enabled(w, a) && IsBind(a) && a.tx == t && Store.Bind(w.db, a.e, t, if a.BindFirst? then Store.First else a.kind).1.Bound?
    ensures a.e == w.db.epoch == Apply(w, a).db.epoch
  {
    EpochMoves(w, a);
  }

  lemma CancelsStep(w: World, a: Action)
    requires Inv(w) && CancelsOk(w) && Enabled(w, a)
    ensures CancelsOk(Apply(w, a))
  {
    hide Apply, Enabled, Inv, Impossible;
    var w' := Apply(w, a);
    if w'.db.epoch in w'.procs {
      forall k, t | k in w'.procs[w'.db.epoch].flights && UnknownCancel(w', k, t)
        ensures w'.db.attempts[t].status.Dropped? || Impossible(w', t)
      {
        UnknownStaysOut(w, a, k, t);
      }
    }
  }
}
