/** Inclusion, confirmation and demotion keep the invariant; none of them is fenced, so zombies may run them too. */
module StepsMined {
  import opened Domain
  import opened World
  import opened Invariant
  import Store

  // ---- What these three transactions leave alone ----

  ghost predicate SameBindings(jobs: Jobs, jobs': Jobs) {
    jobs'.Keys == jobs.Keys &&
    forall j :: j in jobs ==>
      && jobs'[j].binding == jobs[j].binding && (jobs'[j].status.Queued? <==> jobs[j].status.Queued?)
      && (jobs[j].status.Failed? ==> jobs'[j].status.Failed?)
  }

  ghost predicate SameRequests(topups: Topups, topups': Topups) {
    topups'.Keys == topups.Keys && forall t :: t in topups ==> (topups'[t].Requested? <==> topups[t].Requested?)
  }

  /** Only attempt statuses and the progress of owners may differ. */
  ghost predicate Quiet(db: Db, db': Db) {
    && db'.attempts.Keys == db.attempts.Keys && db'.slots == db.slots && db'.pairs == db.pairs && db'.epoch == db.epoch
    && SameBindings(db.jobs, db'.jobs) && SameRequests(db.topups, db'.topups)
  }

  lemma QuietKeepsSlots(w: World, db: Db)
    requires SlotsOk(w) && Quiet(w.db, db)
    ensures SlotsOk(w.(db := db))
  {}

  lemma QuietKeepsLeader(w: World, db: Db)
    requires LeaderOk(w.db, w.procs) && Quiet(w.db, db)
    ensures LeaderOk(db, w.procs)
  {
    if w.db.epoch in w.procs {
      var p := w.procs[w.db.epoch];
      forall k | k in p.flights ensures LeaderFlightOk(db, p, k) { assert LeaderFlightOk(w.db, p, k); }
      forall k, t | k in p.walk && t in p.walk[k] ensures BoundHere(db.jobs, t) { assert BoundHere(w.db.jobs, t); }
      forall k | k in p.cursor ensures CursorOk(db, p, k) { assert CursorOk(w.db, p, k); }
    }
  }

  lemma QuietKeepsRest(w: World, db: Db)
    requires TopupsOk(w.db.topups, w.db.attempts) && ProcsOk(w.procs, w.db.epoch, w.db.attempts.Keys) && ChainOk(w) && Quiet(w.db, db)
    ensures TopupsOk(db.topups, db.attempts) && ProcsOk(w.procs, db.epoch, db.attempts.Keys) && ChainOk(w.(db := db))
  {}

  lemma QuietKeeps(w: World, db: Db)
    requires Inv(w) && Quiet(w.db, db)
    requires AttemptsOk(w.(db := db)) && IncludedOnce(db.attempts) && JobsOk(db.jobs, db.attempts)
    ensures Inv(w.(db := db))
  {
    QuietKeepsSlots(w, db);
    QuietKeepsLeader(w, db);
    QuietKeepsRest(w, db);
  }

  // ---- Confirmation ----

  lemma ConfirmKeepsAttempt(w: World, tx: Tx, t: Tx)
    requires AttemptsOk(w) && IncludedOnce(w.db.attempts) && ChainOk(w) && FinalOurs(w, tx)
    requires tx in w.db.attempts && w.db.attempts[tx].status.Included? && t in w.db.attempts
    ensures AttemptOk(w.(db := Store.Confirm(w.db, tx).0), t)
  {
    hide Store.PutOwner;
    assert AttemptOk(w, t) && AttemptOk(w, tx);
    assert !Impossible(w, tx);
  }

  lemma ConfirmKeepsJob(w: World, tx: Tx, j: nat)
    requires AttemptsOk(w) && j in w.db.jobs && JobOk(w.db.jobs[j], w.db.attempts, j) && ChainOk(w) && FinalOurs(w, tx)
    requires tx in w.db.attempts && w.db.attempts[tx].status.Included?
    ensures var db := Store.Confirm(w.db, tx).0; j in db.jobs && JobOk(db.jobs[j], db.attempts, j)
  {
    hide Store.PutOwner;
    var db := Store.Confirm(w.db, tx).0;
    var row, row' := w.db.jobs[j], db.jobs[j];
    assert AttemptOk(w, tx) && !Impossible(w, tx);
    if row'.status.Included? {
      var u :| u in w.db.attempts && PayloadOf(u, j) && w.db.attempts[u].status.Included?;
      assert db.attempts[u].status.Included?;
    } else if row'.status.Confirmed? && row.status.Confirmed? {
      var u :| u in w.db.attempts && PayloadOf(u, j) && w.db.attempts[u].status.Confirmed?;
      assert db.attempts[u].status.Confirmed?;
    } else if row'.status.Confirmed? {
      assert PayloadOf(tx, j) && db.attempts[tx].status.Confirmed?;
    }
  }

  lemma ConfirmIsQuiet(w: World, tx: Tx)
    requires IncludedOnce(w.db.attempts)
    ensures var db := Store.Confirm(w.db, tx).0; Quiet(w.db, db) && IncludedOnce(db.attempts)
  {
    hide Store.PutOwner;
  }

  lemma ConfirmKeepsRows(w: World, tx: Tx)
    requires AttemptsOk(w) && IncludedOnce(w.db.attempts) && JobsOk(w.db.jobs, w.db.attempts) && ChainOk(w) && FinalOurs(w, tx)
    requires tx in w.db.attempts && w.db.attempts[tx].status.Included?
    ensures var db := Store.Confirm(w.db, tx).0; AttemptsOk(w.(db := db)) && JobsOk(db.jobs, db.attempts)
  {
    var db := Store.Confirm(w.db, tx).0;
    forall t | t in db.attempts ensures AttemptOk(w.(db := db), t) { ConfirmKeepsAttempt(w, tx, t); }
    forall j | j in db.jobs ensures JobOk(db.jobs[j], db.attempts, j) { ConfirmKeepsJob(w, tx, j); }
  }

  lemma ConfirmKeeps(w: World, tx: Tx)
    requires Inv(w) && FinalOurs(w, tx)
    ensures Inv(w.(db := Store.Confirm(w.db, tx).0))
  {
    if tx in w.db.attempts && w.db.attempts[tx].status.Included? {
      ConfirmKeepsRows(w, tx);
      ConfirmIsQuiet(w, tx);
      QuietKeeps(w, Store.Confirm(w.db, tx).0);
    }
  }

  // ---- Inclusion ----

  ghost predicate CanInclude(w: World, tx: Tx) {
    && tx in w.mined && tx in w.db.attempts && w.db.attempts[tx].status.Broadcast?
    && !Store.SlotMinedByOther(w.db.attempts, tx) && Store.InclusionFits(w.db.jobs, tx)
  }

  lemma InclusionKeepsAttempt(w: World, tx: Tx, inc: Inclusion, r: bool, t: Tx)
    requires AttemptsOk(w) && ChainOk(w) && CanInclude(w, tx) && t in w.db.attempts
    ensures AttemptOk(w.(db := Store.AfterInclusion(w.db, tx, inc, r)), t)
  {
    hide Store.PutOwner;
    assert AttemptOk(w, t) && AttemptOk(w, tx);
  }

  lemma InclusionKeepsJobs(w: World, tx: Tx, inc: Inclusion, r: bool)
    requires AttemptsOk(w) && JobsOk(w.db.jobs, w.db.attempts) && CanInclude(w, tx)
    ensures var db := Store.AfterInclusion(w.db, tx, inc, r); JobsOk(db.jobs, db.attempts)
  {
    hide Store.PutOwner;
    var db := Store.AfterInclusion(w.db, tx, inc, r);
    assert AttemptOk(w, tx);
    forall j | j in db.jobs ensures JobOk(db.jobs[j], db.attempts, j) {
      var row := w.db.jobs[j];
      assert JobOk(row, w.db.attempts, j);
      if db.jobs[j].status.Included? {
        if row.status.Included? {
          var u :| u in w.db.attempts && PayloadOf(u, j) && w.db.attempts[u].status.Included?;
          assert db.attempts[u].status.Included?;
        } else {
          assert tx in db.attempts && PayloadOf(tx, j) && db.attempts[tx].status.Included?;
        }
      }
      if db.jobs[j].status.Confirmed? {
        var u :| u in w.db.attempts && PayloadOf(u, j) && w.db.attempts[u].status.Confirmed?;
        assert db.attempts[u].status.Confirmed?;
      }
    }
  }

  lemma InclusionKeepsOnce(w: World, tx: Tx, inc: Inclusion, r: bool)
    requires AttemptsOk(w) && IncludedOnce(w.db.attempts) && CanInclude(w, tx)
    ensures IncludedOnce(Store.AfterInclusion(w.db, tx, inc, r).attempts)
  {}

  lemma InclusionIsQuiet(w: World, tx: Tx, inc: Inclusion, r: bool)
    requires Store.InclusionFits(w.db.jobs, tx)
    ensures Quiet(w.db, Store.AfterInclusion(w.db, tx, inc, r))
  {}

  lemma InclusionKeepsRows(w: World, tx: Tx, inc: Inclusion, r: bool)
    requires AttemptsOk(w) && ChainOk(w) && CanInclude(w, tx)
    ensures AttemptsOk(w.(db := Store.AfterInclusion(w.db, tx, inc, r)))
  {
    var db := Store.AfterInclusion(w.db, tx, inc, r);
    forall t | t in db.attempts ensures AttemptOk(w.(db := db), t) { InclusionKeepsAttempt(w, tx, inc, r, t); }
  }

  lemma InclusionOnlyKeeps(w: World, tx: Tx, inc: Inclusion, r: bool)
    requires Inv(w) && CanInclude(w, tx)
    ensures Inv(w.(db := Store.AfterInclusion(w.db, tx, inc, r)))
  {
    InclusionKeepsRows(w, tx, inc, r);
    InclusionKeepsJobs(w, tx, inc, r);
    InclusionKeepsOnce(w, tx, inc, r);
    InclusionIsQuiet(w, tx, inc, r);
    QuietKeeps(w, Store.AfterInclusion(w.db, tx, inc, r));
  }

  lemma InclusionKeeps(w: World, tx: Tx, inc: Inclusion, confirmNow: bool)
    requires Inv(w) && tx in w.mined && (confirmNow ==> FinalOurs(w, tx))
    ensures Inv(w.(db := Store.Settle(w.db, tx, inc, confirmNow, false).0))
  {
    if CanInclude(w, tx) {
      InclusionOnlyKeeps(w, tx, inc, false);
      if confirmNow { ConfirmKeeps(w.(db := Store.AfterInclusion(w.db, tx, inc, false)), tx); }
    }
  }

  // ---- Demotion ----

  lemma DemoteKeepsAttempt(w: World, tx: Tx, t: Tx)
    requires AttemptsOk(w) && IncludedOnce(w.db.attempts)
    requires tx in w.db.attempts && w.db.attempts[tx].status.Included? && t in w.db.attempts
    ensures AttemptOk(w.(db := Store.Demote(w.db, tx).0), t)
  {
    hide Store.PutOwner;
    assert AttemptOk(w, t) && AttemptOk(w, tx);
  }

  lemma DemoteKeepsJobs(w: World, tx: Tx)
    requires AttemptsOk(w) && IncludedOnce(w.db.attempts) && JobsOk(w.db.jobs, w.db.attempts)
    requires tx in w.db.attempts && w.db.attempts[tx].status.Included?
    ensures var db := Store.Demote(w.db, tx).0; JobsOk(db.jobs, db.attempts)
  {
    hide Store.PutOwner;
    var db := Store.Demote(w.db, tx).0;
    assert AttemptOk(w, tx);
    forall j | j in db.jobs ensures JobOk(db.jobs[j], db.attempts, j) {
      var row := w.db.jobs[j];
      assert JobOk(row, w.db.attempts, j);
      if db.jobs[j].status.Included? {
        var u :| u in w.db.attempts && PayloadOf(u, j) && w.db.attempts[u].status.Included?;
        assert db.attempts[u].status.Included?;
      }
      if db.jobs[j].status.Confirmed? {
        var u :| u in w.db.attempts && PayloadOf(u, j) && w.db.attempts[u].status.Confirmed?;
        assert db.attempts[u].status.Confirmed?;
      }
    }
  }

  lemma DemoteIsQuiet(w: World, tx: Tx)
    requires IncludedOnce(w.db.attempts)
    ensures var db := Store.Demote(w.db, tx).0; Quiet(w.db, db) && IncludedOnce(db.attempts)
  {
    hide Store.PutOwner;
  }

  lemma DemoteKeepsRows(w: World, tx: Tx)
    requires AttemptsOk(w) && IncludedOnce(w.db.attempts) && tx in w.db.attempts && w.db.attempts[tx].status.Included?
    ensures AttemptsOk(w.(db := Store.Demote(w.db, tx).0))
  {
    var db := Store.Demote(w.db, tx).0;
    forall t | t in db.attempts ensures AttemptOk(w.(db := db), t) { DemoteKeepsAttempt(w, tx, t); }
  }

  lemma DemoteKeeps(w: World, tx: Tx)
    requires Inv(w)
    ensures Inv(w.(db := Store.Demote(w.db, tx).0))
  {
    if tx in w.db.attempts && w.db.attempts[tx].status.Included? {
      DemoteKeepsRows(w, tx);
      DemoteKeepsJobs(w, tx);
      DemoteIsQuiet(w, tx);
      QuietKeeps(w, Store.Demote(w.db, tx).0);
    }
  }
}
