/** The findings as whole runs, from empty tables to the state that shows them. */
module Counterexamples {
  import opened Domain
  import opened World
  import opened Invariant
  import Safety
  import Store

  const P := Pair(1, 7)
  const Q := Pair(1, 8)
  const S := Slot(P, 0)
  const First := Tx(S, ForJob, Job(1), 21000, FeeQuote(100, 1), 0, 0)
  const Second := Tx(S, ForJob, Job(1), 21000, FeeQuote(200, 2), 0, 1)
  const Third := Tx(Slot(Q, 0), ForJob, Job(1), 21000, FeeQuote(100, 1), 0, 2)

  const Pending := AttemptRow(AttemptStatus.Broadcast, true, 0, 0)
  const GivenUp := AttemptRow(AttemptStatus.Dropped, false, 0, 0)

  /** One more step of a run. */
  lemma Then(ws: seq<World>, acts: seq<Action>, a: Action, w: World) returns (ws': seq<World>, acts': seq<Action>)
    requires IsRun(ws, acts) && Enabled(ws[|acts|], a) && w == Apply(ws[|acts|], a)
    ensures IsRun(ws', acts') && ws'[|acts'|] == w
  {
    hide Enabled, Apply;
    ws', acts' := ws + [w], acts + [a];
  }

  // ---- A stateless reject gives up too much ----

  /** One process, one job on one pair; everything the run below changes is a parameter. */
  ghost function Scene(job: JobRow, attempts: Attempts, slots: map<Slot, Owner>, mark: Option<nat>, p: Proc, sent: set<Tx>, dead: set<Tx>): World {
    World(Db(1, map[1 := job], map[], attempts, slots, map[P := mark], map[], map[], [], 0), map[1 := p], map[], {}, {}, sent, dead, {}, {})
  }

  const Fresh := JobRow(1, JobStatus.Queued, None, None, None, 0, 0)
  const Bound1 := JobRow(1, JobStatus.Sent, None, Some(S), Some(First), 0, 0)
  const Bound2 := JobRow(1, JobStatus.Sent, None, Some(S), Some(Second), 0, 0)

  ghost const Idle := Scene(Fresh, map[], map[], None, Proc(map[], map[], map[P := 0], {}), {}, {})
  ghost const OneUp := Scene(Bound1, map[First := Pending], map[S := Job(1)], Some(0),
                             Proc(map[P := Flight(Job(1), 0, {First}, true, false)], map[], map[P := 1], {First}), {}, {})
  ghost const TwoUp := Scene(Bound2, map[First := Pending, Second := Pending], map[S := Job(1)], Some(0),
                             Proc(map[P := Flight(Job(1), 0, {First, Second}, true, false)], map[], map[P := 1], {First, Second}), {First}, {})
  /** Two attempts sent, the second rejected, the first silently in a pool. */
  ghost const Rejected := TwoUp.(sent := {First, Second}, dead := {Second})

  lemma StartUp() returns (w1: World, w2: World)
    ensures Enabled(Empty, Acquire) && w1 == Apply(Empty, Acquire)
    ensures Enabled(w1, AddJob(1, 1)) && w2 == Apply(w1, AddJob(1, 1))
    ensures Enabled(w2, RecoverDone(1, P, 0)) && Apply(w2, RecoverDone(1, P, 0)) == Idle
  {
    w1 := Apply(Empty, Acquire);
    w2 := Apply(w1, AddJob(1, 1));
    var p := w2.procs[1];
    assert p.walk - {P} == map[];
    assert Apply(w2, RecoverDone(1, P, 0)).db == Idle.db;
    assert Apply(w2, RecoverDone(1, P, 0)).procs == Idle.procs;
  }

  lemma FirstGoesUp()
    ensures Enabled(Idle, BindFirst(1, First, true)) && Apply(Idle, BindFirst(1, First, true)) == OneUp
  {
    assert CanBindFirst(Idle, 1, First);
    var w := Apply(Idle, BindFirst(1, First, true));
    assert w.procs[1] == OneUp.procs[1];
    assert w.procs == OneUp.procs;
    assert w.db == OneUp.db;
  }

  lemma SecondGoesUp()
    ensures var w := OneUp.(sent := {First});
            && Enabled(OneUp, Send(1, P, First)) && Apply(OneUp, Send(1, P, First)) == w
            && Enabled(w, BindMore(1, Second, Store.Replacement, true)) && Apply(w, BindMore(1, Second, Store.Replacement, true)) == TwoUp
  {
    var w := OneUp.(sent := {First});
    assert First in w.procs[1].flights[P].attempts;
    assert CanBindMore(w, 1, Second, Store.Replacement);
    var w' := Apply(w, BindMore(1, Second, Store.Replacement, true));
    assert Store.Bind(w.db, 1, Second, Store.Replacement).1.Bound?;
    assert {First} + {Second} == {First, Second};
    assert w'.procs[1].flights == TwoUp.procs[1].flights;
    assert w'.procs[1] == TwoUp.procs[1];
    assert w'.procs == TwoUp.procs;
    assert w'.db == TwoUp.db;
  }

  lemma SecondIsRejected()
    ensures var w := TwoUp.(sent := {First, Second});
            && Enabled(TwoUp, Send(1, P, Second)) && Apply(TwoUp, Send(1, P, Second)) == w
            && Enabled(w, Reject(Second)) && Apply(w, Reject(Second)) == Rejected
  {}

  /** A run of the protocol reaches the rejection. */
  lemma RejectIsReachable() returns (ws: seq<World>, acts: seq<Action>)
    ensures IsRun(ws, acts) && ws[|acts|] == Rejected
  {
    hide Enabled, Apply, Scene;
    var w1, w2 := StartUp();
    FirstGoesUp();
    SecondGoesUp();
    SecondIsRejected();
    ws, acts := [Empty], [];
    ws, acts := Then(ws, acts, Acquire, w1);
    ws, acts := Then(ws, acts, AddJob(1, 1), w2);
    ws, acts := Then(ws, acts, RecoverDone(1, P, 0), Idle);
    ws, acts := Then(ws, acts, BindFirst(1, First, true), OneUp);
    ws, acts := Then(ws, acts, Send(1, P, First), OneUp.(sent := {First}));
    ws, acts := Then(ws, acts, BindMore(1, Second, Store.Replacement, true), TwoUp);
    ws, acts := Then(ws, acts, Send(1, P, Second), TwoUp.(sent := {First, Second}));
    ws, acts := Then(ws, acts, Reject(Second), Rejected);
  }

  lemma GaveUpTooMuch()
    ensures Enabled(Rejected, VoidUnused(1, P, Second, true))
    ensures var w := Apply(Rejected, VoidUnused(1, P, Second, true));
            && 1 in w.db.jobs && w.db.jobs[1].status.Failed? && Enabled(w, Mine(First))
            && Safety.OnChain(Apply(w, Mine(First)), First) && Apply(w, Mine(First)).db == w.db
  {
    FreedTables();
    hide Store.Void;
    assert Second in Rejected.procs[1].flights[P].attempts;
  }

  /** A whole run, from empty tables, that ends with a failed job whose payload is on the chain. */
  lemma FailedJobExecutes() returns (ws: seq<World>, acts: seq<Action>)
    ensures IsRun(ws, acts) && PayloadOf(First, 1)
    ensures var w := ws[|acts|]; 1 in w.db.jobs && w.db.jobs[1].status.Failed? && Safety.OnChain(w, First)
  {
    hide Enabled, Apply, Scene;
    ws, acts := RejectIsReachable();
    GaveUpTooMuch();
    var w := Apply(Rejected, VoidUnused(1, P, Second, true));
    ws, acts := Then(ws, acts, VoidUnused(1, P, Second, true), w);
    ws, acts := Then(ws, acts, Mine(First), Apply(w, Mine(First)));
  }

  const Other := Tx(S, ForJob, Job(2), 21000, FeeQuote(100, 1), 0, 3)

  const Grounded := Proc(map[], map[], map[P := 0], {First, Second})

  /** Both attempts are given up, the nonce is free again, and the leader's cursor is back on it. */
  ghost predicate Freed(w: World) {
    && w == Rejected.(db := w.db, procs := w.procs, escaped := w.escaped) && w.db.epoch == 1 && S !in w.db.slots && 2 !in w.db.jobs
    && w.db.attempts == map[First := GivenUp, Second := GivenUp] && w.procs == map[1 := Grounded]
  }

  lemma FreedTables()
    ensures var (db, done) := Store.Void(Rejected.db, 1, Second, Store.NonceUnused, Store.Fail);
            done && db.epoch == 1 && S !in db.slots && 2 !in db.jobs && db.attempts == map[First := GivenUp, Second := GivenUp]
            && 1 in db.jobs && db.jobs[1].status.Failed?
  {
    var db := Store.Void(Rejected.db, 1, Second, Store.NonceUnused, Store.Fail).0;
    assert db.attempts == Store.DroppedAttempts(Rejected.db.attempts, S);
    assert db.jobs == Store.JobsAfter(Rejected.db.jobs, Second, Store.ToVoided(Store.Fail));
  }

  lemma NonceIsFree()
    ensures Enabled(Rejected, VoidUnused(1, P, Second, true)) && Freed(Apply(Rejected, VoidUnused(1, P, Second, true)))
  {
    FreedTables();
    hide Store.Void;
    assert Second in Rejected.procs[1].flights[P].attempts;
    var w := Apply(Rejected, VoidUnused(1, P, Second, true));
    assert w.procs[1].flights == map[] && w.procs[1].walk == map[] && w.procs[1].cursor == map[P := 0];
    assert w.procs[1] == Grounded;
  }

  lemma NonceIsReused(w: World) returns (w1: World)
    requires Freed(w)
    ensures Enabled(w, AddJob(2, 1)) && w1 == Apply(w, AddJob(2, 1))
    ensures Enabled(w1, BindFirst(1, Other, true)) && Store.Bind(w1.db, 1, Other, Store.First).1.Bound? && w1.db.attempts == w.db.attempts
    ensures w1 == w.(db := w1.db)
  {
    w1 := Apply(w, AddJob(2, 1));
    assert CanBindFirst(w1, 1, Other);
    hide Store.AfterBind;
  }

  lemma BothCanBeMined(w: World, w1: World)
    requires Freed(w) && w1 == w.(db := w1.db) && w1.db.attempts == w.db.attempts
    requires Enabled(w1, BindFirst(1, Other, true)) && Store.Bind(w1.db, 1, Other, Store.First).1.Bound?
    ensures var w2 := Apply(w1, BindFirst(1, Other, true));
            First in w2.db.attempts && Other in w2.db.attempts && !Impossible(w2, First) && !Impossible(w2, Other)
  {
    hide Store.PutOwner;
    var w2 := Apply(w1, BindFirst(1, Other, true));
    assert w2.db.attempts == w.db.attempts[Other := Pending];
    assert w2.sent == {First, Second} && w2.dead == {Second} && w2.final == {};
  }

  /** After such a void two jobs' payloads compete for one nonce, and either can be mined. */
  lemma NonceServesTwoJobs() returns (ws: seq<World>, acts: seq<Action>)
    ensures IsRun(ws, acts) && First.slot == Other.slot && First.owner != Other.owner
    ensures var w := ws[|acts|]; First in w.db.attempts && Other in w.db.attempts && !Impossible(w, First) && !Impossible(w, Other)
  {
    hide Enabled, Apply, Scene, Impossible, Freed;
    NonceIsFree();
    var w := Apply(Rejected, VoidUnused(1, P, Second, true));
    var w1 := NonceIsReused(w);
    BothCanBeMined(w, w1);
    ws, acts := RejectIsReachable();
    ws, acts := Then(ws, acts, VoidUnused(1, P, Second, true), w);
    ws, acts := Then(ws, acts, AddJob(2, 1), w1);
    ws, acts := Then(ws, acts, BindFirst(1, Other, true), Apply(w1, BindFirst(1, Other, true)));
  }

  // ---- A foreign void overlooks what a zombie sent ----

  /** Epoch 2 leads, epoch 1 is a zombie; job 1 is all the work there is. */
  ghost function Pair2(job: JobRow, attempts: Attempts, slots: map<Slot, Owner>, mark: Option<nat>, zombie: Proc, leader: Proc, sent: set<Tx>): World {
    World(Db(2, map[1 := job], map[], attempts, slots, map[P := mark, Q := None], map[], map[], [], 0), map[1 := zombie, 2 := leader],
          map[], {}, {}, sent, {}, {}, {})
  }

  const NewProc := Proc(map[], map[], map[], {})
  const Flying := Proc(map[P := Flight(Job(1), 0, {First}, true, false)], map[], map[P := 1, Q := 0], {First})
  const Loaded := Proc(map[], map[P := {First, Second}], map[], {First, Second})
  const Driving := Proc(map[P := Flight(Job(1), 0, {First, Second}, false, false)], map[P := {First, Second}], map[], {First, Second})

  ghost const Ready := Pair2(Fresh, map[], map[], None, NewProc, Proc(map[], map[], map[P := 0, Q := 0], {}), {})
  ghost const Sent1 := Pair2(Bound1, map[First := Pending], map[S := Job(1)], Some(0), NewProc, Flying, {First})
  /** The replacement is committed, but its driver was not told. */
  ghost const Unknown := Pair2(Bound2, map[First := Pending, Second := Pending], map[S := Job(1)], Some(0), NewProc, Flying, {First})
  /** The zombie has loaded and sent it, and it was mined. */
  ghost const Taken := Pair2(Bound2, map[First := Pending, Second := Pending], map[S := Job(1)], Some(0), Driving, Flying, {First, Second})
                         .(chain := map[S := Ours(Second)], final := {S}, mined := {Second})
  const Requeued := JobRow(1, JobStatus.Queued, None, None, None, 0, 1)
  ghost const Missed := Pair2(Requeued, map[First := GivenUp, Second := GivenUp], map[S := Job(1)], Some(0), Driving,
                              Proc(map[], map[], map[P := 1, Q := 0], {First}), {First, Second})
                          .(chain := map[S := Ours(Second)], final := {S}, mined := {Second}, missed := {Second})

  ghost const Empty2 := World(Db(2, map[], map[], map[], map[], map[], map[], map[], [], 0), map[1 := NewProc, 2 := NewProc], map[], {}, {}, {}, {}, {}, {})

  lemma TwoLeaders() returns (w: World)
    ensures Enabled(Empty, Acquire) && w == Apply(Empty, Acquire)
    ensures Enabled(w, Acquire) && Apply(w, Acquire) == Empty2
  {
    w := Apply(Empty, Acquire);
    assert Apply(w, Acquire).procs == Empty2.procs;
  }

  lemma JobArrives() returns (w1: World, w2: World)
    ensures Enabled(Empty2, AddJob(1, 1)) && w1 == Apply(Empty2, AddJob(1, 1))
    ensures Enabled(w1, RecoverDone(2, P, 0)) && w2 == Apply(w1, RecoverDone(2, P, 0))
    ensures Enabled(w2, RecoverDone(2, Q, 0)) && Apply(w2, RecoverDone(2, Q, 0)) == Ready
  {
    w1 := Apply(Empty2, AddJob(1, 1));
    w2 := Apply(w1, RecoverDone(2, P, 0));
    assert NewProc.walk - {P} == map[] && NewProc.walk - {Q} == map[];
    assert w2.procs[2] == Proc(map[], map[], map[P := 0], {});
    var w3 := Apply(w2, RecoverDone(2, Q, 0));
    assert w3.procs[2] == Proc(map[], map[], map[P := 0, Q := 0], {});
    assert w3.procs == Ready.procs;
    assert w3.db.pairs == Ready.db.pairs;
  }

  lemma LeaderIsUp() returns (ws: seq<World>, acts: seq<Action>)
    ensures IsRun(ws, acts) && ws[|acts|] == Sent1
  {
    hide Enabled, Apply, Pair2;
    var w := TwoLeaders();
    var w1, w2 := JobArrives();
    var w3 := LeaderSends();
    ws, acts := [Empty], [];
    ws, acts := Then(ws, acts, Acquire, w);
    ws, acts := Then(ws, acts, Acquire, Empty2);
    ws, acts := Then(ws, acts, AddJob(1, 1), w1);
    ws, acts := Then(ws, acts, RecoverDone(2, P, 0), w2);
    ws, acts := Then(ws, acts, RecoverDone(2, Q, 0), Ready);
    ws, acts := Then(ws, acts, BindFirst(2, First, true), w3);
    ws, acts := Then(ws, acts, Send(2, P, First), Sent1);
  }

  lemma LeaderSends() returns (w: World)
    ensures Enabled(Ready, BindFirst(2, First, true)) && w == Apply(Ready, BindFirst(2, First, true))
    ensures Enabled(w, Send(2, P, First)) && Apply(w, Send(2, P, First)) == Sent1
  {
    assert CanBindFirst(Ready, 2, First);
    w := Apply(Ready, BindFirst(2, First, true));
    assert Store.Bind(Ready.db, 2, First, Store.First).1.Bound?;
    assert w.procs[2].walk == map[] by { assert Ready.procs[2].walk - {P} == map[]; }
    assert w.procs[2].cursor == map[P := 1, Q := 0];
    assert w.procs[2] == Flying;
    assert w.procs == Sent1.procs;
    assert w.db == Sent1.db;
  }

  lemma CommitGoesUnnoticed()
    ensures Enabled(Sent1, BindMore(2, Second, Store.Replacement, false)) && Apply(Sent1, BindMore(2, Second, Store.Replacement, false)) == Unknown
  {
    assert First in Sent1.procs[2].flights[P].attempts;
    assert CanBindMore(Sent1, 2, Second, Store.Replacement);
    assert Store.Bind(Sent1.db, 2, Second, Store.Replacement).1.Bound?;
    assert Apply(Sent1, BindMore(2, Second, Store.Replacement, false)).db == Unknown.db;
  }

  ghost const Resumed := Pair2(Bound2, map[First := Pending, Second := Pending], map[S := Job(1)], Some(0), Driving, Flying, {First})

  lemma ZombieResumes() returns (w: World)
    ensures Enabled(Unknown, LoadLive(1, P)) && w == Apply(Unknown, LoadLive(1, P))
    ensures Enabled(w, Resume(1, P, 0, {First, Second})) && Apply(w, Resume(1, P, 0, {First, Second})) == Resumed
  {
    w := Apply(Unknown, LoadLive(1, P));
    assert LiveOf(Unknown.db, P) == {First, Second};
    assert {} + {First, Second} == {First, Second} && {First, Second} + {} == {First, Second};
    assert w.procs[1] == Loaded;
    var w' := Apply(w, Resume(1, P, 0, {First, Second}));
    assert w'.procs[1] == Driving;
    assert w'.procs == Resumed.procs;
  }

  lemma ZombieSends() returns (w1: World, w2: World)
    ensures Enabled(Resumed, Send(1, P, Second)) && w1 == Apply(Resumed, Send(1, P, Second))
    ensures Enabled(w1, Mine(Second)) && w2 == Apply(w1, Mine(Second))
    ensures Enabled(w2, Finalize(S)) && Apply(w2, Finalize(S)) == Taken
  {
    assert Second in Resumed.procs[1].flights[P].attempts;
    w1 := Apply(Resumed, Send(1, P, Second));
    assert {First} + {Second} == {First, Second};
    w2 := Apply(w1, Mine(Second));
    assert {} + {Second} == {Second} && {} + {S} == {S};
  }

  lemma RequeuedTables()
    ensures Store.Void(Taken.db, 2, First, Store.NonceTakenByForeignTx, Store.Requeue) == (Missed.db, true)
  {
    var db := Store.Void(Taken.db, 2, First, Store.NonceTakenByForeignTx, Store.Requeue).0;
    assert db.jobs == map[1 := Requeued];
    assert db.attempts == Missed.db.attempts;
  }

  lemma LeaderGivesUp()
    ensures Enabled(Taken, VoidForeign(2, P, First, true)) && Apply(Taken, VoidForeign(2, P, First, true)) == Missed
  {
    RequeuedTables();
    hide Store.Void;
    assert First in Taken.procs[2].flights[P].attempts;
    assert Overlooked(Taken, First) == {Second} && {} + {Second} == {Second};
    var w := Apply(Taken, VoidForeign(2, P, First, true));
    assert Flying.flights - {P} == map[];
    assert w.procs[2] == Missed.procs[2];
    assert w.procs == Missed.procs;
  }

  /** Job 1 is queued again while its replacement holds the nonce for good. */
  lemma MissIsReachable() returns (ws: seq<World>, acts: seq<Action>)
    ensures IsRun(ws, acts) && ws[|acts|] == Missed
  {
    hide Enabled, Apply, Pair2;
    CommitGoesUnnoticed();
    var w1 := ZombieResumes();
    var w3, w4 := ZombieSends();
    LeaderGivesUp();
    ws, acts := LeaderIsUp();
    ws, acts := Then(ws, acts, BindMore(2, Second, Store.Replacement, false), Unknown);
    ws, acts := Then(ws, acts, LoadLive(1, P), w1);
    ws, acts := Then(ws, acts, Resume(1, P, 0, {First, Second}), Resumed);
    ws, acts := Then(ws, acts, Send(1, P, Second), w3);
    ws, acts := Then(ws, acts, Mine(Second), w4);
    ws, acts := Then(ws, acts, Finalize(S), Taken);
    ws, acts := Then(ws, acts, VoidForeign(2, P, First, true), Missed);
  }

  lemma Rebinds()
    ensures Enabled(Missed, BindFirst(2, Third, true))
    ensures var w := Apply(Missed, BindFirst(2, Third, true));
            && w == Missed.(db := w.db, procs := w.procs) && HasFlight(w, 2, Q) && w.procs[2].flights[Q].attempts == {Third}
  {
    assert CanBindFirst(Missed, 2, Third);
    assert Store.SlotFits(Missed.db, Third, Store.First) && Third !in Missed.db.attempts && Store.OwnerMoves(Missed.db, Third, Store.First);
    hide Store.AfterBind;
    assert Store.Bind(Missed.db, 2, Third, Store.First).1.Bound?;
  }

  lemma RunsAgain(w: World) returns (w1: World)
    requires w == Missed.(db := w.db, procs := w.procs) && HasFlight(w, 2, Q) && w.procs[2].flights[Q].attempts == {Third}
    ensures Enabled(w, Send(2, Q, Third)) && w1 == Apply(w, Send(2, Q, Third))
    ensures Enabled(w1, Mine(Third)) && Safety.OnChain(Apply(w1, Mine(Third)), Second) && Safety.OnChain(Apply(w1, Mine(Third)), Third)
  {
    w1 := Apply(w, Send(2, Q, Third));
  }

  /** So a job can execute twice. */
  lemma JobExecutesTwice() returns (ws: seq<World>, acts: seq<Action>)
    ensures IsRun(ws, acts) && PayloadOf(Second, 1) && PayloadOf(Third, 1) && Second != Third
    ensures Safety.OnChain(ws[|acts|], Second) && Safety.OnChain(ws[|acts|], Third)
  {
    hide Enabled, Apply, Pair2;
    ws, acts := MissIsReachable();
    Rebinds();
    var w1 := Apply(Missed, BindFirst(2, Third, true));
    var w2 := RunsAgain(w1);
    ws, acts := Then(ws, acts, BindFirst(2, Third, true), w1);
    ws, acts := Then(ws, acts, Send(2, Q, Third), w2);
    ws, acts := Then(ws, acts, Mine(Third), Apply(w2, Mine(Third)));
  }

  /** Or be failed as a queued job after it has executed. */
  lemma ExecutedJobFails() returns (ws: seq<World>, acts: seq<Action>)
    ensures IsRun(ws, acts) && PayloadOf(Second, 1)
    ensures var w := ws[|acts|]; 1 in w.db.jobs && w.db.jobs[1].status.Failed? && Safety.OnChain(w, Second) && Second !in w.escaped
  {
    ws, acts := MissIsReachable();
    ws, acts := Then(ws, acts, FailQueued(1), Apply(Missed, FailQueued(1)));
  }

  // ---- A zombie's record tears a nonce from its slot ----

  const Both := Proc(map[P := Flight(Job(1), 0, {First, Second}, true, false)], map[], map[P := 1, Q := 0], {First, Second})

  ghost const Torn0 := Pair2(Bound2, map[First := Pending, Second := Pending], map[S := Job(1)], Some(0), Loaded,
                             Both, {First, Second})
                         .(dead := {Second}, chain := map[S := Ours(First)], mined := {First})

  ghost const Watched := Pair2(Bound2, map[First := Pending, Second := Pending], map[S := Job(1)], Some(0), Loaded, Both, {First})

  ghost const Replaced := Pair2(Bound2, map[First := Pending, Second := Pending], map[S := Job(1)], Some(0), NewProc, Both, {First})

  lemma LeaderReplaces()
    ensures Enabled(Sent1, BindMore(2, Second, Store.Replacement, true)) && Apply(Sent1, BindMore(2, Second, Store.Replacement, true)) == Replaced
  {
    assert First in Sent1.procs[2].flights[P].attempts;
    assert CanBindMore(Sent1, 2, Second, Store.Replacement);
    assert Store.Bind(Sent1.db, 2, Second, Store.Replacement).1.Bound?;
    var w := Apply(Sent1, BindMore(2, Second, Store.Replacement, true));
    assert {First} + {Second} == {First, Second};
    assert w.db == Replaced.db;
    assert w.procs[2].flights == Both.flights;
    assert w.procs[2] == Both;
    assert w.procs == Replaced.procs;
  }

  lemma ZombieLoads()
    ensures Enabled(Replaced, LoadLive(1, P)) && Apply(Replaced, LoadLive(1, P)) == Watched
  {
    assert LiveOf(Replaced.db, P) == {First, Second};
    assert {} + {First, Second} == {First, Second};
    assert Apply(Replaced, LoadLive(1, P)).procs[1] == Loaded;
    assert Apply(Replaced, LoadLive(1, P)).procs == Watched.procs;
  }

  lemma FirstIsMined() returns (w1: World, w2: World)
    ensures Enabled(Watched, Send(2, P, Second)) && w1 == Apply(Watched, Send(2, P, Second))
    ensures Enabled(w1, Reject(Second)) && w2 == Apply(w1, Reject(Second))
    ensures Enabled(w2, Mine(First)) && Apply(w2, Mine(First)) == Torn0
  {
    assert Second in Watched.procs[2].flights[P].attempts;
    w1 := Apply(Watched, Send(2, P, Second));
    w2 := Apply(w1, Reject(Second));
  }

  /** Job 1 is recorded as mined through its first attempt, and lost its second to it. */
  ghost predicate JobOneIs(db: Db, job: JobStatus, first: AttemptStatus) {
    && 1 in db.jobs && db.jobs[1].status == job && db.jobs[1].binding == Some(S)
    && First in db.attempts && db.attempts[First].status == first && Second in db.attempts && db.attempts[Second].status.Replaced?
  }

  ghost predicate Recorded(w: World) {
    && w == Torn0.(db := w.db) && w.db.epoch == 2 && w.db.slots == map[S := Job(1)] && w.db.jobs.Keys == {1}
    && w.db.attempts.Keys == {First, Second} && JobOneIs(w.db, JobStatus.Included, AttemptStatus.Included)
  }

  lemma RecordedTables(inc: Inclusion)
    ensures var db := Store.Settle(Torn0.db, First, inc, false, false).0;
            && db.epoch == 2 && db.slots == map[S := Job(1)] && db.jobs.Keys == {1} && db.attempts.Keys == {First, Second}
            && JobOneIs(db, JobStatus.Included, AttemptStatus.Included)
  {
    hide Store.PutOwner;
    assert !Store.SlotMinedByOther(Torn0.db.attempts, First);
    assert Store.Settle(Torn0.db, First, inc, false, false).1.Applied?;
    var db := Store.Settle(Torn0.db, First, inc, false, false).0;
    assert db.attempts == Store.IncludedAttempts(Torn0.db.attempts, First, inc);
    assert db.jobs == Store.JobsAfter(Torn0.db.jobs, First, Store.ToIncluded(inc));
  }

  lemma FirstIsRecorded(inc: Inclusion)
    ensures Enabled(Torn0, SettleInclusion(1, First, inc, false)) && Recorded(Apply(Torn0, SettleInclusion(1, First, inc, false)))
  {
    RecordedTables(inc);
    hide Store.Settle, JobOneIs;
  }

  const Home := Proc(map[], map[], map[P := 0, Q := 0], {First, Second})

  /** The slot is gone, the included attempt is on the chain, and the leader's cursor names its nonce again. */
  ghost predicate Torn(w: World) {
    && w.db.epoch == 2 && w.db.slots == map[] && w.db.jobs.Keys == {1} && w.procs.Keys == {1, 2} && w.procs[2] == Home
    && w.db.attempts.Keys == {First, Second} && JobOneIs(w.db, JobStatus.Included, AttemptStatus.Included)
    && w.chain == map[S := Ours(First)] && w.final == {} && w.dead == {Second}
  }

  lemma TornTables(w: World)
    requires Recorded(w)
    ensures var (db, done) := Store.Void(w.db, 2, Second, Store.NonceUnused, Store.Fail);
            && done && db.epoch == 2 && db.slots == map[] && db.jobs.Keys == {1} && db.attempts.Keys == {First, Second}
            && JobOneIs(db, JobStatus.Included, AttemptStatus.Included)
  {
    hide Store.PutOwner;
    var db := Store.Void(w.db, 2, Second, Store.NonceUnused, Store.Fail).0;
    assert db.attempts == Store.DroppedAttempts(w.db.attempts, S);
    assert db.jobs == Store.JobsAfter(w.db.jobs, Second, Store.ToVoided(Store.Fail));
  }

  lemma TornProcs(w: World)
    requires Recorded(w) && Store.Void(w.db, 2, Second, Store.NonceUnused, Store.Fail).1
    ensures Enabled(w, VoidUnused(2, P, Second, true))
    ensures var procs := Apply(w, VoidUnused(2, P, Second, true)).procs; procs.Keys == {1, 2} && procs[2] == Home
  {
    hide Store.Void, JobOneIs, StillAlive;
    assert Second in w.procs[2].flights[P].attempts;
    assert Both.flights - {P} == map[] && Both.walk - {P} == map[];
    assert Apply(w, VoidUnused(2, P, Second, true)).procs[2].cursor == map[P := 0, Q := 0];
  }

  lemma SlotIsTorn(w: World)
    requires Recorded(w)
    ensures Enabled(w, VoidUnused(2, P, Second, true)) && Torn(Apply(w, VoidUnused(2, P, Second, true)))
  {
    TornTables(w);
    TornProcs(w);
    hide Enabled, Store.Void, JobOneIs, StillAlive;
  }

  lemma TornIsReachable(inc: Inclusion) returns (ws: seq<World>, acts: seq<Action>)
    ensures IsRun(ws, acts) && Torn(ws[|acts|])
  {
    hide Enabled, Apply, Pair2, Recorded, Torn;
    LeaderReplaces();
    ZombieLoads();
    var w2, w3 := FirstIsMined();
    FirstIsRecorded(inc);
    var w4 := Apply(Torn0, SettleInclusion(1, First, inc, false));
    SlotIsTorn(w4);
    ws, acts := LeaderIsUp();
    ws, acts := Then(ws, acts, BindMore(2, Second, Store.Replacement, true), Replaced);
    ws, acts := Then(ws, acts, LoadLive(1, P), Watched);
    ws, acts := Then(ws, acts, Send(2, P, Second), w2);
    ws, acts := Then(ws, acts, Reject(Second), w3);
    ws, acts := Then(ws, acts, Mine(First), Torn0);
    ws, acts := Then(ws, acts, SettleInclusion(1, First, inc, false), w4);
    ws, acts := Then(ws, acts, VoidUnused(2, P, Second, true), Apply(w4, VoidUnused(2, P, Second, true)));
  }

  /** The slot is gone and the cursor is back on a nonce that an included attempt holds on chain. */
  lemma NonceIsTorn(inc: Inclusion) returns (ws: seq<World>, acts: seq<Action>)
    ensures IsRun(ws, acts)
    ensures var w := ws[|acts|];
            && First in w.db.attempts && w.db.attempts[First].status.Included? && S !in w.db.slots && Safety.OnChain(w, First)
            && 2 in w.procs && P in w.procs[2].cursor && w.procs[2].cursor[P] == S.nonce
  {
    ws, acts := TornIsReachable(inc);
  }

  // ---- And then a job is lost ----

  /** Another job flies at the torn nonce, next to the attempt that was recorded there. */
  ghost predicate Shared(w: World, job: JobStatus, first: AttemptStatus) {
    && w.db.epoch == 2 && JobOneIs(w.db, job, first) && w.db.attempts.Keys == {First, Second, Other} && w.db.attempts[Other].status.Broadcast?
    && w.db.jobs.Keys == {1, 2} && w.db.jobs[2].status.Sent? && w.final == {} && w.dead == {Second}
    && HasFlight(w, 2, P) && w.procs[2].flights[P].attempts == {Other} && Other in w.procs[2].held
  }

  lemma OtherMovesIn(w: World) returns (w1: World)
    requires Torn(w)
    ensures Enabled(w, AddJob(2, 1)) && w1 == Apply(w, AddJob(2, 1))
    ensures Enabled(w1, BindFirst(2, Other, true)) && Shared(Apply(w1, BindFirst(2, Other, true)), JobStatus.Included, AttemptStatus.Included)
  {
    w1 := Apply(w, AddJob(2, 1));
    assert CanBindFirst(w1, 2, Other);
    assert Store.Bind(w1.db, 2, Other, Store.First).1.Bound?;
    hide Store.PutOwner;
    var db := Store.Bind(w1.db, 2, Other, Store.First).0;
    assert db.attempts == w1.db.attempts[Other := Pending];
    assert db.jobs == Store.JobsAfter(w1.db.jobs, Other, Store.ToBound(Store.First));
  }

  lemma FirstIsReorged(w: World) returns (w1: World, w2: World)
    requires Shared(w, JobStatus.Included, AttemptStatus.Included)
    ensures Enabled(w, Send(2, P, Other)) && w1 == Apply(w, Send(2, P, Other))
    ensures Enabled(w1, Reorg({S})) && w2 == Apply(w1, Reorg({S}))
    ensures Shared(w2, JobStatus.Included, AttemptStatus.Included) && Other in w2.sent && S !in w2.chain
  {
    w1 := Apply(w, Send(2, P, Other));
    w2 := Apply(w1, Reorg({S}));
  }

  lemma FirstIsDemoted(w: World)
    requires Shared(w, JobStatus.Included, AttemptStatus.Included)
    ensures Enabled(w, Demote(First)) && Shared(Apply(w, Demote(First)), JobStatus.Sent, AttemptStatus.Broadcast)
    ensures Apply(w, Demote(First)) == w.(db := Store.Demote(w.db, First).0)
  {
    hide Store.PutOwner;
    var db := Store.Demote(w.db, First).0;
    assert db.jobs == Store.JobsAfter(w.db.jobs, First, Store.ToDemoted);
  }

  lemma OtherIsMined(w: World) returns (w1: World)
    requires Shared(w, JobStatus.Sent, AttemptStatus.Broadcast) && Other in w.sent && S !in w.chain
    ensures Enabled(w, Mine(Other)) && w1 == Apply(w, Mine(Other))
    ensures Enabled(w1, EndFlight(2, P))
    ensures var w2 := Apply(w1, EndFlight(2, P)); w2.db == w.db && Other in w2.mined && MayReport(w2, 2, Other)
  {
    w1 := Apply(w, Mine(Other));
  }

  lemma OtherIsRecorded(db: Db, inc: Inclusion)
    requires JobOneIs(db, JobStatus.Sent, AttemptStatus.Broadcast) && db.attempts.Keys == {First, Second, Other} && db.attempts[Other].status.Broadcast?
    requires db.jobs.Keys == {1, 2} && db.jobs[2].status.Sent?
    ensures var db' := Store.Settle(db, Other, inc, false, false).0;
            JobOneIs(db', JobStatus.Sent, AttemptStatus.Replaced) && db'.attempts.Keys == {First, Second, Other}
  {
    hide Store.PutOwner;
    assert !Store.SlotMinedByOther(db.attempts, Other);
    var db' := Store.Settle(db, Other, inc, false, false).0;
    assert db'.attempts == Store.IncludedAttempts(db.attempts, Other, inc);
    assert db'.jobs == Store.JobsAfter(db.jobs, Other, Store.ToIncluded(inc));
  }

  lemma NothingToRecover(db: Db)
    requires JobOneIs(db, JobStatus.Sent, AttemptStatus.Replaced) && db.attempts.Keys == {First, Second, Other}
    ensures !Safety.Recoverable(db, 1)
  {}

  /** Recording the other job's transaction retires the first job's last attempt: it is sent, and nothing will ever find it. */
  lemma JobIsLost(inc: Inclusion) returns (ws: seq<World>, acts: seq<Action>)
    ensures IsRun(ws, acts)
    ensures var w := ws[|acts|]; 1 in w.db.jobs && w.db.jobs[1].status.Sent? && !Safety.Recoverable(w.db, 1)
  {
    hide Enabled, Apply, Torn, Shared, Safety.Recoverable, Store.Demote, Store.Settle, MayReport;
    ws, acts := TornIsReachable(inc);
    var w0 := ws[|acts|];
    var w1 := OtherMovesIn(w0);
    ws, acts := Then(ws, acts, AddJob(2, 1), w1);
    var w2 := Apply(w1, BindFirst(2, Other, true));
    ws, acts := Then(ws, acts, BindFirst(2, Other, true), w2);
    var w3, w4 := FirstIsReorged(w2);
    ws, acts := Then(ws, acts, Send(2, P, Other), w3);
    ws, acts := Then(ws, acts, Reorg({S}), w4);
    FirstIsDemoted(w4);
    var w5 := Apply(w4, Demote(First));
    ws, acts := Then(ws, acts, Demote(First), w5);
    var w6 := OtherIsMined(w5);
    ws, acts := Then(ws, acts, Mine(Other), w6);
    var w7 := Apply(w6, EndFlight(2, P));
    ws, acts := Then(ws, acts, EndFlight(2, P), w7);
    OtherIsSettled(w5, w7, inc);
    ws, acts := Then(ws, acts, SettleInclusion(2, Other, inc, false), Apply(w7, SettleInclusion(2, Other, inc, false)));
  }

  lemma OtherIsSettled(w: World, w': World, inc: Inclusion)
    requires Shared(w, JobStatus.Sent, AttemptStatus.Broadcast) && w'.db == w.db && Other in w'.mined && MayReport(w', 2, Other)
    ensures Enabled(w', SettleInclusion(2, Other, inc, false))
    ensures var db := Apply(w', SettleInclusion(2, Other, inc, false)).db; JobOneIs(db, JobStatus.Sent, AttemptStatus.Replaced) && !Safety.Recoverable(db, 1)
  {
    hide Enabled, Apply, Store.Settle, Safety.Recoverable, MayReport;
    SettleStep(w', inc);
    OtherIsRecorded(w'.db, inc);
    NothingToRecover(Store.Settle(w'.db, Other, inc, false, false).0);
  }

  lemma SettleStep(w: World, inc: Inclusion)
    requires Other in w.mined && MayReport(w, 2, Other)
    ensures Enabled(w, SettleInclusion(2, Other, inc, false)) && Apply(w, SettleInclusion(2, Other, inc, false)).db == Store.Settle(w.db, Other, inc, false, false).0
  {
    hide Store.Settle;
  }

  // ---- A cancelled top-up counts as paid ----

  const Transfer := Tx(S, ForTopup, Topup(1), 21000, FeeQuote(100, 1), 5, 0)
  const Undo := Tx(S, ForCancel, Topup(1), 21000, FeeQuote(200, 2), 0, 1)

  ghost function Topup1(status: TopupStatus, attempts: Attempts, slots: map<Slot, Owner>, mark: Option<nat>, p: Proc, sent: set<Tx>): World {
    World(Db(1, map[], map[1 := status], attempts, slots, map[P := mark], map[], map[], [], 0), map[1 := p], map[], {}, {}, sent, {}, {}, {})
  }

  ghost const Asked := Topup1(Requested, map[], map[], None, Proc(map[], map[], map[P := 0], {}), {})
  ghost const Undone := Topup1(TopupStatus.Sent, map[Transfer := Pending, Undo := Pending], map[S := Topup(1)], Some(0),
                               Proc(map[P := Flight(Topup(1), 0, {Transfer, Undo}, true, false)], map[], map[P := 1], {Transfer, Undo}), {})

  lemma TopupStarts() returns (w1: World, w2: World)
    ensures Enabled(Empty, Acquire) && w1 == Apply(Empty, Acquire)
    ensures Enabled(w1, AddTopup(1)) && w2 == Apply(w1, AddTopup(1))
    ensures Enabled(w2, RecoverDone(1, P, 0)) && Apply(w2, RecoverDone(1, P, 0)) == Asked
  {
    w1 := Apply(Empty, Acquire);
    w2 := Apply(w1, AddTopup(1));
    assert w2.procs[1].walk - {P} == map[];
    assert Apply(w2, RecoverDone(1, P, 0)).db == Asked.db;
    assert Apply(w2, RecoverDone(1, P, 0)).procs == Asked.procs;
  }

  ghost const Transferring := Topup1(TopupStatus.Sent, map[Transfer := Pending], map[S := Topup(1)], Some(0),
                                     Proc(map[P := Flight(Topup(1), 0, {Transfer}, true, false)], map[], map[P := 1], {Transfer}), {})

  lemma TopupIsBound()
    ensures Enabled(Asked, BindFirst(1, Transfer, true)) && Apply(Asked, BindFirst(1, Transfer, true)) == Transferring
  {
    assert CanBindFirst(Asked, 1, Transfer);
    var w := Apply(Asked, BindFirst(1, Transfer, true));
    assert Store.Bind(Asked.db, 1, Transfer, Store.First).1.Bound?;
    assert Asked.procs[1].walk - {P} == map[];
    assert w.procs[1] == Transferring.procs[1];
    assert w.procs == Transferring.procs;
    assert w.db == Transferring.db;
  }

  lemma TopupIsCancelled()
    ensures Enabled(Transferring, BindMore(1, Undo, Store.Cancel, true)) && Apply(Transferring, BindMore(1, Undo, Store.Cancel, true)) == Undone
  {
    var w := Transferring;
    assert CanBindMore(w, 1, Undo, Store.Cancel);
    assert Store.Bind(w.db, 1, Undo, Store.Cancel).1.Bound?;
    var w' := Apply(w, BindMore(1, Undo, Store.Cancel, true));
    assert {Transfer} + {Undo} == {Transfer, Undo};
    assert w'.procs[1].flights == Undone.procs[1].flights;
    assert w'.procs[1] == Undone.procs[1];
    assert w'.procs == Undone.procs;
    assert w'.db == Undone.db;
  }

  ghost const Cancelled := Undone.(chain := map[S := Ours(Undo)], final := {S}, mined := {Undo}, sent := {Undo},
                                   procs := map[1 := Proc(map[], map[], map[P := 1], {Transfer, Undo})])

  lemma OnlyTheCancelIsMined() returns (w1: World, w2: World)
    ensures Enabled(Undone, Send(1, P, Undo)) && w1 == Apply(Undone, Send(1, P, Undo))
    ensures Enabled(w1, Mine(Undo)) && w2 == Apply(w1, Mine(Undo))
    ensures Enabled(w2, Finalize(S)) && Apply(w2, Finalize(S)) == Cancelled.(procs := Undone.procs)
  {
    assert Undo in Undone.procs[1].flights[P].attempts;
    w1 := Apply(Undone, Send(1, P, Undo));
    w2 := Apply(w1, Mine(Undo));
  }

  lemma DriverIsDone()
    ensures var w := Cancelled.(procs := Undone.procs); Enabled(w, EndFlight(1, P)) && Apply(w, EndFlight(1, P)) == Cancelled
  {
    assert Undone.procs[1].flights - {P} == map[];
    assert Apply(Cancelled.(procs := Undone.procs), EndFlight(1, P)).procs == Cancelled.procs;
  }

  lemma CancelIsRecorded(inc: Inclusion)
    ensures var (db, r) := Store.Settle(Cancelled.db, Undo, inc, true, false); r.Applied? && 1 in db.topups && db.topups[1].Confirmed?
  {
    assert !Store.SlotMinedByOther(Cancelled.db.attempts, Undo);
    hide Store.PutJob;
    var included := Store.AfterInclusion(Cancelled.db, Undo, inc, false);
    assert included.topups[1].Included? && included.attempts[Undo].status.Included?;
  }

  lemma CancelIsSettled(inc: Inclusion)
    ensures Enabled(Cancelled, SettleInclusion(1, Undo, inc, true))
    ensures var w := Apply(Cancelled, SettleInclusion(1, Undo, inc, true));
            1 in w.db.topups && w.db.topups[1].Confirmed? && Safety.OnChain(w, Undo) && !Safety.OnChain(w, Transfer)
  {
    CancelIsRecorded(inc);
    hide Store.Settle;
  }

  /** A whole run that ends with a confirmed top-up whose transfer is not on the chain, and never can be. */
  lemma CancelledTopupIsConfirmed(inc: Inclusion) returns (ws: seq<World>, acts: seq<Action>)
    ensures IsRun(ws, acts)
    ensures var w := ws[|acts|];
            1 in w.db.topups && w.db.topups[1].Confirmed? && Safety.OnChain(w, Undo) && !Undo.Payload() && !Safety.OnChain(w, Transfer)
  {
    hide Enabled, Apply, Topup1;
    var w1, w2 := TopupStarts();
    TopupIsBound();
    TopupIsCancelled();
    var v1, v2 := OnlyTheCancelIsMined();
    DriverIsDone();
    CancelIsSettled(inc);
    ws, acts := [Empty], [];
    ws, acts := Then(ws, acts, Acquire, w1);
    ws, acts := Then(ws, acts, AddTopup(1), w2);
    ws, acts := Then(ws, acts, RecoverDone(1, P, 0), Asked);
    ws, acts := Then(ws, acts, BindFirst(1, Transfer, true), Transferring);
    ws, acts := Then(ws, acts, BindMore(1, Undo, Store.Cancel, true), Undone);
    ws, acts := Then(ws, acts, Send(1, P, Undo), v1);
    ws, acts := Then(ws, acts, Mine(Undo), v2);
    ws, acts := Then(ws, acts, Finalize(S), Cancelled.(procs := Undone.procs));
    ws, acts := Then(ws, acts, EndFlight(1, P), Cancelled);
    ws, acts := Then(ws, acts, SettleInclusion(1, Undo, inc, true), Apply(Cancelled, SettleInclusion(1, Undo, inc, true)));
  }
}
