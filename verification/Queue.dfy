/** The per-chain in-memory job queue: a window over the durable queue. Jobs are named by their ids. */
module Queues {
  import opened Domain

  datatype Queue = Queue(jobs: seq<nat>, known: set<nat>, overflow: nat)

  datatype Answer = Admitted | Duplicate | Deferred

  function Offered(q: Queue, window: nat, id: nat): (Queue, Answer) {
    if id in q.known then (q, Duplicate)
    else if |q.jobs| >= window then (q.(overflow := q.overflow + 1), Deferred)
    else (q.(jobs := q.jobs + [id], known := q.known + {id}), Admitted)
  }

  function PutBack(q: Queue, id: nat): Queue { q.(jobs := [id] + q.jobs, known := q.known + {id}) }

  function Taken(q: Queue): (Queue, Option<nat>) {
    if q.jobs == [] then (q, None) else (q.(jobs := q.jobs[1..]), Some(q.jobs[0]))
  }

  function Forgotten(q: Queue, id: nat): Queue { q.(known := q.known - {id}) }

  function Without(jobs: seq<nat>, id: nat): seq<nat> {
    if jobs == [] then []
    else
      var rest, last := Without(jobs[..|jobs| - 1], id), jobs[|jobs| - 1];
      if last == id then rest else rest + [last]
  }

  function Removed(q: Queue, id: nat): (Queue, bool) {
    var jobs := Without(q.jobs, id);
    if |jobs| != |q.jobs| then (q.(jobs := jobs, known := q.known - {id}), true) else (q, false)
  }

  ghost predicate Distinct(jobs: seq<nat>) {
    forall i, j :: 0 <= i < j < |jobs| ==> jobs[i] != jobs[j]
  }

  /** What is left holds no copy of the removed job and every copy of the others. */
  lemma {:induction false} WithoutKeepsOthers(jobs: seq<nat>, id: nat)
    ensures |Without(jobs, id)| <= |jobs|
    ensures |Without(jobs, id)| == |jobs| <==> id !in jobs
    ensures forall x :: x in Without(jobs, id) <==> x in jobs && x != id
  {
    if jobs != [] {
      var front, last := jobs[..|jobs| - 1], jobs[|jobs| - 1];
      WithoutKeepsOthers(front, id);
      assert forall x :: x in jobs <==> x in front || x == last;
    }
  }

  lemma {:induction false} WithoutMissing(jobs: seq<nat>, id: nat)
    requires id !in jobs
    ensures Without(jobs, id) == jobs
  {
    if jobs != [] { WithoutMissing(jobs[..|jobs| - 1], id); }
  }

  lemma {:induction false} WithoutStaysDistinct(jobs: seq<nat>, id: nat)
    requires Distinct(jobs)
    ensures Distinct(Without(jobs, id))
  {
    if jobs != [] {
      var front := jobs[..|jobs| - 1];
      WithoutStaysDistinct(front, id);
      WithoutKeepsOthers(front, id);
      assert jobs[|jobs| - 1] !in front;
    }
  }

  /** Removing keeps the order of the others. */
  lemma {:induction false} WithoutSplits(a: seq<nat>, b: seq<nat>, id: nat)
    ensures Without(a + b, id) == Without(a, id) + Without(b, id)
  {
    if b == [] {
      assert a + b == a;
    } else {
      WithoutSplits(a, b[..|b| - 1], id);
      assert (a + b)[..|a + b| - 1] == a + b[..|b| - 1];
    }
  }

  /** The queue object; `wakes` says whether the caller goes on to `notify_one` after the lock is dropped. */
  class JobQueue {
    var jobs: seq<nat>
    var known: set<nat>
    var overflow: nat
    const window: nat

    function State(): Queue
      reads this
    {
      Queue(jobs, known, overflow)
    }

    constructor (window: nat)
      ensures State() == Queue([], {}, 0) && this.window == Max(window, 1)
    {
      jobs, known, overflow, this.window := [], {}, 0, if window >= 1 then window else 1;
    }

    method Admit(id: nat) returns (answer: Answer, wakes: bool)
      modifies this
      ensures (State(), answer) == Offered(old(State()), window, id) && wakes == answer.Admitted?
    {
      if id in known { return Duplicate, false; }
      if |jobs| >= window {
        overflow := overflow + 1;
        return Deferred, false;
      }
      known := known + {id};
      jobs := jobs + [id];
      return Admitted, true;
    }

    method PushFront(id: nat)
      modifies this
      ensures State() == PutBack(old(State()), id)
    {
      known := known + {id};
      jobs := [id] + jobs;
    }

    method TryPop() returns (job: Option<nat>, wakes: bool)
      modifies this`jobs
      ensures (State(), job) == Taken(old(State())) && wakes == (job.Some? && jobs != [])
    {
      if jobs == [] { return None, false; }
      job := Some(jobs[0]);
      jobs := jobs[1..];
      wakes := jobs != [];
    }

    method Forget(id: nat)
      modifies this`known
      ensures State() == Forgotten(old(State()), id)
    {
      known := known - {id};
    }

    method Remove(id: nat) returns (removed: bool)
      modifies this`jobs, this`known
      ensures (State(), removed) == Removed(old(State()), id) && removed == (id in old(jobs))
    {
      var before := |jobs|;
      var kept := [];
      for i := 0 to |jobs|
        invariant kept == Without(jobs[..i], id) && State() == old(State())
      {
        assert jobs[..i + 1][..i] == jobs[..i];
        if jobs[i] != id { kept := kept + [jobs[i]]; }
      }
      assert jobs[..|jobs|] == jobs;
      WithoutKeepsOthers(jobs, id);
      if id !in jobs { WithoutMissing(jobs, id); }
      jobs := kept;
      removed := |jobs| != before;
      if removed { known := known - {id}; }
    }
  }
}

/**
 Any number of workers around one queue. A critical section is one step; the `notify_one` that follows it
 is another, so anything may happen in between. `Notify` keeps at most one permit and hands a wake-up on
 when its receiver is dropped.
 */
module QueueWorkers {
  import opened Domain
  import opened Queues

  /** Inside `pop`: about to check, found nothing but not yet awaiting, parked, or woken but not yet running. */
  datatype Phase = Outside | Checking | Leaving | Parked | Woken

  datatype Worker = Worker(phase: Phase, holds: Option<nat>)

  /** `owed` counts the `notify_one` calls still to be made; `settling` the jobs that are mined but not final. */
  datatype Sys = Sys(q: Queue, permit: bool, owed: nat, workers: map<nat, Worker>, settling: set<nat>)

  datatype Act =
    | Offer(id: nat, window: nat)
    | Notify(w: nat)
    | Enter(w: nat)
    | Check(w: nat)
    | Await(w: nat)
    | Run(w: nat)
    | Drop(w: nat, heir: nat)
    | GiveBack(w: nat)
    | Finish(w: nat)
    | HandOver(w: nat)
    | Final(id: nat)
    | Cancel(id: nat)
    | Join(w: nat)
    | Leave(w: nat)

  ghost predicate At(s: Sys, w: nat, p: Phase) { w in s.workers && s.workers[w].phase == p }

  ghost predicate SomeParked(s: Sys) { exists w :: At(s, w, Parked) }

  ghost predicate SomeAbout(s: Sys) { exists w :: At(s, w, Woken) || At(s, w, Checking) }

  ghost predicate Idle(s: Sys, w: nat) { At(s, w, Outside) && s.workers[w].holds.None? }

  ghost predicate Busy(s: Sys, w: nat) { At(s, w, Outside) && s.workers[w].holds.Some? }

  /** A worker puts back and forgets only what it holds; `w` and `heir` name whom a wake-up reaches. */
  ghost predicate CanAct(s: Sys, a: Act) {
    match a
    case Offer(_, _) => true
    case Notify(w) => s.owed > 0 && (SomeParked(s) ==> At(s, w, Parked))
    case Enter(w) => Idle(s, w)
    case Check(w) => At(s, w, Checking)
    case Await(w) => At(s, w, Leaving)
    case Run(w) => At(s, w, Woken)
    case Drop(w, heir) => At(s, w, Parked) || (At(s, w, Woken) && (SomeParked(s) ==> At(s, heir, Parked)))
    case GiveBack(w) => Busy(s, w)
    case Finish(w) => Busy(s, w)
    case HandOver(w) => Busy(s, w)
    case Final(id) => id in s.settling
    case Cancel(_) => true
    case Join(w) => w !in s.workers
    case Leave(w) => Idle(s, w)
  }

  ghost function Put(s: Sys, w: nat, p: Phase, holds: Option<nat>): Sys {
    s.(workers := s.workers[w := Worker(p, holds)])
  }

  /** One `notify_one`: the named parked worker if any is parked, otherwise the permit. */
  ghost function Notified(s: Sys, w: nat): Sys {
    if SomeParked(s) then Put(s, w, Woken, None) else s.(permit := true)
  }

  ghost function After(s: Sys, a: Act): Sys
    requires CanAct(s, a)
  {
    match a
    case Offer(id, window) =>
      var (q, answer) := Offered(s.q, window, id);
      s.(q := q, owed := if answer.Admitted? then s.owed + 1 else s.owed)
    case Notify(w) => Notified(s.(owed := s.owed - 1), w)
    case Enter(w) => Put(s, w, Checking, None)
    case Check(w) =>
      var (q, job) := Taken(s.q);
      if job.None? then Put(s, w, Leaving, None)
      else Put(s.(q := q, owed := if q.jobs != [] then s.owed + 1 else s.owed), w, Outside, job)
    case Await(w) => if s.permit then Put(s.(permit := false), w, Checking, None) else Put(s, w, Parked, None)
    case Run(w) => Put(s, w, Checking, None)
    case Drop(w, heir) => if At(s, w, Woken) then Notified(Put(s, w, Outside, None), heir) else Put(s, w, Outside, None)
    case GiveBack(w) => Put(s.(q := PutBack(s.q, s.workers[w].holds.value), owed := s.owed + 1), w, Outside, None)
    case Finish(w) => Put(s.(q := Forgotten(s.q, s.workers[w].holds.value)), w, Outside, None)
    case HandOver(w) => Put(s.(settling := s.settling + {s.workers[w].holds.value}), w, Outside, None)
    case Final(id) => s.(q := Forgotten(s.q, id), settling := s.settling - {id})
    case Cancel(id) => s.(q := Removed(s.q, id).0)
    case Join(w) => Put(s, w, Outside, None)
    case Leave(w) => s.(workers := s.workers - {w})
  }

  ghost predicate IsRun(ss: seq<Sys>, acts: seq<Act>) {
    && |ss| == |acts| + 1 && ss[0] == Sys(Queue([], {}, 0), false, 0, map[], {})
    && forall i {:trigger acts[i]} :: 0 <= i < |acts| ==> CanAct(ss[i], acts[i]) && ss[i + 1] == After(ss[i], acts[i])
  }

  // ---- No lost wake-up ----

  /** With work waiting, a worker that is or will be parked has a wake-up on its way. */
  ghost predicate WakeComing(s: Sys) {
    s.q.jobs != [] && (exists w :: At(s, w, Parked) || At(s, w, Leaving)) ==> s.permit || s.owed > 0 || SomeAbout(s)
  }

  /** A stored permit means nobody is parked, so a permit is never left for somebody who sleeps. */
  ghost predicate PermitUnclaimed(s: Sys) { s.permit ==> !SomeParked(s) }

  lemma NotifyKeeps(s: Sys, w: nat)
    requires SomeParked(s) ==> At(s, w, Parked)
    requires PermitUnclaimed(s)
    ensures var t := Notified(s, w); PermitUnclaimed(t) && (t.permit || SomeAbout(t)) && t.q == s.q
  {
    var t := Notified(s, w);
    if SomeParked(s) {
      assert At(t, w, Woken);
    } else if v :| At(t, v, Parked) {
      assert At(s, v, Parked);
    }
  }

  lemma WakeStep(s: Sys, a: Act)
    requires WakeComing(s) && PermitUnclaimed(s) && CanAct(s, a)
    ensures WakeComing(After(s, a)) && PermitUnclaimed(After(s, a))
  {
    hide Without;
    var t := After(s, a);
    match a
    case Notify(w) =>
      var paid := s.(owed := s.owed - 1);
      ParkedStaysPut(s, paid, w);
      NotifyKeeps(paid, w);
    case Drop(w, heir) => DropKeepsWakes(s, w, heir);
    case Check(w) => CheckKeepsWakes(s, w);
    case Await(w) => AwaitKeepsWakes(s, w);
    case Enter(w) => assert At(t, w, Checking); ParkedStaysPut(s, t, w);
    case Run(w) => assert At(t, w, Checking); ParkedStaysPut(s, t, w);
    case GiveBack(w) => ParkedStaysPut(s, t, w);
    case Finish(w) => OthersStay(s, t, w); ParkedStaysPut(s, t, w);
    case HandOver(w) => OthersStay(s, t, w); ParkedStaysPut(s, t, w);
    case Join(w) => OthersStay(s, t, w); ParkedStaysPut(s, t, w);
    case Leave(w) => OthersStay(s, t, w); ParkedStaysPut(s, t, w);
    case Cancel(id) => WithoutKeepsOthers(s.q.jobs, id); OthersStay(s, t, 0); ParkedStaysPut(s, t, 0);
    case Final(_) => OthersStay(s, t, 0); ParkedStaysPut(s, t, 0);
    case Offer(_, _) => OthersStay(s, t, 0); ParkedStaysPut(s, t, 0);
  }

  /** Only `w` changed, and it is not newly parked. */
  ghost predicate OnlyMoved(s: Sys, t: Sys, w: nat) {
    && (forall v :: v != w ==> (v in s.workers <==> v in t.workers))
    && (forall v :: v != w && v in s.workers ==> t.workers[v] == s.workers[v])
    && (At(t, w, Parked) ==> At(s, w, Parked)) && (At(t, w, Leaving) ==> At(s, w, Leaving))
  }

  lemma ParkedStaysPut(s: Sys, t: Sys, w: nat)
    requires OnlyMoved(s, t, w)
    ensures SomeParked(t) ==> SomeParked(s)
    ensures (exists v :: At(t, v, Parked) || At(t, v, Leaving)) ==> exists v :: At(s, v, Parked) || At(s, v, Leaving)
  {
    forall v | At(t, v, Parked) || At(t, v, Leaving)
      ensures At(t, v, Parked) ==> At(s, v, Parked)
      ensures At(t, v, Leaving) ==> At(s, v, Leaving)
    {}
  }

  lemma OthersStay(s: Sys, t: Sys, w: nat)
    requires OnlyMoved(s, t, w) && (At(s, w, Woken) ==> At(t, w, Woken)) && (At(s, w, Checking) ==> At(t, w, Checking))
    ensures SomeAbout(s) ==> SomeAbout(t)
  {
    if v :| At(s, v, Woken) || At(s, v, Checking) {
      assert At(s, v, Woken) ==> At(t, v, Woken);
      assert At(s, v, Checking) ==> At(t, v, Checking);
    }
  }

  lemma DropKeepsWakes(s: Sys, w: nat, heir: nat)
    requires WakeComing(s) && PermitUnclaimed(s) && CanAct(s, Drop(w, heir))
    ensures WakeComing(After(s, Drop(w, heir))) && PermitUnclaimed(After(s, Drop(w, heir)))
  {
    var out := Put(s, w, Outside, None);
    ParkedStaysPut(s, out, w);
    if At(s, w, Woken) {
      if v :| At(s, v, Parked) { assert At(out, v, Parked); }
      NotifyKeeps(out, heir);
    } else {
      OthersStay(s, out, w);
    }
  }

  lemma CheckKeepsWakes(s: Sys, w: nat)
    requires WakeComing(s) && PermitUnclaimed(s) && CanAct(s, Check(w))
    ensures WakeComing(After(s, Check(w))) && PermitUnclaimed(After(s, Check(w)))
  {
    var t := After(s, Check(w));
    if s.q.jobs != [] {
      ParkedStaysPut(s, t, w);
    } else if v :| At(t, v, Parked) {
      assert At(s, v, Parked);
    }
  }

  lemma AwaitKeepsWakes(s: Sys, w: nat)
    requires WakeComing(s) && PermitUnclaimed(s) && CanAct(s, Await(w))
    ensures WakeComing(After(s, Await(w))) && PermitUnclaimed(After(s, Await(w)))
  {
    var t := After(s, Await(w));
    if s.permit {
      assert At(t, w, Checking);
      ParkedStaysPut(s, t, w);
    } else if v :| At(s, v, Woken) || At(s, v, Checking) {
      assert At(t, v, Woken) || At(t, v, Checking);
    }
  }

  lemma {:induction false} WakesAlwaysComing(ss: seq<Sys>, acts: seq<Act>, n: nat)
    requires IsRun(ss, acts) && n < |ss|
    ensures WakeComing(ss[n]) && PermitUnclaimed(ss[n])
  {
    hide After, CanAct;
    if n > 0 {
      WakesAlwaysComing(ss, acts, n - 1);
      WakeStep(ss[n - 1], acts[n - 1]);
    }
  }

  /**
   In every reachable state: if a job waits while a worker is parked, then a `notify_one` is about to be
   made, or some worker has been woken or is about to look. A leftover permit is never the only hope.
   */
  lemma NoLostWakeup(ss: seq<Sys>, acts: seq<Act>, n: nat)
    requires IsRun(ss, acts) && n < |ss| && ss[n].q.jobs != [] && SomeParked(ss[n])
    ensures ss[n].owed > 0 || SomeAbout(ss[n])
  {
    WakesAlwaysComing(ss, acts, n);
    var v :| At(ss[n], v, Parked);
  }

  // ---- No job in two places ----

  /** Deque, workers' hands and the settling set are disjoint, hold no job twice, and are all known. */
  ghost predicate OnePlace(s: Sys) {
    && Distinct(s.q.jobs)
    && (forall id :: id in s.q.jobs ==> id in s.q.known && id !in s.settling)
    && (forall id :: id in s.settling ==> id in s.q.known)
    && (forall w :: w in s.workers && s.workers[w].holds.Some? ==>
          s.workers[w].phase.Outside? && s.workers[w].holds.value in s.q.known && s.workers[w].holds.value !in s.q.jobs && s.workers[w].holds.value !in s.settling)
    && (forall v, w :: v in s.workers && w in s.workers && v != w && s.workers[v].holds.Some? ==> s.workers[w].holds != s.workers[v].holds)
  }

  /** Moving the job `w` holds somewhere else, or dropping it. */
  lemma HandEmptied(s: Sys, t: Sys, w: nat)
    requires OnePlace(s) && Busy(s, w) && t.workers == s.workers[w := Worker(Outside, None)]
    requires var id := s.workers[w].holds.value;
             || (t.q == PutBack(s.q, id) && t.settling == s.settling)
             || (t.q == Forgotten(s.q, id) && t.settling == s.settling)
             || (t.q == s.q && t.settling == s.settling + {id})
    ensures OnePlace(t)
  {}

  /** A change of phases and counters alone. */
  lemma HandsKept(s: Sys, t: Sys)
    requires OnePlace(s) && t.q == s.q && t.settling == s.settling
    requires forall w :: w in t.workers && t.workers[w].holds.Some? ==> w in s.workers && t.workers[w] == s.workers[w]
    ensures OnePlace(t)
  {}

  lemma OfferKeepsPlaces(s: Sys, id: nat, window: nat)
    requires OnePlace(s)
    ensures OnePlace(After(s, Offer(id, window)))
  {}

  lemma CheckKeepsPlaces(s: Sys, w: nat)
    requires OnePlace(s) && At(s, w, Checking)
    ensures OnePlace(After(s, Check(w)))
  {}

  lemma ForgetKeepsPlaces(s: Sys, id: nat)
    requires OnePlace(s)
    ensures id in s.settling ==> OnePlace(After(s, Final(id)))
    ensures OnePlace(After(s, Cancel(id)))
  {
    WithoutKeepsOthers(s.q.jobs, id);
    WithoutStaysDistinct(s.q.jobs, id);
    hide Without;
  }

  lemma OnePlaceStep(s: Sys, a: Act)
    requires OnePlace(s) && CanAct(s, a)
    ensures OnePlace(After(s, a))
  {
    match a
    case Offer(id, window) => OfferKeepsPlaces(s, id, window);
    case Check(w) => CheckKeepsPlaces(s, w);
    case GiveBack(w) => HandEmptied(s, After(s, a), w);
    case Finish(w) => HandEmptied(s, After(s, a), w);
    case HandOver(w) => HandEmptied(s, After(s, a), w);
    case Final(id) => ForgetKeepsPlaces(s, id);
    case Cancel(id) => ForgetKeepsPlaces(s, id);
    case _ => HandsKept(s, After(s, a));
  }

  lemma {:induction false} NoDuplicates(ss: seq<Sys>, acts: seq<Act>, n: nat)
    requires IsRun(ss, acts) && n < |ss|
    ensures OnePlace(ss[n])
  {
    hide After, CanAct;
    if n > 0 {
      NoDuplicates(ss, acts, n - 1);
      OnePlaceStep(ss[n - 1], acts[n - 1]);
    }
  }

  // ---- Nothing stays known for ever ----

  ghost predicate Held(s: Sys, id: nat) { exists w :: w in s.workers && s.workers[w].holds == Some(id) }

  /** What is known is somewhere, so a job that is done with can be offered again. */
  ghost predicate Tracked(s: Sys) { forall id :: id in s.q.known ==> id in s.q.jobs || id in s.settling || Held(s, id) }

  /** Whoever holds something keeps it, unless it is `w`. */
  lemma HandsStay(s: Sys, t: Sys, w: nat, id: nat)
    requires forall v :: v in s.workers && v != w && s.workers[v].holds.Some? ==> v in t.workers && t.workers[v] == s.workers[v]
    ensures Held(s, id) && !(w in s.workers && s.workers[w].holds == Some(id)) ==> Held(t, id)
  {
    if v :| v in s.workers && s.workers[v].holds == Some(id) { assert v != w ==> t.workers[v].holds == Some(id); }
  }

  lemma HandEmptiedIsTracked(s: Sys, a: Act)
    requires OnePlace(s) && Tracked(s) && CanAct(s, a) && (a.GiveBack? || a.Finish? || a.HandOver?)
    ensures Tracked(After(s, a))
  {
    var t := After(s, a);
    forall id | id in t.q.known ensures id in t.q.jobs || id in t.settling || Held(t, id) { HandsStay(s, t, a.w, id); }
  }

  lemma TakingIsTracked(s: Sys, w: nat)
    requires OnePlace(s) && Tracked(s) && CanAct(s, Check(w))
    ensures Tracked(After(s, Check(w)))
  {
    var t := After(s, Check(w));
    forall id | id in t.q.known ensures id in t.q.jobs || id in t.settling || Held(t, id) {
      HandsStay(s, t, w, id);
      if s.q.jobs != [] && id == s.q.jobs[0] { assert t.workers[w].holds == Some(id); }
    }
  }

  lemma RestIsTracked(s: Sys, a: Act)
    requires OnePlace(s) && Tracked(s) && CanAct(s, a) && !a.GiveBack? && !a.Finish? && !a.HandOver? && !a.Check?
    ensures Tracked(After(s, a))
  {
    var t := After(s, a);
    if a.Cancel? { WithoutKeepsOthers(s.q.jobs, a.id); }
    hide Without;
    forall id | id in t.q.known ensures id in t.q.jobs || id in t.settling || Held(t, id) {
      if Held(s, id) { HandsOf(s, a, id); }
    }
  }

  lemma HandsOf(s: Sys, a: Act, id: nat)
    requires OnePlace(s) && CanAct(s, a) && !a.GiveBack? && !a.Finish? && !a.HandOver? && !a.Check? && Held(s, id)
    ensures Held(After(s, a), id)
  {
    hide Without;
    var v :| v in s.workers && s.workers[v].holds == Some(id);
    if a.Notify? {
      var paid := s.(owed := s.owed - 1);
      if p :| At(paid, p, Parked) { assert At(s, p, Parked); }
    } else if a.Drop? {
      var out := Put(s, a.w, Outside, None);
      if p :| At(out, p, Parked) { assert At(s, p, Parked); }
    }
    assert After(s, a).workers[v].holds == Some(id);
  }

  lemma {:induction false} KnownIsSomewhere(ss: seq<Sys>, acts: seq<Act>, n: nat)
    requires IsRun(ss, acts) && n < |ss|
    ensures Tracked(ss[n])
  {
    hide After, CanAct, OnePlace, Tracked;
    if n == 0 {
      NothingKnownYet(ss[0]);
    } else {
      KnownIsSomewhere(ss, acts, n - 1);
      NoDuplicates(ss, acts, n - 1);
      var s, a := ss[n - 1], acts[n - 1];
      if a.Check? { TakingIsTracked(s, a.w); }
      else if a.GiveBack? || a.Finish? || a.HandOver? { HandEmptiedIsTracked(s, a); }
      else { RestIsTracked(s, a); }
    }
  }

  lemma NothingKnownYet(s: Sys)
    requires s.q.known == {}
    ensures Tracked(s)
  {}

  /** A job is turned away only if it is somewhere already, and put off only if the window is full. */
  lemma OfferIsAnswered(ss: seq<Sys>, acts: seq<Act>, n: nat, id: nat, window: nat)
    requires IsRun(ss, acts) && n < |ss|
    ensures var s, (q, answer) := ss[n], Offered(ss[n].q, window, id);
            && (answer.Duplicate? <==> id in s.q.jobs || id in s.settling || Held(s, id))
            && (answer.Deferred? <==> !answer.Duplicate? && |s.q.jobs| >= window)
            && q.overflow == s.q.overflow + if answer.Deferred? then 1 else 0
  {
    KnownIsSomewhere(ss, acts, n);
    NoDuplicates(ss, acts, n);
  }

  // ---- First come, first served ----

  /** The step hands the job to a worker. */
  ghost predicate Takes(s: Sys, a: Act, id: nat) { a.Check? && Taken(s.q).1 == Some(id) }

  ghost predicate Admits(s: Sys, a: Act, id: nat) { a.Offer? && a.id == id && Offered(s.q, a.window, id).1.Admitted? }

  /** `front` of the queue has the one job and not the other. */
  ghost predicate Splits(jobs: seq<nat>, front: seq<nat>, first: nat, second: nat) {
    front <= jobs && first in front && second !in front
  }

  /** The first job waits, nobody has the second one in hand, and it is not in front of the first. */
  ghost predicate Ahead(s: Sys, first: nat, second: nat) {
    && (exists front :: Splits(s.q.jobs, front, first, second))
    && forall w :: w in s.workers ==> s.workers[w].holds != Some(second)
  }

  lemma TakingKeepsOrder(s: Sys, w: nat, first: nat, second: nat)
    requires Ahead(s, first, second) && CanAct(s, Check(w)) && !Takes(s, Check(w), first)
    ensures Ahead(After(s, Check(w)), first, second) && !Takes(s, Check(w), second)
  {
    var front :| Splits(s.q.jobs, front, first, second);
    assert front[0] == s.q.jobs[0] && Splits(After(s, Check(w)).q.jobs, front[1..], first, second);
  }

  lemma QueueStepKeepsOrder(s: Sys, a: Act, first: nat, second: nat)
    requires Ahead(s, first, second) && CanAct(s, a) && (a.Offer? || a.GiveBack? || a.Cancel?) && a != Cancel(first)
    ensures Ahead(After(s, a), first, second)
  {
    var front :| Splits(s.q.jobs, front, first, second);
    var jobs := After(s, a).q.jobs;
    match a
    case Offer(_, _) => assert Splits(jobs, front, first, second);
    case GiveBack(w) => assert Splits(jobs, [s.workers[w].holds.value] + front, first, second);
    case Cancel(id) =>
      WithoutSplits(front, s.q.jobs[|front|..], id);
      assert front + s.q.jobs[|front|..] == s.q.jobs;
      WithoutKeepsOthers(front, id);
      WithoutKeepsOthers(s.q.jobs, id);
      if id !in s.q.jobs { WithoutMissing(s.q.jobs, id); }
      assert Splits(jobs, Without(front, id), first, second);
  }

  lemma OrderStep(s: Sys, a: Act, first: nat, second: nat)
    requires Ahead(s, first, second) && CanAct(s, a) && !Takes(s, a, first) && a != Cancel(first)
    ensures Ahead(After(s, a), first, second) && !Takes(s, a, second)
  {
    if a.Check? {
      TakingKeepsOrder(s, a.w, first, second);
    } else if a.Offer? || a.GiveBack? || a.Cancel? {
      hide After;
      QueueStepKeepsOrder(s, a, first, second);
    } else {
      var front :| Splits(s.q.jobs, front, first, second);
      assert Splits(After(s, a).q.jobs, front, first, second);
    }
  }

  /** A job that was admitted waits until it is taken or removed. */
  lemma {:induction false} WaitsItsTurn(ss: seq<Sys>, acts: seq<Act>, n: nat, m: nat, id: nat)
    requires IsRun(ss, acts) && n < m < |ss| && Admits(ss[n], acts[n], id)
    requires forall k :: n < k < m ==> !Takes(ss[k], acts[k], id) && acts[k] != Cancel(id)
    ensures id in ss[m].q.jobs
    decreases m
  {
    if m > n + 1 {
      WaitsItsTurn(ss, acts, n, m - 1, id);
      StillWaits(ss[m - 1], acts[m - 1], id);
    }
  }

  lemma StillWaits(s: Sys, a: Act, id: nat)
    requires id in s.q.jobs && CanAct(s, a) && !Takes(s, a, id) && a != Cancel(id)
    ensures id in After(s, a).q.jobs
  {
    hide Without;
    if a.Cancel? { WithoutKeepsOthers(s.q.jobs, a.id); }
  }

  lemma {:induction false} StaysAhead(ss: seq<Sys>, acts: seq<Act>, n: nat, m: nat, first: nat, second: nat)
    requires IsRun(ss, acts) && n <= m < |ss| && Ahead(ss[n], first, second)
    requires forall k :: n <= k < m ==> !Takes(ss[k], acts[k], first) && acts[k] != Cancel(first)
    ensures Ahead(ss[m], first, second)
    decreases m
  {
    hide Ahead, Takes, After, CanAct;
    if m > n {
      StaysAhead(ss, acts, n, m - 1, first, second);
      OrderStep(ss[m - 1], acts[m - 1], first, second);
    }
  }

  lemma NotTakenYet(s: Sys, a: Act, first: nat, second: nat)
    requires Ahead(s, first, second)
    ensures !Takes(s, a, second)
  {
    var front :| Splits(s.q.jobs, front, first, second);
    assert front[0] == s.q.jobs[0];
  }

  lemma JoinsBehind(s: Sys, a: Act, first: nat, second: nat)
    requires OnePlace(s) && CanAct(s, a) && Admits(s, a, second) && first in s.q.jobs
    ensures Ahead(After(s, a), first, second)
  {
    assert Splits(After(s, a).q.jobs, s.q.jobs, first, second);
  }

  lemma LaterWaits(ss: seq<Sys>, acts: seq<Act>, i: nat, n: nat, m: nat, first: nat, second: nat)
    requires IsRun(ss, acts) && i < n < m < |acts| && Admits(ss[i], acts[i], first) && Admits(ss[n], acts[n], second)
    requires forall k :: i < k < m ==> !Takes(ss[k], acts[k], first) && acts[k] != Cancel(first)
    ensures !Takes(ss[m], acts[m], second)
  {
    hide After, CanAct, Takes, Ahead, OnePlace;
    WaitsItsTurn(ss, acts, i, n, first);
    NoDuplicates(ss, acts, n);
    JoinsBehind(ss[n], acts[n], first, second);
    StaysAhead(ss, acts, n + 1, m, first, second);
    NotTakenYet(ss[m], acts[m], first, second);
  }

  /** With any number of workers: of two jobs, the one admitted earlier is taken earlier, unless it is removed. */
  lemma FirstComeFirstServed(ss: seq<Sys>, acts: seq<Act>, i: nat, n: nat, m: nat, first: nat, second: nat)
    requires IsRun(ss, acts) && i < n < m < |acts| && Admits(ss[i], acts[i], first) && Admits(ss[n], acts[n], second)
    requires Takes(ss[m], acts[m], second)
    ensures exists k :: i < k < m && (Takes(ss[k], acts[k], first) || acts[k] == Cancel(first))
  {
    if forall k :: i < k < m ==> !Takes(ss[k], acts[k], first) && acts[k] != Cancel(first) {
      LaterWaits(ss, acts, i, n, m, first, second);
    }
  }

  /** The job in front stays there until something is taken or put back, or it is removed. */
  lemma FrontStays(s: Sys, a: Act, id: nat)
    requires s.q.jobs != [] && s.q.jobs[0] == id && CanAct(s, a) && !a.Check? && !a.GiveBack? && a != Cancel(id)
    ensures var jobs := After(s, a).q.jobs; jobs != [] && jobs[0] == id
  {
    hide Without;
    if a.Cancel? {
      WithoutSplits([id], s.q.jobs[1..], a.id);
      assert [id] + s.q.jobs[1..] == s.q.jobs;
      OneStays(id, a.id);
    }
  }

  lemma OneStays(id: nat, other: nat)
    requires id != other
    ensures Without([id], other) == [id]
  {
    assert [id][..0] == [];
  }

  /** A job that is put back is the next one to be taken. */
  lemma {:induction false} PutBackIsNext(ss: seq<Sys>, acts: seq<Act>, n: nat, m: nat, id: nat)
    requires IsRun(ss, acts) && n < m < |ss| && acts[n].GiveBack? && ss[n].workers[acts[n].w].holds == Some(id)
    requires forall k :: n < k < m ==> !acts[k].GiveBack? && !acts[k].Check? && acts[k] != Cancel(id)
    ensures ss[m].q.jobs != [] && ss[m].q.jobs[0] == id
    ensures m < |acts| && acts[m].Check? ==> Takes(ss[m], acts[m], id)
    decreases m
  {
    assert CanAct(ss[n], acts[n]);
    if m > n + 1 {
      PutBackIsNext(ss, acts, n, m - 1, id);
      FrontStays(ss[m - 1], acts[m - 1], id);
    }
  }
}
