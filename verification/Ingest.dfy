/** Accepting jobs: one statement per batch, with idempotency keys resolved afterwards. */
module Ingest {
  import opened Domain

  datatype NewJob = NewJob(id: nat, key: Option<string>, hash: string)

  datatype InsertOutcome = Created | Replayed(original: nat) | Conflict

  datatype Inserted = Ok(outcomes: seq<InsertOutcome>) | Corrupt

  /** The jobs table in insertion order; only the columns an insert looks at. */
  type Table = seq<NewJob>

  function FindByKey(t: Table, key: string): Option<NewJob> {
    if t == [] then None
    else if t[0].key == Some(key) then Some(t[0])
    else FindByKey(t[1..], key)
  }

  /** The unique index (NULL keys never collide). */
  predicate Collides(t: Table, j: NewJob) { j.key.Some? && FindByKey(t, j.key.value).Some? }

  function InsertOne(t: Table, j: NewJob): (Table, InsertOutcome) {
    if !Collides(t, j) then (t + [j], Created)
    else
      var row := FindByKey(t, j.key.value).value;
      (t, if row.hash == j.hash then Replayed(row.id) else Conflict)
  }

  /** The reference: the jobs one by one, in order. */
  function InsertEach(t: Table, jobs: seq<NewJob>): (Table, seq<InsertOutcome>) {
    if jobs == [] then (t, [])
    else
      var (before, outcomes) := InsertEach(t, jobs[..|jobs| - 1]);
      var (after, outcome) := InsertOne(before, jobs[|jobs| - 1]);
      (after, outcomes + [outcome])
  }

  ghost predicate FreshIds(t: Table, jobs: seq<NewJob>) {
    && (forall i, j :: 0 <= i < j < |jobs| ==> jobs[i].id != jobs[j].id)
    && (forall i, r :: 0 <= i < |jobs| && 0 <= r < |t| ==> jobs[i].id != t[r].id)
  }

  lemma {:induction false} FoundStays(t: Table, key: string, more: Table)
    ensures FindByKey(t, key).Some? ==> FindByKey(t + more, key) == FindByKey(t, key)
    ensures FindByKey(t, key).None? ==> FindByKey(t + more, key) == FindByKey(more, key)
  {
    if t == [] {
      assert t + more == more;
    } else {
      assert (t + more)[1..] == t[1..] + more;
      FoundStays(t[1..], key, more);
    }
  }

  lemma {:induction false} InsertEachAppends(t: Table, jobs: seq<NewJob>)
    ensures var (after, outcomes) := InsertEach(t, jobs); t <= after && |outcomes| == |jobs|
  {
    if jobs != [] { InsertEachAppends(t, jobs[..|jobs| - 1]); }
  }

  /** The key of the i-th job is taken by the time its turn comes. */
  ghost predicate TakenAt(t: Table, jobs: seq<NewJob>, i: nat)
    requires i < |jobs|
  {
    Collides(InsertEach(t, jobs[..i]).0, jobs[i])
  }

  lemma InsertUnlessTaken(t: Table, jobs: seq<NewJob>, i: nat)
    requires i < |jobs|
    ensures var before := InsertEach(t, jobs[..i]).0;
            && TakenAt(t, jobs, i) == Collides(before, jobs[i])
            && InsertOne(before, jobs[i]).0 == if TakenAt(t, jobs, i) then before else before + [jobs[i]]
  {}

  lemma InsertEachSplit(t: Table, jobs: seq<NewJob>, i: nat)
    requires i < |jobs|
    ensures var (before, outcomes) := InsertEach(t, jobs[..i]);
            InsertEach(t, jobs[..i + 1]) == (InsertOne(before, jobs[i]).0, outcomes + [InsertOne(before, jobs[i]).1])
  {
    assert jobs[..i + 1][..i] == jobs[..i];
  }

  lemma {:induction false} TableGrows(t: Table, jobs: seq<NewJob>, i: nat, n: nat)
    requires i <= n <= |jobs|
    ensures InsertEach(t, jobs[..i]).0 <= InsertEach(t, jobs[..n]).0
    decreases n
  {
    if i < n {
      TableGrows(t, jobs, i, n - 1);
      InsertEachSplit(t, jobs, n - 1);
    }
  }

  /** Looking a key up after the whole batch finds the row it collided with at its turn. */
  lemma LookupAfterwards(t: Table, jobs: seq<NewJob>, i: nat)
    requires i < |jobs| && Collides(InsertEach(t, jobs[..i]).0, jobs[i])
    ensures FindByKey(InsertEach(t, jobs).0, jobs[i].key.value) == FindByKey(InsertEach(t, jobs[..i]).0, jobs[i].key.value)
  {
    assert jobs[..|jobs|] == jobs;
    TableGrows(t, jobs, i, |jobs|);
    var before, after := InsertEach(t, jobs[..i]).0, InsertEach(t, jobs).0;
    assert after == before + after[|before|..];
    FoundStays(before, jobs[i].key.value, after[|before|..]);
  }

  /** The INSERT ... ON CONFLICT DO NOTHING over the unnested arrays, and the ids it returns. */
  method InsertBatch(t: Table, jobs: seq<NewJob>) returns (after: Table, ids: set<nat>)
    requires FreshIds(t, jobs)
    ensures after == InsertEach(t, jobs).0
    ensures forall i :: 0 <= i < |jobs| ==> (jobs[i].id in ids <==> !TakenAt(t, jobs, i))
  {
    hide InsertOne, Collides, TakenAt;
    after, ids := t, {};
    for n := 0 to |jobs|
      invariant after == InsertEach(t, jobs[..n]).0
      invariant forall x :: x in ids ==> exists i :: 0 <= i < n && x == jobs[i].id
      invariant forall i :: 0 <= i < n ==> (jobs[i].id in ids <==> !TakenAt(t, jobs, i))
    {
      InsertEachSplit(t, jobs, n);
      InsertUnlessTaken(t, jobs, n);
      if !Collides(after, jobs[n]) {
        after := after + [jobs[n]];
        ids := ids + {jobs[n].id};
      }
    }
    assert jobs[..|jobs|] == jobs;
  }

  /** Same rows and same answers as inserting one by one, for every batch; a key is never lost in between. */
  method InsertJobs(t: Table, jobs: seq<NewJob>) returns (after: Table, result: Inserted)
    requires FreshIds(t, jobs)
    ensures after == InsertEach(t, jobs).0 && result == Ok(InsertEach(t, jobs).1)
  {
    var ids;
    after, ids := InsertBatch(t, jobs);
    var outcomes := [];
    for n := 0 to |jobs|
      invariant outcomes == InsertEach(t, jobs[..n]).1
    {
      InsertEachSplit(t, jobs, n);
      if jobs[n].id in ids {
        outcomes := outcomes + [Created];
      } else {
        LookupAfterwards(t, jobs, n);
        var key := if jobs[n].key.Some? then jobs[n].key.value else "";
        var existing := FindByKey(after, key);
        if existing.None? { return after, Corrupt; }
        outcomes := outcomes + [if existing.value.hash == jobs[n].hash then Replayed(existing.value.id) else Conflict];
      }
    }
    assert jobs[..|jobs|] == jobs;
    result := Ok(outcomes);
  }

  // ---- What a key guarantees ----

  ghost predicate UniqueKeys(t: Table) {
    forall i, j :: 0 <= i < j < |t| && t[i].key.Some? ==> t[j].key != t[i].key
  }

  lemma {:induction false} FindsAny(t: Table, i: nat)
    requires i < |t| && t[i].key.Some?
    ensures FindByKey(t, t[i].key.value).Some?
  {
    if i > 0 && t[0].key != t[i].key { FindsAny(t[1..], i - 1); }
  }

  /** However often a key is offered, in one batch or many, it owns one row. */
  lemma {:induction false} KeysStayUnique(t: Table, jobs: seq<NewJob>)
    requires UniqueKeys(t)
    ensures UniqueKeys(InsertEach(t, jobs).0)
  {
    if jobs != [] {
      var before, j := InsertEach(t, jobs[..|jobs| - 1]).0, jobs[|jobs| - 1];
      KeysStayUnique(t, jobs[..|jobs| - 1]);
      forall i | 0 <= i < |before| && before[i].key.Some? && before[i].key == j.key ensures Collides(before, j) { FindsAny(before, i); }
    }
  }

  /** Once a keyed job is in, the same request is answered with the original id after any later batches. */
  lemma ReplayIsForever(t: Table, j: NewJob, later: seq<NewJob>, again: NewJob)
    requires j.key.Some? && !Collides(t, j) && again.key == j.key
    ensures var after := InsertEach(InsertOne(t, j).0, later).0;
            InsertOne(after, again) == (after, if again.hash == j.hash then Replayed(j.id) else Conflict)
  {
    var first := t + [j];
    FoundStays(t, j.key.value, [j]);
    InsertEachAppends(first, later);
    var after := InsertEach(first, later).0;
    assert after == first + after[|first|..];
    FoundStays(first, j.key.value, after[|first|..]);
  }
}
