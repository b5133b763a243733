/** The credit meter's ring: provider credits per minute over the last hour. */
module Credits {

  const WINDOW: nat := 60

  /** A successful call. */
  datatype Call = Call(minute: nat, credits: nat)

  predicate InWindow(c: Call, now: nat) { now - WINDOW < c.minute <= now }

  /** Credits of the last hour, straight from the full history. */
  function HourOf(log: seq<Call>, now: nat): nat {
    if log == [] then 0
    else
      var c := log[|log| - 1];
      HourOf(log[..|log| - 1], now) + if InWindow(c, now) then c.credits else 0
  }

  /** The part of the last hour that falls on ring position `j`. */
  function SlotOf(log: seq<Call>, now: nat, j: nat): nat {
    if log == [] then 0
    else
      var c := log[|log| - 1];
      SlotOf(log[..|log| - 1], now, j) + if InWindow(c, now) && c.minute % WINDOW == j then c.credits else 0
  }

  function Sum(s: seq<nat>): nat {
    if s == [] then 0 else Sum(s[..|s| - 1]) + s[|s| - 1]
  }

  function Slots(log: seq<Call>, now: nat, n: nat): seq<nat> {
    seq(n, j requires 0 <= j < n => SlotOf(log, now, j))
  }

  lemma {:induction false} SlotsGrow(log: seq<Call>, now: nat, n: nat)
    requires log != []
    ensures var c := log[|log| - 1];
            Sum(Slots(log, now, n)) == Sum(Slots(log[..|log| - 1], now, n)) + if InWindow(c, now) && c.minute % WINDOW < n then c.credits else 0
  {
    if n > 0 {
      SlotsGrow(log, now, n - 1);
      assert Slots(log, now, n)[..n - 1] == Slots(log, now, n - 1);
      assert Slots(log[..|log| - 1], now, n)[..n - 1] == Slots(log[..|log| - 1], now, n - 1);
    }
  }

  lemma {:induction false} EmptySlots(now: nat, n: nat)
    ensures Sum(Slots([], now, n)) == 0
  {
    if n > 0 {
      EmptySlots(now, n - 1);
      assert Slots([], now, n)[..n - 1] == Slots([], now, n - 1);
    }
  }

  /** The ring positions add up to the hour: no call is counted twice or falls between two slots. */
  lemma {:induction false} SlotsAddUp(log: seq<Call>, now: nat)
    ensures Sum(Slots(log, now, WINDOW)) == HourOf(log, now)
  {
    if log == [] {
      EmptySlots(now, WINDOW);
    } else {
      SlotsAddUp(log[..|log| - 1], now);
      SlotsGrow(log, now, WINDOW);
    }
  }

  /** Ring position `j` is passed when the clock moves from minute `from` to `now`. */
  ghost predicate Passed(from: nat, now: nat, j: nat) {
    exists q: nat :: from < q <= now && q <= from + WINDOW && q % WINDOW == j
  }

  lemma SameSlotApart(a: nat, b: nat)
    requires a < b && a % WINDOW == b % WINDOW
    ensures b - a >= WINDOW
  {}

  /** Moving on in time empties exactly the positions passed and leaves the rest as they are. */
  lemma {:induction false} SlotMoves(log: seq<Call>, from: nat, now: nat, j: nat)
    requires from <= now && j < WINDOW && forall c :: c in log ==> c.minute <= from
    ensures SlotOf(log, now, j) == if Passed(from, now, j) then 0 else SlotOf(log, from, j)
  {
    if log != [] {
      var c := log[|log| - 1];
      SlotMoves(log[..|log| - 1], from, now, j);
      if c.minute % WINDOW == j {
        if InWindow(c, from) && c.minute + WINDOW <= now {
          assert (c.minute + WINDOW) % WINDOW == j;
          assert Passed(from, now, j);
        }
        if q: nat :| from < q <= now && q <= from + WINDOW && q % WINDOW == j { SameSlotApart(c.minute, q); }
      }
    }
  }

  class Meter {
    const creditsPerCall: nat
    const minutes: array<nat>
    var currentMinute: nat
    var calls: nat
    var errors: nat
    ghost var log: seq<Call>

    ghost predicate Valid()
      reads this, minutes
    {
      && minutes.Length == WINDOW
      && (forall c :: c in log ==> c.minute <= currentMinute)
      && (forall j :: 0 <= j < WINDOW ==> minutes[j] == SlotOf(log, currentMinute, j))
    }

    constructor (creditsPerCall: nat)
      ensures Valid() && log == [] && currentMinute == 0 && fresh(minutes)
    {
      this.creditsPerCall := creditsPerCall;
      minutes := new nat[WINDOW](_ => 0);
      currentMinute, calls, errors, log := 0, 0, 0, [];
    }

    /** Records a call at `minute` of a clock that never runs backwards; only successes cost credits. */
    method Record(minute: nat, success: bool)
      requires Valid() && currentMinute <= minute
      modifies this, minutes
      ensures Valid()
      ensures log == if success then old(log) + [Call(minute, creditsPerCall)] else old(log)
      ensures success ==> currentMinute == minute && Sum(minutes[..]) == HourOf(log, minute)
      ensures calls == old(calls) + 1 && errors == old(errors) + if success then 0 else 1
    {
      calls := calls + 1;
      if !success {
        errors := errors + 1;
        return;
      }
      if minute != currentMinute { Advance(minute); }
      ghost var before := log;
      log := log + [Call(minute, creditsPerCall)];
      assert log[..|log| - 1] == before;
      minutes[minute % WINDOW] := minutes[minute % WINDOW] + creditsPerCall;
      SlotsAddUp(log, minute);
      assert minutes[..] == Slots(log, minute, WINDOW);
    }

    method Advance(minute: nat)
      requires Valid() && currentMinute < minute
      modifies this`currentMinute, minutes
      ensures Valid() && currentMinute == minute
    {
      var from := currentMinute;
      var gap := if minute - from <= WINDOW then minute - from else WINDOW;
      for i := 1 to gap + 1
        invariant currentMinute == from
        invariant forall j :: 0 <= j < WINDOW ==> minutes[j] == if Passed(from, from + i - 1, j) then 0 else SlotOf(log, from, j)
      {
        var last, upto := from + i - 1, from + i;
        forall j | 0 <= j < WINDOW ensures Passed(from, upto, j) <==> Passed(from, last, j) || j == upto % WINDOW { PassedNext(from, i, j); }
        minutes[(from + i) % WINDOW] := 0;
      }
      forall j | 0 <= j < WINDOW ensures minutes[j] == SlotOf(log, minute, j) {
        assert Passed(from, from + gap, j) <==> Passed(from, minute, j);
        SlotMoves(log, from, minute, j);
      }
      currentMinute := minute;
    }
  }

  lemma PassedNext(from: nat, i: nat, j: nat)
    requires 1 <= i <= WINDOW && j < WINDOW
    ensures Passed(from, from + i, j) <==> Passed(from, from + i - 1, j) || j == (from + i) % WINDOW
  {}
}
