/** The inductions over whole runs. */
module Runs {
  import opened Domain
  import opened World
  import opened Invariant
  import StepsCancel
  import StepsEnv
  import StepsOwn

  lemma EmptyOk()
    ensures Inv(Empty) && CancelsOk(Empty) && OwnedBut(Empty.db, {})
  {}

  /** Every state of every run satisfies the invariant. */
  lemma {:induction false} RunKeeps(ws: seq<World>, acts: seq<Action>, i: nat)
    requires IsRun(ws, acts) && i < |ws|
    ensures Inv(ws[i]) && CancelsOk(ws[i])
  {
    hide Inv, CancelsOk, Enabled, Apply;
    if i == 0 {
      EmptyOk();
    } else {
      RunKeeps(ws, acts, i - 1);
      StepsEnv.StepKeeps(ws[i - 1], acts[i - 1]);
      StepsCancel.CancelsStep(ws[i - 1], acts[i - 1]);
    }
  }

  /** The nonces that some void so far gave away although an inclusion had been recorded there. */
  ghost function TornBy(ws: seq<World>, acts: seq<Action>, n: nat): set<Slot>
    requires n <= |acts| <= |ws|
  {
    if n == 0 then {} else TornBy(ws, acts, n - 1) + StepsOwn.TornAt(ws[n - 1], acts[n - 1])
  }

  lemma {:induction false} TornHasACause(ws: seq<World>, acts: seq<Action>, n: nat, s: Slot) returns (i: nat)
    requires n <= |acts| <= |ws| && s in TornBy(ws, acts, n)
    ensures i < n && StepsOwn.Tears(ws[i], acts[i]) && acts[i].tx.slot == s
  {
    if s in TornBy(ws, acts, n - 1) { i := TornHasACause(ws, acts, n - 1, s); } else { i := n - 1; }
  }

  /** In every state of every run, every attempt in play is on a slot of its owner, unless its nonce was torn. */
  lemma {:induction false} OwnedButTorn(ws: seq<World>, acts: seq<Action>, i: nat)
    requires IsRun(ws, acts) && i < |ws|
    ensures OwnedBut(ws[i].db, TornBy(ws, acts, i))
  {
    hide Inv, CancelsOk, Enabled, Apply, OwnedBut;
    if i == 0 {
      EmptyOk();
    } else {
      OwnedButTorn(ws, acts, i - 1);
      RunKeeps(ws, acts, i - 1);
      StepsOwn.OwnStep(ws[i - 1], acts[i - 1], TornBy(ws, acts, i - 1));
    }
  }
}
