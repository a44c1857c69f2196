/** The reconnect loop of an MQTT client: its waits, and what closing the stop channel still lets through. */
module Reconnect {

  const MAX_BACKOFF: nat := 30

  function Pow2(n: nat): nat {
    if n == 0 then 1 else 2 * Pow2(n - 1)
  }

  function Min(a: nat, b: nat): nat { if a <= b then a else b }

  /** Seconds waited before attempt n, counting from 0. */
  function WaitBefore(n: nat): nat {
    Min(Pow2(n), MAX_BACKOFF)
  }

  function TotalWait(n: nat): nat {
    if n == 0 then WaitBefore(0) else TotalWait(n - 1) + WaitBefore(n)
  }

  lemma {:induction false} Pow2Grows(n: nat)
    requires n >= 5
    ensures Pow2(n) >= 32
  {
    if n > 5 {
      Pow2Grows(n - 1);
    } else {
      assert Pow2(5) == 2 * Pow2(4) == 4 * Pow2(3) == 8 * Pow2(2);
    }
  }

  lemma {:induction false} TotalWaitClosed(n: nat)
    ensures n <= 4 ==> TotalWait(n) == Pow2(n + 1) - 1
    ensures n >= 4 ==> TotalWait(n) == 31 + 30 * (n - 4)
  {
    if n >= 5 {
      TotalWaitClosed(n - 1);
      Pow2Grows(n);
    } else if n > 0 {
      TotalWaitClosed(n - 1);
      assert Pow2(4) == 2 * Pow2(3) == 4 * Pow2(2) == 8 * Pow2(1) == 16;
      assert Pow2(n) <= 16;
    }
  }

  /** Doubling, then capping: the next wait follows from the last one alone. */
  lemma NextWait(n: nat)
    ensures WaitBefore(n + 1) == Min(2 * WaitBefore(n), MAX_BACKOFF)
    ensures 2 * WaitBefore(n) <= 60
  {
  }

  // ---- the loop against its environment ----

  /** What the environment does with one turn of the loop. */
  datatype Turn = StopWins | AttemptFails | AttemptSucceeds

  /** Turns the loop takes: up to and including the first one that ends it. */
  function Taken(env: seq<Turn>): (n: nat)
    ensures n <= |env|
  {
    if env == [] then 0 else if env[0] == AttemptFails then 1 + Taken(env[1..]) else 1
  }

  lemma {:induction false} TakenCut(env: seq<Turn>, i: nat)
    requires i < |env| && forall j :: 0 <= j < i ==> env[j] == AttemptFails
    ensures Taken(env) >= i + 1
    ensures env[i] != AttemptFails || i + 1 == |env| ==> Taken(env) == i + 1
  {
    if i > 0 {
      TakenCut(env[1..], i - 1);
    } else if env[0] == AttemptFails && |env| == 1 {
      assert env[1..] == [];
    }
  }

  /** The loop of reconnect: select on stop and timer, attempt, double, cap. */
  method RunLoop(env: seq<Turn>) returns (waits: seq<nat>, connected: bool)
    ensures |waits| == Taken(env)
    ensures forall i :: 0 <= i < |waits| ==> waits[i] == WaitBefore(i)
    ensures connected <==> waits != [] && env[|waits| - 1] == AttemptSucceeds
    ensures |waits| <= |env| && forall i :: 0 <= i < |waits| - 1 ==> env[i] == AttemptFails
    ensures |waits| < |env| ==> waits != [] && env[|waits| - 1] != AttemptFails
  {
    var backoff := 1;
    waits, connected := [], false;
    var i := 0;
    while i < |env|
      invariant 0 <= i <= |env| && |waits| == i && !connected
      invariant backoff == WaitBefore(i)
      invariant forall j :: 0 <= j < i ==> env[j] == AttemptFails && waits[j] == WaitBefore(j)
    {
      TakenCut(env, i);
      waits := waits + [backoff];
      if env[i] == StopWins {
        return;
      }
      if env[i] == AttemptSucceeds {
        connected := true;
        return;
      }
      NextWait(i);
      backoff := backoff * 2;
      if backoff > MAX_BACKOFF {
        backoff := MAX_BACKOFF;
      }
      i := i + 1;
    }
    if env != [] {
      TakenCut(env, |env| - 1);
    }
  }

  // ---- the loop against a concurrent Disconnect ----

  datatype Place = AtSelect | InSelect | TimerChosen | Attempting | Left

  /**
    late: attempts started after the stop channel was closed. overslept: selects entered with the channel
    closed whose timer had fired already, its whole wait gone by before the select was reached.
   */
  datatype Loop = Loop(place: Place, stopClosed: bool, attempts: nat, late: nat, overslept: nat)

  /**
    One step. A select with both cases ready takes either. One entered with the channel closed can take
    its timer only if that has fired already; one the channel is closed under can be at it still.
   */
  predicate LoopStep(l: Loop, m: Loop) {
    || (!l.stopClosed && m == l.(stopClosed := true))
    || (l.place.AtSelect? && m == l.(place := if l.stopClosed then Left else InSelect))
    || (l.place.AtSelect? && l.stopClosed && m == l.(place := InSelect, overslept := l.overslept + 1))
    || (l.place.InSelect? && m == l.(place := TimerChosen))
    || (l.place.InSelect? && l.stopClosed && m == l.(place := Left))
    || (l.place.TimerChosen?
        && m == l.(place := Attempting, attempts := l.attempts + 1,
                   late := if l.stopClosed then l.late + 1 else l.late))
    || (l.place.Attempting? && (m == l.(place := AtSelect) || m == l.(place := Left)))
  }

  /** One for a select or a chosen timer that can still start an attempt. */
  function MayStillStart(l: Loop): nat {
    if l.place.InSelect? || l.place.TimerChosen? then 1 else 0
  }

  predicate LoopInv(l: Loop, startedClosed: bool) {
    && (startedClosed ==> l.stopClosed)
    && (if l.stopClosed then l.late + MayStillStart(l) <= l.overslept + (if startedClosed then 0 else 1)
        else l.late == 0 && l.overslept == 0)
  }

  predicate IsLoopRun(run: seq<Loop>, startedClosed: bool) {
    && run != [] && run[0] == Loop(AtSelect, startedClosed, 0, 0, 0)
    && forall i :: 0 <= i < |run| - 1 ==> LoopStep(run[i], run[i + 1])
  }

  lemma {:induction false} LoopRunHolds(run: seq<Loop>, startedClosed: bool)
    requires IsLoopRun(run, startedClosed)
    ensures LoopInv(run[|run| - 1], startedClosed)
  {
    if |run| > 1 {
      var n := |run| - 1;
      LoopRunHolds(run[..n], startedClosed);
      assert LoopStep(run[n - 1], run[n]);
    }
  }

  /**
    In every run the attempts started after the stop channel is closed are at most the overslept selects,
    and one more when the channel was open at the start: with none overslept at most one, and none at
    all in a loop that starts with the channel closed.
   */
  lemma AtMostOneLateAttempt(run: seq<Loop>, startedClosed: bool)
    requires IsLoopRun(run, startedClosed)
    ensures run[|run| - 1].late <= run[|run| - 1].overslept + if startedClosed then 0 else 1
  {
    LoopRunHolds(run, startedClosed);
  }

  /** The one late attempt does happen with no select overslept. */
  lemma LateAttemptHappens() returns (run: seq<Loop>)
    ensures IsLoopRun(run, false) && run[|run| - 1] == Loop(Attempting, true, 1, 1, 0)
  {
    run := [Loop(AtSelect, false, 0, 0, 0), Loop(InSelect, false, 0, 0, 0), Loop(TimerChosen, false, 0, 0, 0),
            Loop(TimerChosen, true, 0, 0, 0), Loop(Attempting, true, 1, 1, 0)];
  }

  lemma {:induction false} OversleepRun(n: nat) returns (run: seq<Loop>)
    ensures IsLoopRun(run, true) && run[|run| - 1] == Loop(AtSelect, true, n, n, n)
  {
    if n == 0 {
      run := [Loop(AtSelect, true, 0, 0, 0)];
    } else {
      var before := OversleepRun(n - 1);
      run := before + OversleptTurn(n - 1, n - 1);
    }
  }

  /** A select overslept, the attempt it starts, and its failure. */
  function OversleptTurn(late: nat, overslept: nat): seq<Loop> {
    [Loop(InSelect, true, late, late, overslept + 1), Loop(TimerChosen, true, late, late, overslept + 1),
     Loop(Attempting, true, late + 1, late + 1, overslept + 1), Loop(AtSelect, true, late + 1, late + 1, overslept + 1)]
  }

  lemma {:induction false} OpenOversleepRun(n: nat) returns (run: seq<Loop>)
    ensures IsLoopRun(run, false) && run[|run| - 1] == Loop(AtSelect, true, n + 1, n + 1, n)
  {
    if n == 0 {
      run := LateAttemptHappens();
      run := run + [Loop(AtSelect, true, 1, 1, 0)];
    } else {
      var before := OpenOversleepRun(n - 1);
      run := before + OversleptTurn(n, n - 1);
    }
  }

  /** The bound is met for every number of overslept selects, from a closed channel and from an open one. */
  lemma OversleptAttemptsHappen(n: nat, startedClosed: bool) returns (run: seq<Loop>)
    ensures IsLoopRun(run, startedClosed) && run[|run| - 1].overslept == n
    ensures run[|run| - 1].late == n + if startedClosed then 0 else 1
  {
    if startedClosed {
      run := OversleepRun(n);
    } else {
      run := OpenOversleepRun(n);
    }
  }
}
