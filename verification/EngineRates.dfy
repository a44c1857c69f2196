/** Rate and cancellation bounds over arbitrary windows of a run. */
module EngineRates {
  import opened Wrappers
  import opened Counting
  import opened EngineModel
  import opened EngineInvariants

  /** One for a worker that holds a grant for this kind and has not begun the action. */
  function HoldsGrant(k: Kind): Shard -> nat {
    (sh: Shard) => if InAction(sh, Granted) && Current(sh).kind == k then 1 else 0
  }

  // ---- every begun action of a limited kind used up one grant ----

  predicate GrantInv(s: State, k: Kind) {
    s.granted[k] == s.begun[k] + Sum(s.shards, HoldsGrant(k))
  }

  function If(b: bool): nat { if b then 1 else 0 }

  lemma GrantOfStep(c: Config, i: nat, sh: Shard, step: Step, canceled: bool, closed: bool, k: Kind)
    requires ValidConfig(c) && ShardInv(c, i, sh, canceled, closed) && Limited(c, k)
    requires StepEnabled(c, sh, step, canceled, closed)
    ensures HoldsGrant(k)(Next(c, sh, step, canceled, closed)) + If(step.Begin? && Current(sh).kind == k)
              == HoldsGrant(k)(sh) + If(step.Grant? && Current(sh).kind == k)
  {
  }

  lemma GrantAfterStep(c: Config, s: State, w: nat, step: Step, k: Kind)
    requires Shaped(c, s) && w < c.workers && ShardInv(c, w, s.shards[w], s.canceled, s.closed)
    requires Limited(c, k) && GrantInv(s, k)
    requires StepEnabled(c, s.shards[w], step, s.canceled, s.closed)
    ensures GrantInv(WorkStep(c, s, w, step), k)
  {
    GrantOfStep(c, w, s.shards[w], step, s.canceled, s.closed, k);
    SumUpdate(s.shards, w, Next(c, s.shards[w], step, s.canceled, s.closed), HoldsGrant(k));
  }

  lemma GrantKept(c: Config, s: State, e: Event, k: Kind)
    requires Shaped(c, s) && ShardsInv(c, s) && Enabled(c, s, e) && Limited(c, k) && GrantInv(s, k)
    ensures GrantInv(Apply(c, s, e), k)
  {
    match e
    case Work(w, step) => GrantAfterStep(c, s, w, step, k);
    case Submit(client, actions) =>
      var i := QueueIndex(c, client.id);
      SumUpdate(s.shards, i, Offer(c, s.shards[i], Batch(client, actions)), HoldsGrant(k));
    case _ =>
  }

  lemma {:induction false} GrantAlongRun(c: Config, s: State, es: seq<Event>, k: Kind)
    requires Inv(c, s) && Admissible(c, s, es) && Limited(c, k) && GrantInv(s, k)
    ensures GrantInv(After(c, s, es), k)
    decreases es
  {
    if es != [] {
      GrantKept(c, s, es[0], k);
      InvKept(c, s, es[0]);
      GrantAlongRun(c, Apply(c, s, es[0]), es[1..], k);
    }
  }

  lemma GrantBalance(c: Config, s: State, k: Kind)
    requires Shaped(c, s) && GrantInv(s, k)
    ensures s.begun[k] <= s.granted[k] <= s.begun[k] + c.workers
  {
    SumBounded(s.shards, HoldsGrant(k));
  }

  lemma InitGrants(c: Config, k: Kind)
    ensures GrantInv(Init(c), k)
  {
    SumOfZeros(EmptyShards(c.workers), HoldsGrant(k));
  }

  lemma GrantsReached(c: Config, s: State, k: Kind)
    requires ValidConfig(c) && Reached(c, s) && Limited(c, k)
    ensures GrantInv(s, k)
  {
    var es := RunBetween(c, Init(c), s);
    InitHolds(c);
    InitGrants(c, k);
    GrantAlongRun(c, Init(c), es, k);
  }

  /**
    The limiter's contract for one window of the run: in a time T it grants at most burst + rate * T.
   */
  predicate LimiterContract(l: Limiter, s: State, s': State, k: Kind) {
    s'.granted[k] as real <= s.granted[k] as real + l.burst as real + l.rate as real * (s'.now - s.now)
  }

  predicate RateHeld(c: Config, l: Limiter, s: State, s': State, k: Kind) {
    s'.begun[k] as real
      <= s.begun[k] as real + l.burst as real + l.rate as real * (s'.now - s.now) + c.workers as real
  }

  lemma RateFromBalance(c: Config, l: Limiter, s: State, s': State, k: Kind)
    requires Shaped(c, s) && GrantInv(s, k) && Shaped(c, s') && GrantInv(s', k)
    requires LimiterContract(l, s, s', k)
    ensures RateHeld(c, l, s, s', k)
  {
    GrantBalance(c, s, k);
    GrantBalance(c, s', k);
  }

  /**
    Main theorem. In any window of any run, the actions of a limited kind that begin executing, over
    all workers, are at most burst + rate * T + workerCount: a grant taken before the window can be
    used inside it, and each worker holds at most one.
   */
  lemma RateBound(c: Config, s: State, window: seq<Event>, k: Kind)
    requires ValidConfig(c) && Reached(c, s) && Limited(c, k) && Admissible(c, s, window)
    requires LimiterContract(LimiterFor(c, k).value, s, After(c, s, window), k)
    ensures RateHeld(c, LimiterFor(c, k).value, s, After(c, s, window), k)
  {
    ReachedHolds(c, s);
    GrantsReached(c, s, k);
    GrantAlongRun(c, s, window, k);
    RateFromBalance(c, LimiterFor(c, k).value, s, After(c, s, window), k);
  }

  /** The limiter the engine was given for a kind: there is none for Unsubscribe. */
  predicate Paces(c: Config, k: Kind, l: Limiter) {
    || (k == Send && c.send == Some(l))
    || (k == Subscribe && c.subscribe == Some(l))
    || (k == Disconnect && c.disconnect == Some(l))
  }

  /** The rate bound against the limiters as configured: sends by the one for sends, and so on. */
  lemma RateBoundOfKind(c: Config, s: State, window: seq<Event>, k: Kind, l: Limiter)
    requires ValidConfig(c) && Reached(c, s) && Admissible(c, s, window) && Paces(c, k, l)
    requires LimiterContract(l, s, After(c, s, window), k)
    ensures RateHeld(c, l, s, After(c, s, window), k)
  {
    RateBound(c, s, window, k);
  }

  lemma {:induction false} BegunGrows(c: Config, s: State, es: seq<Event>, k: Kind)
    requires Admissible(c, s, es)
    ensures s.begun[k] <= After(c, s, es).begun[k]
    decreases es
  {
    if es != [] {
      BegunGrows(c, Apply(c, s, es[0]), es[1..], k);
    }
  }

  // ---- a token bucket meets the contract ----

  function Refill(l: Limiter, level: real, dt: real): real {
    var full := level + l.rate as real * dt;
    if full <= l.burst as real then full else l.burst as real
  }

  predicate TakesToken(s: State, e: Event, k: Kind) {
    e.Work? && e.step.Grant? && e.w < |s.shards| && InAction(s.shards[e.w], Waiting(true))
    && Current(s.shards[e.w]).kind == k
  }

  /** The window is paced by a bucket of this level: it refills with time, and a grant takes a token. */
  predicate Paced(c: Config, l: Limiter, level: real, s: State, es: seq<Event>, k: Kind)
    requires Admissible(c, s, es)
    decreases es
  {
    es == [] ||
    var next := LevelAfter(l, level, s, es[0], k);
    next >= 0.0 && Paced(c, l, next, Apply(c, s, es[0]), es[1..], k)
  }

  /** The bucket's level after an event. */
  function LevelAfter(l: Limiter, level: real, s: State, e: Event, k: Kind): real {
    if e.Elapse? then Refill(l, level, e.dt) else if TakesToken(s, e, k) then level - 1.0 else level
  }

  /** Grants up to s', plus what is left in the bucket, stay within the level at s plus the refill. */
  predicate GrantsWithin(l: Limiter, s: State, level: real, s': State, left: real, k: Kind) {
    s'.granted[k] as real + left <= s.granted[k] as real + level + l.rate as real * (s'.now - s.now)
  }

  lemma GrantsChain(l: Limiter, s: State, v: real, s1: State, v1: real, s2: State, v2: real, k: Kind)
    requires GrantsWithin(l, s, v, s1, v1, k) && GrantsWithin(l, s1, v1, s2, v2, k)
    ensures GrantsWithin(l, s, v, s2, v2, k)
  {
    Distribute(l.rate as real, s2.now - s1.now, s1.now - s.now);
  }

  lemma GrantsOfNothing(l: Limiter, s: State, level: real, k: Kind)
    requires level >= 0.0
    ensures GrantsWithin(l, s, level, s, 0.0, k)
  {
    var none := s.now - s.now;
    assert none == 0.0 && l.rate as real * none == 0.0;
  }

  lemma Distribute(a: real, b: real, c: real)
    ensures a * b + a * c == a * (b + c)
  {
  }

  lemma {:induction false} BucketBounds(c: Config, l: Limiter, level: real, s: State, es: seq<Event>, k: Kind)
    requires Admissible(c, s, es) && Paced(c, l, level, s, es, k) && level >= 0.0
    ensures GrantsWithin(l, s, level, After(c, s, es), 0.0, k)
    decreases es
  {
    if es != [] {
      var next, s' := LevelAfter(l, level, s, es[0], k), Apply(c, s, es[0]);
      BucketBounds(c, l, next, s', es[1..], k);
      BucketStep(c, l, level, s, es[0], k);
      GrantsChain(l, s, level, s', next, After(c, s', es[1..]), 0.0, k);
    } else {
      GrantsOfNothing(l, s, level, k);
    }
  }

  lemma BucketStep(c: Config, l: Limiter, level: real, s: State, e: Event, k: Kind)
    requires Enabled(c, s, e)
    ensures GrantsWithin(l, s, level, Apply(c, s, e), LevelAfter(l, level, s, e, k), k)
  {
    var s' := Apply(c, s, e);
    if e.Elapse? {
      assert s'.now - s.now == e.dt && s'.granted == s.granted;
    } else {
      GrantedOnce(c, s, e, k);
      var none := s'.now - s.now;
      assert none == 0.0 && l.rate as real * none == 0.0;
    }
  }

  lemma GrantedOnce(c: Config, s: State, e: Event, k: Kind)
    requires Enabled(c, s, e)
    ensures Apply(c, s, e).granted[k] == s.granted[k] + If(TakesToken(s, e, k))
    ensures !e.Elapse? ==> Apply(c, s, e).now == s.now
  {
  }

  /** A bucket that never holds more than its burst meets the limiter's contract in every window. */
  lemma BucketMeetsContract(c: Config, l: Limiter, level: real, s: State, window: seq<Event>, k: Kind)
    requires Admissible(c, s, window) && Paced(c, l, level, s, window, k) && 0.0 <= level <= l.burst as real
    ensures LimiterContract(l, s, After(c, s, window), k)
  {
    BucketBounds(c, l, level, s, window, k);
  }

  /** So behind an ideal token bucket the rate bound holds with nothing assumed about the limiter. */
  lemma PacedRateBound(c: Config, s: State, window: seq<Event>, k: Kind, level: real)
    requires ValidConfig(c) && Reached(c, s) && Limited(c, k) && Admissible(c, s, window)
    requires Paced(c, LimiterFor(c, k).value, level, s, window, k)
    requires 0.0 <= level <= LimiterFor(c, k).value.burst as real
    ensures RateHeld(c, LimiterFor(c, k).value, s, After(c, s, window), k)
  {
    BucketMeetsContract(c, LimiterFor(c, k).value, level, s, window, k);
    RateBound(c, s, window, k);
  }

  // ---- cancellation ----

  /** One for a worker that can still begin an action of a limited kind after the cancellation. */
  function MayStillBegin(c: Config): Shard -> nat {
    (sh: Shard) => if InAction(sh, Granted) || InAction(sh, Waiting(true)) then 1 else 0
  }

  /** How many of the begun actions are of a kind that has a limiter. */
  function LimitedBegun(c: Config, s: State): nat {
    (if c.send.Some? then s.begun[Send] else 0)
    + (if c.subscribe.Some? then s.begun[Subscribe] else 0)
    + (if c.disconnect.Some? then s.begun[Disconnect] else 0)
  }

  function Budget(c: Config, s: State): nat {
    LimitedBegun(c, s) + Sum(s.shards, MayStillBegin(c))
  }

  lemma BudgetOfStep(c: Config, i: nat, sh: Shard, step: Step, closed: bool)
    requires ValidConfig(c) && ShardInv(c, i, sh, true, closed) && StepEnabled(c, sh, step, true, closed)
    ensures MayStillBegin(c)(Next(c, sh, step, true, closed)) + If(step.Begin? && Limited(c, Current(sh).kind))
              <= MayStillBegin(c)(sh)
  {
  }

  lemma LimitedBegunAfter(c: Config, s: State, w: nat, step: Step)
    requires w < |s.shards| && StepEnabled(c, s.shards[w], step, s.canceled, s.closed)
    ensures LimitedBegun(c, WorkStep(c, s, w, step)) ==
              LimitedBegun(c, s) + If(step.Begin? && Limited(c, Current(s.shards[w]).kind))
  {
  }

  lemma BudgetAfterStep(c: Config, s: State, w: nat, step: Step)
    requires Shaped(c, s) && w < c.workers && ShardInv(c, w, s.shards[w], true, s.closed) && s.canceled
    requires StepEnabled(c, s.shards[w], step, s.canceled, s.closed)
    ensures Budget(c, WorkStep(c, s, w, step)) <= Budget(c, s)
  {
    LimitedBegunAfter(c, s, w, step);
    BudgetOfStep(c, w, s.shards[w], step, s.closed);
    SumUpdate(s.shards, w, Next(c, s.shards[w], step, true, s.closed), MayStillBegin(c));
  }

  lemma BudgetKept(c: Config, s: State, e: Event)
    requires Shaped(c, s) && ShardsInv(c, s) && Enabled(c, s, e) && s.canceled
    ensures Budget(c, Apply(c, s, e)) <= Budget(c, s) && Apply(c, s, e).canceled
  {
    match e
    case Work(w, step) => BudgetAfterStep(c, s, w, step);
    case Submit(client, actions) =>
      var i := QueueIndex(c, client.id);
      SumUpdate(s.shards, i, Offer(c, s.shards[i], Batch(client, actions)), MayStillBegin(c));
    case _ =>
  }

  lemma {:induction false} BudgetAlongRun(c: Config, s: State, es: seq<Event>)
    requires Inv(c, s) && Admissible(c, s, es) && s.canceled
    ensures Budget(c, After(c, s, es)) <= Budget(c, s)
    decreases es
  {
    if es != [] {
      BudgetKept(c, s, es[0]);
      InvKept(c, s, es[0]);
      BudgetAlongRun(c, Apply(c, s, es[0]), es[1..]);
    }
  }

  /**
    Main theorem. Once the context is canceled, at most workerCount further actions of limited kinds
    begin executing, whatever happens in the rest of the run.
   */
  lemma CancellationBound(c: Config, s: State, rest: seq<Event>)
    requires ValidConfig(c) && Reached(c, s) && s.canceled && Admissible(c, s, rest)
    ensures LimitedBegun(c, After(c, s, rest)) <= LimitedBegun(c, s) + c.workers
  {
    ReachedHolds(c, s);
    BudgetAlongRun(c, s, rest);
    SumBounded(s.shards, MayStillBegin(c));
  }

  /** The same for each kind by itself: after the cancellation at most workerCount more of a limited kind begin. */
  lemma CancellationOfKind(c: Config, s: State, rest: seq<Event>, k: Kind, l: Limiter)
    requires ValidConfig(c) && Reached(c, s) && s.canceled && Admissible(c, s, rest) && Paces(c, k, l)
    ensures After(c, s, rest).begun[k] <= s.begun[k] + c.workers
  {
    CancellationBound(c, s, rest);
    BegunGrows(c, s, rest, Send);
    BegunGrows(c, s, rest, Subscribe);
    BegunGrows(c, s, rest, Disconnect);
  }

  // ---- what the limiter skips ----

  predicate HasLimiter(c: Config, k: Kind) {
    (k == Send && c.send.Some?) || (k == Subscribe && c.subscribe.Some?) || (k == Disconnect && c.disconnect.Some?)
  }

  /** An action is skipped only after the cancellation, and only when its kind has a limiter. */
  predicate SkipsInv(c: Config, s: State) {
    forall i :: 0 <= i < |s.log| && s.log[i].outcome == Skipped ==>
      s.canceled && HasLimiter(c, s.log[i].action.kind)
  }

  lemma SkipIsPaced(c: Config, i: nat, sh: Shard, canceled: bool, closed: bool)
    requires ValidConfig(c) && ShardInv(c, i, sh, canceled, closed) && StepEnabled(c, sh, Refuse, canceled, closed)
    ensures canceled && HasLimiter(c, Current(sh).kind)
  {
  }

  lemma SkipsAfterStep(c: Config, s: State, w: nat, step: Step)
    requires Shaped(c, s) && w < c.workers && ShardInv(c, w, s.shards[w], s.canceled, s.closed) && SkipsInv(c, s)
    requires StepEnabled(c, s.shards[w], step, s.canceled, s.closed)
    ensures SkipsInv(c, WorkStep(c, s, w, step))
  {
    if step.Refuse? {
      SkipIsPaced(c, w, s.shards[w], s.canceled, s.closed);
    }
  }

  lemma {:induction false} SkipsAlongRun(c: Config, s: State, es: seq<Event>)
    requires Inv(c, s) && Admissible(c, s, es) && SkipsInv(c, s)
    ensures SkipsInv(c, After(c, s, es))
    decreases es
  {
    if es != [] {
      if es[0].Work? {
        SkipsAfterStep(c, s, es[0].w, es[0].step);
      }
      InvKept(c, s, es[0]);
      SkipsAlongRun(c, Apply(c, s, es[0]), es[1..]);
    }
  }

  lemma SkippedOnlyAfterCancel(c: Config, s: State)
    requires ValidConfig(c) && Reached(c, s)
    ensures SkipsInv(c, s)
  {
    var es := RunBetween(c, Init(c), s);
    InitHolds(c);
    NothingSkipped(c, Init(c));
    SkipsAlongRun(c, Init(c), es);
  }

  lemma NothingSkipped(c: Config, s: State)
    requires s.log == []
    ensures SkipsInv(c, s)
  {
  }
}
