/** The declarative behavior: timer entries, and configured entries compiled to actions. */
module Declarative {
  import opened Wrappers
  import opened Counting
  import Ticker

  datatype SubscribeConfig = SubscribeConfig(topic: string, qos: nat)
  datatype SendConfig = SendConfig(target: string, payload: string, qos: nat, retain: bool)

  datatype Entry = Entry(
    subscribe: Option<SubscribeConfig>, send: Option<SendConfig>, unsubscribe: Option<string>,
    disconnect: bool, interval: int)

  datatype Act =
    | SubscribeAct(target: string, qos: nat)
    | SendAct(target: string, payload: string, qos: nat, retain: bool)
    | UnsubscribeAct(target: string)
    | DisconnectAct

  type Render = string -> Option<string>

  // ---- what an entry compiles to ----

  /**
    The configured stages of an entry, each the act it makes or None when a template does not render:
    at most one of each of the four kinds.
   */
  function Stages(render: Render, e: Entry): seq<Option<Act>> {
    SubscribeStage(render, e) + StagesFromSend(render, e)
  }

  function StagesFromSend(render: Render, e: Entry): seq<Option<Act>> {
    SendStage(render, e) + StagesFromUnsubscribe(render, e)
  }

  function StagesFromUnsubscribe(render: Render, e: Entry): seq<Option<Act>> {
    UnsubscribeStage(render, e) + DisconnectStage(e)
  }

  function SubscribeStage(render: Render, e: Entry): seq<Option<Act>> {
    match e.subscribe
    case None => []
    case Some(cfg) =>
      [match render(cfg.topic) case None => None case Some(topic) => Some(SubscribeAct(topic, cfg.qos))]
  }

  function SendStage(render: Render, e: Entry): seq<Option<Act>> {
    match e.send
    case None => []
    case Some(cfg) =>
      [match (render(cfg.target), render(cfg.payload))
       case (Some(target), Some(payload)) => Some(SendAct(target, payload, cfg.qos, cfg.retain))
       case _ => None]
  }

  function UnsubscribeStage(render: Render, e: Entry): seq<Option<Act>> {
    match e.unsubscribe
    case None => []
    case Some(text) => [match render(text) case None => None case Some(topic) => Some(UnsubscribeAct(topic))]
  }

  function DisconnectStage(e: Entry): seq<Option<Act>> {
    if e.disconnect then [Some(DisconnectAct)] else []
  }

  /** The acts before the first failure. */
  function CutAtFailure(stages: seq<Option<Act>>): seq<Act> {
    if stages == [] || stages[0].None? then [] else [stages[0].value] + CutAtFailure(stages[1..])
  }

  function CompileEntry(render: Render, e: Entry): seq<Act> {
    CutAtFailure(Stages(render, e))
  }

  function Compile(render: Render, es: seq<Entry>): seq<Act> {
    if es == [] then [] else Compile(render, es[..|es| - 1]) + CompileEntry(render, es[|es| - 1])
  }

  lemma CutNext(stage: Option<Act>, rest: seq<Option<Act>>)
    ensures CutAtFailure([stage] + rest) ==
              match stage case None => [] case Some(a) => [a] + CutAtFailure(rest)
  {
    assert ([stage] + rest)[1..] == rest;
  }

  lemma CompileSnoc(render: Render, es: seq<Entry>, e: Entry)
    ensures Compile(render, es + [e]) == Compile(render, es) + CompileEntry(render, e)
  {
    assert (es + [e])[..|es|] == es;
  }

  lemma CompileSingle(render: Render, e: Entry)
    ensures Compile(render, [e]) == CompileEntry(render, e)
  {
    CompileSnoc(render, [], e);
    assert [] + [e] == [e];
  }

  // ---- shape ----

  function Rank(a: Act): nat {
    match a
    case SubscribeAct(_, _) => 0
    case SendAct(_, _, _, _) => 1
    case UnsubscribeAct(_) => 2
    case DisconnectAct => 3
  }

  predicate Ranked(acts: seq<Act>) {
    forall i, j :: 0 <= i < j < |acts| ==> Rank(acts[i]) < Rank(acts[j])
  }

  /** The cut is the longest prefix of stages that all render. */
  lemma {:induction false} CutIsLongestPrefix(stages: seq<Option<Act>>)
    ensures var cut := CutAtFailure(stages);
            && |cut| <= |stages|
            && (forall i :: 0 <= i < |cut| ==> stages[i] == Some(cut[i]))
            && (|cut| < |stages| ==> stages[|cut|].None?)
  {
    if stages != [] && stages[0].Some? {
      CutIsLongestPrefix(stages[1..]);
    }
  }

  /** The kinds the stages are for, from the first one configured on. */
  predicate Ordered(stages: seq<Option<Act>>, from: nat) {
    && (forall i :: 0 <= i < |stages| && stages[i].Some? ==> from <= Rank(stages[i].value))
    && (forall i, j :: 0 <= i < j < |stages| && stages[i].Some? && stages[j].Some? ==>
          Rank(stages[i].value) < Rank(stages[j].value))
  }

  /** The stages of one kind: one or none. */
  predicate OfKind(first: seq<Option<Act>>, rank: nat) {
    |first| <= 1 && forall i :: 0 <= i < |first| && first[i].Some? ==> Rank(first[i].value) == rank
  }

  lemma OrderedAhead(first: seq<Option<Act>>, rest: seq<Option<Act>>, from: nat)
    requires OfKind(first, from) && Ordered(rest, from + 1)
    ensures Ordered(first + rest, from)
  {
  }

  lemma StageKinds(render: Render, e: Entry)
    ensures OfKind(SubscribeStage(render, e), 0) && OfKind(SendStage(render, e), 1)
    ensures OfKind(UnsubscribeStage(render, e), 2) && OfKind(DisconnectStage(e), 3)
  {
  }

  lemma LastStagesOrdered(render: Render, e: Entry)
    ensures Ordered(StagesFromUnsubscribe(render, e), 2) && |StagesFromUnsubscribe(render, e)| <= 2
  {
    StageKinds(render, e);
    OrderedAhead(DisconnectStage(e), [], 3);
    assert DisconnectStage(e) + [] == DisconnectStage(e);
    OrderedAhead(UnsubscribeStage(render, e), DisconnectStage(e), 2);
  }

  lemma StagesOrdered(render: Render, e: Entry)
    ensures Ordered(Stages(render, e), 0) && |Stages(render, e)| <= 4
  {
    StageKinds(render, e);
    LastStagesOrdered(render, e);
    OrderedAhead(SendStage(render, e), StagesFromUnsubscribe(render, e), 1);
    OrderedAhead(SubscribeStage(render, e), StagesFromSend(render, e), 0);
  }

  /** At most one act of each kind, in the order Subscribe, Send, Unsubscribe, Disconnect. */
  lemma EntryShape(render: Render, e: Entry)
    ensures Ranked(CompileEntry(render, e)) && |CompileEntry(render, e)| <= 4
  {
    StagesOrdered(render, e);
    CutIsLongestPrefix(Stages(render, e));
  }

  lemma {:induction false} CompileLength(render: Render, es: seq<Entry>)
    ensures |Compile(render, es)| <= 4 * |es|
  {
    if es != [] {
      CompileLength(render, es[..|es| - 1]);
      EntryShape(render, es[|es| - 1]);
    }
  }

  // ---- content ----

  /** The act is the one this entry is configured for, from the renderings of its own templates. */
  predicate MadeBy(render: Render, e: Entry, a: Act) {
    match a
    case SubscribeAct(target, qos) =>
      e.subscribe.Some? && render(e.subscribe.value.topic) == Some(target) && qos == e.subscribe.value.qos
    case SendAct(target, payload, qos, retain) =>
      && e.send.Some? && render(e.send.value.target) == Some(target) && render(e.send.value.payload) == Some(payload)
      && qos == e.send.value.qos && retain == e.send.value.retain
    case UnsubscribeAct(target) => e.unsubscribe.Some? && render(e.unsubscribe.value) == Some(target)
    case DisconnectAct => e.disconnect
  }

  predicate StagesMade(render: Render, e: Entry, stages: seq<Option<Act>>) {
    forall i :: 0 <= i < |stages| && stages[i].Some? ==> MadeBy(render, e, stages[i].value)
  }

  lemma MadeTogether(render: Render, e: Entry, first: seq<Option<Act>>, rest: seq<Option<Act>>)
    requires StagesMade(render, e, first) && StagesMade(render, e, rest)
    ensures StagesMade(render, e, first + rest)
  {
  }

  lemma EachStageMade(render: Render, e: Entry)
    ensures StagesMade(render, e, SubscribeStage(render, e)) && StagesMade(render, e, SendStage(render, e))
    ensures StagesMade(render, e, UnsubscribeStage(render, e)) && StagesMade(render, e, DisconnectStage(e))
  {
  }

  predicate AllMade(render: Render, e: Entry, acts: seq<Act>) {
    forall i :: 0 <= i < |acts| ==> MadeBy(render, e, acts[i])
  }

  lemma EntryMade(render: Render, e: Entry)
    ensures AllMade(render, e, CompileEntry(render, e))
  {
    EachStageMade(render, e);
    MadeTogether(render, e, UnsubscribeStage(render, e), DisconnectStage(e));
    MadeTogether(render, e, SendStage(render, e), StagesFromUnsubscribe(render, e));
    MadeTogether(render, e, SubscribeStage(render, e), StagesFromSend(render, e));
    CutMade(render, e, Stages(render, e));
  }

  lemma CutMade(render: Render, e: Entry, stages: seq<Option<Act>>)
    requires StagesMade(render, e, stages)
    ensures AllMade(render, e, CutAtFailure(stages))
  {
    var cut := CutAtFailure(stages);
    CutIsLongestPrefix(stages);
    forall i | 0 <= i < |cut| ensures MadeBy(render, e, cut[i]) {
      assert stages[i] == Some(cut[i]);
    }
  }

  lemma MadeAt(render: Render, e: Entry, before: seq<Act>, last: seq<Act>, i: nat)
    requires AllMade(render, e, last) && |before| <= i < |before + last|
    ensures MadeBy(render, e, (before + last)[i])
  {
    assert (before + last)[i] == last[i - |before|];
  }

  /** Every act of a compiled list comes from an entry of the list, with that entry's own renderings. */
  lemma {:induction false} ActsMade(render: Render, es: seq<Entry>, i: nat) returns (k: nat)
    requires i < |Compile(render, es)|
    ensures k < |es| && MadeBy(render, es[k], Compile(render, es)[i])
  {
    var n := |es| - 1;
    var before := Compile(render, es[..n]);
    if i < |before| {
      k := ActsMade(render, es[..n], i);
      assert Compile(render, es)[i] == before[i];
    } else {
      k := n;
      EntryMade(render, es[n]);
      MadeAt(render, es[n], before, CompileEntry(render, es[n]), i);
    }
  }

  predicate SubscribeRenders(render: Render, e: Entry) {
    e.subscribe.Some? ==> render(e.subscribe.value.topic).Some?
  }

  predicate SendRenders(render: Render, e: Entry) {
    e.send.Some? ==> render(e.send.value.target).Some? && render(e.send.value.payload).Some?
  }

  predicate UnsubscribeRenders(render: Render, e: Entry) {
    e.unsubscribe.Some? ==> render(e.unsubscribe.value).Some?
  }

  predicate HasKind(acts: seq<Act>, rank: nat) {
    exists i :: 0 <= i < |acts| && Rank(acts[i]) == rank
  }

  lemma HasKindAhead(a: Act, acts: seq<Act>, rank: nat)
    ensures HasKind([a] + acts, rank) <==> Rank(a) == rank || HasKind(acts, rank)
  {
    var more := [a] + acts;
    if Rank(a) == rank {
      assert Rank(more[0]) == rank;
    } else if i :| 0 <= i < |acts| && Rank(acts[i]) == rank {
      assert Rank(more[i + 1]) == rank;
    }
  }

  /** One more stage in front of the cut. */
  lemma HasKindOfCut(first: seq<Option<Act>>, rest: seq<Option<Act>>, rank: nat, own: nat)
    requires OfKind(first, own)
    ensures HasKind(CutAtFailure(first + rest), rank) <==>
              (first != [] && first[0].Some? && own == rank)
              || ((first == [] || first[0].Some?) && HasKind(CutAtFailure(rest), rank))
  {
    if first == [] {
      assert first + rest == rest;
    } else {
      assert first == [first[0]];
      CutNext(first[0], rest);
      if first[0].Some? {
        HasKindAhead(first[0].value, CutAtFailure(rest), rank);
      }
    }
  }

  /**
    An entry yields an act of a kind exactly when the kind is configured and its templates and those of the
    kinds before it all render; so one whose templates all render yields an act for each configured kind.
   */
  lemma EntryExact(render: Render, e: Entry)
    ensures var acts := CompileEntry(render, e);
            && (HasKind(acts, 0) <==> e.subscribe.Some? && SubscribeRenders(render, e))
            && (HasKind(acts, 1) <==> e.send.Some? && SubscribeRenders(render, e) && SendRenders(render, e))
            && (HasKind(acts, 2) <==> e.unsubscribe.Some? && SubscribeRenders(render, e) && SendRenders(render, e)
                                        && UnsubscribeRenders(render, e))
            && (HasKind(acts, 3) <==> e.disconnect && SubscribeRenders(render, e) && SendRenders(render, e)
                                        && UnsubscribeRenders(render, e))
  {
    forall rank: nat ensures HasKind(CompileEntry(render, e), rank) <==> Yields(render, e, rank) {
      KindYielded(render, e, rank);
    }
  }

  predicate Yields(render: Render, e: Entry, rank: nat) {
    || (rank == 0 && e.subscribe.Some? && SubscribeRenders(render, e))
    || (SubscribeRenders(render, e) && YieldsFromSend(render, e, rank))
  }

  predicate YieldsFromSend(render: Render, e: Entry, rank: nat) {
    || (rank == 1 && e.send.Some? && SendRenders(render, e))
    || (SendRenders(render, e) && UnsubscribeRenders(render, e) && rank == 2 && e.unsubscribe.Some?)
    || (SendRenders(render, e) && UnsubscribeRenders(render, e) && rank == 3 && e.disconnect)
  }

  lemma KindYielded(render: Render, e: Entry, rank: nat)
    ensures HasKind(CompileEntry(render, e), rank) <==> Yields(render, e, rank)
  {
    StageKinds(render, e);
    KindYieldedFromSend(render, e, rank);
    HasKindOfCut(SubscribeStage(render, e), StagesFromSend(render, e), rank, 0);
  }

  lemma KindYieldedFromSend(render: Render, e: Entry, rank: nat)
    ensures HasKind(CutAtFailure(StagesFromSend(render, e)), rank) <==> YieldsFromSend(render, e, rank)
  {
    StageKinds(render, e);
    HasKindOfCut(DisconnectStage(e), [], rank, 3);
    assert DisconnectStage(e) + [] == DisconnectStage(e);
    HasKindOfCut(UnsubscribeStage(render, e), DisconnectStage(e), rank, 2);
    HasKindOfCut(SendStage(render, e), StagesFromUnsubscribe(render, e), rank, 1);
  }

  /** Entries are compiled each by itself, in their order. */
  lemma {:induction false} CompileAppend(render: Render, es: seq<Entry>, more: seq<Entry>)
    ensures Compile(render, es + more) == Compile(render, es) + Compile(render, more)
  {
    if more == [] {
      assert es + more == es;
    } else {
      var n := |more| - 1;
      assert es + more == (es + more[..n]) + [more[n]];
      CompileAppend(render, es, more[..n]);
      CompileSnoc(render, es + more[..n], more[n]);
      Ticker.Regroup(Compile(render, es), Compile(render, more[..n]), CompileEntry(render, more[n]));
    }
  }

  // ---- the loops ----

  datatype TimerAction = TimerAction(entry: Entry, interval: nat)

  function Normalised(e: Entry): TimerAction {
    TimerAction(e, if e.interval <= 0 then 1 else e.interval)
  }

  function Due(timers: seq<TimerAction>, tick: nat): seq<Entry>
    requires PositiveIntervals(timers)
  {
    if timers == [] then []
    else
      Due(timers[..|timers| - 1], tick)
      + if tick % timers[|timers| - 1].interval == 0 then [timers[|timers| - 1].entry] else []
  }

  /** What one more timer entry adds: nothing, or what the call on the entry alone gives. */
  lemma CompileDue(render: Render, timers: seq<TimerAction>, i: nat, tick: nat)
    requires PositiveIntervals(timers) && i < |timers|
    ensures Compile(render, Due(timers[..i + 1], tick)) ==
              Compile(render, Due(timers[..i], tick))
              + if tick % timers[i].interval == 0 then Compile(render, [timers[i].entry]) else []
  {
    assert timers[..i + 1][..i] == timers[..i];
    if tick % timers[i].interval == 0 {
      CompileSingle(render, timers[i].entry);
      CompileSnoc(render, Due(timers[..i], tick), timers[i].entry);
    } else {
      assert Due(timers[..i + 1], tick) == Due(timers[..i], tick);
    }
  }

  ghost predicate Divides(k: nat, tick: nat) {
    exists q: nat :: tick == q * k
  }

  lemma DividesIsRemainder(k: nat, tick: nat)
    requires k > 0
    ensures Divides(k, tick) <==> tick % k == 0
  {
    assert tick == (tick / k) * k + tick % k;
    if q: nat :| tick == q * k {
      Ticker.QuotientIs(tick, k, q, 0);
    }
  }

  /** In order, and exactly those whose interval divides the tick. */
  ghost predicate Picks(timers: seq<TimerAction>, tick: nat, picked: seq<nat>) {
    && (forall j :: 0 <= j < |picked| ==> picked[j] < |timers|)
    && (forall i, j :: 0 <= i < j < |picked| ==> picked[i] < picked[j])
    && (forall k :: 0 <= k < |timers| ==> (k in picked <==> Divides(timers[k].interval, tick)))
  }

  lemma PicksNext(timers: seq<TimerAction>, tick: nat, before: seq<nat>, picked: seq<nat>)
    requires timers != [] && Picks(timers[..|timers| - 1], tick, before)
    requires picked == if Divides(timers[|timers| - 1].interval, tick) then before + [|timers| - 1] else before
    ensures Picks(timers, tick, picked)
  {
    var n := |timers| - 1;
    forall k | 0 <= k < |timers| ensures k in picked <==> Divides(timers[k].interval, tick) {
      if k < n {
        assert timers[..n][k] == timers[k];
        assert k in picked <==> k in before;
      }
    }
  }

  predicate AreEntriesOf(timers: seq<TimerAction>, picked: seq<nat>, es: seq<Entry>) {
    |es| == |picked| && forall j :: 0 <= j < |picked| ==> picked[j] < |timers| && es[j] == timers[picked[j]].entry
  }

  lemma MoreEntries(timers: seq<TimerAction>, picked: seq<nat>, es: seq<Entry>)
    requires timers != [] && AreEntriesOf(timers[..|timers| - 1], picked, es)
    ensures AreEntriesOf(timers, picked, es)
    ensures AreEntriesOf(timers, picked + [|timers| - 1], es + [timers[|timers| - 1].entry])
  {
  }

  /** The due entries are the timer entries whose interval divides the tick, in the order they are configured. */
  lemma {:induction false} DueExactly(timers: seq<TimerAction>, tick: nat) returns (picked: seq<nat>)
    requires PositiveIntervals(timers)
    ensures Picks(timers, tick, picked) && AreEntriesOf(timers, picked, Due(timers, tick))
  {
    picked := [];
    if timers != [] {
      var n := |timers| - 1;
      var before := DueExactly(timers[..n], tick);
      DividesIsRemainder(timers[n].interval, tick);
      MoreEntries(timers, before, Due(timers[..n], tick));
      picked := if tick % timers[n].interval == 0 then before + [n] else before;
      PicksNext(timers, tick, before, picked);
    }
  }

  class DeclarativeBehavior {
    const onTimer: seq<Entry>
    var timerActions: seq<TimerAction>

    ghost predicate Valid()
      reads this
    {
      && |timerActions| == |onTimer|
      && forall i :: 0 <= i < |onTimer| ==>
           && timerActions[i].entry == onTimer[i]
           && timerActions[i].interval == if onTimer[i].interval <= 0 then 1 else onTimer[i].interval
    }

    constructor (onTimer: seq<Entry>)
      ensures this.onTimer == onTimer && Valid()
    {
      this.onTimer := onTimer;
      timerActions := [];
      new;
      InitTimerActions();
    }

    method InitTimerActions()
      requires timerActions == []
      modifies this
      ensures Valid()
    {
      for i := 0 to |onTimer|
        invariant |timerActions| == i
        invariant forall j :: 0 <= j < i ==> timerActions[j] == Normalised(onTimer[j])
      {
        var interval := onTimer[i].interval;
        if interval <= 0 {
          interval := 1;
        }
        timerActions := timerActions + [TimerAction(onTimer[i], interval)];
      }
    }

    /** One turn of the loop; a stage that fails skips the rest of the entry. */
    method CompileNext(action: Entry, render: Render) returns (acts: seq<Act>)
      ensures acts == CompileEntry(render, action)
    {
      acts := [];
      if action.subscribe.Some? {
        var cfg := action.subscribe.value;
        var topic := render(cfg.topic);
        CutNext(Stages(render, action)[0], StagesFromSend(render, action));
        if topic.None? {
          return;
        }
        acts := [SubscribeAct(topic.value, cfg.qos)];
      } else {
        assert Stages(render, action) == StagesFromSend(render, action);
      }
      var rest := CompileRest(action, render);
      acts := acts + rest;
    }

    method CompileRest(action: Entry, render: Render) returns (acts: seq<Act>)
      ensures acts == CutAtFailure(StagesFromSend(render, action))
    {
      acts := [];
      if action.send.Some? {
        var cfg := action.send.value;
        CutNext(StagesFromSend(render, action)[0], StagesFromUnsubscribe(render, action));
        var target := render(cfg.target);
        if target.None? {
          return;
        }
        var payload := render(cfg.payload);
        if payload.None? {
          return;
        }
        acts := [SendAct(target.value, payload.value, cfg.qos, cfg.retain)];
      } else {
        assert StagesFromSend(render, action) == StagesFromUnsubscribe(render, action);
      }
      ghost var last := if action.disconnect then [Some(DisconnectAct)] else [];
      if action.unsubscribe.Some? {
        CutNext(StagesFromUnsubscribe(render, action)[0], last);
        var topic := render(action.unsubscribe.value);
        if topic.None? {
          return;
        }
        acts := acts + [UnsubscribeAct(topic.value)];
      } else {
        assert StagesFromUnsubscribe(render, action) == last;
      }
      if action.disconnect {
        CutNext(Some(DisconnectAct), []);
        assert [Some(DisconnectAct)] + [] == [Some(DisconnectAct)];
        acts := acts + [DisconnectAct];
      }
    }

    method ActionsToCommonActions(actions: seq<Entry>, render: Render) returns (result: seq<Act>)
      ensures result == Compile(render, actions)
    {
      result := [];
      for i := 0 to |actions|
        invariant result == Compile(render, actions[..i])
      {
        assert actions[..i + 1] == actions[..i] + [actions[i]];
        CompileSnoc(render, actions[..i], actions[i]);
        var acts := CompileNext(actions[i], render);
        result := result + acts;
      }
      assert actions[..|actions|] == actions;
    }

    /** One call per due entry gives what one call on all due entries would. */
    method OnTick(tick: nat, render: Render) returns (actions: seq<Act>)
      requires Valid()
      ensures actions == Compile(render, Due(timerActions, tick))
    {
      actions := [];
      for i := 0 to |timerActions|
        invariant actions == Compile(render, Due(timerActions[..i], tick))
      {
        var ta := timerActions[i];
        CompileDue(render, timerActions, i, tick);
        if tick % ta.interval == 0 {
          var one := ActionsToCommonActions([ta.entry], render);
          actions := actions + one;
        }
      }
      assert timerActions[..|timerActions|] == timerActions;
    }
  }

  // ---- how often entries are selected ----

  predicate PositiveIntervals(timers: seq<TimerAction>) {
    forall i :: 0 <= i < |timers| ==> timers[i].interval > 0
  }

  /** Entries selected over a list of ticks. */
  function Selected(timers: seq<TimerAction>, ticks: seq<nat>): nat
    requires PositiveIntervals(timers)
  {
    if ticks == [] then 0 else |Due(timers, ticks[0])| + Selected(timers, ticks[1..])
  }

  /** What the entries owe after n ticks: the sum of n / interval. */
  function Owed(timers: seq<TimerAction>, n: nat): nat
    requires PositiveIntervals(timers)
  {
    if timers == [] then 0 else Owed(timers[..|timers| - 1], n) + n / timers[|timers| - 1].interval
  }

  lemma {:induction false} SelectedOfOneMore(timers: seq<TimerAction>, ticks: seq<nat>)
    requires PositiveIntervals(timers) && timers != []
    ensures Selected(timers, ticks) ==
              Selected(timers[..|timers| - 1], ticks) + Sum(ticks, Ticker.Fires(timers[|timers| - 1].interval))
  {
    if ticks != [] {
      SelectedOfOneMore(timers, ticks[1..]);
    }
  }

  lemma {:induction false} SelectedOfNone(ticks: seq<nat>)
    ensures Selected([], ticks) == 0
  {
    if ticks != [] {
      SelectedOfNone(ticks[1..]);
    }
  }

  /**
    Over the ticks 1 to n, delivered in any order, each entry is selected n / interval
    times, so all of them together as often as the sum of these.
   */
  lemma {:induction false} SelectionsOwed(timers: seq<TimerAction>, ticks: seq<nat>, n: nat)
    requires PositiveIntervals(timers) && multiset(ticks) == multiset(Ticker.UpTo(n))
    ensures Selected(timers, ticks) == Owed(timers, n)
    decreases |timers|
  {
    if timers == [] {
      SelectedOfNone(ticks);
    } else {
      var k := timers[|timers| - 1].interval;
      SelectionsOwed(timers[..|timers| - 1], ticks, n);
      SelectedOfOneMore(timers, ticks);
      SumPermutation(ticks, Ticker.UpTo(n), Ticker.Fires(k));
      Ticker.FiringCount(n, k);
    }
  }

  /** What the entries owe a client over the stretches of ticks it is connected for. */
  function OwedOver(timers: seq<TimerAction>, spans: seq<Ticker.Span>): int
    requires PositiveIntervals(timers)
  {
    if timers == [] then 0
    else OwedOver(timers[..|timers| - 1], spans) + Ticker.FiringsOf(spans, timers[|timers| - 1].interval)
  }

  lemma {:induction false} SelectionsOwedOver(timers: seq<TimerAction>, ticks: seq<nat>, spans: seq<Ticker.Span>)
    requires PositiveIntervals(timers)
    requires forall k: nat :: k > 0 ==> Sum(ticks, Ticker.Fires(k)) == Ticker.FiringsOf(spans, k)
    ensures Selected(timers, ticks) == OwedOver(timers, spans)
    decreases |timers|
  {
    if timers == [] {
      SelectedOfNone(ticks);
    } else {
      SelectionsOwedOver(timers[..|timers| - 1], ticks, spans);
      SelectedOfOneMore(timers, ticks);
    }
  }

  /**
    Main theorem. In every run of the engine's ticks, whenever the client connects and drops, it gets
    once its pending deliveries are done exactly what its entries owe for its connected times.
   */
  lemma ClientGetsOwed(timers: seq<TimerAction>, others: set<string>, es: seq<Ticker.Event>, client: string)
    requires PositiveIntervals(timers) && Ticker.Admissible(Ticker.START.(connected := others), es)
    requires Ticker.AllDelivered(Ticker.After(Ticker.START.(connected := others), es), client)
    ensures var s0 := Ticker.START.(connected := others);
            Selected(timers, Ticker.TicksOf(Ticker.After(s0, es).delivered, client))
              == OwedOver(timers, Ticker.Spans(s0, es, client))
  {
    var s0 := Ticker.START.(connected := others);
    var ticks, spans := Ticker.TicksOf(Ticker.After(s0, es).delivered, client), Ticker.Spans(s0, es, client);
    forall k: nat | k > 0 ensures Sum(ticks, Ticker.Fires(k)) == Ticker.FiringsOf(spans, k) {
      Ticker.FiringsOfClient(others, es, client, k);
    }
    SelectionsOwedOver(timers, ticks, spans);
  }

  /** A client connected before the first tick and never dropped: n / interval for each entry. */
  lemma ConnectedClientGetsOwed(timers: seq<TimerAction>, others: set<string>, es: seq<Ticker.Event>, client: string)
    requires PositiveIntervals(timers) && client in others && Ticker.Stays(es, client)
    requires Ticker.Admissible(Ticker.START.(connected := others), es)
    requires Ticker.AllDelivered(Ticker.After(Ticker.START.(connected := others), es), client)
    ensures var s := Ticker.After(Ticker.START.(connected := others), es);
            Selected(timers, Ticker.TicksOf(s.delivered, client)) == Owed(timers, s.tick)
  {
    var s := Ticker.After(Ticker.START.(connected := others), es);
    Ticker.FiringsOfConnectedClient(others, es, client, 1);
    SelectionsOwed(timers, Ticker.TicksOf(s.delivered, client), s.tick);
  }

  /** What configured entries owe over the spans: a non-positive interval fires at every tick. */
  function OwedByConfig(onTimer: seq<Entry>, spans: seq<Ticker.Span>): int {
    if onTimer == [] then 0
    else
      var last := onTimer[|onTimer| - 1];
      OwedByConfig(onTimer[..|onTimer| - 1], spans)
      + Ticker.FiringsOf(spans, if last.interval >= 1 then last.interval else 1)
  }

  lemma {:induction false} OwedFromConfig(timers: seq<TimerAction>, onTimer: seq<Entry>, spans: seq<Ticker.Span>)
    requires PositiveIntervals(timers) && |timers| == |onTimer|
    requires forall i :: 0 <= i < |timers| ==> timers[i] == Normalised(onTimer[i])
    ensures OwedOver(timers, spans) == OwedByConfig(onTimer, spans)
  {
    if timers != [] {
      OwedFromConfig(timers[..|timers| - 1], onTimer[..|onTimer| - 1], spans);
    }
  }

  /** In every run of the engine's ticks a client gets what the configured entries owe by their intervals. */
  lemma ConfiguredOwed(b: DeclarativeBehavior, others: set<string>, es: seq<Ticker.Event>, client: string)
    requires b.Valid() && Ticker.Admissible(Ticker.START.(connected := others), es)
    requires Ticker.AllDelivered(Ticker.After(Ticker.START.(connected := others), es), client)
    ensures PositiveIntervals(b.timerActions)
    ensures var s0 := Ticker.START.(connected := others);
            Selected(b.timerActions, Ticker.TicksOf(Ticker.After(s0, es).delivered, client))
              == OwedByConfig(b.onTimer, Ticker.Spans(s0, es, client))
  {
    ClientGetsOwed(b.timerActions, others, es, client);
    OwedFromConfig(b.timerActions, b.onTimer, Ticker.Spans(Ticker.START.(connected := others), es, client));
  }
}
