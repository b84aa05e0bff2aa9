/** The api keepalive: one loop of ticks, an alarm at a threshold of consecutive failures, and an end at the
    first answer that the gateway is gone. */
module GatewayKeepalive {

  datatype Phase = AwaitingToken | AwaitingResponse | Sleeping | Exited

  datatype Outcome = Alive | Failed | Gone

  /** What the loop does, in order; `Settled` marks the end of a tick. */
  datatype Act = Request | Settled(outcome: Outcome) | OnFailure | OnGatewayGone

  datatype Loop = Loop(phase: Phase, stopped: bool, goneFired: bool, failures: nat, log: seq<Act>)

  const FRESH := Loop(AwaitingToken, false, false, 0, [])

  /** A token may be missing or fail to resolve; a request may fail, or be answered. */
  datatype Event = TokenSettled(ok: bool) | ResponseSettled(outcome: Outcome) | Woke | Unsubscribe

  predicate Enabled(k: Loop, e: Event) {
    match e
    case TokenSettled(_) => k.phase == AwaitingToken
    case ResponseSettled(_) => k.phase == AwaitingResponse
    case Woke => k.phase == Sleeping
    case Unsubscribe => true
  }

  function AfterTick(k: Loop): Loop {
    k.(phase := if k.stopped then Exited else Sleeping)
  }

  function Fail(k: Loop, threshold: int): Loop {
    k.(failures := k.failures + 1,
       log := k.log + [Settled(Failed)] + if k.failures + 1 == threshold then [OnFailure] else [])
  }

  function Settle(k: Loop, outcome: Outcome, threshold: int): Loop {
    match outcome
    case Failed => Fail(k, threshold)
    case Alive => k.(failures := 0, log := k.log + [Settled(Alive)])
    case Gone =>
      k.(stopped := true, goneFired := true,
         log := k.log + [Settled(Gone)] + if k.goneFired then [] else [OnGatewayGone])
  }

  /** Unsubscribing wakes a sleeping loop at once and leaves a tick in flight to settle. */
  function Step(k: Loop, e: Event, threshold: int): Loop
    requires Enabled(k, e)
  {
    match e
    case TokenSettled(ok) =>
      if ok then k.(phase := AwaitingResponse, log := k.log + [Request]) else AfterTick(Fail(k, threshold))
    case ResponseSettled(outcome) => AfterTick(Settle(k, outcome, threshold))
    case Woke => k.(phase := if k.stopped then Exited else AwaitingToken)
    case Unsubscribe => k.(stopped := true, phase := if k.phase == Sleeping then Exited else k.phase)
  }

  function Run(events: seq<Event>, threshold: int): Loop {
    if events == [] then FRESH
    else
      var k, e := Run(events[..|events| - 1], threshold), events[|events| - 1];
      if Enabled(k, e) then Step(k, e, threshold) else k
  }

  // ---- The loop as an object -----------------------------------------------------------------

  class Keepalive {
    const failureThreshold: int
    var phase: Phase
    var stopped: bool
    var goneFired: bool
    var consecutiveFailures: nat
    var log: seq<Act>

    ghost function View(): Loop
      reads this
    {
      Loop(phase, stopped, goneFired, consecutiveFailures, log)
    }

    constructor (failureThreshold: int)
      ensures View() == FRESH && this.failureThreshold == failureThreshold
    {
      this.failureThreshold := failureThreshold;
      phase, stopped, goneFired, consecutiveFailures, log := AwaitingToken, false, false, 0, [];
    }

    method CountFailure()
      modifies this
      ensures View() == Fail(old(View()), failureThreshold)
    {
      consecutiveFailures := consecutiveFailures + 1;
      log := log + [Settled(Failed)];
      if consecutiveFailures == failureThreshold { log := log + [OnFailure]; }
    }

    method LeaveTick()
      modifies this
      ensures View() == AfterTick(old(View()))
    {
      phase := if stopped then Exited else Sleeping;
    }

    method GotToken(ok: bool)
      requires Enabled(View(), TokenSettled(ok))
      modifies this
      ensures View() == Step(old(View()), TokenSettled(ok), failureThreshold)
    {
      if !ok {
        CountFailure();
        LeaveTick();
        return;
      }
      log := log + [Request];
      phase := AwaitingResponse;
    }

    method GotResponse(outcome: Outcome)
      requires Enabled(View(), ResponseSettled(outcome))
      modifies this
      ensures View() == Step(old(View()), ResponseSettled(outcome), failureThreshold)
    {
      match outcome {
        case Gone =>
          log := log + [Settled(Gone)];
          if !goneFired {
            goneFired := true;
            log := log + [OnGatewayGone];
          }
          stopped := true;
        case Failed =>
          CountFailure();
        case Alive =>
          log := log + [Settled(Alive)];
          consecutiveFailures := 0;
      }
      LeaveTick();
    }

    method WakeUp()
      requires Enabled(View(), Woke)
      modifies this
      ensures View() == Step(old(View()), Woke, failureThreshold)
    {
      phase := if stopped then Exited else AwaitingToken;
    }

    method Stop()
      modifies this
      ensures View() == Step(old(View()), Unsubscribe, failureThreshold)
    {
      stopped := true;
      if phase == Sleeping { phase := Exited; }
    }
  }

  // ---- Histories -----------------------------------------------------------------------------

  /** The outcomes of the ticks that settled, in order. */
  function History(log: seq<Act>): seq<Outcome> {
    if log == [] then []
    else
      History(log[..|log| - 1])
      + if log[|log| - 1].Settled? then [log[|log| - 1].outcome] else []
  }

  function Count(log: seq<Act>, a: Act): nat {
    if log == [] then 0 else Count(log[..|log| - 1], a) + if log[|log| - 1] == a then 1 else 0
  }

  /** The lengths of the maximal runs of failed ticks, first to last; the last one may be 0 and may still
      grow. */
  function FailureRuns(history: seq<Outcome>): (lengths: seq<nat>)
    ensures lengths != []
  {
    if history == [] then [0]
    else
      var runs := FailureRuns(history[..|history| - 1]);
      if history[|history| - 1] == Failed then runs[|runs| - 1 := runs[|runs| - 1] + 1] else runs + [0]
  }

  function Reaching(lengths: seq<nat>, threshold: int): nat {
    if lengths == [] then 0
    else Reaching(lengths[..|lengths| - 1], threshold) + if lengths[|lengths| - 1] >= threshold then 1 else 0
  }

  // ---- Counting alarms -----------------------------------------------------------------------

  lemma Logged(log: seq<Act>, a: Act)
    ensures History(log + [a]) == if a.Settled? then History(log) + [a.outcome] else History(log)
    ensures Count(log + [a], OnFailure) == Count(log, OnFailure) + if a == OnFailure then 1 else 0
    ensures Count(log + [a], Request) == Count(log, Request) + if a == Request then 1 else 0
  {
    assert (log + [a])[..|log|] == log;
    assert History(log) + [] == History(log);
  }

  lemma RunsAppended(history: seq<Outcome>, o: Outcome, threshold: int)
    requires threshold >= 1
    ensures var runs, more := FailureRuns(history), FailureRuns(history + [o]);
      && more[|more| - 1] == (if o == Failed then runs[|runs| - 1] + 1 else 0)
      && Reaching(more, threshold)
         == Reaching(runs, threshold) + if o == Failed && runs[|runs| - 1] + 1 == threshold then 1 else 0
  {
    var runs, more := FailureRuns(history), FailureRuns(history + [o]);
    assert (history + [o])[..|history|] == history;
    if o == Failed {
      assert more[..|more| - 1] == runs[..|runs| - 1];
    } else {
      assert more[..|more| - 1] == runs;
    }
  }

  ghost predicate AlarmsMatch(k: Loop, threshold: int) {
    var runs := FailureRuns(History(k.log));
    && (threshold >= 1 ==> Count(k.log, OnFailure) == Reaching(runs, threshold))
    && (threshold < 1 ==> Count(k.log, OnFailure) == 0)
    && (k.goneFired || k.failures == runs[|runs| - 1])
  }

  /** What settling a tick adds to the history and to the alarms. */
  lemma SettleLog(k: Loop, outcome: Outcome, threshold: int)
    ensures var log := Settle(k, outcome, threshold).log;
      && History(log) == History(k.log) + [outcome]
      && Count(log, OnFailure)
         == Count(k.log, OnFailure) + (if outcome == Failed && k.failures + 1 == threshold then 1 else 0)
      && Count(log, Request) == Count(k.log, Request)
  {
    var one := k.log + [Settled(outcome)];
    Logged(k.log, Settled(outcome));
    assert one + [] == one;
    match outcome
    case Failed => Logged(one, OnFailure);
    case Gone => Logged(one, OnGatewayGone);
    case Alive =>
  }

  lemma SettleMatches(k: Loop, outcome: Outcome, threshold: int)
    requires AlarmsMatch(k, threshold) && !k.goneFired
    ensures AlarmsMatch(Settle(k, outcome, threshold), threshold)
  {
    SettleLog(k, outcome, threshold);
    RunsAppended(History(k.log), outcome, if threshold >= 1 then threshold else 1);
  }

  lemma StepMatches(k: Loop, e: Event, threshold: int)
    requires AlarmsMatch(k, threshold) && Enabled(k, e) && (k.goneFired ==> k.phase == Exited)
    ensures AlarmsMatch(Step(k, e, threshold), threshold)
  {
    match e
    case TokenSettled(ok) =>
      if ok { Logged(k.log, Request); } else { SettleMatches(k, Failed, threshold); }
    case ResponseSettled(outcome) => SettleMatches(k, outcome, threshold);
    case _ =>
  }

  /** The keepalive's alarm goes off once for every maximal run of failed ticks that reaches the threshold,
      however the loop is stopped meanwhile; a threshold below one never goes off. */
  lemma {:induction false} AlarmsCountRuns(events: seq<Event>, threshold: int)
    ensures AlarmsMatch(Run(events, threshold), threshold)
  {
    if events != [] {
      var init := events[..|events| - 1];
      AlarmsCountRuns(init, threshold);
      GoneEnds(init, threshold);
      if Enabled(Run(init, threshold), events[|events| - 1]) {
        StepMatches(Run(init, threshold), events[|events| - 1], threshold);
      }
    }
  }

  // ---- The end -------------------------------------------------------------------------------

  ghost predicate NothingAfterGone(log: seq<Act>) {
    forall i | 0 <= i < |log| && log[i] == Settled(Gone) :: i == |log| - 2 && log[|log| - 1] == OnGatewayGone
  }

  ghost predicate GoneOk(k: Loop) {
    && (k.goneFired <==> Settled(Gone) in k.log)
    && (k.goneFired <==> OnGatewayGone in k.log)
    && (k.goneFired ==> k.phase == Exited && k.stopped)
    && NothingAfterGone(k.log)
    && (forall i | 0 <= i < |k.log| && k.log[i] == OnGatewayGone :: i == |k.log| - 1)
  }

  lemma GoneStep(k: Loop, e: Event, threshold: int)
    requires GoneOk(k) && Enabled(k, e)
    ensures GoneOk(Step(k, e, threshold))
  {
    var t := Step(k, e, threshold);
    if k.goneFired {
      assert t.log == k.log;
    } else if e == ResponseSettled(Gone) {
      assert t.log == k.log + [Settled(Gone), OnGatewayGone];
    } else {
      assert forall i | 0 <= i < |t.log| :: t.log[i] != Settled(Gone) && t.log[i] != OnGatewayGone;
    }
  }

  /** The host hears that the gateway is gone at most once, exactly when some tick was answered so; it is the
      last thing the loop ever does: no request and no alarm follows. */
  lemma {:induction false} GoneEnds(events: seq<Event>, threshold: int)
    ensures GoneOk(Run(events, threshold))
  {
    if events != [] {
      var k, e := Run(events[..|events| - 1], threshold), events[|events| - 1];
      GoneEnds(events[..|events| - 1], threshold);
      if Enabled(k, e) { GoneStep(k, e, threshold); }
    }
  }

  /** After an unsubscribe at most one more request is sent: by a tick that was waiting for its token. */
  lemma {:induction false} StopSendsAtMostOne(events: seq<Event>, more: seq<Event>, threshold: int)
    requires Run(events, threshold).stopped
    ensures var k, t := Run(events, threshold), Run(events + more, threshold);
      && t.stopped
      && Count(t.log, Request) + (if t.phase == AwaitingToken then 1 else 0)
         <= Count(k.log, Request) + if k.phase == AwaitingToken then 1 else 0
  {
    if more == [] {
      assert events + more == events;
    } else {
      var n := |more| - 1;
      StopSendsAtMostOne(events, more[..n], threshold);
      var before := events + more[..n];
      assert (events + more)[..|events + more| - 1] == before && (events + more)[|events + more| - 1] == more[n];
      var k := Run(before, threshold);
      if Enabled(k, more[n]) { StopStep(k, more[n], threshold); }
    }
  }

  lemma StopStep(k: Loop, e: Event, threshold: int)
    requires Enabled(k, e) && k.stopped
    ensures var t := Step(k, e, threshold);
      && t.stopped
      && Count(t.log, Request) + (if t.phase == AwaitingToken then 1 else 0)
         <= Count(k.log, Request) + if k.phase == AwaitingToken then 1 else 0
  {
    Logged(k.log, Request);
    match e
    case TokenSettled(ok) => SettleSends(k, Failed, threshold);
    case ResponseSettled(outcome) => SettleSends(k, outcome, threshold);
    case _ =>
  }

  lemma SettleSends(k: Loop, outcome: Outcome, threshold: int)
    ensures Count(Settle(k, outcome, threshold).log, Request) == Count(k.log, Request)
    ensures k.stopped ==> Settle(k, outcome, threshold).stopped
  {
    SettleLog(k, outcome, threshold);
  }

  // ---- Going on ------------------------------------------------------------------------------

  lemma RunExtends(events: seq<Event>, e: Event, threshold: int)
    ensures var k := Run(events, threshold);
      Run(events + [e], threshold) == if Enabled(k, e) then Step(k, e, threshold) else k
  {
    assert (events + [e])[..|events|] == events;
  }

  /** How a tick may go while the gateway is there: without a token it fails and sends nothing. */
  datatype Tick = NoToken | Answer(alive: bool)

  function TickEvents(tick: Tick): seq<Event> {
    match tick
    case NoToken => [TokenSettled(false), Woke]
    case Answer(alive) => [TokenSettled(true), ResponseSettled(if alive then Alive else Failed), Woke]
  }

  function TicksEvents(ticks: seq<Tick>): seq<Event> {
    if ticks == [] then [] else TicksEvents(ticks[..|ticks| - 1]) + TickEvents(ticks[|ticks| - 1])
  }

  /** How the ticks went. */
  function Outcomes(ticks: seq<Tick>): seq<Outcome> {
    seq(|ticks|, i requires 0 <= i < |ticks| => if ticks[i].Answer? && ticks[i].alive then Alive else Failed)
  }

  function Answered(ticks: seq<Tick>): nat {
    if ticks == [] then 0 else Answered(ticks[..|ticks| - 1]) + if ticks[|ticks| - 1].Answer? then 1 else 0
  }

  /** From one state at a token to another: how the ticks between went, and how many requests they sent. */
  ghost predicate Ticked(k: Loop, t: Loop, outcomes: seq<Outcome>, sent: nat) {
    && t.phase == AwaitingToken && !t.stopped && History(t.log) == History(k.log) + outcomes
    && Count(t.log, Request) == Count(k.log, Request) + sent
  }

  /** One tick, settled and slept out. */
  lemma TickGoesOn(events: seq<Event>, tick: Tick, threshold: int)
    requires var k := Run(events, threshold); k.phase == AwaitingToken && !k.stopped
    ensures Ticked(Run(events, threshold), Run(events + TickEvents(tick), threshold),
                   [if tick.Answer? && tick.alive then Alive else Failed], if tick.Answer? then 1 else 0)
  {
    var k := Run(events, threshold);
    match tick
    case NoToken =>
      RunExtends(events, TokenSettled(false), threshold);
      RunExtends(events + [TokenSettled(false)], Woke, threshold);
      assert events + [TokenSettled(false)] + [Woke] == events + TickEvents(tick);
      SettleLog(k, Failed, threshold);
    case Answer(alive) =>
      var answered := ResponseSettled(if alive then Alive else Failed);
      var sent := events + [TokenSettled(true)];
      RunExtends(events, TokenSettled(true), threshold);
      RunExtends(sent, answered, threshold);
      RunExtends(sent + [answered], Woke, threshold);
      assert sent + [answered] + [Woke] == events + TickEvents(tick);
      Logged(k.log, Request);
      SettleLog(Run(sent, threshold), answered.outcome, threshold);
  }

  lemma TickedTwice(k: Loop, m: Loop, t: Loop, a: seq<Outcome>, b: seq<Outcome>, sent: nat, more: nat)
    requires Ticked(k, m, a, sent) && Ticked(m, t, b, more)
    ensures Ticked(k, t, a + b, sent + more)
  {
    assert History(k.log) + a + b == History(k.log) + (a + b);
  }

  /** A loop nobody stops keeps ticking, however its ticks go: each tick is settled once, in order, and each that gets
      a token sends one request. */
  lemma {:induction false} KeepsTicking(events: seq<Event>, ticks: seq<Tick>, threshold: int)
    requires var k := Run(events, threshold); k.phase == AwaitingToken && !k.stopped
    ensures Ticked(Run(events, threshold), Run(events + TicksEvents(ticks), threshold), Outcomes(ticks), Answered(ticks))
  {
    if ticks == [] {
      assert events + [] == events;
      assert History(Run(events, threshold).log) + [] == History(Run(events, threshold).log);
    } else {
      var init, last := ticks[..|ticks| - 1], ticks[|ticks| - 1];
      var before := events + TicksEvents(init);
      KeepsTicking(events, init, threshold);
      TickGoesOn(before, last, threshold);
      assert events + TicksEvents(ticks) == before + TickEvents(last);
      var one := [if last.Answer? && last.alive then Alive else Failed];
      assert Outcomes(ticks) == Outcomes(init) + one;
      TickedTwice(Run(events, threshold), Run(before, threshold), Run(before + TickEvents(last), threshold),
                  Outcomes(init), one, Answered(init), if last.Answer? then 1 else 0);
    }
  }

  /** While nobody has stopped it a loop is at its token, at its request or asleep; asleep it is never stopped. */
  lemma {:induction false} PhaseOk(events: seq<Event>, threshold: int)
    ensures var k := Run(events, threshold);
      (!k.stopped ==> k.phase != Exited) && (k.phase == Sleeping ==> !k.stopped)
  {
    if events != [] { PhaseOk(events[..|events| - 1], threshold); }
  }

  /** A stopped loop is over once the tick in flight, if any, has its token and its answer. */
  lemma StoppedExits(events: seq<Event>, token: bool, outcome: Outcome, threshold: int)
    requires Run(events, threshold).stopped
    ensures Run(events + [TokenSettled(token)] + [ResponseSettled(outcome)], threshold).phase == Exited
  {
    PhaseOk(events, threshold);
    RunExtends(events, TokenSettled(token), threshold);
    RunExtends(events + [TokenSettled(token)], ResponseSettled(outcome), threshold);
  }
}
