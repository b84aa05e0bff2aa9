/** The libp2p registrar: heartbeats on a timer, several possibly in flight, and one reconnect signal after a
    threshold of consecutive failures. */
module GatewayRegistrar {

  datatype Phase = Heartbeating | Reregistering

  datatype Act = Heartbeat | Reregister | Settled(ok: bool) | ReconnectNeeded | SentUnregister

  datatype Registrar = Registrar(
    stopped: bool,
    failures: nat,
    fired: bool,
    inFlight: map<nat, Phase>,
    begun: nat,
    log: seq<Act>)

  const FRESH := Registrar(false, 0, false, map[], 0, [])

  datatype Answer = Ok | NotRegistered | Failed

  datatype Event =
    | Tick
    | Answered(tick: nat, answer: Answer)
    | Reregistered(tick: nat, ok: bool)
    | Unregister

  predicate Enabled(r: Registrar, e: Event) {
    match e
    case Tick => true
    case Answered(t, _) => t in r.inFlight && r.inFlight[t] == Heartbeating
    case Reregistered(t, _) => t in r.inFlight && r.inFlight[t] == Reregistering
    case Unregister => true
  }

  /** A tick comes to an end; only the first breach of the threshold is signalled. */
  function Settle(r: Registrar, t: nat, ok: bool, threshold: int): Registrar {
    var done := r.(inFlight := r.inFlight - {t});
    if ok then done.(failures := 0, log := r.log + [Settled(true)])
    else if r.failures + 1 >= threshold && !r.fired then
      done.(failures := r.failures + 1, fired := true, log := r.log + [Settled(false), ReconnectNeeded])
    else
      done.(failures := r.failures + 1, log := r.log + [Settled(false)])
  }

  function Step(r: Registrar, e: Event, threshold: int): Registrar
    requires Enabled(r, e)
  {
    match e
    case Tick =>
      if r.stopped then r
      else r.(inFlight := r.inFlight[r.begun := Heartbeating], begun := r.begun + 1, log := r.log + [Heartbeat])
    case Answered(t, Ok) => Settle(r, t, true, threshold)
    case Answered(t, Failed) => Settle(r, t, false, threshold)
    case Answered(t, NotRegistered) =>
      r.(inFlight := r.inFlight[t := Reregistering], log := r.log + [Reregister])
    case Reregistered(t, ok) => Settle(r, t, ok, threshold)
    case Unregister => if r.stopped then r else r.(stopped := true, log := r.log + [SentUnregister])
  }

  function Run(events: seq<Event>, threshold: int): Registrar {
    if events == [] then FRESH
    else
      var r, e := Run(events[..|events| - 1], threshold), events[|events| - 1];
      if Enabled(r, e) then Step(r, e, threshold) else r
  }

  // ---- The registrar as an object ------------------------------------------------------------

  class RegisteredGateway {
    const failureThreshold: int
    var stopped: bool
    var consecutiveFailures: nat
    var reconnectFired: bool
    var inFlight: map<nat, Phase>
    var begun: nat
    var log: seq<Act>

    ghost function View(): Registrar
      reads this
    {
      Registrar(stopped, consecutiveFailures, reconnectFired, inFlight, begun, log)
    }

    constructor (failureThreshold: int)
      ensures View() == FRESH && this.failureThreshold == failureThreshold
    {
      this.failureThreshold := failureThreshold;
      stopped, consecutiveFailures, reconnectFired, inFlight, begun, log := false, 0, false, map[], 0, [];
    }

    method OnTick()
      modifies this
      ensures View() == Step(old(View()), Tick, failureThreshold)
    {
      if stopped { return; }
      log := log + [Heartbeat];
      inFlight := inFlight[begun := Heartbeating];
      begun := begun + 1;
    }

    method Complete(t: nat, ok: bool)
      modifies this
      ensures View() == Settle(old(View()), t, ok, failureThreshold)
    {
      inFlight := inFlight - {t};
      log := log + [Settled(ok)];
      if ok {
        consecutiveFailures := 0;
        return;
      }
      consecutiveFailures := consecutiveFailures + 1;
      if consecutiveFailures >= failureThreshold && !reconnectFired {
        reconnectFired := true;
        log := log + [ReconnectNeeded];
      }
    }

    method OnAnswer(t: nat, answer: Answer)
      requires Enabled(View(), Answered(t, answer))
      modifies this
      ensures View() == Step(old(View()), Answered(t, answer), failureThreshold)
    {
      if answer == NotRegistered {
        log := log + [Reregister];
        inFlight := inFlight[t := Reregistering];
      } else {
        Complete(t, answer == Ok);
      }
    }

    method OnReregistered(t: nat, ok: bool)
      requires Enabled(View(), Reregistered(t, ok))
      modifies this
      ensures View() == Step(old(View()), Reregistered(t, ok), failureThreshold)
    {
      Complete(t, ok);
    }

    method DoUnregister()
      modifies this
      ensures View() == Step(old(View()), Unregister, failureThreshold)
    {
      if stopped { return; }
      stopped := true;
      log := log + [SentUnregister];
    }
  }

  // ---- Histories -----------------------------------------------------------------------------

  /** Whether each heartbeat that settled went well, in order of completion. */
  function History(log: seq<Act>): seq<bool> {
    if log == [] then []
    else History(log[..|log| - 1]) + if log[|log| - 1].Settled? then [log[|log| - 1].ok] else []
  }

  function Count(log: seq<Act>, a: Act): nat {
    if log == [] then 0 else Count(log[..|log| - 1], a) + if log[|log| - 1] == a then 1 else 0
  }

  /** `n` failures in a row, ending just before position `end`. */
  ghost predicate StreakEnding(history: seq<bool>, n: nat, end: nat) {
    n <= end <= |history| && forall i | end - n <= i < end :: !history[i]
  }

  ghost predicate HasStreak(history: seq<bool>, n: nat) {
    exists end: nat :: StreakEnding(history, n, end)
  }

  /** A threshold below one is met by the first failure. */
  function Needed(threshold: int): nat { if threshold < 1 then 1 else threshold }

  lemma Appended(log: seq<Act>, a: Act)
    ensures History(log + [a]) == if a.Settled? then History(log) + [a.ok] else History(log)
    ensures forall b :: Count(log + [a], b) == Count(log, b) + if a == b then 1 else 0
  {
    assert (log + [a])[..|log|] == log;
    assert History(log) + [] == History(log);
  }

  lemma StreakAppended(history: seq<bool>, ok: bool, n: nat)
    requires n >= 1
    ensures HasStreak(history + [ok], n) <==> HasStreak(history, n) || StreakEnding(history + [ok], n, |history| + 1)
  {
    var more := history + [ok];
    if HasStreak(history, n) {
      var end: nat :| StreakEnding(history, n, end);
      assert StreakEnding(more, n, end);
    }
    if HasStreak(more, n) && !StreakEnding(more, n, |history| + 1) {
      var end: nat :| StreakEnding(more, n, end);
      assert forall i | 0 <= i < |history| :: more[i] == history[i];
      assert StreakEnding(history, n, end);
    }
  }

  /** The counter is the length of the run of failures the history ends in. */
  ghost predicate Trailing(history: seq<bool>, failures: nat) {
    StreakEnding(history, failures, |history|) && (failures < |history| ==> history[|history| - 1 - failures])
  }

  lemma TrailingLongest(history: seq<bool>, failures: nat, n: nat)
    requires Trailing(history, failures)
    ensures StreakEnding(history, n, |history|) <==> n <= failures
  {
  }

  ghost predicate FiredOk(r: Registrar, threshold: int) {
    && (r.fired <==> HasStreak(History(r.log), Needed(threshold)))
    && Count(r.log, ReconnectNeeded) == (if r.fired then 1 else 0)
    && Trailing(History(r.log), r.failures)
  }

  /** One more completion: the trailing run, and whether the streak is there now. */
  lemma TrailingAppended(history: seq<bool>, failures: nat, ok: bool, n: nat)
    requires Trailing(history, failures) && n >= 1
    ensures var after := if ok then 0 else failures + 1;
      && Trailing(history + [ok], after)
      && (HasStreak(history + [ok], n) <==> HasStreak(history, n) || after >= n)
  {
    var more, after := history + [ok], if ok then 0 else failures + 1;
    assert forall i | 0 <= i < |history| :: more[i] == history[i];
    assert Trailing(more, after);
    TrailingLongest(more, after, n);
    StreakAppended(history, ok, n);
  }

  lemma SettledLog(log: seq<Act>, ok: bool)
    ensures History(log + [Settled(ok)]) == History(log) + [ok]
    ensures Count(log + [Settled(ok)], ReconnectNeeded) == Count(log, ReconnectNeeded)
  {
    assert (log + [Settled(ok)])[..|log|] == log;
  }

  lemma SignalledLog(log: seq<Act>)
    ensures var signalled := log + [Settled(false), ReconnectNeeded];
      && History(signalled) == History(log) + [false]
      && Count(signalled, ReconnectNeeded) == Count(log, ReconnectNeeded) + 1
  {
    SettledLog(log, false);
    assert (log + [Settled(false), ReconnectNeeded])[..|log| + 1] == log + [Settled(false)];
    assert History(log) + [false] + [] == History(log) + [false];
  }

  lemma SettleFires(r: Registrar, t: nat, ok: bool, threshold: int)
    requires FiredOk(r, threshold)
    ensures FiredOk(Settle(r, t, ok, threshold), threshold)
  {
    SettledLog(r.log, ok);
    SignalledLog(r.log);
    TrailingAppended(History(r.log), r.failures, ok, Needed(threshold));
  }

  /** The reconnect signal goes out at most once, and it has gone out exactly when the heartbeats completed so
      far contain `threshold` failures in a row, in order of completion, stopped or not. Since this holds of
      every run, it goes out with the very completion that first makes it so. */
  lemma {:induction false} FiresAtFirstStreak(events: seq<Event>, threshold: int)
    ensures FiredOk(Run(events, threshold), threshold)
  {
    if events == [] {
      NoStreakYet(Needed(threshold));
    } else {
      var r, e := Run(events[..|events| - 1], threshold), events[|events| - 1];
      FiresAtFirstStreak(events[..|events| - 1], threshold);
      if Enabled(r, e) {
        Appended(r.log, Heartbeat);
        Appended(r.log, Reregister);
        Appended(r.log, SentUnregister);
        match e
        case Answered(t, answer) => if answer != NotRegistered { SettleFires(r, t, answer == Ok, threshold); }
        case Reregistered(t, ok) => SettleFires(r, t, ok, threshold);
        case _ =>
      }
    }
  }

  lemma NoStreakYet(n: nat)
    requires n >= 1
    ensures !HasStreak([], n)
  {
  }

  // ---- Stopping ------------------------------------------------------------------------------

  ghost predicate StoppedOk(r: Registrar) {
    && Count(r.log, SentUnregister) == (if r.stopped then 1 else 0)
    && forall i, j | 0 <= i < j < |r.log| && r.log[i] == SentUnregister :: r.log[j] != Heartbeat
  }

  /** Unregistering is idempotent: one request however often it is called, and no new heartbeat after it. */
  lemma {:induction false} UnregisterOnce(events: seq<Event>, threshold: int)
    ensures StoppedOk(Run(events, threshold))
  {
    if events != [] {
      var r, e := Run(events[..|events| - 1], threshold), events[|events| - 1];
      UnregisterOnce(events[..|events| - 1], threshold);
      if Enabled(r, e) { StoppedStep(r, e, threshold); }
    }
  }

  lemma StoppedStep(r: Registrar, e: Event, threshold: int)
    requires StoppedOk(r) && Enabled(r, e)
    ensures StoppedOk(Step(r, e, threshold))
  {
    match e
    case Answered(t, answer) =>
      if answer == NotRegistered { Quiet(r, Reregister); } else { SettleQuiet(r, t, answer == Ok, threshold); }
    case Reregistered(t, ok) => SettleQuiet(r, t, ok, threshold);
    case Tick =>
      Appended(r.log, Heartbeat);
      NotSent(r.log);
    case Unregister =>
      Appended(r.log, SentUnregister);
      NotSent(r.log);
  }

  lemma Quiet(r: Registrar, a: Act)
    requires StoppedOk(r) && a != Heartbeat && a != SentUnregister
    ensures StoppedOk(r.(log := r.log + [a]))
  {
    Appended(r.log, a);
  }

  lemma SettleQuiet(r: Registrar, t: nat, ok: bool, threshold: int)
    requires StoppedOk(r)
    ensures StoppedOk(Settle(r, t, ok, threshold))
  {
    Quiet(r, Settled(ok));
    Quiet(r.(log := r.log + [Settled(ok)]), ReconnectNeeded);
    assert r.log + [Settled(false), ReconnectNeeded] == r.log + [Settled(false)] + [ReconnectNeeded];
  }

  lemma {:induction false} NotSent(log: seq<Act>)
    ensures Count(log, SentUnregister) == 0 ==> SentUnregister !in log
  {
    if log != [] { NotSent(log[..|log| - 1]); }
  }

  // ---- Going on ------------------------------------------------------------------------------

  /** The ticks before the first unregistration. */
  function LiveTicks(events: seq<Event>): nat {
    if events == [] then 0
    else
      LiveTicks(events[..|events| - 1])
      + if events[|events| - 1] == Tick && Unregister !in events[..|events| - 1] then 1 else 0
  }

  /** Every heartbeat sent is in flight or has settled, once. */
  ghost predicate Conserved(r: Registrar) {
    && Count(r.log, Heartbeat) == r.begun == |History(r.log)| + |r.inFlight|
    && forall t | t in r.inFlight :: t < r.begun
  }

  lemma TickConserved(r: Registrar)
    requires Conserved(r)
    ensures Conserved(r.(inFlight := r.inFlight[r.begun := Heartbeating], begun := r.begun + 1, log := r.log + [Heartbeat]))
  {
    Appended(r.log, Heartbeat);
    assert r.begun !in r.inFlight;
  }

  lemma SettleConserved(r: Registrar, t: nat, ok: bool, threshold: int)
    requires Conserved(r) && t in r.inFlight
    ensures Conserved(Settle(r, t, ok, threshold))
  {
    Appended(r.log, Settled(ok));
    Appended(r.log + [Settled(false)], ReconnectNeeded);
    assert r.log + [Settled(false), ReconnectNeeded] == r.log + [Settled(false)] + [ReconnectNeeded];
    assert |r.inFlight - {t}| == |r.inFlight| - 1;
  }

  lemma AnswerConserved(r: Registrar, t: nat)
    requires Conserved(r) && t in r.inFlight
    ensures Conserved(r.(inFlight := r.inFlight[t := Reregistering], log := r.log + [Reregister]))
  {
    Appended(r.log, Reregister);
    assert r.inFlight[t := Reregistering].Keys == r.inFlight.Keys;
    assert |r.inFlight[t := Reregistering]| == |r.inFlight[t := Reregistering].Keys| == |r.inFlight|;
  }

  lemma StepConserved(r: Registrar, e: Event, threshold: int)
    requires Conserved(r) && Enabled(r, e)
    ensures Conserved(Step(r, e, threshold))
  {
    match e
    case Tick => if !r.stopped { TickConserved(r); }
    case Answered(t, answer) =>
      if answer == NotRegistered { AnswerConserved(r, t); } else { SettleConserved(r, t, answer == Ok, threshold); }
    case Reregistered(t, ok) => SettleConserved(r, t, ok, threshold);
    case Unregister => Appended(r.log, SentUnregister);
  }

  /** A live tick sends a heartbeat, and nothing else does. */
  lemma StepBegins(r: Registrar, e: Event, threshold: int)
    requires Enabled(r, e)
    ensures var t := Step(r, e, threshold);
      && t.begun == r.begun + (if e == Tick && !r.stopped then 1 else 0)
      && (t.stopped <==> r.stopped || e == Unregister)
  {
  }

  /** Over every run each tick of the timer sends a heartbeat until the registrar is unregistered and none after, and
      each heartbeat sent is in flight or has settled once. */
  lemma {:induction false} HeartbeatsConserved(events: seq<Event>, threshold: int)
    ensures var r := Run(events, threshold);
      Conserved(r) && r.begun == LiveTicks(events) && (r.stopped <==> Unregister in events)
  {
    if events != [] {
      var init, e := events[..|events| - 1], events[|events| - 1];
      var r := Run(init, threshold);
      HeartbeatsConserved(init, threshold);
      assert events == init + [e];
      if Enabled(r, e) {
        StepConserved(r, e, threshold);
        StepBegins(r, e, threshold);
      }
    }
  }

  /** A daemon the gateway does not know registers again within the same tick, which settles with that. */
  lemma Reregisters(events: seq<Event>, t: nat, ok: bool, threshold: int)
    requires Enabled(Run(events, threshold), Answered(t, NotRegistered))
    ensures var r, a := Run(events, threshold), Run(events + [Answered(t, NotRegistered)], threshold);
      && a.log == r.log + [Reregister] && t in a.inFlight
      && var b := Run(events + [Answered(t, NotRegistered)] + [Reregistered(t, ok)], threshold);
      && t !in b.inFlight && History(b.log) == History(r.log) + [ok] && b.failures == if ok then 0 else r.failures + 1
  {
    var r := Run(events, threshold);
    var asked := events + [Answered(t, NotRegistered)];
    assert asked[..|events|] == events;
    assert (asked + [Reregistered(t, ok)])[..|asked|] == asked;
    Appended(r.log, Reregister);
    SettledLog(r.log + [Reregister], ok);
    SignalledLog(r.log + [Reregister]);
  }
}
