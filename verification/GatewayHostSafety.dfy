/** What every interleaving of the gateway lifecycle keeps. */
module GatewayHostSafety {
  import opened Common
  import opened GatewayHost

  // ---- The invariant -------------------------------------------------------------------------

  /** Everything is stopped but, at most, the one given. */
  ghost predicate OnlyRuns(stopped: seq<bool>, current: Option<nat>) {
    && (current.Some? ==> current.value < |stopped|)
    && forall i | 0 <= i < |stopped| && !stopped[i] :: current == Some(i)
  }

  ghost predicate Inv(h: Host) {
    && OnlyRuns(h.registrars, h.handle)
    && OnlyRuns(h.keepalives, h.keepalive)
    && BodiesOk(h)
    && BootOk(h)
  }

  /** At most one body, exactly while `reconnecting` is set; past its teardown there is nothing wired. */
  ghost predicate BodiesOk(h: Host) {
    && (h.reconnecting <==> exists b :: b in h.bodies)
    && (forall b, c | b in h.bodies && c in h.bodies :: b == c)
    && (forall b | b in h.bodies :: b < h.begun && BodyOk(h, h.bodies[b]))
  }

  ghost predicate BodyOk(h: Host, phase: Phase) {
    if phase == Unregistering then OnlyRuns(h.registrars, None) else h.handle == None && h.keepalive == None
  }

  /** While booting nothing is wired and nothing runs. */
  ghost predicate BootOk(h: Host) {
    h.boot != Up ==>
      h.registrars == [] && h.keepalives == [] && h.handle == None && h.keepalive == None
      && h.bodies == map[] && !h.shuttingDown && h.attempts == 0
  }

  lemma StopRuns(flags: seq<bool>, current: Option<nat>)
    requires OnlyRuns(flags, current)
    ensures OnlyRuns(Stop(flags, current), None)
  {
  }

  lemma WireKeeps(h: Host, withKeepalive: bool)
    requires OnlyRuns(h.registrars, None) && OnlyRuns(h.keepalives, None) && h.keepalive == None
    ensures var w := Wire(h, withKeepalive); OnlyRuns(w.registrars, w.handle) && OnlyRuns(w.keepalives, w.keepalive)
  {
  }

  lemma TriggerKeeps(h: Host)
    requires Inv(h) && (h.registrars != [] || h.keepalives != [])
    ensures Inv(Trigger(h))
  {
    StopRuns(h.registrars, h.handle);
    StopRuns(h.keepalives, h.keepalive);
    if !h.shuttingDown && !h.reconnecting {
      var t := Trigger(h);
      assert h.begun in t.bodies;
      assert forall b | b in t.bodies :: b == h.begun;
    }
  }

  lemma BodyStepKeeps(h: Host, e: Event, withKeepalive: bool)
    requires Inv(h) && Enabled(h, e) && (e.Unregistered? || e.Resolved? || e.Registered? || e.Woke?)
    ensures Inv(Step(h, e, withKeepalive))
  {
    StopRuns(h.keepalives, h.keepalive);
    assert BodyOk(h, h.bodies[e.body]);
    if e.Registered? { WireKeeps(h, withKeepalive); }
    var t := Step(h, e, withKeepalive);
    assert h.boot == Up;
    assert forall b | b in t.bodies :: b == e.body;
    assert t.reconnecting ==> e.body in t.bodies;
  }

  lemma StepKeeps(h: Host, e: Event, withKeepalive: bool)
    requires Inv(h) && Enabled(h, e)
    ensures Inv(Step(h, e, withKeepalive))
  {
    match e
    case RegistrarFires(_) => TriggerKeeps(h);
    case KeepaliveFires(_) => TriggerKeeps(h);
    case BootResolved(_) =>
    case BootRegistered(_) => WireKeeps(h, withKeepalive);
    case Shutdown =>
      StopRuns(h.registrars, h.handle);
      StopRuns(h.keepalives, h.keepalive);
    case _ => BodyStepKeeps(h, e, withKeepalive);
  }

  lemma {:induction false} RunInv(events: seq<Event>, withKeepalive: bool)
    ensures Inv(Run(events, withKeepalive))
  {
    if events != [] {
      var h, e := Run(events[..|events| - 1], withKeepalive), events[|events| - 1];
      RunInv(events[..|events| - 1], withKeepalive);
      if Enabled(h, e) { StepKeeps(h, e, withKeepalive); }
    }
  }

  // ---- Single flight -------------------------------------------------------------------------

  /** In every reachable state, whatever callbacks fired late: at most one reconnect body runs, exactly while
      the flag is set, and at most one registrar and one keepalive are unstopped. */
  lemma SingleFlight(events: seq<Event>, withKeepalive: bool)
    ensures var h := Run(events, withKeepalive);
      && (forall b, c | b in h.bodies && c in h.bodies :: b == c)
      && (h.reconnecting <==> h.bodies != map[])
      && (forall i, j | 0 <= i < |h.registrars| && 0 <= j < |h.registrars| && !h.registrars[i] && !h.registrars[j] :: i == j)
      && (forall i, j | 0 <= i < |h.keepalives| && 0 <= j < |h.keepalives| && !h.keepalives[i] && !h.keepalives[j] :: i == j)
  {
    RunInv(events, withKeepalive);
    var h := Run(events, withKeepalive);
    if h.reconnecting {
      var b :| b in h.bodies;
    } else {
      assert forall b :: b !in h.bodies;
    }
  }

  /** A pair is wired only when every registrar and every keepalive made before is stopped. */
  lemma WiredAfterStopped(events: seq<Event>, e: Event, withKeepalive: bool)
    requires Enabled(Run(events, withKeepalive), e)
    requires |Step(Run(events, withKeepalive), e, withKeepalive).registrars| > |Run(events, withKeepalive).registrars|
    ensures var h := Run(events, withKeepalive);
      && (forall i | 0 <= i < |h.registrars| :: h.registrars[i])
      && (forall i | 0 <= i < |h.keepalives| :: h.keepalives[i])
  {
    RunInv(events, withKeepalive);
    var h := Run(events, withKeepalive);
    assert e.Registered? ==> BodyOk(h, h.bodies[e.body]);
  }

  /** Stopping is for good. */
  lemma {:induction false} StoppedStays(events: seq<Event>, n: nat, withKeepalive: bool, i: nat)
    requires n <= |events|
    requires i < |Run(events[..n], withKeepalive).registrars| && Run(events[..n], withKeepalive).registrars[i]
    ensures i < |Run(events, withKeepalive).registrars| && Run(events, withKeepalive).registrars[i]
  {
    if n == |events| {
      assert events[..n] == events;
    } else {
      var init := events[..|events| - 1];
      assert init[..n] == events[..n];
      StoppedStays(init, n, withKeepalive, i);
      var h, e := Run(init, withKeepalive), events[|events| - 1];
      if Enabled(h, e) { StepLeavesStopped(h, e, withKeepalive, i); }
    }
  }

  lemma StepLeavesStopped(h: Host, e: Event, withKeepalive: bool, i: nat)
    requires Enabled(h, e) && i < |h.registrars| && h.registrars[i]
    ensures i < |Step(h, e, withKeepalive).registrars| && Step(h, e, withKeepalive).registrars[i]
  {
  }

  // ---- Backoff -------------------------------------------------------------------------------

  /** How often the current cycle has waited. */
  function Waits(log: seq<Act>): nat {
    if log == [] then 0
    else
      match log[|log| - 1]
      case Started => 0
      case Waited(_) => Waits(log[..|log| - 1]) + 1
      case Wired(_) => Waits(log[..|log| - 1])
  }

  /** What each failed attempt of a cycle waits, in milliseconds: doubling from a second, with a minute at most. */
  function WaitMs(failed: nat): nat {
    match failed
    case 0 => 1000
    case 1 => 2000
    case 2 => 4000
    case 3 => 8000
    case 4 => 16000
    case 5 => 32000
    case _ => 60000
  }

  lemma BackoffIsWait(failed: nat)
    ensures Backoff(failed + 1) == WaitMs(failed)
  {
    if failed >= 6 { Pow2Grows(6, failed); }
    assert Pow2(1) == 2 && Pow2(2) == 4 && Pow2(3) == 8;
    assert Pow2(4) == 16 && Pow2(5) == 32 && Pow2(6) == 64;
  }

  lemma {:induction false} Pow2Grows(a: nat, b: nat)
    requires a <= b
    ensures Pow2(a) <= Pow2(b)
  {
    if a < b { Pow2Grows(a, b - 1); }
  }

  /** Every wait is the one its place in its cycle asks for. */
  ghost predicate WaitsWell(log: seq<Act>) {
    forall i | 0 <= i < |log| && log[i].Waited? :: log[i].ms == WaitMs(Waits(log[..i]))
  }

  /** The attempt counter of a running cycle is its number of waits, and one more while an attempt is on. */
  ghost predicate Counted(h: Host) {
    && (!h.shuttingDown && h.bodies == map[] ==> h.attempts == 0)
    && forall b | b in h.bodies ::
         match h.bodies[b]
         case Unregistering => h.attempts == 0 && Waits(h.log) == 0
         case Sleeping => h.attempts == Waits(h.log)
         case _ => h.attempts == Waits(h.log) + 1
  }

  lemma WaitsOne(log: seq<Act>, a: Act)
    ensures Waits(log + [a]) == match a case Started => 0 case Waited(_) => Waits(log) + 1 case Wired(_) => Waits(log)
    ensures WaitsWell(log) && (a.Waited? ==> a.ms == Backoff(Waits(log) + 1)) ==> WaitsWell(log + [a])
  {
    BackoffIsWait(Waits(log));
    assert (log + [a])[..|log|] == log;
    forall i | 0 <= i < |log| ensures (log + [a])[..i] == log[..i] {}
  }

  lemma TriggerCounted(h: Host)
    requires Inv(h) && Counted(h) && WaitsWell(h.log)
    ensures Counted(Trigger(h)) && WaitsWell(Trigger(h).log)
  {
    WaitsOne(h.log, Started);
    if !h.shuttingDown && !h.reconnecting {
      assert h.bodies == map[];
      assert h.begun in Trigger(h).bodies;
    }
  }

  lemma BodyCounted(h: Host, e: Event, withKeepalive: bool)
    requires Inv(h) && Enabled(h, e) && (e.Unregistered? || e.Resolved? || e.Registered? || e.Woke?)
    requires Counted(h) && WaitsWell(h.log)
    ensures Counted(Step(h, e, withKeepalive)) && WaitsWell(Step(h, e, withKeepalive).log)
  {
    OneBody(h, e, withKeepalive);
    match e
    case Resolved(b, ResolveFailed) => RetryCounted(h, b);
    case Registered(b, ok) => if ok { WaitsOne(h.log, Wired(|h.registrars|)); } else { RetryCounted(h, b); }
    case _ =>
  }

  lemma OneBody(h: Host, e: Event, withKeepalive: bool)
    requires BodiesOk(h) && Enabled(h, e) && (e.Unregistered? || e.Resolved? || e.Registered? || e.Woke?)
    ensures var t := Step(h, e, withKeepalive);
      (forall b | b in t.bodies :: b == e.body) && (t.bodies == map[] ==> e.body !in t.bodies)
  {
  }

  lemma RetryCounted(h: Host, b: nat)
    requires BodiesOk(h) && Counted(h) && WaitsWell(h.log)
    requires b in h.bodies && (h.bodies[b] == Resolving || h.bodies[b] == Registering)
    ensures Counted(Retry(h, b)) && WaitsWell(Retry(h, b).log)
  {
    WaitsOne(h.log, Waited(Backoff(h.attempts)));
    assert b in Retry(h, b).bodies;
  }

  lemma StepCounted(h: Host, e: Event, withKeepalive: bool)
    requires Inv(h) && Enabled(h, e) && Counted(h) && WaitsWell(h.log)
    ensures Counted(Step(h, e, withKeepalive)) && WaitsWell(Step(h, e, withKeepalive).log)
  {
    match e
    case RegistrarFires(_) => TriggerCounted(h);
    case KeepaliveFires(_) => TriggerCounted(h);
    case BootResolved(_) =>
    case BootRegistered(_) => WaitsOne(h.log, Wired(|h.registrars|));
    case Shutdown =>
    case _ => BodyCounted(h, e, withKeepalive);
  }

  /** Over every run the failed attempts of each cycle wait 1, 2, 4, 8, 16, 32 seconds and then a minute each. */
  lemma {:induction false} BackoffDoubles(events: seq<Event>, withKeepalive: bool)
    ensures WaitsWell(Run(events, withKeepalive).log)
    ensures Counted(Run(events, withKeepalive))
  {
    if events != [] {
      var init := events[..|events| - 1];
      BackoffDoubles(init, withKeepalive);
      RunInv(init, withKeepalive);
      if Enabled(Run(init, withKeepalive), events[|events| - 1]) {
        StepCounted(Run(init, withKeepalive), events[|events| - 1], withKeepalive);
      }
    }
  }

  // ---- After shutdown ------------------------------------------------------------------------

  ghost predicate AllStopped(h: Host) {
    (forall i | 0 <= i < |h.registrars| :: h.registrars[i]) && (forall i | 0 <= i < |h.keepalives| :: h.keepalives[i])
  }

  /** A body that passed its last look at the shutdown flag before wiring. */
  predicate PastCheck(h: Host) {
    exists b | b in h.bodies :: h.bodies[b] == Resolving || h.bodies[b] == Registering
  }

  lemma ShutdownStops(h: Host, withKeepalive: bool)
    requires Inv(h) && Enabled(h, Shutdown)
    ensures AllStopped(Step(h, Shutdown, withKeepalive))
    ensures PastCheck(Step(h, Shutdown, withKeepalive)) <==> PastCheck(h)
  {
    StopRuns(h.registrars, h.handle);
    StopRuns(h.keepalives, h.keepalive);
  }

  lemma QuietStep(h: Host, e: Event, withKeepalive: bool)
    requires Inv(h) && Enabled(h, e) && h.shuttingDown && AllStopped(h) && !PastCheck(h)
    ensures var t := Step(h, e, withKeepalive); t.shuttingDown && AllStopped(t) && !PastCheck(t)
  {
    assert h.boot == Up;
  }

  lemma {:induction false} QuietRun(events: seq<Event>, more: seq<Event>, withKeepalive: bool)
    requires var h := Run(events, withKeepalive); h.shuttingDown && AllStopped(h) && !PastCheck(h)
    ensures var t := Run(events + more, withKeepalive); t.shuttingDown && AllStopped(t) && !PastCheck(t)
  {
    if more == [] {
      assert events + more == events;
    } else {
      var k := |more| - 1;
      QuietRun(events, more[..k], withKeepalive);
      RunInv(events + more[..k], withKeepalive);
      assert events + more == events + more[..k] + [more[k]];
      RunExtends(events + more[..k], more[k], withKeepalive);
      if Enabled(Run(events + more[..k], withKeepalive), more[k]) {
        QuietStep(Run(events + more[..k], withKeepalive), more[k], withKeepalive);
      }
    }
  }

  lemma RunExtends(events: seq<Event>, e: Event, withKeepalive: bool)
    ensures var h := Run(events, withKeepalive);
      Run(events + [e], withKeepalive) == if Enabled(h, e) then Step(h, e, withKeepalive) else h
  {
    assert (events + [e])[..|events|] == events;
  }

  /** The code stops everything for good on shutdown exactly when no reconnect body is past its check then:
      otherwise the body can still wire a registrar that nobody stops. */
  lemma ShutdownIsFinalIff(events: seq<Event>, withKeepalive: bool)
    requires Enabled(Run(events, withKeepalive), Shutdown)
    ensures (forall more: seq<Event> :: AllStopped(Run(events + [Shutdown] + more, withKeepalive)))
      <==> !PastCheck(Run(events, withKeepalive))
  {
    var h := Run(events, withKeepalive);
    RunInv(events, withKeepalive);
    RunExtends(events, Shutdown, withKeepalive);
    ShutdownStops(h, withKeepalive);
    if PastCheck(h) {
      var b :| b in h.bodies && (h.bodies[b] == Resolving || h.bodies[b] == Registering);
      LateWiring(events + [Shutdown], b, withKeepalive);
    } else {
      forall more: seq<Event> ensures AllStopped(Run(events + [Shutdown] + more, withKeepalive)) {
        QuietRun(events + [Shutdown], more, withKeepalive);
      }
    }
  }

  lemma LateWiring(events: seq<Event>, b: nat, withKeepalive: bool)
    requires var h := Run(events, withKeepalive); b in h.bodies && (h.bodies[b] == Resolving || h.bodies[b] == Registering)
    ensures exists more :: !AllStopped(Run(events + more, withKeepalive))
  {
    var h := Run(events, withKeepalive);
    var first := if h.bodies[b] == Resolving then [Resolved(b, Options)] else [];
    var more := first + [Registered(b, true)];
    if first != [] {
      RunExtends(events, Resolved(b, Options), withKeepalive);
    } else {
      assert events + first == events;
    }
    RunExtends(events + first, Registered(b, true), withKeepalive);
    assert events + more == events + first + [Registered(b, true)];
    var t := Run(events + more, withKeepalive);
    assert !t.registrars[|t.registrars| - 1];
  }

  /** From the shutdown on no new cycle ever starts, whatever fires and however the run goes on. */
  lemma {:induction false} NoCycleAfterShutdown(events: seq<Event>, more: seq<Event>, withKeepalive: bool)
    requires Run(events, withKeepalive).shuttingDown
    ensures var h, t := Run(events, withKeepalive), Run(events + more, withKeepalive);
      t.shuttingDown && t.begun == h.begun && t.bodies.Keys <= h.bodies.Keys
  {
    if more == [] {
      assert events + more == events;
    } else {
      var k := |more| - 1;
      NoCycleAfterShutdown(events, more[..k], withKeepalive);
      assert events + more == events + more[..k] + [more[k]];
      RunExtends(events + more[..k], more[k], withKeepalive);
    }
  }
}
