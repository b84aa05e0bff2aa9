/** What the gateway lifecycle gets done: booting, a reconnect cycle through any number of failed attempts, and
    the end of a cycle on shutdown. */
module GatewayHostLiveness {
  import opened Common
  import opened GatewayHost
  import opened GatewayHostSafety

  // ---- Booting -------------------------------------------------------------------------------

  /** Booting wires the first pair if there is a gateway that takes the registration; without one the daemon runs
      with nothing wired, and when the gateway cannot be looked up it does not come up. */
  lemma Boots(withKeepalive: bool)
    ensures Run([BootResolved(Options), BootRegistered(true)], withKeepalive)
         == COLD.(boot := Up, handle := Some(0), registrars := [false], log := [Wired(0)],
                  keepalive := if withKeepalive then Some(0) else None, keepalives := if withKeepalive then [false] else [])
    ensures Run([BootResolved(Options), BootRegistered(false)], withKeepalive) == COLD.(boot := Up)
    ensures Run([BootResolved(NoGateway)], withKeepalive) == COLD.(boot := Up)
    ensures Run([BootResolved(ResolveFailed)], withKeepalive) == COLD.(boot := Down)
  {
    BootsTo(Options, withKeepalive);
    BootsTo(NoGateway, withKeepalive);
    BootsTo(ResolveFailed, withKeepalive);
    var first := [BootResolved(Options)];
    RunExtends(first, BootRegistered(true), withKeepalive);
    RunExtends(first, BootRegistered(false), withKeepalive);
    assert first + [BootRegistered(true)] == [BootResolved(Options), BootRegistered(true)];
    assert first + [BootRegistered(false)] == [BootResolved(Options), BootRegistered(false)];
  }

  lemma BootsTo(answer: Resolution, withKeepalive: bool)
    ensures Run([BootResolved(answer)], withKeepalive)
         == COLD.(boot := if answer == Options then BootRegistering else if answer == NoGateway then Up else Down)
  {
    RunExtends([], BootResolved(answer), withKeepalive);
    assert [] + [BootResolved(answer)] == [BootResolved(answer)];
  }

  // ---- Firing --------------------------------------------------------------------------------

  predicate Fires(e: Event) { e.RegistrarFires? || e.KeepaliveFires? }

  /** A firing while a cycle runs, or after shutdown, changes nothing. */
  lemma FiringDropped(events: seq<Event>, e: Event, withKeepalive: bool)
    requires Fires(e) && (Run(events, withKeepalive).reconnecting || Run(events, withKeepalive).shuttingDown)
    ensures Run(events + [e], withKeepalive) == Run(events, withKeepalive)
  {
    RunExtends(events, e, withKeepalive);
  }

  /** Every other firing starts a body, which begins by stopping the registrar if there is one. */
  lemma FiringStarts(events: seq<Event>, e: Event, withKeepalive: bool)
    requires var h := Run(events, withKeepalive);
      Fires(e) && Enabled(h, e) && !h.reconnecting && !h.shuttingDown
    ensures var h, t := Run(events, withKeepalive), Run(events + [e], withKeepalive);
      && t.reconnecting && t.begun == h.begun + 1 && t.log == h.log + [Started]
      && t.bodies == map[h.begun := if h.handle.Some? then Unregistering else Resolving]
      && (forall i | 0 <= i < |t.registrars| :: t.registrars[i]) && |t.registrars| == |h.registrars|
  {
    var h := Run(events, withKeepalive);
    RunExtends(events, e, withKeepalive);
    RunInv(events, withKeepalive);
    NoBody(h);
  }

  lemma NoBody(h: Host)
    requires Inv(h) && !h.reconnecting
    ensures h.bodies == map[]
  {
    assert forall b :: b !in h.bodies;
  }

  // ---- A cycle -------------------------------------------------------------------------------

  /** How one attempt may fail. */
  datatype Failure = AtResolve | AtRegister

  function Attempt(b: nat, f: Failure): seq<Event> {
    match f
    case AtResolve => [Resolved(b, ResolveFailed), Woke(b)]
    case AtRegister => [Resolved(b, Options), Registered(b, false), Woke(b)]
  }

  function Attempts(b: nat, fs: seq<Failure>): seq<Event> {
    if fs == [] then [] else Attempts(b, fs[..|fs| - 1]) + Attempt(b, fs[|fs| - 1])
  }

  function AllTrue(n: nat): seq<bool> { seq(n, i => true) }

  function WaitActs(n: nat): seq<Act> { seq(n, i requires 0 <= i < n => Waited(WaitMs(i))) }

  /** The host in its cycle `b`, started when it was `base`, about to look the gateway up after `failed` failures:
      everything is stopped and nothing wired. */
  function Attempting(base: Host, b: nat, failed: nat): Host {
    base.(handle := None, keepalive := None, reconnecting := true, attempts := failed + 1,
          registrars := AllTrue(|base.registrars|), keepalives := AllTrue(|base.keepalives|),
          bodies := map[b := Resolving], begun := b + 1, log := base.log + [Started] + WaitActs(failed))
  }

  /** From a firing to the first attempt: the old registrar is unregistered first, if there is one. */
  function TearDown(h: Host, e: Event): seq<Event> {
    if h.handle.Some? then [e, Unregistered(h.begun)] else [e]
  }

  lemma TearsDown(events: seq<Event>, e: Event, withKeepalive: bool)
    requires var h := Run(events, withKeepalive);
      Fires(e) && Enabled(h, e) && !h.reconnecting && !h.shuttingDown
    ensures var h := Run(events, withKeepalive);
      Run(events + TearDown(h, e), withKeepalive) == Attempting(h, h.begun, 0)
  {
    var h := Run(events, withKeepalive);
    RunInv(events, withKeepalive);
    BackoffDoubles(events, withKeepalive);
    NoBody(h);
    RunExtends(events, e, withKeepalive);
    StopRuns(h.registrars, h.handle);
    StopRuns(h.keepalives, h.keepalive);
    assert Stop(h.registrars, h.handle) == AllTrue(|h.registrars|);
    assert Stop(h.keepalives, h.keepalive) == AllTrue(|h.keepalives|);
    assert h.log + [Started] + WaitActs(0) == h.log + [Started];
    if h.handle.Some? {
      RunExtends(events + [e], Unregistered(h.begun), withKeepalive);
      assert events + [e] + [Unregistered(h.begun)] == events + TearDown(h, e);
    } else {
      assert h.registrars == AllTrue(|h.registrars|);
    }
  }

  /** After a failed attempt the body sleeps, wakes and is about to look the gateway up again. */
  lemma RetryWakes(base: Host, b: nat, failed: nat, phase: Phase)
    requires !base.shuttingDown
    ensures LoopTop(Retry(Attempting(base, b, failed).(bodies := map[b := phase]), b), b) == Attempting(base, b, failed + 1)
  {
    BackoffIsWait(failed);
    assert base.log + [Started] + WaitActs(failed) + [Waited(WaitMs(failed))] == base.log + [Started] + WaitActs(failed + 1);
    assert map[b := phase][b := Sleeping][b := Resolving] == map[b := Resolving];
  }

  /** A body that fails and wakes. */
  lemma FailsAndWakes(events: seq<Event>, base: Host, b: nat, failed: nat, phase: Phase, e: Event, withKeepalive: bool)
    requires Run(events, withKeepalive) == Attempting(base, b, failed).(bodies := map[b := phase]) && !base.shuttingDown
    requires (phase == Resolving && e == Resolved(b, ResolveFailed)) || (phase == Registering && e == Registered(b, false))
    ensures Run(events + [e] + [Woke(b)], withKeepalive) == Attempting(base, b, failed + 1)
  {
    var h := Run(events, withKeepalive);
    RunExtends(events, e, withKeepalive);
    assert Run(events + [e], withKeepalive) == Retry(h, b);
    RunExtends(events + [e], Woke(b), withKeepalive);
    RetryWakes(base, b, failed, phase);
  }

  lemma AttemptFails(events: seq<Event>, base: Host, b: nat, failed: nat, f: Failure, withKeepalive: bool)
    requires Run(events, withKeepalive) == Attempting(base, b, failed) && !base.shuttingDown
    ensures Run(events + Attempt(b, f), withKeepalive) == Attempting(base, b, failed + 1)
  {
    match f
    case AtResolve =>
      FailsAndWakes(events, base, b, failed, Resolving, Resolved(b, ResolveFailed), withKeepalive);
      assert events + [Resolved(b, ResolveFailed)] + [Woke(b)] == events + Attempt(b, f);
    case AtRegister =>
      var first := events + [Resolved(b, Options)];
      RunExtends(events, Resolved(b, Options), withKeepalive);
      assert map[b := Resolving][b := Registering] == map[b := Registering];
      FailsAndWakes(first, base, b, failed, Registering, Registered(b, false), withKeepalive);
      assert first + [Registered(b, false)] + [Woke(b)] == events + Attempt(b, f);
  }

  lemma {:induction false} AttemptsFail(events: seq<Event>, base: Host, b: nat, fs: seq<Failure>, withKeepalive: bool)
    requires Run(events, withKeepalive) == Attempting(base, b, 0) && !base.shuttingDown
    ensures Run(events + Attempts(b, fs), withKeepalive) == Attempting(base, b, |fs|)
  {
    if fs == [] {
      assert events + [] == events;
    } else {
      var k := |fs| - 1;
      AttemptsFail(events, base, b, fs[..k], withKeepalive);
      AttemptFails(events + Attempts(b, fs[..k]), base, b, k, fs[k], withKeepalive);
      assert events + Attempts(b, fs) == events + Attempts(b, fs[..k]) + Attempt(b, fs[k]);
    }
  }

  lemma AttemptSucceeds(events: seq<Event>, base: Host, b: nat, failed: nat, withKeepalive: bool)
    requires Run(events, withKeepalive) == Attempting(base, b, failed) && base.bodies == map[] && !base.reconnecting
    ensures var m, n := |base.registrars|, |base.keepalives|;
      Run(events + [Resolved(b, Options), Registered(b, true)], withKeepalive)
      == base.(handle := Some(m), registrars := AllTrue(m) + [false],
               keepalive := if withKeepalive then Some(n) else None,
               keepalives := if withKeepalive then AllTrue(n) + [false] else AllTrue(n),
               begun := b + 1, attempts := 0, log := base.log + [Started] + WaitActs(failed) + [Wired(m)])
  {
    var first := events + [Resolved(b, Options)];
    RunExtends(events, Resolved(b, Options), withKeepalive);
    assert map[b := Resolving][b := Registering] == map[b := Registering];
    assert Run(first, withKeepalive) == Attempting(base, b, failed).(bodies := map[b := Registering]);
    RunExtends(first, Registered(b, true), withKeepalive);
    assert first + [Registered(b, true)] == events + [Resolved(b, Options), Registered(b, true)];
    assert map[b := Registering] - {b} == map[];
  }

  /** Whenever a detector fires and no cycle runs, and however many attempts fail on the way: once the gateway is found
      and takes the registration, one new pair is wired, everything older is stopped, and the host is as ready for
      the next firing as before. */
  lemma CycleReconnects(events: seq<Event>, e: Event, fs: seq<Failure>, withKeepalive: bool)
    requires var h := Run(events, withKeepalive);
      Fires(e) && Enabled(h, e) && !h.reconnecting && !h.shuttingDown
    ensures var h := Run(events, withKeepalive);
      var b, m, n := h.begun, |h.registrars|, |h.keepalives|;
      Run(events + TearDown(h, e) + Attempts(b, fs) + [Resolved(b, Options), Registered(b, true)], withKeepalive)
      == h.(handle := Some(m), registrars := AllTrue(m) + [false],
            keepalive := if withKeepalive then Some(n) else None,
            keepalives := if withKeepalive then AllTrue(n) + [false] else AllTrue(n),
            begun := b + 1, attempts := 0, log := h.log + [Started] + WaitActs(|fs|) + [Wired(m)])
  {
    var h := Run(events, withKeepalive);
    var b := h.begun;
    RunInv(events, withKeepalive);
    NoBody(h);
    TearsDown(events, e, withKeepalive);
    AttemptsFail(events + TearDown(h, e), h, b, fs, withKeepalive);
    AttemptSucceeds(events + TearDown(h, e) + Attempts(b, fs), h, b, |fs|, withKeepalive);
  }

  /** A cycle that learns there is no gateway ends with nothing wired. */
  lemma CycleGivesUp(events: seq<Event>, e: Event, fs: seq<Failure>, withKeepalive: bool)
    requires var h := Run(events, withKeepalive);
      Fires(e) && Enabled(h, e) && !h.reconnecting && !h.shuttingDown
    ensures var h := Run(events, withKeepalive);
      var b := h.begun;
      Run(events + TearDown(h, e) + Attempts(b, fs) + [Resolved(b, NoGateway)], withKeepalive)
      == h.(handle := None, registrars := AllTrue(|h.registrars|), keepalive := None,
            keepalives := AllTrue(|h.keepalives|), begun := b + 1, attempts := 0,
            log := h.log + [Started] + WaitActs(|fs|))
  {
    var h := Run(events, withKeepalive);
    var b := h.begun;
    RunInv(events, withKeepalive);
    NoBody(h);
    TearsDown(events, e, withKeepalive);
    AttemptsFail(events + TearDown(h, e), h, b, fs, withKeepalive);
    RunExtends(events + TearDown(h, e) + Attempts(b, fs), Resolved(b, NoGateway), withKeepalive);
    assert map[b := Resolving] - {b} == map[];
  }

  /** After shutdown a body ends at its next look at the flag. */
  lemma ShutdownEndsCycle(events: seq<Event>, b: nat, withKeepalive: bool)
    requires var h := Run(events, withKeepalive);
      h.shuttingDown && b in h.bodies && (h.bodies[b] == Unregistering || h.bodies[b] == Sleeping)
    ensures var h := Run(events, withKeepalive);
      var t := Run(events + [if h.bodies[b] == Sleeping then Woke(b) else Unregistered(b)], withKeepalive);
      t.bodies == map[] && !t.reconnecting
  {
    var h := Run(events, withKeepalive);
    RunInv(events, withKeepalive);
    RunExtends(events, if h.bodies[b] == Sleeping then Woke(b) else Unregistered(b), withKeepalive);
    assert forall c | c in h.bodies :: c == b;
  }
}
