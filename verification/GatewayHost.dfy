/** The daemon host's gateway lifecycle: two failure detectors drive one reconnect cycle with capped
    exponential backoff, beside a shutdown hook. */
module GatewayHost {
  import opened Common

  /** Where a running reconnect body is suspended. */
  datatype Phase = Unregistering | Resolving | Registering | Sleeping

  datatype Boot = BootResolving | BootRegistering | Up | Down

  /** Observable effects, in order. */
  datatype Act = Started | Waited(ms: nat) | Wired(registrar: nat)

  /** The closure's variables. Registrars and keepalives are numbered as they are created and listed with
      whether each was stopped; `bodies` are the reconnect bodies now running. */
  datatype Host = Host(
    boot: Boot,
    handle: Option<nat>,
    keepalive: Option<nat>,
    reconnecting: bool,
    shuttingDown: bool,
    attempts: nat,
    registrars: seq<bool>,
    keepalives: seq<bool>,
    bodies: map<nat, Phase>,
    begun: nat,
    log: seq<Act>)

  const COLD := Host(BootResolving, None, None, false, false, 0, [], [], map[], 0, [])

  datatype Resolution = Options | NoGateway | ResolveFailed

  datatype Event =
    | BootResolved(answer: Resolution)
    | BootRegistered(ok: bool)
    | RegistrarFires(registrar: nat)
    | KeepaliveFires(source: nat)
    | Unregistered(body: nat)
    | Resolved(body: nat, answer: Resolution)
    | Registered(body: nat, ok: bool)
    | Woke(body: nat)
    | Shutdown

  // ---- Backoff -------------------------------------------------------------------------------

  const BASE_RECONNECT_BACKOFF_MS := 1000
  const MAX_RECONNECT_BACKOFF_MS := 60000

  function Pow2(n: nat): (p: nat)
    ensures p >= 1
  {
    if n == 0 then 1 else 2 * Pow2(n - 1)
  }

  function Backoff(attempts: nat): nat {
    var ms := BASE_RECONNECT_BACKOFF_MS * Pow2(if attempts == 0 then 0 else attempts - 1);
    if ms < MAX_RECONNECT_BACKOFF_MS then ms else MAX_RECONNECT_BACKOFF_MS
  }

  // ---- Steps ---------------------------------------------------------------------------------

  /** What may happen next. Any registrar or keepalive ever created may still fire: stopping one does not
      recall a tick in flight. The shutdown hook is installed when booting is over. */
  predicate Enabled(h: Host, e: Event) {
    match e
    case BootResolved(_) => h.boot == BootResolving
    case BootRegistered(_) => h.boot == BootRegistering
    case RegistrarFires(r) => r < |h.registrars|
    case KeepaliveFires(k) => k < |h.keepalives|
    case Unregistered(b) => b in h.bodies && h.bodies[b] == Unregistering
    case Resolved(b, _) => b in h.bodies && h.bodies[b] == Resolving
    case Registered(b, _) => b in h.bodies && h.bodies[b] == Registering
    case Woke(b) => b in h.bodies && h.bodies[b] == Sleeping
    case Shutdown => h.boot == Up && !h.shuttingDown
  }

  function Stop(flags: seq<bool>, i: Option<nat>): (r: seq<bool>)
    ensures |r| == |flags|
  {
    if i.Some? && i.value < |flags| then flags[i.value := true] else flags
  }

  /** A fresh registrar, and a fresh keepalive when there is a transport for one. Nothing suspends between the
      registrar's timer starting and its handle being stored, so the two are one step. */
  function Wire(h: Host, withKeepalive: bool): Host {
    var r := h.(handle := Some(|h.registrars|), registrars := h.registrars + [false],
                log := h.log + [Wired(|h.registrars|)]);
    if withKeepalive then r.(keepalive := Some(|h.keepalives|), keepalives := h.keepalives + [false]) else r
  }

  function Ended(h: Host, b: nat): Host {
    h.(bodies := h.bodies - {b}, reconnecting := false)
  }

  /** The head of the retry loop. */
  function LoopTop(h: Host, b: nat): Host {
    if h.shuttingDown then Ended(h, b)
    else h.(attempts := h.attempts + 1, bodies := h.bodies[b := Resolving])
  }

  function AfterUnregister(h: Host, b: nat): Host {
    LoopTop(h.(handle := None, keepalives := Stop(h.keepalives, h.keepalive), keepalive := None), b)
  }

  /** A call of `reconnect`, up to its first suspension point. */
  function Trigger(h: Host): Host {
    if h.shuttingDown || h.reconnecting then h
    else
      var b := h.begun;
      var begun := h.(reconnecting := true, begun := b + 1, log := h.log + [Started]);
      if h.handle.Some?
      then begun.(registrars := Stop(h.registrars, h.handle), bodies := h.bodies[b := Unregistering])
      else AfterUnregister(begun, b)
  }

  function Retry(h: Host, b: nat): Host {
    h.(bodies := h.bodies[b := Sleeping], log := h.log + [Waited(Backoff(h.attempts))])
  }

  function Step(h: Host, e: Event, withKeepalive: bool): Host
    requires Enabled(h, e)
  {
    match e
    case BootResolved(answer) =>
      h.(boot := match answer case Options => BootRegistering case NoGateway => Up case ResolveFailed => Down)
    case BootRegistered(ok) => (if ok then Wire(h, withKeepalive) else h).(boot := Up)
    case RegistrarFires(_) => Trigger(h)
    case KeepaliveFires(_) => Trigger(h)
    case Unregistered(b) => AfterUnregister(h, b)
    case Resolved(b, Options) => h.(bodies := h.bodies[b := Registering])
    case Resolved(b, NoGateway) => Ended(h.(attempts := 0), b)
    case Resolved(b, ResolveFailed) => Retry(h, b)
    case Registered(b, ok) => if ok then Ended(Wire(h, withKeepalive).(attempts := 0), b) else Retry(h, b)
    case Woke(b) => LoopTop(h, b)
    case Shutdown =>
      h.(shuttingDown := true, keepalives := Stop(h.keepalives, h.keepalive), registrars := Stop(h.registrars, h.handle))
  }

  /** Every sequence of events is a run: one that cannot happen where it stands is skipped. */
  function Run(events: seq<Event>, withKeepalive: bool): Host {
    if events == [] then COLD
    else
      var h, e := Run(events[..|events| - 1], withKeepalive), events[|events| - 1];
      if Enabled(h, e) then Step(h, e, withKeepalive) else h
  }

  // ---- The host ------------------------------------------------------------------------------

  /** The closure as an object. Each method is the code between two suspension points. */
  class OsHost {
    const withKeepalive: bool
    var boot: Boot
    var gatewayHandle: Option<nat>
    var keepaliveStop: Option<nat>
    var reconnecting: bool
    var shuttingDown: bool
    var reconnectAttempts: nat
    var registrars: seq<bool>
    var keepalives: seq<bool>
    var bodies: map<nat, Phase>
    var begun: nat
    ghost var log: seq<Act>

    ghost function View(): Host
      reads this
    {
      Host(boot, gatewayHandle, keepaliveStop, reconnecting, shuttingDown, reconnectAttempts,
           registrars, keepalives, bodies, begun, log)
    }

    constructor (withKeepalive: bool)
      ensures View() == COLD && this.withKeepalive == withKeepalive
    {
      this.withKeepalive := withKeepalive;
      boot, gatewayHandle, keepaliveStop := BootResolving, None, None;
      reconnecting, shuttingDown, reconnectAttempts := false, false, 0;
      registrars, keepalives, bodies, begun := [], [], map[], 0;
      log := [];
    }

    method WireGatewayRegistrationAndKeepalive()
      modifies this
      ensures View() == Wire(old(View()), withKeepalive)
    {
      gatewayHandle := Some(|registrars|);
      log := log + [Wired(|registrars|)];
      registrars := registrars + [false];
      if withKeepalive {
        keepaliveStop := Some(|keepalives|);
        keepalives := keepalives + [false];
      }
    }

    method FinishBoot(ok: bool)
      requires Enabled(View(), BootRegistered(ok))
      modifies this
      ensures View() == Step(old(View()), BootRegistered(ok), withKeepalive)
    {
      if ok { WireGatewayRegistrationAndKeepalive(); }
      boot := Up;
    }

    method EnterLoop(b: nat)
      modifies this
      ensures View() == LoopTop(old(View()), b)
    {
      if shuttingDown {
        bodies := bodies - {b};
        reconnecting := false;
      } else {
        reconnectAttempts := reconnectAttempts + 1;
        bodies := bodies[b := Resolving];
      }
    }

    method DropPair(b: nat)
      modifies this
      ensures View() == AfterUnregister(old(View()), b)
    {
      gatewayHandle := None;
      if keepaliveStop.Some? {
        if keepaliveStop.value < |keepalives| { keepalives := keepalives[keepaliveStop.value := true]; }
        keepaliveStop := None;
      }
      EnterLoop(b);
    }

    /** `reconnect`, called from a registrar's or a keepalive's callback. */
    method Reconnect(e: Event)
      requires Enabled(View(), e) && (e.RegistrarFires? || e.KeepaliveFires?)
      modifies this
      ensures View() == Step(old(View()), e, withKeepalive)
    {
      if shuttingDown { return; }
      if reconnecting { return; }
      var b := begun;
      reconnecting, begun := true, begun + 1;
      log := log + [Started];
      if gatewayHandle.Some? {
        if gatewayHandle.value < |registrars| { registrars := registrars[gatewayHandle.value := true]; }
        bodies := bodies[b := Unregistering];
      } else {
        DropPair(b);
      }
    }

    method OnUnregistered(b: nat)
      requires Enabled(View(), Unregistered(b))
      modifies this
      ensures View() == Step(old(View()), Unregistered(b), withKeepalive)
    {
      DropPair(b);
    }

    method BackOff(b: nat)
      modifies this
      ensures View() == Retry(old(View()), b)
    {
      log := log + [Waited(Backoff(reconnectAttempts))];
      bodies := bodies[b := Sleeping];
    }

    method OnResolved(b: nat, answer: Resolution)
      requires Enabled(View(), Resolved(b, answer))
      modifies this
      ensures View() == Step(old(View()), Resolved(b, answer), withKeepalive)
    {
      match answer {
        case Options =>
          bodies := bodies[b := Registering];
        case NoGateway =>
          reconnectAttempts := 0;
          bodies := bodies - {b};
          reconnecting := false;
        case ResolveFailed =>
          BackOff(b);
      }
    }

    method OnRegistered(b: nat, ok: bool)
      requires Enabled(View(), Registered(b, ok))
      modifies this
      ensures View() == Step(old(View()), Registered(b, ok), withKeepalive)
    {
      if ok {
        WireGatewayRegistrationAndKeepalive();
        reconnectAttempts := 0;
        bodies := bodies - {b};
        reconnecting := false;
      } else {
        BackOff(b);
      }
    }

    method OnWoke(b: nat)
      requires Enabled(View(), Woke(b))
      modifies this
      ensures View() == Step(old(View()), Woke(b), withKeepalive)
    {
      EnterLoop(b);
    }

    /** The shutdown hook: the keepalive first, then the registrar. */
    method ShutDown()
      requires Enabled(View(), Shutdown)
      modifies this
      ensures View() == Step(old(View()), Shutdown, withKeepalive)
    {
      shuttingDown := true;
      if keepaliveStop.Some? && keepaliveStop.value < |keepalives| {
        keepalives := keepalives[keepaliveStop.value := true];
      }
      if gatewayHandle.Some? && gatewayHandle.value < |registrars| {
        registrars := registrars[gatewayHandle.value := true];
      }
    }
  }
}
