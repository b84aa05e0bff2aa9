/** The in-memory provider-binding registry: concurrent callers that get a binding or provision one, with a
    lock per key that is itself created under a guard. */
module BindingRegistry {
  import opened Common

  datatype Key = Key(userId: string, agentId: string, provider: string)

  datatype Binding = Binding(agentId: string, environmentId: string, forVersion: int, provisionedAt: string)

  type CallId = nat
  type LockId = nat

  /** Where a call of `get_or_provision` is suspended, or how it ended. */
  datatype Phase =
    | Entering
    | WaitingForGuard
    | HoldingGuard
    | WaitingForLock(waits: LockId)
    | HoldingLock(holds: LockId)
    | Provisioning(holds: LockId)
    | Returned(binding: Binding)
    | Raised

  datatype Call = Call(key: Key, forVersion: int, phase: Phase)

  datatype Provision = Provision(key: Key, requested: int, binding: Binding)

  /** `provisions` is the history of the bindings stored, in order. */
  datatype State = State(
    bindings: map<Key, Binding>,
    locks: map<Key, LockId>,
    created: nat,
    guard: Option<CallId>,
    held: map<LockId, CallId>,
    calls: map<CallId, Call>,
    provisions: seq<Provision>)

  const EMPTY := State(map[], map[], 0, None, map[], map[], [])

  datatype Event =
    | Enter(caller: CallId, key: Key, forVersion: int)
    | LookUpLock(caller: CallId)
    | TakeGuard(caller: CallId)
    | MakeLock(caller: CallId)
    | TakeLock(caller: CallId)
    | ReRead(caller: CallId)
    | Provisioned(caller: CallId, binding: Binding)
    | Fail(caller: CallId)

  // ---- Steps ---------------------------------------------------------------------------------

  predicate At(s: State, c: CallId, phase: Phase) { c in s.calls && s.calls[c].phase == phase }

  /** What may happen next. A call can raise, or be cancelled, wherever it is suspended. */
  predicate Enabled(s: State, e: Event) {
    match e
    case Enter(c, _, _) => c !in s.calls
    case LookUpLock(c) => At(s, c, Entering)
    case TakeGuard(c) => At(s, c, WaitingForGuard) && s.guard == None
    case MakeLock(c) => At(s, c, HoldingGuard)
    case TakeLock(c) => c in s.calls && s.calls[c].phase.WaitingForLock? && s.calls[c].phase.waits !in s.held
    case ReRead(c) => c in s.calls && s.calls[c].phase.HoldingLock?
    case Provisioned(c, _) => c in s.calls && s.calls[c].phase.Provisioning?
    case Fail(c) =>
      c in s.calls && (s.calls[c].phase == WaitingForGuard || s.calls[c].phase.WaitingForLock?
                       || s.calls[c].phase.Provisioning?)
  }

  function Moved(s: State, c: CallId, phase: Phase): State
    requires c in s.calls
  {
    s.(calls := s.calls[c := s.calls[c].(phase := phase)])
  }

  /** Leaving the lock's block, one way or the other. */
  function Released(s: State, c: CallId, phase: Phase): State
    requires c in s.calls
  {
    if s.calls[c].phase.HoldingLock? || s.calls[c].phase.Provisioning?
    then Moved(s.(held := s.held - {s.calls[c].phase.holds}), c, phase)
    else Moved(s, c, phase)
  }

  predicate Fresh(bindings: map<Key, Binding>, key: Key, forVersion: int) {
    key in bindings && bindings[key].forVersion >= forVersion
  }

  function Step(s: State, e: Event): State
    requires Enabled(s, e)
  {
    match e
    case Enter(c, key, version) => s.(calls := s.calls[c := Call(key, version, Entering)])
    case LookUpLock(c) =>
      var key := s.calls[c].key;
      if key in s.locks then Moved(s, c, WaitingForLock(s.locks[key])) else Moved(s, c, WaitingForGuard)
    case TakeGuard(c) => Moved(s, c, HoldingGuard).(guard := Some(c))
    case MakeLock(c) =>
      var key := s.calls[c].key;
      if key in s.locks then Moved(s, c, WaitingForLock(s.locks[key])).(guard := None)
      else
        Moved(s, c, WaitingForLock(s.created))
        .(guard := None, locks := s.locks[key := s.created], created := s.created + 1)
    case TakeLock(c) =>
      var l := s.calls[c].phase.waits;
      Moved(s, c, HoldingLock(l)).(held := s.held[l := c])
    case ReRead(c) =>
      var call := s.calls[c];
      if Fresh(s.bindings, call.key, call.forVersion) then Released(s, c, Returned(s.bindings[call.key]))
      else Moved(s, c, Provisioning(call.phase.holds))
    case Provisioned(c, b) =>
      var call := s.calls[c];
      Released(s, c, Returned(b))
      .(bindings := s.bindings[call.key := b],
        provisions := s.provisions + [Provision(call.key, call.forVersion, b)])
    case Fail(c) => Released(s, c, Raised)
  }

  /** Every sequence of events is a run: one that cannot happen where it stands is skipped. */
  function Run(events: seq<Event>): State {
    if events == [] then EMPTY
    else
      var s, e := Run(events[..|events| - 1]), events[|events| - 1];
      if Enabled(s, e) then Step(s, e) else s
  }

  // ---- The registry --------------------------------------------------------------------------

  /** The registry object, with the frames of the calls suspended in it. Each method is the code between two
      suspension points. */
  class InMemoryProviderBindingRegistry {
    var bindings: map<Key, Binding>
    var locks: map<Key, LockId>
    var created: nat
    var guard: Option<CallId>
    var held: map<LockId, CallId>
    var calls: map<CallId, Call>
    ghost var provisions: seq<Provision>

    ghost function View(): State
      reads this
    {
      State(bindings, locks, created, guard, held, calls, provisions)
    }

    constructor ()
      ensures View() == EMPTY
    {
      bindings, locks, created, guard, held, calls := map[], map[], 0, None, map[], map[];
      provisions := [];
    }

    /** `get_binding`: a stale binding is a miss. */
    method GetBinding(key: Key, forVersion: int) returns (found: Option<Binding>)
      ensures found == if key in bindings && forVersion <= bindings[key].forVersion then Some(bindings[key]) else None
    {
      if key !in bindings { return None; }
      var stored := bindings[key];
      if stored.forVersion < forVersion { return None; }
      return Some(stored);
    }

    method Begin(c: CallId, key: Key, forVersion: int)
      requires Enabled(View(), Enter(c, key, forVersion))
      modifies this
      ensures View() == Step(old(View()), Enter(c, key, forVersion))
    {
      calls := calls[c := Call(key, forVersion, Entering)];
    }

    /** First half of `_get_lock`: the lookup without the guard. */
    method FindLock(c: CallId)
      requires Enabled(View(), LookUpLock(c))
      modifies this
      ensures View() == Step(old(View()), LookUpLock(c))
    {
      var call := calls[c];
      if call.key in locks {
        calls := calls[c := call.(phase := WaitingForLock(locks[call.key]))];
      } else {
        calls := calls[c := call.(phase := WaitingForGuard)];
      }
    }

    method AcquireGuard(c: CallId)
      requires Enabled(View(), TakeGuard(c))
      modifies this
      ensures View() == Step(old(View()), TakeGuard(c))
    {
      guard := Some(c);
      calls := calls[c := calls[c].(phase := HoldingGuard)];
    }

    /** Second half of `_get_lock`: look again under the guard, create if still missing, leave the guard. */
    method CreateLock(c: CallId)
      requires Enabled(View(), MakeLock(c))
      modifies this
      ensures View() == Step(old(View()), MakeLock(c))
    {
      var call := calls[c];
      var l;
      if call.key in locks {
        l := locks[call.key];
      } else {
        l := created;
        created := created + 1;
        locks := locks[call.key := l];
      }
      guard := None;
      calls := calls[c := call.(phase := WaitingForLock(l))];
    }

    method AcquireLock(c: CallId)
      requires Enabled(View(), TakeLock(c))
      modifies this
      ensures View() == Step(old(View()), TakeLock(c))
    {
      var l := calls[c].phase.waits;
      held := held[l := c];
      calls := calls[c := calls[c].(phase := HoldingLock(l))];
    }

    /** Re-read under the lock: return what the winner of the race stored, or go and provision. */
    method CheckStored(c: CallId)
      requires Enabled(View(), ReRead(c))
      modifies this
      ensures View() == Step(old(View()), ReRead(c))
    {
      var call := calls[c];
      if call.key in bindings && bindings[call.key].forVersion >= call.forVersion {
        held := held - {call.phase.holds};
        calls := calls[c := call.(phase := Returned(bindings[call.key]))];
      } else {
        calls := calls[c := call.(phase := Provisioning(call.phase.holds))];
      }
    }

    method Store(c: CallId, binding: Binding)
      requires Enabled(View(), Provisioned(c, binding))
      modifies this
      ensures View() == Step(old(View()), Provisioned(c, binding))
    {
      var call := calls[c];
      bindings := bindings[call.key := binding];
      provisions := provisions + [Provision(call.key, call.forVersion, binding)];
      held := held - {call.phase.holds};
      calls := calls[c := call.(phase := Returned(binding))];
    }

    method Unwind(c: CallId)
      requires Enabled(View(), Fail(c))
      modifies this
      ensures View() == Step(old(View()), Fail(c))
    {
      var call := calls[c];
      if call.phase.Provisioning? { held := held - {call.phase.holds}; }
      calls := calls[c := call.(phase := Raised)];
    }
  }
}
