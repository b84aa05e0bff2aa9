/** What every interleaving of callers of the registry keeps. */
module BindingRegistrySafety {
  import opened Common
  import opened BindingRegistry

  function LockOf(phase: Phase): Option<LockId> {
    match phase
    case WaitingForLock(l) => Some(l)
    case HoldingLock(l) => Some(l)
    case Provisioning(l) => Some(l)
    case _ => None
  }

  predicate Holds(phase: Phase, l: LockId) { (phase.HoldingLock? || phase.Provisioning?) && phase.holds == l }

  // ---- The invariant -------------------------------------------------------------------------

  ghost predicate Inv(s: State) {
    && LocksOk(s) && CallsOk(s) && HoldersOk(s)
  }

  /** Lock objects are never shared between keys. */
  ghost predicate LocksOk(s: State) {
    && (forall k | k in s.locks :: s.locks[k] < s.created)
    && (forall j, k | j in s.locks && k in s.locks && s.locks[j] == s.locks[k] :: j == k)
  }

  /** A call past `_get_lock` has its key's lock; a provisioning call's key is still missing or stale. */
  ghost predicate CallsOk(s: State) {
    forall c | c in s.calls :: CallOk(s, c)
  }

  ghost predicate CallOk(s: State, c: CallId)
    requires c in s.calls
  {
    var call := s.calls[c];
    && (LockOf(call.phase).Some? ==> call.key in s.locks && s.locks[call.key] == LockOf(call.phase).value)
    && (call.phase.Provisioning? ==> !Fresh(s.bindings, call.key, call.forVersion))
  }

  /** The locks and the guard say who holds them. */
  ghost predicate HoldersOk(s: State) {
    && (forall c | c in s.calls :: HolderOk(s, c))
    && (forall l | l in s.held :: s.held[l] in s.calls && Holds(s.calls[s.held[l]].phase, l))
    && (s.guard.Some? ==> At(s, s.guard.value, HoldingGuard))
  }

  ghost predicate HolderOk(s: State, c: CallId)
    requires c in s.calls
  {
    var phase := s.calls[c].phase;
    && (phase.HoldingLock? || phase.Provisioning? ==> phase.holds in s.held && s.held[phase.holds] == c)
    && (phase == HoldingGuard ==> s.guard == Some(c))
  }

  lemma StepKeepsLocks(s: State, e: Event)
    requires Inv(s) && Enabled(s, e)
    ensures LocksOk(Step(s, e))
  {
  }

  lemma StepKeepsHolders(s: State, e: Event)
    requires Inv(s) && Enabled(s, e)
    ensures HoldersOk(Step(s, e))
  {
    var t := Step(s, e);
    forall d | d in t.calls ensures HolderOk(t, d) {
      assert d in s.calls ==> HolderOk(s, d);
      assert e.caller in s.calls ==> HolderOk(s, e.caller);
      HolderKept(s, e, d);
    }
    forall l | l in t.held ensures t.held[l] in t.calls && Holds(t.calls[t.held[l]].phase, l) { HeldKept(s, e, l); }
  }

  lemma HolderKept(s: State, e: Event, d: CallId)
    requires Enabled(s, e) && d in Step(s, e).calls
    requires d in s.calls ==> HolderOk(s, d)
    requires e.caller in s.calls ==> HolderOk(s, e.caller)
    ensures HolderOk(Step(s, e), d)
  {
  }

  lemma HeldKept(s: State, e: Event, l: LockId)
    requires Inv(s) && Enabled(s, e) && l in Step(s, e).held
    ensures var t := Step(s, e); t.held[l] in t.calls && Holds(t.calls[t.held[l]].phase, l)
  {
    assert e.caller in s.calls ==> HolderOk(s, e.caller);
  }

  lemma StepKeepsCalls(s: State, e: Event)
    requires Inv(s) && Enabled(s, e)
    ensures CallsOk(Step(s, e))
  {
    forall d | d in Step(s, e).calls ensures CallOk(Step(s, e), d) {
      if d == e.caller { CallerOk(s, e); } else { OtherOk(s, e, d); }
    }
  }

  lemma CallerOk(s: State, e: Event)
    requires Inv(s) && Enabled(s, e)
    ensures CallOk(Step(s, e), e.caller)
  {
    assert e.caller in s.calls ==> CallOk(s, e.caller);
  }

  lemma OtherOk(s: State, e: Event, d: CallId)
    requires Inv(s) && Enabled(s, e) && d in s.calls && d != e.caller
    ensures d in Step(s, e).calls && CallOk(Step(s, e), d)
  {
    assert CallOk(s, d);
    if e.Provisioned? { OtherNotProvisioning(s, e.caller, d); }
  }

  /** Two calls on one key never provision at once. */
  lemma OtherNotProvisioning(s: State, c: CallId, d: CallId)
    requires Inv(s) && c in s.calls && s.calls[c].phase.Provisioning? && d in s.calls && c != d
    ensures s.calls[d].key == s.calls[c].key ==> !s.calls[d].phase.Provisioning? && !s.calls[d].phase.HoldingLock?
  {
    assert CallOk(s, c) && CallOk(s, d);
    assert HolderOk(s, c) && HolderOk(s, d);
  }

  lemma {:induction false} RunInv(events: seq<Event>)
    ensures Inv(Run(events))
  {
    if events != [] {
      var s, e := Run(events[..|events| - 1]), events[|events| - 1];
      RunInv(events[..|events| - 1]);
      if Enabled(s, e) {
        StepKeepsLocks(s, e);
        StepKeepsHolders(s, e);
        StepKeepsCalls(s, e);
      }
    }
  }

  // ---- One lock per key ----------------------------------------------------------------------

  /** In every reachable state, calls past `_get_lock` have the same lock exactly when they ask for the same
      key, and at most one of them is inside the locked block. */
  lemma OneLockPerKey(events: seq<Event>, c: CallId, d: CallId)
    requires var s := Run(events);
      c in s.calls && d in s.calls && LockOf(s.calls[c].phase).Some? && LockOf(s.calls[d].phase).Some?
    ensures var s := Run(events);
      && (s.calls[c].key == s.calls[d].key <==> LockOf(s.calls[c].phase) == LockOf(s.calls[d].phase))
      && (c != d && s.calls[c].key == s.calls[d].key ==>
            s.calls[c].phase.WaitingForLock? || s.calls[d].phase.WaitingForLock?)
  {
    RunInv(events);
    assert CallOk(Run(events), c) && CallOk(Run(events), d);
    assert HolderOk(Run(events), c) && HolderOk(Run(events), d);
  }

  /** A key's lock, once created, is its lock for good. */
  lemma {:induction false} LocksStay(events: seq<Event>, n: nat, key: Key)
    requires n <= |events| && key in Run(events[..n]).locks
    ensures key in Run(events).locks && Run(events).locks[key] == Run(events[..n]).locks[key]
  {
    if n == |events| {
      assert events[..n] == events;
    } else {
      var init := events[..|events| - 1];
      assert init[..n] == events[..n];
      LocksStay(init, n, key);
    }
  }

  // ---- Progress ------------------------------------------------------------------------------

  predicate Ended(phase: Phase) { phase.Returned? || phase.Raised? }

  ghost predicate Advances(e: Event) { !e.Enter? && !e.Fail? }

  /** No deadlock: while any call has not ended, some call can advance without anyone failing. */
  lemma NoDeadlock(events: seq<Event>, c: CallId)
    requires c in Run(events).calls && !Ended(Run(events).calls[c].phase)
    ensures exists e :: Advances(e) && Enabled(Run(events), e)
  {
    var s := Run(events);
    RunInv(events);
    match s.calls[c].phase
    case Entering => assert Enabled(s, LookUpLock(c));
    case WaitingForGuard =>
      if s.guard == None {
        assert Enabled(s, TakeGuard(c));
      } else {
        assert Enabled(s, MakeLock(s.guard.value));
      }
    case HoldingGuard => assert Enabled(s, MakeLock(c));
    case WaitingForLock(l) =>
      if l in s.held {
        HolderAdvances(s, s.held[l]);
      } else {
        assert Enabled(s, TakeLock(c));
      }
    case HoldingLock(_) => assert Enabled(s, ReRead(c));
    case Provisioning(_) => HolderAdvances(s, c);
  }

  lemma HolderAdvances(s: State, d: CallId)
    requires d in s.calls && (s.calls[d].phase.HoldingLock? || s.calls[d].phase.Provisioning?)
    ensures exists e :: Advances(e) && Enabled(s, e)
  {
    var b := Binding("", "", 0, "");
    assert Enabled(s, ReRead(d)) || Enabled(s, Provisioned(d, b));
    assert Advances(ReRead(d)) && Advances(Provisioned(d, b));
  }

  // ---- Versions ------------------------------------------------------------------------------

  /** Every provision that stored something returned a version no older than the one asked for. */
  ghost predicate Honest(provisions: seq<Provision>) {
    forall i | 0 <= i < |provisions| :: provisions[i].binding.forVersion >= provisions[i].requested
  }

  /** For each key the stored versions rise strictly, and each was provisioned for a version above all that
      was stored before. */
  ghost predicate Rising(provisions: seq<Provision>) {
    forall i, j | 0 <= i < j < |provisions| && provisions[i].key == provisions[j].key ::
      && provisions[i].binding.forVersion < provisions[j].binding.forVersion
      && provisions[i].binding.forVersion < provisions[j].requested
  }

  /** What is stored for a key is what was provisioned for it last. */
  ghost predicate StoredIsLast(s: State) {
    && (forall k | k in s.bindings :: exists i :: LastFor(s.provisions, k, i) && s.provisions[i].binding == s.bindings[k])
    && (forall i | 0 <= i < |s.provisions| :: s.provisions[i].key in s.bindings)
  }

  ghost predicate LastFor(provisions: seq<Provision>, k: Key, i: int) {
    0 <= i < |provisions| && provisions[i].key == k && forall j | i < j < |provisions| :: provisions[j].key != k
  }

  lemma StepKeepsStored(s: State, e: Event)
    requires Enabled(s, e) && StoredIsLast(s)
    ensures StoredIsLast(Step(s, e))
  {
    var t := Step(s, e);
    if e.Provisioned? {
      var call := s.calls[e.caller];
      NowLast(s, t, Provision(call.key, call.forVersion, e.binding));
    } else {
      StillLast(s, t);
    }
  }

  lemma StillLast(s: State, t: State)
    requires StoredIsLast(s) && t.bindings == s.bindings && t.provisions == s.provisions
    ensures StoredIsLast(t)
  {
  }

  lemma NowLast(s: State, t: State, p: Provision)
    requires StoredIsLast(s) && t.bindings == s.bindings[p.key := p.binding] && t.provisions == s.provisions + [p]
    ensures StoredIsLast(t)
  {
    var n := |s.provisions|;
    forall k | k in t.bindings
      ensures exists i :: LastFor(t.provisions, k, i) && t.provisions[i].binding == t.bindings[k]
    {
      if k == p.key {
        assert LastFor(t.provisions, k, n) && t.provisions[n].binding == t.bindings[k];
      } else {
        var i :| LastFor(s.provisions, k, i) && s.provisions[i].binding == s.bindings[k];
        assert LastFor(t.provisions, k, i) && t.provisions[i].binding == t.bindings[k];
      }
    }
  }

  lemma {:induction false} RunStored(events: seq<Event>)
    ensures StoredIsLast(Run(events))
  {
    if events != [] {
      var s, e := Run(events[..|events| - 1]), events[|events| - 1];
      RunStored(events[..|events| - 1]);
      if Enabled(s, e) { StepKeepsStored(s, e); }
    }
  }

  lemma {:induction false} HistoryGrows(events: seq<Event>, n: nat)
    requires n <= |events|
    ensures Run(events[..n]).provisions <= Run(events).provisions
  {
    if n == |events| {
      assert events[..n] == events;
    } else {
      var init := events[..|events| - 1];
      assert init[..n] == events[..n];
      HistoryGrows(init, n);
    }
  }

  /** In every interleaving in which provisions are honest, however many of them raise: the versions stored
      for a key rise strictly, so there is at most one successful provision per key and requested version. */
  lemma {:induction false} AtMostOneProvision(events: seq<Event>)
    requires Honest(Run(events).provisions)
    ensures Rising(Run(events).provisions)
  {
    if events != [] {
      var init, e := events[..|events| - 1], events[|events| - 1];
      HonestBefore(events);
      AtMostOneProvision(init);
      RunInv(init);
      RunStored(init);
      if Enabled(Run(init), e) { StepRises(Run(init), e); }
    }
  }

  lemma HonestBefore(events: seq<Event>)
    requires events != [] && Honest(Run(events).provisions)
    ensures Honest(Run(events[..|events| - 1]).provisions)
  {
    var s, t := Run(events[..|events| - 1]), Run(events);
    HistoryGrows(events, |events| - 1);
    assert forall i | 0 <= i < |s.provisions| :: s.provisions[i] == t.provisions[i];
  }

  lemma StepRises(s: State, e: Event)
    requires Inv(s) && StoredIsLast(s) && Rising(s.provisions) && Enabled(s, e)
    requires Honest(Step(s, e).provisions)
    ensures Rising(Step(s, e).provisions)
  {
    if e.Provisioned? {
      var p := Provision(s.calls[e.caller].key, s.calls[e.caller].forVersion, e.binding);
      assert Step(s, e).provisions == s.provisions + [p];
      assert (s.provisions + [p])[|s.provisions|] == p;
      assert CallOk(s, e.caller);
      NewProvisionRises(s, p);
    } else {
      assert Step(s, e).provisions == s.provisions;
    }
  }

  lemma NewProvisionRises(s: State, p: Provision)
    requires StoredIsLast(s) && Rising(s.provisions)
    requires !Fresh(s.bindings, p.key, p.requested) && p.binding.forVersion >= p.requested
    ensures Rising(s.provisions + [p])
  {
    forall i | 0 <= i < |s.provisions| && s.provisions[i].key == p.key
      ensures s.provisions[i].binding.forVersion < p.requested
    {
      var last :| LastFor(s.provisions, p.key, last) && s.provisions[last].binding == s.bindings[p.key];
      assert i == last || i < last;
    }
  }

  /** Without any assumption on provisions, a step lowers the version stored for a key exactly when it stores
      a provision's result older than what was stored. */
  lemma VersionDropsIff(events: seq<Event>, e: Event, key: Key)
    requires Enabled(Run(events), e) && key in Run(events).bindings
    ensures var s, t := Run(events), Step(Run(events), e);
      key in t.bindings
      && (t.bindings[key].forVersion < s.bindings[key].forVersion
          <==> e.Provisioned? && s.calls[e.caller].key == key && e.binding.forVersion < s.bindings[key].forVersion)
  {
  }

  /** A call with no one else in the way, from entering to storing what its provision returned. */
  function WholeCall(c: CallId, key: Key, forVersion: int, b: Binding): seq<Event> {
    [Enter(c, key, forVersion), LookUpLock(c), TakeLock(c), ReRead(c), Provisioned(c, b)]
  }

  /** Such a call on a key whose lock exists and whose binding is missing or stale stores whatever its provision
      returned. */
  lemma WholeCallStores(events: seq<Event>, c: CallId, key: Key, forVersion: int, b: Binding)
    requires var s := Run(events);
      c !in s.calls && key in s.locks && s.locks[key] !in s.held
      && (key in s.bindings ==> s.bindings[key].forVersion < forVersion)
    ensures var s, t := Run(events), Run(events + WholeCall(c, key, forVersion, b));
      c in t.calls &&
      key in t.bindings && t.bindings[key] == b && t.calls[c].phase == Returned(b) && t.held == s.held
  {
    var e1 := events + [Enter(c, key, forVersion)];
    var e2 := e1 + [LookUpLock(c)];
    var e3 := e2 + [TakeLock(c)];
    var e4 := e3 + [ReRead(c)];
    RunExtends(events, Enter(c, key, forVersion));
    RunExtends(e1, LookUpLock(c));
    RunExtends(e2, TakeLock(c));
    RunExtends(e3, ReRead(c));
    RunExtends(e4, Provisioned(c, b));
    assert events + WholeCall(c, key, forVersion, b) == e4 + [Provisioned(c, b)];
  }

  /** With a binding not older than asked for it returns that binding and provisions nothing. */
  lemma WholeCallReturns(events: seq<Event>, c: CallId, key: Key, forVersion: int, b: Binding)
    requires var s := Run(events);
      c !in s.calls && key in s.locks && s.locks[key] !in s.held
      && key in s.bindings && forVersion <= s.bindings[key].forVersion
    ensures var s, t := Run(events), Run(events + WholeCall(c, key, forVersion, b));
      && c in t.calls && t.calls[c].phase == Returned(s.bindings[key])
      && t.bindings == s.bindings && t.provisions == s.provisions && t.held == s.held
  {
    var e1 := events + [Enter(c, key, forVersion)];
    var e2 := e1 + [LookUpLock(c)];
    var e3 := e2 + [TakeLock(c)];
    var e4 := e3 + [ReRead(c)];
    RunExtends(events, Enter(c, key, forVersion));
    RunExtends(e1, LookUpLock(c));
    RunExtends(e2, TakeLock(c));
    RunExtends(e3, ReRead(c));
    RunExtends(e4, Provisioned(c, b));
    assert events + WholeCall(c, key, forVersion, b) == e4 + [Provisioned(c, b)];
  }

  /** The events of the first call on a key, up to its lock and from there. */
  function GetLock(c: CallId, key: Key, forVersion: int): seq<Event> {
    [Enter(c, key, forVersion)] + [LookUpLock(c)] + [TakeGuard(c)] + [MakeLock(c)]
  }

  lemma FirstLock(c: CallId, key: Key, forVersion: int)
    ensures Run(GetLock(c, key, forVersion))
         == EMPTY.(calls := map[c := Call(key, forVersion, WaitingForLock(0))], locks := map[key := 0], created := 1)
  {
    var e1 := [Enter(c, key, forVersion)];
    var e2 := e1 + [LookUpLock(c)];
    var e3 := e2 + [TakeGuard(c)];
    RunExtends([], Enter(c, key, forVersion));
    assert [] + e1 == e1;
    RunExtends(e1, LookUpLock(c));
    RunExtends(e2, TakeGuard(c));
    RunExtends(e3, MakeLock(c));
  }

  /** Every key gets into such a state: by its first call. */
  lemma FirstCallStores(c: CallId, key: Key, forVersion: int, b: Binding)
    ensures var t := Run(GetLock(c, key, forVersion) + [TakeLock(c)] + [ReRead(c)] + [Provisioned(c, b)]);
      t.calls.Keys == {c} && key in t.locks && t.locks[key] !in t.held && key in t.bindings && t.bindings[key] == b
  {
    var e4 := GetLock(c, key, forVersion);
    var e5 := e4 + [TakeLock(c)];
    var e6 := e5 + [ReRead(c)];
    FirstLock(c, key, forVersion);
    RunExtends(e4, TakeLock(c));
    RunExtends(e5, ReRead(c));
    RunExtends(e6, Provisioned(c, b));
  }

  /** So in every reachable state in which a key's lock is free, a caller asking for a later version whose
      provision returns an older binding lowers the version stored. */
  lemma VersionCanDrop(events: seq<Event>, c: CallId, key: Key, b: Binding)
    requires var s := Run(events);
      c !in s.calls && key in s.locks && s.locks[key] !in s.held
      && key in s.bindings && b.forVersion < s.bindings[key].forVersion
    ensures var s := Run(events);
      var t := Run(events + WholeCall(c, key, s.bindings[key].forVersion + 1, b));
      key in t.bindings && t.bindings[key].forVersion < s.bindings[key].forVersion
  {
    WholeCallStores(events, c, key, Run(events).bindings[key].forVersion + 1, b);
  }

  /** A call returns a binding older than it asked for exactly when its own provision gave it one. */
  lemma ReturnsOlderIff(events: seq<Event>, e: Event, c: CallId)
    requires var s := Run(events);
      Enabled(s, e) && c in s.calls && !s.calls[c].phase.Returned? && Step(s, e).calls[c].phase.Returned?
    ensures var s, t := Run(events), Step(Run(events), e);
      && t.calls[c].key in t.bindings && t.calls[c].phase.binding == t.bindings[t.calls[c].key]
      && (t.calls[c].phase.binding.forVersion < t.calls[c].forVersion
          <==> e.Provisioned? && e.caller == c && e.binding.forVersion < s.calls[c].forVersion)
  {
  }

  /** Stored versions never decrease over a run with honest provisions. */
  lemma {:induction false} VersionsNeverDecrease(events: seq<Event>, n: nat, key: Key)
    requires n <= |events| && Honest(Run(events).provisions) && key in Run(events[..n]).bindings
    ensures key in Run(events).bindings
    ensures Run(events[..n]).bindings[key].forVersion <= Run(events).bindings[key].forVersion
  {
    if n == |events| {
      assert events[..n] == events;
    } else {
      var init, e := events[..|events| - 1], events[|events| - 1];
      var s, t := Run(init), Run(events);
      assert init[..n] == events[..n];
      HonestBefore(events);
      VersionsNeverDecrease(init, n, key);
      if Enabled(s, e) && e.Provisioned? && s.calls[e.caller].key == key {
        RunInv(init);
        assert CallOk(s, e.caller);
        assert t.provisions[|s.provisions|].binding == e.binding;
      }
    }
  }

  /** The loser of a race re-reads: a caller waiting while another provisions its key then returns that
      binding, or, exactly when it is older than the waiter asked for, provisions again. */
  lemma LoserReReads(events: seq<Event>, c: CallId, d: CallId, b: Binding)
    requires var s := Run(events);
      && c in s.calls && s.calls[c].phase.Provisioning?
      && d in s.calls && s.calls[d].phase.WaitingForLock? && s.calls[d].key == s.calls[c].key
    ensures var s, t := Run(events), Run(events + [Provisioned(c, b), TakeLock(d), ReRead(d)]);
      d in t.calls
      && if b.forVersion >= s.calls[d].forVersion then t.calls[d].phase == Returned(b) else t.calls[d].phase.Provisioning?
  {
    RunInv(events);
    var s := Run(events);
    assert CallOk(s, c) && CallOk(s, d) && HolderOk(s, c);
    var one := events + [Provisioned(c, b)];
    RunExtends(events, Provisioned(c, b));
    Stored(s, c, d, b);
    RunExtends(one, TakeLock(d));
    RunExtends(one + [TakeLock(d)], ReRead(d));
    assert one + [TakeLock(d)] + [ReRead(d)] == events + [Provisioned(c, b), TakeLock(d), ReRead(d)];
  }

  /** Storing a binding lets a waiter for the same lock in. */
  lemma Stored(s: State, c: CallId, d: CallId, b: Binding)
    requires Enabled(s, Provisioned(c, b)) && d in s.calls && d != c && s.calls[d].key == s.calls[c].key
    requires s.calls[d].phase == WaitingForLock(s.calls[c].phase.holds)
    ensures var t := Step(s, Provisioned(c, b));
      && Enabled(t, TakeLock(d)) && t.calls[d] == s.calls[d]
      && t.calls[d].key in t.bindings && t.bindings[t.calls[d].key] == b
  {
  }

  lemma RunExtends(events: seq<Event>, e: Event)
    ensures Run(events + [e]) == if Enabled(Run(events), e) then Step(Run(events), e) else Run(events)
  {
    assert (events + [e])[..|events|] == events;
  }

  /** A failed provision leaves everything stored as it was and hands the lock on. */
  lemma FailureHandsOn(events: seq<Event>, c: CallId, d: CallId)
    requires var s := Run(events);
      && c in s.calls && s.calls[c].phase.Provisioning?
      && d in s.calls && s.calls[d].phase.WaitingForLock? && s.calls[d].key == s.calls[c].key
    ensures var s, t := Run(events), Run(events + [Fail(c)]);
      && t.bindings == s.bindings && t.provisions == s.provisions && t.locks == s.locks
      && Enabled(t, TakeLock(d))
  {
    RunInv(events);
    var s := Run(events);
    assert CallOk(s, c) && CallOk(s, d) && HolderOk(s, c);
    RunExtends(events, Fail(c));
  }

  // ---- One version for all -------------------------------------------------------------------

  /** Every call asks for version v and every provision returns it, as the stream-first backend does with its
      constant version 1. */
  ghost predicate OneVersion(events: seq<Event>, v: int) {
    forall i | 0 <= i < |events| ::
      (events[i].Enter? ==> events[i].forVersion == v) && (events[i].Provisioned? ==> events[i].binding.forVersion == v)
  }

  ghost predicate Pinned(s: State, v: int) {
    && (forall c | c in s.calls :: s.calls[c].forVersion == v)
    && (forall k | k in s.bindings :: s.bindings[k].forVersion == v)
    && (forall c | c in s.calls && s.calls[c].phase.Returned? ::
          s.calls[c].key in s.bindings && s.bindings[s.calls[c].key] == s.calls[c].phase.binding)
  }

  lemma {:induction false} RunPinned(events: seq<Event>, v: int)
    requires OneVersion(events, v)
    ensures Pinned(Run(events), v)
  {
    if events != [] {
      var init, e := events[..|events| - 1], events[|events| - 1];
      assert forall i | 0 <= i < |init| :: init[i] == events[i];
      RunPinned(init, v);
      RunInv(init);
      if Enabled(Run(init), e) { StepPinned(Run(init), e, v); }
    }
  }

  lemma StepPinned(s: State, e: Event, v: int)
    requires Inv(s) && Pinned(s, v) && Enabled(s, e)
    requires (e.Enter? ==> e.forVersion == v) && (e.Provisioned? ==> e.binding.forVersion == v)
    ensures Pinned(Step(s, e), v)
  {
    var t := Step(s, e);
    if e.Provisioned? { assert CallOk(s, e.caller); }
    forall c | c in t.calls && t.calls[c].phase.Returned?
      ensures t.calls[c].key in t.bindings && t.bindings[t.calls[c].key] == t.calls[c].phase.binding
    {
    }
  }

  /** With one version throughout, the first binding stored for a key is final: every call for the key, early
      or late and whatever agent it would have provisioned, returns that binding. */
  lemma {:induction false} FirstBindingIsFinal(events: seq<Event>, n: nat, v: int, c: CallId)
    requires OneVersion(events, v) && n <= |events|
    requires var t := Run(events);
      c in t.calls && t.calls[c].phase.Returned? && t.calls[c].key in Run(events[..n]).bindings
    ensures Run(events).calls[c].phase.binding == Run(events[..n]).bindings[Run(events).calls[c].key]
  {
    RunPinned(events, v);
    BindingStays(events, n, v, Run(events).calls[c].key);
  }

  lemma {:induction false} BindingStays(events: seq<Event>, n: nat, v: int, key: Key)
    requires OneVersion(events, v) && n <= |events| && key in Run(events[..n]).bindings
    ensures key in Run(events).bindings && Run(events).bindings[key] == Run(events[..n]).bindings[key]
  {
    if n == |events| {
      assert events[..n] == events;
    } else {
      var init, e := events[..|events| - 1], events[|events| - 1];
      assert init[..n] == events[..n];
      assert forall i | 0 <= i < |init| :: init[i] == events[i];
      BindingStays(init, n, v, key);
      RunPinned(init, v);
      RunInv(init);
      if Enabled(Run(init), e) && e.Provisioned? { assert CallOk(Run(init), e.caller); }
    }
  }
}
