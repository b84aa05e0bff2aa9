/** The bound on the broker's occupancy is reached: for every cap and every number of stops. */
module NetworkBrokerCap {
  import opened Common
  import opened NetworkBroker
  import opened NetworkBrokerSafety

  // ---- Ids -----------------------------------------------------------------------------------

  function Name(i: nat): (n: string)
    ensures |n| == i
  {
    if i == 0 then "" else Name(i - 1) + "x"
  }

  function Names(k: nat): set<string> {
    if k == 0 then {} else Names(k - 1) + {Name(k - 1)}
  }

  lemma {:induction false} NamesShorter(k: nat)
    ensures |Names(k)| == k && forall n | n in Names(k) :: |n| < k
  {
    if k > 0 { NamesShorter(k - 1); }
  }

  lemma {:induction false} NamesGrow(j: nat, k: nat)
    requires j <= k
    ensures Names(j) <= Names(k)
  {
    if j < k { NamesGrow(j, k - 1); }
  }

  // ---- The run, in three parts ---------------------------------------------------------------

  const PARAMS := StartParams("n", "u", "", "")

  /** Some ids stopped with their starts pending, some PROVISIONING, some RUNNING after a stop; none else. */
  ghost predicate Stage(s: Broker, stopped: set<string>, pending: set<string>, revived: set<string>) {
    && Wf(s) && s.stops == map[]
    && s.instances.Keys == stopped + pending + revived && s.disturbed == stopped + revived
    && stopped !! pending && stopped !! revived && pending !! revived
    && (forall id | id in stopped :: id in s.starts && s.starts[id].phase == Creating && StatusOf(s, id) == STOPPED)
    && (forall id | id in pending :: StatusOf(s, id) == PROVISIONING)
    && (forall id | id in revived :: StatusOf(s, id) == RUNNING)
  }

  lemma ActiveInStage(s: Broker, stopped: set<string>, pending: set<string>)
    requires Stage(s, stopped, pending, {})
    ensures Active(s) == pending
  {
  }

  /** The other ids stay where they are. */
  lemma OthersStay(s: Broker, e: Event, config: Config, ids: set<string>, status: Status)
    requires Inv(s) && Enabled(s, e) && ids <= s.instances.Keys && Target(s, e) !in ids
    requires forall id | id in ids :: StatusOf(s, id) == status
    ensures var t := Step(s, e, config);
      Inv(t) && forall id | id in ids :: SameFor(s, t, id) && id in t.instances && StatusOf(t, id) == status
  {
    StepKeeps(s, e, config);
    forall id | id in ids ensures SameFor(s, Step(s, e, config), id) { StepFrames(s, e, config, id); }
  }

  /** A start admitted. */
  lemma StartStage(s: Broker, id: string, config: Config, stopped: set<string>, pending: set<string>)
    requires Inv(s) && Stage(s, stopped, pending, {}) && |pending| < config.softCap && id !in s.instances
    ensures var t := Step(s, StartCall(id, PARAMS), config);
      Inv(t) && Stage(t, stopped, pending + {id}, {}) && id in t.starts && t.starts[id].phase == Creating
  {
    ActiveInStage(s, stopped, pending);
    Admits(s, id, config);
    Undisturbed(s, StartCall(id, PARAMS), config, stopped, pending);
    Assembled(s, Step(s, StartCall(id, PARAMS), config), id, stopped, pending);
  }

  lemma Undisturbed(s: Broker, e: Event, config: Config, stopped: set<string>, pending: set<string>)
    requires Inv(s) && Stage(s, stopped, pending, {}) && Enabled(s, e) && Target(s, e) !in stopped + pending
    ensures var t := Step(s, e, config);
      && Inv(t)
      && (forall x | x in stopped :: SameFor(s, t, x) && x in t.instances && StatusOf(t, x) == STOPPED)
      && (forall x | x in pending :: x in t.instances && StatusOf(t, x) == PROVISIONING)
  {
    OthersStay(s, e, config, stopped, STOPPED);
    OthersStay(s, e, config, pending, PROVISIONING);
  }

  lemma Assembled(s: Broker, t: Broker, id: string, stopped: set<string>, pending: set<string>)
    requires Stage(s, stopped, pending, {}) && id !in s.instances && Wf(t)
    requires t.instances.Keys == s.instances.Keys + {id} && t.stops == s.stops && t.disturbed == s.disturbed
    requires StatusOf(t, id) == PROVISIONING
    requires forall x | x in stopped :: SameFor(s, t, x) && StatusOf(t, x) == STOPPED
    requires forall x | x in pending :: x in t.instances && StatusOf(t, x) == PROVISIONING
    ensures Stage(t, stopped, pending + {id}, {})
  {
  }

  lemma Admits(s: Broker, id: string, config: Config)
    requires Wf(s) && id !in s.instances && |Active(s)| < config.softCap
    ensures var t := Step(s, StartCall(id, PARAMS), config);
      && Wf(t) && t.instances.Keys == s.instances.Keys + {id} && t.stops == s.stops && t.disturbed == s.disturbed
      && StatusOf(t, id) == PROVISIONING && id in t.starts && t.starts[id].phase == Creating
  {
    StepWf(s, StartCall(id, PARAMS), config);
  }

  /** A stop of a PROVISIONING instance without a sandbox. */
  lemma StopStage(s: Broker, id: string, config: Config, stopped: set<string>, pending: set<string>)
    requires Inv(s) && Stage(s, stopped, pending + {id}, {}) && id !in pending
    requires id in s.starts && s.starts[id].phase == Creating
    ensures Inv(Step(s, StopCall(0, id), config)) && Stage(Step(s, StopCall(0, id), config), stopped + {id}, pending, {})
  {
    var t := Step(s, StopCall(0, id), config);
    OthersAround(s, StopCall(0, id), config, stopped, pending, {});
    assert IdOk(s, id);
    StoppedAtOnce(s, 0, id, config);
    Disturbs(s, id);
    Moved(s, t, id, stopped, pending);
  }

  /** An event about one id leaves the three kinds of others where they are. */
  lemma OthersAround(s: Broker, e: Event, config: Config, stopped: set<string>, pending: set<string>, revived: set<string>)
    requires Inv(s) && Enabled(s, e) && stopped + pending + revived <= s.instances.Keys
    requires Target(s, e) !in stopped + pending + revived
    requires forall x | x in stopped :: StatusOf(s, x) == STOPPED
    requires forall x | x in pending :: StatusOf(s, x) == PROVISIONING
    requires forall x | x in revived :: StatusOf(s, x) == RUNNING
    ensures Inv(Step(s, e, config)) && Around(s, Step(s, e, config), stopped, pending, revived)
  {
    OthersStay(s, e, config, stopped, STOPPED);
    OthersStay(s, e, config, pending, PROVISIONING);
    OthersStay(s, e, config, revived, RUNNING);
  }

  ghost predicate Around(s: Broker, t: Broker, stopped: set<string>, pending: set<string>, revived: set<string>)
    requires Wf(s) && Wf(t) && stopped + pending + revived <= s.instances.Keys
  {
    && (forall x | x in stopped :: SameFor(s, t, x) && x in t.instances && StatusOf(t, x) == STOPPED)
    && (forall x | x in pending :: x in t.instances && StatusOf(t, x) == PROVISIONING)
    && (forall x | x in revived :: x in t.instances && StatusOf(t, x) == RUNNING)
  }

  lemma Moved(s: Broker, t: Broker, id: string, stopped: set<string>, pending: set<string>)
    requires Stage(s, stopped, pending + {id}, {}) && id !in pending && id in s.starts && s.starts[id].phase == Creating
    requires Wf(t) && Around(s, t, stopped, pending, {})
    requires t.instances.Keys == s.instances.Keys && t.stops == s.stops && t.disturbed == s.disturbed + {id}
    requires t.starts == s.starts && StatusOf(t, id) == STOPPED
    ensures Stage(t, stopped + {id}, pending, {})
  {
  }

  lemma Disturbs(s: Broker, id: string)
    requires Wf(s) && id in s.instances && s.instances[id].providerHandle == None && StatusOf(s, id) == PROVISIONING
    ensures var t := OnStop(s, 0, id);
      t.disturbed == s.disturbed + {id} && t.instances.Keys == s.instances.Keys && t.stops == s.stops
  {
  }

  /** A pending start of a stopped instance ends. */
  lemma ReviveStage(s: Broker, id: string, config: Config, stopped: set<string>, pending: set<string>, revived: set<string>)
    requires Inv(s) && Stage(s, stopped + {id}, pending, revived) && id !in stopped
    ensures var t := Step(s, Created(id, true, true), config);
      && Wf(t) && Enabled(t, BootRead(id, true))
      && Inv(Step(t, BootRead(id, true), config))
      && Stage(Step(t, BootRead(id, true), config), stopped, pending, revived + {id})
  {
    var t := Step(s, Created(id, true, true), config);
    var u := Step(t, BootRead(id, true), config);
    SandboxArrives(s, id, config);
    CreatedKeeps(s, id, config);
    OthersAround(s, Created(id, true, true), config, stopped, pending, revived);
    Boots(t, id, config);
    BootKeeps(t, id, config);
    OthersAround(t, BootRead(id, true), config, stopped, pending, revived);
    Revived(s, t, u, id, stopped, pending, revived);
  }

  lemma CreatedKeeps(s: Broker, id: string, config: Config)
    requires Wf(s) && id in s.starts && s.starts[id].phase == Creating
    ensures var t := Step(s, Created(id, true, true), config);
      t.instances.Keys == s.instances.Keys && t.stops == s.stops && t.disturbed == s.disturbed
  {
  }

  lemma BootKeeps(s: Broker, id: string, config: Config)
    requires Wf(s) && id in s.starts && s.starts[id].phase.Reading?
    ensures var t := Step(s, BootRead(id, true), config);
      t.instances.Keys == s.instances.Keys && t.stops == s.stops && t.disturbed == s.disturbed
  {
  }

  lemma Revived(s: Broker, t: Broker, u: Broker, id: string, stopped: set<string>, pending: set<string>, revived: set<string>)
    requires Stage(s, stopped + {id}, pending, revived) && id !in stopped && Wf(t) && Wf(u)
    requires t.instances.Keys == s.instances.Keys && t.stops == s.stops && t.disturbed == s.disturbed
    requires u.instances.Keys == t.instances.Keys && u.stops == t.stops && u.disturbed == t.disturbed
    requires Around(s, t, stopped, pending, revived) && Around(t, u, stopped, pending, revived)
    requires StatusOf(u, id) == RUNNING
    ensures Stage(u, stopped, pending, revived + {id})
  {
  }

  lemma {:induction false} BuildStopped(config: Config, n: nat) returns (events: seq<Event>)
    requires config.softCap >= 1
    ensures Stage(Run(events, config), Names(n), {}, {})
  {
    if n == 0 {
      events := [];
      return;
    }
    var before := BuildStopped(config, n - 1);
    events := ThenStopped(before, config, n);
  }

  lemma ThenStopped(before: seq<Event>, config: Config, n: nat) returns (events: seq<Event>)
    requires config.softCap >= 1 && n >= 1 && Stage(Run(before, config), Names(n - 1), {}, {})
    ensures Stage(Run(events, config), Names(n), {}, {})
  {
    var id := Name(n - 1);
    NamesShorter(n - 1);
    StartAndStop(Run(before, config), id, config, Names(n - 1), before);
    events := before + [StartCall(id, PARAMS)] + [StopCall(0, id)];
  }

  lemma StartAndStop(s: Broker, id: string, config: Config, stopped: set<string>, before: seq<Event>)
    requires config.softCap >= 1 && s == Run(before, config) && Stage(s, stopped, {}, {}) && id !in stopped
    ensures Stage(Run(before + [StartCall(id, PARAMS)] + [StopCall(0, id)], config), stopped + {id}, {}, {})
  {
    RunInv(before, config);
    StartThenStop(s, id, config, stopped);
    var t := Step(s, StartCall(id, PARAMS), config);
    RunTo(before, StartCall(id, PARAMS), config, s, t);
    RunTo(before + [StartCall(id, PARAMS)], StopCall(0, id), config, t, Step(t, StopCall(0, id), config));
  }

  lemma StartThenStop(s: Broker, id: string, config: Config, stopped: set<string>)
    requires config.softCap >= 1 && Inv(s) && Stage(s, stopped, {}, {}) && id !in s.instances
    ensures var t := Step(s, StartCall(id, PARAMS), config);
      Wf(t) && Enabled(t, StopCall(0, id)) && Stage(Step(t, StopCall(0, id), config), stopped + {id}, {}, {})
  {
    var t := Step(s, StartCall(id, PARAMS), config);
    StartStage(s, id, config, stopped, {});
    assert {} + {id} == {id};
    StopStage(t, id, config, stopped, {});
  }

  /** The names from n on. */
  function Later(n: nat, c: nat): set<string> { Names(n + c) - Names(n) }

  lemma LaterNext(n: nat, c: nat)
    requires c >= 1
    ensures var id := Name(n + c - 1);
      id !in Names(n) && id !in Later(n, c - 1) && |Later(n, c - 1)| == c - 1 && Later(n, c) == Later(n, c - 1) + {id}
  {
    NamesShorter(n + c - 1);
    NamesShorter(n);
    NamesGrow(n, n + c - 1);
    LaterSize(n, c - 1);
  }

  lemma LaterSize(n: nat, c: nat)
    ensures Names(n) <= Names(n + c) && |Later(n, c)| == c
  {
    NamesGrow(n, n + c);
    NamesShorter(n);
    NamesShorter(n + c);
    MinusSize(Names(n), Names(n + c));
  }

  lemma MinusSize(a: set<string>, b: set<string>)
    requires a <= b
    ensures |b - a| == |b| - |a|
  {
    assert b == a + (b - a);
  }

  lemma {:induction false} BuildPending(config: Config, n: nat, c: nat) returns (events: seq<Event>)
    requires config.softCap >= 1 && c <= config.softCap
    ensures Stage(Run(events, config), Names(n), Later(n, c), {})
  {
    if c == 0 {
      events := BuildStopped(config, n);
      assert Later(n, 0) == {};
      return;
    }
    var before := BuildPending(config, n, c - 1);
    LaterNext(n, c);
    events := ThenPending(before, config, Name(n + c - 1), Names(n), Later(n, c - 1));
  }

  lemma ThenPending(before: seq<Event>, config: Config, id: string, stopped: set<string>, pending: set<string>)
    returns (events: seq<Event>)
    requires Stage(Run(before, config), stopped, pending, {}) && |pending| < config.softCap
    requires id !in stopped && id !in pending
    ensures Stage(Run(events, config), stopped, pending + {id}, {})
  {
    var s := Run(before, config);
    RunInv(before, config);
    StartStage(s, id, config, stopped, pending);
    RunTo(before, StartCall(id, PARAMS), config, s, Step(s, StartCall(id, PARAMS), config));
    events := before + [StartCall(id, PARAMS)];
  }

  lemma {:induction false} BuildRevived(config: Config, n: nat, c: nat, k: nat) returns (events: seq<Event>)
    requires config.softCap >= 1 && c <= config.softCap && k <= n
    ensures Stage(Run(events, config), Names(n) - Names(k), Later(n, c), Names(k))
  {
    if k == 0 {
      events := BuildPending(config, n, c);
      assert Names(n) - Names(0) == Names(n);
      return;
    }
    var before := BuildRevived(config, n, c, k - 1);
    WithoutFirst(n, k);
    events := ThenRevived(before, config, Name(k - 1), Names(n) - Names(k), Later(n, c), Names(k - 1));
  }

  lemma WithoutFirst(n: nat, k: nat)
    requires 1 <= k <= n
    ensures Names(n) - Names(k) + {Name(k - 1)} == Names(n) - Names(k - 1) && Name(k - 1) !in Names(n) - Names(k)
    ensures Names(k) == Names(k - 1) + {Name(k - 1)}
  {
    NamesShorter(k - 1);
    NamesGrow(k, n);
  }

  lemma ThenRevived(before: seq<Event>, config: Config, id: string, stopped: set<string>, pending: set<string>, revived: set<string>)
    returns (events: seq<Event>)
    requires Stage(Run(before, config), stopped + {id}, pending, revived) && id !in stopped
    ensures Stage(Run(events, config), stopped, pending, revived + {id})
  {
    var s := Run(before, config);
    RunInv(before, config);
    ReviveStage(s, id, config, stopped, pending, revived);
    var t := Step(s, Created(id, true, true), config);
    RunTo(before, Created(id, true, true), config, s, t);
    RunTo(before + [Created(id, true, true)], BootRead(id, true), config, t, Step(t, BootRead(id, true), config));
    events := before + [Created(id, true, true)] + [BootRead(id, true)];
  }

  lemma OccupiedInStage(s: Broker, pending: set<string>, revived: set<string>)
    requires Stage(s, {}, pending, revived)
    ensures Occupied(s) == pending + revived && Occupied(s) * s.disturbed == revived && s.disturbed == revived
  {
  }

  /** The bound is reached: for every cap of at least one and every n there is a run with n stops of PROVISIONING
      instances that leaves n more than the cap occupied. */
  lemma CapIsReached(config: Config, n: nat) returns (events: seq<Event>)
    requires config.softCap >= 1
    ensures var s := Run(events, config);
      |s.disturbed| == n && |Occupied(s)| == config.softCap + n && |Occupied(s) * s.disturbed| == n
  {
    var c := config.softCap;
    events := BuildRevived(config, n, c, n);
    assert Names(n) - Names(n) == {};
    OccupiedInStage(Run(events, config), Later(n, c), Names(n));
    NamesShorter(n);
    LaterSize(n, c);
    assert Later(n, c) !! Names(n);
  }
}
