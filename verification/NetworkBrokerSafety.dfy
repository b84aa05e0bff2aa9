/** What every interleaving of the broker's operations keeps. */
module NetworkBrokerSafety {
  import opened Common
  import opened NetworkBroker

  // ---- The invariant -------------------------------------------------------------------------

  ghost predicate Inv(s: Broker) {
    && Wf(s)
    && s.disturbed <= s.instances.Keys
    && (forall h | h in s.released :: h < |s.owners|)
    && (forall h | 0 <= h < |s.owners| :: HandleOk(s, h))
    && (forall id | id in s.instances :: IdOk(s, id))
    && (forall t | t in s.stops :: TaskOk(s, t))
  }

  /** A provider handle is held by its instance's record, or its release was called. */
  ghost predicate HandleOk(s: Broker, h: nat)
    requires h < |s.owners|
  {
    s.owners[h] in s.instances && (s.instances[s.owners[h]].providerHandle == Some(h) || h in s.released)
  }

  ghost predicate IdOk(s: Broker, id: string)
    requires Wf(s) && id in s.instances
  {
    var handle := s.instances[id].providerHandle;
    && s.heap[s.instances[id].instance].id == id
    && (handle.Some? ==> handle.value < |s.owners| && s.owners[handle.value] == id)
    && (if id in s.starts then StartOk(s, id) else StatusOf(s, id) != PROVISIONING)
    && (StatusOf(s, id) == RUNNING && id !in s.disturbed ==> handle.Some? && handle.value !in s.released)
  }

  /** A pending start shares its reserved instance with the record, and is PROVISIONING unless stopped. */
  ghost predicate StartOk(s: Broker, id: string)
    requires Wf(s) && id in s.starts
  {
    var start, handle := s.starts[id], s.instances[id].providerHandle;
    && s.instances[id].instance == start.reserved
    && (StatusOf(s, id) == PROVISIONING <==> id !in s.disturbed) && StatusOf(s, id) != RUNNING
    && match start.phase
       case Reading(h) =>
         h < |s.owners| && s.owners[h] == id && handle in {None, Some(h)} && (id in s.disturbed || h !in s.released)
       case Killing(h) => h < |s.owners| && s.owners[h] == id && h in s.released && handle in {None, Some(h)}
       case _ => handle == None
  }

  /** A pending stop called its handle's release; any handle of that instance is released by now. */
  ghost predicate TaskOk(s: Broker, t: nat)
    requires Wf(s) && t in s.stops
  {
    var id, rec := s.stops[t].id, s.stops[t].rec;
    && s.heap[rec.instance].id == id
    && (s.instances[id].providerHandle.Some? ==> s.instances[id].providerHandle.value in s.released)
    && (StatusOf(s, id) == RUNNING ==> id in s.disturbed)
    && (id in s.starts ==>
          && rec.instance == s.starts[id].reserved && id in s.disturbed
          && match s.starts[id].phase
             case Reading(h) => h in s.released
             case Killing(h) => true
             case _ => false)
  }

  // ---- What a step leaves alone --------------------------------------------------------------

  /** The id an event is about. */
  ghost function Target(s: Broker, e: Event): string
    requires Enabled(s, e)
  {
    if e.StopSettled? then s.stops[e.task].id else e.id
  }

  /** Nothing about an id changed. */
  ghost predicate SameFor(s: Broker, t: Broker, id: string)
    requires Wf(s) && id in s.instances
  {
    && id in t.instances && t.instances[id] == s.instances[id]
    && s.instances[id].instance < |t.heap|
    && t.heap[s.instances[id].instance] == s.heap[s.instances[id].instance]
    && (id in t.starts <==> id in s.starts) && (id in s.starts ==> t.starts[id] == s.starts[id])
    && (id in t.disturbed <==> id in s.disturbed)
    && s.owners <= t.owners
    && (forall h | 0 <= h < |s.owners| && s.owners[h] == id :: h in t.released <==> h in s.released)
  }

  /** Objects never change identity, and handles, once released, stay so. */
  ghost predicate Grows(s: Broker, t: Broker) {
    && |s.heap| <= |t.heap| && (forall o | 0 <= o < |s.heap| :: t.heap[o].id == s.heap[o].id)
    && s.owners <= t.owners && s.released <= t.released && s.instances.Keys <= t.instances.Keys
  }

  lemma StepGrows(s: Broker, e: Event, config: Config)
    requires Wf(s) && Enabled(s, e)
    ensures Grows(s, Step(s, e, config))
  {
  }

  lemma StopFrames(s: Broker, task: nat, id: string, other: string)
    requires Wf(s) && other in s.instances && IdOk(s, other) && id != other
    requires id in s.instances ==> IdOk(s, id)
    ensures SameFor(s, OnStop(s, task, id), other)
  {
  }

  lemma SettledFrames(s: Broker, task: nat, ok: bool, other: string)
    requires Wf(s) && other in s.instances && IdOk(s, other)
    requires task in s.stops && TaskOk(s, task) && s.stops[task].id != other
    ensures SameFor(s, OnStopSettled(s, task, ok), other)
  {
  }

  lemma AgentsFrames(s: Broker, id: string, agents: seq<string>, other: string)
    requires Wf(s) && other in s.instances && IdOk(s, other) && id in s.instances && IdOk(s, id) && id != other
    ensures SameFor(s, OnAgents(s, id, agents), other)
  {
  }

  lemma StartFrames(s: Broker, e: Event, config: Config, other: string)
    requires Wf(s) && Enabled(s, e) && other in s.instances && other != Target(s, e)
    requires e.StartCall? || e.Created? || e.BootRead? || e.Killed? || e.Mounted?
    requires Target(s, e) in s.instances ==> IdOk(s, Target(s, e))
    requires forall h | h in s.released :: h < |s.owners|
    ensures SameFor(s, Step(s, e, config), other)
  {
  }

  lemma StepFrames(s: Broker, e: Event, config: Config, other: string)
    requires Inv(s) && Enabled(s, e) && other in s.instances && other != Target(s, e)
    ensures SameFor(s, Step(s, e, config), other)
  {
    assert IdOk(s, other);
    match e
    case StopCall(task, id) => StopFrames(s, task, id, other);
    case StopSettled(task, ok) => SettledFrames(s, task, ok, other);
    case Attach(id, agent) =>
      if id in s.instances { AgentsFrames(s, id, Joined(AgentsOf(s, id), agent), other); }
    case Detach(id, agent) =>
      if id in s.instances { AgentsFrames(s, id, Without(AgentsOf(s, id), agent), other); }
    case _ => StartFrames(s, e, config, other);
  }

  lemma IdStays(s: Broker, t: Broker, id: string)
    requires Wf(s) && Wf(t) && id in s.instances && IdOk(s, id) && SameFor(s, t, id)
    ensures IdOk(t, id)
  {
  }

  lemma TaskStays(s: Broker, t: Broker, task: nat)
    requires Wf(s) && Wf(t) && Grows(s, t) && task in s.stops && TaskOk(s, task) && SameFor(s, t, s.stops[task].id)
    requires IdOk(s, s.stops[task].id)
    requires task in t.stops && t.stops[task] == s.stops[task]
    ensures TaskOk(t, task)
  {
  }

  // ---- What a step does to its own id --------------------------------------------------------

  lemma TargetIdOk(s: Broker, e: Event, config: Config)
    requires Inv(s) && Enabled(s, e) && Wf(Step(s, e, config)) && Target(s, e) in Step(s, e, config).instances
    ensures IdOk(Step(s, e, config), Target(s, e))
  {
    var id := Target(s, e);
    if id in s.instances {
      if e.StopSettled? { SettledIdOk(s, e.task, e.ok); } else { OwnIdOk(s, e, config); }
    }
  }

  lemma SettledIdOk(s: Broker, task: nat, ok: bool)
    requires Wf(s) && task in s.stops && TaskOk(s, task) && IdOk(s, s.stops[task].id)
    requires Wf(OnStopSettled(s, task, ok))
    ensures IdOk(OnStopSettled(s, task, ok), s.stops[task].id)
  {
  }

  lemma OwnIdOk(s: Broker, e: Event, config: Config)
    requires Wf(s) && Enabled(s, e) && !e.StopSettled? && e.id in s.instances && IdOk(s, e.id)
    requires forall h | h in s.released :: h < |s.owners|
    requires Wf(Step(s, e, config))
    ensures IdOk(Step(s, e, config), e.id)
  {
    if e.StopCall? || e.Attach? || e.Detach? { CalledIdOk(s, e, config); } else { StartIdOk(s, e, config); }
  }

  lemma CalledIdOk(s: Broker, e: Event, config: Config)
    requires Wf(s) && Enabled(s, e) && (e.StopCall? || e.Attach? || e.Detach?) && e.id in s.instances && IdOk(s, e.id)
    requires Wf(Step(s, e, config))
    ensures IdOk(Step(s, e, config), e.id)
  {
  }

  lemma StartIdOk(s: Broker, e: Event, config: Config)
    requires Wf(s) && Enabled(s, e) && (e.Created? || e.BootRead? || e.Killed? || e.Mounted?) && IdOk(s, e.id)
    requires forall h | h in s.released :: h < |s.owners|
    requires Wf(Step(s, e, config))
    ensures IdOk(Step(s, e, config), e.id)
  {
  }

  lemma TargetTaskOk(s: Broker, e: Event, config: Config, task: nat)
    requires Wf(s) && Enabled(s, e) && Wf(Step(s, e, config)) && Grows(s, Step(s, e, config))
    requires Target(s, e) in s.instances && IdOk(s, Target(s, e))
    requires task in s.stops ==> TaskOk(s, task)
    requires e.StopSettled? ==> TaskOk(s, e.task)
    requires task in Step(s, e, config).stops && Step(s, e, config).stops[task].id == Target(s, e)
    ensures TaskOk(Step(s, e, config), task)
  {
    match e
    case StopCall(new_, id) => StopTaskOk(s, new_, id, task);
    case StopSettled(old_, ok) => SettledTaskOk(s, old_, ok, task);
    case _ => OtherTaskOk(s, e, config, task);
  }

  lemma StopTaskOk(s: Broker, new_: nat, id: string, task: nat)
    requires Wf(s) && Wf(OnStop(s, new_, id)) && id in s.instances && IdOk(s, id)
    requires task in s.stops ==> TaskOk(s, task)
    requires task in OnStop(s, new_, id).stops && OnStop(s, new_, id).stops[task].id == id
    ensures TaskOk(OnStop(s, new_, id), task)
  {
  }

  lemma SettledTaskOk(s: Broker, old_: nat, ok: bool, task: nat)
    requires Wf(s) && old_ in s.stops && TaskOk(s, old_) && Wf(OnStopSettled(s, old_, ok))
    requires task in s.stops && TaskOk(s, task) && s.stops[task].id == s.stops[old_].id && task != old_
    ensures TaskOk(OnStopSettled(s, old_, ok), task)
  {
  }

  lemma OtherTaskOk(s: Broker, e: Event, config: Config, task: nat)
    requires Wf(s) && Enabled(s, e) && Wf(Step(s, e, config)) && Grows(s, Step(s, e, config))
    requires !e.StopCall? && !e.StopSettled? && e.id in s.instances && IdOk(s, e.id)
    requires task in s.stops && TaskOk(s, task) && s.stops[task].id == e.id
    ensures TaskOk(Step(s, e, config), task)
  {
  }

  lemma StepHandle(s: Broker, e: Event, config: Config, h: nat)
    requires Inv(s) && Enabled(s, e) && h < |Step(s, e, config).owners|
    ensures HandleOk(Step(s, e, config), h)
  {
    StepGrows(s, e, config);
    if h >= |s.owners| {
      NewHandle(s, e, config, h);
    } else {
      assert HandleOk(s, h);
      if s.owners[h] == Target(s, e) {
        OwnHandle(s, e, config, h);
      } else {
        StepFrames(s, e, config, s.owners[h]);
        HandleStays(s, Step(s, e, config), h);
      }
    }
  }

  lemma HandleStays(s: Broker, t: Broker, h: nat)
    requires Wf(s) && h < |s.owners| && HandleOk(s, h) && SameFor(s, t, s.owners[h])
    ensures h < |t.owners| && HandleOk(t, h)
  {
  }

  lemma NewHandle(s: Broker, e: Event, config: Config, h: nat)
    requires Wf(s) && Enabled(s, e) && |s.owners| <= h < |Step(s, e, config).owners|
    ensures HandleOk(Step(s, e, config), h)
  {
  }

  lemma OwnHandle(s: Broker, e: Event, config: Config, h: nat)
    requires Inv(s) && Enabled(s, e) && h < |s.owners| && s.owners[h] == Target(s, e) && Grows(s, Step(s, e, config))
    ensures HandleOk(Step(s, e, config), h)
  {
    assert HandleOk(s, h) && IdOk(s, Target(s, e));
    if e.StopSettled? { assert TaskOk(s, e.task); }
  }

  lemma StepKeeps(s: Broker, e: Event, config: Config)
    requires Inv(s) && Enabled(s, e)
    ensures Inv(Step(s, e, config))
  {
    var t := Step(s, e, config);
    StepWf(s, e, config);
    StepGrows(s, e, config);
    StepReleases(s, e, config);
    forall h | 0 <= h < |t.owners| ensures HandleOk(t, h) { StepHandle(s, e, config, h); }
    forall id | id in t.instances ensures IdOk(t, id) { StepId(s, e, config, id); }
    forall task | task in t.stops ensures TaskOk(t, task) { StepTask(s, e, config, task); }
  }

  lemma StepReleases(s: Broker, e: Event, config: Config)
    requires Inv(s) && Enabled(s, e)
    ensures var t := Step(s, e, config);
      t.disturbed <= t.instances.Keys && forall h | h in t.released :: h < |t.owners|
  {
    if Target(s, e) in s.instances { assert IdOk(s, Target(s, e)); }
    if e.StopCall? { StopReleases(s, e.task, e.id); }
  }

  lemma StopReleases(s: Broker, task: nat, id: string)
    requires Inv(s)
    ensures var t := OnStop(s, task, id);
      t.disturbed <= t.instances.Keys && forall h | h in t.released :: h < |t.owners|
  {
    if id in s.instances { assert IdOk(s, id); }
  }

  lemma StepId(s: Broker, e: Event, config: Config, id: string)
    requires Inv(s) && Enabled(s, e) && Wf(Step(s, e, config)) && id in Step(s, e, config).instances
    ensures IdOk(Step(s, e, config), id)
  {
    if id == Target(s, e) {
      TargetIdOk(s, e, config);
    } else {
      StepFrames(s, e, config, id);
      IdStays(s, Step(s, e, config), id);
    }
  }

  lemma TaskOrigin(s: Broker, e: Event, config: Config, task: nat)
    requires Wf(s) && Enabled(s, e) && task in Step(s, e, config).stops
    ensures var stop := Step(s, e, config).stops[task];
      stop.id in s.instances && (stop.id == Target(s, e) || (task in s.stops && s.stops[task] == stop))
  {
  }

  lemma StepTask(s: Broker, e: Event, config: Config, task: nat)
    requires Inv(s) && Enabled(s, e) && Wf(Step(s, e, config)) && task in Step(s, e, config).stops
    ensures TaskOk(Step(s, e, config), task)
  {
    StepGrows(s, e, config);
    TaskOrigin(s, e, config, task);
    var id := Step(s, e, config).stops[task].id;
    assert IdOk(s, id);
    if id == Target(s, e) {
      if e.StopSettled? { assert TaskOk(s, e.task); }
      TargetTaskOk(s, e, config, task);
    } else {
      StepFrames(s, e, config, id);
      TaskStays(s, Step(s, e, config), task);
    }
  }

  lemma {:induction false} RunInv(events: seq<Event>, config: Config)
    ensures Inv(Run(events, config))
  {
    if events != [] {
      var s, e := Run(events[..|events| - 1], config), events[|events| - 1];
      RunInv(events[..|events| - 1], config);
      if Enabled(s, e) { StepKeeps(s, e, config); }
    }
  }

  // ---- The cap -------------------------------------------------------------------------------

  /** What the soft cap is for. */
  ghost function Occupied(s: Broker): set<string>
    requires Wf(s)
  {
    set id | id in s.instances && (StatusOf(s, id) == PROVISIONING || StatusOf(s, id) == RUNNING)
  }

  /** Occupied, or about to be, without ever having been stopped while PROVISIONING. */
  ghost function Held(s: Broker): set<string>
    requires Wf(s)
  {
    set id | id in s.instances && id !in s.disturbed && (id in s.starts || StatusOf(s, id) == RUNNING)
  }

  lemma HeldActive(s: Broker)
    requires Inv(s)
    ensures Held(s) <= Active(s) && Occupied(s) <= Held(s) + s.disturbed
  {
    forall id | id in s.instances
      ensures id in Held(s) ==> id in Active(s)
      ensures id in Occupied(s) ==> id in Held(s) + s.disturbed
    {
      assert IdOk(s, id);
    }
  }

  /** Only an admitted start adds to what is held. */
  lemma HeldGrows(s: Broker, e: Event, config: Config)
    requires Inv(s) && Enabled(s, e) && Wf(Step(s, e, config))
    ensures Held(Step(s, e, config)) <= Held(s) + {Target(s, e)}
    ensures Target(s, e) in Held(Step(s, e, config)) && Target(s, e) !in Held(s)
      ==> e.StartCall? && |Active(s)| < config.softCap
  {
    var t, target := Step(s, e, config), Target(s, e);
    forall id | id in Held(t) && id != target ensures id in Held(s) { OtherHeld(s, e, config, id); }
    if target in s.instances {
      assert IdOk(s, target);
      if e.StopSettled? { assert TaskOk(s, e.task); }
      OwnHeld(s, e, config);
    }
  }

  lemma OtherHeld(s: Broker, e: Event, config: Config, id: string)
    requires Inv(s) && Enabled(s, e) && Wf(Step(s, e, config)) && id in Held(Step(s, e, config)) && id != Target(s, e)
    ensures id in Held(s)
  {
    assert id in s.instances;
    StepFrames(s, e, config, id);
  }

  lemma OwnHeld(s: Broker, e: Event, config: Config)
    requires Wf(s) && Enabled(s, e) && Wf(Step(s, e, config))
    requires Target(s, e) in s.instances && IdOk(s, Target(s, e)) && (e.StopSettled? ==> TaskOk(s, e.task))
    ensures Target(s, e) in Held(Step(s, e, config)) ==> Target(s, e) in Held(s)
  {
  }

  lemma SubsetSize(a: set<string>, b: set<string>)
    requires a <= b
    ensures |a| <= |b|
  {
    var rest := b - a;
    assert b == a + rest;
  }

  ghost function CapOf(config: Config): nat { if config.softCap < 0 then 0 else config.softCap }

  lemma {:induction false} HeldWithinCap(events: seq<Event>, config: Config)
    ensures |Held(Run(events, config))| <= CapOf(config)
  {
    if events == [] {
      assert Held(EMPTY) == {};
    } else {
      var s, e := Run(events[..|events| - 1], config), events[|events| - 1];
      HeldWithinCap(events[..|events| - 1], config);
      RunInv(events[..|events| - 1], config);
      if Enabled(s, e) {
        StepWf(s, e, config);
        HeldGrows(s, e, config);
        HeldActive(s);
        var t, target := Step(s, e, config), Target(s, e);
        if target in Held(t) && target !in Held(s) {
          SubsetSize(Held(s), Active(s));
          SubsetSize(Held(t), Held(s) + {target});
        } else {
          SubsetSize(Held(t), Held(s));
        }
      }
    }
  }

  /** In every interleaving, PROVISIONING and RUNNING instances exceed the cap by no more than those of them that
      were stopped while PROVISIONING, all of which are RUNNING; with none, the cap holds. */
  lemma CapHolds(events: seq<Event>, config: Config)
    ensures var s := Run(events, config);
      && |Occupied(s)| <= CapOf(config) + |Occupied(s) * s.disturbed|
      && forall id | id in Occupied(s) * s.disturbed :: StatusOf(s, id) == RUNNING
  {
    var s := Run(events, config);
    HeldWithinCap(events, config);
    RunInv(events, config);
    HeldActive(s);
    var back := Occupied(s) * s.disturbed;
    SubsetSize(Occupied(s), Held(s) + back);
    assert |Held(s) + back| <= |Held(s)| + |back|;
    forall id | id in back ensures StatusOf(s, id) == RUNNING {
      assert IdOk(s, id);
    }
  }

  /** An instance becomes RUNNING only when its start ends, and then from PROVISIONING exactly if it was not
      stopped in between. */
  lemma RunningFromProvisioning(events: seq<Event>, e: Event, config: Config, id: string)
    requires Enabled(Run(events, config), e)
    requires Wf(Step(Run(events, config), e, config))
    requires var s, t := Run(events, config), Step(Run(events, config), e, config);
      id in s.instances && id in t.instances && StatusOf(s, id) != RUNNING && StatusOf(t, id) == RUNNING
    ensures var s := Run(events, config);
      && id in s.starts && id == Target(s, e) && (e.BootRead? || e.Mounted?)
      && (StatusOf(s, id) == PROVISIONING <==> id !in s.disturbed)
  {
    var s := Run(events, config);
    RunInv(events, config);
    assert IdOk(s, id);
    if id == Target(s, e) { OwnRunning(s, e, config); } else { StepFrames(s, e, config, id); }
  }

  lemma OwnRunning(s: Broker, e: Event, config: Config)
    requires Wf(s) && Enabled(s, e) && Wf(Step(s, e, config))
    requires Target(s, e) in s.instances && IdOk(s, Target(s, e)) && Target(s, e) in Step(s, e, config).instances
    requires StatusOf(s, Target(s, e)) != RUNNING && StatusOf(Step(s, e, config), Target(s, e)) == RUNNING
    ensures e.BootRead? || e.Mounted?
  {
  }

  // ---- Provider handles ----------------------------------------------------------------------

  /** In every interleaving, every sandbox and shell tool obtained is still held by its instance's record or
      has had its kill or unmount called. */
  lemma NoHandleLost(events: seq<Event>, config: Config, h: nat)
    requires h < |Run(events, config).owners|
    ensures var s := Run(events, config);
      s.owners[h] in s.instances && (s.instances[s.owners[h]].providerHandle == Some(h) || h in s.released)
  {
    RunInv(events, config);
    assert HandleOk(Run(events, config), h);
  }

  /** A RUNNING instance that was never stopped while PROVISIONING holds a handle that nobody released. */
  lemma RunningIsAlive(events: seq<Event>, config: Config, id: string)
    requires var s := Run(events, config); id in s.instances && StatusOf(s, id) == RUNNING && id !in s.disturbed
    ensures var s := Run(events, config);
      s.instances[id].providerHandle.Some? && s.instances[id].providerHandle.value !in s.released
  {
    RunInv(events, config);
    assert IdOk(Run(events, config), id);
  }

  // ---- Resurrection --------------------------------------------------------------------------

  lemma RunExtends(events: seq<Event>, e: Event, config: Config)
    ensures var s := Run(events, config);
      Run(events + [e], config) == if Enabled(s, e) then Step(s, e, config) else s
  {
    assert (events + [e])[..|events|] == events;
  }

  /** Stopping a PROVISIONING instance whose sandbox is not there yet reports it STOPPED at once, and the
      pending start then brings it back to RUNNING all the same. */
  lemma StopIsUndone(events: seq<Event>, config: Config, id: string, t: nat)
    requires var s := Run(events, config);
      && id in s.starts && s.starts[id].phase == Creating && t !in s.stops
    ensures var a, b := Run(events + [StopCall(t, id)], config),
                        Run(events + [StopCall(t, id)] + [Created(id, true, true)] + [BootRead(id, true)], config);
      id in a.instances && StatusOf(a, id) == STOPPED && id in b.instances && StatusOf(b, id) == RUNNING
  {
    RunInv(events, config);
    var s := Run(events, config);
    assert IdOk(s, id);
    StoppedAtOnce(s, t, id, config);
    var a := Step(s, StopCall(t, id), config);
    RunTo(events, StopCall(t, id), config, s, a);
    SandboxArrives(a, id, config);
    var one := events + [StopCall(t, id)];
    var c := Step(a, Created(id, true, true), config);
    RunTo(one, Created(id, true, true), config, a, c);
    Boots(c, id, config);
    RunTo(one + [Created(id, true, true)], BootRead(id, true), config, c, Step(c, BootRead(id, true), config));
  }

  lemma RunTo(events: seq<Event>, e: Event, config: Config, s: Broker, t: Broker)
    requires Wf(s) && Run(events, config) == s && Enabled(s, e) && Step(s, e, config) == t
    ensures Run(events + [e], config) == t
  {
    RunExtends(events, e, config);
  }

  lemma StoppedAtOnce(s: Broker, t: nat, id: string, config: Config)
    requires Wf(s) && id in s.starts && s.starts[id].phase == Creating && IdOk(s, id) && t !in s.stops
    ensures var a := Step(s, StopCall(t, id), config);
      Wf(a) && a.starts == s.starts && id in a.instances && StatusOf(a, id) == STOPPED
  {
    StepWf(s, StopCall(t, id), config);
  }

  lemma SandboxArrives(s: Broker, id: string, config: Config)
    requires Wf(s) && id in s.starts && s.starts[id].phase == Creating
    ensures var t := Step(s, Created(id, true, true), config);
      Wf(t) && id in t.starts && t.starts[id].phase.Reading?
  {
    StepWf(s, Created(id, true, true), config);
  }

  lemma Boots(s: Broker, id: string, config: Config)
    requires Wf(s) && id in s.starts && s.starts[id].phase.Reading?
    ensures var t := Step(s, BootRead(id, true), config);
      Wf(t) && id in t.instances && StatusOf(t, id) == RUNNING
  {
    StepWf(s, BootRead(id, true), config);
  }

  /** So the cap is exceeded: with room for one, a start, its stop, and a second start leave two RUNNING. */
  lemma CapExceeded(params: StartParams, config: Config)
    requires Acceptable(params, config) && params.backend == "local" && config.softCap == 1
    ensures var events := [StartCall("a", params)] + [StopCall(0, "a")] + [StartCall("b", params)]
                          + [Mounted("a", true)] + [Mounted("b", true)];
      Occupied(Run(events, config)) == {"a", "b"}
  {
    var e1, e2, e3 := StartCall("a", params), StopCall(0, "a"), StartCall("b", params);
    var e4, e5 := Mounted("a", true), Mounted("b", true);
    Admitted(EMPTY, "a", params, config);
    assert [] + [e1] == [e1];
    RunTo([], e1, config, EMPTY, AfterStart());
    StoppedLocal(config);
    RunTo([e1], e2, config, AfterStart(), AfterStop());
    Admitted(AfterStop(), "b", params, config);
    RunTo([e1] + [e2], e3, config, AfterStop(), AfterSecond());
    FirstMounts(config);
    RunTo([e1] + [e2] + [e3], e4, config, AfterSecond(), AfterMount());
    SecondMounts(config);
    RunTo([e1] + [e2] + [e3] + [e4], e5, config, AfterMount(), Step(AfterMount(), e5, config));
  }

  function AfterStart(): Broker {
    Broker(map["a" := Record(0, None)], [Instance("a", PROVISIONING, Local, [])], [], {},
           map["a" := Start(0, Mounting)], map[], {})
  }

  function AfterStop(): Broker {
    Broker(map["a" := Record(0, None)], [Instance("a", STOPPED, Local, [])], [], {},
           map["a" := Start(0, Mounting)], map[], {"a"})
  }

  function AfterSecond(): Broker {
    Broker(map["a" := Record(0, None), "b" := Record(1, None)],
           [Instance("a", STOPPED, Local, []), Instance("b", PROVISIONING, Local, [])], [], {},
           map["a" := Start(0, Mounting), "b" := Start(1, Mounting)], map[], {"a"})
  }

  function AfterMount(): Broker {
    Broker(map["a" := Record(2, Some(0)), "b" := Record(1, None)],
           [Instance("a", STOPPED, Local, []), Instance("b", PROVISIONING, Local, []), Instance("a", RUNNING, Local, [])],
           ["a"], {}, map["b" := Start(1, Mounting)], map[], {"a"})
  }

  lemma StoppedLocal(config: Config)
    ensures Wf(AfterStart()) && Step(AfterStart(), StopCall(0, "a"), config) == AfterStop()
  {
  }

  lemma FirstMounts(config: Config)
    ensures Wf(AfterSecond()) && Step(AfterSecond(), Mounted("a", true), config) == AfterMount()
  {
    assert AfterSecond().starts - {"a"} == AfterMount().starts;
  }

  lemma SecondMounts(config: Config)
    ensures Wf(AfterMount())
    ensures var s := Step(AfterMount(), Mounted("b", true), config); Wf(s) && Occupied(s) == {"a", "b"}
  {
  }

  /** With nothing active and room for one, a local start is admitted. */
  lemma Admitted(s: Broker, id: string, params: StartParams, config: Config)
    requires Wf(s) && id !in s.instances && forall a | a in s.instances :: Terminal(StatusOf(s, a))
    requires Acceptable(params, config) && params.backend == "local" && config.softCap == 1
    ensures OnStart(s, id, params, config)
         == s.(heap := s.heap + [Instance(id, PROVISIONING, Local, [])],
               instances := s.instances[id := Record(|s.heap|, None)],
               starts := s.starts[id := Start(|s.heap|, Mounting)])
  {
    assert Active(s) == {};
  }

  // ---- Attached agents -----------------------------------------------------------------------

  ghost predicate Distinct(agents: seq<string>) {
    forall i, j | 0 <= i < j < |agents| :: agents[i] != agents[j]
  }

  lemma {:induction false} WithoutKeeps(agents: seq<string>, agent: string)
    ensures forall a :: a in Without(agents, agent) <==> a in agents && a != agent
    ensures Distinct(agents) ==> Distinct(Without(agents, agent))
  {
    if agents != [] {
      WithoutKeeps(agents[1..], agent);
      assert agents == [agents[0]] + agents[1..];
      if Distinct(agents) {
        forall i, j | 0 <= i < j < |agents[1..]| ensures agents[1..][i] != agents[1..][j] {
          assert agents[i + 1] != agents[j + 1];
        }
        var rest := Without(agents[1..], agent);
        assert agents[0] !in agents[1..];
        assert forall i | 0 <= i < |rest| :: rest[i] in rest;
      }
    }
  }

  ghost predicate AllDistinct(s: Broker) {
    forall o | 0 <= o < |s.heap| :: Distinct(s.heap[o].attachedAgents)
  }

  lemma StepDistinct(s: Broker, e: Event, config: Config)
    requires Wf(s) && Enabled(s, e) && AllDistinct(s)
    ensures AllDistinct(Step(s, e, config))
  {
    if e.Detach? && e.id in s.instances { WithoutKeeps(AgentsOf(s, e.id), e.agent); }
  }

  /** No instance ever lists an agent twice. */
  lemma {:induction false} AgentsDistinct(events: seq<Event>, config: Config)
    ensures AllDistinct(Run(events, config))
  {
    if events != [] {
      var s, e := Run(events[..|events| - 1], config), events[|events| - 1];
      AgentsDistinct(events[..|events| - 1], config);
      if Enabled(s, e) { StepDistinct(s, e, config); }
    }
  }

  /** Agents attached while an instance is PROVISIONING are still attached when its start ends. */
  lemma AgentsSurviveStart(events: seq<Event>, e: Event, config: Config)
    requires Enabled(Run(events, config), e) && (e.BootRead? || e.Mounted? || e.Killed? || e.Created?)
    requires Wf(Step(Run(events, config), e, config))
    ensures var s, t := Run(events, config), Step(Run(events, config), e, config);
      e.id in s.instances && e.id in t.instances && AgentsOf(t, e.id) == AgentsOf(s, e.id)
  {
    RunInv(events, config);
    assert IdOk(Run(events, config), e.id);
  }

  /** Attaching and then detaching an agent that was not attached restores the list; attaching twice is
      attaching once. */
  lemma {:induction false} DetachUndoesAttach(agents: seq<string>, agent: string)
    ensures agent !in agents ==> Without(Joined(agents, agent), agent) == agents
    ensures Joined(Joined(agents, agent), agent) == Joined(agents, agent)
  {
    if agents != [] && agent !in agents {
      DetachUndoesAttach(agents[1..], agent);
      assert (agents + [agent])[1..] == agents[1..] + [agent];
      assert agents == [agents[0]] + agents[1..];
    }
    if agents == [] { assert [agent][1..] == []; }
  }
}
