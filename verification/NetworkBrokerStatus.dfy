/** Which status an instance has, over every interleaving of the broker's operations. */
module NetworkBrokerStatus {
  import opened Common
  import opened NetworkBroker
  import opened NetworkBrokerSafety

  // ---- One step ------------------------------------------------------------------------------

  /** The record and its instance now, as `status` would report them. */
  ghost predicate Shows(s: Broker, id: string, status: Status, handle: Option<nat>)
    requires Wf(s)
  {
    id in s.instances && StatusOf(s, id) == status && s.instances[id].providerHandle == handle
  }

  /** An admitted start reserves a PROVISIONING instance of the backend asked for; a refused one changes nothing. */
  lemma StartReserves(events: seq<Event>, id: string, params: StartParams, config: Config)
    requires id !in Run(events, config).instances
    ensures var s, t := Run(events, config), Run(events + [StartCall(id, params)], config);
      var active := set x | x in s.instances && StatusOf(s, x) in {PROVISIONING, RUNNING, STOPPING};
      if !WellFormed(params, config) || |active| >= config.softCap then t == s
      else
        && Shows(t, id, PROVISIONING, None) && id in t.starts && AgentsOf(t, id) == []
        && (params.backend == "local" ==>
              t.starts[id].phase == Mounting && t.heap[t.instances[id].instance].backend == Local)
        && (params.backend != "local" ==>
              t.starts[id].phase == Creating && t.heap[t.instances[id].instance].backend == E2b)
  {
    var s := Run(events, config);
    assert Active(s) == set x | x in s.instances && StatusOf(s, x) in {PROVISIONING, RUNNING, STOPPING};
    RunExtends(events, StartCall(id, params), config);
  }

  /** A name, an owner, a known backend; and for a local network a directory and the daemon's hooks. */
  predicate WellFormed(params: StartParams, config: Config) {
    && params.name != "" && params.ownerUserId != ""
    && (params.backend == "" || params.backend == "e2b"
        || (params.backend == "local" && params.cwd != "" && config.hasHooks))
  }

  /** A stop of an instance with a handle reports it STOPPING and releases the handle, which the record keeps; without
      a handle it is STOPPED at once. */
  lemma StopMarks(events: seq<Event>, t: nat, id: string, config: Config)
    requires var s := Run(events, config); t !in s.stops && id in s.instances
    ensures var s, a := Run(events, config), Run(events + [StopCall(t, id)], config);
      var handle := s.instances[id].providerHandle;
      if handle.None? then Shows(a, id, STOPPED, None) && a.released == s.released && t !in a.stops
      else
        && Shows(a, id, STOPPING, handle) && a.released == s.released + {handle.value}
        && t in a.stops && a.stops[t].id == id && a.stops[t].rec == a.instances[id]
  {
    RunExtends(events, StopCall(t, id), config);
  }

  /** A settled stop: success reports STOPPED without a handle whatever happened meanwhile; a failure reports FAILED,
      with the handle, unless the pending start has replaced the instance since. */
  lemma StopSettles(events: seq<Event>, t: nat, ok: bool, config: Config)
    requires t in Run(events, config).stops
    ensures var s, a := Run(events, config), Run(events + [StopSettled(t, ok)], config);
      var id, rec := s.stops[t].id, s.stops[t].rec;
      && t !in a.stops && id in s.instances
      && if ok then Shows(a, id, STOPPED, None)
         else if s.instances[id].instance == rec.instance then Shows(a, id, FAILED, s.instances[id].providerHandle)
         else Shows(a, id, StatusOf(s, id), s.instances[id].providerHandle)
  {
    RunExtends(events, StopSettled(t, ok), config);
  }

  /** A sandbox that could not be created leaves FAILED; one created is parked, and killed if it has no id. */
  lemma SandboxMoves(events: seq<Event>, id: string, ok: bool, hasId: bool, config: Config)
    requires Enabled(Run(events, config), Created(id, ok, hasId))
    ensures var s, t := Run(events, config), Run(events + [Created(id, ok, hasId)], config);
      id in s.instances && if ok then Parked(s, t, id, hasId) else Shows(t, id, FAILED, None) && id !in t.starts
  {
    RunExtends(events, Created(id, ok, hasId), config);
    RunInv(events, config);
    if ok { ParksSandbox(Run(events, config), id, hasId); }
  }

  ghost predicate Parked(s: Broker, t: Broker, id: string, hasId: bool)
    requires Wf(s) && Wf(t) && id in s.instances
  {
    var sandbox := |s.owners|;
    && Shows(t, id, StatusOf(s, id), Some(sandbox)) && id in t.starts
    && if hasId then t.starts[id].phase == Reading(sandbox) && t.released == s.released
       else t.starts[id].phase == Killing(sandbox) && t.released == s.released + {sandbox}
  }

  lemma ParksSandbox(s: Broker, id: string, hasId: bool)
    requires Inv(s) && id in s.starts && s.starts[id].phase == Creating && Wf(OnCreated(s, id, true, hasId))
    ensures Parked(s, OnCreated(s, id, true, hasId), id, hasId)
  {
    assert IdOk(s, id);
  }

  /** A sandbox that comes up makes the instance RUNNING; one that does not is killed. */
  lemma BootMoves(events: seq<Event>, id: string, ok: bool, config: Config)
    requires Enabled(Run(events, config), BootRead(id, ok))
    ensures var s, t := Run(events, config), Run(events + [BootRead(id, ok)], config);
      var sandbox := s.starts[id].phase.sandbox;
      id in s.instances &&
      if ok then Shows(t, id, RUNNING, Some(sandbox)) && id !in t.starts && t.released == s.released
      else
        && Shows(t, id, StatusOf(s, id), s.instances[id].providerHandle)
        && id in t.starts && t.starts[id].phase == Killing(sandbox) && t.released == s.released + {sandbox}
  {
    RunExtends(events, BootRead(id, ok), config);
  }

  /** Once its sandbox is killed the start ends FAILED, with no handle. */
  lemma KillMoves(events: seq<Event>, id: string, config: Config)
    requires Enabled(Run(events, config), Killed(id))
    ensures var t := Run(events + [Killed(id)], config); Shows(t, id, FAILED, None) && id !in t.starts
  {
    RunExtends(events, Killed(id), config);
  }

  /** A local start ends RUNNING with its shell tool, or FAILED. */
  lemma MountMoves(events: seq<Event>, id: string, ok: bool, config: Config)
    requires Enabled(Run(events, config), Mounted(id, ok))
    ensures var s, t := Run(events, config), Run(events + [Mounted(id, ok)], config);
      && id !in t.starts && t.released == s.released
      && Shows(t, id, if ok then RUNNING else FAILED, if ok then Some(|s.owners|) else None)
  {
    RunExtends(events, Mounted(id, ok), config);
  }

  /** Attaching lists an agent last unless it is listed, and leaves the status alone. */
  lemma AttachLists(events: seq<Event>, id: string, agent: string, config: Config)
    requires id in Run(events, config).instances && agent != ""
    ensures var s, t := Run(events, config), Run(events + [Attach(id, agent)], config);
      && Shows(t, id, StatusOf(s, id), s.instances[id].providerHandle)
      && AgentsOf(t, id) == WithAgent(AgentsOf(s, id), agent)
  {
    var s := Run(events, config);
    var agents := WithAgent(AgentsOf(s, id), agent);
    AttachStep(s, id, agent, config);
    RunTo(events, Attach(id, agent), config, s, OnAgents(s, id, agents));
    AgentsMove(s, id, agents);
  }

  lemma AttachStep(s: Broker, id: string, agent: string, config: Config)
    requires Wf(s) && id in s.instances && agent != ""
    ensures Step(s, Attach(id, agent), config) == OnAgents(s, id, WithAgent(AgentsOf(s, id), agent))
  {
  }

  function WithAgent(agents: seq<string>, agent: string): seq<string> {
    if agent in agents then agents else agents + [agent]
  }

  lemma AgentsMove(s: Broker, id: string, agents: seq<string>)
    requires Wf(s) && id in s.instances
    ensures Wf(OnAgents(s, id, agents))
    ensures Shows(OnAgents(s, id, agents), id, StatusOf(s, id), s.instances[id].providerHandle)
    ensures AgentsOf(OnAgents(s, id, agents), id) == agents
  {
  }

  /** Detaching takes it off the list and leaves the status alone. */
  lemma DetachTakesOff(events: seq<Event>, id: string, agent: string, config: Config)
    requires id in Run(events, config).instances && agent != ""
    ensures var s, t := Run(events, config), Run(events + [Detach(id, agent)], config);
      && Shows(t, id, StatusOf(s, id), s.instances[id].providerHandle)
      && AgentsOf(t, id) == Without(AgentsOf(s, id), agent)
      && forall a :: a in Without(AgentsOf(s, id), agent) <==> a in AgentsOf(s, id) && a != agent
  {
    RunExtends(events, Detach(id, agent), config);
    WithoutKeeps(AgentsOf(Run(events, config), id), agent);
  }

  // ---- Events about other instances ----------------------------------------------------------

  /** What happens next is not about the id. */
  ghost predicate Aside(events: seq<Event>, e: Event, config: Config, id: string) {
    Enabled(Run(events, config), e) ==> Target(Run(events, config), e) != id
  }

  /** None of these events is about the id. */
  ghost predicate Elsewhere(events: seq<Event>, more: seq<Event>, config: Config, id: string) {
    more == [] ||
    (Elsewhere(events, more[..|more| - 1], config, id)
     && Aside(events + more[..|more| - 1], more[|more| - 1], config, id))
  }

  lemma TaskUntouched(s: Broker, e: Event, config: Config, t: nat)
    requires Wf(s) && Enabled(s, e) && t in s.stops && Target(s, e) != s.stops[t].id
    ensures t in Step(s, e, config).stops && Step(s, e, config).stops[t] == s.stops[t]
  {
  }

  /** An event about another instance changes neither record nor instance. */
  lemma AsideLeaves(events: seq<Event>, e: Event, config: Config, id: string)
    requires id in Run(events, config).instances && Aside(events, e, config, id)
    ensures var s, a := Run(events, config), Run(events + [e], config);
      && id in a.instances && a.instances[id] == s.instances[id]
      && a.heap[a.instances[id].instance] == s.heap[s.instances[id].instance]
  {
    var s := Run(events, config);
    RunExtends(events, e, config);
    if Enabled(s, e) {
      RunInv(events, config);
      StepFrames(s, e, config, id);
    }
  }

  /** An instance with a pending stop: its record, the instance object and the stop. */
  datatype Stopping = Stopping(rec: Record, instance: Instance, task: StopTask)

  ghost function StoppingOf(s: Broker, id: string, t: nat): Option<Stopping>
    requires Wf(s)
  {
    if id in s.instances && t in s.stops && s.stops[t].id == id
    then Some(Stopping(s.instances[id], s.heap[s.instances[id].instance], s.stops[t])) else None
  }

  lemma OneLeaves(events: seq<Event>, e: Event, config: Config, id: string, t: nat)
    requires StoppingOf(Run(events, config), id, t).Some? && Aside(events, e, config, id)
    ensures StoppingOf(Run(events + [e], config), id, t) == StoppingOf(Run(events, config), id, t)
  {
    RunExtends(events, e, config);
    AsideLeaves(events, e, config, id);
    if Enabled(Run(events, config), e) { TaskUntouched(Run(events, config), e, config, t); }
  }

  /** Events about other instances leave all of that alone. */
  lemma {:induction false} OthersLeave(events: seq<Event>, more: seq<Event>, config: Config, id: string, t: nat)
    requires StoppingOf(Run(events, config), id, t).Some? && Elsewhere(events, more, config, id)
    ensures StoppingOf(Run(events + more, config), id, t) == StoppingOf(Run(events, config), id, t)
  {
    if more == [] {
      assert events + more == events;
    } else {
      var init, last := more[..|more| - 1], more[|more| - 1];
      OthersLeave(events, init, config, id, t);
      OneLeaves(events + init, last, config, id, t);
      SplitLast(events, more);
    }
  }

  lemma SplitLast(events: seq<Event>, more: seq<Event>)
    requires more != []
    ensures events + more == events + more[..|more| - 1] + [more[|more| - 1]]
  {
  }

  /** Stopping a RUNNING instance: STOPPING with its handle released as soon as it is called, and, whatever happens to
      other instances before the release settles, then STOPPED without a handle, or FAILED with the handle kept. */
  lemma StopCompletes(events: seq<Event>, t: nat, id: string, more: seq<Event>, ok: bool, config: Config)
    requires var s := Run(events, config);
      id in s.instances && StatusOf(s, id) == RUNNING && s.instances[id].providerHandle.Some? && t !in s.stops
    requires Elsewhere(events + [StopCall(t, id)], more, config, id)
    ensures var s, a := Run(events, config), Run(events + [StopCall(t, id)], config);
      var handle := s.instances[id].providerHandle;
      && Shows(a, id, STOPPING, handle) && handle.value in a.released
      && Shows(Run(events + [StopCall(t, id)] + more, config), id, STOPPING, handle)
      && Shows(Run(events + [StopCall(t, id)] + more + [StopSettled(t, ok)], config), id,
               if ok then STOPPED else FAILED, if ok then None else handle)
  {
    var called := events + [StopCall(t, id)];
    StopMarks(events, t, id, config);
    OthersLeave(called, more, config, id, t);
    StopSettles(called + more, t, ok, config);
  }

  // ---- What a status tells -------------------------------------------------------------------

  ghost predicate StoppingNow(s: Broker, id: string)
    requires Wf(s) && id in s.instances
  {
    exists t :: t in s.stops && s.stops[t].id == id && s.stops[t].rec.instance == s.instances[id].instance
  }

  /** STOPPING means a pending stop of this very instance; STOPPED, with no start pending, that nothing is held. */
  ghost predicate Explained(s: Broker, id: string)
    requires Wf(s) && id in s.instances
  {
    && (StatusOf(s, id) == STOPPING ==> StoppingNow(s, id))
    && (StatusOf(s, id) == STOPPED && id !in s.starts ==> s.instances[id].providerHandle.None?)
  }

  lemma OtherExplained(s: Broker, e: Event, config: Config, id: string)
    requires Inv(s) && Enabled(s, e) && Wf(Step(s, e, config)) && id in s.instances && id != Target(s, e)
    requires Explained(s, id)
    ensures id in Step(s, e, config).instances && Explained(Step(s, e, config), id)
  {
    StepFrames(s, e, config, id);
    if StatusOf(s, id) == STOPPING {
      var t :| t in s.stops && s.stops[t].id == id && s.stops[t].rec.instance == s.instances[id].instance;
      TaskUntouched(s, e, config, t);
    }
  }

  lemma OwnExplained(s: Broker, e: Event, config: Config)
    requires Inv(s) && Enabled(s, e) && Wf(Step(s, e, config)) && Target(s, e) in s.instances
    requires Explained(s, Target(s, e))
    ensures Target(s, e) in Step(s, e, config).instances && Explained(Step(s, e, config), Target(s, e))
  {
    var id := Target(s, e);
    assert IdOk(s, id);
    if e.StopCall? {
      CalledExplained(s, e.task, id);
    } else if e.StopSettled? {
      SettledExplained(s, e.task, e.ok);
    } else if e.Attach? || e.Detach? {
      AgentsExplained(s, id, if e.Attach? then Joined(AgentsOf(s, id), e.agent) else Without(AgentsOf(s, id), e.agent));
    } else {
      StartExplained(s, e, config);
    }
  }

  lemma CalledExplained(s: Broker, t: nat, id: string)
    requires Wf(s) && id in s.instances && t !in s.stops && Wf(OnStop(s, t, id))
    ensures id in OnStop(s, t, id).instances && Explained(OnStop(s, t, id), id)
  {
    var a := OnStop(s, t, id);
    if s.instances[id].providerHandle.Some? { assert a.stops[t] == StopTask(id, s.instances[id]); }
  }

  lemma SettledExplained(s: Broker, t: nat, ok: bool)
    requires Wf(s) && t in s.stops && Explained(s, s.stops[t].id) && Wf(OnStopSettled(s, t, ok))
    ensures s.stops[t].id in OnStopSettled(s, t, ok).instances && Explained(OnStopSettled(s, t, ok), s.stops[t].id)
  {
    var id, a := s.stops[t].id, OnStopSettled(s, t, ok);
    if StatusOf(a, id) == STOPPING {
      var u :| u in s.stops && s.stops[u].id == id && s.stops[u].rec.instance == s.instances[id].instance;
      assert u in a.stops && a.stops[u] == s.stops[u];
    }
  }

  lemma AgentsExplained(s: Broker, id: string, agents: seq<string>)
    requires Wf(s) && id in s.instances && Explained(s, id) && Wf(OnAgents(s, id, agents))
    ensures Explained(OnAgents(s, id, agents), id)
  {
    var a := OnAgents(s, id, agents);
    if StatusOf(s, id) == STOPPING {
      var t :| t in s.stops && s.stops[t].id == id && s.stops[t].rec.instance == s.instances[id].instance;
      assert t in a.stops && a.stops[t] == s.stops[t];
    }
  }

  lemma StartExplained(s: Broker, e: Event, config: Config)
    requires Wf(s) && Enabled(s, e) && (e.Created? || e.BootRead? || e.Killed? || e.Mounted?)
    requires IdOk(s, e.id) && Explained(s, e.id) && Wf(Step(s, e, config))
    ensures e.id in Step(s, e, config).instances && Explained(Step(s, e, config), e.id)
  {
    var a := Step(s, e, config);
    if StatusOf(a, e.id) == STOPPING {
      var t :| t in s.stops && s.stops[t].id == e.id && s.stops[t].rec.instance == s.instances[e.id].instance;
      assert t in a.stops && a.stops[t] == s.stops[t] && a.instances[e.id].instance == s.instances[e.id].instance;
    }
  }

  lemma {:induction false} RunExplained(events: seq<Event>, config: Config)
    ensures forall id | id in Run(events, config).instances :: Explained(Run(events, config), id)
  {
    if events != [] {
      var s, e := Run(events[..|events| - 1], config), events[|events| - 1];
      RunExplained(events[..|events| - 1], config);
      RunInv(events[..|events| - 1], config);
      if Enabled(s, e) {
        StepWf(s, e, config);
        var t := Step(s, e, config);
        forall id | id in t.instances ensures Explained(t, id) {
          if id in s.instances {
            if id == Target(s, e) { OwnExplained(s, e, config); } else { OtherExplained(s, e, config, id); }
          } else {
            assert e.StartCall? && e.id == id;
          }
        }
      }
    }
  }

  /** In every interleaving an instance with neither a start nor a stop pending is RUNNING, STOPPED or FAILED, and
      STOPPED only without a handle. */
  lemma SettledStatus(events: seq<Event>, config: Config, id: string)
    requires var s := Run(events, config);
      id in s.instances && id !in s.starts && forall t | t in s.stops :: s.stops[t].id != id
    ensures var s := Run(events, config);
      && StatusOf(s, id) in {RUNNING, STOPPED, FAILED}
      && (StatusOf(s, id) == STOPPED ==> s.instances[id].providerHandle.None?)
  {
    RunInv(events, config);
    RunExplained(events, config);
    assert IdOk(Run(events, config), id) && Explained(Run(events, config), id);
  }
}
