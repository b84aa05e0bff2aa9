/** The network broker: instances that start and stop through a provider, interleaved at every await. Instance
    objects are shared between the record, a pending start and pending stops, so they live in an explicit
    heap and are referred to by number. */
module NetworkBroker {
  import opened Common

  datatype Backend = E2b | Local

  datatype Status = PROVISIONING | RUNNING | STOPPING | STOPPED | FAILED

  datatype Instance = Instance(id: string, status: Status, backend: Backend, attachedAgents: seq<string>)

  datatype Record = Record(instance: nat, providerHandle: Option<nat>)

  /** Where a pending start is suspended. `Killing` is the cleanup of a sandbox that did not boot. */
  datatype StartPhase = Creating | Reading(sandbox: nat) | Killing(sandbox: nat) | Mounting

  datatype Start = Start(reserved: nat, phase: StartPhase)

  datatype StopTask = StopTask(id: string, rec: Record)

  /** `owners` lists, for each sandbox or shell tool ever obtained, the instance it was for; `released` those
      whose kill or unmount was called; `disturbed` the instances stopped while PROVISIONING. */
  datatype Broker = Broker(
    instances: map<string, Record>,
    heap: seq<Instance>,
    owners: seq<string>,
    released: set<nat>,
    starts: map<string, Start>,
    stops: map<nat, StopTask>,
    disturbed: set<string>)

  const EMPTY := Broker(map[], [], [], {}, map[], map[], {})

  /** The broker's configuration: the cap, and whether the daemon's hooks are there for local networks. */
  datatype Config = Config(softCap: int, hasHooks: bool)

  datatype StartParams = StartParams(name: string, ownerUserId: string, backend: string, cwd: string)

  datatype Event =
    | StartCall(id: string, params: StartParams)
    | Created(id: string, ok: bool, hasId: bool)
    | BootRead(id: string, ok: bool)
    | Killed(id: string)
    | Mounted(id: string, ok: bool)
    | StopCall(task: nat, id: string)
    | StopSettled(task: nat, ok: bool)
    | Attach(id: string, agent: string)
    | Detach(id: string, agent: string)

  // ---- Parts of the operations ---------------------------------------------------------------

  function BackendOf(params: StartParams): Backend {
    if params.backend == "local" then Local else E2b
  }

  /** An absent backend means e2b. */
  predicate Acceptable(params: StartParams, config: Config) {
    && params.name != "" && params.ownerUserId != ""
    && params.backend in {"", "e2b", "local"}
    && (params.backend == "local" ==> params.cwd != "" && config.hasHooks)
  }

  predicate Terminal(status: Status) { status == STOPPED || status == FAILED }

  predicate InHeap(s: Broker) {
    forall id | id in s.instances :: s.instances[id].instance < |s.heap|
  }

  function StatusOf(s: Broker, id: string): Status
    requires InHeap(s) && id in s.instances
  {
    s.heap[s.instances[id].instance].status
  }

  /** The instances `activeCount` counts. */
  function Active(s: Broker): set<string>
    requires InHeap(s)
  {
    set id | id in s.instances && !Terminal(StatusOf(s, id))
  }

  function Without(agents: seq<string>, agent: string): seq<string> {
    if agents == [] then []
    else (if agents[0] != agent then [agents[0]] else []) + Without(agents[1..], agent)
  }

  function Joined(agents: seq<string>, agent: string): seq<string> {
    if agent in agents then agents else agents + [agent]
  }

  function WithStatus(s: Broker, o: nat, status: Status): Broker {
    if o < |s.heap| then s.(heap := s.heap[o := s.heap[o].(status := status)]) else s
  }

  /** A start ends: the record gets a copy of the reserved instance with its final status. */
  function Conclude(s: Broker, id: string, status: Status, handle: Option<nat>): Broker
    requires id in s.starts && s.starts[id].reserved < |s.heap|
  {
    s.(heap := s.heap + [s.heap[s.starts[id].reserved].(status := status)],
       instances := s.instances[id := Record(|s.heap|, handle)],
       starts := s.starts - {id})
  }

  /** A start throws with a sandbox in hand: it is killed first. */
  function Abandon(s: Broker, id: string, sandbox: nat): Broker
    requires id in s.starts
  {
    s.(released := s.released + {sandbox}, starts := s.starts[id := s.starts[id].(phase := Killing(sandbox))])
  }

  function FinishStop(s: Broker, id: string, rec: Record): Broker {
    WithStatus(s, rec.instance, STOPPED).(instances := s.instances[id := Record(rec.instance, None)])
  }

  // ---- Steps ---------------------------------------------------------------------------------

  /** References point into the heap. */
  ghost predicate Wf(s: Broker) {
    && InHeap(s)
    && (forall id | id in s.starts :: id in s.instances && s.starts[id].reserved < |s.heap|)
    && (forall t | t in s.stops :: s.stops[t].id in s.instances && s.stops[t].rec.instance < |s.heap|)
  }

  /** What may happen next. Ids of new instances are fresh. */
  predicate Enabled(s: Broker, e: Event) {
    match e
    case StartCall(id, _) => id !in s.instances
    case Created(id, _, _) => id in s.starts && s.starts[id].phase == Creating
    case BootRead(id, _) => id in s.starts && s.starts[id].phase.Reading?
    case Killed(id) => id in s.starts && s.starts[id].phase.Killing?
    case Mounted(id, _) => id in s.starts && s.starts[id].phase == Mounting
    case StopCall(t, _) => t !in s.stops
    case StopSettled(t, _) => t in s.stops
    case Attach(_, _) => true
    case Detach(_, _) => true
  }

  function OnStart(s: Broker, id: string, params: StartParams, config: Config): Broker
    requires InHeap(s)
  {
    if !Acceptable(params, config) || |Active(s)| >= config.softCap then s
    else
      s.(heap := s.heap + [Instance(id, PROVISIONING, BackendOf(params), [])],
         instances := s.instances[id := Record(|s.heap|, None)],
         starts := s.starts[id := Start(|s.heap|, if BackendOf(params) == E2b then Creating else Mounting)])
  }

  /** The sandbox is parked in the record at once; one without an id is abandoned. */
  function OnCreated(s: Broker, id: string, ok: bool, hasId: bool): Broker
    requires id in s.starts && s.starts[id].reserved < |s.heap|
  {
    if !ok then Conclude(s, id, FAILED, None)
    else
      var h := |s.owners|;
      var parked := s.(owners := s.owners + [id],
                       instances := s.instances[id := Record(s.starts[id].reserved, Some(h))]);
      if hasId then parked.(starts := s.starts[id := s.starts[id].(phase := Reading(h))]) else Abandon(parked, id, h)
  }

  function OnStop(s: Broker, t: nat, id: string): Broker
    requires InHeap(s)
  {
    if id !in s.instances then s
    else
      var rec := s.instances[id];
      var r := WithStatus(s, rec.instance, STOPPING).(
        disturbed := if StatusOf(s, id) == PROVISIONING then s.disturbed + {id} else s.disturbed);
      if rec.providerHandle.Some?
      then r.(released := r.released + {rec.providerHandle.value}, stops := r.stops[t := StopTask(id, rec)])
      else FinishStop(r, id, rec)
  }

  function OnStopSettled(s: Broker, t: nat, ok: bool): Broker
    requires t in s.stops
  {
    var task := s.stops[t];
    var done := s.(stops := s.stops - {t});
    if ok then FinishStop(done, task.id, task.rec) else WithStatus(done, task.rec.instance, FAILED)
  }

  function OnAgents(s: Broker, id: string, agents: seq<string>): Broker
    requires id in s.instances && InHeap(s)
  {
    var o := s.instances[id].instance;
    s.(heap := s.heap[o := s.heap[o].(attachedAgents := agents)])
  }

  function AgentsOf(s: Broker, id: string): seq<string>
    requires id in s.instances && InHeap(s)
  {
    s.heap[s.instances[id].instance].attachedAgents
  }

  function Step(s: Broker, e: Event, config: Config): Broker
    requires Wf(s) && Enabled(s, e)
  {
    match e
    case StartCall(id, params) => OnStart(s, id, params, config)
    case Created(id, ok, hasId) => OnCreated(s, id, ok, hasId)
    case BootRead(id, ok) =>
      if ok then Conclude(s, id, RUNNING, Some(s.starts[id].phase.sandbox)) else Abandon(s, id, s.starts[id].phase.sandbox)
    case Killed(id) => Conclude(s, id, FAILED, None)
    case Mounted(id, ok) =>
      if ok then Conclude(s.(owners := s.owners + [id]), id, RUNNING, Some(|s.owners|)) else Conclude(s, id, FAILED, None)
    case StopCall(t, id) => OnStop(s, t, id)
    case StopSettled(t, ok) => OnStopSettled(s, t, ok)
    case Attach(id, agent) =>
      if id !in s.instances || agent == "" then s else OnAgents(s, id, Joined(AgentsOf(s, id), agent))
    case Detach(id, agent) =>
      if id !in s.instances || agent == "" then s else OnAgents(s, id, Without(AgentsOf(s, id), agent))
  }

  lemma StepWf(s: Broker, e: Event, config: Config)
    requires Wf(s) && Enabled(s, e)
    ensures Wf(Step(s, e, config))
  {
    match e
    case StopCall(t, id) => StopWf(s, t, id);
    case StopSettled(t, ok) =>
    case _ =>
  }

  lemma StopWf(s: Broker, t: nat, id: string)
    requires Wf(s)
    ensures Wf(OnStop(s, t, id))
  {
  }

  /** Every sequence of events is a run: one that cannot happen where it stands is skipped. */
  ghost function Run(events: seq<Event>, config: Config): (s: Broker)
    ensures Wf(s)
  {
    if events == [] then EMPTY
    else
      var s, e := Run(events[..|events| - 1], config), events[|events| - 1];
      if Enabled(s, e) then (StepWf(s, e, config); Step(s, e, config)) else s
  }

  // ---- The broker as an object ---------------------------------------------------------------

  /** Each method is the code between two awaits. */
  class NetworkBrokerNode {
    const config: Config
    var instances: map<string, Record>
    var heap: seq<Instance>
    var owners: seq<string>
    var released: set<nat>
    var starts: map<string, Start>
    var stops: map<nat, StopTask>
    ghost var disturbed: set<string>

    ghost function View(): Broker
      reads this
    {
      Broker(instances, heap, owners, released, starts, stops, disturbed)
    }

    constructor (config: Config)
      ensures View() == EMPTY && this.config == config
    {
      this.config := config;
      instances, heap, owners, released, starts, stops := map[], [], [], {}, map[], map[];
      disturbed := {};
    }

    /** The number of instances in a non-terminal status. */
    method ActiveCount() returns (n: nat)
      requires InHeap(View())
      ensures n == |Active(View())|
    {
      n := 0;
      var rest := instances.Keys;
      ghost var seen: set<string> := {};
      while rest != {}
        invariant rest <= instances.Keys && seen == instances.Keys - rest
        invariant n == |set id | id in seen && id in Active(View())|
        decreases rest
      {
        var id :| id in rest;
        ghost var before := set id | id in seen && id in Active(View());
        rest := rest - {id};
        seen := seen + {id};
        ghost var after := set id | id in seen && id in Active(View());
        assert after == if id in Active(View()) then before + {id} else before;
        if !Terminal(heap[instances[id].instance].status) { n := n + 1; }
      }
      assert (set id | id in seen && id in Active(View())) == Active(View());
    }

    method ToolStart(id: string, params: StartParams) returns (started: bool)
      requires Wf(View()) && Enabled(View(), StartCall(id, params))
      modifies this
      ensures View() == Step(old(View()), StartCall(id, params), config)
      ensures started <==> Acceptable(params, config) && |Active(old(View()))| < config.softCap
    {
      if params.name == "" || params.ownerUserId == "" { return false; }
      if params.backend !in {"", "e2b", "local"} { return false; }
      if params.backend == "local" && params.cwd == "" { return false; }
      if params.backend == "local" && !config.hasHooks { return false; }
      var active := ActiveCount();
      if active >= config.softCap { return false; }
      var reserved := |heap|;
      heap := heap + [Instance(id, PROVISIONING, BackendOf(params), [])];
      instances := instances[id := Record(reserved, None)];
      if BackendOf(params) == E2b {
        starts := starts[id := Start(reserved, Creating)];
      } else {
        starts := starts[id := Start(reserved, Mounting)];
      }
      return true;
    }

    /** End of a start: a copy of the reserved instance replaces it in the record. */
    method Settle(id: string, status: Status, handle: Option<nat>)
      requires id in starts && starts[id].reserved < |heap|
      modifies this
      ensures View() == Conclude(old(View()), id, status, handle)
    {
      var copy := heap[starts[id].reserved].(status := status);
      instances := instances[id := Record(|heap|, handle)];
      heap := heap + [copy];
      starts := starts - {id};
    }

    method SandboxCreated(id: string, ok: bool, hasId: bool)
      requires Wf(View()) && Enabled(View(), Created(id, ok, hasId))
      modifies this
      ensures View() == Step(old(View()), Created(id, ok, hasId), config)
    {
      if !ok {
        Settle(id, FAILED, None);
        return;
      }
      var sandbox := |owners|;
      var start := starts[id];
      owners := owners + [id];
      instances := instances[id := Record(start.reserved, Some(sandbox))];
      if hasId {
        starts := starts[id := start.(phase := Reading(sandbox))];
      } else {
        released := released + {sandbox};
        starts := starts[id := start.(phase := Killing(sandbox))];
      }
    }

    method MultiaddrsRead(id: string, ok: bool)
      requires Wf(View()) && Enabled(View(), BootRead(id, ok))
      modifies this
      ensures View() == Step(old(View()), BootRead(id, ok), config)
    {
      var sandbox := starts[id].phase.sandbox;
      if ok {
        Settle(id, RUNNING, Some(sandbox));
      } else {
        released := released + {sandbox};
        starts := starts[id := starts[id].(phase := Killing(sandbox))];
      }
    }

    method SandboxKilled(id: string)
      requires Wf(View()) && Enabled(View(), Killed(id))
      modifies this
      ensures View() == Step(old(View()), Killed(id), config)
    {
      Settle(id, FAILED, None);
    }

    method ToolMounted(id: string, ok: bool)
      requires Wf(View()) && Enabled(View(), Mounted(id, ok))
      modifies this
      ensures View() == Step(old(View()), Mounted(id, ok), config)
    {
      if ok {
        var tool := |owners|;
        owners := owners + [id];
        Settle(id, RUNNING, Some(tool));
      } else {
        Settle(id, FAILED, None);
      }
    }

    method ToolStop(t: nat, id: string) returns (found: bool)
      requires Wf(View()) && Enabled(View(), StopCall(t, id))
      modifies this
      ensures View() == Step(old(View()), StopCall(t, id), config)
      ensures found <==> id in old(instances)
    {
      if id !in instances { return false; }
      var rec := instances[id];
      if heap[rec.instance].status == PROVISIONING { disturbed := disturbed + {id}; }
      heap := heap[rec.instance := heap[rec.instance].(status := STOPPING)];
      if rec.providerHandle.Some? {
        released := released + {rec.providerHandle.value};
        stops := stops[t := StopTask(id, rec)];
      } else {
        heap := heap[rec.instance := heap[rec.instance].(status := STOPPED)];
        instances := instances[id := Record(rec.instance, None)];
      }
      return true;
    }

    method StopReturned(t: nat, ok: bool)
      requires Wf(View()) && Enabled(View(), StopSettled(t, ok))
      modifies this
      ensures View() == Step(old(View()), StopSettled(t, ok), config)
    {
      var task := stops[t];
      stops := stops - {t};
      if ok {
        heap := heap[task.rec.instance := heap[task.rec.instance].(status := STOPPED)];
        instances := instances[task.id := Record(task.rec.instance, None)];
      } else {
        heap := heap[task.rec.instance := heap[task.rec.instance].(status := FAILED)];
      }
    }

    method ToolAttach(id: string, agent: string) returns (found: bool)
      requires Wf(View())
      modifies this
      ensures View() == Step(old(View()), Attach(id, agent), config)
      ensures found <==> id in old(instances) && agent != ""
    {
      if agent == "" || id !in instances { return false; }
      var o := instances[id].instance;
      if agent !in heap[o].attachedAgents {
        heap := heap[o := heap[o].(attachedAgents := heap[o].attachedAgents + [agent])];
      }
      return true;
    }

    method ToolDetach(id: string, agent: string) returns (found: bool)
      requires Wf(View())
      modifies this
      ensures View() == Step(old(View()), Detach(id, agent), config)
      ensures found <==> id in old(instances) && agent != ""
    {
      if agent == "" || id !in instances { return false; }
      var o := instances[id].instance;
      heap := heap[o := heap[o].(attachedAgents := Without(heap[o].attachedAgents, agent))];
      return true;
    }
  }
}
