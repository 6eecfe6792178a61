/**
 Agent lifecycle: handlers and turn functions are atomic, and each start, stop or restart runs as a flow
 that is in flight until its result is handled.  Entities, reply slots and turns are numbered in the
 order in which they are created.
 */
module AgentLifecycle {
  import opened Wrappers

  datatype AgentState = Starting | Idle | Working | Restarting | Stopping

  datatype Agent = Agent(name: string, workspace: nat, address: string, state: AgentState, turn: Option<nat>)

  datatype AgentErrorKind = InvalidRequest | StateRejected | AgentMissing | UnfinishedTasks | FlowFailed

  /** A flow in flight: the state it must find again, and the reply slot it will answer. */
  datatype Flow = Flow(agent: nat, state: AgentState, reply: nat)

  datatype FlowOutcome = Finished | Failed(cleanupCompleted: bool) | Vanished

  datatype World = World(
    agents: map<nat, Agent>, flows: seq<Flow>, nextEntity: nat, nextTurn: nat, claimed: set<nat>,
    delivered: seq<(nat, Result<nat, AgentErrorKind>)>)

  datatype Step =
    // requestError: what request validation and the workspace reject; addressError: invalid, or taken by
    // another kind of entity
    | StartAgent(reply: nat, workspace: nat, name: string, scope: string, requestError: Option<AgentErrorKind>,
                 addressError: Option<AgentErrorKind>, insertFails: bool)
    | StopAgent(reply: nat, agent: nat, requestError: Option<AgentErrorKind>)
    | RestartAgent(reply: nat, workspace: nat, name: string, requestError: Option<AgentErrorKind>,
        unfinishedTasks: bool)
    | AgentException(agent: nat)
    | StartTurn(agent: nat)
    | FinishTurn(agent: nat, turn: Option<nat>)
    | AbortTurn(agent: nat, turn: Option<nat>)
    | FlowResult(k: nat, outcome: FlowOutcome)

  // ---------------------------------------------------------------- the handlers

  function Deliver(w: World, reply: nat, result: Result<nat, AgentErrorKind>): World {
    w.(delivered := w.delivered + [(reply, result)])
  }

  function Reject(w: World, reply: nat, kind: AgentErrorKind): World {
    Deliver(w, reply, Err(kind))
  }

  /** `claim`: the sender moves out of the request's slot, so a request is handled once. */
  function Claim(w: World, reply: nat): World {
    w.(claimed := w.claimed + {reply})
  }

  /** A flow starts for an agent that just entered the flow's state. */
  function Launch(w: World, reply: nat, e: nat, agent: Agent): World {
    w.(agents := w.agents[e := agent], flows := w.flows + [Flow(e, agent.state, reply)])
  }

  function MemberAddress(scope: string, name: string): string {
    "agent:" + scope + "/" + name + ":latest"
  }

  /** The members with a name: at most one in every reachable state. */
  function Members(w: World, workspace: nat, name: string): set<nat> {
    set e | e in w.agents && w.agents[e].workspace == workspace && w.agents[e].name == name
  }

  predicate AddressTaken(w: World, address: string) {
    exists e :: e in w.agents && w.agents[e].address == address
  }

  /** Why a start is refused before anything is spawned. */
  function StartRefusal(w: World, step: Step): Option<AgentErrorKind>
    requires step.StartAgent?
  {
    if step.requestError.Some? then step.requestError
    else if Members(w, step.workspace, step.name) != {} then Some(StateRejected)
    else if step.addressError.Some? then step.addressError
    else if AddressTaken(w, MemberAddress(step.scope, step.name)) then Some(StateRejected)
    else None
  }

  function HandleStart(w: World, step: Step): World
    requires step.StartAgent?
  {
    match StartRefusal(w, step)
    case Some(kind) => Reject(w, step.reply, kind)
    case None =>
      var spawned := w.(nextEntity := w.nextEntity + 1);
      if step.insertFails then Reject(spawned, step.reply, InvalidRequest)
      else Launch(spawned, step.reply, w.nextEntity, NewAgent(step))
  }

  function NewAgent(step: Step): Agent
    requires step.StartAgent?
  {
    Agent(step.name, step.workspace, MemberAddress(step.scope, step.name), Starting, None)
  }

  predicate AtRest(agent: Agent) {
    agent.state.Idle? || agent.state.Working?
  }

  function HandleStop(w: World, step: Step): World
    requires step.StopAgent?
  {
    if step.requestError.Some? then Reject(w, step.reply, step.requestError.value)
    else if step.agent !in w.agents then Reject(w, step.reply, AgentMissing)
    else if !AtRest(w.agents[step.agent]) then Reject(w, step.reply, StateRejected)
    else Launch(w, step.reply, step.agent, w.agents[step.agent].(state := Stopping, turn := None))
  }

  function HandleRestart(w: World, step: Step): World
    requires step.RestartAgent?
  {
    var members := Members(w, step.workspace, step.name);
    if step.requestError.Some? then Reject(w, step.reply, step.requestError.value)
    else if members == {} then Reject(w, step.reply, AgentMissing)
    else if |members| > 1 then Reject(w, step.reply, InvalidRequest)
    else
      var e := TheOnly(members);
      if step.unfinishedTasks then Reject(w, step.reply, UnfinishedTasks)
      else if !AtRest(w.agents[e]) then Reject(w, step.reply, StateRejected)
      else Launch(w, step.reply, e, w.agents[e].(state := Restarting, turn := None))
  }

  function TheOnly(members: set<nat>): (e: nat)
    requires |members| == 1
    ensures e in members
  {
    Singleton(members);
    var e :| e in members; e
  }

  lemma Singleton(members: set<nat>)
    requires |members| == 1
    ensures exists e :: e in members
    ensures forall a, b :: a in members && b in members ==> a == b
  {
    var e :| e in members;
    assert |members - {e}| == 0;
    assert members == {e};
  }

  function HandleException(w: World, e: nat): World {
    if e in w.agents then w.(agents := w.agents[e := w.agents[e].(state := Stopping, turn := None)]) else w
  }

  /** Whether a result still finds its agent in the state of its flow. */
  predicate Current(w: World, flow: Flow) {
    flow.agent in w.agents && w.agents[flow.agent].state == flow.state
  }

  function MakeIdle(w: World, e: nat): World
    requires e in w.agents
  {
    w.(agents := w.agents[e := w.agents[e].(state := Idle, turn := None)])
  }

  /** A result: a finished start or restart makes its agent idle, a finished stop or a clean failure removes it. */
  function HandleResult(w: World, flow: Flow, outcome: FlowOutcome): World {
    match outcome
    case Vanished => w
    case Failed(cleanupCompleted) =>
      Deliver(if cleanupCompleted && Current(w, flow) then Despawn(w, flow.agent) else w, flow.reply, Err(FlowFailed))
    case Finished =>
      if Current(w, flow) then
        var settled := if flow.state.Stopping? then Despawn(w, flow.agent) else MakeIdle(w, flow.agent);
        Deliver(settled, flow.reply, Ok(flow.agent))
      else
        var stale := flow.agent in w.agents || flow.state.Stopping?;
        Deliver(w, flow.reply, Err(if stale then StateRejected else AgentMissing))
  }

  function Despawn(w: World, e: nat): World {
    w.(agents := w.agents - {e})
  }

  /** `agent_start_turn`: rejected unless the agent is idle without a turn. */
  function HandleStartTurn(w: World, e: nat): World {
    if e in w.agents && w.agents[e].state.Idle? && w.agents[e].turn.None? then
      w.(agents := w.agents[e := w.agents[e].(state := Working, turn := Some(w.nextTurn))], nextTurn := w.nextTurn + 1)
    else w
  }

  /** `agent_finish_turn`: any nonempty turn ends work that has no turn of its own any more. */
  function HandleFinishTurn(w: World, e: nat, turn: Option<nat>): World {
    if e in w.agents && turn.Some? && w.agents[e].state.Working? &&
        (w.agents[e].turn.None? || w.agents[e].turn == turn) then
      w.(agents := w.agents[e := w.agents[e].(state := Idle, turn := None)])
    else w
  }

  /** `agent_abort_turn`: the turn ends but the agent keeps working. */
  function HandleAbortTurn(w: World, e: nat, turn: Option<nat>): World {
    if e in w.agents && turn.Some? && w.agents[e].state.Working? && w.agents[e].turn == turn then
      w.(agents := w.agents[e := w.agents[e].(turn := None)])
    else w
  }

  predicate Enabled(w: World, step: Step) {
    step.FlowResult? ==> step.k < |w.flows|
  }

  function Apply(w: World, step: Step): World
    requires Enabled(w, step)
  {
    match step
    case StartAgent(reply, _, _, _, _, _, _) => if reply in w.claimed then w else HandleStart(Claim(w, reply), step)
    case StopAgent(reply, _, _) => if reply in w.claimed then w else HandleStop(Claim(w, reply), step)
    case RestartAgent(reply, _, _, _, _) => if reply in w.claimed then w else HandleRestart(Claim(w, reply), step)
    case AgentException(e) => HandleException(w, e)
    case StartTurn(e) => HandleStartTurn(w, e)
    case FinishTurn(e, turn) => HandleFinishTurn(w, e, turn)
    case AbortTurn(e, turn) => HandleAbortTurn(w, e, turn)
    case FlowResult(k, outcome) =>
      HandleResult(w.(flows := Without(w.flows, k)), w.flows[k], outcome)
  }

  const NEW_WORLD := World(map[], [], 0, 1, {}, [])

  // ---------------------------------------------------------------- what every run keeps

  /** At most one flow per agent, whose state is the flow's own or Stopping. */
  ghost predicate FlowInv(w: World) {
    && (forall j, k :: 0 <= j < k < |w.flows| ==> w.flows[j].agent != w.flows[k].agent)
    && (forall k :: 0 <= k < |w.flows| ==>
          && w.flows[k].agent in w.agents
          && !w.flows[k].state.Idle? && !w.flows[k].state.Working?
          && (w.agents[w.flows[k].agent].state == w.flows[k].state || w.agents[w.flows[k].agent].state.Stopping?))
    && (forall e :: e in w.agents ==> e < w.nextEntity)
  }

  ghost predicate TurnInv(w: World) {
    forall e :: e in w.agents && w.agents[e].turn.Some? ==>
        w.agents[e].state.Working? && w.agents[e].turn.value < w.nextTurn
  }

  ghost predicate UniqueInv(w: World) {
    forall d, e :: d in w.agents && e in w.agents && d != e ==>
      && (w.agents[d].workspace != w.agents[e].workspace || w.agents[d].name != w.agents[e].name)
      && w.agents[d].address != w.agents[e].address
  }

  /** Each claimed reply is delivered at most once: a flow still owes its own. */
  ghost predicate ReplyInv(w: World) {
    && (forall j, k :: 0 <= j < k < |w.delivered| ==> w.delivered[j].0 != w.delivered[k].0)
    && (forall k :: 0 <= k < |w.delivered| ==> w.delivered[k].0 in w.claimed)
    && (forall k :: 0 <= k < |w.flows| ==> w.flows[k].reply in w.claimed)
    && (forall j, k :: 0 <= j < |w.delivered| && 0 <= k < |w.flows| ==> w.delivered[j].0 != w.flows[k].reply)
    && (forall j, k :: 0 <= j < k < |w.flows| ==> w.flows[j].reply != w.flows[k].reply)
  }

  ghost predicate Inv(w: World) {
    FlowInv(w) && TurnInv(w) && UniqueInv(w) && ReplyInv(w)
  }

  /** Stopping is left only by despawning. */
  ghost predicate StoppingKept(w: World, next: World) {
    forall e :: e in w.agents && w.agents[e].state.Stopping? && e in next.agents ==> next.agents[e].state.Stopping?
  }

  ghost predicate NoFlow(w: World, e: nat) {
    forall j :: 0 <= j < |w.flows| ==> w.flows[j].agent != e
  }

  ghost predicate Owed(w: World, reply: nat) {
    && reply in w.claimed
    && (forall j :: 0 <= j < |w.delivered| ==> w.delivered[j].0 != reply)
    && (forall j :: 0 <= j < |w.flows| ==> w.flows[j].reply != reply)
  }

  lemma ClaimInv(w: World, reply: nat)
    requires Inv(w) && reply !in w.claimed
    ensures Inv(Claim(w, reply)) && Owed(Claim(w, reply), reply)
  {
  }

  lemma DeliverInv(w: World, reply: nat, result: Result<nat, AgentErrorKind>)
    requires Inv(w) && Owed(w, reply)
    ensures Inv(Deliver(w, reply, result)) && StoppingKept(w, Deliver(w, reply, result))
  {
  }

  lemma LaunchInv(w: World, reply: nat, e: nat, agent: Agent)
    requires Inv(w) && Owed(w, reply) && e < w.nextEntity
    requires agent.turn.None? && !AtRest(agent)
    requires NoFlow(w, e)
    requires forall d :: d in w.agents && d != e ==>
               (w.agents[d].workspace != agent.workspace || w.agents[d].name != agent.name) &&
                   w.agents[d].address != agent.address
    requires e in w.agents ==> AtRest(w.agents[e])
    ensures Inv(Launch(w, reply, e, agent)) && StoppingKept(w, Launch(w, reply, e, agent))
  {
    LaunchFlows(w, reply, e, agent);
    LaunchReplies(w, reply, e, agent);
    hide FlowInv;
    hide ReplyInv;
  }

  lemma LaunchFlows(w: World, reply: nat, e: nat, agent: Agent)
    requires FlowInv(w) && NoFlow(w, e) && e < w.nextEntity && !AtRest(agent)
    ensures FlowInv(Launch(w, reply, e, agent))
  {
  }

  lemma LaunchReplies(w: World, reply: nat, e: nat, agent: Agent)
    requires ReplyInv(w) && Owed(w, reply)
    ensures ReplyInv(Launch(w, reply, e, agent))
  {
  }

  lemma SpawnInv(w: World)
    requires Inv(w)
    ensures Inv(w.(nextEntity := w.nextEntity + 1))
  {
  }

  lemma StartInv(w: World, step: Step)
    requires step.StartAgent? && Inv(w) && Owed(w, step.reply)
    ensures Inv(HandleStart(w, step)) && StoppingKept(w, HandleStart(w, step))
  {
    hide Inv;
    match StartRefusal(w, step) {
      case Some(kind) => DeliverInv(w, step.reply, Err(kind));
      case None =>
        SpawnInv(w);
        if step.insertFails {
          DeliverInv(w.(nextEntity := w.nextEntity + 1), step.reply, Err(InvalidRequest));
        } else {
          LaunchNewInv(w, step);
        }
    }
  }

  lemma LaunchNewInv(w: World, step: Step)
    requires step.StartAgent? && Inv(w) && Owed(w, step.reply) && StartRefusal(w, step).None?
    ensures var next := Launch(w.(nextEntity := w.nextEntity + 1), step.reply, w.nextEntity, NewAgent(step));
            Inv(next) && StoppingKept(w, next)
  {
    SpawnInv(w);
    NewEntity(w);
    FreshMember(w, step);
    hide Inv;
    LaunchInv(w.(nextEntity := w.nextEntity + 1), step.reply, w.nextEntity, NewAgent(step));
  }

  lemma FreshMember(w: World, step: Step)
    requires step.StartAgent? && StartRefusal(w, step).None?
    ensures forall d :: d in w.agents ==>
              (w.agents[d].workspace != step.workspace || w.agents[d].name != step.name) &&
              w.agents[d].address != MemberAddress(step.scope, step.name)
  {
    forall d | d in w.agents ensures w.agents[d].workspace != step.workspace || w.agents[d].name != step.name {
      assert d !in Members(w, step.workspace, step.name);
    }
  }

  lemma NewEntity(w: World)
    requires Inv(w)
    ensures w.nextEntity !in w.agents && NoFlow(w, w.nextEntity)
  {
  }

  /** An agent at rest has no flow in flight. */
  lemma RestHasNoFlow(w: World, e: nat)
    requires Inv(w) && e in w.agents && AtRest(w.agents[e])
    ensures NoFlow(w, e)
  {
  }

  lemma RelaunchInv(w: World, reply: nat, e: nat, state: AgentState)
    requires Inv(w) && Owed(w, reply) && e in w.agents && AtRest(w.agents[e]) && (state.Stopping? || state.Restarting?)
    ensures var next := Launch(w, reply, e, w.agents[e].(state := state, turn := None));
            Inv(next) && StoppingKept(w, next)
  {
    RestHasNoFlow(w, e);
    LaunchInv(w, reply, e, w.agents[e].(state := state, turn := None));
  }

  /** Changing the state and turn of one agent in a way that its flow, if any, allows. */
  lemma UpdateInv(w: World, e: nat, agent: Agent, nextTurn: nat)
    requires Inv(w) && e in w.agents && w.nextTurn <= nextTurn
    requires agent.name == w.agents[e].name && agent.workspace == w.agents[e].workspace &&
             agent.address == w.agents[e].address
    requires agent.turn.Some? ==> agent.state.Working? && agent.turn.value < nextTurn
    requires agent.state.Stopping? || NoFlow(w, e)
    requires w.agents[e].state.Stopping? ==> agent.state.Stopping?
    ensures var next := w.(agents := w.agents[e := agent], nextTurn := nextTurn);
            Inv(next) && StoppingKept(w, next)
  {
  }

  lemma DespawnInv(w: World, e: nat)
    requires Inv(w) && NoFlow(w, e)
    ensures Inv(Despawn(w, e)) && StoppingKept(w, Despawn(w, e))
  {
  }

  function Without(flows: seq<Flow>, k: nat): seq<Flow>
    requires k < |flows|
  {
    flows[..k] + flows[k + 1..]
  }

  lemma WithoutIndex(flows: seq<Flow>, k: nat)
    requires k < |flows|
    ensures |Without(flows, k)| == |flows| - 1
    ensures forall j :: 0 <= j < |flows| - 1 ==> Without(flows, k)[j] == flows[if j < k then j else j + 1]
  {
  }

  /** Taking a flow out leaves its agent without one and its reply owed by nobody. */
  lemma WithoutFlow(w: World, k: nat)
    requires Inv(w) && k < |w.flows|
    ensures var rest := w.(flows := Without(w.flows, k));
            && Inv(rest)
            && NoFlow(rest, w.flows[k].agent)
            && Owed(rest, w.flows[k].reply)
  {
    WithoutIndex(w.flows, k);
    hide Without;
  }

  lemma ResultInv(w: World, k: nat, outcome: FlowOutcome)
    requires Inv(w) && k < |w.flows|
    ensures var next := Apply(w, FlowResult(k, outcome));
            Inv(next) && StoppingKept(w, next)
  {
    WithoutFlow(w, k);
    ResultWithoutFlowInv(w.(flows := Without(w.flows, k)), w.flows[k], outcome);
  }

  lemma ResultWithoutFlowInv(w: World, flow: Flow, outcome: FlowOutcome)
    requires Inv(w) && NoFlow(w, flow.agent) && Owed(w, flow.reply)
    ensures var next := HandleResult(w, flow, outcome);
            Inv(next) && StoppingKept(w, next)
  {
    DespawnInv(w, flow.agent);
    if Current(w, flow) && !flow.state.Stopping? {
      UpdateInv(w, flow.agent, w.agents[flow.agent].(state := Idle, turn := None), w.nextTurn);
    }
    hide Inv;
    match outcome {
      case Vanished =>
      case Failed(cleanupCompleted) =>
        var next := if cleanupCompleted && Current(w, flow) then Despawn(w, flow.agent) else w;
        DeliverInv(next, flow.reply, Err(FlowFailed));
      case Finished =>
        if Current(w, flow) {
          var next := if flow.state.Stopping? then Despawn(w, flow.agent) else MakeIdle(w, flow.agent);
          DeliverInv(next, flow.reply, Ok(flow.agent));
        } else {
          DeliverInv(w, flow.reply, Err(StateRejected));
          DeliverInv(w, flow.reply, Err(AgentMissing));
        }
    }
  }

  lemma StopInv(w: World, step: Step)
    requires step.StopAgent? && Inv(w) && Owed(w, step.reply)
    ensures Inv(HandleStop(w, step)) && StoppingKept(w, HandleStop(w, step))
  {
    if step.requestError.Some? {
      DeliverInv(w, step.reply, Err(step.requestError.value));
    } else if step.agent in w.agents && AtRest(w.agents[step.agent]) {
      RelaunchInv(w, step.reply, step.agent, Stopping);
    } else {
      DeliverInv(w, step.reply, Err(AgentMissing));
      DeliverInv(w, step.reply, Err(StateRejected));
    }
  }

  /** A name has at most one member, so a restart is never ambiguous. */
  lemma MemberUnique(w: World, workspace: nat, name: string)
    requires UniqueInv(w)
    ensures |Members(w, workspace, name)| <= 1
  {
    var members := Members(w, workspace, name);
    if members != {} {
      var e :| e in members;
      assert members == {e};
    }
  }

  lemma RestartInv(w: World, step: Step)
    requires step.RestartAgent? && Inv(w) && Owed(w, step.reply)
    ensures Inv(HandleRestart(w, step)) && StoppingKept(w, HandleRestart(w, step))
  {
    var members := Members(w, step.workspace, step.name);
    MemberUnique(w, step.workspace, step.name);
    hide Inv;
    DeliverInv(w, step.reply, Err(AgentMissing));
    DeliverInv(w, step.reply, Err(UnfinishedTasks));
    DeliverInv(w, step.reply, Err(StateRejected));
    if step.requestError.Some? {
      DeliverInv(w, step.reply, Err(step.requestError.value));
    } else if members != {} {
      var e := TheOnly(members);
      if AtRest(w.agents[e]) {
        RelaunchInv(w, step.reply, e, Restarting);
      }
    }
  }

  lemma StartTurnInv(w: World, e: nat)
    requires Inv(w)
    ensures Inv(HandleStartTurn(w, e)) && StoppingKept(w, HandleStartTurn(w, e))
  {
    if e in w.agents && w.agents[e].state.Idle? {
      RestHasNoFlow(w, e);
      UpdateInv(w, e, w.agents[e].(state := Working, turn := Some(w.nextTurn)), w.nextTurn + 1);
    }
  }

  lemma EndTurnInv(w: World, e: nat, turn: Option<nat>)
    requires Inv(w)
    ensures Inv(HandleFinishTurn(w, e, turn)) && StoppingKept(w, HandleFinishTurn(w, e, turn))
    ensures Inv(HandleAbortTurn(w, e, turn)) && StoppingKept(w, HandleAbortTurn(w, e, turn))
  {
    if e in w.agents && w.agents[e].state.Working? {
      RestHasNoFlow(w, e);
      UpdateInv(w, e, w.agents[e].(state := Idle, turn := None), w.nextTurn);
      UpdateInv(w, e, w.agents[e].(turn := None), w.nextTurn);
    }
  }

  lemma ExceptionInv(w: World, e: nat)
    requires Inv(w)
    ensures Inv(HandleException(w, e)) && StoppingKept(w, HandleException(w, e))
  {
    if e in w.agents {
      UpdateInv(w, e, w.agents[e].(state := Stopping, turn := None), w.nextTurn);
    }
  }

  lemma InvStep(w: World, step: Step)
    requires Inv(w) && Enabled(w, step)
    ensures Inv(Apply(w, step)) && StoppingKept(w, Apply(w, step))
  {
    if (step.StartAgent? || step.StopAgent? || step.RestartAgent?) && step.reply !in w.claimed {
      ClaimInv(w, step.reply);
    }
    match step {
      case StartAgent(reply, _, _, _, _, _, _) => if reply !in w.claimed { StartInv(Claim(w, reply), step); }
      case StopAgent(reply, _, _) => if reply !in w.claimed { StopInv(Claim(w, reply), step); }
      case RestartAgent(reply, _, _, _, _) => if reply !in w.claimed { RestartInv(Claim(w, reply), step); }
      case FlowResult(k, outcome) => ResultInv(w, k, outcome);
      case AgentException(e) => ExceptionInv(w, e);
      case StartTurn(e) => StartTurnInv(w, e);
      case FinishTurn(e, turn) => EndTurnInv(w, e, turn);
      case AbortTurn(e, turn) => EndTurnInv(w, e, turn);
    }
  }

  function RunAll(w: World, steps: seq<Step>): Option<World>
    decreases |steps|
  {
    if steps == [] then Some(w) else if Enabled(w, steps[0]) then RunAll(Apply(w, steps[0]), steps[1..]) else None
  }

  lemma {:induction false} RunInv(w: World, steps: seq<Step>)
    requires Inv(w) && RunAll(w, steps).Some?
    ensures Inv(RunAll(w, steps).value)
    decreases |steps|
  {
    if steps != [] {
      hide Inv;
      hide Apply;
      InvStep(w, steps[0]);
      RunInv(Apply(w, steps[0]), steps[1..]);
    }
  }

  // ---------------------------------------------------------------- the promises

  /** At most one flow per agent, and its agent is in the flow's own state or stopping. */
  lemma OneFlowPerAgent(steps: seq<Step>)
    requires RunAll(NEW_WORLD, steps).Some?
    ensures FlowInv(RunAll(NEW_WORLD, steps).value)
  {
    RunInv(NEW_WORLD, steps);
  }

  /** Names per workspace and addresses stay unique, a turn means work, and replies are delivered once. */
  lemma AgentsStayConsistent(steps: seq<Step>)
    requires RunAll(NEW_WORLD, steps).Some?
    ensures var w := RunAll(NEW_WORLD, steps).value;
            && UniqueInv(w)
            && (forall e :: e in w.agents && w.agents[e].turn.Some? ==> w.agents[e].state.Working?)
            && (forall j, k :: 0 <= j < k < |w.delivered| ==> w.delivered[j].0 != w.delivered[k].0)
  {
    RunInv(NEW_WORLD, steps);
  }

  /** A stopping agent never works or idles again: in every later state it is stopping or gone. */
  lemma {:induction false} StoppingIsFinal(w: World, steps: seq<Step>, e: nat)
    requires Inv(w) && RunAll(w, steps).Some?
    requires e < w.nextEntity && (e in w.agents ==> w.agents[e].state.Stopping?)
    ensures var last := RunAll(w, steps).value;
            e in last.agents ==> last.agents[e].state.Stopping?
    decreases |steps|
  {
    if steps != [] {
      InvStep(w, steps[0]);
      NeverBackAgain(w, steps[0], e);
      hide Inv;
      hide Apply;
      StoppingIsFinal(Apply(w, steps[0]), steps[1..], e);
    }
  }

  /** An entity that is gone stays gone. */
  lemma NeverBackAgain(w: World, step: Step, e: nat)
    requires Enabled(w, step) && e < w.nextEntity
    ensures e < Apply(w, step).nextEntity
    ensures e in Apply(w, step).agents ==> e in w.agents
  {
  }

  // ---------------------------------------------------------------- whole flows

  /** The flow that was started last, finished at once. */
  function FinishLast(w: World): World
    requires w.flows != []
  {
    Apply(w, FlowResult(|w.flows| - 1, Finished))
  }

  lemma LastFlowOut(flows: seq<Flow>, flow: Flow)
    ensures Without(flows + [flow], |flows|) == flows
  {
  }

  /** An accepted start whose flow finishes leaves one new idle agent, and answers with it. */
  lemma StartRoundTrip(w: World, step: Step)
    requires step.StartAgent? && step.reply !in w.claimed && StartRefusal(Claim(w, step.reply), step).None? &&
             !step.insertFails
    ensures var started := Apply(w, step);
            && started.flows != []
            && FinishLast(started) == w.(claimed := w.claimed + {step.reply}, nextEntity := w.nextEntity + 1,
                                         agents := w.agents[w.nextEntity := NewAgent(step).(state := Idle)],
                                         delivered := w.delivered + [(step.reply, Ok(w.nextEntity))])
  {
    LastFlowOut(w.flows, Flow(w.nextEntity, Starting, step.reply));
    hide Without;
  }

  /** An accepted stop whose flow finishes removes exactly its agent. */
  lemma StopRoundTrip(w: World, step: Step)
    requires step.StopAgent? && step.reply !in w.claimed && step.requestError.None?
    requires step.agent in w.agents && AtRest(w.agents[step.agent])
    ensures var stopping := Apply(w, step);
            && stopping.flows != []
            && FinishLast(stopping) == w.(claimed := w.claimed + {step.reply}, agents := w.agents - {step.agent},
                                          delivered := w.delivered + [(step.reply, Ok(step.agent))])
  {
    LastFlowOut(w.flows, Flow(step.agent, Stopping, step.reply));
    hide Without;
    var stopping := Apply(w, step);
    assert stopping.agents - {step.agent} == w.agents - {step.agent};
  }

  /** An accepted restart whose flow finishes leaves the one member of that name idle, without a turn. */
  lemma RestartRoundTrip(w: World, step: Step, e: nat)
    requires step.RestartAgent? && step.reply !in w.claimed && step.requestError.None? && !step.unfinishedTasks
    requires Members(w, step.workspace, step.name) == {e} && AtRest(w.agents[e])
    ensures var restarting := Apply(w, step);
            && restarting.flows != []
            && FinishLast(restarting) == w.(claimed := w.claimed + {step.reply},
                                            agents := w.agents[e := w.agents[e].(state := Idle, turn := None)],
                                            delivered := w.delivered + [(step.reply, Ok(e))])
  {
    assert e in Members(w, step.workspace, step.name);
    assert Members(Claim(w, step.reply), step.workspace, step.name) == {e};
    LastFlowOut(w.flows, Flow(e, Restarting, step.reply));
    hide Without;
    hide Members;
  }

  /** After an exception the result of a start or restart is stale: the agent stays stopping, the reply says so. */
  lemma ExceptionMakesStale(w: World, k: nat)
    requires Inv(w) && k < |w.flows| && !w.flows[k].state.Stopping?
    ensures var flow := w.flows[k];
            var failed := Apply(w, AgentException(flow.agent));
            var last := Apply(failed, FlowResult(k, Finished));
            && flow.agent in last.agents && last.agents[flow.agent].state.Stopping?
            && last.delivered == w.delivered + [(flow.reply, Err(StateRejected))]
  {
  }

  /** A turn that is started and finished leaves the agents as they were, and its number is spent. */
  lemma TurnRoundTrip(w: World, e: nat)
    requires Inv(w) && e in w.agents && w.agents[e].state.Idle?
    ensures var working := Apply(w, StartTurn(e));
            && working.agents[e].turn == Some(w.nextTurn)
            && Apply(working, FinishTurn(e, Some(w.nextTurn))) == w.(nextTurn := w.nextTurn + 1)
            && (forall other :: other != Some(w.nextTurn) ==> Apply(working, FinishTurn(e, other)) == working)
  {
    var working := Apply(w, StartTurn(e));
    assert working.agents[e := w.agents[e]] == w.agents;
  }

  /** An aborted turn blocks the next one until some turn is finished. */
  lemma AbortedTurnBlocks(w: World, e: nat, turn: nat)
    requires Inv(w) && e in w.agents && w.agents[e].turn == Some(turn)
    ensures var aborted := Apply(w, AbortTurn(e, Some(turn)));
            && Apply(aborted, StartTurn(e)) == aborted
            && forall any :: Apply(aborted, FinishTurn(e, Some(any))).agents[e].state.Idle?
  {
  }
}
