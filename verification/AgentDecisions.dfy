/** What each lifecycle request, turn function and result does, case by case, in terms of agents, flows and replies. */
module AgentDecisions {
  import opened Wrappers
  import opened AgentLifecycle

  /** The request is answered with an error, and agents and flows stay as they were. */
  ghost predicate Declines(w: World, next: World, reply: nat, kind: AgentErrorKind) {
    && next.agents == w.agents && next.flows == w.flows && next.nextTurn == w.nextTurn
    && next.claimed == w.claimed + {reply}
    && next.delivered == w.delivered + [(reply, Err(kind))]
  }

  /** A flow for one agent starts, which has no turn; nobody is answered and no other agent changes. */
  ghost predicate Begins(w: World, next: World, reply: nat, e: nat, state: AgentState) {
    && e in next.agents && next.agents[e].state == state && next.agents[e].turn.None?
    && next.agents.Keys == w.agents.Keys + {e}
    && (forall d :: d in w.agents && d != e ==> next.agents[d] == w.agents[d])
    && next.flows == w.flows + [Flow(e, state, reply)]
    && next.claimed == w.claimed + {reply} && next.delivered == w.delivered && next.nextTurn == w.nextTurn
  }

  /** Name, workspace and address of an agent. */
  ghost predicate Identified(agent: Agent, name: string, workspace: nat, address: string) {
    agent.name == name && agent.workspace == workspace && agent.address == address
  }

  ghost predicate HasMember(w: World, workspace: nat, name: string) {
    exists e :: e in w.agents && w.agents[e].workspace == workspace && w.agents[e].name == name
  }

  ghost predicate HasAddress(w: World, address: string) {
    exists e :: e in w.agents && w.agents[e].address == address
  }

  lemma MembersExist(w: World, workspace: nat, name: string)
    ensures Members(w, workspace, name) != {} <==> HasMember(w, workspace, name)
  {
    if HasMember(w, workspace, name) {
      var e :| e in w.agents && w.agents[e].workspace == workspace && w.agents[e].name == name;
      assert e in Members(w, workspace, name);
    }
  }

  /** A start: the checks in order, and a new agent under its managed address when all of them pass. */
  lemma StartDecided(w: World, step: Step)
    requires step.StartAgent? && step.reply !in w.claimed && w.nextEntity !in w.agents
    ensures var next := Apply(w, step);
            var address := "agent:" + step.scope + "/" + step.name + ":latest";
            if step.requestError.Some? then Declines(w, next, step.reply, step.requestError.value)
            else if HasMember(w, step.workspace, step.name) then Declines(w, next, step.reply, StateRejected)
            else if step.addressError.Some? then Declines(w, next, step.reply, step.addressError.value)
            else if HasAddress(w, address) then Declines(w, next, step.reply, StateRejected)
            else
              && next.nextEntity == w.nextEntity + 1
              && (step.insertFails ==> Declines(w, next, step.reply, InvalidRequest))
              && (!step.insertFails ==>
                    && Begins(w, next, step.reply, w.nextEntity, Starting)
                    && Identified(next.agents[w.nextEntity], step.name, step.workspace, address))
  {
    var claimed := Claim(w, step.reply);
    MembersExist(claimed, step.workspace, step.name);
    assert HasMember(claimed, step.workspace, step.name) <==> HasMember(w, step.workspace, step.name);
    var address := MemberAddress(step.scope, step.name);
    assert AddressTaken(claimed, address) <==> HasAddress(w, address);
    hide Members;
    hide AddressTaken;
    hide HasMember;
    hide HasAddress;
  }

  /** A stop: only an agent at rest starts stopping, and keeps who it is. */
  lemma StopDecided(w: World, step: Step)
    requires step.StopAgent? && step.reply !in w.claimed
    ensures var next := Apply(w, step);
            if step.requestError.Some? then Declines(w, next, step.reply, step.requestError.value)
            else if step.agent !in w.agents then Declines(w, next, step.reply, AgentMissing)
            else
              var agent := w.agents[step.agent];
              if !agent.state.Idle? && !agent.state.Working? then Declines(w, next, step.reply, StateRejected)
              else
                && Begins(w, next, step.reply, step.agent, Stopping)
                && Identified(next.agents[step.agent], agent.name, agent.workspace, agent.address)
  {
  }

  /** A restart: the one member of that name, without unfinished tasks and at rest, starts restarting. */
  lemma RestartDecided(w: World, step: Step, e: nat)
    requires step.RestartAgent? && step.reply !in w.claimed && UniqueInv(w)
    requires HasMember(w, step.workspace, step.name) ==>
               e in w.agents && w.agents[e].workspace == step.workspace && w.agents[e].name == step.name
    ensures var next := Apply(w, step);
            if step.requestError.Some? then Declines(w, next, step.reply, step.requestError.value)
            else if !HasMember(w, step.workspace, step.name) then Declines(w, next, step.reply, AgentMissing)
            else if step.unfinishedTasks then Declines(w, next, step.reply, UnfinishedTasks)
            else
              var agent := w.agents[e];
              if !agent.state.Idle? && !agent.state.Working? then Declines(w, next, step.reply, StateRejected)
              else
                && Begins(w, next, step.reply, e, Restarting)
                && Identified(next.agents[e], agent.name, agent.workspace, agent.address)
  {
    var claimed := Claim(w, step.reply);
    var members := Members(claimed, step.workspace, step.name);
    MembersExist(claimed, step.workspace, step.name);
    assert HasMember(claimed, step.workspace, step.name) <==> HasMember(w, step.workspace, step.name);
    assert UniqueInv(claimed);
    MemberUnique(claimed, step.workspace, step.name);
    if HasMember(w, step.workspace, step.name) {
      assert e in members;
      assert |members| == 1;
      Singleton(members);
      assert TheOnly(members) == e;
    }
    hide Members;
    hide HasMember;
    hide TheOnly;
  }

  /** What a result leaves: its flow is gone, its own reply has this answer, and no other agent changes. */
  ghost predicate Answers(w: World, next: World, k: nat, result: Result<nat, AgentErrorKind>)
    requires k < |w.flows|
  {
    var e := w.flows[k].agent;
    && next.flows == w.flows[..k] + w.flows[k + 1..]
    && next.delivered == w.delivered + [(w.flows[k].reply, result)]
    && (forall d :: d != e ==> (d in next.agents <==> d in w.agents))
    && (forall d :: d in w.agents && d != e ==> next.agents[d] == w.agents[d])
  }

  ghost predicate SameAt(w: World, next: World, e: nat) {
    (e in next.agents <==> e in w.agents) && (e in w.agents ==> next.agents[e] == w.agents[e])
  }

  /**
   A result: a failure removes its agent exactly after a confirmed cleanup and only in the flow's own state; a
   finished stop removes it, a finished start or restart makes it idle, and a stale one changes nothing.
   */
  lemma ResultDecided(w: World, k: nat, outcome: FlowOutcome)
    requires k < |w.flows|
    ensures var next, flow := Apply(w, FlowResult(k, outcome)), w.flows[k];
            var e := flow.agent;
            var current := e in w.agents && w.agents[e].state == flow.state;
            match outcome
            case Vanished => next == w.(flows := w.flows[..k] + w.flows[k + 1..])
            case Failed(cleanupCompleted) =>
              && Answers(w, next, k, Err(FlowFailed))
              && if cleanupCompleted && current then e !in next.agents else SameAt(w, next, e)
            case Finished =>
              if !current then
                && SameAt(w, next, e)
                && Answers(w, next, k,
                           Err(if e in w.agents || flow.state.Stopping? then StateRejected else AgentMissing))
              else if flow.state.Stopping? then e !in next.agents && Answers(w, next, k, Ok(e))
              else
                && Answers(w, next, k, Ok(e))
                && e in next.agents && next.agents[e] == w.agents[e].(state := Idle, turn := None)
  {
  }

  /** Only one agent changes, and only in its state and its turn. */
  ghost predicate Sets(w: World, next: World, e: nat, state: AgentState, turn: Option<nat>)
    requires e in w.agents
  {
    && next.agents == w.agents[e := w.agents[e].(state := state, turn := turn)]
    && next.flows == w.flows && next.claimed == w.claimed && next.delivered == w.delivered
    && next.nextEntity == w.nextEntity
  }

  /** A turn starts for an idle agent without one, under a new number. */
  lemma StartTurnDecided(w: World, e: nat)
    ensures var next := Apply(w, StartTurn(e));
            if e in w.agents && w.agents[e].state.Idle? && w.agents[e].turn.None?
            then Sets(w, next, e, Working, Some(w.nextTurn)) && next.nextTurn == w.nextTurn + 1
            else next == w
  {
  }

  /** A turn ends for a working agent: by its own number, or by any when it has none. */
  lemma FinishTurnDecided(w: World, e: nat, turn: Option<nat>)
    ensures var next := Apply(w, FinishTurn(e, turn));
            if turn.Some? && e in w.agents && w.agents[e].state.Working? && (w.agents[e].turn in {None, turn})
            then Sets(w, next, e, Idle, None) && next.nextTurn == w.nextTurn
            else next == w
  {
  }

  /** An abort takes the turn of a working agent away, by its own number only, and leaves it working. */
  lemma AbortTurnDecided(w: World, e: nat, turn: Option<nat>)
    ensures var next := Apply(w, AbortTurn(e, turn));
            if turn.Some? && e in w.agents && w.agents[e].state.Working? && w.agents[e].turn == turn
            then Sets(w, next, e, Working, None) && next.nextTurn == w.nextTurn
            else next == w
  {
  }

  /** An exception stops an agent in whatever state, without a turn. */
  lemma ExceptionDecided(w: World, e: nat)
    ensures var next := Apply(w, AgentException(e));
            if e in w.agents then Sets(w, next, e, Stopping, None) && next.nextTurn == w.nextTurn else next == w
  {
  }

  /** A request that was handled before is handled no more. */
  lemma HandledOnce(w: World, step: Step)
    requires step.StartAgent? || step.StopAgent? || step.RestartAgent?
    ensures step.reply in w.claimed ==> Apply(w, step) == w
    ensures step.reply in Apply(w, step).claimed
  {
  }

  // ---------------------------------------------------------------- what a run conserves

  /** How many flows of a run vanished with their request. */
  function Vanishings(steps: seq<Step>): nat {
    if steps == [] then 0
    else (if steps[0].FlowResult? && steps[0].outcome.Vanished? then 1 else 0) + Vanishings(steps[1..])
  }

  /** A request is rejected or launches a flow. */
  ghost predicate Handled(w: World, next: World) {
    next.claimed == w.claimed && |next.delivered| + |next.flows| == |w.delivered| + |w.flows| + 1
  }

  lemma StartHandled(w: World, step: Step)
    requires step.StartAgent?
    ensures Handled(w, HandleStart(w, step))
  {
    hide StartRefusal;
  }

  lemma StopHandled(w: World, step: Step)
    requires step.StopAgent?
    ensures Handled(w, HandleStop(w, step))
  {
  }

  lemma RestartHandled(w: World, step: Step)
    requires step.RestartAgent?
    ensures Handled(w, HandleRestart(w, step))
  {
    hide Members;
  }

  lemma ResultHandled(w: World, flow: Flow, outcome: FlowOutcome)
    ensures var next := HandleResult(w, flow, outcome);
            && next.claimed == w.claimed && next.flows == w.flows
            && |next.delivered| == |w.delivered| + if outcome.Vanished? then 0 else 1
  {
  }

  lemma StepConserves(w: World, step: Step)
    requires Enabled(w, step)
    ensures var next := Apply(w, step);
            |next.claimed| + |w.delivered| + |w.flows| ==
            |w.claimed| + |next.delivered| + |next.flows| +
            if step.FlowResult? && step.outcome.Vanished? then 1 else 0
  {
    hide HandleStart;
    hide HandleStop;
    hide HandleRestart;
    hide HandleResult;
    match step {
      case StartAgent(reply, _, _, _, _, _, _) => StartHandled(Claim(w, reply), step);
      case StopAgent(reply, _, _) => StopHandled(Claim(w, reply), step);
      case RestartAgent(reply, _, _, _, _) => RestartHandled(Claim(w, reply), step);
      case FlowResult(k, outcome) => ResultHandled(w.(flows := Without(w.flows, k)), w.flows[k], outcome);
      case _ =>
    }
  }

  /** Over any run the requests taken up are those answered, those with a flow in flight, and those that vanished. */
  lemma {:induction false} RequestsConserved(w: World, steps: seq<Step>)
    requires RunAll(w, steps).Some?
    ensures var last := RunAll(w, steps).value;
            |last.claimed| + |w.delivered| + |w.flows| ==
            |w.claimed| + |last.delivered| + |last.flows| + Vanishings(steps)
    decreases |steps|
  {
    hide Apply;
    if steps != [] {
      StepConserves(w, steps[0]);
      RequestsConserved(Apply(w, steps[0]), steps[1..]);
    }
  }
}
