/**
 The lifecycle handlers in the form of the original: the components of the agents by entity, reply slots
 that are shared objects, and one method for each handler and turn function.  Each is tied to the step of
 `AgentLifecycle` it performs and keeps its invariant.
 */
module AgentHandlers {
  import opened Wrappers
  import opened AgentLifecycle
  import opened ReplySlots

  /** The `Agent` component; the address of an agent is another component of the same entity. */
  datatype Component = Component(name: string, workspace: nat, state: AgentState, turn: Option<nat>)

  /** What a flow carries until its result. */
  datatype Context = Context(agent: nat, state: AgentState, reply: ReplySlot) {
    ghost function Value(): Flow {
      Flow(agent, state, reply.number)
    }
  }

  class AgentWorld {
    var agents: map<nat, Component>
    var addresses: map<nat, string>
    var flows: seq<Context>
    var nextEntity: nat
    var nextTurn: nat
    ghost var slots: set<ReplySlot>
    ghost var claimed: set<nat>
    ghost var delivered: seq<(nat, Result<nat, AgentErrorKind>)>

    ghost function State(): World
      reads this
    {
      World(Merged(agents, addresses), Values(flows), nextEntity, nextTurn, claimed, delivered)
    }

    ghost predicate Valid()
      reads this, slots
    {
      Inv(State()) && agents.Keys == addresses.Keys && Owing(flows, slots)
    }

    constructor ()
      ensures Valid() && State() == NEW_WORLD && slots == {}
    {
      agents, addresses, flows, nextEntity, nextTurn := map[], map[], [], 0, 1;
      slots, claimed, delivered := {}, {}, [];
      new;
      assert State() == NEW_WORLD;
    }

    /** `claim`: the sender of the request moves to a new slot, if it is still there. */
    method Claim(request: ReplySlot) returns (slot: ReplySlot?)
      modifies this`slots, this`claimed, request
      ensures !request.holdsSender && (slot == null <==> !old(request.holdsSender))
      ensures slot == null ==> slots == old(slots) && claimed == old(claimed)
      ensures slot != null ==>
                && fresh(slot) && slot.holdsSender && slot.number == request.number
                && slots == old(slots) + {slot} && claimed == old(claimed) + {request.number}
    {
      if !request.holdsSender {
        return null;
      }
      request.holdsSender := false;
      slot := new ReplySlot(request.number);
      slots, claimed := slots + {slot}, claimed + {request.number};
    }

    /** `deliver`: the sender is taken and used. */
    method Deliver(reply: ReplySlot, result: Result<nat, AgentErrorKind>)
      modifies reply, this`delivered
      ensures !reply.holdsSender
      ensures delivered == if old(reply.holdsSender) then old(delivered) + [(reply.number, result)] else old(delivered)
    {
      if reply.holdsSender {
        reply.holdsSender := false;
        delivered := delivered + [(reply.number, result)];
      }
    }

    /** The agent enters a state without a turn. */
    method Enter(e: nat, state: AgentState)
      requires e in agents && agents.Keys == addresses.Keys
      modifies this`agents
      ensures agents.Keys == old(agents).Keys && agents[e].state == state
      ensures Merged(agents, addresses) ==
              var before := Merged(old(agents), addresses); before[e := before[e].(state := state, turn := None)]
    {
      SetState(e, state, None);
    }

    method SetState(e: nat, state: AgentState, turn: Option<nat>)
      requires e in agents && agents.Keys == addresses.Keys
      modifies this`agents
      ensures agents == old(agents)[e := old(agents)[e].(state := state, turn := turn)]
      ensures Merged(agents, addresses) ==
              var before := Merged(old(agents), addresses); before[e := before[e].(state := state, turn := turn)]
    {
      var component := agents[e];
      agents := agents[e := component.(state := state, turn := turn)];
    }

    method SendFlow(e: nat, reply: ReplySlot)
      requires e in agents && Owing(flows, slots) && reply in slots && reply.holdsSender
      modifies this`flows
      ensures Owing(flows, slots) && Values(flows) == Values(old(flows)) + [Flow(e, agents[e].state, reply.number)]
    {
      flows := flows + [Context(e, agents[e].state, reply)];
    }

    /** The agent enters the state of its flow, and the flow starts. */
    method Begin(e: nat, state: AgentState, reply: ReplySlot)
      requires e in agents && agents.Keys == addresses.Keys
      requires Owing(flows, slots) && reply in slots && reply.holdsSender
      modifies this`agents, this`flows
      ensures Owing(flows, slots) && agents.Keys == addresses.Keys
      ensures State() == Launch(old(State()), reply.number, e, old(State()).agents[e].(state := state, turn := None))
    {
      hide Merged;
      hide Values;
      hide Owing;
      MergedHas(agents, addresses);
      Enter(e, state);
      SendFlow(e, reply);
    }

    /** The request's slot holds its sender unless the request was handled before. */
    ghost predicate Requested(request: ReplySlot, reply: nat)
      reads this, request
    {
      request !in slots && request.number == reply && (request.holdsSender <==> reply !in claimed)
    }

    method HandleStartAgent(step: Step, request: ReplySlot)
      requires step.StartAgent? && Valid() && Requested(request, step.reply)
      modifies this, request
      ensures Valid() && fresh(slots - old(slots)) && !request.holdsSender
      ensures State() == Apply(old(State()), step)
    {
      hide Inv;
      hide Merged;
      hide Values;
      hide StoppingKept;
      InvStep(State(), step);
      NextIsFree(State());
      MergedHas(agents, addresses);
      var slot := Claim(request);
      if slot == null {
        return;
      }
      var refusal, e := Prepare(step);
      if refusal.Some? {
        Deliver(slot, Err(refusal.value));
      } else {
        SendFlow(e, slot);
      }
    }

    /** The first half of a start: every check, then the new agent, which a failed insertion takes back. */
    method Prepare(step: Step) returns (refusal: Option<AgentErrorKind>, e: nat)
      requires step.StartAgent? && agents.Keys == addresses.Keys && nextEntity !in agents
      modifies this`agents, this`addresses, this`nextEntity
      ensures agents.Keys == addresses.Keys
      ensures var w, refused := old(State()), StartRefusal(old(State()), step);
              && refusal == (if refused.None? && step.insertFails then Some(InvalidRequest) else refused)
              && State() == (if refused.Some? then w
                             else if step.insertFails then w.(nextEntity := w.nextEntity + 1)
                             else w.(nextEntity := w.nextEntity + 1,
                                     agents := w.agents[w.nextEntity := NewAgent(step)]))
              && (refusal.None? ==> e == old(nextEntity) && e in agents && agents[e].state.Starting?)
    {
      if step.requestError.Some? {
        return step.requestError, 0;
      }
      var active := HasMember(step.workspace, step.name);
      if active {
        return Some(StateRejected), 0;
      }
      if step.addressError.Some? {
        return step.addressError, 0;
      }
      var address := MemberAddress(step.scope, step.name);
      var taken := HasAddress(address);
      if taken {
        return Some(StateRejected), 0;
      }
      MergedAdd(agents, addresses, nextEntity, step);
      hide Merged;
      hide Values;
      hide AddressTaken;
      hide Members;
      e := nextEntity;
      nextEntity := nextEntity + 1;
      addresses := addresses[e := address];
      agents := agents[e := Component(step.name, step.workspace, Starting, None)];
      if step.insertFails {
        Despawn(e);
        return Some(InvalidRequest), 0;
      }
      return None, e;
    }

    method HasMember(workspace: nat, name: string) returns (found: bool)
      ensures found <==> Members(State(), workspace, name) != {}
    {
      found := exists e :: e in agents && agents[e].workspace == workspace && agents[e].name == name;
      if found {
        var e :| e in agents && agents[e].workspace == workspace && agents[e].name == name;
        assert e in Members(State(), workspace, name);
      }
    }

    method HasAddress(address: string) returns (found: bool)
      requires agents.Keys == addresses.Keys
      ensures found <==> AddressTaken(State(), address)
    {
      found := exists e :: e in addresses && addresses[e] == address;
      if found {
        var e :| e in addresses && addresses[e] == address;
        assert State().agents[e].address == address;
      }
    }

    /** Every component of the entity goes. */
    method Despawn(e: nat)
      requires agents.Keys == addresses.Keys
      modifies this`agents, this`addresses
      ensures agents == old(agents) - {e} && addresses == old(addresses) - {e}
      ensures Merged(agents, addresses) == Merged(old(agents), old(addresses)) - {e}
    {
      addresses := addresses - {e};
      agents := agents - {e};
    }

    method HandleStopAgent(step: Step, request: ReplySlot)
      requires step.StopAgent? && Valid() && Requested(request, step.reply)
      modifies this, request
      ensures Valid() && fresh(slots - old(slots)) && !request.holdsSender
      ensures State() == Apply(old(State()), step)
    {
      hide Inv;
      hide Merged;
      hide Values;
      hide StoppingKept;
      InvStep(State(), step);
      MergedHas(agents, addresses);
      var slot := Claim(request);
      if slot == null {
        return;
      }
      if step.requestError.Some? {
        Deliver(slot, Err(step.requestError.value));
      } else if step.agent !in agents {
        Deliver(slot, Err(AgentMissing));
      } else if !agents[step.agent].state.Idle? && !agents[step.agent].state.Working? {
        Deliver(slot, Err(StateRejected));
      } else {
        Begin(step.agent, Stopping, slot);
      }
    }

    method HandleRestartAgent(step: Step, request: ReplySlot)
      requires step.RestartAgent? && Valid() && Requested(request, step.reply)
      modifies this, request
      ensures Valid() && fresh(slots - old(slots)) && !request.holdsSender
      ensures State() == Apply(old(State()), step)
    {
      hide Inv;
      hide Merged;
      hide Values;
      hide StoppingKept;
      InvStep(State(), step);
      MergedHas(agents, addresses);
      var slot := Claim(request);
      if slot == null {
        return;
      }
      var refusal, e := FindMember(step);
      if refusal.Some? {
        Deliver(slot, Err(refusal.value));
      } else {
        Begin(e, Restarting, slot);
      }
    }

    /** The checks of a restart, up to the one member it is about. */
    method FindMember(step: Step) returns (refusal: Option<AgentErrorKind>, e: nat)
      requires step.RestartAgent?
      ensures refusal.None? ==> e in agents
      ensures HandleRestart(State(), step) ==
              if refusal.Some? then Reject(State(), step.reply, refusal.value)
              else Launch(State(), step.reply, e, State().agents[e].(state := Restarting, turn := None))
    {
      hide Merged;
      hide Values;
      MergedHas(agents, addresses);
      var members := set e | e in agents && agents[e].workspace == step.workspace && agents[e].name == step.name;
      assert members == Members(State(), step.workspace, step.name);
      if step.requestError.Some? {
        return step.requestError, 0;
      }
      if members == {} {
        return Some(AgentMissing), 0;
      }
      if |members| > 1 {
        return Some(InvalidRequest), 0;
      }
      e := TheOnly(members);
      if step.unfinishedTasks {
        return Some(UnfinishedTasks), 0;
      }
      if !agents[e].state.Idle? && !agents[e].state.Working? {
        return Some(StateRejected), 0;
      }
      return None, e;
    }

    method HandleAgentException(e: nat)
      requires Valid()
      modifies this
      ensures Valid() && slots == old(slots)
      ensures State() == Apply(old(State()), AgentException(e))
    {
      hide Inv;
      hide Merged;
      hide Values;
      hide StoppingKept;
      InvStep(State(), AgentException(e));
      MergedHas(agents, addresses);
      if e in agents {
        Enter(e, Stopping);
      }
    }

    /** The result of flow `k`: the flow is no longer in flight, whatever its outcome. */
    method HandleResult(k: nat, outcome: FlowOutcome)
      requires k < |flows| && Valid()
      modifies this, slots
      ensures Valid() && slots == old(slots)
      ensures State() == Apply(old(State()), FlowResult(k, outcome))
    {
      hide Inv;
      hide Merged;
      hide StoppingKept;
      InvStep(State(), FlowResult(k, outcome));
      var flow := flows[k];
      SlotsDiffer(flows, slots, State(), k);
      ValuesWithout(flows, k);
      hide Values;
      flows := flows[..k] + flows[k + 1..];
      if outcome.Failed? {
        HandleFailed(flow, outcome.cleanupCompleted);
      } else if outcome.Finished? && flow.state.Stopping? {
        HandleStopFinished(flow);
      } else if outcome.Finished? {
        var result := FinishResult(flow);
        Deliver(flow.reply, result);
      }
    }

    method HandleFailed(flow: Context, cleanupCompleted: bool)
      requires flow.reply.holdsSender && agents.Keys == addresses.Keys
      modifies this`agents, this`addresses, this`delivered, flow.reply
      ensures agents.Keys == addresses.Keys
      ensures State() == AgentLifecycle.HandleResult(old(State()), flow.Value(), Failed(cleanupCompleted))
    {
      hide Merged;
      hide Values;
      MergedHas(agents, addresses);
      if cleanupCompleted {
        if flow.agent in agents && agents[flow.agent].state == flow.state {
          Despawn(flow.agent);
        }
      }
      Deliver(flow.reply, Err(FlowFailed));
    }

    method HandleStopFinished(flow: Context)
      requires flow.state.Stopping? && flow.reply.holdsSender && agents.Keys == addresses.Keys
      modifies this`agents, this`addresses, this`delivered, flow.reply
      ensures agents.Keys == addresses.Keys
      ensures State() == AgentLifecycle.HandleResult(old(State()), flow.Value(), Finished)
    {
      hide Merged;
      hide Values;
      MergedHas(agents, addresses);
      var result: Result<nat, AgentErrorKind> := Ok(flow.agent);
      if flow.agent in agents && agents[flow.agent].state.Stopping? {
        Despawn(flow.agent);
      } else {
        result := Err(StateRejected);
      }
      Deliver(flow.reply, result);
    }

    /** `finish_result`: only a result that still finds its state makes the agent idle. */
    method FinishResult(flow: Context) returns (result: Result<nat, AgentErrorKind>)
      requires !flow.state.Stopping? && agents.Keys == addresses.Keys
      modifies this`agents
      ensures agents.Keys == addresses.Keys
      ensures AgentLifecycle.Deliver(State(), flow.reply.number, result) ==
              AgentLifecycle.HandleResult(old(State()), flow.Value(), Finished)
    {
      hide Merged;
      hide Values;
      MergedHas(agents, addresses);
      if flow.agent !in agents {
        return Err(AgentMissing);
      }
      if agents[flow.agent].state != flow.state {
        return Err(StateRejected);
      }
      Enter(flow.agent, Idle);
      return Ok(flow.agent);
    }

    method AgentStartTurn(e: nat) returns (result: Result<nat, AgentErrorKind>)
      requires Valid()
      modifies this
      ensures Valid() && slots == old(slots)
      ensures State() == Apply(old(State()), StartTurn(e))
      ensures result.Ok? <==> e in old(agents) && old(agents)[e].state.Idle?
      ensures result.Ok? ==> e in agents && agents[e].turn == Some(result.value)
      ensures result.Err? ==> State() == old(State())
    {
      hide Inv;
      hide Values;
      hide Merged;
      hide StoppingKept;
      InvStep(State(), StartTurn(e));
      IdleHasNoTurn(State(), e);
      MergedHas(agents, addresses);
      if e !in agents {
        return Err(AgentMissing);
      }
      if !agents[e].state.Idle? || agents[e].turn.Some? {
        return Err(StateRejected);
      }
      var turn := nextTurn;
      nextTurn := nextTurn + 1;
      SetState(e, Working, Some(turn));
      return Ok(turn);
    }

    method AgentFinishTurn(e: nat, turn: Option<nat>) returns (result: Result<(), AgentErrorKind>)
      requires Valid()
      modifies this
      ensures Valid() && slots == old(slots)
      ensures State() == Apply(old(State()), FinishTurn(e, turn))
      ensures result.Ok? ==> e in agents && agents[e].state.Idle? && agents[e].turn.None?
      ensures result.Err? ==> State() == old(State())
    {
      hide Inv;
      hide Values;
      hide Merged;
      hide StoppingKept;
      InvStep(State(), FinishTurn(e, turn));
      MergedHas(agents, addresses);
      if e !in agents {
        return Err(AgentMissing);
      }
      var agent := agents[e];
      if turn.None? || !agent.state.Working? || (agent.turn.Some? && agent.turn != turn) {
        return Err(StateRejected);
      }
      SetState(e, Idle, None);
      return Ok(());
    }

    method AgentAbortTurn(e: nat, turn: Option<nat>) returns (result: Result<(), AgentErrorKind>)
      requires Valid()
      modifies this
      ensures Valid() && slots == old(slots)
      ensures State() == Apply(old(State()), AbortTurn(e, turn))
      ensures result.Ok? ==> e in agents && agents[e].state.Working? && agents[e].turn.None?
      ensures result.Err? ==> State() == old(State())
    {
      hide Inv;
      hide Values;
      hide Merged;
      hide StoppingKept;
      InvStep(State(), AbortTurn(e, turn));
      MergedHas(agents, addresses);
      if e !in agents {
        return Err(AgentMissing);
      }
      var agent := agents[e];
      if turn.None? || !agent.state.Working? || agent.turn != turn {
        return Err(StateRejected);
      }
      SetState(e, Working, None);
      return Ok(());
    }
  }

  /** The agents with their address component. */
  ghost function Merged(agents: map<nat, Component>, addresses: map<nat, string>): map<nat, Agent> {
    map e | e in agents ::
      Agent(agents[e].name, agents[e].workspace, if e in addresses then addresses[e] else "", agents[e].state,
            agents[e].turn)
  }

  ghost function Values(flows: seq<Context>): seq<Flow> {
    seq(|flows|, k requires 0 <= k < |flows| => flows[k].Value())
  }

  /** Every flow in flight still has the sender of its reply. */
  ghost predicate Owing(flows: seq<Context>, slots: set<ReplySlot>)
    reads slots
  {
    forall k :: 0 <= k < |flows| ==> flows[k].reply in slots && flows[k].reply.holdsSender
  }

  lemma MergedHas(agents: map<nat, Component>, addresses: map<nat, string>)
    ensures forall e :: e in Merged(agents, addresses) <==> e in agents
    ensures forall e :: e in agents ==>
              var merged := Merged(agents, addresses)[e];
              && merged.state == agents[e].state && merged.turn == agents[e].turn
              && merged.workspace == agents[e].workspace && merged.name == agents[e].name
  {
  }

  lemma MergedAdd(agents: map<nat, Component>, addresses: map<nat, string>, e: nat, step: Step)
    requires step.StartAgent? && e !in agents && e !in addresses
    ensures var address := MemberAddress(step.scope, step.name);
            var component := Component(step.name, step.workspace, Starting, None);
            && Merged(agents[e := component], addresses[e := address]) == Merged(agents, addresses)[e := NewAgent(step)]
            && Merged(agents, addresses)[e := NewAgent(step)] - {e} == Merged(agents, addresses)
            && agents[e := component].Keys == agents.Keys + {e}
            && addresses[e := address].Keys == addresses.Keys + {e}
  {
  }

  lemma ValuesWithout(flows: seq<Context>, k: nat)
    requires k < |flows|
    ensures Values(flows)[k] == flows[k].Value()
    ensures Values(flows[..k] + flows[k + 1..]) == Without(Values(flows), k)
  {
  }

  lemma SlotsDiffer(flows: seq<Context>, slots: set<ReplySlot>, w: World, k: nat)
    requires Inv(w) && w.flows == Values(flows) && k < |flows|
    ensures forall j :: 0 <= j < |flows| && j != k ==> flows[j].reply != flows[k].reply
  {
    forall j | 0 <= j < |flows| && j != k ensures flows[j].reply != flows[k].reply {
      assert w.flows[j].reply != w.flows[k].reply;
    }
  }

  lemma NextIsFree(w: World)
    requires Inv(w)
    ensures w.nextEntity !in w.agents
  {
  }

  lemma IdleHasNoTurn(w: World, e: nat)
    requires Inv(w)
    ensures e in w.agents && w.agents[e].state.Idle? ==> w.agents[e].turn.None?
  {
  }
}
