/** The two opaque collaborators of the cart-pole protocol: the simulated
    environment (reset/execute) and the learning agent (observe/act).

    Neither is part of the repository; both are modelled only by what the
    protocol can see of them. Each keeps the log of the calls made to it,
    with their arguments and results, and what it returns is an arbitrary but
    fixed function of that log. Any deterministic environment or agent is one
    choice of those functions. */
module Collaborators {

  /** An action the agent proposes and the environment executes. Its shape is
      the environment's business; the protocol never inspects it. The device's
      action signal starts at 0. */
  type Action = int

  /** A state vector as the device's signals hold it: a real reading, or the
      all-NaN vector the device stores when there is nothing to report. */
  datatype StateVec = Vec(components: seq<real>) | Sentinel

  /** What one environment step reports. terminal is 0 while the episode
      runs, 1 when the pole fell and 2 when the step horizon was reached. */
  datatype StepOutcome = StepOutcome(nextState: seq<real>, terminal: int, reward: real)

  datatype EnvCall =
    | ResetCall(state: seq<real>)
    | ExecuteCall(action: Action, outcome: StepOutcome)

  class Environment {
    const resetFn: seq<EnvCall> -> seq<real>
    const executeFn: (seq<EnvCall>, Action) -> StepOutcome
    var history: seq<EnvCall>

    constructor (resetFn: seq<EnvCall> -> seq<real>, executeFn: (seq<EnvCall>, Action) -> StepOutcome)
      ensures this.resetFn == resetFn && this.executeFn == executeFn
      ensures history == []
    {
      this.resetFn := resetFn;
      this.executeFn := executeFn;
      history := [];
    }

    /** Starts a new episode and returns its initial state. */
    method Reset() returns (state: seq<real>)
      modifies this
      ensures state == resetFn(old(history))
      ensures history == old(history) + [ResetCall(state)]
    {
      state := resetFn(history);
      history := history + [ResetCall(state)];
    }

    /** Advances the simulation by one step under the given action. */
    method Execute(action: Action) returns (outcome: StepOutcome)
      modifies this
      ensures outcome == executeFn(old(history), action)
      ensures history == old(history) + [ExecuteCall(action, outcome)]
    {
      outcome := executeFn(history, action);
      history := history + [ExecuteCall(action, outcome)];
    }
  }

  datatype AgentCall =
    | ObserveCall(reward: real, terminal: int)
    | ActCall(states: StateVec, action: Action)

  /** Every action in the log is the policy's answer to the calls before it. */
  predicate FollowsPolicy(policy: (seq<AgentCall>, StateVec) -> Action, log: seq<AgentCall>)
  {
    forall i :: 0 <= i < |log| && log[i].ActCall? ==> log[i].action == policy(log[..i], log[i].states)
  }

  /** A call appended to a log that follows the policy keeps it so, provided
      an act call carries the policy's answer to the log before it. */
  lemma {:induction false} FollowsPolicyAppend(policy: (seq<AgentCall>, StateVec) -> Action,
                                               log: seq<AgentCall>, c: AgentCall)
    requires FollowsPolicy(policy, log)
    requires c.ActCall? ==> c.action == policy(log, c.states)
    ensures FollowsPolicy(policy, log + [c])
  {
    forall i | 0 <= i < |log + [c]| && (log + [c])[i].ActCall?
      ensures (log + [c])[i].action == policy((log + [c])[..i], (log + [c])[i].states)
    {
      if i < |log| {
        assert (log + [c])[..i] == log[..i];
      } else {
        assert (log + [c])[..i] == log;
      }
    }
  }

  class Agent {
    const policy: (seq<AgentCall>, StateVec) -> Action
    var history: seq<AgentCall>

    /** The agent's log records every proposal as the policy's answer. */
    predicate Valid()
      reads this
    {
      FollowsPolicy(policy, history)
    }

    constructor (policy: (seq<AgentCall>, StateVec) -> Action)
      ensures this.policy == policy
      ensures history == [] && Valid()
    {
      this.policy := policy;
      history := [];
    }

    /** Feeds the reward and terminal flag of the last step to the learner. */
    method Observe(reward: real, terminal: int)
      modifies this
      ensures history == old(history) + [ObserveCall(reward, terminal)]
      ensures old(Valid()) ==> Valid()
    {
      if Valid() {
        FollowsPolicyAppend(policy, history, ObserveCall(reward, terminal));
      }
      history := history + [ObserveCall(reward, terminal)];
    }

    /** Proposes the action to take in the given state. */
    method Act(states: StateVec) returns (action: Action)
      modifies this
      ensures action == policy(old(history), states)
      ensures history == old(history) + [ActCall(states, action)]
      ensures old(Valid()) ==> Valid()
    {
      action := policy(history, states);
      if Valid() {
        FollowsPolicyAppend(policy, history, ActCall(states, action));
      }
      history := history + [ActCall(states, action)];
    }
  }
}
