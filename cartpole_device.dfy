/** The CartPole device: an adapter that exposes the environment through
    device signals and the stage/trigger/unstage lifecycle. Each signal is a
    field; `put` on a signal is an assignment to it. */
module CartPoleDevice {
  import opened Collaborators

  /** The status object trigger hands back; it is always already finished. */
  datatype Status = Finished

  /** The observables agree with the sentinel convention: the next state is a
      real reading, and the post-reset state is a real reading exactly when
      the step ended the episode. */
  predicate WellFormed(nextState: StateVec, terminal: int, stateAfterReset: StateVec)
  {
    nextState.Vec? && (terminal > 0 <==> stateAfterReset.Vec?)
  }

  /** The environment calls one trigger makes, given what it recorded: one
      execute, and one reset after it exactly when the episode ended. */
  function TriggerCalls(action: Action, nextState: StateVec, terminal: int, reward: real,
                        stateAfterReset: StateVec): (calls: seq<EnvCall>)
    requires WellFormed(nextState, terminal, stateAfterReset)
    ensures |calls| == if terminal > 0 then 2 else 1
    ensures calls[0] == ExecuteCall(action, StepOutcome(nextState.components, terminal, reward))
    ensures terminal > 0 ==> calls[1] == ResetCall(stateAfterReset.components)
  {
    [ExecuteCall(action, StepOutcome(nextState.components, terminal, reward))]
      + (if terminal > 0 then [ResetCall(stateAfterReset.components)] else [])
  }

  class CartPole {
    // the action the agent sends in
    var action: Action
    // the results of the latest action
    var nextState: StateVec
    var reward: real
    var terminal: int
    var stateAfterReset: StateVec
    var averageEvaluationReward: real

    const cartpoleEnv: Environment

    constructor (cartpoleEnv: Environment)
      ensures this.cartpoleEnv == cartpoleEnv
      ensures action == 0 && nextState == Sentinel && reward == 0.0 && terminal == 0
      ensures stateAfterReset == Sentinel && averageEvaluationReward == 0.0
    {
      this.cartpoleEnv := cartpoleEnv;
      action := 0;
      nextState := Sentinel;
      reward := 0.0;
      terminal := 0;
      stateAfterReset := Sentinel;
      averageEvaluationReward := 0.0;
    }

    /** Resets the environment once and records the state it starts from. */
    method Stage() returns (staged: seq<CartPole>)
      modifies this, cartpoleEnv
      ensures staged == [this]
      ensures stateAfterReset == Vec(cartpoleEnv.resetFn(old(cartpoleEnv.history)))
      ensures cartpoleEnv.history == old(cartpoleEnv.history) + [ResetCall(stateAfterReset.components)]
      ensures action == old(action) && nextState == old(nextState) && reward == old(reward)
      ensures terminal == old(terminal) && averageEvaluationReward == old(averageEvaluationReward)
    {
      var state := cartpoleEnv.Reset();
      stateAfterReset := Vec(state);
      staged := [this];
    }

    /** One training step: execute the current action, record what the
        environment reported, and reset it again if the episode ended. */
    method Trigger() returns (status: Status)
      modifies this, cartpoleEnv
      ensures status == Finished
      ensures action == old(action) && averageEvaluationReward == old(averageEvaluationReward)
      ensures WellFormed(nextState, terminal, stateAfterReset)
      ensures StepOutcome(nextState.components, terminal, reward)
              == cartpoleEnv.executeFn(old(cartpoleEnv.history), action)
      ensures cartpoleEnv.history
              == old(cartpoleEnv.history) + TriggerCalls(action, nextState, terminal, reward, stateAfterReset)
      ensures terminal > 0 ==>
                stateAfterReset.components == cartpoleEnv.resetFn(old(cartpoleEnv.history) + [cartpoleEnv.history[|old(cartpoleEnv.history)|]])
      ensures terminal <= 0 ==> stateAfterReset == Sentinel
    {
      var outcome := cartpoleEnv.Execute(action);
      nextState := Vec(outcome.nextState);
      terminal := outcome.terminal;
      reward := outcome.reward;
      if terminal > 0 {
        var state := cartpoleEnv.Reset();
        stateAfterReset := Vec(state);
      } else {
        stateAfterReset := Sentinel;
      }
      status := Finished;
    }

    /** Nothing to release after training. */
    method Unstage() returns (staged: seq<CartPole>)
      ensures staged == [this]
    {
      staged := [this];
    }
  }
}
