# bluesky-cartpole: the episode-bookkeeping and action-handoff protocol

bluesky-cartpole trains a reinforcement-learning agent on the cart-pole game
inside a bluesky run. It has three parts, and this project models and proves
properties of each.

- **The `CartPole` device** (`CartPoleDevice`). It adapts the simulated
  environment to device signals:
  - `stage` resets the environment and records the starting state.
  - `trigger` executes the action held in the `action` signal and records
    `next_state`, `terminal` and `reward`.
  - When `terminal > 0`, `trigger` resets the environment once more and
    records the new state in `state_after_reset`. Otherwise that signal holds
    the all-NaN "nothing to report" vector.
- **The `CartpoleRecommender`** (`Recommender`). It is a tell/ask mailbox.
  - `tell` hands one step's reward and terminal flag to the agent, counts
    completed episodes, and stores the action the agent proposes. The agent
    acts on the post-reset state at an episode end and on the next state
    otherwise.
  - `tell_many` refuses more than one independent value and tells the first
    dependent value. It checks only the independent list, so extra dependent
    values are silently ignored.
  - `ask` hands the stored action back.
- **`train_agent`** (`TrainingPlan`). It is a queue-driven driver loop.
  - A deque is seeded with the agent's first action.
  - Each step pops an action, sets it on the device, triggers it, and emits
    the reading as an event.
  - The subscribed callback observes the step and keeps `episode_count` and
    `total_reward`. While `episode_count <= max_episodes` it enqueues the
    agent's next action. The run ends when the deque drains.

The environment and the agent are outside the repository. `Collaborators`
models each as an object that logs every call made to it, with arguments
and results. What each returns is an arbitrary but fixed function of that
log, so any deterministic environment or agent is one instance. This lets
the contracts state:

- exactly which calls each operation makes, and in which order;
- where each value came from. For example, `observe` precedes `act`, and
  `trigger` makes one reset after an episode end and none otherwise.

The all-NaN vector is the `Sentinel` case of `StateVec`. Rewards are `real`,
and terminal codes are `int`.

The model follows the code in four places where its three parts disagree:

- **What ends an episode.** The plan's callback ends an episode only on
  `terminal == 1`. The device and the recommender use `terminal > 0`, so
  code 2 ("step limit reached") ends an episode for them but not for the
  plan. `PlanEndsWithinDeviceEnds` states the relation between the two
  counts.
- **Where counting starts.** The recommender's episode count starts at 0; the
  plan's starts at 1.
- **The total reward.** The recommender resets it on an episode end but never
  adds to it.
- **Field order.** The plan unpacks an event as (states, terminal, reward,
  state after reset); the recommender unpacks (state, reward, terminal,
  state after reset). Each reader has its own record type, and the plan's
  event is built from the device's signals by name, so the model does not
  exhibit what a positional mismatch would do (see "Left out").

With a budget of one episode and a first step that ends it, the plan records
two events: the callback still enqueues an action at the event that uses up
the budget, so one more step runs before the queue drains
(`SingleEpisodeScenario`, `BudgetTermination`). If every step only hits the
step limit (terminal code 2), the plan never counts an episode end and the
queue never drains (`HorizonOnlyNeverDrains`).

The agent's log always shows every action as the policy's answer for the
state and the history before it (`Collaborators.FollowsPolicy`); every
operation that calls the agent keeps that.

## Model

| member | source | states |
|---|---|---|
| Collaborators.Environment.constructor | bluesky_cartpole/cartpole.py:38-40 | A fresh environment has made no calls yet. |
| Collaborators.Environment.Reset | bluesky_cartpole/cartpole.py:46 | A reset returns the environment's next starting state and is logged as exactly one reset call. |
| Collaborators.Environment.Execute | bluesky_cartpole/cartpole.py:66-68 | An execute returns the step outcome for the given action and is logged as exactly one execute call with that action and outcome. |
| Collaborators.Agent.Observe | bluesky_cartpole/cartpole_plan.py:28 | Observing logs exactly one observe call with the given reward and terminal flag, and keeps every logged action the policy's answer on its prefix. |
| Collaborators.Agent.Act | bluesky_cartpole/cartpole_plan.py:36 | The proposed action is the policy's answer for the state given, after everything observed so far, and is logged with that state, so every logged action stays the policy's answer on its prefix. |
| Collaborators.FollowsPolicyAppend | bluesky_cartpole/cartpole_plan.py:36 | Appending an observe call, or an act call whose action is the policy's answer on the log so far, keeps every logged action the policy's answer on its prefix. |
| CartPoleDevice.CartPole.constructor | bluesky_cartpole/cartpole.py:22-40 | The signals start as action 0, reward 0.0, terminal 0, and the NaN vector for next state and post-reset state. |
| CartPoleDevice.CartPole.Stage | bluesky_cartpole/cartpole.py:42-48 | Stage makes exactly one reset, stores its state in state_after_reset, leaves every other signal alone, and returns [self]. |
| CartPoleDevice.TriggerCalls | bluesky_cartpole/cartpole.py:66-84 | One trigger makes one execute, followed by one reset exactly when terminal > 0, and nothing else. |
| CartPoleDevice.CartPole.Trigger | bluesky_cartpole/cartpole.py:50-88 | Next state, terminal and reward are what execute returned for the current action. On terminal > 0 the post-reset state comes from one extra reset made after the execute. Otherwise it is the sentinel and no reset happens. The status is finished, and action and average_evaluation_reward are unchanged. |
| CartPoleDevice.CartPole.Unstage | bluesky_cartpole/cartpole.py:90-94 | Unstage returns [self] and changes nothing. |
| Recommender.CartpoleRecommender.constructor | bluesky_cartpole/cartpole.py:155-165 | A fresh recommender holds no action, an episode count of 0 and a total reward of 0.0. |
| Recommender.TellCounters | bluesky_cartpole/cartpole.py:172-176 | A tell advances the episode count by one exactly when terminal > 0, and then zeroes the total reward. Otherwise it leaves both counters alone. |
| Recommender.TellAllCountsEpisodes | bluesky_cartpole/cartpole.py:163-176 | Over any sequence of tells, the count grows by exactly the number of steps with terminal > 0. The total reward is never accumulated, only reset. |
| Recommender.TellActsOnRealState | bluesky_cartpole/cartpole.py:168-178 | On a reading the device produced, tell acts on a real state, never on the sentinel. |
| Recommender.CartpoleRecommender.Tell | bluesky_cartpole/cartpole.py:167-178 | Tell makes exactly one observe, then one act, on the post-reset state when terminal > 0 and on the next state otherwise. The stored action is what that act returned, and the counters move as TellCounters says. |
| Recommender.CartpoleRecommender.TellMany | bluesky_cartpole/cartpole.py:180-186 | More than one independent value raises ValueError. An empty independent or dependent list raises IndexError. Both errors leave the state alone. Otherwise the first dependent value is told exactly as tell would, and any further dependent values are ignored. |
| Recommender.CartpoleRecommender.Ask | bluesky_cartpole/cartpole.py:188-189 | Ask returns the one-element batch [action], whatever n and tell_pending are. |
| Recommender.TellThenAsk | bluesky_cartpole/cartpole.py:167-189 | After a tell, ask hands back exactly the action the agent proposed for the state tell chose. |
| TrainingPlan.PlanStep | bluesky_cartpole/cartpole_plan.py:24-34 | Once the budget is spent, the callback changes nothing. Otherwise the count rises by one exactly on terminal == 1 (not on 2) and never falls. Reward is added on other events, and the total is zeroed at an episode end. |
| TrainingPlan.PlanEndsWithinDeviceEnds | bluesky_cartpole/cartpole_plan.py:29-33 | The plan never counts more episode ends than the device (terminal > 0) reports. It counts the same number exactly when no event carries a code above 1. |
| TrainingPlan.PlanRunMonotone | bluesky_cartpole/cartpole_plan.py:24-33 | Over any run the episode count never decreases and grows by at most one per event. |
| TrainingPlan.RefusalIsFinal | bluesky_cartpole/cartpole_plan.py:24 | Once an event has been refused, every later one is refused and the counters stay put. |
| TrainingPlan.AcceptedRunCount | bluesky_cartpole/cartpole_plan.py:24-33 | While every event is accepted, the count is 1 plus the number of terminal == 1 events, and every event is acted on. |
| TrainingPlan.BudgetBound | bluesky_cartpole/cartpole_plan.py:24-33 | Starting within budget, the count never exceeds max_episodes + 1. |
| TrainingPlan.BudgetTermination | bluesky_cartpole/cartpole_plan.py:24-37 | A drained run with a budget of at least one ends one step after the max_episodes-th episode end, with count max_episodes + 1. With no budget it takes exactly one step. |
| TrainingPlan.SingleEpisodeScenario | bluesky_cartpole/cartpole_plan.py:15-37 | With a budget of one and a first step that ends it, the run takes exactly two steps and ends at count 2 with total 0.0. |
| TrainingPlan.CallbackActsOnRealStates | bluesky_cartpole/cartpole_plan.py:25-36 | On events the device produced, the callback never asks the agent to act on the sentinel. |
| TrainingPlan.EnvTraceExecutesInOrder | bluesky_cartpole/cartpole_plan.py:51-57 | The triggers execute exactly the given actions, in order, and reset once per device-reported episode end. |
| TrainingPlan.StepKeepsLoopState | bluesky_cartpole/cartpole_plan.py:51-57 | One pop, set, trigger and callback keeps the loop invariant. The queue holds at most one action, the counters are the callback's fold, and both logs match the events. |
| TrainingPlan.LoopStarts | bluesky_cartpole/cartpole_plan.py:47-49 | After the seeding reset and first act, the loop invariant holds with one queued action and no events. |
| TrainingPlan.HorizonOnlyNeverEnds | bluesky_cartpole/cartpole_plan.py:24-33 | With a budget of at least one, if every event is a step-limit event (terminal == 2), the count stays 1 after every prefix of the run. |
| TrainingPlan.HorizonOnlyNeverDrains | bluesky_cartpole/cartpole_plan.py:24-57 | Under the same conditions, the callback accepts every event, so the queue cannot have drained. |
| TrainingPlan.RunOutcome | bluesky_cartpole/cartpole_plan.py:24-59 | A finished run stays within budget, drains only when the budget is spent, and never acts on the sentinel. It executes exactly the proposed actions in order, with one reset at the start and one per device-reported episode end. |
| TrainingPlan.Trainer.constructor | bluesky_cartpole/cartpole_plan.py:14-16 | The deque starts empty, the episode count at 1 and the total reward at 0.0. |
| TrainingPlan.Trainer.NextPointCallback | bluesky_cartpole/cartpole_plan.py:20-37 | An accepted event makes one observe, then one act on the state PlanState picks, and appends exactly that action to the queue. Counters move by PlanStep. Any other document, or any event once the budget is spent, changes nothing. |
| TrainingPlan.Trainer.Step | bluesky_cartpole/cartpole_plan.py:52-57 | One iteration pops the pending action, executes it on the device, records one event and keeps the loop invariant. |
| TrainingPlan.Trainer.Drive | bluesky_cartpole/cartpole_plan.py:51-57 | The loop keeps its invariant and stops only when the queue drains or the step bound is reached. |
| TrainingPlan.Trainer.RlTrainingPlan | bluesky_cartpole/cartpole_plan.py:44-59 | The run begins with one reset and one act. It records one event per step, in execution order. The final counters are the callback's fold over the events, and the queue holds at most one action. The agent and environment logs are exactly the callback's and the triggers' calls. The first action is the policy's answer on the state of the seeding reset, and every logged action stays the policy's answer on its prefix. Budget, termination and sentinel facts follow as in RunOutcome. With a budget of at least one and every event a step-limit event (terminal == 2), the queue never drains: the run uses the whole step bound and the count stays 1. |

## Left out

- TrainingPlan.Trainer.RlTrainingPlan: takes a step bound `maxSteps`, because with an arbitrary environment `train_agent`'s loop need not terminate. When the bound stops the loop, the queue may still hold one action. The contract covers that case instead of asserting that the loop ran to completion.
- TrainingPlan.Trainer.Drive: has the same step bound as RlTrainingPlan, for the same reason.
- The `next_point_callback` override and the `md` argument of `train_agent` are not modelled. The model always subscribes the built-in callback, and run metadata only decorates documents.
- The RunEngine plumbing is reduced to its effect:
  - `bps.mv`, `trigger_and_read`, and the run and subscription decorators become: set the device's action, trigger, then deliver one event to the callback synchronously;
  - the run-start, descriptor and run-stop documents are also delivered;
  - the returned uids are modelled as the emitted events themselves.
- `bps.mv(env.next_action, …)` names a signal the device does not declare. It is modelled as setting the device's `action` signal.
- `print` logging, and the float and NaN arithmetic of state vectors, are not modelled. States are opaque values, and the NaN vector is a distinguished sentinel.
- The learning inside `observe` and `act`, and the simulation inside `reset` and `execute`, are not modelled: they are foreign calls. They are represented by arbitrary fixed functions of each collaborator's call log.
- `get_cartpole_agent`, which builds hyper-parameter tables for the external agent factory, is not part of this model. Neither is the broken `train_cartpole_agent` wiring.
- The evaluation runner is not modelled. No shown code computes `average_evaluation_reward`; `Trigger` only keeps that signal unchanged.
- An ophyd `Status` is reduced to its finished state.
- The callback reads `doc["data"]["cartpole"]`, which is not a key of the device's reading: the reading is keyed by signal name (`next_state`, `reward`, `terminal`, `state_after_reset`, each prefixed by the device's name), so as written the callback would raise `KeyError`. The model assumes the event carries the device's next state, terminal, reward and state after reset by name, so the two readers' different unpack orders cannot disagree in the model.
