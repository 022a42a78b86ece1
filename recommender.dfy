/** The per-event recommender: the same protocol as the training plan, run
    as a tell/ask mailbox. tell hands one step's observables to the agent and
    stores the action it proposes; ask hands that action back. */
module Recommender {
  import opened Collaborators
  import CartPoleDevice

  datatype Option<T> = None | Some(value: T)

  /** One step's observables, in the order the recommender reads them:
      next state, reward, terminal flag, state after reset. */
  datatype DependentValues = DependentValues(state: StateVec, reward: real, terminal: int, stateAfterReset: StateVec)

  datatype TellError = ValueError | IndexError

  datatype TellOutcome = Told | Raised(error: TellError)

  datatype Counters = Counters(episodeCount: int, totalReward: real)

  /** The state tell asks the agent to act on: the fresh episode's first
      state when the step ended an episode, the next state otherwise. */
  function TellState(d: DependentValues): StateVec
  {
    if d.terminal > 0 then d.stateAfterReset else d.state
  }

  /** The counters after one tell. Every terminal code above 0 ends an
      episode; the reward itself is never added. */
  function TellCounters(c: Counters, terminal: int): (r: Counters)
    ensures r.episodeCount == c.episodeCount + 1 <==> terminal > 0
    ensures terminal > 0 ==> r.totalReward == 0.0
    ensures terminal <= 0 ==> r == c
  {
    if terminal > 0 then Counters(c.episodeCount + 1, 0.0) else c
  }

  /** The counters after a sequence of tells, oldest first. */
  function TellAll(c: Counters, ds: seq<DependentValues>): Counters
    decreases |ds|
  {
    if ds == [] then c else TellCounters(TellAll(c, ds[..|ds| - 1]), ds[|ds| - 1].terminal)
  }

  /** How many of the given steps ended an episode by the device's reading. */
  function EpisodeEnds(ds: seq<DependentValues>): nat
    decreases |ds|
  {
    if ds == [] then 0 else EpisodeEnds(ds[..|ds| - 1]) + (if ds[|ds| - 1].terminal > 0 then 1 else 0)
  }

  /** Over any sequence of tells the episode count grows by exactly the
      number of episode ends, and the total reward is only ever reset. */
  lemma {:induction false} TellAllCountsEpisodes(c: Counters, ds: seq<DependentValues>)
    ensures TellAll(c, ds).episodeCount == c.episodeCount + EpisodeEnds(ds)
    ensures TellAll(c, ds).totalReward == if EpisodeEnds(ds) == 0 then c.totalReward else 0.0
    decreases |ds|
  {
    if ds != [] {
      TellAllCountsEpisodes(c, ds[..|ds| - 1]);
    }
  }

  /** On a reading the device produced, tell never acts on the sentinel. */
  lemma TellActsOnRealState(d: DependentValues)
    requires CartPoleDevice.WellFormed(d.state, d.terminal, d.stateAfterReset)
    ensures TellState(d).Vec?
    ensures d.terminal > 0 ==> TellState(d) == d.stateAfterReset
  {
  }

  class CartpoleRecommender {
    const cartpoleAgent: Agent
    var action: Option<Action>
    var episodeCount: int
    var totalReward: real

    constructor (cartpoleAgent: Agent)
      ensures this.cartpoleAgent == cartpoleAgent
      ensures action == None && episodeCount == 0 && totalReward == 0.0
    {
      this.cartpoleAgent := cartpoleAgent;
      action := None;
      episodeCount := 0;
      totalReward := 0.0;
    }

    function CountersNow(): Counters
      reads this
    {
      Counters(episodeCount, totalReward)
    }

    /** Observes one step, advances the episode count on an episode end and
        stores the action the agent proposes next. The independent value
        (the action that was executed) is not used. */
    method Tell(independentValues: Action, dependentValues: DependentValues)
      modifies this, cartpoleAgent
      ensures CountersNow() == TellCounters(old(CountersNow()), dependentValues.terminal)
      ensures action.Some?
      ensures action.value == cartpoleAgent.policy(
                old(cartpoleAgent.history) + [ObserveCall(dependentValues.reward, dependentValues.terminal)],
                TellState(dependentValues))
      ensures cartpoleAgent.history == old(cartpoleAgent.history)
                + [ObserveCall(dependentValues.reward, dependentValues.terminal),
                   ActCall(TellState(dependentValues), action.value)]
      ensures old(cartpoleAgent.Valid()) ==> cartpoleAgent.Valid()
    {
      var state := dependentValues.state;
      cartpoleAgent.Observe(dependentValues.reward, dependentValues.terminal);
      if dependentValues.terminal > 0 {
        totalReward := 0.0;
        episodeCount := episodeCount + 1;
        state := dependentValues.stateAfterReset;
      }
      var next := cartpoleAgent.Act(state);
      action := Some(next);
    }

    /** Tells the first point of a batch; a batch of more than one point is
        refused, and an empty list fails on its first element. */
    method TellMany(independentValuesList: seq<Action>, dependentValuesList: seq<DependentValues>)
      returns (outcome: TellOutcome)
      modifies this, cartpoleAgent
      ensures |independentValuesList| > 1 ==> outcome == Raised(ValueError)
      ensures |independentValuesList| <= 1 && (independentValuesList == [] || dependentValuesList == [])
              ==> outcome == Raised(IndexError)
      ensures outcome.Raised? ==> unchanged(this, cartpoleAgent)
      ensures outcome == Told <==> |independentValuesList| == 1 && dependentValuesList != []
      ensures outcome == Told ==>
                var d := dependentValuesList[0];
                && CountersNow() == TellCounters(old(CountersNow()), d.terminal)
                && action.Some?
                && action.value == cartpoleAgent.policy(
                     old(cartpoleAgent.history) + [ObserveCall(d.reward, d.terminal)], TellState(d))
                && cartpoleAgent.history == old(cartpoleAgent.history)
                     + [ObserveCall(d.reward, d.terminal), ActCall(TellState(d), action.value)]
      ensures old(cartpoleAgent.Valid()) ==> cartpoleAgent.Valid()
    {
      if |independentValuesList| > 1 {
        return Raised(ValueError);
      }
      if independentValuesList == [] || dependentValuesList == [] {
        return Raised(IndexError);
      }
      Tell(independentValuesList[0], dependentValuesList[0]);
      outcome := Told;
    }

    /** Hands back the stored action as a one-element batch, whatever the
        requested count. */
    function Ask(n: int, tellPending: bool): (batch: seq<Option<Action>>)
      reads this
      ensures |batch| == 1 && batch[0] == action
    {
      [action]
    }
  }

  /** The mailbox handoff: after a tell, ask returns exactly the action the
      agent proposed for the state tell chose. */
  method TellThenAsk(recommender: CartpoleRecommender, executed: Action, d: DependentValues, n: int)
    returns (batch: seq<Option<Action>>)
    modifies recommender, recommender.cartpoleAgent
    ensures batch == [Some(recommender.cartpoleAgent.policy(
                        old(recommender.cartpoleAgent.history) + [ObserveCall(d.reward, d.terminal)],
                        TellState(d)))]
  {
    recommender.Tell(executed, d);
    batch := recommender.Ask(n, true);
  }
}
