/** The training plan: a queue-driven driver loop that executes the agent's
    actions on the CartPole device, and the per-document callback that
    observes each step, keeps the episode bookkeeping and enqueues the next
    action while the episode budget lasts.

    Emitting an event runs the callback synchronously, so the loop calls the
    callback directly after each trigger. The callback's captured counters
    and the shared deque are the fields of a Trainer object. */
module TrainingPlan {
  import opened Collaborators
  import opened CartPoleDevice

  /** One event's data as the plan unpacks it: states, terminal flag,
      reward, state after reset. */
  datatype PlanEvent = PlanEvent(states: StateVec, terminal: int, reward: real, stateAfterReset: StateVec)

  /** The documents of a run, in the order they are emitted:
      run start, descriptor, one event per step, run stop. */
  datatype Document = RunStart | Descriptor | Event(data: PlanEvent) | RunStop

  /** The callback's captured counters. */
  datatype Tracker = Tracker(episodeCount: int, totalReward: real)

  /** The counters when the plan starts: episode 1, nothing earned yet. */
  const InitialTracker := Tracker(1, 0.0)

  /** The callback acts on an event only while the budget is not exhausted. */
  predicate Accepts(t: Tracker, maxEpisodes: int)
  {
    t.episodeCount <= maxEpisodes
  }

  /** Only terminal code 1 ends an episode here; code 2 does not. */
  predicate EndsEpisode(e: PlanEvent)
  {
    e.terminal == 1
  }

  /** The state the callback asks the agent to act on. */
  function PlanState(e: PlanEvent): StateVec
  {
    if EndsEpisode(e) then e.stateAfterReset else e.states
  }

  /** The counters after the callback has seen one event. */
  function PlanStep(t: Tracker, maxEpisodes: int, e: PlanEvent): (r: Tracker)
    ensures !Accepts(t, maxEpisodes) ==> r == t
    ensures t.episodeCount <= r.episodeCount <= t.episodeCount + 1
    ensures r.episodeCount == t.episodeCount + 1 <==> Accepts(t, maxEpisodes) && e.terminal == 1
    ensures Accepts(t, maxEpisodes) && e.terminal == 1 ==> r.totalReward == 0.0
    ensures Accepts(t, maxEpisodes) && e.terminal != 1 ==> r.totalReward == t.totalReward + e.reward
  {
    if !Accepts(t, maxEpisodes) then t
    else if EndsEpisode(e) then Tracker(t.episodeCount + 1, 0.0)
    else Tracker(t.episodeCount, t.totalReward + e.reward)
  }

  /** The counters after the callback has seen the events, oldest first. */
  function PlanRun(t: Tracker, maxEpisodes: int, es: seq<PlanEvent>): Tracker
    decreases |es|
  {
    if es == [] then t
    else PlanStep(PlanRun(t, maxEpisodes, es[..|es| - 1]), maxEpisodes, es[|es| - 1])
  }

  /** How many of the events the callback acted on. */
  function AcceptedCount(t: Tracker, maxEpisodes: int, es: seq<PlanEvent>): nat
    decreases |es|
  {
    if es == [] then 0
    else
      AcceptedCount(t, maxEpisodes, es[..|es| - 1])
        + (if Accepts(PlanRun(t, maxEpisodes, es[..|es| - 1]), maxEpisodes) then 1 else 0)
  }

  /** How many of the events end an episode by the plan's test. */
  function CountEnds(es: seq<PlanEvent>): nat
    decreases |es|
  {
    if es == [] then 0
    else CountEnds(es[..|es| - 1]) + (if EndsEpisode(es[|es| - 1]) then 1 else 0)
  }

  /** The agent calls the callback makes for one accepted event, given the
      action the agent returned. */
  function EventCalls(e: PlanEvent, action: Action): seq<AgentCall>
  {
    [ObserveCall(e.reward, e.terminal), ActCall(PlanState(e), action)]
  }

  /** The agent calls the callback makes over the events; acts holds the
      actions the agent returned, one per accepted event. */
  function CallbackCalls(t: Tracker, maxEpisodes: int, es: seq<PlanEvent>, acts: seq<Action>): seq<AgentCall>
    requires |acts| == AcceptedCount(t, maxEpisodes, es)
    decreases |es|
  {
    if es == [] then []
    else if Accepts(PlanRun(t, maxEpisodes, es[..|es| - 1]), maxEpisodes) then
      CallbackCalls(t, maxEpisodes, es[..|es| - 1], acts[..|acts| - 1]) + EventCalls(es[|es| - 1], acts[|acts| - 1])
    else
      CallbackCalls(t, maxEpisodes, es[..|es| - 1], acts)
  }

  /** Every event obeys the device's sentinel convention. */
  predicate AllWellFormed(es: seq<PlanEvent>)
  {
    forall k :: 0 <= k < |es| ==> WellFormed(es[k].states, es[k].terminal, es[k].stateAfterReset)
  }

  /** The environment calls made by triggering the device once per event,
      acts[k] being the action executed at step k. */
  function EnvTrace(acts: seq<Action>, es: seq<PlanEvent>): seq<EnvCall>
    requires |acts| == |es| && AllWellFormed(es)
    decreases |es|
  {
    if es == [] then []
    else
      var e := es[|es| - 1];
      EnvTrace(acts[..|acts| - 1], es[..|es| - 1])
        + TriggerCalls(acts[|acts| - 1], e.states, e.terminal, e.reward, e.stateAfterReset)
  }

  /** The actions the environment was asked to execute, in order. */
  function Executions(calls: seq<EnvCall>): seq<Action>
    decreases |calls|
  {
    if calls == [] then []
    else
      Executions(calls[..|calls| - 1])
        + (if calls[|calls| - 1].ExecuteCall? then [calls[|calls| - 1].action] else [])
  }

  /** How many resets the environment was asked for. */
  function Resets(calls: seq<EnvCall>): nat
    decreases |calls|
  {
    if calls == [] then 0
    else Resets(calls[..|calls| - 1]) + (if calls[|calls| - 1].ResetCall? then 1 else 0)
  }

  /** How many events the device reports as an episode end (any terminal code above 0). */
  function DeviceEnds(es: seq<PlanEvent>): nat
    decreases |es|
  {
    if es == [] then 0
    else DeviceEnds(es[..|es| - 1]) + (if es[|es| - 1].terminal > 0 then 1 else 0)
  }

  /** The plan's episode end (terminal == 1) is narrower than the device's
      (terminal > 0): it never counts more ends, and counts the same ends
      exactly when no event carries a terminal code above 1. */
  lemma {:induction false} PlanEndsWithinDeviceEnds(es: seq<PlanEvent>)
    ensures CountEnds(es) <= DeviceEnds(es)
    ensures CountEnds(es) == DeviceEnds(es) <==> forall k :: 0 <= k < |es| ==> es[k].terminal <= 1
    decreases |es|
  {
    if es != [] {
      var p := es[..|es| - 1];
      PlanEndsWithinDeviceEnds(p);
      if forall k :: 0 <= k < |es| ==> es[k].terminal <= 1 {
        assert forall k :: 0 <= k < |p| ==> p[k].terminal <= 1 by {
          forall k | 0 <= k < |p| ensures p[k].terminal <= 1 {
            assert p[k] == es[k];
          }
        }
      } else if CountEnds(p) == DeviceEnds(p) {
        var k :| 0 <= k < |es| && es[k].terminal > 1;
      }
    }
  }

  // ---------------------------------------------------------------------
  // Properties of the callback's bookkeeping

  /** The episode count never decreases, and grows by at most one per event. */
  lemma {:induction false} PlanRunMonotone(t: Tracker, maxEpisodes: int, es: seq<PlanEvent>, k: nat)
    requires k <= |es|
    ensures PlanRun(t, maxEpisodes, es[..k]).episodeCount <= PlanRun(t, maxEpisodes, es).episodeCount
    ensures PlanRun(t, maxEpisodes, es).episodeCount <= PlanRun(t, maxEpisodes, es[..k]).episodeCount + (|es| - k)
    decreases |es|
  {
    if k < |es| {
      var p := es[..|es| - 1];
      assert es[..k] == p[..k];
      PlanRunMonotone(t, maxEpisodes, p, k);
    } else {
      assert es[..k] == es;
    }
  }

  /** Once the callback has refused an event, it refuses every later one and
      the counters stay as they are. */
  lemma {:induction false} RefusalIsFinal(t: Tracker, maxEpisodes: int, es: seq<PlanEvent>, k: nat)
    requires k <= |es|
    requires !Accepts(PlanRun(t, maxEpisodes, es[..k]), maxEpisodes)
    ensures PlanRun(t, maxEpisodes, es) == PlanRun(t, maxEpisodes, es[..k])
    ensures AcceptedCount(t, maxEpisodes, es) == AcceptedCount(t, maxEpisodes, es[..k])
    decreases |es|
  {
    if k < |es| {
      var p := es[..|es| - 1];
      assert es[..k] == p[..k];
      RefusalIsFinal(t, maxEpisodes, p, k);
    } else {
      assert es[..k] == es;
    }
  }

  /** While every event is accepted, the count grows by exactly one per
      terminal == 1 event. */
  lemma {:induction false} AcceptedRunCount(t: Tracker, maxEpisodes: int, es: seq<PlanEvent>)
    requires forall k :: 0 <= k < |es| ==> Accepts(PlanRun(t, maxEpisodes, es[..k]), maxEpisodes)
    ensures PlanRun(t, maxEpisodes, es).episodeCount == t.episodeCount + CountEnds(es)
    ensures AcceptedCount(t, maxEpisodes, es) == |es|
    decreases |es|
  {
    if es != [] {
      var p := es[..|es| - 1];
      forall k | 0 <= k < |p|
        ensures Accepts(PlanRun(t, maxEpisodes, p[..k]), maxEpisodes)
      {
        assert p[..k] == es[..k];
      }
      AcceptedRunCount(t, maxEpisodes, p);
      assert Accepts(PlanRun(t, maxEpisodes, es[..|es| - 1]), maxEpisodes);
    }
  }

  /** Starting within budget, the count never passes maxEpisodes + 1. */
  lemma {:induction false} BudgetBound(t: Tracker, maxEpisodes: int, es: seq<PlanEvent>)
    requires t.episodeCount <= maxEpisodes + 1
    ensures PlanRun(t, maxEpisodes, es).episodeCount <= maxEpisodes + 1
    decreases |es|
  {
    if es != [] {
      BudgetBound(t, maxEpisodes, es[..|es| - 1]);
    }
  }

  /** When every step only reaches the step horizon (terminal == 2), the
      callback never counts an episode end, so it stays within any budget
      of at least one episode. */
  lemma {:induction false} HorizonOnlyNeverEnds(maxEpisodes: int, es: seq<PlanEvent>)
    requires maxEpisodes >= 1
    requires forall k :: 0 <= k < |es| ==> es[k].terminal == 2
    ensures forall k :: 0 <= k <= |es| ==> PlanRun(InitialTracker, maxEpisodes, es[..k]).episodeCount == 1
    decreases |es|
  {
    if es == [] {
      assert es[..0] == [];
    } else {
      var p := es[..|es| - 1];
      forall k | 0 <= k < |p| ensures p[k].terminal == 2 {
        assert p[k] == es[k];
      }
      HorizonOnlyNeverEnds(maxEpisodes, p);
      forall k | 0 <= k <= |es|
        ensures PlanRun(InitialTracker, maxEpisodes, es[..k]).episodeCount == 1
      {
        if k < |es| {
          assert es[..k] == p[..k];
        } else {
          assert es[..k] == es;
          assert p[..|p|] == p;
        }
      }
    }
  }

  /** How a run that drained its queue ends: every event but the last was
      accepted and the last was refused. With a budget of at least one
      episode, the event before the last is the maxEpisodes-th episode end,
      so exactly one step follows it; with no budget, one step is taken. */
  lemma {:induction false} BudgetTermination(maxEpisodes: int, es: seq<PlanEvent>)
    requires |es| > 0
    requires forall k :: 0 <= k < |es| - 1 ==> Accepts(PlanRun(InitialTracker, maxEpisodes, es[..k]), maxEpisodes)
    requires !Accepts(PlanRun(InitialTracker, maxEpisodes, es[..|es| - 1]), maxEpisodes)
    ensures maxEpisodes >= 1 ==>
              && |es| >= 2
              && EndsEpisode(es[|es| - 2])
              && CountEnds(es[..|es| - 1]) == maxEpisodes
              && PlanRun(InitialTracker, maxEpisodes, es).episodeCount == maxEpisodes + 1
    ensures maxEpisodes < 1 ==> |es| == 1 && PlanRun(InitialTracker, maxEpisodes, es) == InitialTracker
  {
    var n := |es|;
    var p := es[..n - 1];
    forall k | 0 <= k < |p|
      ensures Accepts(PlanRun(InitialTracker, maxEpisodes, p[..k]), maxEpisodes)
    {
      assert p[..k] == es[..k];
    }
    AcceptedRunCount(InitialTracker, maxEpisodes, p);
    RefusalIsFinal(InitialTracker, maxEpisodes, es, n - 1);
    assert es[..0] == [];
    if maxEpisodes >= 1 {
      var q := es[..n - 2];
      assert p[..n - 2] == q;
      assert Accepts(PlanRun(InitialTracker, maxEpisodes, q), maxEpisodes);
      assert PlanRun(InitialTracker, maxEpisodes, p)
             == PlanStep(PlanRun(InitialTracker, maxEpisodes, q), maxEpisodes, es[n - 2]);
    }
  }

  /** With a budget of one episode and a first step that ends it, the run
      takes exactly two steps: the ending step and one more. */
  lemma {:induction false} SingleEpisodeScenario(es: seq<PlanEvent>)
    requires |es| > 0 && EndsEpisode(es[0])
    requires forall k :: 0 <= k < |es| - 1 ==> Accepts(PlanRun(InitialTracker, 1, es[..k]), 1)
    requires !Accepts(PlanRun(InitialTracker, 1, es[..|es| - 1]), 1)
    ensures |es| == 2
    ensures PlanRun(InitialTracker, 1, es) == Tracker(2, 0.0)
  {
    BudgetTermination(1, es);
    assert es[..1] == [es[0]];
    assert es[..0] == [];
    assert PlanRun(InitialTracker, 1, es[..1]) == Tracker(2, 0.0);
    RefusalIsFinal(InitialTracker, 1, es, 1);
  }

  /** On events the device produced, the callback never hands the sentinel
      to the agent. */
  lemma {:induction false} CallbackActsOnRealStates(t: Tracker, maxEpisodes: int, es: seq<PlanEvent>, acts: seq<Action>)
    requires AllWellFormed(es)
    requires |acts| == AcceptedCount(t, maxEpisodes, es)
    ensures forall i :: 0 <= i < |CallbackCalls(t, maxEpisodes, es, acts)| ==>
              var c := CallbackCalls(t, maxEpisodes, es, acts)[i];
              c.ActCall? ==> c.states.Vec?
    decreases |es|
  {
    if es != [] {
      var p := es[..|es| - 1];
      assert AllWellFormed(p) by {
        forall k | 0 <= k < |p| ensures WellFormed(p[k].states, p[k].terminal, p[k].stateAfterReset) {
          assert p[k] == es[k];
        }
      }
      var e := es[|es| - 1];
      assert WellFormed(e.states, e.terminal, e.stateAfterReset);
      if Accepts(PlanRun(t, maxEpisodes, p), maxEpisodes) {
        CallbackActsOnRealStates(t, maxEpisodes, p, acts[..|acts| - 1]);
      } else {
        CallbackActsOnRealStates(t, maxEpisodes, p, acts);
      }
    }
  }

  lemma {:induction false} ExecutionsAppend(a: seq<EnvCall>, b: seq<EnvCall>)
    ensures Executions(a + b) == Executions(a) + Executions(b)
    ensures Resets(a + b) == Resets(a) + Resets(b)
    decreases |b|
  {
    if b == [] {
      assert a + b == a;
    } else {
      var b' := b[..|b| - 1];
      assert (a + b)[..|a + b| - 1] == a + b';
      ExecutionsAppend(a, b');
    }
  }

  /** The environment executes exactly the actions it was given, in order,
      and resets once per device-reported episode end. */
  lemma {:induction false} EnvTraceExecutesInOrder(acts: seq<Action>, es: seq<PlanEvent>)
    requires |acts| == |es| && AllWellFormed(es)
    ensures Executions(EnvTrace(acts, es)) == acts
    ensures Resets(EnvTrace(acts, es)) == DeviceEnds(es)
    decreases |es|
  {
    if es != [] {
      var p := es[..|es| - 1];
      var e := es[|es| - 1];
      assert AllWellFormed(p) by {
        forall k | 0 <= k < |p| ensures WellFormed(p[k].states, p[k].terminal, p[k].stateAfterReset) {
          assert p[k] == es[k];
        }
      }
      assert WellFormed(e.states, e.terminal, e.stateAfterReset);
      var tail := TriggerCalls(acts[|acts| - 1], e.states, e.terminal, e.reward, e.stateAfterReset);
      EnvTraceExecutesInOrder(acts[..|acts| - 1], p);
      ExecutionsAppend(EnvTrace(acts[..|acts| - 1], p), tail);
      if e.terminal > 0 {
        assert tail == [tail[0]] + [tail[1]];
        ExecutionsAppend([tail[0]], [tail[1]]);
        assert Executions([tail[0]]) == Executions([]) + [tail[0].action];
      } else {
        assert tail == [tail[0]];
      }
      assert acts == acts[..|acts| - 1] + [acts[|acts| - 1]];
    }
  }

  /** Appending one event extends each fold by one step. */
  lemma {:induction false} AppendEvent(t: Tracker, maxEpisodes: int, es: seq<PlanEvent>, e: PlanEvent)
    ensures forall k :: 0 <= k <= |es| ==> (es + [e])[..k] == es[..k]
    ensures PlanRun(t, maxEpisodes, es + [e]) == PlanStep(PlanRun(t, maxEpisodes, es), maxEpisodes, e)
    ensures AcceptedCount(t, maxEpisodes, es + [e])
            == AcceptedCount(t, maxEpisodes, es) + (if Accepts(PlanRun(t, maxEpisodes, es), maxEpisodes) then 1 else 0)
  {
    assert (es + [e])[..|es|] == es;
  }

  lemma {:induction false} AppendAcceptedEvent(t: Tracker, maxEpisodes: int, es: seq<PlanEvent>, e: PlanEvent,
                            acts: seq<Action>, action: Action)
    requires |acts| == AcceptedCount(t, maxEpisodes, es)
    requires Accepts(PlanRun(t, maxEpisodes, es), maxEpisodes)
    ensures |acts + [action]| == AcceptedCount(t, maxEpisodes, es + [e])
    ensures CallbackCalls(t, maxEpisodes, es + [e], acts + [action])
            == CallbackCalls(t, maxEpisodes, es, acts) + EventCalls(e, action)
  {
    AppendEvent(t, maxEpisodes, es, e);
    assert (es + [e])[..|es|] == es;
    assert (acts + [action])[..|acts|] == acts;
  }

  lemma {:induction false} AppendRefusedEvent(t: Tracker, maxEpisodes: int, es: seq<PlanEvent>, e: PlanEvent, acts: seq<Action>)
    requires |acts| == AcceptedCount(t, maxEpisodes, es)
    requires !Accepts(PlanRun(t, maxEpisodes, es), maxEpisodes)
    ensures |acts| == AcceptedCount(t, maxEpisodes, es + [e])
    ensures CallbackCalls(t, maxEpisodes, es + [e], acts) == CallbackCalls(t, maxEpisodes, es, acts)
  {
    AppendEvent(t, maxEpisodes, es, e);
    assert (es + [e])[..|es|] == es;
  }

  lemma {:induction false} AppendStep(acts: seq<Action>, es: seq<PlanEvent>, action: Action, e: PlanEvent)
    requires |acts| == |es| && AllWellFormed(es)
    requires WellFormed(e.states, e.terminal, e.stateAfterReset)
    ensures AllWellFormed(es + [e])
    ensures EnvTrace(acts + [action], es + [e])
            == EnvTrace(acts, es) + TriggerCalls(action, e.states, e.terminal, e.reward, e.stateAfterReset)
  {
    assert (es + [e])[..|es|] == es;
    assert (acts + [action])[..|acts|] == acts;
  }

  /** The driver loop's invariant, over plain values: the queue holds at
      most the one action not yet executed; the counters are the callback's
      fold over the events; every event but possibly the last was accepted,
      and the queue drained only because the last one was refused; the
      agent's log holds the callback's calls and the environment's log the
      triggers' calls, one per event. */
  ghost predicate LoopState(maxEpisodes: int, uids: seq<PlanEvent>, actions: seq<Action>,
                            agent0: seq<AgentCall>, env0: seq<EnvCall>, queue: seq<Action>, counters: Tracker,
                            agentHistory: seq<AgentCall>, envHistory: seq<EnvCall>)
  {
    && |queue| <= 1
    && AllWellFormed(uids)
    && counters == PlanRun(InitialTracker, maxEpisodes, uids)
    && |actions| == |uids| + |queue| && queue == actions[|uids|..]
    && |actions| == AcceptedCount(InitialTracker, maxEpisodes, uids) + 1
    && (forall k :: 0 <= k < |actions| - 1 ==> Accepts(PlanRun(InitialTracker, maxEpisodes, uids[..k]), maxEpisodes))
    && (queue == [] ==> |uids| > 0 && !Accepts(PlanRun(InitialTracker, maxEpisodes, uids[..|uids| - 1]), maxEpisodes))
    && agentHistory == agent0 + CallbackCalls(InitialTracker, maxEpisodes, uids, actions[1..])
    && envHistory == env0 + EnvTrace(actions[..|uids|], uids)
  }

  /** The environment's log after one more trigger is the trace of one more
      event. */
  lemma {:induction false} StepExtendsEnvTrace(uids: seq<PlanEvent>, actions: seq<Action>, actions': seq<Action>,
                                               env0: seq<EnvCall>, envHistory: seq<EnvCall>,
                                               event: PlanEvent, envHistory': seq<EnvCall>)
    requires AllWellFormed(uids) && |uids| < |actions| && |uids| < |actions'|
    requires actions'[..|uids| + 1] == actions[..|uids|] + [actions[|uids|]]
    requires WellFormed(event.states, event.terminal, event.stateAfterReset)
    requires envHistory == env0 + EnvTrace(actions[..|uids|], uids)
    requires envHistory' == envHistory
               + TriggerCalls(actions[|uids|], event.states, event.terminal, event.reward, event.stateAfterReset)
    ensures AllWellFormed(uids + [event])
    ensures envHistory' == env0 + EnvTrace(actions'[..|uids| + 1], uids + [event])
  {
    AppendStep(actions[..|uids|], uids, actions[|uids|], event);
    assert envHistory' == env0 + (EnvTrace(actions[..|uids|], uids)
             + TriggerCalls(actions[|uids|], event.states, event.terminal, event.reward, event.stateAfterReset));
  }

  /** One step keeps the loop's invariant: the pending action is executed,
      the callback sees the event, and whatever it enqueues is the agent's
      next proposal. */
  lemma {:induction false} StepKeepsLoopState(maxEpisodes: int, uids: seq<PlanEvent>, actions: seq<Action>,
                           agent0: seq<AgentCall>, env0: seq<EnvCall>,
                           queue: seq<Action>, counters: Tracker, agentHistory: seq<AgentCall>, envHistory: seq<EnvCall>,
                           event: PlanEvent,
                           queue': seq<Action>, counters': Tracker, agentHistory': seq<AgentCall>, envHistory': seq<EnvCall>)
    requires LoopState(maxEpisodes, uids, actions, agent0, env0, queue, counters, agentHistory, envHistory)
    requires queue != []
    requires WellFormed(event.states, event.terminal, event.stateAfterReset)
    requires envHistory' == envHistory
               + TriggerCalls(queue[0], event.states, event.terminal, event.reward, event.stateAfterReset)
    requires counters' == PlanStep(counters, maxEpisodes, event)
    requires Accepts(counters, maxEpisodes) ==>
               |queue'| == 1 && agentHistory' == agentHistory + EventCalls(event, queue'[0])
    requires !Accepts(counters, maxEpisodes) ==> queue' == [] && agentHistory' == agentHistory
    ensures LoopState(maxEpisodes, uids + [event], actions + queue', agent0, env0,
                      queue', counters', agentHistory', envHistory')
  {
    var action := queue[0];
    var actions' := actions + queue';
    assert action == actions[|uids|];
    AppendEvent(InitialTracker, maxEpisodes, uids, event);
    assert actions'[..|uids| + 1] == actions[..|uids|] + [action];
    StepExtendsEnvTrace(uids, actions, actions', env0, envHistory, event, envHistory');
    if Accepts(counters, maxEpisodes) {
      AppendAcceptedEvent(InitialTracker, maxEpisodes, uids, event, actions[1..], queue'[0]);
      assert actions'[1..] == actions[1..] + [queue'[0]];
      assert actions'[|uids| + 1..] == queue';
      assert agentHistory' == agent0 + (CallbackCalls(InitialTracker, maxEpisodes, uids, actions[1..]) + EventCalls(event, queue'[0]));
    } else {
      AppendRefusedEvent(InitialTracker, maxEpisodes, uids, event, actions[1..]);
      assert actions' == actions;
    }
    forall k | 0 <= k < |actions'| - 1
      ensures Accepts(PlanRun(InitialTracker, maxEpisodes, (uids + [event])[..k]), maxEpisodes)
    {
      if k < |actions| - 1 {
        assert (uids + [event])[..k] == uids[..k];
      } else {
        assert (uids + [event])[..k] == uids;
      }
    }
  }

  /** Before the first step: one action queued, nothing executed, and the
      logs hold only the initial reset and the first proposal. */
  lemma {:induction false} LoopStarts(maxEpisodes: int, first: Action, agent0: seq<AgentCall>, env0: seq<EnvCall>)
    ensures LoopState(maxEpisodes, [], [first], agent0, env0, [first], InitialTracker, agent0, env0)
  {
    assert [first][1..] == [];
    assert [first][..0] == [];
    assert agent0 + [] == agent0 && env0 + [] == env0;
  }

  /** A run whose every step only reaches the horizon never drains its
      queue: the budget is never spent, so every event is acted on and the
      loop goes on for as long as it is allowed to. */
  lemma {:induction false} HorizonOnlyNeverDrains(maxEpisodes: int, uids: seq<PlanEvent>, queue: seq<Action>,
                                                  counters: Tracker)
    requires maxEpisodes >= 1
    requires forall k :: 0 <= k < |uids| ==> uids[k].terminal == 2
    requires counters == PlanRun(InitialTracker, maxEpisodes, uids)
    requires queue == [] ==> |uids| > 0 && !Accepts(PlanRun(InitialTracker, maxEpisodes, uids[..|uids| - 1]), maxEpisodes)
    ensures queue != []
    ensures counters.episodeCount == 1
  {
    HorizonOnlyNeverEnds(maxEpisodes, uids);
    assert uids[..|uids|] == uids;
  }

  /** What a finished run amounts to: the count stayed within budget; a
      drained queue means the budget was spent (or was empty from the
      start); the agent only ever acted on real states; and the environment
      executed exactly the proposed actions, in order, resetting once at the
      start and once per device-reported episode end. */
  lemma {:induction false} RunOutcome(maxEpisodes: int, uids: seq<PlanEvent>, actions: seq<Action>,
                   agentOld: seq<AgentCall>, envOld: seq<EnvCall>, state: seq<real>,
                   queue: seq<Action>, counters: Tracker, agentHistory: seq<AgentCall>, envHistory: seq<EnvCall>)
    requires |actions| >= 1
    requires LoopState(maxEpisodes, uids, actions, agentOld + [ActCall(Vec(state), actions[0])],
                       envOld + [ResetCall(state)], queue, counters, agentHistory, envHistory)
    ensures counters.episodeCount >= 1 && (maxEpisodes >= 0 ==> counters.episodeCount <= maxEpisodes + 1)
    ensures queue == [] && maxEpisodes >= 1 ==>
              && |uids| >= 2
              && EndsEpisode(uids[|uids| - 2])
              && CountEnds(uids[..|uids| - 1]) == maxEpisodes
              && counters.episodeCount == maxEpisodes + 1
    ensures queue == [] && maxEpisodes < 1 ==> |uids| == 1 && counters.episodeCount == 1
    ensures |agentOld| <= |agentHistory|
    ensures forall i :: |agentOld| <= i < |agentHistory| && agentHistory[i].ActCall? ==> agentHistory[i].states.Vec?
    ensures |envOld| <= |envHistory|
    ensures Executions(envHistory[|envOld|..]) == actions[..|uids|]
    ensures Resets(envHistory[|envOld|..]) == 1 + DeviceEnds(uids)
  {
    PlanRunMonotone(InitialTracker, maxEpisodes, uids, 0);
    assert uids[..0] == [];
    if maxEpisodes >= 0 {
      BudgetBound(InitialTracker, maxEpisodes, uids);
    }
    if queue == [] {
      BudgetTermination(maxEpisodes, uids);
    }
    var calls := CallbackCalls(InitialTracker, maxEpisodes, uids, actions[1..]);
    CallbackActsOnRealStates(InitialTracker, maxEpisodes, uids, actions[1..]);
    assert agentHistory == agentOld + ([ActCall(Vec(state), actions[0])] + calls);
    forall i | |agentOld| <= i < |agentHistory| && agentHistory[i].ActCall?
      ensures agentHistory[i].states.Vec?
    {
      if i > |agentOld| {
        assert agentHistory[i] == calls[i - |agentOld| - 1];
      }
    }
    var resetCall := ResetCall(state);
    var trace := EnvTrace(actions[..|uids|], uids);
    EnvTraceExecutesInOrder(actions[..|uids|], uids);
    assert envHistory[|envOld|..] == [resetCall] + trace;
    ExecutionsAppend([resetCall], trace);
    assert [resetCall][..0] == [];
  }

  // ---------------------------------------------------------------------
  // The closure: counters and deque shared by the callback and the loop

  class Trainer {
    const env: CartPole
    const agent: Agent
    const maxEpisodes: int
    var queue: seq<Action>
    var episodeCount: int
    var totalReward: real

    constructor (env: CartPole, agent: Agent, maxEpisodes: int)
      ensures this.env == env && this.agent == agent && this.maxEpisodes == maxEpisodes
      ensures queue == [] && episodeCount == 1 && totalReward == 0.0
    {
      this.env := env;
      this.agent := agent;
      this.maxEpisodes := maxEpisodes;
      queue := [];
      episodeCount := 1;
      totalReward := 0.0;
    }

    function Counters(): Tracker
      reads this
    {
      Tracker(episodeCount, totalReward)
    }

    /** Called with every document of the run. For an event within budget:
        observe, advance the bookkeeping, ask the agent for the next action
        and enqueue it. Anything else leaves every piece of state alone. */
    method NextPointCallback(doc: Document)
      modifies this, agent
      ensures Counters() == if doc.Event? then PlanStep(old(Counters()), maxEpisodes, doc.data) else old(Counters())
      ensures doc.Event? && Accepts(old(Counters()), maxEpisodes) ==>
                && |queue| == |old(queue)| + 1
                && queue[..|old(queue)|] == old(queue)
                && queue[|queue| - 1] == agent.policy(
                     old(agent.history) + [ObserveCall(doc.data.reward, doc.data.terminal)], PlanState(doc.data))
                && agent.history == old(agent.history) + EventCalls(doc.data, queue[|queue| - 1])
      ensures !(doc.Event? && Accepts(old(Counters()), maxEpisodes)) ==>
                queue == old(queue) && agent.history == old(agent.history)
      ensures old(agent.Valid()) ==> agent.Valid()
    {
      if doc.Event? && episodeCount <= maxEpisodes {
        var states := doc.data.states;
        var terminal := doc.data.terminal;
        var reward := doc.data.reward;
        totalReward := totalReward + reward;
        agent.Observe(reward, terminal);
        if terminal == 1 {
          totalReward := 0.0;
          episodeCount := episodeCount + 1;
          states := doc.data.stateAfterReset;
        }
        var action := agent.Act(states);
        queue := queue + [action];
      }
    }

    /** The driver loop's invariant on this trainer's state. */
    ghost predicate Progress(uids: seq<PlanEvent>, actions: seq<Action>, agent0: seq<AgentCall>, env0: seq<EnvCall>)
      reads this, agent, env.cartpoleEnv
    {
      LoopState(maxEpisodes, uids, actions, agent0, env0, queue, Counters(), agent.history, env.cartpoleEnv.history)
    }

    /** One iteration of the driver loop: pop the pending action, set it on
        the device's action input, trigger, and emit the event, which runs
        the callback (preceded by the descriptor on the first step). */
    method Step(firstStep: bool, ghost uids: seq<PlanEvent>, ghost actions: seq<Action>,
                ghost agent0: seq<AgentCall>, ghost env0: seq<EnvCall>)
      returns (event: PlanEvent, ghost actions': seq<Action>)
      requires Progress(uids, actions, agent0, env0) && queue != []
      modifies this, agent, env, env.cartpoleEnv
      ensures Progress(uids + [event], actions', agent0, env0)
      ensures |actions| <= |actions'| && actions'[..|actions|] == actions
      ensures old(agent.Valid()) ==> agent.Valid()
    {
      ghost var counters := Counters();
      ghost var agentHistory := agent.history;
      ghost var envHistory := env.cartpoleEnv.history;
      ghost var pending := queue;
      var action := queue[|queue| - 1];
      queue := queue[..|queue| - 1];
      env.action := action;
      var _ := env.Trigger();
      event := PlanEvent(env.nextState, env.terminal, env.reward, env.stateAfterReset);
      if firstStep {
        NextPointCallback(Descriptor);
      }
      NextPointCallback(Event(event));
      StepKeepsLoopState(maxEpisodes, uids, actions, agent0, env0, pending, counters, agentHistory, envHistory,
                         event, queue, Counters(), agent.history, env.cartpoleEnv.history);
      actions' := actions + queue;
    }

    /** The loop itself: pop, set, trigger and emit until the queue drains
        or maxSteps steps have been taken. */
    method Drive(maxSteps: nat, ghost first: Action, ghost agent0: seq<AgentCall>, ghost env0: seq<EnvCall>)
      returns (uids: seq<PlanEvent>, ghost actions: seq<Action>)
      requires Progress([], [first], agent0, env0)
      modifies this, agent, env, env.cartpoleEnv
      ensures |uids| <= maxSteps
      ensures queue == [] || |uids| == maxSteps
      ensures Progress(uids, actions, agent0, env0)
      ensures |actions| >= 1 && actions[0] == first
      ensures old(agent.Valid()) ==> agent.Valid()
    {
      uids := [];
      actions := [first];
      while |queue| > 0 && |uids| < maxSteps
        invariant |uids| <= maxSteps
        invariant Progress(uids, actions, agent0, env0)
        invariant |actions| >= 1 && actions[0] == first
        invariant old(agent.Valid()) ==> agent.Valid()
        decreases maxSteps - |uids|
      {
        var event;
        event, actions := Step(uids == [], uids, actions, agent0, env0);
        uids := uids + [event];
      }
    }

    /** The driver loop: reset the environment, seed the queue with the
        agent's first action, then pop an action, set it on the device,
        trigger and emit the event, until the queue drains. maxSteps bounds
        the number of steps; actions are the agent's proposals, in order. */
    method RlTrainingPlan(maxSteps: nat) returns (uids: seq<PlanEvent>, ghost actions: seq<Action>)
      requires Counters() == InitialTracker && queue == []
      modifies this, agent, env, env.cartpoleEnv
      ensures |uids| <= maxSteps
      ensures queue == [] || |uids| == maxSteps
      ensures |queue| <= 1
      ensures AllWellFormed(uids)
      ensures Counters() == PlanRun(InitialTracker, maxEpisodes, uids)
      ensures |actions| == |uids| + |queue| && queue == actions[|uids|..]
      ensures |actions| == AcceptedCount(InitialTracker, maxEpisodes, uids) + 1
      ensures forall k :: 0 <= k < |actions| - 1 ==> Accepts(PlanRun(InitialTracker, maxEpisodes, uids[..k]), maxEpisodes)
      ensures queue == [] ==> |uids| > 0 && !Accepts(PlanRun(InitialTracker, maxEpisodes, uids[..|uids| - 1]), maxEpisodes)
      ensures agent.history == old(agent.history)
                + [ActCall(Vec(env.cartpoleEnv.resetFn(old(env.cartpoleEnv.history))), actions[0])]
                + CallbackCalls(InitialTracker, maxEpisodes, uids, actions[1..])
      ensures env.cartpoleEnv.history == old(env.cartpoleEnv.history)
                + [ResetCall(env.cartpoleEnv.resetFn(old(env.cartpoleEnv.history)))]
                + EnvTrace(actions[..|uids|], uids)
      // consequences: the budget, the sentinel, and the action handoff
      ensures episodeCount >= 1 && (maxEpisodes >= 0 ==> episodeCount <= maxEpisodes + 1)
      ensures queue == [] && maxEpisodes >= 1 ==>
                && |uids| >= 2
                && EndsEpisode(uids[|uids| - 2])
                && CountEnds(uids[..|uids| - 1]) == maxEpisodes
                && episodeCount == maxEpisodes + 1
      ensures queue == [] && maxEpisodes < 1 ==> |uids| == 1 && episodeCount == 1
      ensures forall i :: |old(agent.history)| <= i < |agent.history| && agent.history[i].ActCall? ==>
                agent.history[i].states.Vec?
      ensures Executions(env.cartpoleEnv.history[|old(env.cartpoleEnv.history)|..]) == actions[..|uids|]
      ensures Resets(env.cartpoleEnv.history[|old(env.cartpoleEnv.history)|..]) == 1 + DeviceEnds(uids)
      // the first action is the agent's answer for the starting state, and
      // every later proposal in the log is the policy's answer as well
      ensures actions[0] == agent.policy(old(agent.history), Vec(env.cartpoleEnv.resetFn(old(env.cartpoleEnv.history))))
      ensures old(agent.Valid()) ==> agent.Valid()
      // when every step only reaches the horizon, the queue never drains
      ensures maxEpisodes >= 1 && (forall k :: 0 <= k < |uids| ==> uids[k].terminal == 2) ==>
                queue != [] && |uids| == maxSteps && episodeCount == 1
    {
      NextPointCallback(RunStart);
      var state := env.cartpoleEnv.Reset();
      var first := agent.Act(Vec(state));
      queue := queue + [first];
      ghost var agent0 := old(agent.history) + [ActCall(Vec(state), first)];
      ghost var env0 := old(env.cartpoleEnv.history) + [ResetCall(state)];
      LoopStarts(maxEpisodes, first, agent0, env0);

      uids, actions := Drive(maxSteps, first, agent0, env0);
      NextPointCallback(RunStop);

      RunOutcome(maxEpisodes, uids, actions, old(agent.history), old(env.cartpoleEnv.history), state,
                 queue, Counters(), agent.history, env.cartpoleEnv.history);
      if maxEpisodes >= 1 && forall k :: 0 <= k < |uids| ==> uids[k].terminal == 2 {
        HorizonOnlyNeverDrains(maxEpisodes, uids, queue, Counters());
      }
    }
  }
}
