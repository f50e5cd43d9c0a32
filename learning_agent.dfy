/**
  `LearningAgent` of smartcab/QLearningAgent.py as a class whose methods
  update its fields in place. The environment's and the planner's answers
  (`sense`, `act`, `next_waypoint`) and the outcomes of the random draws
  reach the methods as parameters.
 */
module QLearningAgent {
  import opened Wrappers
  import opened ValueStore
  import opened Policy
  import opened AgentModel

  class LearningAgent {
    /** `possible_action`, the environment's fixed action list. */
    const possibleActions: seq<Value>

    /** `Q_dict`. */
    var Q: QTable
    var state: Value
    var nextState: Value
    var action: Value
    var nextAction: Value
    /** `None` until the first reward, or until `reset` sets it to 0. */
    var reward: Option<real>
    var cumRewards: real
    var nextWaypoint: Value

    /** `maxQ` and `random.choice` need a non-empty action list. */
    predicate Valid()
    {
      |possibleActions| > 0
    }

    /** The fields as a value, so that the methods can be stated against the
        functions of `AgentModel`. */
    function Snapshot(): AgentState
      reads this
    {
      AgentState(Q, state, nextState, action, nextAction, reward, cumRewards, nextWaypoint)
    }

    /** `__init__`: an empty table, no pending transition, `reward` None. */
    constructor (possibleActions: seq<Value>)
      requires |possibleActions| > 0
      ensures Valid() && this.possibleActions == possibleActions
      ensures Snapshot() == Initial()
      ensures Q == map[] && reward == None && cumRewards == 0.0
    {
      this.possibleActions := possibleActions;
      Q := map[];
      state, nextState, action, nextAction := PyNone, PyNone, PyNone, PyNone;
      reward := None;
      cumRewards := 0.0;
      nextWaypoint := PyNone;
    }

    /** `reset`: the pending transition and the trial's reward sum are
        cleared, `reward` becomes 0, and `Q_dict` is left exactly as it was. */
    method Reset()
      modifies this
      ensures Snapshot() == ResetOf(old(Snapshot()))
      ensures Q == old(Q)
      ensures state == PyNone && nextState == PyNone && action == PyNone && nextAction == PyNone
      ensures reward == Some(0.0) && cumRewards == 0.0 && nextWaypoint == PyNone
    {
      state := PyNone;
      nextState := PyNone;
      action := PyNone;
      nextAction := PyNone;
      reward := Some(0.0);
      cumRewards := 0.0;
      nextWaypoint := PyNone;
    }

    /** `Q_learn(state, action, next_state, reward)`: only `Q_dict` changes,
        and only at the key `(state, action)`. */
    method QLearn(state: Value, action: Value, nextState: Value, reward: real)
      requires Valid()
      modifies this`Q
      ensures Q == LearnStep(old(Q), state, action, nextState, reward, possibleActions)
      ensures (state, action) in Q
      ensures (state, action) !in old(Q) ==> Q[(state, action)] == Default
      ensures forall k :: k in old(Q) && k != (state, action) ==> k in Q && Q[k] == old(Q)[k]
    {
      var key := (state, action);
      if key !in Q {
        Q := Q[key := Default];
      } else {
        Q := Q[key := Q[key] + Alpha * (reward + Gamma * MaxValue(Q, nextState, possibleActions) - Q[key])];
      }
    }

    /** `epsilon_greedy`. `explore` stands for the outcome of the test
        `random.random < self.epsilon`, `pick` for the index `random.choice`
        draws, and `candidateRewards[i]` for what `env.act` returned when the
        loop tried `possibleActions[i]`. */
    method EpsilonGreedy(explore: bool, pick: nat, candidateRewards: seq<real>) returns (chosen: Value)
      requires Valid()
      requires pick < |possibleActions|
      requires |candidateRewards| == |possibleActions|
      ensures explore ==> chosen == possibleActions[pick]
      ensures !explore ==> exists k: nat :: IsFirstMax(candidateRewards, k) && chosen == possibleActions[k]
    {
      if explore {
        chosen := possibleActions[pick];
      } else {
        var best := GreedyArgmax(candidateRewards);
        chosen := possibleActions[best.value];
      }
    }

    /** `update`: build the state key, choose and execute an action, learn
        from the pending transition if a reward is pending (with the
        arguments in the order of the source), then record the new transition
        and add its reward to the trial's sum. */
    method Update(percept: seq<Value>, waypoint: Value, explore: bool, pick: nat,
                  candidateRewards: seq<real>, newReward: real)
      requires Valid()
      requires pick < |possibleActions|
      requires |candidateRewards| == |possibleActions|
      modifies this
      ensures Snapshot() == Tick(old(Snapshot()), possibleActions, TickInput(percept, waypoint, action, newReward))
      ensures state == StateKey(percept, waypoint) && reward == Some(newReward)
      ensures explore ==> action == possibleActions[pick]
      ensures !explore ==> exists k: nat :: IsFirstMax(candidateRewards, k) && action == possibleActions[k]
      ensures cumRewards == old(cumRewards) + newReward
      ensures old(reward).None? ==> Q == old(Q)
      ensures old(reward).Some? ==>
                Q == LearnStep(old(Q), old(state), StateKey(percept, waypoint), old(action),
                               old(reward).value, possibleActions)
    {
      nextWaypoint := waypoint;
      nextState := StateKey(percept, waypoint);
      var chosen := EpsilonGreedy(explore, pick, candidateRewards);
      if reward.Some? {
        QLearn(state, nextState, action, reward.value);
      }
      state := nextState;
      action := chosen;
      reward := Some(newReward);
      cumRewards := cumRewards + newReward;
    }
  }

  /** A client of the class: one trial that visits the states s1, s2, s1, s2.
      The first tick learns at `(None, s1)` because of the reward sentinel,
      the next two store 10.0 on first writes, and the fourth revisits the
      key `(s1, s2)` with pending reward 2, which gives 10 + 0.9 * (2 + 0.2 * 10 - 10). */
  method TrialScenario()
  {
    var actions := [PyNone, Str("forward"), Str("left"), Str("right")];
    var agent := new LearningAgent(actions);
    agent.Reset();
    var p1, p2 := [Str("green"), PyNone], [Str("red"), PyNone];
    var s1, s2 := StateKey(p1, Str("forward")), StateKey(p2, Str("left"));
    var c1, c2 := [0.0, 2.0, -1.0, 0.5], [0.0, -1.0, 2.0, 0.5];
    agent.Update(p1, Str("forward"), false, 0, c1, 2.0);
    assert agent.Q == map[(PyNone, s1) := Default];
    ghost var k: nat :| IsFirstMax(c1, k) && agent.action == actions[k];
    FirstMaxUnique(c1, k, 1);
    assert agent.action == Str("forward");
    agent.Update(p2, Str("left"), false, 0, c2, 2.0);
    assert agent.Q == map[(PyNone, s1) := Default, (s1, s2) := Default];
    agent.Update(p1, Str("forward"), false, 0, c1, 2.0);
    assert agent.Q == map[(PyNone, s1) := Default, (s1, s2) := Default, (s2, s1) := Default];
    assert agent.reward == Some(2.0);
    BootstrapIsDefault(agent.Q, agent.action, actions);
    agent.Update(p2, Str("left"), false, 0, c2, -1.0);
    assert agent.Q[(s1, s2)] == 4.6;
    assert agent.cumRewards == 5.0;
  }
}
