/**
  The agent's fields as one value, and what `__init__`, `reset` and one
  call of `update` do to it. The class `LearningAgent` is proved against
  these functions; the lemmas here relate several ticks and trials.
 */
module AgentModel {
  import opened Wrappers
  import opened ValueStore

  /** The fields of `LearningAgent` that the learning logic reads or writes. */
  datatype AgentState = AgentState(
    q: QTable,
    state: Value,
    nextState: Value,
    action: Value,
    nextAction: Value,
    reward: Option<real>,
    cumRewards: real,
    nextWaypoint: Value)

  /** What one call of `update` obtains from its collaborators: the sensed
      readings, the planner's waypoint, the action `epsilon_greedy` chose and
      the reward `env.act` returned for it. */
  datatype TickInput = TickInput(percept: seq<Value>, waypoint: Value, chosen: Value, reward: real)

  /** The fields right after `__init__`: an empty table and `reward` None.
      (`next_state` and `next_action` are first created by `reset`; they are
      `None` here.) */
  function Initial(): AgentState
  {
    AgentState(map[], PyNone, PyNone, PyNone, PyNone, None, 0.0, PyNone)
  }

  /** `reset`: clears the pending transition and the trial's reward sum, sets
      `reward` to 0 (not None), and keeps the table. */
  function ResetOf(a: AgentState): AgentState
  {
    a.(state := PyNone, nextState := PyNone, action := PyNone, nextAction := PyNone,
       reward := Some(0.0), cumRewards := 0.0, nextWaypoint := PyNone)
  }

  /** One call of `update`. The learning call passes its arguments in the
      order of the source, `Q_learn(self.state, self.next_state, self.action,
      self.reward)`: the new state lands in the action slot of the key and
      the previous action is where the maximum is taken. */
  function Tick(a: AgentState, actions: seq<Value>, t: TickInput): AgentState
    requires |actions| > 0
  {
    var s := StateKey(t.percept, t.waypoint);
    var q := if a.reward.Some? then LearnStep(a.q, a.state, s, a.action, a.reward.value, actions) else a.q;
    a.(q := q, state := s, nextState := s, action := t.chosen, reward := Some(t.reward),
       cumRewards := a.cumRewards + t.reward, nextWaypoint := t.waypoint)
  }

  /** A sequence of ticks, in order. */
  function Run(a: AgentState, actions: seq<Value>, ticks: seq<TickInput>): AgentState
    requires |actions| > 0
    decreases |ticks|
  {
    if ticks == [] then a else Run(Tick(a, actions, ticks[0]), actions, ticks[1..])
  }

  /** The rewards the environment handed out over a sequence of ticks. */
  function SumRewards(ticks: seq<TickInput>): real
    decreases |ticks|
  {
    if ticks == [] then 0.0 else ticks[0].reward + SumRewards(ticks[1..])
  }

  /** `reset` clears the per-trial fields and leaves the table exactly as it was. */
  lemma ResetKeepsTable(a: AgentState)
    ensures var r := ResetOf(a);
            r.q == a.q && r.cumRewards == 0.0 && r.reward == Some(0.0) &&
            r.state == PyNone && r.action == PyNone &&
            r.nextState == PyNone && r.nextAction == PyNone
  {
  }

  /** After a tick the pending transition is the new state, the chosen action
      and its reward, and the reward sum has grown by exactly that reward. */
  lemma TickRecordsTransition(a: AgentState, actions: seq<Value>, t: TickInput)
    requires |actions| > 0
    ensures var b := Tick(a, actions, t);
            b.state == StateKey(t.percept, t.waypoint) && b.action == t.chosen &&
            b.reward == Some(t.reward) && b.cumRewards == a.cumRewards + t.reward
  {
  }

  /** The table changes only when a previous reward is pending; then exactly
      the key `(previous state, new state)` is written. */
  lemma TickLearnsOnlyWithPendingReward(a: AgentState, actions: seq<Value>, t: TickInput)
    requires |actions| > 0
    ensures var b := Tick(a, actions, t);
            var s := StateKey(t.percept, t.waypoint);
            (a.reward.None? ==> b.q == a.q) &&
            (b.q != a.q ==> a.reward.Some?) &&
            (a.reward.Some? ==> b.q.Keys == a.q.Keys + {(a.state, s)} &&
                                (forall k :: k in a.q && k != (a.state, s) ==> b.q[k] == a.q[k]))
  {
  }

  /** Before any `reset` there is nothing to learn from: the first tick
      leaves the table empty. */
  lemma FirstTickFromInitial(actions: seq<Value>, t: TickInput)
    requires |actions| > 0
    ensures Tick(Initial(), actions, t).q == map[]
  {
  }

  /** Because `reset` sets `reward` to 0 rather than None, the first tick of
      a trial does learn: it writes the key `(None, new state)`, storing 10.0
      the first time. */
  lemma FirstTickAfterResetLearns(a: AgentState, actions: seq<Value>, t: TickInput)
    requires |actions| > 0
    ensures var s := StateKey(t.percept, t.waypoint);
            var b := Tick(ResetOf(a), actions, t);
            (PyNone, s) in b.q &&
            ((PyNone, s) !in a.q ==> b.q[(PyNone, s)] == Default)
  {
  }

  /** Over any run the reward sum grows by exactly the rewards received. */
  lemma {:induction false} RunCumRewards(a: AgentState, actions: seq<Value>, ticks: seq<TickInput>)
    requires |actions| > 0
    ensures Run(a, actions, ticks).cumRewards == a.cumRewards + SumRewards(ticks)
    decreases |ticks|
  {
    if ticks != [] {
      RunCumRewards(Tick(a, actions, ticks[0]), actions, ticks[1..]);
    }
  }

  /** A trial's reward sum is the sum of that trial's rewards. */
  lemma TrialCumRewards(a: AgentState, actions: seq<Value>, ticks: seq<TickInput>)
    requires |actions| > 0
    ensures Run(ResetOf(a), actions, ticks).cumRewards == SumRewards(ticks)
  {
    RunCumRewards(ResetOf(a), actions, ticks);
  }

  /** Entries are never deleted, and each tick adds at most one. */
  lemma {:induction false} RunGrowsTable(a: AgentState, actions: seq<Value>, ticks: seq<TickInput>)
    requires |actions| > 0
    ensures a.q.Keys <= Run(a, actions, ticks).q.Keys
    ensures |Run(a, actions, ticks).q.Keys| <= |a.q.Keys| + |ticks|
    decreases |ticks|
  {
    if ticks != [] {
      var b := Tick(a, actions, ticks[0]);
      TickLearnsOnlyWithPendingReward(a, actions, ticks[0]);
      if a.reward.Some? {
        LearnStepFrame(a.q, a.state, b.state, a.action, a.reward.value, actions);
      }
      RunGrowsTable(b, actions, ticks[1..]);
    }
  }

  /** Something that happens to the agent between its creation and now:
      a `reset` at the start of a trial, or one call of `update`. */
  datatype Event = ResetEvent | TickEvent(input: TickInput)

  /** The agent after a sequence of events, in order. */
  function Lifetime(a: AgentState, actions: seq<Value>, events: seq<Event>): AgentState
    requires |actions| > 0
    decreases |events|
  {
    if events == [] then a
    else
      var b := match events[0]
        case ResetEvent => ResetOf(a)
        case TickEvent(t) => Tick(a, actions, t);
      Lifetime(b, actions, events[1..])
  }

  /** No entry is ever deleted, across ticks and resets alike: what one
      trial learned is still there in every later trial. */
  lemma {:induction false} LifetimeKeepsEntries(a: AgentState, actions: seq<Value>, events: seq<Event>)
    requires |actions| > 0
    ensures a.q.Keys <= Lifetime(a, actions, events).q.Keys
    decreases |events|
  {
    if events != [] {
      match events[0]
      case ResetEvent =>
        LifetimeKeepsEntries(ResetOf(a), actions, events[1..]);
      case TickEvent(t) =>
        TickLearnsOnlyWithPendingReward(a, actions, t);
        LifetimeKeepsEntries(Tick(a, actions, t), actions, events[1..]);
    }
  }

  /** The agent's own writes put a state tuple in the action slot of every
      key, and resets write nothing. */
  lemma {:induction false} LifetimeKeepsKeyShape(a: AgentState, actions: seq<Value>, events: seq<Event>)
    requires |actions| > 0
    requires ActionSlotsHoldStates(a.q)
    ensures ActionSlotsHoldStates(Lifetime(a, actions, events).q)
    decreases |events|
  {
    if events != [] {
      match events[0]
      case ResetEvent =>
        LifetimeKeepsKeyShape(ResetOf(a), actions, events[1..]);
      case TickEvent(t) =>
        if a.reward.Some? {
          LearnStepKeepsShape(a.q, a.state, StateKey(t.percept, t.waypoint), a.action, a.reward.value, actions);
        }
        LifetimeKeepsKeyShape(Tick(a, actions, t), actions, events[1..]);
    }
  }

  /** Consequence of the argument order of the learning call: in any state
      the agent can reach, when no action is a tuple, the bootstrapped maximum
      finds no stored entry and is 10.0, so every update of a stored entry
      moves it towards `reward + gamma * 10`, whatever else the table holds. */
  lemma TargetIsConstant(actions: seq<Value>, events: seq<Event>, t: TickInput)
    requires |actions| > 0 && PlainActions(actions)
    requires Lifetime(Initial(), actions, events).reward.Some?
    requires (Lifetime(Initial(), actions, events).state, StateKey(t.percept, t.waypoint))
             in Lifetime(Initial(), actions, events).q
    ensures var a := Lifetime(Initial(), actions, events);
            var key := (a.state, StateKey(t.percept, t.waypoint));
            var r := a.reward.value;
            Tick(a, actions, t).q[key] == a.q[key] + Alpha * (r + Gamma * Default - a.q[key])
  {
    var a := Lifetime(Initial(), actions, events);
    LifetimeKeepsKeyShape(Initial(), actions, events);
    BootstrapIsDefault(a.q, a.action, actions);
  }
}
