/**
  The agent's action-value table `Q_dict`: lookups with the optimistic
  default 10.0 (`qval`), the maximum over the action list (`maxQ`) and the
  write performed by `Q_learn`, all as functions of the table value.
 */
module ValueStore {

  /** The Python values that end up in the table's keys: `None`, strings
      (actions, waypoints, percept readings) and tuples (state keys). */
  datatype Value = PyNone | Str(s: string) | Tuple(items: seq<Value>)

  /** A dictionary key `(state, action)`. */
  type Key = (Value, Value)

  /** `Q_dict`: every key the agent has written, with its estimate. */
  type QTable = map<Key, real>

  /** Value returned for a pair that has never been written. */
  const Default: real := 10.0
  /** Learning rate `alpha`. */
  const Alpha: real := 0.9
  /** Discount `gamma` on the bootstrapped maximum. */
  const Gamma: real := 0.2

  /** The state key `(tuple(inputs.values()), next_waypoint)`; the percept
      readings arrive already in the order the environment produced them. */
  function StateKey(percept: seq<Value>, waypoint: Value): (k: Value)
    ensures k.Tuple? && |k.items| == 2
  {
    Tuple([Tuple(percept), waypoint])
  }

  /** Equal percepts and waypoints give equal keys, and only they do. */
  lemma StateKeyInjective(p1: seq<Value>, w1: Value, p2: seq<Value>, w2: Value)
    ensures StateKey(p1, w1) == StateKey(p2, w2) <==> p1 == p2 && w1 == w2
  {
  }

  /** `qval`: `Q_dict.get((state, action), 10.0)`. */
  function Lookup(q: QTable, state: Value, action: Value): (v: real)
    ensures (state, action) in q ==> v == q[(state, action)]
    ensures (state, action) !in q ==> v == Default
  {
    if (state, action) in q then q[(state, action)] else Default
  }

  /** `maxQ`: the largest `qval(state, a)` over the action list. Python's
      `max` raises on an empty list, hence the precondition. */
  function MaxValue(q: QTable, state: Value, actions: seq<Value>): (m: real)
    requires |actions| > 0
    ensures forall a :: a in actions ==> Lookup(q, state, a) <= m
    ensures exists a :: a in actions && m == Lookup(q, state, a)
    decreases |actions|
  {
    if |actions| == 1 then
      Lookup(q, state, actions[0])
    else
      var first := Lookup(q, state, actions[0]);
      var rest := MaxValue(q, state, actions[1..]);
      assert forall a :: a in actions ==> a == actions[0] || a in actions[1..];
      if first >= rest then first else rest
  }

  /** A state none of whose pairs was ever written has maximum 10.0. */
  lemma MaxValueUnvisited(q: QTable, state: Value, actions: seq<Value>)
    requires |actions| > 0
    requires forall a :: a in actions ==> (state, a) !in q
    ensures MaxValue(q, state, actions) == Default
  {
  }

  /** The temporal-difference step `Q + alpha * (reward + gamma * maxQ - Q)`. */
  function TDUpdate(current: real, reward: real, maxNext: real): real
  {
    current + Alpha * (reward + Gamma * maxNext - current)
  }

  /** The step leaves the value alone exactly when the target
      `reward + gamma * maxNext` already equals it. */
  lemma TDUpdateFixpoint(current: real, reward: real, maxNext: real)
    ensures TDUpdate(current, reward, maxNext) == current <==> reward + Gamma * maxNext == current
  {
  }

  /** The step moves the value towards the target and keeps a tenth
      (`1 - alpha`) of the old distance. */
  lemma TDUpdateTowardsTarget(current: real, reward: real, maxNext: real)
    ensures var t := reward + Gamma * maxNext;
            var v := TDUpdate(current, reward, maxNext);
            v - t == (1.0 - Alpha) * (current - t) &&
            (current <= t ==> current <= v <= t) &&
            (t <= current ==> t <= v <= current)
  {
  }

  /** The worked example: 10 + 0.9 * (2 + 0.2 * 10 - 10) = 4.6. */
  lemma TDUpdateExample()
    ensures TDUpdate(10.0, 2.0, 10.0) == 4.6
  {
  }

  /** `Q_learn(state, action, next_state, reward)` on the table value: the
      first write of a key only stores 10.0; later writes apply the TD step
      with the maximum taken at `next_state` before the write. */
  function LearnStep(q: QTable, state: Value, action: Value, nextState: Value, reward: real,
                     actions: seq<Value>): QTable
    requires |actions| > 0
  {
    var key := (state, action);
    if key !in q then q[key := Default]
    else q[key := TDUpdate(q[key], reward, MaxValue(q, nextState, actions))]
  }

  /** A first write stores exactly 10.0 and applies no TD step. */
  lemma LearnStepFirstWrite(q: QTable, state: Value, action: Value, nextState: Value, reward: real,
                            actions: seq<Value>)
    requires |actions| > 0
    requires (state, action) !in q
    ensures var q' := LearnStep(q, state, action, nextState, reward, actions);
            (state, action) in q' && q'[(state, action)] == Default
  {
  }

  /** A later write replaces the old value by the TD step. */
  lemma LearnStepUpdate(q: QTable, state: Value, action: Value, nextState: Value, reward: real,
                        actions: seq<Value>)
    requires |actions| > 0
    requires (state, action) in q
    ensures var q' := LearnStep(q, state, action, nextState, reward, actions);
            var m := MaxValue(q, nextState, actions);
            q'[(state, action)] == q[(state, action)] + Alpha * (reward + Gamma * m - q[(state, action)])
  {
  }

  /** Only the entry at `(state, action)` changes: every other key keeps
      its value, no key disappears and at most one key is added. */
  lemma LearnStepFrame(q: QTable, state: Value, action: Value, nextState: Value, reward: real,
                       actions: seq<Value>)
    requires |actions| > 0
    ensures var q' := LearnStep(q, state, action, nextState, reward, actions);
            q'.Keys == q.Keys + {(state, action)} &&
            |q'.Keys| <= |q.Keys| + 1 &&
            forall k :: k in q && k != (state, action) ==> q'[k] == q[k]
  {
  }

  /** Reading after a write: the written pair reads its new value, every
      other pair reads what it read before. */
  lemma LookupAfterLearn(q: QTable, state: Value, action: Value, nextState: Value, reward: real,
                         actions: seq<Value>, s: Value, a: Value)
    requires |actions| > 0
    ensures var q' := LearnStep(q, state, action, nextState, reward, actions);
            ((s, a) == (state, action) ==> Lookup(q', s, a) == q'[(state, action)]) &&
            ((s, a) != (state, action) ==> Lookup(q', s, a) == Lookup(q, s, a))
  {
  }

  /** The worked example through the store: an entry at 10.0, reward 2 and
      an unvisited next state give 4.6. */
  lemma LearnStepExample(q: QTable, state: Value, action: Value, nextState: Value, actions: seq<Value>)
    requires |actions| > 0
    requires (state, action) in q && q[(state, action)] == Default
    requires forall a :: a in actions ==> (nextState, a) !in q
    ensures LearnStep(q, state, action, nextState, 2.0, actions)[(state, action)] == 4.6
  {
  }

  /** Every key's action slot holds a state tuple. The agent's own writes
      keep this true, because it passes the new state as the action. */
  ghost predicate ActionSlotsHoldStates(q: QTable)
  {
    forall k :: k in q ==> k.1.Tuple?
  }

  /** No action in the list is a tuple (the environment's actions are
      `None` and direction strings). */
  ghost predicate PlainActions(actions: seq<Value>)
  {
    forall a :: a in actions ==> !a.Tuple?
  }

  /** When the action slots hold states and no action is a tuple, `maxQ`
      never finds a stored entry: it is 10.0 wherever it is evaluated. */
  lemma BootstrapIsDefault(q: QTable, state: Value, actions: seq<Value>)
    requires |actions| > 0
    requires ActionSlotsHoldStates(q) && PlainActions(actions)
    ensures MaxValue(q, state, actions) == Default
  {
  }

  /** A write whose action slot is a state tuple keeps the key shape. */
  lemma LearnStepKeepsShape(q: QTable, state: Value, action: Value, nextState: Value, reward: real,
                            actions: seq<Value>)
    requires |actions| > 0
    requires ActionSlotsHoldStates(q) && action.Tuple?
    ensures ActionSlotsHoldStates(LearnStep(q, state, action, nextState, reward, actions))
  {
  }
}
