# Smartcab Q-learning agent, modelled in Dafny

This project models the learning engine of the smartcab `LearningAgent`
(`smartcab/QLearningAgent.py`). The agent drives a cab through a simulated grid and learns
a table of action values `Q_dict`, keyed by `(state, action)` pairs. Its parts are:

- a lookup `qval` that returns an optimistic 10.0 for pairs it has never written;
- `maxQ`, the largest value over the environment's action list;
- the temporal-difference write `Q_learn`, with learning rate 0.9 and discount 0.2;
- `reset`, called at the start of every trial, which clears the per-trial fields and keeps
  the table;
- `update`, called once per tick. It encodes the state, picks an action through
  `epsilon_greedy`, executes it, learns from the previous tick's transition, and records
  the new one.

Files and modules:

- `wrappers.dfy` (`Wrappers`): `Option`, for the `reward` field that is either `None` or a
  number.
- `value_store.dfy` (`ValueStore`): Python values as a datatype (`PyNone`, strings,
  tuples). Also the state key, `qval` (`Lookup`), `maxQ` (`MaxValue`), the TD step, and
  `Q_learn` on the table value (`LearnStep`), with their lemmas.
- `policy.dfy` (`Policy`): the greedy loop of `epsilon_greedy` (`GreedyArgmax`) and the
  "first strict maximum" characterisation it meets.
- `agent_model.dfy` (`AgentModel`): the agent's fields as one value. `Initial`, `ResetOf`
  and `Tick` give the effect of `__init__`, `reset` and `update`. `Run` and `Lifetime`
  chain them over many ticks and trials.
- `learning_agent.dfy` (`QLearningAgent`): the class `LearningAgent`, whose methods update
  its fields in place. Each method is proved against the `AgentModel` and `ValueStore`
  functions. `TrialScenario` is a client that drives one trial through the class.

Python values that reach the table's keys are modelled as `Value`. Percept readings,
waypoints and actions are `PyNone` or `Str`. State keys are `Tuple`s. Python `None` is one
value, so "no previous state", "no previous action" and the `None` action in the
environment's action list are all `PyNone`, as in the source. Q-values and rewards are
`real`.

### Behaviour of the code that the model keeps

The agent's intended design is textbook lagged Q-learning. The code differs from that
design in several places, and this model follows the code:

- **Swapped arguments.** `update` calls `Q_learn(self.state, self.next_state, self.action,
  self.reward)` (line 92), but `Q_learn` takes `(state, action, next_state, reward)`
  (line 66). So the key written is `(previous state, new state)`, and the maximum is
  taken at the previous action. Because keys are untyped `Value`s, the model reproduces
  this literally. The lemmas `LifetimeKeepsKeyShape`, `BootstrapIsDefault` and
  `TargetIsConstant` prove what follows from it. Every stored key has a state tuple in its
  action slot. So `maxQ` never finds a stored entry and is always 10.0. Every update is
  therefore `Q + 0.9 * (reward + 2 - Q)`.
- **Reward sentinel.** `__init__` sets `reward` to `None`, but `reset` sets it to `0`. So
  the first tick of every trial after a reset does learn, at the key `(None, new state)`.
  Only a tick before any reset skips learning (`FirstTickAfterResetLearns`,
  `FirstTickFromInitial`).
- **First write.** The first write of a key stores 10.0 and applies no TD step
  (`LearnStepFirstWrite`).
- **Ties.** The greedy loop keeps the first candidate whose value is strictly larger than
  everything before it. Ties keep the earlier action; there is no random tie-breaking
  (`TiesKeepFirst`).
- **Greedy candidates.** The greedy loop ranks actions by what `env.act` returns for each
  candidate, not by Q-values. Those rewards are a parameter, `candidateRewards`.
- **Not in the code.** There is no epsilon decay and no move or penalty counters. These
  are not modelled.

## Model

| member | source | states |
|---|---|---|
| ValueStore.StateKeyInjective | smartcab/QLearningAgent.py:81 | The state key `(tuple(inputs.values()), next_waypoint)` of two ticks is equal exactly when their percept readings and waypoints are equal |
| ValueStore.Lookup | smartcab/QLearningAgent.py:38-41 | `qval` returns the stored value for a present key and exactly 10.0 for an absent one; as a function of the table it cannot insert anything |
| ValueStore.MaxValue | smartcab/QLearningAgent.py:43-46 | For a non-empty action list, `maxQ(s)` is at least `qval(s, a)` for every listed action and equals `qval(s, a)` for one of them |
| ValueStore.MaxValueUnvisited | smartcab/QLearningAgent.py:43-46 | A state with no stored entry for any action has `maxQ` exactly 10.0 |
| ValueStore.TDUpdateFixpoint | smartcab/QLearningAgent.py:72 | The TD step leaves a value unchanged if and only if `reward + gamma * maxQ` equals it |
| ValueStore.TDUpdateTowardsTarget | smartcab/QLearningAgent.py:72 | The TD step lands between the old value and the target `reward + gamma * maxQ`, at one tenth (`1 - alpha`) of the old distance from the target |
| ValueStore.TDUpdateExample | smartcab/QLearningAgent.py:25-26 | With alpha 0.9 and gamma 0.2, old value 10, reward 2 and maximum 10 give 4.6 |
| ValueStore.LearnStepFirstWrite | smartcab/QLearningAgent.py:67-70 | `Q_learn` on a key not yet in the table stores exactly 10.0 there, with no TD step, and the key is present afterwards |
| ValueStore.LearnStepUpdate | smartcab/QLearningAgent.py:71-72 | `Q_learn` on a present key stores `old + alpha * (reward + gamma * maxQ(next_state) - old)`, with `maxQ` taken before the write |
| ValueStore.LearnStepFrame | smartcab/QLearningAgent.py:66-72 | `Q_learn` sets the key set to the old keys plus `(state, action)`, so at most one key is added and none is removed; every other key keeps its value |
| ValueStore.LookupAfterLearn | smartcab/QLearningAgent.py:38-41 | After `Q_learn`, `qval` at the written pair reads the new entry, and `qval` at every other pair reads what it read before |
| ValueStore.LearnStepExample | smartcab/QLearningAgent.py:71-72 | An entry at 10.0, reward 2 and a next state with no stored entries give the new value 4.6 |
| ValueStore.BootstrapIsDefault | smartcab/QLearningAgent.py:45-46 | If every stored key has a tuple in its action slot and no action is a tuple, `maxQ` is 10.0 at every argument |
| ValueStore.LearnStepKeepsShape | smartcab/QLearningAgent.py:67-70 | A write whose action slot is a tuple keeps "every key's action slot is a tuple" |
| Policy.GreedyArgmax | smartcab/QLearningAgent.py:54-64 | The greedy loop returns no action only for an empty candidate list. Otherwise its index holds the first strict maximum: every earlier value is smaller and no later value is larger |
| Policy.FirstMaxUnique | smartcab/QLearningAgent.py:59-61 | Only one index can be the first strict maximum, so the loop's choice is determined by the values |
| Policy.FirstMaxIsMaximum | smartcab/QLearningAgent.py:59-61 | The chosen value is at least every candidate's value |
| Policy.TiesKeepFirst | smartcab/QLearningAgent.py:59-63 | When all candidate values are equal, the first action is chosen |
| AgentModel.ResetKeepsTable | smartcab/QLearningAgent.py:28-36 | `reset` sets state, next_state, action and next_action to None, reward to 0 and cum_rewards to 0, and leaves the table exactly as it was |
| AgentModel.TickRecordsTransition | smartcab/QLearningAgent.py:81-97 | After `update`, state is the new state key, action is the chosen action, reward is the new reward, and cum_rewards has grown by exactly that reward |
| AgentModel.TickLearnsOnlyWithPendingReward | smartcab/QLearningAgent.py:90-92 | `update` changes the table only if the previous reward is not None. Then it writes exactly the key `(previous state, new state)` and keeps every other entry |
| AgentModel.FirstTickFromInitial | smartcab/QLearningAgent.py:16-20 | A tick before any reset, with reward still None, leaves the empty table empty |
| AgentModel.FirstTickAfterResetLearns | smartcab/QLearningAgent.py:34 | Because reset sets reward to 0, the first tick of a trial writes the key `(None, new state)`, storing 10.0 if it is new |
| AgentModel.RunCumRewards | smartcab/QLearningAgent.py:97 | Over any sequence of ticks, cum_rewards grows by exactly the sum of the rewards received |
| AgentModel.TrialCumRewards | smartcab/QLearningAgent.py:35 | A trial started by reset ends with cum_rewards equal to the sum of that trial's rewards |
| AgentModel.RunGrowsTable | smartcab/QLearningAgent.py:90-92 | Over any sequence of ticks no entry is deleted, and the table gains at most one key per tick |
| AgentModel.LifetimeKeepsEntries | smartcab/QLearningAgent.py:28-36 | Across any interleaving of resets and ticks no entry is ever deleted, so values learned in one trial persist into later trials |
| AgentModel.LifetimeKeepsKeyShape | smartcab/QLearningAgent.py:92 | Because of the argument order at line 92, every key the agent writes has a state tuple in its action slot, across any interleaving of resets and ticks |
| AgentModel.TargetIsConstant | smartcab/QLearningAgent.py:92 | In any state the agent can reach from `__init__`, when no action is a tuple, updating a stored entry gives `Q + 0.9 * (reward + 0.2 * 10 - Q)` whatever else the table holds |
| QLearningAgent.LearningAgent.constructor | smartcab/QLearningAgent.py:15-22 | `__init__`: empty table, state and action None, reward None, cum_rewards 0 |
| QLearningAgent.LearningAgent.Reset | smartcab/QLearningAgent.py:28-36 | `reset` clears the pending transition, sets reward to 0 and cum_rewards to 0, and keeps `Q_dict` unchanged |
| QLearningAgent.LearningAgent.QLearn | smartcab/QLearningAgent.py:66-72 | `Q_learn` changes only `Q_dict`, only at `(state, action)`: 10.0 on a first write, the TD step otherwise |
| QLearningAgent.LearningAgent.EpsilonGreedy | smartcab/QLearningAgent.py:48-64 | In the exploring branch, the result is the drawn action. Otherwise it is the action at the first strict maximum of the candidate rewards |
| QLearningAgent.LearningAgent.Update | smartcab/QLearningAgent.py:74-97 | `update`: new state key, chosen action and new reward are recorded and cum_rewards grows by the new reward. The table is unchanged when the previous reward is None, and otherwise is the `Q_learn` write with the source's argument order |

## Left out

- `run()`, the `Environment`, `RoutePlanner` and `Simulator` imports, the trial loop and
  the display: orchestration and I/O outside the learning engine.
- `env.sense`, `env.act`, `env.get_deadline` and `planner.next_waypoint`/`route_to`:
  external collaborators. Their results are parameters: `percept`, `waypoint`,
  `candidateRewards` (one `env.act` result per candidate during the greedy loop) and
  `newReward` (the `env.act` result for the chosen action). The `deadline` local in
  `update` is never used.
- The exploration test `random.random < self.epsilon` and `random.choice`: they draw from
  an ambient random source. They are the parameters `explore` and `pick`. `self.epsilon`
  (0.05) is therefore not a field of the model. Under Python 2 the test compares a
  function object with a float, which is always false, so the greedy branch is the one
  the program actually takes.
- The order of `inputs.values()`: the percept arrives as an already ordered sequence of
  readings.
- Python floating point: Q-values and rewards are exact `real`s.
- The unused `dedline` field and the display colour `color`.
- `next_state` and `next_action` do not exist before the first `reset`. The model starts
  them at `None`, which no read can observe, because `update` assigns `next_state` before
  reading it and never reads `next_action`.
- Python's `max` raises on an empty list and `random.choice` fails on one. The action
  list is therefore required to be non-empty when the agent is constructed.
