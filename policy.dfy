/**
  The greedy branch of `epsilon_greedy`: one pass over the candidate
  actions keeping the first one whose value is strictly larger than every
  value seen before it.
 */
module Policy {
  import opened Wrappers

  /** Index `k` holds the first occurrence of the largest value: everything
      before it is strictly smaller, nothing after it is larger. */
  ghost predicate IsFirstMax(values: seq<real>, k: nat)
  {
    k < |values| &&
    (forall j :: 0 <= j < k ==> values[j] < values[k]) &&
    (forall j :: k < j < |values| ==> values[j] <= values[k])
  }

  /** The loop of `epsilon_greedy`: `max_reward` starts at minus infinity
      (here `None`) and `max_action` at `None`; a candidate replaces the
      best so far only when its value is strictly greater. The result names
      the position of the chosen action in the action list. */
  method GreedyArgmax(values: seq<real>) returns (best: Option<nat>)
    ensures best.None? <==> |values| == 0
    ensures best.Some? ==> IsFirstMax(values, best.value)
  {
    var maxValue: Option<real> := None;
    best := None;
    var i := 0;
    while i < |values|
      invariant 0 <= i <= |values|
      invariant best.None? <==> i == 0
      invariant maxValue.None? <==> best.None?
      invariant best.Some? ==> best.value < i && maxValue == Some(values[best.value])
      invariant best.Some? ==> forall j :: 0 <= j < best.value ==> values[j] < values[best.value]
      invariant best.Some? ==> forall j :: best.value < j < i ==> values[j] <= values[best.value]
    {
      if maxValue.None? || values[i] > maxValue.value {
        maxValue := Some(values[i]);
        best := Some(i);
      }
      i := i + 1;
    }
  }

  /** The first maximum is unique, so the loop's choice is determined by
      the values alone. */
  lemma FirstMaxUnique(values: seq<real>, k1: nat, k2: nat)
    requires IsFirstMax(values, k1) && IsFirstMax(values, k2)
    ensures k1 == k2
  {
    assert values[k1] == values[k2];
  }

  /** The chosen value is a maximum of all candidates. */
  lemma FirstMaxIsMaximum(values: seq<real>, k: nat)
    requires IsFirstMax(values, k)
    ensures forall j :: 0 <= j < |values| ==> values[j] <= values[k]
  {
  }

  /** Ties keep the earlier action: with all values equal the first
      candidate wins. */
  lemma TiesKeepFirst(values: seq<real>, k: nat)
    requires IsFirstMax(values, k)
    requires forall j :: 0 <= j < |values| ==> values[j] == values[0]
    ensures k == 0
  {
    assert values[k] == values[0];
  }
}
