/**
 * The lambda-return targets of the Dreamer-V1 imagination rollout
 * (`compute_lambda_values`), for one element of the batch. Reals stand in for
 * the floating-point tensors.
 */
module LambdaReturns {
  import opened Wrappers

  /** What the imagination rollout produced for one batch element. */
  datatype Imagined = Imagined(
    rewards: seq<real>,   // estimated reward at each imagined step
    values: seq<real>,    // estimated value at each imagined step
    // `done_mask` multiplies everything after the step: the future counts where
    // it is 1 and is cut off where it is 0, so it acts as a continuation flag,
    // although the function's docstring calls it 1 at terminal steps.
    doneMask: seq<real>,
    lastValues: real)     // bootstrap value after the last step of the horizon

  /** The rollout's tensors cover every step the horizon reads: steps 0 .. horizon-2. */
  predicate Covers(x: Imagined, horizon: int) {
    && |x.rewards| >= horizon - 1
    && |x.values| >= horizon - 1
    && |x.doneMask| >= horizon - 1
  }

  /** A horizon with at least one target step, over a rollout that covers it. */
  predicate Shaped(x: Imagined, horizon: int) {
    horizon >= 2 && Covers(x, horizon)
  }

  /**
   * The lambda-return at `step`: the reward plus, where the episode goes on,
   * a blend of the next state's value and the next lambda-return; the last
   * step bootstraps from `lastValues`.
   */
  function LambdaReturn(x: Imagined, lmbda: real, horizon: int, step: nat): real
    requires Shaped(x, horizon) && step <= horizon - 2
    decreases horizon - step
  {
    if step == horizon - 2 then
      x.rewards[step] + x.doneMask[step] * x.lastValues
    else
      x.rewards[step]
      + x.doneMask[step] * ((1.0 - lmbda) * x.values[step + 1] + lmbda * LambdaReturn(x, lmbda, horizon, step + 1))
  }

  function Reversed(s: seq<real>): (r: seq<real>)
    ensures |r| == |s|
    ensures forall i :: 0 <= i < |s| ==> r[i] == s[|s| - 1 - i]
  {
    seq(|s|, i requires 0 <= i < |s| => s[|s| - 1 - i])
  }

  /** Reversing twice gives the list back. */
  lemma ReversedTwice(s: seq<real>)
    ensures Reversed(Reversed(s)) == s
  {
    assert forall i :: 0 <= i < |s| ==> Reversed(Reversed(s))[i] == s[i];
  }

  /**
   * The backward loop of the source: the accumulator starts at 0, one target is
   * appended per step from horizon-2 down to 0, and the list is reversed so that
   * entry i belongs to step i. The inputs are values and are left as they were.
   * A horizon below 2 leaves no step, and stacking the empty list raises
   * RuntimeError.
   */
  method ComputeLambdaValues(x: Imagined, horizon: int, lmbda: real) returns (r: Result<seq<real>>)
    requires Covers(x, horizon)
    ensures r.Err? <==> horizon < 2
    ensures r.Err? ==> r.error.RuntimeError?
    ensures r.Ok? ==> |r.value| == horizon - 1
    ensures r.Ok? ==> forall i :: 0 <= i < horizon - 1 ==> r.value[i] == LambdaReturn(x, lmbda, horizon, i)
    ensures r.Ok? ==> r.value[horizon - 2] == x.rewards[horizon - 2] + x.lastValues * x.doneMask[horizon - 2]
    ensures r.Ok? ==> forall i :: 0 <= i < horizon - 1 && x.doneMask[i] == 0.0 ==> r.value[i] == x.rewards[i]
  {
    if horizon < 2 {
      return Err(RuntimeError("stack expects a non-empty TensorList"));
    }
    var lastValues := x.lastValues;
    var lastLambdaValues: real := 0.0;
    var lambdaTargets: seq<real> := [];
    for step := horizon - 1 downto 0
      invariant |lambdaTargets| == horizon - 1 - step
      invariant forall j :: 0 <= j < |lambdaTargets| ==>
        lambdaTargets[j] == LambdaReturn(x, lmbda, horizon, horizon - 2 - j)
      invariant step < horizon - 1 ==> lastLambdaValues == LambdaReturn(x, lmbda, horizon, step)
      invariant step == horizon - 1 ==> lastLambdaValues == 0.0
    {
      var nextValues := if step == horizon - 2 then lastValues else x.values[step + 1] * (1.0 - lmbda);
      var delta := x.rewards[step] + nextValues * x.doneMask[step];
      BackwardStep(x, lmbda, horizon, step, lastLambdaValues);
      lastLambdaValues := delta + lmbda * x.doneMask[step] * lastLambdaValues;
      assert lastLambdaValues == LambdaReturn(x, lmbda, horizon, step);
      lambdaTargets := lambdaTargets + [lastLambdaValues];
    }
    LambdaReturnEnds(x, lmbda, horizon);
    r := Ok(Reversed(lambdaTargets));
  }

  /**
   * The last step bootstraps from `lastValues`, and a step where the episode
   * has ended (doneMask 0) returns just its reward.
   */
  lemma LambdaReturnEnds(x: Imagined, lmbda: real, horizon: int)
    requires Shaped(x, horizon)
    ensures LambdaReturn(x, lmbda, horizon, horizon - 2) == x.rewards[horizon - 2] + x.lastValues * x.doneMask[horizon - 2]
    ensures forall i :: 0 <= i < horizon - 1 && x.doneMask[i] == 0.0 ==> LambdaReturn(x, lmbda, horizon, i) == x.rewards[i]
  {
    forall i | 0 <= i < horizon - 1 && x.doneMask[i] == 0.0
      ensures LambdaReturn(x, lmbda, horizon, i) == x.rewards[i]
    {
      if i < horizon - 2 {
        LambdaReturnUnfold(x, lmbda, horizon, i);
      }
    }
  }

  /**
   * One pass of the backward loop: from the accumulator holding the return at
   * `step + 1` (0 before the first pass), the update gives the return at `step`.
   */
  lemma BackwardStep(x: Imagined, lmbda: real, horizon: int, step: nat, acc: real)
    requires Shaped(x, horizon) && step <= horizon - 2
    requires step < horizon - 2 ==> acc == LambdaReturn(x, lmbda, horizon, step + 1)
    requires step == horizon - 2 ==> acc == 0.0
    ensures var nextValues := if step == horizon - 2 then x.lastValues else x.values[step + 1] * (1.0 - lmbda);
      x.rewards[step] + nextValues * x.doneMask[step] + lmbda * x.doneMask[step] * acc
      == LambdaReturn(x, lmbda, horizon, step)
  {
    if step < horizon - 2 {
      LambdaReturnUnfold(x, lmbda, horizon, step);
      var d := x.doneMask[step];
      var v := x.values[step + 1];
      assert (v * (1.0 - lmbda)) * d + lmbda * d * acc == d * ((1.0 - lmbda) * v + lmbda * acc);
    }
  }

  // ---------------------------------------------------------------------------
  // An independent reading of the same targets: the lambda-return at `step` is
  // the sum of the one-step targets of steps step .. horizon-2, each weighted by
  // the product of lmbda * doneMask over the steps before it.

  /** The one-step bootstrapped target of step k. */
  function OneStepTarget(x: Imagined, lmbda: real, horizon: int, k: nat): real
    requires Shaped(x, horizon) && k <= horizon - 2
  {
    x.rewards[k]
    + x.doneMask[k] * (if k == horizon - 2 then x.lastValues else (1.0 - lmbda) * x.values[k + 1])
  }

  /** Product of lmbda * doneMask[j] for j in [s, k). */
  function Weight(x: Imagined, lmbda: real, s: nat, k: nat): real
    requires s <= k <= |x.doneMask|
    decreases k
  {
    if k == s then 1.0 else Weight(x, lmbda, s, k - 1) * (lmbda * x.doneMask[k - 1])
  }

  /** Sum of Weight(s, k) * OneStepTarget(k) for k in [from, horizon-2]. */
  function WeightedSum(x: Imagined, lmbda: real, horizon: int, s: nat, from: nat): real
    requires Shaped(x, horizon) && s <= from <= horizon - 1
    decreases horizon - 1 - from
  {
    if from == horizon - 1 then 0.0
    else Weight(x, lmbda, s, from) * OneStepTarget(x, lmbda, horizon, from)
         + WeightedSum(x, lmbda, horizon, s, from + 1)
  }

  lemma {:induction false} WeightShift(x: Imagined, lmbda: real, s: nat, k: nat)
    requires s < k <= |x.doneMask|
    ensures Weight(x, lmbda, s, k) == lmbda * x.doneMask[s] * Weight(x, lmbda, s + 1, k)
    decreases k
  {
    if k > s + 1 {
      WeightShift(x, lmbda, s, k - 1);
      var f := lmbda * x.doneMask[k - 1];
      var w := Weight(x, lmbda, s + 1, k - 1);
      assert Weight(x, lmbda, s, k) == Weight(x, lmbda, s, k - 1) * f;
      assert Weight(x, lmbda, s + 1, k) == w * f;
      MulReassoc(lmbda * x.doneMask[s], w, f);
    }
  }

  lemma {:induction false} WeightedSumShift(x: Imagined, lmbda: real, horizon: int, s: nat, from: nat)
    requires Shaped(x, horizon) && s < from <= horizon - 1
    ensures WeightedSum(x, lmbda, horizon, s, from)
            == lmbda * x.doneMask[s] * WeightedSum(x, lmbda, horizon, s + 1, from)
    decreases horizon - 1 - from
  {
    if from < horizon - 1 {
      WeightShift(x, lmbda, s, from);
      WeightedSumShift(x, lmbda, horizon, s, from + 1);
      var c := lmbda * x.doneMask[s];
      var t := OneStepTarget(x, lmbda, horizon, from);
      var w := Weight(x, lmbda, s + 1, from);
      var rest := WeightedSum(x, lmbda, horizon, s + 1, from + 1);
      WeightedSumUnfold(x, lmbda, horizon, s, from);
      WeightedSumUnfold(x, lmbda, horizon, s + 1, from);
      MulDistrib(c, w, t, rest);
    }
  }

  /** The weighted sum from `from`: the target at `from`, weighted, then the rest. */
  lemma WeightedSumUnfold(x: Imagined, lmbda: real, horizon: int, s: nat, from: nat)
    requires Shaped(x, horizon) && s <= from < horizon - 1
    ensures WeightedSum(x, lmbda, horizon, s, from)
            == Weight(x, lmbda, s, from) * OneStepTarget(x, lmbda, horizon, from)
               + WeightedSum(x, lmbda, horizon, s, from + 1)
  {
  }

  lemma MulReassoc(a: real, w: real, f: real)
    ensures (a * w) * f == a * (w * f)
  {
  }

  lemma MulDistrib(c: real, w: real, t: real, rest: real)
    ensures (c * w) * t + c * rest == c * (w * t + rest)
  {
  }

  /** The recurrence at a step before the last, written out once. */
  lemma LambdaReturnUnfold(x: Imagined, lmbda: real, horizon: int, step: nat)
    requires Shaped(x, horizon) && step < horizon - 2
    ensures LambdaReturn(x, lmbda, horizon, step)
            == x.rewards[step] + x.doneMask[step] * ((1.0 - lmbda) * x.values[step + 1]
                                                    + lmbda * LambdaReturn(x, lmbda, horizon, step + 1))
  {
  }

  /** Before the last step, the one-step target bootstraps from the next value. */
  lemma OneStepTargetBefore(x: Imagined, lmbda: real, horizon: int, k: nat)
    requires Shaped(x, horizon) && k < horizon - 2
    ensures OneStepTarget(x, lmbda, horizon, k) == x.rewards[k] + x.doneMask[k] * ((1.0 - lmbda) * x.values[k + 1])
  {
  }

  /** The weighted sum from its own step starts with that step's target at weight 1. */
  lemma WeightedSumFirst(x: Imagined, lmbda: real, horizon: int, s: nat)
    requires Shaped(x, horizon) && s <= horizon - 2
    ensures WeightedSum(x, lmbda, horizon, s, s)
            == OneStepTarget(x, lmbda, horizon, s) + WeightedSum(x, lmbda, horizon, s, s + 1)
  {
    assert Weight(x, lmbda, s, s) == 1.0;
  }

  /** The recurrence: the first one-step target, then lmbda * doneMask times the next return. */
  lemma LambdaReturnSplit(x: Imagined, lmbda: real, horizon: int, step: nat)
    requires Shaped(x, horizon) && step < horizon - 2
    ensures LambdaReturn(x, lmbda, horizon, step)
            == OneStepTarget(x, lmbda, horizon, step) + lmbda * x.doneMask[step] * LambdaReturn(x, lmbda, horizon, step + 1)
  {
    LambdaReturnUnfold(x, lmbda, horizon, step);
    OneStepTargetBefore(x, lmbda, horizon, step);
    OneStepAlgebra(x.rewards[step], x.doneMask[step], lmbda, x.values[step + 1], LambdaReturn(x, lmbda, horizon, step + 1));
  }

  /** The weighted sum: the first one-step target, then lmbda * doneMask times the next weighted sum. */
  lemma WeightedSumSplit(x: Imagined, lmbda: real, horizon: int, step: nat)
    requires Shaped(x, horizon) && step < horizon - 2
    ensures WeightedSum(x, lmbda, horizon, step, step)
            == OneStepTarget(x, lmbda, horizon, step)
               + lmbda * x.doneMask[step] * WeightedSum(x, lmbda, horizon, step + 1, step + 1)
  {
    WeightedSumFirst(x, lmbda, horizon, step);
    WeightedSumShift(x, lmbda, horizon, step, step + 1);
    assert WeightedSum(x, lmbda, horizon, step, step)
           == OneStepTarget(x, lmbda, horizon, step) + WeightedSum(x, lmbda, horizon, step, step + 1);
    assert WeightedSum(x, lmbda, horizon, step, step + 1)
           == lmbda * x.doneMask[step] * WeightedSum(x, lmbda, horizon, step + 1, step + 1);
  }

  /** One step back: if the recurrence matches the weighted sum at `step + 1`, it matches at `step`. */
  lemma LambdaReturnStep(x: Imagined, lmbda: real, horizon: int, step: nat)
    requires Shaped(x, horizon) && step < horizon - 2
    requires LambdaReturn(x, lmbda, horizon, step + 1) == WeightedSum(x, lmbda, horizon, step + 1, step + 1)
    ensures LambdaReturn(x, lmbda, horizon, step) == WeightedSum(x, lmbda, horizon, step, step)
  {
    LambdaReturnSplit(x, lmbda, horizon, step);
    WeightedSumSplit(x, lmbda, horizon, step);
  }

  /** The recurrence computes the lambda-weighted sum of n-step targets. */
  lemma {:induction false} LambdaReturnIsWeightedSum(x: Imagined, lmbda: real, horizon: int, step: nat)
    requires Shaped(x, horizon) && step <= horizon - 2
    ensures LambdaReturn(x, lmbda, horizon, step) == WeightedSum(x, lmbda, horizon, step, step)
    decreases horizon - step
  {
    if step < horizon - 2 {
      LambdaReturnIsWeightedSum(x, lmbda, horizon, step + 1);
      LambdaReturnStep(x, lmbda, horizon, step);
    } else {
      WeightedSumFirst(x, lmbda, horizon, step);
    }
  }

  /** Distributing doneMask over the blend of the next value and the next return. */
  lemma OneStepAlgebra(r: real, d: real, lmbda: real, v: real, later: real)
    ensures r + d * ((1.0 - lmbda) * v + lmbda * later) == (r + d * ((1.0 - lmbda) * v)) + lmbda * d * later
  {
    assert d * ((1.0 - lmbda) * v + lmbda * later) == d * ((1.0 - lmbda) * v) + d * (lmbda * later);
    assert d * (lmbda * later) == lmbda * d * later;
  }
}
