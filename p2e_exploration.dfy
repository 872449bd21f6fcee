/**
 * The bookkeeping of the Plan2Explore (Dreamer-V3) exploration driver: the
 * observation-key validation, the per-critic rewrite of the metric
 * configuration, the action shift and `is_first` forcing of a training batch,
 * the replay-buffer wrap-around used by `restart_on_exception`, the reset of
 * finished environments and the counters of the update loop.
 */
module P2EExploration {
  import opened Wrappers
  import opened Strings
  import opened SeqMath
  import opened TrainingCounters

  // ---------------------------------------------------------------------------
  // Observation-key validation

  /** The four key lists of the configuration. */
  datatype ObsKeys = ObsKeys(cnnEncoder: seq<string>, mlpEncoder: seq<string>,
                             cnnDecoder: seq<string>, mlpDecoder: seq<string>)

  function AsSet(keys: seq<string>): set<string> {
    set k | k in keys
  }

  /**
   * The checks of `main`, in order: a non-Dict observation space, no encoder
   * key at all, encoder and decoder disjoint for both CNN and MLP keys, a CNN
   * decoder key that is not encoded, an MLP decoder key that is not encoded.
   * All of them raise RuntimeError.
   */
  function ValidateKeys(obsIsDict: bool, k: ObsKeys): (r: Outcome)
    ensures r == Pass <==>
      && obsIsDict
      && (k.cnnEncoder != [] || k.mlpEncoder != [])
      && (AsSet(k.cnnEncoder) * AsSet(k.cnnDecoder) != {} || AsSet(k.mlpEncoder) * AsSet(k.mlpDecoder) != {})
      && AsSet(k.cnnDecoder) <= AsSet(k.cnnEncoder)
      && AsSet(k.mlpDecoder) <= AsSet(k.mlpEncoder)
    ensures r.Fail? ==> r.error.RuntimeError?
    ensures !obsIsDict ==> r == Fail(RuntimeError("Unexpected observation type, should be of type Dict"))
  {
    if !obsIsDict then
      Fail(RuntimeError("Unexpected observation type, should be of type Dict"))
    else if k.cnnEncoder == [] && k.mlpEncoder == [] then
      Fail(RuntimeError("You should specify at least one CNN keys or MLP keys from the cli"))
    else if AsSet(k.cnnEncoder) * AsSet(k.cnnDecoder) == {} && AsSet(k.mlpEncoder) * AsSet(k.mlpDecoder) == {} then
      Fail(RuntimeError("The CNN keys or the MLP keys of the encoder and decoder must not be disjointed"))
    else if !(AsSet(k.cnnDecoder) <= AsSet(k.cnnEncoder)) then
      Fail(RuntimeError("The CNN keys of the decoder must be contained in the encoder ones"))
    else if !(AsSet(k.mlpDecoder) <= AsSet(k.mlpEncoder)) then
      Fail(RuntimeError("The MLP keys of the decoder must be contained in the encoder ones"))
    else
      Pass
  }

  // ---------------------------------------------------------------------------
  // Metric-key rewrite

  /** An exploration critic: its key in `critics_exploration` and its `reward_type`. */
  datatype Critic = Critic(name: string, rewardType: string)

  const IntrinsicKey: string := "Rewards/intrinsic"

  /** The generic exploration metrics, in the order the driver handles them. */
  const GenericKeys: seq<string> := [
    "Loss/value_loss_exploration",
    "Values_exploration/predicted_values",
    "Values_exploration/lambda_values",
    "Grads/critic_exploration",
    IntrinsicKey
  ]

  predicate IsGeneric(key: string) {
    key in GenericKeys
  }

  /** The intrinsic-reward metric is copied only for intrinsic critics; the others for every critic. */
  predicate CopiesFor(c: Critic, g: string) {
    g != IntrinsicKey || c.rewardType == "intrinsic"
  }

  /** The per-critic name of a generic metric. */
  function CriticKey(g: string, c: Critic): string {
    g + "_" + c.name
  }

  /** Copy one generic metric, if present, to its per-critic key. */
  function CopyKey(m: map<string, string>, g: string, c: Critic): map<string, string> {
    if g in m && CopiesFor(c, g) then m[CriticKey(g, c) := m[g]] else m
  }

  /** Everything the driver does for one critic. */
  function CopyForCritic(m: map<string, string>, c: Critic): map<string, string> {
    CopyKey(CopyKey(CopyKey(CopyKey(CopyKey(m, GenericKeys[0], c), GenericKeys[1], c), GenericKeys[2], c),
                    GenericKeys[3], c), GenericKeys[4], c)
  }

  /** The copies for the critics in order. */
  function CopyAll(m: map<string, string>, critics: seq<Critic>): map<string, string> {
    if critics == [] then m else CopyForCritic(CopyAll(m, critics[..|critics| - 1]), critics[|critics| - 1])
  }

  /** The metric configuration after the rewrite: all copies made, then the generic keys popped. */
  function RewrittenMetrics(m: map<string, string>, critics: seq<Critic>): map<string, string> {
    CopyAll(m, critics) - AsSet(GenericKeys)
  }

  /** No generic key followed by `_` begins another generic key. */
  lemma GenericKeysDoNotExtend(g1: string, g2: string)
    requires IsGeneric(g1) && IsGeneric(g2) && |g1| < |g2|
    ensures g2[..|g1|] != g1
  {
    var p := g2[..|g1|];
    assert p[0] == g2[0];
    if |g1| > 19 {
      assert p[19] == g2[19];
    }
  }

  /** A per-critic name never spells a generic key, and it determines the generic key it came from. */
  lemma CriticKeyInjective(g1: string, g2: string, c1: Critic, c2: Critic)
    requires IsGeneric(g1) && IsGeneric(g2)
    ensures !IsGeneric(CriticKey(g1, c1))
    ensures CriticKey(g1, c1) == CriticKey(g2, c2) ==> g1 == g2
  {
    var x := CriticKey(g1, c1);
    assert x[..|g1|] == g1;
    if IsGeneric(x) {
      GenericKeysDoNotExtend(g1, x);
    }
    if x == CriticKey(g2, c2) {
      assert x[..|g2|] == g2;
      if |g1| < |g2| {
        assert g2[..|g1|] == x[..|g1|];
        GenericKeysDoNotExtend(g1, g2);
      } else if |g2| < |g1| {
        assert g1[..|g2|] == x[..|g2|];
        GenericKeysDoNotExtend(g2, g1);
      }
    }
  }

  /** Two metric configurations that agree on the generic keys. */
  ghost predicate GenericAgree(a: map<string, string>, b: map<string, string>) {
    forall g :: IsGeneric(g) ==> (g in a <==> g in b) && (g in b ==> a[g] == b[g])
  }

  lemma CopyKeyKeepsGeneric(m: map<string, string>, g: string, c: Critic)
    requires IsGeneric(g)
    ensures GenericAgree(CopyKey(m, g, c), m)
  {
    CriticKeyInjective(g, g, c, c);
  }

  lemma CopyForCriticKeepsGeneric(m: map<string, string>, c: Critic)
    ensures GenericAgree(CopyForCritic(m, c), m)
  {
    var m0 := CopyKey(m, GenericKeys[0], c);
    var m1 := CopyKey(m0, GenericKeys[1], c);
    var m2 := CopyKey(m1, GenericKeys[2], c);
    var m3 := CopyKey(m2, GenericKeys[3], c);
    CopyKeyKeepsGeneric(m, GenericKeys[0], c);
    CopyKeyKeepsGeneric(m0, GenericKeys[1], c);
    CopyKeyKeepsGeneric(m1, GenericKeys[2], c);
    CopyKeyKeepsGeneric(m2, GenericKeys[3], c);
    CopyKeyKeepsGeneric(m3, GenericKeys[4], c);
  }

  /** The copy phase leaves every generic key, and its value, as it was. */
  lemma {:induction false} CopyAllKeepsGeneric(m: map<string, string>, critics: seq<Critic>)
    ensures GenericAgree(CopyAll(m, critics), m)
  {
    if critics != [] {
      CopyAllKeepsGeneric(m, critics[..|critics| - 1]);
      CopyForCriticKeepsGeneric(CopyAll(m, critics[..|critics| - 1]), critics[|critics| - 1]);
    }
  }

  /** A key that some critic's copy of some generic metric is written to. */
  ghost predicate IsCopyKey(key: string, critics: seq<Critic>) {
    exists i, j :: 0 <= i < |critics| && 0 <= j < |GenericKeys| && key == CriticKey(GenericKeys[j], critics[i])
  }

  /** A key that is not a per-critic copy is not touched by the copy phase. */
  lemma {:induction false} CopyAllKeepsOthers(m: map<string, string>, critics: seq<Critic>, key: string)
    requires !IsCopyKey(key, critics)
    ensures key in CopyAll(m, critics) <==> key in m
    ensures key in m ==> CopyAll(m, critics)[key] == m[key]
  {
    if critics != [] {
      var init := critics[..|critics| - 1];
      assert !IsCopyKey(key, init) by {
        forall i, j | 0 <= i < |init| && 0 <= j < |GenericKeys|
          ensures key != CriticKey(GenericKeys[j], init[i])
        {
          assert init[i] == critics[i];
        }
      }
      CopyAllKeepsOthers(m, init, key);
      var c := critics[|critics| - 1];
      assert forall j :: 0 <= j < |GenericKeys| ==> key != CriticKey(GenericKeys[j], c);
      CopyForCriticKeepsOthers(CopyAll(m, init), c, key);
    }
  }

  /** The copies for one critic touch no key other than that critic's copies. */
  lemma CopyForCriticKeepsOthers(mm: map<string, string>, c: Critic, key: string)
    requires forall j :: 0 <= j < |GenericKeys| ==> key != CriticKey(GenericKeys[j], c)
    ensures key in CopyForCritic(mm, c) <==> key in mm
    ensures key in mm ==> CopyForCritic(mm, c)[key] == mm[key]
  {
    assert key != CriticKey(GenericKeys[0], c) && key != CriticKey(GenericKeys[1], c);
    assert key != CriticKey(GenericKeys[2], c) && key != CriticKey(GenericKeys[3], c);
    assert key != CriticKey(GenericKeys[4], c);
  }

  /** `key` holds the value `v`. */
  predicate Holds(m: map<string, string>, key: string, v: string) {
    key in m && m[key] == v
  }

  /** A later copy never overwrites an earlier copy of a generic metric with a different value. */
  lemma CopyKeyKeepsCopy(mm: map<string, string>, m: map<string, string>, g: string, c: Critic, j: nat, d: Critic)
    requires IsGeneric(g) && j < |GenericKeys| && GenericAgree(mm, m)
    requires GenericKeys[j] in m && Holds(mm, CriticKey(GenericKeys[j], d), m[GenericKeys[j]])
    ensures Holds(CopyKey(mm, g, c), CriticKey(GenericKeys[j], d), m[GenericKeys[j]])
  {
    CriticKeyInjective(g, GenericKeys[j], c, d);
  }

  /** Copying a present generic metric for a critic that takes it makes the copy. */
  lemma CopyKeyMakesCopy(mm: map<string, string>, m: map<string, string>, j: nat, c: Critic)
    requires j < |GenericKeys| && GenericAgree(mm, m)
    requires GenericKeys[j] in m && CopiesFor(c, GenericKeys[j])
    ensures Holds(CopyKey(mm, GenericKeys[j], c), CriticKey(GenericKeys[j], c), m[GenericKeys[j]])
  {
  }

  /** The copy of generic metric j for critic d, once made, survives the copies for critic c. */
  lemma CopyForCriticKeepsCopy(mm: map<string, string>, m: map<string, string>, c: Critic, j: nat, d: Critic)
    requires j < |GenericKeys| && GenericAgree(mm, m)
    requires GenericKeys[j] in m && Holds(mm, CriticKey(GenericKeys[j], d), m[GenericKeys[j]])
    ensures Holds(CopyForCritic(mm, c), CriticKey(GenericKeys[j], d), m[GenericKeys[j]])
  {
    var m0 := CopyKey(mm, GenericKeys[0], c);
    var m1 := CopyKey(m0, GenericKeys[1], c);
    var m2 := CopyKey(m1, GenericKeys[2], c);
    var m3 := CopyKey(m2, GenericKeys[3], c);
    CopyKeyKeepsGeneric(mm, GenericKeys[0], c);
    CopyKeyKeepsGeneric(m0, GenericKeys[1], c);
    CopyKeyKeepsGeneric(m1, GenericKeys[2], c);
    CopyKeyKeepsGeneric(m2, GenericKeys[3], c);
    CopyKeyKeepsCopy(mm, m, GenericKeys[0], c, j, d);
    CopyKeyKeepsCopy(m0, m, GenericKeys[1], c, j, d);
    CopyKeyKeepsCopy(m1, m, GenericKeys[2], c, j, d);
    CopyKeyKeepsCopy(m2, m, GenericKeys[3], c, j, d);
    CopyKeyKeepsCopy(m3, m, GenericKeys[4], c, j, d);
  }

  /**
   * One copy for critic c, of generic metric l, keeps the generic metrics and
   * makes (l == j) or keeps (l > j) the critic's copy of generic metric j.
   */
  lemma CopyKeyStage(mm: map<string, string>, m: map<string, string>, l: nat, j: nat, c: Critic)
    requires l < |GenericKeys| && j < |GenericKeys| && GenericAgree(mm, m)
    requires GenericKeys[j] in m && CopiesFor(c, GenericKeys[j])
    requires l > j ==> Holds(mm, CriticKey(GenericKeys[j], c), m[GenericKeys[j]])
    ensures GenericAgree(CopyKey(mm, GenericKeys[l], c), m)
    ensures l >= j ==> Holds(CopyKey(mm, GenericKeys[l], c), CriticKey(GenericKeys[j], c), m[GenericKeys[j]])
  {
    CopyKeyKeepsGeneric(mm, GenericKeys[l], c);
    if l == j {
      CopyKeyMakesCopy(mm, m, j, c);
    } else if l > j {
      CopyKeyKeepsCopy(mm, m, GenericKeys[l], c, j, c);
    }
  }

  /** The copies for critic c include its copy of every present generic metric it takes. */
  lemma CopyForCriticMakesCopy(mm: map<string, string>, m: map<string, string>, c: Critic, j: nat)
    requires j < |GenericKeys| && GenericAgree(mm, m)
    requires GenericKeys[j] in m && CopiesFor(c, GenericKeys[j])
    ensures Holds(CopyForCritic(mm, c), CriticKey(GenericKeys[j], c), m[GenericKeys[j]])
  {
    var m0 := CopyKey(mm, GenericKeys[0], c);
    CopyKeyStage(mm, m, 0, j, c);
    var m1 := CopyKey(m0, GenericKeys[1], c);
    CopyKeyStage(m0, m, 1, j, c);
    var m2 := CopyKey(m1, GenericKeys[2], c);
    CopyKeyStage(m1, m, 2, j, c);
    var m3 := CopyKey(m2, GenericKeys[3], c);
    CopyKeyStage(m2, m, 3, j, c);
    CopyKeyStage(m3, m, 4, j, c);
  }

  /** Every critic receives a copy of every generic metric present (the intrinsic one only for intrinsic critics). */
  lemma {:induction false} CopyAllCopies(m: map<string, string>, critics: seq<Critic>, i: nat, j: nat)
    requires i < |critics| && j < |GenericKeys|
    requires GenericKeys[j] in m && CopiesFor(critics[i], GenericKeys[j])
    ensures Holds(CopyAll(m, critics), CriticKey(GenericKeys[j], critics[i]), m[GenericKeys[j]])
  {
    var init := critics[..|critics| - 1];
    var c := critics[|critics| - 1];
    var before := CopyAll(m, init);
    CopyAllKeepsGeneric(m, init);
    if i < |critics| - 1 {
      assert critics[i] == init[i];
      CopyAllCopies(m, init, i, j);
      CopyForCriticKeepsCopy(before, m, c, j, critics[i]);
    } else {
      CopyForCriticMakesCopy(before, m, c, j);
    }
  }

  /**
   * The rewrite as a whole: the five generic keys are gone; each critic has its
   * own copy of every generic metric that was configured (the intrinsic one
   * only for intrinsic critics); every other key is untouched.
   */
  lemma RewrittenMetricsProperties(m: map<string, string>, critics: seq<Critic>)
    ensures forall g :: IsGeneric(g) ==> g !in RewrittenMetrics(m, critics)
    ensures forall i, j :: 0 <= i < |critics| && 0 <= j < |GenericKeys| && GenericKeys[j] in m
                           && CopiesFor(critics[i], GenericKeys[j]) ==>
      Holds(RewrittenMetrics(m, critics), CriticKey(GenericKeys[j], critics[i]), m[GenericKeys[j]])
    ensures forall key :: !IsGeneric(key) && !IsCopyKey(key, critics) ==>
      && (key in RewrittenMetrics(m, critics) <==> key in m)
      && (key in m ==> RewrittenMetrics(m, critics)[key] == m[key])
  {
    forall i, j | 0 <= i < |critics| && 0 <= j < |GenericKeys| && GenericKeys[j] in m
                  && CopiesFor(critics[i], GenericKeys[j])
      ensures Holds(RewrittenMetrics(m, critics), CriticKey(GenericKeys[j], critics[i]), m[GenericKeys[j]])
    {
      CopyAllCopies(m, critics, i, j);
      CriticKeyInjective(GenericKeys[j], GenericKeys[j], critics[i], critics[i]);
    }
    forall key | !IsGeneric(key) && !IsCopyKey(key, critics)
      ensures key in RewrittenMetrics(m, critics) <==> key in m
      ensures key in m ==> RewrittenMetrics(m, critics)[key] == m[key]
    {
      CopyAllKeepsOthers(m, critics, key);
    }
  }

  /** `cfg.metric.aggregator.metrics`, rewritten in place. */
  class AggregatorConfig {
    var metrics: map<string, string>

    constructor (metrics: map<string, string>)
      ensures this.metrics == metrics
    {
      this.metrics := metrics;
    }

    /** Add the per-critic metric keys, then pop the generic ones. */
    method AddCriticMetrics(critics: seq<Critic>)
      modifies this
      ensures metrics == RewrittenMetrics(old(metrics), critics)
    {
      for i := 0 to |critics|
        invariant metrics == CopyAll(old(metrics), critics[..i])
      {
        CopyForCriticInPlace(critics[i]);
        assert critics[..i + 1][..i] == critics[..i];
      }
      assert critics[..|critics|] == critics;
      PopGeneric();
    }

    /** The copies made for one critic. */
    method CopyForCriticInPlace(c: Critic)
      modifies this
      ensures metrics == CopyForCritic(old(metrics), c)
    {
      var ms := metrics;
      var g := "Loss/value_loss_exploration";
      if g in ms {
        ms := ms[g + "_" + c.name := ms[g]];
      }
      assert ms == CopyKey(metrics, GenericKeys[0], c);
      ghost var m1 := ms;
      g := "Values_exploration/predicted_values";
      if g in ms {
        ms := ms[g + "_" + c.name := ms[g]];
      }
      assert ms == CopyKey(m1, GenericKeys[1], c);
      ghost var m2 := ms;
      g := "Values_exploration/lambda_values";
      if g in ms {
        ms := ms[g + "_" + c.name := ms[g]];
      }
      assert ms == CopyKey(m2, GenericKeys[2], c);
      ghost var m3 := ms;
      g := "Grads/critic_exploration";
      if g in ms {
        ms := ms[g + "_" + c.name := ms[g]];
      }
      assert ms == CopyKey(m3, GenericKeys[3], c);
      ghost var m4 := ms;
      g := "Rewards/intrinsic";
      if c.rewardType == "intrinsic" && g in ms {
        ms := ms[g + "_" + c.name := ms[g]];
      }
      assert ms == CopyKey(m4, GenericKeys[4], c);
      metrics := ms;
    }

    /** `metrics.pop(key, None)` for the five generic keys. */
    method PopGeneric()
      modifies this
      ensures metrics == old(metrics) - AsSet(GenericKeys)
    {
      metrics := metrics - {"Loss/value_loss_exploration"};
      metrics := metrics - {"Values_exploration/predicted_values"};
      metrics := metrics - {"Values_exploration/lambda_values"};
      metrics := metrics - {"Grads/critic_exploration"};
      metrics := metrics - {"Rewards/intrinsic"};
    }
  }

  // ---------------------------------------------------------------------------
  // The training batch: action shift and `is_first` forcing

  /**
   * `cat(zeros_like(actions[:1]), actions[:-1])`: the action that led to each
   * step, with a zero action before the first one.
   */
  function ShiftActions(actions: seq<seq<real>>): (r: seq<seq<real>>)
    ensures |r| == |actions|
    ensures actions != [] ==> r[0] == Zeros(|actions[0]|)
    ensures forall t :: 1 <= t < |actions| ==> r[t] == actions[t - 1]
  {
    if actions == [] then [] else [Zeros(|actions[0]|)] + actions[..|actions| - 1]
  }

  /** The shift loses exactly the last action: shifting back recovers all the others. */
  lemma ShiftActionsDropsLast(actions: seq<seq<real>>)
    requires actions != []
    ensures ShiftActions(actions)[1..] == actions[..|actions| - 1]
  {
  }

  /**
   * `data["is_first"][0, :] = 1`: every sequence of the batch starts an
   * episode. A batch with no time step raises IndexError and is not changed.
   */
  method ForceFirst(isFirst: array2<real>) returns (r: Outcome)
    modifies isFirst
    ensures isFirst.Length0 == 0 ==> r.Fail? && r.error.IndexError? && unchanged(isFirst)
    ensures isFirst.Length0 > 0 ==> r == Pass
    ensures forall b :: 0 <= b < isFirst.Length1 && isFirst.Length0 > 0 ==> isFirst[0, b] == 1.0
    ensures forall t, b :: 1 <= t < isFirst.Length0 && 0 <= b < isFirst.Length1 ==> isFirst[t, b] == old(isFirst[t, b])
  {
    if isFirst.Length0 == 0 {
      return Fail(IndexError("index 0 is out of bounds for dimension 0 with size 0"));
    }
    for b := 0 to isFirst.Length1
      invariant forall j :: 0 <= j < b ==> isFirst[0, j] == 1.0
      invariant forall t, j :: 1 <= t < isFirst.Length0 && 0 <= j < isFirst.Length1 ==> isFirst[t, j] == old(isFirst[t, j])
    {
      isFirst[0, b] := 1.0;
    }
    r := Pass;
  }

  // ---------------------------------------------------------------------------
  // Replay buffer wrap-around and `restart_on_exception`

  /**
   * `(pos - 1) % buffer_size`: the slot written last by a circular buffer whose
   * next write goes to `pos` (Python's `%` with a positive divisor is never
   * negative, like Dafny's).
   */
  function LastInsertedIndex(pos: int, size: nat): (r: nat)
    requires size > 0
    ensures r < size
    ensures (r + 1) % size == pos % size
    ensures pos == 0 ==> r == size - 1
    ensures 0 < pos <= size ==> r == pos - 1
  {
    WrapAround(pos, size);
    (pos - 1) % size
  }

  lemma WrapAround(pos: int, size: nat)
    requires size > 0
    ensures var r := (pos - 1) % size;
      && ((r + 1) % size == pos % size)
      && (pos == 0 ==> r == size - 1)
      && (0 < pos <= size ==> r == pos - 1)
  {
    var r := (pos - 1) % size;
    var q := (pos - 1) / size;
    assert pos - 1 == q * size + r;
    if r + 1 < size {
      ModOfMultiplePlus(q, r + 1, size);
      ModOfMultiplePlus(0, r + 1, size);
    } else {
      ModOfMultiplePlus(q + 1, 0, size);
      ModOfMultiplePlus(1, 0, size);
    }
    if pos == 0 {
      ModOfMultiplePlus(-1, size - 1, size);
    }
    if 0 < pos <= size {
      ModOfMultiplePlus(0, pos - 1, size);
    }
  }

  /** Division with remainder is unique. */
  lemma ModOfMultiplePlus(q: int, r: int, size: int)
    requires size > 0 && 0 <= r < size
    ensures (q * size + r) % size == r && (q * size + r) / size == q
  {
    var x := q * size + r;
    var d := q - x / size;
    assert d * size == x % size - r;
    assert -size < d * size < size;
  }

  /** The done and is_first columns of each environment's circular buffer. */
  class SequentialBuffers {
    const size: nat
    var pos: seq<int>
    var dones: seq<seq<real>>
    var isFirst: seq<seq<real>>

    ghost predicate Valid()
      reads this
    {
      && size > 0
      && |dones| == |pos| && |isFirst| == |pos|
      && (forall e :: 0 <= e < |pos| ==> |dones[e]| == size)
      && (forall e :: 0 <= e < |pos| ==> |isFirst[e]| == size)
    }

    /** Buffers of a positive size with one `dones` and one `is_first` column of that size per environment. */
    constructor (size: nat, pos: seq<int>, dones: seq<seq<real>>, isFirst: seq<seq<real>>)
      requires size > 0 && |dones| == |pos| && |isFirst| == |pos|
      requires forall e :: 0 <= e < |pos| ==> |dones[e]| == size && |isFirst[e]| == size
      ensures this.size == size && this.pos == pos && this.dones == dones && this.isFirst == isFirst
      ensures Valid()
    {
      this.size := size;
      this.pos := pos;
      this.dones := dones;
      this.isFirst := isFirst;
    }
  }

  /** The per-environment values of the current step (`step_data`), one entry per environment. */
  class StepData {
    var dones: seq<real>
    var rewards: seq<real>
    var isFirst: seq<real>

    ghost predicate Valid(numEnvs: nat)
      reads this
    {
      |dones| == numEnvs && |rewards| == numEnvs && |isFirst| == numEnvs
    }

    /** The state before the first step: no episode has ended, every one is starting. */
    constructor (numEnvs: nat)
      ensures Valid(numEnvs)
      ensures forall e :: 0 <= e < numEnvs ==> dones[e] == 0.0 && rewards[e] == 0.0 && isFirst[e] == 1.0
    {
      dones := Zeros(numEnvs);
      rewards := Zeros(numEnvs);
      isFirst := seq(numEnvs, _ => 1.0);
    }
  }

  /** An environment that raised and was restarted without being done. */
  predicate Restarted(roe: seq<bool>, envDones: seq<bool>, e: int)
    requires |roe| == |envDones|
  {
    0 <= e < |roe| && roe[e] && !envDones[e]
  }

  /** Row `row` with the entry at `slot` replaced by `v`. */
  function SetAt(row: seq<real>, slot: nat, v: real): (r: seq<real>)
    requires slot < |row|
    ensures |r| == |row| && r[slot] == v && forall i :: 0 <= i < |row| && i != slot ==> r[i] == row[i]
  {
    row[slot := v]
  }

  /**
   * After a step, `is_first` is cleared; then every environment that restarted
   * after an exception without being done gets its last stored transition
   * marked as done and not first, and starts a new episode in the step data.
   */
  method MarkRestarts(rb: SequentialBuffers, step: StepData, roe: seq<bool>, envDones: seq<bool>)
    requires rb.Valid() && step.Valid(|rb.pos|) && |roe| == |rb.pos| && |envDones| == |roe|
    modifies rb, step
    ensures rb.Valid() && step.Valid(|rb.pos|)
    ensures rb.pos == old(rb.pos) && step.dones == old(step.dones) && step.rewards == old(step.rewards)
    ensures forall e :: 0 <= e < |roe| ==>
      && step.isFirst[e] == (if Restarted(roe, envDones, e) then 1.0 else 0.0)
      && rb.dones[e] == (if Restarted(roe, envDones, e)
                         then SetAt(old(rb.dones[e]), LastInsertedIndex(rb.pos[e], rb.size), 1.0)
                         else old(rb.dones[e]))
      && rb.isFirst[e] == (if Restarted(roe, envDones, e)
                           then SetAt(old(rb.isFirst[e]), LastInsertedIndex(rb.pos[e], rb.size), 0.0)
                           else old(rb.isFirst[e]))
  {
    step.isFirst := Zeros(|step.dones|);
    for i := 0 to |roe|
      invariant rb.Valid() && step.Valid(|rb.pos|) && rb.pos == old(rb.pos)
      invariant step.dones == old(step.dones) && step.rewards == old(step.rewards)
      invariant forall e :: 0 <= e < |roe| ==>
        && step.isFirst[e] == (if e < i && Restarted(roe, envDones, e) then 1.0 else 0.0)
        && rb.dones[e] == (if e < i && Restarted(roe, envDones, e)
                           then SetAt(old(rb.dones[e]), LastInsertedIndex(rb.pos[e], rb.size), 1.0)
                           else old(rb.dones[e]))
        && rb.isFirst[e] == (if e < i && Restarted(roe, envDones, e)
                             then SetAt(old(rb.isFirst[e]), LastInsertedIndex(rb.pos[e], rb.size), 0.0)
                             else old(rb.isFirst[e]))
    {
      if roe[i] && !envDones[i] {
        var last := LastInsertedIndex(rb.pos[i], rb.size);
        rb.dones := rb.dones[i := SetAt(rb.dones[i], last, 1.0)];
        rb.isFirst := rb.isFirst[i := SetAt(rb.isFirst[i], last, 0.0)];
        step.isFirst := step.isFirst[i := 1.0];
      }
    }
  }

  // ---------------------------------------------------------------------------
  // Reset of finished environments

  /** `dones.nonzero()`: the finished environments, in increasing order. */
  function DoneIndices(dones: seq<real>): (r: seq<nat>)
    ensures forall k :: 0 <= k < |r| ==> r[k] < |dones| && dones[r[k]] != 0.0
    ensures forall e :: 0 <= e < |dones| && dones[e] != 0.0 ==> e in r
    ensures forall a, b :: 0 <= a < b < |r| ==> r[a] < r[b]
  {
    if dones == [] then []
    else
      var init := DoneIndices(dones[..|dones| - 1]);
      assert forall k :: 0 <= k < |init| ==> dones[..|dones| - 1][init[k]] == dones[init[k]];
      if dones[|dones| - 1] != 0.0 then init + [|dones| - 1] else init
  }

  /** The transition added to the buffer for the finished environments. */
  datatype ResetRecord = ResetRecord(envs: seq<nat>, dones: seq<real>, isFirst: seq<real>,
                                     actions: seq<seq<real>>, rewards: seq<real>)

  /**
   * The step stores the new dones and (clipped) rewards; the finished
   * environments get a reset record (done, not first, zero action, their
   * reward) and then start over in the step data: reward and done cleared,
   * is_first set. Returns the record when some environment finished.
   */
  method RecordOutcome(step: StepData, envDones: seq<real>, rewards: seq<real>, actionSize: nat)
    returns (record: Option<ResetRecord>)
    requires |envDones| == |rewards| == |step.isFirst|
    modifies step
    ensures step.Valid(|envDones|)
    ensures forall e :: 0 <= e < |envDones| ==>
      && step.dones[e] == 0.0
      && step.rewards[e] == (if envDones[e] != 0.0 then 0.0 else rewards[e])
      && step.isFirst[e] == (if envDones[e] != 0.0 then 1.0 else old(step.isFirst[e]))
    ensures record.Some? <==> exists e :: 0 <= e < |envDones| && envDones[e] != 0.0
    ensures record.Some? ==>
      var idx := DoneIndices(envDones);
      && record.value.envs == idx
      && |record.value.dones| == |idx| && |record.value.isFirst| == |idx|
      && |record.value.actions| == |idx| && |record.value.rewards| == |idx|
      && forall k :: 0 <= k < |idx| ==>
        && record.value.dones[k] == 1.0 && record.value.isFirst[k] == 0.0
        && record.value.actions[k] == Zeros(actionSize)
        && record.value.rewards[k] == rewards[idx[k]]
  {
    step.dones := envDones;
    step.rewards := rewards;
    var idx := DoneIndices(envDones);
    if |idx| == 0 {
      return None;
    }
    assert idx[0] < |envDones| && envDones[idx[0]] != 0.0;
    record := Some(ResetRecord(idx, seq(|idx|, _ => 1.0), Zeros(|idx|), seq(|idx|, _ => Zeros(actionSize)),
                               seq(|idx|, k requires 0 <= k < |idx| => rewards[idx[k]])));
    StartOver(step, idx, |envDones|);
  }

  /** The listed environments start a new episode: reward and done cleared, is_first set. */
  method StartOver(step: StepData, idx: seq<nat>, numEnvs: nat)
    requires step.Valid(numEnvs) && forall k :: 0 <= k < |idx| ==> idx[k] < numEnvs
    modifies step
    ensures step.Valid(numEnvs)
    ensures forall e :: 0 <= e < numEnvs ==>
      && step.dones[e] == (if e in idx then 0.0 else old(step.dones[e]))
      && step.rewards[e] == (if e in idx then 0.0 else old(step.rewards[e]))
      && step.isFirst[e] == (if e in idx then 1.0 else old(step.isFirst[e]))
  {
    for k := 0 to |idx|
      invariant step.Valid(numEnvs)
      invariant forall e :: 0 <= e < numEnvs ==>
        && step.dones[e] == (if e in idx[..k] then 0.0 else old(step.dones[e]))
        && step.rewards[e] == (if e in idx[..k] then 0.0 else old(step.rewards[e]))
        && step.isFirst[e] == (if e in idx[..k] then 1.0 else old(step.isFirst[e]))
    {
      step.rewards := step.rewards[idx[k] := 0.0];
      step.dones := step.dones[idx[k] := 0.0];
      step.isFirst := step.isFirst[idx[k] := 1.0];
      assert idx[..k + 1] == idx[..k] + [idx[k]];
    }
    assert idx[..|idx|] == idx;
  }

  // ---------------------------------------------------------------------------
  // The update loop

  /** The configuration values the update loop reads, already scaled to updates. */
  datatype LoopConfig = LoopConfig(numEnvs: nat, worldSize: nat, numUpdates: nat, learningStarts: nat,
                                   trainEvery: nat, logLevel: int, logEvery: int, checkpointEvery: int,
                                   saveLast: bool, explDecay: bool, perRankBatchSize: int,
                                   pretrainSteps: nat, gradientSteps: nat)

  /** At least one environment and one rank, as every launched run has. */
  predicate ValidConfig(c: LoopConfig) {
    c.numEnvs > 0 && c.worldSize > 0
  }

  function StepsPerUpdate(c: LoopConfig): nat {
    PolicyStepsPerUpdate(c.numEnvs, c.worldSize)
  }

  /** `updates_before_training` after a training: `train_every // policy_steps_per_update`. */
  function TrainCountdown(c: LoopConfig): int
    requires ValidConfig(c)
  {
    c.trainEvery / StepsPerUpdate(c)
  }

  /** The counters the loop carries from one update to the next. */
  datatype Counters = Counters(policyStep: int, countdown: int, trainStep: int, lastLog: int,
                               lastCheckpoint: int, explDecaySteps: int)

  /** Training happens once learning has started and the countdown, already decremented, has run out. */
  predicate Trains(c: LoopConfig, countdown: int, update: int) {
    update >= c.learningStarts && countdown <= 0
  }

  /** Number of batches sampled for a training: the pretraining steps on the first update that trains. */
  function SampleCount(c: LoopConfig, update: int): nat {
    if update == c.learningStarts then c.pretrainSteps else c.gradientSteps
  }

  /** One iteration of the loop on the counters. */
  function Next(c: LoopConfig, s: Counters, update: int): Counters
    requires ValidConfig(c)
  {
    var policyStep := s.policyStep + StepsPerUpdate(c);
    var countdown := s.countdown - 1;
    var trains := Trains(c, countdown, update);
    var lastLog := if ShouldLog(c.logLevel, policyStep, s.lastLog, c.logEvery, update, c.numUpdates)
                   then policyStep else s.lastLog;
    var lastCheckpoint := if ShouldCheckpoint(c.checkpointEvery, policyStep, s.lastCheckpoint, update, c.numUpdates,
                                              c.saveLast)
                          then policyStep else s.lastCheckpoint;
    Counters(policyStep,
             if trains then TrainCountdown(c) else countdown,
             if trains then s.trainStep + c.worldSize else s.trainStep,
             lastLog,
             lastCheckpoint,
             if trains && c.explDecay then s.explDecaySteps + 1 else s.explDecaySteps)
  }

  /** `n` iterations of the loop, for updates `update`, `update + 1`, ... */
  function Iterate(c: LoopConfig, s: Counters, update: int, n: nat): Counters
    requires ValidConfig(c)
  {
    if n == 0 then s else Next(c, Iterate(c, s, update, n - 1), update + n - 1)
  }

  /** While the countdown has not run out, the loop only counts down and never trains. */
  lemma {:induction false} CountdownWithoutTraining(c: LoopConfig, s: Counters, update: int, j: nat)
    requires ValidConfig(c) && j < s.countdown
    ensures Iterate(c, s, update, j).countdown == s.countdown - j
    ensures Iterate(c, s, update, j).trainStep == s.trainStep
  {
    if j > 0 {
      CountdownWithoutTraining(c, s, update, j - 1);
    }
  }

  /**
   * Training cadence: from a countdown of k, the loop trains for the first
   * time on the k-th update from now (the very next one when k <= 1),
   * provided learning has started by then.
   */
  lemma TrainsWhenCountdownRunsOut(c: LoopConfig, s: Counters, update: int)
    requires ValidConfig(c)
    requires var k := if s.countdown < 1 then 1 else s.countdown; update + k - 1 >= c.learningStarts
    ensures var k := if s.countdown < 1 then 1 else s.countdown;
      && Iterate(c, s, update, k - 1).trainStep == s.trainStep
      && Iterate(c, s, update, k).trainStep == s.trainStep + c.worldSize
      && Iterate(c, s, update, k).countdown == TrainCountdown(c)
  {
    var k := if s.countdown < 1 then 1 else s.countdown;
    if s.countdown >= 1 {
      CountdownWithoutTraining(c, s, update, k - 1);
    }
  }

  /**
   * The gaps the loop keeps: after any update, when logging is on, the last
   * log is at the current step or less than `log_every` steps behind, and the
   * same for checkpoints with `every > 0`; the last update is always logged,
   * and checkpointed when `save_last` is set.
   */
  lemma NextKeepsGaps(c: LoopConfig, s: Counters, update: int)
    requires ValidConfig(c)
    ensures var n := Next(c, s, update);
      && (c.logLevel > 0 ==> n.lastLog == n.policyStep || n.policyStep - n.lastLog < c.logEvery)
      && (c.checkpointEvery > 0 ==> n.lastCheckpoint == n.policyStep
                                    || n.policyStep - n.lastCheckpoint < c.checkpointEvery)
      && (c.logLevel > 0 && update == c.numUpdates ==> n.lastLog == n.policyStep)
      && (c.saveLast && update == c.numUpdates ==> n.lastCheckpoint == n.policyStep)
  {
  }

  /**
   * Random actions: before learning starts on a fresh run, unless the actor is
   * a MineDojo one, actions are sampled from the action space.
   */
  predicate UsesRandomActions(c: LoopConfig, update: int, resuming: bool, actorClass: string) {
    update <= c.learningStarts && !resuming && !Contains(Lower(actorClass), "minedojo")
  }

  /**
   * Random play and training overlap only on the update where learning starts,
   * and that training samples the pretraining steps.
   */
  lemma RandomPhaseTrainsOnlyAtStart(c: LoopConfig, countdown: int, update: int, resuming: bool, actorClass: string)
    requires UsesRandomActions(c, update, resuming, actorClass) && Trains(c, countdown, update)
    ensures update == c.learningStarts && SampleCount(c, update) == c.pretrainSteps
  {
  }

  /**
   * The mixing factor of the target critics at a training batch, or None when
   * they are not updated: `tau` is 1 on the first gradient step. Python's `%`
   * and Dafny's agree on whether the remainder is zero; a zero update
   * frequency raises.
   */
  function TargetUpdateTau(perRankGradientSteps: int, frequency: int, tau: real): (r: Result<Option<real>>)
    ensures frequency == 0 <==> r.Err?
    ensures r.Ok? ==> (r.value.Some? <==> perRankGradientSteps % frequency == 0)
    ensures r.Ok? && perRankGradientSteps == 0 ==> r.value == Some(1.0)
  {
    if frequency == 0 then Err(ZeroDivisionError("integer division or modulo by zero"))
    else if perRankGradientSteps % frequency == 0 then Ok(Some(if perRankGradientSteps == 0 then 1.0 else tau))
    else Ok(None)
  }

  /**
   * The exploration driver sets `per_rank_gradient_steps` to 0 and never
   * advances it, so in its loop every training batch copies the critics into
   * their targets outright (tau 1), whatever tau is configured.
   */
  lemma DriverAlwaysCopiesTargets(frequency: int, tau: real)
    requires frequency != 0
    ensures TargetUpdateTau(0, frequency, tau) == Ok(Some(1.0))
  {
  }

  /** What the exploration driver saves: the shared counters and the exploration-decay steps. */
  datatype ExplorationCheckpoint = ExplorationCheckpoint(counters: Checkpoint, explDecaySteps: int)

  /** Every checkpoint the loop writes resumes one update ahead as written, and consistently at the next update. */
  lemma SavedCheckpointResumes(c: LoopConfig, update: int, perRankBatchSize: int, lastLog: int, lastCheckpoint: int)
    requires ValidConfig(c)
    ensures Resumable(Save(update, c.worldSize, perRankBatchSize, lastLog, lastCheckpoint), c.numEnvs, c.worldSize)
  {
    SavedIsWrittenWith(update, c.worldSize, perRankBatchSize, lastLog, lastCheckpoint);
    WrittenWithIsResumable(Save(update, c.worldSize, perRankBatchSize, lastLog, lastCheckpoint),
                           c.numEnvs, c.worldSize);
  }

  /**
   * Resumed as the driver does it from a checkpoint written after `update`,
   * the loop's first iteration is `update` again, and it ends one update's
   * worth of steps beyond where the saved run ended that update.
   */
  lemma ResumedRunRepeatsUpdate(c: LoopConfig, update: int, lastLog: int, lastCheckpoint: int, explDecaySteps: int)
    requires ValidConfig(c)
    ensures var p := ResumeAsWritten(Save(update, c.worldSize, c.perRankBatchSize, lastLog, lastCheckpoint),
                                     c.numEnvs, c.worldSize);
      var first := Next(c, Counters(p.policyStep, TrainCountdown(c), 0, p.lastLog, p.lastCheckpoint, explDecaySteps),
                        p.startStep);
      && p.startStep == update
      && first.policyStep == (update + 1) * StepsPerUpdate(c)
  {
    ResumeAsWrittenRepeatsUpdate(update, c.numEnvs, c.worldSize, c.perRankBatchSize, lastLog, lastCheckpoint);
  }

  /** The counters of the running update loop (the rank's view). */
  class ExplorationLoop {
    const cfg: LoopConfig
    /**
     * How many updates' worth of steps the policy step runs ahead of the
     * completed updates: 0 on a fresh run, 1 on a resumed one.
     */
    const ahead: nat
    /** `per_rank_batch_size`: the configured one, or the one restored from the checkpoint. */
    const perRankBatchSize: int
    /** The last update that completed. */
    var update: int
    var policyStep: int
    var countdown: int
    var trainStep: int
    var lastLog: int
    var lastCheckpoint: int
    var explDecaySteps: int
    /** The checkpoints written so far. */
    var saved: seq<ExplorationCheckpoint>
    /** The number of batches sampled at each training so far. */
    var samples: seq<nat>

    function State(): Counters
      reads this
    {
      Counters(policyStep, countdown, trainStep, lastLog, lastCheckpoint, explDecaySteps)
    }

    /** The policy step agrees with the completed updates, `ahead` updates beyond them. */
    predicate Consistent()
      reads this
    {
      ValidConfig(cfg) && ahead <= 1 && policyStep == (update + ahead) * StepsPerUpdate(cfg)
    }

    /** A fresh run: no update done, counters zero, the countdown full. */
    constructor Fresh(cfg: LoopConfig)
      requires ValidConfig(cfg)
      ensures this.cfg == cfg && update == 0 && ahead == 0 && saved == [] && samples == []
      ensures perRankBatchSize == cfg.perRankBatchSize
      ensures State() == Counters(0, TrainCountdown(cfg), 0, 0, 0, 0)
      ensures Consistent()
    {
      this.cfg := cfg;
      ahead := 0;
      perRankBatchSize := cfg.perRankBatchSize;
      update := 0;
      policyStep := 0;
      countdown := cfg.trainEvery / PolicyStepsPerUpdate(cfg.numEnvs, cfg.worldSize);
      trainStep := 0;
      lastLog := 0;
      lastCheckpoint := 0;
      explDecaySteps := 0;
      saved := [];
      samples := [];
    }

    /**
     * A run resumed from a checkpoint as the driver does it: the first update
     * is the stored update divided by the world size, the checkpointed one
     * itself, with the policy step one update ahead of it. The per-rank
     * batch size is restored from the checkpoint (p2e_dv3_exploration.py:564-566).
     */
    constructor Resumed(cfg: LoopConfig, ck: ExplorationCheckpoint)
      requires ValidConfig(cfg)
      ensures this.cfg == cfg && ahead == 1 && saved == [] && samples == []
      ensures var p := ResumeAsWritten(ck.counters, cfg.numEnvs, cfg.worldSize);
        && update == p.startStep - 1
        && State() == Counters(p.policyStep, TrainCountdown(cfg), 0, p.lastLog, p.lastCheckpoint, ck.explDecaySteps)
      ensures update + 1 == ck.counters.update / cfg.worldSize
      ensures perRankBatchSize == ck.counters.batchSize / cfg.worldSize
      ensures WrittenWith(ck.counters, cfg.worldSize) ==> Consistent()
    {
      this.cfg := cfg;
      ahead := 1;
      var p := ResumeAsWritten(ck.counters, cfg.numEnvs, cfg.worldSize);
      perRankBatchSize := p.perRankBatchSize;
      if WrittenWith(ck.counters, cfg.worldSize) {
        WrittenWithIsResumable(ck.counters, cfg.numEnvs, cfg.worldSize);
      }
      update := p.startStep - 1;
      policyStep := p.policyStep;
      countdown := cfg.trainEvery / PolicyStepsPerUpdate(cfg.numEnvs, cfg.worldSize);
      trainStep := 0;
      lastLog := p.lastLog;
      lastCheckpoint := p.lastCheckpoint;
      explDecaySteps := ck.explDecaySteps;
      saved := [];
      samples := [];
    }

    /**
     * The counters after the loop body for update `u`: the policy step
     * advances by one update's worth, the countdown runs down and restarts
     * when the rank trains, and the log and checkpoint marks move to the new
     * policy step when due.
     */
    method NextCounters(u: int) returns (next: Counters)
      requires ValidConfig(cfg)
      ensures next == Next(cfg, State(), u)
    {
      var ps := policyStep + StepsPerUpdate(cfg);
      var cd := countdown - 1;
      var ts := trainStep;
      var decay := explDecaySteps;
      if Trains(cfg, cd, u) {
        ts := ts + cfg.worldSize;
        cd := TrainCountdown(cfg);
        if cfg.explDecay {
          decay := decay + 1;
        }
      }
      var ll := lastLog;
      if ShouldLog(cfg.logLevel, ps, ll, cfg.logEvery, u, cfg.numUpdates) {
        ll := ps;
      }
      var lc := lastCheckpoint;
      if ShouldCheckpoint(cfg.checkpointEvery, ps, lc, u, cfg.numUpdates, cfg.saveLast) {
        lc := ps;
      }
      next := Counters(ps, cd, ts, ll, lc, decay);
    }

    /** One iteration of the loop body for the next update. */
    method Step()
      requires ValidConfig(cfg)
      modifies this
      ensures update == old(update) + 1
      ensures State() == Next(cfg, old(State()), update)
      ensures samples == old(samples) + (if Trains(cfg, old(countdown) - 1, update) then [SampleCount(cfg, update)] else [])
      ensures saved == old(saved) +
        (if ShouldCheckpoint(cfg.checkpointEvery, policyStep, old(lastCheckpoint), update, cfg.numUpdates, cfg.saveLast)
         then [ExplorationCheckpoint(Save(update, cfg.worldSize, perRankBatchSize, lastLog, lastCheckpoint),
                                     explDecaySteps)]
         else [])
    {
      var u := update + 1;
      var next := NextCounters(u);
      if Trains(cfg, countdown - 1, u) {
        samples := samples + [SampleCount(cfg, u)];
      }
      if ShouldCheckpoint(cfg.checkpointEvery, next.policyStep, lastCheckpoint, u, cfg.numUpdates, cfg.saveLast) {
        saved := saved + [ExplorationCheckpoint(Save(u, cfg.worldSize, perRankBatchSize, next.lastLog,
                                                     next.lastCheckpoint), next.explDecaySteps)];
      }
      update, policyStep, countdown, trainStep := u, next.policyStep, next.countdown, next.trainStep;
      lastLog, lastCheckpoint, explDecaySteps := next.lastLog, next.lastCheckpoint, next.explDecaySteps;
      assert State() == next;
    }

    /**
     * `for update in range(start_step, num_updates + 1)`: runs the remaining
     * updates. Every checkpoint written is `Resumable`, one training
     * happens per recorded sample count, and the last update is logged and,
     * with `save_last`, checkpointed.
     */
    method Run()
      requires Consistent()
      requires forall k :: 0 <= k < |saved| ==> Resumable(saved[k].counters, cfg.numEnvs, cfg.worldSize)
      requires trainStep == cfg.worldSize * |samples|
      modifies this
      ensures Consistent()
      ensures update == if old(update) < cfg.numUpdates then cfg.numUpdates else old(update)
      ensures old(update) <= update
      ensures State() == Iterate(cfg, old(State()), old(update) + 1, update - old(update))
      ensures forall k :: 0 <= k < |saved| ==> Resumable(saved[k].counters, cfg.numEnvs, cfg.worldSize)
      ensures trainStep == cfg.worldSize * |samples|
      ensures old(update) < cfg.numUpdates && cfg.logLevel > 0 ==> lastLog == policyStep
      ensures old(update) < cfg.numUpdates && cfg.saveLast ==>
        saved != [] && saved[|saved| - 1].counters.update == cfg.numUpdates * cfg.worldSize
    {
      while update < cfg.numUpdates
        invariant Consistent()
        invariant old(update) <= update
        invariant State() == Iterate(cfg, old(State()), old(update) + 1, update - old(update))
        invariant update == if old(update) < cfg.numUpdates then update else old(update)
        invariant old(update) < cfg.numUpdates ==> old(update) <= update <= cfg.numUpdates
        invariant forall k :: 0 <= k < |saved| ==> Resumable(saved[k].counters, cfg.numEnvs, cfg.worldSize)
        invariant trainStep == cfg.worldSize * |samples|
        invariant update > old(update) && update == cfg.numUpdates && cfg.logLevel > 0 ==> lastLog == policyStep
        invariant update > old(update) && update == cfg.numUpdates && cfg.saveLast ==>
          saved != [] && saved[|saved| - 1].counters.update == cfg.numUpdates * cfg.worldSize
        decreases cfg.numUpdates - update
      {
        RunOne();
      }
    }

    /**
     * One iteration of `Run`: the policy step stays `ahead` updates beyond
     * the completed ones, the new checkpoint (if any) is `Resumable`, the
     * train step keeps counting one world's worth per training, and the last
     * update is logged and, with `save_last`, checkpointed.
     */
    method RunOne()
      requires Consistent() && update < cfg.numUpdates
      requires forall k :: 0 <= k < |saved| ==> Resumable(saved[k].counters, cfg.numEnvs, cfg.worldSize)
      requires trainStep == cfg.worldSize * |samples|
      modifies this
      ensures Consistent() && update == old(update) + 1
      ensures State() == Next(cfg, old(State()), update)
      ensures forall k :: 0 <= k < |saved| ==> Resumable(saved[k].counters, cfg.numEnvs, cfg.worldSize)
      ensures trainStep == cfg.worldSize * |samples|
      ensures update == cfg.numUpdates && cfg.logLevel > 0 ==> lastLog == policyStep
      ensures update == cfg.numUpdates && cfg.saveLast ==>
        saved != [] && saved[|saved| - 1].counters.update == cfg.numUpdates * cfg.worldSize
    {
      ghost var prev := State();
      ghost var before := saved;
      Step();
      SavedCheckpointResumes(cfg, update, perRankBatchSize, lastLog, lastCheckpoint);
      NextKeepsGaps(cfg, prev, update);
      OneMoreUpdate(update + ahead, StepsPerUpdate(cfg));
      OneMoreUpdate(|samples|, cfg.worldSize);
      assert forall k :: 0 <= k < |before| ==> saved[k] == before[k];
    }
  }
}
