/**
 * The decision and state rules of the Dreamer-V2 agent: how the actor resolves
 * its distribution and sizes its heads, how the player resets and updates its
 * per-environment state, the `is_first` masking of the RSSM step, the size
 * arithmetic that wires the modules together and the channel split of the
 * image decoder. Network outputs and random noise are inputs.
 */
module DreamerV2Agent {
  import opened Wrappers
  import opened Strings
  import opened SeqMath

  // ---------------------------------------------------------------------------
  // Actor: distribution resolution and output heads

  /** The values `distribution_cfg.type` may take, after lower-casing. */
  predicate IsKnownDistribution(t: string) {
    t == "auto" || t == "normal" || t == "tanh_normal" || t == "discrete" || t == "trunc_normal"
  }

  /**
   * The distribution the actor ends up with: the configured type (default
   * `auto`) lower-cased, checked against the known names and against the
   * action space, with `auto` resolved by the action space.
   */
  function ResolveDistribution(configured: Option<string>, isContinuous: bool): (r: Result<string>)
    ensures var t := Lower(if configured.Some? then configured.value else "auto");
      r.Ok? <==> IsKnownDistribution(t) && !(t == "discrete" && isContinuous)
    ensures r.Ok? ==> IsKnownDistribution(r.value) && r.value != "auto"
    ensures r.Ok? && r.value == "discrete" ==> !isContinuous
    ensures r.Err? ==> r.error.ValueError?
  {
    var t := Lower(if configured.Some? then configured.value else "auto");
    if !IsKnownDistribution(t) then Err(ValueError("The distribution must be on of: `auto`, `discrete`, `normal`, `tanh_normal` and `trunc_normal`. Found: " + t))
    else if t == "discrete" && isContinuous then Err(ValueError("You have choose a discrete distribution but `is_continuous` is true"))
    else if t == "auto" then (if isContinuous then Ok("trunc_normal") else Ok("discrete"))
    else Ok(t)
  }

  /** `auto` follows the action space; an explicit known type is kept as it is. */
  lemma ResolveDistributionChoice(configured: Option<string>, isContinuous: bool)
    ensures var t := Lower(if configured.Some? then configured.value else "auto");
      && (t == "auto" ==> ResolveDistribution(configured, isContinuous)
                          == Ok(if isContinuous then "trunc_normal" else "discrete"))
      && (IsKnownDistribution(t) && t != "auto" && !(t == "discrete" && isContinuous)
          ==> ResolveDistribution(configured, isContinuous) == Ok(t))
  {
  }

  /** Lower-casing happens before the check: the case of the configured name never matters. */
  lemma ResolveIsCaseInsensitive(configured: string, isContinuous: bool)
    ensures ResolveDistribution(Some(configured), isContinuous)
            == ResolveDistribution(Some(Lower(configured)), isContinuous)
  {
    LowerIdempotent(configured);
  }

  /**
   * Output widths of the actor's heads: one head of twice the total action
   * size (mean and standard deviation) for continuous actions, one head per
   * action dimension for discrete ones.
   */
  function HeadWidths(actionsDim: seq<nat>, isContinuous: bool): (r: seq<int>)
    ensures isContinuous ==> |r| == 1
    ensures !isContinuous ==> |r| == |actionsDim| && forall i :: 0 <= i < |r| ==> r[i] == actionsDim[i]
    ensures Sum(r) == (if isContinuous then 2 * Sum(actionsDim) else Sum(actionsDim))
  {
    if isContinuous then [Sum(actionsDim) * 2] else actionsDim
  }

  /** The actor's configuration state; the networks themselves are not modelled. */
  class Actor {
    var distribution: string
    const headWidths: seq<int>
    const actionsDim: seq<nat>
    const isContinuous: bool
    var explAmount: real

    constructor (distribution: string, actionsDim: seq<nat>, isContinuous: bool, explAmount: real)
      ensures this.distribution == distribution && this.actionsDim == actionsDim
      ensures this.isContinuous == isContinuous && this.explAmount == explAmount
      ensures headWidths == HeadWidths(actionsDim, isContinuous)
    {
      this.distribution := distribution;
      this.actionsDim := actionsDim;
      this.isContinuous := isContinuous;
      this.headWidths := HeadWidths(actionsDim, isContinuous);
      this.explAmount := explAmount;
    }

    /** The `expl_amount` property. */
    function ExplAmount(): real
      reads this
    {
      explAmount
    }

    /** The `expl_amount` setter: only the exploration amount changes. */
    method SetExplAmount(amount: real)
      modifies this
      ensures ExplAmount() == amount
      ensures distribution == old(distribution)
    {
      explAmount := amount;
    }
  }

  /**
   * `Actor.__init__`: the distribution is popped from the configuration,
   * lower-cased, validated and resolved step by step; an invalid configuration
   * raises before any actor exists.
   */
  method NewActor(configured: Option<string>, actionsDim: seq<nat>, isContinuous: bool, explAmount: real)
    returns (r: Result<Actor>)
    ensures r.Ok? <==> ResolveDistribution(configured, isContinuous).Ok?
    ensures r.Err? ==> r.error == ResolveDistribution(configured, isContinuous).error
    ensures r.Ok? ==>
      && fresh(r.value)
      && r.value.distribution == ResolveDistribution(configured, isContinuous).value
      && r.value.headWidths == HeadWidths(actionsDim, isContinuous)
      && r.value.explAmount == explAmount
  {
    var distribution := Lower(if configured.Some? then configured.value else "auto");
    ghost var resolved := ResolveDistribution(configured, isContinuous);
    if !IsKnownDistribution(distribution) {
      return Err(ValueError("The distribution must be on of: `auto`, `discrete`, `normal`, `tanh_normal` and `trunc_normal`. Found: " + distribution));
    }
    if distribution == "discrete" && isContinuous {
      return Err(ValueError("You have choose a discrete distribution but `is_continuous` is true"));
    }
    if distribution == "auto" {
      if isContinuous {
        distribution := "trunc_normal";
      } else {
        distribution := "discrete";
      }
    }
    var actor := new Actor(distribution, actionsDim, isContinuous, explAmount);
    r := Ok(actor);
  }

  // ---------------------------------------------------------------------------
  // Sizes used to wire the modules together (build_models)

  /** Size of the latent state fed to actor, critic, decoders and reward model. */
  function LatentStateSize(stochasticSize: nat, discreteSize: nat, recurrentStateSize: nat): nat {
    stochasticSize * discreteSize + recurrentStateSize
  }

  /** Input size of the recurrent model: the flattened posterior followed by the actions. */
  function RecurrentInputSize(actionsDim: seq<nat>, stochasticSize: nat, discreteSize: nat): int {
    Sum(actionsDim) + stochasticSize * discreteSize
  }

  // ---------------------------------------------------------------------------
  // Rows of per-environment state

  /** `n` rows of `width` entries each. */
  predicate Shaped(rows: seq<seq<real>>, n: nat, width: int) {
    |rows| == n && forall e :: 0 <= e < n ==> |rows[e]| == width
  }

  /** `torch.zeros(1, n, width)` without the leading axis. */
  function ZeroRows(n: nat, width: nat): (r: seq<seq<real>>)
    ensures Shaped(r, n, width)
  {
    seq(n, _ => Zeros(width))
  }

  /** A Python index into a dimension of size n: negative indices count from the end. */
  predicate IndexInRange(i: int, n: nat) {
    -(n as int) <= i < n
  }

  function Normalize(i: int, n: nat): (e: nat)
    requires IndexInRange(i, n)
    ensures e < n
  {
    if i < 0 then i + n else i
  }

  /** The environment columns a list of indices selects. */
  function Selected(indices: seq<int>, n: nat): set<nat>
    requires forall k :: 0 <= k < |indices| ==> IndexInRange(indices[k], n)
  {
    set k | 0 <= k < |indices| :: Normalize(indices[k], n)
  }

  /** `rows[:, envs] = zeros`: the selected rows become zero, the others stay. */
  function ResetRows(rows: seq<seq<real>>, envs: set<nat>): (r: seq<seq<real>>)
    ensures |r| == |rows|
  {
    seq(|rows|, e requires 0 <= e < |rows| => if e in envs then Zeros(|rows[e]|) else rows[e])
  }

  lemma ResetRowsKeepsShape(rows: seq<seq<real>>, envs: set<nat>, n: nat, width: int)
    requires Shaped(rows, n, width)
    ensures Shaped(ResetRows(rows, envs), n, width)
  {
  }

  /** The index list `[0, 1, ..., n - 1]`. */
  function AllIndices(n: nat): (r: seq<int>)
    ensures |r| == n && forall k :: 0 <= k < n ==> r[k] == k
  {
    seq(n, k => k)
  }

  /** The full index list selects every environment and nothing else. */
  lemma SelectedAllIndices(n: nat)
    ensures forall e: nat :: e in Selected(AllIndices(n), n) <==> e < n
  {
    var envs := Selected(AllIndices(n), n);
    forall e: nat | e < n
      ensures e in envs
    {
      assert Normalize(AllIndices(n)[e], n) == e;
    }
  }

  /** Resetting every environment by index is the same as the full reset. */
  lemma ResetAllIsFullReset(rows: seq<seq<real>>, n: nat, width: nat)
    requires Shaped(rows, n, width)
    ensures ResetRows(rows, Selected(AllIndices(n), n)) == ZeroRows(n, width)
  {
    var envs := Selected(AllIndices(n), n);
    SelectedAllIndices(n);
    var r := ResetRows(rows, envs);
    assert forall e :: 0 <= e < n ==> r[e] == Zeros(width);
  }

  /** Resetting the same environments twice is resetting them once. */
  lemma ResetRowsIdempotent(rows: seq<seq<real>>, envs: set<nat>)
    ensures ResetRows(ResetRows(rows, envs), envs) == ResetRows(rows, envs)
  {
    var once := ResetRows(rows, envs);
    var twice := ResetRows(once, envs);
    forall e | 0 <= e < |rows|
      ensures twice[e] == once[e]
    {
      if e in envs {
        assert |once[e]| == |rows[e]|;
      }
    }
  }

  /** Row e of the concatenation of the heads along the last axis. */
  function CatRow(heads: seq<seq<seq<real>>>, e: nat): seq<real>
    requires forall h :: 0 <= h < |heads| ==> e < |heads[h]|
  {
    if heads == [] then [] else heads[0][e] + CatRow(heads[1..], e)
  }

  /** A concatenated row is as wide as the heads together. */
  lemma {:induction false} CatRowLength(heads: seq<seq<seq<real>>>, e: nat, widths: seq<int>)
    requires |widths| == |heads|
    requires forall h :: 0 <= h < |heads| ==> e < |heads[h]| && |heads[h][e]| == widths[h]
    ensures |CatRow(heads, e)| == Sum(widths)
  {
    if heads != [] {
      CatRowLength(heads[1..], e, widths[1..]);
    }
  }

  /** `torch.cat(heads, -1)`: every environment's row is its rows of all heads, in head order. */
  function Cat(heads: seq<seq<seq<real>>>, n: nat): (r: seq<seq<real>>)
    requires forall h :: 0 <= h < |heads| ==> |heads[h]| == n
    ensures |r| == n
  {
    seq(n, e requires 0 <= e < n => CatRow(heads, e))
  }

  // ---------------------------------------------------------------------------
  // The player

  /** Per-environment recurrent state, stochastic state and last actions of the Dreamer-V2 player. */
  class PlayerDV2 {
    const actor: Actor
    const actionsDim: seq<nat>
    const numEnvs: nat
    const stochasticSize: nat
    const discreteSize: nat
    const recurrentStateSize: nat
    var actions: seq<seq<real>>
    var recurrentState: seq<seq<real>>
    var stochasticState: seq<seq<real>>

    /** Every state field has one row per environment, of the width the modules expect. */
    ghost predicate Valid()
      reads this
    {
      && Shaped(actions, numEnvs, Sum(actionsDim))
      && Shaped(recurrentState, numEnvs, recurrentStateSize)
      && Shaped(stochasticState, numEnvs, stochasticSize * discreteSize)
    }

    /** The states do not exist until the first `init_states`. */
    constructor (actor: Actor, actionsDim: seq<nat>, numEnvs: nat, stochasticSize: nat,
                 recurrentStateSize: nat, discreteSize: nat)
      ensures this.actor == actor && this.actionsDim == actionsDim && this.numEnvs == numEnvs
      ensures this.stochasticSize == stochasticSize && this.discreteSize == discreteSize
      ensures this.recurrentStateSize == recurrentStateSize
    {
      this.actor := actor;
      this.actionsDim := actionsDim;
      this.numEnvs := numEnvs;
      this.stochasticSize := stochasticSize;
      this.discreteSize := discreteSize;
      this.recurrentStateSize := recurrentStateSize;
      this.actions := [];
      this.recurrentState := [];
      this.stochasticState := [];
    }

    /**
     * `init_states`: with no list (or an empty one) every state is replaced by
     * zeros; with a list, only the listed environments are zeroed and the
     * others keep their state. An index outside the environments raises
     * IndexError before anything is written.
     */
    method InitStates(resetEnvs: Option<seq<int>>) returns (r: Outcome)
      requires resetEnvs.Some? && resetEnvs.value != [] ==> Valid()
      modifies this
      ensures resetEnvs.None? || resetEnvs.value == [] ==>
        && r == Pass && Valid()
        && actions == ZeroRows(numEnvs, Sum(actionsDim))
        && recurrentState == ZeroRows(numEnvs, recurrentStateSize)
        && stochasticState == ZeroRows(numEnvs, stochasticSize * discreteSize)
      ensures resetEnvs.Some? && resetEnvs.value != [] ==>
        if forall k :: 0 <= k < |resetEnvs.value| ==> IndexInRange(resetEnvs.value[k], numEnvs) then
          var envs := Selected(resetEnvs.value, numEnvs);
          && r == Pass && Valid()
          && actions == ResetRows(old(actions), envs)
          && recurrentState == ResetRows(old(recurrentState), envs)
          && stochasticState == ResetRows(old(stochasticState), envs)
        else
          r.Fail? && r.error.IndexError? && unchanged(this)
    {
      if resetEnvs.None? || |resetEnvs.value| == 0 {
        actions := ZeroRows(numEnvs, Sum(actionsDim));
        recurrentState := ZeroRows(numEnvs, recurrentStateSize);
        stochasticState := ZeroRows(numEnvs, stochasticSize * discreteSize);
        return Pass;
      }
      var indices := resetEnvs.value;
      if exists k | 0 <= k < |indices| :: !IndexInRange(indices[k], numEnvs) {
        return Fail(IndexError("index out of bounds for the environment dimension"));
      }
      var envs := Selected(indices, numEnvs);
      ResetRowsKeepsShape(actions, envs, numEnvs, Sum(actionsDim));
      ResetRowsKeepsShape(recurrentState, envs, numEnvs, recurrentStateSize);
      ResetRowsKeepsShape(stochasticState, envs, numEnvs, stochasticSize * discreteSize);
      actions := ResetRows(actions, envs);
      recurrentState := ResetRows(recurrentState, envs);
      stochasticState := ResetRows(stochasticState, envs);
      r := Pass;
    }

    /**
     * `get_exploration_action`: the greedy step stores the new recurrent and
     * stochastic states and the greedy actions; when the actor's exploration
     * amount is positive the noisy actions replace them, both as the stored
     * actions and as the returned ones.
     */
    method GetExplorationAction(newRecurrent: seq<seq<real>>, newStochastic: seq<seq<real>>,
                                greedy: seq<seq<seq<real>>>, noisy: seq<seq<seq<real>>>)
      returns (chosen: seq<seq<seq<real>>>)
      requires Valid()
      requires Shaped(newRecurrent, numEnvs, recurrentStateSize)
      requires Shaped(newStochastic, numEnvs, stochasticSize * discreteSize)
      requires greedy != [] && noisy != []
      requires forall h :: 0 <= h < |greedy| ==> |greedy[h]| == numEnvs
      requires forall h :: 0 <= h < |noisy| ==> |noisy[h]| == numEnvs
      requires forall e :: 0 <= e < numEnvs ==> |CatRow(greedy, e)| == Sum(actionsDim)
      requires forall e :: 0 <= e < numEnvs ==> |CatRow(noisy, e)| == Sum(actionsDim)
      modifies this
      ensures Valid()
      ensures recurrentState == newRecurrent && stochasticState == newStochastic
      ensures chosen == if actor.explAmount > 0.0 then noisy else greedy
      ensures actions == Cat(chosen, numEnvs)
    {
      recurrentState := newRecurrent;
      stochasticState := newStochastic;
      actions := Cat(greedy, numEnvs);
      var explActions: Option<seq<seq<seq<real>>>> := None;
      if actor.explAmount > 0.0 {
        explActions := Some(noisy);
        actions := Cat(noisy, numEnvs);
      }
      chosen := if explActions.Some? && explActions.value != [] then explActions.value else greedy;
    }
  }

  /** The actor reads the stochastic state followed by the recurrent state: exactly the latent state size. */
  lemma PlayerFeaturesAreLatentState(p: PlayerDV2, e: nat)
    requires p.Valid() && e < p.numEnvs
    ensures |p.stochasticState[e] + p.recurrentState[e]|
            == LatentStateSize(p.stochasticSize, p.discreteSize, p.recurrentStateSize)
  {
  }

  // ---------------------------------------------------------------------------
  // RSSM.dynamic: masking on the first step of an episode

  /** `(1 - is_first) * x` */
  function Masked(isFirst: real, x: seq<real>): (r: seq<real>)
    ensures |r| == |x|
    ensures isFirst == 1.0 ==> r == Zeros(|x|)
    ensures isFirst == 0.0 ==> r == x
  {
    seq(|x|, i requires 0 <= i < |x| => (1.0 - isFirst) * x[i])
  }

  /** `posterior.view(..., -1)`: the stochastic x discrete matrix read row by row. */
  function Flatten(rows: seq<seq<real>>): seq<real> {
    if rows == [] then [] else rows[0] + Flatten(rows[1..])
  }

  /** Flattening n rows of `width` entries gives n * width entries. */
  lemma {:induction false} FlattenLength(rows: seq<seq<real>>, n: nat, width: nat)
    requires Shaped(rows, n, width)
    ensures |Flatten(rows)| == n * width
  {
    if n > 0 {
      FlattenLength(rows[1..], n - 1, width);
    }
  }

  /** What the recurrent model receives in one `dynamic` step. */
  datatype RecurrentStep = RecurrentStep(input: seq<real>, recurrentState: seq<real>)

  /**
   * The inputs of the recurrent model in `dynamic`: action, posterior and
   * recurrent state are multiplied by `1 - is_first`, and the input is the
   * flattened posterior followed by the action.
   */
  function DynamicInputs(posterior: seq<seq<real>>, recurrentState: seq<real>, action: seq<real>, isFirst: real)
    : (r: RecurrentStep)
    ensures |r.input| == |Flatten(posterior)| + |action| && |r.recurrentState| == |recurrentState|
    ensures isFirst == 1.0 ==>
      r.input == Zeros(|Flatten(posterior)| + |action|) && r.recurrentState == Zeros(|recurrentState|)
    ensures isFirst == 0.0 ==> r.input == Flatten(posterior) + action && r.recurrentState == recurrentState
  {
    var a := Masked(isFirst, action);
    var p := Masked(isFirst, Flatten(posterior));
    var h := Masked(isFirst, recurrentState);
    assert isFirst == 1.0 ==> p + a == Zeros(|p| + |a|);
    RecurrentStep(p + a, h)
  }

  /** The input `dynamic` builds has exactly the size `build_models` gives the recurrent model. */
  lemma DynamicInputFitsRecurrentModel(posterior: seq<seq<real>>, recurrentState: seq<real>, action: seq<real>,
                                       isFirst: real, actionsDim: seq<nat>, stochasticSize: nat, discreteSize: nat)
    requires Shaped(posterior, stochasticSize, discreteSize)
    requires |action| == Sum(actionsDim)
    ensures |DynamicInputs(posterior, recurrentState, action, isFirst).input|
            == RecurrentInputSize(actionsDim, stochasticSize, discreteSize)
  {
    FlattenLength(posterior, stochasticSize, discreteSize);
  }

  // ---------------------------------------------------------------------------
  // CNNDecoder.forward: splitting the output channels among the image keys

  /** `torch.split(x, sizes)`: consecutive pieces of the given sizes. */
  function Split<T>(x: seq<T>, sizes: seq<nat>): (r: seq<seq<T>>)
    requires |x| == Sum(sizes)
    ensures |r| == |sizes|
    ensures forall i :: 0 <= i < |r| ==> |r[i]| == sizes[i]
    ensures Concat(r) == x
  {
    if sizes == [] then []
    else
      var rest := Split(x[sizes[0]..], sizes[1..]);
      assert x == x[..sizes[0]] + x[sizes[0]..];
      [x[..sizes[0]]] + rest
  }

  function Concat<T>(parts: seq<seq<T>>): seq<T> {
    if parts == [] then [] else parts[0] + Concat(parts[1..])
  }

  /** `{k: v for k, v in zip(keys, parts)}` added in order: later keys overwrite earlier ones. */
  function ZipToMap<T>(keys: seq<string>, parts: seq<seq<T>>): (m: map<string, seq<T>>)
    ensures forall k :: k in m <==> exists i :: 0 <= i < |keys| && i < |parts| && keys[i] == k
  {
    if keys == [] || parts == [] then map[]
    else
      var n := if |keys| < |parts| then |keys| else |parts|;
      var m := ZipToMap(keys[..n - 1], parts[..n - 1]);
      assert forall i :: 0 <= i < n - 1 ==> keys[..n - 1][i] == keys[i];
      m[keys[n - 1] := parts[n - 1]]
  }

  /** The reconstructed images: the decoder output split by channels, one piece per key. */
  function DecodeChannels<T>(keys: seq<string>, outputChannels: seq<nat>, x: seq<T>): map<string, seq<T>>
    requires |x| == Sum(outputChannels)
  {
    ZipToMap(keys, Split(x, outputChannels))
  }

  /** Start of the i-th piece: the sizes of the pieces before it. */
  function Offset(sizes: seq<nat>, i: nat): int
    requires i <= |sizes|
  {
    Sum(sizes[..i])
  }

  /** Splitting takes the first piece off the front and splits the rest. */
  lemma SplitFirst<T>(x: seq<T>, sizes: seq<nat>)
    requires |x| == Sum(sizes) && sizes != []
    ensures sizes[0] <= |x| && |x[sizes[0]..]| == Sum(sizes[1..])
    ensures Split(x, sizes) == [x[..sizes[0]]] + Split(x[sizes[0]..], sizes[1..])
  {
  }

  /** The offset of a later piece counts the first piece and then the offsets among the rest. */
  lemma OffsetAfterFirst(sizes: seq<nat>, i: nat)
    requires 0 < i <= |sizes|
    ensures Offset(sizes, i) == sizes[0] + Offset(sizes[1..], i - 1)
  {
    assert sizes[..i][1..] == sizes[1..][..i - 1];
  }

  lemma {:induction false} SplitPiece<T>(x: seq<T>, sizes: seq<nat>, i: nat)
    requires |x| == Sum(sizes) && i < |sizes|
    ensures 0 <= Offset(sizes, i) && Offset(sizes, i) + sizes[i] <= |x|
    ensures Split(x, sizes)[i] == x[Offset(sizes, i)..Offset(sizes, i) + sizes[i]]
  {
    SplitFirst(x, sizes);
    if i == 0 {
      assert sizes[..0] == [];
      assert x[0..sizes[0]] == x[..sizes[0]];
    } else {
      SplitPiece(x[sizes[0]..], sizes[1..], i - 1);
      PieceAfterFirst(x, sizes, i, Split(x, sizes), Split(x[sizes[0]..], sizes[1..]));
    }
  }

  /**
   * The i-th piece (i > 0) is the (i - 1)-th piece of the rest after the
   * first, shifted by the size of the first.
   */
  lemma PieceAfterFirst<T>(x: seq<T>, sizes: seq<nat>, i: nat, parts: seq<seq<T>>, restParts: seq<seq<T>>)
    requires 0 < i < |sizes| && sizes[0] <= |x| && i <= |restParts|
    requires parts == [x[..sizes[0]]] + restParts
    requires var o := Offset(sizes[1..], i - 1);
      && 0 <= o && o + sizes[i] <= |x| - sizes[0]
      && restParts[i - 1] == x[sizes[0]..][o..o + sizes[i]]
    ensures 0 <= Offset(sizes, i) && Offset(sizes, i) + sizes[i] <= |x|
    ensures parts[i] == x[Offset(sizes, i)..Offset(sizes, i) + sizes[i]]
  {
    OffsetAfterFirst(sizes, i);
    SliceAfterDrop(x, sizes[0], Offset(sizes[1..], i - 1), sizes[i]);
  }

  /** A slice of the suffix from `a` is the slice of the whole shifted by `a`. */
  lemma SliceAfterDrop<T>(x: seq<T>, a: nat, o: nat, n: nat)
    requires a + o + n <= |x|
    ensures x[a..][o..o + n] == x[a + o..a + o + n]
  {
  }

  lemma {:induction false} ZipToMapAt<T>(keys: seq<string>, parts: seq<seq<T>>, i: nat)
    requires |keys| == |parts| && i < |keys|
    requires forall a, b :: 0 <= a < b < |keys| ==> keys[a] != keys[b]
    ensures keys[i] in ZipToMap(keys, parts) && ZipToMap(keys, parts)[keys[i]] == parts[i]
  {
    var n := |keys|;
    if i < n - 1 {
      ZipToMapAt(keys[..n - 1], parts[..n - 1], i);
    }
  }

  /**
   * With distinct keys, one per output channel group, key i receives exactly
   * the channels Offset(i) .. Offset(i) + outputChannels[i].
   */
  lemma DecodeChannelsSlices<T>(keys: seq<string>, outputChannels: seq<nat>, x: seq<T>, i: nat)
    requires |x| == Sum(outputChannels) && |keys| == |outputChannels| && i < |keys|
    requires forall a, b :: 0 <= a < b < |keys| ==> keys[a] != keys[b]
    ensures 0 <= Offset(outputChannels, i) && Offset(outputChannels, i) + outputChannels[i] <= |x|
    ensures keys[i] in DecodeChannels(keys, outputChannels, x)
    ensures DecodeChannels(keys, outputChannels, x)[keys[i]]
            == x[Offset(outputChannels, i)..Offset(outputChannels, i) + outputChannels[i]]
  {
    SplitPiece(x, outputChannels, i);
    ZipToMapAt(keys, Split(x, outputChannels), i);
  }
}
