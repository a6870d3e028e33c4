/**
 * The stationary bandit environment: a configuration record, an
 * environment object that owns a seeded generator, and the two helpers
 * that build lists of configurations.
 */
module BanditEnvironment {
  import opened Wrappers
  import opened Random
  import opened Seqs

  /** The exceptions the environment raises. */
  datatype EnvError =
    | NegativeMean          // an explicit mean below zero
    | NegativeSize          // a draw of negative size (`uniform(size=n)`, n < 0)
    | NoArms                // `np.argmax` of an empty vector of means
    | InvalidArm(arm: int)  // `get_reward` on an arm outside [0, n_arms)
    | EmptyRange            // `integers(lo, hi)` with hi <= lo

  /** A `BanditConfig` after `__post_init__` has run. */
  datatype BanditConfig = BanditConfig(
    nArms: int,
    means: Option<seq<real>>,
    meanLow: real,
    meanHigh: real,
    sigma: real,
    seed: Option<int>)

  predicate NonNegative(xs: seq<real>) {
    forall i :: 0 <= i < |xs| ==> xs[i] >= 0.0
  }

  /** Constructing a `BanditConfig`: explicit means fix the arm count, and a
    * negative explicit mean is rejected. */
  function NewBanditConfig(nArms: int, means: Option<seq<real>>, meanLow: real, meanHigh: real,
                           sigma: real, seed: Option<int>): (r: Result<BanditConfig, EnvError>)
    ensures r.Failure? <==> means.Some? && exists i :: 0 <= i < |means.value| && means.value[i] < 0.0
    ensures r.Failure? ==> r.error == NegativeMean
    ensures r.Success? ==> r.value.nArms == (if means.Some? then |means.value| else nArms)
    ensures r.Success? ==> r.value.means == means && r.value.seed == seed && r.value.sigma == sigma
                           && r.value.meanLow == meanLow && r.value.meanHigh == meanHigh
  {
    match means
    case None => Success(BanditConfig(nArms, None, meanLow, meanHigh, sigma, seed))
    case Some(ms) =>
      if NonNegative(ms) then Success(BanditConfig(|ms|, means, meanLow, meanHigh, sigma, seed))
      else Failure(NegativeMean)
  }

  /** The number of draws the constructor takes for the means. */
  function MeanDraws(config: BanditConfig): nat
    requires config.means.Some? || config.nArms >= 0
  {
    if config.means.Some? then 0 else config.nArms
  }

  /** The true means an environment starts from: the explicit ones verbatim,
    * otherwise `n_arms` uniform draws from the start of its stream. */
  function InitialMeans(config: BanditConfig, s: Stream): (m: seq<real>)
    requires config.means.Some? || config.nArms >= 0
    ensures config.means.Some? ==> m == config.means.value
    ensures config.means.None? ==> |m| == config.nArms
    ensures config.means.None? ==> forall i :: 0 <= i < |m| ==> m[i] == UniformAt(s, i, config.meanLow, config.meanHigh)
    ensures config.means.None? && config.meanLow <= config.meanHigh ==>
              forall i :: 0 <= i < |m| ==> config.meanLow <= m[i] <= config.meanHigh
  {
    match config.means
    case Some(ms) => ms
    case None => UniformsAt(s, 0, config.meanLow, config.meanHigh, config.nArms)
  }

  /** numpy broadcasting `means + noise`: each row of `noise` shifted by the means. */
  function AddMeans(means: seq<real>, noise: seq<seq<real>>): (m: seq<seq<real>>)
    requires forall t :: 0 <= t < |noise| ==> |noise[t]| == |means|
    ensures |m| == |noise|
    ensures forall t :: 0 <= t < |m| ==> |m[t]| == |means|
  {
    seq(|noise|, t requires 0 <= t < |noise| =>
      seq(|means|, i requires 0 <= i < |means| => means[i] + noise[t][i]))
  }

  /** What `get_info` reports. */
  datatype EnvInfo = EnvInfo(nArms: nat, means: seq<real>, bestArm: nat, bestMean: real, sigma: real)

  class BanditEnv {
    const config: BanditConfig
    const rng: Rng
    const means: seq<real>
    const nArms: nat
    const bestArm: nat
    const bestMean: real

    /** The arm count is the length of the means, the best arm is the first
      * index of the largest mean and the best mean is that mean. */
    predicate Valid() {
      nArms == |means| > 0 && bestArm == ArgMax(means) && bestMean == means[bestArm]
    }

    constructor Init(config: BanditConfig, rng: Rng, means: seq<real>)
      requires |means| > 0
      ensures Valid()
      ensures this.config == config && this.rng == rng && this.means == means
    {
      this.config := config;
      this.rng := rng;
      this.means := means;
      this.nArms := |means|;
      var best := ArgMax(means);
      this.bestArm := best;
      this.bestMean := means[best];
    }

    /** `BanditEnv(config)`: the generator is built on the stream `s` the
      * config's seed selects, the means are resolved, and a negative arm
      * count or an empty set of means fails where numpy raises. */
    static method Open(config: BanditConfig, s: Stream) returns (r: Result<BanditEnv, EnvError>)
      ensures config.means.None? && config.nArms < 0 ==> r == Failure(NegativeSize)
      ensures config.means.Some? || config.nArms >= 0 ==>
                (r.Failure? <==> InitialMeans(config, s) == []) && (r.Failure? ==> r.error == NoArms)
      ensures r.Success? ==> fresh(r.value) && fresh(r.value.rng) && r.value.Valid()
      ensures r.Success? ==> r.value.config == config && r.value.means == InitialMeans(config, s)
      ensures r.Success? ==> r.value.rng.stream == s && r.value.rng.pos == MeanDraws(config)
    {
      if config.means.None? && config.nArms < 0 {
        return Failure(NegativeSize);
      }
      var rng := new Rng(s);
      var means: seq<real>;
      if config.means.Some? {
        means := config.means.value;
      } else {
        means := rng.Uniforms(config.meanLow, config.meanHigh, config.nArms);
      }
      if |means| == 0 {
        return Failure(NoArms);
      }
      var env := new BanditEnv.Init(config, rng, means);
      r := Success(env);
    }

    /** `generate_rewards(n_rounds)`: an `n_rounds x n_arms` matrix whose
      * entry (t, i) is mean i plus the noise drawn for that cell. */
    method GenerateRewards(nRounds: nat) returns (rewards: seq<seq<real>>)
      requires Valid()
      modifies rng
      ensures |rewards| == nRounds
      ensures forall t :: 0 <= t < nRounds ==> |rewards[t]| == nArms
      ensures forall t, i :: 0 <= t < nRounds && 0 <= i < nArms ==>
                rewards[t][i] == means[i] + NormalAt(rng.stream, old(rng.pos) + t * nArms + i, 0.0, config.sigma)
      ensures rng.pos == old(rng.pos) + nRounds * nArms
    {
      var noise := rng.NormalMatrix(config.sigma, nRounds, nArms);
      rewards := AddMeans(means, noise);
    }

    /** `get_reward(arm)`: one normal draw around the arm's mean, or
      * `InvalidArm` without drawing for an arm outside [0, n_arms). */
    method GetReward(arm: int) returns (r: Result<real, EnvError>)
      requires Valid()
      modifies rng
      ensures !(0 <= arm < nArms) ==> r == Failure(InvalidArm(arm)) && rng.pos == old(rng.pos)
      ensures 0 <= arm < nArms ==>
                r == Success(NormalAt(rng.stream, old(rng.pos), means[arm], config.sigma))
                && rng.pos == old(rng.pos) + 1
    {
      if !(0 <= arm < nArms) {
        return Failure(InvalidArm(arm));
      }
      var x := rng.Normal(means[arm], config.sigma);
      r := Success(x);
    }

    /** `get_info()`: the best arm reported is the first arm whose mean is
      * largest, and the best mean is that largest mean. */
    function GetInfo(): (info: EnvInfo)
      requires Valid()
      ensures info.nArms == |info.means| && info.means == means && info.sigma == config.sigma
      ensures info.bestArm < info.nArms && info.means[info.bestArm] == info.bestMean
      ensures forall j :: 0 <= j < info.nArms ==> info.means[j] <= info.bestMean
      ensures forall j :: 0 <= j < info.bestArm ==> info.means[j] < info.bestMean
    {
      EnvInfo(nArms, means, bestArm, bestMean, config.sigma)
    }
  }

  /** `create_trial_configs`: `n_trials` configs drawn from one generator
    * seeded with `seed`; config i has seed `seed + i` and an arm count drawn
    * from the inclusive range [lo, hi]. */
  method CreateTrialConfigs(nTrials: nat, lo: int, hi: int, meanLow: real, meanHigh: real,
                            sigma: real, seed: int, family: Family)
    returns (r: Result<seq<BanditConfig>, EnvError>)
    ensures r.Failure? <==> nTrials > 0 && hi < lo
    ensures r.Success? ==> |r.value| == nTrials
    ensures r.Success? ==> forall i :: 0 <= i < nTrials ==>
              && r.value[i].seed == Some(seed + i)
              && lo <= r.value[i].nArms <= hi
              && r.value[i].nArms == IntegersAt(family(seed), i, lo, hi + 1)
              && r.value[i].means.None?
              && r.value[i].meanLow == meanLow && r.value[i].meanHigh == meanHigh
              && r.value[i].sigma == sigma
  {
    if nTrials > 0 && hi < lo {
      return Failure(EmptyRange);
    }
    var rng := new Rng(family(seed));
    var configs: seq<BanditConfig> := [];
    for i := 0 to nTrials
      invariant rng.pos == i && rng.stream == family(seed)
      invariant |configs| == i
      invariant forall j :: 0 <= j < i ==>
                  && configs[j].seed == Some(seed + j)
                  && configs[j].nArms == IntegersAt(family(seed), j, lo, hi + 1)
                  && configs[j].means.None?
                  && configs[j].meanLow == meanLow && configs[j].meanHigh == meanHigh
                  && configs[j].sigma == sigma
    {
      var n := rng.Integers(lo, hi + 1);
      configs := configs + [BanditConfig(n, None, meanLow, meanHigh, sigma, Some(seed + i))];
    }
    r := Success(configs);
  }

  /** `create_fixed_configs`: one config per list of means, config i seeded
    * with `42 + i`; a list holding a negative mean makes the call fail. */
  method CreateFixedConfigs(armMeansList: seq<seq<real>>, sigma: real)
    returns (r: Result<seq<BanditConfig>, EnvError>)
    ensures r.Failure? <==> exists i :: 0 <= i < |armMeansList| && !NonNegative(armMeansList[i])
    ensures r.Success? ==> |r.value| == |armMeansList|
    ensures r.Success? ==> forall i :: 0 <= i < |armMeansList| ==>
              && r.value[i].seed == Some(42 + i)
              && r.value[i].nArms == |armMeansList[i]|
              && r.value[i].means == Some(armMeansList[i])
              && r.value[i].sigma == sigma
              && r.value[i].meanLow == 2.0 && r.value[i].meanHigh == 9.0
  {
    var configs: seq<BanditConfig> := [];
    for i := 0 to |armMeansList|
      invariant |configs| == i
      invariant forall j :: 0 <= j < i ==> NonNegative(armMeansList[j])
      invariant forall j :: 0 <= j < i ==>
                  && configs[j].seed == Some(42 + j)
                  && configs[j].nArms == |armMeansList[j]|
                  && configs[j].means == Some(armMeansList[j])
                  && configs[j].sigma == sigma
                  && configs[j].meanLow == 2.0 && configs[j].meanHigh == 9.0
    {
      var means := armMeansList[i];
      var c := NewBanditConfig(|means|, Some(means), 2.0, 9.0, sigma, Some(42 + i));
      if c.Failure? {
        return Failure(c.error);
      }
      configs := configs + [c.value];
    }
    r := Success(configs);
  }
}
