/**
 * The shared trial helpers: reward and regret curves, and the two ways of
 * pre-generating stationary trials (one seeded generator for all trials,
 * or one environment per configuration).
 */
module Shared {
  import opened Wrappers
  import opened Random
  import opened Seqs
  import opened BanditEnvironment

  /** What `calc_curves` returns. */
  datatype Curves = Curves(actions: seq<int>, rewards: seq<real>, cumReward: seq<real>, cumRegret: seq<real>)

  /** The per-round regret `best_mean - rewards`, unclamped. */
  function Regrets(rewards: seq<real>, bestMean: real): (g: seq<real>)
    ensures |g| == |rewards|
    ensures forall k :: 0 <= k < |rewards| ==> g[k] == bestMean - rewards[k]
  {
    seq(|rewards|, k requires 0 <= k < |rewards| => bestMean - rewards[k])
  }

  /** `calc_curves(actions, rewards, best_mean)`. */
  function CalcCurves(actions: seq<int>, rewards: seq<real>, bestMean: real): (c: Curves)
    ensures c.actions == actions && c.rewards == rewards
    ensures |c.cumReward| == |rewards| && |c.cumRegret| == |rewards|
    ensures forall t :: 0 <= t < |rewards| ==> c.cumReward[t] == Sum(rewards[..t + 1])
    ensures forall t :: 0 <= t < |rewards| ==> c.cumRegret[t] == Sum(Regrets(rewards, bestMean)[..t + 1])
  {
    Curves(actions, rewards, CumSum(rewards), CumSum(Regrets(rewards, bestMean)))
  }

  /** The total regret is the best mean times the number of rounds minus the
    * total reward. */
  lemma {:induction false} SumRegrets(xs: seq<real>, bestMean: real)
    ensures Sum(Regrets(xs, bestMean)) == |xs| as real * bestMean - Sum(xs)
  {
    if xs != [] {
      var n := |xs|;
      SumRegrets(xs[..n - 1], bestMean);
      assert Regrets(xs, bestMean)[..n - 1] == Regrets(xs[..n - 1], bestMean);
    }
  }

  /** Cumulative reward and cumulative regret always add up to the best mean
    * times the number of rounds so far. */
  lemma CurvesBalance(actions: seq<int>, rewards: seq<real>, bestMean: real)
    ensures var c := CalcCurves(actions, rewards, bestMean);
            forall t :: 0 <= t < |rewards| ==> c.cumReward[t] + c.cumRegret[t] == (t + 1) as real * bestMean
  {
    var c := CalcCurves(actions, rewards, bestMean);
    forall t | 0 <= t < |rewards| ensures c.cumReward[t] + c.cumRegret[t] == (t + 1) as real * bestMean {
      var prefix := rewards[..t + 1];
      assert Regrets(rewards, bestMean)[..t + 1] == Regrets(prefix, bestMean);
      SumRegrets(prefix, bestMean);
    }
  }

  /** Rewards that all equal the best mean give a cumulative regret of zero
    * throughout. */
  lemma RegretZeroWhenOptimal(actions: seq<int>, rewards: seq<real>, bestMean: real)
    requires forall k :: 0 <= k < |rewards| ==> rewards[k] == bestMean
    ensures forall t :: 0 <= t < |rewards| ==> CalcCurves(actions, rewards, bestMean).cumRegret[t] == 0.0
  {
    var c := CalcCurves(actions, rewards, bestMean);
    CurvesBalance(actions, rewards, bestMean);
    forall t | 0 <= t < |rewards| ensures c.cumRegret[t] == 0.0 {
      SumConstant(rewards[..t + 1], bestMean);
    }
  }

  lemma {:induction false} SumConstant(xs: seq<real>, x: real)
    requires forall k :: 0 <= k < |xs| ==> xs[k] == x
    ensures Sum(xs) == |xs| as real * x
  {
    if xs != [] {
      SumConstant(xs[..|xs| - 1], x);
    }
  }

  /** Rewards that never exceed the best mean give a non-decreasing
    * cumulative regret. */
  lemma RegretMonotone(actions: seq<int>, rewards: seq<real>, bestMean: real)
    requires forall k :: 0 <= k < |rewards| ==> rewards[k] <= bestMean
    ensures var c := CalcCurves(actions, rewards, bestMean);
            forall t :: 0 < t < |rewards| ==> c.cumRegret[t - 1] <= c.cumRegret[t]
  {
    var c := CalcCurves(actions, rewards, bestMean);
    var g := Regrets(rewards, bestMean);
    forall t | 0 < t < |rewards| ensures c.cumRegret[t - 1] <= c.cumRegret[t] {
      var h := g[..t + 1];
      assert h[..t] == g[..t];
      assert Sum(h) == Sum(h[..t]) + h[t];
    }
  }

  /** The regret is not clamped: a reward above the best mean makes the
    * cumulative regret go down. */
  lemma RegretCanDecrease()
    ensures CalcCurves([0, 0], [0.0, 2.0], 1.0).cumRegret == [1.0, 0.0]
  {
    var c := CalcCurves([0, 0], [0.0, 2.0], 1.0);
    assert [0.0, 2.0][..1] == [0.0];
    assert [0.0, 2.0][..2] == [0.0, 2.0];
    assert Regrets([0.0, 2.0], 1.0) == [1.0, -1.0];
    assert [1.0, -1.0][..1] == [1.0];
  }

  /** One trial of `make_trials`. */
  datatype SimpleTrial = SimpleTrial(means: seq<real>, rewards: seq<seq<real>>)

  /** The trial `make_trials` draws from position `p`: `k` uniform means,
    * then an `n_rounds x k` block of noise. */
  function SimpleTrialAt(s: Stream, p: nat, k: nat, nRounds: nat, meanLow: real, meanHigh: real, sigma: real): (tr: SimpleTrial)
    ensures |tr.means| == k && |tr.rewards| == nRounds
    ensures forall t :: 0 <= t < nRounds ==> |tr.rewards[t]| == k
  {
    var means := UniformsAt(s, p, meanLow, meanHigh, k);
    SimpleTrial(means, AddMeans(means, NormalMatrixAt(s, p + k, sigma, nRounds, k)))
  }

  /** A trial's means lie in the mean range and its rewards are mean plus the
    * noise drawn for that cell. */
  lemma SimpleTrialShape(s: Stream, p: nat, k: nat, nRounds: nat, meanLow: real, meanHigh: real, sigma: real)
    ensures var tr := SimpleTrialAt(s, p, k, nRounds, meanLow, meanHigh, sigma);
            && |tr.means| == k && |tr.rewards| == nRounds
            && (meanLow <= meanHigh ==> forall i :: 0 <= i < k ==> meanLow <= tr.means[i] <= meanHigh)
            && forall t :: 0 <= t < nRounds ==>
                 (|tr.rewards[t]| == k
                  && forall i :: 0 <= i < k ==> tr.rewards[t][i] == tr.means[i] + NormalAt(s, p + k + t * k + i, 0.0, sigma))
  {
  }

  /** `make_trials`: one generator seeded with `seed` draws all trials, one
    * after another, each taking `n_arms + n_rounds * n_arms` draws. A
    * negative arm count fails at the first draw. */
  method MakeTrials(nTrials: nat, nArms: int, nRounds: nat, meanLow: real, meanHigh: real, sigma: real,
                    seed: int, family: Family)
    returns (r: Result<seq<SimpleTrial>, EnvError>)
    ensures r.Failure? <==> nTrials > 0 && nArms < 0
    ensures r.Failure? ==> r.error == NegativeSize
    ensures r.Success? ==> |r.value| == nTrials
    ensures r.Success? ==> forall i :: 0 <= i < nTrials ==>
              r.value[i] == SimpleTrialAt(family(seed), i * (nArms + nRounds * nArms), nArms, nRounds, meanLow, meanHigh, sigma)
  {
    if nTrials > 0 && nArms < 0 {
      return Failure(NegativeSize);
    }
    var k: nat := if nArms < 0 then 0 else nArms;
    var rng := new Rng(family(seed));
    var trials: seq<SimpleTrial> := [];
    for i := 0 to nTrials
      invariant rng.stream == family(seed) && rng.pos == i * (k + nRounds * k)
      invariant |trials| == i
      invariant forall j :: 0 <= j < i ==>
                  trials[j] == SimpleTrialAt(family(seed), j * (k + nRounds * k), k, nRounds, meanLow, meanHigh, sigma)
    {
      var means := rng.Uniforms(meanLow, meanHigh, k);
      var noise := rng.NormalMatrix(sigma, nRounds, k);
      trials := trials + [SimpleTrial(means, AddMeans(means, noise))];
      assert (i + 1) * (k + nRounds * k) == i * (k + nRounds * k) + k + nRounds * k;
    }
    return Success(trials);
  }

  /** One record of `make_trials_from_configs`. */
  datatype TrialRecord = TrialRecord(
    means: seq<real>, rewards: seq<seq<real>>, nArms: nat, bestArm: nat, bestMean: real,
    sigma: real, meanLow: real, meanHigh: real)

  /** The record the environment of `config`, on stream `s`, yields, or the
    * error its construction raises. */
  function TrialFromConfig(config: BanditConfig, s: Stream, nRounds: nat): (r: Result<TrialRecord, EnvError>)
    ensures r.Success? <==> if config.means.Some? then config.means.value != [] else config.nArms > 0
    ensures config.means.None? && config.nArms < 0 ==> r == Failure(NegativeSize)
  {
    if config.means.None? && config.nArms < 0 then Failure(NegativeSize)
    else
      var m := InitialMeans(config, s);
      if m == [] then Failure(NoArms)
      else
        var best := ArgMax(m);
        Success(TrialRecord(m, AddMeans(m, NormalMatrixAt(s, MeanDraws(config), config.sigma, nRounds, |m|)),
                            |m|, best, m[best], config.sigma, config.meanLow, config.meanHigh))
  }

  /** A record carries its environment's arm count, first best arm and best
    * mean, and rewards that are each mean plus the noise drawn after the
    * means. */
  lemma TrialRecordShape(config: BanditConfig, s: Stream, nRounds: nat)
    requires TrialFromConfig(config, s, nRounds).Success?
    ensures var tr := TrialFromConfig(config, s, nRounds).value;
            && tr.nArms == |tr.means| > 0 && tr.bestArm < tr.nArms && tr.bestMean == tr.means[tr.bestArm]
            && (forall j :: 0 <= j < tr.nArms ==> tr.means[j] <= tr.bestMean)
            && (forall j :: 0 <= j < tr.bestArm ==> tr.means[j] < tr.bestMean)
            && (config.means.Some? ==> tr.means == config.means.value)
            && (config.means.None? ==> tr.nArms == config.nArms)
            && |tr.rewards| == nRounds
            && forall t :: 0 <= t < nRounds ==>
                 (|tr.rewards[t]| == tr.nArms
                  && forall i :: 0 <= i < tr.nArms ==>
                       tr.rewards[t][i] == tr.means[i] + NormalAt(s, MeanDraws(config) + t * tr.nArms + i, 0.0, config.sigma))
  {
  }

  /** The stream the environment of config `i` draws from. */
  function StreamOf(configs: seq<BanditConfig>, i: nat, family: Family, entropy: nat -> Stream): Stream
    requires i < |configs|
  {
    StreamFor(family, configs[i].seed, entropy(i))
  }

  /** Rewards that are each mean plus the noise drawn after the means make
    * the record of the config. */
  lemma RecordOfRun(config: BanditConfig, s: Stream, nRounds: nat, means: seq<real>, rewards: seq<seq<real>>)
    requires config.means.Some? || config.nArms >= 0
    requires means == InitialMeans(config, s) && means != []
    requires |rewards| == nRounds && forall t :: 0 <= t < nRounds ==> |rewards[t]| == |means|
    requires forall t, i :: 0 <= t < nRounds && 0 <= i < |means| ==>
               rewards[t][i] == means[i] + NormalAt(s, MeanDraws(config) + t * |means| + i, 0.0, config.sigma)
    ensures TrialFromConfig(config, s, nRounds)
            == Success(TrialRecord(means, rewards, |means|, ArgMax(means), means[ArgMax(means)],
                                   config.sigma, config.meanLow, config.meanHigh))
  {
    var noise := NormalMatrixAt(s, MeanDraws(config), config.sigma, nRounds, |means|);
    assert rewards == AddMeans(means, noise) by {
      forall t | 0 <= t < nRounds ensures rewards[t] == AddMeans(means, noise)[t] {
        assert forall k :: 0 <= k < |means| ==> rewards[t][k] == AddMeans(means, noise)[t][k];
      }
    }
  }

  /** `make_trials_from_configs`: one environment per config, in order; the
    * first config whose environment cannot be built ends the run with its
    * error. A config without a seed draws from fresh entropy. */
  method MakeTrialsFromConfigs(configs: seq<BanditConfig>, nRounds: nat, family: Family, entropy: nat -> Stream)
    returns (r: Result<seq<TrialRecord>, EnvError>)
    ensures r.Success? <==> forall i :: 0 <= i < |configs| ==>
              TrialFromConfig(configs[i], StreamOf(configs, i, family, entropy), nRounds).Success?
    ensures r.Failure? ==>
              exists i :: (0 <= i < |configs|
                && TrialFromConfig(configs[i], StreamOf(configs, i, family, entropy), nRounds) == Failure(r.error)
                && forall j :: 0 <= j < i ==> TrialFromConfig(configs[j], StreamOf(configs, j, family, entropy), nRounds).Success?)
    ensures r.Success? ==> |r.value| == |configs| && forall i :: 0 <= i < |configs| ==>
              r.value[i] == TrialFromConfig(configs[i], StreamOf(configs, i, family, entropy), nRounds).value
  {
    var trials: seq<TrialRecord> := [];
    for i := 0 to |configs|
      invariant |trials| == i
      invariant forall j :: 0 <= j < i ==>
                  TrialFromConfig(configs[j], StreamOf(configs, j, family, entropy), nRounds) == Success(trials[j])
    {
      var made := MakeTrial(configs[i], StreamFor(family, configs[i].seed, entropy(i)), nRounds);
      if made.Failure? {
        return Failure(made.error);
      }
      trials := trials + [made.value];
    }
    return Success(trials);
  }

  /** One config's trial: its environment is built from the stream and its
    * rewards drawn right after its means. */
  method MakeTrial(config: BanditConfig, s: Stream, nRounds: nat) returns (r: Result<TrialRecord, EnvError>)
    ensures r == TrialFromConfig(config, s, nRounds)
  {
    var made := BanditEnv.Open(config, s);
    if made.Failure? {
      return Failure(made.error);
    }
    var env := made.value;
    var rewards := env.GenerateRewards(nRounds);
    RecordOfRun(config, s, nRounds, env.means, rewards);
    r := Success(TrialRecord(env.means, rewards, env.nArms, env.bestArm, env.bestMean,
                             config.sigma, config.meanLow, config.meanHigh));
  }
}
