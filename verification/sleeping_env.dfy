/**
 * The sleeping bandit environment: in every round each arm is awake with
 * probability `1 - sleep_prob`, at least one arm is always awake, and a
 * sleeping arm's reward cell holds the sentinel -999.
 */
module SleepingEnvironment {
  import opened Wrappers
  import opened Random
  import opened Seqs

  /** The value written into the reward cell of a sleeping arm. */
  const Sentinel: real := -999.0

  datatype SleepingConfig = SleepingConfig(
    nArms: nat,
    meanLow: real,
    meanHigh: real,
    sigma: real,
    sleepProb: real,
    seed: Option<int>)

  /** `SleepingConfig(n_arms=..., sleep_prob=..., seed=...)` with the other
    * fields at their defaults. */
  function DefaultSleepingConfig(nArms: nat, sleepProb: real, seed: Option<int>): SleepingConfig {
    SleepingConfig(nArms, 2.0, 9.0, 1.0, sleepProb, seed)
  }

  /** The per-arm test `random(n_arms) > sleep_prob` on the draws from `p`. */
  function AwakeTest(s: Stream, p: nat, k: nat, q: real): (test: seq<bool>)
    ensures |test| == k
    ensures forall i :: 0 <= i < k ==> (test[i] <==> s(p + i).unit > q)
  {
    seq(k, i requires 0 <= i < k => s(p + i).unit > q)
  }

  /** The availability row of a round whose draws start at `p`. */
  function AvailabilityAt(s: Stream, p: nat, k: nat, q: real): (row: seq<bool>)
    requires k > 0
    ensures |row| == k
    ensures true in row
    ensures forall i :: 0 <= i < k && s(p + i).unit > q ==> row[i]
  {
    var test := AwakeTest(s, p, k, q);
    if true in test then test
    else
      var j := IntegersAt(s, p + k, 0, k);
      assert test[j := true][j];
      test[j := true]
  }

  /** An availability row wakes at least one arm: it is the per-arm test
    * when the test wakes some arm, and otherwise exactly the one arm whose
    * index is drawn right after the test. */
  lemma AvailabilityAtShape(s: Stream, p: nat, k: nat, q: real)
    requires k > 0
    ensures true in AvailabilityAt(s, p, k, q)
    ensures true in AwakeTest(s, p, k, q) ==> AvailabilityAt(s, p, k, q) == AwakeTest(s, p, k, q)
    ensures true !in AwakeTest(s, p, k, q) ==>
              forall i :: 0 <= i < k ==> (AvailabilityAt(s, p, k, q)[i] <==> i == IntegersAt(s, p + k, 0, k))
  {
    var test := AwakeTest(s, p, k, q);
    if true !in test {
      var j := IntegersAt(s, p + k, 0, k);
      assert AvailabilityAt(s, p, k, q)[j];
    }
  }

  /** The draws the availability row takes: the test, plus the forced index. */
  function AvailabilityDraws(s: Stream, p: nat, k: nat, q: real): nat {
    if true in AwakeTest(s, p, k, q) then k else k + 1
  }

  /** The reward row for availability `avail`, with the normal draws for the
    * awake arms taken in arm order from `p`. */
  function RewardRowAt(s: Stream, p: nat, means: seq<real>, sigma: real, avail: seq<bool>): (row: seq<real>)
    requires |avail| == |means|
    ensures |row| == |avail|
  {
    seq(|avail|, i requires 0 <= i < |avail| => RewardCellAt(s, p, means, sigma, avail, i))
  }

  /** Cell `i` of that row: the normal draw after those of the awake arms
    * before it, or the sentinel. */
  function RewardCellAt(s: Stream, p: nat, means: seq<real>, sigma: real, avail: seq<bool>, i: nat): real
    requires |avail| == |means| && i < |avail|
  {
    if avail[i] then NormalAt(s, p + CountTrue(avail[..i]), means[i], sigma) else Sentinel
  }

  /** One round: its availability row, its reward row, the position its
    * reward draws start at, and the position the next round starts at. */
  datatype Round = Round(availability: seq<bool>, rewards: seq<real>, drawStart: nat, next: nat)

  /** The round drawn from position `c`: the availability row, then one
    * normal per awake arm in arm order. */
  function RoundAt(s: Stream, c: nat, means: seq<real>, sigma: real, q: real): (r: Round)
    requires |means| > 0
    ensures |r.availability| == |r.rewards| == |means|
    ensures c + |means| <= r.drawStart <= c + |means| + 1
    ensures r.drawStart < r.next <= r.drawStart + |means|
  {
    var avail := AvailabilityAt(s, c, |means|, q);
    var d := c + AvailabilityDraws(s, c, |means|, q);
    CountTruePositive(avail);
    Round(avail, RewardRowAt(s, d, means, sigma, avail), d, d + CountTrue(avail))
  }

  /** The round drawn from `c`, field by field. */
  lemma RoundAtFields(s: Stream, c: nat, means: seq<real>, sigma: real, q: real)
    requires |means| > 0
    ensures var r := RoundAt(s, c, means, sigma, q);
            && r.availability == AvailabilityAt(s, c, |means|, q)
            && r.drawStart == c + AvailabilityDraws(s, c, |means|, q)
            && r.rewards == RewardRowAt(s, r.drawStart, means, sigma, r.availability)
            && r.next == r.drawStart + CountTrue(r.availability)
  {
  }

  /** Where the round after `rounds` starts, the first one starting at `p`. */
  function EndOf(p: nat, rounds: seq<Round>): nat {
    if rounds == [] then p else rounds[|rounds| - 1].next
  }

  /** The first `n` rounds of a generator drawing each round with `step`
    * from where the previous one ended. */
  function Rounds(step: nat -> Round, p: nat, n: nat): (rounds: seq<Round>)
    ensures |rounds| == n
  {
    if n == 0 then []
    else
      var prev := Rounds(step, p, n - 1);
      prev + [step(EndOf(p, prev))]
  }

  /** Round `t` of any run is the round drawn where the first `t` rounds
    * end: later rounds never change earlier ones. */
  lemma {:induction false} RoundsPrefix(step: nat -> Round, p: nat, n: nat, t: nat)
    requires t < n
    ensures Rounds(step, p, n)[t] == step(EndOf(p, Rounds(step, p, t)))
  {
    var r := step(EndOf(p, Rounds(step, p, t)));
    if t < n - 1 {
      RoundsPrefix(step, p, n - 1, t);
      assert Rounds(step, p, n - 1)[t] == r;
    }
  }

  /** The sleeping environment's round generator. */
  function Step(s: Stream, means: seq<real>, sigma: real, q: real): nat -> Round
    requires |means| > 0
  {
    (c: nat) => RoundAt(s, c, means, sigma, q)
  }

  /** The first `n` rounds of `generate_rewards` drawn from position `p`. */
  function GenerateRounds(s: Stream, p: nat, means: seq<real>, sigma: real, q: real, n: nat): (rounds: seq<Round>)
    requires |means| > 0
    ensures |rounds| == n
  {
    Rounds(Step(s, means, sigma, q), p, n)
  }

  /** One more round is the round drawn where the earlier ones end. */
  lemma GenerateRoundsStep(s: Stream, p: nat, means: seq<real>, sigma: real, q: real, n: nat)
    requires |means| > 0
    ensures var g := GenerateRounds(s, p, means, sigma, q, n);
            GenerateRounds(s, p, means, sigma, q, n + 1) == g + [RoundAt(s, EndOf(p, g), means, sigma, q)]
  {
    var step := Step(s, means, sigma, q);
    var g := Rounds(step, p, n);
    assert Rounds(step, p, n + 1) == g + [step(EndOf(p, g))];
  }

  /** A round wakes at least one arm; a sleeping cell holds exactly the
    * sentinel, and an awake cell holds the next normal draw around that
    * arm's mean, the awake arms taking their draws in arm order. */
  predicate WellFormedRound(s: Stream, means: seq<real>, sigma: real, r: Round) {
    && |r.availability| == |r.rewards| == |means|
    && true in r.availability
    && (forall i {:trigger r.rewards[i]} :: 0 <= i < |means| && !r.availability[i] ==> r.rewards[i] == Sentinel)
    && (forall i {:trigger r.rewards[i]} :: 0 <= i < |means| && r.availability[i] ==>
          r.rewards[i] == NormalAt(s, r.drawStart + CountTrue(r.availability[..i]), means[i], sigma))
  }

  lemma RoundAtIsWellFormed(s: Stream, c: nat, means: seq<real>, sigma: real, q: real)
    requires |means| > 0
    ensures WellFormedRound(s, means, sigma, RoundAt(s, c, means, sigma, q))
  {
    var r := RoundAt(s, c, means, sigma, q);
    RoundAtFields(s, c, means, sigma, q);
    AvailabilityAtShape(s, c, |means|, q);
    assert r == Round(r.availability, RewardRowAt(s, r.drawStart, means, sigma, r.availability), r.drawStart, r.next);
    RewardRowIsWellFormed(s, means, sigma, r.availability, r.drawStart, r.next);
  }

  /** The reward row drawn for an availability row that wakes some arm
    * makes a well-formed round. */
  lemma RewardRowIsWellFormed(s: Stream, means: seq<real>, sigma: real, avail: seq<bool>, d: nat, next: nat)
    requires |avail| == |means| && true in avail
    ensures WellFormedRound(s, means, sigma, Round(avail, RewardRowAt(s, d, means, sigma, avail), d, next))
  {
    var row := RewardRowAt(s, d, means, sigma, avail);
    var r := Round(avail, row, d, next);
    forall i | 0 <= i < |means|
      ensures r.rewards[i] == RewardCellAt(s, d, means, sigma, avail, i)
    {
      assert r.rewards[i] == row[i];
    }
  }

  /** Every round `generate_rewards` draws is well formed. */
  lemma RoundIsWellFormed(s: Stream, p: nat, means: seq<real>, sigma: real, q: real, n: nat, t: nat)
    requires |means| > 0 && t < n
    ensures WellFormedRound(s, means, sigma, GenerateRounds(s, p, means, sigma, q, n)[t])
  {
    var step := Step(s, means, sigma, q);
    var c := EndOf(p, Rounds(step, p, t));
    RoundsPrefix(step, p, n, t);
    assert GenerateRounds(s, p, means, sigma, q, n)[t] == RoundAt(s, c, means, sigma, q);
    RoundAtIsWellFormed(s, c, means, sigma, q);
  }

  datatype Matrices = Matrices(rewards: array2<real>, availability: array2<bool>)

  datatype SleepingError = EmptyRange  // `integers(0, 0)` when no arm exists

  class SleepingBanditEnv {
    const config: SleepingConfig
    const rng: Rng
    const means: seq<real>
    const nArms: nat

    predicate Valid() {
      nArms == |means| == config.nArms
    }

    /** `SleepingBanditEnv(config)`: `n_arms` uniform means drawn from the
      * start of the stream `s` that the config's seed selects. */
    constructor (config: SleepingConfig, s: Stream)
      ensures Valid() && fresh(rng)
      ensures this.config == config && nArms == config.nArms
      ensures means == UniformsAt(s, 0, config.meanLow, config.meanHigh, config.nArms)
      ensures rng.stream == s && rng.pos == config.nArms
    {
      var g := new Rng(s);
      var ms := g.Uniforms(config.meanLow, config.meanHigh, config.nArms);
      this.config := config;
      this.rng := g;
      this.means := ms;
      this.nArms := config.nArms;
    }

    /** The first `t` rows of the arrays hold the rounds `g`. */
    ghost predicate Filled(rewards: array2<real>, availability: array2<bool>, g: seq<Round>, t: nat)
      reads rewards, availability
    {
      && rewards.Length0 >= t && availability.Length0 >= t
      && rewards.Length1 == nArms && availability.Length1 == nArms
      && |g| >= t
      && (forall t' :: 0 <= t' < t ==> |g[t'].availability| == nArms && |g[t'].rewards| == nArms)
      && forall t', i :: 0 <= t' < t && 0 <= i < nArms ==>
           availability[t', i] == g[t'].availability[i] && rewards[t', i] == g[t'].rewards[i]
    }

    /** `generate_rewards(n_rounds)`: fills zero-initialised
      * `n_rounds x n_arms` reward and availability arrays round by round.
      * With no arms and at least one round, drawing the forced arm fails. */
    method GenerateRewards(nRounds: nat) returns (r: Result<Matrices, SleepingError>)
      requires Valid()
      modifies rng
      ensures nArms == 0 && nRounds > 0 ==> r == Failure(EmptyRange) && rng.pos == old(rng.pos)
      ensures nArms > 0 || nRounds == 0 ==> r.Success?
      ensures r.Success? ==>
        && fresh(r.value.rewards) && fresh(r.value.availability)
        && r.value.rewards.Length0 == nRounds && r.value.rewards.Length1 == nArms
        && r.value.availability.Length0 == nRounds && r.value.availability.Length1 == nArms
      ensures r.Success? && nArms > 0 ==>
        var g := GenerateRounds(rng.stream, old(rng.pos), means, config.sigma, config.sleepProb, nRounds);
        && rng.pos == EndOf(old(rng.pos), g)
        && Filled(r.value.rewards, r.value.availability, g, nRounds)
    {
      if nArms == 0 && nRounds > 0 {
        return Failure(EmptyRange);
      }
      var rewards := new real[nRounds, nArms]((t, i) => 0.0);
      var availability := new bool[nRounds, nArms]((t, i) => false);
      if nArms > 0 {
        FillRounds(rewards, availability);
      }
      r := Success(Matrices(rewards, availability));
    }

    /** The loop over rounds of `generate_rewards`. */
    method FillRounds(rewards: array2<real>, availability: array2<bool>)
      requires Valid() && nArms > 0
      requires rewards.Length0 == availability.Length0
      requires rewards.Length1 == nArms && availability.Length1 == nArms
      modifies rewards, availability, rng
      ensures var g := GenerateRounds(rng.stream, old(rng.pos), means, config.sigma, config.sleepProb, rewards.Length0);
              rng.pos == EndOf(old(rng.pos), g) && Filled(rewards, availability, g, rewards.Length0)
    {
      var q := config.sleepProb;
      ghost var s, p0 := rng.stream, rng.pos;
      for t := 0 to rewards.Length0
        invariant rng.pos == EndOf(p0, GenerateRounds(s, p0, means, config.sigma, q, t))
        invariant Filled(rewards, availability, GenerateRounds(s, p0, means, config.sigma, q, t), t)
      {
        NextRound(rewards, availability, t, p0, GenerateRounds(s, p0, means, config.sigma, q, t));
      }
    }

    /** One pass of the outer loop: draws the availability row of round
      * `t`, then fills row `t` from it. */
    method NextRound(rewards: array2<real>, availability: array2<bool>, t: nat, ghost p0: nat, ghost g: seq<Round>)
      requires Valid() && nArms > 0
      requires rewards.Length0 == availability.Length0 && t < rewards.Length0
      requires rewards.Length1 == nArms && availability.Length1 == nArms
      requires g == GenerateRounds(rng.stream, p0, means, config.sigma, config.sleepProb, t)
      requires rng.pos == EndOf(p0, g) && Filled(rewards, availability, g, t)
      modifies rewards, availability, rng
      ensures var next := GenerateRounds(rng.stream, p0, means, config.sigma, config.sleepProb, t + 1);
              rng.pos == EndOf(p0, next) && Filled(rewards, availability, next, t + 1)
    {
      ghost var s, q, c := rng.stream, config.sleepProb, rng.pos;
      ghost var r := RoundAt(s, c, means, config.sigma, q);
      RoundAtFields(s, c, means, config.sigma, q);
      GenerateRoundsStep(s, p0, means, config.sigma, q, t);
      ghost var next := GenerateRounds(s, p0, means, config.sigma, q, t + 1);
      assert next == g + [r];
      var row := DrawAvailability();
      assert row == r.availability && rng.pos == r.drawStart;
      FillRound(rewards, availability, t, row, g, r);
    }

    /** One round's `availability[t] = random(n_arms) > sleep_prob`, with the
      * forced arm when the test wakes none. */
    method DrawAvailability() returns (row: seq<bool>)
      requires Valid() && nArms > 0
      modifies rng
      ensures row == AvailabilityAt(rng.stream, old(rng.pos), nArms, config.sleepProb)
      ensures rng.pos == old(rng.pos) + AvailabilityDraws(rng.stream, old(rng.pos), nArms, config.sleepProb)
    {
      var test := rng.Units(nArms);
      row := seq(nArms, i requires 0 <= i < nArms => test[i] > config.sleepProb);
      assert row == AwakeTest(rng.stream, old(rng.pos), nArms, config.sleepProb);
      if true !in row {
        var j := rng.Integers(0, nArms);
        row := row[j := true];
      }
      AvailabilityAtShape(rng.stream, old(rng.pos), nArms, config.sleepProb);
    }

    /** One round of the outer loop: row `t` gets the round's availability
      * and rewards, and the rows before it keep the earlier rounds. */
    method FillRound(rewards: array2<real>, availability: array2<bool>, t: nat, row: seq<bool>, ghost g: seq<Round>, ghost r: Round)
      requires Valid() && |row| == nArms
      requires rewards.Length0 == availability.Length0 && t < rewards.Length0
      requires rewards.Length1 == nArms && availability.Length1 == nArms
      requires Filled(rewards, availability, g, t) && |g| == t
      requires r.availability == row && r.rewards == RewardRowAt(rng.stream, rng.pos, means, config.sigma, row)
      modifies rewards, availability, rng
      ensures Filled(rewards, availability, g + [r], t + 1)
      ensures rng.pos == old(rng.pos) + CountTrue(row)
    {
      FillRow(rewards, availability, t, row);
      forall t', i | 0 <= t' <= t && 0 <= i < nArms
        ensures availability[t', i] == (g + [r])[t'].availability[i] && rewards[t', i] == (g + [r])[t'].rewards[i]
      {
        if t' < t {
          assert (g + [r])[t'] == g[t'];
        }
      }
    }

    /** The inner loop of one round: copies the availability row into row
      * `t` and fills row `t` of the rewards, a normal draw for each awake
      * arm and the sentinel for each sleeping one. */
    method FillRow(rewards: array2<real>, availability: array2<bool>, t: nat, row: seq<bool>)
      requires Valid() && |row| == nArms
      requires rewards.Length0 == availability.Length0 && t < rewards.Length0
      requires rewards.Length1 == nArms && availability.Length1 == nArms
      modifies rewards, availability, rng
      ensures forall t', i :: 0 <= t' < rewards.Length0 && t' != t && 0 <= i < nArms ==>
                rewards[t', i] == old(rewards[t', i]) && availability[t', i] == old(availability[t', i])
      ensures forall i :: 0 <= i < nArms ==>
                availability[t, i] == row[i]
                && rewards[t, i] == RewardRowAt(rng.stream, old(rng.pos), means, config.sigma, row)[i]
      ensures rng.pos == old(rng.pos) + CountTrue(row)
    {
      ghost var c := rng.pos;
      for i := 0 to nArms
        invariant rng.pos == c + CountTrue(row[..i])
        invariant forall t', i' :: 0 <= t' < rewards.Length0 && t' != t && 0 <= i' < nArms ==>
                    rewards[t', i'] == old(rewards[t', i']) && availability[t', i'] == old(availability[t', i'])
        invariant forall i' :: 0 <= i' < i ==>
                    availability[t, i'] == row[i'] && rewards[t, i'] == RewardRowAt(rng.stream, c, means, config.sigma, row)[i']
      {
        assert row[..i + 1][..i] == row[..i];
        availability[t, i] := row[i];
        if row[i] {
          var x := rng.Normal(means[i], config.sigma);
          rewards[t, i] := x;
        } else {
          rewards[t, i] := Sentinel;
        }
      }
      assert row[..nArms] == row;
    }
  }

  /** `create_sleeping_configs(n_trials, seed)`: config i has seed `seed + i`,
    * sleep probability 0.3 and an arm count drawn from [3, 10]. */
  method CreateSleepingConfigs(nTrials: nat, seed: int, family: Family) returns (configs: seq<SleepingConfig>)
    ensures |configs| == nTrials
    ensures forall i :: 0 <= i < nTrials ==>
              && configs[i] == DefaultSleepingConfig(configs[i].nArms, 0.3, Some(seed + i))
              && 3 <= configs[i].nArms <= 10
              && configs[i].nArms == IntegersAt(family(seed), i, 3, 11)
  {
    var rng := new Rng(family(seed));
    configs := [];
    for i := 0 to nTrials
      invariant rng.pos == i && rng.stream == family(seed)
      invariant |configs| == i
      invariant forall j :: 0 <= j < i ==>
                  configs[j] == DefaultSleepingConfig(IntegersAt(family(seed), j, 3, 11), 0.3, Some(seed + j))
    {
      var n := rng.Integers(3, 11);
      configs := configs + [DefaultSleepingConfig(n, 0.3, Some(seed + i))];
    }
  }
}
