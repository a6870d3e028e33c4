/**
 * The parameter generator: draws groups of bandit parameters for the five
 * task kinds (basic, restless, contextual, adversarial, sleeping) from one
 * seeded generator, and turns one parameter group into a trial (true means,
 * a reward matrix, the best arm and the kind's extra information).
 */
module ParamGeneration {
  import opened Wrappers
  import opened Random
  import opened Seqs
  import opened Text
  import BanditEnvironment

  /** A closed interval `[lo, hi]` as the configuration writes it. */
  type IntRange = (int, int)
  type RealRange = (real, real)

  /** The parts of the experiment configuration the generator reads; a
    * missing entry takes its default. */
  datatype GenConfig = GenConfig(
    nArmsRange: Option<IntRange>,
    meanLowRange: Option<RealRange>,
    meanHighRange: Option<RealRange>,
    sigmaRange: Option<RealRange>,
    driftRateRange: Option<RealRange>,
    switchIntervalRange: Option<IntRange>,
    sleepProbRange: Option<RealRange>)

  function NArmsRange(cfg: GenConfig): IntRange { cfg.nArmsRange.GetOr((3, 10)) }
  function MeanLowRange(cfg: GenConfig): RealRange { cfg.meanLowRange.GetOr((2.0, 5.0)) }
  function MeanHighRange(cfg: GenConfig): RealRange { cfg.meanHighRange.GetOr((7.0, 9.0)) }
  function SigmaRange(cfg: GenConfig): RealRange { cfg.sigmaRange.GetOr((0.5, 2.0)) }
  function DriftRateRange(cfg: GenConfig): RealRange { cfg.driftRateRange.GetOr((0.03, 0.08)) }
  function SwitchIntervalRange(cfg: GenConfig): IntRange { cfg.switchIntervalRange.GetOr((20, 40)) }
  function SleepProbRange(cfg: GenConfig): RealRange { cfg.sleepProbRange.GetOr((0.2, 0.4)) }

  /** The information only one task kind carries. */
  datatype Extra =
    | Basic
    | Drift(driftRate: real)
    | Contexts(nContexts: int)
    | Adversarial(switchInterval: int)  // also sets the flag `adversarial = True`
    | Sleep(sleepProb: real)

  /** One parameter group. */
  datatype Params = Params(nArms: int, meanLow: real, meanHigh: real, sigma: real,
                           seed: int, groupId: nat, extra: Extra)

  /** `integers(lo, hi + 1)` with `hi < lo`: numpy rejects the empty range. */
  datatype GenError = EmptyRange

  /** The kinds whose groups carry an extra draw. */
  datatype ExtraKind = Restless | Contextual | AdversarialKind | Sleeping

  /** Whether the inclusive integer range can be drawn from. */
  predicate Drawable(r: IntRange) { r.0 <= r.1 }

  /** Basic group `i`, its four draws starting at `q`: the arm count, the
    * low and high ends of the mean range, and the noise level. */
  function BasicGroupAt(s: Stream, q: nat, cfg: GenConfig, seed: int, i: nat): (g: Params)
    requires Drawable(NArmsRange(cfg))
    ensures NArmsRange(cfg).0 <= g.nArms <= NArmsRange(cfg).1
    ensures MeanLowRange(cfg).0 <= MeanLowRange(cfg).1 ==> MeanLowRange(cfg).0 <= g.meanLow <= MeanLowRange(cfg).1
    ensures MeanHighRange(cfg).0 <= MeanHighRange(cfg).1 ==> MeanHighRange(cfg).0 <= g.meanHigh <= MeanHighRange(cfg).1
    ensures SigmaRange(cfg).0 <= SigmaRange(cfg).1 ==> SigmaRange(cfg).0 <= g.sigma <= SigmaRange(cfg).1
    ensures g.seed == seed + i * 100 && g.groupId == i && g.extra == Basic
  {
    var (lo, hi) := NArmsRange(cfg);
    Params(IntegersAt(s, q, lo, hi + 1),
           UniformAt(s, q + 1, MeanLowRange(cfg).0, MeanLowRange(cfg).1),
           UniformAt(s, q + 2, MeanHighRange(cfg).0, MeanHighRange(cfg).1),
           UniformAt(s, q + 3, SigmaRange(cfg).0, SigmaRange(cfg).1),
           seed + i * 100, i, Basic)
  }

  /** `generate_basic_params(n)` drawn from position `p`. */
  function BasicParamsAt(s: Stream, p: nat, cfg: GenConfig, seed: int, n: nat): (ps: seq<Params>)
    requires n == 0 || Drawable(NArmsRange(cfg))
    ensures |ps| == n
  {
    seq(n, i requires 0 <= i < n => BasicGroupAt(s, p + 4 * i, cfg, seed, i))
  }

  /** Basic groups are numbered in order, get seeds 100 apart, and so never
    * share a seed. */
  lemma BasicSeedsDistinct(s: Stream, p: nat, cfg: GenConfig, seed: int, n: nat)
    requires n == 0 || Drawable(NArmsRange(cfg))
    ensures forall i :: 0 <= i < n ==> BasicParamsAt(s, p, cfg, seed, n)[i].groupId == i
    ensures forall i, j :: 0 <= i < j < n ==>
              BasicParamsAt(s, p, cfg, seed, n)[j].seed - BasicParamsAt(s, p, cfg, seed, n)[i].seed == (j - i) * 100
  {
    var ps := BasicParamsAt(s, p, cfg, seed, n);
    forall i, j | 0 <= i < j < n ensures ps[j].seed - ps[i].seed == (j - i) * 100 {
      assert ps[j].seed == seed + j * 100 && ps[i].seed == seed + i * 100;
    }
  }

  /** Whether a kind's extra draw can be made. */
  predicate ExtraDrawable(cfg: GenConfig, kind: ExtraKind) {
    kind == AdversarialKind ==> Drawable(SwitchIntervalRange(cfg))
  }

  /** The extra a group of `kind` draws at position `q`. */
  function ExtraAt(s: Stream, q: nat, cfg: GenConfig, kind: ExtraKind): (e: Extra)
    requires ExtraDrawable(cfg, kind)
    ensures kind == Restless <==> e.Drift?
    ensures kind == Contextual <==> e.Contexts?
    ensures kind == AdversarialKind <==> e.Adversarial?
    ensures kind == Sleeping <==> e.Sleep?
    ensures e.Contexts? ==> 2 <= e.nContexts <= 5
    ensures e.Adversarial? ==> SwitchIntervalRange(cfg).0 <= e.switchInterval <= SwitchIntervalRange(cfg).1
    ensures e.Drift? && DriftRateRange(cfg).0 <= DriftRateRange(cfg).1 ==>
              DriftRateRange(cfg).0 <= e.driftRate <= DriftRateRange(cfg).1
    ensures e.Sleep? && SleepProbRange(cfg).0 <= SleepProbRange(cfg).1 ==>
              SleepProbRange(cfg).0 <= e.sleepProb <= SleepProbRange(cfg).1
  {
    match kind
    case Restless => Drift(UniformAt(s, q, DriftRateRange(cfg).0, DriftRateRange(cfg).1))
    case Contextual => Contexts(IntegersAt(s, q, 2, 6))
    case AdversarialKind => Adversarial(IntegersAt(s, q, SwitchIntervalRange(cfg).0, SwitchIntervalRange(cfg).1 + 1))
    case Sleeping => Sleep(UniformAt(s, q, SleepProbRange(cfg).0, SleepProbRange(cfg).1))
  }

  /** The groups `ps` after the extra loop of `kind` has drawn one extra per
    * group from position `p` on. */
  function WithExtrasAt(s: Stream, p: nat, cfg: GenConfig, kind: ExtraKind, ps: seq<Params>): (r: seq<Params>)
    requires |ps| == 0 || ExtraDrawable(cfg, kind)
    ensures |r| == |ps|
  {
    seq(|ps|, i requires 0 <= i < |ps| => ps[i].(extra := ExtraAt(s, p + i, cfg, kind)))
  }

  /** The groups of one extra kind drawn from position `p`: `n` basic groups,
    * then one extra per group. */
  function KindParamsAt(s: Stream, p: nat, cfg: GenConfig, seed: int, n: nat, kind: ExtraKind): (ps: seq<Params>)
    requires n == 0 || (Drawable(NArmsRange(cfg)) && ExtraDrawable(cfg, kind))
    ensures |ps| == n
  {
    WithExtrasAt(s, p + 4 * n, cfg, kind, BasicParamsAt(s, p, cfg, seed, n))
  }

  /** A kind's groups are its basic groups with only the extra changed, and
    * every extra is of that kind and within its range. */
  lemma KindParamsShape(s: Stream, p: nat, cfg: GenConfig, seed: int, n: nat, kind: ExtraKind)
    requires n == 0 || (Drawable(NArmsRange(cfg)) && ExtraDrawable(cfg, kind))
    ensures forall i :: 0 <= i < n ==>
              KindParamsAt(s, p, cfg, seed, n, kind)[i]
                == BasicParamsAt(s, p, cfg, seed, n)[i].(extra := ExtraAt(s, p + 4 * n + i, cfg, kind))
    ensures forall i :: 0 <= i < n ==> KindParamsAt(s, p, cfg, seed, n, kind)[i].seed == seed + i * 100
  {
  }

  /** The five parameter lists of `generate_all_params`. */
  datatype AllParams = AllParams(basic: seq<Params>, restless: seq<Params>, contextual: seq<Params>,
                                 adversarial: seq<Params>, sleeping: seq<Params>)

  /** `generate_all_params(n)` drawn from position `p`: the five lists are
    * drawn one after the other, basic taking `4 n` draws and each other
    * kind `5 n`. */
  function AllParamsAt(s: Stream, p: nat, cfg: GenConfig, seed: int, n: nat): (a: AllParams)
    requires n == 0 || (Drawable(NArmsRange(cfg)) && Drawable(SwitchIntervalRange(cfg)))
    ensures |a.basic| == |a.restless| == |a.contextual| == |a.adversarial| == |a.sleeping| == n
  {
    AllParams(BasicParamsAt(s, p, cfg, seed, n),
              KindParamsAt(s, p + 4 * n, cfg, seed, n, Restless),
              KindParamsAt(s, p + 9 * n, cfg, seed, n, Contextual),
              KindParamsAt(s, p + 14 * n, cfg, seed, n, AdversarialKind),
              KindParamsAt(s, p + 19 * n, cfg, seed, n, Sleeping))
  }

  /** The five lists reuse the same seeds and group numbers, so group `i` of
    * every kind shares its seed with basic group `i`. */
  lemma AllParamsShareSeeds(s: Stream, p: nat, cfg: GenConfig, seed: int, n: nat)
    requires n == 0 || (Drawable(NArmsRange(cfg)) && Drawable(SwitchIntervalRange(cfg)))
    ensures var a := AllParamsAt(s, p, cfg, seed, n);
            forall i :: 0 <= i < n ==>
              && a.restless[i].seed == a.basic[i].seed && a.contextual[i].seed == a.basic[i].seed
              && a.adversarial[i].seed == a.basic[i].seed && a.sleeping[i].seed == a.basic[i].seed
  {
    var a := AllParamsAt(s, p, cfg, seed, n);
    KindParamsShape(s, p + 4 * n, cfg, seed, n, Restless);
    KindParamsShape(s, p + 9 * n, cfg, seed, n, Contextual);
    KindParamsShape(s, p + 14 * n, cfg, seed, n, AdversarialKind);
    KindParamsShape(s, p + 19 * n, cfg, seed, n, Sleeping);
    forall i | 0 <= i < n
      ensures a.restless[i].seed == a.basic[i].seed && a.contextual[i].seed == a.basic[i].seed
      ensures a.adversarial[i].seed == a.basic[i].seed && a.sleeping[i].seed == a.basic[i].seed
    {
      assert a.basic[i].seed == seed + i * 100;
    }
  }

  class ParamGenerator {
    const config: GenConfig
    const seed: int
    const rng: Rng

    /** `ParamGenerator(config, seed)`: a generator seeded with `seed`. */
    constructor (config: GenConfig, seed: int, family: Family)
      ensures this.config == config && this.seed == seed
      ensures fresh(rng) && rng.stream == family(seed) && rng.pos == 0
    {
      this.config := config;
      this.seed := seed;
      this.rng := new Rng(family(seed));
    }

    /** `generate_basic_params(n_groups)`. */
    method GenerateBasicParams(nGroups: nat) returns (r: Result<seq<Params>, GenError>)
      modifies rng
      ensures nGroups > 0 && !Drawable(NArmsRange(config)) ==> r == Failure(EmptyRange) && rng.pos == old(rng.pos)
      ensures nGroups == 0 || Drawable(NArmsRange(config)) ==>
                && r == Success(BasicParamsAt(rng.stream, old(rng.pos), config, seed, nGroups))
                && rng.pos == old(rng.pos) + 4 * nGroups
    {
      var (lo, hi) := NArmsRange(config);
      if nGroups > 0 && hi + 1 <= lo {
        return Failure(EmptyRange);
      }
      ghost var p := rng.pos;
      var ps: seq<Params> := [];
      for i := 0 to nGroups
        invariant rng.pos == p + 4 * i
        invariant ps == BasicParamsAt(rng.stream, p, config, seed, i)
      {
        var nArms := rng.Integers(lo, hi + 1);
        var meanLow := rng.Uniform(MeanLowRange(config).0, MeanLowRange(config).1);
        var meanHigh := rng.Uniform(MeanHighRange(config).0, MeanHighRange(config).1);
        var sigma := rng.Uniform(SigmaRange(config).0, SigmaRange(config).1);
        ps := ps + [Params(nArms, meanLow, meanHigh, sigma, seed + i * 100, i, Basic)];
      }
      return Success(ps);
    }

    /** The loop that follows `generate_basic_params` in the restless,
      * contextual, adversarial and sleeping generators: one extra draw per
      * group, in group order. */
    method AddExtras(ps: seq<Params>, kind: ExtraKind) returns (r: Result<seq<Params>, GenError>)
      modifies rng
      ensures |ps| > 0 && !ExtraDrawable(config, kind) ==> r == Failure(EmptyRange) && rng.pos == old(rng.pos)
      ensures |ps| == 0 || ExtraDrawable(config, kind) ==>
                && r == Success(WithExtrasAt(rng.stream, old(rng.pos), config, kind, ps))
                && rng.pos == old(rng.pos) + |ps|
    {
      if |ps| > 0 && !ExtraDrawable(config, kind) {
        return Failure(EmptyRange);
      }
      ghost var p := rng.pos;
      var out: seq<Params> := [];
      for i := 0 to |ps|
        invariant rng.pos == p + i
        invariant out == WithExtrasAt(rng.stream, p, config, kind, ps[..i])
      {
        var e: Extra;
        match kind {
          case Restless =>
            var d := rng.Uniform(DriftRateRange(config).0, DriftRateRange(config).1);
            e := Drift(d);
          case Contextual =>
            var c := rng.Integers(2, 6);
            e := Contexts(c);
          case AdversarialKind =>
            var w := rng.Integers(SwitchIntervalRange(config).0, SwitchIntervalRange(config).1 + 1);
            e := Adversarial(w);
          case Sleeping =>
            var q := rng.Uniform(SleepProbRange(config).0, SleepProbRange(config).1);
            e := Sleep(q);
        }
        out := out + [ps[i].(extra := e)];
      }
      assert ps[..|ps|] == ps;
      return Success(out);
    }

    /** `generate_restless_params`, `generate_contextual_params`,
      * `generate_adversarial_params` and `generate_sleeping_params`: fresh
      * basic groups, then the kind's extra for each. */
    method GenerateKindParams(nGroups: nat, kind: ExtraKind) returns (r: Result<seq<Params>, GenError>)
      modifies rng
      ensures nGroups > 0 && !Drawable(NArmsRange(config)) ==> r == Failure(EmptyRange) && rng.pos == old(rng.pos)
      ensures nGroups > 0 && Drawable(NArmsRange(config)) && !ExtraDrawable(config, kind) ==>
                r == Failure(EmptyRange) && rng.pos == old(rng.pos) + 4 * nGroups
      ensures nGroups == 0 || (Drawable(NArmsRange(config)) && ExtraDrawable(config, kind)) ==>
                && r == Success(KindParamsAt(rng.stream, old(rng.pos), config, seed, nGroups, kind))
                && rng.pos == old(rng.pos) + 5 * nGroups
    {
      var basic := GenerateBasicParams(nGroups);
      if basic.Failure? {
        return Failure(basic.error);
      }
      r := AddExtras(basic.value, kind);
    }

    /** `generate_all_params(n_groups)`: the five lists, drawn in the order
      * basic, restless, contextual, adversarial, sleeping. */
    method GenerateAllParams(nGroups: nat) returns (r: Result<AllParams, GenError>)
      modifies rng
      ensures nGroups > 0 && !Drawable(NArmsRange(config)) ==> r == Failure(EmptyRange) && rng.pos == old(rng.pos)
      ensures nGroups > 0 && Drawable(NArmsRange(config)) && !Drawable(SwitchIntervalRange(config)) ==>
                r == Failure(EmptyRange) && rng.pos == old(rng.pos) + 18 * nGroups
      ensures nGroups == 0 || (Drawable(NArmsRange(config)) && Drawable(SwitchIntervalRange(config))) ==>
                && r == Success(AllParamsAt(rng.stream, old(rng.pos), config, seed, nGroups))
                && rng.pos == old(rng.pos) + 24 * nGroups
    {
      var basic := GenerateBasicParams(nGroups);
      if basic.Failure? {
        return Failure(basic.error);
      }
      var restless := GenerateKindParams(nGroups, Restless);
      var contextual := GenerateKindParams(nGroups, Contextual);
      var adversarial := GenerateKindParams(nGroups, AdversarialKind);
      if adversarial.Failure? {
        return Failure(adversarial.error);
      }
      var sleeping := GenerateKindParams(nGroups, Sleeping);
      return Success(AllParams(basic.value, restless.value, contextual.value, adversarial.value, sleeping.value));
    }
  }

  /** The errors `create_trial_from_params` raises. */
  datatype TrialError =
    | NegativeSize   // `uniform(size=n_arms)` with a negative arm count
    | NoArms         // `np.argmax` of the empty vector of means
    | ZeroContexts   // `i % n_contexts` with `n_contexts == 0`

  /** A trial built from a parameter group. */
  datatype Trial = Trial(
    means: seq<real>,
    rewards: seq<seq<real>>,
    nArms: nat,
    bestArm: nat,
    bestMean: real,
    params: Params,
    contexts: Option<seq<string>>)

  /** Python's `a // b` for `b != 0`: the quotient rounded towards minus
    * infinity. */
  function PyDiv(a: int, b: int): int
    requires b != 0
  {
    if b > 0 || a % b == 0 then a / b else a / b - 1
  }

  /** Python's `a % b` for `b != 0`: what is left of `a` after `a // b`
    * times `b`, which takes the sign of `b`. */
  function PyMod(a: int, b: int): (r: int)
    requires b != 0
    ensures a == PyDiv(a, b) * b + r
    ensures b > 0 ==> 0 <= r < b
    ensures b < 0 ==> b < r <= 0
  {
    var e := a % b;
    if b > 0 || e == 0 then e
    else
      assert (a / b - 1) * b == a / b * b - b;
      e + b
  }

  /** The sign rule pins the remainder: any `q` and `r` with `a == q*b + r`
    * and `r` between 0 and `b` are Python's quotient and remainder. */
  lemma PyModUnique(a: int, b: int, q: int, r: int)
    requires b != 0 && a == q * b + r
    requires b > 0 ==> 0 <= r < b
    requires b < 0 ==> b < r <= 0
    ensures q == PyDiv(a, b) && r == PyMod(a, b)
  {
    var q', r' := PyDiv(a, b), PyMod(a, b);
    assert (q - q') * b == r' - r;
    if q > q' {
      if b < 0 {
        assert (q - q') * b == -((q - q') * -b);
      }
      MulAtLeast(q - q', if b > 0 then b else -b);
    } else if q < q' {
      if b > 0 {
        assert (q - q') * b == -((q' - q) * b);
      } else {
        assert (q - q') * b == (q' - q) * -b;
      }
      MulAtLeast(q' - q, if b > 0 then b else -b);
    }
  }

  /** Python's `str` of an integer: the decimal digits of its magnitude,
    * without leading zeros, after a `-` when it is negative. */
  function IntToString(x: int): (s: string)
    ensures x >= 0 ==> |s| > 0 && AllDigits(s) && DecimalValue(s) == x && (s[0] == '0' ==> s == "0")
    ensures x < 0 ==> |s| > 1 && s[0] == '-' && AllDigits(s[1..]) && DecimalValue(s[1..]) == -x && s[1] != '0'
  {
    if x >= 0 then
      DecimalRoundTrip(x);
      NatToString(x)
    else
      var digits := NatToString(-x);
      DecimalRoundTrip(-x);
      assert ("-" + digits)[1..] == digits;
      "-" + digits
  }

  /** The round labels `f"context_{i % n_contexts}"` of `n` rounds. */
  function ContextLabels(nContexts: int, n: nat): (labels: seq<string>)
    requires nContexts != 0
    ensures |labels| == n
  {
    seq(n, t requires 0 <= t < n => "context_" + IntToString(PyMod(t, nContexts)))
  }

  /** With a positive count the labels cycle with period `n_contexts`, and
    * the number after `context_` reads back as the round modulo the count. */
  lemma ContextLabelsCycle(nContexts: int, n: nat, t: nat)
    requires nContexts > 0 && t < n
    ensures ContextLabels(nContexts, n)[t][..8] == "context_"
    ensures AllDigits(ContextLabels(nContexts, n)[t][8..])
    ensures DecimalValue(ContextLabels(nContexts, n)[t][8..]) == t % nContexts
    ensures t + nContexts < n ==> ContextLabels(nContexts, n)[t + nContexts] == ContextLabels(nContexts, n)[t]
  {
    ContextLabelText(nContexts, n, t);
    if t + nContexts < n {
      ModAddPeriod(t, nContexts);
    }
  }

  /** Label `t` is exactly `"context_" + str(t % n_contexts)`, so its number
    * never has a leading zero (no `context_07`). */
  lemma ContextLabelText(nContexts: int, n: nat, t: nat)
    requires nContexts > 0 && t < n
    ensures ContextLabels(nContexts, n)[t] == "context_" + IntToString(t % nContexts)
    ensures ContextLabels(nContexts, n)[t][8] == '0' ==> ContextLabels(nContexts, n)[t][8..] == "0"
  {
    var name := ContextLabels(nContexts, n)[t];
    assert name[8..] == IntToString(t % nContexts);
  }

  /** Adding the modulus does not change the remainder. */
  lemma ModAddPeriod(x: int, m: int)
    requires m > 0
    ensures (x + m) % m == x % m
  {
    var q, r := x / m, x % m;
    var q', r' := (x + m) / m, (x + m) % m;
    assert (q + 1) * m == q * m + m;
    if q' > q + 1 {
      assert (q' - (q + 1)) * m == q' * m - (q + 1) * m;
      MulAtLeast(q' - (q + 1), m);
    } else if q' < q + 1 {
      assert ((q + 1) - q') * m == (q + 1) * m - q' * m;
      MulAtLeast((q + 1) - q', m);
    }
  }

  lemma {:induction false} MulAtLeast(d: int, m: int)
    requires d >= 1 && m > 0
    ensures d * m >= m
  {
    if d > 1 {
      MulAtLeast(d - 1, m);
      assert d * m == (d - 1) * m + m;
    }
  }

  /** numpy's `cumsum(m, axis=0)`: each cell is the sum of its column down to
    * its row. */
  function CumSumRows(m: seq<seq<real>>, cols: nat): (c: seq<seq<real>>)
    requires forall t :: 0 <= t < |m| ==> |m[t]| == cols
    ensures |c| == |m|
    ensures forall t :: 0 <= t < |m| ==> |c[t]| == cols
  {
    seq(|m|, t requires 0 <= t < |m| =>
      seq(cols, i requires 0 <= i < cols => Sum(Column(m, cols, i)[..t + 1])))
  }

  function Column(m: seq<seq<real>>, cols: nat, i: nat): (col: seq<real>)
    requires i < cols && forall t :: 0 <= t < |m| ==> |m[t]| == cols
    ensures |col| == |m|
  {
    seq(|m|, t requires 0 <= t < |m| => m[t][i])
  }

  /** The accumulated drift is a random walk: it starts at the first
    * increment and each later row adds that row's increment. */
  lemma CumSumRowsWalk(m: seq<seq<real>>, cols: nat)
    requires forall t :: 0 <= t < |m| ==> |m[t]| == cols
    ensures forall i :: 0 <= i < cols && |m| > 0 ==> CumSumRows(m, cols)[0][i] == m[0][i]
    ensures forall t, i :: 0 < t < |m| && 0 <= i < cols ==>
              CumSumRows(m, cols)[t][i] == CumSumRows(m, cols)[t - 1][i] + m[t][i]
  {
    var c := CumSumRows(m, cols);
    forall t, i | 0 <= t < |m| && 0 <= i < cols
      ensures c[t][i] == (if t == 0 then 0.0 else c[t - 1][i]) + m[t][i]
    {
      var col := Column(m, cols, i);
      assert c[t][i] == Sum(col[..t + 1]);
      assert col[..t + 1][..t] == col[..t];
      assert Sum(col[..t + 1]) == Sum(col[..t]) + col[t];
      if t == 0 {
        assert col[..0] == [];
      } else {
        assert c[t - 1][i] == Sum(col[..t]);
      }
    }
  }

  /** numpy's elementwise `a + b` of two matrices of equal shape. */
  function AddMatrices(a: seq<seq<real>>, b: seq<seq<real>>, cols: nat): (m: seq<seq<real>>)
    requires |a| == |b|
    requires forall t :: 0 <= t < |a| ==> |a[t]| == cols && |b[t]| == cols
    ensures |m| == |a| && forall t :: 0 <= t < |m| ==> |m[t]| == cols
  {
    seq(|a|, t requires 0 <= t < |a| => seq(cols, i requires 0 <= i < cols => a[t][i] + b[t][i]))
  }

  /** `create_trial_from_params(params, n_rounds)`, the generator for
    * `default_rng(params['seed'])` being `family(params.seed)`: the means
    * take the first `n_arms` draws, the noise the next `n_rounds * n_arms`,
    * and for a restless group the drift increments the next
    * `n_rounds * n_arms`. */
  function CreateTrialFromParams(params: Params, nRounds: nat, family: Family): (r: Result<Trial, TrialError>)
    ensures r.Success? <==> params.nArms > 0 && !(params.extra.Contexts? && params.extra.nContexts == 0 && nRounds > 0)
    ensures r.Success? ==> var tr := r.value;
              && tr.nArms == params.nArms == |tr.means| && tr.params == params
              && |tr.rewards| == nRounds && (forall t :: 0 <= t < nRounds ==> |tr.rewards[t]| == tr.nArms)
              && tr.bestArm < tr.nArms && tr.bestMean == tr.means[tr.bestArm]
              && (forall i :: 0 <= i < tr.nArms ==> tr.means[i] <= tr.bestMean)
  {
    var s := family(params.seed);
    if params.nArms < 0 then Failure(NegativeSize)
    else
      var k: nat := params.nArms;
      var means := UniformsAt(s, 0, params.meanLow, params.meanHigh, k);
      var rewards := TrialRewards(params, s, nRounds, k);
      if k == 0 then Failure(NoArms)
      else if params.extra.Contexts? && params.extra.nContexts == 0 && nRounds > 0 then Failure(ZeroContexts)
      else
        var contexts :=
          if params.extra.Contexts? then
            if nRounds == 0 then Some([]) else Some(ContextLabels(params.extra.nContexts, nRounds))
          else None;
        Success(Trial(means, rewards, k, ArgMax(means), Max(means), params, contexts))
  }

  /** The reward matrix of a trial with `k` arms drawn from `s`: each
    * mean plus its noise, plus for a restless group the accumulated
    * drift. */
  function TrialRewards(params: Params, s: Stream, nRounds: nat, k: nat): (m: seq<seq<real>>)
    ensures |m| == nRounds && forall t :: 0 <= t < nRounds ==> |m[t]| == k
  {
    var means := UniformsAt(s, 0, params.meanLow, params.meanHigh, k);
    var noise := NormalMatrixAt(s, k, params.sigma, nRounds, k);
    var stationary := BanditEnvironment.AddMeans(means, noise);
    match params.extra
    case Drift(rate) => AddMatrices(stationary, DriftAt(s, k + nRounds * k, rate, nRounds, k), k)
    case _ => stationary
  }

  /** The error cases of `create_trial_from_params`, in the order the source
    * meets them. */
  lemma TrialFailures(params: Params, nRounds: nat, family: Family)
    ensures CreateTrialFromParams(params, nRounds, family).Failure? <==>
              params.nArms <= 0 || (params.extra.Contexts? && params.extra.nContexts == 0 && nRounds > 0)
    ensures params.nArms < 0 ==> CreateTrialFromParams(params, nRounds, family) == Failure(NegativeSize)
    ensures params.nArms == 0 ==> CreateTrialFromParams(params, nRounds, family) == Failure(NoArms)
  {
  }

  /** A built trial: the means are the first `n_arms` uniform draws of the
    * group's stream, the best arm is the first index of the largest mean,
    * every reward is the arm's mean plus its noise draw (plus, for a
    * restless group, the drift accumulated so far), and the extras are
    * those of the group. */
  lemma TrialShape(params: Params, nRounds: nat, family: Family)
    requires CreateTrialFromParams(params, nRounds, family).Success?
    ensures var tr := CreateTrialFromParams(params, nRounds, family).value;
            var s, k := family(params.seed), tr.nArms;
            && k == params.nArms && |tr.means| == k && tr.params == params
            && (forall i :: 0 <= i < k ==> tr.means[i] == UniformAt(s, i, params.meanLow, params.meanHigh))
            && tr.bestArm < k && tr.means[tr.bestArm] == tr.bestMean
            && (forall j :: 0 <= j < k ==> tr.means[j] <= tr.bestMean)
            && (forall j :: 0 <= j < tr.bestArm ==> tr.means[j] < tr.bestMean)
            && |tr.rewards| == nRounds
            && (forall t :: 0 <= t < nRounds ==> |tr.rewards[t]| == k)
            && (!params.extra.Drift? ==> forall t, i :: 0 <= t < nRounds && 0 <= i < k ==>
                  tr.rewards[t][i] == tr.means[i] + NormalAt(s, k + t * k + i, 0.0, params.sigma))
            && (params.extra.Contexts? <==> tr.contexts.Some?)
            && (tr.contexts.Some? ==> |tr.contexts.value| == nRounds)
            && (params.extra.Contexts? && nRounds > 0 ==> tr.contexts == Some(ContextLabels(params.extra.nContexts, nRounds)))
  {
  }

  /** The drift a restless trial adds: the running column sums of the
    * increments drawn from position `p`. */
  function DriftAt(s: Stream, p: nat, rate: real, nRounds: nat, k: nat): (d: seq<seq<real>>)
    ensures |d| == nRounds && forall t :: 0 <= t < nRounds ==> |d[t]| == k
  {
    CumSumRows(NormalMatrixAt(s, p, rate, nRounds, k), k)
  }

  /** A restless trial's rewards are mean plus noise plus the drift drawn
    * after the noise. */
  lemma RestlessRewards(params: Params, nRounds: nat, family: Family)
    requires params.extra.Drift?
    requires CreateTrialFromParams(params, nRounds, family).Success?
    ensures var tr := CreateTrialFromParams(params, nRounds, family).value;
            var s, k := family(params.seed), tr.nArms;
            var d := DriftAt(s, k + nRounds * k, params.extra.driftRate, nRounds, k);
            && |tr.rewards| == nRounds
            && forall t, i {:trigger tr.rewards[t][i]} :: 0 <= t < nRounds && 0 <= i < k ==>
                 |tr.rewards[t]| == k && tr.rewards[t][i] == tr.means[i] + NormalAt(s, k + t * k + i, 0.0, params.sigma) + d[t][i]
  {
    TrialFields(params, nRounds, family);
    DriftRewards(params, family(params.seed), nRounds, params.nArms);
  }

  /** The fields of a built trial, as the building functions give them. */
  lemma TrialFields(params: Params, nRounds: nat, family: Family)
    requires CreateTrialFromParams(params, nRounds, family).Success?
    ensures var tr, s := CreateTrialFromParams(params, nRounds, family).value, family(params.seed);
            && params.nArms > 0 && tr.nArms == params.nArms
            && tr.means == UniformsAt(s, 0, params.meanLow, params.meanHigh, params.nArms)
            && tr.rewards == TrialRewards(params, s, nRounds, params.nArms)
  {
  }

  /** The cells of a restless reward matrix. */
  lemma DriftRewards(params: Params, s: Stream, nRounds: nat, k: nat)
    requires params.extra.Drift?
    ensures var m, means := TrialRewards(params, s, nRounds, k), UniformsAt(s, 0, params.meanLow, params.meanHigh, k);
            var d := DriftAt(s, k + nRounds * k, params.extra.driftRate, nRounds, k);
            forall t, i {:trigger m[t][i]} :: 0 <= t < nRounds && 0 <= i < k ==>
              m[t][i] == means[i] + NormalAt(s, k + t * k + i, 0.0, params.sigma) + d[t][i]
  {
    var m, means := TrialRewards(params, s, nRounds, k), UniformsAt(s, 0, params.meanLow, params.meanHigh, k);
    var noise := NormalMatrixAt(s, k, params.sigma, nRounds, k);
    var stationary := BanditEnvironment.AddMeans(means, noise);
    var d := DriftAt(s, k + nRounds * k, params.extra.driftRate, nRounds, k);
    assert m == AddMatrices(stationary, d, k);
    forall t, i | 0 <= t < nRounds && 0 <= i < k
      ensures m[t][i] == means[i] + NormalAt(s, k + t * k + i, 0.0, params.sigma) + d[t][i]
    {
      assert m[t][i] == stationary[t][i] + d[t][i];
      assert stationary[t][i] == means[i] + noise[t][i];
    }
  }

  /** The drift is a random walk: row 0 is the first increment, and each
    * later row adds that row's increment to the row before. */
  lemma DriftIsRandomWalk(s: Stream, p: nat, rate: real, nRounds: nat, k: nat)
    ensures var d := DriftAt(s, p, rate, nRounds, k);
            forall t, i {:trigger d[t][i]} :: 0 <= t < nRounds && 0 <= i < k ==>
              d[t][i] == (if t == 0 then 0.0 else d[t - 1][i]) + NormalAt(s, p + t * k + i, 0.0, rate)
  {
    CumSumRowsWalk(NormalMatrixAt(s, p, rate, nRounds, k), k);
  }
}
