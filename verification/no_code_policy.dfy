/**
 * The text-only strategy: the model is asked for an arm number each round,
 * the first integer in its reply is taken when it names an arm, and a
 * uniform random arm is drawn otherwise. The chat model is an oracle from
 * the round and the history so far to its reply.
 */
module NoCodePolicy {
  import opened Wrappers
  import opened Random
  import opened Seqs
  import opened Text
  import opened Histories
  import opened Shared

  /** The first decimal digit at or after `i`. */
  function FirstDigitFrom(s: string, i: nat): (r: Option<nat>)
    requires i <= |s|
    ensures r.Some? ==> i <= r.value < |s| && IsDigit(s[r.value])
    ensures r.Some? ==> forall j :: i <= j < r.value ==> !IsDigit(s[j])
    ensures r.None? ==> forall j :: i <= j < |s| ==> !IsDigit(s[j])
    decreases |s| - i
  {
    if i == |s| then None
    else if IsDigit(s[i]) then Some(i)
    else FirstDigitFrom(s, i + 1)
  }

  /** The end of the run of digits starting at `i`. */
  function DigitsEnd(s: string, i: nat): (e: nat)
    requires i <= |s|
    ensures i <= e <= |s|
    ensures forall j :: i <= j < e ==> IsDigit(s[j])
    ensures e < |s| ==> !IsDigit(s[e])
    decreases |s| - i
  {
    if i < |s| && IsDigit(s[i]) then DigitsEnd(s, i + 1) else i
  }

  /** The value of the leftmost match of `-?\d+` in `s`: the first run of
    * digits, negated when a minus sign stands right before it. */
  function FirstInteger(s: string): (r: Option<int>)
    ensures r.None? <==> forall j :: 0 <= j < |s| ==> !IsDigit(s[j])
  {
    match FirstDigitFrom(s, 0)
    case None => None
    case Some(d) =>
      var e := DigitsEnd(s, d);
      assert AllDigits(s[d..e]) by {
        forall k | 0 <= k < e - d ensures IsDigit(s[d..e][k]) {
          assert s[d..e][k] == s[d + k];
        }
      }
      var v := DecimalValue(s[d..e]);
      Some(if d > 0 && s[d - 1] == '-' then -(v as int) else v)
  }

  /** `_parse_action`: the first integer of the reply (an absent reply reads
    * as empty), kept only when it names an arm. */
  function ParseAction(text: Option<string>, nArms: int): (a: Option<nat>)
    ensures a.Some? ==> a.value < nArms
  {
    match FirstInteger(text.GetOr(""))
    case Some(v) => if 0 <= v < nArms then Some(v) else None
    case None => None
  }

  /** No reply, or a reply without digits, names no arm. */
  lemma ParseWithoutDigits(text: Option<string>, nArms: int)
    requires text.Some? ==> forall j :: 0 <= j < |text.value| ==> !IsDigit(text.value[j])
    ensures ParseAction(text, nArms) == None
  {
  }

  /** What may stand before a numeral without changing the first integer:
    * no digit, and no minus sign right before it. */
  predicate Lead(pre: string) {
    (forall j :: 0 <= j < |pre| ==> !IsDigit(pre[j])) && (pre == [] || pre[|pre| - 1] != '-')
  }

  /** What may follow a numeral without extending it. */
  predicate Tail(post: string) {
    post == [] || !IsDigit(post[0])
  }

  /** In `left + digits + post`, with no digit in `left` and none at the
    * head of `post`, the first run of digits is exactly `digits`. */
  lemma DigitRunAt(left: string, digits: string, post: string)
    requires forall j :: 0 <= j < |left| ==> !IsDigit(left[j])
    requires |digits| > 0 && AllDigits(digits) && Tail(post)
    ensures var s := left + digits + post;
            && FirstDigitFrom(s, 0) == Some(|left|)
            && DigitsEnd(s, |left|) == |left| + |digits|
            && s[|left|..|left| + |digits|] == digits
  {
    var s := left + digits + post;
    var d := |left|;
    assert forall j :: 0 <= j < d ==> s[j] == left[j];
    assert forall j :: d <= j < d + |digits| ==> s[j] == digits[j - d];
    assert IsDigit(s[d]);
    assert FirstDigitFrom(s, 0) == Some(d);
    assert d + |digits| < |s| ==> s[d + |digits|] == post[0];
    assert DigitsEnd(s, d) == d + |digits|;
    assert s[d..d + |digits|] == digits;
  }

  /** The first integer of `s`, read off its first run of digits `s[d..e]`. */
  lemma FirstIntegerAt(s: string, d: nat, e: nat, v: nat)
    requires FirstDigitFrom(s, 0) == Some(d) && DigitsEnd(s, d) == e
    requires d <= e <= |s| && DecimalValue(s[d..e]) == v
    ensures FirstInteger(s) == Some(if d > 0 && s[d - 1] == '-' then -(v as int) else v)
  {
  }

  /** The first integer of a text is the numeral it starts with, negated
    * when a minus sign stands right before it, whatever numbers come
    * later. */
  lemma FirstIntegerOfNumeral(left: string, n: nat, post: string)
    requires forall j :: 0 <= j < |left| ==> !IsDigit(left[j])
    requires Tail(post)
    ensures FirstInteger(left + NatToString(n) + post)
            == Some(if |left| > 0 && left[|left| - 1] == '-' then -(n as int) else n)
  {
    var digits := NatToString(n);
    var s := left + digits + post;
    var d := |left|;
    DigitRunAt(left, digits, post);
    DecimalRoundTrip(n);
    FirstIntegerAt(s, d, d + |digits|, n);
    assert d > 0 ==> s[d - 1] == left[d - 1];
  }

  /** An arm number written in the reply is read back. */
  lemma ParseNumeral(pre: string, a: nat, post: string, nArms: int)
    requires Lead(pre) && Tail(post) && a < nArms
    ensures ParseAction(Some(pre + NatToString(a) + post), nArms) == Some(a)
  {
    FirstIntegerOfNumeral(pre, a, post);
  }

  /** Only the first integer counts: a leading number that names no arm
    * gives no action even when a valid arm number follows it. */
  lemma ParseFirstOnly(pre: string, b: nat, post: string, nArms: int)
    requires Lead(pre) && Tail(post) && b >= nArms
    ensures ParseAction(Some(pre + NatToString(b) + post), nArms) == None
  {
    FirstIntegerOfNumeral(pre, b, post);
  }

  /** A minus sign makes the number negative, so only "-0" names an arm. */
  lemma ParseNegative(pre: string, b: nat, post: string, nArms: int)
    requires Lead(pre) && Tail(post)
    ensures ParseAction(Some(pre + "-" + NatToString(b) + post), nArms) == (if b == 0 && nArms > 0 then Some(0) else None)
  {
    var left := pre + "-";
    assert forall j :: 0 <= j < |left| ==> !IsDigit(left[j]) by {
      forall j | 0 <= j < |left| ensures !IsDigit(left[j]) {
        if j < |pre| {
          assert left[j] == pre[j];
        }
      }
    }
    FirstIntegerOfNumeral(left, b, post);
  }

  /** What a trial supplies to the strategy. */
  datatype PolicyTrial = PolicyTrial(
    means: Option<seq<real>>, nArms: Option<int>, rewards: seq<seq<real>>, bestMean: Option<real>)

  /** `trial.get("means", [0] * trial.get("n_arms", 3))`. */
  function TrialMeans(trial: PolicyTrial): (ms: seq<real>)
    ensures trial.means.Some? ==> ms == trial.means.value
    ensures trial.means.None? ==> forall j :: 0 <= j < |ms| ==> ms[j] == 0.0
  {
    match trial.means
    case Some(ms) => ms
    case None =>
      var n := trial.nArms.GetOr(3);
      seq(if n < 0 then 0 else n, _ => 0.0)
  }

  function RowMaxima(table: seq<seq<real>>): (ms: seq<real>)
    requires forall t :: 0 <= t < |table| ==> |table[t]| > 0
    ensures |ms| == |table|
    ensures forall t :: 0 <= t < |table| ==> ms[t] == Max(table[t])
  {
    seq(|table|, t requires 0 <= t < |table| => Max(table[t]))
  }

  /** Whether the means decide the best mean: some mean is positive. */
  predicate MeansDecide(means: seq<real>) {
    |means| > 0 && Max(means) > 0.0
  }

  /** The best mean both strategies measure regret against: the largest
    * mean when it is positive, otherwise the trial's best mean, otherwise
    * the average over rounds of the best reward of the round. */
  function BestMeanForCurves(means: seq<real>, trialBest: Option<real>, table: seq<seq<real>>): (b: real)
    requires MeansDecide(means) || (|table| > 0 && forall t :: 0 <= t < |table| ==> |table[t]| > 0)
    ensures MeansDecide(means) ==> b > 0.0 && b in means && forall j :: 0 <= j < |means| ==> means[j] <= b
    ensures !MeansDecide(means) && trialBest.Some? ==> b == trialBest.value
    ensures !MeansDecide(means) && trialBest.None? ==>
              b == Mean(RowMaxima(table)) && Min(RowMaxima(table)) <= b <= Max(RowMaxima(table))
  {
    if MeansDecide(means) then Max(means)
    else
      var fallback := Mean(RowMaxima(table));
      MeanWithin(RowMaxima(table));
      trialBest.GetOr(fallback)
  }

  /** The reply of the chat model in one round: an exception, or the
    * message content, which may be absent. */
  datatype Reply = Raised | Content(text: Option<string>)

  /** The arm a reply names, if any. */
  function Proposal(reply: Reply, nArms: int): (a: Option<nat>)
    ensures a.Some? ==> a.value < nArms
    ensures reply.Raised? ==> a.None?
  {
    match reply
    case Raised => None
    case Content(text) => ParseAction(text, nArms)
  }

  /** The rewards the table pays for a sequence of choices. */
  function TableRewards(table: seq<seq<real>>, k: nat, actions: seq<int>): (rs: seq<real>)
    requires Rows(table, k) && |actions| <= |table| && InRange(actions, k)
    ensures |rs| == |actions|
    ensures forall t :: 0 <= t < |actions| ==> rs[t] == table[t][actions[t]]
  {
    seq(|actions|, t requires 0 <= t < |actions| => table[t][actions[t]])
  }

  /** The history before round `t`. */
  function HistoryAt(table: seq<seq<real>>, k: nat, actions: seq<int>, t: nat): (h: History<real>)
    requires Rows(table, k) && |actions| <= |table| && InRange(actions, k) && t <= |actions|
    ensures |h| == k
  {
    Replay(k, actions[..t], TableRewards(table, k, actions[..t]))
  }

  /** The number of rounds before `t` whose reply named no arm, each of
    * which drew one random arm. */
  function FallbacksBefore(llm: (nat, History<real>) -> Reply, table: seq<seq<real>>, k: nat, actions: seq<int>, t: nat): (n: nat)
    requires Rows(table, k) && |actions| <= |table| && InRange(actions, k) && t <= |actions|
    ensures n <= t
    ensures n == t <==> forall u :: 0 <= u < t ==> Proposal(llm(u, HistoryAt(table, k, actions, u)), k).None?
  {
    if t == 0 then 0
    else
      FallbacksBefore(llm, table, k, actions, t - 1)
      + (if Proposal(llm(t - 1, HistoryAt(table, k, actions, t - 1)), k).None? then 1 else 0)
  }

  /** The arm played in round `t` of a play. */
  function ChoiceAt(llm: (nat, History<real>) -> Reply, fallback: Stream, table: seq<seq<real>>, k: nat,
                    actions: seq<int>, t: nat): (a: int)
    requires Rows(table, k) && |actions| <= |table| && InRange(actions, k) && t <= |actions| && k > 0
    ensures 0 <= a < k
    ensures var p := Proposal(llm(t, HistoryAt(table, k, actions, t)), k);
            p.Some? ==> a == p.value
  {
    match Proposal(llm(t, HistoryAt(table, k, actions, t)), k)
    case Some(a) => a
    case None => IntegersAt(fallback, FallbacksBefore(llm, table, k, actions, t), 0, k)
  }

  /** What a trial must hold: a non-empty table whose rows have the width of
    * the first, at least one arm, and no more rounds than rows. */
  predicate PolicyShape(trial: PolicyTrial, nRounds: nat) {
    |trial.rewards| > 0 && |trial.rewards[0]| > 0 && Rows(trial.rewards, |trial.rewards[0]|)
    && nRounds <= |trial.rewards|
  }

  /** `run_trial_no_code`: `n_rounds` replies, each turned into an arm, that
    * arm's reward logged, then the stationary curves against the best
    * mean. */
  method RunTrialNoCode(trial: PolicyTrial, nRounds: nat, llm: (nat, History<real>) -> Reply, fallback: Stream)
    returns (c: Curves)
    requires PolicyShape(trial, nRounds)
    ensures |c.actions| == nRounds && InRange(c.actions, |trial.rewards[0]|)
    ensures forall t :: 0 <= t < nRounds ==>
              c.actions[t] == ChoiceAt(llm, fallback, trial.rewards, |trial.rewards[0]|, c.actions, t)
    ensures c == CalcCurves(c.actions, TableRewards(trial.rewards, |trial.rewards[0]|, c.actions),
                            BestMeanForCurves(TrialMeans(trial), trial.bestMean, trial.rewards))
  {
    var table := trial.rewards;
    var k := |table[0]|;
    var rng := new Rng(fallback);
    var history: History<real> := NoRewards(k);
    var actions: seq<int> := [];
    var rewards: seq<real> := [];
    for t := 0 to nRounds
      invariant |actions| == t && InRange(actions, k)
      invariant rewards == TableRewards(table, k, actions)
      invariant history == Replay(k, actions, rewards)
      invariant rng.stream == fallback && rng.pos == FallbacksBefore(llm, table, k, actions, t)
      invariant forall j :: 0 <= j < t ==> actions[j] == ChoiceAt(llm, fallback, table, k, actions, j)
    {
      ghost var pos := rng.pos;
      var a := NoCodeRound(llm, fallback, rng, table, k, actions, history);
      NoCodeAdvance(llm, fallback, table, k, actions, rewards, history, pos, a);
      var r := table[t][a];
      history := Record(history, a, r);
      actions := actions + [a];
      rewards := rewards + [r];
    }
    var means := TrialMeans(trial);
    var bestMean := BestMeanForCurves(means, trial.bestMean, table);
    c := CalcCurves(actions, rewards, bestMean);
  }

  /** One round of the loop: ask the model, keep the arm its reply names,
    * or draw a uniform arm when it names none. */
  method NoCodeRound(llm: (nat, History<real>) -> Reply, fallback: Stream, rng: Rng,
                     table: seq<seq<real>>, k: nat, actions: seq<int>, history: History<real>)
    returns (a: int)
    requires Rows(table, k) && |actions| < |table| && InRange(actions, k) && k > 0
    requires history == Replay(k, actions, TableRewards(table, k, actions))
    requires rng.stream == fallback && rng.pos == FallbacksBefore(llm, table, k, actions, |actions|)
    modifies rng
    ensures 0 <= a < k
    ensures a == ChoiceAt(llm, fallback, table, k, actions, |actions|)
    ensures rng.pos == old(rng.pos) + (if Proposal(llm(|actions|, history), k).None? then 1 else 0)
  {
    assert actions[..|actions|] == actions;
    match Proposal(llm(|actions|, history), k) {
      case Some(v) => a := v;
      case None => a := rng.Integers(0, k);
    }
  }

  /** The loop's record after a round: the choices, the logged rewards, the
    * history and the fallback draws all extend by the new round. */
  lemma NoCodeAdvance(llm: (nat, History<real>) -> Reply, fallback: Stream, table: seq<seq<real>>, k: nat,
                      actions: seq<int>, rewards: seq<real>, history: History<real>, pos: nat, a: int)
    requires Rows(table, k) && |actions| < |table| && InRange(actions, k) && 0 <= a < k
    requires rewards == TableRewards(table, k, actions) && history == Replay(k, actions, rewards)
    requires pos == FallbacksBefore(llm, table, k, actions, |actions|)
    requires forall j :: 0 <= j < |actions| ==> actions[j] == ChoiceAt(llm, fallback, table, k, actions, j)
    requires a == ChoiceAt(llm, fallback, table, k, actions, |actions|)
    ensures InRange(actions + [a], k) && |history| == k
    ensures rewards + [table[|actions|][a]] == TableRewards(table, k, actions + [a])
    ensures Record(history, a, table[|actions|][a]) == Replay(k, actions + [a], rewards + [table[|actions|][a]])
    ensures pos + (if Proposal(llm(|actions|, history), k).None? then 1 else 0)
            == FallbacksBefore(llm, table, k, actions + [a], |actions| + 1)
    ensures forall j :: 0 <= j <= |actions| ==>
              (actions + [a])[j] == ChoiceAt(llm, fallback, table, k, actions + [a], j)
  {
    assert actions[..|actions|] == actions;
    assert history == HistoryAt(table, k, actions, |actions|);
    NoCodeStep(llm, fallback, table, k, actions, a);
    NoCodeExtend(table, k, actions, a);
  }

  /** One more round leaves the earlier rounds' histories alone and logs
    * the new reward to the chosen arm. */
  lemma NoCodeExtend(table: seq<seq<real>>, k: nat, actions: seq<int>, a: int)
    requires Rows(table, k) && |actions| < |table| && InRange(actions, k) && 0 <= a < k
    ensures InRange(actions + [a], k)
    ensures TableRewards(table, k, actions + [a]) == TableRewards(table, k, actions) + [table[|actions|][a]]
    ensures forall j :: 0 <= j <= |actions| ==> HistoryAt(table, k, actions + [a], j) == HistoryAt(table, k, actions, j)
    ensures Replay(k, actions + [a], TableRewards(table, k, actions + [a]))
            == Record(HistoryAt(table, k, actions, |actions|), a, table[|actions|][a])
  {
    var ext := actions + [a];
    assert forall j :: 0 <= j < |actions| ==> ext[j] == actions[j];
    assert TableRewards(table, k, ext) == TableRewards(table, k, actions) + [table[|actions|][a]];
    forall j | 0 <= j <= |actions| ensures HistoryAt(table, k, ext, j) == HistoryAt(table, k, actions, j) {
      assert ext[..j] == actions[..j];
    }
    assert ext[..|actions|] == actions;
    assert actions[..|actions|] == actions;
  }

  /** One more round keeps every earlier round's choice and counts one more
    * fallback draw when its reply named no arm. */
  lemma NoCodeStep(llm: (nat, History<real>) -> Reply, fallback: Stream, table: seq<seq<real>>, k: nat,
                   actions: seq<int>, a: int)
    requires Rows(table, k) && |actions| < |table| && InRange(actions, k) && 0 <= a < k
    requires forall j :: 0 <= j < |actions| ==> actions[j] == ChoiceAt(llm, fallback, table, k, actions, j)
    requires a == ChoiceAt(llm, fallback, table, k, actions, |actions|)
    ensures InRange(actions + [a], k)
    ensures FallbacksBefore(llm, table, k, actions + [a], |actions| + 1)
            == FallbacksBefore(llm, table, k, actions, |actions|)
               + (if Proposal(llm(|actions|, HistoryAt(table, k, actions, |actions|)), k).None? then 1 else 0)
    ensures forall j :: 0 <= j <= |actions| ==> (actions + [a])[j] == ChoiceAt(llm, fallback, table, k, actions + [a], j)
  {
    var ext := actions + [a];
    NoCodeExtend(table, k, actions, a);
    FallbacksAgree(llm, table, k, actions, a, |actions|);
    ChoicesAgree(llm, fallback, table, k, actions, a);
    forall j | 0 <= j <= |actions| ensures ext[j] == ChoiceAt(llm, fallback, table, k, ext, j) {
      var c := ChoiceAt(llm, fallback, table, k, actions, j);
      assert ChoiceAt(llm, fallback, table, k, ext, j) == c;
      if j < |actions| {
        assert ext[j] == actions[j] == c;
      } else {
        assert ext[j] == a == c;
      }
    }
  }

  lemma ChoicesAgree(llm: (nat, History<real>) -> Reply, fallback: Stream, table: seq<seq<real>>, k: nat,
                     actions: seq<int>, a: int)
    requires Rows(table, k) && |actions| < |table| && InRange(actions, k) && InRange(actions + [a], k) && k > 0
    requires forall j :: 0 <= j <= |actions| ==> HistoryAt(table, k, actions + [a], j) == HistoryAt(table, k, actions, j)
    requires forall j :: 0 <= j <= |actions| ==>
               FallbacksBefore(llm, table, k, actions + [a], j) == FallbacksBefore(llm, table, k, actions, j)
    ensures forall j :: 0 <= j <= |actions| ==>
              ChoiceAt(llm, fallback, table, k, actions + [a], j) == ChoiceAt(llm, fallback, table, k, actions, j)
  {
  }

  lemma {:induction false} FallbacksAgree(llm: (nat, History<real>) -> Reply, table: seq<seq<real>>, k: nat,
                                          actions: seq<int>, a: int, t: nat)
    requires Rows(table, k) && |actions| < |table| && InRange(actions, k) && InRange(actions + [a], k) && t <= |actions|
    requires forall j :: 0 <= j <= |actions| ==> HistoryAt(table, k, actions + [a], j) == HistoryAt(table, k, actions, j)
    ensures forall j :: 0 <= j <= t ==> FallbacksBefore(llm, table, k, actions + [a], j) == FallbacksBefore(llm, table, k, actions, j)
  {
    if t > 0 {
      FallbacksAgree(llm, table, k, actions, a, t - 1);
    }
  }

  /** At the start of round `t` the arm histories hold `t` rewards between
    * them, each arm's list being the rewards of the rounds that chose it. */
  lemma NoCodeHistory(table: seq<seq<real>>, k: nat, actions: seq<int>, t: nat)
    requires Rows(table, k) && |actions| <= |table| && InRange(actions, k) && t <= |actions|
    ensures TotalSize(HistoryAt(table, k, actions, t)) == t
    ensures forall i :: 0 <= i < k ==>
              HistoryAt(table, k, actions, t)[i] == Picked(actions[..t], TableRewards(table, k, actions[..t]), i)
  {
    ReplaySize(k, actions[..t], TableRewards(table, k, actions[..t]));
    ReplayPicks(k, actions[..t], TableRewards(table, k, actions[..t]));
  }
}
