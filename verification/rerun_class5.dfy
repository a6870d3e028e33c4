/**
 * The sleeping-bandit rerun: availability-aware curves, the greedy and UCB
 * players restricted to available arms, and the availability-conditioned
 * best mean the curves are measured against.
 */
module SleepingRerun {
  import opened Seqs
  import opened Histories
  import opened Shared

  /** A trial's reward table and availability table: the same number of
    * rows, each `k` wide. */
  predicate Grid(table: seq<seq<real>>, avail: seq<seq<bool>>, k: nat) {
    |table| == |avail| && Rows(table, k) && Rows(avail, k)
  }

  /** numpy's reading of an index `a` into a row of width `k`: a negative
    * index counts from the end. */
  function RowIndex(a: int, k: nat): (i: nat)
    requires -(k as int) <= a < k
    ensures i < k
    ensures a >= 0 ==> i == a
    ensures a < 0 ==> i == k + a
  {
    if a < 0 then k + a else a
  }

  /** What the actions of a curve may be: one per round of the table, each
    * an index numpy accepts into that round's row. */
  predicate Playable(actions: seq<int>, table: seq<seq<real>>, avail: seq<seq<bool>>) {
    |actions| <= |table| && |table| == |avail|
    && forall t :: 0 <= t < |actions| ==> |table[t]| == |avail[t]| && -|avail[t]| <= actions[t] < |avail[t]|
  }

  /** The reward realised in round `t` by arm `a`: the table entry if the arm
    * was available, otherwise 0. */
  function RealisedAt(table: seq<seq<real>>, avail: seq<seq<bool>>, t: nat, a: int): real
    requires t < |table| && t < |avail| && |table[t]| == |avail[t]| && -|avail[t]| <= a < |avail[t]|
  {
    var i := RowIndex(a, |avail[t]|);
    if avail[t][i] then table[t][i] else 0.0
  }

  function Realised(actions: seq<int>, table: seq<seq<real>>, avail: seq<seq<bool>>): (rs: seq<real>)
    requires Playable(actions, table, avail)
    ensures |rs| == |actions|
    ensures forall t :: 0 <= t < |actions| ==> rs[t] == RealisedAt(table, avail, t, actions[t])
  {
    seq(|actions|, t requires 0 <= t < |actions| => RealisedAt(table, avail, t, actions[t]))
  }

  /** The regret `calc_curves_sleeping` returns for a realised reward `r`. */
  function ReturnedRegret(r: real, bestMean: real): real {
    if r > 0.0 then bestMean - r else bestMean
  }

  function ReturnedRegrets(rs: seq<real>, bestMean: real): (g: seq<real>)
    ensures |g| == |rs|
    ensures forall k :: 0 <= k < |rs| ==> g[k] == ReturnedRegret(rs[k], bestMean)
  {
    seq(|rs|, k requires 0 <= k < |rs| => ReturnedRegret(rs[k], bestMean))
  }

  /** The curves `calc_curves_sleeping` returns. */
  function SleepingCurves(actions: seq<int>, table: seq<seq<real>>, avail: seq<seq<bool>>, bestMean: real): (c: Curves)
    requires Playable(actions, table, avail)
    ensures c.actions == actions
    ensures |c.rewards| == |c.cumReward| == |c.cumRegret| == |actions|
    ensures forall t :: 0 <= t < |actions| ==>
              var i := RowIndex(actions[t], |avail[t]|);
              c.rewards[t] == (if avail[t][i] then table[t][i] else 0.0)
    ensures forall t :: 0 <= t < |actions| ==> c.cumReward[t] == Sum(c.rewards[..t + 1])
    ensures forall t :: 0 <= t < |actions| ==> c.cumRegret[t] == Sum(ReturnedRegrets(c.rewards, bestMean)[..t + 1])
  {
    var rs := Realised(actions, table, avail);
    Curves(actions, rs, CumSum(rs), CumSum(ReturnedRegrets(rs, bestMean)))
  }

  /** `calc_curves_sleeping`: one pass over the rounds collecting the
    * realised rewards, then running sums of the rewards and of the returned
    * regrets. */
  method CalcCurvesSleeping(actions: seq<int>, table: seq<seq<real>>, avail: seq<seq<bool>>, bestMean: real)
    returns (c: Curves)
    requires Playable(actions, table, avail)
    ensures c == SleepingCurves(actions, table, avail, bestMean)
  {
    var actual: seq<real> := [];
    for t := 0 to |actions|
      invariant actual == Realised(actions[..t], table, avail)
    {
      var a := actions[t];
      var i := if a < 0 then |avail[t]| + a else a;
      if avail[t][i] {
        actual := actual + [table[t][i]];
      } else {
        actual := actual + [0.0];
      }
      assert actions[..t + 1][..t] == actions[..t];
    }
    assert actions[..|actions|] == actions;
    c := Curves(actions, actual, CumSum(actual), CumSum(ReturnedRegrets(actual, bestMean)));
  }

  /** A reward and its returned regret add up to the best mean, plus the
    * reward itself when it is not positive. */
  function Shortfall(r: real): real {
    if r > 0.0 then 0.0 else r
  }

  lemma {:induction false} SumReturnedRegrets(rs: seq<real>, bestMean: real)
    ensures Sum(rs) + Sum(ReturnedRegrets(rs, bestMean)) == |rs| as real * bestMean + Sum(ShortfallsOf(rs))
  {
    if rs != [] {
      var n := |rs|;
      var init, g, h := rs[..n - 1], ReturnedRegrets(rs, bestMean), ShortfallsOf(rs);
      SumReturnedRegrets(init, bestMean);
      assert g[..n - 1] == ReturnedRegrets(init, bestMean);
      assert h[..n - 1] == ShortfallsOf(init);
      assert rs[n - 1] + g[n - 1] == bestMean + h[n - 1];
      assert Sum(rs) == Sum(init) + rs[n - 1];
      assert Sum(g) == Sum(g[..n - 1]) + g[n - 1];
      assert Sum(h) == Sum(h[..n - 1]) + h[n - 1];
      assert n as real * bestMean == (n - 1) as real * bestMean + bestMean;
    }
  }

  function ShortfallsOf(rs: seq<real>): (g: seq<real>)
    ensures |g| == |rs|
    ensures forall k :: 0 <= k < |rs| ==> g[k] == Shortfall(rs[k])
  {
    seq(|rs|, k requires 0 <= k < |rs| => Shortfall(rs[k]))
  }

  /** The sleeping curves keep `cum_reward + cum_regret = (t+1) * best_mean`
    * only up to the sum of the non-positive realised rewards: such a
    * reward counts a full `best_mean` of regret on top of itself. */
  lemma SleepingBalance(actions: seq<int>, table: seq<seq<real>>, avail: seq<seq<bool>>, bestMean: real)
    requires Playable(actions, table, avail)
    ensures var c := SleepingCurves(actions, table, avail, bestMean);
            forall t :: 0 <= t < |actions| ==>
              c.cumReward[t] + c.cumRegret[t] == (t + 1) as real * bestMean + Sum(ShortfallsOf(c.rewards[..t + 1]))
  {
    var c := SleepingCurves(actions, table, avail, bestMean);
    forall t | 0 <= t < |actions|
      ensures c.cumReward[t] + c.cumRegret[t] == (t + 1) as real * bestMean + Sum(ShortfallsOf(c.rewards[..t + 1]))
    {
      PrefixBalance(c.rewards, bestMean, t);
    }
  }

  lemma PrefixBalance(rs: seq<real>, bestMean: real, t: nat)
    requires t < |rs|
    ensures Sum(rs[..t + 1]) + Sum(ReturnedRegrets(rs, bestMean)[..t + 1])
            == (t + 1) as real * bestMean + Sum(ShortfallsOf(rs[..t + 1]))
  {
    var prefix := rs[..t + 1];
    assert ReturnedRegrets(rs, bestMean)[..t + 1] == ReturnedRegrets(prefix, bestMean);
    SumReturnedRegrets(prefix, bestMean);
  }

  /** With no negative realised reward the identity of the stationary curves
    * holds. */
  lemma SleepingBalanceNonNegative(actions: seq<int>, table: seq<seq<real>>, avail: seq<seq<bool>>, bestMean: real)
    requires Playable(actions, table, avail)
    requires forall t :: 0 <= t < |actions| ==> RealisedAt(table, avail, t, actions[t]) >= 0.0
    ensures var c := SleepingCurves(actions, table, avail, bestMean);
            forall t :: 0 <= t < |actions| ==> c.cumReward[t] + c.cumRegret[t] == (t + 1) as real * bestMean
  {
    var c := SleepingCurves(actions, table, avail, bestMean);
    SleepingBalance(actions, table, avail, bestMean);
    forall t | 0 <= t < |actions| ensures c.cumReward[t] + c.cumRegret[t] == (t + 1) as real * bestMean {
      ZeroShortfalls(c.rewards[..t + 1]);
    }
  }

  lemma {:induction false} ZeroShortfalls(rs: seq<real>)
    requires forall k :: 0 <= k < |rs| ==> rs[k] >= 0.0
    ensures Sum(ShortfallsOf(rs)) == 0.0
  {
    if rs != [] {
      var n := |rs|;
      ZeroShortfalls(rs[..n - 1]);
      assert ShortfallsOf(rs)[..n - 1] == ShortfallsOf(rs[..n - 1]);
    }
  }

  /** A negative reward from an available arm breaks the identity: one round
    * with reward -1 against a best mean of 1 sums to 0, not 1. */
  lemma SleepingBalanceCanFail()
    ensures var c := SleepingCurves([0], [[-1.0]], [[true]], 1.0);
            c.cumReward == [-1.0] && c.cumRegret == [1.0]
  {
    var c := SleepingCurves([0], [[-1.0]], [[true]], 1.0);
    assert c.rewards == [-1.0];
    assert c.rewards[..1] == [-1.0];
    assert ReturnedRegrets(c.rewards, 1.0) == [1.0];
    assert ReturnedRegrets(c.rewards, 1.0)[..1] == [1.0];
  }

  /** Choosing an unavailable arm realises 0 and costs exactly the best mean. */
  lemma UnavailableCostsBestMean(actions: seq<int>, table: seq<seq<real>>, avail: seq<seq<bool>>, bestMean: real, t: nat)
    requires Playable(actions, table, avail) && t < |actions|
    requires !avail[t][RowIndex(actions[t], |avail[t]|)]
    ensures var c := SleepingCurves(actions, table, avail, bestMean);
            c.rewards[t] == 0.0
            && c.cumRegret[t] == (if t == 0 then 0.0 else c.cumRegret[t - 1]) + bestMean
  {
    var c := SleepingCurves(actions, table, avail, bestMean);
    var g := ReturnedRegrets(c.rewards, bestMean);
    var h := g[..t + 1];
    assert h[..t] == g[..t];
  }

  /** The per-round regret the loop computes and then drops: the best reward
    * among the round's available arms minus the realised one, or the best
    * mean when the chosen arm was unavailable. Unavailable entries stand in
    * as the chosen arm's reward, which leaves the maximum unchanged. */
  function LoopRegret(tableRow: seq<real>, availRow: seq<bool>, a: nat, bestMean: real): (r: real)
    requires |tableRow| == |availRow| && a < |availRow|
    ensures !availRow[a] ==> r == bestMean
    ensures availRow[a] ==> r >= 0.0
    ensures availRow[a] ==> forall i :: 0 <= i < |availRow| && availRow[i] ==> tableRow[i] - tableRow[a] <= r
    ensures availRow[a] ==> exists i :: 0 <= i < |availRow| && availRow[i] && r == tableRow[i] - tableRow[a]
  {
    if availRow[a] then
      var row := seq(|availRow|, i requires 0 <= i < |availRow| => if availRow[i] then tableRow[i] else tableRow[a]);
      var m := Max(row);
      assert row[a] == tableRow[a];
      assert forall i :: 0 <= i < |availRow| && availRow[i] ==> row[i] == tableRow[i];
      var j :| 0 <= j < |row| && row[j] == m;
      var w := if availRow[j] then j else a;
      assert availRow[w] && m == tableRow[w];
      m - tableRow[a]
    else bestMean
  }

  /** The returned regret is not the loop's: with rewards 5 and 3 both
    * available, the best mean 4 and arm 1 chosen, the loop's regret is 2
    * and the returned one is 1. */
  lemma ReturnedRegretIsNotLoopRegret()
    ensures LoopRegret([5.0, 3.0], [true, true], 1, 4.0) == 2.0
    ensures SleepingCurves([1], [[5.0, 3.0]], [[true, true]], 4.0).cumRegret == [1.0]
  {
    var row := seq(2, i requires 0 <= i < 2 => if [true, true][i] then [5.0, 3.0][i] else [5.0, 3.0][1]);
    assert row == [5.0, 3.0];
    assert Max(row) == 5.0;
    var c := SleepingCurves([1], [[5.0, 3.0]], [[true, true]], 4.0);
    assert c.rewards == [3.0];
    assert ReturnedRegrets(c.rewards, 4.0)[..1] == [1.0];
  }

  /** The rewards of a history list that count: entries above the -900
    * cut-off. */
  function ValidRewards(h: seq<real>): (v: seq<real>)
    ensures |v| <= |h|
    ensures forall x :: x in v ==> x in h && x > -900.0
    ensures forall x :: x in h && x > -900.0 ==> x in v
    ensures forall x :: x > -900.0 ==> multiset(v)[x] == multiset(h)[x]
    ensures (forall j :: 0 <= j < |h| ==> h[j] > -900.0) ==> v == h
  {
    if h == [] then []
    else
      var n := |h|;
      assert h == h[..n - 1] + [h[n - 1]];
      ValidRewards(h[..n - 1]) + (if h[n - 1] > -900.0 then [h[n - 1]] else [])
  }

  /** The greedy score of an arm: the mean of its valid rewards, or infinity
    * when it has none. */
  function GreedyScore(h: seq<real>): (s: Score)
    ensures s.Infinite? <==> ValidRewards(h) == []
  {
    var v := ValidRewards(h);
    if |v| > 0 then Finite(Mean(v)) else Infinite
  }

  /** The arm the greedy sleeping player picks: arm 0 when no arm is
    * available, otherwise the first available arm of highest score. */
  function GreedyChoice(history: History<real>, row: seq<bool>): (a: nat)
    requires |history| == |row|
    ensures true !in row ==> a == 0
    ensures true in row ==> a < |row| && row[a]
    ensures true in row ==> forall j :: 0 <= j < |row| && row[j] ==> !Below(GreedyScore(history[a]), GreedyScore(history[j]))
    ensures true in row ==> forall j :: 0 <= j < a && row[j] ==> Below(GreedyScore(history[j]), GreedyScore(history[a]))
  {
    if true !in row then 0
    else
      var scores := seq(|row|, i requires 0 <= i < |row| => GreedyScore(history[i]));
      FirstMaxWhere(row, scores)
  }

  /** An available arm never tried comes first: the greedy player then picks
    * the lowest-index available arm without valid rewards. */
  lemma GreedyPrefersUntried(history: History<real>, row: seq<bool>, i: nat)
    requires |history| == |row| && i < |row| && row[i] && ValidRewards(history[i]) == []
    ensures var a := GreedyChoice(history, row);
            ValidRewards(history[a]) == [] && a <= i
            && forall j :: 0 <= j < a && row[j] ==> ValidRewards(history[j]) != []
  {
    var a := GreedyChoice(history, row);
    assert !Below(GreedyScore(history[a]), GreedyScore(history[i]));
  }

  /** The value appended to a history list for a realised reward. */
  function Logged(r: real): (x: real)
    ensures x > -900.0
    ensures r > -900.0 ==> x == r
    ensures r <= -900.0 ==> x == 0.0
  {
    if r > -900.0 then r else 0.0
  }

  function LoggedRewards(table: seq<seq<real>>, avail: seq<seq<bool>>, actions: seq<int>): (xs: seq<real>)
    requires Playable(actions, table, avail)
    ensures |xs| == |actions|
    ensures forall t :: 0 <= t < |actions| ==> xs[t] == Logged(RealisedAt(table, avail, t, actions[t]))
  {
    seq(|actions|, t requires 0 <= t < |actions| => Logged(RealisedAt(table, avail, t, actions[t])))
  }

  /** The history a player has before round `t`. */
  function HistoryBefore(table: seq<seq<real>>, avail: seq<seq<bool>>, k: nat, actions: seq<int>, t: nat): (h: History<real>)
    requires Playable(actions, table, avail) && InRange(actions, k) && t <= |actions|
    ensures |h| == k
  {
    Replay(k, actions[..t], LoggedRewards(table, avail, actions[..t]))
  }

  /** A history list with no entry at or below the cut-off scores, under
    * both players, the mean of all its entries (plus, for UCB, the bonus
    * for its length), or infinity when empty. */
  lemma ScoresOfValid(h: seq<real>, t: nat, bonus: (nat, nat) -> real)
    requires forall j :: 0 <= j < |h| ==> h[j] > -900.0
    ensures h == [] ==> GreedyScore(h) == Infinite && UcbScore(h, t, bonus) == Infinite
    ensures h != [] ==> GreedyScore(h) == Finite(Mean(h)) && UcbScore(h, t, bonus) == Finite(Mean(h) + bonus(t, |h|))
  {
    assert ValidRewards(h) == h;
  }

  /** The lists the loops log hold only logged values, so every arm is
    * scored on all of its entries. */
  lemma LoggedHistoryScores(table: seq<seq<real>>, avail: seq<seq<bool>>, k: nat, actions: seq<int>, t: nat,
                            i: nat, bonus: (nat, nat) -> real)
    requires Playable(actions, table, avail) && InRange(actions, k) && t <= |actions| && i < k
    ensures var h := HistoryBefore(table, avail, k, actions, t)[i];
            && ValidRewards(h) == h
            && (h == [] ==> GreedyScore(h) == Infinite && UcbScore(h, t, bonus) == Infinite)
            && (h != [] ==> GreedyScore(h) == Finite(Mean(h)) && UcbScore(h, t, bonus) == Finite(Mean(h) + bonus(t, |h|)))
  {
    var acts := actions[..t];
    var logged := LoggedRewards(table, avail, acts);
    ReplayPicks(k, acts, logged);
    PickedFrom(acts, logged, i);
    var h := HistoryBefore(table, avail, k, actions, t)[i];
    assert h == Picked(acts, logged, i);
    forall j | 0 <= j < |h| ensures h[j] > -900.0 {
      assert h[j] in logged;
    }
    ScoresOfValid(h, t, bonus);
  }

  /** What a trial of the rerun needs: a non-empty table whose rows all have
    * the width of the first, and no more rounds than rows. */
  predicate SleepingTrialShape(table: seq<seq<real>>, avail: seq<seq<bool>>, nRounds: nat) {
    |table| > 0 && Grid(table, avail, |table[0]|) && nRounds <= |table| && (nRounds == 0 || |table[0]| > 0)
  }

  /** `run_trial_sleeping`: `n_rounds` greedy choices, each reward logged to
    * the chosen arm's history, then the sleeping curves. */
  method RunTrialSleeping(table: seq<seq<real>>, avail: seq<seq<bool>>, bestMean: real, nRounds: nat)
    returns (c: Curves)
    requires SleepingTrialShape(table, avail, nRounds)
    ensures |c.actions| == nRounds && InRange(c.actions, |table[0]|)
    ensures forall t :: 0 <= t < nRounds ==> true in avail[t] ==> avail[t][c.actions[t]]
    ensures forall t :: 0 <= t < nRounds ==>
              c.actions[t] == GreedyChoice(HistoryBefore(table, avail, |table[0]|, c.actions, t), avail[t])
    ensures c == SleepingCurves(c.actions, table, avail, bestMean)
  {
    var k := |table[0]|;
    var history: History<real> := NoRewards(k);
    var actions: seq<int> := [];
    var rewardsList: seq<real> := [];
    for t := 0 to nRounds
      invariant |actions| == t && InRange(actions, k) && Playable(actions, table, avail)
      invariant rewardsList == LoggedRewards(table, avail, actions)
      invariant history == Replay(k, actions, rewardsList)
      invariant forall j :: 0 <= j < t ==> actions[j] == GreedyChoice(HistoryBefore(table, avail, k, actions, j), avail[j])
    {
      var a, x := GreedyRound(table, avail, k, actions, rewardsList, history);
      history := Record(history, a, x);
      actions := actions + [a];
      rewardsList := rewardsList + [x];
    }
    c := CalcCurvesSleeping(actions, table, avail, bestMean);
  }

  /** One round of `run_trial_sleeping`: the greedy arm on the history so
    * far and the reward it logs, which extend every invariant of the loop
    * by one round. */
  method GreedyRound(table: seq<seq<real>>, avail: seq<seq<bool>>, k: nat, actions: seq<int>,
                     rewardsList: seq<real>, history: History<real>)
    returns (a: int, x: real)
    requires Grid(table, avail, k) && k > 0 && |actions| < |table|
    requires Playable(actions, table, avail) && InRange(actions, k)
    requires rewardsList == LoggedRewards(table, avail, actions)
    requires history == Replay(k, actions, rewardsList)
    requires forall j :: 0 <= j < |actions| ==> actions[j] == GreedyChoice(HistoryBefore(table, avail, k, actions, j), avail[j])
    ensures 0 <= a < k && |history| == k
    ensures Playable(actions + [a], table, avail) && InRange(actions + [a], k)
    ensures rewardsList + [x] == LoggedRewards(table, avail, actions + [a])
    ensures Record(history, a, x) == Replay(k, actions + [a], rewardsList + [x])
    ensures forall j :: 0 <= j <= |actions| ==>
              (actions + [a])[j] == GreedyChoice(HistoryBefore(table, avail, k, actions + [a], j), avail[j])
  {
    var t := |actions|;
    assert actions[..t] == actions;
    a := GreedyChoice(history, avail[t]);
    assert a == GreedyChoice(HistoryBefore(table, avail, k, actions, t), avail[t]);
    PlayableAppend(table, avail, k, actions, a);
    GreedyStep(table, avail, k, actions, a);
    var r := if avail[t][a] then table[t][a] else 0.0;
    x := if r > -900.0 then r else 0.0;
  }

  /** The UCB score of an arm: infinity with no valid rewards, otherwise the
    * mean plus the exploration bonus for round `t` and the count. */
  function UcbScore(h: seq<real>, t: nat, bonus: (nat, nat) -> real): (s: Score)
    ensures s.Infinite? <==> ValidRewards(h) == []
  {
    var v := ValidRewards(h);
    if |v| == 0 then Infinite else Finite(Mean(v) + bonus(t, |v|))
  }

  /** The arm the sleeping UCB player picks in round `t`. */
  function UcbChoice(history: History<real>, row: seq<bool>, t: nat, bonus: (nat, nat) -> real): (a: nat)
    requires |history| == |row|
    ensures true !in row ==> a == 0
    ensures true in row ==> a < |row| && row[a]
    ensures true in row && t < |row| && row[t] ==> a == t
    ensures true in row && t < |row| && !row[t] ==> forall j :: 0 <= j < a ==> !row[j]
    ensures true in row && t >= |row| ==>
              forall j :: 0 <= j < |row| && row[j] ==> !Below(UcbScore(history[a], t, bonus), UcbScore(history[j], t, bonus))
    ensures true in row && t >= |row| ==>
              forall j :: 0 <= j < a && row[j] ==> Below(UcbScore(history[j], t, bonus), UcbScore(history[a], t, bonus))
  {
    if true !in row then 0
    else if t < |row| then
      if row[t] then t else FirstTrue(row)
    else
      var scores := seq(|row|, i requires 0 <= i < |row| => UcbScore(history[i], t, bonus));
      FirstMaxWhere(row, scores)
  }

  /** `run_trial_sleeping_ucb`: as the greedy trial, with the UCB choice. */
  method RunTrialSleepingUcb(table: seq<seq<real>>, avail: seq<seq<bool>>, bestMean: real, nRounds: nat,
                             bonus: (nat, nat) -> real)
    returns (c: Curves)
    requires SleepingTrialShape(table, avail, nRounds)
    ensures |c.actions| == nRounds && InRange(c.actions, |table[0]|)
    ensures forall t :: 0 <= t < nRounds ==> true in avail[t] ==> avail[t][c.actions[t]]
    ensures forall t :: 0 <= t < nRounds ==>
              c.actions[t] == UcbChoice(HistoryBefore(table, avail, |table[0]|, c.actions, t), avail[t], t, bonus)
    ensures c == SleepingCurves(c.actions, table, avail, bestMean)
  {
    var k := |table[0]|;
    var history: History<real> := NoRewards(k);
    var actions: seq<int> := [];
    var rewardsList: seq<real> := [];
    for t := 0 to nRounds
      invariant |actions| == t && InRange(actions, k) && Playable(actions, table, avail)
      invariant rewardsList == LoggedRewards(table, avail, actions)
      invariant history == Replay(k, actions, rewardsList)
      invariant forall j :: 0 <= j < t ==> actions[j] == UcbChoice(HistoryBefore(table, avail, k, actions, j), avail[j], j, bonus)
    {
      var a, x := UcbRound(table, avail, k, actions, rewardsList, history, bonus);
      history := Record(history, a, x);
      actions := actions + [a];
      rewardsList := rewardsList + [x];
    }
    c := CalcCurvesSleeping(actions, table, avail, bestMean);
  }

  /** One round of `run_trial_sleeping_ucb`: the UCB arm on the history so
    * far and the reward it logs, which extend every invariant of the loop
    * by one round. */
  method UcbRound(table: seq<seq<real>>, avail: seq<seq<bool>>, k: nat, actions: seq<int>,
                  rewardsList: seq<real>, history: History<real>, bonus: (nat, nat) -> real)
    returns (a: int, x: real)
    requires Grid(table, avail, k) && k > 0 && |actions| < |table|
    requires Playable(actions, table, avail) && InRange(actions, k)
    requires rewardsList == LoggedRewards(table, avail, actions)
    requires history == Replay(k, actions, rewardsList)
    requires forall j :: 0 <= j < |actions| ==> actions[j] == UcbChoice(HistoryBefore(table, avail, k, actions, j), avail[j], j, bonus)
    ensures 0 <= a < k && |history| == k
    ensures Playable(actions + [a], table, avail) && InRange(actions + [a], k)
    ensures rewardsList + [x] == LoggedRewards(table, avail, actions + [a])
    ensures Record(history, a, x) == Replay(k, actions + [a], rewardsList + [x])
    ensures forall j :: 0 <= j <= |actions| ==>
              (actions + [a])[j] == UcbChoice(HistoryBefore(table, avail, k, actions + [a], j), avail[j], j, bonus)
  {
    var t := |actions|;
    assert actions[..t] == actions;
    a := UcbChoice(history, avail[t], t, bonus);
    assert a == UcbChoice(HistoryBefore(table, avail, k, actions, t), avail[t], t, bonus);
    PlayableAppend(table, avail, k, actions, a);
    UcbStep(table, avail, k, actions, a, bonus);
    var r := if avail[t][a] then table[t][a] else 0.0;
    x := if r > -900.0 then r else 0.0;
  }

  /** Appending a round to a play leaves the histories of earlier rounds
    * alone and logs the new round's reward last. */
  lemma Extend(table: seq<seq<real>>, avail: seq<seq<bool>>, k: nat, actions: seq<int>, a: int)
    requires Playable(actions + [a], table, avail) && InRange(actions + [a], k)
    ensures LoggedRewards(table, avail, actions + [a])
            == LoggedRewards(table, avail, actions) + [Logged(RealisedAt(table, avail, |actions|, a))]
    ensures forall j :: 0 <= j <= |actions| ==>
              HistoryBefore(table, avail, k, actions + [a], j) == HistoryBefore(table, avail, k, actions, j)
    ensures Replay(k, actions + [a], LoggedRewards(table, avail, actions + [a]))
            == Record(HistoryBefore(table, avail, k, actions, |actions|), a, Logged(RealisedAt(table, avail, |actions|, a)))
  {
    var ext := actions + [a];
    assert LoggedRewards(table, avail, ext)
           == LoggedRewards(table, avail, actions) + [Logged(RealisedAt(table, avail, |actions|, a))];
    forall j | 0 <= j <= |actions|
      ensures HistoryBefore(table, avail, k, ext, j) == HistoryBefore(table, avail, k, actions, j)
    {
      assert ext[..j] == actions[..j];
    }
    assert ext[..|actions|] == actions;
    assert actions[..|actions|] == actions;
  }

  lemma PlayableAppend(table: seq<seq<real>>, avail: seq<seq<bool>>, k: nat, actions: seq<int>, a: int)
    requires Grid(table, avail, k) && Playable(actions, table, avail) && InRange(actions, k)
    requires |actions| < |table| && 0 <= a < k
    ensures Playable(actions + [a], table, avail) && InRange(actions + [a], k)
  {
    assert forall j :: 0 <= j < |actions| ==> (actions + [a])[j] == actions[j];
  }

  /** One more greedy round keeps every round a greedy choice. */
  lemma GreedyStep(table: seq<seq<real>>, avail: seq<seq<bool>>, k: nat, actions: seq<int>, a: int)
    requires Playable(actions + [a], table, avail) && InRange(actions + [a], k) && Grid(table, avail, k)
    requires forall j :: 0 <= j < |actions| ==> actions[j] == GreedyChoice(HistoryBefore(table, avail, k, actions, j), avail[j])
    requires a == GreedyChoice(HistoryBefore(table, avail, k, actions, |actions|), avail[|actions|])
    ensures LoggedRewards(table, avail, actions + [a])
            == LoggedRewards(table, avail, actions) + [Logged(RealisedAt(table, avail, |actions|, a))]
    ensures Replay(k, actions + [a], LoggedRewards(table, avail, actions + [a]))
            == Record(HistoryBefore(table, avail, k, actions, |actions|), a, Logged(RealisedAt(table, avail, |actions|, a)))
    ensures forall j :: 0 <= j <= |actions| ==>
              (actions + [a])[j] == GreedyChoice(HistoryBefore(table, avail, k, actions + [a], j), avail[j])
  {
    Extend(table, avail, k, actions, a);
  }

  /** One more UCB round keeps every round a UCB choice. */
  lemma UcbStep(table: seq<seq<real>>, avail: seq<seq<bool>>, k: nat, actions: seq<int>, a: int, bonus: (nat, nat) -> real)
    requires Playable(actions + [a], table, avail) && InRange(actions + [a], k) && Grid(table, avail, k)
    requires forall j :: 0 <= j < |actions| ==> actions[j] == UcbChoice(HistoryBefore(table, avail, k, actions, j), avail[j], j, bonus)
    requires a == UcbChoice(HistoryBefore(table, avail, k, actions, |actions|), avail[|actions|], |actions|, bonus)
    ensures LoggedRewards(table, avail, actions + [a])
            == LoggedRewards(table, avail, actions) + [Logged(RealisedAt(table, avail, |actions|, a))]
    ensures Replay(k, actions + [a], LoggedRewards(table, avail, actions + [a]))
            == Record(HistoryBefore(table, avail, k, actions, |actions|), a, Logged(RealisedAt(table, avail, |actions|, a)))
    ensures forall j :: 0 <= j <= |actions| ==>
              (actions + [a])[j] == UcbChoice(HistoryBefore(table, avail, k, actions + [a], j), avail[j], j, bonus)
  {
    Extend(table, avail, k, actions, a);
  }

  /** Each trial loop gives one history entry per round. */
  lemma HistorySizeIsRound(table: seq<seq<real>>, avail: seq<seq<bool>>, k: nat, actions: seq<int>, t: nat)
    requires Playable(actions, table, avail) && InRange(actions, k) && t <= |actions|
    ensures TotalSize(HistoryBefore(table, avail, k, actions, t)) == t
  {
    ReplaySize(k, actions[..t], LoggedRewards(table, avail, actions[..t]));
  }

  /** The rounds `main` generates per trial. */
  const MainRounds: nat := 120

  /** The rewards of arm `arm` in the rounds, among the first `n`, where it
    * was available. */
  function AvailableRewards(table: seq<seq<real>>, avail: seq<seq<bool>>, arm: nat, n: nat): (rs: seq<real>)
    requires n <= |table| == |avail| && forall t :: 0 <= t < n ==> arm < |table[t]| && arm < |avail[t]|
    ensures |rs| <= n
    ensures rs == [] <==> forall t :: 0 <= t < n ==> !avail[t][arm]
    ensures forall x :: x in rs ==> exists t :: 0 <= t < n && avail[t][arm] && x == table[t][arm]
  {
    if n == 0 then []
    else AvailableRewards(table, avail, arm, n - 1) + (if avail[n - 1][arm] then [table[n - 1][arm]] else [])
  }

  /** The number of rounds, among the first `n`, in which arm `arm` was
    * available. */
  function AwakeCount(avail: seq<seq<bool>>, arm: nat, n: nat): (c: nat)
    requires n <= |avail| && forall t :: 0 <= t < n ==> arm < |avail[t]|
    ensures c <= n
  {
    if n == 0 then 0 else AwakeCount(avail, arm, n - 1) + (if avail[n - 1][arm] then 1 else 0)
  }

  /** The list holds exactly one reward per round in which the arm was
    * available, in round order: the reward of such a round `t` sits after
    * those of the earlier available rounds. */
  lemma {:induction false} AvailableRewardsExact(table: seq<seq<real>>, avail: seq<seq<bool>>, arm: nat, n: nat)
    requires n <= |table| == |avail| && forall t :: 0 <= t < n ==> arm < |table[t]| && arm < |avail[t]|
    ensures |AvailableRewards(table, avail, arm, n)| == AwakeCount(avail, arm, n)
    ensures forall t :: 0 <= t < n && avail[t][arm] ==>
              AwakeCount(avail, arm, t) < |AvailableRewards(table, avail, arm, n)|
              && AvailableRewards(table, avail, arm, n)[AwakeCount(avail, arm, t)] == table[t][arm]
  {
    if n > 0 {
      AvailableRewardsExact(table, avail, arm, n - 1);
      var before := AvailableRewards(table, avail, arm, n - 1);
      var rs := AvailableRewards(table, avail, arm, n);
      assert rs[..|before|] == before;
      forall t | 0 <= t < n && avail[t][arm]
        ensures AwakeCount(avail, arm, t) < |rs| && rs[AwakeCount(avail, arm, t)] == table[t][arm]
      {
        if t < n - 1 {
          assert rs[AwakeCount(avail, arm, t)] == before[AwakeCount(avail, arm, t)];
        }
      }
    }
  }

  /** The rewards of arm `arm` over the rounds `main` looks at, where it
    * was available. */
  function ArmRewards(table: seq<seq<real>>, avail: seq<seq<bool>>, k: nat, arm: nat): (rs: seq<real>)
    requires MainRounds <= |table| && Grid(table, avail, k) && arm < k
    ensures |rs| <= MainRounds
    ensures rs == [] <==> forall t :: 0 <= t < MainRounds ==> !avail[t][arm]
  {
    AvailableRewards(table, avail, arm, MainRounds)
  }

  /** The means of the arms, among the first `m`, with at least one
    * available round. */
  function ValidMeans(table: seq<seq<real>>, avail: seq<seq<bool>>, k: nat, m: nat): (vs: seq<real>)
    requires MainRounds <= |table| && Grid(table, avail, k) && m <= k
    ensures |vs| <= m
  {
    if m == 0 then []
    else
      var rs := ArmRewards(table, avail, k, m - 1);
      ValidMeans(table, avail, k, m - 1) + (if rs != [] then [Mean(rs)] else [])
  }

  /** Every valid mean belongs to an arm that was available at least once. */
  lemma {:induction false} ValidMeansSound(table: seq<seq<real>>, avail: seq<seq<bool>>, k: nat, m: nat)
    requires MainRounds <= |table| && Grid(table, avail, k) && m <= k
    ensures forall x :: x in ValidMeans(table, avail, k, m) ==>
              exists arm :: 0 <= arm < m && ArmRewards(table, avail, k, arm) != [] && x == Mean(ArmRewards(table, avail, k, arm))
  {
    if m > 0 {
      ValidMeansSound(table, avail, k, m - 1);
      var rs := ArmRewards(table, avail, k, m - 1);
      forall x | x in ValidMeans(table, avail, k, m)
        ensures exists arm :: 0 <= arm < m && ArmRewards(table, avail, k, arm) != [] && x == Mean(ArmRewards(table, avail, k, arm))
      {
        if x !in ValidMeans(table, avail, k, m - 1) {
          assert rs != [] && x == Mean(rs);
        }
      }
    }
  }

  /** The mean of every arm that was available at least once is a valid
    * mean. */
  lemma {:induction false} ValidMeansComplete(table: seq<seq<real>>, avail: seq<seq<bool>>, k: nat, m: nat)
    requires MainRounds <= |table| && Grid(table, avail, k) && m <= k
    ensures forall arm :: 0 <= arm < m && ArmRewards(table, avail, k, arm) != [] ==>
              Mean(ArmRewards(table, avail, k, arm)) in ValidMeans(table, avail, k, m)
  {
    if m > 0 {
      ValidMeansComplete(table, avail, k, m - 1);
      var prev, cur := ValidMeans(table, avail, k, m - 1), ValidMeans(table, avail, k, m);
      var rs := ArmRewards(table, avail, k, m - 1);
      var added := if rs != [] then [Mean(rs)] else [];
      assert cur == prev + added;
      forall arm | 0 <= arm < m && ArmRewards(table, avail, k, arm) != []
        ensures Mean(ArmRewards(table, avail, k, arm)) in cur
      {
        if arm < m - 1 {
          assert Mean(ArmRewards(table, avail, k, arm)) in prev;
        } else {
          assert added == [Mean(rs)];
        }
      }
    }
  }

  /** The availability-conditioned best mean of `main`: the highest mean
    * available-round reward of any arm that was ever available, or 5.0 when
    * none was. */
  method ConditionedBestMean(table: seq<seq<real>>, avail: seq<seq<bool>>, nArms: nat) returns (best: real)
    requires MainRounds <= |table| && Grid(table, avail, nArms)
    ensures (forall arm :: 0 <= arm < nArms ==> ArmRewards(table, avail, nArms, arm) == []) ==> best == 5.0
    ensures forall arm :: 0 <= arm < nArms && ArmRewards(table, avail, nArms, arm) != [] ==>
              Mean(ArmRewards(table, avail, nArms, arm)) <= best
    ensures (exists arm :: 0 <= arm < nArms && ArmRewards(table, avail, nArms, arm) != []) ==>
              exists arm :: 0 <= arm < nArms && ArmRewards(table, avail, nArms, arm) != []
                            && best == Mean(ArmRewards(table, avail, nArms, arm))
  {
    var validMeans: seq<real> := [];
    for arm := 0 to nArms
      invariant validMeans == ValidMeans(table, avail, nArms, arm)
    {
      var armRewards: seq<real> := [];
      for t := 0 to MainRounds
        invariant armRewards == AvailableRewards(table, avail, arm, t)
      {
        if avail[t][arm] {
          armRewards := armRewards + [table[t][arm]];
        }
      }
      if armRewards != [] {
        validMeans := validMeans + [Mean(armRewards)];
      }
    }
    ValidMeansSound(table, avail, nArms, nArms);
    ValidMeansComplete(table, avail, nArms, nArms);
    if validMeans != [] {
      best := Max(validMeans);
    } else {
      best := 5.0;
    }
  }
}
