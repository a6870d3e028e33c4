# Bandit experiment core, modelled in Dafny

This project models the core of a Python study that pits two language-model
strategies against multi-armed bandits. The model covers these parts:

- **Environments.** The stationary environment (`utils/bandit_env.py`) draws
  its means from a seeded generator and pre-draws a reward matrix. The
  sleeping environment (`experiments/5_sleeping_bandit/sleeping_env.py`)
  also draws which arms are awake each round, wakes one arm when none is, and
  writes `-999` into the cells of sleeping arms.
- **Parameter generator** (`utils/param_generator.py`). It draws parameter
  groups for five task kinds (basic, restless, contextual, adversarial,
  sleeping) and builds trials from them. Restless trials add a random-walk
  drift; contextual trials carry cyclic context labels.
- **Trial builders and curves** (`utils/shared.py`). These build trials in
  bulk and turn a run into cumulative reward and regret curves.
- **Sleeping rerun** (`scripts/rerun_class5.py`):
  - a greedy policy and a UCB policy restricted to awake arms;
  - their own curve rule (`calc_curves_sleeping`);
  - the availability-conditioned best mean used as the reference.
- **Text-only strategy** (`strategy_a_no_code/policy.py`). Each round it
  asks the model for an arm and parses the first integer of the reply.
  Unparsable or out-of-range replies fall back to a random arm.
- **Interpreter strategy** (`strategy_b_with_interpreter/policy.py`). The
  model writes policy code once. The code is cut out of the reply's code
  fences and run every round. A failed run falls back to a UCB rule, and the
  arm is clipped into range.

## Modelling choices

- **Randomness.** numpy's generator is a stream of draws indexed by
  position (`Random.Stream`), and `default_rng(seed)` is a family of streams
  indexed by seed. Each `uniform`, `normal`, `integers` or `random` call
  takes one position, and matrix draws fill row by row. Where the source
  creates a generator and mutates it, the model uses a `Random.Rng` object
  with a stream and a position. Each such method is specified by the
  position it starts from and the position it ends at.
- **Oracles.** The chat model of the text-only strategy is a function from
  the round and the reward history to a reply, which may be `Raised`. The
  interpreter strategy's code is run by an oracle that sees four things: the
  code, the round, the arms played so far and the reward history. The
  UCB bonus `sqrt(2 log(t+1) / n)` is a function parameter.
- **History.** The per-arm reward lists (`history = {i: []}`) are
  `Histories.History<real>`, one list per arm. Every loop is proved to keep
  its history equal to the replay of the arms and rewards played so far.
- **Curves.** The curves are returned whole, as a `Shared.Curves` value.
- **Sleeping regret follows the returned curves.** Inside its loop,
  `calc_curves_sleeping` computes a per-round regret of "best available
  reward minus reward" (`scripts/rerun_class5.py:46-50`), but that value is
  never used. The curves it returns charge `best_mean - r` when `r > 0` and
  `best_mean` otherwise (line 56). The model follows the returned rule:
  - `SleepingRerun.LoopRegret` is the discarded loop rule, and
    `SleepingRerun.ReturnedRegretIsNotLoopRegret` shows that the two rules
    differ on a concrete round.
  - `SleepingRerun.SleepingBalanceCanFail` shows that the returned rule
    breaks the identity `cum_reward + cum_regret = (t+1) * best_mean` once
    a reward is negative.
- **A dead branch in code extraction.** `build_policy_code_with_llm` returns
  the raw reply when a fenced reply splits into fewer than two parts
  (`strategy_b_with_interpreter/policy.py:104`). A reply that contains a
  fence always splits into two parts or more, so that branch never runs,
  and `InterpreterPolicy.ExtractCode` proves that every extracted code is
  stripped.

## Model

| member | source | states |
|---|---|---|
| BanditEnvironment.NewBanditConfig | utils/bandit_env.py:11-25 | explicit means fix the arm count; the config fails with `NegativeMean` exactly when some explicit mean is negative; every other field is kept |
| BanditEnvironment.InitialMeans | utils/bandit_env.py:39-46 | explicit means are taken verbatim; otherwise the means are `n_arms` uniform draws from the start of the stream, each within [mean_low, mean_high] |
| BanditEnvironment.AddMeans | utils/bandit_env.py:57-58 | broadcasting `means + noise` keeps the matrix shape |
| BanditEnvironment.BanditEnv.Init | utils/bandit_env.py:48-50 | the arm count is the number of means; the best arm is the first index of the largest mean; the best mean is that mean |
| BanditEnvironment.BanditEnv.Open | utils/bandit_env.py:34-50 | a negative arm count without means fails with `NegativeSize`; empty means fail with `NoArms` (argmax of an empty array); otherwise a fresh valid environment with the resolved means and the generator advanced past the mean draws |
| BanditEnvironment.BanditEnv.GenerateRewards | utils/bandit_env.py:52-59 | an `n_rounds x n_arms` matrix whose cell (t, i) is mean i plus the noise drawn at position `start + t*n_arms + i`; the generator advances by `n_rounds*n_arms` |
| BanditEnvironment.BanditEnv.GetReward | utils/bandit_env.py:61-65 | an arm outside [0, n_arms) gives `InvalidArm` and draws nothing; otherwise one normal draw around that arm's mean (a negative sigma is not checked) |
| BanditEnvironment.BanditEnv.GetInfo | utils/bandit_env.py:67-75 | the reported best arm is in range, its mean is the best mean, no mean exceeds it, and every earlier arm's mean is strictly lower |
| BanditEnvironment.CreateTrialConfigs | utils/bandit_env.py:78-117 | fails exactly when the arm-count range is empty and a config is requested; config i has seed `seed + i`, no explicit means and an arm count equal to draw i of `integers(lo, hi + 1)`, within [lo, hi] |
| BanditEnvironment.CreateFixedConfigs | utils/bandit_env.py:120-144 | fails exactly when some list holds a negative mean; config i has seed `42 + i`, the given means, their count as arm count, and the given sigma |
| SleepingEnvironment.AwakeTest | experiments/5_sleeping_bandit/sleeping_env.py:27 | arm i passes exactly when its uniform draw exceeds `sleep_prob` |
| SleepingEnvironment.AvailabilityAt | experiments/5_sleeping_bandit/sleeping_env.py:27-29 | one flag per arm, at least one arm awake, and every arm whose draw exceeds `sleep_prob` awake |
| SleepingEnvironment.AvailabilityAtShape | experiments/5_sleeping_bandit/sleeping_env.py:27-29 | every availability row wakes some arm; it is the per-arm test when that wakes an arm; otherwise exactly the arm chosen by the next `integers(0, n_arms)` draw is awake |
| SleepingEnvironment.RewardRowAt | experiments/5_sleeping_bandit/sleeping_env.py:31-35 | the reward row has one cell per arm |
| SleepingEnvironment.RoundAt | experiments/5_sleeping_bandit/sleeping_env.py:26-35 | a round has one flag and one reward per arm; its reward draws start after the `n_arms` availability draws and at most one forced draw, and it takes at least one and at most `n_arms` reward draws |
| SleepingEnvironment.RoundAtFields | experiments/5_sleeping_bandit/sleeping_env.py:26-35 | a round holds the availability row drawn at its start and the reward row drawn right after the availability draws; the next round starts after one draw per awake arm |
| SleepingEnvironment.GenerateRounds | experiments/5_sleeping_bandit/sleeping_env.py:26-35 | exactly `n_rounds` rounds |
| SleepingEnvironment.GenerateRoundsStep | experiments/5_sleeping_bandit/sleeping_env.py:26 | the first n+1 rounds are the first n followed by the round drawn where they end |
| SleepingEnvironment.RoundsPrefix | experiments/5_sleeping_bandit/sleeping_env.py:26 | round t of a run is the round drawn where the first t rounds end |
| SleepingEnvironment.RoundIsWellFormed | experiments/5_sleeping_bandit/sleeping_env.py:22-37 | every generated round wakes some arm; a sleeping cell holds exactly -999; an awake cell holds its arm's normal draw |
| SleepingEnvironment.RoundAtIsWellFormed | experiments/5_sleeping_bandit/sleeping_env.py:26-35 | one round drawn from any position is well formed |
| SleepingEnvironment.RewardRowIsWellFormed | experiments/5_sleeping_bandit/sleeping_env.py:31-35 | the reward row of any row that wakes an arm is well formed |
| SleepingEnvironment.SleepingBanditEnv.constructor | experiments/5_sleeping_bandit/sleeping_env.py:16-20 | the means are `n_arms` uniform draws from the seeded stream, and the generator has moved past them |
| SleepingEnvironment.SleepingBanditEnv.GenerateRewards | experiments/5_sleeping_bandit/sleeping_env.py:22-37 | fresh `n_rounds x n_arms` arrays hold, row by row, the rounds `GenerateRounds` draws; with no arms and some rounds the forced draw fails as an empty range; a negative sigma is not checked |
| SleepingEnvironment.SleepingBanditEnv.FillRounds | experiments/5_sleeping_bandit/sleeping_env.py:26-35 | the outer loop fills every row with the corresponding generated round and leaves the generator at that run's end |
| SleepingEnvironment.SleepingBanditEnv.DrawAvailability | experiments/5_sleeping_bandit/sleeping_env.py:27-29 | the row drawn is `AvailabilityAt` at the current position, and the generator advances by its draws |
| SleepingEnvironment.SleepingBanditEnv.NextRound | experiments/5_sleeping_bandit/sleeping_env.py:26-35 | one pass of the outer loop: with rows before t holding the first t generated rounds, row t receives round t and the generator ends where round t ends |
| SleepingEnvironment.SleepingBanditEnv.FillRound | experiments/5_sleeping_bandit/sleeping_env.py:31-35 | the filled prefix grows by one round: row t receives the availability row and the reward row drawn from the current position; the generator advances by the number of awake arms |
| SleepingEnvironment.SleepingBanditEnv.FillRow | experiments/5_sleeping_bandit/sleeping_env.py:31-35 | the inner loop changes only row t: each availability cell is the drawn flag, each reward cell the sentinel or the arm's normal draw; the generator advances by the number of awake arms |
| SleepingEnvironment.CreateSleepingConfigs | experiments/5_sleeping_bandit/sleeping_env.py:39-46 | config i has seed `seed + i`, sleep probability 0.3 and an arm count equal to draw i of `integers(3, 11)`, within [3, 10] |
| ParamGeneration.BasicGroupAt | utils/param_generator.py:43-50 | the arm count lies in its inclusive range; each real parameter lies in its range when that range is ordered; the seed is `seed + 100*i`; the group id is i |
| ParamGeneration.BasicParamsAt | utils/param_generator.py:42-53 | `n_groups` groups |
| ParamGeneration.BasicSeedsDistinct | utils/param_generator.py:48-49 | groups are numbered in order and their seeds are pairwise distinct |
| ParamGeneration.ExtraAt | utils/param_generator.py:55-100 | each kind gets its own extra: a drift rate, a context count in [2, 5], a switch interval in its range, or a sleep probability |
| ParamGeneration.WithExtrasAt | utils/param_generator.py:62-63 | one extra per group, and no group is added or lost |
| ParamGeneration.KindParamsAt | utils/param_generator.py:55-100 | `n_groups` groups for the kind |
| ParamGeneration.KindParamsShape | utils/param_generator.py:55-100 | a kind's groups are its basic groups with only the extra changed, and keep their seeds |
| ParamGeneration.AllParamsAt | utils/param_generator.py:102-118 | all five lists have `n_groups` entries |
| ParamGeneration.AllParamsShareSeeds | utils/param_generator.py:102-118 | group i of every kind has the same seed and group id as basic group i |
| ParamGeneration.ParamGenerator.constructor | utils/param_generator.py:12-22 | the generator starts at position 0 of the stream for `seed` |
| ParamGeneration.ParamGenerator.GenerateBasicParams | utils/param_generator.py:24-53 | an empty arm-count range fails before any draw; otherwise the groups `BasicParamsAt` gives at the current position, and the generator advances four draws per group |
| ParamGeneration.ParamGenerator.AddExtras | utils/param_generator.py:62-63 | an undrawable extra fails before any draw; otherwise the groups with their extras, one draw per group |
| ParamGeneration.ParamGenerator.GenerateKindParams | utils/param_generator.py:55-100 | the kind's groups as `KindParamsAt` gives them, or the failure of whichever draw meets an empty range first |
| ParamGeneration.ParamGenerator.GenerateAllParams | utils/param_generator.py:102-118 | the five lists drawn in source order from one generator, or the first empty-range failure |
| ParamGeneration.PyMod | utils/param_generator.py:168 | Python's `%`: `a == (a // b) * b + r` with floor division, and the remainder lies in [0, b) for a positive divisor and in (b, 0] for a negative one |
| ParamGeneration.PyModUnique | utils/param_generator.py:168 | any quotient and remainder with `a == q*b + r` and the remainder in that range are Python's `a // b` and `a % b` |
| ParamGeneration.IntToString | utils/param_generator.py:168 | Python's `str` of an integer: only decimal digits whose value is x, and the string is `0` whenever it starts with a 0; a negative x gets a `-` followed by the digits of -x, which do not start with 0 |
| ParamGeneration.ContextLabels | utils/param_generator.py:167-168 | one label per round |
| ParamGeneration.ContextLabelsCycle | utils/param_generator.py:167-168 | label t is `context_` followed by decimal digits that read back as `t % n_contexts`, and the labels repeat with period `n_contexts` |
| ParamGeneration.ContextLabelText | utils/param_generator.py:167-168 | label t is exactly `context_` followed by `str(t % n_contexts)`, so its number is `0` whenever it starts with a 0 (no `context_07`) |
| ParamGeneration.CumSumRows | utils/param_generator.py:146-149 | `cumsum(axis=0)` keeps the shape |
| ParamGeneration.CumSumRowsWalk | utils/param_generator.py:146-149 | row 0 of the cumulative sum is row 0 of the input; each later row adds its input row to the previous sum |
| ParamGeneration.AddMatrices | utils/param_generator.py:150 | elementwise addition keeps the shape |
| ParamGeneration.CreateTrialFromParams | utils/param_generator.py:121-177 | succeeds exactly when the arm count is positive and no contextual group with zero contexts has a round; a built trial keeps the parameters, has `n_arms` means and `n_rounds` rows of `n_arms` rewards, and its best arm indexes a mean that no mean exceeds; a negative sigma or drift rate is not checked |
| ParamGeneration.TrialFailures | utils/param_generator.py:132-168 | building a trial fails exactly when the arm count is not positive, or when the context count is zero and there is a round; a negative count fails as a negative size, zero as the argmax of nothing; a negative sigma or drift rate is not among the failures |
| ParamGeneration.TrialShape | utils/param_generator.py:132-177 | the means are the first `n_arms` uniform draws; the best arm is the first maximum and the best mean its value; a non-restless reward is mean plus the noise draw at its position; labels exist exactly for contextual groups, and with at least one round they are the `context_{t % n_contexts}` labels of the rounds |
| ParamGeneration.DriftAt | utils/param_generator.py:146-149 | the drift has one row of `n_arms` per round |
| ParamGeneration.TrialRewards | utils/param_generator.py:141-152 | the reward matrix has one row of `n_arms` cells per round |
| ParamGeneration.DriftRewards | utils/param_generator.py:145-150 | each cell of a restless matrix is the mean, plus the noise at its position, plus the drift cell |
| ParamGeneration.RestlessRewards | utils/param_generator.py:145-150 | a restless reward is mean plus noise plus the drift drawn after all the noise |
| ParamGeneration.DriftIsRandomWalk | utils/param_generator.py:146-149 | each drift row is the previous row plus a fresh normal increment with the drift rate as sigma |
| Seqs.CumSum | utils/shared.py:74 | entry t is the sum of the first t+1 values |
| Seqs.FirstMax | strategy_b_with_interpreter/policy.py:71 | `np.argmax` with infinities: no score beats the chosen one, and every earlier score is strictly lower |
| Seqs.ArgMax | utils/bandit_env.py:49 | the first index of the largest real |
| Seqs.Max | utils/param_generator.py:159 | `np.max`: a member of the list that no entry exceeds |
| Seqs.FirstMaxWhere | scripts/rerun_class5.py:92 | `max(available, key=...)`: an available index that no available score beats, with every earlier available score strictly lower |
| Seqs.MeanWithin | strategy_a_no_code/policy.py:64 | a mean lies between the minimum and the maximum of its values |
| Histories.Record | strategy_a_no_code/policy.py:56 | `history[a].append(x)` grows arm a's list by x and changes no other arm |
| Histories.NoRewards | strategy_a_no_code/policy.py:23 | `{i: [] for i in range(n_arms)}`: k empty lists |
| Histories.ReplayPicks | strategy_a_no_code/policy.py:23-58 | the history after a run holds, for each arm, exactly the rewards of the rounds that played it, in order |
| Histories.PickedFrom | strategy_a_no_code/policy.py:23-58 | every entry in an arm's list is one of the values the run logged |
| Histories.ReplaySize | strategy_a_no_code/policy.py:23-58 | the history after a run holds one entry per round |
| Histories.RecordGrowsByOne | strategy_a_no_code/policy.py:56 | appending adds exactly one entry to the whole history |
| Text.Strip | strategy_b_with_interpreter/policy.py:103-105 | `str.strip()`: a contiguous slice that neither starts nor ends with whitespace, with only whitespace cut off either side |
| Text.StripIdempotent | strategy_b_with_interpreter/policy.py:105 | stripping twice is stripping once |
| Text.Find | strategy_b_with_interpreter/policy.py:99 | the first occurrence, found exactly when the separator occurs |
| Text.Split | strategy_b_with_interpreter/policy.py:100 | `str.split(sep)`: at least one part; two or more exactly when the separator occurs; the whole text when it does not; otherwise the first part is the text before the leftmost occurrence; no part contains the separator |
| Text.SplitAtLeftmost | strategy_b_with_interpreter/policy.py:100 | the split cuts at the leftmost occurrence: the first part ends where the separator first occurs, and the other parts are the split of the text after that occurrence |
| Text.SplitJoin | strategy_b_with_interpreter/policy.py:100 | joining the parts with the separator gives the text back |
| Text.ReplaceFirst | strategy_b_with_interpreter/policy.py:103 | `replace(pat, "", 1)`: the first occurrence is replaced; text without the pattern is unchanged |
| Text.DecimalRoundTrip | strategy_a_no_code/policy.py:12 | reading the decimal digits of n gives n |
| Shared.Regrets | utils/shared.py:75 | regret t is `best_mean - reward[t]`, unclamped |
| Shared.CalcCurves | utils/shared.py:72-82 | actions and rewards are kept; cumulative reward t is the sum of the first t+1 rewards; cumulative regret t is the sum of the first t+1 regrets |
| Shared.SumRegrets | utils/shared.py:75-76 | the regrets sum to `n*best_mean` minus the rewards' sum |
| Shared.CurvesBalance | utils/shared.py:72-82 | at every round, cumulative reward plus cumulative regret equals `(t+1)*best_mean` |
| Shared.RegretZeroWhenOptimal | utils/shared.py:75-76 | a run that always earns `best_mean` has zero cumulative regret throughout |
| Shared.RegretMonotone | utils/shared.py:75-76 | when no reward exceeds `best_mean`, cumulative regret never decreases |
| Shared.RegretCanDecrease | utils/shared.py:75-76 | a reward above `best_mean` lowers cumulative regret: regret is not clamped |
| Shared.SimpleTrialAt | utils/shared.py:62-69 | `n_arms` means and `n_rounds` reward rows of `n_arms` cells |
| Shared.SimpleTrialShape | utils/shared.py:62-69 | a trial's means lie in the mean range when it is ordered, and each reward is the mean plus the noise draw that follows the means |
| Shared.MakeTrials | utils/shared.py:55-70 | fails exactly when trials are requested with a negative arm count (a negative sigma is not checked); trial i is drawn from the one generator, starting after the draws of the i trials before it |
| Shared.TrialFromConfig | utils/shared.py:38-52 | succeeds exactly when the environment has an arm (non-empty explicit means, or a positive arm count); a negative arm count without means fails as a negative size; a negative sigma is not checked |
| Shared.TrialRecordShape | utils/shared.py:38-52 | a trial record carries the environment's means, a matching reward matrix, the first-maximum best arm, its mean, and the config's sigma and mean range |
| Shared.RecordOfRun | utils/shared.py:39-52 | rewards that are each mean plus the noise drawn after the means make exactly the config's record, with the first-maximum best arm |
| Shared.MakeTrial | utils/shared.py:38-52 | one pass of the loop: the record of the config, or the error its environment fails with |
| Shared.MakeTrialsFromConfigs | utils/shared.py:26-53 | succeeds exactly when every config opens (a negative sigma is not checked); otherwise it fails with the first failing config's error; on success trial i is that config's record |
| SleepingRerun.RowIndex | scripts/rerun_class5.py:41-42 | numpy's index: non-negative indices as written, negative ones counted from the end |
| SleepingRerun.Realised | scripts/rerun_class5.py:39-54 | the logged reward of round t is the table cell when the chosen arm is awake, 0 otherwise |
| SleepingRerun.ReturnedRegrets | scripts/rerun_class5.py:56 | regret t is `best_mean - r` when `r > 0`, else `best_mean` |
| SleepingRerun.SleepingCurves | scripts/rerun_class5.py:27-63 | the returned actions, realised rewards, and their cumulative reward and cumulative regret under the returned rule |
| SleepingRerun.CalcCurvesSleeping | scripts/rerun_class5.py:27-63 | the loop builds exactly `SleepingCurves` |
| SleepingRerun.SumReturnedRegrets | scripts/rerun_class5.py:55-56 | rewards plus returned regrets equal `n*best_mean` plus the shortfall of the non-positive rewards |
| SleepingRerun.SleepingBalance | scripts/rerun_class5.py:55-56 | cumulative reward plus cumulative regret at t equals `(t+1)*best_mean` plus the shortfalls so far |
| SleepingRerun.SleepingBalanceNonNegative | scripts/rerun_class5.py:55-56 | with non-negative realised rewards the sum is exactly `(t+1)*best_mean` |
| SleepingRerun.SleepingBalanceCanFail | scripts/rerun_class5.py:56 | a negative reward breaks that identity: reward -1 with `best_mean` 1 gives curves -1 and 1 |
| SleepingRerun.UnavailableCostsBestMean | scripts/rerun_class5.py:51-56 | a round that plays a sleeping arm adds 0 reward and exactly `best_mean` regret |
| SleepingRerun.LoopRegret | scripts/rerun_class5.py:40-52 | a sleeping chosen arm costs `best_mean`; an awake one costs the best awake reward minus its own: never negative, at least every awake arm's margin, and equal to one of them |
| SleepingRerun.ReturnedRegretIsNotLoopRegret | scripts/rerun_class5.py:46-56 | the discarded loop regret (best awake reward minus reward) differs from the returned one on a concrete round |
| SleepingRerun.ValidRewards | scripts/rerun_class5.py:79 | the filter keeps every entry above -900 as often as it occurs and nothing else; a list with no entry at or below -900 is kept whole |
| SleepingRerun.GreedyScore | scripts/rerun_class5.py:79-92 | the score is infinite exactly when no valid reward is logged |
| SleepingRerun.ScoresOfValid | scripts/rerun_class5.py:79-92 | for a list with only valid entries, the greedy score is its mean and the UCB score its mean plus the bonus for its length, or infinity when it is empty |
| SleepingRerun.LoggedHistoryScores | scripts/rerun_class5.py:79-136 | every arm list the loops log passes the filter whole, so each arm is scored on the mean of all its entries (plus the bonus for their count under UCB), or infinity when it has none |
| SleepingRerun.GreedyChoice | scripts/rerun_class5.py:86-92 | arm 0 when nothing is awake; otherwise an awake arm whose score no awake arm beats, the first such |
| SleepingRerun.GreedyPrefersUntried | scripts/rerun_class5.py:92 | when some awake arm has no valid reward, the choice is the first awake arm without one |
| SleepingRerun.Logged | scripts/rerun_class5.py:100 | a logged value is always above -900: a value above -900 is kept, anything else becomes 0 |
| SleepingRerun.LoggedRewards | scripts/rerun_class5.py:95-102 | round t logs the realised reward, with anything at or below -900 logged as 0 |
| SleepingRerun.HistoryBefore | scripts/rerun_class5.py:71-100 | the history before round t has one list per arm |
| SleepingRerun.HistorySizeIsRound | scripts/rerun_class5.py:100 | the history before round t holds t entries |
| SleepingRerun.GreedyRound | scripts/rerun_class5.py:76-102 | one round: the greedy choice on the logged history, an awake arm when one is awake, with the logged reward and history extended by that round |
| SleepingRerun.RunTrialSleeping | scripts/rerun_class5.py:65-104 | `n_rounds` in-range actions; each is the greedy choice on the history the earlier rounds logged; an awake arm whenever one is awake; the curves are `SleepingCurves` of those actions |
| SleepingRerun.UcbScore | scripts/rerun_class5.py:129-136 | infinite exactly when no valid reward is logged |
| SleepingRerun.UcbChoice | scripts/rerun_class5.py:115-138 | arm 0 when nothing is awake; while `t < n_arms`, arm t if awake, else the first awake arm; afterwards the first awake arm of highest UCB score |
| SleepingRerun.UcbRound | scripts/rerun_class5.py:116-148 | one round: the UCB choice on the logged history, an awake arm when one is awake, with the logged reward and history extended by that round |
| SleepingRerun.RunTrialSleepingUcb | scripts/rerun_class5.py:106-150 | `n_rounds` in-range actions; each is the UCB choice on the logged history; an awake arm whenever one is awake; the curves are `SleepingCurves` |
| SleepingRerun.AvailableRewards | scripts/rerun_class5.py:171-174 | at most one reward per round; none exactly when the arm slept in every round; each is the arm's cell of a round where it was awake |
| SleepingRerun.AwakeCount | scripts/rerun_class5.py:171-174 | the number of rounds in which the arm was awake is at most the number of rounds |
| SleepingRerun.AvailableRewardsExact | scripts/rerun_class5.py:171-174 | the list holds one reward per round in which the arm was awake, in round order: its length is the number of such rounds, and the reward of such a round t sits at the index counting the awake rounds before t |
| SleepingRerun.ArmRewards | scripts/rerun_class5.py:169-174 | over the 120 rounds, at most 120 rewards, and none exactly when the arm never woke |
| SleepingRerun.ValidMeans | scripts/rerun_class5.py:168-176 | at most one mean per arm |
| SleepingRerun.ValidMeansSound | scripts/rerun_class5.py:168-176 | every collected mean is the mean of some arm's awake rewards over the 120 rounds |
| SleepingRerun.ValidMeansComplete | scripts/rerun_class5.py:168-176 | every arm that was awake at least once contributes its mean |
| SleepingRerun.ConditionedBestMean | scripts/rerun_class5.py:168-178 | 5.0 when no arm was ever awake; otherwise the largest awake-only mean: at least every arm's, and equal to one of them |
| NoCodePolicy.FirstInteger | strategy_a_no_code/policy.py:9-12 | no match exactly when the text has no digit |
| NoCodePolicy.ParseAction | strategy_a_no_code/policy.py:8-15 | any parsed arm lies in [0, n_arms) |
| NoCodePolicy.ParseWithoutDigits | strategy_a_no_code/policy.py:9-11 | a reply without digits, or a missing reply, names no arm |
| NoCodePolicy.FirstIntegerOfNumeral | strategy_a_no_code/policy.py:9-12 | the first digit run, with a `-` right before it, is the number read |
| NoCodePolicy.ParseNumeral | strategy_a_no_code/policy.py:8-15 | a reply holding an in-range arm after digit-free text parses back to that arm |
| NoCodePolicy.ParseFirstOnly | strategy_a_no_code/policy.py:9-15 | only the first number counts: an out-of-range first number gives no arm |
| NoCodePolicy.ParseNegative | strategy_a_no_code/policy.py:9-15 | a signed number is rejected unless it is `-0` and there is an arm |
| NoCodePolicy.TrialMeans | strategy_a_no_code/policy.py:19 | the trial's means, or zeros when it has none |
| NoCodePolicy.RowMaxima | strategy_a_no_code/policy.py:64 | `reward_table.max(axis=1)`: each row's maximum |
| NoCodePolicy.BestMeanForCurves | strategy_a_no_code/policy.py:60-64 | the largest mean when it is positive; else the trial's `best_mean`; else the mean of the row maxima, which lies between the smallest and the largest of them |
| NoCodePolicy.Proposal | strategy_a_no_code/policy.py:42-53 | a raised call proposes nothing; a proposal is in range |
| NoCodePolicy.TableRewards | strategy_a_no_code/policy.py:55-58 | reward t is the table cell of round t and the arm played |
| NoCodePolicy.HistoryAt | strategy_a_no_code/policy.py:23-56 | the history before round t has one list per arm |
| NoCodePolicy.FallbacksBefore | strategy_a_no_code/policy.py:49-53 | at most one fallback draw per earlier round, and one in every earlier round exactly when no reply before round t named an arm |
| NoCodePolicy.ChoiceAt | strategy_a_no_code/policy.py:42-53 | the arm played is always in [0, n_arms), and it is the model's parsed arm whenever the reply names one |
| NoCodePolicy.NoCodeHistory | strategy_a_no_code/policy.py:23-58 | the history before round t holds t entries, and arm i's list is the rewards of the rounds that played i |
| NoCodePolicy.NoCodeRound | strategy_a_no_code/policy.py:42-53 | the round's arm is the model's parsed arm or the next fallback draw; the generator advances exactly when the reply names no arm |
| NoCodePolicy.NoCodeAdvance | strategy_a_no_code/policy.py:42-58 | after a round, the logged rewards, the history and the fallback count are those of the longer play, and every earlier choice stays the same |
| NoCodePolicy.RunTrialNoCode | strategy_a_no_code/policy.py:17-66 | `n_rounds` in-range actions. Each is the model's parsed arm, or the random draw after as many earlier fallbacks. The curves are `calc_curves` over the logged rewards and the selected best mean |
| InterpreterPolicy.FallbackScore | strategy_b_with_interpreter/policy.py:46-70 | infinite exactly when the once-flattened history holds no number |
| InterpreterPolicy.FallbackScores | strategy_b_with_interpreter/policy.py:44-70 | one score per arm, each the fallback score of that arm's history |
| InterpreterPolicy.FallbackUcb | strategy_b_with_interpreter/policy.py:40-71 | arm t while `t < n_arms`; afterwards an arm whose score no arm beats, with every earlier score strictly lower |
| InterpreterPolicy.FallbackPrefersUnscored | strategy_b_with_interpreter/policy.py:57-71 | after the first `n_arms` rounds the chosen arm is the first one with no numeric history, when there is one |
| InterpreterPolicy.RewardHistoryScore | strategy_b_with_interpreter/policy.py:57-70 | a plain reward list scores its mean plus the bonus for its length, or infinity when empty |
| InterpreterPolicy.NumbersOfRewards | strategy_b_with_interpreter/policy.py:63 | the numeric filter keeps a list of rewards whole |
| InterpreterPolicy.HistoryMap | strategy_b_with_interpreter/policy.py:17 | `history.get(i, [])` of the interpreter's dictionary is arm i's rewards |
| InterpreterPolicy.FlattenOnceAppend | strategy_b_with_interpreter/policy.py:49-54 | the flattening loop works entry by entry: flattening two histories one after the other gives their flattenings one after the other |
| InterpreterPolicy.FlattenOnceOneLevel | strategy_b_with_interpreter/policy.py:49-54 | flattening goes one level deep: a list's items are kept as they are, and a history without lists is unchanged |
| InterpreterPolicy.FlattenedScore | strategy_b_with_interpreter/policy.py:46-70 | for every history: when it is led by a list or tuple the score uses the numbers and the length of its flattening, otherwise those of the history itself; infinity when there is no number |
| InterpreterPolicy.FlattenLeadingList | strategy_b_with_interpreter/policy.py:48-55 | a history led by a list is flattened: two numbers inside it score their mean with a count of two |
| InterpreterPolicy.NoFlattenAfterNumber | strategy_b_with_interpreter/policy.py:48-68 | a history led by a number is not flattened; a later list counts towards the bonus but not the mean |
| InterpreterPolicy.Numbers | strategy_b_with_interpreter/policy.py:63 | the numeric filter keeps no more entries than it is given |
| InterpreterPolicy.ExtractCode | strategy_b_with_interpreter/policy.py:97-105 | the extracted code is never longer than the reply, and it neither starts nor ends with whitespace |
| InterpreterPolicy.FirstWith | strategy_b_with_interpreter/policy.py:101-103 | the first part containing the word, or none when no part does |
| InterpreterPolicy.ExtractUnfenced | strategy_b_with_interpreter/policy.py:99-105 | a reply without a fence is only stripped, and extracting again changes nothing |
| InterpreterPolicy.ClosingFence | strategy_b_with_interpreter/policy.py:99-100 | fence-free text not ending in a backtick has its first fence right after it |
| InterpreterPolicy.SplitFenced | strategy_b_with_interpreter/policy.py:100 | a fenced body splits into an empty part, the body and an empty part |
| InterpreterPolicy.StripNewlines | strategy_b_with_interpreter/policy.py:103 | stripping the newlines around code that neither starts nor ends with whitespace gives the code back |
| InterpreterPolicy.ExtractPythonBlock | strategy_b_with_interpreter/policy.py:97-105 | code fenced as a python block is extracted unchanged |
| InterpreterPolicy.ExtractPlainBlock | strategy_b_with_interpreter/policy.py:99-104 | code fenced without a tag, and not mentioning python, is extracted unchanged |
| InterpreterPolicy.ExtractFromProse | strategy_b_with_interpreter/policy.py:99-103 | prose before the first fence that mentions python is taken as the code, less the word, and the fenced code is ignored |
| InterpreterPolicy.Clip | strategy_b_with_interpreter/policy.py:131 | `np.clip`: always in [lo, hi]; values already in range are unchanged; values below become lo and above become hi |
| InterpreterPolicy.Proposed | strategy_b_with_interpreter/policy.py:120-129 | a run that leaves an integer choice proposes that integer; otherwise the fallback arm, in range, and arm t while `t < n_arms` |
| InterpreterPolicy.InterpreterChoiceAt | strategy_b_with_interpreter/policy.py:119-131 | the arm played in a round is always in [0, n_arms) |
| InterpreterPolicy.InterpreterRound | strategy_b_with_interpreter/policy.py:120-131 | the round's arm is in [0, n_arms) and is the clipped choice of the run, or the clipped fallback |
| InterpreterPolicy.RunTrialWithInterpreter | strategy_b_with_interpreter/policy.py:107-144 | `n_rounds` in-range actions. Each is the clipped integer choice of a successful run, or the clipped fallback UCB arm. The curves are `calc_curves` over the logged rewards and the same best mean as the text-only strategy |
| InterpreterPolicy.FailedRunExplores | strategy_b_with_interpreter/policy.py:40-43 | in the first `n_arms` rounds, a run that raised or left a choice that is not an integer plays arm t |

## Left out

- Chat-model calls, prompts and the statistics text put into them (`arm_stats`), `get_client_and_model`, and printing and verbose tool logs are not modelled. Replies and interpreter runs are oracles.
- Nothing the interpreter's code does to the `history` dictionary is modelled. The oracle cannot rewrite it, and the loop alone appends to it.
- numpy's bit generator (PCG64, its uniform and normal algorithms) is not modelled. Each seed selects an abstract stream, and only the order and count of draws are modelled. In the text-only strategy, the global `np.random.randint` stream is a parameter.
- Floating point is not modelled: rewards are exact reals, with no NaN, no rounding and no `float` conversions. `float('inf')` is the `Infinite` score. The UCB bonus `sqrt(2*log(t+1)/n)` is an abstract function.
- `main` in `scripts/rerun_class5.py` is not modelled: the JSON results file, the summary statistics and `convert_to_native` are left out. Only its availability-conditioned best mean (`SleepingRerun.ConditionedBestMean`) is modelled.
- The module-level `STANDARD_CONFIGS` table is not modelled separately. It consists of calls to `create_fixed_configs` and `create_trial_configs`, which are modelled.
- `PersistentInterpreter.run`'s stdout capture and error strings are left out; only whether the run raised matters to the loop.
- BanditEnvironment.BanditEnv.GenerateRewards: numpy's `ValueError` for a negative sigma is not modelled; sigma is any real.
- BanditEnvironment.BanditEnv.GetReward: numpy's `ValueError` for a negative sigma (`utils/bandit_env.py:65`) is not modelled. An in-range arm always gets a normal draw.
- SleepingEnvironment.SleepingBanditEnv.GenerateRewards: numpy's `ValueError` for a negative sigma is not modelled. The source raises at its first normal draw (`experiments/5_sleeping_bandit/sleeping_env.py:33`). Every round wakes an arm, so that draw comes in round 0 whenever there is an arm and a round. The model succeeds there.
- ParamGeneration.CreateTrialFromParams: numpy's `ValueError` for a negative `sigma` (`utils/param_generator.py:142`) or a negative `drift_rate` (line 147) is not modelled. The source raises on those even when no cell is drawn. The model builds the trial, or fails only for the reasons it models.
- ParamGeneration.TrialFailures: lists only the modelled failures. A negative sigma or drift rate, on which the source raises, is not among them.
- Shared.MakeTrials: numpy's `ValueError` for a negative sigma (`utils/shared.py:64`, raised in the first trial) is not modelled.
- Shared.TrialFromConfig: numpy's `ValueError` for a negative sigma in `generate_rewards` (`utils/bandit_env.py:57`, reached from `utils/shared.py:40`) is not modelled. The model returns the record.
- Shared.MakeTrialsFromConfigs: a config with a negative sigma does not make the list fail, for the reason given for `Shared.TrialFromConfig`.
- ParamGeneration.ParamGenerator.GenerateBasicParams: the configured ranges are pairs. Malformed range lists (too short: `IndexError`) are not modelled.
- BanditEnvironment.BanditEnv.GenerateRewards: `n_rounds` is a natural number, so numpy's `ValueError` for a negative size is not modelled.
- SleepingEnvironment.SleepingBanditEnv.GenerateRewards: `n_rounds` is a natural number, so numpy's `ValueError` for a negative size is not modelled.
- SleepingEnvironment.SleepingBanditEnv.constructor: `SleepingConfig.nArms` is a natural number, so numpy's `ValueError` for a negative `n_arms` is not modelled.
- ParamGeneration.CreateTrialFromParams: `n_rounds` is a natural number, so numpy's `ValueError` for a negative round count is not modelled. A negative `n_arms` is modelled as `NegativeSize`.
- Shared.MakeTrials: `n_rounds` is a natural number, so numpy's `ValueError` for a negative round count is not modelled. A negative `n_arms` is modelled as `NegativeSize`.
- SleepingEnvironment.GenerateRounds: its own contract gives only the round count. What each round holds is stated by `SleepingEnvironment.RoundsPrefix` and `SleepingEnvironment.RoundIsWellFormed`.
- NoCodePolicy.FirstInteger: only ASCII digits count. Python's `\d` also matches other Unicode decimal digits.
- NoCodePolicy.RunTrialNoCode: requires a non-empty table of equal-width rows, at least one arm and at least `n_rounds` rows. The source raises on most of the inputs this excludes: `np.array` on ragged rows, `shape[1]` on an empty table, `reward_table[t, a]` with more rounds than rows, and `randint(0, 0)` with zero-width rows and a round to play. One excluded input does not raise: zero-width rows with `n_rounds == 0` and a positive mean, where the source skips its loop, takes `max(means)` as the best mean and returns empty curves. The model does not cover that input. With zero-width rows, `n_rounds == 0` and no positive mean, the eager `reward_table.max(axis=1)` raises.
- NoCodePolicy.BestMeanForCurves: when the means do not decide, it requires every row of the reward table to be non-empty. Python builds the `get` default eagerly, so the source computes the row maxima even when the trial has a `best_mean`.
- InterpreterPolicy.RunTrialWithInterpreter: it requires the same trial shape as the text-only loop. With zero-width rows and a round to play, the source raises in the first round either way. A run that leaves an integer is clipped to `np.clip(a, 0, -1) == -1`, and `reward_table[t, -1]` raises an index error. A failed run or a non-integer choice makes `fallback_ucb` take `np.argmax` of an empty list. An empty table, ragged rows and more rounds than rows raise as in the text-only loop. As there, zero-width rows with `n_rounds == 0` and a positive mean do not raise: the source returns empty curves, and the model does not cover that input.
- InterpreterPolicy.FallbackUcb: requires at least one arm. With none, `np.argmax([])` raises.
- SleepingRerun.RunTrialSleeping: requires `SleepingRerun.SleepingTrialShape`. That means a non-empty reward table whose rows all have the width of the first, and an availability matrix with as many rows as the table and that same width. There must be no more rounds than rows, and at least one arm when there is a round. The source raises on most inputs this excludes: ragged lists at `np.array`, an empty table at `shape[1]`, an availability matrix narrower than the table with a round to play at `availability[t, i]`, and zero arms with a round at `availability[t, 0]`. It does not raise on all of them. It reads only the first `n_rounds` rows of either matrix. It reads a table row only when the chosen arm is awake. It raises on a wider availability matrix only once a chosen arm is awake (`rewards[t][availability[t]]`, `scripts/rerun_class5.py:47`). So it accepts, for example, an availability matrix taller than the table. The model does not cover those inputs.
- SleepingRerun.RunTrialSleepingUcb: requires the same `SleepingRerun.SleepingTrialShape`, with the same excluded inputs as `SleepingRerun.RunTrialSleeping`.
- SleepingRerun.CalcCurvesSleeping: the loop-local `cum_reward` and `cum_regret` are dead in the source and are not kept. Their rule is `SleepingRerun.LoopRegret`, compared with the returned rule in `SleepingRerun.ReturnedRegretIsNotLoopRegret`.
- SleepingRerun.ConditionedBestMean: fixes the round count at 120, as `main` does, and requires at least 120 rows.
