# nfelo in Dafny

nfelo is an Elo-style rating system for NFL teams. It keeps one rating per
team and replays every game in order. For each game it:

- regresses the teams at the start of a new season;
- adjusts the rating difference for home field, quarterbacks and playoffs;
- turns the difference into a win probability and a point spread;
- pulls the projection toward the betting market, by how far the model
  and the market disagree;
- prices the cover, push and loss chances and the expected value of a bet;
- moves both ratings by a shift that depends on the margin, the market and a
  bounded learning rate, and keeps rolling averages of each team's errors.

Around the engine sit the per-variant scorers (NfeloGraderModel, NfeloGrader), the optimizer's deterministic pieces, the
data loader's row derivations, rolling team analytics, the older script
engine, the weekly spread projections, the win-total ratings, the WEPA play
weights, the market-data formatter, the game-data merge, and the pure parts of
three scrapers (SBR, TheFootballLines, Pro Football Reference).

The model follows the code. Its conventions:

- a pandas NaN or null is `Option.None`;
- an exception the code raises (KeyError, IndexError, ZeroDivisionError, a
  failed parse) is an `Err` of `Wrappers.Result`;
- a row-wise `DataFrame.apply` is a loop over a sequence of records, in order;
- numbers are `real`, and a value rounded to form a lookup key is an `int`
  (tenths of a point for cover tables, thousandths for the spread and
  probability tables);
- `log`, `log10`, `pow`, `exp` and `sqrt` are fields of a `Numerics.Math`
  record passed in, and each lemma requires only the laws it uses at the
  points where it uses them;
- the rating engine (`Model.Nfelo`) and `Grader.NfeloGrader` are classes whose
  fields the methods update in place, as in the code;
- requests, files, clocks and the scipy and statsmodels searches are
  parameters.

Where the code has an evident defect, the model keeps the code as written,
so the engine computes what the program computes. The section "Findings"
pairs each defect with a corrected member and the property the correction
restores.

## Model

| member | source | states |
|---|---|---|
| MarketRegression.InitialMrFactorShape | nfelo/Utilities/market_regression.py:2-32 | the initial factor is symmetric in the two lines, equals 4 when they agree, and is positive for a non-negative spread_delta_base |
| MarketRegression.RmseAdj | nfelo/Utilities/market_regression.py:34-66 | 1 when the lines are within a point; otherwise 1 + (mean model RMSE − mean market RMSE) / rmse_base, the RMSEs being square roots of the rolling squared errors |
| MarketRegression.LongAdj | nfelo/Utilities/market_regression.py:68-86 | 1 + ll_inflator exactly when the market line is below −7.5 and the model line above it, else 1 |
| MarketRegression.HookAdj | nfelo/Utilities/market_regression.py:88-107 | 1 on whole-number market lines, 1 + hook_certainty on hooks |
| MarketRegression.ClampFactor | nfelo/Utilities/market_regression.py:157-160 | the factor used is max(min_regression, min(1, market_regression · product)) and lies in [min_regression, 1] |
| MarketRegression.Blend | nfelo/Utilities/market_regression.py:162 | factor 0 gives the model difference, 1 the market difference, and any factor in [0, 1] a value between them |
| MarketRegression.RegressToMarket | nfelo/Utilities/market_regression.py:109-164 | the factor used is the clamp of the product with the RMSE term dropped (as written); the regressed difference is the blend by that factor |
| MarketRegression.RmseTermIsOneAsWritten | nfelo/Utilities/market_regression.py:147-151 | passing the market line as the model line makes the RMSE factor 1 whatever the rolling errors |
| MarketRegression.RegressToMarketIntended | nfelo/Utilities/market_regression.py:146-162 | the corrected regression: the clamp of the product with the RMSE term computed from the model line |
| MarketRegression.IntendedRmseTermReactsToErrors | nfelo/Utilities/market_regression.py:57-66 | when the model's errors exceed the market's and the lines differ by more than a point, the intended RMSE factor exceeds 1, while the as-written one stays 1 |
| MarketRegression.RegressedBetweenModelAndMarket | nfelo/Utilities/market_regression.py:157-162 | with min_regression in [0, 1] the regressed difference lies between the model's and the market's difference |
| MarketRegression.HookNeverIncreasesFactor | nfelo/Utilities/market_regression.py:104-107 | with hook_certainty ≤ 0 a hook line never gets a larger factor than a whole line with the same base product |
| EloShift.AdjKCases | nfelo/Utilities/elo_shift.py:34-43 | adj_k is k when the model missed by under a point, the resist factor is 0 or the market was no closer; otherwise it is strictly larger than a positive k |
| EloShift.Directed | nfelo/Utilities/elo_shift.py:28-30 | a home line is negated; an away line is kept |
| EloShift.MagnitudePositive | nfelo/Utilities/elo_shift.py:44-50 | with k > 0 and b > 1 the unsigned shift adj_k · log_b(max(error, 1) + 1) is positive |
| EloShift.HomeIsNegatedAway | nfelo/Utilities/elo_shift.py:4-61 | the home shift is the away computation on negated lines |
| EloShift.ShiftSign | nfelo/Utilities/elo_shift.py:32-61 | the shift is 0 iff the margin equals the directed model line, negative iff the team fell short of it, positive iff it beat it, and otherwise has the size of the unsigned shift |
| EloShift.CalcShift | nfelo/Utilities/elo_shift.py:4-61 | calc_shift for one side: no shift when the margin meets the directed model line; its sign and size otherwise are stated by EloShift.ShiftSign and its home/away relation by EloShift.HomeIsNegatedAway |
| EloShift.ShiftOf | nfelo/Utilities/elo_shift.py:4-61 | a missing margin gives a missing (NaN) shift and a present one a present shift |
| EloShift.WeightedAvg | nfelo/Utilities/elo_shift.py:63-86 | raises exactly when no weight remains; otherwise the average times the total weight is the weighted product |
| EloShift.CalcWeightedAvg | nfelo/Utilities/elo_shift.py:63-86 | the loop skipping NaN shifts returns the weighted average of the pairs |
| EloShift.ProductBounds | nfelo/Utilities/elo_shift.py:80-84 | with shifts in [lo, hi] and non-negative weights the product lies between lo and hi times the weight |
| EloShift.WeightedAvgWithin | nfelo/Utilities/elo_shift.py:63-86 | the weighted average lies between the smallest and largest present shift |
| EloShift.ShiftPairs | nfelo/Utilities/elo_shift.py:112-126 | one (shift, weight) pair per observation, each the shift of that observation's margin under the shared lines and parameters |
| EloShift.CalcWeightedShift | nfelo/Utilities/elo_shift.py:88-130 | the loop building the pairs, then averaging them, returns the weighted average of those pairs |
| EloShift.PositivePairsAverage | nfelo/Utilities/elo_shift.py:63-86 | positive shifts with positive weights have a positive weighted average |
| EloShift.AllChannelsBeatExpectation | nfelo/Utilities/elo_shift.py:88-130 | when every channel is present, has a positive weight and beats the directed model line, the weighted shift is positive |
| OffseasonRegression.NormalizeWeights | nfelo/Utilities/offseason_regression.py:44-50 | the three weights sum to 1; configured weights summing to at most 1 are kept; above 1 the reverted weight is 0; non-negative inputs give weights in [0, 1] |
| OffseasonRegression.NormalizeWeightsScales | nfelo/Utilities/offseason_regression.py:45-48 | weights summing past 1 are each divided by their total |
| OffseasonRegression.PriorElo | nfelo/Utilities/offseason_regression.py:37-43 | 1505 + scale · projection, or the mean-reverted rating for a missing projection |
| OffseasonRegression.BothMissingIsMeanReverted | nfelo/Utilities/offseason_regression.py:31-58 | with both projections missing the result is the mean-reverted rating, whatever the weights |
| OffseasonRegression.ExampleBothMissing | nfelo/Utilities/offseason_regression.py:31-58 | a 1700 team in a 1505 league with reversion 0.3 and no projections starts at 1641.5 |
| OffseasonRegression.RegressBetween | nfelo/Utilities/offseason_regression.py:29-58 | with non-negative configured weights the result lies between the smallest and largest of the three component ratings |
| OffseasonRegression.Regress | nfelo/Utilities/offseason_regression.py:3-57 | offseason_regression: with no projection weight the rating is the mean-reverted one; bounds and the other special cases are stated by OffseasonRegression.RegressBetween, OffseasonRegression.BothMissingIsMeanReverted and OffseasonRegression.AverageTeamReturnsToMean |
| OffseasonRegression.BlendBetween | nfelo/Utilities/offseason_regression.py:52-56 | the weighted average with non-negative weights summing to 1 stays within bounds of its parts |
| OffseasonRegression.AverageTeamReturnsToMean | nfelo/Utilities/offseason_regression.py:29-58 | a team at the league median with zero projections returns to exactly 1505 |
| SpreadTranslation.Lookup | nfelo/Utilities/spread_translation.py:54 | a `.map` over the table: the mapped value for a present key, NaN for a missing one |
| SpreadTranslation.Subscript | nfelo/Utilities/spread_translation.py:71 | a dictionary subscript: the mapped value for a present key, a KeyError otherwise |
| SpreadTranslation.SpreadToProbabilityVector | nfelo/Utilities/spread_translation.py:41-54 | a rounded key inside the table's range is looked up; a key below or above it gets the value at that end |
| SpreadTranslation.SpreadToProbabilityFloat | nfelo/Utilities/spread_translation.py:56-71 | as written, every spread maps to the probability of the table's smallest spread |
| SpreadTranslation.SpreadFloatDisagreesWithVector | nfelo/Utilities/spread_translation.py:51-71 | on the table's largest spread the scalar and vector translations differ whenever the two end probabilities differ |
| SpreadTranslation.SpreadToProbabilityFloatIntended | nfelo/Utilities/spread_translation.py:56-71 | the corrected scalar translation succeeds exactly where the vector one finds a value, with that value |
| SpreadTranslation.ClampThenRound | nfelo/Utilities/spread_translation.py:51-53 | clipping into whole-thousandth bounds then rounding gives the same key as rounding then clipping |
| SpreadTranslation.ProbabilityToSpreadVector | nfelo/Utilities/spread_translation.py:90-104 | a rounded key inside the table's range is looked up; outside it, the value at the nearer end |
| SpreadTranslation.ProbabilityToSpreadAgree | nfelo/Utilities/spread_translation.py:90-121 | the scalar translation succeeds exactly where the vector one finds a value, with that value, and a probability beyond the table takes the value at the nearer end |
| SpreadTranslation.EloToProb | nfelo/Utilities/spread_translation.py:138-159 | raises exactly when z ≤ 0; otherwise a probability strictly between 0 and 1 |
| SpreadTranslation.ProbToElo | nfelo/Utilities/spread_translation.py:161-183 | raises exactly when z ≤ 0 or the probability is 0 |
| SpreadTranslation.EloToProbAtZero | nfelo/Utilities/spread_translation.py:153-159 | even teams are a coin flip |
| SpreadTranslation.EloToProbSymmetric | nfelo/Utilities/spread_translation.py:153-159 | swapping the teams complements the probability |
| SpreadTranslation.ProbToEloOfEloToProb | nfelo/Utilities/spread_translation.py:161-183 | prob_to_elo undoes elo_to_prob |
| SpreadTranslation.EloToProbOfProbToElo | nfelo/Utilities/spread_translation.py:138-183 | elo_to_prob undoes prob_to_elo on (0, 1) |
| CoverProbability.SideOf | nfelo/Utilities/cover_probability.py:34-48 | a result is below, at or above the market line exactly as it compares with it |
| CoverProbability.CalcCoverProbs | nfelo/Utilities/cover_probability.py:12-50 | calc_cover_probs, the projected bucket's mass split by the market spread; CoverProbability.CoverProbsPartition, CoverProbsNonnegative and AbsentBucketIsZero state that the three parts split the bucket, are non-negative and vanish for an absent bucket |
| CoverProbability.CoverProbsPartition | nfelo/Utilities/cover_probability.py:12-51 | loss, push and cover add up to the total mass of the projected spread's bucket |
| CoverProbability.AbsentBucketIsZero | nfelo/Utilities/cover_probability.py:30-33 | a projected spread without rows in the table gives (0, 0, 0) |
| CoverProbability.CoverProbsNonnegative | nfelo/Utilities/cover_probability.py:34-48 | non-negative table probabilities give non-negative loss, push and cover |
| CoverProbability.OtherBucketsIgnored | nfelo/Utilities/cover_probability.py:30-33 | rows of any other bucket do not change the sums |
| Clv.MirrorIsOtherSide | nfelo/Utilities/clv.py:32-38 | the away probabilities are an involution of the home ones that keeps the mass, and the two sides' nominal EVs add up to −0.1 times the decided (non-push) mass |
| Clv.ClvSidesSum | nfelo/Utilities/clv.py:3-71 | calc_clv's two CLVs add up to −0.1/1.1 times the change in decided mass between the opening and closing buckets, so with equal decided mass the away CLV is exactly the negated home CLV |
| Clv.NoMovementNoClv | nfelo/Utilities/clv.py:3-71 | no line movement gives zero CLV on both sides |
| Clv.AwayClvFromHome | nfelo/Utilities/clv.py:58-69 | the away CLV in terms of the home probabilities: ((loss − 1.1 cover) − (loss_open − 1.1 cover_open)) / 1.1 |
| Clv.ClvSignsOppose | nfelo/Utilities/clv.py:44-69 | a move of mass from loss to cover for the home side gives positive home CLV and negative away CLV |
| BetSize.KellyBetSize | nfelo/Utilities/bet_size.py:5-15 | raises exactly for zero odds; at the default −110 odds the fraction is 2.1 p − 1.1 |
| BetSize.KellyBreakEven | nfelo/Utilities/bet_size.py:13-15 | at −110 the fraction is zero exactly at p = 1.1/2.1, positive exactly above it, and 1 for a certain win |
| BetSize.HomeShare | nfelo/Utilities/bet_size.py:52 | NaN exactly when cover and loss are both zero; otherwise the cover share of cover + loss |
| BetSize.AwayShare | nfelo/Utilities/bet_size.py:48-51 | NaN exactly when 1 − cover and 1 − loss sum to zero; otherwise (1 − cover) over that sum |
| BetSize.AwayShareCountsPushes | nfelo/Utilities/bet_size.py:48-52 | with a push probability the away share is (loss + push) / (cover + loss + 2 push), equal to 1 minus the home share only without pushes |
| BetSize.ChosenProbability | nfelo/Utilities/bet_size.py:54 | the larger of the two shares, NaN when either is NaN |
| BetSize.ScaledKelly | nfelo/Utilities/bet_size.py:58 | defined exactly when 1 + 100 k is positive |
| BetSize.ScaledKellyEnds | nfelo/Utilities/bet_size.py:58 | no edge scales to 0 and a full Kelly to 1 |
| BetSize.RoundTo50 | nfelo/Utilities/bet_size.py:62 | a multiple of 50 within 25 of the bet |
| BetSize.RoundedBet | nfelo/Utilities/bet_size.py:55-62 | defined exactly when the Kelly fraction exceeds −1/100, and then a multiple of 50 |
| BetSize.BetSize | nfelo/Utilities/bet_size.py:17-70 | a bet is a multiple of 50 above the minimum; it exists exactly when the chosen probability exists, its scaled Kelly is defined and the rounded bet clears the minimum, and then it is that rounded bet |
| BetSize.BreakEvenIsNoBet | nfelo/Utilities/bet_size.py:55-68 | a break-even probability never clears a minimum of at least 25 |
| Odds.AmericanToProbInt | nfelo/Utilities/odds.py:7-14 | a favourite's price (≤ −100) gives a probability in [0.5, 1), an underdog's (≥ 100) one in (0, 0.5] |
| Odds.AmericanToProbAgree | nfelo/Utilities/odds.py:16-24 | the vector form agrees with the scalar form element by element |
| Odds.MirroredOddsComplement | nfelo/Utilities/odds.py:7-14 | −x and +x imply complementary probabilities |
| Odds.AmericanToHoldAdjProb | nfelo/Utilities/odds.py:41-63 | raises exactly when the implied probabilities sum to zero; otherwise the two shares sum to 1, the hold is the sum minus 1 and each share is its probability over the sum |
| Odds.AmericanToPriceInt | nfelo/Utilities/odds.py:66-73 | a negative price is its absolute value; zero raises; a positive price p gives the stake with stake · p = 10000 |
| Odds.AmericanToPriceAgree | nfelo/Utilities/odds.py:75-83 | the vector form has a value exactly where the scalar form does not raise, and the same value |
| Odds.SpreadToProbElo | nfelo/Utilities/odds.py:101-121 | a probability strictly between 0 and 1 |
| Odds.SpreadToProbEloIsEloToProb | nfelo/Utilities/odds.py:101-121 | it is elo_to_prob at 25 rating points per point and z = 400, so a pick'em is 50/50 |
| Odds.ProbToElo | nfelo/Utilities/odds.py:125-139 | raises exactly for a zero probability (z is not checked) |
| Odds.ProbToEloAgrees | nfelo/Utilities/odds.py:125-139 | it agrees with the spread translation's prob_to_elo wherever that accepts z, and 50/50 maps to an even matchup |
| Scoring.BrierScore | nfelo/Utilities/scoring_brier.py:6-16 | the modified Brier score never exceeds 25 |
| Scoring.BrierRange | nfelo/Utilities/scoring_brier.py:12-16 | 25 exactly for a certain and correct forecast; 0 for a coin flip; within [−75, 25] for any probability in [0, 1] |
| Scoring.BrierScoreNumber | nfelo/Utilities/scoring_brier.py:18-27 | a home win returns a one-element tuple holding the vector score; otherwise the vector score as a float |
| Scoring.BrierScoreNumberTupleOnHomeWin | nfelo/Utilities/scoring_brier.py:24-25 | probability 0.7 and margin 3 give the tuple (16,), not a number |
| Scoring.BrierScoreNumberIntended | nfelo/Utilities/scoring_brier.py:18-27 | the corrected scalar score equals the vector score and the number the as-written form wraps |
| Scoring.DefaultEv | nfelo/Utilities/scoring_spread.py:29-51 | a given EV is kept; a missing one becomes 0.05 when the spread delta exceeds 1.5, else −0.05 |
| Scoring.GradeBet | nfelo/Utilities/scoring_spread.py:5-97 | every grade is 0, 1 or NaN; equal lines or a push give NaN |
| Scoring.GradeBetSides | nfelo/Utilities/scoring_spread.py:60-90 | without be_only, a model line below the market bets home and wins iff home covers; above, bets away and wins iff home fails to cover |
| Scoring.GradeBetBreakEvenOnly | nfelo/Utilities/scoring_spread.py:53-97 | with be_only a row is graded iff a defaulted EV is positive, and then exactly as without be_only |
| Scoring.GradeBetFallbackThreshold | nfelo/Utilities/scoring_spread.py:29-56 | with both EVs missing, be_only grades exactly the rows whose lines are more than 1.5 points apart |
| Scoring.GradeSu | nfelo/Utilities/scoring_su.py:4-31 | every grade is 0, 1 or NaN, and NaN exactly when the expected result equals the result |
| Scoring.GradeSuCorrectIff | nfelo/Utilities/scoring_su.py:18-31 | correct iff the expected result and the result have the same nonzero sign; a tie with a nonzero expectation is wrong |
| Scoring.GradeSeProperties | nfelo/Utilities/scoring_se.py:4-22 | the squared error is non-negative, zero exactly for the negated result, and unchanged when line and result are both negated |
| Scoring.GradeSe | nfelo/Utilities/scoring_se.py:4-21 | grade_se_vector for one row is never negative; Scoring.GradeSeProperties adds that it is zero exactly for the negated result and symmetric under negating both |
| NfeloRules.FreshSnapshot | nfelo/Model/Nfelo.py:35-63 | the "week 0" snapshot: the team, season 2009, week 0, NaN game, opponent and starting rating, the team's initial rating as ending rating, every rolling value 0 |
| NfeloRules.InitialElos | nfelo/Model/Nfelo.py:44-63 | one fresh snapshot per listed team and no other key |
| NfeloRules.FirstMissing | nfelo/Model/Nfelo.py:46-53 | the first team, in list order, whose initial rating is missing; none exactly when every listed team has one |
| NfeloRules.Set | nfelo/Model/Nfelo.py:369-370 | setting one configuration key changes that key and no other |
| NfeloRules.ParamsExtensional | nfelo/Model/Nfelo.py:19-20 | two configurations that agree on every key the engine reads are equal |
| NfeloRules.MergeGet | nfelo/Model/Nfelo.py:369-370 | after update_config's merge each key named in the new values holds the new value and every other key keeps its old value |
| NfeloRules.MergeNothing | nfelo/Model/Nfelo.py:369-370 | merging no new values keeps the configuration |
| NfeloRules.MrConfig | nfelo/Model/Nfelo.py:146-149 | the regression configuration passed to regress_to_market is valid whenever the engine's is |
| NfeloRules.LeagueElo | nfelo/Model/Nfelo.py:83-87 | the league rating is the median of last season's week-17 ratings, and is an error exactly when that season has no list or an empty one |
| NfeloRules.Implied | nfelo/Model/Nfelo.py:106-107 | an implied rating is NaN exactly when its input is |
| NfeloRules.RevertSide | nfelo/Model/Nfelo.py:78-109 | a side that is not in its first game of a later season keeps its rating and leaves no record; otherwise the pass raises exactly when the league rating does, and the record's new rating is the rating kept |
| NfeloRules.RevertSideIsOffseasonRegression | nfelo/Model/Nfelo.py:81-108 | the regressed start is offseason_regression towards last season's median with the side's projections, and the record holds the previous rating, the league rating, the team and the mean-reverted rating the regression blends |
| NfeloRules.Advanced | nfelo/Model/Nfelo.py:78-109 | one side's pass sets that side's start, keeps the other's, and appends that side's record |
| NfeloRules.InitialEloDif | nfelo/Model/Nfelo.py:111-130 | the initial difference is rating difference plus home field plus weighted QB difference, grossed up by 1 + playoff_boost for playoff games only |
| NfeloRules.InitialEloDifShift | nfelo/Model/Nfelo.py:113-130 | raising the home start by x raises the difference by x, or by x(1 + playoff_boost) in the playoffs; without context the difference is antisymmetric in the two starts |
| NfeloRules.RegressedProbability | nfelo/Model/Nfelo.py:177-179 | the regressed probabilities use elo_to_prob's default z = 400, and lie strictly between 0 and 1 |
| NfeloRules.ProjectFromStart | nfelo/Model/Nfelo.py:111-209 | a non-positive z raises; otherwise the projection keeps the starts, its base difference is the initial difference, its base probability uses the configured z, its lines come from the probability-to-spread table, and both regressions start from the base difference and base line with the teams' rolling errors |
| NfeloRules.Project | nfelo/Model/Nfelo.py:65-76 | a projection succeeds only when both teams have a rating |
| NfeloRules.ProjectSteps | nfelo/Model/Nfelo.py:65-209 | project_game runs both lookups, the home pass, the away pass, then the projection; a pass that raises ends it with the records appended before it |
| NfeloRules.ProjectStartRule | nfelo/Model/Nfelo.py:73-109 | a missing home or away team raises KeyError; a needed regression without last season's ratings raises before anything is appended; otherwise each side starts from its current rating or its regression, with one record per regressed side |
| NfeloRules.ProjectionEvs | nfelo/Model/Nfelo.py:183-201 | the away close probabilities swap loss and cover and share the push; each EV is the side's nominal EV per 1.1 risked; the home probabilities split the projected line's bucket |
| NfeloRules.RegressedProbabilityIntended | nfelo/Model/Nfelo.py:133-136 | the corrected regressed probability uses the configured z, as the base probability does |
| NfeloRules.IntendedKeepsBaseProbability | nfelo/Model/Nfelo.py:133-179 | with the configured z, a regression that leaves the difference unchanged leaves the base probability |
| NfeloRules.RegressedProbabilityIgnoresConfiguredZ | nfelo/Model/Nfelo.py:177-179 | with z = 200 configured and the real powers of ten, a difference of 400 gets 10/11 (the z = 400 value) as written and 100/101 as intended |
| NfeloRules.ProcessValues | nfelo/Model/Nfelo.py:215-260 | an unplayed game (a null margin) raises; a span of -1 raises ZeroDivisionError once both shifts are known, and before any write; otherwise each ending rating is that side's starting rating plus its weighted shift |
| NfeloRules.SeAsWrittenPenalisesPerfectLine | nfelo/Model/Nfelo.py:253-254 | as written a perfect line of -3 for a 3-point home win scores 36 rather than 0 |
| NfeloRules.SeIntended | nfelo/Model/Nfelo.py:253-254 | the corrected squared error is NfeloGraderModel's (line + margin)² |
| NfeloRules.SeIntendedZeroIffPerfect | nfelo/Model/Nfelo.py:253-254 | the corrected squared error is nonnegative and zero exactly when the line is the negated margin |
| NfeloRules.EmaBetween | nfelo/Model/Nfelo.py:274-285 | with a weight in [0, 1] a rolling value moves to somewhere between its old value and the new absolute observation, and stays nonnegative |
| NfeloRules.AlphaInUnit | nfelo/Model/Nfelo.py:259-260 | a span of at least 1 gives a weight 2 / (1 + span) in (0, 1] |
| NfeloRules.Advance | nfelo/Model/Nfelo.py:263-310 | for spans other than -1, a snapshot after a game takes the season, week and game id from the row, the starting and ending ratings from the game, moves each rolling value to starting and averages the new observation into ending with weight 2 / (1 + span), and keeps team and opponent |
| NfeloRules.AdvanceKeepsRollingNonnegative | nfelo/Model/Nfelo.py:270-310 | with spans of at least 1, advancing keeps every rolling value nonnegative |
| NfeloRules.ElosAfter | nfelo/Model/Nfelo.py:257-310 | writing a game's snapshots keeps the set of rated teams |
| NfeloRules.ElosAfterTeams | nfelo/Model/Nfelo.py:257-310 | each playing team gets its advanced snapshot, the home team's opponent is overwritten with itself, the away team's opponent is not written, and no other team changes |
| NfeloRules.OpponentAsWritten | nfelo/Model/Nfelo.py:266-291 | as written, the home team records itself as opponent and the away team keeps the opponent of its previous game |
| NfeloRules.ElosAfterIntended | nfelo/Model/Nfelo.py:266-291 | the corrected table writes each team's opponent to the other and keeps the set of rated teams |
| NfeloRules.OpponentIntended | nfelo/Model/Nfelo.py:266-291 | in the corrected table each team's opponent is the other team, and it differs from the as-written table only in the opponents |
| NfeloRules.YearlyAfter | nfelo/Model/Nfelo.py:314-321 | in week 17 both ending ratings are appended to that season's list, created when missing; other weeks and other seasons are unchanged |
| NfeloRules.Process | nfelo/Model/Nfelo.py:211-323 | a game process_game raises on leaves the state as it was |
| NfeloRules.SpanOfMinusOneRaises | nfelo/Model/Nfelo.py:259-260 | a span of -1 makes a played game whose shifts are computable fail with ZeroDivisionError and leaves the state as it was |
| NfeloRules.ProcessOk | nfelo/Model/Nfelo.py:211-323 | a processed game leaves the written table, the updated yearly lists, the reversion records unchanged, and the two new snapshots appended |
| NfeloRules.ProcessBookkeeping | nfelo/Model/Nfelo.py:257-321 | exactly two snapshots are appended, home then away, equal to the teams' new entries; the rated teams, the reversion records and every other team are unchanged |
| NfeloRules.ProcessRatings | nfelo/Model/Nfelo.py:219-310 | each shift is the weighted shift of that side's own observations against the unregressed line and the closing line; each ending rating is start plus shift; each rolling error and adjustment is the EMA of the old value; the errors are (margin - line)² as written |
| NfeloRules.Played | nfelo/Model/Nfelo.py:340-347 | run applies exactly the games up to the last completed week of the last completed season and all games of earlier seasons |
| NfeloRules.RunGames | nfelo/Model/Nfelo.py:336-348 | a run that raises nothing gives one row per game |
| NfeloRules.ProjectGames | nfelo/Model/Nfelo.py:381-390 | a week's projections give one row per game when none raises |
| NfeloRules.ProjectGamesIndependent | nfelo/Model/Nfelo.py:381-390 | every projection of a week is that game's projection against the state before the week, since projecting reads nothing the week's earlier projections change |
| NfeloRules.FromFirstSeason | nfelo/Model/Nfelo.py:22-25 | the engine keeps exactly the rows from the 2009 season on |
| NfeloRules.Unique | nfelo/Model/Nfelo.py:26 | `unique()` keeps every value once and no other value |
| NfeloRules.HomeTeams | nfelo/Model/Nfelo.py:26 | the home-team column, row by row |
| NfeloRules.RunGamesStep | nfelo/Model/Nfelo.py:348 | one more game extends a run that has not raised by that game's row and state |
| NfeloRules.RunGamesStopsAtError | nfelo/Model/Nfelo.py:348 | after the first exception no further game is applied |
| NfeloRules.ProjectGamesStep | nfelo/Model/Nfelo.py:388 | one more game extends a week's projections and reversion records |
| NfeloRules.ProjectGamesStopsAtError | nfelo/Model/Nfelo.py:388 | after the first exception no further game of the week is projected |
| NfeloRules.RunAppendsTwoPerGame | nfelo/Model/Nfelo.py:312-313 | a run appends exactly two snapshots per game and keeps the set of rated teams |
| Model.Nfelo.Environment | nfelo/Model/Nfelo.py:18-21 | the configuration and inputs the engine holds are a valid environment for every rule |
| Model.Nfelo.constructor | nfelo/Model/Nfelo.py:18-33 | a new engine keeps its inputs, the rows from 2009 on, the unique home teams, a week-0 snapshot per team, and no history |
| Model.NewNfelo | nfelo/Model/Nfelo.py:18-53 | constructing the engine raises KeyError, naming the first home team in team order without an initial rating, exactly when some team has none; otherwise it returns a fresh engine in the constructor's state |
| Model.Nfelo.CheckInitialElos | nfelo/Model/Nfelo.py:46-53 | the loop over the teams stops at the first team without an initial rating and finds none exactly when every team has one |
| Model.Nfelo.InitElos | nfelo/Model/Nfelo.py:35-63 | init_elos builds, team by team, one fresh snapshot per team |
| Model.Nfelo.ProjectGame | nfelo/Model/Nfelo.py:65-209 | project_game returns the rules' projection from the state before the call and appends exactly the projection's reversion records |
| Model.Nfelo.StartSides | nfelo/Model/Nfelo.py:78-109 | the loop over the two sides reaches the starts the rules reach, appending each record as it goes; an exception leaves the records appended before it |
| Model.Nfelo.ProcessGame | nfelo/Model/Nfelo.py:211-323 | process_game returns the rules' values; on an exception nothing changes, otherwise the table, the yearly lists and the snapshot records are the rules' new state |
| Model.Nfelo.WriteGame | nfelo/Model/Nfelo.py:257-321 | the writes of process_game leave the as-written table, the week-17 lists and the two appended snapshots |
| Model.Nfelo.WriteHome | nfelo/Model/Nfelo.py:261-285 | the home block leaves the table the home writes describe |
| Model.Nfelo.WriteAway | nfelo/Model/Nfelo.py:286-310 | the away block, including its write of the home team's opponent, leaves the table the away writes describe |
| Model.Nfelo.RecordYearly | nfelo/Model/Nfelo.py:314-321 | week-17 ratings are appended to the season's list, created when missing |
| Model.Nfelo.WriteBasics | nfelo/Model/Nfelo.py:263-265 | season, week and game id of one team are written, nothing else |
| Model.Nfelo.WriteRating | nfelo/Model/Nfelo.py:267-268 | one team's starting and ending ratings are written, nothing else |
| Model.Nfelo.RollValues | nfelo/Model/Nfelo.py:269-285 | one team's rolling values are moved to starting and averaged into ending, nothing else |
| Model.Nfelo.ApplyNfelo | nfelo/Model/Nfelo.py:325-334 | apply_nfelo returns the projected and processed row and leaves the state the rules give |
| Model.Nfelo.Run | nfelo/Model/Nfelo.py:336-348 | run applies the played games in order, leaves the rules' state, and stores the rows only when nothing raised |
| Model.Nfelo.RunAll | nfelo/Model/Nfelo.py:348 | the loop over the played games ends in the rules' outcome for the whole list |
| Model.Nfelo.RunNext | nfelo/Model/Nfelo.py:348 | one pass extends the rules' outcome by the next game |
| Model.Nfelo.UpdateConfig | nfelo/Model/Nfelo.py:361-379 | update_config merges the new values and resets every piece of state to what the constructor built |
| Model.Nfelo.MergeConfig | nfelo/Model/Nfelo.py:369-370 | each new value overwrites its key and no other key changes |
| Model.Nfelo.ResetState | nfelo/Model/Nfelo.py:371-379 | the rows from 2009 on, week-0 snapshots and no history |
| Model.Nfelo.ProjectWeek | nfelo/Model/Nfelo.py:381-390 | project_week returns the rules' projections of the week and appends only reversion records; ratings and snapshots are untouched |
| Model.Nfelo.ProjectNext | nfelo/Model/Nfelo.py:388 | one pass extends the week's projections and records by the next game |
| GraderModel.EveryMetricInBothOrders | nfelo/Performance/NfeloGraderModel.py:28-33 | the order the constructor adds the six columns in and merge_with's column order list the same metrics |
| GraderModel.Lookup | nfelo/Performance/NfeloGraderModel.py:22-25 | `df[col]` is the column when the frame has it and a KeyError naming it otherwise |
| GraderModel.LookupOptional | nfelo/Performance/NfeloGraderModel.py:26-27 | an absent EV column name gives no series; a present name is looked up, raising KeyError when missing |
| GraderModel.SelectSeries | nfelo/Performance/NfeloGraderModel.py:20-27 | the constructor's lookups succeed exactly when every column the variant names is in the frame, and then select those columns and home_margin; a failure names a missing column |
| GraderModel.BrierElem | nfelo/Utilities/scoring_brier.py:6-16 | a row's Brier score is NaN exactly for a NaN probability; a NaN margin scores as a game the home side did not win |
| GraderModel.SeElem | nfelo/Performance/NfeloGraderModel.py:50-56 | `(model_line + result) ** 2` is NaN exactly when an input is, and otherwise equals grade_se_vector's value and is nonnegative |
| GraderModel.AtsElem | nfelo/Utilities/scoring_spread.py:5-97 | a row's ATS grade is 0, 1 or NaN; a NaN line gives NaN; a played row gets grade_bet_vector's grade; a NaN result with different lines grades as a loss when the row counts as a play |
| GraderModel.SuElem | nfelo/Utilities/scoring_su.py:4-32 | a row's straight-up grade is 0, 1 or NaN, the grade of grade_su_vector for known values and 0 when a value is NaN |
| GraderModel.BrierColumn | nfelo/Performance/NfeloGraderModel.py:36-42 | the Brier column has one entry per row |
| GraderModel.SeColumn | nfelo/Performance/NfeloGraderModel.py:50-56 | the squared-error column has one entry per row |
| GraderModel.AtsColumn | nfelo/Performance/NfeloGraderModel.py:58-69 | the ATS column has one entry per row |
| GraderModel.SuColumn | nfelo/Performance/NfeloGraderModel.py:71-77 | the straight-up column has one entry per row |
| GraderModel.ColumnsAreGrades | nfelo/Performance/NfeloGraderModel.py:36-77 | every ATS, break-even ATS and straight-up entry is 0, 1 or NaN, every squared error is nonnegative and every Brier score at most 25 |
| GraderModel.NoEvFallsBackToThreshold | nfelo/Utilities/scoring_spread.py:5-97 | without EV columns a decided row gets a break-even grade exactly when the lines are more than 1.5 points apart, and always gets an ATS grade |
| GraderModel.SelfGradedAtsIsNaN | nfelo/Utilities/scoring_spread.py:5-97 | grading a line against itself gives NaN for every ATS and break-even grade |
| GraderModel.CountNa | nfelo/Performance/NfeloGraderModel.py:108-110 | `count()` is at most the number of rows |
| GraderModel.MeanNa | nfelo/Performance/NfeloGraderModel.py:104-107 | the NaN-skipping mean is NaN exactly when no entry is known |
| GraderModel.SumNaWithin | nfelo/Performance/NfeloGraderModel.py:103-107 | entries within [lo, hi] sum to between lo and hi times their count |
| GraderModel.SumNaAtMost | nfelo/Performance/NfeloGraderModel.py:103 | entries at most hi sum to at most hi times their count |
| GraderModel.SumNaNonnegative | nfelo/Performance/NfeloGraderModel.py:127 | nonnegative entries have a nonnegative sum |
| GraderModel.MeanNaWithin | nfelo/Performance/NfeloGraderModel.py:104-107 | the mean of entries within [lo, hi] lies in [lo, hi] |
| GraderModel.MeanNaNonnegative | nfelo/Performance/NfeloGraderModel.py:127 | the mean of nonnegative entries is nonnegative |
| GraderModel.Share | nfelo/Performance/NfeloGraderModel.py:108-111 | the play share is defined exactly when there are rows |
| GraderModel.ShareWithin | nfelo/Performance/NfeloGraderModel.py:108-111 | a share is a fraction in [0, 1] that times the row count gives the count of graded rows |
| GraderModel.ScoreOfBrier | nfelo/Performance/NfeloGraderModel.py:103 | the Brier total of a record is at most 25 per scored game |
| GraderModel.ScoreOfRates | nfelo/Performance/NfeloGraderModel.py:104-127 | the su, ats and ats_be means are hit rates in [0, 1] and the se mean is nonnegative |
| GraderModel.RecordMeaning | nfelo/Performance/NfeloGraderModel.py:96-128 | a graded variant's record has its Brier total at most 25 per game, its rates in [0, 1], a nonnegative se, and a play share in [0, 1] that is defined exactly when there are rows |
| GraderModel.MetricColumn | nfelo/Performance/NfeloGraderModel.py:36-77 | every graded column has one entry per row |
| GraderModel.AddColumnsShape | nfelo/Performance/NfeloGraderModel.py:28-33 | assigning some metrics' columns keeps the rows and every other column and adds exactly those columns, holding the graded values |
| GraderModel.AddColumnsSnoc | nfelo/Performance/NfeloGraderModel.py:28-33 | assigning k + 1 columns is assigning k, then column k |
| GraderModel.WithGradesShape | nfelo/Performance/NfeloGraderModel.py:16-34 | the constructor's frame keeps the rows and input columns and gains exactly the variant's six columns |
| GraderModel.WithGradesColumns | nfelo/Performance/NfeloGraderModel.py:36-77 | each of the six columns holds the series graded for its metric |
| GraderModel.GradedRecord | nfelo/Performance/NfeloGraderModel.py:96-128 | the record read back from the graded frame's columns is the record of the series |
| GraderModel.NfeloGraderModel.constructor | nfelo/Performance/NfeloGraderModel.py:16-34 | the object holds the graded copy of the frame and the record generated from it |
| GraderModel.NfeloGraderModel.AddGrades | nfelo/Performance/NfeloGraderModel.py:29-33 | the add_* calls in order leave the frame with the six columns assigned |
| GraderModel.NfeloGraderModel.AddBrier | nfelo/Performance/NfeloGraderModel.py:36-42 | add_brier assigns the Brier column and nothing else |
| GraderModel.NfeloGraderModel.AddLine | nfelo/Performance/NfeloGraderModel.py:44-48 | add_line assigns the model line column and nothing else |
| GraderModel.NfeloGraderModel.AddSe | nfelo/Performance/NfeloGraderModel.py:50-56 | add_se assigns the squared-error column and nothing else |
| GraderModel.NfeloGraderModel.AddAts | nfelo/Performance/NfeloGraderModel.py:58-69 | add_ats assigns the ATS and break-even ATS columns and nothing else |
| GraderModel.NfeloGraderModel.AddSu | nfelo/Performance/NfeloGraderModel.py:71-77 | add_su assigns the straight-up column and nothing else |
| GraderModel.FindKey | nfelo/Performance/NfeloGraderModel.py:83-92 | the first row with a key, absent exactly when the key is missing |
| GraderModel.JoinColumn | nfelo/Performance/NfeloGraderModel.py:83-92 | a left-joined column has one entry per left row and NaN where no right row matches |
| GraderModel.JoinSameKeys | nfelo/Performance/NfeloGraderModel.py:83-92 | joining on the same distinct keys in the same order copies the column |
| GraderModel.MergeColumnsShape | nfelo/Performance/NfeloGraderModel.py:83-92 | joining some metrics' columns keeps the target's rows and columns and adds exactly those, each joined on game_id |
| GraderModel.MergeIntoShape | nfelo/Performance/NfeloGraderModel.py:79-94 | merge_with keeps the target's rows and columns and adds the variant's six columns, each joined on game_id |
| GraderModel.MergeSameGames | nfelo/Performance/NfeloGraderModel.py:79-94 | merged into a frame with the same distinct game ids, the six columns arrive unchanged |
| Grader.Names | nfelo/Performance/NfeloGrader.py:13-77 | the variants' names in the table's insertion order |
| Grader.ModelsTable | nfelo/Performance/NfeloGrader.py:13-77 | only nfelo_open and nfelo_close bring EV columns; exactly market and market_open grade a line against itself; no name occurs twice; nfelo_unregressed is first and nfelo_close third |
| Grader.StartGames | nfelo/Performance/NfeloGrader.py:81 | graded_games starts with the frame's rows and id columns and no numeric column |
| Grader.Select | nfelo/Performance/NfeloGrader.py:90-100 | the lookups of every turn succeed exactly when each variant's columns are in the frame, and then give each variant's series under its name, in table order |
| Grader.Records | nfelo/Performance/NfeloGrader.py:102 | graded_records holds one record per variant |
| Grader.RecordsShape | nfelo/Performance/NfeloGrader.py:90-102 | record i is the record of variant i, under that variant's name |
| Grader.GamesShape | nfelo/Performance/NfeloGrader.py:81-104 | graded_games keeps the input rows and holds exactly the graded columns of the variants |
| Grader.NoGradesMeanNaN | nfelo/Performance/NfeloGraderModel.py:106-107 | an all-NaN column has no count and a NaN mean |
| Grader.NamesOf | nfelo/Performance/NfeloGrader.py:94 | the graded variants' names in order |
| Grader.GradedColumnInGames | nfelo/Performance/NfeloGrader.py:90-104 | with distinct names, each graded column of graded_games is the join on game_id of that variant's own graded column |
| Grader.GamesLast | nfelo/Performance/NfeloGrader.py:104 | the last variant's columns are joined from its own graded frame |
| Grader.GamesKeep | nfelo/Performance/NfeloGrader.py:104 | a column of another name survives the last variant's merge |
| Grader.GradedGamesCopyColumns | nfelo/Performance/NfeloGrader.py:90-104 | with distinct game ids, each graded column of graded_games is exactly the variant's own graded column |
| Grader.SelfGradedColumnsNaN | nfelo/Performance/NfeloGrader.py:90-104 | a variant graded against its own line has all-NaN ATS and break-even ATS columns in graded_games |
| Grader.SelfGradedRecordNaN | nfelo/Performance/NfeloGraderModel.py:106-107 | such a variant's ats and ats_be rates are NaN |
| Grader.MarketVariantsSelfGraded | nfelo/Performance/NfeloGrader.py:35-48 | the selected market and market_open variants are the fourth and fifth and grade the close and open line against themselves |
| Grader.ModelNamesDistinct | nfelo/Performance/NfeloGrader.py:13-77 | the table's names are distinct |
| Grader.SelectKeepsNames | nfelo/Performance/NfeloGrader.py:90-94 | the selected variants carry the table's names in order |
| Grader.SelfGradedSelection | nfelo/Performance/NfeloGrader.py:92-97 | a table entry whose two lines are one column gives a series whose two lines are equal |
| Grader.MarketVariantsNeverBet | nfelo/Performance/NfeloGrader.py:35-48 | when grading succeeds, market and market_open have all-NaN ATS and break-even columns in graded_games and NaN ats and ats_be rates |
| Grader.GradeModelsColumns | nfelo/Performance/NfeloGrader.py:85-104 | on a frame with every variant's columns grading succeeds and graded_games holds exactly the six graded columns of each variant |
| Grader.SelectSnoc | nfelo/Performance/NfeloGrader.py:90-100 | a successful turn extends the variants by one |
| Grader.SnocShape | nfelo/Performance/NfeloGrader.py:102-104 | one more variant appends its record and merges its graded frame |
| Grader.SelectStopsAt | nfelo/Performance/NfeloGrader.py:90-100 | a failing turn fails the whole loop with its KeyError |
| Grader.NfeloGrader.Start | nfelo/Performance/NfeloGrader.py:79-82 | the copy of the frame, graded_games from its id columns, and no records |
| Grader.NfeloGrader.GradeModels | nfelo/Performance/NfeloGrader.py:85-104 | after the loop the records and graded_games are those of the variants graded before the first KeyError, and every variant when none is raised |
| Grader.NfeloGrader.GradeNext | nfelo/Performance/NfeloGrader.py:91-104 | one turn appends the variant's record and merges its graded frame |
| Grader.NewGrader | nfelo/Performance/NfeloGrader.py:79-83 | construction succeeds exactly when every variant's columns are present, and then holds every variant's record and graded columns |
| Optimizer.FeatureInfo | nfelo/Optimizer/NfeloOptimizer.py:17-42 | each tunable key has its best guess and a non-empty range that keeps the engine runnable; any other key is a KeyError naming it |
| Optimizer.FeatureKeysTable | nfelo/Optimizer/NfeloOptimizer.py:17-42 | the listed keys are exactly the tunable ones, each listed once |
| Optimizer.FeatureKeysPositions | nfelo/Optimizer/NfeloOptimizer.py:17-42 | each listed key sits at its position in the table and is tunable |
| Optimizer.RangesUsable | nfelo/Optimizer/NfeloOptimizer.py:17-42 | every value inside a feature's range is usable, so a search inside the bounds never hands the engine a value it cannot run |
| Optimizer.NormalizeValue | nfelo/Optimizer/NfeloOptimizer.py:104-115 | normalize_value raises exactly for a key without a range, and otherwise gives (v - min) / (max - min) |
| Optimizer.DenormalizeValue | nfelo/Optimizer/NfeloOptimizer.py:117-127 | denormalize_value raises exactly for a key without a range, and otherwise gives u (max - min) + min |
| Optimizer.DenormalizeNormalize | nfelo/Optimizer/NfeloOptimizer.py:104-127 | denormalising undoes normalising |
| Optimizer.NormalizeDenormalize | nfelo/Optimizer/NfeloOptimizer.py:104-127 | normalising undoes denormalising |
| Optimizer.NamedRoundTrips | nfelo/Optimizer/NfeloOptimizer.py:104-127 | for every tunable key and value, both round trips through the lookups give the value back |
| Optimizer.NormalizedInUnit | nfelo/Optimizer/NfeloOptimizer.py:89-115 | a value lies in the feature's range exactly when its normalised value lies in the bounds [0, 1] |
| Optimizer.DenormalizedInRange | nfelo/Optimizer/NfeloOptimizer.py:89-127 | a point of [0, 1] denormalises into the feature's range |
| Optimizer.GenBestGuesses | nfelo/Optimizer/NfeloOptimizer.py:129-140 | the best guesses succeed exactly when every feature has a range, and are then each feature's normalised best guess in order; otherwise a KeyError names a listed feature without one |
| Optimizer.UpdatesUsable | nfelo/Optimizer/NfeloOptimizer.py:142-151 | for a point inside the bounds every update is a usable value |
| Optimizer.UpdatesKeepValid | nfelo/Optimizer/NfeloOptimizer.py:142-153 | merging the updates of a point inside the bounds into a valid configuration (usable log base, spread-delta base and RMSE base) keeps it valid, and keeps its spans away from -1 when they were, so the engine raises no ZeroDivisionError for them |
| Optimizer.UpdatesSet | nfelo/Optimizer/NfeloOptimizer.py:147-151 | a feature's last occurrence sets its key to its denormalised coordinate |
| Optimizer.UpdatesOnlyListed | nfelo/Optimizer/NfeloOptimizer.py:147-151 | a key no listed feature names is not updated |
| Optimizer.UpdatedConfig | nfelo/Optimizer/NfeloOptimizer.py:142-153 | after update_params a listed key holds the denormalised coordinate of its last occurrence and every other key is unchanged |
| Optimizer.FindObjective | nfelo/Optimizer/NfeloOptimizer.py:84 | an objective found by name is an entry of the table; a missing name is a KeyError naming it |
| Optimizer.ObjectiveTable | nfelo/Optimizer/NfeloOptimizer.py:45-70 | every objective is positive with a positive scale and grades nfelo_unregressed or nfelo_close |
| Optimizer.ObjectiveInfo | nfelo/Optimizer/NfeloOptimizer.py:84 | a known objective name gives a positive table entry, an unknown one a KeyError |
| Optimizer.Complete | nfelo/Performance/NfeloGraderModel.py:112-126 | a graded row keeps the modelled record and adds the helper entries |
| Optimizer.Completed | nfelo/Performance/NfeloGraderModel.py:96-128 | one graded row per variant, each keeping its record |
| Optimizer.LastMetricMeaning | nfelo/Optimizer/NfeloOptimizer.py:155-167 | metric_extraction finds nothing exactly when no record has the name, and otherwise the metric of the last record that does |
| Optimizer.LastMetricNone | nfelo/Optimizer/NfeloOptimizer.py:155-167 | metric_extraction finds nothing exactly when no record has the name |
| Optimizer.LastMetricOfLast | nfelo/Optimizer/NfeloOptimizer.py:155-167 | the metric found is that of the last record with the name, whatever precedes it |
| Optimizer.MetricExtraction | nfelo/Optimizer/NfeloOptimizer.py:155-167 | the loop over every record gives the metric of the last record of the model, or nothing |
| Optimizer.ParseGrade | nfelo/Optimizer/NfeloOptimizer.py:169-190 | a missing grade is a TypeError; a NaN grade stays NaN; a number is divided by the scale and negated for a positive objective |
| Optimizer.RevertUndoesParse | nfelo/Optimizer/NfeloOptimizer.py:169-203 | revert_obj undoes parse_grade |
| Optimizer.ParseUndoesRevert | nfelo/Optimizer/NfeloOptimizer.py:169-203 | parse_grade undoes revert_obj |
| Optimizer.MinimisingMaximises | nfelo/Optimizer/NfeloOptimizer.py:45-70 | for every objective a larger metric gives a smaller objective, so minimising it maximises the metric |
| Optimizer.GradeRunRows | nfelo/Optimizer/NfeloOptimizer.py:218 | a successful grading has one row per variant of NfeloGrader's model table, under that variant's name |
| Optimizer.NamedOnce | nfelo/Performance/NfeloGrader.py:13-77 | in rows named like NfeloGrader's model table no later row repeats a name |
| Optimizer.ObjectiveFound | nfelo/Optimizer/NfeloOptimizer.py:155-190 | in such rows every objective's variant has a row, so metric_extraction finds that row's metric |
| Optimizer.EvaluationDefined | nfelo/Optimizer/NfeloOptimizer.py:205-223 | once the run and the grading succeed every objective yields a value and its scale is not zero |
| Optimizer.GradeOutput | nfelo/Optimizer/NfeloOptimizer.py:218 | grading a run's output builds NfeloGrader's records completed by the helper entries |
| Optimizer.Denormalised | nfelo/Optimizer/NfeloOptimizer.py:274-275 | the denormalised coordinates of a point, in feature order |
| Optimizer.ConfigEntries | nfelo/Optimizer/NfeloOptimizer.py:299-300 | the record keeps its entries and gains one entry per listed key |
| Optimizer.NfeloOptimizer.constructor | nfelo/Optimizer/NfeloOptimizer.py:72-97 | the objective's variant, the best guesses, one (0, 1) bound per feature and an empty record |
| Optimizer.NfeloOptimizer.New | nfelo/Optimizer/NfeloOptimizer.py:72-97 | construction succeeds exactly when the objective and every feature are known; an unknown objective raises first, naming it |
| Optimizer.NfeloOptimizer.UpdateParams | nfelo/Optimizer/NfeloOptimizer.py:142-153 | the engine's configuration is the merge of the point's updates and its state is reset |
| Optimizer.NfeloOptimizer.Evaluate | nfelo/Optimizer/NfeloOptimizer.py:213-218 | update, rerun and grade: the grading of a fresh run under the merged configuration |
| Optimizer.NfeloOptimizer.ObjFunc | nfelo/Optimizer/NfeloOptimizer.py:205-223 | the objective at a point is the transformed metric of a fresh run's grading under the point's configuration |
| Optimizer.NfeloOptimizer.Optimize | nfelo/Optimizer/NfeloOptimizer.py:257-300 | at the solution the run is regraded, the denormalised solution is appended to opti_vals and opti_rec is rebuilt; a search without iterations raises ZeroDivisionError after the first four entries |
| Optimizer.NfeloOptimizer.Record | nfelo/Optimizer/NfeloOptimizer.py:274-300 | the record-keeping: values appended, a division by zero iterations raising after four entries, otherwise the full record with every feature's configuration value |
| Optimizer.NfeloOptimizer.RecordValues | nfelo/Optimizer/NfeloOptimizer.py:274-275 | each coordinate is appended, denormalised |
| Optimizer.NfeloOptimizer.AddConfig | nfelo/Optimizer/NfeloOptimizer.py:299-300 | each key's configuration value is written in order |
| DataLoader.MoneylineImplied | nfelo/Data/DataLoader.py:81-90 | the hold-adjusted moneyline probabilities exist exactly when both prices do and american_to_hold_adj_prob succeeds, and then sum to 1 |
| DataLoader.Complement | nfelo/Data/DataLoader.py:94-107 | `1 - p` is NaN exactly when p is, and sums with p to 1 |
| DataLoader.ImpliedEloDif | nfelo/Data/DataLoader.py:110-111 | the implied rating difference is prob_to_elo with z = 400, NaN for a NaN or zero probability |
| DataLoader.FormatMarketData | nfelo/Data/DataLoader.py:33-116 | format_market_data keeps one row per quote, each the row derivation of its quote |
| DataLoader.MarketLinesFilled | nfelo/Data/DataLoader.py:75-79 | a missing close line becomes 0, a missing open line takes the filled close, and present lines are kept |
| DataLoader.ImpliedProbabilities | nfelo/Data/DataLoader.py:91-111 | the implied home probability is the spread's where the spread table has one and the moneyline's otherwise, NaN only when both are; the away probability is its complement, and a NaN close probability leaves the away probability and the rating difference NaN |
| DataLoader.SpreadCoversTable | nfelo/Data/DataLoader.py:101-107 | a line whose key lies in the table's range and is present is priced by the spread table, so the moneyline fallback applies only beyond the table or at a gap |
| DataLoader.Kind | nfelo/Data/DataLoader.py:133-139 | REG becomes reg, WC, DIV, CON and SB become post, any other code is kept |
| DataLoader.Margin | nfelo/Data/DataLoader.py:142-143 | a margin is NaN exactly when a score is |
| DataLoader.FormatGameFacts | nfelo/Data/DataLoader.py:118-150 | is_playoffs is 1 exactly for post games and 0 otherwise; the two margins are NaN together and otherwise opposite; a margin is NaN exactly when a score is |
| DataLoader.FilmMargin | nfelo/Data/DataLoader.py:319-323 | a film margin is kept; a missing one takes the side's own score margin, NaN for an unplayed game |
| DataLoader.ToElo | nfelo/Data/DataLoader.py:352-357 | a modifier is 25 rating points per point, NaN kept |
| DataLoader.AddHfa | nfelo/Data/DataLoader.py:346-357 | is_neutral is 1 exactly when the location is Neutral, and each modifier is 25 times its adjustment |
| DataLoader.QbAdjustmentsFilled | nfelo/Data/DataLoader.py:398-404 | whether or not the fill runs, every quarterback adjustment ends up present: missing ones are 0 and the others keep their value |
| DataLoader.LineOfProbability | nfelo/Data/DataLoader.py:396-397 | the 538 and qbelo lines are probability_to_spread of the probability, NaN for a missing one |
| DataLoader.Sides | nfelo/Data/DataLoader.py:413-419 | the flat file has every game's home side and every game's away side, twice as many rows as games |
| DataLoader.TeamGameOrder | nfelo/Data/DataLoader.py:420-423 | sorting by team, season and week is a total preorder |
| DataLoader.LastOfTeam | nfelo/Data/DataLoader.py:428-430 | `shift(1)` within a team: the last earlier row of the team, or none |
| DataLoader.FirstOfTeam | nfelo/Data/DataLoader.py:429-431 | `shift(-1)` within a team: the first later row of the team, or none |
| DataLoader.Numbering | nfelo/Data/DataLoader.py:425-431 | the numbering columns of every row of the flat file |
| DataLoader.FlatSorted | nfelo/Data/DataLoader.py:413-424 | the flat file is sorted by team, season and week and is a permutation of both sides of every game |
| DataLoader.SortedGroupsTeams | nfelo/Data/DataLoader.py:420-424 | in the sorted file the rows of a team are contiguous |
| DataLoader.NeighbouringGames | nfelo/Data/DataLoader.py:428-431 | a team's previous and next game ids are the neighbouring rows when those belong to the team, and none otherwise |
| DataLoader.PreviousIsNeighbour | nfelo/Data/DataLoader.py:428 | a team's first row in the sorted file has no previous game |
| DataLoader.NextIsNeighbour | nfelo/Data/DataLoader.py:429 | a team's last row in the sorted file has no next game |
| DataLoader.GameNumbers | nfelo/Data/DataLoader.py:425-426 | the all-time number is 1-based and counts the team's rows; the season number restarts at 1 with a team's first game of a season and otherwise follows the previous row's |
| DataLoader.NoEarlierRow | nfelo/Data/DataLoader.py:425 | rows of other teams do not count towards a team's number |
| DataLoader.NoEarlierSeasonRowOfTeam | nfelo/Data/DataLoader.py:426 | without an earlier row of the team there is no earlier row of its season |
| DataLoader.NoEarlierSeasonRow | nfelo/Data/DataLoader.py:426 | when a team's previous row is of an earlier season, no earlier row is of this season |
| DataLoader.NumbersOf | nfelo/Data/DataLoader.py:433-462 | the merge back finds a flat row of the side's team, season, week and game id, or none when there is no such row |
| DataLoader.EveryGameNumbered | nfelo/Data/DataLoader.py:408-463 | every game finds the numbering of both of its sides |
| Analytics.Perspective | nfelo/Analytics/NfeloAnalytics.py:31-79 | one side's row names that side's team, season, week and game, and the other side as opponent |
| Analytics.Perspectives | nfelo/Analytics/NfeloAnalytics.py:31-80 | every game from the home side, then every game from the away side |
| Analytics.RowOrder | nfelo/Analytics/NfeloAnalytics.py:82-85 | sorting by team, season and week is a total preorder |
| Analytics.Keys | nfelo/Analytics/NfeloAnalytics.py:82-85 | the team, season, week and game of every row |
| Analytics.Renumber | nfelo/Analytics/NfeloAnalytics.py:87 | renumbering keeps every row but its all-time game number |
| Analytics.FlattenSorted | nfelo/Analytics/NfeloAnalytics.py:20-89 | the flat file has two rows per game, is sorted by team, season and week, and is a permutation of both perspectives |
| Analytics.FlattenShape | nfelo/Analytics/NfeloAnalytics.py:31-85 | each game appears from both sides, with the margins of that side |
| Analytics.AllTimeCounter | nfelo/Analytics/NfeloAnalytics.py:86-87 | the all-time game number is 1 at a team's first row and one more than the team's previous row otherwise |
| Analytics.GroupValues | nfelo/Analytics/NfeloAnalytics.py:97-102 | a team-season group holds at most the rows before it |
| Analytics.LastK | nfelo/Analytics/NfeloAnalytics.py:100-102 | a window holds at most k values and all of a shorter group |
| Analytics.YtdColumn | nfelo/Analytics/NfeloAnalytics.py:97 | the season-to-date column, row by row |
| Analytics.RollColumn | nfelo/Analytics/NfeloAnalytics.py:99-102 | the rolling column, row by row |
| Analytics.AddRolls | nfelo/Analytics/NfeloAnalytics.py:91-104 | add_rolls adds exactly the season-to-date, last-8 and last-16 columns of each of the three margins |
| Analytics.AllMetrics | nfelo/Analytics/NfeloAnalytics.py:95 | the loop covers every margin |
| Analytics.GroupEndsWithRow | nfelo/Analytics/NfeloAnalytics.py:97-102 | each row's group ends with its own value |
| Analytics.GroupSkips | nfelo/Analytics/NfeloAnalytics.py:97-102 | rows of other groups between two rows of a group do not change it |
| Analytics.SumPresentAppend | nfelo/Analytics/NfeloAnalytics.py:97-102 | a NaN adds nothing to a sum and a value adds itself |
| Analytics.YtdRunning | nfelo/Analytics/NfeloAnalytics.py:97 | the season-to-date sum is the previous row of the team's season plus this row's value |
| Analytics.FirstOfSeason | nfelo/Analytics/NfeloAnalytics.py:97-102 | at a team's first game of a season the group is that row alone |
| Analytics.SeasonStartsAfresh | nfelo/Analytics/NfeloAnalytics.py:97-102 | at a team's first game of a season every column is that game's own value; nothing carries over |
| Analytics.ShortSeasonWindowIsYtd | nfelo/Analytics/NfeloAnalytics.py:97-102 | a window at least as long as the season so far gives the season-to-date value |
| Analytics.WindowBounded | nfelo/Analytics/NfeloAnalytics.py:100-102 | the rolling window never holds more than k games |
| Analytics.NfeloOf | nfelo/Analytics/NfeloAnalytics.py:106-125 | the merged ratings are a snapshot of the team for the game, and NaN exactly when there is none |
| LegacyNfelo.LegacyKAtLeastK | models/calculate_nfelo.py:389-396 | the K of shift_calc_helper is never below the configured k when the market resist factor and line gap are nonnegative |
| LegacyNfelo.LegacyMagnitudePositive | models/calculate_nfelo.py:397-400 | the unsigned shift adj_k * log_b(max(pd, 1) + 1) is positive for k > 0 and b > 1 |
| LegacyNfelo.ShiftCalcHelperSign | models/calculate_nfelo.py:381-408 | after the home lines are negated, the shift is zero, positive or negative exactly when the margin equals, beats or falls short of the line |
| LegacyNfelo.LegacyKAtLeastAdjK | models/calculate_nfelo.py:389-396 | the legacy K, inflated by the gap between the two lines, is never below the current engine's K, which is inflated by the gap between the two errors |
| LegacyNfelo.ShiftCalcHelperIsCalcShiftUninflated | models/calculate_nfelo.py:381-408 | whenever K is not inflated, shift_calc_helper equals the current engine's calc_shift |
| LegacyNfelo.MagnitudeUninflated | models/calculate_nfelo.py:389-400 | uninflated, the legacy and current magnitudes are the same k times log_b(max(pd, 1) + 1) |
| LegacyNfelo.Bucket | models/calculate_nfelo.py:418-420 | the filter on spread_line keeps only rows of the projected bucket and never adds rows |
| LegacyNfelo.WhereSumOfBucket | models/calculate_nfelo.py:421-440 | summing numpy.where over the bucket gives the probability mass of that bucket on the given side of the market line |
| LegacyNfelo.CalcProbsIsCalcCoverProbs | models/calculate_nfelo.py:413-470 | calc_probs_favorite and calc_probs_dog, which share one body, give exactly calc_cover_probs of the current code, so the favourite/underdog branch never matters |
| LegacyNfelo.CalcProbs | models/calculate_nfelo.py:413-470 | calc_probs_favorite and calc_probs_dog; LegacyNfelo.CalcProbsIsCalcCoverProbs states they equal the current calc_cover_probs |
| LegacyNfelo.Sides | models/calculate_nfelo.py:671-694 | the away loss is the home cover, the away cover the home loss, the pushes agree, and the home probabilities are the ones computed |
| LegacyNfelo.AtMostOneSidePositive | models/calculate_nfelo.py:674-681 | with nonnegative probabilities the home and away EVs are never both positive |
| LegacyNfelo.AddGame | models/calculate_nfelo.py:341-377 | one row adds blank entries for its home and away team under the game id, keeps every other entry and adds no other key |
| LegacyNfelo.DataStrucCovers | models/calculate_nfelo.py:338-378 | create_data_struc leaves a blank entry for both teams of every row, and every entry is blank |
| LegacyNfelo.CreateDataStruc | models/calculate_nfelo.py:338-378 | the loop over the rows builds that structure: every entry blank, both teams of every row present |
| LegacyNfelo.MultLine | models/calculate_nfelo.py:558 | spread_mult_dict[round(p, 3)] succeeds exactly when the rounded key is in the table, and returns its value |
| LegacyNfelo.UnroundedLine | models/calculate_nfelo.py:486-497 | the unrounded 538 and qbelo lines, -16 log10(p / max(1 - p, .001)); LegacyNfelo.UnroundedLineAntisymmetric states that away from the floor the underdog's line is the favourite's negated |
| LegacyNfelo.UnroundedLineAntisymmetric | models/calculate_nfelo.py:486-497 | for p in [0.001, 0.999], the line of 1 - p is the negated line of p, given that log10 negates on reciprocal odds |
| LegacyNfelo.HalfPoint | models/calculate_nfelo.py:480-485 | round(2 * x) / 2 lies within a quarter point of x |
| LegacyNfelo.External | models/calculate_nfelo.py:480-497 | the 538 and qbelo rounded lines are the half-point table lines, the unrounded ones -16 * log10(p / max(1 - p, .001)); a KeyError when either probability is missing from the table |
| LegacyNfelo.PrevEntry | models/calculate_nfelo.py:535 | the previous game's entry exists exactly when the previous game id names an entry of that team |
| LegacyNfelo.PrevEnding | models/calculate_nfelo.py:535 | elo_dict[team][prev_game_id]['ending'] succeeds exactly when that entry exists and has an ending, and returns it |
| LegacyNfelo.RevertedIsOffseasonRegression | models/calculate_nfelo.py:508-520 | the legacy season-opening blend is the current offseason regression with a DVOA projection and no win-total term |
| LegacyNfelo.MedianTeamStartsAtMean | models/calculate_nfelo.py:508-520 | a team that ended last season at the median, with a zero DVOA projection, starts at 1505 |
| LegacyNfelo.Starting | models/calculate_nfelo.py:503-535 | after a team's first game the start is the previous ending; in 2009 a first game takes begining_elo (a KeyError when absent); later first games revert around the median of last season's final ratings and fail when that list is missing or empty or the previous ending is |
| LegacyNfelo.PreMarketDif | models/calculate_nfelo.py:537-549 | outside the playoffs the pre-market difference is the rating gap plus the hfa and home bye modifiers, minus the away bye modifier, plus qb_weight times the QB gap |
| LegacyNfelo.WinProb | models/calculate_nfelo.py:556 | 1 / (10^(-d / z) + 1) lies strictly between 0 and 1 and, for z > 0, is elo_to_prob of the current code |
| LegacyNfelo.StartRolling | models/calculate_nfelo.py:561-584 | unless both teams have a previous entry every carried rolling value is 0; otherwise both adjustments and all four squared errors come from those entries |
| LegacyNfelo.LegacyProductIsIntendedProduct | models/calculate_nfelo.py:595-621 | with equal open and close lines, the legacy regression product is the current product with the model line in the RMSE term |
| LegacyNfelo.LegacyFactor | models/calculate_nfelo.py:621 | the regression factor max(min_mr, min(1, market_regression * factor)) lies in [min_mr, 1] whenever min_mr <= 1 |
| LegacyNfelo.MarketEloDif | models/calculate_nfelo.py:623-636 | -z * math.log10(1 / p - 1) raises exactly when p is not strictly between 0 and 1: ZeroDivisionError at 0 and ValueError (math domain error) for p >= 1 or p < 0 |
| LegacyNfelo.MarketEloDifIsProbToElo | models/calculate_nfelo.py:623-636 | for z > 0 and 0 < p < 1 the legacy inversion of a market probability is prob_to_elo of the current code; outside (0, 1), p != 0, the legacy math.log10 raises where the numpy form returns a value |
| LegacyNfelo.Starts | models/calculate_nfelo.py:503-535 | both starting ratings succeed exactly when each side's does, home first |
| LegacyNfelo.MarketProbs | models/calculate_nfelo.py:567-568 | both market probabilities come from spread_translation_dict and fail exactly when the close or the open line is missing from it |
| LegacyNfelo.Regressed | models/calculate_nfelo.py:586-670 | the regressed projection keeps the pre-market values, uses the legacy factor, blends the difference toward both market differences and takes cover probabilities for the close, the open and the unregressed line |
| LegacyNfelo.Project | models/calculate_nfelo.py:478-670 | a successful projection starts from Starts, its pre-market difference, win probability and table line are the ones above, and its rolling values come from StartRolling |
| LegacyNfelo.Measures | models/calculate_nfelo.py:696-725 | the six measured margins: margin, WEPA and PFF, home before away |
| LegacyNfelo.Shifts | models/calculate_nfelo.py:696-725 | one shift per measure |
| LegacyNfelo.ShiftsAt | models/calculate_nfelo.py:696-725 | each shift is shift_calc_helper of its measure against the pre-regression line and the close |
| LegacyNfelo.WepaOnlySigns | models/calculate_nfelo.py:727-742 | with only the WEPA weight set, each weighted shift has the sign of the WEPA shift it uses |
| LegacyNfelo.WepaHomeLeaksIntoAway | models/calculate_nfelo.py:734-742 | with only the WEPA channel weighted and mirrored WEPA margins, a home team that beat its expectation moves the away team up as written, where its own shift would move it down |
| LegacyNfelo.ProcessValues | models/calculate_nfelo.py:727-766 | the ending ratings are the starts plus the weighted shifts (the away side as written); the market and model squared errors are (margin + line)^2 of the close and the pre-regression line, both nonnegative |
| LegacyNfelo.Rated | models/calculate_nfelo.py:744-762 | for an nfelo span other than -1, one side's entry gets its starting and ending rating, week and adjustment start, its adjustment end averages the absolute shift in with weight 2 / (1 + nfelo_span), and it keeps its squared errors |
| LegacyNfelo.SeRolled | models/calculate_nfelo.py:764-782 | for an se span other than -1, the market and model squared errors each average the row's squared error in with weight 2 / (1 + se_span), and the ratings, week and rolling adjustment stay as they were |
| LegacyNfelo.RollingStaysNonnegative | models/calculate_nfelo.py:744-782 | with spans of at least 1, rolling adjustments and squared errors that start nonnegative stay nonnegative |
| LegacyNfelo.YearlyAfter | models/calculate_nfelo.py:812-821 | week 17 appends the home then the away ending to its season's list, creating the list when absent; any other week and any other season is unchanged |
| LegacyNfelo.WriteRating | models/calculate_nfelo.py:745-762 | the rating writes raise exactly when the entry is missing, and otherwise set its starting and ending ratings without adding keys |
| LegacyNfelo.WriteSe | models/calculate_nfelo.py:767-782 | the squared-error writes keep the keys and the entry's ratings |
| LegacyNfelo.Commit | models/calculate_nfelo.py:744-821 | an nfelo span of -1 raises ZeroDivisionError before any write and leaves everything unchanged; an se span of -1 raises after the rating writes; a row that writes successfully returns its projected and processed values and extends the final-ratings lists by YearlyAfter; a failing one leaves those lists alone |
| LegacyNfelo.CommitWritesEntries | models/calculate_nfelo.py:745-762 | after a successful row both teams' entries hold that game's starting and ending ratings |
| LegacyNfelo.CommitFrame | models/calculate_nfelo.py:745-821 | the writes add no key and touch only this game's entries; a missing away entry fails before any write; the final-ratings lists change only in a successful week 17 |
| LegacyNfelo.SeSpanRaisesAfterRatings | models/calculate_nfelo.py:744-766 | an se span of -1 raises ZeroDivisionError after both rating writes, whose starting and ending ratings stay in the dictionary, and leaves the final-ratings lists alone |
| LegacyNfelo.CommitYearlyLen | models/calculate_nfelo.py:812-821 | a successful row adds two final ratings to its own season in week 17 and none otherwise |
| LegacyNfelo.Step | models/calculate_nfelo.py:478-822 | generate_nfelo on one row: success extends the final-ratings lists by YearlyAfter, failure leaves them unchanged |
| LegacyNfelo.ProjectStartsFromPreviousEnding | models/calculate_nfelo.py:534-535 | away from a team's first game its starting rating is the ending stored for its previous game |
| LegacyNfelo.Fold | models/calculate_nfelo.py:823 | a run over the rows that succeeds yields one output per row |
| LegacyNfelo.FoldExtends | models/calculate_nfelo.py:823 | a run that has succeeded so far takes the next row's step with the state the prefix left |
| LegacyNfelo.FoldKeepsError | models/calculate_nfelo.py:823 | once a prefix fails, the whole run ends as that prefix did |
| LegacyNfelo.LegacyStepAddsFinalRatings | models/calculate_nfelo.py:812-821 | every successful generate_nfelo step adds exactly its week-17 final ratings |
| LegacyNfelo.FoldYearlyCounts | models/calculate_nfelo.py:812-823 | a completed run of such steps leaves two final ratings per week-17 game in each season's list |
| LegacyNfelo.RunYearlyCounts | models/calculate_nfelo.py:473-824 | a completed calc_nfelo run leaves two final ratings per week-17 game in each season's list |
| LegacyNfelo.LegacyEngine.constructor | models/calculate_nfelo.py:473-476 | calc_nfelo starts from the given entries and an empty yearly_elos |
| LegacyNfelo.LegacyEngine.GenerateNfelo | models/calculate_nfelo.py:478-822 | one row updates the entries and the final-ratings lists exactly as Step does |
| LegacyNfelo.LegacyEngine.WriteGame | models/calculate_nfelo.py:745-821 | the writes of one row update the state exactly as Commit does |
| LegacyNfelo.LegacyEngine.CalcNfelo | models/calculate_nfelo.py:473-824 | the apply over the rows leaves the state and the outputs of Run |
| LegacyNfelo.LegacyEngine.RunNext | models/calculate_nfelo.py:823 | one more row extends a run that has succeeded so far, or ends it with the run's error |
| LegacyNfelo.LegacyBrier | models/calculate_nfelo.py:862-876 | the per-model Brier form is the current Brier score and never above 25 |
| LegacyNfelo.LegacySu | models/calculate_nfelo.py:884-936 | straight-up is NaN exactly on a tie; on a home win it is 1 exactly when the line is negative, on a home loss exactly when it is positive |
| LegacyNfelo.LegacySuVsGradeSu | models/calculate_nfelo.py:884-936 | the legacy and current straight-up grades agree except on a tie (legacy NaN, current 0 for a nonzero line) and on a line equal to the margin (legacy graded, current NaN) |
| LegacyNfelo.OpenSu | models/calculate_nfelo.py:884-936 | the opening line's straight-up grade: a present line is graded as every other line (LegacyNfelo.LegacySuVsGradeSu relates it to the current grade); a missing one compares false and grades 0, NaN on a tie |
| LegacyNfelo.LegacyAts | models/calculate_nfelo.py:937-1032 | ATS is NaN for a null market line and otherwise is grade_bet of the current code without EVs |
| LegacyNfelo.LegacyAtsBreakEven | models/calculate_nfelo.py:1067-1130 | a graded break-even play needs a market line more than 1.5 points from the model line, and then is the ATS grade |
| LegacyNfelo.LegacyAtsBreakEvenIsGradeBet | models/calculate_nfelo.py:1067-1098 | the 538/qbelo break-even rule is the current grade_bet with be_only and no EV columns |
| LegacyNfelo.NfeloBreakEven | models/calculate_nfelo.py:1033-1066 | graded exactly when the line is present, not a push and one EV is positive; a home bet when the home EV is positive, otherwise an away bet |
| LegacyNfelo.ScoreRow | models/calculate_nfelo.py:830-1148 | the nfelo and market Brier scores are at most 25, nfelo's close ATS is the legacy ATS against the close and 538's close break-even is grade_bet with be_only |
| LegacyNfelo.GradeModels | models/calculate_nfelo.py:827-1149 | score_models applied to every row, in order, one grade row per input row |
| Spreads.SeasonKind | models/calculate_spreads.py:196-208 | a game is typed `post` exactly when its week is after the last regular-season week, 17 through 2020 and 18 from 2021 |
| Spreads.MinUnplayed | models/calculate_spreads.py:190-191 | the minimum over the games without a result is absent exactly when every game has one, and otherwise is attained by an unplayed game and bounds all of them from below |
| Spreads.Select | models/calculate_spreads.py:192-208 | the rows kept are exactly the games of that season and week, each typed by SeasonKind |
| Spreads.CurrentWeekSelects | models/calculate_spreads.py:157-209 | with nothing unplayed nothing is projected; otherwise every projected game is in the least unplayed season and the least unplayed week, and every game there is projected |
| Spreads.CurrentWeek | models/calculate_spreads.py:157-209 | get_current_week as written; Spreads.CurrentWeekSelects states what it selects and Spreads.CurrentWeekCanSelectPlayedWeek the input where it picks a played week |
| Spreads.CurrentWeekCanSelectPlayedWeek | models/calculate_spreads.py:190-195 | with the last regular week of one season and week 1 of the next both unplayed, the separate minima select the already-played week 1 of the earlier season and project no unplayed game |
| Spreads.InSeason | models/calculate_spreads.py:190-195 | the games of one season, and only those |
| Spreads.CurrentWeekIntendedIsNextWeek | models/calculate_spreads.py:190-195 | taking the least unplayed week within the least unplayed season always projects an unplayed game when there is one, and nothing projected comes after an unplayed game |
| Spreads.LatestHfa | models/calculate_spreads.py:307-309 | the latest non-null rolling HFA is missing (an IndexError) exactly when every value is null |
| Spreads.LatestHfaIsLast | models/calculate_spreads.py:307-309 | the value found is at the last non-null position |
| Spreads.ModifiersScaleHfa | models/calculate_spreads.py:310-338 | every modifier is a configured rate times hfa_mod; hfa_mod is 1 on a neutral field and 25 times the latest rolling HFA otherwise, so a league HFA of 0 cancels every modifier of a non-neutral game |
| Spreads.ByeRule | models/calculate_spreads.py:320-335 | a bye modifier is nonzero only after week 1 when the team's last game was more than a week earlier, and then it is the configured bye rate times hfa_mod |
| Spreads.Modifiers | models/calculate_spreads.py:310-338 | the empirical modifiers of one game; Spreads.ModifiersScaleHfa states that every one is a configured rate times hfa_mod and Spreads.ByeRule when a bye counts |
| Spreads.SeasonRatings | models/calculate_spreads.py:344-346 | last season's final ratings are empty exactly when no final row is of that season |
| Spreads.LastSeasonMedian | models/calculate_spreads.py:344-355 | the reversion centre is 1505 without last season's ratings and their median otherwise |
| Spreads.WeekOneRatingIsOffseasonRegression | models/calculate_spreads.py:362-395 | with a DVOA weight in [0, 1] the week-one rating is the offseason regression with a DVOA projection and no win-total term |
| Spreads.WeekOneRating | models/calculate_spreads.py:362-395 | the week-one rating; Spreads.WeekOneRatingIsOffseasonRegression states it is offseason_regression with the configured DVOA weight and no win-total projection |
| Spreads.PreRegDif | models/calculate_spreads.py:413-429 | the difference before regression; Spreads.PreRegDifPlayoffBoost states how the playoff boost scales it |
| Spreads.PreRegDifPlayoffBoost | models/calculate_spreads.py:413-429 | a playoff game's difference is the regular-season difference times 1 + playoff_boost, and with no modifiers and equal QB values it is the rating difference |
| Spreads.Rate | models/calculate_spreads.py:302-429 | the lookups raise exactly when a team has no recent row, there is no rolling HFA, or a team has no DVOA projection for the season; a missing QB adjustment counts as 0; week 1 reverts both ratings; the modifiers and the pre-regression difference are the ones above |
| Spreads.Toward | models/calculate_spreads.py:430-503 | the regression succeeds exactly when the closing line is in the translation table with a probability strictly between 0 and 1 (math.log10 raising otherwise); it uses the unrounded pre-regression line, the legacy regression factor and the blend toward the closing market's difference |
| Spreads.Finish | models/calculate_spreads.py:513-527 | the final probability is elo_to_prob of the regressed difference, the lines are its unrounded and table lines (a KeyError when the key is missing) and the spread delta is the distance of the table line from the close |
| Spreads.AddInfo | models/calculate_spreads.py:302-528 | add_info fails with the first failing step, in the source's order, and otherwise returns Finish of the regression of the rated game |
| Spreads.TowardStaysBetween | models/calculate_spreads.py:492-503 | the factor lies in [min_mr, 1] whenever min_mr <= 1, and with min_mr >= 0 the regressed difference lies between the model's and the closing market's |
| Spreads.AddInfoRegressesTowardMarket | models/calculate_spreads.py:302-528 | a projected game carries the legacy factor and a regressed difference between the model's and the market's, and its probability is strictly between 0 and 1 |
| Spreads.AddLines | models/calculate_spreads.py:300-530 | add_info over every game in order: success exactly when every game succeeds, one projection per game, and otherwise the error of the first failing game |
| Spreads.ApplyRows | models/calculate_spreads.py:529 | a row-wise apply that raises stops at the first failing row and reports its error; otherwise one result per row |
| Spreads.Probabilities | models/calculate_spreads.py:536-549 | home's probabilities are calc_cover_probs of the rounded projected line against the close, away's are their mirror, and both EVs are (cover - 1.1 * loss) / 1.1 |
| Spreads.ProbabilitiesPartition | models/calculate_spreads.py:536-549 | with nonnegative table weights the probabilities are nonnegative and at most one side shows a positive EV |
| Spreads.ApplyProbabilities | models/calculate_spreads.py:534-551 | apply_probs over every projected game, in order |
| Spreads.Ids | models/calculate_spreads.py:78 | the game ids of the picks, in order |
| Spreads.Without | models/calculate_spreads.py:79-84 | the numpy.isin filter never adds rows |
| Spreads.WithoutMembers | models/calculate_spreads.py:79-84 | a history row survives exactly when it was there and its game is not among last week's picks |
| Spreads.Stamp | models/calculate_spreads.py:61 | every one of last week's picks gets the current model version and nothing else changes |
| Spreads.SavePreviousPicks | models/calculate_spreads.py:39-95 | nothing is written without last week's picks; without a history they become the history; otherwise the history loses their games and they are appended, stamped with the version |
| Spreads.StampKeepsIds | models/calculate_spreads.py:61 | stamping keeps the game ids |
| Spreads.UpsertKeepsOneRowPerGame | models/calculate_spreads.py:75-89 | every new pick is kept, an old pick survives exactly when its game is not re-picked, nothing else is written, and one row per game stays one row per game |
| Spreads.UpsertIdempotent | models/calculate_spreads.py:75-89 | saving the same picks twice writes the same history as saving them once |
| Spreads.WithoutIdempotent | models/calculate_spreads.py:79-84 | filtering by the same ids twice is filtering once |
| WtRatings.VigFreeOver | models/calculate_wt_ratings.py:29-34 | the vig-free over share is defined exactly when the two probabilities do not sum to 0, is the over's proportion of their sum, and lies in [0, 1] for nonnegative probabilities |
| WtRatings.CalcProbsAndHold | models/calculate_wt_ratings.py:21-57 | for quotable prices the vig-free over and under sum to 1, the hold is the two implied probabilities minus 1, the over's implied probability is its vig-free share times 1 + hold, and the share lies in [0, 1] |
| WtRatings.VigFreeIsProportional | models/calculate_wt_ratings.py:49-57 | the under's implied probability is its vig-free share times 1 + hold, and equal prices give a vig-free share of one half |
| WtRatings.Logit | models/calculate_wt_ratings.py:118-122 | log(p / (1 - p)) is finite exactly for p strictly between 0 and 1 |
| WtRatings.CalcVigFreeOdds | models/calculate_wt_ratings.py:109-130 | a row keeps its team, season and line and gets line_adj = line + logit(vf_over) * over_prob_logit_coef; equal quotable prices always give a finite adjustment |
| WtRatings.LineAdjFollowsOver | models/calculate_wt_ratings.py:118-127 | with a positive coefficient the adjusted line is above the posted line exactly when the over is more likely than the under, and equal to it at even odds |
| WtRatings.OddsRatioAboveOne | models/calculate_wt_ratings.py:119-122 | the odds p / (1 - p) exceed one exactly when p exceeds one half, and equal one exactly at one half |
| WtRatings.TeamOrder | models/calculate_wt_ratings.py:149-152 | sorting by team name orders rows by a total preorder |
| WtRatings.AppendVars | models/calculate_wt_ratings.py:136-158 | the loop starts with HFA and then appends, for each row in order, its team, its guess and the team bound, so all three lists have length 1 + rows |
| WtRatings.ConstructWith | models/calculate_wt_ratings.py:134-158 | the variables are HFA followed by every team in alphabetical order, each with its guess from line_adj and the team bound |
| WtRatings.ConstructVars | models/calculate_wt_ratings.py:134-158 | HFA first with guess 1.5 and bounds (-5, 5), then every team alphabetically with guess line_adj - 8 and bounds (-15, 15); all three lists have length 1 + teams |
| WtRatings.ConstructVarsElo | models/calculate_wt_ratings.py:244-268 | HFA first with guess 37.5 and bounds (0, 70), then every team alphabetically with guess (line_adj - 8) / 7 * 200 + 1505 and bounds (-1100, 1800) |
| WtRatings.EightWinsIsAverage | models/calculate_wt_ratings.py:264 | a team projected at 8 wins starts from a rating of 1505 |
| WtRatings.LastValue | models/calculate_wt_ratings.py:168-172 | the value the val_dict loop leaves under a key is missing exactly when the key never occurs, and otherwise is the value at a position holding that key |
| WtRatings.Get | models/calculate_wt_ratings.py:175-176 | `.map(val_dict)` gives NaN exactly for a team without a value |
| WtRatings.ValDict | models/calculate_wt_ratings.py:168-172 | the loop raises an IndexError exactly when there are fewer names than values, and otherwise maps each name to the last value stored under it |
| WtRatings.WinProb | models/calculate_wt_ratings.py:36-47 | the win probability lies strictly between 0 and 1 and is spread_to_prob_elo for point ratings and elo_to_prob with z = 400 for rating points |
| WtRatings.ApplyGame | models/calculate_wt_ratings.py:174-186 | the expected margin is home + hfa - away, defined exactly when both ratings are; home_win is its win probability and home_win + away_win = 1 |
| WtRatings.ApplyWins | models/calculate_wt_ratings.py:162-187 | apply_wins raises exactly when the vector is empty or longer than the names; otherwise each game is rated with hfa = x[0] and the values the loop stored for its teams |
| WtRatings.ApplyRatings | models/calculate_wt_ratings.py:174-186 | every game gets ApplyGame with the ratings mapped for its teams, in order |
| WtRatings.TeamsOf | models/calculate_wt_ratings.py:192-212 | the grouped teams are distinct and are exactly the teams that appear as home or away |
| WtRatings.WinColumn | models/calculate_wt_ratings.py:192-209 | the flattened win column has two entries per game |
| WtRatings.SquaredErrors | models/calculate_wt_ratings.py:210-224 | one squared error per team, nonnegative, equal to (expected wins - line_adj)^2 and present only for a team with a line |
| WtRatings.ScoreOpti | models/calculate_wt_ratings.py:190-227 | the RMSE is defined exactly when some team has a line, and is the square root of the nonnegative mean squared error |
| WtRatings.ScoreOptiBounds | models/calculate_wt_ratings.py:190-227 | the RMSE is never negative and is 0 when every team's expected wins equal its adjusted line |
| WtRatings.ExpectedWins | models/calculate_wt_ratings.py:190-212 | a team's summed win probabilities, NaN skipped; WtRatings.ScoreOptiBounds states the RMSE against line_adj is zero when every team's expected wins equal its line |
| WtRatings.SquaredErrorsVanish | models/calculate_wt_ratings.py:221-224 | exact expected wins leave no squared error |
| WtRatings.OpponentColumn | models/calculate_wt_ratings.py:358-372 | the flattened opponent column lists, for a team's home games, the away rating and, for its away games, the home rating |
| WtRatings.CalcSos | models/calculate_wt_ratings.py:354-377 | one row per team whose strength of schedule is the mean of its opponents' ratings, NaN ratings skipped |
| WtRatings.SosBetweenOpponents | models/calculate_wt_ratings.py:374-376 | the strength of schedule lies between the weakest and the strongest opponent's rating |
| Wepa.Coef | models/calculate_wepa.py:34 | `season.map(weight_dict).str[k]` is NaN exactly when the season or its k-th coefficient is missing, and otherwise is that coefficient |
| Wepa.Conditional | models/calculate_wepa.py:34-56 | a conditional weight is 1 when its condition fails, and 1 + the season coefficient (NaN when it is missing) when it holds |
| Wepa.WinProbabilityClauseIsVacuous | models/calculate_wepa.py:35-46 | the clause wp < .90 or wp > .10 excludes only a NaN win probability, so lopsided game states at 0.99 or 0.01 still get the neutral second-down weight |
| Wepa.IntendedNeutralExcludesLopsided | models/calculate_wepa.py:35-46 | the intended band 0.1 < wp < 0.9 implies the written condition, agrees with it inside the band and excludes every lopsided game state |
| Wepa.Logistic | models/calculate_wepa.py:49 | 1 / (1 + exp(x)) lies in (0, 1] and, with a positive exponential, strictly below 1 |
| Wepa.DepthCurve | models/calculate_wepa.py:47-52 | the incompletion depth curve 2 * (logistic - 0.5) lies between -1 and 1 |
| Wepa.IncompletionWeight | models/calculate_wepa.py:47-52 | the incompletion weight is always a number; it is 1 unless the play is an incompletion that is not an interception, and 1 when the coefficient or the air yards are missing |
| Wepa.WinProbCurve | models/calculate_wepa.py:57-58 | the win-probability curve lies in (-0.5, 0.5] |
| Wepa.ScaledWinProbWeight | models/calculate_wepa.py:57-58 | the scaled win-probability weight is 1 - coef * curve(wp), NaN exactly when the coefficient or the win probability is, and 1 for a zero coefficient |
| Wepa.WinProbCurveSymmetric | models/calculate_wepa.py:57-58 | the curve gives wp and 1 - wp the same weight for every wp, so both sides of a game are treated alike |
| Wepa.OffenseWeights | models/calculate_wepa.py:34-58 | seven offensive weights; QB rush, neutral second-down run, incompletion depth, non-sack fumble, interception and goal line are each 1 on a play that does not meet its condition; the win-probability weight is NaN exactly when wp or the coefficient is; all are numbers for a known wp and a full coefficient row |
| Wepa.DefenseWeights | models/calculate_wepa.py:60-88 | seven defensive weights, each 1 on a play that does not meet its condition (QB rush, neutral second-down run, incompletion depth, sack fumble, interception, field goal, positive third down), all numbers for a full coefficient row |
| Wepa.OffenseWeightsFireOnTheirConditions | models/calculate_wepa.py:34-56 | with the season's coefficients known, each conditional offensive weight differs from 1 exactly when its condition holds and its coefficient is not zero |
| Wepa.DefenseWeightsFireOnTheirConditions | models/calculate_wepa.py:60-88 | with the season's coefficients known, each conditional defensive weight differs from 1 exactly when its condition holds and its coefficient is not zero |
| Wepa.Times | models/calculate_wepa.py:148-153 | a product is NaN exactly when a factor is |
| Wepa.ProductIsNaN | models/calculate_wepa.py:148-153 | the weighted EPA is NaN exactly when the base or some weight is |
| Wepa.ProductScalesBase | models/calculate_wepa.py:148-153 | the weighted EPA is the base times the product of the weights |
| Wepa.ProductOfOnes | models/calculate_wepa.py:148-153 | weights that are all 1 leave the base unchanged |
| Wepa.Clamp10 | models/calculate_wepa.py:155-159 | the clamp keeps NaN, keeps values in [-10, 10] and sends larger values to 10 and smaller ones to -10 |
| Wepa.DefenseBase | models/calculate_wepa.py:151 | the defensive base is epa * (1 + defense_adj), NaN exactly when the EPA or the coefficient is |
| Wepa.MultiplyAll | models/calculate_wepa.py:148-153 | the loop multiplies the base by each weight column in turn |
| Wepa.GradePlay | models/calculate_wepa.py:30-159 | wepa is the clamped product of EPA and the offensive weights, d_wepa the clamped product of the defensive base and the defensive weights |
| Wepa.MissingSeasonIsNaN | models/calculate_wepa.py:34-153 | a season missing from the weight table grades every play NaN |
| Wepa.UnweightedPlayKeepsEpa | models/calculate_wepa.py:34-153 | a play with a known win probability that triggers no weight, in a season with a zero win-probability coefficient, keeps its EPA (NaN included) |
| Wepa.NaNPlayIsNaN | models/calculate_wepa.py:57-153 | a NaN EPA makes wepa and d_wepa NaN; a NaN win probability makes wepa NaN through the scaled win-probability weight |
| Wepa.OpponentRow | models/calculate_wepa.py:164-176 | the merge finds the first row of the same game whose defence is the team, and none exactly when there is no such row |
| Wepa.WepaNet | models/calculate_wepa.py:178 | wepa_net = wepa - d_wepa_against, NaN exactly when the opponent row is missing |
| Wepa.NetAt | models/calculate_wepa.py:164-193 | each row keeps its own values, gets its wepa_net and the opponent's sums when an opponent row exists, and its wepa_net_opponent is the wepa_net of a row whose defence is this team in this game |
| Wepa.NetRows | models/calculate_wepa.py:164-193 | one net row per game row, in order, each with its wepa_net |
| Wepa.NetIsMutual | models/calculate_wepa.py:164-193 | with one row per defence and game, each offence is netted against the other side's defensive wepa and each row's wepa_net_opponent is the other row's wepa_net |
| Wepa.Publish | models/calculate_wepa.py:341-344 | only seasons after 1999 are kept, and epa_net = epa - epa_against |
| Wepa.PublishKeepsModernSeasons | models/calculate_wepa.py:341 | every row of a season after 1999 is kept |
| Wepa.EpaNetOpponentIsNegation | models/calculate_wepa.py:343-344 | epa_net_opponent is the negation of epa_net |
| Wepa.PrepEpa | models/calculate_wepa.py:242 | extra-point EPA is zeroed, NaN included, and every other play keeps its EPA |
| Wepa.GameIdIsJoin | models/calculate_wepa.py:249-257 | a game id is season, the two-digit week, away and home joined by '_' |
| Wepa.GameId | models/calculate_wepa.py:249-257 | the standardized game id; Wepa.GameIdIsJoin and Wepa.GameIdFields state its layout and that it splits back into its fields |
| Wepa.GameIdFields | models/calculate_wepa.py:249-257 | a game id splits on '_' back into its four fields when the team codes contain no '_' |
| Wepa.WeekFieldParses | models/calculate_wepa.py:252 | for weeks 0-99 the week field is two characters and parses back to the week |
| Wepa.MaxFlag | models/calculate_wepa.py:293-295 | the coalesced flag is the larger of the coded flag (NaN skipped) and the inferred one |
| Wepa.Classify | models/calculate_wepa.py:268-305 | the dropback and rush flags coalesce the coded and inferred ones; play_call is Pass exactly on a dropback and Run exactly on a rush attempt without one |
| Wepa.InferredFlagsExclusive | models/calculate_wepa.py:268-305 | the inferred dropback and run flags are never both set; a described pass is always called a pass, and a described run without a coded dropback a run |
| FormatSpreads.KeepHomes | formatting/format_spreads.py:41-47 | only games whose home team is a configured team survive (dropping the Pro Bowl), and every such game is kept |
| FormatSpreads.TflType | formatting/format_spreads.py:74-86 | the season type of a TFL row; FormatSpreads.TflPlayoffRowsAsWritten and FormatSpreads.TflPlayoffWeekIntendedIsPost state which playoff rows it types post |
| FormatSpreads.TflPlayoffRowsAsWritten | formatting/format_spreads.py:74-86 | for a scrape in any later year, a playoff row of 2021 or later is typed post; one of an earlier season is typed post exactly when scraped before 2022, so a 2019 playoff row scraped in 2024 is typed reg |
| FormatSpreads.IntendedPlayoffWeek | data_pulls/pull_tfl_lines.py:107-111 | the intended playoff week follows the row's season, and agrees with the scraper's when the season is scraped in the January after it |
| FormatSpreads.TflPlayoffWeekIntendedIsPost | formatting/format_spreads.py:74-86 | with the intended week every season's playoff rows are typed post and the week before them reg |
| FormatSpreads.FirstPresent | formatting/format_spreads.py:156-169 | the chained pick is NaN exactly when every source is NaN |
| FormatSpreads.FirstPresentAt | formatting/format_spreads.py:156-169 | the value chosen is the first source that has one |
| FormatSpreads.FirstPresentOfFour | formatting/format_spreads.py:156-169 | three chained `combine_first` calls pick the first present of the four sources |
| FormatSpreads.OpenLine | formatting/format_spreads.py:156-162 | the opening line prefers TFL, then VI, then SBR, then the nflfastR line |
| FormatSpreads.CloseLine | formatting/format_spreads.py:163-169 | the closing line prefers VI, then SBR, then the nflfastR line, then TFL |
| FormatSpreads.MoneylineProb | formatting/format_spreads.py:182-203 | the hold-inclusive probability of a moneyline lies in (0, 1], below 1 for a non-zero line, at least 0.5 for a favourite of -100 or heavier and at most 0.5 for an underdog of +100 or more |
| FormatSpreads.HoldAdjusted | formatting/format_spreads.py:204-215 | the stored hold is one minus the two implied probabilities; adding half of it to each side makes the two probabilities sum to exactly 1, keeps each strictly inside (0, 1) and keeps the favourite the favourite; NaN when either moneyline is |
| FormatSpreads.MinSpread | formatting/format_spreads.py:218 | the grid starts at the smallest implied spread of the table |
| FormatSpreads.MaxSpread | formatting/format_spreads.py:220 | the grid ends at the largest implied spread of the table |
| FormatSpreads.SpreadGrid | formatting/format_spreads.py:218-225 | the loop produces the half-point steps from the smallest spread that do not exceed the largest, and stops at the first step past it |
| FormatSpreads.TableGrid | formatting/format_spreads.py:218-226 | the grid of a non-empty table starts at its smallest spread, rises in half points and never passes its largest spread; an empty table gives no grid |
| FormatSpreads.Matches | formatting/format_spreads.py:227-236 | the left merge gives every grid spread at least one row, NaN when the table has no win probability for it |
| FormatSpreads.FillForward | formatting/format_spreads.py:237 | `ffill` keeps the length and every present win probability |
| FormatSpreads.FillBackward | formatting/format_spreads.py:237 | `bfill` keeps the length and every present win probability |
| FormatSpreads.FillForwardFromFirst | formatting/format_spreads.py:237 | after `ffill` every row from the first present value on is present |
| FormatSpreads.FillBackwardToLast | formatting/format_spreads.py:237 | after `bfill` every row up to a present value is present |
| FormatSpreads.FillLeavesNoGap | formatting/format_spreads.py:237 | `ffill().bfill()` leaves no NaN once any win probability is present |
| FormatSpreads.FilledRows | formatting/format_spreads.py:227-237 | filling keeps one row per merged grid row |
| FormatSpreads.Least | formatting/format_spreads.py:239-243 | the group's `min` is at most every value of the group |
| FormatSpreads.Most | formatting/format_spreads.py:239-243 | the group's `max` is at least every value of the group |
| FormatSpreads.BandOf | formatting/format_spreads.py:239-251 | a spread has a band exactly when some row at that spread has a win probability; otherwise the merge leaves it NaN |
| FormatSpreads.SumWithin | formatting/format_spreads.py:239-243 | the sum of a group lies between its size times its min and its size times its max, so its mean lies between the two |
| FormatSpreads.BandOrdered | formatting/format_spreads.py:239-243 | every band is ordered: low <= mid <= high |
| FormatSpreads.SpreadImpliedWp | formatting/format_spreads.py:252-264 | the spread-implied probability is one of the band's low, mid or high, and NaN when the closing line has no band |
| FormatSpreads.SpreadImpliedWpMonotone | formatting/format_spreads.py:252-264 | on an ordered band, a heavier price on the home spread never gives the home side a smaller win probability |
| FormatSpreads.MarketEloDif | formatting/format_spreads.py:270-273 | the market rating difference is -400 * log10(1 / p - 1) of the market probability, defined exactly when that probability is present and non-zero |
| FormatSpreads.ClampClose | formatting/format_spreads.py:277-282 | the closing line is clamped into [-51, 51], a line already inside is unchanged and NaN stays NaN |
| FormatSpreads.FixOpen | formatting/format_spreads.py:283-288 | an opening line inside [-51, 51] is kept, one outside is replaced by the clamped closing line, and NaN stays NaN |
| FormatSpreads.MarketColumns | formatting/format_spreads.py:182-273 | the market probability is the hold-adjusted moneyline probability when both moneylines exist and the spread-implied one otherwise, and its rating difference is read off the chosen probability |
| FormatSpreads.FormatGame | formatting/format_spreads.py:153-288 | a formatted game's opening and closing lines lie in [-51, 51], and it has a closing line exactly when some source has one |
| FormatSpreads.FormatSpreads | formatting/format_spreads.py:30-288 | the output has one formatted row per game with a configured home team, each formatted against the filled half-point grid built from the spread-multiples table |
| FormatSpreads.GridSpreadsHaveBands | formatting/format_spreads.py:218-251 | every grid spread gets a full low / mid / high band once the table has a row |
| FormatSpreads.GridRowsHaveSpread | formatting/format_spreads.py:227-236 | every grid spread keeps at least one merged row |
| FormatSpreads.FirstRowPresent | formatting/format_spreads.py:218-237 | the first merged row is the table's smallest spread, which has a win probability, so `ffill` reaches every row |
| GameDataMerge.BlendedDvoa | formatting/game_data_merge.py:121-129 | through week 8 the rating blends projection and season total by weeks played, after week 8 it is the total alone, and a NaN week or total gives NaN |
| GameDataMerge.BlendedDvoaBetween | formatting/game_data_merge.py:121-129 | week 0 gives the projection, week 8 the total, and every week in between lies between the two |
| GameDataMerge.PreviousWeek | formatting/game_data_merge.py:47-48 | the lookup finds the first row of the same team and season whose week is one less, or reports that there is none |
| GameDataMerge.BeginningDvoa | formatting/game_data_merge.py:38-49 | a team-season without weekly ratings starts from its projection and becomes week 1; week 1 starts from the projection with no total; any other week takes the blended and total ratings of the week before, and raises exactly when that week is missing |
| GameDataMerge.BeginningAll | formatting/game_data_merge.py:130 | the apply succeeds exactly when every row's lookup does, looks every row up in the table as it was before, and keeps the row order |
| GameDataMerge.StartsWherePreviousEnded | formatting/game_data_merge.py:38-49 | every week after the first starts with the ratings the same team ended the week before with |
| GameDataMerge.PffType | formatting/game_data_merge.py:181-193 | a PFF week is a playoff week exactly when it is after week 17 through 2020 and after week 18 from 2021 on |
| GameDataMerge.PffTypeMonotone | formatting/game_data_merge.py:181-193 | once a week is a playoff week, every later week of the season is too |
| GameDataMerge.TflPostIsPffPost | formatting/game_data_merge.py:181-193 | a TFL playoff row is a PFF playoff row too, so the two season types agree on playoff games |
| GameDataMerge.Diff | formatting/game_data_merge.py:248-249 | a score margin is present exactly when both scores are |
| GameDataMerge.PffMargin | formatting/game_data_merge.py:243-249 | a graded side's margin is 1.263 - 87.728 * grade, and an ungraded side's margin is its score margin |
| GameDataMerge.FallbackMarginsOpposite | formatting/game_data_merge.py:248-249 | without grades, the home and away margins are opposite |
| GameDataMerge.PffMarginFallsWithGrade | formatting/game_data_merge.py:243-247 | a higher grade delta always gives a lower margin, because the frozen slope is negative |
| GameDataMerge.ManualFix | formatting/game_data_merge.py:52-58 | a listed game gets the listed scores and every other game is left alone; a missing key stops the fix where it is raised, so a fix without a home score changes nothing |
| GameDataMerge.ManualFixIdempotent | formatting/game_data_merge.py:52-58 | applying the manual fixes twice gives the same row as applying them once |
| GameDataMerge.ManualFixAll | formatting/game_data_merge.py:252 | the apply fixes every row and keeps the row order and count |
| PullSbr.SeasonEnd | data_pulls/pull_sbr_lines.py:32-43 | a pull ends at the current year's season exactly when today is after September 6, and at the previous year's otherwise |
| PullSbr.SeasonEndMonotone | data_pulls/pull_sbr_lines.py:32-43 | a later day never ends the pull at an earlier season |
| PullSbr.HomeAndAway | data_pulls/pull_sbr_lines.py:149-169 | the home team is one of the two participants, the one with the larger rotation number, and the second on a tie; a missing participant or an unparsable rotation raises |
| PullSbr.TallyErrorPersists | data_pulls/pull_sbr_lines.py:177-196 | once a score value fails to parse, the rest of the records do not change the outcome |
| PullSbr.TallyScores | data_pulls/pull_sbr_lines.py:170-196 | the loop over score records returns the running first-half, second-half and full-game points or the first error |
| PullSbr.Values | data_pulls/pull_sbr_lines.py:177-196 | every score value parses to one integer, or the first one that does not is reported |
| PullSbr.TallyIsSidePoints | data_pulls/pull_sbr_lines.py:170-196 | the loop raises exactly when some value is not an integer, and otherwise each accumulator holds its side's points over its periods, a record counting for the home team exactly when its participant is the home team |
| PullSbr.FullGameIsSumOfPeriods | data_pulls/pull_sbr_lines.py:177-196 | a side's full-game points are its first-half, second-half and other-period points together |
| PullSbr.SidesShareTotal | data_pulls/pull_sbr_lines.py:177-196 | every point goes to exactly one side, so the two full-game scores add up to all the points recorded |
| PullSbr.ParseEvent | data_pulls/pull_sbr_lines.py:148-219 | an event parses exactly when its sides and every score value do, and the row keeps its event id, season and timestamp |
| PullSbr.EventOutcome | data_pulls/pull_sbr_lines.py:147-250 | an event yields no row exactly when it fails to parse and is not event 73, which instead gets its fixed Jacksonville at Indianapolis record |
| PullSbr.PullSeason | data_pulls/pull_sbr_lines.py:147-250 | the loop over a season's events yields their rows in event order |
| PullSbr.PullEvents | data_pulls/pull_sbr_lines.py:75-250 | the loop over seasons yields each season's rows, season after season, up to the season end |
| PullSbr.SeasonRowsWellFormed | data_pulls/pull_sbr_lines.py:147-250 | every row carries its season, and is either a parsed row whose home team has the larger rotation number or the fixed record of event 73 |
| PullSbr.SeasonRowsCount | data_pulls/pull_sbr_lines.py:147-250 | each event yields at most one row, and exactly one when it parses or is event 73 |
| PullSbr.Unreplaced | data_pulls/pull_sbr_lines.py:286-295 | the saved rows kept are exactly those whose event id the new pull does not have |
| PullSbr.MergeRows | data_pulls/pull_sbr_lines.py:286-300 | the merged table is the kept saved rows followed by the new pull, and is the new pull alone on a first run |
| PullSbr.MergeIdempotent | data_pulls/pull_sbr_lines.py:286-300 | merging the same pull twice gives the same table as merging it once |
| PullSbr.UnreplacedOfKeptAndUpdate | data_pulls/pull_sbr_lines.py:286-300 | filtering rows already free of replaced ids, followed by the pull, leaves exactly those rows |
| PullSbr.UnreplacedAppend | data_pulls/pull_sbr_lines.py:290-295 | the filter distributes over concatenation |
| PullSbr.UnreplacedNone | data_pulls/pull_sbr_lines.py:290-295 | rows none of whose ids the pull has are all kept |
| PullSbr.UnreplacedAllReplaced | data_pulls/pull_sbr_lines.py:290-295 | rows every one of whose ids the pull has are all dropped |
| PullSbr.MergeEvents | data_pulls/pull_sbr_lines.py:284-300 | the saved event table keeps the events the pull does not replace, then the pull, in that order |
| PullSbr.MergeLineRows | data_pulls/pull_sbr_lines.py:410-430 | a pull that parsed no line raises KeyError on its missing eid column; otherwise the saved line table keeps exactly the lines of events the pull does not replace, then the pull, in that order |
| PullSbr.MergeLineRowsIdempotent | data_pulls/pull_sbr_lines.py:413-430 | whenever a line pull merges, merging it again gives the same table as merging it once |
| PullTfl.RegularWeeks | data_pulls/pull_tfl_lines.py:36-50 | a scrape covers 18 regular-season weeks from 2022 on and 17 before |
| PullTfl.UrlList | data_pulls/pull_tfl_lines.py:36-58 | the page list is one page per regular-season week, in week order, followed by the wildcard, division, conference and Super Bowl pages |
| PullTfl.Urls | data_pulls/pull_tfl_lines.py:36-58 | the two loops build exactly that page list |
| PullTfl.SplitAtWeekMarker | data_pulls/pull_tfl_lines.py:106 | splitting a weekly page's URL on "/week-" gives the base and the rest |
| PullTfl.FirstSegmentIsDigits | data_pulls/pull_tfl_lines.py:106 | the text before the first '/' of the rest is the week's digits |
| PullTfl.WeekOfWeekUrl | data_pulls/pull_tfl_lines.py:105-106 | a weekly page's URL gives back the week it was built for |
| PullTfl.WeekOfUrl | data_pulls/pull_tfl_lines.py:105-111 | the week of a page URL; PullTfl.WeekOfWeekUrl, PullTfl.WeekOfRoundUrl and PullTfl.UrlListWeeks state that it reads back the week of a weekly URL and the playoff week of a round URL |
| PullTfl.SpreadPlayoffWeek | data_pulls/pull_tfl_lines.py:107-111 | the spread scraper's playoff week by scrape year; PullTfl.PlayoffWeeksDisagree and FormatSpreads.IntendedPlayoffWeek state where it disagrees |
| PullTfl.WeekOfRoundUrl | data_pulls/pull_tfl_lines.py:105-111 | a playoff page's URL, which has no "week" in it, gets the playoff week |
| PullTfl.PiecesAvoidMarkers | data_pulls/pull_tfl_lines.py:41-56 | the site's URL pieces contain neither 'w' nor 'k', and no round name contains 'k' |
| PullTfl.UrlListWeeks | data_pulls/pull_tfl_lines.py:36-111 | the n-th weekly page's rows get week n and every round's rows get the playoff week |
| PullTfl.ParseMatchup | data_pulls/pull_tfl_lines.py:97-100 | the matchup cell parses only when it has an " @ " separator, and raises IndexError otherwise |
| PullTfl.ParseMatchupOfCell | data_pulls/pull_tfl_lines.py:97-100 | a cell `AWAY score @ HOME score` built from space-free names and scores parses back into them |
| PullTfl.PySlice | data_pulls/pull_tfl_lines.py:101-104 | a Python slice is never longer than its bounds allow, even past the end of the text |
| PullTfl.SeasonOfIsoDate | data_pulls/pull_tfl_lines.py:101-104 | a game dated January to June belongs to the previous season and one dated July to December to the current one |
| PullTfl.SeasonOfDate | data_pulls/pull_tfl_lines.py:101-104 | the season of a game date; PullTfl.SeasonOfIsoDate states that January to June belong to the previous season |
| PullTfl.ParseRow | data_pulls/pull_tfl_lines.py:89-125 | a parsed row is a spread row exactly for the spread pages, has the season of its date, the teams of its matchup cell and the week of its page, and parsing fails on a short row or an unparsable cell |
| PullTfl.PageErrorPersists | data_pulls/pull_tfl_lines.py:89-125 | once a row of a page raises, the rest of the page does not change the outcome |
| PullTfl.ScrapeErrorPersists | data_pulls/pull_tfl_lines.py:59-125 | once a page raises, the rest of the scrape does not change the outcome |
| PullTfl.ParsePage | data_pulls/pull_tfl_lines.py:82-125 | the loop over a page's odd then even rows returns the rows in that order or the first error |
| PullTfl.Scrape | data_pulls/pull_tfl_lines.py:59-126 | the loop over the pages returns every page's rows in page order, or the first error, including a page that could not be fetched twice |
| PullTfl.ScrapedRowsCarryPageWeeks | data_pulls/pull_tfl_lines.py:59-126 | every scraped row carries the week of one of the scraped pages |
| PullTfl.PageRowsCarryWeek | data_pulls/pull_tfl_lines.py:89-125 | every row of a page carries that page's week |
| PullTfl.ScrapeSpreads | data_pulls/pull_tfl_lines.py:32-126 | `scrape_spreads` scrapes the point-spread page list of the current year |
| PullTfl.ScrapeMoneylines | data_pulls/pull_tfl_lines.py:128-222 | `scrape_mls` scrapes the moneyline page list of the current year |
| PullTfl.RenameTeam | data_pulls/pull_tfl_lines.py:234-237 | a listed abbreviation is renamed and any other is kept |
| PullTfl.RenameRow | data_pulls/pull_tfl_lines.py:234-237 | renaming changes both teams of a row and nothing else |
| PullTfl.MatchMoneyline | data_pulls/pull_tfl_lines.py:239-245 | a spread row is matched with a moneyline row of the same season, week and teams, or with none exactly when no such row exists |
| PullTfl.MergeLines | data_pulls/pull_tfl_lines.py:231-245 | the left merge keeps one row per spread row, in order, renamed, each with its renamed moneyline match |
| PullTfl.RenameMoneylines | data_pulls/pull_tfl_lines.py:236-237 | renaming keeps every moneyline row in place |
| PullTfl.UnmatchedWeekHasNoMoneyline | data_pulls/pull_tfl_lines.py:239-245 | a spread row whose week no moneyline row has gets no moneylines |
| PullTfl.PlayoffWeeksDisagree | data_pulls/pull_tfl_lines.py:105-111 | from 2022 on a playoff spread page is labelled week 19, while the moneyline page of the same round is labelled week 18 by lines 201-204 |
| PullTfl.MoneylineWeeksAtMost18 | data_pulls/pull_tfl_lines.py:201-204 | no moneyline row has week 19, so the week-19 playoff spread rows never find their moneylines |
| PullTfl.PlayoffWeeksAgreeIntended | data_pulls/pull_tfl_lines.py:105-111 | with the spread scraper's playoff week used for moneylines too, both scrapers label every round alike in every year |
| PullPfr.IdFromUrl | data_pulls/pull_pfr_coaches.py:26-30 | a link has a coach id exactly when the part before `.htm` contains `/coaches/`; otherwise the IndexError is caught and the id is NaN |
| PullPfr.SplitHasTwoPiecesIffContains | data_pulls/pull_pfr_coaches.py:28 | a split yields a second piece exactly when the separator occurs |
| PullPfr.NoCoachesPathNoId | data_pulls/pull_pfr_coaches.py:26-30 | a link without `/coaches/` has no id |
| PullPfr.IdOfCoachUrl | data_pulls/pull_pfr_coaches.py:26-30 | the link `/coaches/ID.htm` of a coach page gives back ID |
| PullPfr.CellRow | data_pulls/pull_pfr_coaches.py:61-70 | a coach cell yields a row exactly when it has a link, and the row carries the first link's target and the id read from it |
| PullPfr.ScrapeCoaches | data_pulls/pull_pfr_coaches.py:50-79 | a failed request gives nothing; otherwise the rows of the linked coach cells in order, or nothing when there are none |
| PullPfr.CellRowsCarryIds | data_pulls/pull_pfr_coaches.py:61-70 | every scraped row carries its own link and the id read from it, and has no image fields |
| PullPfr.NewCoaches | data_pulls/pull_pfr_coaches.py:166-172 | the coaches added are at most the scraped ones, none already on the saved list, each with blank image fields |
| PullPfr.Merge | data_pulls/pull_pfr_coaches.py:156-179 | the saved list is kept unchanged and in order with the new coaches after it; on a first run every scraped row is kept, in order, with its image URL and last-checked fields blanked; a failed scrape raises |
| PullPfr.BlankAll | data_pulls/pull_pfr_coaches.py:159-161 | every scraped row gets blank image fields and nothing else changes |
| PullPfr.MergeAgainAddsNothing | data_pulls/pull_pfr_coaches.py:156-179 | merging the same scrape a second time adds no coach, provided every scraped row has an id |
| PullPfr.NewCoachesKnown | data_pulls/pull_pfr_coaches.py:156-179 | every scraped coach with an id is on the merged list, either saved before or added |
| PullPfr.KnownExtends | data_pulls/pull_pfr_coaches.py:166-172 | a coach on the saved list stays known when rows are appended |
| PullPfr.NewCoachesNoneKnown | data_pulls/pull_pfr_coaches.py:166-172 | when every scraped coach is already known, no coach is added |
| PullPfr.ApplyHeadshot | data_pulls/pull_pfr_coaches.py:115-146 | a row with a link that was never checked, or was last checked more than 365 days ago, gets the looked-up headshot and today's date; every other row is unchanged |
| PullPfr.HeadshotIdempotent | data_pulls/pull_pfr_coaches.py:115-146 | a row checked today is not looked up again the same day |
| PullPfr.HeadshotFresh | data_pulls/pull_pfr_coaches.py:115-146 | after the pass every row with a link was checked within the last 365 days |
| PullPfr.UpdateUrls | data_pulls/pull_pfr_coaches.py:149-153 | the headshot rule is applied to every row, in order |

## Left out

- Network requests, file and CSV reading and writing, configuration loading and printing. Fetched pages, loaded tables and configuration values are parameters.
- The scipy `minimize` and `basinhopping` searches. In the optimizer the search's answer is a parameter. In `calculate_wt_ratings.py`, `obj_func`, `obj_func_elo`, `optimize_season` and `update_wt_ratings` run such a search and are not modelled; their pure pieces (`construct_vars`, `apply_wins`, `score_opti`, `calc_sos`) are.
- The statsmodels OLS fit in formatting/game_data_merge.py:233. Its result is unused, because the margins use the frozen coefficients.
- `market_correl`, `adj_brier` and `ats_adj_brier` need correlations and sums over whole frames. They are parameters of the optimizer's objective.
- Floating-point rounding. All arithmetic is exact over `real`. Transcendental functions are fields of `Numerics.Math`, and each lemma requires only the laws it uses.
- The exponential of `Numerics.Math` may return any real, while the real exponential is positive. Lemmas that need positivity require it.
- Dates and timestamps are day numbers or opaque values. Date parsing is modelled only for the `YYYY-MM` prefix the TFL scraper reads.
- Python's `int()` accepts surrounding whitespace and underscores between digits. `Text.ParseInt` accepts only an optional sign and digits.
- `float()` on cell text is `Text.ParseDecimal`: an optional sign, digits and at most one decimal point. Exponents, `inf` and `nan` are not parsed.
- An `IndexError` from `.values[0]` or `.iloc[0]` on an empty selection is modelled as the same `KeyMissing` error as a `KeyError`.
- A merge that can match several rows is modelled as taking the first match. The code would duplicate the row; the tables it merges are deduplicated just before.
- The SBR scraper's game matching against nflfastR games and its retry-until-valid-response loop for lines are not modelled. The event rows and the eid-replacement merges are.
- The TFL scraper's cell cleaning (BeautifulSoup text extraction and newline removal), its 10-second retry pause, and the final sort by season and week. A page is given as the cleaned cell texts, or as `None` when both attempts failed.
- The TFL deduplication and the three excluded games in formatting/format_spreads.py:87-94. The formatter's input is taken after them.
- The Pro Bowl filter at formatting/game_data_merge.py:133-138 and the season filter at formatting/game_data_merge.py:108. Their input is taken as already filtered.
- WEPA's per-game aggregation (groupby and sums over plays) is not modelled. The game-level WEPA rows it produces are inputs.
- Missing keys in an SBR JSON event other than the rotation numbers and score values are not modelled. Every event is assumed to carry the fields the scraper reads.
- `numpy.isin` matching NaN against NaN is not modelled: a row without an id matches nothing. This agrees with pandas for the object columns involved.
- The numpy forms `SpreadTranslation.ProbToElo`, `Odds.ProbToElo` and `FormatSpreads.MarketEloDif` take `numpy.log10(1 / p - 1)`. A probability of exactly 0 makes it infinite, and the model reads that value as NaN (an error for the first two). A probability of exactly 1 gives +inf and one above 1 gives NaN; there the model applies its `log10` parameter to a non-positive argument and returns a number.
- The spread-multiples table is taken to have a win probability on every row, as the shipped table does, so its `Multiple` record holds a plain real.
- MarketRegression.InitialMrFactor: requires a non-negative `spread_delta_base`, which every configuration supplies. For a negative base the code's formula can divide by zero.
- EloShift.CalcShift: requires a logarithm base that is positive and not 1, so that the logarithm the code takes is defined.
- MarketRegression.RmseAdj: requires a non-zero `rmse_base`, through `MarketRegression.ValidConfig`, and every shipped configuration has one. With `rmse_base` 0 the code raises ZeroDivisionError, but only when the two lines differ by more than a point. The model does not represent that error.
- Spreads.ValidConfig: requires a non-zero `z`, and every shipped configuration has one. With `z` 0 the elo-to-probability division raises ZeroDivisionError, and the model does not represent that error.
- LegacyNfelo.ValidConfig: requires a non-zero `z` for the same reason as `Spreads.ValidConfig`.
- LegacyNfelo.UnroundedLine: takes `math.log10(p / max(1 - p, .001))`, which raises ValueError for a 538 or qbelo probability of 0 or below. The model applies its `log10` parameter and returns a number there.
- The final ordering of the projected spreads in models/calculate_spreads.py:649-690 is not modelled. The rows are sorted by `nfelo_spread_delta`, then by the larger of the two EVs. The model computes each row and keeps the input order.
- The save and print methods: `save_reversions`, `print_scores`, `save_scores`, `print_output`, `save_to_logs` and `save_team_file`. They only write or display results.
- `Nfelo.project_spreads` and `Nfelo.extend_updated_file` only assemble frames from loaded files around `project_week`, which is modelled.
- The table joins of the data loader (`add_market_info`, `add_wt_ratings`, `add_dvoa`, `add_wepa_margins`) and `NfeloAnalytics.compile` are not modelled. The row derivations applied after the joins are.
- NfeloRules.Advance: requires spans other than -1. It is not weaker than the code for that reason: `NfeloRules.ProcessValues` returns the ZeroDivisionError of nfelo/Model/Nfelo.py:259-260 for such a span, before any write, so no processed game reaches `Advance` with one. `LegacyNfelo.Rated` and `LegacyNfelo.SeRolled` require the same of their span, and `LegacyNfelo.Commit` raises first.
- NfeloRules.Game: the open and close market rating differences, the two lines, and the hfa, home-bye and away-bye modifiers are plain reals, so the engine assumes the loader filled them. `DataLoader.ImpliedEloDif` and `DataLoader.ToElo` can produce NaN for them, and a NaN there is not represented.
- NfeloRules.ProjectFromStart: a NaN market difference or modifier would spread through nfelo/Model/Nfelo.py:141-171 into the regressed differences, probabilities and lines. The model does not represent that, because its `Game` holds those values as plain reals.
- Spreads.AddLines: the most recent and the previous rating of each team (`get_most_recent_elo_values`, `get_last_recent_elo_values`) are inputs, not computed from the rating file.

## Findings

Confidence "not executed" means that no input was run through the program. The input is derived from the code and proved on the model.

| source | as written | input that shows it | evidently intended | confidence | as-written member | corrected member |
|---|---|---|---|---|---|---|
| nfelo/Model/Nfelo.py:291 | the home team's opponent is set to the home team, and the away team's opponent is never set | any processed game: afterwards the home team's opponent is itself and the away team keeps its previous opponent | each team's opponent is the other team | not executed | NfeloRules.OpponentAsWritten | NfeloRules.OpponentIntended |
| nfelo/Model/Nfelo.py:177-179 | the regressed open and close probabilities call `elo_to_prob` with its default z of 400 | configured z = 200 and a regressed difference of 400: the code gives 1 / (10^-1 + 1) = 10/11 where the configured z gives 1 / (10^-2 + 1) = 100/101 | use the configured z, as the base probability does | not executed | NfeloRules.RegressedProbabilityIgnoresConfiguredZ | NfeloRules.RegressedProbabilityIntended |
| nfelo/Model/Nfelo.py:253-254 | the squared error is (margin - line) squared, although a home line is the negated expected margin | a 3-point home win on a line of -3 (a perfect line) scores 36 instead of 0 | (margin + line) squared, as NfeloGraderModel and the legacy engine compute it | not executed | NfeloRules.SeAsWrittenPenalisesPerfectLine | NfeloRules.SeIntendedZeroIffPerfect |
| nfelo/Utilities/market_regression.py:147-151 | `rmse_adj` is called with the market line in both line positions | any rolling errors: the RMSE term is always 1, so the errors never affect the regression | compare the model line with the market line | not executed | MarketRegression.RmseTermIsOneAsWritten | MarketRegression.IntendedRmseTermReactsToErrors |
| models/calculate_nfelo.py:734-742 | the away team's weighted shift uses the home team's WEPA shift | only the WEPA weight set, and a home WEPA margin above expectation: both teams move up although the away team fell short | use the away team's own WEPA shift | not executed | LegacyNfelo.WepaHomeLeaksIntoAway | LegacyNfelo.WepaOnlySigns |
| nfelo/Utilities/scoring_brier.py:25 | a trailing comma makes the home-win branch return a one-element tuple | probability 0.7 and margin 3 give (16,) instead of 16 | return the number on both branches | not executed | Scoring.BrierScoreNumberTupleOnHomeWin | Scoring.BrierScoreNumberIntended |
| nfelo/Utilities/spread_translation.py:67-71 | the scalar translation clamps with `min(table minimum, max(table maximum, spread))`, so every spread maps to the table minimum | the table's largest spread gets the smallest spread's probability whenever the two differ | clip into the table's range, as the vector form does | not executed | SpreadTranslation.SpreadFloatDisagreesWithVector | SpreadTranslation.SpreadToProbabilityFloatIntended |
| models/calculate_wepa.py:35-46 | the clause `(wp < .90) or (wp > .10)` holds for every known win probability | a neutral second-down run at wp = 0.99 or wp = 0.01 still gets the neutral weight | a win probability strictly between 0.10 and 0.90 | not executed | Wepa.WinProbabilityClauseIsVacuous | Wepa.IntendedNeutralExcludesLopsided |
| data_pulls/pull_tfl_lines.py:201-204 | the moneyline scraper labels playoff pages week 18 in every year, while the spread scraper uses week 19 from 2022 on | from 2022 on, no playoff spread row finds its moneylines in the merge | the spread scraper's playoff week for both | not executed | PullTfl.PlayoffWeeksDisagree | PullTfl.PlayoffWeeksAgreeIntended |
| models/calculate_spreads.py:190-195 | the next season and the next week are the minima over all unplayed games, taken separately | the last regular week of one season and week 1 of the next are unplayed: week 1 of the earlier, already played season is selected | the earliest unplayed week within the earliest unplayed season | not executed | Spreads.CurrentWeekCanSelectPlayedWeek | Spreads.CurrentWeekIntendedIsNextWeek |
| data_pulls/pull_tfl_lines.py:107-111 | the spread scraper labels every playoff page week 19 or 18 by the year of the scrape, and every run rescrapes all seasons | scraped in 2024, a 2019 playoff row gets week 19, which formatting/format_spreads.py:74-86 types `reg` for a season before 2021 | label a playoff row by its own season: 19 from the 2021 season on, 18 before | not executed | FormatSpreads.TflPlayoffRowsAsWritten | FormatSpreads.TflPlayoffWeekIntendedIsPost |
