# Irrigation risk advisor — decision logic

This project models the decision logic of a small irrigation advisor. The
advisor takes a field's irrigation, rainfall and crop water requirement and
computes the water balance: water supplied minus water needed. It sorts a
deficit into one of four crop-stress levels and a surplus into one of four
water-wastage levels. It checks whether the irrigation is uniform (it exactly
matches the need, with no rain). From these labels and a predicted yield loss
it builds an ordered list of advice messages.

- `Classification` (`classification.dfy`): the label datatypes, their exact
  texts, the water balance, the two band classifications and the uniformity
  test. Each band function is proved against a band table (`InStressBand`,
  `InWastageBand`); the table's bands are proved not to overlap, and the
  classifications are proved monotone.
- `Recommendation` (`recommendation.dfy`): the advice messages and
  `Recommendations`. That method builds the list the way the application
  does: it starts empty, appends under each condition in turn, and falls back
  to the optimal message. It is proved equal to `Advice`, which writes the
  same list as a join of four independent parts. Lemmas about `Advice` cover
  length, the fallback, membership, order and the strict loss test.
- `Pipeline` (`pipeline.dfy`): one assessment from the inputs to the advice
  (`Assess`), with end-to-end lemmas.

The labels reach the advice builder as text, the way the application passes
them. Any text that is not one of the recognised labels adds no advice. For
example, an irrigation-type text other than `"Non-Uniform Irrigation"` adds no
uniformity advice. The predicted loss is an unconstrained `real` parameter.
Balances and inputs are exact `real`s.

## Model

| member | source | states |
|---|---|---|
| Classification.StressLabel | app1.py:29-37 | the exact texts returned for the four stress levels; no contract of its own, its properties (each text reads back as its level, so the texts are distinct) are stated by LabelsRoundTrip |
| Classification.WastageLabel | app1.py:39-47 | the exact texts returned for the four wastage levels; no contract of its own, its properties are stated by LabelsRoundTrip |
| Classification.IrrigationTypeLabel | app1.py:49-52 | the exact texts returned for the two irrigation types; no contract of its own, its properties are stated by LabelsRoundTrip |
| Classification.ParseStress | app1.py:57-62 | a stress text is recognised only when it is exactly one of the four stress labels |
| Classification.ParseWastage | app1.py:64 | a wastage text is recognised only when it is exactly one of the four wastage labels |
| Classification.ParseIrrigationType | app1.py:68 | an irrigation-type text is recognised only when it is exactly one of the two labels |
| Classification.LabelsRoundTrip | app1.py:29-52 | every label text reads back as its own label, so no two labels share a text |
| Classification.WaterBalance | app1.py:102 | the balance is negative exactly when supply is below need, and zero exactly when they are equal |
| Classification.StressRank | app1.py:29-37 | one rank per stress level; no contract of its own, the order is proved by StressMonotone |
| Classification.CropStress | app1.py:29-37 | the level returned is one whose band holds the balance: no stress for b ≥ 0, mild for −3 ≤ b < 0, moderate for −6 ≤ b < −3, severe for b < −6 |
| Classification.StressBandIsClass | app1.py:29-37 | the stress bands do not overlap: any level whose band holds b is the level returned, so every real falls in exactly one band |
| Classification.StressBoundaries | app1.py:30-36 | ties go to the less severe band: 0 → no stress, −3 → mild, −6 → moderate; −6.01 is severe |
| Classification.StressMonotone | app1.py:29-37 | a larger deficit never gives a milder stress level |
| Classification.WastageRank | app1.py:39-47 | one rank per wastage level; no contract of its own, the order is proved by WastageMonotone |
| Classification.WaterWastage | app1.py:39-47 | the level returned is one whose band holds the balance: none for b ≤ 0, low for 0 < b ≤ 3, medium for 3 < b ≤ 6, high for b > 6 |
| Classification.WastageBandIsClass | app1.py:39-47 | the wastage bands do not overlap: any level whose band holds b is the level returned |
| Classification.WastageBoundaries | app1.py:40-46 | ties go to the lower band: 0 → none, 3 → low, 6 → medium; 6.01 is high |
| Classification.WastageMonotone | app1.py:39-47 | a larger surplus never gives a lower wastage level |
| Classification.StressAndWastageExclusive | app1.py:29-47 | stress other than none occurs exactly when b < 0, and wastage other than none exactly when b > 0, so the two never occur together; at 0 both are none |
| Classification.IrrigationTypeOf | app1.py:49-52 | uniform exactly when irrigation equals crop need and rainfall is zero, by exact equality; otherwise non-uniform |
| Classification.UniformIsBalanced | app1.py:49-52 | uniform irrigation has a zero balance, so it comes with no stress and no wastage |
| Classification.BalancedNeedNotBeUniform | app1.py:49-52 | the converse fails: irrigation 11, rain 1, need 12 has a zero balance but is non-uniform |
| Recommendation.StressAdvice | app1.py:57-62 | the stress part holds one message when the stress text is mild, moderate or severe, and none otherwise |
| Recommendation.WastageAdvice | app1.py:64-66 | the wastage part holds two messages for medium or high wastage, and none otherwise |
| Recommendation.UniformityAdvice | app1.py:68-69 | the uniformity part holds one message exactly for the non-uniform text |
| Recommendation.LossAdvice | app1.py:71-72 | the loss part holds one message exactly when loss > 10 |
| Recommendation.Advice | app1.py:54-77 | the advice list as a value: the stress, wastage, uniformity and loss parts joined in that order, or the optimal message alone; no contract of its own, its properties are stated by AdviceLength, MessageExactlyWhenItsConditionHolds and AdviceFollowsCatalogue |
| Recommendation.Recommendations | app1.py:54-77 | the list built by appending equals `Advice`; its length is the fired count, or 1 when nothing fired; the optimal message is in it exactly when nothing fired, and then it is the only entry |
| Recommendation.AdviceLength | app1.py:55-75 | length = [stress fires] + 2·[medium or high wastage] + [non-uniform] + [loss > 10], or 1 when that is 0; never empty |
| Recommendation.OptimalExactlyWhenNothingFires | app1.py:74-75 | the optimal message appears exactly when no stress, wastage, uniformity or loss condition fired, and then it is the whole list |
| Recommendation.MessageExactlyWhenItsConditionHolds | app1.py:57-72 | each advice message is in the list exactly when its own condition holds (both directions) |
| Recommendation.LossTestIsStrict | app1.py:71-72 | a loss of exactly 10 gives no loss-risk message; any loss above 10 makes it the last entry |
| Recommendation.StressMessageFirstAndAlone | app1.py:57-62 | at most one stress message is given, and it is the first entry |
| Recommendation.StressAdviceInOrder | app1.py:57-62 | the stress part is a subsequence of [mild, moderate, severe] messages |
| Recommendation.AdviceFollowsCatalogue | app1.py:57-72 | apart from the fallback, the list is a subsequence of the fixed order: stress messages, the two wastage messages, adjust, loss risk |
| Recommendation.AdviceHasNoRepeats | app1.py:55-77 | no message appears twice in the list |
| Recommendation.AllClearIsOptimal | app1.py:74-75 | no stress, no wastage, uniform irrigation and loss 0 give exactly the optimal message |
| Recommendation.WorstCaseGivesEveryWarning | app1.py:57-72 | severe stress, high wastage, non-uniform irrigation and loss 15 give the five warnings in order, without the optimal message |
| Pipeline.Assess | app1.py:102-112 | one assessment: balance, the three labels, and the advice for the labels' texts and the loss; no contract of its own, its properties are stated by OptimalExactlyWhenUniformAndLowLoss, AdviceLengthFromInputs and StressAndWastageAdviceExclusive |
| Pipeline.OptimalExactlyWhenUniformAndLowLoss | app1.py:102-112 | end to end, the optimal message appears exactly when irrigation equals need, rainfall is 0 and loss ≤ 10, and then alone |
| Pipeline.StressAndWastageAdviceExclusive | app1.py:102-112 | end to end, a stress message and the wastage-reduction message are never both given |
| Pipeline.AdviceLengthFromInputs | app1.py:102-112 | end to end, length = [b < 0] + 2·[b > 3] + [non-uniform] + [loss > 10], or 1 when that is 0 |
| Pipeline.SurplusScenario | app1.py:102-112 | irrigation 20, rain 0, need 13 give balance 7, no stress, high wastage and non-uniform; the list starts with both wastage messages and the adjust message, and it never has the optimal message, whatever the loss |

## Left out

- Model training and prediction (app1.py:9-24, 101): a random-forest regressor from a foreign library. The model does not capture it; the predicted loss is an unconstrained `real` parameter, and temperature and humidity, which only feed the prediction, do not appear.
- The user interface (app1.py:82-113): page setup, input widgets and their ranges, the button and the display. It is presentation and I/O. `Pipeline.Assess` models only the data flow from the inputs to the labels and the advice (lines 102, 105-107, 111-112).
- The income-loss display `round(loss * 200, 2)` (app1.py:108): decimal rounding of a float, used only for display.
- Floating-point behaviour: the balance sum and the exact-equality test in the uniformity check (app1.py:50, 102) are exact real arithmetic here, not IEEE-754 doubles.
