/**
 * One assessment from the field's inputs to the advice: the balance is
 * derived from irrigation, rainfall and the crop's need, classified, and the
 * labels' texts are handed to the advice builder together with the predicted
 * loss. The prediction itself comes from a trained model and is a parameter
 * here; temperature and humidity only feed that model, so they do not appear.
 */
module Pipeline {

  import opened Classification
  import opened Recommendation

  datatype Assessment = Assessment(
    stress: Stress,
    wastage: Wastage,
    irrigationType: IrrigationType,
    advice: seq<string>)

  function Assess(irrigation: real, rainfall: real, cropNeed: real, loss: real): Assessment {
    var b := WaterBalance(irrigation, rainfall, cropNeed);
    var s := CropStress(b);
    var w := WaterWastage(b);
    var t := IrrigationTypeOf(irrigation, cropNeed, rainfall);
    Assessment(s, w, t, Advice(StressLabel(s), WastageLabel(w), IrrigationTypeLabel(t), loss))
  }

  /**
   * End to end, the optimal message appears exactly when the irrigation is
   * uniform and the predicted loss is no risk: non-uniform irrigation always
   * draws the adjust message, and uniform irrigation has a zero balance.
   */
  lemma OptimalExactlyWhenUniformAndLowLoss(irrigation: real, rainfall: real, cropNeed: real, loss: real)
    ensures OptimalAdvice in Assess(irrigation, rainfall, cropNeed, loss).advice
            <==> irrigation == cropNeed && rainfall == 0.0 && loss <= LossRiskThreshold
    ensures OptimalAdvice in Assess(irrigation, rainfall, cropNeed, loss).advice
            ==> Assess(irrigation, rainfall, cropNeed, loss).advice == [OptimalAdvice]
  {
  }

  /** The advice never both relieves stress and cuts back wasted water. */
  lemma StressAndWastageAdviceExclusive(irrigation: real, rainfall: real, cropNeed: real, loss: real)
    ensures !(exists m :: m in StressMessages && m in Assess(irrigation, rainfall, cropNeed, loss).advice)
            || ReduceAdvice !in Assess(irrigation, rainfall, cropNeed, loss).advice
  {
  }

  /**
   * The number of messages in terms of the inputs: one for a deficit, two for
   * a surplus above 3, one for non-uniform irrigation, one for a loss above
   * the threshold, and the single fallback when that comes to zero.
   */
  lemma AdviceLengthFromInputs(irrigation: real, rainfall: real, cropNeed: real, loss: real)
    ensures |Assess(irrigation, rainfall, cropNeed, loss).advice|
            == (var n := Ind(WaterBalance(irrigation, rainfall, cropNeed) < 0.0)
                         + 2 * Ind(WaterBalance(irrigation, rainfall, cropNeed) > 3.0)
                         + Ind(!(irrigation == cropNeed && rainfall == 0.0))
                         + Ind(loss > LossRiskThreshold);
                if n == 0 then 1 else n)
  {
  }

  /**
   * Irrigation 20, no rain and a need of 13 give a balance of 7: no stress,
   * high wastage, non-uniform irrigation, so both wastage messages and the
   * adjust message are given and the optimal one is not, whatever the loss.
   */
  lemma SurplusScenario(loss: real)
    ensures WaterBalance(20.0, 0.0, 13.0) == 7.0
    ensures Assess(20.0, 0.0, 13.0, loss).stress == NoStress
    ensures Assess(20.0, 0.0, 13.0, loss).wastage == HighWastage
    ensures Assess(20.0, 0.0, 13.0, loss).irrigationType == NonUniform
    ensures Assess(20.0, 0.0, 13.0, loss).advice[..3] == [ReduceAdvice, RainAdvice, AdjustAdvice]
    ensures OptimalAdvice !in Assess(20.0, 0.0, 13.0, loss).advice
  {
  }
}
