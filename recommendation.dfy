/**
 * The advice list built from the three classification labels and the
 * predicted yield loss. The labels arrive as text, as the application passes
 * them; text that is not one of the recognised labels contributes nothing.
 */
module Recommendation {

  import opened Classification

  // ---------------------------------------------------------------------------
  // The advice messages
  // ---------------------------------------------------------------------------

  const MildAdvice: string := "Increase irrigation slightly and monitor crop daily."
  const ModerateAdvice: string := "Apply irrigation in split cycles and avoid midday watering."
  const SevereAdvice: string := "Immediate irrigation required to prevent crop damage."
  const ReduceAdvice: string := "Reduce irrigation quantity by 20–30%."
  const RainAdvice: string := "Avoid irrigation when rainfall is expected."
  const AdjustAdvice: string := "Adjust irrigation based on crop stage and soil condition."
  const LossRiskAdvice: string := "High income loss risk detected. Correct irrigation immediately."
  const OptimalAdvice: string := "Current irrigation practice is optimal."

  /** A predicted loss strictly above this is a high income loss risk. */
  const LossRiskThreshold: real := 10.0

  /** Every message the advisor can give, in the order it gives them. */
  const Catalogue: seq<string> :=
    [MildAdvice, ModerateAdvice, SevereAdvice, ReduceAdvice, RainAdvice, AdjustAdvice, LossRiskAdvice]

  const StressMessages: set<string> := {MildAdvice, ModerateAdvice, SevereAdvice}

  // ---------------------------------------------------------------------------
  // When each piece of advice fires
  // ---------------------------------------------------------------------------

  predicate StressFires(stress: string) {
    ParseStress(stress).Some? && ParseStress(stress).value != NoStress
  }

  predicate WastageFires(wastage: string) {
    ParseWastage(wastage) == Some(MediumWastage) || ParseWastage(wastage) == Some(HighWastage)
  }

  predicate UniformityFires(irrigationType: string) {
    ParseIrrigationType(irrigationType) == Some(NonUniform)
  }

  predicate LossFires(loss: real) {
    loss > LossRiskThreshold
  }

  predicate AnyFires(stress: string, wastage: string, irrigationType: string, loss: real) {
    StressFires(stress) || WastageFires(wastage) || UniformityFires(irrigationType) || LossFires(loss)
  }

  function Ind(c: bool): nat {
    if c then 1 else 0
  }

  /** How many messages the four conditions contribute together. */
  function FiredCount(stress: string, wastage: string, irrigationType: string, loss: real): nat {
    Ind(StressFires(stress)) + 2 * Ind(WastageFires(wastage))
    + Ind(UniformityFires(irrigationType)) + Ind(LossFires(loss))
  }

  // ---------------------------------------------------------------------------
  // The advice list as a value
  // ---------------------------------------------------------------------------

  function StressAdvice(stress: string): (r: seq<string>)
    ensures |r| == Ind(StressFires(stress))
  {
    match ParseStress(stress)
    case Some(MildStress) => [MildAdvice]
    case Some(ModerateStress) => [ModerateAdvice]
    case Some(SevereStress) => [SevereAdvice]
    case _ => []
  }

  function WastageAdvice(wastage: string): (r: seq<string>)
    ensures |r| == 2 * Ind(WastageFires(wastage))
  {
    if WastageFires(wastage) then [ReduceAdvice, RainAdvice] else []
  }

  function UniformityAdvice(irrigationType: string): (r: seq<string>)
    ensures |r| == Ind(UniformityFires(irrigationType))
  {
    if UniformityFires(irrigationType) then [AdjustAdvice] else []
  }

  function LossAdvice(loss: real): (r: seq<string>)
    ensures |r| == Ind(LossFires(loss))
  {
    if LossFires(loss) then [LossRiskAdvice] else []
  }

  /**
   * The advice for one assessment: each condition's messages in the fixed
   * order stress, wastage, uniformity, loss; the optimal message alone when
   * no condition fires.
   */
  function Advice(stress: string, wastage: string, irrigationType: string, loss: real): seq<string> {
    var fired := StressAdvice(stress) + WastageAdvice(wastage)
                 + UniformityAdvice(irrigationType) + LossAdvice(loss);
    if fired == [] then [OptimalAdvice] else fired
  }

  // ---------------------------------------------------------------------------
  // The advice list as the application builds it
  // ---------------------------------------------------------------------------

  /**
   * Starts from an empty list and appends each condition's messages in turn,
   * falling back to the optimal message when nothing was appended.
   */
  method Recommendations(stress: string, wastage: string, irrigationType: string, loss: real)
    returns (rec: seq<string>)
    ensures rec == Advice(stress, wastage, irrigationType, loss)
    ensures |rec| == if AnyFires(stress, wastage, irrigationType, loss)
                     then FiredCount(stress, wastage, irrigationType, loss) else 1
    ensures OptimalAdvice in rec <==> !AnyFires(stress, wastage, irrigationType, loss)
    ensures OptimalAdvice in rec ==> rec == [OptimalAdvice]
  {
    // After each step, an assertion names the part of `Advice` built so far;
    // without these the proof does not fit the resource limit.
    rec := [];

    if stress == "Mild Stress" {
      rec := rec + [MildAdvice];
    } else if stress == "Moderate Stress" {
      rec := rec + [ModerateAdvice];
    } else if stress == "Severe Stress" {
      rec := rec + [SevereAdvice];
    }
    assert rec == StressAdvice(stress);
    ghost var afterStress := rec;

    if wastage in ["Medium Wastage", "High Wastage"] {
      rec := rec + [ReduceAdvice];
      rec := rec + [RainAdvice];
    }
    assert rec == afterStress + WastageAdvice(wastage);
    ghost var afterWastage := rec;

    if irrigationType == "Non-Uniform Irrigation" {
      rec := rec + [AdjustAdvice];
    }
    assert rec == afterWastage + UniformityAdvice(irrigationType);
    ghost var afterUniformity := rec;

    if loss > LossRiskThreshold {
      rec := rec + [LossRiskAdvice];
    }
    assert rec == afterUniformity + LossAdvice(loss);

    if rec == [] {
      rec := rec + [OptimalAdvice];
    }
  }

  // ---------------------------------------------------------------------------
  // Properties of the advice list
  // ---------------------------------------------------------------------------

  /** One entry per fired message, or the single fallback entry. */
  lemma AdviceLength(stress: string, wastage: string, irrigationType: string, loss: real)
    ensures |Advice(stress, wastage, irrigationType, loss)|
            == if AnyFires(stress, wastage, irrigationType, loss)
               then FiredCount(stress, wastage, irrigationType, loss) else 1
    ensures |Advice(stress, wastage, irrigationType, loss)| >= 1
  {
  }

  /** The optimal message is given exactly when nothing else is, and then alone. */
  lemma OptimalExactlyWhenNothingFires(stress: string, wastage: string, irrigationType: string, loss: real)
    ensures OptimalAdvice in Advice(stress, wastage, irrigationType, loss)
            <==> !AnyFires(stress, wastage, irrigationType, loss)
    ensures !AnyFires(stress, wastage, irrigationType, loss)
            ==> Advice(stress, wastage, irrigationType, loss) == [OptimalAdvice]
  {
  }

  /** Each message is given exactly when its own condition holds. */
  lemma MessageExactlyWhenItsConditionHolds(stress: string, wastage: string, irrigationType: string, loss: real)
    ensures MildAdvice in Advice(stress, wastage, irrigationType, loss) <==> stress == "Mild Stress"
    ensures ModerateAdvice in Advice(stress, wastage, irrigationType, loss) <==> stress == "Moderate Stress"
    ensures SevereAdvice in Advice(stress, wastage, irrigationType, loss) <==> stress == "Severe Stress"
    ensures ReduceAdvice in Advice(stress, wastage, irrigationType, loss) <==> WastageFires(wastage)
    ensures RainAdvice in Advice(stress, wastage, irrigationType, loss) <==> WastageFires(wastage)
    ensures AdjustAdvice in Advice(stress, wastage, irrigationType, loss)
            <==> irrigationType == "Non-Uniform Irrigation"
    ensures LossRiskAdvice in Advice(stress, wastage, irrigationType, loss) <==> loss > LossRiskThreshold
  {
    var s := StressAdvice(stress);
    var w := WastageAdvice(wastage);
    var u := UniformityAdvice(irrigationType);
    var l := LossAdvice(loss);
    var fired := s + w + u + l;
    assert Advice(stress, wastage, irrigationType, loss) == if fired == [] then [OptimalAdvice] else fired;
    assert forall m :: m in fired <==> m in s || m in w || m in u || m in l;
    assert MildAdvice in s <==> stress == "Mild Stress";
    assert ModerateAdvice in s <==> stress == "Moderate Stress";
    assert SevereAdvice in s <==> stress == "Severe Stress";
    assert ReduceAdvice in w <==> WastageFires(wastage);
    assert RainAdvice in w <==> WastageFires(wastage);
    assert AdjustAdvice in u <==> irrigationType == "Non-Uniform Irrigation";
    assert LossRiskAdvice in l <==> loss > LossRiskThreshold;
  }

  /** A loss of exactly the threshold is not a risk; anything above it is. */
  lemma LossTestIsStrict(stress: string, wastage: string, irrigationType: string, loss: real)
    ensures LossRiskAdvice !in Advice(stress, wastage, irrigationType, LossRiskThreshold)
    ensures loss > LossRiskThreshold ==>
      Advice(stress, wastage, irrigationType, loss)[|Advice(stress, wastage, irrigationType, loss)| - 1]
      == LossRiskAdvice
  {
  }

  /** At most one stress message is given, and it comes first. */
  lemma StressMessageFirstAndAlone(stress: string, wastage: string, irrigationType: string, loss: real)
    ensures forall i :: (0 <= i < |Advice(stress, wastage, irrigationType, loss)|
                         && Advice(stress, wastage, irrigationType, loss)[i] in StressMessages) ==> i == 0
  {
  }

  /** `s` is `t` with some entries deleted, the rest in their original order. */
  predicate IsSubsequence(s: seq<string>, t: seq<string>)
    decreases |t|
  {
    if t == [] then s == []
    else (s != [] && s[0] == t[0] && IsSubsequence(s[1..], t[1..])) || IsSubsequence(s, t[1..])
  }

  lemma {:induction false} SubsequenceOfSelf(s: seq<string>)
    ensures IsSubsequence(s, s)
    decreases |s|
  {
    if s != [] {
      SubsequenceOfSelf(s[1..]);
    }
  }

  lemma {:induction false} EmptyIsSubsequence(t: seq<string>)
    ensures IsSubsequence([], t)
    decreases |t|
  {
    if t != [] {
      EmptyIsSubsequence(t[1..]);
    }
  }

  /** Subsequences of consecutive pieces join into a subsequence of the whole. */
  lemma {:induction false} SubsequenceConcat(s1: seq<string>, t1: seq<string>, s2: seq<string>, t2: seq<string>)
    requires IsSubsequence(s1, t1) && IsSubsequence(s2, t2)
    ensures IsSubsequence(s1 + s2, t1 + t2)
    decreases |t1|
  {
    if t1 == [] {
      assert s1 + s2 == s2;
      assert t1 + t2 == t2;
    } else {
      assert (t1 + t2)[0] == t1[0];
      assert (t1 + t2)[1..] == t1[1..] + t2;
      if s1 != [] && s1[0] == t1[0] && IsSubsequence(s1[1..], t1[1..]) {
        SubsequenceConcat(s1[1..], t1[1..], s2, t2);
        assert (s1 + s2)[0] == s1[0];
        assert (s1 + s2)[1..] == s1[1..] + s2;
      } else {
        SubsequenceConcat(s1, t1[1..], s2, t2);
      }
    }
  }

  /** A single stress message is a subsequence of the three stress messages. */
  lemma StressAdviceInOrder(stress: string)
    ensures IsSubsequence(StressAdvice(stress), [MildAdvice, ModerateAdvice, SevereAdvice])
  {
    var m := StressAdvice(stress);
    EmptyIsSubsequence([SevereAdvice]);
    EmptyIsSubsequence([ModerateAdvice, SevereAdvice]);
    EmptyIsSubsequence([MildAdvice, ModerateAdvice, SevereAdvice]);
    EmptyIsSubsequence([]);
    if m == [ModerateAdvice] {
      assert IsSubsequence(m, [ModerateAdvice, SevereAdvice]);
    } else if m == [SevereAdvice] {
      assert IsSubsequence(m, [SevereAdvice]);
      assert IsSubsequence(m, [ModerateAdvice, SevereAdvice]);
    }
  }

  /**
   * Whatever is given, apart from the fallback, follows the fixed order of the
   * catalogue.
   */
  lemma AdviceFollowsCatalogue(stress: string, wastage: string, irrigationType: string, loss: real)
    requires AnyFires(stress, wastage, irrigationType, loss)
    ensures IsSubsequence(Advice(stress, wastage, irrigationType, loss), Catalogue)
  {
    var s := StressAdvice(stress);
    var w := WastageAdvice(wastage);
    var u := UniformityAdvice(irrigationType);
    var l := LossAdvice(loss);
    var cs := [MildAdvice, ModerateAdvice, SevereAdvice];
    var cw := [ReduceAdvice, RainAdvice];
    var cu := [AdjustAdvice];
    var cl := [LossRiskAdvice];
    assert Catalogue == cs + cw + cu + cl;
    StressAdviceInOrder(stress);
    EmptyIsSubsequence(cw);
    EmptyIsSubsequence(cu);
    EmptyIsSubsequence(cl);
    SubsequenceOfSelf(cw);
    SubsequenceOfSelf(cu);
    SubsequenceOfSelf(cl);
    SubsequenceConcat(s, cs, w, cw);
    SubsequenceConcat(s + w, cs + cw, u, cu);
    SubsequenceConcat(s + w + u, cs + cw + cu, l, cl);
  }

  /** No message is given twice. */
  lemma AdviceHasNoRepeats(stress: string, wastage: string, irrigationType: string, loss: real)
    ensures forall i, j :: 0 <= i < j < |Advice(stress, wastage, irrigationType, loss)| ==>
              Advice(stress, wastage, irrigationType, loss)[i] != Advice(stress, wastage, irrigationType, loss)[j]
  {
  }

  /** With no stress, no costly wastage, uniform irrigation and low loss: only the optimal message. */
  lemma AllClearIsOptimal()
    ensures Advice("No Stress", "No Wastage", "Uniform Irrigation", 0.0) == [OptimalAdvice]
  {
  }

  /** The worst case gives all five messages in order, and not the optimal one. */
  lemma WorstCaseGivesEveryWarning()
    ensures Advice("Severe Stress", "High Wastage", "Non-Uniform Irrigation", 15.0)
            == [SevereAdvice, ReduceAdvice, RainAdvice, AdjustAdvice, LossRiskAdvice]
    ensures OptimalAdvice !in Advice("Severe Stress", "High Wastage", "Non-Uniform Irrigation", 15.0)
  {
  }
}
