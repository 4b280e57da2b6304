/**
 * The water balance of a field and the three classifications derived from it:
 * crop stress (how large a deficit is), water wastage (how large a surplus is)
 * and irrigation uniformity. Each classification is a label datatype and a
 * function that maps it to the exact text the application displays and
 * compares against.
 */
module Classification {

  datatype Option<T> = None | Some(value: T)

  /** Crop stress, ordered by increasing water deficit. */
  datatype Stress = NoStress | MildStress | ModerateStress | SevereStress

  /** Water wastage, ordered by increasing water surplus. */
  datatype Wastage = NoWastage | LowWastage | MediumWastage | HighWastage

  datatype IrrigationType = Uniform | NonUniform

  // ---------------------------------------------------------------------------
  // Labels as text
  // ---------------------------------------------------------------------------

  function StressLabel(s: Stress): string {
    match s
    case NoStress => "No Stress"
    case MildStress => "Mild Stress"
    case ModerateStress => "Moderate Stress"
    case SevereStress => "Severe Stress"
  }

  function WastageLabel(w: Wastage): string {
    match w
    case NoWastage => "No Wastage"
    case LowWastage => "Low Wastage"
    case MediumWastage => "Medium Wastage"
    case HighWastage => "High Wastage"
  }

  function IrrigationTypeLabel(t: IrrigationType): string {
    match t
    case Uniform => "Uniform Irrigation"
    case NonUniform => "Non-Uniform Irrigation"
  }

  /** Reads a stress label back; any other text is not a stress level. */
  function ParseStress(text: string): (r: Option<Stress>)
    ensures r.Some? ==> StressLabel(r.value) == text
  {
    if text == "No Stress" then Some(NoStress)
    else if text == "Mild Stress" then Some(MildStress)
    else if text == "Moderate Stress" then Some(ModerateStress)
    else if text == "Severe Stress" then Some(SevereStress)
    else None
  }

  function ParseWastage(text: string): (r: Option<Wastage>)
    ensures r.Some? ==> WastageLabel(r.value) == text
  {
    if text == "No Wastage" then Some(NoWastage)
    else if text == "Low Wastage" then Some(LowWastage)
    else if text == "Medium Wastage" then Some(MediumWastage)
    else if text == "High Wastage" then Some(HighWastage)
    else None
  }

  function ParseIrrigationType(text: string): (r: Option<IrrigationType>)
    ensures r.Some? ==> IrrigationTypeLabel(r.value) == text
  {
    if text == "Uniform Irrigation" then Some(Uniform)
    else if text == "Non-Uniform Irrigation" then Some(NonUniform)
    else None
  }

  /** Every label reads back as itself, so no two labels share a text. */
  lemma LabelsRoundTrip(s: Stress, w: Wastage, t: IrrigationType)
    ensures ParseStress(StressLabel(s)) == Some(s)
    ensures ParseWastage(WastageLabel(w)) == Some(w)
    ensures ParseIrrigationType(IrrigationTypeLabel(t)) == Some(t)
  {
  }

  // ---------------------------------------------------------------------------
  // Water balance
  // ---------------------------------------------------------------------------

  /**
   * Water supplied minus water needed: positive is a surplus, negative a
   * deficit. Exact real arithmetic (the application uses floats).
   */
  function WaterBalance(irrigation: real, rainfall: real, cropNeed: real): (b: real)
    ensures b < 0.0 <==> irrigation + rainfall < cropNeed
    ensures b == 0.0 <==> irrigation + rainfall == cropNeed
  {
    irrigation + rainfall - cropNeed
  }

  // ---------------------------------------------------------------------------
  // Crop stress
  // ---------------------------------------------------------------------------

  /**
   * The band of balances each stress level covers: closed below, open above,
   * the no-stress band unbounded above and the severe band unbounded below.
   */
  predicate InStressBand(b: real, s: Stress) {
    match s
    case NoStress => 0.0 <= b
    case MildStress => -3.0 <= b < 0.0
    case ModerateStress => -6.0 <= b < -3.0
    case SevereStress => b < -6.0
  }

  /** Position of a stress level in the order of increasing deficit. */
  function StressRank(s: Stress): nat
  {
    match s
    case NoStress => 0
    case MildStress => 1
    case ModerateStress => 2
    case SevereStress => 3
  }

  /** Classifies a deficit; the checks run from the mildest band down. */
  function CropStress(b: real): (s: Stress)
    ensures InStressBand(b, s)
  {
    if b >= 0.0 then NoStress
    else if -3.0 <= b < 0.0 then MildStress
    else if -6.0 <= b < -3.0 then ModerateStress
    else SevereStress
  }

  /** The stress bands do not overlap: the band a balance lies in is its class. */
  lemma StressBandIsClass(b: real, s: Stress)
    requires InStressBand(b, s)
    ensures CropStress(b) == s
  {
  }

  /** A balance on a boundary goes to the less severe of the two bands. */
  lemma StressBoundaries()
    ensures CropStress(0.0) == NoStress
    ensures CropStress(-3.0) == MildStress
    ensures CropStress(-6.0) == ModerateStress
    ensures CropStress(-6.01) == SevereStress
  {
  }

  /** A larger deficit never yields a milder stress level. */
  lemma StressMonotone(b1: real, b2: real)
    requires b1 <= b2
    ensures StressRank(CropStress(b2)) <= StressRank(CropStress(b1))
  {
  }

  // ---------------------------------------------------------------------------
  // Water wastage
  // ---------------------------------------------------------------------------

  /**
   * The band of balances each wastage level covers: open below, closed above,
   * the no-wastage band unbounded below and the high band unbounded above.
   */
  predicate InWastageBand(b: real, w: Wastage) {
    match w
    case NoWastage => b <= 0.0
    case LowWastage => 0.0 < b <= 3.0
    case MediumWastage => 3.0 < b <= 6.0
    case HighWastage => 6.0 < b
  }

  /** Position of a wastage level in the order of increasing surplus. */
  function WastageRank(w: Wastage): nat
  {
    match w
    case NoWastage => 0
    case LowWastage => 1
    case MediumWastage => 2
    case HighWastage => 3
  }

  /** Classifies a surplus; the checks run from the lowest band up. */
  function WaterWastage(b: real): (w: Wastage)
    ensures InWastageBand(b, w)
  {
    if b <= 0.0 then NoWastage
    else if b <= 3.0 then LowWastage
    else if b <= 6.0 then MediumWastage
    else HighWastage
  }

  /** The wastage bands do not overlap: the band a balance lies in is its class. */
  lemma WastageBandIsClass(b: real, w: Wastage)
    requires InWastageBand(b, w)
    ensures WaterWastage(b) == w
  {
  }

  /** A balance on a boundary goes to the lower of the two bands. */
  lemma WastageBoundaries()
    ensures WaterWastage(0.0) == NoWastage
    ensures WaterWastage(3.0) == LowWastage
    ensures WaterWastage(6.0) == MediumWastage
    ensures WaterWastage(6.01) == HighWastage
  {
  }

  /** A larger surplus never yields a lower wastage level. */
  lemma WastageMonotone(b1: real, b2: real)
    requires b1 <= b2
    ensures WastageRank(WaterWastage(b1)) <= WastageRank(WaterWastage(b2))
  {
  }

  /**
   * Stress and wastage describe opposite signs of the balance: a field is
   * never both stressed and wasting water, and a zero balance is neither.
   */
  lemma StressAndWastageExclusive(b: real)
    ensures CropStress(b) != NoStress ==> WaterWastage(b) == NoWastage
    ensures WaterWastage(b) != NoWastage ==> CropStress(b) == NoStress
    ensures CropStress(b) != NoStress <==> b < 0.0
    ensures WaterWastage(b) != NoWastage <==> b > 0.0
  {
  }

  // ---------------------------------------------------------------------------
  // Irrigation uniformity
  // ---------------------------------------------------------------------------

  /**
   * Uniform exactly when the irrigation equals the crop's need and there was
   * no rain; equality is exact, without tolerance.
   */
  function IrrigationTypeOf(irrigation: real, cropNeed: real, rainfall: real): (t: IrrigationType)
    ensures t == Uniform <==> irrigation == cropNeed && rainfall == 0.0
  {
    if irrigation == cropNeed && rainfall == 0.0 then Uniform
    else NonUniform
  }

  /** Uniform irrigation leaves a zero balance: neither stress nor wastage. */
  lemma UniformIsBalanced(irrigation: real, cropNeed: real, rainfall: real)
    requires IrrigationTypeOf(irrigation, cropNeed, rainfall) == Uniform
    ensures WaterBalance(irrigation, rainfall, cropNeed) == 0.0
    ensures CropStress(WaterBalance(irrigation, rainfall, cropNeed)) == NoStress
    ensures WaterWastage(WaterBalance(irrigation, rainfall, cropNeed)) == NoWastage
  {
  }

  /** The converse fails: rain can make up for under-irrigation. */
  lemma BalancedNeedNotBeUniform()
    ensures WaterBalance(11.0, 1.0, 12.0) == 0.0
    ensures IrrigationTypeOf(11.0, 12.0, 1.0) == NonUniform
  {
  }
}
