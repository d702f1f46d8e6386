/** The weather-based wildfire risk score: a weighted sum of four readings,
    clamped to [0, 100], truncated to an integer for the gauge, and mapped
    to a severity tier with its recommended actions. */
module RiskScore {
  import opened RiskTiers

  /** One set of weather readings: temperature in degrees Celsius, relative
      humidity in percent, wind speed in km/h and rainfall in mm. Nothing
      restricts their range; the entry form's ranges are InFormRange. */
  datatype Weather = Weather(temperature: real, humidity: real, windSpeed: real, rainfall: real)

  /** The ranges the entry form offers; the scorer itself never checks them. */
  predicate InFormRange(w: Weather) {
    && 0.0 <= w.temperature <= 60.0
    && 0.0 <= w.humidity <= 100.0
    && 0.0 <= w.windSpeed <= 150.0
    && 0.0 <= w.rainfall <= 50.0
  }

  /** The values the entry form starts with. */
  const DefaultReading: Weather := Weather(35.0, 30.0, 20.0, 0.0)

  /** The weighted sum before normalisation. */
  function RawScore(w: Weather): real {
    w.temperature * 0.6 + w.windSpeed * 0.7 + (100.0 - w.humidity) * 0.6 - w.rainfall * 2.0
  }

  /** Python's two-argument min and max. */
  function Min(a: real, b: real): real { if b < a then b else a }
  function Max(a: real, b: real): real { if b > a then b else a }

  /** Normalisation to [0, 100] as max(0, min(100, x)). */
  function Clamp(x: real): (r: real)
    ensures 0.0 <= r <= 100.0
    ensures 0.0 <= x <= 100.0 ==> r == x
    ensures x < 0.0 ==> r == 0.0
    ensures x > 100.0 ==> r == 100.0
  {
    Max(0.0, Min(100.0, x))
  }

  /** Python's int() on a number: truncation toward zero. */
  function Trunc(x: real): (r: int)
    ensures 0.0 <= x ==> 0 <= r && r as real <= x < r as real + 1.0
    ensures x < 0.0 ==> r <= 0 && r as real - 1.0 < x <= r as real
  {
    if x < 0.0 then -((-x).Floor) else x.Floor
  }

  /** The normalised score of a reading, for any readings whatever. */
  function Score(w: Weather): (r: real)
    ensures 0.0 <= r <= 100.0
  {
    Clamp(RawScore(w))
  }

  /** The whole number the risk gauge shows: the integer part of the score. */
  function Progress(w: Weather): (r: int)
    ensures 0 <= r <= 100
    ensures r as real <= Score(w) < r as real + 1.0
  {
    Trunc(Score(w))
  }

  /** Everything the scorer derives from one reading. */
  datatype Assessment = Assessment(score: real, progress: int, tier: Tier, actions: seq<string>)

  /** Assessing a reading: the score lies in [0, 100] and equals the raw
      score whenever that is already in range, the gauge value is its
      integer part, the tier is the one whose band holds the score, and the
      actions are that tier's. */
  function Assess(w: Weather): (a: Assessment)
    ensures 0.0 <= a.score <= 100.0
    ensures 0.0 <= RawScore(w) <= 100.0 ==> a.score == RawScore(w)
    ensures RawScore(w) < 0.0 ==> a.score == 0.0
    ensures RawScore(w) > 100.0 ==> a.score == 100.0
    ensures 0 <= a.progress <= 100
    ensures a.progress as real <= a.score < a.progress as real + 1.0
    ensures InBand(a.tier, a.score)
    ensures a.actions == Actions(a.tier)
  {
    var s := Score(w);
    Assessment(s, Trunc(s), TierOf(s), Actions(TierOf(s)))
  }

  // ---------------------------------------------------------------------
  // The raw score

  /** The raw score is affine in the readings: 60 for an all-zero reading,
      and each reading moves it at its own fixed rate. */
  lemma RawScoreRates(w: Weather, d: real)
    ensures RawScore(Weather(0.0, 0.0, 0.0, 0.0)) == 60.0
    ensures RawScore(w.(temperature := w.temperature + d)) == RawScore(w) + 0.6 * d
    ensures RawScore(w.(humidity := w.humidity + d)) == RawScore(w) - 0.6 * d
    ensures RawScore(w.(windSpeed := w.windSpeed + d)) == RawScore(w) + 0.7 * d
    ensures RawScore(w.(rainfall := w.rainfall + d)) == RawScore(w) - 2.0 * d
  {
  }

  /** Over the entry form's ranges the raw score stays within [-100, 201]. */
  lemma RawScoreBoundedOnForm(w: Weather)
    requires InFormRange(w)
    ensures -100.0 <= RawScore(w) <= 201.0
  {
  }

  /** Both ends of that interval come from readings the form allows, so the
      clamp acts on either side. */
  lemma RawScoreExtremesReached()
    ensures exists w :: InFormRange(w) && RawScore(w) == -100.0
    ensures exists w :: InFormRange(w) && RawScore(w) == 201.0
  {
    var wettest := Weather(0.0, 100.0, 0.0, 50.0);
    var driest := Weather(60.0, 0.0, 150.0, 0.0);
    assert InFormRange(wettest) && RawScore(wettest) == -100.0;
    assert InFormRange(driest) && RawScore(driest) == 201.0;
  }

  // ---------------------------------------------------------------------
  // The clamp

  /** The clamped value is the point of [0, 100] nearest to the input. */
  lemma ClampIsNearest(x: real, y: real)
    requires 0.0 <= y <= 100.0
    ensures Abs(x - Clamp(x)) <= Abs(x - y)
  {
  }

  function Abs(x: real): real { if x < 0.0 then -x else x }

  /** Clamping leaves a value exactly when it is already in range, and
      clamping twice is clamping once. */
  lemma ClampFixedPoints(x: real)
    ensures Clamp(x) == x <==> 0.0 <= x <= 100.0
    ensures Clamp(Clamp(x)) == Clamp(x)
  {
  }

  // ---------------------------------------------------------------------
  // Monotonicity

  /** Reading b is at least as dangerous as reading a: no cooler, no calmer,
      no more humid and no wetter. */
  predicate NoSaferThan(b: Weather, a: Weather) {
    && a.temperature <= b.temperature
    && a.windSpeed <= b.windSpeed
    && b.humidity <= a.humidity
    && b.rainfall <= a.rainfall
  }

  /** A reading that is no safer never gets a lower raw score, clamped
      score, gauge value or tier. */
  lemma ScoreMonotone(a: Weather, b: Weather)
    requires NoSaferThan(b, a)
    ensures RawScore(a) <= RawScore(b)
    ensures Score(a) <= Score(b)
    ensures Progress(a) <= Progress(b)
    ensures Severity(Assess(a).tier) <= Severity(Assess(b).tier)
  {
    TierMonotone(Score(a), Score(b));
  }

  // ---------------------------------------------------------------------
  // The gauge value and the tier

  /** Because the thresholds are whole numbers, the tier of the gauge value
      is the tier of the score itself. */
  lemma ProgressKeepsTier(w: Weather)
    ensures TierOf(Progress(w) as real) == Assess(w).tier
  {
  }

  // ---------------------------------------------------------------------
  // Reachability over the entry form

  /** Every score in [0, 100] comes from some reading the form allows, with
      no clamping involved. */
  lemma ScoreReachable(s: real)
    requires 0.0 <= s <= 100.0
    ensures exists w :: InFormRange(w) && RawScore(w) == s && Assess(w).score == s
  {
    var w := Weather(0.0, 100.0, s / 0.7, 0.0);
    assert InFormRange(w) && RawScore(w) == s;
  }

  /** Every tier is the outcome of some reading the form allows. */
  lemma TierReachable(t: Tier)
    ensures exists w :: InFormRange(w) && Assess(w).tier == t
  {
    var s := match t case Extreme => 70.0 case High => 45.0 case Moderate => 25.0 case Low => 0.0;
    ScoreReachable(s);
    var w :| InFormRange(w) && Assess(w).score == s;
    assert Assess(w).tier == t;
  }

  // ---------------------------------------------------------------------
  // Worked scenarios

  /** The form's starting values score exactly 77, an Extreme risk. */
  lemma DefaultScenario()
    ensures InFormRange(DefaultReading)
    ensures Assess(DefaultReading) == Assessment(77.0, 77, Extreme, Actions(Extreme))
  {
  }

  /** A cool, humid, rainy day scores 7.5, a Low risk, gauge value 7. */
  lemma MildScenario()
    ensures Assess(Weather(20.0, 80.0, 5.0, 10.0)) == Assessment(7.5, 7, Low, Actions(Low))
  {
  }
}
