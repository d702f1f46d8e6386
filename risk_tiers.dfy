/** Severity tiers of the weather-based wildfire risk score and the fixed,
    ordered list of recommended actions shown for each tier. */
module RiskTiers {

  /** The four severity tiers. */
  datatype Tier = Extreme | High | Moderate | Low

  /** Rank of a tier: a larger rank is a more severe tier. */
  function Severity(t: Tier): nat {
    match t
    case Low => 0
    case Moderate => 1
    case High => 2
    case Extreme => 3
  }

  /** The inclusive lower thresholds of the threshold chain. */
  const ExtremeThreshold: real := 70.0
  const HighThreshold: real := 45.0
  const ModerateThreshold: real := 25.0

  /** Reference description of the score band each tier covers, written
      band by band rather than as a first-match chain. */
  predicate InBand(t: Tier, s: real) {
    match t
    case Extreme => ExtremeThreshold <= s
    case High => HighThreshold <= s < ExtremeThreshold
    case Moderate => ModerateThreshold <= s < HighThreshold
    case Low => s < ModerateThreshold
  }

  /** The tier of a score: the thresholds are tried from the highest down
      and the first one the score reaches decides. */
  function TierOf(s: real): (t: Tier)
    ensures InBand(t, s)
  {
    if s >= ExtremeThreshold then Extreme
    else if s >= HighThreshold then High
    else if s >= ModerateThreshold then Moderate
    else Low
  }

  /** The bands partition the reals: a score lies in the band of a tier
      exactly when that tier is the one the chain picks. */
  lemma TierIsUniqueBand(t: Tier, s: real)
    ensures InBand(t, s) <==> TierOf(s) == t
  {
  }

  /** A higher score never yields a less severe tier. */
  lemma TierMonotone(s1: real, s2: real)
    requires s1 <= s2
    ensures Severity(TierOf(s1)) <= Severity(TierOf(s2))
  {
  }

  /** The lower edge of every band is inclusive; just below it the next
      less severe tier applies. */
  lemma TierBoundaries()
    ensures TierOf(70.0) == Extreme && TierOf(69.999) == High
    ensures TierOf(45.0) == High && TierOf(44.999) == Moderate
    ensures TierOf(25.0) == Moderate && TierOf(24.999) == Low
  {
  }

  /** The recommended actions of a tier, in display order. */
  function Actions(t: Tier): (r: seq<string>)
    ensures |r| == match t case Extreme => 4 case High => 3 case Moderate => 2 case Low => 2
    ensures forall i, j :: 0 <= i < j < |r| ==> r[i] != r[j]
    ensures forall i :: 0 <= i < |r| ==> |r[i]| > 0
  {
    match t
    case Extreme => [
      "\U{1F692} Deploy firefighting resources",
      "\U{1F3C3} Initiate evacuation readiness",
      "\U{1F4E2} Alert emergency authorities",
      "\U{1F6AB} Ban open fires and outdoor burning"
    ]
    case High => [
      "Avoid campfires and sparks",
      "Monitor local alerts",
      "Prepare emergency kits"
    ]
    case Moderate => [
      "Stay cautious outdoors",
      "Monitor weather updates"
    ]
    case Low => [
      "Routine monitoring sufficient",
      "Low likelihood of wildfire ignition"
    ]
  }

  /** No recommendation is shared between two tiers, so the list shown
      identifies the tier. */
  lemma ActionsIdentifyTier(t1: Tier, t2: Tier, a: string)
    requires a in Actions(t1) && a in Actions(t2)
    ensures t1 == t2
  {
  }

  /** A more severe tier never recommends fewer actions. */
  lemma ActionCountMonotone(t1: Tier, t2: Tier)
    requires Severity(t1) <= Severity(t2)
    ensures |Actions(t1)| <= |Actions(t2)|
  {
  }
}
