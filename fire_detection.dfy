/** Interpretation of the image classifier's output: the uploaded image is
    reported as showing a wildfire exactly when the first predicted class
    equals 1. The feature extractor and the classifier themselves are not
    modelled; their prediction is an input here. */
module FireDetection {

  /** The two messages the detector can show. */
  datatype Detection = Fire | NoFire

  /** Indexing an empty prediction raises an IndexError instead of yielding
      a label. */
  datatype Outcome = Detected(verdict: Detection) | IndexError

  /** The class encoding the trained classifier uses for "fire". */
  const FireClass: real := 1.0

  /** The label for one predicted class value: only the fire class counts
      as a detection. */
  function Label(p: real): (d: Detection)
    ensures d == Fire <==> p == FireClass
  {
    if p == FireClass then Fire else NoFire
  }

  /** The label for the classifier's prediction array, read at index 0. */
  function Interpret(prediction: seq<real>): (r: Outcome)
    ensures r == IndexError <==> |prediction| == 0
    ensures r == Detected(Fire) <==> |prediction| > 0 && prediction[0] == FireClass
    ensures r == Detected(NoFire) <==> |prediction| > 0 && prediction[0] != FireClass
  {
    if |prediction| == 0 then IndexError else Detected(Label(prediction[0]))
  }

  /** Every class value other than 1, the "no fire" class 0 and any value
      outside the trained encoding alike, is reported as no wildfire. */
  lemma NonFireClassesAreNoFire(p: real)
    requires p != FireClass
    ensures Label(p) == NoFire
  {
  }

  /** Only the first prediction matters: predictions for further images in
      the same batch never change the reported label. */
  lemma OnlyFirstPredictionMatters(p: seq<real>, q: seq<real>)
    requires |p| > 0 && |q| > 0 && p[0] == q[0]
    ensures Interpret(p) == Interpret(q)
  {
  }

  /** A prediction for the single uploaded image always yields a label. */
  lemma SingleImageAlwaysLabelled(p: real)
    ensures Interpret([p]) == Detected(Label(p))
    ensures Interpret([p]) != IndexError
  {
  }
}
