# Wildfire response system — verified model of its decision logic

The wildfire response system is a small web page with two independent aids:

- a detector that reports whether an uploaded satellite image shows a wildfire;
- a weather-based risk scorer.

The detector runs the image through a pretrained feature extractor and then a
trained classifier. It reports "wildfire detected" exactly when the
classifier's first predicted class equals 1.

The scorer combines temperature, humidity, wind speed and rainfall into a raw
score with fixed weights: `0.6·temp + 0.7·wind + 0.6·(100 − humidity) − 2·rain`.
It clamps that score to [0, 100] and shows its integer part on a gauge. It
then maps the score to one of four tiers, Extreme, High, Moderate or Low,
using the inclusive thresholds 70, 45 and 25, tried in that order. Each tier
comes with a fixed, ordered list of recommended actions.

This project models that logic as pure Dafny functions and proves its
properties as lemmas. The files are:

- `risk_tiers.dfy` (module `RiskTiers`): the tiers, the threshold chain and the action lists.
- `risk_score.dfy` (module `RiskScore`): the readings, the raw score, the clamp, the integer gauge value and the full assessment.
- `fire_detection.dfy` (module `FireDetection`): how the classifier's output becomes a label.

Scores are Dafny `real`s, so decimal weights such as 0.6 are exact. The
scorer is total: none of the scoring functions (`RawScore`, `Clamp`,
`Trunc`, `Score`, `Progress`, `Assess`, `TierOf`) has a `requires`. The
entry form's ranges (0–60 °C, 0–100 %, 0–150 km/h, 0–50 mm) appear only as
the predicate `InFormRange`. It is used by `RawScoreBoundedOnForm`,
`RawScoreExtremesReached`, the reachability lemmas and the default scenario.
`RawScore` itself carries no contract; `RawScoreRates` states it.

## Model

| member | source | states |
|---|---|---|
| RiskScore.Clamp | app.py:67 | the result always lies in [0, 100]; a value already in range is returned unchanged; anything below 0 becomes 0 and anything above 100 becomes 100 |
| RiskScore.ClampIsNearest | app.py:67 | the clamped value is the point of [0, 100] closest to the input, an independent characterisation of `max(0, min(100, x))` |
| RiskScore.ClampFixedPoints | app.py:67 | clamping leaves a value unchanged exactly when it is in [0, 100], and clamping twice equals clamping once |
| RiskScore.Trunc | app.py:72 | `int()` truncates toward zero: for x ≥ 0 the result is the largest integer not above x, and for x < 0 the smallest integer not below x |
| RiskScore.RawScoreRates | app.py:64 | the raw score is 60 for an all-zero reading; each unit of temperature adds 0.6, humidity subtracts 0.6, wind speed adds 0.7 and rainfall subtracts 2 |
| RiskScore.RawScoreBoundedOnForm | app.py:56-64 | for every reading within the entry form's ranges the raw score lies in [-100, 201] |
| RiskScore.RawScoreExtremesReached | app.py:56-64 | some reading within the form's ranges has raw score -100 and some has 201, so the clamp acts on both sides |
| RiskScore.Score | app.py:64-67 | the normalised score of any reading, whatever its values, lies in [0, 100] |
| RiskScore.Progress | app.py:64-72 | the gauge value of any reading is a whole number in [0, 100] and is the integer part of its score |
| RiskScore.Assess | app.py:64-121 | the score lies in [0, 100], saturates at 0 and 100, and equals the raw score when that is in range; the gauge value is the score's integer part in [0, 100]; the tier's band holds the score; the actions are that tier's list |
| RiskScore.ScoreMonotone | app.py:64-113 | a reading that is no cooler, no calmer, no more humid and no wetter never gets a lower raw score, clamped score, gauge value or tier |
| RiskScore.ProgressKeepsTier | app.py:72-80 | the thresholds are whole numbers, so the integer gauge value falls in the same tier as the score |
| RiskScore.ScoreReachable | app.py:56-67 | every score in [0, 100] is produced, without clamping, by some reading inside the form's ranges |
| RiskScore.TierReachable | app.py:56-113 | every one of the four tiers is produced by some reading inside the form's ranges |
| RiskScore.DefaultScenario | app.py:56-80 | the form's starting values (35 °C, 30 %, 20 km/h, 0 mm) are in range and give score 77, gauge value 77, tier Extreme and its actions |
| RiskScore.MildScenario | app.py:64-121 | 20 °C, 80 %, 5 km/h and 10 mm give score 7.5, gauge value 7, tier Low and its actions |
| RiskTiers.TierOf | app.py:80-113 | the chosen tier is the one whose band holds the score: Extreme for ≥ 70, High for [45, 70), Moderate for [25, 45), Low for < 25 |
| RiskTiers.TierIsUniqueBand | app.py:80-113 | the bands partition the reals: a score lies in a tier's band if and only if that is the tier chosen |
| RiskTiers.TierMonotone | app.py:80-113 | a higher score never yields a less severe tier |
| RiskTiers.TierBoundaries | app.py:80-113 | each threshold is an inclusive lower bound: 70, 45 and 25 select Extreme, High and Moderate, while 69.999, 44.999 and 24.999 select the next tier down |
| RiskTiers.Actions | app.py:84-121 | Extreme lists 4 actions, High 3, Moderate 2 and Low 2, each non-empty and none repeated, in the order shown |
| RiskTiers.ActionsIdentifyTier | app.py:84-121 | no action text appears in two tiers' lists |
| RiskTiers.ActionCountMonotone | app.py:84-121 | a more severe tier never recommends fewer actions |
| FireDetection.Label | app.py:41-44 | a predicted class is reported as a wildfire if and only if it equals 1 |
| FireDetection.Interpret | app.py:39-44 | an empty prediction array raises an index error; otherwise the result is a wildfire exactly when element 0 equals 1, and no wildfire in every other case |
| FireDetection.NonFireClassesAreNoFire | app.py:41-44 | every class value other than 1, class 0 and values outside {0, 1} alike, gives "no wildfire" |
| FireDetection.OnlyFirstPredictionMatters | app.py:41 | two predictions with the same first element give the same result |
| FireDetection.SingleImageAlwaysLabelled | app.py:39-44 | a one-element prediction, which is what a single uploaded image yields, always gives a label and never an index error |

## Left out

- Floating point: the source computes in IEEE binary doubles, while the model uses exact reals. Rounding, and NaN or infinite readings, are not modelled. The form never produces NaN or infinity.
- Page setup, headers, the uploader, buttons, the progress bar, the `:.1f` score text, and each tier's alert message and markdown heading (app.py:8-16, 27-28, 33, 46-61, 69-74, and the banner and `###` heading lines inside 80-121): these are display only. A tier's actions are modelled as plain strings, without the markdown list formatting.
- Loading the classifier and building the MobileNetV2 feature extractor (app.py:18-25): these are foreign model loading.
- The two `predict` calls (app.py:38-39): these are opaque inference. Their output enters the model only as the `prediction` argument of `Interpret`.
- Image decoding, RGB conversion, resizing to 224×224, scaling by 1/255 and adding the batch dimension (app.py:32, 35-36): these are image I/O and array numerics.
- Predicted class values are modelled as reals, which covers integer and floating-point labels. Non-numeric labels (which never equal 1) and multi-output predictions (where indexing yields an array, not a value) are not modelled.
- The entry form's ranges (app.py:56-59) are enforced by the form, not by the scorer. So no scoring function requires them; only the lemmas about the form (`RawScoreBoundedOnForm`, `RawScoreExtremesReached`, `ScoreReachable`, `TierReachable`, `DefaultScenario`) mention them.
