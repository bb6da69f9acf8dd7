# SADIT diagnostic fusion engine, modelled in Dafny

SADIT assesses painful hip prostheses. Its core takes one clinical case and produces one diagnostic result. The case carries:
- the ALICIA pain profile;
- the implant interval (ILD) in months;
- the mobility aid;
- optional laboratory markers.

The case goes through a fixed pipeline:

1. A compliance gate rejects an image that is too small or too noisy.
2. A physics step compares the stiffness of the implant alloy with cortical bone and applies Wolff's law to the pain location.
3. A rule-based semiology engine scores inflammatory pain and picks a rule.
4. A naive-Bayes classifier discretises the free-text inputs and computes the exact posterior over three diagnoses:
   - Scenario A: mechanical impact at the stem tip;
   - Scenario B: aseptic loosening;
   - periprosthetic infection.
5. The synthesis step builds the final result from the classifier's consensus. It boosts that result when the physics confirms it, and flags an infection as CRITICAL.
6. An evidence gate rejects any result without a citation.

The model has one Dafny module per source file:

| module | source |
|---|---|
| `ClinicalModels` | `src/sadit/clinical/models.py` |
| `Materials` | `src/sadit/physics/materials.py` |
| `Stress` | `src/sadit/physics/stress.py` |
| `Compliance` | `src/sadit/compliance/checker.py` |
| `Semiology` | `src/sadit/clinical/semiology.py` |
| `Bayesian` | `src/sadit/inference/bayesian.py` |
| `Orchestrator` | `src/sadit/inference/orchestrator.py` |

Two support modules complete it:
- `Wrappers` defines the `Option`, `Result` and `Outcome` values.
- `Text` defines ASCII lower-casing, substring and prefix tests, and number formatting.

How the source's constructs appear in the model:
- A raised exception becomes a `Failure` or `Fail` value.
- A Python float becomes an exact `real`.
- An `Optional` value used in a truth test becomes the `Truthy` predicate.
- The classifier and the orchestrator are classes. Their constructors build their parts once, and nothing changes them afterwards.
- `assess_stress_conditions` fills a record entry by entry, so `Stress.AssessStressConditions` is a method that reassigns its result.
- The synthesis step reassigns three locals, so `Orchestrator.Synthesize` is a method. It is proved equal to the specification function `Orchestrator.Synthesis`.

## Model

| member | source | states |
|---|---|---|
| ClinicalModels.HasInflammatoryMarkers | src/sadit/clinical/models.py:34-39 | true exactly when PCR > 10, VSG > 20 or WBC > 11000 is reported; a falsy zero value never counts |
| ClinicalModels.NoMarkersNotInflammatory | src/sadit/clinical/models.py:34-39 | with none of PCR, VSG and WBC reported there are no inflammatory markers |
| ClinicalModels.ThresholdsAreStrict | src/sadit/clinical/models.py:36-38 | values exactly at 10, 20 and 11000 are normal |
| ClinicalModels.OtherMarkersIrrelevant | src/sadit/clinical/models.py:34-39 | hemoglobin, platelets and creatinine never change the verdict |
| ClinicalModels.InflammatoryMonotone | src/sadit/clinical/models.py:34-39 | raising a reported marker never clears the verdict |
| ClinicalModels.DefaultLabDataEmpty | src/sadit/clinical/models.py:23-39 | a default lab record has every marker absent and no inflammatory markers |
| Materials.CatalogShape | src/sadit/physics/materials.py:17-23 | the catalog has exactly the five material keys, each with a positive Young's modulus |
| Materials.CalculateStiffnessMismatch | src/sadit/physics/materials.py:25-37 | succeeds exactly when both keys are in the catalog; otherwise fails with the unknown-material error naming both keys; on success the ratio is positive and ratio × bone modulus = material modulus |
| Materials.SelfRatioIsOne | src/sadit/physics/materials.py:25-37 | any catalog material against itself has ratio 1 |
| Materials.AlloysAgainstCorticalBone | src/sadit/physics/materials.py:17-37 | cobalt-chrome (220/18) and stainless steel (193/18) exceed the 8.0 threshold against cortical bone; titanium (110/18) does not |
| Stress.AssessStressConditions | src/sadit/physics/stress.py:10-31 | the citation is always Wolff's law; a ratio above 8 gives high shielding and the resorption mechanism; tip stress is Critical exactly for a ratio above 8 with pain location "distal", and Low otherwise; the pedestal description is present exactly when the tip stress is Critical |
| Compliance.FlooredNoise | src/sadit/compliance/checker.py:42-45 | the noise used for the SNR is never zero: it is the floor 1e-5 for a zero standard deviation and the measured noise otherwise |
| Compliance.CheckImageSafety | src/sadit/compliance/checker.py:30-50 | a shape below 1024×1024 fails with the resolution error; the image passes exactly when both dimensions reach 1024 and the SNR over the floored noise reaches 15 dB; every failure is a safety failure |
| Compliance.SnrNeverSeesZeroNoise | src/sadit/compliance/checker.py:42-48 | two SNR functions that agree on every non-zero noise give the same verdict, so the gate never divides by zero |
| Compliance.ResolutionBeforeSnr | src/sadit/compliance/checker.py:35-39 | an undersized image fails whatever its SNR |
| Compliance.ValidateInference | src/sadit/compliance/checker.py:53-66 | fails exactly when the citation is absent or empty; the error names the diagnosis |
| Compliance.ProbabilityNeverFailsValidation | src/sadit/compliance/checker.py:62-66 | the verdict does not depend on the probability, even outside [0.01, 0.99] |
| Compliance.ClearedCitationRejected | src/sadit/compliance/checker.py:57-60 | a result whose citation is cleared is rejected with the evidence error |
| Semiology.InflammatorySafetyScore | src/sadit/clinical/semiology.py:11-23 | the score lies in [0, 1] |
| Semiology.SepticRiskIff | src/sadit/clinical/semiology.py:11-30 | the score exceeds 0.4 exactly for an inflammatory, terebrante or boring character, or for night pain not relieved by rest |
| Semiology.TerebranteNightPainCapped | src/sadit/clinical/semiology.py:16-23 | terebrante night pain without rest relief scores exactly 1: 1.1 capped |
| Semiology.NightPainAloneIsSepticRisk | src/sadit/clinical/semiology.py:16-30 | for a mechanical or taladrante character, night pain without rest relief scores 0.5, which is a septic risk |
| Semiology.ZeroPcrCannotRuleOut | src/sadit/clinical/semiology.py:32-37 | a PCR of exactly 0 (falsy) cannot rule infection out, while a PCR of 0.5 with the same VSG does |
| Semiology.InfectionRuledOut | src/sadit/clinical/semiology.py:32-37 | (definition) labs rule infection out only when lab data is present, PCR and VSG are both reported and non-zero (truthy), PCR < 10 and VSG < 20 |
| Semiology.SepticMessageCritical | src/sadit/clinical/semiology.py:41-46 | the septic diagnosis, whatever ISS suffix follows it, starts with CRITICAL exactly for a terebrante, boring or taladrante character, and is the WARNING message otherwise |
| Semiology.SepticResult | src/sadit/clinical/semiology.py:40-51 | probability 0.95 for a terebrante or taladrante character and 0.85 otherwise; interval (0.80, 0.95); the ALICIA citation; the diagnosis starts with CRITICAL exactly for a deep-bone character |
| Semiology.DeepBoneResult | src/sadit/clinical/semiology.py:54-60 | the deep-bone result is cited, with probability 0.92 inside its interval and a diagnosis starting with CRITICAL |
| Semiology.LooseningResult | src/sadit/clinical/semiology.py:63-70 | the loosening result is cited, with probability 0.88 inside its interval, and its citation contains the implant interval in months |
| Semiology.MismatchResult | src/sadit/clinical/semiology.py:72-79 | the mismatch result is cited, with probability 0.85 inside its interval |
| Semiology.UndeterminedResult | src/sadit/clinical/semiology.py:81-87 | the fallback result is cited, with probability 0.50 inside its interval |
| Semiology.WellCitedPassesValidation | src/sadit/compliance/checker.py:53-60 | a result with a non-empty citation passes the evidence gate |
| Semiology.Classify | src/sadit/clinical/semiology.py:39-87 | (definition) which rule fires: septic when the score exceeds 0.4 and labs do not rule infection out; else deep bone for terebrante, boring or taladrante; else loosening for inguinal mechanical pain; else mismatch for distal mechanical pain; else undetermined |
| Semiology.Process | src/sadit/clinical/semiology.py:25-87 | every result carries a non-empty citation, and its probability lies within its own interval and in [0.5, 0.95] |
| Semiology.ProcessPassesValidation | src/sadit/clinical/semiology.py:25-87 | every semiology result passes the evidence gate |
| Semiology.DeepBoneAlwaysCritical | src/sadit/clinical/semiology.py:40-60 | a terebrante, boring or taladrante character always yields a diagnosis starting with CRITICAL, whatever the labs say |
| Semiology.TerebranteNightPain | src/sadit/clinical/semiology.py:16-60 | terebrante night pain gives the septic result with probability 0.95 unless labs rule infection out; in that case it gives the deep-bone result |
| Semiology.RuleChain | src/sadit/clinical/semiology.py:39-79 | (definition) the four guarded rules in priority order: septic risk not ruled out, deep-bone character, inguinal mechanical, distal mechanical |
| Semiology.FirstMatch | src/sadit/clinical/semiology.py:39-87 | the result is the fallback when no rule applies, and the result of rule k whenever rule k applies and no earlier rule does |
| Semiology.ProcessIsFirstMatch | src/sadit/clinical/semiology.py:39-87 | the if-chain equals the ordered list of four rules evaluated first-match, with the undetermined fallback |
| Semiology.EveryRuleWellCited | src/sadit/clinical/semiology.py:39-87 | every rule's result and the fallback are cited, with the probability inside the interval |
| Bayesian.SaditNetwork | src/sadit/inference/bayesian.py:41-97 | (definition) the prior (0.3, 0.5, 0.2) and the five conditional tables for Location, PainType, ILD, Imaging and Mobility, each column ordered Scenario_A, Scenario_B, Infection |
| Bayesian.SaditNetworkWellFormed | src/sadit/inference/bayesian.py:41-101 | the prior sums to 1, and every column of the five tables is positive and sums to 1 |
| Bayesian.Likelihood | src/sadit/inference/bayesian.py:128-131 | (definition) P(evidence given d): the product of the five table entries the evidence selects |
| Bayesian.Joint | src/sadit/inference/bayesian.py:128-131 | (definition) P(d, evidence) = prior(d) × likelihood |
| Bayesian.Marginal | src/sadit/inference/bayesian.py:128-131 | (definition) P(evidence): the sum of the three joints |
| Bayesian.JointPositive | src/sadit/inference/bayesian.py:41-97 | in a well-formed network every joint probability P(d, evidence) is positive |
| Bayesian.Normalise | src/sadit/inference/bayesian.py:128-131 | three positive weights divided by their sum are positive, sum to 1 and keep their proportions |
| Bayesian.Query | src/sadit/inference/bayesian.py:128-131 | the posterior is P(d, evidence) / P(evidence) for each diagnosis: positive, summing to 1, proportional to the joints |
| Bayesian.PickLabel | src/sadit/inference/bayesian.py:133-137 | Scenario B exactly when it is strictly above both others; Infection likewise; any label other than Scenario A is the strict maximum |
| Bayesian.TieDefaultsToScenarioA | src/sadit/inference/bayesian.py:133-137 | a tie between Scenario B and Infection above Scenario A yields Scenario A, which is then not the maximum |
| Bayesian.PickLabelIsArgmax | src/sadit/inference/bayesian.py:133-137 | with pairwise distinct values the label is the strict maximum |
| Bayesian.PickLabelScaleInvariant | src/sadit/inference/bayesian.py:128-137 | labelling the normalised posterior is the same as labelling the unnormalised joints |
| Bayesian.SaditJointsDistinct | src/sadit/inference/bayesian.py:41-97 | for all 32 evidence assignments the three SADIT joints are pairwise distinct |
| Bayesian.SaditLabelIsArgmax | src/sadit/inference/bayesian.py:41-137 | with the SADIT tables the reported label is always the unique most probable diagnosis |
| Bayesian.LocationOf | src/sadit/inference/bayesian.py:106 | (definition) Distal when the lower-cased location contains "distal", Inguinal otherwise |
| Bayesian.PainTypeOf | src/sadit/inference/bayesian.py:109-110 | (definition) Inflammatory when the lower-cased character contains "inflammatory", "night" or "terebrante", Mechanical otherwise |
| Bayesian.IldOf | src/sadit/inference/bayesian.py:112 | (definition) Short below 3 months, Long otherwise |
| Bayesian.ImagingOf | src/sadit/inference/bayesian.py:114-115 | (definition) Loose when the lower-cased status contains "loose" or "radiolucent", Stable otherwise |
| Bayesian.MobilityOf | src/sadit/inference/bayesian.py:117-118 | (definition) Assisted when the lower-cased aid is exactly cane, walker or wheelchair, Independent otherwise |
| Bayesian.SaditBayesianEngine.constructor | src/sadit/inference/bayesian.py:23-102 | the engine holds the SADIT network |
| Bayesian.SaditBayesianEngine.InferDiagnosis | src/sadit/inference/bayesian.py:104-145 | evidence: Distal iff the lower-cased location contains "distal"; Inflammatory iff the lower-cased character contains "inflammatory", "night" or "terebrante"; Short iff ILD < 3; Loose iff the lower-cased imaging contains "loose" or "radiolucent"; Assisted iff the lower-cased mobility is cane, walker or wheelchair. Values: positive, summing to 1, each equal to its joint over the marginal. Label: Scenario_B_Loosening or Infection_PJI exactly on strict dominance, otherwise Scenario_A_Impact |
| Bayesian.DistalImpactEvidence | tests/test_bayesian_learning.py:15-23 | "distal", "mechanical", "Stable" and "none" discretise to Distal, Mechanical, Stable and Independent |
| Bayesian.DistalImpactPosterior | tests/test_bayesian_learning.py:29-32 | for that evidence P(Scenario A) = 0.166212 / 0.167796 > 0.8 |
| Bayesian.DistalImpactCase | tests/test_bayesian_learning.py:15-32 | the first test case yields Scenario_A_Impact with posterior above 0.8 |
| Bayesian.InguinalLooseningEvidence | tests/test_bayesian_learning.py:34-42 | "inguinal", "mechanical", "Radiolucent Line" and "cane" discretise to Inguinal, Mechanical, Loose and Assisted |
| Bayesian.InguinalLooseningPosterior | tests/test_bayesian_learning.py:48-51 | for that evidence P(Scenario B) = 0.15552 / 0.160281 > 0.8 |
| Bayesian.InguinalLooseningCase | tests/test_bayesian_learning.py:34-51 | the second test case yields Scenario_B_Loosening with posterior above 0.8 |
| Orchestrator.ConsensusBounds | src/sadit/inference/orchestrator.py:51-58 | the largest of three positive probabilities summing to 1 lies in [1/3, 1); with the physics boost it lies in [1/3, 0.99] |
| Orchestrator.ImplantMaterial | src/sadit/inference/orchestrator.py:31 | the stem is always a catalog key; it is cobalt-chrome exactly when the lower-cased implant name contains "austin" |
| Orchestrator.ImplantRatioAboveThreshold | src/sadit/inference/orchestrator.py:31-35 | the stem-to-cortical-bone lookup always succeeds, and its ratio exceeds 8 exactly for an Austin-Moore stem |
| Orchestrator.LabelSubstrings | src/sadit/inference/orchestrator.py:56-61 | among the three labels, only Scenario_A_Impact contains "Scenario_A" and only Infection_PJI contains "Infection" |
| Orchestrator.Synthesis | src/sadit/inference/orchestrator.py:49-71 | (reference definition) the consensus "Bayesian Consensus: " + label with the largest posterior. When the tip stress is critical and the label is Scenario_A_Impact, it appends the physics mechanism, adds 0.10 capped at 0.99, and appends the physics citation. It prefixes "CRITICAL: " for Infection_PJI. The interval is ±0.05 with the upper end capped at 1, and the citation names the network and the confidence before the boost, to two decimals |
| Orchestrator.SynthesisBounds | src/sadit/inference/orchestrator.py:49-73 | for positive posteriors summing to 1: confidence in [1/3, 1), 0 < lower ≤ confidence ≤ upper ≤ 1, and the result passes the evidence gate |
| Orchestrator.SynthesisCriticalIff | src/sadit/inference/orchestrator.py:49-62 | the diagnosis starts with "CRITICAL: " exactly when the consensus is Infection_PJI |
| Orchestrator.PhysicsIgnoredWithoutCriticalTip | src/sadit/inference/orchestrator.py:56-59 | without critical tip stress, the mechanism and the physics citation do not enter the result |
| Orchestrator.PhysicsCritical | src/sadit/inference/orchestrator.py:31-35 | (definition) the tip stress of the case is critical: the implant name contains "austin" (a cobalt-chrome stem, ratio above 8) and the pain location is exactly "distal" |
| Orchestrator.Synthesize | src/sadit/inference/orchestrator.py:49-71 | for any of the three labels, the in-place refinement by substring tests equals the declarative synthesis (boost iff tip Critical and label Scenario_A_Impact; CRITICAL prefix iff Infection_PJI; ±0.05 interval capped at 1) |
| Orchestrator.SaditOrchestrator.constructor | src/sadit/inference/orchestrator.py:15-18 | the orchestrator's classifier holds the SADIT network |
| Orchestrator.SaditOrchestrator.AnalyzeCase | src/sadit/inference/orchestrator.py:20-75 | fails exactly when an image is supplied and the image gate rejects it, with that error; otherwise the result is the synthesis of the classifier's output for the case, with critical tip stress exactly for an Austin-Moore stem and pain location "distal" |
| Orchestrator.AnalysisIsRepeatable | src/sadit/inference/orchestrator.py:20-75 | two analyses of the same case give the same result |
| Orchestrator.AnalysisSound | src/sadit/inference/orchestrator.py:20-75 | every analysed case has confidence in [1/3, 1) inside an interval within (0, 1], passes the evidence gate, and is flagged CRITICAL exactly for an infection consensus |

## Left out

- HTTP API, authentication, persistence, the text parser, the audio and vision modules, the frontend and the scripts: they are not part of this model.
- `train_from_multimodal` (src/sadit/inference/bayesian.py:147-222): it only scans directories and prints a report, and it changes no state of the classifier.
- pgmpy's network construction and variable elimination: replaced by the closed-form naive-Bayes posterior. For this network that is what exact inference computes.
- Compliance.CheckImageSafety: the mean, standard deviation and `20*log10(signal/noise)` over the pixels are not modelled. The image supplies its shape, mean and standard deviation, and the SNR formula is the parameter `snrDb`. NaN and infinite SNRs are not modelled.
- The `metadata` argument of `check_image_safety`: it is unused by the source.
- Floating point: probabilities and ratios are exact reals, so rounding in sums and divisions is not modelled.
- Text.FormatFixed2: `:.2f` is modelled as rounding half up on the exact value, not as IEEE round-half-even on the binary value.
- Text.Lower: `str.lower()` is modelled on ASCII letters only.
- Exception messages: each is represented by a structured error value carrying the same data (shape, SNR, diagnosis, keys), not by its formatted text.
- `MedicalHistory` and `ClinicalInputExtended`: they are not used by the pipeline.
- The semiology engine and the compliance checker keep no state. They are modelled as module-level functions, not classes.
- `AnalyzeCase` computes the semiology result but the source never uses it. The model computes it and discards it the same way.
- Bayesian.DistalImpactCase and Bayesian.InguinalLooseningCase: the repository's test calls `infer_diagnosis` without the required `pain_character` argument. The model supplies "mechanical".
