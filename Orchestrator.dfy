/**
 * The fusion pipeline: image gate, implant physics, semiology, the
 * Bayesian classifier, synthesis of one result and the evidence gate.
 */
module Orchestrator {
  import opened Wrappers
  import opened Text
  import opened ClinicalModels
  import opened Materials
  import opened Stress
  import opened Semiology
  import opened Bayesian
  import opened Compliance

  const ConsensusPrefix := "Bayesian Consensus: "
  const PhysicsClause := " | CONFIRMED by Physics: "
  const CitationPrefix := "Bayesian Network v1.1.9 (P="
  const CriticalPrefix := "CRITICAL: "

  /** Python's `max(a, b)` on reals. */
  function Max(a: real, b: real): (r: real)
    ensures r >= a && r >= b && (r == a || r == b)
  {
    if b > a then b else a
  }

  /** Python's `min(a, b)` on reals. */
  function Min(a: real, b: real): (r: real)
    ensures r <= a && r <= b && (r == a || r == b)
  {
    if b < a then b else a
  }

  /** The largest of three positive probabilities summing to 1 lies in [1/3, 1), and so does its boost. */
  lemma ConsensusBounds(a: real, b: real, i: real)
    requires a > 0.0 && b > 0.0 && i > 0.0 && a + b + i == 1.0
    ensures 1.0 / 3.0 <= Max(Max(a, b), i) < 1.0
    ensures 1.0 / 3.0 <= Min(0.99, Max(Max(a, b), i) + 0.10) <= 0.99
  {
  }

  /** The stem material: cobalt-chrome for an Austin-Moore implant, titanium alloy otherwise. */
  function ImplantMaterial(implantType: string): (key: string)
    ensures key in Catalog
    ensures key == CobaltChrome <==> Contains(Lower(implantType), "austin")
  {
    if Contains(Lower(implantType), "austin") then CobaltChrome else TitaniumAlloy
  }

  /** The implant's stiffness against cortical bone exceeds 8 exactly for the Austin-Moore (cobalt-chrome) stem. */
  lemma ImplantRatioAboveThreshold(implantType: string)
    ensures CalculateStiffnessMismatch(ImplantMaterial(implantType), CorticalBone).Success?
    ensures CalculateStiffnessMismatch(ImplantMaterial(implantType), CorticalBone).value > MismatchThreshold
      <==> Contains(Lower(implantType), "austin")
  {
  }

  /** Which of the three label strings contain "Scenario_A" and "Infection". */
  lemma {:induction false} LabelSubstrings()
    ensures Contains(ScenarioAName, "Scenario_A")
    ensures !Contains(ScenarioBName, "Scenario_A")
    ensures !Contains(InfectionName, "Scenario_A")
    ensures Contains(InfectionName, "Infection")
    ensures !Contains(ScenarioAName, "Infection")
    ensures !Contains(ScenarioBName, "Infection")
  {
    assert OccursAt(ScenarioAName, "Scenario_A", 0);
    NotContainsMissingChar(ScenarioBName, "Scenario_A", 9);
    NotContainsMissingChar(InfectionName, "Scenario_A", 0);
    assert OccursAt(InfectionName, "Infection", 0);
    NotContainsMissingChar(ScenarioAName, "Infection", 2);
    NotContainsMissingChar(ScenarioBName, "Infection", 2);
  }

  /**
   * The synthesised result: the consensus label and its posterior, boosted by
   * 0.10 (capped at 0.99) when the tip stress is critical and the consensus is
   * Scenario A, prefixed with CRITICAL for an infection, with a +/-0.05
   * interval capped at 1.
   */
  function Synthesis(bayes: BayesianInferenceResult, tipCritical: bool, mechanism: string, physicsCitation: string)
    : DiagnosticResult
  {
    var name := bayes.mostLikelyDiagnosis;
    var top := Max(Max(bayes.scenarioAProb, bayes.scenarioBProb), bayes.infectionProb);
    var boost := tipCritical && name == ScenarioAName;
    var consensus := ConsensusPrefix + name;
    var citation := CitationPrefix + FormatFixed2(top) + ")";
    var p := if boost then Min(0.99, top + 0.10) else top;
    DiagnosticResult(
      if boost then consensus + PhysicsClause + mechanism
      else if name == InfectionName then CriticalPrefix + consensus
      else consensus,
      p,
      (p - 0.05, Min(1.0, p + 0.05)),
      Some(if boost then citation + " + " + physicsCitation else citation))
  }

  /**
   * For three positive values summing to 1 the confidence lies in [1/3, 1),
   * inside an interval within (0, 1], and the result passes the evidence gate.
   */
  lemma SynthesisBounds(bayes: BayesianInferenceResult, tipCritical: bool, mechanism: string, physicsCitation: string)
    requires bayes.scenarioAProb > 0.0 && bayes.scenarioBProb > 0.0 && bayes.infectionProb > 0.0
    requires bayes.scenarioAProb + bayes.scenarioBProb + bayes.infectionProb == 1.0
    ensures var r := Synthesis(bayes, tipCritical, mechanism, physicsCitation);
      && 1.0 / 3.0 <= r.probability < 1.0
      && 0.0 < r.confidenceInterval.0 <= r.probability
      && r.probability <= r.confidenceInterval.1 <= 1.0
      && ValidateInference(r) == Pass
  {
    ConsensusBounds(bayes.scenarioAProb, bayes.scenarioBProb, bayes.infectionProb);
  }

  /** The result carries the CRITICAL prefix exactly for an infection consensus. */
  lemma SynthesisCriticalIff(bayes: BayesianInferenceResult, tipCritical: bool, mechanism: string, physicsCitation: string)
    ensures StartsWith(Synthesis(bayes, tipCritical, mechanism, physicsCitation).diagnosis, CriticalPrefix)
      <==> bayes.mostLikelyDiagnosis == InfectionName
  {
    var name := bayes.mostLikelyDiagnosis;
    var d := Synthesis(bayes, tipCritical, mechanism, physicsCitation).diagnosis;
    if name == InfectionName {
      assert d == CriticalPrefix + (ConsensusPrefix + name);
      StartsWithAppend(CriticalPrefix, ConsensusPrefix + name);
    } else if tipCritical && name == ScenarioAName {
      assert d == ConsensusPrefix + (name + PhysicsClause + mechanism);
      NotStartsWithOtherHead(ConsensusPrefix, CriticalPrefix, name + PhysicsClause + mechanism);
    } else {
      NotStartsWithOtherHead(ConsensusPrefix, CriticalPrefix, name);
    }
  }

  /** Without a critical tip stress the mechanism and the physics citation do not enter the result. */
  lemma PhysicsIgnoredWithoutCriticalTip(bayes: BayesianInferenceResult, m1: string, c1: string, m2: string, c2: string)
    ensures Synthesis(bayes, false, m1, c1) == Synthesis(bayes, false, m2, c2)
  {
  }

  /** The tip stress is critical exactly for an Austin-Moore stem with pain located exactly "distal". */
  predicate PhysicsCritical(implantType: string, painLocation: string) {
    Contains(Lower(implantType), "austin") && painLocation == "distal"
  }

  /** The orchestrator; the classifier is built once by the constructor and shared by every case. */
  class SaditOrchestrator {
    const bayesian: SaditBayesianEngine

    constructor()
      ensures bayesian.network == SaditNetwork()
    {
      bayesian := new SaditBayesianEngine();
    }

    /**
     * Analyses one case. `imageArray` is the optional image, `snrDb` stands
     * for the SNR computation over its pixels.
     */
    method AnalyzeCase(clinicalData: ClinicalInput, implantType: string, imageArray: Option<Image>,
                       snrDb: (real, real) -> real, imagingStatus: string := "Stable")
      returns (r: Result<DiagnosticResult, Failure>)
      requires bayesian.network == SaditNetwork()
      // The image gate is the only way the case can fail.
      ensures r.Failure? <==> imageArray.Some? && CheckImageSafety(imageArray.value, snrDb).Fail?
      ensures r.Failure? ==> r.error == CheckImageSafety(imageArray.value, snrDb).error
      // Otherwise the result is the synthesis of the classifier's output and the implant physics.
      ensures r.Success? ==>
        var pp := clinicalData.painProfile;
        r.value == Synthesis(
          bayesian.InferDiagnosis(pp.location, pp.character, clinicalData.ildMonths,
                                  imagingStatus, clinicalData.mobilityAssistance),
          PhysicsCritical(implantType, pp.location), ResorptionMechanism, WolffCitation)
    {
      // 1. Safety check of the image, when one is supplied.
      if imageArray.Some? {
        var safety := CheckImageSafety(imageArray.value, snrDb);
        if safety.Fail? {
          r := Failure(safety.error);
          return;
        }
      }

      // 2. Physics.
      var matKey := ImplantMaterial(implantType);
      ImplantRatioAboveThreshold(implantType);
      var mismatch := CalculateStiffnessMismatch(matKey, CorticalBone).value;
      var physicsAssess := AssessStressConditions(mismatch, clinicalData.painProfile.location);

      // 3. Rule-based semiology: computed, not merged into the result.
      var clinicalResult := Process(clinicalData);

      // 4. Bayesian inference.
      var pp := clinicalData.painProfile;
      var bayesResult := bayesian.InferDiagnosis(pp.location, pp.character, clinicalData.ildMonths,
                                                 imagingStatus, clinicalData.mobilityAssistance);

      // 5. Synthesis and 6. the evidence gate.
      var finalResult := Synthesize(bayesResult, physicsAssess);
      PhysicsIgnoredWithoutCriticalTip(bayesResult, physicsAssess.mechanism, physicsAssess.citation,
                                       ResorptionMechanism, WolffCitation);
      SynthesisBounds(bayesResult, physicsAssess.tipStressRisk == Critical, physicsAssess.mechanism,
                      physicsAssess.citation);
      r := match ValidateInference(finalResult)
           case Pass => Success(finalResult)
           case Fail(e) => Failure(e);
    }
  }

  /**
   * Steps 5 and 6 of the pipeline: starts from the consensus label and its
   * posterior and refines them in place by the physics assessment and the
   * infection check.
   */
  method Synthesize(bayesResult: BayesianInferenceResult, physicsAssess: StressAssessment) returns (finalResult: DiagnosticResult)
    requires bayesResult.mostLikelyDiagnosis in LabelNames
    ensures finalResult == Synthesis(bayesResult, physicsAssess.tipStressRisk == Critical,
                                     physicsAssess.mechanism, physicsAssess.citation)
  {
    LabelSubstrings();
    var finalDiagnosis := ConsensusPrefix + bayesResult.mostLikelyDiagnosis;
    var finalConfidence := Max(Max(bayesResult.scenarioAProb, bayesResult.scenarioBProb), bayesResult.infectionProb);
    var finalCitation := CitationPrefix + FormatFixed2(finalConfidence) + ")";

    if physicsAssess.tipStressRisk == Critical && Contains(bayesResult.mostLikelyDiagnosis, "Scenario_A") {
      finalDiagnosis := finalDiagnosis + PhysicsClause + physicsAssess.mechanism;
      finalConfidence := Min(0.99, finalConfidence + 0.10);
      finalCitation := finalCitation + " + " + physicsAssess.citation;
    }

    if Contains(bayesResult.mostLikelyDiagnosis, "Infection") {
      finalDiagnosis := CriticalPrefix + finalDiagnosis;
    }

    finalResult := DiagnosticResult(finalDiagnosis, finalConfidence,
                                    (finalConfidence - 0.05, Min(1.0, finalConfidence + 0.05)),
                                    Some(finalCitation));
  }

  /** Two analyses of the same case give the same result: the pipeline keeps no state between calls. */
  method AnalysisIsRepeatable(orchestrator: SaditOrchestrator, clinicalData: ClinicalInput, implantType: string,
                              imageArray: Option<Image>, snrDb: (real, real) -> real, imagingStatus: string)
    returns (first: Result<DiagnosticResult, Failure>, second: Result<DiagnosticResult, Failure>)
    requires orchestrator.bayesian.network == SaditNetwork()
    ensures first == second
  {
    first := orchestrator.AnalyzeCase(clinicalData, implantType, imageArray, snrDb, imagingStatus);
    second := orchestrator.AnalyzeCase(clinicalData, implantType, imageArray, snrDb, imagingStatus);
  }

  /**
   * Every case that passes the image gate yields a confidence in [1/3, 1)
   * inside its interval, passes the evidence gate, and is flagged CRITICAL
   * exactly when the classifier's consensus is an infection.
   */
  lemma AnalysisSound(orchestrator: SaditOrchestrator, clinicalData: ClinicalInput, implantType: string,
                      imagingStatus: string)
    requires orchestrator.bayesian.network == SaditNetwork()
    ensures
      var pp := clinicalData.painProfile;
      var bayes := orchestrator.bayesian.InferDiagnosis(pp.location, pp.character, clinicalData.ildMonths,
                                                        imagingStatus, clinicalData.mobilityAssistance);
      var r := Synthesis(bayes, PhysicsCritical(implantType, pp.location), ResorptionMechanism, WolffCitation);
      && 1.0 / 3.0 <= r.probability < 1.0
      && 0.0 < r.confidenceInterval.0 <= r.probability <= r.confidenceInterval.1 <= 1.0
      && ValidateInference(r) == Pass
      && (StartsWith(r.diagnosis, CriticalPrefix) <==> bayes.mostLikelyDiagnosis == InfectionName)
  {
    var pp := clinicalData.painProfile;
    SaditNetworkWellFormed();
    var bayes := orchestrator.bayesian.InferDiagnosis(pp.location, pp.character, clinicalData.ildMonths,
                                                      imagingStatus, clinicalData.mobilityAssistance);
    SynthesisBounds(bayes, PhysicsCritical(implantType, pp.location), ResorptionMechanism, WolffCitation);
    SynthesisCriticalIff(bayes, PhysicsCritical(implantType, pp.location), ResorptionMechanism, WolffCitation);
  }
}
