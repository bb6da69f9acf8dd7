/** The ALICIA semiology engine: an inflammatory safety score and a first-match rule chain. */
module Semiology {
  import opened Wrappers
  import opened Text
  import opened ClinicalModels
  import opened Compliance

  const InflammatoryCharacters: seq<string> := ["inflammatory", "terebrante", "boring"]
  const DeepBoneCharacters: seq<string> := ["terebrante", "boring", "taladrante"]
  const DrillingCharacters: seq<string> := ["terebrante", "taladrante"]

  const SepticRiskThreshold: real := 0.4

  const AliciaCitation := "ALICIA: Inflammatory/Terebrante markers require ruling out PJI."
  const CriticalTag := "CRITICAL"
  const DeepBoneTail := ": Deep Bone Pain (Osteomyelitic Origin). Suspected Septic Process."
  const DeepBoneMessage := CriticalTag + DeepBoneTail
  const InflammatoryMessage := "WARNING: Inflammatory Pain Profile."
  const TerebranteCitation := "Semiology: 'Terebrante' character indicates intra-osseous pressure/Infection."
  const LooseningMessage := "Probable Aseptic Loosening (Scenario B)"
  const LooseningCitationPrefix := "Inguinal Mechanical Pain + ILD "
  const MismatchMessage := "Potential Material Stiffness Mismatch (Scenario A)"
  const MismatchCitation := "Distal Pain + Mechanical Pattern (Wolff's Law)"
  const UndeterminedMessage := "Undetermined Mechanical Etiology. Correlate with Imaging."
  const UndeterminedCitation := "Clinical features inconclusive."

  /** Score in [0, 1]: 0.6 for an inflammatory character, 0.3 for night pain, 0.2 for no relief at rest, capped at 1. */
  function InflammatorySafetyScore(pp: PainProfile): (r: real)
    ensures 0.0 <= r <= 1.0
  {
    var score := 0.0;
    var score := if pp.character in InflammatoryCharacters then score + 0.6 else score;
    var score := if "night" in pp.aggravating then score + 0.3 else score;
    var score := if "rest" !in pp.alleviating then score + 0.2 else score;
    if 1.0 < score then 1.0 else score
  }

  predicate IsSepticRisk(pp: PainProfile) {
    InflammatorySafetyScore(pp) > SepticRiskThreshold
  }

  /** Septic risk holds exactly for an inflammatory character, or for night pain not relieved by rest. */
  lemma SepticRiskIff(pp: PainProfile)
    ensures IsSepticRisk(pp) <==>
      pp.character in InflammatoryCharacters || ("night" in pp.aggravating && "rest" !in pp.alleviating)
  {
  }

  /** Terebrante night pain without rest relief reaches the cap exactly. */
  lemma TerebranteNightPainCapped(pp: PainProfile)
    requires pp.character == "terebrante" && "night" in pp.aggravating && "rest" !in pp.alleviating
    ensures InflammatorySafetyScore(pp) == 1.0
  {
  }

  /** "mechanical" and "taladrante" add nothing, yet night pain without rest relief still scores 0.5, a septic risk. */
  lemma NightPainAloneIsSepticRisk(pp: PainProfile)
    requires pp.character in ["mechanical", "taladrante"] && "night" in pp.aggravating && "rest" !in pp.alleviating
    ensures InflammatorySafetyScore(pp) == 0.5
    ensures IsSepticRisk(pp)
  {
  }

  /**
   * Labs rule infection out only when both PCR and VSG are reported and
   * truthy (non-zero), PCR < 10 and VSG < 20.
   */
  predicate InfectionRuledOut(data: ClinicalInput) {
    && data.labData.Some?
    && Truthy(data.labData.value.pcrLevel)
    && Truthy(data.labData.value.vsgLevel)
    && data.labData.value.pcrLevel.value < 10.0
    && data.labData.value.vsgLevel.value < 20.0
  }

  /** A PCR of exactly 0 cannot rule infection out, although a PCR of 0.5 with the same VSG does. */
  lemma ZeroPcrCannotRuleOut(data: ClinicalInput, vsg: real)
    requires data.labData == Some(LabData(pcrLevel := Some(0.0), vsgLevel := Some(vsg)))
    requires 0.0 < vsg < 20.0
    ensures !InfectionRuledOut(data)
    ensures InfectionRuledOut(data.(labData := Some(LabData(pcrLevel := Some(0.5), vsgLevel := Some(vsg)))))
  {
  }

  // The results of the five rules, in priority order.

  /** The septic message: CRITICAL for a deep-bone character, a WARNING otherwise. */
  function SepticMessage(character: string): string {
    if character in DeepBoneCharacters then DeepBoneMessage else InflammatoryMessage
  }

  /** The septic message with any suffix starts with CRITICAL exactly for a deep-bone character. */
  lemma SepticMessageCritical(character: string, suffix: string)
    ensures StartsWith(SepticMessage(character) + suffix, CriticalTag) <==> character in DeepBoneCharacters
  {
    if character in DeepBoneCharacters {
      assert SepticMessage(character) + suffix == CriticalTag + (DeepBoneTail + suffix);
      StartsWithAppend(CriticalTag, DeepBoneTail + suffix);
    } else {
      NotStartsWithOtherHead(InflammatoryMessage, CriticalTag, suffix);
    }
  }

  function SepticResult(pp: PainProfile, score: real): (r: DiagnosticResult)
    ensures WellCited(r)
    ensures r.probability == (if pp.character in DrillingCharacters then 0.95 else 0.85)
    ensures r.confidenceInterval == (0.80, 0.95) && r.citationSource == Some(AliciaCitation)
    ensures StartsWith(r.diagnosis, CriticalTag) <==> pp.character in DeepBoneCharacters
  {
    var suffix := " (ISS: " + FormatFixed2(score) + ")";
    SepticMessageCritical(pp.character, suffix);
    DiagnosticResult(
      SepticMessage(pp.character) + suffix,
      0.85 + (if pp.character in DrillingCharacters then 0.1 else 0.0),
      (0.80, 0.95),
      Some(AliciaCitation))
  }

  function DeepBoneResult(): (r: DiagnosticResult)
    ensures WellCited(r) && r.probability == 0.92
    ensures StartsWith(r.diagnosis, CriticalTag)
  {
    StartsWithAppend(CriticalTag, DeepBoneTail);
    DiagnosticResult(DeepBoneMessage, 0.92, (0.88, 0.95), Some(TerebranteCitation))
  }

  function LooseningResult(ildMonths: int): (r: DiagnosticResult)
    ensures WellCited(r) && r.probability == 0.88
    ensures r.citationSource.Some? && Contains(r.citationSource.value, IntToString(ildMonths))
  {
    ContainsMiddle(LooseningCitationPrefix, IntToString(ildMonths), "mo");
    DiagnosticResult(LooseningMessage, 0.88, (0.85, 0.92),
      Some(LooseningCitationPrefix + IntToString(ildMonths) + "mo"))
  }

  function MismatchResult(): (r: DiagnosticResult)
    ensures WellCited(r) && r.probability == 0.85
  {
    DiagnosticResult(MismatchMessage, 0.85, (0.80, 0.90), Some(MismatchCitation))
  }

  function UndeterminedResult(): (r: DiagnosticResult)
    ensures WellCited(r) && r.probability == 0.50
  {
    DiagnosticResult(UndeterminedMessage, 0.50, (0.40, 0.60), Some(UndeterminedCitation))
  }

  /** A result the evidence gate accepts whose probability lies in its own interval. */
  predicate WellCited(r: DiagnosticResult) {
    && r.citationSource.Some?
    && r.citationSource.value != ""
    && r.confidenceInterval.0 <= r.probability <= r.confidenceInterval.1
  }

  /** A well-cited result always passes the evidence gate. */
  lemma WellCitedPassesValidation(r: DiagnosticResult)
    requires WellCited(r)
    ensures ValidateInference(r) == Pass
  {
  }

  /** The five outcomes of the rule chain, in priority order. */
  datatype Verdict = Septic | DeepBone | Loosening | Mismatch | Undetermined

  /** Which rule of the chain fires: the first whose guard holds. */
  function Classify(data: ClinicalInput): Verdict {
    var pp := data.painProfile;
    if InflammatorySafetyScore(pp) > SepticRiskThreshold && !InfectionRuledOut(data) then Septic
    else if pp.character in DeepBoneCharacters then DeepBone
    else if pp.location == "inguinal" && pp.character == "mechanical" then Loosening
    else if pp.location == "distal" && pp.character == "mechanical" then Mismatch
    else Undetermined
  }

  /** The rule chain, first match wins. */
  function Process(data: ClinicalInput): (r: DiagnosticResult)
    ensures WellCited(r) && 0.5 <= r.probability <= 0.95
  {
    var pp := data.painProfile;
    match Classify(data)
    case Septic => SepticResult(pp, InflammatorySafetyScore(pp))
    case DeepBone => DeepBoneResult()
    case Loosening => LooseningResult(data.ildMonths)
    case Mismatch => MismatchResult()
    case Undetermined => UndeterminedResult()
  }

  /** Every result of the semiology engine passes the evidence gate. */
  lemma ProcessPassesValidation(data: ClinicalInput)
    ensures ValidateInference(Process(data)) == Pass
  {
    WellCitedPassesValidation(Process(data));
  }

  /** A deep-bone character (terebrante, boring, taladrante) always yields a CRITICAL message, whatever the labs say. */
  lemma DeepBoneAlwaysCritical(data: ClinicalInput)
    requires data.painProfile.character in DeepBoneCharacters
    ensures StartsWith(Process(data).diagnosis, CriticalTag)
  {
  }

  /** Terebrante night pain without rest relief fires the septic rule unless labs rule infection out; then the deep-bone rule fires. */
  lemma TerebranteNightPain(data: ClinicalInput)
    requires data.painProfile.character == "terebrante"
    requires "night" in data.painProfile.aggravating && "rest" !in data.painProfile.alleviating
    ensures !InfectionRuledOut(data) ==>
      && Process(data).probability == 0.95
      && Process(data).confidenceInterval == (0.80, 0.95)
      && Process(data).citationSource == Some(AliciaCitation)
    ensures InfectionRuledOut(data) ==> Process(data) == DeepBoneResult()
  {
    TerebranteNightPainCapped(data.painProfile);
  }

  // The rule chain as an ordered list of (guard, result) pairs.

  datatype Rule = Rule(applies: bool, result: DiagnosticResult)

  function RuleChain(data: ClinicalInput): seq<Rule> {
    var pp := data.painProfile;
    [ Rule(IsSepticRisk(pp) && !InfectionRuledOut(data), SepticResult(pp, InflammatorySafetyScore(pp))),
      Rule(pp.character in DeepBoneCharacters, DeepBoneResult()),
      Rule(pp.location == "inguinal" && pp.character == "mechanical", LooseningResult(data.ildMonths)),
      Rule(pp.location == "distal" && pp.character == "mechanical", MismatchResult()) ]
  }

  /** Rule `k` applies and no earlier rule does. */
  predicate FirstApplicable(rules: seq<Rule>, k: int)
    requires 0 <= k < |rules|
  {
    rules[k].applies && forall j :: 0 <= j < k ==> !rules[j].applies
  }

  /** The result of the first applicable rule, or the fallback when none applies. */
  function FirstMatch(rules: seq<Rule>, fallback: DiagnosticResult): (r: DiagnosticResult)
    ensures (forall k :: 0 <= k < |rules| ==> !rules[k].applies) ==> r == fallback
    ensures forall k :: 0 <= k < |rules| && FirstApplicable(rules, k) ==> r == rules[k].result
    decreases |rules|
  {
    if rules == [] then fallback
    else if rules[0].applies then rules[0].result
    else
      var r := FirstMatch(rules[1..], fallback);
      assert forall k :: 1 <= k < |rules| ==> rules[k] == rules[1..][k - 1];
      assert forall k :: 1 <= k < |rules| && FirstApplicable(rules, k) ==> FirstApplicable(rules[1..], k - 1);
      r
  }

  /** The if-chain is the ordered rule list evaluated top to bottom. */
  lemma ProcessIsFirstMatch(data: ClinicalInput)
    ensures Process(data) == FirstMatch(RuleChain(data), UndeterminedResult())
  {
    var rules, u := RuleChain(data), UndeterminedResult();
    assert FirstMatch(rules[3..], u) == if rules[3].applies then rules[3].result else FirstMatch(rules[4..], u);
    assert FirstMatch(rules[2..], u) == if rules[2].applies then rules[2].result else FirstMatch(rules[3..], u);
    assert FirstMatch(rules[1..], u) == if rules[1].applies then rules[1].result else FirstMatch(rules[2..], u);
    assert FirstMatch(rules, u) == if rules[0].applies then rules[0].result else FirstMatch(rules[1..], u);
    match Classify(data)
    case Septic => assert rules[0].applies;
    case DeepBone => assert !rules[0].applies && rules[1].applies;
    case Loosening => assert !rules[0].applies && !rules[1].applies && rules[2].applies;
    case Mismatch => assert !rules[0].applies && !rules[1].applies && !rules[2].applies && rules[3].applies;
    case Undetermined => assert !rules[0].applies && !rules[1].applies && !rules[2].applies && !rules[3].applies;
  }

  /** Every rule of the chain, and the fallback, carries a citation and a probability inside its interval. */
  lemma EveryRuleWellCited(data: ClinicalInput)
    ensures forall k :: 0 <= k < |RuleChain(data)| ==> WellCited(RuleChain(data)[k].result)
    ensures WellCited(UndeterminedResult())
  {
  }
}
