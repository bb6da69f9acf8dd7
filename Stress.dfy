/** Load-transfer assessment from the stiffness ratio and the pain location (Wolff's law). */
module Stress {
  import opened Wrappers

  datatype RiskLevel = Low | High | Critical

  /** The record `assess_stress_conditions` returns; `description` is the optional key. */
  datatype StressAssessment = StressAssessment(
    stressShieldingRisk: RiskLevel,
    tipStressRisk: RiskLevel,
    mechanism: string,
    citation: string,
    description: Option<string>)

  const MismatchThreshold: real := 8.0
  const BalancedMechanism := "Balanced Load Transfer"
  const ResorptionMechanism := "High Stiffness Mismatch causing Proximal Resorption"
  const WolffCitation := "Wolff's Law (1892) - Bone Remodeling"
  const PedestalDescription := "Load bypasses proximal bone and concentrates at stem tip (Pedestal Effect)."

  /**
   * Starts from a balanced assessment and overwrites its entries: a ratio
   * above 8.0 means high shielding risk, and distal pain on top of that
   * means critical stress at the stem tip.
   */
  method AssessStressConditions(mismatchRatio: real, painLocation: string) returns (result: StressAssessment)
    ensures result.citation == WolffCitation
    ensures result.stressShieldingRisk == (if mismatchRatio > MismatchThreshold then High else Low)
    ensures result.mechanism == (if mismatchRatio > MismatchThreshold then ResorptionMechanism else BalancedMechanism)
    ensures result.tipStressRisk == Critical <==> mismatchRatio > MismatchThreshold && painLocation == "distal"
    ensures result.tipStressRisk != Critical ==> result.tipStressRisk == Low
    ensures result.tipStressRisk == Critical ==> result.stressShieldingRisk == High
    ensures result.description.Some? <==> result.tipStressRisk == Critical
    ensures result.description.Some? ==> result.description.value == PedestalDescription
  {
    result := StressAssessment(Low, Low, BalancedMechanism, WolffCitation, None);
    if mismatchRatio > MismatchThreshold {
      result := result.(stressShieldingRisk := High);
      result := result.(mechanism := ResorptionMechanism);
      if painLocation == "distal" {
        result := result.(tipStressRisk := Critical);
        result := result.(description := Some(PedestalDescription));
      }
    }
  }
}
