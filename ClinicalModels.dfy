/** The clinical data model: the ALICIA pain profile, laboratory markers and the case input. */
module ClinicalModels {
  import opened Wrappers

  /** ALICIA pain profile. Tags are free strings, as produced by the parser or the UI. */
  datatype PainProfile = PainProfile(
    onset: string,
    location: string,
    intensity: int,
    character: string,
    irradiation: bool,
    aggravating: seq<string> := [],
    alleviating: seq<string> := [])

  /** Laboratory results; every marker is optional and absent by default. */
  datatype LabData = LabData(
    pcrLevel: Option<real> := None,
    vsgLevel: Option<real> := None,
    wbcCount: Option<real> := None,
    hemoglobin: Option<real> := None,
    platelets: Option<real> := None,
    creatinine: Option<real> := None)

  datatype ClinicalInput = ClinicalInput(
    painProfile: PainProfile,
    ildMonths: int,
    mobilityAssistance: string,
    labData: Option<LabData> := None)

  /** Python truthiness of an `Optional[float]`: present and non-zero. */
  predicate Truthy(x: Option<real>) {
    x.Some? && x.value != 0.0
  }

  /** `x and x > bound`: truthy and above the bound. */
  predicate TruthyAbove(x: Option<real>, bound: real) {
    Truthy(x) && x.value > bound
  }

  /** Elevated PCR (> 10 mg/L), VSG (> 20 mm/h) or leucocytosis (> 11000/uL). */
  predicate HasInflammatoryMarkers(lab: LabData)
    ensures HasInflammatoryMarkers(lab) <==>
      (lab.pcrLevel.Some? && lab.pcrLevel.value > 10.0)
      || (lab.vsgLevel.Some? && lab.vsgLevel.value > 20.0)
      || (lab.wbcCount.Some? && lab.wbcCount.value > 11000.0)
  {
    TruthyAbove(lab.pcrLevel, 10.0) || TruthyAbove(lab.vsgLevel, 20.0) || TruthyAbove(lab.wbcCount, 11000.0)
  }

  /** With no PCR, VSG or WBC reported, the predicate is false. */
  lemma NoMarkersNotInflammatory(lab: LabData)
    requires lab.pcrLevel.None? && lab.vsgLevel.None? && lab.wbcCount.None?
    ensures !HasInflammatoryMarkers(lab)
  {
  }

  /** The thresholds are strict: values exactly at 10, 20 and 11000 are normal. */
  lemma ThresholdsAreStrict(lab: LabData)
    requires lab.pcrLevel == Some(10.0) && lab.vsgLevel == Some(20.0) && lab.wbcCount == Some(11000.0)
    ensures !HasInflammatoryMarkers(lab)
  {
  }

  /** Hemoglobin, platelets and creatinine never affect the predicate. */
  lemma OtherMarkersIrrelevant(lab: LabData, hemoglobin: Option<real>, platelets: Option<real>, creatinine: Option<real>)
    ensures HasInflammatoryMarkers(lab.(hemoglobin := hemoglobin, platelets := platelets, creatinine := creatinine))
      == HasInflammatoryMarkers(lab)
  {
  }

  /** Replacing one reported marker by a larger value never clears the predicate. */
  lemma InflammatoryMonotone(lab: LabData, pcr: real, vsg: real, wbc: real)
    requires HasInflammatoryMarkers(lab)
    requires lab.pcrLevel.Some? ==> pcr >= lab.pcrLevel.value
    requires lab.vsgLevel.Some? ==> vsg >= lab.vsgLevel.value
    requires lab.wbcCount.Some? ==> wbc >= lab.wbcCount.value
    ensures lab.pcrLevel.Some? ==> HasInflammatoryMarkers(lab.(pcrLevel := Some(pcr)))
    ensures lab.vsgLevel.Some? ==> HasInflammatoryMarkers(lab.(vsgLevel := Some(vsg)))
    ensures lab.wbcCount.Some? ==> HasInflammatoryMarkers(lab.(wbcCount := Some(wbc)))
  {
  }

  /** A default-constructed record reports nothing. */
  lemma DefaultLabDataEmpty()
    ensures LabData() == LabData(None, None, None, None, None, None)
    ensures !HasInflammatoryMarkers(LabData())
  {
  }
}
