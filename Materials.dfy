/** The fixed material catalog and the implant-to-bone stiffness ratio. */
module Materials {
  import opened Wrappers

  datatype MaterialProperties = MaterialProperties(
    name: string,
    youngsModulusGpa: real,
    density: real,
    citation: string)

  /** The ValueError raised for a key missing from the catalog. */
  datatype LookupError = UnknownMaterial(materialKey: string, boneKey: string)

  const CorticalBone := "cortical_bone"
  const CancellousBone := "cancellous_bone"
  const TitaniumAlloy := "titanium_alloy"
  const CobaltChrome := "cobalt_chrome"
  const StainlessSteel := "stainless_steel"

  /** `MaterialBioMatch.MATERIALS`, a process-wide constant table. */
  const Catalog: map<string, MaterialProperties> := map[
    CorticalBone := MaterialProperties("Cortical Bone", 18.0, 1.9, "Rho, Hobatho, Ashman 1993"),
    CancellousBone := MaterialProperties("Cancellous Bone", 1.5, 0.9, "Morgan 2003"),
    TitaniumAlloy := MaterialProperties("Ti-6Al-4V", 110.0, 4.4, "Standard ASTM F136"),
    CobaltChrome := MaterialProperties("Co-Cr-Mo (Austin-Moore)", 220.0, 8.3, "Standard ASTM F75"),
    StainlessSteel := MaterialProperties("316L SS", 193.0, 8.0, "Standard ASTM F138")
  ]

  /** The catalog holds exactly five materials, each with a positive modulus. */
  lemma CatalogShape()
    ensures Catalog.Keys == {CorticalBone, CancellousBone, TitaniumAlloy, CobaltChrome, StainlessSteel}
    ensures forall k :: k in Catalog ==> Catalog[k].youngsModulusGpa > 0.0
  {
  }

  /**
   * Ratio of implant stiffness to bone stiffness. Fails when either key is
   * not in the catalog; the bone defaults to cortical bone.
   */
  function CalculateStiffnessMismatch(materialKey: string, boneKey: string := CorticalBone): (r: Result<real, LookupError>)
    ensures r.Success? <==> materialKey in Catalog && boneKey in Catalog
    ensures r.Failure? ==> r.error == UnknownMaterial(materialKey, boneKey)
    ensures r.Success? ==>
      && r.value > 0.0
      && r.value * Catalog[boneKey].youngsModulusGpa == Catalog[materialKey].youngsModulusGpa
  {
    CatalogShape();
    if materialKey !in Catalog || boneKey !in Catalog then
      Failure(UnknownMaterial(materialKey, boneKey))
    else
      Success(Catalog[materialKey].youngsModulusGpa / Catalog[boneKey].youngsModulusGpa)
  }

  /** A material compared with itself has ratio exactly 1. */
  lemma SelfRatioIsOne(key: string)
    requires key in Catalog
    ensures CalculateStiffnessMismatch(key, key) == Success(1.0)
  {
    CatalogShape();
  }

  /** The three stem alloys against cortical bone, and where they fall against the 8.0 threshold. */
  lemma AlloysAgainstCorticalBone()
    ensures CalculateStiffnessMismatch(CobaltChrome) == Success(220.0 / 18.0)
    ensures CalculateStiffnessMismatch(TitaniumAlloy) == Success(110.0 / 18.0)
    ensures CalculateStiffnessMismatch(StainlessSteel) == Success(193.0 / 18.0)
    ensures 220.0 / 18.0 > 8.0 && 193.0 / 18.0 > 8.0 && 110.0 / 18.0 <= 8.0
  {
  }
}
