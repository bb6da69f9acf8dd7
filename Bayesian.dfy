/**
 * The naive-Bayes diagnostic classifier: a hidden three-state Diagnosis with
 * five binary children, evidence discretised from free text, an exact
 * posterior and a strict-dominance label rule.
 */
module Bayesian {
  import opened Text

  datatype Diagnosis = ScenarioA | ScenarioB | Infection

  datatype Location = Distal | Inguinal
  datatype PainType = Mechanical | Inflammatory
  datatype Ild = Short | Long
  datatype Imaging = Stable | Loose
  datatype Mobility = Independent | Assisted

  /** The `evidence` mapping fed to the query. */
  datatype Evidence = Evidence(location: Location, painType: PainType, ild: Ild, imaging: Imaging, mobility: Mobility)

  /** One value per diagnosis, in the order Scenario_A, Scenario_B, Infection. */
  datatype Column = Column(a: real, b: real, i: real) {
    function At(d: Diagnosis): real {
      match d
      case ScenarioA => a
      case ScenarioB => b
      case Infection => i
    }
  }

  /** A binary conditional table: the rows of the first and the second state. */
  datatype Cpd = Cpd(first: Column, second: Column) {
    function Row(firstState: bool): Column {
      if firstState then first else second
    }
  }

  datatype Network = Network(prior: Column, location: Cpd, painType: Cpd, ild: Cpd, imaging: Cpd, mobility: Cpd)

  /** The hand-authored tables of the SADIT classifier. */
  function SaditNetwork(): Network {
    Network(
      Column(0.3, 0.5, 0.2),
      Cpd(Column(0.9, 0.2, 0.3), Column(0.1, 0.8, 0.7)),       // Distal, Inguinal
      Cpd(Column(0.95, 0.90, 0.20), Column(0.05, 0.10, 0.80)), // Mechanical, Inflammatory
      Cpd(Column(0.8, 0.1, 0.4), Column(0.2, 0.9, 0.6)),       // Short, Long
      Cpd(Column(0.9, 0.2, 0.6), Column(0.1, 0.8, 0.4)),       // Stable, Loose
      Cpd(Column(0.9, 0.4, 0.3), Column(0.1, 0.6, 0.7)))       // Independent, Assisted
  }

  predicate Positive(c: Column) {
    c.a > 0.0 && c.b > 0.0 && c.i > 0.0
  }

  /** Both rows positive and every column summing to 1. */
  predicate CpdWellFormed(t: Cpd) {
    && Positive(t.first) && Positive(t.second)
    && t.first.a + t.second.a == 1.0
    && t.first.b + t.second.b == 1.0
    && t.first.i + t.second.i == 1.0
  }

  predicate WellFormed(n: Network) {
    && Positive(n.prior) && n.prior.a + n.prior.b + n.prior.i == 1.0
    && CpdWellFormed(n.location) && CpdWellFormed(n.painType) && CpdWellFormed(n.ild)
    && CpdWellFormed(n.imaging) && CpdWellFormed(n.mobility)
  }

  /** The SADIT prior sums to 1 and every column of its tables sums to 1. */
  lemma SaditNetworkWellFormed()
    ensures WellFormed(SaditNetwork())
  {
  }

  /** P(evidence | d): the product of the five table entries the evidence selects. */
  function Likelihood(n: Network, e: Evidence, d: Diagnosis): real {
    n.location.Row(e.location == Distal).At(d)
      * n.painType.Row(e.painType == Mechanical).At(d)
      * n.ild.Row(e.ild == Short).At(d)
      * n.imaging.Row(e.imaging == Stable).At(d)
      * n.mobility.Row(e.mobility == Independent).At(d)
  }

  /** P(d, evidence) = prior(d) * P(evidence | d). */
  function Joint(n: Network, e: Evidence, d: Diagnosis): real {
    n.prior.At(d) * Likelihood(n, e, d)
  }

  /** P(evidence), the normaliser. */
  function Marginal(n: Network, e: Evidence): real {
    Joint(n, e, ScenarioA) + Joint(n, e, ScenarioB) + Joint(n, e, Infection)
  }

  lemma MulPos(x: real, y: real)
    requires x > 0.0 && y > 0.0
    ensures x * y > 0.0
  {
  }

  lemma EntryPositive(t: Cpd, firstState: bool, d: Diagnosis)
    requires CpdWellFormed(t)
    ensures t.Row(firstState).At(d) > 0.0
  {
  }

  lemma ProductPositive(p: real, l1: real, l2: real, l3: real, l4: real, l5: real)
    requires p > 0.0 && l1 > 0.0 && l2 > 0.0 && l3 > 0.0 && l4 > 0.0 && l5 > 0.0
    ensures p * (l1 * l2 * l3 * l4 * l5) > 0.0
  {
    MulPos(l1, l2);
    MulPos(l1 * l2, l3);
    MulPos(l1 * l2 * l3, l4);
    MulPos(l1 * l2 * l3 * l4, l5);
    MulPos(p, l1 * l2 * l3 * l4 * l5);
  }

  /** With every selected entry positive, the joint is positive. */
  lemma JointOfPositiveEntries(n: Network, e: Evidence, d: Diagnosis)
    requires n.prior.At(d) > 0.0
    requires n.location.Row(e.location == Distal).At(d) > 0.0
    requires n.painType.Row(e.painType == Mechanical).At(d) > 0.0
    requires n.ild.Row(e.ild == Short).At(d) > 0.0
    requires n.imaging.Row(e.imaging == Stable).At(d) > 0.0
    requires n.mobility.Row(e.mobility == Independent).At(d) > 0.0
    ensures Joint(n, e, d) > 0.0
  {
    ProductPositive(n.prior.At(d),
      n.location.Row(e.location == Distal).At(d),
      n.painType.Row(e.painType == Mechanical).At(d),
      n.ild.Row(e.ild == Short).At(d),
      n.imaging.Row(e.imaging == Stable).At(d),
      n.mobility.Row(e.mobility == Independent).At(d));
  }

  lemma {:induction false} JointPositive(n: Network, e: Evidence, d: Diagnosis)
    requires WellFormed(n)
    ensures Joint(n, e, d) > 0.0
  {
    EntryPositive(n.location, e.location == Distal, d);
    EntryPositive(n.painType, e.painType == Mechanical, d);
    EntryPositive(n.ild, e.ild == Short, d);
    EntryPositive(n.imaging, e.imaging == Stable, d);
    EntryPositive(n.mobility, e.mobility == Independent, d);
    assert Positive(n.prior);
    JointOfPositiveEntries(n, e, d);
  }

  /** Three positive weights divided by their sum are positive, sum to 1 and keep their proportions. */
  lemma Normalise(x: real, y: real, w: real)
    requires x > 0.0 && y > 0.0 && w > 0.0
    ensures var z := x + y + w;
      && z > 0.0
      && x / z > 0.0 && y / z > 0.0 && w / z > 0.0
      && x / z + y / z + w / z == 1.0
      && x / z * z == x && y / z * z == y && w / z * z == w
  {
    var z := x + y + w;
    assert x / z + y / z + w / z == z / z;
  }

  datatype Posterior = Posterior(a: real, b: real, i: real) {
    function At(d: Diagnosis): real {
      match d
      case ScenarioA => a
      case ScenarioB => b
      case Infection => i
    }
  }

  /**
   * P(Diagnosis | evidence) in closed form. For a naive-Bayes network this
   * is what exact inference (variable elimination) computes.
   */
  function Query(n: Network, e: Evidence): (p: Posterior)
    requires WellFormed(n)
    ensures p.a > 0.0 && p.b > 0.0 && p.i > 0.0
    ensures p.a + p.b + p.i == 1.0
    ensures Marginal(n, e) > 0.0
    ensures p == Posterior(Joint(n, e, ScenarioA) / Marginal(n, e), Joint(n, e, ScenarioB) / Marginal(n, e),
                           Joint(n, e, Infection) / Marginal(n, e))
    ensures p.a * Marginal(n, e) == Joint(n, e, ScenarioA)
    ensures p.b * Marginal(n, e) == Joint(n, e, ScenarioB)
    ensures p.i * Marginal(n, e) == Joint(n, e, Infection)
  {
    JointPositive(n, e, ScenarioA);
    JointPositive(n, e, ScenarioB);
    JointPositive(n, e, Infection);
    Normalise(Joint(n, e, ScenarioA), Joint(n, e, ScenarioB), Joint(n, e, Infection));
    var z := Marginal(n, e);
    Posterior(Joint(n, e, ScenarioA) / z, Joint(n, e, ScenarioB) / z, Joint(n, e, Infection) / z)
  }

  /** Scenario_B or Infection only when strictly above both others; otherwise Scenario_A. */
  function PickLabel(p: Posterior): (d: Diagnosis)
    ensures d == ScenarioB <==> p.b > p.a && p.b > p.i
    ensures d == Infection <==> p.i > p.a && p.i > p.b
    ensures d != ScenarioA ==> forall o :: o != d ==> p.At(d) > p.At(o)
  {
    if p.b > p.a && p.b > p.i then ScenarioB
    else if p.i > p.a && p.i > p.b then Infection
    else ScenarioA
  }

  /** A tie between Scenario_B and Infection above Scenario_A still yields Scenario_A, which is not the maximum. */
  lemma TieDefaultsToScenarioA(p: Posterior)
    requires p.b == p.i && p.b > p.a
    ensures PickLabel(p) == ScenarioA
    ensures p.At(PickLabel(p)) < p.b
  {
  }

  /** When the three values are pairwise distinct, the label names the strict maximum. */
  lemma PickLabelIsArgmax(p: Posterior)
    requires p.a != p.b && p.a != p.i && p.b != p.i
    ensures forall o :: o != PickLabel(p) ==> p.At(PickLabel(p)) > p.At(o)
  {
  }

  const ScenarioAName := "Scenario_A_Impact"
  const ScenarioBName := "Scenario_B_Loosening"
  const InfectionName := "Infection_PJI"
  const LabelNames := [ScenarioAName, ScenarioBName, InfectionName]

  function LabelName(d: Diagnosis): string {
    match d
    case ScenarioA => ScenarioAName
    case ScenarioB => ScenarioBName
    case Infection => InfectionName
  }

  // Discretisation of the free-text inputs.

  function LocationOf(location: string): Location {
    if Contains(Lower(location), "distal") then Distal else Inguinal
  }

  function PainTypeOf(painCharacter: string): PainType {
    var c := Lower(painCharacter);
    if Contains(c, "inflammatory") || Contains(c, "night") || Contains(c, "terebrante") then Inflammatory else Mechanical
  }

  function IldOf(ildMonths: int): Ild {
    if ildMonths < 3 then Short else Long
  }

  function ImagingOf(imagingStatus: string): Imaging {
    var s := Lower(imagingStatus);
    if Contains(s, "loose") || Contains(s, "radiolucent") then Loose else Stable
  }

  function MobilityOf(mobility: string): Mobility {
    if Lower(mobility) in ["cane", "walker", "wheelchair"] then Assisted else Independent
  }

  datatype BayesianInferenceResult = BayesianInferenceResult(
    scenarioAProb: real,
    scenarioBProb: real,
    infectionProb: real,
    mostLikelyDiagnosis: string,
    evidenceUsed: Evidence)

  /** The classifier; its network is built once by the constructor and never changed. */
  class SaditBayesianEngine {
    const network: Network

    constructor()
      ensures network == SaditNetwork()
    {
      network := SaditNetwork();
    }

    function InferDiagnosis(location: string, painCharacter: string, ildMonths: int, imagingStatus: string, mobility: string)
      : (r: BayesianInferenceResult)
      requires WellFormed(network)
      ensures r.evidenceUsed.location == Distal <==> Contains(Lower(location), "distal")
      ensures r.evidenceUsed.painType == Inflammatory <==>
        || Contains(Lower(painCharacter), "inflammatory")
        || Contains(Lower(painCharacter), "night")
        || Contains(Lower(painCharacter), "terebrante")
      ensures r.evidenceUsed.ild == Short <==> ildMonths < 3
      ensures r.evidenceUsed.imaging == Loose <==>
        Contains(Lower(imagingStatus), "loose") || Contains(Lower(imagingStatus), "radiolucent")
      ensures r.evidenceUsed.mobility == Assisted <==> Lower(mobility) in ["cane", "walker", "wheelchair"]
      ensures r.scenarioAProb > 0.0 && r.scenarioBProb > 0.0 && r.infectionProb > 0.0
      ensures r.scenarioAProb + r.scenarioBProb + r.infectionProb == 1.0
      ensures r.scenarioAProb * Marginal(network, r.evidenceUsed) == Joint(network, r.evidenceUsed, ScenarioA)
      ensures r.scenarioBProb * Marginal(network, r.evidenceUsed) == Joint(network, r.evidenceUsed, ScenarioB)
      ensures r.infectionProb * Marginal(network, r.evidenceUsed) == Joint(network, r.evidenceUsed, Infection)
      ensures r.mostLikelyDiagnosis == ScenarioBName <==>
        r.scenarioBProb > r.scenarioAProb && r.scenarioBProb > r.infectionProb
      ensures r.mostLikelyDiagnosis == InfectionName <==>
        r.infectionProb > r.scenarioAProb && r.infectionProb > r.scenarioBProb
      ensures r.mostLikelyDiagnosis in LabelNames
    {
      var evidence := Evidence(LocationOf(location), PainTypeOf(painCharacter), IldOf(ildMonths),
                               ImagingOf(imagingStatus), MobilityOf(mobility));
      var p := Query(network, evidence);
      BayesianInferenceResult(p.a, p.b, p.i, LabelName(PickLabel(p)), evidence)
    }
  }
  // Properties of the SADIT tables.

  lemma DivideOrder(x: real, y: real, z: real)
    requires z > 0.0
    ensures x / z > y / z <==> x > y
    ensures x / z == y / z <==> x == y
  {
    assert x / z * z == x && y / z * z == y;
  }

  /** Dividing all three values by the same positive normaliser does not change the label. */
  lemma PickLabelScaleInvariant(p: Posterior, z: real)
    requires z > 0.0
    ensures PickLabel(Posterior(p.a / z, p.b / z, p.i / z)) == PickLabel(p)
  {
    DivideOrder(p.a, p.b, z); DivideOrder(p.b, p.a, z);
    DivideOrder(p.a, p.i, z); DivideOrder(p.i, p.a, z);
    DivideOrder(p.b, p.i, z); DivideOrder(p.i, p.b, z);
  }

  /** Over all 32 evidence assignments the SADIT joints are pairwise distinct, so no tie ever reaches the label rule. */
  lemma SaditJointsDistinct(e: Evidence)
    ensures Joint(SaditNetwork(), e, ScenarioA) != Joint(SaditNetwork(), e, ScenarioB)
    ensures Joint(SaditNetwork(), e, ScenarioA) != Joint(SaditNetwork(), e, Infection)
    ensures Joint(SaditNetwork(), e, ScenarioB) != Joint(SaditNetwork(), e, Infection)
  {
  }

  /** For the SADIT tables the strict-dominance rule always names the unique most probable diagnosis. */
  lemma {:induction false} SaditLabelIsArgmax(e: Evidence)
    ensures forall o :: o != PickLabel(Query(SaditNetwork(), e)) ==>
      Query(SaditNetwork(), e).At(PickLabel(Query(SaditNetwork(), e))) > Query(SaditNetwork(), e).At(o)
  {
    var n := SaditNetwork();
    SaditNetworkWellFormed();
    SaditJointsDistinct(e);
    var p := Query(n, e);
    var z := Marginal(n, e);
    DivideOrder(Joint(n, e, ScenarioA), Joint(n, e, ScenarioB), z);
    DivideOrder(Joint(n, e, ScenarioA), Joint(n, e, Infection), z);
    DivideOrder(Joint(n, e, ScenarioB), Joint(n, e, Infection), z);
    PickLabelIsArgmax(p);
  }

  // The two scenarios of the repository's classifier test.

  lemma DistalImpactEvidence()
    ensures LocationOf("distal") == Distal && PainTypeOf("mechanical") == Mechanical
    ensures ImagingOf("Stable") == Stable && MobilityOf("none") == Independent
  {
    assert Lower("distal") == "distal";
    assert Lower("mechanical") == "mechanical";
    assert Lower("Stable") == "stable";
    assert Lower("none") == "none";
    ContainsSelf("distal");
    NotContainsMissingChar("mechanical", "night", 4);
    NotContainsMissingChar("mechanical", "terebrante", 0);
    NotContainsMissingChar("stable", "loose", 1);
  }

  lemma DistalImpactPosterior()
    ensures Query(SaditNetwork(), Evidence(Distal, Mechanical, Short, Stable, Independent)).a > 0.8
  {
    SaditNetworkWellFormed();
    var e := Evidence(Distal, Mechanical, Short, Stable, Independent);
    assert Joint(SaditNetwork(), e, ScenarioA) == 0.166212;
    assert Marginal(SaditNetwork(), e) == 0.167796;
  }

  /** Distal, mechanical, one month, stable imaging, no aid: Scenario A with posterior above 0.8. */
  lemma DistalImpactCase(engine: SaditBayesianEngine)
    requires engine.network == SaditNetwork()
    ensures engine.InferDiagnosis("distal", "mechanical", 1, "Stable", "none").evidenceUsed
      == Evidence(Distal, Mechanical, Short, Stable, Independent)
    ensures engine.InferDiagnosis("distal", "mechanical", 1, "Stable", "none").scenarioAProb > 0.8
    ensures engine.InferDiagnosis("distal", "mechanical", 1, "Stable", "none").mostLikelyDiagnosis == ScenarioAName
  {
    DistalImpactEvidence();
    DistalImpactPosterior();
    var e := Evidence(Distal, Mechanical, Short, Stable, Independent);
    var p := Query(SaditNetwork(), e);
    assert engine.InferDiagnosis("distal", "mechanical", 1, "Stable", "none")
      == BayesianInferenceResult(p.a, p.b, p.i, LabelName(PickLabel(p)), e);
  }

  lemma InguinalLooseningEvidence()
    ensures LocationOf("inguinal") == Inguinal && PainTypeOf("mechanical") == Mechanical
    ensures ImagingOf("Radiolucent Line") == Loose && MobilityOf("cane") == Assisted
  {
    assert Lower("inguinal") == "inguinal";
    assert Lower("mechanical") == "mechanical";
    assert Lower("Radiolucent Line") == "radiolucent line";
    assert Lower("cane") == "cane";
    NotContainsMissingChar("inguinal", "distal", 0);
    NotContainsMissingChar("mechanical", "night", 4);
    NotContainsMissingChar("mechanical", "terebrante", 0);
    assert OccursAt("radiolucent line", "radiolucent", 0);
  }

  lemma InguinalLooseningPosterior()
    ensures Query(SaditNetwork(), Evidence(Inguinal, Mechanical, Long, Loose, Assisted)).b > 0.8
  {
    SaditNetworkWellFormed();
    var e := Evidence(Inguinal, Mechanical, Long, Loose, Assisted);
    assert Joint(SaditNetwork(), e, ScenarioB) == 0.15552;
    assert Marginal(SaditNetwork(), e) == 0.160281;
  }

  /** Inguinal, mechanical, six months, radiolucent line, cane: Scenario B with posterior above 0.8. */
  lemma InguinalLooseningCase(engine: SaditBayesianEngine)
    requires engine.network == SaditNetwork()
    ensures engine.InferDiagnosis("inguinal", "mechanical", 6, "Radiolucent Line", "cane").evidenceUsed
      == Evidence(Inguinal, Mechanical, Long, Loose, Assisted)
    ensures engine.InferDiagnosis("inguinal", "mechanical", 6, "Radiolucent Line", "cane").scenarioBProb > 0.8
    ensures engine.InferDiagnosis("inguinal", "mechanical", 6, "Radiolucent Line", "cane").mostLikelyDiagnosis
      == ScenarioBName
  {
    InguinalLooseningEvidence();
    InguinalLooseningPosterior();
    var e := Evidence(Inguinal, Mechanical, Long, Loose, Assisted);
    var p := Query(SaditNetwork(), e);
    assert engine.InferDiagnosis("inguinal", "mechanical", 6, "Radiolucent Line", "cane")
      == BayesianInferenceResult(p.a, p.b, p.i, LabelName(PickLabel(p)), e);
  }
}

