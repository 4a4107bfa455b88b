/** The coffee registry, `ReglasCafe` (knowledge/reglas_cafe.py). Berry borer, rust and red
    mite each have a complete rule and a weaker rule guarded by the absence of the complete
    diagnosis; root mealybugs, the leaf miner and iron spot have no guarded variant, and a
    mealybug hint from ants has no guard at all. The fallback fires on an empty memory. */
module Cafe {
  import opened Facts
  import opened Inference

  /** The crop key, with a precomposed "é" (U+00E9). */
  const Crop := "caf\U{e9}"

  // The pests the negation guards name.
  const Broca := "Broca del café (Hypothenemus hampei)"
  const Roya := "Roya amarilla del café (Hemileia vastatrix)"
  const AranitaRoja := "Arañita roja del café (Oligonychus yothersi)"

  // knowledge/reglas_cafe.py:27-45
  const BrocaCompleta := Rule(Crop, AllOf({"frutos_perforados", "granos_dañados", "cerezas_caidas"}), [],
    Diagnosis(Broca, 100, Some("5% de frutos brocados"), "broca_completa"))
  // knowledge/reglas_cafe.py:47-67
  const BrocaParcial := Rule(Crop, AtLeast(2, {"frutos_perforados", "granos_dañados", "cerezas_caidas"}), [DiagnosisOf(Broca)],
    Diagnosis("Broca del café (Hypothenemus hampei) – sospecha", 70, Some("5% de frutos brocados"), "broca_parcial"))
  // knowledge/reglas_cafe.py:69-87
  const RoyaCompleta := Rule(Crop, AllOf({"manchas_amarillas_envés", "caida_hojas", "polvo_naranja"}), [],
    Diagnosis(Roya, 100, Some("10% de hojas con lesiones"), "roya_completa"))
  // knowledge/reglas_cafe.py:89-109
  const RoyaInicial := Rule(Crop, AnyOf({"manchas_amarillas_envés", "polvo_naranja"}), [DiagnosisOf(Roya)],
    Diagnosis("Roya amarilla del café (Hemileia vastatrix) – etapa inicial", 80, Some("10% de hojas con lesiones"), "roya_inicial"))
  // knowledge/reglas_cafe.py:111-129
  const CochinillaRaicesCompleta := Rule(Crop, AllOf({"amarillamiento_hojas", "marchitez_plantas", "muerte_plantas"}), [],
    Diagnosis("Cochinillas de raíces del café (Puto barberi, Dysmicoccus spp)", 90, Some("Presencia confirmada en raíces"), "cochinilla_raices_completa"))
  // knowledge/reglas_cafe.py:131-150
  const CochinillaPorHormigas := Rule(Crop, And(Has("hormigas_cuello_tallo"), AtLeast(1, {"amarillamiento_hojas", "marchitez_plantas"})), [],
    Diagnosis("Cochinillas de raíces – indicio por hormigas", 75, Some("Presencia confirmada en raíces"), "cochinilla_por_hormigas"))
  // knowledge/reglas_cafe.py:152-172
  const MinadorCompleto := Rule(Crop, AllOf({"minas_serpentinas_hojas", "defoliacion", "hojas_necroticas"}), [],
    Diagnosis("Minador de hojas del café (Leucoptera coffeella)", 100, Some("Control natural generalmente suficiente"), "minador_completo"))
  // knowledge/reglas_cafe.py:174-192
  const AranitaRojaCompleta := Rule(Crop, AllOf({"hojas_bronceadas", "telaraña_envés", "epoca_seca"}), [],
    Diagnosis(AranitaRoja, 100, Some("Focos visibles en época seca"), "arañita_roja_completa"))
  // knowledge/reglas_cafe.py:194-214
  const AranitaRojaInicial := Rule(Crop, And(Has("hojas_bronceadas"), Has("epoca_seca")), [DiagnosisOf(AranitaRoja)],
    Diagnosis("Arañita roja del café (Oligonychus yothersi) – focos iniciales", 80, Some("Focos visibles en época seca"), "arañita_roja_inicial"))
  // knowledge/reglas_cafe.py:216-236
  const ManchaHierro := Rule(Crop, AllOf({"manchas_necroticas_hojas", "defoliacion", "plantulas_debiles"}), [],
    Diagnosis("Mancha de hierro (Cercospora coffeicola)", 90, Some("15% de incidencia foliar"), "mancha_hierro"))
  // knowledge/reglas_cafe.py:238-256
  const SinDiagnostico := Rule(Crop, Always, [AnyDiagnosis],
    Diagnosis("Sin plaga identificada", 0, Some("N/A"), "sin_diagnostico"))

  const Rules: seq<Rule> := [
    BrocaCompleta, BrocaParcial, RoyaCompleta, RoyaInicial, CochinillaRaicesCompleta,
    CochinillaPorHormigas, MinadorCompleto, AranitaRojaCompleta, AranitaRojaInicial,
    ManchaHierro, SinDiagnostico]

  // ---------------------------------------------------------------------------------------
  // Each test read as a condition on the symptom set

  lemma BrocaCompletaTest(s: set<string>)
    ensures Holds(BrocaCompleta.when, s) <==> "frutos_perforados" in s && "granos_dañados" in s && "cerezas_caidas" in s
  {
  }

  lemma BrocaParcialTest(s: set<string>)
    ensures Holds(BrocaParcial.when, s) <==> |{"frutos_perforados", "granos_dañados", "cerezas_caidas"} * s| >= 2
  {
  }

  lemma RoyaCompletaTest(s: set<string>)
    ensures Holds(RoyaCompleta.when, s) <==> "manchas_amarillas_envés" in s && "caida_hojas" in s && "polvo_naranja" in s
  {
  }

  lemma RoyaInicialTest(s: set<string>)
    ensures Holds(RoyaInicial.when, s) <==> ("manchas_amarillas_envés" in s || "polvo_naranja" in s)
  {
  }

  lemma CochinillaRaicesCompletaTest(s: set<string>)
    ensures Holds(CochinillaRaicesCompleta.when, s) <==> "amarillamiento_hojas" in s && "marchitez_plantas" in s && "muerte_plantas" in s
  {
  }

  lemma CochinillaPorHormigasTest(s: set<string>)
    ensures Holds(CochinillaPorHormigas.when, s) <==> "hormigas_cuello_tallo" in s && ("amarillamiento_hojas" in s || "marchitez_plantas" in s)
  {
    HasAndOneOfTwo("hormigas_cuello_tallo", "amarillamiento_hojas", "marchitez_plantas", s);
  }

  lemma MinadorCompletoTest(s: set<string>)
    ensures Holds(MinadorCompleto.when, s) <==> "minas_serpentinas_hojas" in s && "defoliacion" in s && "hojas_necroticas" in s
  {
  }

  lemma AranitaRojaCompletaTest(s: set<string>)
    ensures Holds(AranitaRojaCompleta.when, s) <==> "hojas_bronceadas" in s && "telaraña_envés" in s && "epoca_seca" in s
  {
  }

  lemma AranitaRojaInicialTest(s: set<string>)
    ensures Holds(AranitaRojaInicial.when, s) <==> "hojas_bronceadas" in s && "epoca_seca" in s
  {
  }

  lemma ManchaHierroTest(s: set<string>)
    ensures Holds(ManchaHierro.when, s) <==> "manchas_necroticas_hojas" in s && "defoliacion" in s && "plantulas_debiles" in s
  {
  }

  // ---------------------------------------------------------------------------------------
  // Firing conditions

  lemma BrocaFiring(c: Case)
    ensures FiredAt(Rules, c, 0) <==>
      c.crop == Crop && "frutos_perforados" in c.symptoms && "granos_dañados" in c.symptoms && "cerezas_caidas" in c.symptoms
    ensures FiredAt(Rules, c, 1) <==>
      c.crop == Crop && |{"frutos_perforados", "granos_dañados", "cerezas_caidas"} * c.symptoms| >= 2 &&
      !("frutos_perforados" in c.symptoms && "granos_dañados" in c.symptoms && "cerezas_caidas" in c.symptoms)
  {
    BrocaGuard();
    FiresWithoutGuards(Rules, c, 0);
    Suppression(Rules, c, 0, 1);
    BrocaCompletaTest(c.symptoms);
    BrocaParcialTest(c.symptoms);
  }

  lemma BrocaGuard()
    ensures Rules[0].unless == [] && Rules[1].unless == [DiagnosisOf(Rules[0].asserts.pest)]
  {
  }

  lemma RoyaFiring(c: Case)
    ensures FiredAt(Rules, c, 2) <==>
      c.crop == Crop && "manchas_amarillas_envés" in c.symptoms && "caida_hojas" in c.symptoms && "polvo_naranja" in c.symptoms
    ensures FiredAt(Rules, c, 3) <==>
      c.crop == Crop && ("manchas_amarillas_envés" in c.symptoms || "polvo_naranja" in c.symptoms) &&
      !("manchas_amarillas_envés" in c.symptoms && "caida_hojas" in c.symptoms && "polvo_naranja" in c.symptoms)
  {
    RoyaGuard();
    FiresWithoutGuards(Rules, c, 2);
    Suppression(Rules, c, 2, 3);
    RoyaCompletaTest(c.symptoms);
    RoyaInicialTest(c.symptoms);
  }

  lemma RoyaGuard()
    ensures Rules[2].unless == [] && Rules[3].unless == [DiagnosisOf(Rules[2].asserts.pest)]
    ensures forall m :: 0 <= m < 3 && m != 2 ==> Rules[m].asserts.pest != Rules[2].asserts.pest
  {
  }

  lemma AranitaRojaFiring(c: Case)
    ensures FiredAt(Rules, c, 7) <==>
      c.crop == Crop && "hojas_bronceadas" in c.symptoms && "telaraña_envés" in c.symptoms && "epoca_seca" in c.symptoms
    ensures FiredAt(Rules, c, 8) <==>
      c.crop == Crop && "hojas_bronceadas" in c.symptoms && "epoca_seca" in c.symptoms &&
      !("hojas_bronceadas" in c.symptoms && "telaraña_envés" in c.symptoms && "epoca_seca" in c.symptoms)
  {
    AranitaRojaGuard();
    FiresWithoutGuards(Rules, c, 7);
    Suppression(Rules, c, 7, 8);
    AranitaRojaCompletaTest(c.symptoms);
    AranitaRojaInicialTest(c.symptoms);
  }

  lemma AranitaRojaGuard()
    ensures Rules[7].unless == [] && Rules[8].unless == [DiagnosisOf(Rules[7].asserts.pest)]
    ensures forall m :: 0 <= m < 8 && m != 7 ==> Rules[m].asserts.pest != Rules[7].asserts.pest
  {
  }


  /** The rules without a guarded variant fire exactly when their tests hold: root mealybugs
      (0.9), the ant hint (0.75), the leaf miner (1.0) and iron spot (0.9). */
  lemma UnpairedFiring(c: Case)
    ensures FiredAt(Rules, c, 4) <==>
      c.crop == Crop && "amarillamiento_hojas" in c.symptoms && "marchitez_plantas" in c.symptoms &&
      "muerte_plantas" in c.symptoms
    ensures FiredAt(Rules, c, 5) <==>
      c.crop == Crop && "hormigas_cuello_tallo" in c.symptoms &&
      ("amarillamiento_hojas" in c.symptoms || "marchitez_plantas" in c.symptoms)
    ensures FiredAt(Rules, c, 6) <==>
      c.crop == Crop && "minas_serpentinas_hojas" in c.symptoms && "defoliacion" in c.symptoms &&
      "hojas_necroticas" in c.symptoms
    ensures FiredAt(Rules, c, 9) <==>
      c.crop == Crop && "manchas_necroticas_hojas" in c.symptoms && "defoliacion" in c.symptoms &&
      "plantulas_debiles" in c.symptoms
    ensures Rules[4].asserts.certainty == 90 && Rules[5].asserts.certainty == 75
    ensures Rules[6].asserts.certainty == 100 && Rules[9].asserts.certainty == 90
  {
    FiresWithoutGuards(Rules, c, 4);
    CochinillaRaicesCompletaTest(c.symptoms);
    FiresWithoutGuards(Rules, c, 5);
    CochinillaPorHormigasTest(c.symptoms);
    FiresWithoutGuards(Rules, c, 6);
    MinadorCompletoTest(c.symptoms);
    FiresWithoutGuards(Rules, c, 9);
    ManchaHierroTest(c.symptoms);
  }

  /** `sin_diagnostico` fires exactly when none of the ten rules before it fired, which is
      exactly when none of their tests holds; it reports certainty 0. */
  lemma SinDiagnosticoFiring(c: Case)
    ensures FiredAt(Rules, c, 10) <==> c.crop == Crop && forall j :: 0 <= j < 10 ==> !FiredAt(Rules, c, j)
    ensures FiredAt(Rules, c, 10) <==>
      c.crop == Crop && forall j :: 0 <= j < 10 ==> !Holds(Rules[j].when, c.symptoms)
    ensures Rules[10].asserts == Diagnosis("Sin plaga identificada", 0, Some("N/A"), "sin_diagnostico")
  {
    FallbackFires(Rules, c, 10);
    FallbackApplies(Rules, c, 10);
  }

  // ---------------------------------------------------------------------------------------
  // Complete and weaker variants

  /** The complete borer diagnosis is certain and its threshold starts with "5%"; the
      suspicion keeps that threshold at 0.7, and the weaker rust and red mite diagnoses rank
      at 0.8, below their complete ones. */
  lemma Certainties()
    ensures BrocaCompleta.asserts.certainty == 100 && "5%" <= BrocaCompleta.asserts.threshold.value
    ensures BrocaParcial.asserts.certainty == 70 && BrocaParcial.asserts.threshold == BrocaCompleta.asserts.threshold
    ensures RoyaInicial.asserts.certainty == 80 < RoyaCompleta.asserts.certainty == 100
    ensures AranitaRojaInicial.asserts.certainty == 80 < AranitaRojaCompleta.asserts.certainty == 100
  {
  }

  /** Every coffee certainty lies between 0 and 1. */
  lemma CertaintiesInRange()
    ensures forall i :: 0 <= i < |Rules| ==> 0 <= Rules[i].asserts.certainty <= 100
  {
  }

  /** Every complete test implies its weaker test, so only the negation guard keeps the
      weaker diagnosis out once the complete one was made. */
  lemma CompleteImpliesWeaker(s: set<string>)
    ensures Holds(BrocaCompleta.when, s) ==> Holds(BrocaParcial.when, s)
    ensures Holds(RoyaCompleta.when, s) ==> Holds(RoyaInicial.when, s)
    ensures Holds(AranitaRojaCompleta.when, s) ==> Holds(AranitaRojaInicial.when, s)
  {
    if Holds(BrocaCompleta.when, s) {
      CountReached(2, BrocaParcial.when.tags, {"frutos_perforados", "cerezas_caidas"}, s);
    }
    RoyaCompletaTest(s);
    RoyaInicialTest(s);
  }

  // ---------------------------------------------------------------------------------------
  // Single symptoms

  /** Ants at the stem alone, the dry season alone or defoliation alone match no rule but
      the fallback: the ant hint also needs yellowing or wilting, the red mite needs bronzed
      leaves, and every rule naming defoliation needs two more tags. */
  lemma LoneSymptom(x: string)
    requires x == "hormigas_cuello_tallo" || x == "epoca_seca" || x == "defoliacion"
    ensures Outcome(Rules, Case(Crop, {x})) == [SinDiagnostico.asserts]
  {
    LoneQuiet0(x);
    LoneQuiet1(x);
    QuietJoin(Rules, {x}, 0, 5, 10);
    OnlyFallback(Rules, Case(Crop, {x}));
  }

  lemma LoneQuiet0(x: string)
    requires x == "hormigas_cuello_tallo" || x == "epoca_seca" || x == "defoliacion"
    ensures Quiet(Rules, {x}, 0, 5)
  {
    TooFewSymptoms(2, BrocaParcial.when.tags, {x});
  }

  lemma LoneQuiet1(x: string)
    requires x == "hormigas_cuello_tallo" || x == "epoca_seca" || x == "defoliacion"
    ensures Quiet(Rules, {x}, 5, 10)
  {
    CochinillaPorHormigasTest({x});
  }
}
