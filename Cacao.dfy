/** The cocoa registry, `ReglasCacao` (knowledge/reglas_cacao.py). Frosty pod, witches'
    broom, pod borer and black pod each have a complete rule and a weaker rule guarded by the
    absence of the complete diagnosis. A frosty pod risk rule and the fallback both ask for
    an empty memory: the risk rule also needs humidity and temperature, the fallback
    nothing. */
module Cacao {
  import opened Facts
  import opened Inference

  const Crop := "cacao"

  // The pests the negation guards name.
  const Moniliasis := "Moniliasis del cacao (Moniliophthora roreri)"
  const EscobaBruja := "Escoba de bruja (Moniliophthora perniciosa)"
  const Mazorquero := "Mazorquero del cacao (Carmenta spp)"
  const Phytophthora := "Pudrición negra de mazorca (Phytophthora palmivora)"

  // knowledge/reglas_cacao.py:27-46
  const MoniliasisCompleta := Rule(Crop, AllOf({"manchas_oscuras_mazorca", "polvo_blanco", "pudricion_fruto"}), [],
    Diagnosis(Moniliasis, 100, Some("Pérdidas potenciales 40-90%"), "moniliasis_completa"))
  // knowledge/reglas_cacao.py:48-67
  const MoniliasisParcial := Rule(Crop, AtLeast(2, {"manchas_oscuras_mazorca", "polvo_blanco", "pudricion_fruto"}), [DiagnosisOf(Moniliasis)],
    Diagnosis("Moniliasis del cacao (Moniliophthora roreri) – etapa inicial", 80, Some("Pérdidas potenciales 40-90%"), "moniliasis_parcial"))
  // knowledge/reglas_cacao.py:69-90
  const MoniliasisCondicionesRiesgo := Rule(Crop, And(Has("alta_humedad_ambiente"), Has("temperatura_optima")), [AnyDiagnosis],
    Diagnosis("Riesgo de Moniliasis – condiciones ambientales favorables", 60, Some("Prevención"), "moniliasis_condiciones_riesgo"))
  // knowledge/reglas_cacao.py:92-111
  const EscobaBrujaCompleta := Rule(Crop, AllOf({"brotes_anormales", "hipertrofia_cojines", "escobas_secas"}), [],
    Diagnosis(EscobaBruja, 100, Some("Eliminar tejido infectado inmediatamente"), "escoba_bruja_completa"))
  // knowledge/reglas_cacao.py:113-134
  const EscobaBrujaParcial := Rule(Crop, AnyOf({"brotes_anormales", "hipertrofia_cojines"}), [DiagnosisOf(EscobaBruja)],
    Diagnosis("Escoba de bruja (Moniliophthora perniciosa) – sospecha", 75, Some("Eliminar tejido infectado inmediatamente"), "escoba_bruja_parcial"))
  // knowledge/reglas_cacao.py:136-155
  const MazorqueroCompleto := Rule(Crop, AllOf({"mazorcas_perforadas", "galerias_internas", "adulto_volador_presente"}), [],
    Diagnosis(Mazorquero, 100, Some("Umbral bajo: gran impacto en calidad"), "mazorquero_completo"))
  // knowledge/reglas_cacao.py:157-178
  const MazorqueroParcial := Rule(Crop, AnyOf({"mazorcas_perforadas", "galerias_internas"}), [DiagnosisOf(Mazorquero)],
    Diagnosis("Mazorquero del cacao (Carmenta spp) – daño inicial", 70, Some("Umbral bajo: gran impacto en calidad"), "mazorquero_parcial"))
  // knowledge/reglas_cacao.py:180-199
  const PhytophthoraCompleta := Rule(Crop, AllOf({"manchas_negras_mazorca", "pudricion_rapida", "lluvia_reciente"}), [],
    Diagnosis(Phytophthora, 95, Some("Control preventivo crítico"), "phytophthora_completa"))
  // knowledge/reglas_cacao.py:201-222
  const PhytophthoraInicial := Rule(Crop, And(Has("manchas_negras_mazorca"), Has("lluvia_reciente")), [DiagnosisOf(Phytophthora)],
    Diagnosis("Pudrición negra de mazorca (Phytophthora spp) – etapa inicial", 80, Some("Control preventivo crítico"), "phytophthora_inicial"))
  // knowledge/reglas_cacao.py:224-244
  const SinDiagnostico := Rule(Crop, Always, [AnyDiagnosis],
    Diagnosis("Sin plaga identificada", 0, Some("N/A"), "sin_diagnostico"))

  const Rules: seq<Rule> := [
    MoniliasisCompleta, MoniliasisParcial, MoniliasisCondicionesRiesgo, EscobaBrujaCompleta,
    EscobaBrujaParcial, MazorqueroCompleto, MazorqueroParcial, PhytophthoraCompleta,
    PhytophthoraInicial, SinDiagnostico]

  // ---------------------------------------------------------------------------------------
  // Each test read as a condition on the symptom set

  lemma MoniliasisCompletaTest(s: set<string>)
    ensures Holds(MoniliasisCompleta.when, s) <==> "manchas_oscuras_mazorca" in s && "polvo_blanco" in s && "pudricion_fruto" in s
  {
  }

  lemma MoniliasisParcialTest(s: set<string>)
    ensures Holds(MoniliasisParcial.when, s) <==> |{"manchas_oscuras_mazorca", "polvo_blanco", "pudricion_fruto"} * s| >= 2
  {
  }

  lemma MoniliasisCondicionesRiesgoTest(s: set<string>)
    ensures Holds(MoniliasisCondicionesRiesgo.when, s) <==> "alta_humedad_ambiente" in s && "temperatura_optima" in s
  {
  }

  lemma EscobaBrujaCompletaTest(s: set<string>)
    ensures Holds(EscobaBrujaCompleta.when, s) <==> "brotes_anormales" in s && "hipertrofia_cojines" in s && "escobas_secas" in s
  {
  }

  lemma EscobaBrujaParcialTest(s: set<string>)
    ensures Holds(EscobaBrujaParcial.when, s) <==> ("brotes_anormales" in s || "hipertrofia_cojines" in s)
  {
  }

  lemma MazorqueroCompletoTest(s: set<string>)
    ensures Holds(MazorqueroCompleto.when, s) <==> "mazorcas_perforadas" in s && "galerias_internas" in s && "adulto_volador_presente" in s
  {
  }

  lemma MazorqueroParcialTest(s: set<string>)
    ensures Holds(MazorqueroParcial.when, s) <==> ("mazorcas_perforadas" in s || "galerias_internas" in s)
  {
  }

  lemma PhytophthoraCompletaTest(s: set<string>)
    ensures Holds(PhytophthoraCompleta.when, s) <==> "manchas_negras_mazorca" in s && "pudricion_rapida" in s && "lluvia_reciente" in s
  {
  }

  lemma PhytophthoraInicialTest(s: set<string>)
    ensures Holds(PhytophthoraInicial.when, s) <==> "manchas_negras_mazorca" in s && "lluvia_reciente" in s
  {
  }

  // ---------------------------------------------------------------------------------------
  // Firing conditions

  lemma MoniliasisFiring(c: Case)
    ensures FiredAt(Rules, c, 0) <==>
      c.crop == Crop && "manchas_oscuras_mazorca" in c.symptoms && "polvo_blanco" in c.symptoms && "pudricion_fruto" in c.symptoms
    ensures FiredAt(Rules, c, 1) <==>
      c.crop == Crop && |{"manchas_oscuras_mazorca", "polvo_blanco", "pudricion_fruto"} * c.symptoms| >= 2 &&
      !("manchas_oscuras_mazorca" in c.symptoms && "polvo_blanco" in c.symptoms && "pudricion_fruto" in c.symptoms)
  {
    MoniliasisGuard();
    FiresWithoutGuards(Rules, c, 0);
    Suppression(Rules, c, 0, 1);
    MoniliasisCompletaTest(c.symptoms);
    MoniliasisParcialTest(c.symptoms);
  }

  lemma MoniliasisGuard()
    ensures Rules[0].unless == [] && Rules[1].unless == [DiagnosisOf(Rules[0].asserts.pest)]
  {
  }

  lemma EscobaBrujaFiring(c: Case)
    ensures FiredAt(Rules, c, 3) <==>
      c.crop == Crop && "brotes_anormales" in c.symptoms && "hipertrofia_cojines" in c.symptoms && "escobas_secas" in c.symptoms
    ensures FiredAt(Rules, c, 4) <==>
      c.crop == Crop && ("brotes_anormales" in c.symptoms || "hipertrofia_cojines" in c.symptoms) &&
      !("brotes_anormales" in c.symptoms && "hipertrofia_cojines" in c.symptoms && "escobas_secas" in c.symptoms)
  {
    EscobaBrujaGuard();
    FiresWithoutGuards(Rules, c, 3);
    Suppression(Rules, c, 3, 4);
    EscobaBrujaCompletaTest(c.symptoms);
    EscobaBrujaParcialTest(c.symptoms);
  }

  lemma EscobaBrujaGuard()
    ensures Rules[3].unless == [] && Rules[4].unless == [DiagnosisOf(Rules[3].asserts.pest)]
    ensures forall m :: 0 <= m < 4 && m != 3 ==> Rules[m].asserts.pest != Rules[3].asserts.pest
  {
  }

  lemma MazorqueroFiring(c: Case)
    ensures FiredAt(Rules, c, 5) <==>
      c.crop == Crop && "mazorcas_perforadas" in c.symptoms && "galerias_internas" in c.symptoms && "adulto_volador_presente" in c.symptoms
    ensures FiredAt(Rules, c, 6) <==>
      c.crop == Crop && ("mazorcas_perforadas" in c.symptoms || "galerias_internas" in c.symptoms) &&
      !("mazorcas_perforadas" in c.symptoms && "galerias_internas" in c.symptoms && "adulto_volador_presente" in c.symptoms)
  {
    MazorqueroGuard();
    FiresWithoutGuards(Rules, c, 5);
    Suppression(Rules, c, 5, 6);
    MazorqueroCompletoTest(c.symptoms);
    MazorqueroParcialTest(c.symptoms);
  }

  lemma MazorqueroGuard()
    ensures Rules[5].unless == [] && Rules[6].unless == [DiagnosisOf(Rules[5].asserts.pest)]
    ensures forall m :: 0 <= m < 6 && m != 5 ==> Rules[m].asserts.pest != Rules[5].asserts.pest
  {
  }

  lemma PhytophthoraFiring(c: Case)
    ensures FiredAt(Rules, c, 7) <==>
      c.crop == Crop && "manchas_negras_mazorca" in c.symptoms && "pudricion_rapida" in c.symptoms && "lluvia_reciente" in c.symptoms
    ensures FiredAt(Rules, c, 8) <==>
      c.crop == Crop && "manchas_negras_mazorca" in c.symptoms && "lluvia_reciente" in c.symptoms &&
      !("manchas_negras_mazorca" in c.symptoms && "pudricion_rapida" in c.symptoms && "lluvia_reciente" in c.symptoms)
  {
    PhytophthoraGuard();
    FiresWithoutGuards(Rules, c, 7);
    Suppression(Rules, c, 7, 8);
    PhytophthoraCompletaTest(c.symptoms);
    PhytophthoraInicialTest(c.symptoms);
  }

  lemma PhytophthoraGuard()
    ensures Rules[7].unless == [] && Rules[8].unless == [DiagnosisOf(Rules[7].asserts.pest)]
    ensures forall m :: 0 <= m < 8 && m != 7 ==> Rules[m].asserts.pest != Rules[7].asserts.pest
  {
  }


  /** The risk rule fires when humidity and temperature are both reported and no frosty pod
      rule fired before it, that is when fewer than two frosty pod tags are present; it
      reports 0.6. */
  lemma RiskFiring(c: Case)
    ensures FiredAt(Rules, c, 2) <==>
      c.crop == Crop && "alta_humedad_ambiente" in c.symptoms && "temperatura_optima" in c.symptoms &&
      |{"manchas_oscuras_mazorca", "polvo_blanco", "pudricion_fruto"} * c.symptoms| < 2
    ensures Rules[2].asserts.certainty == 60
  {
    FallbackFires(Rules, c, 2);
    MoniliasisFiring(c);
    MoniliasisCondicionesRiesgoTest(c.symptoms);
    if Holds(MoniliasisCompleta.when, c.symptoms) {
      CountReached(2, MoniliasisParcial.when.tags, {"manchas_oscuras_mazorca", "polvo_blanco"}, c.symptoms);
    }
  }

  /** The risk rule and the fallback both need an empty memory, so at most one of them
      fires in a pass. */
  lemma RiskOrFallback(c: Case)
    ensures !(FiredAt(Rules, c, 2) && FiredAt(Rules, c, 9))
  {
    FallbackFires(Rules, c, 9);
  }

  /** `sin_diagnostico` fires exactly when none of the nine rules before it fired, which is
      exactly when none of their tests holds; it reports certainty 0. */
  lemma SinDiagnosticoFiring(c: Case)
    ensures FiredAt(Rules, c, 9) <==> c.crop == Crop && forall j :: 0 <= j < 9 ==> !FiredAt(Rules, c, j)
    ensures FiredAt(Rules, c, 9) <==>
      c.crop == Crop && forall j :: 0 <= j < 9 ==> !Holds(Rules[j].when, c.symptoms)
    ensures Rules[9].asserts == Diagnosis("Sin plaga identificada", 0, Some("N/A"), "sin_diagnostico")
  {
    FallbackFires(Rules, c, 9);
    FallbackApplies(Rules, c, 9);
  }

  // ---------------------------------------------------------------------------------------
  // Complete and weaker variants

  /** The complete diagnoses are 1.0 (0.95 for black pod); each weaker one ranks below its
      complete one. */
  lemma Certainties()
    ensures MoniliasisCompleta.asserts.certainty == 100 && MoniliasisParcial.asserts.certainty == 80
    ensures EscobaBrujaCompleta.asserts.certainty == 100 && EscobaBrujaParcial.asserts.certainty == 75
    ensures MazorqueroCompleto.asserts.certainty == 100 && MazorqueroParcial.asserts.certainty == 70
    ensures PhytophthoraCompleta.asserts.certainty == 95 && PhytophthoraInicial.asserts.certainty == 80
  {
  }

  /** Every cocoa certainty lies between 0 and 1. */
  lemma CertaintiesInRange()
    ensures forall i :: 0 <= i < |Rules| ==> 0 <= Rules[i].asserts.certainty <= 100
  {
  }

  /** Every complete test implies its weaker test, so only the negation guard keeps the
      weaker diagnosis out once the complete one was made. */
  lemma CompleteImpliesWeaker(s: set<string>)
    ensures Holds(MoniliasisCompleta.when, s) ==> Holds(MoniliasisParcial.when, s)
    ensures Holds(EscobaBrujaCompleta.when, s) ==> Holds(EscobaBrujaParcial.when, s)
    ensures Holds(MazorqueroCompleto.when, s) ==> Holds(MazorqueroParcial.when, s)
    ensures Holds(PhytophthoraCompleta.when, s) ==> Holds(PhytophthoraInicial.when, s)
  {
    if Holds(MoniliasisCompleta.when, s) {
      CountReached(2, MoniliasisParcial.when.tags, {"manchas_oscuras_mazorca", "polvo_blanco"}, s);
    }
    EscobaBrujaCompletaTest(s);
    EscobaBrujaParcialTest(s);
    MazorqueroCompletoTest(s);
    MazorqueroParcialTest(s);
  }
}
