/** The lemon registry, `ReglasLimon` (knowledge/reglas_limon.py): twenty rules with no
    negation guard and no fallback. Nineteen fire when all tags of a set are present; the
    last, `sintomas_generales`, also asks for at most two symptoms. Without guards the
    outcome is every applicable rule's record, whatever the order of the rules. */
module Limon {
  import opened Facts
  import opened Inference

  const Crop := "limon"

  // knowledge/reglas_limon.py:9-29
  const MinadorHojasCompleto := Rule(Crop, AllOf({"hojas_con_minas_serpentinas", "hojas_enrolladas", "hojas_plateadas"}), [],
    Diagnosis("Minador de hojas de los cítricos (Phyllocnistis citrella)", 100, Some("Más del 25% de brotes infestados"), "minador_hojas_completo"))
  // knowledge/reglas_limon.py:30-50
  const PulgonNegroCompleto := Rule(Crop, AllOf({"pulgones_brotes", "hojas_enrolladas", "mielada", "fumagina"}), [],
    Diagnosis("Pulgón negro de los cítricos (Toxoptera aurantii)", 100, Some("5% de brotes con colonias"), "pulgon_negro_completo"))
  // knowledge/reglas_limon.py:51-71
  const AcaroTostadoCompleto := Rule(Crop, AllOf({"frutos_plateados", "cáscara_agrietada", "frutos_pequeños"}), [],
    Diagnosis("Ácaro del tostado (Phyllocoptruta oleivora)", 100, Some("3-5 ácaros por cm² de fruto"), "acaro_tostado_completo"))
  // knowledge/reglas_limon.py:72-92
  const AranitaRojaCompleto := Rule(Crop, AllOf({"hojas_con_puntos_amarillos", "hojas_plateadas", "debilitamiento_planta"}), [],
    Diagnosis("Arañita roja de los cítricos (Panonychus citri)", 100, Some("5-8 ácaros móviles por hoja"), "aranita_roja_completo"))
  // knowledge/reglas_limon.py:93-113
  const QueresaComaCompleto := Rule(Crop, AllOf({"escamas_marrones_hojas", "hojas_amarillentas", "muerte_brotes"}), [],
    Diagnosis("Queresa coma o escama púrpura (Lepidosaphes beckii)", 100, Some("Más de 10 escamas por hoja"), "queresa_coma_completo"))
  // knowledge/reglas_limon.py:114-134
  const QueresaRedondaCompleto := Rule(Crop, AllOf({"escamas_marrones_hojas", "frutos_con_manchas_oscuras", "debilitamiento_planta"}), [],
    Diagnosis("Queresa redonda de los cítricos (Selenaspidus articulatus)", 100, Some("Más de 2 mm de diámetro por escama"), "queresa_redonda_completo"))
  // knowledge/reglas_limon.py:135-155
  const PiojoBlancoCompleto := Rule(Crop, AllOf({"escamas_blancas_hojas", "mielada", "fumagina"}), [],
    Diagnosis("Piojo blanco de los cítricos (Pinnaspis aspidistrae)", 100, Some("Presencia visible en más del 10% de hojas"), "piojo_blanco_completo"))
  // knowledge/reglas_limon.py:156-176
  const MoscaBlancaLanudaCompleto := Rule(Crop, AllOf({"moscas_blancas_envés", "mielada", "fumagina", "hojas_amarillentas"}), [],
    Diagnosis("Mosca blanca lanuda de los cítricos (Aleurothrixus floccosus)", 100, Some("Más de 5 ninfas por hoja"), "mosca_blanca_lanuda_completo"))
  // knowledge/reglas_limon.py:177-197
  const MoscaNegraCompleto := Rule(Crop, AllOf({"moscas_blancas_envés", "fumagina", "frutos_decolorados"}), [],
    Diagnosis("Mosca negra de los cítricos (Aleurocanthus woglumi)", 100, Some("Más de 10 ninfas por hoja"), "mosca_negra_completo"))
  // knowledge/reglas_limon.py:198-218
  const CochinillaHarinosaCompleto := Rule(Crop, AllOf({"insectos_algodonosos", "mielada", "frutos_deformados"}), [],
    Diagnosis("Cochinilla harinosa de los cítricos (Planococcus citri)", 100, Some("Presencia en frutos o cáliz"), "cochinilla_harinosa_completo"))
  // knowledge/reglas_limon.py:219-239
  const AcaroHialinoCompleto := Rule(Crop, AllOf({"frutos_plateados", "hojas_deformadas", "frutos_deformados"}), [],
    Diagnosis("Ácaro hialino (Polyphagotarsonemus latus)", 100, Some("Presencia de ácaro en brotes tiernos"), "acaro_hialino_completo"))
  // knowledge/reglas_limon.py:240-260
  const QueresaVerdeCompleto := Rule(Crop, AllOf({"escamas_marrones_hojas", "mielada", "debilitamiento_planta"}), [],
    Diagnosis("Queresa verde (Coccus viridis)", 90, Some("Más de 5 escamas por hoja"), "queresa_verde_completo"))
  // knowledge/reglas_limon.py:261-281
  const GusanoPerroCompleto := Rule(Crop, AllOf({"hojas_deformadas", "debilitamiento_planta"}), [],
    Diagnosis("Gusano perro del naranjo (Heraclides thoas nealces)", 85, Some("Presencia de larvas en viveros o plantas jóvenes"), "gusano_perro_completo"))
  // knowledge/reglas_limon.py:282-302
  const QueresaCerosaCompleto := Rule(Crop, AllOf({"escamas_blancas_hojas", "fumagina", "mielada"}), [],
    Diagnosis("Queresa cerosa (Ceroplastes floridensis)", 90, Some("Más de 3 escamas por hoja"), "queresa_cerosa_completo"))
  // knowledge/reglas_limon.py:303-323
  const CochinillaAcanaladaCompleto := Rule(Crop, AllOf({"insectos_algodonosos", "fumagina", "hojas_amarillentas"}), [],
    Diagnosis("Cochinilla acanalada (Icerya purchasi)", 95, Some("Presencia de ovisacos visibles"), "cochinilla_acanalada_completo"))
  // knowledge/reglas_limon.py:324-344
  const PulgonVerdeCompleto := Rule(Crop, AllOf({"pulgones_brotes", "hojas_enrolladas", "mielada"}), [],
    Diagnosis("Pulgón verde de los cítricos (Aphis spiraecola)", 90, Some("Colonias en más del 5% de brotes"), "pulgon_verde_completo"))
  // knowledge/reglas_limon.py:345-365
  const QueresaNegraCompleto := Rule(Crop, AllOf({"escamas_marrones_hojas", "fumagina", "muerte_brotes"}), [],
    Diagnosis("Queresa negra del olivo (Saissetia oleae)", 85, Some("Más de 5 escamas por hoja con forma de H"), "queresa_negra_completo"))
  // knowledge/reglas_limon.py:366-386
  const OrtezidosCompleto := Rule(Crop, AllOf({"escamas_blancas_hojas", "fumagina", "debilitamiento_planta"}), [],
    Diagnosis("Ortézidos (Praelongaorthezia praelonga)", 90, Some("Presencia de ovisacos blancos pulverulentos"), "ortezidos_completo"))
  // knowledge/reglas_limon.py:387-407
  const MoscaMediterraneaParcial := Rule(Crop, AllOf({"frutos_con_manchas_oscuras", "frutos_deformados"}), [],
    Diagnosis("Mosca mediterránea de la fruta (Ceratitis capitata)", 70, Some("Más de 0.5 moscas/trampa/día (MTD)"), "mosca_mediterranea_parcial"))
  // knowledge/reglas_limon.py:408-424
  const SintomasGenerales := Rule(Crop, And(AllOf({"debilitamiento_planta", "hojas_amarillentas"}), SizeAtMost(2)), [],
    Diagnosis("Diagnóstico inconcluso - síntomas generales", 50, Some("No aplicable"), "sintomas_generales"))

  const Rules: seq<Rule> := [
    MinadorHojasCompleto, PulgonNegroCompleto, AcaroTostadoCompleto, AranitaRojaCompleto,
    QueresaComaCompleto, QueresaRedondaCompleto, PiojoBlancoCompleto,
    MoscaBlancaLanudaCompleto, MoscaNegraCompleto, CochinillaHarinosaCompleto,
    AcaroHialinoCompleto, QueresaVerdeCompleto, GusanoPerroCompleto, QueresaCerosaCompleto,
    CochinillaAcanaladaCompleto, PulgonVerdeCompleto, QueresaNegraCompleto, OrtezidosCompleto,
    MoscaMediterraneaParcial, SintomasGenerales]


  // ---------------------------------------------------------------------------------------
  // Every rule on its own

  /** No lemon rule carries a negation guard. */
  lemma NoGuards()
    ensures forall i :: 0 <= i < |Rules| ==> Rules[i].unless == []
  {
  }

  /** The outcome is exactly the records of the rules that apply, in declaration order. */
  lemma OutcomeIsApplicable(c: Case)
    ensures Outcome(Rules, c) == Applicable(Rules, c)
  {
    NoGuards();
    GuardFree(Rules, c, |Rules|);
    assert Rules[..|Rules|] == Rules;
  }

  /** Reordering the rules changes at most the order of the outcome, not its contents. */
  lemma AnyOrder(other: seq<Rule>, c: Case)
    requires multiset(other) == multiset(Rules)
    ensures multiset(Outcome(other, c)) == multiset(Outcome(Rules, c))
  {
    NoGuards();
    OrderIndependent(Rules, other, c);
  }

  /** The first nineteen rules fire exactly when all of their tags are present. */
  lemma SubsetRules(c: Case)
    ensures forall i :: 0 <= i < 19 ==>
      Rules[i].when.AllOf? && (FiredAt(Rules, c, i) <==> c.crop == Crop && Rules[i].when.tags <= c.symptoms)
  {
    NoGuards();
    forall i | 0 <= i < 19
      ensures Rules[i].when.AllOf? && (FiredAt(Rules, c, i) <==> c.crop == Crop && Rules[i].when.tags <= c.symptoms)
    {
      FiresWithoutGuards(Rules, c, i);
    }
  }

  /** `mosca_mediterranea_parcial`, despite its name, has no guard: it fires exactly when
      both fruit tags are present, at 0.7. */
  lemma MoscaMediterraneaFiring(c: Case)
    ensures FiredAt(Rules, c, 18) <==>
      c.crop == Crop && "frutos_con_manchas_oscuras" in c.symptoms && "frutos_deformados" in c.symptoms
    ensures Rules[18].asserts.certainty == 70
  {
    FiresWithoutGuards(Rules, c, 18);
  }

  /** `sintomas_generales` fires exactly when the symptoms are `debilitamiento_planta` and
      `hojas_amarillentas` and nothing else, at 0.5. */
  lemma SintomasGeneralesFiring(c: Case)
    ensures FiredAt(Rules, c, 19) <==>
      c.crop == Crop && c.symptoms == {"debilitamiento_planta", "hojas_amarillentas"}
    ensures Rules[19].asserts.certainty == 50
  {
    FiresWithoutGuards(Rules, c, 19);
    SintomasGeneralesTest(c.symptoms);
    ExactlyTwo(c.symptoms, "debilitamiento_planta", "hojas_amarillentas");
  }

  lemma SintomasGeneralesTest(s: set<string>)
    ensures Holds(SintomasGenerales.when, s) <==> "debilitamiento_planta" in s && "hojas_amarillentas" in s && |s| <= 2
  {
  }

  /** A set holding two different tags has at most two elements exactly when it is those two. */
  lemma ExactlyTwo(s: set<string>, a: string, b: string)
    requires a != b
    ensures a in s && b in s && |s| <= 2 <==> s == {a, b}
  {
    if a in s && b in s && |s| <= 2 && s != {a, b} {
      var x :| x in s && x != a && x != b;
      SubsetSize({a, b, x}, s);
    }
  }

  // ---------------------------------------------------------------------------------------
  // Rules that go together

  /** The black aphid's tags include the green aphid's: whenever the first fires (1.0) the
      second fires too (0.9). */
  lemma PulgonNegroImpliesVerde(c: Case)
    ensures FiredAt(Rules, c, 1) ==> FiredAt(Rules, c, 15)
    ensures Rules[1].asserts.certainty == 100 && Rules[15].asserts.certainty == 90
  {
    FiresWithoutGuards(Rules, c, 1);
    FiresWithoutGuards(Rules, c, 15);
  }

  /** The white louse and the waxy scale ask for the same three tags, so they always fire
      together, at 1.0 and 0.9. */
  lemma PiojoIffCerosa(c: Case)
    ensures FiredAt(Rules, c, 6) <==> FiredAt(Rules, c, 13)
    ensures Rules[6].asserts.certainty == 100 && Rules[13].asserts.certainty == 90
  {
    FiresWithoutGuards(Rules, c, 6);
    FiresWithoutGuards(Rules, c, 13);
  }

  /** Every lemon certainty lies between 0.5 and 1. */
  lemma CertaintiesInRange()
    ensures forall i :: 0 <= i < |Rules| ==> 50 <= Rules[i].asserts.certainty <= 100
  {
  }

  // ---------------------------------------------------------------------------------------
  // No fallback

  /** With no fallback, the outcome is empty exactly when no rule applies. */
  lemma EmptyWhenNothingApplies(c: Case)
    ensures Outcome(Rules, c) == [] <==> forall i :: 0 <= i < |Rules| ==> !Applies(Rules[i], c)
  {
    QuietIff(Rules, c, |Rules|);
  }

  /** An empty symptom set gives no diagnosis at all. */
  lemma NoSymptomsNoDiagnosis()
    ensures Outcome(Rules, Case(Crop, {})) == []
  {
    NothingQuiet0();
    NothingQuiet1();
    NothingQuiet2();
    NothingQuiet3();
    QuietJoin(Rules, {}, 0, 5, 10);
    QuietJoin(Rules, {}, 0, 10, 15);
    QuietJoin(Rules, {}, 0, 15, 20);
    NoneApply(Rules, Case(Crop, {}), |Rules|);
  }

  lemma NothingQuiet0()
    ensures Quiet(Rules, {}, 0, 5)
  {
  }

  lemma NothingQuiet1()
    ensures Quiet(Rules, {}, 5, 10)
  {
  }

  lemma NothingQuiet2()
    ensures Quiet(Rules, {}, 10, 15)
  {
  }

  lemma NothingQuiet3()
    ensures Quiet(Rules, {}, 15, 20)
  {
    assert "mielada" in Rules[15].when.tags && "fumagina" in Rules[16].when.tags;
    assert "fumagina" in Rules[17].when.tags && "frutos_deformados" in Rules[18].when.tags;
    assert "hojas_amarillentas" in Rules[19].when.l.tags;
  }
}
