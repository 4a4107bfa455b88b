/** The pineapple registry, `ReglasPiña` (knowledge/reglas_piña.py). White grub has a
    complete rule and a suspicion guarded by the absence of the complete diagnosis; the
    mealybug has a complete rule and an indirect hint from ants guarded by two absences,
    the second naming a suspicion no rule declares. The fallback fires on an empty
    memory. */
module Pina {
  import opened Facts
  import opened Inference

  /** The crop key, with a precomposed "ñ" (U+00F1). */
  const Crop := "pi\U{f1}a"

  // The pests the negation guards name. The third one is asserted by no rule.
  const GallinaCiega := "Gallina ciega (Phyllophaga sp.)"
  const CochinillaHarinosa := "Cochinilla harinosa (Dysmicoccus brevipes)"
  const CochinillaSospecha := "Cochinilla harinosa (Dysmicoccus brevipes) – sospecha"

  // knowledge/reglas_piña.py:18-33
  const GallinaCiegaCompleta := Rule(Crop, AllOf({"marchitez", "enrojecimiento_foliar", "raices_dañadas"}), [],
    Diagnosis(GallinaCiega, 100, Some("1 larva/metro lineal"), "gallina_ciega_completa"))
  // knowledge/reglas_piña.py:35-51
  const GallinaCiegaParcial := Rule(Crop, AtLeast(2, {"marchitez", "enrojecimiento_foliar", "raices_dañadas"}), [DiagnosisOf(GallinaCiega)],
    Diagnosis("Gallina ciega (Phyllophaga sp.) – sospecha", 60, Some("1 larva/metro lineal"), "gallina_ciega_parcial"))
  // knowledge/reglas_piña.py:53-69
  const CochinillaHarinosaCompleta := Rule(Crop, AllOf({"retraso_crecimiento", "colonias_algodonosas", "enrollamiento_hojas"}), [],
    Diagnosis(CochinillaHarinosa, 100, Some("6–10 cochinillas/hoja"), "cochinilla_harinosa_completa"))
  // knowledge/reglas_piña.py:71-88
  const CochinillaPorHormigas := Rule(Crop, And(Has("colonias_algodonosas"), Has("hormigas")), [DiagnosisOf(CochinillaHarinosa), DiagnosisOf(CochinillaSospecha)],
    Diagnosis("Cochinilla harinosa (Dysmicoccus brevipes) – indicio indirecto", 70, Some("6–10 cochinillas/hoja"), "cochinilla_por_hormigas"))
  // knowledge/reglas_piña.py:90-106
  const SinDiagnostico := Rule(Crop, Always, [AnyDiagnosis],
    Diagnosis("Sin plaga identificada", 0, Some("N/A"), "sin_diagnostico"))

  const Rules: seq<Rule> := [
    GallinaCiegaCompleta, GallinaCiegaParcial, CochinillaHarinosaCompleta,
    CochinillaPorHormigas, SinDiagnostico]

  // ---------------------------------------------------------------------------------------
  // Each test read as a condition on the symptom set

  lemma GallinaCiegaCompletaTest(s: set<string>)
    ensures Holds(GallinaCiegaCompleta.when, s) <==> "marchitez" in s && "enrojecimiento_foliar" in s && "raices_dañadas" in s
  {
  }

  lemma GallinaCiegaParcialTest(s: set<string>)
    ensures Holds(GallinaCiegaParcial.when, s) <==> |{"marchitez", "enrojecimiento_foliar", "raices_dañadas"} * s| >= 2
  {
  }

  lemma CochinillaHarinosaCompletaTest(s: set<string>)
    ensures Holds(CochinillaHarinosaCompleta.when, s) <==> "retraso_crecimiento" in s && "colonias_algodonosas" in s && "enrollamiento_hojas" in s
  {
  }

  lemma CochinillaPorHormigasTest(s: set<string>)
    ensures Holds(CochinillaPorHormigas.when, s) <==> "colonias_algodonosas" in s && "hormigas" in s
  {
  }

  // ---------------------------------------------------------------------------------------
  // Firing conditions

  lemma GallinaCiegaFiring(c: Case)
    ensures FiredAt(Rules, c, 0) <==>
      c.crop == Crop && "marchitez" in c.symptoms && "enrojecimiento_foliar" in c.symptoms && "raices_dañadas" in c.symptoms
    ensures FiredAt(Rules, c, 1) <==>
      c.crop == Crop && |{"marchitez", "enrojecimiento_foliar", "raices_dañadas"} * c.symptoms| >= 2 &&
      !("marchitez" in c.symptoms && "enrojecimiento_foliar" in c.symptoms && "raices_dañadas" in c.symptoms)
  {
    GallinaCiegaGuard();
    FiresWithoutGuards(Rules, c, 0);
    Suppression(Rules, c, 0, 1);
    GallinaCiegaCompletaTest(c.symptoms);
    GallinaCiegaParcialTest(c.symptoms);
  }

  lemma GallinaCiegaGuard()
    ensures Rules[0].unless == [] && Rules[1].unless == [DiagnosisOf(Rules[0].asserts.pest)]
  {
  }


  /** The complete mealybug rule fires exactly when its three tags are present. The ant
      hint fires on cottony colonies plus ants unless the complete diagnosis was made; its
      second guard is never violated, so it fires exactly when the complete rule's other
      two tags are not both present. */
  lemma CochinillaFiring(c: Case)
    ensures FiredAt(Rules, c, 2) <==>
      c.crop == Crop && "retraso_crecimiento" in c.symptoms && "colonias_algodonosas" in c.symptoms &&
      "enrollamiento_hojas" in c.symptoms
    ensures FiredAt(Rules, c, 3) <==> c.crop == Crop && Holds(Rules[3].when, c.symptoms) && !FiredAt(Rules, c, 2)
    ensures FiredAt(Rules, c, 3) <==>
      c.crop == Crop && "colonias_algodonosas" in c.symptoms && "hormigas" in c.symptoms &&
      !("retraso_crecimiento" in c.symptoms && "enrollamiento_hojas" in c.symptoms)
  {
    CochinillaGuards();
    FiresWithoutGuards(Rules, c, 2);
    CochinillaHarinosaCompletaTest(c.symptoms);
    CochinillaPorHormigasTest(c.symptoms);
    PestPresent(Rules, c, 3, CochinillaHarinosa);
    NeverAsserted(Rules, c, 3, CochinillaSospecha);
  }

  lemma CochinillaGuards()
    ensures Rules[2].unless == [] && Rules[3].unless == [DiagnosisOf(CochinillaHarinosa), DiagnosisOf(CochinillaSospecha)]
    ensures Rules[2].asserts.pest == CochinillaHarinosa
    ensures Rules[0].asserts.pest != CochinillaHarinosa && Rules[1].asserts.pest != CochinillaHarinosa
  {
  }

  /** No pineapple rule asserts the pest the ant hint's second guard names. */
  lemma SecondGuardIdle()
    ensures forall m :: 0 <= m < |Rules| ==> Rules[m].asserts.pest != CochinillaSospecha
  {
  }

  /** `sin_diagnostico` fires exactly when none of the four rules before it fired, which is
      exactly when none of their tests holds; it reports certainty 0. */
  lemma SinDiagnosticoFiring(c: Case)
    ensures FiredAt(Rules, c, 4) <==> c.crop == Crop && forall j :: 0 <= j < 4 ==> !FiredAt(Rules, c, j)
    ensures FiredAt(Rules, c, 4) <==>
      c.crop == Crop && forall j :: 0 <= j < 4 ==> !Holds(Rules[j].when, c.symptoms)
    ensures Rules[4].asserts == Diagnosis("Sin plaga identificada", 0, Some("N/A"), "sin_diagnostico")
  {
    FallbackFires(Rules, c, 4);
    FallbackApplies(Rules, c, 4);
  }

  /** The complete white grub test implies the suspicion's, so only the guard keeps the
      suspicion out; the complete diagnoses are certain, the suspicion 0.6 and the ant hint
      0.7. */
  lemma GallinaCiegaVariants(s: set<string>)
    ensures Holds(GallinaCiegaCompleta.when, s) ==> Holds(GallinaCiegaParcial.when, s)
    ensures GallinaCiegaCompleta.asserts.certainty == 100 && GallinaCiegaParcial.asserts.certainty == 60
    ensures CochinillaHarinosaCompleta.asserts.certainty == 100 && CochinillaPorHormigas.asserts.certainty == 70
  {
    if Holds(GallinaCiegaCompleta.when, s) {
      CountReached(2, GallinaCiegaParcial.when.tags, {"marchitez", "enrojecimiento_foliar"}, s);
    }
  }

  // ---------------------------------------------------------------------------------------
  // Two whole passes

  /** All three white grub tags: the complete rule fires, its record blocks the suspicion
      and the fallback, and the mealybug tests fail, so it is the whole outcome. */
  lemma GallinaCiegaAll()
    ensures Outcome(Rules, Case(Crop, {"marchitez", "enrojecimiento_foliar", "raices_dañadas"})) ==
      [GallinaCiegaCompleta.asserts]
  {
    var c := Case(Crop, {"marchitez", "enrojecimiento_foliar", "raices_dañadas"});
    GallinaCiegaFiring(c);
    assert FiredAt(Rules, c, 0) && !FiredAt(Rules, c, 1);
    CochinillaFiring(c);
    assert "retraso_crecimiento" !in c.symptoms && "hormigas" !in c.symptoms;
    assert !FiredAt(Rules, c, 2) && !FiredAt(Rules, c, 3);
    SinDiagnosticoFiring(c);
    assert Derive(Rules, c, 4) == [GallinaCiegaCompleta.asserts];
  }

  /** Cottony colonies with ants: only the indirect mealybug hint fires, and its record
      blocks the fallback. */
  lemma CochinillaConHormigas()
    ensures Outcome(Rules, Case(Crop, {"colonias_algodonosas", "hormigas"})) == [CochinillaPorHormigas.asserts]
  {
    var c := Case(Crop, {"colonias_algodonosas", "hormigas"});
    GallinaCiegaFiring(c);
    assert "marchitez" !in c.symptoms;
    assert {"marchitez", "enrojecimiento_foliar", "raices_dañadas"} * c.symptoms == {};
    assert !FiredAt(Rules, c, 0) && !FiredAt(Rules, c, 1);
    CochinillaFiring(c);
    assert "retraso_crecimiento" !in c.symptoms;
    assert !FiredAt(Rules, c, 2) && FiredAt(Rules, c, 3);
    NothingFired(Rules, c, 3);
    SinDiagnosticoFiring(c);
    assert Derive(Rules, c, 4) == [CochinillaPorHormigas.asserts];
  }
}
