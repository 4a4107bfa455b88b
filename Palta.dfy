/** The avocado registry, `ReglasPalta` (knowledge/reglas_paltas.py). Ten pests each have a
    complete rule (every tag of a set, certainty 1.0) and a partial rule that asks for an
    overlap of at least two tags, one of several tags or, for the red mite, a leading tag
    plus one of three, guarded by the absence of the complete diagnosis and declaring the
    pest's name followed by " — sospecha". The fallback fires on an empty memory. */
module Palta {
  import opened Facts
  import opened Inference

  const Crop := "palta"

  /** What a partial rule appends to its pest's name. */
  const Suspicion := " — sospecha"

  // The pests the negation guards name.
  const Trips := "Trips del Palto (Heliothrips haemorrhoidalis)"
  const AranitaRoja := "Arañita roja/marrón (Oligonychus yothersi / O. punicae)"
  const MoscaBlanca := "Mosca blanca de los brotes (Bemisia sp.)"
  const QueresasFiorinia := "Queresas Fiorinia (Fiorinia fiorinae)"
  const QueresasHemiberlesia := "Queresas Hemiberlesia (Hemiberlesia lataniae)"
  const MoscaBlancaEspiral := "Mosca blanca espiral (Aleurodicus cocois)"
  const BichoCesto := "Bicho del cesto (Oiketicus kirbyi)"
  const Tristeza := "Tristeza del palto (Phytophthora cinnamomi)"
  const BrazoNegro := "Brazo negro (Lasiodiplodia theobromae)"
  const Sunblotch := "Sunblotch - Mancha de sol (ASBVD viroide)"

  // knowledge/reglas_paltas.py:23-39
  const TripsCompleto := Rule(Crop, AllOf({"raspado_frutos", "rugosidad_frutos", "bronceado_frutos"}), [],
    Diagnosis(Trips, 100, Some("Presencia de trips en floración y cuajado"), "trips_completo"))
  // knowledge/reglas_paltas.py:41-60
  const TripsParcial := Rule(Crop, AtLeast(2, {"raspado_frutos", "rugosidad_frutos", "bronceado_frutos", "deformacion_frutos"}), [DiagnosisOf(Trips)],
    Diagnosis("Trips del Palto (Heliothrips haemorrhoidalis) — sospecha", 70, Some("Presencia de trips en floración y cuajado"), "trips_parcial"))
  // knowledge/reglas_paltas.py:62-80
  const AranitaRojaCompleta := Rule(Crop, AllOf({"tostado_hojas", "hojas_rojizas", "defoliacion_prematura"}), [],
    Diagnosis(AranitaRoja, 100, Some("300 ácaros/hoja o 70 hembras adultas/hoja en sequía"), "aranita_roja_completa"))
  // knowledge/reglas_paltas.py:82-101
  const AranitaRojaParcial := Rule(Crop, And(Has("tostado_hojas"), AnyOf({"hojas_rojizas", "perdida_clorofila", "bronceado_hojas"})), [DiagnosisOf(AranitaRoja)],
    Diagnosis("Arañita roja/marrón (Oligonychus yothersi / O. punicae) — sospecha", 65, Some("300 ácaros/hoja o 70 hembras adultas/hoja en sequía"), "aranita_roja_parcial"))
  // knowledge/reglas_paltas.py:103-120
  const MoscaBlancaCompleta := Rule(Crop, AllOf({"perforacion_brotes", "fumagina", "debilitamiento_planta"}), [],
    Diagnosis(MoscaBlanca, 100, Some("Ataques severos en brotes"), "mosca_blanca_completa"))
  // knowledge/reglas_paltas.py:122-141
  const MoscaBlancaParcial := Rule(Crop, AtLeast(2, {"perforacion_brotes", "fumagina", "debilitamiento_planta", "hojas_pegajosas"}), [DiagnosisOf(MoscaBlanca)],
    Diagnosis("Mosca blanca de los brotes (Bemisia sp.) — sospecha", 65, Some("Ataques severos en brotes"), "mosca_blanca_parcial"))
  // knowledge/reglas_paltas.py:143-161
  const QueresasFioriniaCompleta := Rule(Crop, AllOf({"escamas_marron_frutos", "secamiento_hojas", "defoliacion"}), [],
    Diagnosis(QueresasFiorinia, 100, Some("Poblaciones que cubren casi la totalidad de hojas"), "queresas_fiorinia_completa"))
  // knowledge/reglas_paltas.py:163-183
  const QueresasFioriniaParcial := Rule(Crop, AtLeast(2, {"escamas_marron_frutos", "escamas_marron_hojas", "secamiento_hojas"}), [DiagnosisOf(QueresasFiorinia)],
    Diagnosis("Queresas Fiorinia (Fiorinia fiorinae) — sospecha", 70, Some("Poblaciones que cubren casi la totalidad de hojas"), "queresas_fiorinia_parcial"))
  // knowledge/reglas_paltas.py:185-204
  const QueresasHemiberlesiaCompleta := Rule(Crop, AllOf({"escamas_blancas_pedunculo", "escamas_circulares_frutos"}), [],
    Diagnosis(QueresasHemiberlesia, 100, Some("Presencia en zona peduncular del fruto"), "queresas_hemiberlesia_completa"))
  // knowledge/reglas_paltas.py:206-226
  const QueresasHemiberlesiaParcial := Rule(Crop, AnyOf({"escamas_blancas_pedunculo", "escamas_circulares_frutos"}), [DiagnosisOf(QueresasHemiberlesia)],
    Diagnosis("Queresas Hemiberlesia (Hemiberlesia lataniae) — sospecha", 70, Some("Presencia en zona peduncular del fruto"), "queresas_hemiberlesia_parcial"))
  // knowledge/reglas_paltas.py:228-246
  const MoscaBlancaEspiralCompleta := Rule(Crop, AllOf({"espirales_cera_hojas", "huevos_desordenados_enves", "cobertura_cera_hojas"}), [],
    Diagnosis(MoscaBlancaEspiral, 100, Some("Ataques intensos con cobertura de cera acentuada"), "mosca_blanca_espiral_completa"))
  // knowledge/reglas_paltas.py:248-267
  const MoscaBlancaEspiralParcial := Rule(Crop, AtLeast(2, {"espirales_cera_hojas", "huevos_desordenados_enves", "cobertura_cera_hojas"}), [DiagnosisOf(MoscaBlancaEspiral)],
    Diagnosis("Mosca blanca espiral (Aleurodicus cocois) — sospecha", 65, Some("Ataques intensos con cobertura de cera acentuada"), "mosca_blanca_espiral_parcial"))
  // knowledge/reglas_paltas.py:269-288
  const BichoCestoCompleto := Rule(Crop, AllOf({"cestos_colgantes_hojas", "raspado_epidermis_hojas", "defoliacion"}), [],
    Diagnosis(BichoCesto, 100, Some("Presencia de cestos en follaje"), "bicho_cesto_completo"))
  // knowledge/reglas_paltas.py:290-312
  const BichoCestoParcial := Rule(Crop, AtLeast(2, {"cestos_colgantes_hojas", "raspado_epidermis_hojas", "larvas_con_refugio"}), [DiagnosisOf(BichoCesto)],
    Diagnosis("Bicho del cesto (Oiketicus kirbyi) — sospecha", 70, Some("Presencia de cestos en follaje"), "bicho_cesto_parcial"))
  // knowledge/reglas_paltas.py:314-333
  const TristezaCompleta := Rule(Crop, AllOf({"hojas_amarillas", "defoliacion", "raices_necrosadas", "frutos_pequenos"}), [],
    Diagnosis(Tristeza, 100, Some("Presencia de raicillas podridas o necrosadas"), "tristeza_completa"))
  // knowledge/reglas_paltas.py:335-355
  const TristezaParcial := Rule(Crop, AtLeast(2, {"hojas_amarillas", "defoliacion", "raices_necrosadas", "muerte_regresiva"}), [DiagnosisOf(Tristeza)],
    Diagnosis("Tristeza del palto (Phytophthora cinnamomi) — sospecha", 70, Some("Presencia de raicillas podridas o necrosadas"), "tristeza_parcial"))
  // knowledge/reglas_paltas.py:357-376
  const BrazoNegroCompleto := Rule(Crop, AllOf({"cancros_tronco", "exudados_blancos", "muerte_ramas"}), [],
    Diagnosis(BrazoNegro, 100, Some("Presencia de cancros con exudados blanquecinos"), "brazo_negro_completo"))
  // knowledge/reglas_paltas.py:378-398
  const BrazoNegroParcial := Rule(Crop, AtLeast(2, {"cancros_tronco", "exudados_blancos", "muerte_ramas", "pudricion_frutos_pedunculo"}), [DiagnosisOf(BrazoNegro)],
    Diagnosis("Brazo negro (Lasiodiplodia theobromae) — sospecha", 65, Some("Presencia de cancros con exudados blanquecinos"), "brazo_negro_parcial"))
  // knowledge/reglas_paltas.py:400-419
  const SunblotchCompleto := Rule(Crop, AllOf({"manchas_amarillas_fruto", "variegado_hojas", "crecimiento_horizontal"}), [],
    Diagnosis(Sunblotch, 100, Some("Presencia de síntomas en frutos y hojas"), "sunblotch_completo"))
  // knowledge/reglas_paltas.py:421-443
  const SunblotchParcial := Rule(Crop, AtLeast(2, {"manchas_amarillas_fruto", "variegado_hojas", "moteado_hojas", "corteza_facil_desprender"}), [DiagnosisOf(Sunblotch)],
    Diagnosis("Sunblotch - Mancha de sol (ASBVD viroide) — sospecha", 75, Some("Presencia de síntomas en frutos y hojas"), "sunblotch_parcial"))
  // knowledge/reglas_paltas.py:445-464
  const SinDiagnostico := Rule(Crop, Always, [AnyDiagnosis],
    Diagnosis("Sin plaga o enfermedad identificada", 0, Some("N/A"), "sin_diagnostico"))

  const Rules: seq<Rule> := [
    TripsCompleto, TripsParcial, AranitaRojaCompleta, AranitaRojaParcial, MoscaBlancaCompleta,
    MoscaBlancaParcial, QueresasFioriniaCompleta, QueresasFioriniaParcial,
    QueresasHemiberlesiaCompleta, QueresasHemiberlesiaParcial, MoscaBlancaEspiralCompleta,
    MoscaBlancaEspiralParcial, BichoCestoCompleto, BichoCestoParcial, TristezaCompleta,
    TristezaParcial, BrazoNegroCompleto, BrazoNegroParcial, SunblotchCompleto,
    SunblotchParcial, SinDiagnostico]

  // ---------------------------------------------------------------------------------------
  // Each test read as a condition on the symptom set

  lemma TripsCompletoTest(s: set<string>)
    ensures Holds(TripsCompleto.when, s) <==> "raspado_frutos" in s && "rugosidad_frutos" in s && "bronceado_frutos" in s
  {
  }

  lemma TripsParcialTest(s: set<string>)
    ensures Holds(TripsParcial.when, s) <==> |{"raspado_frutos", "rugosidad_frutos", "bronceado_frutos", "deformacion_frutos"} * s| >= 2
  {
  }

  lemma AranitaRojaCompletaTest(s: set<string>)
    ensures Holds(AranitaRojaCompleta.when, s) <==> "tostado_hojas" in s && "hojas_rojizas" in s && "defoliacion_prematura" in s
  {
  }

  lemma AranitaRojaParcialTest(s: set<string>)
    ensures Holds(AranitaRojaParcial.when, s) <==> "tostado_hojas" in s && ("hojas_rojizas" in s || "perdida_clorofila" in s || "bronceado_hojas" in s)
  {
  }

  lemma MoscaBlancaCompletaTest(s: set<string>)
    ensures Holds(MoscaBlancaCompleta.when, s) <==> "perforacion_brotes" in s && "fumagina" in s && "debilitamiento_planta" in s
  {
  }

  lemma MoscaBlancaParcialTest(s: set<string>)
    ensures Holds(MoscaBlancaParcial.when, s) <==> |{"perforacion_brotes", "fumagina", "debilitamiento_planta", "hojas_pegajosas"} * s| >= 2
  {
  }

  lemma QueresasFioriniaCompletaTest(s: set<string>)
    ensures Holds(QueresasFioriniaCompleta.when, s) <==> "escamas_marron_frutos" in s && "secamiento_hojas" in s && "defoliacion" in s
  {
  }

  lemma QueresasFioriniaParcialTest(s: set<string>)
    ensures Holds(QueresasFioriniaParcial.when, s) <==> |{"escamas_marron_frutos", "escamas_marron_hojas", "secamiento_hojas"} * s| >= 2
  {
  }

  lemma QueresasHemiberlesiaCompletaTest(s: set<string>)
    ensures Holds(QueresasHemiberlesiaCompleta.when, s) <==> "escamas_blancas_pedunculo" in s && "escamas_circulares_frutos" in s
  {
  }

  lemma QueresasHemiberlesiaParcialTest(s: set<string>)
    ensures Holds(QueresasHemiberlesiaParcial.when, s) <==> ("escamas_blancas_pedunculo" in s || "escamas_circulares_frutos" in s)
  {
  }

  lemma MoscaBlancaEspiralCompletaTest(s: set<string>)
    ensures Holds(MoscaBlancaEspiralCompleta.when, s) <==> "espirales_cera_hojas" in s && "huevos_desordenados_enves" in s && "cobertura_cera_hojas" in s
  {
  }

  lemma MoscaBlancaEspiralParcialTest(s: set<string>)
    ensures Holds(MoscaBlancaEspiralParcial.when, s) <==> |{"espirales_cera_hojas", "huevos_desordenados_enves", "cobertura_cera_hojas"} * s| >= 2
  {
  }

  lemma BichoCestoCompletoTest(s: set<string>)
    ensures Holds(BichoCestoCompleto.when, s) <==> "cestos_colgantes_hojas" in s && "raspado_epidermis_hojas" in s && "defoliacion" in s
  {
  }

  lemma BichoCestoParcialTest(s: set<string>)
    ensures Holds(BichoCestoParcial.when, s) <==> |{"cestos_colgantes_hojas", "raspado_epidermis_hojas", "larvas_con_refugio"} * s| >= 2
  {
  }

  lemma TristezaCompletaTest(s: set<string>)
    ensures Holds(TristezaCompleta.when, s) <==> "hojas_amarillas" in s && "defoliacion" in s && "raices_necrosadas" in s && "frutos_pequenos" in s
  {
  }

  lemma TristezaParcialTest(s: set<string>)
    ensures Holds(TristezaParcial.when, s) <==> |{"hojas_amarillas", "defoliacion", "raices_necrosadas", "muerte_regresiva"} * s| >= 2
  {
  }

  lemma BrazoNegroCompletoTest(s: set<string>)
    ensures Holds(BrazoNegroCompleto.when, s) <==> "cancros_tronco" in s && "exudados_blancos" in s && "muerte_ramas" in s
  {
  }

  lemma BrazoNegroParcialTest(s: set<string>)
    ensures Holds(BrazoNegroParcial.when, s) <==> |{"cancros_tronco", "exudados_blancos", "muerte_ramas", "pudricion_frutos_pedunculo"} * s| >= 2
  {
  }

  lemma SunblotchCompletoTest(s: set<string>)
    ensures Holds(SunblotchCompleto.when, s) <==> "manchas_amarillas_fruto" in s && "variegado_hojas" in s && "crecimiento_horizontal" in s
  {
  }

  lemma SunblotchParcialTest(s: set<string>)
    ensures Holds(SunblotchParcial.when, s) <==> |{"manchas_amarillas_fruto", "variegado_hojas", "moteado_hojas", "corteza_facil_desprender"} * s| >= 2
  {
  }

  // ---------------------------------------------------------------------------------------
  // Firing conditions

  lemma TripsFiring(c: Case)
    ensures FiredAt(Rules, c, 0) <==>
      c.crop == Crop && "raspado_frutos" in c.symptoms && "rugosidad_frutos" in c.symptoms && "bronceado_frutos" in c.symptoms
    ensures FiredAt(Rules, c, 1) <==>
      c.crop == Crop && |{"raspado_frutos", "rugosidad_frutos", "bronceado_frutos", "deformacion_frutos"} * c.symptoms| >= 2 &&
      !("raspado_frutos" in c.symptoms && "rugosidad_frutos" in c.symptoms && "bronceado_frutos" in c.symptoms)
  {
    TripsGuard();
    FiresWithoutGuards(Rules, c, 0);
    Suppression(Rules, c, 0, 1);
    TripsCompletoTest(c.symptoms);
    TripsParcialTest(c.symptoms);
  }

  lemma TripsGuard()
    ensures Rules[0].unless == [] && Rules[1].unless == [DiagnosisOf(Rules[0].asserts.pest)]
  {
  }

  lemma AranitaRojaFiring(c: Case)
    ensures FiredAt(Rules, c, 2) <==>
      c.crop == Crop && "tostado_hojas" in c.symptoms && "hojas_rojizas" in c.symptoms && "defoliacion_prematura" in c.symptoms
    ensures FiredAt(Rules, c, 3) <==>
      c.crop == Crop && "tostado_hojas" in c.symptoms && ("hojas_rojizas" in c.symptoms || "perdida_clorofila" in c.symptoms || "bronceado_hojas" in c.symptoms) &&
      !("tostado_hojas" in c.symptoms && "hojas_rojizas" in c.symptoms && "defoliacion_prematura" in c.symptoms)
  {
    AranitaRojaGuard();
    FiresWithoutGuards(Rules, c, 2);
    Suppression(Rules, c, 2, 3);
    AranitaRojaCompletaTest(c.symptoms);
    AranitaRojaParcialTest(c.symptoms);
  }

  lemma AranitaRojaGuard()
    ensures Rules[2].unless == [] && Rules[3].unless == [DiagnosisOf(Rules[2].asserts.pest)]
    ensures forall m :: 0 <= m < 3 && m != 2 ==> Rules[m].asserts.pest != Rules[2].asserts.pest
  {
  }

  lemma MoscaBlancaFiring(c: Case)
    ensures FiredAt(Rules, c, 4) <==>
      c.crop == Crop && "perforacion_brotes" in c.symptoms && "fumagina" in c.symptoms && "debilitamiento_planta" in c.symptoms
    ensures FiredAt(Rules, c, 5) <==>
      c.crop == Crop && |{"perforacion_brotes", "fumagina", "debilitamiento_planta", "hojas_pegajosas"} * c.symptoms| >= 2 &&
      !("perforacion_brotes" in c.symptoms && "fumagina" in c.symptoms && "debilitamiento_planta" in c.symptoms)
  {
    MoscaBlancaGuard();
    FiresWithoutGuards(Rules, c, 4);
    Suppression(Rules, c, 4, 5);
    MoscaBlancaCompletaTest(c.symptoms);
    MoscaBlancaParcialTest(c.symptoms);
  }

  lemma MoscaBlancaGuard()
    ensures Rules[4].unless == [] && Rules[5].unless == [DiagnosisOf(Rules[4].asserts.pest)]
    ensures forall m :: 0 <= m < 5 && m != 4 ==> Rules[m].asserts.pest != Rules[4].asserts.pest
  {
  }

  lemma QueresasFioriniaFiring(c: Case)
    ensures FiredAt(Rules, c, 6) <==>
      c.crop == Crop && "escamas_marron_frutos" in c.symptoms && "secamiento_hojas" in c.symptoms && "defoliacion" in c.symptoms
    ensures FiredAt(Rules, c, 7) <==>
      c.crop == Crop && |{"escamas_marron_frutos", "escamas_marron_hojas", "secamiento_hojas"} * c.symptoms| >= 2 &&
      !("escamas_marron_frutos" in c.symptoms && "secamiento_hojas" in c.symptoms && "defoliacion" in c.symptoms)
  {
    QueresasFioriniaGuard();
    FiresWithoutGuards(Rules, c, 6);
    Suppression(Rules, c, 6, 7);
    QueresasFioriniaCompletaTest(c.symptoms);
    QueresasFioriniaParcialTest(c.symptoms);
  }

  lemma QueresasFioriniaGuard()
    ensures Rules[6].unless == [] && Rules[7].unless == [DiagnosisOf(Rules[6].asserts.pest)]
    ensures forall m :: 0 <= m < 7 && m != 6 ==> Rules[m].asserts.pest != Rules[6].asserts.pest
  {
  }

  lemma QueresasHemiberlesiaFiring(c: Case)
    ensures FiredAt(Rules, c, 8) <==>
      c.crop == Crop && "escamas_blancas_pedunculo" in c.symptoms && "escamas_circulares_frutos" in c.symptoms
    ensures FiredAt(Rules, c, 9) <==>
      c.crop == Crop && ("escamas_blancas_pedunculo" in c.symptoms || "escamas_circulares_frutos" in c.symptoms) &&
      !("escamas_blancas_pedunculo" in c.symptoms && "escamas_circulares_frutos" in c.symptoms)
  {
    QueresasHemiberlesiaGuard();
    FiresWithoutGuards(Rules, c, 8);
    Suppression(Rules, c, 8, 9);
    QueresasHemiberlesiaCompletaTest(c.symptoms);
    QueresasHemiberlesiaParcialTest(c.symptoms);
  }

  lemma QueresasHemiberlesiaGuard()
    ensures Rules[8].unless == [] && Rules[9].unless == [DiagnosisOf(Rules[8].asserts.pest)]
    ensures forall m :: 0 <= m < 9 && m != 8 ==> Rules[m].asserts.pest != Rules[8].asserts.pest
  {
  }

  lemma MoscaBlancaEspiralFiring(c: Case)
    ensures FiredAt(Rules, c, 10) <==>
      c.crop == Crop && "espirales_cera_hojas" in c.symptoms && "huevos_desordenados_enves" in c.symptoms && "cobertura_cera_hojas" in c.symptoms
    ensures FiredAt(Rules, c, 11) <==>
      c.crop == Crop && |{"espirales_cera_hojas", "huevos_desordenados_enves", "cobertura_cera_hojas"} * c.symptoms| >= 2 &&
      !("espirales_cera_hojas" in c.symptoms && "huevos_desordenados_enves" in c.symptoms && "cobertura_cera_hojas" in c.symptoms)
  {
    MoscaBlancaEspiralGuard();
    FiresWithoutGuards(Rules, c, 10);
    Suppression(Rules, c, 10, 11);
    MoscaBlancaEspiralCompletaTest(c.symptoms);
    MoscaBlancaEspiralParcialTest(c.symptoms);
  }

  lemma MoscaBlancaEspiralGuard()
    ensures Rules[10].unless == [] && Rules[11].unless == [DiagnosisOf(Rules[10].asserts.pest)]
    ensures forall m :: 0 <= m < 11 && m != 10 ==> Rules[m].asserts.pest != Rules[10].asserts.pest
  {
  }

  lemma BichoCestoFiring(c: Case)
    ensures FiredAt(Rules, c, 12) <==>
      c.crop == Crop && "cestos_colgantes_hojas" in c.symptoms && "raspado_epidermis_hojas" in c.symptoms && "defoliacion" in c.symptoms
    ensures FiredAt(Rules, c, 13) <==>
      c.crop == Crop && |{"cestos_colgantes_hojas", "raspado_epidermis_hojas", "larvas_con_refugio"} * c.symptoms| >= 2 &&
      !("cestos_colgantes_hojas" in c.symptoms && "raspado_epidermis_hojas" in c.symptoms && "defoliacion" in c.symptoms)
  {
    BichoCestoGuard();
    FiresWithoutGuards(Rules, c, 12);
    Suppression(Rules, c, 12, 13);
    BichoCestoCompletoTest(c.symptoms);
    BichoCestoParcialTest(c.symptoms);
  }

  lemma BichoCestoGuard()
    ensures Rules[12].unless == [] && Rules[13].unless == [DiagnosisOf(Rules[12].asserts.pest)]
    ensures forall m :: 0 <= m < 13 && m != 12 ==> Rules[m].asserts.pest != Rules[12].asserts.pest
  {
  }

  lemma TristezaFiring(c: Case)
    ensures FiredAt(Rules, c, 14) <==>
      c.crop == Crop && "hojas_amarillas" in c.symptoms && "defoliacion" in c.symptoms && "raices_necrosadas" in c.symptoms && "frutos_pequenos" in c.symptoms
    ensures FiredAt(Rules, c, 15) <==>
      c.crop == Crop && |{"hojas_amarillas", "defoliacion", "raices_necrosadas", "muerte_regresiva"} * c.symptoms| >= 2 &&
      !("hojas_amarillas" in c.symptoms && "defoliacion" in c.symptoms && "raices_necrosadas" in c.symptoms && "frutos_pequenos" in c.symptoms)
  {
    TristezaGuard();
    FiresWithoutGuards(Rules, c, 14);
    Suppression(Rules, c, 14, 15);
    TristezaCompletaTest(c.symptoms);
    TristezaParcialTest(c.symptoms);
  }

  lemma TristezaGuard()
    ensures Rules[14].unless == [] && Rules[15].unless == [DiagnosisOf(Rules[14].asserts.pest)]
    ensures forall m :: 0 <= m < 15 && m != 14 ==> Rules[m].asserts.pest != Rules[14].asserts.pest
  {
  }

  lemma BrazoNegroFiring(c: Case)
    ensures FiredAt(Rules, c, 16) <==>
      c.crop == Crop && "cancros_tronco" in c.symptoms && "exudados_blancos" in c.symptoms && "muerte_ramas" in c.symptoms
    ensures FiredAt(Rules, c, 17) <==>
      c.crop == Crop && |{"cancros_tronco", "exudados_blancos", "muerte_ramas", "pudricion_frutos_pedunculo"} * c.symptoms| >= 2 &&
      !("cancros_tronco" in c.symptoms && "exudados_blancos" in c.symptoms && "muerte_ramas" in c.symptoms)
  {
    BrazoNegroGuard();
    FiresWithoutGuards(Rules, c, 16);
    Suppression(Rules, c, 16, 17);
    BrazoNegroCompletoTest(c.symptoms);
    BrazoNegroParcialTest(c.symptoms);
  }

  lemma BrazoNegroGuard()
    ensures Rules[16].unless == [] && Rules[17].unless == [DiagnosisOf(Rules[16].asserts.pest)]
    ensures forall m :: 0 <= m < 17 && m != 16 ==> Rules[m].asserts.pest != Rules[16].asserts.pest
  {
  }

  lemma SunblotchFiring(c: Case)
    ensures FiredAt(Rules, c, 18) <==>
      c.crop == Crop && "manchas_amarillas_fruto" in c.symptoms && "variegado_hojas" in c.symptoms && "crecimiento_horizontal" in c.symptoms
    ensures FiredAt(Rules, c, 19) <==>
      c.crop == Crop && |{"manchas_amarillas_fruto", "variegado_hojas", "moteado_hojas", "corteza_facil_desprender"} * c.symptoms| >= 2 &&
      !("manchas_amarillas_fruto" in c.symptoms && "variegado_hojas" in c.symptoms && "crecimiento_horizontal" in c.symptoms)
  {
    SunblotchGuard();
    FiresWithoutGuards(Rules, c, 18);
    Suppression(Rules, c, 18, 19);
    SunblotchCompletoTest(c.symptoms);
    SunblotchParcialTest(c.symptoms);
  }

  lemma SunblotchGuard()
    ensures Rules[18].unless == [] && Rules[19].unless == [DiagnosisOf(Rules[18].asserts.pest)]
    ensures forall m :: 0 <= m < 19 && m != 18 ==> Rules[m].asserts.pest != Rules[18].asserts.pest
  {
  }


  /** `sin_diagnostico` fires exactly when none of the twenty rules before it fired, which is
      exactly when none of their tests holds; it reports certainty 0 and threshold "N/A". */
  lemma SinDiagnosticoFiring(c: Case)
    ensures FiredAt(Rules, c, 20) <==> c.crop == Crop && forall j :: 0 <= j < 20 ==> !FiredAt(Rules, c, j)
    ensures FiredAt(Rules, c, 20) <==>
      c.crop == Crop && forall j :: 0 <= j < 20 ==> !Holds(Rules[j].when, c.symptoms)
    ensures Rules[20].asserts == Diagnosis("Sin plaga o enfermedad identificada", 0, Some("N/A"), "sin_diagnostico")
  {
    FallbackFires(Rules, c, 20);
    FallbackApplies(Rules, c, 20);
  }

  // ---------------------------------------------------------------------------------------
  // Complete and partial variants

  /** Each partial rule names its pest as the complete rule's pest plus " — sospecha". */
  lemma PartialNames()
    ensures TripsParcial.asserts.pest == Trips + Suspicion
    ensures AranitaRojaParcial.asserts.pest == AranitaRoja + Suspicion
    ensures MoscaBlancaParcial.asserts.pest == MoscaBlanca + Suspicion
    ensures QueresasFioriniaParcial.asserts.pest == QueresasFiorinia + Suspicion
    ensures QueresasHemiberlesiaParcial.asserts.pest == QueresasHemiberlesia + Suspicion
  {
  }

  /** The same for the other five pests. */
  lemma MorePartialNames()
    ensures MoscaBlancaEspiralParcial.asserts.pest == MoscaBlancaEspiral + Suspicion
    ensures BichoCestoParcial.asserts.pest == BichoCesto + Suspicion
    ensures TristezaParcial.asserts.pest == Tristeza + Suspicion
    ensures BrazoNegroParcial.asserts.pest == BrazoNegro + Suspicion
    ensures SunblotchParcial.asserts.pest == Sunblotch + Suspicion
  {
  }

  /** Each complete rule is certain (1.0); its partial rule keeps the complete rule's
      threshold and ranks below it, between 0.65 and 0.75. */
  lemma PartialRanksBelow()
    ensures forall k :: 0 <= k < 10 ==>
      Rules[2 * k].asserts.certainty == 100 && 65 <= Rules[2 * k + 1].asserts.certainty <= 75 &&
      Rules[2 * k + 1].asserts.threshold == Rules[2 * k].asserts.threshold
  {
  }

  /** Every complete test implies its partial test: the partial overlap set contains at
      least two of the complete tags (or the leading tag and one of its alternatives). So
      only the negation guard, under declaration order, keeps a partial diagnosis out when
      the complete one was made. */
  lemma CompleteImpliesPartial(s: set<string>)
    ensures Holds(TripsCompleto.when, s) ==> Holds(TripsParcial.when, s)
    ensures Holds(AranitaRojaCompleta.when, s) ==> Holds(AranitaRojaParcial.when, s)
    ensures Holds(MoscaBlancaCompleta.when, s) ==> Holds(MoscaBlancaParcial.when, s)
    ensures Holds(QueresasFioriniaCompleta.when, s) ==> Holds(QueresasFioriniaParcial.when, s)
    ensures Holds(QueresasHemiberlesiaCompleta.when, s) ==> Holds(QueresasHemiberlesiaParcial.when, s)
  {
    if Holds(TripsCompleto.when, s) {
      CountReached(2, TripsParcial.when.tags, {"raspado_frutos", "rugosidad_frutos"}, s);
    }
    if Holds(MoscaBlancaCompleta.when, s) {
      CountReached(2, MoscaBlancaParcial.when.tags, {"perforacion_brotes", "fumagina"}, s);
    }
    if Holds(QueresasFioriniaCompleta.when, s) {
      CountReached(2, QueresasFioriniaParcial.when.tags, {"escamas_marron_frutos", "secamiento_hojas"}, s);
    }
  }

  /** The same for three more pests. */
  lemma MoreCompleteImpliesPartial(s: set<string>)
    ensures Holds(MoscaBlancaEspiralCompleta.when, s) ==> Holds(MoscaBlancaEspiralParcial.when, s)
    ensures Holds(BichoCestoCompleto.when, s) ==> Holds(BichoCestoParcial.when, s)
    ensures Holds(TristezaCompleta.when, s) ==> Holds(TristezaParcial.when, s)
  {
    if Holds(MoscaBlancaEspiralCompleta.when, s) {
      CountReached(2, MoscaBlancaEspiralParcial.when.tags, {"espirales_cera_hojas", "huevos_desordenados_enves"}, s);
    }
    if Holds(BichoCestoCompleto.when, s) {
      CountReached(2, BichoCestoParcial.when.tags, {"cestos_colgantes_hojas", "raspado_epidermis_hojas"}, s);
    }
    if Holds(TristezaCompleta.when, s) {
      CountReached(2, TristezaParcial.when.tags, {"hojas_amarillas", "defoliacion"}, s);
    }
  }

  /** The same for the last two pests. */
  lemma LastCompleteImpliesPartial(s: set<string>)
    ensures Holds(BrazoNegroCompleto.when, s) ==> Holds(BrazoNegroParcial.when, s)
    ensures Holds(SunblotchCompleto.when, s) ==> Holds(SunblotchParcial.when, s)
  {
    if Holds(BrazoNegroCompleto.when, s) {
      CountReached(2, BrazoNegroParcial.when.tags, {"cancros_tronco", "exudados_blancos"}, s);
    }
    if Holds(SunblotchCompleto.when, s) {
      CountReached(2, SunblotchParcial.when.tags, {"manchas_amarillas_fruto", "variegado_hojas"}, s);
    }
  }

  /** Every avocado certainty lies between 0 and 1. */
  lemma CertaintiesInRange()
    ensures forall i :: 0 <= i < |Rules| ==> 0 <= Rules[i].asserts.certainty <= 100
  {
  }

  // ---------------------------------------------------------------------------------------
  // Scenarios

  /** A lone `raspado_frutos` reaches no trips rule (each needs at least two tags), nor any
      other, so only the 0.0 fallback is reported. */
  lemma RaspadoAlone()
    ensures Outcome(Rules, Case(Crop, {"raspado_frutos"})) == [SinDiagnostico.asserts]
    ensures SinDiagnostico.asserts.certainty == 0
  {
    var s := {"raspado_frutos"};
    RaspadoQuiet0();
    RaspadoQuiet1();
    RaspadoQuiet2();
    RaspadoQuiet3();
    QuietJoin(Rules, s, 0, 5, 10);
    QuietJoin(Rules, s, 0, 10, 15);
    QuietJoin(Rules, s, 0, 15, 20);
    OnlyFallback(Rules, Case(Crop, s));
  }

  lemma RaspadoQuiet0()
    ensures Quiet(Rules, {"raspado_frutos"}, 0, 5)
  {
    TooFewSymptoms(2, TripsParcial.when.tags, {"raspado_frutos"});
  }

  lemma RaspadoQuiet1()
    ensures Quiet(Rules, {"raspado_frutos"}, 5, 10)
  {
    TooFewSymptoms(2, MoscaBlancaParcial.when.tags, {"raspado_frutos"});
    TooFewSymptoms(2, QueresasFioriniaParcial.when.tags, {"raspado_frutos"});
  }

  lemma RaspadoQuiet2()
    ensures Quiet(Rules, {"raspado_frutos"}, 10, 15)
  {
    TooFewSymptoms(2, MoscaBlancaEspiralParcial.when.tags, {"raspado_frutos"});
    TooFewSymptoms(2, BichoCestoParcial.when.tags, {"raspado_frutos"});
  }

  lemma RaspadoQuiet3()
    ensures Quiet(Rules, {"raspado_frutos"}, 15, 20)
  {
    TooFewSymptoms(2, TristezaParcial.when.tags, {"raspado_frutos"});
    TooFewSymptoms(2, BrazoNegroParcial.when.tags, {"raspado_frutos"});
    TooFewSymptoms(2, SunblotchParcial.when.tags, {"raspado_frutos"});
  }

  /** Two trips tags and two red mite tags, without the tags that complete either pest,
      give both suspicions, at 0.7 and 0.65, so at least two diagnoses. */
  lemma TripsAndAranita(c: Case)
    requires c.crop == Crop
    requires {"raspado_frutos", "rugosidad_frutos", "tostado_hojas", "hojas_rojizas"} <= c.symptoms
    requires "bronceado_frutos" !in c.symptoms && "defoliacion_prematura" !in c.symptoms
    ensures TripsParcial.asserts in Outcome(Rules, c) && AranitaRojaParcial.asserts in Outcome(Rules, c)
    ensures |Outcome(Rules, c)| >= 2
    ensures TripsParcial.asserts.certainty == 70 && AranitaRojaParcial.asserts.certainty == 65
  {
    TripsAndAranitaFire(c);
    BothFired(Rules, c, 1, 3);
  }

  lemma TripsAndAranitaFire(c: Case)
    requires c.crop == Crop
    requires {"raspado_frutos", "rugosidad_frutos", "tostado_hojas", "hojas_rojizas"} <= c.symptoms
    requires "bronceado_frutos" !in c.symptoms && "defoliacion_prematura" !in c.symptoms
    ensures FiredAt(Rules, c, 1) && FiredAt(Rules, c, 3)
  {
    CountReached(2, TripsParcial.when.tags, {"raspado_frutos", "rugosidad_frutos"}, c.symptoms);
    TripsParcialTest(c.symptoms);
    TripsFiring(c);
    AranitaRojaFiring(c);
  }
}
