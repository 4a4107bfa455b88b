/** The grape registry: the second `class ReglasUva` in knowledge/reglas_uva.py (lines
    423-981), which rebinds the name and so is the one the driver uses. Eleven pests each
    have a complete rule (all tags of the pair, certainty 1.0) and a partial or general rule
    guarded by the absence of the complete diagnosis; five general rules have no guard; the
    fallback fires on an empty memory. */
module Uva {
  import opened Facts
  import opened Inference

  const Crop := "uva"

  // The pests the negation guards name.
  const Filoxera := "Filóxera (Phylloxera vitifoliae)"
  const AranitaRoja := "Arañita roja (Panonychus ulmi / Tetranynchus sp.)"
  const AcaroHialino := "Ácaro hialino (Calipetrimerus vitis / Phyllocoptes vitis)"
  const Aves := "Aves (cuculíes, madrugadoras)"
  const AvispasAbejas := "Avispas y abejas (Polistes spp., Apis mellifera)"
  const RatasRatones := "Ratas y ratones"
  const GusanoCornudo := "Gusano cornudo (Pholus vitis)"
  const Nematodos := "Nematodos (Meloidogyne spp.)"
  const Oidio := "Oidio (Uncinula necator)"
  const PodredumbreGris := "Podredumbre gris (Botrytis cinerea)"
  const AgallaCorona := "Agalla de la corona (Agrobacterium vitis)"

  // knowledge/reglas_uva.py:425-442
  const FiloxeraCompleta := Rule(Crop, AllOf({"verrugas_hojas", "nudosidades_raices"}), [],
    Diagnosis(Filoxera, 100, Some("Presencia en raíces o hojas"), "filoxera_completa"))
  // knowledge/reglas_uva.py:444-463
  const FiloxeraParcial := Rule(Crop, AnyOf({"verrugas_hojas", "nudosidades_raices"}), [DiagnosisOf(Filoxera)],
    Diagnosis("Filóxera (Phylloxera vitifoliae) – sospecha", 70, Some("Presencia parcial de síntomas"), "filoxera_parcial"))
  // knowledge/reglas_uva.py:464-481
  const AranitaRojaCompleta := Rule(Crop, AllOf({"hojas_gris_plomizo", "tejido_araña"}), [],
    Diagnosis(AranitaRoja, 100, Some("Alta densidad visible a simple vista"), "aranita_roja_completa"))
  // knowledge/reglas_uva.py:483-502
  const AranitaRojaParcial := Rule(Crop, And(Has("hojas_gris_plomizo"), Lacks("tejido_araña")), [DiagnosisOf(AranitaRoja)],
    Diagnosis("Arañita roja – sospecha", 60, Some("Síntoma inicial"), "aranita_roja_parcial"))
  // knowledge/reglas_uva.py:503-519
  const AcaroHialinoCompleta := Rule(Crop, AllOf({"brotacion_lenta", "hojas_abarquilladas"}), [],
    Diagnosis(AcaroHialino, 100, Some("Deformación visible en brotes"), "acaro_hialino_completa"))
  // knowledge/reglas_uva.py:521-540
  const AcaroHialinoParcial := Rule(Crop, And(Has("hojas_abarquilladas"), Lacks("brotacion_lenta")), [DiagnosisOf(AcaroHialino)],
    Diagnosis("Ácaro hialino – sospecha", 50, Some("Síntoma aislado"), "acaro_hialino_parcial"))
  // knowledge/reglas_uva.py:541-558
  const AvesCompleta := Rule(Crop, AllOf({"picaduras_racimos", "aves_presentes"}), [],
    Diagnosis(Aves, 100, Some("Daño estético en racimos"), "aves_completa"))
  // knowledge/reglas_uva.py:560-579
  const PicadurasGenerales := Rule(Crop, And(Has("picaduras_racimos"), And(Lacks("aves_presentes"), Lacks("avispa_presencia"))), [DiagnosisOf(Aves)],
    Diagnosis("Daño en racimos (causa a determinar)", 50, Some("Daño visible sin identificar agente"), "picaduras_generales"))
  // knowledge/reglas_uva.py:580-597
  const AvispasAbejasCompleta := Rule(Crop, AllOf({"bayas_vacias", "avispa_presencia"}), [],
    Diagnosis(AvispasAbejas, 100, Some("Racimos con bayas solo piel"), "avispas_abejas_completa"))
  // knowledge/reglas_uva.py:599-618
  const BayasVaciasParcial := Rule(Crop, And(Has("bayas_vacias"), Lacks("avispa_presencia")), [DiagnosisOf(AvispasAbejas)],
    Diagnosis("Daño en uvas (posible avispas/aves)", 60, Some("Bayas vacías sin confirmar agente"), "bayas_vacias_parcial"))
  // knowledge/reglas_uva.py:619-635
  const RatasRatonCompleta := Rule(Crop, AllOf({"racimos_consumidos", "madrigueras"}), [],
    Diagnosis(RatasRatones, 100, Some("Daño directo en racimos o tallos"), "ratas_raton_completa"))
  // knowledge/reglas_uva.py:637-656
  const RatasRatonParcial := Rule(Crop, And(AnyOf({"racimos_consumidos", "madrigueras"}), Not(AllOf({"racimos_consumidos", "madrigueras"}))), [DiagnosisOf(RatasRatones)],
    Diagnosis("Ratas y ratones – sospecha", 70, Some("Evidencia parcial de roedores"), "ratas_raton_parcial"))
  // knowledge/reglas_uva.py:657-673
  const GusanoCornudoCompleta := Rule(Crop, AllOf({"hojas_consumidas", "gusano_grande"}), [],
    Diagnosis(GusanoCornudo, 100, Some("Presencia visual de larvas >6 cm"), "gusano_cornudo_completa"))
  // knowledge/reglas_uva.py:675-694
  const HojasConsumidasParcial := Rule(Crop, And(Has("hojas_consumidas"), Lacks("gusano_grande")), [DiagnosisOf(GusanoCornudo)],
    Diagnosis("Daño foliar por insecto (a identificar)", 50, Some("Hojas comidas sin identificar insecto"), "hojas_consumidas_parcial"))
  // knowledge/reglas_uva.py:695-712
  const NematodosCompleta := Rule(Crop, AllOf({"plantas_debiles", "nódulos_redondeados_raíz"}), [],
    Diagnosis(Nematodos, 100, Some("Nódulos redondeados en raíces"), "nematodos_completa"))
  // knowledge/reglas_uva.py:714-733
  const NematodosParcial := Rule(Crop, And(Has("nódulos_redondeados_raíz"), Lacks("plantas_debiles")), [DiagnosisOf(Nematodos)],
    Diagnosis("Nematodos – sospecha", 80, Some("Nódulos en raíces detectados"), "nematodos_parcial"))
  // knowledge/reglas_uva.py:734-751
  const OidiumCompleta := Rule(Crop, AllOf({"polvillo_blanco", "aborto_flores"}), [],
    Diagnosis(Oidio, 100, Some("Polvillo blanco en hojas y racimos"), "oidium_completa"))
  // knowledge/reglas_uva.py:753-772
  const OidiumParcial := Rule(Crop, And(Has("polvillo_blanco"), Lacks("aborto_flores")), [DiagnosisOf(Oidio)],
    Diagnosis("Oidio – sospecha", 70, Some("Primeros signos visibles"), "oidium_parcial"))
  // knowledge/reglas_uva.py:773-790
  const PodredumbreGrisCompleta := Rule(Crop, AllOf({"moho_gris", "racimos_podridos"}), [],
    Diagnosis(PodredumbreGris, 100, Some("Moho gris en racimos en envero"), "podredumbre_gris_completa"))
  // knowledge/reglas_uva.py:792-809
  const PodredumbreGrisParcial := Rule(Crop, And(Has("moho_gris"), Lacks("racimos_podridos")), [DiagnosisOf(PodredumbreGris)],
    Diagnosis("Podredumbre gris – sospecha", 60, Some("Primeras manchas marrón oscuro"), "podredumbre_gris_parcial"))
  // knowledge/reglas_uva.py:811-830
  const RacimosPodridosGeneral := Rule(Crop, And(Has("racimos_podridos"), Lacks("moho_gris")), [DiagnosisOf(PodredumbreGris)],
    Diagnosis("Pudrición de racimos (causa a determinar)", 50, Some("Racimos podridos sin moho visible"), "racimos_podridos_general"))
  // knowledge/reglas_uva.py:831-848
  const AgallaCoronaCompleta := Rule(Crop, AllOf({"agallas_tallo", "plantas_pequeñas"}), [],
    Diagnosis(AgallaCorona, 100, Some("Tumores en cuello de planta"), "agalla_corona_completa"))
  // knowledge/reglas_uva.py:850-869
  const AgallaCoronaParcial := Rule(Crop, And(Has("agallas_tallo"), Lacks("plantas_pequeñas")), [DiagnosisOf(AgallaCorona)],
    Diagnosis("Agalla de la corona – sospecha", 80, Some("Tumores detectados"), "agalla_corona_parcial"))
  // knowledge/reglas_uva.py:870-888
  const DeficienciaNutricional := Rule(Crop, AllOf({"clorosis_hojas", "crecimiento_lento"}), [],
    Diagnosis("Deficiencia nutricional (potasio/nitrógeno)", 80, Some("Síntomas generales sin plaga específica"), "deficiencia_nutricional"))
  // knowledge/reglas_uva.py:889-907
  const EstresHidrico := Rule(Crop, AllOf({"hojas_marchitas", "suelo_seco"}), [],
    Diagnosis("Estrés hídrico", 90, Some("Marchitez sin plaga visible"), "estrés_hidrico"))
  // knowledge/reglas_uva.py:908-926
  const ProblemaRaices := Rule(Crop, AllOf({"hojas_amarrillentas", "raíces_dañadas"}), [],
    Diagnosis("Problema radicular (drenaje/pH)", 70, Some("Síntomas sistémicos"), "problema_raices"))
  // knowledge/reglas_uva.py:927-945
  const EstresAmbiental := Rule(Crop, AllOf({"flores_no_cuajan", "temperatura_alta"}), [],
    Diagnosis("Estrés ambiental (alta temperatura)", 80, Some("Fallo en cuajado sin plaga"), "estrés_ambiental"))
  // knowledge/reglas_uva.py:946-964
  const ManejoCultivo := Rule(Crop, AllOf({"racimos_desiguales", "poda_inadecuada"}), [],
    Diagnosis("Manejo cultural inadecuado", 90, Some("Problemas estructurales en planta"), "manejo_cultivo"))
  // knowledge/reglas_uva.py:965-981
  const SinDiagnostico := Rule(Crop, Always, [AnyDiagnosis],
    Diagnosis("Sin plaga identificada", 0, Some("N/A"), "sin_diagnostico"))

  const Rules: seq<Rule> := [
    FiloxeraCompleta, FiloxeraParcial, AranitaRojaCompleta, AranitaRojaParcial, AcaroHialinoCompleta, AcaroHialinoParcial, AvesCompleta, PicadurasGenerales, AvispasAbejasCompleta, BayasVaciasParcial, RatasRatonCompleta, RatasRatonParcial, GusanoCornudoCompleta, HojasConsumidasParcial, NematodosCompleta, NematodosParcial, OidiumCompleta, OidiumParcial, PodredumbreGrisCompleta, PodredumbreGrisParcial, RacimosPodridosGeneral, AgallaCoronaCompleta, AgallaCoronaParcial, DeficienciaNutricional, EstresHidrico, ProblemaRaices, EstresAmbiental, ManejoCultivo, SinDiagnostico]

  // ---------------------------------------------------------------------------------------
  // Each test read as a condition on the symptom set

  lemma FiloxeraCompletaTest(s: set<string>)
    ensures Holds(FiloxeraCompleta.when, s) <==> "verrugas_hojas" in s && "nudosidades_raices" in s
  {
  }

  lemma FiloxeraParcialTest(s: set<string>)
    ensures Holds(FiloxeraParcial.when, s) <==> ("verrugas_hojas" in s || "nudosidades_raices" in s)
  {
  }

  lemma AranitaRojaCompletaTest(s: set<string>)
    ensures Holds(AranitaRojaCompleta.when, s) <==> "hojas_gris_plomizo" in s && "tejido_araña" in s
  {
  }

  lemma AranitaRojaParcialTest(s: set<string>)
    ensures Holds(AranitaRojaParcial.when, s) <==> "hojas_gris_plomizo" in s && "tejido_araña" !in s
  {
  }

  lemma AcaroHialinoCompletaTest(s: set<string>)
    ensures Holds(AcaroHialinoCompleta.when, s) <==> "brotacion_lenta" in s && "hojas_abarquilladas" in s
  {
  }

  lemma AcaroHialinoParcialTest(s: set<string>)
    ensures Holds(AcaroHialinoParcial.when, s) <==> "hojas_abarquilladas" in s && "brotacion_lenta" !in s
  {
  }

  lemma AvesCompletaTest(s: set<string>)
    ensures Holds(AvesCompleta.when, s) <==> "picaduras_racimos" in s && "aves_presentes" in s
  {
  }

  lemma PicadurasGeneralesTest(s: set<string>)
    ensures Holds(PicadurasGenerales.when, s) <==> "picaduras_racimos" in s && "aves_presentes" !in s && "avispa_presencia" !in s
  {
    assert Holds(And(Lacks("aves_presentes"), Lacks("avispa_presencia")), s) <==>
      "aves_presentes" !in s && "avispa_presencia" !in s;
  }

  lemma AvispasAbejasCompletaTest(s: set<string>)
    ensures Holds(AvispasAbejasCompleta.when, s) <==> "bayas_vacias" in s && "avispa_presencia" in s
  {
  }

  lemma BayasVaciasParcialTest(s: set<string>)
    ensures Holds(BayasVaciasParcial.when, s) <==> "bayas_vacias" in s && "avispa_presencia" !in s
  {
  }

  lemma RatasRatonCompletaTest(s: set<string>)
    ensures Holds(RatasRatonCompleta.when, s) <==> "racimos_consumidos" in s && "madrigueras" in s
  {
  }

  lemma RatasRatonParcialTest(s: set<string>)
    ensures Holds(RatasRatonParcial.when, s) <==> ("racimos_consumidos" in s <==> "madrigueras" !in s)
  {
    assert Holds(AnyOf({"racimos_consumidos", "madrigueras"}), s) <==> "racimos_consumidos" in s || "madrigueras" in s;
    assert Holds(AllOf({"racimos_consumidos", "madrigueras"}), s) <==> "racimos_consumidos" in s && "madrigueras" in s;
  }

  lemma GusanoCornudoCompletaTest(s: set<string>)
    ensures Holds(GusanoCornudoCompleta.when, s) <==> "hojas_consumidas" in s && "gusano_grande" in s
  {
  }

  lemma HojasConsumidasParcialTest(s: set<string>)
    ensures Holds(HojasConsumidasParcial.when, s) <==> "hojas_consumidas" in s && "gusano_grande" !in s
  {
  }

  lemma NematodosCompletaTest(s: set<string>)
    ensures Holds(NematodosCompleta.when, s) <==> "plantas_debiles" in s && "nódulos_redondeados_raíz" in s
  {
  }

  lemma NematodosParcialTest(s: set<string>)
    ensures Holds(NematodosParcial.when, s) <==> "nódulos_redondeados_raíz" in s && "plantas_debiles" !in s
  {
  }

  lemma OidiumCompletaTest(s: set<string>)
    ensures Holds(OidiumCompleta.when, s) <==> "polvillo_blanco" in s && "aborto_flores" in s
  {
  }

  lemma OidiumParcialTest(s: set<string>)
    ensures Holds(OidiumParcial.when, s) <==> "polvillo_blanco" in s && "aborto_flores" !in s
  {
  }

  lemma PodredumbreGrisCompletaTest(s: set<string>)
    ensures Holds(PodredumbreGrisCompleta.when, s) <==> "moho_gris" in s && "racimos_podridos" in s
  {
  }

  lemma PodredumbreGrisParcialTest(s: set<string>)
    ensures Holds(PodredumbreGrisParcial.when, s) <==> "moho_gris" in s && "racimos_podridos" !in s
  {
  }

  lemma RacimosPodridosGeneralTest(s: set<string>)
    ensures Holds(RacimosPodridosGeneral.when, s) <==> "racimos_podridos" in s && "moho_gris" !in s
  {
  }

  lemma AgallaCoronaCompletaTest(s: set<string>)
    ensures Holds(AgallaCoronaCompleta.when, s) <==> "agallas_tallo" in s && "plantas_pequeñas" in s
  {
  }

  lemma AgallaCoronaParcialTest(s: set<string>)
    ensures Holds(AgallaCoronaParcial.when, s) <==> "agallas_tallo" in s && "plantas_pequeñas" !in s
  {
  }

  lemma DeficienciaNutricionalTest(s: set<string>)
    ensures Holds(DeficienciaNutricional.when, s) <==> "clorosis_hojas" in s && "crecimiento_lento" in s
  {
  }

  lemma EstresHidricoTest(s: set<string>)
    ensures Holds(EstresHidrico.when, s) <==> "hojas_marchitas" in s && "suelo_seco" in s
  {
  }

  lemma ProblemaRaicesTest(s: set<string>)
    ensures Holds(ProblemaRaices.when, s) <==> "hojas_amarrillentas" in s && "raíces_dañadas" in s
  {
  }

  lemma EstresAmbientalTest(s: set<string>)
    ensures Holds(EstresAmbiental.when, s) <==> "flores_no_cuajan" in s && "temperatura_alta" in s
  {
  }

  lemma ManejoCultivoTest(s: set<string>)
    ensures Holds(ManejoCultivo.when, s) <==> "racimos_desiguales" in s && "poda_inadecuada" in s
  {
  }

  // ---------------------------------------------------------------------------------------
  // Firing conditions

  lemma FiloxeraFiring(c: Case)
    ensures FiredAt(Rules, c, 0) <==> c.crop == Crop && "verrugas_hojas" in c.symptoms && "nudosidades_raices" in c.symptoms
    ensures FiredAt(Rules, c, 1) <==> c.crop == Crop && ("verrugas_hojas" in c.symptoms <==> "nudosidades_raices" !in c.symptoms)
  {
    FiloxeraGuard();
    FiresWithoutGuards(Rules, c, 0);
    Suppression(Rules, c, 0, 1);
    FiloxeraCompletaTest(c.symptoms);
    FiloxeraParcialTest(c.symptoms);
  }

  lemma FiloxeraGuard()
    ensures Rules[0].unless == [] && Rules[1].unless == [DiagnosisOf(Rules[0].asserts.pest)]
  {
  }

  lemma AranitaRojaFiring(c: Case)
    ensures FiredAt(Rules, c, 2) <==> c.crop == Crop && "hojas_gris_plomizo" in c.symptoms && "tejido_araña" in c.symptoms
    ensures FiredAt(Rules, c, 3) <==> c.crop == Crop && "hojas_gris_plomizo" in c.symptoms && "tejido_araña" !in c.symptoms
  {
    AranitaRojaGuard();
    FiresWithoutGuards(Rules, c, 2);
    Suppression(Rules, c, 2, 3);
    AranitaRojaCompletaTest(c.symptoms);
    AranitaRojaParcialTest(c.symptoms);
  }

  lemma AranitaRojaGuard()
    ensures Rules[2].unless == [] && Rules[3].unless == [DiagnosisOf(Rules[2].asserts.pest)]
    ensures forall m :: 0 <= m < 3 && m != 2 ==> Rules[m].asserts.pest != Rules[2].asserts.pest
  {
  }

  lemma AcaroHialinoFiring(c: Case)
    ensures FiredAt(Rules, c, 4) <==> c.crop == Crop && "brotacion_lenta" in c.symptoms && "hojas_abarquilladas" in c.symptoms
    ensures FiredAt(Rules, c, 5) <==> c.crop == Crop && "hojas_abarquilladas" in c.symptoms && "brotacion_lenta" !in c.symptoms
  {
    AcaroHialinoGuard();
    FiresWithoutGuards(Rules, c, 4);
    Suppression(Rules, c, 4, 5);
    AcaroHialinoCompletaTest(c.symptoms);
    AcaroHialinoParcialTest(c.symptoms);
  }

  lemma AcaroHialinoGuard()
    ensures Rules[4].unless == [] && Rules[5].unless == [DiagnosisOf(Rules[4].asserts.pest)]
    ensures forall m :: 0 <= m < 5 && m != 4 ==> Rules[m].asserts.pest != Rules[4].asserts.pest
  {
  }

  lemma AvesFiring(c: Case)
    ensures FiredAt(Rules, c, 6) <==> c.crop == Crop && "picaduras_racimos" in c.symptoms && "aves_presentes" in c.symptoms
    ensures FiredAt(Rules, c, 7) <==>
      c.crop == Crop && "picaduras_racimos" in c.symptoms && "aves_presentes" !in c.symptoms &&
      "avispa_presencia" !in c.symptoms
  {
    AvesGuard();
    FiresWithoutGuards(Rules, c, 6);
    Suppression(Rules, c, 6, 7);
    AvesCompletaTest(c.symptoms);
    PicadurasGeneralesTest(c.symptoms);
  }

  lemma AvesGuard()
    ensures Rules[6].unless == [] && Rules[7].unless == [DiagnosisOf(Rules[6].asserts.pest)]
    ensures forall m :: 0 <= m < 7 && m != 6 ==> Rules[m].asserts.pest != Rules[6].asserts.pest
  {
  }

  lemma AvispasAbejasFiring(c: Case)
    ensures FiredAt(Rules, c, 8) <==> c.crop == Crop && "bayas_vacias" in c.symptoms && "avispa_presencia" in c.symptoms
    ensures FiredAt(Rules, c, 9) <==> c.crop == Crop && "bayas_vacias" in c.symptoms && "avispa_presencia" !in c.symptoms
  {
    AvispasAbejasGuard();
    FiresWithoutGuards(Rules, c, 8);
    Suppression(Rules, c, 8, 9);
    AvispasAbejasCompletaTest(c.symptoms);
    BayasVaciasParcialTest(c.symptoms);
  }

  lemma AvispasAbejasGuard()
    ensures Rules[8].unless == [] && Rules[9].unless == [DiagnosisOf(Rules[8].asserts.pest)]
    ensures forall m :: 0 <= m < 9 && m != 8 ==> Rules[m].asserts.pest != Rules[8].asserts.pest
  {
  }

  lemma RatasRatonFiring(c: Case)
    ensures FiredAt(Rules, c, 10) <==> c.crop == Crop && "racimos_consumidos" in c.symptoms && "madrigueras" in c.symptoms
    ensures FiredAt(Rules, c, 11) <==> c.crop == Crop && ("racimos_consumidos" in c.symptoms <==> "madrigueras" !in c.symptoms)
  {
    RatasRatonGuard();
    FiresWithoutGuards(Rules, c, 10);
    Suppression(Rules, c, 10, 11);
    RatasRatonCompletaTest(c.symptoms);
    RatasRatonParcialTest(c.symptoms);
  }

  lemma RatasRatonGuard()
    ensures Rules[10].unless == [] && Rules[11].unless == [DiagnosisOf(Rules[10].asserts.pest)]
    ensures forall m :: 0 <= m < 11 && m != 10 ==> Rules[m].asserts.pest != Rules[10].asserts.pest
  {
  }

  lemma GusanoCornudoFiring(c: Case)
    ensures FiredAt(Rules, c, 12) <==> c.crop == Crop && "hojas_consumidas" in c.symptoms && "gusano_grande" in c.symptoms
    ensures FiredAt(Rules, c, 13) <==> c.crop == Crop && "hojas_consumidas" in c.symptoms && "gusano_grande" !in c.symptoms
  {
    GusanoCornudoGuard();
    FiresWithoutGuards(Rules, c, 12);
    Suppression(Rules, c, 12, 13);
    GusanoCornudoCompletaTest(c.symptoms);
    HojasConsumidasParcialTest(c.symptoms);
  }

  lemma GusanoCornudoGuard()
    ensures Rules[12].unless == [] && Rules[13].unless == [DiagnosisOf(Rules[12].asserts.pest)]
    ensures forall m :: 0 <= m < 13 && m != 12 ==> Rules[m].asserts.pest != Rules[12].asserts.pest
  {
  }

  lemma NematodosFiring(c: Case)
    ensures FiredAt(Rules, c, 14) <==> c.crop == Crop && "plantas_debiles" in c.symptoms && "nódulos_redondeados_raíz" in c.symptoms
    ensures FiredAt(Rules, c, 15) <==> c.crop == Crop && "nódulos_redondeados_raíz" in c.symptoms && "plantas_debiles" !in c.symptoms
  {
    NematodosGuard();
    FiresWithoutGuards(Rules, c, 14);
    Suppression(Rules, c, 14, 15);
    NematodosCompletaTest(c.symptoms);
    NematodosParcialTest(c.symptoms);
  }

  lemma NematodosGuard()
    ensures Rules[14].unless == [] && Rules[15].unless == [DiagnosisOf(Rules[14].asserts.pest)]
    ensures forall m :: 0 <= m < 15 && m != 14 ==> Rules[m].asserts.pest != Rules[14].asserts.pest
  {
  }

  lemma OidioFiring(c: Case)
    ensures FiredAt(Rules, c, 16) <==> c.crop == Crop && "polvillo_blanco" in c.symptoms && "aborto_flores" in c.symptoms
    ensures FiredAt(Rules, c, 17) <==> c.crop == Crop && "polvillo_blanco" in c.symptoms && "aborto_flores" !in c.symptoms
  {
    OidioGuard();
    FiresWithoutGuards(Rules, c, 16);
    Suppression(Rules, c, 16, 17);
    OidiumCompletaTest(c.symptoms);
    OidiumParcialTest(c.symptoms);
  }

  lemma OidioGuard()
    ensures Rules[16].unless == [] && Rules[17].unless == [DiagnosisOf(Rules[16].asserts.pest)]
    ensures forall m :: 0 <= m < 17 && m != 16 ==> Rules[m].asserts.pest != Rules[16].asserts.pest
  {
  }

  lemma PodredumbreGrisFiring(c: Case)
    ensures FiredAt(Rules, c, 18) <==> c.crop == Crop && "moho_gris" in c.symptoms && "racimos_podridos" in c.symptoms
    ensures FiredAt(Rules, c, 19) <==> c.crop == Crop && "moho_gris" in c.symptoms && "racimos_podridos" !in c.symptoms
  {
    PodredumbreGrisGuard();
    FiresWithoutGuards(Rules, c, 18);
    Suppression(Rules, c, 18, 19);
    PodredumbreGrisCompletaTest(c.symptoms);
    PodredumbreGrisParcialTest(c.symptoms);
  }

  lemma PodredumbreGrisGuard()
    ensures Rules[18].unless == [] && Rules[19].unless == [DiagnosisOf(Rules[18].asserts.pest)]
    ensures forall m :: 0 <= m < 19 && m != 18 ==> Rules[m].asserts.pest != Rules[18].asserts.pest
  {
  }

  lemma RacimosPodridosFiring(c: Case)
    ensures FiredAt(Rules, c, 20) <==> c.crop == Crop && "racimos_podridos" in c.symptoms && "moho_gris" !in c.symptoms
  {
    RacimosPodridosGuard();
    FiresWithoutGuards(Rules, c, 18);
    Suppression(Rules, c, 18, 20);
    PodredumbreGrisCompletaTest(c.symptoms);
    RacimosPodridosGeneralTest(c.symptoms);
  }

  lemma RacimosPodridosGuard()
    ensures Rules[18].unless == [] && Rules[20].unless == [DiagnosisOf(Rules[18].asserts.pest)]
    ensures forall m :: 0 <= m < 20 && m != 18 ==> Rules[m].asserts.pest != Rules[18].asserts.pest
  {
  }

  lemma AgallaCoronaFiring(c: Case)
    ensures FiredAt(Rules, c, 21) <==> c.crop == Crop && "agallas_tallo" in c.symptoms && "plantas_pequeñas" in c.symptoms
    ensures FiredAt(Rules, c, 22) <==> c.crop == Crop && "agallas_tallo" in c.symptoms && "plantas_pequeñas" !in c.symptoms
  {
    AgallaCoronaGuard();
    FiresWithoutGuards(Rules, c, 21);
    Suppression(Rules, c, 21, 22);
    AgallaCoronaCompletaTest(c.symptoms);
    AgallaCoronaParcialTest(c.symptoms);
  }

  lemma AgallaCoronaGuard()
    ensures Rules[21].unless == [] && Rules[22].unless == [DiagnosisOf(Rules[21].asserts.pest)]
    ensures forall m :: 0 <= m < 22 && m != 21 ==> Rules[m].asserts.pest != Rules[21].asserts.pest
  {
  }

  /** The five general rules (`deficiencia_nutricional` to `manejo_cultivo`) have no negation
      guard: each fires exactly when both of its tags are present. */
  lemma GeneralFiring(c: Case)
    ensures FiredAt(Rules, c, 23) <==> c.crop == Crop && "clorosis_hojas" in c.symptoms && "crecimiento_lento" in c.symptoms
    ensures FiredAt(Rules, c, 24) <==> c.crop == Crop && "hojas_marchitas" in c.symptoms && "suelo_seco" in c.symptoms
    ensures FiredAt(Rules, c, 25) <==> c.crop == Crop && "hojas_amarrillentas" in c.symptoms && "raíces_dañadas" in c.symptoms
    ensures FiredAt(Rules, c, 26) <==> c.crop == Crop && "flores_no_cuajan" in c.symptoms && "temperatura_alta" in c.symptoms
    ensures FiredAt(Rules, c, 27) <==> c.crop == Crop && "racimos_desiguales" in c.symptoms && "poda_inadecuada" in c.symptoms
  {
    FiresWithoutGuards(Rules, c, 23);
    DeficienciaNutricionalTest(c.symptoms);
    FiresWithoutGuards(Rules, c, 24);
    EstresHidricoTest(c.symptoms);
    FiresWithoutGuards(Rules, c, 25);
    ProblemaRaicesTest(c.symptoms);
    FiresWithoutGuards(Rules, c, 26);
    EstresAmbientalTest(c.symptoms);
    FiresWithoutGuards(Rules, c, 27);
    ManejoCultivoTest(c.symptoms);
  }

  /** `sin_diagnostico` fires exactly when none of the 28 rules before it fired, which is
      exactly when none of their tests holds; it reports certainty 0. */
  lemma SinDiagnosticoFiring(c: Case)
    ensures FiredAt(Rules, c, 28) <==> c.crop == Crop && forall j :: 0 <= j < 28 ==> !FiredAt(Rules, c, j)
    ensures FiredAt(Rules, c, 28) <==>
      c.crop == Crop && forall j :: 0 <= j < 28 ==> !Holds(Rules[j].when, c.symptoms)
    ensures Rules[28].asserts.certainty == 0 && Rules[28].asserts.rule == "sin_diagnostico"
  {
    FallbackFires(Rules, c, 28);
    FallbackApplies(Rules, c, 28);
  }

  // ---------------------------------------------------------------------------------------
  // Complete and partial variants

  /** Every complete rule is certain (1.0) and the partial or general rule guarded by its
      pest ranks strictly below it, between 0.5 and 0.8. */
  lemma CompleteOutranksPartial()
    ensures FiloxeraCompleta.asserts.certainty == 100 && 50 <= FiloxeraParcial.asserts.certainty <= 80
    ensures AranitaRojaCompleta.asserts.certainty == 100 && 50 <= AranitaRojaParcial.asserts.certainty <= 80
    ensures AcaroHialinoCompleta.asserts.certainty == 100 && 50 <= AcaroHialinoParcial.asserts.certainty <= 80
    ensures AvesCompleta.asserts.certainty == 100 && 50 <= PicadurasGenerales.asserts.certainty <= 80
    ensures AvispasAbejasCompleta.asserts.certainty == 100 && 50 <= BayasVaciasParcial.asserts.certainty <= 80
    ensures RatasRatonCompleta.asserts.certainty == 100 && 50 <= RatasRatonParcial.asserts.certainty <= 80
    ensures GusanoCornudoCompleta.asserts.certainty == 100 && 50 <= HojasConsumidasParcial.asserts.certainty <= 80
    ensures NematodosCompleta.asserts.certainty == 100 && 50 <= NematodosParcial.asserts.certainty <= 80
    ensures OidiumCompleta.asserts.certainty == 100 && 50 <= OidiumParcial.asserts.certainty <= 80
    ensures PodredumbreGrisCompleta.asserts.certainty == 100 && 50 <= PodredumbreGrisParcial.asserts.certainty <= 80
    ensures PodredumbreGrisCompleta.asserts.certainty == 100 && 50 <= RacimosPodridosGeneral.asserts.certainty <= 80
    ensures AgallaCoronaCompleta.asserts.certainty == 100 && 50 <= AgallaCoronaParcial.asserts.certainty <= 80
  {
  }

  /** Apart from filoxera's, each partial or general test requires the completing tag to be
      absent, so the two rules of a pair never both match, in whatever order they are tried. */
  lemma ExclusiveByContent(s: set<string>)
    ensures !(Holds(AranitaRojaCompleta.when, s) && Holds(AranitaRojaParcial.when, s))
    ensures !(Holds(AcaroHialinoCompleta.when, s) && Holds(AcaroHialinoParcial.when, s))
    ensures !(Holds(AvesCompleta.when, s) && Holds(PicadurasGenerales.when, s))
    ensures !(Holds(AvispasAbejasCompleta.when, s) && Holds(BayasVaciasParcial.when, s))
    ensures !(Holds(RatasRatonCompleta.when, s) && Holds(RatasRatonParcial.when, s))
    ensures !(Holds(GusanoCornudoCompleta.when, s) && Holds(HojasConsumidasParcial.when, s))
    ensures !(Holds(NematodosCompleta.when, s) && Holds(NematodosParcial.when, s))
    ensures !(Holds(OidiumCompleta.when, s) && Holds(OidiumParcial.when, s))
    ensures !(Holds(PodredumbreGrisCompleta.when, s) && Holds(PodredumbreGrisParcial.when, s))
    ensures !(Holds(PodredumbreGrisCompleta.when, s) && Holds(RacimosPodridosGeneral.when, s))
    ensures !(Holds(AgallaCoronaCompleta.when, s) && Holds(AgallaCoronaParcial.when, s))
  {
    AranitaRojaCompletaTest(s);
    AranitaRojaParcialTest(s);
    AcaroHialinoCompletaTest(s);
    AcaroHialinoParcialTest(s);
    AvesCompletaTest(s);
    PicadurasGeneralesTest(s);
    AvispasAbejasCompletaTest(s);
    BayasVaciasParcialTest(s);
    RatasRatonCompletaTest(s);
    RatasRatonParcialTest(s);
    GusanoCornudoCompletaTest(s);
    HojasConsumidasParcialTest(s);
    NematodosCompletaTest(s);
    NematodosParcialTest(s);
    OidiumCompletaTest(s);
    OidiumParcialTest(s);
    PodredumbreGrisCompletaTest(s);
    PodredumbreGrisParcialTest(s);
    PodredumbreGrisCompletaTest(s);
    RacimosPodridosGeneralTest(s);
    AgallaCoronaCompletaTest(s);
    AgallaCoronaParcialTest(s);
  }

  /** Filoxera's partial test holds whenever the complete one does: only the negation guard,
      under declaration order, keeps the partial diagnosis out when both tags are present. */
  lemma FiloxeraNeedsGuard(c: Case)
    ensures Holds(FiloxeraCompleta.when, c.symptoms) ==> Holds(FiloxeraParcial.when, c.symptoms)
    ensures FiredAt(Rules, c, 0) ==> !FiredAt(Rules, c, 1)
  {
    FiloxeraCompletaTest(c.symptoms);
    FiloxeraParcialTest(c.symptoms);
    FiloxeraFiring(c);
  }

  // ---------------------------------------------------------------------------------------
  // Single symptoms. Each `...Quiet` helper checks a stretch of at most five tests on one
  // symptom set, which keeps every proof obligation small.

  /** `nudosidades_raices` alone yields the 0.7 filoxera suspicion and nothing else. */
  lemma NudosidadesAlone()
    ensures Outcome(Rules, Case(Crop, {"nudosidades_raices"})) == [FiloxeraParcial.asserts]
    ensures FiloxeraParcial.asserts.certainty == 70
  {
    var s := {"nudosidades_raices"};
    NudosidadesQuiet0();
    NudosidadesQuiet1();
    NudosidadesQuiet2();
    NudosidadesQuiet3();
    NudosidadesQuiet4();
    NudosidadesQuiet5();
    NudosidadesQuiet6();
    QuietJoin(Rules, s, 2, 7, 12);
    QuietJoin(Rules, s, 2, 12, 17);
    QuietJoin(Rules, s, 2, 17, 22);
    QuietJoin(Rules, s, 2, 22, 27);
    QuietJoin(Rules, s, 2, 27, 28);
    SoloBeforeFallback(Rules, Case(Crop, s), 1);
  }

  lemma NudosidadesQuiet0()
    ensures Quiet(Rules, {"nudosidades_raices"}, 0, 1)
  {
  }

  lemma NudosidadesQuiet1()
    ensures Quiet(Rules, {"nudosidades_raices"}, 2, 7)
  {
  }

  lemma NudosidadesQuiet2()
    ensures Quiet(Rules, {"nudosidades_raices"}, 7, 12)
  {
  }

  lemma NudosidadesQuiet3()
    ensures Quiet(Rules, {"nudosidades_raices"}, 12, 17)
  {
  }

  lemma NudosidadesQuiet4()
    ensures Quiet(Rules, {"nudosidades_raices"}, 17, 22)
  {
  }

  lemma NudosidadesQuiet5()
    ensures Quiet(Rules, {"nudosidades_raices"}, 22, 27)
  {
  }

  lemma NudosidadesQuiet6()
    ensures Quiet(Rules, {"nudosidades_raices"}, 27, 28)
  {
  }

  /** `hojas_abarquilladas` alone yields the 0.5 hyaline mite suspicion and nothing else. */
  lemma HojasAbarquilladasAlone()
    ensures Outcome(Rules, Case(Crop, {"hojas_abarquilladas"})) == [AcaroHialinoParcial.asserts]
    ensures AcaroHialinoParcial.asserts.certainty == 50
  {
    var s := {"hojas_abarquilladas"};
    HojasAbarquilladasQuiet0();
    HojasAbarquilladasQuiet1();
    HojasAbarquilladasQuiet2();
    HojasAbarquilladasQuiet3();
    HojasAbarquilladasQuiet4();
    HojasAbarquilladasQuiet5();
    QuietJoin(Rules, s, 6, 11, 16);
    QuietJoin(Rules, s, 6, 16, 21);
    QuietJoin(Rules, s, 6, 21, 26);
    QuietJoin(Rules, s, 6, 26, 28);
    SoloBeforeFallback(Rules, Case(Crop, s), 5);
  }

  lemma HojasAbarquilladasQuiet0()
    ensures Quiet(Rules, {"hojas_abarquilladas"}, 0, 5)
  {
  }

  lemma HojasAbarquilladasQuiet1()
    ensures Quiet(Rules, {"hojas_abarquilladas"}, 6, 11)
  {
  }

  lemma HojasAbarquilladasQuiet2()
    ensures Quiet(Rules, {"hojas_abarquilladas"}, 11, 16)
  {
  }

  lemma HojasAbarquilladasQuiet3()
    ensures Quiet(Rules, {"hojas_abarquilladas"}, 16, 21)
  {
  }

  lemma HojasAbarquilladasQuiet4()
    ensures Quiet(Rules, {"hojas_abarquilladas"}, 21, 26)
  {
  }

  lemma HojasAbarquilladasQuiet5()
    ensures Quiet(Rules, {"hojas_abarquilladas"}, 26, 28)
  {
  }

  /** `picaduras_racimos` alone yields the bird suspicion, at most 0.6 and nothing else. */
  lemma PicadurasAlone()
    ensures Outcome(Rules, Case(Crop, {"picaduras_racimos"})) == [PicadurasGenerales.asserts]
    ensures PicadurasGenerales.asserts.certainty <= 60
  {
    var s := {"picaduras_racimos"};
    PicadurasQuiet0();
    PicadurasQuiet1();
    QuietJoin(Rules, s, 0, 5, 7);
    PicadurasQuiet2();
    PicadurasQuiet3();
    PicadurasQuiet4();
    PicadurasQuiet5();
    QuietJoin(Rules, s, 8, 13, 18);
    QuietJoin(Rules, s, 8, 18, 23);
    QuietJoin(Rules, s, 8, 23, 28);
    SoloBeforeFallback(Rules, Case(Crop, s), 7);
  }

  lemma PicadurasQuiet0()
    ensures Quiet(Rules, {"picaduras_racimos"}, 0, 5)
  {
  }

  lemma PicadurasQuiet1()
    ensures Quiet(Rules, {"picaduras_racimos"}, 5, 7)
  {
  }

  lemma PicadurasQuiet2()
    ensures Quiet(Rules, {"picaduras_racimos"}, 8, 13)
  {
  }

  lemma PicadurasQuiet3()
    ensures Quiet(Rules, {"picaduras_racimos"}, 13, 18)
  {
  }

  lemma PicadurasQuiet4()
    ensures Quiet(Rules, {"picaduras_racimos"}, 18, 23)
  {
  }

  lemma PicadurasQuiet5()
    ensures Quiet(Rules, {"picaduras_racimos"}, 23, 28)
  {
  }

  /** `bayas_vacias` alone yields the 0.6 wasp and bee suspicion, not the complete wasp and bee rule and nothing else. */
  lemma BayasVaciasAlone()
    ensures Outcome(Rules, Case(Crop, {"bayas_vacias"})) == [BayasVaciasParcial.asserts]
    ensures BayasVaciasParcial.asserts.certainty == 60
  {
    var s := {"bayas_vacias"};
    BayasVaciasQuiet0();
    BayasVaciasQuiet1();
    QuietJoin(Rules, s, 0, 5, 9);
    BayasVaciasQuiet2();
    BayasVaciasQuiet3();
    BayasVaciasQuiet4();
    BayasVaciasQuiet5();
    QuietJoin(Rules, s, 10, 15, 20);
    QuietJoin(Rules, s, 10, 20, 25);
    QuietJoin(Rules, s, 10, 25, 28);
    SoloBeforeFallback(Rules, Case(Crop, s), 9);
  }

  lemma BayasVaciasQuiet0()
    ensures Quiet(Rules, {"bayas_vacias"}, 0, 5)
  {
  }

  lemma BayasVaciasQuiet1()
    ensures Quiet(Rules, {"bayas_vacias"}, 5, 9)
  {
  }

  lemma BayasVaciasQuiet2()
    ensures Quiet(Rules, {"bayas_vacias"}, 10, 15)
  {
  }

  lemma BayasVaciasQuiet3()
    ensures Quiet(Rules, {"bayas_vacias"}, 15, 20)
  {
  }

  lemma BayasVaciasQuiet4()
    ensures Quiet(Rules, {"bayas_vacias"}, 20, 25)
  {
  }

  lemma BayasVaciasQuiet5()
    ensures Quiet(Rules, {"bayas_vacias"}, 25, 28)
  {
  }

  /** With no symptoms, or only tags no rule looks at, the fallback is the only diagnosis. */
  lemma UnknownSymptomsOnly(s: set<string>)
    requires s * Vocabulary(Rules) == {}
    ensures Outcome(Rules, Case(Crop, s)) == [SinDiagnostico.asserts]
  {
    NothingQuiet0();
    NothingQuiet1();
    NothingQuiet2();
    NothingQuiet3();
    NothingQuiet4();
    NothingQuiet5();
    QuietJoin(Rules, {}, 0, 5, 10);
    QuietJoin(Rules, {}, 0, 10, 15);
    QuietJoin(Rules, {}, 0, 15, 20);
    QuietJoin(Rules, {}, 0, 20, 25);
    QuietJoin(Rules, {}, 0, 25, 28);
    SizeFreeTests();
    QuietOnUnknown(Rules, s, 0, 28);
    OnlyFallback(Rules, Case(Crop, s));
  }

  lemma NothingQuiet0()
    ensures Quiet(Rules, {}, 0, 5)
  {
  }

  lemma NothingQuiet1()
    ensures Quiet(Rules, {}, 5, 10)
  {
  }

  lemma NothingQuiet2()
    ensures Quiet(Rules, {}, 10, 15)
  {
  }

  lemma NothingQuiet3()
    ensures Quiet(Rules, {}, 15, 20)
  {
  }

  lemma NothingQuiet4()
    ensures Quiet(Rules, {}, 20, 25)
  {
  }

  lemma NothingQuiet5()
    ensures Quiet(Rules, {}, 25, 28)
  {
  }
  /** No grape test counts the symptoms. */
  lemma SizeFreeTests()
    ensures forall j :: 0 <= j < 28 ==> SizeFree(Rules[j].when)
  {
  }
}
