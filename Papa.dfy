/** The potato registry, `ReglasPapa` (knowledge/reglas_papa.py): twenty rules that match
    any potato case and, in their bodies, declare a diagnosis only when both of two tags are
    present. That body check is the rule's test here: a rule that matches but whose check
    fails declares nothing, which is what a rule whose test fails does. No rule reads the
    diagnoses, and there is no fallback. */
module Papa {
  import opened Facts
  import opened Inference

  const Crop := "papa"

  // knowledge/reglas_papa.py:12-25
  const PlagaPulgon := Rule(Crop, And(Has("hojas_enrolladas"), Has("hojas_amarillentas")), [],
    Diagnosis("Pulgón de la papa (Myzus persicae)", 90, None, "plaga_pulgon"))
  // knowledge/reglas_papa.py:26-39
  const PlagaPolilla := Rule(Crop, And(Has("tuneles_en_hojas"), Has("larvas_presentes")), [],
    Diagnosis("Polilla de la papa (Phthorimaea operculella)", 90, None, "plaga_polilla"))
  // knowledge/reglas_papa.py:40-53
  const PlagaGusanoAlambre := Rule(Crop, And(Has("raices_perforadas"), Has("tuberculos_huecos")), [],
    Diagnosis("Gusano alambre (Agriotes spp.)", 60, None, "plaga_gusano_alambre"))
  // knowledge/reglas_papa.py:54-67
  const PlagaNematodoDorado := Rule(Crop, And(Has("plantas_debilitadas"), Has("manchas_amarillas")), [],
    Diagnosis("Nematodo dorado (Globodera rostochiensis)", 90, None, "plaga_nematodo_dorado"))
  // knowledge/reglas_papa.py:68-81
  const PlagaMoscaMinadora := Rule(Crop, And(Has("hojas_con_galerias"), Has("insectos_pequenos_negros")), [],
    Diagnosis("Mosca minadora (Liriomyza huidobrensis)", 60, None, "plaga_mosca_minadora"))
  // knowledge/reglas_papa.py:82-95
  const PlagaGorgojoAndino := Rule(Crop, And(Has("tallos_perforados"), Has("tuberculos_danados")), [],
    Diagnosis("Gorgojo andino (Premnotrypes spp.)", 90, None, "plaga_gorgojo_andino"))
  // knowledge/reglas_papa.py:96-109
  const PlagaTrips := Rule(Crop, And(Has("hojas_plateadas"), Has("insectos_pequenos")), [],
    Diagnosis("Trips", 60, None, "plaga_trips"))
  // knowledge/reglas_papa.py:110-123
  const PlagaAcaros := Rule(Crop, And(Has("hojas_arrugadas"), Has("polvo_fino_blanco")), [],
    Diagnosis("Ácaros", 90, None, "plaga_acaros"))
  // knowledge/reglas_papa.py:124-137
  const PlagaEscarabajo := Rule(Crop, And(Has("hojas_devoradas"), Has("insectos_amarillos_negros")), [],
    Diagnosis("Escarabajo de la papa (Leptinotarsa decemlineata)", 90, None, "plaga_escarabajo"))
  // knowledge/reglas_papa.py:138-151
  const PlagaGusanoCortador := Rule(Crop, And(Has("tallos_cortados"), Has("plantas_caidas")), [],
    Diagnosis("Gusano cortador (Agrotis spp.)", 60, None, "plaga_gusano_cortador"))
  // knowledge/reglas_papa.py:152-165
  const PlagaMoscaBlanca := Rule(Crop, And(Has("hojas_amarillas"), Has("insectos_mosca_blanca")), [],
    Diagnosis("Mosca blanca", 90, None, "plaga_mosca_blanca"))
  // knowledge/reglas_papa.py:166-179
  const PlagaMinadorTuberculo := Rule(Crop, And(Has("tuberculos_con_galerias"), Has("larvas_internas")), [],
    Diagnosis("Minador del tubérculo", 60, None, "plaga_minador_tuberculo"))
  // knowledge/reglas_papa.py:180-193
  const PlagaGusanoBlanco := Rule(Crop, And(Has("suelo_humedo"), Has("raices_mascadas")), [],
    Diagnosis("Gusano blanco", 60, None, "plaga_gusano_blanco"))
  // knowledge/reglas_papa.py:194-207
  const PlagaNematodoTallo := Rule(Crop, And(Has("tallos_deformados"), Has("hojas_abolladas")), [],
    Diagnosis("Nematodo del tallo", 60, None, "plaga_nematodo_tallo"))
  // knowledge/reglas_papa.py:208-221
  const PlagaGusanoRosado := Rule(Crop, And(Has("tuberculos_decolorados"), Has("larvas_rosadas")), [],
    Diagnosis("Gusano rosado", 90, None, "plaga_gusano_rosado"))
  // knowledge/reglas_papa.py:222-235
  const PlagaGrilloTopo := Rule(Crop, And(Has("suelo_agrietado"), Has("raices_mordidas")), [],
    Diagnosis("Grillo topo", 60, None, "plaga_grillo_topo"))
  // knowledge/reglas_papa.py:236-249
  const PlagaGusanoGris := Rule(Crop, And(Has("tallos_mordidos"), Has("ataque_nocturno")), [],
    Diagnosis("Gusano gris", 90, None, "plaga_gusano_gris"))
  // knowledge/reglas_papa.py:250-263
  const PlagaPulgonVerde := Rule(Crop, And(Has("hojas_curvadas"), Has("insectos_verdes")), [],
    Diagnosis("Pulgón verde", 60, None, "plaga_pulgon_verde"))
  // knowledge/reglas_papa.py:264-277
  const PlagaCaracoles := Rule(Crop, And(Has("hojas_mordidas"), Has("rastro_baboso")), [],
    Diagnosis("Caracoles o babosas", 60, None, "plaga_caracoles"))
  // knowledge/reglas_papa.py:278-289
  const PlagaTizonTardio := Rule(Crop, And(Has("hojas_manchas_negras"), Has("clima_humedo")), [],
    Diagnosis("Tizón tardío (Phytophthora infestans)", 90, None, "plaga_tizon_tardio"))

  const Rules: seq<Rule> := [
    PlagaPulgon, PlagaPolilla, PlagaGusanoAlambre, PlagaNematodoDorado, PlagaMoscaMinadora,
    PlagaGorgojoAndino, PlagaTrips, PlagaAcaros, PlagaEscarabajo, PlagaGusanoCortador,
    PlagaMoscaBlanca, PlagaMinadorTuberculo, PlagaGusanoBlanco, PlagaNematodoTallo,
    PlagaGusanoRosado, PlagaGrilloTopo, PlagaGusanoGris, PlagaPulgonVerde, PlagaCaracoles,
    PlagaTizonTardio]


  // ---------------------------------------------------------------------------------------
  // Every rule on its own

  /** No potato rule carries a negation guard. */
  lemma NoGuards()
    ensures forall i :: 0 <= i < |Rules| ==> Rules[i].unless == []
  {
  }

  /** Each rule checks two different tags. */
  lemma TwoTagChecks()
    ensures forall i :: 0 <= i < |Rules| ==>
      Rules[i].when.And? && Rules[i].when.l.Has? && Rules[i].when.r.Has? && Rules[i].when.l.tag != Rules[i].when.r.tag
  {
  }

  /** Each rule declares exactly when both of its tags are present. */
  lemma BothTagsFire(c: Case)
    ensures forall i :: 0 <= i < |Rules| ==>
      (FiredAt(Rules, c, i) <==> c.crop == Crop && Rules[i].when.l.tag in c.symptoms && Rules[i].when.r.tag in c.symptoms)
  {
    NoGuards();
    TwoTagChecks();
    forall i | 0 <= i < |Rules|
      ensures FiredAt(Rules, c, i) <==> c.crop == Crop && Rules[i].when.l.tag in c.symptoms && Rules[i].when.r.tag in c.symptoms
    {
      FiresWithoutGuards(Rules, c, i);
    }
  }

  /** The outcome is exactly the records of the rules whose checks pass, in declaration
      order. */
  lemma OutcomeIsApplicable(c: Case)
    ensures Outcome(Rules, c) == Applicable(Rules, c)
  {
    NoGuards();
    GuardFree(Rules, c, |Rules|);
    assert Rules[..|Rules|] == Rules;
  }

  /** Reordering the rules changes at most the order of the outcome, not its contents. */
  lemma AnyOrder(other: seq<Rule>, c: Case)
    requires multiset(other) == multiset(Rules)
    ensures multiset(Outcome(other, c)) == multiset(Outcome(Rules, c))
  {
    NoGuards();
    OrderIndependent(Rules, other, c);
  }

  /** Every potato certainty is 0.9 or 0.6. */
  lemma TwoCertainties()
    ensures forall i :: 0 <= i < |Rules| ==> Rules[i].asserts.certainty in {60, 90}
  {
  }

  // ---------------------------------------------------------------------------------------
  // Scenarios

  /** No symptom, or a single one, never gives a diagnosis: every check needs two
      different tags, and there is no fallback. */
  lemma AtMostOneSymptom(c: Case)
    requires |c.symptoms| <= 1
    ensures Outcome(Rules, c) == []
  {
    TwoTagChecks();
    forall j | 0 <= j < |Rules| ensures !Holds(Rules[j].when, c.symptoms) {
      var a, b := Rules[j].when.l.tag, Rules[j].when.r.tag;
      if a in c.symptoms && b in c.symptoms {
        SubsetSize({a, b}, c.symptoms);
      }
    }
    NoneApply(Rules, c, |Rules|);
  }

  /** Rolled and yellowing leaves give the aphid diagnosis, 0.9, rule `plaga_pulgon`. */
  lemma PulgonDiagnosis(c: Case)
    requires c.crop == Crop && "hojas_enrolladas" in c.symptoms && "hojas_amarillentas" in c.symptoms
    ensures Diagnosis("Pulgón de la papa (Myzus persicae)", 90, None, "plaga_pulgon") in Outcome(Rules, c)
  {
    FiresWithoutGuards(Rules, c, 0);
    FiredRecord(Rules, c, 0, |Rules|);
  }

  /** The aphid, Andean weevil and late blight symptoms together give all three diagnoses,
      so at least two. */
  lemma ThreePests(c: Case)
    requires c.crop == Crop
    requires {"hojas_enrolladas", "hojas_amarillentas", "tallos_perforados", "tuberculos_danados"} <= c.symptoms
    requires {"hojas_manchas_negras", "clima_humedo"} <= c.symptoms
    ensures PlagaPulgon.asserts in Outcome(Rules, c) && PlagaGorgojoAndino.asserts in Outcome(Rules, c)
    ensures PlagaTizonTardio.asserts in Outcome(Rules, c)
    ensures |Outcome(Rules, c)| >= 2
  {
    FiresWithoutGuards(Rules, c, 0);
    FiresWithoutGuards(Rules, c, 5);
    FiresWithoutGuards(Rules, c, 19);
    BothFired(Rules, c, 0, 5);
    FiredRecord(Rules, c, 19, |Rules|);
  }
}
