/** The driver, `SistemaExpertoPlagas.diagnosticar` (engine/motor.py), and the crop table it
    dispatches on, `MAPA_CULTIVOS`. A consultation lower-cases the crop name, looks it up,
    and either reports that the crop is not supported or runs the crop's rules over one
    case, keeps the facts that are diagnoses, sorts them in place by certainty (highest
    first, stably) and lists the rule of each. `Consult` is that behaviour as a function;
    `Diagnose` is the imperative procedure, proved to compute it. */
module Motor {
  import opened Facts
  import opened Inference
  import opened Ranking
  import Uva
  import Limon
  import Pina
  import Palta
  import Cafe
  import Papa
  import Cacao

  // ---------------------------------------------------------------------------------------
  // Lower-casing

  /** The characters `str.lower()` changes by adding 0x20: ASCII capitals and the Latin-1
      capitals from U+00C0 to U+00DE other than the multiplication sign U+00D7. */
  predicate IsUpper(ch: char)
  {
    ('A' <= ch <= 'Z') || ('\U{c0}' <= ch <= '\U{de}' && ch != '\U{d7}')
  }

  function LowerChar(ch: char): (r: char)
    ensures !IsUpper(r)
    ensures IsUpper(ch) ==> r as int == ch as int + 0x20
    ensures !IsUpper(ch) ==> r == ch
  {
    if IsUpper(ch) then (ch as int + 0x20) as char else ch
  }

  /** `cultivo.lower()` on the characters above; every other character is kept. */
  function Lower(s: string): (r: string)
    ensures |r| == |s|
    ensures forall i :: 0 <= i < |s| ==> !IsUpper(r[i])
    ensures forall i :: 0 <= i < |s| ==> (IsUpper(s[i]) ==> r[i] as int == s[i] as int + 0x20) && (!IsUpper(s[i]) ==> r[i] == s[i])
  {
    seq(|s|, i requires 0 <= i < |s| => LowerChar(s[i]))
  }

  /** Lower-casing twice is lower-casing once. */
  lemma LowerIdempotent(s: string)
    ensures Lower(Lower(s)) == Lower(s)
  {
  }

  /** A name with no capital is its own lower-case form. */
  lemma LowerKeeps(s: string)
    requires forall i :: 0 <= i < |s| ==> !IsUpper(s[i])
    ensures Lower(s) == s
  {
  }

  // ---------------------------------------------------------------------------------------
  // The crop table

  /** `MAPA_CULTIVOS` as written: each crop key with the rules of its knowledge-engine
      class. Only three crops are there. */
  const MapaCultivos: map<string, seq<Rule>> :=
    map[Pina.Crop := Pina.Rules, Uva.Crop := Uva.Rules, Limon.Crop := Limon.Rules]

  /** The table with every rule class the repository ships, each under the crop key its
      rules match on. */
  const MapaCorregido: map<string, seq<Rule>> :=
    MapaCultivos[Palta.Crop := Palta.Rules][Cafe.Crop := Cafe.Rules][Papa.Crop := Papa.Rules][Cacao.Crop := Cacao.Rules]

  // ---------------------------------------------------------------------------------------
  // A consultation

  /** What `diagnosticar` returns: an error message, or none, with the ordered diagnoses and
      the rule that produced each. */
  datatype Report = Report(error: Option<string>, diagnoses: seq<Diagnosis>, firedRules: seq<string>)

  /** The symptom list as the set the case carries. */
  function SymptomSet(symptoms: seq<string>): (s: set<string>)
    ensures forall x :: x in s <==> x in symptoms
  {
    set x | x in symptoms
  }

  function Unsupported(crop: string): string
  {
    "Cultivo '" + crop + "' no soportado a\U{fa}n."
  }

  /** The rule record of each diagnosis, in order. */
  function RulesFired(ds: seq<Diagnosis>): (names: seq<string>)
    ensures |names| == |ds| && forall i :: 0 <= i < |ds| ==> names[i] == ds[i].rule
  {
    seq(|ds|, i requires 0 <= i < |ds| => ds[i].rule)
  }

  /** `diagnosticar(cultivo, sintomas)` with the crop table `table`. */
  function Consult(table: map<string, seq<Rule>>, crop: string, symptoms: seq<string>): Report
  {
    var key := Lower(crop);
    if key !in table then Report(Some(Unsupported(crop)), [], [])
    else
      var ds := Ranked(Outcome(table[key], Case(key, SymptomSet(symptoms))));
      Report(None, ds, RulesFired(ds))
  }

  /** The consultation as the source performs it. */
  method Diagnose(table: map<string, seq<Rule>>, crop: string, symptoms: seq<string>) returns (r: Report)
    ensures r == Consult(table, crop, symptoms)
  {
    var key := Lower(crop);
    if key !in table {
      return Report(Some(Unsupported(crop)), [], []);
    }
    var found := Infer(table[key], Case(key, SymptomSet(symptoms)));
    var ds := SortedCopy(found);
    return Report(None, ds, RulesFired(ds));
  }

  /** A fresh engine is reset, given the case and run; the diagnoses are read off its facts. */
  method Infer(rules: seq<Rule>, c: Case) returns (found: seq<Diagnosis>)
    ensures found == Outcome(rules, c)
  {
    var engine := new Engine(rules);
    engine.Reset();
    engine.Declare(CaseFact(c));
    assert engine.facts == Seeded(c);
    engine.Run();
    PassOnSeeded(rules, c, |rules|);
    assert engine.facts == Seeded(c) + Wrap(Outcome(rules, c));
    SeededWithDiagnoses(c, Outcome(rules, c));
    found := Diagnoses(engine.facts);
  }

  /** The diagnoses are copied into a list that is sorted in place. */
  method SortedCopy(found: seq<Diagnosis>) returns (ds: seq<Diagnosis>)
    ensures ds == Ranked(found)
  {
    var list := new Diagnosis[|found|](i requires 0 <= i < |found| => found[i]);
    assert list[..] == found;
    SortByCertainty(list);
    ds := list[..];
  }

  // ---------------------------------------------------------------------------------------
  // What every consultation guarantees

  /** A crop whose lower-case name is not in the table is reported as not supported, with
      no diagnosis and no rule, whatever the symptoms; the message quotes the name as it was
      typed, not lower-cased. Any other crop gets no error. */
  lemma UnsupportedCrop(table: map<string, seq<Rule>>, crop: string, symptoms: seq<string>)
    ensures Consult(table, crop, symptoms).error.Some? <==> Lower(crop) !in table
    ensures Lower(crop) !in table ==>
      var m := Consult(table, crop, symptoms).error.value;
      && |m| == |crop| + 28
      && m[..9] == "Cultivo '" && m[9..9 + |crop|] == crop && m[9 + |crop|..] == "' no soportado a\U{fa}n."
      && Consult(table, crop, symptoms).diagnoses == [] && Consult(table, crop, symptoms).firedRules == []
  {
  }

  /** Only the lower-cased name matters: two names that lower-case alike get the same
      diagnoses and rules, and either both or neither get an error. */
  lemma CaseInsensitive(table: map<string, seq<Rule>>, a: string, b: string, symptoms: seq<string>)
    requires Lower(a) == Lower(b)
    ensures Consult(table, a, symptoms).error.Some? == Consult(table, b, symptoms).error.Some?
    ensures Consult(table, a, symptoms).diagnoses == Consult(table, b, symptoms).diagnoses
    ensures Consult(table, a, symptoms).firedRules == Consult(table, b, symptoms).firedRules
  {
  }

  /** The symptoms are used as a set: repeating or reordering them changes nothing. */
  lemma SymptomsAsSet(table: map<string, seq<Rule>>, crop: string, s: seq<string>, u: seq<string>)
    requires forall x :: x in s <==> x in u
    ensures Consult(table, crop, s) == Consult(table, crop, u)
  {
    assert SymptomSet(s) == SymptomSet(u);
  }

  /** On a supported crop, the report lists exactly the diagnoses the pass asserted (no
      other fact), highest certainty first; diagnoses of equal certainty keep the order
      they were asserted in; and the i-th rule is the i-th diagnosis's rule. */
  lemma ReportOrder(table: map<string, seq<Rule>>, crop: string, symptoms: seq<string>)
    requires Lower(crop) in table
    ensures var r := Consult(table, crop, symptoms);
      var asserted := Outcome(table[Lower(crop)], Case(Lower(crop), SymptomSet(symptoms)));
      && multiset(r.diagnoses) == multiset(asserted)
      && Descending(r.diagnoses)
      && (forall k :: WithCertainty(r.diagnoses, k) == WithCertainty(asserted, k))
      && |r.firedRules| == |r.diagnoses|
      && (forall i :: 0 <= i < |r.diagnoses| ==> r.firedRules[i] == r.diagnoses[i].rule)
  {
    var asserted := Outcome(table[Lower(crop)], Case(Lower(crop), SymptomSet(symptoms)));
    RankedPermutes(asserted);
    RankedDescending(asserted);
    forall k ensures WithCertainty(Ranked(asserted), k) == WithCertainty(asserted, k) {
      RankedStable(asserted, k);
    }
  }

  // ---------------------------------------------------------------------------------------
  // The table as written

  /** The supported keys are exactly `piña`, `uva` and `limon`. */
  lemma SupportedKeys()
    ensures MapaCultivos.Keys == {"pi\U{f1}a", "uva", "limon"}
  {
  }

  /** An unknown crop such as `kiwi` gets the error message naming it. */
  lemma KiwiUnsupported(symptoms: seq<string>)
    ensures Consult(MapaCultivos, "kiwi", symptoms) == Report(Some("Cultivo 'kiwi' no soportado a\U{fa}n."), [], [])
  {
    LowerKeeps("kiwi");
    SupportedKeys();
    assert Unsupported("kiwi") == "Cultivo 'kiwi' no soportado a\U{fa}n.";
  }

  /** A consultation for `uva`, in any capitalisation, runs the grape rules. */
  lemma UvaEntry(crop: string, symptoms: seq<string>)
    requires Lower(crop) == Uva.Crop
    ensures var ds := Ranked(Outcome(Uva.Rules, Case(Uva.Crop, SymptomSet(symptoms))));
      Consult(MapaCultivos, crop, symptoms) == Report(None, ds, RulesFired(ds))
  {
  }

  /** A single diagnosis is already ranked. */
  lemma RankedSingle(d: Diagnosis)
    ensures Ranked([d]) == [d]
  {
    assert [d][..0] == [];
  }

  /** A grape consultation with no symptoms reports only the fallback, of certainty zero. */
  lemma UvaNoSymptoms(crop: string)
    requires Lower(crop) == Uva.Crop
    ensures Consult(MapaCultivos, crop, []) == Report(None, [Uva.SinDiagnostico.asserts], ["sin_diagnostico"])
    ensures Uva.SinDiagnostico.asserts.certainty == 0
  {
    UvaEntry(crop, []);
    assert SymptomSet([]) == {};
    Uva.UnknownSymptomsOnly({});
    RankedSingle(Uva.SinDiagnostico.asserts);
  }

  /** Galls on the roots alone give only the partial phylloxera diagnosis, at 0.70. */
  lemma UvaNudosidades(crop: string)
    requires Lower(crop) == Uva.Crop
    ensures Consult(MapaCultivos, crop, ["nudosidades_raices"]).diagnoses == [Uva.FiloxeraParcial.asserts]
    ensures Uva.FiloxeraParcial.asserts.certainty == 70
  {
    UvaEntry(crop, ["nudosidades_raices"]);
    assert SymptomSet(["nudosidades_raices"]) == {"nudosidades_raices"};
    Uva.NudosidadesAlone();
    RankedSingle(Uva.FiloxeraParcial.asserts);
  }

  /** Curled leaves alone give only the partial hyaline-mite diagnosis, at 0.50. */
  lemma UvaHojasAbarquilladas(crop: string)
    requires Lower(crop) == Uva.Crop
    ensures Consult(MapaCultivos, crop, ["hojas_abarquilladas"]).diagnoses == [Uva.AcaroHialinoParcial.asserts]
    ensures Uva.AcaroHialinoParcial.asserts.certainty == 50
  {
    UvaEntry(crop, ["hojas_abarquilladas"]);
    assert SymptomSet(["hojas_abarquilladas"]) == {"hojas_abarquilladas"};
    Uva.HojasAbarquilladasAlone();
    RankedSingle(Uva.AcaroHialinoParcial.asserts);
  }

  /** A consultation for `piña`, in any capitalisation, runs the pineapple rules. */
  lemma PinaEntry(crop: string, symptoms: seq<string>)
    requires Lower(crop) == Pina.Crop
    ensures var ds := Ranked(Outcome(Pina.Rules, Case(Pina.Crop, SymptomSet(symptoms))));
      Consult(MapaCultivos, crop, symptoms) == Report(None, ds, RulesFired(ds))
  {
  }

  /** Wilting, red leaves and damaged roots on pineapple: the first diagnosis is white grub,
      with certainty 1.0, and it is the only one. */
  lemma PinaGallinaCiega(crop: string)
    requires Lower(crop) == Pina.Crop
    ensures var r := Consult(MapaCultivos, crop, ["marchitez", "enrojecimiento_foliar", "raices_dañadas"]);
      r.error == None && r.diagnoses == [Pina.GallinaCiegaCompleta.asserts] &&
      r.diagnoses[0].pest == "Gallina ciega (Phyllophaga sp.)" && r.diagnoses[0].certainty == 100
  {
    PinaEntry(crop, ["marchitez", "enrojecimiento_foliar", "raices_dañadas"]);
    assert SymptomSet(["marchitez", "enrojecimiento_foliar", "raices_dañadas"]) ==
      {"marchitez", "enrojecimiento_foliar", "raices_dañadas"};
    Pina.GallinaCiegaAll();
    RankedSingle(Pina.GallinaCiegaCompleta.asserts);
  }

  /** Cottony colonies with ants on pineapple: the first diagnosis is the indirect mealybug
      hint, with certainty 0.7, and it is the only one. */
  lemma PinaCochinillaConHormigas(crop: string)
    requires Lower(crop) == Pina.Crop
    ensures var r := Consult(MapaCultivos, crop, ["colonias_algodonosas", "hormigas"]);
      r.error == None && r.diagnoses == [Pina.CochinillaPorHormigas.asserts] &&
      r.diagnoses[0].pest == Pina.CochinillaPorHormigas.asserts.pest && r.diagnoses[0].certainty == 70
  {
    PinaEntry(crop, ["colonias_algodonosas", "hormigas"]);
    assert SymptomSet(["colonias_algodonosas", "hormigas"]) == {"colonias_algodonosas", "hormigas"};
    Pina.CochinillaConHormigas();
    RankedSingle(Pina.CochinillaPorHormigas.asserts);
  }

  // ---------------------------------------------------------------------------------------
  // The crops the interfaces ask for

  /** The crop names the avocado, coffee, cocoa and potato screens pass to `diagnosticar`. */
  predicate AskedByInterface(crop: string)
  {
    crop == Palta.Crop || crop == Cafe.Crop || crop == Cacao.Crop || crop == Papa.Crop
  }

  /** Those names are in lower case already, so they are looked up as they are. */
  lemma InterfaceNamesLower(crop: string)
    requires AskedByInterface(crop)
    ensures Lower(crop) == crop
  {
    LowerKeeps(crop);
  }

  /** With the table as written, every one of those consultations fails: whatever the
      symptoms, the result is the not-supported error with no diagnosis. */
  lemma InterfaceCropsRejected(crop: string, symptoms: seq<string>)
    requires AskedByInterface(crop)
    ensures Consult(MapaCultivos, crop, symptoms) == Report(Some(Unsupported(crop)), [], [])
  {
    InterfaceNamesLower(crop);
  }

  /** The corrected table serves all seven crops, each with its own rules. */
  lemma CorrectedTable()
    ensures MapaCorregido.Keys == {"pi\U{f1}a", "uva", "limon", "palta", "caf\U{e9}", "papa", "cacao"}
    ensures MapaCorregido[Palta.Crop] == Palta.Rules && MapaCorregido[Cafe.Crop] == Cafe.Rules
    ensures MapaCorregido[Papa.Crop] == Papa.Rules && MapaCorregido[Cacao.Crop] == Cacao.Rules
    ensures forall k :: k in MapaCultivos ==> k in MapaCorregido && MapaCorregido[k] == MapaCultivos[k]
  {
  }

  /** With the corrected table, the interface crops are supported. */
  lemma InterfaceCropsServed(crop: string, symptoms: seq<string>)
    requires AskedByInterface(crop)
    ensures Consult(MapaCorregido, crop, symptoms).error == None
  {
    InterfaceNamesLower(crop);
    CorrectedTable();
  }

  /** With the corrected table, the three coffee-berry-borer symptoms give the complete borer
      diagnosis, at certainty 1.0 and with the 5% threshold, and its rule is listed. */
  lemma CafeBrocaServed()
    ensures var r := Consult(MapaCorregido, Cafe.Crop, ["frutos_perforados", "granos_da\U{f1}ados", "cerezas_caidas"]);
      && r.error == None
      && Cafe.BrocaCompleta.asserts in r.diagnoses
      && "broca_completa" in r.firedRules
      && Cafe.BrocaCompleta.asserts.certainty == 100 && "5%" <= Cafe.BrocaCompleta.asserts.threshold.value
  {
    var syms := ["frutos_perforados", "granos_da\U{f1}ados", "cerezas_caidas"];
    var c := Case(Cafe.Crop, SymptomSet(syms));
    InterfaceNamesLower(Cafe.Crop);
    CorrectedTable();
    Cafe.BrocaFiring(c);
    FiredRecord(Cafe.Rules, c, 0, |Cafe.Rules|);
    RankedPermutes(Outcome(Cafe.Rules, c));
    Cafe.Certainties();
    var r := Consult(MapaCorregido, Cafe.Crop, syms);
    assert Cafe.BrocaCompleta.asserts in multiset(r.diagnoses);
    var i :| 0 <= i < |r.diagnoses| && r.diagnoses[i] == Cafe.BrocaCompleta.asserts;
    assert r.firedRules[i] == "broca_completa";
  }
}
