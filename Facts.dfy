/** The two kinds of fact the engine reasons over (knowledge/hechos.py): the one `Caso`
    asserted per consultation and the `Diagnostico` records that rules assert. */
module Facts {

  datatype Option<+T> = None | Some(value: T)

  /** `Caso(cultivo=..., sintomas=...)`: the crop key and the set of observed symptom tags. */
  datatype Case = Case(crop: string, symptoms: set<string>)

  /** A `Diagnostico` record. `certainty` is `certeza` in hundredths (certeza=0.65 is 65):
      every certainty in the rule files is an authored constant with two decimals and is only
      ever compared, never computed with. `threshold` is `umbral` (the papa rules give none)
      and `rule` is `regla_activada`. The image path and the free-text recommendation,
      description and reason fields are not modelled. */
  datatype Diagnosis = Diagnosis(pest: string, certainty: int, threshold: Option<string>, rule: string)

  /** What the working memory holds: the fact `reset()` puts there first, the case, and
      the diagnoses. Only a `Diagnostico` carries a `plaga` field. */
  datatype Fact = InitialFact | CaseFact(observed: Case) | DiagFact(diagnosis: Diagnosis)

  /** The working memory right after `reset()` and `declare(Caso(...))`. */
  function Seeded(c: Case): (wm: seq<Fact>)
    ensures |wm| == 2 && wm[1] == CaseFact(c)
  {
    [InitialFact, CaseFact(c)]
  }

  /** The facts that carry `plaga`, in working-memory order: the comprehension at
      engine/motor.py:31-34, which also drops the initial fact and the `Caso`. */
  function Diagnoses(wm: seq<Fact>): (ds: seq<Diagnosis>)
    ensures |ds| <= |wm|
    ensures forall d :: d in ds <==> DiagFact(d) in wm
  {
    if wm == [] then []
    else
      var last := wm[|wm| - 1];
      assert wm == wm[..|wm| - 1] + [last];
      Diagnoses(wm[..|wm| - 1]) + (if last.DiagFact? then [last.diagnosis] else [])
  }

  /** The `Caso` the rules pattern-match against: the first one in working memory. */
  function CaseOf(wm: seq<Fact>): (r: Option<Case>)
    ensures r.Some? ==> CaseFact(r.value) in wm
    ensures r.None? ==> forall f :: f in wm ==> !f.CaseFact?
  {
    if wm == [] then None
    else if wm[0].CaseFact? then Some(wm[0].observed)
    else CaseOf(wm[1..])
  }

  /** Appending diagnoses to a seeded memory keeps its case and adds exactly those diagnoses. */
  lemma SeededWithDiagnoses(c: Case, ds: seq<Diagnosis>)
    ensures CaseOf(Seeded(c) + Wrap(ds)) == Some(c)
    ensures Diagnoses(Seeded(c) + Wrap(ds)) == ds
  {
    var wm := Seeded(c) + Wrap(ds);
    assert wm[0] == InitialFact && wm[1..][0] == CaseFact(c);
    DiagnosesAfterSeed(c, ds);
  }

  /** The diagnoses read back from a seeded memory are the ones appended to it. */
  lemma {:induction false} DiagnosesAfterSeed(c: Case, ds: seq<Diagnosis>)
    ensures Diagnoses(Seeded(c) + Wrap(ds)) == ds
  {
    if ds == [] {
      assert Seeded(c) + Wrap(ds) == Seeded(c);
      SeedHasNoDiagnosis(c);
    } else {
      var init, last := ds[..|ds| - 1], ds[|ds| - 1];
      DiagnosesAfterSeed(c, init);
      assert ds == init + [last];
      WrapAppend(init, last);
      assert Seeded(c) + Wrap(ds) == (Seeded(c) + Wrap(init)) + [DiagFact(last)];
      DiagnosesSnoc(Seeded(c) + Wrap(init), DiagFact(last));
    }
  }

  /** The seeded memory holds no diagnosis. */
  lemma SeedHasNoDiagnosis(c: Case)
    ensures Diagnoses(Seeded(c)) == []
  {
    assert Seeded(c) == [InitialFact] + [CaseFact(c)];
    DiagnosesSnoc([InitialFact], CaseFact(c));
    DiagnosesSnoc([], InitialFact);
  }

  /** Reading diagnoses off one more fact. */
  lemma DiagnosesSnoc(wm: seq<Fact>, f: Fact)
    ensures Diagnoses(wm + [f]) == Diagnoses(wm) + (if f.DiagFact? then [f.diagnosis] else [])
  {
    assert (wm + [f])[..|wm|] == wm;
  }

  /** The diagnoses as `DiagFact`s, in order. */
  function Wrap(ds: seq<Diagnosis>): (fs: seq<Fact>)
    ensures |fs| == |ds| && forall i :: 0 <= i < |ds| ==> fs[i] == DiagFact(ds[i])
  {
    seq(|ds|, i requires 0 <= i < |ds| => DiagFact(ds[i]))
  }

  /** Wrapping one more diagnosis appends its fact. */
  lemma WrapAppend(ds: seq<Diagnosis>, d: Diagnosis)
    ensures Wrap(ds + [d]) == Wrap(ds) + [DiagFact(d)]
  {
  }
}
