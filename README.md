# Pest diagnosis expert system — a verified model

The system diagnoses crop pests and diseases from observed symptoms. The caller names a
crop and lists symptom tags. `SistemaExpertoPlagas.diagnosticar` (engine/motor.py)
lower-cases the crop name and looks it up in `MAPA_CULTIVOS` to find the crop's
knowledge-engine class. It resets a fresh engine, declares one `Caso` fact and runs the
rules. Each rule whose pattern and negation guards match declares a `Diagnostico` with a
pest name, a certainty, a threshold and the id of the rule (`regla_activada`). The
diagnoses are read back from working memory and sorted in place by certainty, highest
first. The rule ids are then read off the sorted list.

The model has eleven modules:

- `Facts`: the `Caso` and `Diagnostico` facts and working memory.
- `Inference`: rules as values, a symptom-test language covering every `TEST` lambda in the
  rule files, the `NOT(Diagnostico(...))` guards, and the inference pass. The pass is both a
  function (`Derive`) and a class `Engine` whose `Reset`, `Declare` and `Run` update its
  fact base in place.
- `Ranking`: the stable descending order, as a function (`Ranked`) and as an in-place sort
  on an array (`SortByCertainty`).
- `Uva`, `Palta`, `Limon`, `Papa`, `Cafe`, `Cacao`, `Pina`: the seven rule registries. Each
  rule is transcribed with its crop, test, guards, pest, certainty, threshold and id. The
  lemmas say exactly when each rule fires.
- `Motor`: the crop table and the consultation, as a function (`Consult`) and as the
  imperative procedure (`Diagnose`), which is proved to compute it.

Certainties are written in hundredths (certeza 0.65 is 65). Each one is an authored
constant that is only compared, never computed with.

## Model

| member | source | states |
|---|---|---|
| Facts.Diagnoses | engine/motor.py:31-34 | the diagnoses read off working memory are exactly the facts carrying a pest, in memory order; the initial fact and the case are dropped |
| Facts.CaseOf | engine/motor.py:28 | the case the rules match against is a `Caso` fact of memory; none when memory holds no case |
| Facts.SeededWithDiagnoses | engine/motor.py:27-34 | after `reset()`, `declare(Caso(...))` and any run of assertions, the case seen is the declared one and the diagnoses read back are exactly those asserted, in order |
| Inference.Engine.constructor | engine/motor.py:26 | a fresh engine holds the rules of its class and an empty fact base |
| Inference.Engine.Reset | engine/motor.py:27 | `reset()` leaves only the initial fact |
| Inference.Engine.Declare | engine/motor.py:28 | `declare(f)` appends exactly `f` |
| Inference.Engine.Run | engine/motor.py:29 | `run()` visits each rule once in declaration order and appends its record exactly when the rule matches memory at that point |
| Inference.PassOnSeeded | engine/motor.py:26-29 | on the seeded memory the run appends exactly the records `Derive` lists, after the initial fact and the case |
| Inference.DeriveGrows | engine/motor.py:29 | memory only grows during the run: earlier contents are a prefix of later ones |
| Inference.InDerive | engine/motor.py:29 | a record is in memory after k rules exactly when one of those rules fired and asserts it |
| Inference.FiredRecord | engine/motor.py:29 | a rule that fired has left its record in memory for the rest of the run |
| Inference.BothFired | engine/motor.py:29 | two fired rules with different records leave both records, so at least two diagnoses |
| Inference.FiresWithoutGuards | knowledge/reglas_uva.py:425-442 | a rule without `NOT(...)` fires exactly when the crop matches and its `TEST` holds |
| Inference.FallbackFires | knowledge/reglas_uva.py:965-981 | a `NOT(Diagnostico())` rule fires exactly when its pattern matches and no earlier rule fired |
| Inference.FallbackApplies | knowledge/reglas_uva.py:965-981 | the same by content: the fallback fires exactly when its own pattern applies and no earlier pattern does |
| Inference.NothingFired | engine/motor.py:29 | memory is still empty after k rules exactly when none of them fired |
| Inference.PestPresent | knowledge/reglas_uva.py:425-463 | a diagnosis of pest p is present after k rules exactly when an earlier rule asserting p fired |
| Inference.NeverAsserted | engine/motor.py:26-29 | a guard naming a pest no earlier rule asserts never blocks (the second guard of knowledge/reglas_piña.py:71-88) |
| Inference.Suppression | knowledge/reglas_uva.py:425-463 | a rule guarded by `NOT(Diagnostico(plaga=P))` fires exactly when its pattern matches and the rule asserting P did not fire |
| Inference.QuietIff | engine/motor.py:29 | memory stays empty after k rules exactly when none of their patterns applies |
| Inference.NoneApply | engine/motor.py:29 | when no test of the first k rules holds, they leave memory empty |
| Inference.GuardFree | knowledge/reglas_limon.py:9-424 | without negation guards the run asserts exactly the records of the rules whose pattern applies, in declaration order |
| Inference.ApplicableReordered | knowledge/reglas_limon.py:9-424 | which records apply does not depend on the order of the rules |
| Inference.OrderIndependent | knowledge/reglas_limon.py:9-424 | a guard-free registry asserts the same records, as a multiset, under any rule order |
| Inference.Recorded | engine/motor.py:29 | a rule with a record of its own has that record in the outcome exactly when it fired |
| Inference.Unguarded | engine/motor.py:29 | an unguarded rule with its own record has it in the outcome exactly when its pattern applies |
| Inference.PairFires | knowledge/reglas_uva.py:425-463 | for a complete rule and its guarded partial rule, the complete record appears exactly when its pattern applies, the partial one exactly when its pattern applies and the complete one does not |
| Inference.Solo | engine/motor.py:29 | when only rule i applies before the rest fall silent or are blocked, its record is the whole outcome |
| Inference.SoloBeforeFallback | knowledge/reglas_uva.py:965-981 | in a registry ending in a fallback, a lone applicable rule is the whole outcome: the fallback is blocked |
| Inference.OnlyFallback | knowledge/reglas_uva.py:965-981 | when no test before the fallback holds, the fallback record is the whole outcome |
| Inference.SoloAfter | engine/motor.py:29 | after an empty memory, an applicable rule followed only by silent or blocked rules leaves exactly its record |
| Inference.OnlyMentionedMatter | knowledge/reglas_uva.py:425-442 | a test depends only on the tags it mentions (or on the size of the set, for a size test) |
| Inference.UnknownLooksEmpty | knowledge/reglas_uva.py:425-442 | to a size-free test, a symptom set made of tags no rule mentions looks empty |
| Inference.QuietOnUnknown | knowledge/reglas_uva.py:425-442 | rules silent on the empty set stay silent on any set of unknown tags |
| Inference.CountReached | knowledge/reglas_paltas.py:41-60 | `len(T & s) >= n` holds once n tags of T are present |
| Inference.TooFewSymptoms | knowledge/reglas_paltas.py:41-60 | `len(T & s) >= n` fails on fewer than n symptoms |
| Inference.HasAndOneOfTwo | knowledge/reglas_cafe.py:131-150 | `a in s and len({b, x} & s) >= 1` holds exactly when a and one of b, x are present |
| Ranking.Ranked | engine/motor.py:35 | the order is defined by stable insertion on certainty, highest first |
| Ranking.RankedPermutes | engine/motor.py:35 | sorting keeps every diagnosis: the result is a permutation |
| Ranking.RankedDescending | engine/motor.py:35 | sorted highest certainty first (`reverse=True`) |
| Ranking.RankedStable | engine/motor.py:35 | diagnoses of equal certainty keep their order, as `list.sort` is stable also in reverse |
| Ranking.RankedOfDescending | engine/motor.py:35 | an already descending list is left unchanged |
| Ranking.SortByCertainty | engine/motor.py:35 | the in-place sort of the list leaves exactly the ranking of its old contents |
| Ranking.Sink | engine/motor.py:35 | one insertion step places the element after every element of at least its certainty and leaves the rest untouched |
| Ranking.InsertAfterPermutes | engine/motor.py:35 | an insertion step adds exactly the inserted diagnosis |
| Ranking.InsertAfterDescending | engine/motor.py:35 | an insertion step keeps a descending list descending |
| Ranking.InsertAfterWithCertainty | engine/motor.py:35 | an insertion step places the newcomer after every element of its own certainty |
| Uva.FiloxeraFiring | knowledge/reglas_uva.py:425-463 | `filoxera_completa` fires exactly when the crop matches and all of its tags are present; `filoxera_parcial` fires exactly when its own test holds and `filoxera_completa` did not fire (its `NOT(Diagnostico(plaga=...))` guard), as a plain condition on the tags |
| Uva.AranitaRojaFiring | knowledge/reglas_uva.py:464-502 | `aranita_roja_completa` fires exactly when the crop matches and all of its tags are present; `aranita_roja_parcial` fires exactly when its own test holds and `aranita_roja_completa` did not fire (its `NOT(Diagnostico(plaga=...))` guard), as a plain condition on the tags |
| Uva.AcaroHialinoFiring | knowledge/reglas_uva.py:503-540 | `acaro_hialino_completa` fires exactly when the crop matches and all of its tags are present; `acaro_hialino_parcial` fires exactly when its own test holds and `acaro_hialino_completa` did not fire (its `NOT(Diagnostico(plaga=...))` guard), as a plain condition on the tags |
| Uva.AvesFiring | knowledge/reglas_uva.py:541-579 | `aves_completa` fires exactly when the crop matches and all of its tags are present; `picaduras_generales` fires exactly when its own test holds and `aves_completa` did not fire (its `NOT(Diagnostico(plaga=...))` guard), as a plain condition on the tags |
| Uva.AvispasAbejasFiring | knowledge/reglas_uva.py:580-618 | `avispas_abejas_completa` fires exactly when the crop matches and all of its tags are present; `bayas_vacias_parcial` fires exactly when its own test holds and `avispas_abejas_completa` did not fire (its `NOT(Diagnostico(plaga=...))` guard), as a plain condition on the tags |
| Uva.RatasRatonFiring | knowledge/reglas_uva.py:619-656 | `ratas_raton_completa` fires exactly when the crop matches and all of its tags are present; `ratas_raton_parcial` fires exactly when its own test holds and `ratas_raton_completa` did not fire (its `NOT(Diagnostico(plaga=...))` guard), as a plain condition on the tags |
| Uva.GusanoCornudoFiring | knowledge/reglas_uva.py:657-694 | `gusano_cornudo_completa` fires exactly when the crop matches and all of its tags are present; `hojas_consumidas_parcial` fires exactly when its own test holds and `gusano_cornudo_completa` did not fire (its `NOT(Diagnostico(plaga=...))` guard), as a plain condition on the tags |
| Uva.NematodosFiring | knowledge/reglas_uva.py:695-733 | `nematodos_completa` fires exactly when the crop matches and all of its tags are present; `nematodos_parcial` fires exactly when its own test holds and `nematodos_completa` did not fire (its `NOT(Diagnostico(plaga=...))` guard), as a plain condition on the tags |
| Uva.OidioFiring | knowledge/reglas_uva.py:734-772 | `oidium_completa` fires exactly when the crop matches and all of its tags are present; `oidium_parcial` fires exactly when its own test holds and `oidium_completa` did not fire (its `NOT(Diagnostico(plaga=...))` guard), as a plain condition on the tags |
| Uva.PodredumbreGrisFiring | knowledge/reglas_uva.py:773-809 | `podredumbre_gris_completa` fires exactly when the crop matches and all of its tags are present; `podredumbre_gris_parcial` fires exactly when its own test holds and `podredumbre_gris_completa` did not fire (its `NOT(Diagnostico(plaga=...))` guard), as a plain condition on the tags |
| Uva.AgallaCoronaFiring | knowledge/reglas_uva.py:831-869 | `agalla_corona_completa` fires exactly when the crop matches and all of its tags are present; `agalla_corona_parcial` fires exactly when its own test holds and `agalla_corona_completa` did not fire (its `NOT(Diagnostico(plaga=...))` guard), as a plain condition on the tags |
| Uva.RacimosPodridosFiring | knowledge/reglas_uva.py:773-830 | `racimos_podridos_general` fires exactly when its test holds and `podredumbre_gris_completa` did not fire |
| Uva.GeneralFiring | knowledge/reglas_uva.py:870-964 | the five general rules (`deficiencia_nutricional`, `estrés_hidrico`, `problema_raices`, `estrés_ambiental`, `manejo_cultivo`) fire exactly when both of their tags are present |
| Uva.SinDiagnosticoFiring | knowledge/reglas_uva.py:965-981 | `sin_diagnostico` fires exactly when no earlier rule fired, which is exactly when no earlier test holds; it reports certainty 0 |
| Uva.CompleteOutranksPartial | knowledge/reglas_uva.py:425-981 | every complete diagnosis is certain (1.0) and the weaker diagnosis of its pest ranks below it, between 0.5 and 0.8 |
| Uva.ExclusiveByContent | knowledge/reglas_uva.py:425-981 | apart from filoxera, the complete and weaker tests of a pest never hold together |
| Uva.FiloxeraNeedsGuard | knowledge/reglas_uva.py:425-463 | the filoxera partial test holds whenever the complete one does, so only the guard keeps `filoxera_parcial` out when `filoxera_completa` fired |
| Uva.NudosidadesAlone | knowledge/reglas_uva.py:425-981 | `nudosidades_raices` alone yields only the 0.7 filoxera suspicion |
| Uva.HojasAbarquilladasAlone | knowledge/reglas_uva.py:425-981 | `hojas_abarquilladas` alone yields only the 0.5 hyaline mite suspicion |
| Uva.PicadurasAlone | knowledge/reglas_uva.py:425-981 | `picaduras_racimos` alone yields only the bird suspicion, at most 0.6 |
| Uva.BayasVaciasAlone | knowledge/reglas_uva.py:425-981 | `bayas_vacias` alone yields only the 0.6 wasp and bee suspicion |
| Uva.UnknownSymptomsOnly | knowledge/reglas_uva.py:425-981 | no symptoms, or only tags no grape rule mentions, yield only the fallback |
| Palta.TripsFiring | knowledge/reglas_paltas.py:23-60 | `trips_completo` fires exactly when the crop matches and all of its tags are present; `trips_parcial` fires exactly when its own test holds and `trips_completo` did not fire (its `NOT(Diagnostico(plaga=...))` guard), as a plain condition on the tags |
| Palta.AranitaRojaFiring | knowledge/reglas_paltas.py:62-101 | `aranita_roja_completa` fires exactly when the crop matches and all of its tags are present; `aranita_roja_parcial` fires exactly when its own test holds and `aranita_roja_completa` did not fire (its `NOT(Diagnostico(plaga=...))` guard), as a plain condition on the tags |
| Palta.MoscaBlancaFiring | knowledge/reglas_paltas.py:103-141 | `mosca_blanca_completa` fires exactly when the crop matches and all of its tags are present; `mosca_blanca_parcial` fires exactly when its own test holds and `mosca_blanca_completa` did not fire (its `NOT(Diagnostico(plaga=...))` guard), as a plain condition on the tags |
| Palta.QueresasFioriniaFiring | knowledge/reglas_paltas.py:143-183 | `queresas_fiorinia_completa` fires exactly when the crop matches and all of its tags are present; `queresas_fiorinia_parcial` fires exactly when its own test holds and `queresas_fiorinia_completa` did not fire (its `NOT(Diagnostico(plaga=...))` guard), as a plain condition on the tags |
| Palta.QueresasHemiberlesiaFiring | knowledge/reglas_paltas.py:185-226 | `queresas_hemiberlesia_completa` fires exactly when the crop matches and all of its tags are present; `queresas_hemiberlesia_parcial` fires exactly when its own test holds and `queresas_hemiberlesia_completa` did not fire (its `NOT(Diagnostico(plaga=...))` guard), as a plain condition on the tags |
| Palta.MoscaBlancaEspiralFiring | knowledge/reglas_paltas.py:228-267 | `mosca_blanca_espiral_completa` fires exactly when the crop matches and all of its tags are present; `mosca_blanca_espiral_parcial` fires exactly when its own test holds and `mosca_blanca_espiral_completa` did not fire (its `NOT(Diagnostico(plaga=...))` guard), as a plain condition on the tags |
| Palta.BichoCestoFiring | knowledge/reglas_paltas.py:269-312 | `bicho_cesto_completo` fires exactly when the crop matches and all of its tags are present; `bicho_cesto_parcial` fires exactly when its own test holds and `bicho_cesto_completo` did not fire (its `NOT(Diagnostico(plaga=...))` guard), as a plain condition on the tags |
| Palta.TristezaFiring | knowledge/reglas_paltas.py:314-355 | `tristeza_completa` fires exactly when the crop matches and all of its tags are present; `tristeza_parcial` fires exactly when its own test holds and `tristeza_completa` did not fire (its `NOT(Diagnostico(plaga=...))` guard), as a plain condition on the tags |
| Palta.BrazoNegroFiring | knowledge/reglas_paltas.py:357-398 | `brazo_negro_completo` fires exactly when the crop matches and all of its tags are present; `brazo_negro_parcial` fires exactly when its own test holds and `brazo_negro_completo` did not fire (its `NOT(Diagnostico(plaga=...))` guard), as a plain condition on the tags |
| Palta.SunblotchFiring | knowledge/reglas_paltas.py:400-443 | `sunblotch_completo` fires exactly when the crop matches and all of its tags are present; `sunblotch_parcial` fires exactly when its own test holds and `sunblotch_completo` did not fire (its `NOT(Diagnostico(plaga=...))` guard), as a plain condition on the tags |
| Palta.SinDiagnosticoFiring | knowledge/reglas_paltas.py:445-464 | `sin_diagnostico` fires exactly when no earlier rule fired, which is exactly when no earlier test holds; it reports certainty 0 |
| Palta.PartialNames | knowledge/reglas_paltas.py:23-226 | each of the first five partial rules names its pest as the complete pest followed by " — sospecha" |
| Palta.MorePartialNames | knowledge/reglas_paltas.py:228-443 | the same for the other five pests |
| Palta.PartialRanksBelow | knowledge/reglas_paltas.py:23-443 | each complete rule is certain; its partial rule keeps the same threshold and ranks between 0.65 and 0.75 |
| Palta.CompleteImpliesPartial | knowledge/reglas_paltas.py:23-226 | for the first five pests the complete test implies the partial test, so only the guard keeps the suspicion out |
| Palta.MoreCompleteImpliesPartial | knowledge/reglas_paltas.py:228-355 | the same for three more pests |
| Palta.LastCompleteImpliesPartial | knowledge/reglas_paltas.py:357-443 | the same for the last two pests |
| Palta.CertaintiesInRange | knowledge/reglas_paltas.py:23-464 | every avocado certainty lies between 0 and 1 |
| Palta.RaspadoAlone | knowledge/reglas_paltas.py:23-464 | `raspado_frutos` alone reaches no trips rule (each needs two tags) and yields only the 0.0 fallback |
| Palta.TripsAndAranita | knowledge/reglas_paltas.py:23-101 | two trips tags and two red mite tags, without the completing tags, give both suspicions (0.7 and 0.65), so at least two diagnoses |
| Limon.OutcomeIsApplicable | knowledge/reglas_limon.py:9-424 | with no negation guard anywhere, the outcome is exactly the records of the rules whose test holds, in declaration order |
| Limon.AnyOrder | knowledge/reglas_limon.py:9-424 | reordering the lemon rules changes at most the order of the outcome, not its contents |
| Limon.SubsetRules | knowledge/reglas_limon.py:9-407 | each of the first nineteen rules fires exactly when all of its tags are present |
| Limon.MoscaMediterraneaFiring | knowledge/reglas_limon.py:387-407 | `mosca_mediterranea_parcial`, despite its name, has no guard: it fires exactly when both fruit tags are present, at 0.7 |
| Limon.SintomasGeneralesFiring | knowledge/reglas_limon.py:408-424 | `sintomas_generales` fires exactly when the symptoms are `debilitamiento_planta` and `hojas_amarillentas` and nothing else, at 0.5 |
| Limon.PulgonNegroImpliesVerde | knowledge/reglas_limon.py:30-344 | whenever the black aphid rule fires (1.0) the green aphid rule fires too (0.9) |
| Limon.PiojoIffCerosa | knowledge/reglas_limon.py:135-302 | the white louse and waxy scale rules test the same tags, so they fire together (1.0 and 0.9) |
| Limon.CertaintiesInRange | knowledge/reglas_limon.py:9-424 | every lemon certainty lies between 0.5 and 1 |
| Limon.EmptyWhenNothingApplies | knowledge/reglas_limon.py:9-424 | with no fallback, the outcome is empty exactly when no rule applies |
| Limon.NoSymptomsNoDiagnosis | knowledge/reglas_limon.py:9-424 | no symptoms give no diagnosis at all |
| Papa.TwoTagChecks | knowledge/reglas_papa.py:12-289 | each potato rule checks two different tags in its body |
| Papa.BothTagsFire | knowledge/reglas_papa.py:12-289 | each potato rule declares its diagnosis exactly when both of its tags are present |
| Papa.OutcomeIsApplicable | knowledge/reglas_papa.py:12-289 | the outcome is exactly the records of the rules whose checks pass, in declaration order |
| Papa.AnyOrder | knowledge/reglas_papa.py:12-289 | reordering the potato rules changes at most the order of the outcome |
| Papa.TwoCertainties | knowledge/reglas_papa.py:12-289 | every potato certainty is 0.9 or 0.6 |
| Papa.AtMostOneSymptom | knowledge/reglas_papa.py:12-289 | no symptom or a single one never gives a diagnosis, and there is no fallback |
| Papa.PulgonDiagnosis | knowledge/reglas_papa.py:12-25 | rolled and yellowing leaves give the aphid diagnosis at 0.9 with rule `plaga_pulgon` |
| Papa.ThreePests | knowledge/reglas_papa.py:12-289 | the aphid, Andean weevil and late blight symptoms together give all three diagnoses |
| Cafe.BrocaFiring | knowledge/reglas_cafe.py:27-67 | `broca_completa` fires exactly when the crop matches and all of its tags are present; `broca_parcial` fires exactly when its own test holds and `broca_completa` did not fire (its `NOT(Diagnostico(plaga=...))` guard), as a plain condition on the tags |
| Cafe.RoyaFiring | knowledge/reglas_cafe.py:69-109 | `roya_completa` fires exactly when the crop matches and all of its tags are present; `roya_inicial` fires exactly when its own test holds and `roya_completa` did not fire (its `NOT(Diagnostico(plaga=...))` guard), as a plain condition on the tags |
| Cafe.AranitaRojaFiring | knowledge/reglas_cafe.py:174-214 | `arañita_roja_completa` fires exactly when the crop matches and all of its tags are present; `arañita_roja_inicial` fires exactly when its own test holds and `arañita_roja_completa` did not fire (its `NOT(Diagnostico(plaga=...))` guard), as a plain condition on the tags |
| Cafe.UnpairedFiring | knowledge/reglas_cafe.py:111-236 | the unguarded rules `cochinilla_raices_completa`, `cochinilla_por_hormigas`, `minador_completo`, `mancha_hierro` fire exactly when their tests hold |
| Cafe.SinDiagnosticoFiring | knowledge/reglas_cafe.py:238-256 | `sin_diagnostico` fires exactly when no earlier rule fired, which is exactly when no earlier test holds; it reports certainty 0 |
| Cafe.Certainties | knowledge/reglas_cafe.py:27-214 | the complete borer diagnosis is certain with a threshold starting "5%"; the suspicion keeps it at 0.7; the initial rust and red mite diagnoses rank at 0.8 below their complete ones |
| Cafe.CertaintiesInRange | knowledge/reglas_cafe.py:27-256 | every coffee certainty lies between 0 and 1 |
| Cafe.CompleteImpliesWeaker | knowledge/reglas_cafe.py:27-214 | each complete test implies its weaker test, so only the guard keeps the weaker diagnosis out |
| Cafe.LoneSymptom | knowledge/reglas_cafe.py:27-256 | ants at the stem, the dry season or defoliation alone yield only the fallback |
| Cacao.MoniliasisFiring | knowledge/reglas_cacao.py:27-67 | `moniliasis_completa` fires exactly when the crop matches and all of its tags are present; `moniliasis_parcial` fires exactly when its own test holds and `moniliasis_completa` did not fire (its `NOT(Diagnostico(plaga=...))` guard), as a plain condition on the tags |
| Cacao.EscobaBrujaFiring | knowledge/reglas_cacao.py:92-134 | `escoba_bruja_completa` fires exactly when the crop matches and all of its tags are present; `escoba_bruja_parcial` fires exactly when its own test holds and `escoba_bruja_completa` did not fire (its `NOT(Diagnostico(plaga=...))` guard), as a plain condition on the tags |
| Cacao.MazorqueroFiring | knowledge/reglas_cacao.py:136-178 | `mazorquero_completo` fires exactly when the crop matches and all of its tags are present; `mazorquero_parcial` fires exactly when its own test holds and `mazorquero_completo` did not fire (its `NOT(Diagnostico(plaga=...))` guard), as a plain condition on the tags |
| Cacao.PhytophthoraFiring | knowledge/reglas_cacao.py:180-222 | `phytophthora_completa` fires exactly when the crop matches and all of its tags are present; `phytophthora_inicial` fires exactly when its own test holds and `phytophthora_completa` did not fire (its `NOT(Diagnostico(plaga=...))` guard), as a plain condition on the tags |
| Cacao.RiskFiring | knowledge/reglas_cacao.py:27-90 | `moniliasis_condiciones_riesgo` fires exactly when humidity and temperature are reported and fewer than two frosty pod tags are present, at 0.6 |
| Cacao.RiskOrFallback | knowledge/reglas_cacao.py:69-244 | the risk rule and the fallback never both fire |
| Cacao.SinDiagnosticoFiring | knowledge/reglas_cacao.py:224-244 | `sin_diagnostico` fires exactly when no earlier rule fired, which is exactly when no earlier test holds; it reports certainty 0 |
| Cacao.Certainties | knowledge/reglas_cacao.py:27-222 | complete diagnoses are 1.0 (0.95 for black pod) and each weaker one ranks below its complete one |
| Cacao.CertaintiesInRange | knowledge/reglas_cacao.py:27-244 | every cocoa certainty lies between 0 and 1 |
| Cacao.CompleteImpliesWeaker | knowledge/reglas_cacao.py:27-222 | each complete test implies its weaker test, so only the guard keeps the weaker diagnosis out |
| Pina.GallinaCiegaFiring | engine/motor.py:4-9 | (rules at knowledge/reglas_piña.py:18-51) `gallina_ciega_completa` fires exactly when the crop matches and all of its tags are present; `gallina_ciega_parcial` fires exactly when its own test holds and `gallina_ciega_completa` did not fire (its `NOT(Diagnostico(plaga=...))` guard), as a plain condition on the tags |
| Pina.CochinillaFiring | engine/motor.py:4-9 | (rules at knowledge/reglas_piña.py:53-88) `cochinilla_harinosa_completa` fires exactly when its three tags are present; `cochinilla_por_hormigas` fires exactly when mealy colonies and ants are present and not both stunting and leaf curling, since its second guard never blocks |
| Pina.SecondGuardIdle | engine/motor.py:4-9 | (rules at knowledge/reglas_piña.py:18-106) no pineapple rule asserts the pest named by the ant hint's second guard |
| Pina.SinDiagnosticoFiring | engine/motor.py:4-9 | (rules at knowledge/reglas_piña.py:90-106) `sin_diagnostico` fires exactly when no earlier rule fired, which is exactly when no earlier test holds; it reports certainty 0 |
| Pina.GallinaCiegaVariants | engine/motor.py:4-9 | (rules at knowledge/reglas_piña.py:18-88) the complete white grub test implies the suspicion's; complete diagnoses are certain, the suspicion 0.6 and the ant hint 0.7 |
| Pina.GallinaCiegaAll | tests/test_inferencia.py:3-7 | with `marchitez`, `enrojecimiento_foliar` and `raices_dañadas` on `piña`, the whole pass yields the complete white grub record alone (rules at knowledge/reglas_piña.py:18-106) |
| Pina.CochinillaConHormigas | tests/test_inferencia.py:9-13 | with `colonias_algodonosas` and `hormigas` on `piña`, the whole pass yields the indirect mealybug hint alone (rules at knowledge/reglas_piña.py:18-106) |
| Motor.LowerChar | engine/motor.py:17 | lower-casing maps each capital to its small letter (+0x20) and keeps every other character |
| Motor.Lower | engine/motor.py:17 | the lower-cased name has the same length and no capital, character by character as above |
| Motor.LowerIdempotent | engine/motor.py:17 | lower-casing twice is lower-casing once |
| Motor.LowerKeeps | engine/motor.py:17 | a name without capitals is its own lower-case form |
| Motor.SymptomSet | engine/motor.py:28 | `set(sintomas)`: a tag is in the set exactly when it is in the list |
| Motor.RulesFired | engine/motor.py:39 | the i-th fired rule is the i-th diagnosis's `regla_activada` |
| Motor.Diagnose | engine/motor.py:16-40 | the procedure (lower-case, look up, run a fresh engine, collect, sort in place, list rules) returns exactly `Consult` |
| Motor.Infer | engine/motor.py:26-34 | a fresh engine, reset, given the case and run, yields exactly the pass outcome |
| Motor.SortedCopy | engine/motor.py:31-35 | copying the diagnoses into a list and sorting it in place gives their ranking |
| Motor.UnsupportedCrop | engine/motor.py:17-23 | an error is reported exactly when the lower-cased crop is not in the table; the message quotes the crop as typed and there are no diagnoses or rules |
| Motor.CaseInsensitive | engine/motor.py:17-18 | two crop names that lower-case alike get the same diagnoses and rules |
| Motor.SymptomsAsSet | engine/motor.py:28 | repeating or reordering symptoms changes nothing |
| Motor.ReportOrder | engine/motor.py:31-39 | the report holds exactly the asserted diagnoses, highest certainty first, stable among equal certainties, each listed with its rule |
| Motor.SupportedKeys | engine/motor.py:8-13 | the table as written supports exactly `piña`, `uva` and `limon` |
| Motor.KiwiUnsupported | tests/test_borde_uva.py:45-49 | an unknown crop such as `kiwi` gets the not-supported message naming it |
| Motor.UvaNoSymptoms | tests/test_borde_uva.py:17-22 | a grape consultation with no symptoms reports only the fallback, of certainty 0 |
| Motor.UvaNudosidades | tests/test_inferencia_uva.py:26-31 | root galls alone give exactly the partial filoxera diagnosis, at 0.7 |
| Motor.UvaHojasAbarquilladas | knowledge/reglas_uva.py:503-540 | curled leaves alone give exactly the partial hyaline mite diagnosis, at 0.5 |
| Motor.PinaGallinaCiega | tests/test_inferencia.py:3-7 | `diagnosticar("piña", ["marchitez", "enrojecimiento_foliar", "raices_dañadas"])` reports no error and a single diagnosis, "Gallina ciega (Phyllophaga sp.)" with certainty 1.0 |
| Motor.PinaCochinillaConHormigas | tests/test_inferencia.py:9-13 | `diagnosticar("piña", ["colonias_algodonosas", "hormigas"])` reports no error and a single diagnosis, the indirect mealybug hint with certainty 0.7 |
| Motor.InterfaceNamesLower | ui/cafe_interfaz.py:62 | the crop names the avocado, coffee, cocoa and potato screens pass are already lower case |
| Motor.InterfaceCropsRejected | engine/motor.py:8-13 | with the table as written, every consultation for palta, café, cacao or papa returns the not-supported error with no diagnosis |
| Motor.CorrectedTable | engine/motor.py:8-13 | the corrected table serves all seven crops, each with its own rules, and agrees with the original on the original three |
| Motor.InterfaceCropsServed | engine/motor.py:8-13 | with the corrected table, the interface crops get no error |
| Motor.CafeBrocaServed | knowledge/reglas_cafe.py:27-45 | with the corrected table, the three borer symptoms on café give the complete borer diagnosis (1.0, threshold "5%...") and list `broca_completa` |

## Left out

- Image paths, recommendations, descriptions and explanation texts carried by each
  `Diagnostico` are not modelled; only pest, certainty, threshold and rule id are.
- The experta agenda is modelled as one pass over the rules in declaration order; each
  negation guard sees the diagnoses asserted by earlier rules. Salience, conflict-resolution
  strategies and re-activation after a retraction are not modelled; no rule file uses them.
- experta refuses to declare a fact equal to one already present. Every rule here declares
  a record with its own rule id, so no two records coincide, and the model does not
  deduplicate.
- The first `ReglasUva` class in knowledge/reglas_uva.py (lines 4-406) is not modelled.
  The second definition at line 423 rebinds the name, and it is the one `MAPA_CULTIVOS`
  refers to.
- The `collections` compatibility assignments (knowledge/hechos.py:3-11 and
  knowledge/reglas_uva.py:407-418) are not modelled.
- The Streamlit screens under ui/ are not modelled. Only the crop names they pass to
  `diagnosticar` are used, in the finding below.
- Motor.PinaCochinillaConHormigas: the test at tests/test_inferencia.py:12 checks that the pest
  name contains "Cochinilla harinosa". The lemma states that the diagnosis is the ant hint's whole
  record instead; the containment is not proved, because the verifier does not look inside
  string literals that long.
- The pineapple rule file's name is not ASCII. Rows about those rules cite the place where
  engine/motor.py imports and registers them, and give the rule lines in their third column.
- Motor.Lower: only ASCII capitals and the Latin-1 capitals U+00C0–U+00DE (except U+00D7)
  are lowered. Full Unicode `str.lower()` is not modelled; every crop name in the
  repository is covered.
- The potato rules match every potato case and check their two tags with an `if` in the
  rule body. They are modelled as a test of both tags, which declares the same facts.
- The potato rules carry no threshold; their `threshold` is `None`.
- The lemon and potato registries have no fallback rule, unlike the other five registries.
  The model follows the code:
  `Limon.NoSymptomsNoDiagnosis` and `Papa.AtMostOneSymptom` prove the empty outcome.
- The fired rule ids are not in registration order. The code reads them off the sorted
  list (engine/motor.py:39), and `Motor.ReportOrder` states that.
- tests/test_inferencia_uva.py:40-45 expects `tejido_araña` alone to give a 0.6 red-mite
  diagnosis. The partial rule's test (knowledge/reglas_uva.py:483-502) also requires
  `hojas_gris_plomizo`. The model follows the code: `Uva.AranitaRojaFiring` shows that
  rule does not fire on `tejido_araña` alone.
- End-to-end consultations for avocado, coffee, potato and cocoa through the table as
  written only ever give the error (see the finding). Their registries are proved on their
  own, and `Motor.CafeBrocaServed` shows one through the corrected table.

## Findings

| source | as written | input that shows it | evidently intended | confidence | as-written member | corrected member |
|---|---|---|---|---|---|---|
| engine/motor.py:8-13 | `MAPA_CULTIVOS` lists only `piña`, `uva` and `limon`, although rule classes for avocado, coffee, potato and cocoa exist and their screens call `diagnosticar` | `diagnosticar("café", ["frutos_perforados", "granos_dañados", "cerezas_caidas"])`, as sent by ui/cafe_interfaz.py:62, returns "Cultivo 'café' no soportado aún." | every crop with a rule class and a screen is served by its own rules | medium, not executed | Motor.InterfaceCropsRejected | Motor.InterfaceCropsServed |
