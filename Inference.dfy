/** Rules and the single inference pass. Each rule file declares its rules as
    `@Rule(Caso(cultivo=C, sintomas=MATCH.s), TEST(lambda s: ...), NOT(Diagnostico(...)))`
    methods whose body asserts one `Diagnostico`; here a rule is a value holding the crop
    pattern, the symptom test, the negation guards and the record it asserts. The pass visits
    the rules once each in declaration order, and every negation guard sees the diagnoses
    asserted by the rules before it. */
module Inference {
  import opened Facts

  /** The set tests the rule files use over the symptom set `s`. */
  datatype Test =
    | Always                             // no TEST: the rule matches on the crop alone
    | Has(tag: string)                   // "tag" in s
    | Lacks(tag: string)                 // not "tag" in s
    | AllOf(tags: set<string>)           // {...}.issubset(s)
    | AnyOf(tags: set<string>)           // "a" in s or "b" in s or ...
    | AtLeast(n: nat, tags: set<string>) // len({...} & s) >= n
    | SizeAtMost(n: nat)                 // len(s) <= n
    | Not(t: Test)
    | And(l: Test, r: Test)

  predicate Holds(t: Test, s: set<string>)
  {
    match t
    case Always => true
    case Has(tag) => tag in s
    case Lacks(tag) => tag !in s
    case AllOf(tags) => tags <= s
    case AnyOf(tags) => exists tag :: tag in tags && tag in s
    case AtLeast(n, tags) => |tags * s| >= n
    case SizeAtMost(n) => |s| <= n
    case Not(u) => !Holds(u, s)
    case And(l, r) => Holds(l, s) && Holds(r, s)
  }

  /** A negation guard: `NOT(Diagnostico())` or `NOT(Diagnostico(plaga=p))`. */
  datatype Absence = AnyDiagnosis | DiagnosisOf(pest: string)

  /** Whether working memory holds a diagnosis the guard forbids. */
  predicate Present(a: Absence, ds: seq<Diagnosis>)
  {
    match a
    case AnyDiagnosis => ds != []
    case DiagnosisOf(p) => exists d :: d in ds && d.pest == p
  }

  predicate Unblocked(unless: seq<Absence>, ds: seq<Diagnosis>)
  {
    forall a :: a in unless ==> !Present(a, ds)
  }

  /** One rule: the crop its `Caso` pattern names, its symptom test, its negation guards and
      the record its action asserts. In every rule file the record's `regla_activada` is the
      rule method's own name, so `asserts.rule` also names the rule. */
  datatype Rule = Rule(crop: string, when: Test, unless: seq<Absence>, asserts: Diagnosis)

  /** Whether rule `r` fires on case `c` when the diagnoses `ds` are already in memory. */
  predicate Fires(r: Rule, c: Case, ds: seq<Diagnosis>)
  {
    r.crop == c.crop && Holds(r.when, c.symptoms) && Unblocked(r.unless, ds)
  }

  /** The diagnoses in memory once the first `k` rules have been visited. */
  function Derive(rules: seq<Rule>, c: Case, k: nat): (ds: seq<Diagnosis>)
    requires k <= |rules|
    ensures |ds| <= k
    ensures forall d :: d in ds ==> exists i :: 0 <= i < k && rules[i].asserts == d
  {
    if k == 0 then []
    else
      var before := Derive(rules, c, k - 1);
      if Fires(rules[k - 1], c, before) then before + [rules[k - 1].asserts] else before
  }

  /** The diagnoses a full pass over `rules` asserts on case `c`, in firing order. */
  function Outcome(rules: seq<Rule>, c: Case): seq<Diagnosis>
  {
    Derive(rules, c, |rules|)
  }

  /** Whether rule number `i` fires during the pass: it is reached with the memory the rules
      before it left. */
  predicate FiredAt(rules: seq<Rule>, c: Case, i: nat)
    requires i < |rules|
  {
    Fires(rules[i], c, Derive(rules, c, i))
  }

  // ---------------------------------------------------------------------------------------
  // Working memory as the engine holds it

  /** Whether rule `r` matches working memory `wm`: the memory's case has the rule's crop
      and passes its test, and none of its negation guards is violated. */
  predicate Matches(r: Rule, wm: seq<Fact>)
  {
    match CaseOf(wm)
    case None => false
    case Some(c) => Fires(r, c, Diagnoses(wm))
  }

  /** Working memory after the first `k` rules have been visited, starting from `wm`. */
  function Pass(rules: seq<Rule>, wm: seq<Fact>, k: nat): seq<Fact>
    requires k <= |rules|
  {
    if k == 0 then wm
    else
      var before := Pass(rules, wm, k - 1);
      if Matches(rules[k - 1], before) then before + [DiagFact(rules[k - 1].asserts)] else before
  }

  /** The knowledge engine of one consultation: its rules and its fact base. */
  class Engine {
    const rules: seq<Rule>
    var facts: seq<Fact>

    constructor (rules: seq<Rule>)
      ensures this.rules == rules && facts == []
    {
      this.rules := rules;
      facts := [];
    }

    /** `reset()`: empty the fact base and assert the initial fact. */
    method Reset()
      modifies this
      ensures facts == [InitialFact]
    {
      facts := [InitialFact];
    }

    /** `declare(f)`: append one fact. */
    method Declare(f: Fact)
      modifies this
      ensures facts == old(facts) + [f]
    {
      facts := facts + [f];
    }

    /** `run()`, as one pass over the rules in declaration order. */
    method Run()
      modifies this
      ensures facts == Pass(rules, old(facts), |rules|)
    {
      var i := 0;
      while i < |rules|
        invariant 0 <= i <= |rules|
        invariant facts == Pass(rules, old(facts), i)
      {
        if Matches(rules[i], facts) {
          Declare(DiagFact(rules[i].asserts));
        }
        i := i + 1;
      }
    }
  }

  /** On a memory seeded with one case, the engine's pass asserts exactly `Derive`'s
      diagnoses, after the initial fact and the case. */
  lemma {:induction false} PassOnSeeded(rules: seq<Rule>, c: Case, k: nat)
    requires k <= |rules|
    ensures Pass(rules, Seeded(c), k) == Seeded(c) + Wrap(Derive(rules, c, k))
    decreases k
  {
    if k == 0 {
      PassStart(rules, c);
    } else {
      PassOnSeeded(rules, c, k - 1);
      PassStep(rules, c, k);
    }
  }

  /** Before any rule is visited the memory is the seed. */
  lemma PassStart(rules: seq<Rule>, c: Case)
    ensures Pass(rules, Seeded(c), 0) == Seeded(c) + Wrap(Derive(rules, c, 0))
  {
    assert Wrap([]) == [];
  }

  /** One rule visited on a seeded memory: its record is appended exactly when `Derive`
      appends it. */
  lemma PassStep(rules: seq<Rule>, c: Case, k: nat)
    requires 0 < k <= |rules|
    requires Pass(rules, Seeded(c), k - 1) == Seeded(c) + Wrap(Derive(rules, c, k - 1))
    ensures Pass(rules, Seeded(c), k) == Seeded(c) + Wrap(Derive(rules, c, k))
  {
    var ds := Derive(rules, c, k - 1);
    var d := rules[k - 1].asserts;
    MatchesSeeded(rules[k - 1], c, ds);
    if Fires(rules[k - 1], c, ds) {
      WrapAppend(ds, d);
      assert Seeded(c) + Wrap(ds) + [DiagFact(d)] == Seeded(c) + Wrap(ds + [d]);
    }
  }

  lemma MatchesSeeded(r: Rule, c: Case, ds: seq<Diagnosis>)
    ensures Matches(r, Seeded(c) + Wrap(ds)) == Fires(r, c, ds)
  {
    SeededWithDiagnoses(c, ds);
  }

  // ---------------------------------------------------------------------------------------
  // Properties of the pass

  /** Memory only grows: what the first `k` rules assert is a prefix of what the first `m` do. */
  lemma {:induction false} DeriveGrows(rules: seq<Rule>, c: Case, k: nat, m: nat)
    requires k <= m <= |rules|
    ensures Derive(rules, c, k) <= Derive(rules, c, m)
  {
    if k < m {
      DeriveGrows(rules, c, k, m - 1);
    }
  }

  /** A diagnosis is in memory after `k` rules exactly when one of those rules fired and
      asserts it. */
  lemma {:induction false} InDerive(rules: seq<Rule>, c: Case, k: nat, d: Diagnosis)
    requires k <= |rules|
    ensures d in Derive(rules, c, k) <==> exists i :: 0 <= i < k && FiredAt(rules, c, i) && rules[i].asserts == d
  {
    if k > 0 {
      InDerive(rules, c, k - 1, d);
    }
  }

  /** The rule at `i` has added its record once the first `k > i` rules have been visited
      exactly when it fired. */
  lemma FiredRecord(rules: seq<Rule>, c: Case, i: nat, k: nat)
    requires i < k <= |rules|
    ensures FiredAt(rules, c, i) ==> rules[i].asserts in Derive(rules, c, k)
  {
    DeriveGrows(rules, c, i + 1, k);
  }

  /** Two rules with different records that both fire leave both records, and so at least
      two diagnoses, in the outcome. */
  lemma BothFired(rules: seq<Rule>, c: Case, i: nat, j: nat)
    requires i < j < |rules| && rules[i].asserts != rules[j].asserts
    requires FiredAt(rules, c, i) && FiredAt(rules, c, j)
    ensures rules[i].asserts in Outcome(rules, c) && rules[j].asserts in Outcome(rules, c)
    ensures |Outcome(rules, c)| >= 2
  {
    FiredRecord(rules, c, i, |rules|);
    FiredRecord(rules, c, j, |rules|);
  }

  /** A rule without negation guards fires exactly when the crop matches and its test
      holds, wherever it stands in the registry. */
  lemma FiresWithoutGuards(rules: seq<Rule>, c: Case, i: nat)
    requires i < |rules| && rules[i].unless == []
    ensures FiredAt(rules, c, i) <==> rules[i].crop == c.crop && Holds(rules[i].when, c.symptoms)
  {
  }

  /** A `NOT(Diagnostico())` rule fires exactly when its pattern matches and no rule before
      it fired. */
  lemma {:induction false} FallbackFires(rules: seq<Rule>, c: Case, i: nat)
    requires i < |rules| && rules[i].unless == [AnyDiagnosis]
    ensures FiredAt(rules, c, i) <==>
      rules[i].crop == c.crop && Holds(rules[i].when, c.symptoms) &&
      forall j :: 0 <= j < i ==> !FiredAt(rules, c, j)
  {
    NothingFired(rules, c, i);
    assert AnyDiagnosis in rules[i].unless;
  }

  /** Memory is still empty after `k` rules exactly when none of them fired. */
  lemma {:induction false} NothingFired(rules: seq<Rule>, c: Case, k: nat)
    requires k <= |rules|
    ensures Derive(rules, c, k) == [] <==> forall j :: 0 <= j < k ==> !FiredAt(rules, c, j)
  {
    if k > 0 {
      NothingFired(rules, c, k - 1);
      var before := Derive(rules, c, k - 1);
      if Derive(rules, c, k) == [] {
        assert before == [] && !FiredAt(rules, c, k - 1);
      } else if before == [] {
        assert FiredAt(rules, c, k - 1);
      }
    }
  }

  /** Whether a diagnosis of `pest` is in memory after `k` rules is decided by the rules
      before `k` that assert that pest. */
  lemma {:induction false} PestPresent(rules: seq<Rule>, c: Case, k: nat, p: string)
    requires k <= |rules|
    ensures Present(DiagnosisOf(p), Derive(rules, c, k)) <==>
      exists i :: 0 <= i < k && FiredAt(rules, c, i) && rules[i].asserts.pest == p
  {
    if k > 0 {
      PestPresent(rules, c, k - 1, p);
    }
  }

  /** A guard naming a pest that none of the first `k` rules asserts is never violated
      after them. */
  lemma NeverAsserted(rules: seq<Rule>, c: Case, k: nat, p: string)
    requires k <= |rules|
    requires forall m :: 0 <= m < k ==> rules[m].asserts.pest != p
    ensures !Present(DiagnosisOf(p), Derive(rules, c, k))
  {
    PestPresent(rules, c, k, p);
  }

  /** The complete/partial design: when the rule at `j` is guarded by the absence of the
      pest that only the rule at `i < j` asserts among the rules before `j`, the rule at `j`
      fires exactly when its pattern matches and the rule at `i` did not fire. */
  lemma Suppression(rules: seq<Rule>, c: Case, i: nat, j: nat)
    requires i < j < |rules|
    requires rules[j].unless == [DiagnosisOf(rules[i].asserts.pest)]
    requires forall m :: 0 <= m < j && m != i ==> rules[m].asserts.pest != rules[i].asserts.pest
    ensures FiredAt(rules, c, j) <==>
      rules[j].crop == c.crop && Holds(rules[j].when, c.symptoms) && !FiredAt(rules, c, i)
  {
    PestPresent(rules, c, j, rules[i].asserts.pest);
  }

  /** Whether rule `r` applies to case `c` by its pattern alone: the crop matches and the
      symptom test holds, whatever is in memory. */
  predicate Applies(r: Rule, c: Case)
  {
    r.crop == c.crop && Holds(r.when, c.symptoms)
  }

  /** A rule whose pattern applies either fires or finds memory non-empty: every negation
      guard, of either kind, is only violated by some diagnosis. So memory is still empty
      after `k` rules exactly when none of their patterns applies. */
  lemma {:induction false} QuietIff(rules: seq<Rule>, c: Case, k: nat)
    requires k <= |rules|
    ensures Derive(rules, c, k) == [] <==> forall j :: 0 <= j < k ==> !Applies(rules[j], c)
  {
    if k > 0 {
      QuietIff(rules, c, k - 1);
      var before := Derive(rules, c, k - 1);
      if before == [] && Applies(rules[k - 1], c) {
        assert Unblocked(rules[k - 1].unless, before);
      }
    }
  }

  /** The fallback by content: a `NOT(Diagnostico())` rule fires exactly when its own
      pattern applies and no earlier rule's pattern does. */
  lemma FallbackApplies(rules: seq<Rule>, c: Case, i: nat)
    requires i < |rules| && rules[i].unless == [AnyDiagnosis]
    ensures FiredAt(rules, c, i) <==>
      Applies(rules[i], c) && forall j :: 0 <= j < i ==> !Applies(rules[j], c)
  {
    QuietIff(rules, c, i);
    assert AnyDiagnosis in rules[i].unless;
  }

  /** No pattern among the first `k` rules applies, so they leave memory empty. */
  lemma NoneApply(rules: seq<Rule>, c: Case, k: nat)
    requires k <= |rules|
    requires forall j :: 0 <= j < k ==> !Holds(rules[j].when, c.symptoms)
    ensures Derive(rules, c, k) == []
  {
    QuietIff(rules, c, k);
  }

  /** The records of the rules whose pattern applies, in registry order. */
  function Applicable(rules: seq<Rule>, c: Case): (ds: seq<Diagnosis>)
    ensures |ds| <= |rules|
  {
    if rules == [] then []
    else
      var last := rules[|rules| - 1];
      Applicable(rules[..|rules| - 1], c) + (if Applies(last, c) then [last.asserts] else [])
  }

  /** Without negation guards the pass asserts exactly the records of the rules whose
      pattern applies: memory plays no part. */
  lemma {:induction false} GuardFree(rules: seq<Rule>, c: Case, k: nat)
    requires k <= |rules|
    requires forall i :: 0 <= i < |rules| ==> rules[i].unless == []
    ensures Derive(rules, c, k) == Applicable(rules[..k], c)
  {
    if k > 0 {
      GuardFree(rules, c, k - 1);
      assert rules[..k][..k - 1] == rules[..k - 1];
    }
  }

  lemma {:induction false} ApplicableConcat(a: seq<Rule>, b: seq<Rule>, c: Case)
    ensures Applicable(a + b, c) == Applicable(a, c) + Applicable(b, c)
  {
    if b == [] {
      assert a + b == a;
    } else {
      var init := b[..|b| - 1];
      ApplicableConcat(a, init, c);
      assert (a + b)[..|a + b| - 1] == a + init;
      assert (a + b)[|a + b| - 1] == b[|b| - 1];
    }
  }

  /** Which records apply does not depend on the order of the registry: reordering the
      rules reorders the records and nothing more. */
  lemma {:induction false} ApplicableReordered(rules: seq<Rule>, other: seq<Rule>, c: Case)
    requires multiset(rules) == multiset(other)
    ensures multiset(Applicable(rules, c)) == multiset(Applicable(other, c))
  {
    if rules != [] {
      var init, last := rules[..|rules| - 1], rules[|rules| - 1];
      assert rules == init + [last];
      assert last in multiset(other);
      var m :| 0 <= m < |other| && other[m] == last;
      var a, b := other[..m], other[m + 1..];
      TakeOut(other, m);
      Cancel(multiset(init), multiset(a + b), last);
      ApplicableReordered(init, a + b, c);
      ApplicableAround(a, last, b, c);
    }
  }

  lemma TakeOut(s: seq<Rule>, m: nat)
    requires m < |s|
    ensures s == s[..m] + [s[m]] + s[m + 1..]
    ensures multiset(s) == multiset(s[..m] + s[m + 1..]) + multiset{s[m]}
  {
    assert s == s[..m] + [s[m]] + s[m + 1..];
  }

  lemma Cancel(x: multiset<Rule>, y: multiset<Rule>, e: Rule)
    requires x + multiset{e} == y + multiset{e}
    ensures x == y
  {
    assert x == (x + multiset{e}) - multiset{e};
    assert y == (y + multiset{e}) - multiset{e};
  }

  /** The records of `a + [r] + b` are those of `a + b` with `r`'s, when it applies. */
  lemma ApplicableAround(a: seq<Rule>, r: Rule, b: seq<Rule>, c: Case)
    ensures multiset(Applicable(a + [r] + b, c)) ==
      multiset(Applicable(a + b, c)) + multiset(if Applies(r, c) then [r.asserts] else [])
  {
    ApplicableConcat(a, b, c);
    ApplicableConcat(a + [r], b, c);
    ApplicableConcat(a, [r], c);
    assert Applicable([r], c) == (if Applies(r, c) then [r.asserts] else []) by {
      assert [r][..0] == [];
    }
  }

  /** A guard-free registry fires the same records under any order. */
  lemma OrderIndependent(rules: seq<Rule>, other: seq<Rule>, c: Case)
    requires multiset(rules) == multiset(other)
    requires forall i :: 0 <= i < |rules| ==> rules[i].unless == []
    ensures multiset(Outcome(rules, c)) == multiset(Outcome(other, c))
  {
    forall i | 0 <= i < |other| ensures other[i].unless == [] {
      assert other[i] in multiset(rules);
    }
    GuardFree(rules, c, |rules|);
    GuardFree(other, c, |other|);
    assert rules[..|rules|] == rules && other[..|other|] == other;
    ApplicableReordered(rules, other, c);
  }

  // ---------------------------------------------------------------------------------------
  // Reading a registry's outcome

  /** No other rule of the registry asserts the record the rule at `i` asserts. */
  predicate OwnRecord(rules: seq<Rule>, i: nat)
    requires i < |rules|
  {
    forall j :: 0 <= j < |rules| && j != i ==> rules[j].asserts != rules[i].asserts
  }

  /** When no other rule asserts the same record, a rule's record is in the outcome exactly when
      that rule fired. */
  lemma Recorded(rules: seq<Rule>, c: Case, i: nat)
    requires i < |rules| && OwnRecord(rules, i)
    ensures rules[i].asserts in Outcome(rules, c) <==> FiredAt(rules, c, i)
  {
    InDerive(rules, c, |rules|, rules[i].asserts);
    if rules[i].asserts in Outcome(rules, c) {
      var j :| 0 <= j < |rules| && FiredAt(rules, c, j) && rules[j].asserts == rules[i].asserts;
      assert j == i;
    }
  }

  /** A rule without negation guards and with a record of its own: the record is in the
      outcome exactly when the rule's pattern applies. */
  lemma Unguarded(rules: seq<Rule>, c: Case, i: nat)
    requires i < |rules| && OwnRecord(rules, i) && rules[i].unless == []
    ensures rules[i].asserts in Outcome(rules, c) <==> Applies(rules[i], c)
  {
    Recorded(rules, c, i);
  }

  /** A complete rule at `i` and a partial rule at `j` guarded by the absence of the complete
      rule's pest, which no other earlier rule asserts: the complete record is in the outcome
      exactly when its pattern applies, the partial one exactly when its own pattern applies
      and the complete one's does not. */
  lemma PairFires(rules: seq<Rule>, c: Case, i: nat, j: nat)
    requires i < j < |rules| && OwnRecord(rules, i) && OwnRecord(rules, j)
    requires rules[i].unless == []
    requires rules[j].unless == [DiagnosisOf(rules[i].asserts.pest)]
    requires forall m :: 0 <= m < j && m != i ==> rules[m].asserts.pest != rules[i].asserts.pest
    ensures rules[i].asserts in Outcome(rules, c) <==> Applies(rules[i], c)
    ensures rules[j].asserts in Outcome(rules, c) <==> Applies(rules[j], c) && !Applies(rules[i], c)
  {
    Recorded(rules, c, i);
    Recorded(rules, c, j);
    Suppression(rules, c, i, j);
  }

  /** No test among rules `lo` to `hi - 1` holds on `s`. */
  predicate Quiet(rules: seq<Rule>, s: set<string>, lo: nat, hi: nat)
    requires lo <= hi <= |rules|
  {
    forall j :: lo <= j < hi ==> !Holds(rules[j].when, s)
  }

  /** Every rule after `i` either has a test that fails on `s` or is a fallback, which a
      diagnosis in memory always blocks. */
  predicate QuietOrFallback(rules: seq<Rule>, s: set<string>, i: nat)
    requires i < |rules|
  {
    forall j :: i < j < |rules| ==> !Holds(rules[j].when, s) || AnyDiagnosis in rules[j].unless
  }

  /** When the pattern of rule `i` applies, no test before it holds and every later rule is
      quiet or a fallback, the outcome is rule `i`'s record alone, whatever its own negation
      guards say. */
  lemma Solo(rules: seq<Rule>, c: Case, i: nat)
    requires i < |rules| && Applies(rules[i], c)
    requires Quiet(rules, c.symptoms, 0, i) && QuietOrFallback(rules, c.symptoms, i)
    ensures Outcome(rules, c) == [rules[i].asserts]
  {
    NoneApply(rules, c, i);
    SoloAfter(rules, c, i, |rules|);
  }

  /** The same, for a registry that ends in a fallback: rule `i`'s record is the whole
      outcome when no other test before the fallback holds. */
  lemma SoloBeforeFallback(rules: seq<Rule>, c: Case, i: nat)
    requires i + 1 < |rules| && Applies(rules[i], c)
    requires AnyDiagnosis in rules[|rules| - 1].unless
    requires Quiet(rules, c.symptoms, 0, i) && Quiet(rules, c.symptoms, i + 1, |rules| - 1)
    ensures Outcome(rules, c) == [rules[i].asserts]
  {
    Solo(rules, c, i);
  }

  /** A registry whose last rule is an unconditional fallback: when no other test holds, the
      fallback's record is the whole outcome. */
  lemma OnlyFallback(rules: seq<Rule>, c: Case)
    requires |rules| > 0 && Applies(rules[|rules| - 1], c)
    requires Quiet(rules, c.symptoms, 0, |rules| - 1)
    ensures Outcome(rules, c) == [rules[|rules| - 1].asserts]
  {
    Solo(rules, c, |rules| - 1);
  }

  lemma {:induction false} SoloAfter(rules: seq<Rule>, c: Case, i: nat, k: nat)
    requires i < k <= |rules| && Derive(rules, c, i) == [] && Applies(rules[i], c)
    requires forall j :: i < j < k ==> !Holds(rules[j].when, c.symptoms) || AnyDiagnosis in rules[j].unless
    ensures Derive(rules, c, k) == [rules[i].asserts]
  {
    if k > i + 1 {
      SoloAfter(rules, c, i, k - 1);
      assert Present(AnyDiagnosis, [rules[i].asserts]);
    } else {
      assert Unblocked(rules[i].unless, []);
    }
  }

  /** The symptom tags a test looks at. */
  function Mentions(t: Test): set<string>
  {
    match t
    case Always => {}
    case Has(tag) => {tag}
    case Lacks(tag) => {tag}
    case AllOf(tags) => tags
    case AnyOf(tags) => tags
    case AtLeast(_, tags) => tags
    case SizeAtMost(_) => {}
    case Not(u) => Mentions(u)
    case And(l, r) => Mentions(l) + Mentions(r)
  }

  /** Whether a test only looks at which of its tags are present (it never counts `s`). */
  predicate SizeFree(t: Test)
  {
    match t
    case SizeAtMost(_) => false
    case Not(u) => SizeFree(u)
    case And(l, r) => SizeFree(l) && SizeFree(r)
    case _ => true
  }

  /** A size-free test gives the same answer on two symptom sets that agree on its tags:
      tags it does not mention never change its outcome. */
  lemma {:induction false} OnlyMentionedMatter(t: Test, s: set<string>, u: set<string>)
    requires SizeFree(t) && s * Mentions(t) == u * Mentions(t)
    ensures Holds(t, s) == Holds(t, u)
  {
    match t
    case Always =>
    case Has(tag) =>
      assert tag in s <==> tag in s * Mentions(t);
      assert tag in u <==> tag in u * Mentions(t);
    case Lacks(tag) =>
      assert tag in s <==> tag in s * Mentions(t);
      assert tag in u <==> tag in u * Mentions(t);
    case AnyOf(tags) =>
      assert forall tag :: tag in tags ==> (tag in s <==> tag in s * tags);
      assert forall tag :: tag in tags ==> (tag in u <==> tag in u * tags);
    case AllOf(tags) =>
      assert tags <= s <==> tags <= s * tags;
      assert tags <= u <==> tags <= u * tags;
    case AtLeast(_, tags) =>
      assert tags * s == s * tags && tags * u == u * tags;
    case Not(v) =>
      OnlyMentionedMatter(v, s, u);
    case And(l, r) =>
      assert s * Mentions(l) == (s * Mentions(t)) * Mentions(l);
      assert u * Mentions(l) == (u * Mentions(t)) * Mentions(l);
      assert s * Mentions(r) == (s * Mentions(t)) * Mentions(r);
      assert u * Mentions(r) == (u * Mentions(t)) * Mentions(r);
      OnlyMentionedMatter(l, s, u);
      OnlyMentionedMatter(r, s, u);
  }

  /** Every tag any rule of the registry looks at. */
  function Vocabulary(rules: seq<Rule>): (v: set<string>)
    ensures forall i :: 0 <= i < |rules| ==> Mentions(rules[i].when) <= v
  {
    if rules == [] then {} else Vocabulary(rules[1..]) + Mentions(rules[0].when)
  }

  /** Tags outside the registry's vocabulary are ignored: to a size-free rule, a symptom set
      made only of them looks empty. */
  lemma UnknownLooksEmpty(rules: seq<Rule>, s: set<string>, i: nat)
    requires i < |rules| && SizeFree(rules[i].when) && s * Vocabulary(rules) == {}
    ensures Holds(rules[i].when, s) == Holds(rules[i].when, {})
  {
    var m := Mentions(rules[i].when);
    assert s * m <= s * Vocabulary(rules);
    OnlyMentionedMatter(rules[i].when, s, {});
  }

  /** Quiet stretches of rules join up. */
  lemma QuietJoin(rules: seq<Rule>, s: set<string>, a: nat, b: nat, d: nat)
    requires a <= b <= d <= |rules| && Quiet(rules, s, a, b) && Quiet(rules, s, b, d)
    ensures Quiet(rules, s, a, d)
  {
  }

  /** Rules whose tests are size-free and quiet on the empty set stay quiet on any set of
      tags outside the registry's vocabulary. */
  lemma QuietOnUnknown(rules: seq<Rule>, s: set<string>, lo: nat, hi: nat)
    requires lo <= hi <= |rules| && Quiet(rules, {}, lo, hi)
    requires forall j :: lo <= j < hi ==> SizeFree(rules[j].when)
    requires s * Vocabulary(rules) == {}
    ensures Quiet(rules, s, lo, hi)
  {
    forall j | lo <= j < hi ensures !Holds(rules[j].when, s) {
      UnknownLooksEmpty(rules, s, j);
    }
  }

  // ---------------------------------------------------------------------------------------
  // Counting tags

  lemma SubsetSize(a: set<string>, b: set<string>)
    requires a <= b
    ensures |a| <= |b|
  {
    assert b == a + (b - a);
  }

  /** All of `tags` are present exactly when all of them are counted in `tags * s`. */
  lemma FullOverlap(tags: set<string>, s: set<string>)
    ensures tags <= s <==> |tags * s| == |tags|
  {
    if !(tags <= s) {
      var t :| t in tags && t !in s;
      SubsetSize(tags * s, tags - {t});
    } else {
      assert tags * s == tags;
    }
  }

  /** An overlap test `len(tags & s) >= n` holds once `n` of its tags are known present. */
  lemma CountReached(n: nat, tags: set<string>, present: set<string>, s: set<string>)
    requires present <= tags && present <= s && n <= |present|
    ensures Holds(AtLeast(n, tags), s)
  {
    SubsetSize(present, tags * s);
  }

  /** An overlap test `len(tags & s) >= n` never holds on fewer than `n` symptoms. */
  lemma TooFewSymptoms(n: nat, tags: set<string>, s: set<string>)
    requires |s| < n
    ensures !Holds(AtLeast(n, tags), s)
  {
    SubsetSize(tags * s, s);
  }

  /** `len({a, b} & s) >= 1` says that `a` or `b` is present. */
  lemma OneOfTwo(a: string, b: string, s: set<string>)
    ensures |{a, b} * s| >= 1 <==> a in s || b in s
  {
    if a in s {
      SubsetSize({a}, {a, b} * s);
    } else if b in s {
      SubsetSize({b}, {a, b} * s);
    } else {
      assert {a, b} * s == {};
    }
  }

  /** `a in s and len({b, x} & s) >= 1` says that `a` and one of `b`, `x` are present. */
  lemma HasAndOneOfTwo(a: string, b: string, x: string, s: set<string>)
    ensures Holds(And(Has(a), AtLeast(1, {b, x})), s) <==> a in s && (b in s || x in s)
  {
    OneOfTwo(b, x, s);
  }
}
