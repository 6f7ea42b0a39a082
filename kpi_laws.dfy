/**
 * The laws of one analysis run: `Walk` from a reset state succeeds exactly
 * when every dict rule can be analyzed, and its counters then equal the
 * reference counts over the flattened rules, from which the conservation
 * laws of utils/kpi_analyzer.py follow.
 */
module KpiLaws {
  import opened Wrappers
  import opened Dicts
  import opened Json
  import opened KpiSpec

  lemma {:induction false} FoldAppend(c: RuleTally, a: seq<(string, Json)>, b: seq<(string, Json)>)
    ensures FoldEntries(c, a + b) ==
            match FoldEntries(c, a)
            case None => None
            case Some(c') => FoldEntries(c', b)
  {
    if b == [] {
      assert a + b == a;
    } else {
      assert (a + b)[..|a + b| - 1] == a + b[..|b| - 1];
      FoldAppend(c, a, b[..|b| - 1]);
    }
  }

  lemma {:induction false} OccurrencesAppend(x: HashKey, a: seq<HashKey>, b: seq<HashKey>)
    ensures Occurrences(x, a + b) == Occurrences(x, a) + Occurrences(x, b)
  {
    if b == [] {
      assert a + b == a;
    } else {
      assert (a + b)[..|a + b| - 1] == a + b[..|b| - 1];
      OccurrencesAppend(x, a, b[..|b| - 1]);
    }
  }

  /** `Occurrences` seen from the front. */
  lemma OccurrencesCons(x: HashKey, cs: seq<HashKey>)
    requires cs != []
    ensures Occurrences(x, cs) == (if cs[0] == x then 1 else 0) + Occurrences(x, cs[1..])
  {
    assert cs == [cs[0]] + cs[1..];
    OccurrencesAppend(x, [cs[0]], cs[1..]);
    assert [cs[0]][..0] == [];
  }

  lemma {:induction false} IncrAllCounts(d: seq<(HashKey, nat)>, cs: seq<HashKey>, x: HashKey)
    ensures Count(IncrAll(d, cs), x) == Count(d, x) + Occurrences(x, cs)
    decreases cs
  {
    if cs != [] {
      var d' := Incr(d, cs[0]);
      IncrAllCounts(d', cs[1..], x);
      OccurrencesCons(x, cs);
      assert Count(d', x) == Count(d, x) + (if cs[0] == x then 1 else 0);
    }
  }

  lemma {:induction false} IncrAllSum(d: seq<(HashKey, nat)>, cs: seq<HashKey>)
    ensures Sum(IncrAll(d, cs)) == Sum(d) + |cs|
    decreases cs
  {
    if cs != [] {
      IncrAllSum(Incr(d, cs[0]), cs[1..]);
      SumIncr(d, cs[0]);
    }
  }

  /** The five scalar counters of `c` are those of `c0` plus what `es` contribute. */
  predicate ScalarsAccount(c0: RuleTally, c: RuleTally, es: seq<(string, Json)>) {
    && c.withSql == c0.withSql + CountIf(es, WithSql)
    && c.withoutSql == c0.withoutSql + CountIf(es, WithoutSql)
    && c.simple == c0.simple + CountIf(es, IsSimple)
    && c.complex == c0.complex + CountIf(es, IsComplex)
    && c.cross == c0.cross + CountIf(es, IsCross)
  }

  /** Column coverage of `c` is that of `c0` plus every column of every dict rule in `es`. */
  ghost predicate CoverageAccounts(c0: RuleTally, c: RuleTally, es: seq<(string, Json)>) {
    && (forall x :: Count(c.coverage, x) == Count(c0.coverage, x) + Occurrences(x, AllColumns(es)))
    && Sum(c.coverage) == Sum(c0.coverage) + |AllColumns(es)|
    && (DistinctKeys(c0.coverage) ==> DistinctKeys(c.coverage))
  }

  /** The validation-type counts of `c` are those of `c0` plus the dict rules in `es`. */
  ghost predicate TypesAccount(c0: RuleTally, c: RuleTally, es: seq<(string, Json)>) {
    && (forall v :: Count(c.types, v) == Count(c0.types, v) + CountType(es, v))
    && Sum(c.types) == Sum(c0.types) + CountIf(es, IsDict)
    && (DistinctKeys(c0.types) ==> DistinctKeys(c.types))
  }

  /** `c` is `c0` plus what the entries `es` contribute. */
  ghost predicate Accounts(c0: RuleTally, c: RuleTally, es: seq<(string, Json)>) {
    ScalarsAccount(c0, c, es) && CoverageAccounts(c0, c, es) && TypesAccount(c0, c, es)
  }

  lemma StepScalars(c0: RuleTally, c: RuleTally, es: seq<(string, Json)>, e: (string, Json))
    requires ScalarsAccount(c0, c, es)
    requires RuleStep(c, e.0, e.1).Some?
    ensures ScalarsAccount(c0, RuleStep(c, e.0, e.1).value, es + [e])
  {
    var es' := es + [e];
    assert es'[..|es'| - 1] == es;
  }

  lemma StepCoverage(c0: RuleTally, c: RuleTally, es: seq<(string, Json)>, e: (string, Json))
    requires CoverageAccounts(c0, c, es)
    requires RuleStep(c, e.0, e.1).Some?
    ensures CoverageAccounts(c0, RuleStep(c, e.0, e.1).value, es + [e])
  {
    var es' := es + [e];
    assert es'[..|es'| - 1] == es;
    var c' := RuleStep(c, e.0, e.1).value;
    if e.1.JObj? {
      var cols := KeysOf(ColumnList(e.1.fields));
      assert c'.coverage == IncrAll(c.coverage, cols);
      assert AllColumns(es') == AllColumns(es) + cols;
      forall x
        ensures Count(c'.coverage, x) == Count(c0.coverage, x) + Occurrences(x, AllColumns(es'))
      {
        IncrAllCounts(c.coverage, cols, x);
        OccurrencesAppend(x, AllColumns(es), cols);
      }
      IncrAllSum(c.coverage, cols);
    } else {
      assert AllColumns(es') == AllColumns(es) + [];
      assert AllColumns(es') == AllColumns(es);
      assert c'.coverage == c.coverage;
    }
  }

  lemma StepTypes(c0: RuleTally, c: RuleTally, es: seq<(string, Json)>, e: (string, Json))
    requires TypesAccount(c0, c, es)
    requires RuleStep(c, e.0, e.1).Some?
    ensures TypesAccount(c0, RuleStep(c, e.0, e.1).value, es + [e])
  {
    var es' := es + [e];
    assert es'[..|es'| - 1] == es;
    var c' := RuleStep(c, e.0, e.1).value;
    if e.1.JObj? {
      var v := KeyOf(ValidationType(e.1.fields));
      assert c'.types == Incr(c.types, v);
      SumIncr(c.types, v);
    }
  }

  /** One rule step keeps `Accounts` for the entries seen so far. */
  lemma StepAccounts(c0: RuleTally, c: RuleTally, es: seq<(string, Json)>, e: (string, Json))
    requires Accounts(c0, c, es)
    requires e.1.JObj? ==> Analyzable(e.1.fields)
    ensures RuleStep(c, e.0, e.1).Some?
    ensures Accounts(c0, RuleStep(c, e.0, e.1).value, es + [e])
  {
    StepScalars(c0, c, es, e);
    StepCoverage(c0, c, es, e);
    StepTypes(c0, c, es, e);
  }

  /**
   * Folding the rule steps over entries fails exactly when some dict rule
   * cannot be analyzed, and otherwise adds the entries' reference counts.
   */
  lemma {:induction false} FoldMeaning(c0: RuleTally, es: seq<(string, Json)>)
    ensures FoldEntries(c0, es).Some? <==> AllAnalyzable(es)
    ensures FoldEntries(c0, es).Some? ==> Accounts(c0, FoldEntries(c0, es).value, es)
  {
    if es == [] {
      assert Accounts(c0, c0, es);
    } else {
      var init := es[..|es| - 1];
      var e := es[|es| - 1];
      assert init + [e] == es;
      FoldMeaning(c0, init);
      assert AllAnalyzable(es) <==> AllAnalyzable(init) && (e.1.JObj? ==> Analyzable(e.1.fields)) by {
        assert forall i :: 0 <= i < |init| ==> init[i] == es[i];
      }
      if FoldEntries(c0, init).Some? && (e.1.JObj? ==> Analyzable(e.1.fields)) {
        StepAccounts(c0, FoldEntries(c0, init).value, init, e);
      }
    }
  }

  /** Every rule is exactly one of simple, complex and cross-column. */
  lemma {:induction false} ComplexityPartition(es: seq<(string, Json)>)
    ensures CountIf(es, IsSimple) + CountIf(es, IsComplex) + CountIf(es, IsCross) == |es|
  {
    if es != [] {
      ComplexityPartition(es[..|es| - 1]);
    }
  }

  /** Every dict rule is counted once, with or without SQL; string rules are not. */
  lemma {:induction false} SqlPartition(es: seq<(string, Json)>)
    ensures CountIf(es, WithSql) + CountIf(es, WithoutSql) == CountIf(es, IsDict)
    ensures CountIf(es, IsDict) <= |es|
  {
    if es != [] {
      SqlPartition(es[..|es| - 1]);
    }
  }

  /** The category bookkeeping of a run, without the rule counters. */
  function Headers(t: Tally, rules: Rules): (h: Tally)
    ensures h.counters == t.counters
  {
    if rules == [] then t
    else
      var h := Headers(t, rules[..|rules| - 1]);
      var last := rules[|rules| - 1];
      if last.1.JList? then Header(h, last.0, |last.1.items|) else h
  }

  /** A run is the category bookkeeping plus the rule steps over all entries. */
  lemma {:induction false} WalkSplit(t: Tally, rules: Rules)
    ensures Walk(t, rules) ==
            match FoldEntries(t.counters, Entries(rules))
            case None => None
            case Some(c) => Some(Headers(t, rules).(counters := c))
  {
    if rules != [] {
      var init := rules[..|rules| - 1];
      var last := rules[|rules| - 1];
      WalkSplit(t, init);
      var tail := if last.1.JList? then Tag(last.0, last.1.items) else [];
      assert Entries(rules) == Entries(init) + tail;
      FoldAppend(t.counters, Entries(init), tail);
      var f := FoldEntries(t.counters, Entries(init));
      if f.Some? {
        var h := Headers(t, init);
        CategorySplit(h, f.value, last.0, last.1);
        assert Walk(t, rules) == CategoryStep(h.(counters := f.value), last.0, last.1);
      }
    }
  }

  /** One category on top of the bookkeeping `h` and the counters `c`. */
  lemma CategorySplit(h: Tally, c: RuleTally, category: string, value: Json)
    ensures CategoryStep(h.(counters := c), category, value) ==
            match FoldEntries(c, if value.JList? then Tag(category, value.items) else [])
            case None => None
            case Some(c') => Some((if value.JList? then Header(h, category, |value.items|) else h).(counters := c'))
  {
    if value.JList? {
      HeaderCounters(h, c, category, |value.items|);
    }
  }

  /** The category bookkeeping does not touch the rule counters. */
  lemma HeaderCounters(h: Tally, c: RuleTally, category: string, n: nat)
    ensures Header(h.(counters := c), category, n) == Header(h, category, n).(counters := c)
  {
  }

  /** What a dimension entry holds after a run: the length of its list, if it has one. */
  function DimValue(rules: Rules, k: string, before: nat): nat {
    ListLength(Lookup(rules, k)).GetOr(before)
  }

  /** The length of a looked-up value that is a list, if it is one. */
  function ListLength(v: Option<Json>): Option<nat> {
    if v.Some? && v.value.JList? then Some(|v.value.items|) else None
  }

  lemma {:induction false} ListCategoriesKeys(rules: Rules)
    ensures forall k :: k in Keys(ListCategories(rules)) ==> k in Keys(rules)
  {
    if rules != [] {
      var init := rules[..|rules| - 1];
      ListCategoriesKeys(init);
      assert forall k :: k in Keys(init) ==> k in Keys(rules) by {
        forall k | k in Keys(init) ensures k in Keys(rules) {
          var i :| 0 <= i < |init| && Keys(init)[i] == k;
          assert Keys(rules)[i] == k;
        }
      }
    }
  }

  lemma DistinctInit<K, V>(d: seq<(K, V)>)
    requires d != [] && DistinctKeys(d)
    ensures DistinctKeys(d[..|d| - 1])
    ensures d[|d| - 1].0 !in Keys(d[..|d| - 1])
  {
  }

  /**
   * `rules_by_category` holds exactly the list-valued categories, in
   * order, each with its length; non-list categories are skipped.
   */
  lemma {:induction false} ListCategoriesMeaning(rules: Rules)
    requires DistinctKeys(rules)
    ensures DistinctKeys(ListCategories(rules))
    ensures Sum(ListCategories(rules)) == ListTotal(rules)
    ensures forall k :: Lookup(ListCategories(rules), k) == ListLength(Lookup(rules, k))
  {
    if rules != [] {
      var init := rules[..|rules| - 1];
      var last := rules[|rules| - 1];
      DistinctInit(rules);
      ListCategoriesMeaning(init);
      ListCategoriesKeys(init);
      var lc0 := ListCategories(init);
      var lc := ListCategories(rules);
      assert last.0 !in Keys(lc0);
      if last.1.JList? {
        var n := |last.1.items|;
        assert lc == lc0 + [(last.0, n)];
        assert lc == Put<string, nat>(lc0, last.0, n);
        assert lc[..|lc| - 1] == lc0;
      } else {
        assert lc == lc0 + [];
        assert lc == lc0;
      }
      forall k
        ensures Lookup(lc, k) == ListLength(Lookup(rules, k))
      {
        LookupLast(rules, k);
        if k == last.0 && !last.1.JList? {
          assert Lookup(lc0, k) == None;
        }
      }
    }
  }

  lemma {:induction false} EntriesLength(rules: Rules)
    ensures |Entries(rules)| == ListTotal(rules)
  {
    if rules != [] {
      EntriesLength(rules[..|rules| - 1]);
    }
  }

  /** The category bookkeeping of a run from an empty `rules_by_category`. */
  lemma {:induction false} HeadersMeaning(t: Tally, rules: Rules)
    requires t.byCategory == [] && DistinctKeys(rules)
    ensures Headers(t, rules).total == t.total + ListTotal(rules)
    ensures Headers(t, rules).byCategory == ListCategories(rules)
    ensures Keys(Headers(t, rules).dims) == Keys(t.dims)
    ensures DistinctKeys(t.dims) ==> DistinctKeys(Headers(t, rules).dims)
    ensures forall k :: k in Keys(t.dims) ==> Count(Headers(t, rules).dims, k) == DimValue(rules, k, Count(t.dims, k))
  {
    if rules != [] {
      var init := rules[..|rules| - 1];
      var last := rules[|rules| - 1];
      DistinctInit(rules);
      HeadersMeaning(t, init);
      ListCategoriesKeys(init);
      var h := Headers(t, init);
      forall k | k in Keys(t.dims)
        ensures Count(Headers(t, rules).dims, k) == DimValue(rules, k, Count(t.dims, k))
      {
        LookupLast(rules, k);
        if k == last.0 {
          assert Lookup(init, k) == None;
        }
      }
    }
  }

  /**
   * A run from a reset state succeeds exactly when every dict rule of
   * every list-valued category can be analyzed; its counters are then the
   * reference counts over all those rules.
   */
  lemma AnalysisMeaning(d: seq<(string, nat)>, rules: Rules)
    requires DistinctKeys(rules)
    ensures Walk(Reset(d), rules).Some? <==> AllAnalyzable(Entries(rules))
    ensures Walk(Reset(d), rules).Some? ==>
              var t := Walk(Reset(d), rules).value;
              var es := Entries(rules);
              && t.total == ListTotal(rules) == |es|
              && t.byCategory == ListCategories(rules)
              && t.counters.withSql == CountIf(es, WithSql)
              && t.counters.withoutSql == CountIf(es, WithoutSql)
              && t.counters.simple == CountIf(es, IsSimple)
              && t.counters.complex == CountIf(es, IsComplex)
              && t.counters.cross == CountIf(es, IsCross)
              && (forall x :: Count(t.counters.coverage, x) == Occurrences(x, AllColumns(es)))
              && (forall v :: Count(t.counters.types, v) == CountType(es, v))
              && Sum(t.counters.coverage) == |AllColumns(es)|
              && Sum(t.counters.types) == CountIf(es, IsDict)
              && DistinctKeys(t.counters.coverage) && DistinctKeys(t.counters.types)
              && Keys(t.dims) == Keys(d)
              && (DistinctKeys(d) ==> DistinctKeys(t.dims))
              && (forall k :: k in Keys(d) ==> Count(t.dims, k) == DimValue(rules, k, Count(d, k)))
  {
    var t0 := Reset(d);
    WalkSplit(t0, rules);
    FoldMeaning(t0.counters, Entries(rules));
    HeadersMeaning(t0, rules);
    EntriesLength(rules);
  }

  /**
   * The conservation laws: every rule of a list-valued category lands in
   * exactly one complexity bucket, every dict rule in exactly one of the
   * SQL counts and one validation type, and the category counts add up to
   * the total.
   */
  lemma Conservation(d: seq<(string, nat)>, rules: Rules)
    requires DistinctKeys(rules)
    requires Walk(Reset(d), rules).Some?
    ensures var t := Walk(Reset(d), rules).value;
            && t.counters.simple + t.counters.complex + t.counters.cross == t.total
            && t.counters.withSql + t.counters.withoutSql == CountIf(Entries(rules), IsDict) <= t.total
            && Sum(t.counters.types) == t.counters.withSql + t.counters.withoutSql
            && Sum(t.byCategory) == t.total
            && DistinctKeys(t.byCategory)
  {
    AnalysisMeaning(d, rules);
    ComplexityPartition(Entries(rules));
    SqlPartition(Entries(rules));
    ListCategoriesMeaning(rules);
  }

  /** Once a prefix of the categories fails, the whole run fails. */
  lemma {:induction false} WalkNonePrefix(t: Tally, rules: Rules, i: nat)
    requires i <= |rules| && Walk(t, rules[..i]) == None
    ensures Walk(t, rules) == None
  {
    if i == |rules| {
      assert rules[..i] == rules;
    } else {
      var init := rules[..|rules| - 1];
      assert init[..i] == rules[..i];
      WalkNonePrefix(t, init, i);
    }
  }

  /** A category met for the first time is not yet in `rules_by_category`. */
  lemma HeaderFresh(rules: Rules, i: nat)
    requires DistinctKeys(rules) && i < |rules|
    ensures rules[i].0 !in Keys(ListCategories(rules[..i]))
  {
    ListCategoriesKeys(rules[..i]);
  }

  // ---------------------------------------------------------------------
  // The facts the imperative run needs, one step at a time.

  /** The dict invariants of the state a run accumulates. */
  predicate TallySane(t: Tally) {
    && DistinctKeys(t.byCategory) && Sum(t.byCategory) == t.total
    && DistinctKeys(t.counters.coverage) && DistinctKeys(t.counters.types)
    && DistinctKeys(t.dims) && Keys(t.dims) == Dimensions
  }

  /** One more category of the loop of `analyze_rules`. */
  lemma WalkStep(t: Tally, rules: Rules, i: nat)
    requires i < |rules|
    ensures Walk(t, rules[..i + 1]) ==
            match Walk(t, rules[..i])
            case None => None
            case Some(t') => CategoryStep(t', rules[i].0, rules[i].1)
  {
    assert rules[..i + 1][..i] == rules[..i];
  }

  /** One more rule of the inner loop of `analyze_rules`. */
  lemma FoldTagStep(c: RuleTally, category: string, rs: seq<Json>, j: nat)
    requires j < |rs|
    ensures FoldEntries(c, Tag(category, rs[..j + 1])) ==
            match FoldEntries(c, Tag(category, rs[..j]))
            case None => None
            case Some(c') => RuleStep(c', category, rs[j])
  {
    assert Tag(category, rs[..j + 1])[..j] == Tag(category, rs[..j]);
  }

  /** Once a rule raises, the rest of its category is not counted. */
  lemma FoldTagNone(c: RuleTally, category: string, rs: seq<Json>, j: nat)
    requires j <= |rs| && FoldEntries(c, Tag(category, rs[..j])) == None
    ensures FoldEntries(c, Tag(category, rs)) == None
  {
    assert Tag(category, rs) == Tag(category, rs[..j]) + Tag(category, rs[j..]);
    FoldAppend(c, Tag(category, rs[..j]), Tag(category, rs[j..]));
  }

  /** The whole category is the whole list. */
  lemma FoldTagAll(c: RuleTally, category: string, rs: seq<Json>)
    ensures FoldEntries(c, Tag(category, rs[..|rs|])) == FoldEntries(c, Tag(category, rs))
  {
    assert rs[..|rs|] == rs;
  }

  /** A run that got through a prefix of the categories left a sane state. */
  lemma WalkSane(d: seq<(string, nat)>, rules: Rules, i: nat)
    requires DistinctKeys(d) && Keys(d) == Dimensions
    requires DistinctKeys(rules) && i <= |rules|
    requires Walk(Reset(d), rules[..i]).Some?
    ensures TallySane(Walk(Reset(d), rules[..i]).value)
    ensures i < |rules| ==> rules[i].0 !in Keys(Walk(Reset(d), rules[..i]).value.byCategory)
  {
    var p := rules[..i];
    assert DistinctKeys(p) by {
      forall a, b | 0 <= a < b < |p| ensures p[a].0 != p[b].0 {
        assert p[a] == rules[a] && p[b] == rules[b];
      }
    }
    AnalysisMeaning(d, p);
    Conservation(d, p);
    if i < |rules| {
      HeaderFresh(rules, i);
    }
  }

  /** The bookkeeping for a category met for the first time keeps the invariants. */
  lemma HeaderSane(t: Tally, category: string, n: nat)
    requires TallySane(t) && category !in Keys(t.byCategory)
    ensures TallySane(Header(t, category, n))
  {
    var b := Put<string, nat>(t.byCategory, category, n);
    assert b == t.byCategory + [(category, n)];
    assert b[..|b| - 1] == t.byCategory;
    assert Sum(b) == t.total + n;
    var h := Header(t, category, n);
    assert h.byCategory == b && h.total == t.total + n && h.counters == t.counters;
    assert DistinctKeys(h.dims) && Keys(h.dims) == Dimensions;
  }

  /**
   * What a completed run from a sane state leaves: a sane state, the
   * category counts of the list-valued categories, and the conservation
   * laws.
   */
  lemma RunSane(d: seq<(string, nat)>, rules: Rules)
    requires DistinctKeys(d) && Keys(d) == Dimensions && DistinctKeys(rules)
    requires Walk(Reset(d), rules).Some?
    ensures var t := Walk(Reset(d), rules).value;
            && TallySane(t)
            && t.byCategory == ListCategories(rules)
            && t.counters.simple + t.counters.complex + t.counters.cross == t.total
            && t.counters.withSql + t.counters.withoutSql == Sum(t.counters.types) <= t.total
  {
    assert rules[..|rules|] == rules;
    WalkSane(d, rules, |rules|);
    AnalysisMeaning(d, rules);
    Conservation(d, rules);
  }
}
