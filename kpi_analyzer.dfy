/**
 * The `KPIAnalyzer` class of utils/kpi_analyzer.py: an object whose
 * `kpi_data` entries are its fields, a run of `analyze_rules` that updates
 * them in the source's order, and the read-only views the dashboard asks
 * for. Each run is proved to leave exactly the state `KpiSpec.Walk`
 * describes, whose meaning `KpiLaws` establishes.
 */
module Kpi {
  import opened Wrappers
  import opened Dicts
  import opened Json
  import opened Text
  import opened KpiSpec
  import opened KpiLaws
  import DataAnalysis

  /** The six data quality dimensions, each with no rules yet. */
  const InitialDimensions: seq<(string, nat)> :=
    [("accuracy", 0), ("completeness", 0), ("uniqueness", 0),
     ("consistency", 0), ("timeliness", 0), ("validity", 0)]

  /** `(count / total) * 100`, before rounding. */
  function Percent(count: nat, total: nat): (p: real)
    requires total > 0
    ensures 0.0 <= p
    ensures count <= total ==> p <= 100.0
    ensures count == total ==> p == 100.0
  {
    (count as real / total as real) * 100.0
  }

  /** Percentages of the same total add up. */
  lemma PercentAdd(a: nat, b: nat, total: nat)
    requires total > 0
    ensures Percent(a, total) + Percent(b, total) == Percent(a + b, total)
  {
    var t := total as real;
    assert a as real / t + b as real / t == (a + b) as real / t;
  }

  /** `category_distribution` for the given category counts. */
  function Distribution(byCategory: seq<(string, nat)>, total: nat): (d: seq<(string, real)>)
    requires total > 0
    ensures Keys(d) == Keys(byCategory)
    ensures forall i :: 0 <= i < |byCategory| ==> d[i] == (byCategory[i].0, Percent(byCategory[i].1, total))
    ensures DistinctKeys(byCategory) ==> DistinctKeys(d)
  {
    seq(|byCategory|, i requires 0 <= i < |byCategory| => (byCategory[i].0, Percent(byCategory[i].1, total)))
  }

  function RealSum(xs: seq<real>): real {
    if xs == [] then 0.0 else RealSum(xs[..|xs| - 1]) + xs[|xs| - 1]
  }

  /** The category percentages add up to the share of all rules they count. */
  lemma {:induction false} DistributionTotal(byCategory: seq<(string, nat)>, total: nat)
    requires total > 0
    ensures RealSum(Values(Distribution(byCategory, total))) == Percent(Sum(byCategory), total)
  {
    if byCategory != [] {
      var n := |byCategory| - 1;
      var vs := Values(Distribution(byCategory, total));
      assert vs[..n] == Values(Distribution(byCategory[..n], total));
      DistributionTotal(byCategory[..n], total);
      PercentAdd(Sum(byCategory[..n]), byCategory[n].1, total);
    }
  }

  /** `data_context`: the size of the data set set beside the rule count. */
  datatype DataContext = DataContext(totalRows: nat, totalColumns: nat, columnsWithMissingValues: nat,
                                     rulesPerColumn: real, rulesPerRow: real)

  /** `_add_data_context` for the statistics `stats` and `total` rules, before rounding. */
  function ContextOf(stats: DataAnalysis.BasicStats, total: nat): (c: DataContext)
    ensures c.totalRows == stats.rowCount && c.totalColumns == stats.columnCount
    ensures c.columnsWithMissingValues <= |stats.missingValues|
    ensures c.columnsWithMissingValues == 0 <==>
              forall i :: 0 <= i < |stats.missingValues| ==> stats.missingValues[i].1 == 0
    ensures stats.columnCount == 0 ==> c.rulesPerColumn == 0.0
    ensures stats.rowCount == 0 ==> c.rulesPerRow == 0.0
  {
    DataAnalysis.CountPositiveZero(stats.missingValues);
    DataContext(stats.rowCount, stats.columnCount, DataAnalysis.CountPositive(stats.missingValues),
                if stats.columnCount > 0 then total as real / stats.columnCount as real else 0.0,
                if stats.rowCount > 0 then total as real / stats.rowCount as real else 0.0)
  }

  /** The two rates are the rules per column and per row: rate times count is the total. */
  lemma ContextRates(stats: DataAnalysis.BasicStats, total: nat)
    ensures var c := ContextOf(stats, total);
            && (stats.columnCount > 0 ==> c.rulesPerColumn * stats.columnCount as real == total as real)
            && (stats.rowCount > 0 ==> c.rulesPerRow * stats.rowCount as real == total as real)
  {
  }

  /** What `get_summary_metrics` returns; the coverage is left unformatted. */
  datatype Summary = Summary(totalRules: nat, sqlCoverage: real, topCategory: string,
                             mostCoveredColumn: HashKey, complexityRatio: string)

  /**
   * The key of `max(d.items(), key=lambda x: x[1])[0]`, or `none` for an
   * empty dict: a key with the largest count, the first such in order.
   */
  function TopKey<K>(d: seq<(K, nat)>, none: K): (k: K)
    ensures d == [] ==> k == none
    ensures d != [] ==>
              exists m :: 0 <= m < |d| && k == d[m].0
                && (forall j :: 0 <= j < |d| ==> d[j].1 <= d[m].1)
                && (forall j :: 0 <= j < m ==> d[j].1 < d[m].1)
  {
    if d == [] then none else d[ArgMax(d)].0
  }

  /** `f"{complex}/{simple}"`: both counts in decimal, read back unchanged. */
  function Ratio(complex: nat, simple: nat): (r: string)
    ensures var k := |NatToString(complex)|;
            && k < |r| && r[k] == '/'
            && (forall i :: 0 <= i < |r| && i != k ==> '0' <= r[i] <= '9')
            && ParseDigits(r[..k]) == complex
            && ParseDigits(r[k + 1..]) == simple
  {
    var c := NatToString(complex);
    var s := NatToString(simple);
    var r := c + "/" + s;
    assert r[..|c|] == c && r[|c| + 1..] == s;
    NatToStringRoundTrip(complex);
    NatToStringRoundTrip(simple);
    r
  }

  /** What `get_column_coverage_analysis` returns. */
  datatype Coverage = Coverage(columns: seq<HashKey>, coverage: seq<nat>)

  function Zip<K>(ks: seq<K>, ns: seq<nat>): (d: seq<(K, nat)>)
    requires |ks| == |ns|
    ensures |d| == |ks|
    ensures forall i :: 0 <= i < |ks| ==> d[i] == (ks[i], ns[i])
  {
    seq(|ks|, i requires 0 <= i < |ks| => (ks[i], ns[i]))
  }

  /** One column of that loop: its key counted once more. */
  method CountColumn(coverage: seq<(HashKey, nat)>, r: seq<(HashKey, nat)>, columns: seq<Json>, i: nat)
    returns (r': seq<(HashKey, nat)>)
    requires i < |columns| && Hashable(columns[i])
    requires AllHashable(columns[..i]) && r == IncrAll(coverage, KeysOf(columns[..i]))
    ensures AllHashable(columns[..i + 1]) && r' == IncrAll(coverage, KeysOf(columns[..i + 1]))
  {
    ColumnsSnoc(columns, i);
    IncrAllSnoc(coverage, KeysOf(columns[..i]), KeyOf(columns[i]));
    r' := Incr(r, KeyOf(columns[i]));
  }

  /** One category of the loop in `_calculate_percentages`. */
  method PutPercent(ghost d0: seq<(string, real)>, ghost ds: seq<(string, real)>, i: nat,
                    dist: seq<(string, real)>, category: string, p: real)
    returns (r: seq<(string, real)>)
    requires i < |ds| && ds[i] == (category, p) && dist == PutAll(d0, ds[..i])
    ensures r == PutAll(d0, ds[..i + 1])
  {
    PutAllStep(d0, ds, i);
    r := Put(dist, category, p);
  }

  /** The loop of `_calculate_percentages`: each category's share written into `dist`. */
  method PutPercentages(dist: seq<(string, real)>, byCategory: seq<(string, nat)>, total: nat)
    returns (r: seq<(string, real)>)
    requires total > 0
    ensures r == PutAll(dist, Distribution(byCategory, total))
  {
    r := dist;
    ghost var ds := Distribution(byCategory, total);
    var i := 0;
    while i < |byCategory|
      invariant 0 <= i <= |byCategory|
      invariant r == PutAll(dist, ds[..i])
    {
      var (category, count) := byCategory[i];
      r := PutPercent(dist, ds, i, r, category, Percent(count, total));
      i := i + 1;
    }
    assert ds[..|ds|] == ds;
  }

  /**
   * The column loop of `_analyze_rule_details`: each column counted once
   * more, in order, until one that cannot be a dict key raises; the counts
   * made before it stay, and `done` is how many there were.
   */
  method CountColumns(coverage: seq<(HashKey, nat)>, columns: seq<Json>)
    returns (r: seq<(HashKey, nat)>, ok: bool, ghost done: nat)
    ensures done <= |columns| && AllHashable(columns[..done])
    ensures r == IncrAll(coverage, KeysOf(columns[..done]))
    ensures ok <==> done == |columns|
    ensures !ok ==> !Hashable(columns[done])
    ensures ok <==> AllHashable(columns)
    ensures ok ==> r == IncrAll(coverage, KeysOf(columns))
  {
    r := coverage;
    var i := 0;
    assert columns[..0] == [];
    while i < |columns|
      invariant 0 <= i <= |columns|
      invariant AllHashable(columns[..i]) && r == IncrAll(coverage, KeysOf(columns[..i]))
    {
      if !Hashable(columns[i]) {
        return r, false, i;
      }
      r := CountColumn(coverage, r, columns, i);
      i := i + 1;
    }
    assert columns[..i] == columns;
    return r, true, i;
  }

  class KpiAnalyzer {
    var generationTimestamp: Option<string>
    var totalRules: nat
    var rulesByCategory: seq<(string, nat)>
    var rulesWithSql: nat
    var rulesWithoutSql: nat
    var sqlCoveragePercentage: real
    var categoryDistribution: seq<(string, real)>
    var simpleRules: nat
    var complexRules: nat
    var crossColumnRules: nat
    var columnCoverage: seq<(HashKey, nat)>
    var validationTypes: seq<(HashKey, nat)>
    var dataQualityDimensions: seq<(string, nat)>
    var dataContext: Option<DataContext>

    /** The counters `_analyze_rule_details` updates. */
    function Counters(): RuleTally
      reads this`rulesWithSql, this`rulesWithoutSql, this`simpleRules, this`complexRules,
              this`crossColumnRules, this`columnCoverage, this`validationTypes
    {
      RuleTally(rulesWithSql, rulesWithoutSql, simpleRules, complexRules, crossColumnRules,
                columnCoverage, validationTypes)
    }

    /** The state a run of `analyze_rules` accumulates. */
    function Snapshot(): Tally
      reads this`totalRules, this`rulesByCategory, this`dataQualityDimensions,
            this`rulesWithSql, this`rulesWithoutSql, this`simpleRules, this`complexRules,
            this`crossColumnRules, this`columnCoverage, this`validationTypes
    {
      Tally(totalRules, rulesByCategory, dataQualityDimensions, Counters())
    }

    /**
     * What holds at every point between calls, even after a run that
     * raised: the dicts are dicts, the dimension table keeps its six keys,
     * the category counts add up to the total and the coverage is a
     * percentage.
     */
    predicate Sane()
      reads this`totalRules, this`rulesByCategory, this`dataQualityDimensions,
            this`rulesWithSql, this`rulesWithoutSql, this`simpleRules, this`complexRules,
            this`crossColumnRules, this`columnCoverage, this`validationTypes,
            this`categoryDistribution, this`sqlCoveragePercentage
    {
      && TallySane(Snapshot())
      && DistinctKeys(categoryDistribution)
      && 0.0 <= sqlCoveragePercentage <= 100.0
    }

    /** The conservation laws of a completed run. */
    predicate Conserved()
      reads this`totalRules, this`rulesWithSql, this`rulesWithoutSql, this`simpleRules,
            this`complexRules, this`crossColumnRules, this`validationTypes
    {
      && simpleRules + complexRules + crossColumnRules == totalRules
      && rulesWithSql + rulesWithoutSql == Sum(validationTypes) <= totalRules
    }

    /** The percentages describe the current counts. */
    predicate PercentagesCurrent()
      reads this`totalRules, this`rulesWithSql, this`rulesByCategory,
            this`categoryDistribution, this`sqlCoveragePercentage
    {
      && (totalRules > 0 ==>
            && sqlCoveragePercentage == Percent(rulesWithSql, totalRules)
            && categoryDistribution == Distribution(rulesByCategory, totalRules))
      && (totalRules == 0 ==> categoryDistribution == [])
    }

    /** What holds after construction and after every run that completed. */
    predicate Valid()
      reads this`totalRules, this`rulesByCategory, this`dataQualityDimensions,
            this`rulesWithSql, this`rulesWithoutSql, this`simpleRules, this`complexRules,
            this`crossColumnRules, this`columnCoverage, this`validationTypes,
            this`categoryDistribution, this`sqlCoveragePercentage
    {
      Sane() && Conserved() && PercentagesCurrent()
    }

    constructor ()
      ensures Valid()
      ensures Snapshot() == Reset(InitialDimensions)
      ensures generationTimestamp == None && dataContext == None
      ensures sqlCoveragePercentage == 0.0 && categoryDistribution == []
    {
      generationTimestamp := None;
      totalRules := 0;
      rulesByCategory := [];
      rulesWithSql := 0;
      rulesWithoutSql := 0;
      sqlCoveragePercentage := 0.0;
      categoryDistribution := [];
      simpleRules := 0;
      complexRules := 0;
      crossColumnRules := 0;
      columnCoverage := [];
      validationTypes := [];
      dataQualityDimensions := InitialDimensions;
      dataContext := None;
    }

    /**
     * `_analyze_rule_details`: the SQL counter, then the complexity, then
     * each column, then the validation type. A columns value that is not a
     * string, list or dict makes `len` raise (or, in the cross-column
     * category, the `for` loop, after the complexity counter moved), and an
     * unhashable column or type raises at the dict lookup; `ok` is false
     * then and the counters keep the updates made so far.
     */
    method AnalyzeRuleDetails(rule: Fields, category: string) returns (ok: bool)
      modifies this`rulesWithSql, this`rulesWithoutSql, this`simpleRules, this`complexRules,
               this`crossColumnRules, this`columnCoverage, this`validationTypes
      ensures ok <==> Analyzable(rule)
      ensures ok ==> Counters() == Counted(old(Counters()), category, rule)
      ensures DistinctKeys(old(columnCoverage)) ==> DistinctKeys(columnCoverage)
      ensures DistinctKeys(old(validationTypes)) ==> DistinctKeys(validationTypes)
    {
      AnalyzableInOrder(rule);
      CountSql(rule);
      var value := ColumnsValue(rule);
      if !(value.JStr? || value.JList? || value.JObj?) {
        if category == "cross_column" {
          crossColumnRules := crossColumnRules + 1;
        }
        return false;
      }
      CountComplexity(category, rule);
      ok := CountRuleColumns(rule);
      if !ok {
        return;
      }
      ok := CountValidationType(rule);
      if ok {
        CountedInOrder(old(Counters()), category, rule);
      }
    }

    /** The SQL branch of `_analyze_rule_details`. */
    method CountSql(rule: Fields)
      modifies this`rulesWithSql, this`rulesWithoutSql
      ensures Counters() == SqlCounted(old(Counters()), rule)
    {
      if HasSql(rule) {
        rulesWithSql := rulesWithSql + 1;
      } else {
        rulesWithoutSql := rulesWithoutSql + 1;
      }
    }

    /** The complexity branch of `_analyze_rule_details`, once the columns are a list. */
    method CountComplexity(category: string, rule: Fields)
      modifies this`simpleRules, this`complexRules, this`crossColumnRules
      ensures Counters() == ComplexityCounted(old(Counters()), category, rule)
    {
      if category == "cross_column" {
        crossColumnRules := crossColumnRules + 1;
      } else if |ColumnList(rule)| > 1 {
        complexRules := complexRules + 1;
      } else {
        simpleRules := simpleRules + 1;
      }
    }

    /** The column loop of `_analyze_rule_details`, on `column_coverage`. */
    method CountRuleColumns(rule: Fields) returns (ok: bool)
      modifies this`columnCoverage
      ensures ok <==> AllHashable(ColumnList(rule))
      ensures ok ==> Counters() == ColumnsCounted(old(Counters()), rule)
      ensures DistinctKeys(old(columnCoverage)) ==> DistinctKeys(columnCoverage)
    {
      ghost var done;
      columnCoverage, ok, done := CountColumns(columnCoverage, ColumnList(rule));
    }

    /** The validation type count of `_analyze_rule_details`. */
    method CountValidationType(rule: Fields) returns (ok: bool)
      modifies this`validationTypes
      ensures ok <==> Hashable(ValidationType(rule))
      ensures ok ==> Counters() == TypeCounted(old(Counters()), rule)
      ensures DistinctKeys(old(validationTypes)) ==> DistinctKeys(validationTypes)
    {
      var validationType := ValidationType(rule);
      if !Hashable(validationType) {
        return false;
      }
      validationTypes := Incr(validationTypes, KeyOf(validationType));
      ok := true;
    }

    /**
     * The bookkeeping of `analyze_rules` for a list-valued category:
     * its count, the total, and its dimension entry if it names one.
     */
    method CountCategory(category: string, n: nat)
      modifies this`totalRules, this`rulesByCategory, this`dataQualityDimensions
      ensures totalRules == old(totalRules) + n
      ensures rulesByCategory == Put<string, nat>(old(rulesByCategory), category, n)
      ensures dataQualityDimensions == if category in Keys(old(dataQualityDimensions)) then Put<string, nat>(old(dataQualityDimensions), category, n) else old(dataQualityDimensions)
    {
      rulesByCategory := Put<string, nat>(rulesByCategory, category, n);
      totalRules := totalRules + n;
      if category in Keys(dataQualityDimensions) {
        dataQualityDimensions := Put<string, nat>(dataQualityDimensions, category, n);
      }
    }

    /**
     * The inner loop of `analyze_rules` over the rules of one category:
     * dict rules go to `_analyze_rule_details`, anything else is a simple
     * rule. `ok` is false when a rule raised.
     */
    method CountRules(category: string, rs: seq<Json>) returns (ok: bool)
      modifies this`rulesWithSql, this`rulesWithoutSql, this`simpleRules, this`complexRules,
               this`crossColumnRules, this`columnCoverage, this`validationTypes
      ensures ok <==> FoldEntries(old(Counters()), Tag(category, rs)).Some?
      ensures ok ==> Some(Counters()) == FoldEntries(old(Counters()), Tag(category, rs))
      ensures DistinctKeys(old(columnCoverage)) ==> DistinctKeys(columnCoverage)
      ensures DistinctKeys(old(validationTypes)) ==> DistinctKeys(validationTypes)
    {
      var j := 0;
      while j < |rs|
        invariant 0 <= j <= |rs|
        invariant FoldEntries(old(Counters()), Tag(category, rs[..j])) == Some(Counters())
        invariant DistinctKeys(old(columnCoverage)) ==> DistinctKeys(columnCoverage)
        invariant DistinctKeys(old(validationTypes)) ==> DistinctKeys(validationTypes)
      {
        FoldTagStep(old(Counters()), category, rs, j);
        var good := AnalyzeRule(category, rs[j]);
        if !good {
          FoldTagNone(old(Counters()), category, rs, j + 1);
          return false;
        }
        j := j + 1;
      }
      FoldTagAll(old(Counters()), category, rs);
      ok := true;
    }

    /** One rule of a list-valued category: a dict is analyzed, anything else is simple. */
    method AnalyzeRule(category: string, rule: Json) returns (ok: bool)
      modifies this`rulesWithSql, this`rulesWithoutSql, this`simpleRules, this`complexRules,
               this`crossColumnRules, this`columnCoverage, this`validationTypes
      ensures ok <==> RuleStep(old(Counters()), category, rule).Some?
      ensures ok ==> Some(Counters()) == RuleStep(old(Counters()), category, rule)
      ensures DistinctKeys(old(columnCoverage)) ==> DistinctKeys(columnCoverage)
      ensures DistinctKeys(old(validationTypes)) ==> DistinctKeys(validationTypes)
    {
      if rule.JObj? {
        ok := AnalyzeRuleDetails(rule.fields, category);
      } else {
        simpleRules := simpleRules + 1;
        ok := true;
      }
    }

    /**
     * The body of the category loop of `analyze_rules` for a list-valued
     * category: the bookkeeping, then each rule in order. `ok` is false
     * when a rule raised; the bookkeeping has happened by then.
     */
    method AnalyzeCategory(category: string, rs: seq<Json>) returns (ok: bool)
      modifies this`totalRules, this`rulesByCategory, this`dataQualityDimensions,
               this`rulesWithSql, this`rulesWithoutSql, this`simpleRules, this`complexRules,
               this`crossColumnRules, this`columnCoverage, this`validationTypes
      ensures var h := Header(old(Snapshot()), category, |rs|);
              totalRules == h.total && rulesByCategory == h.byCategory && dataQualityDimensions == h.dims
      ensures ok <==> CategoryStep(old(Snapshot()), category, JList(rs)).Some?
      ensures ok ==> Some(Snapshot()) == CategoryStep(old(Snapshot()), category, JList(rs))
      ensures DistinctKeys(old(columnCoverage)) ==> DistinctKeys(columnCoverage)
      ensures DistinctKeys(old(validationTypes)) ==> DistinctKeys(validationTypes)
    {
      CountCategory(category, |rs|);
      ok := CountRules(category, rs);
    }

    /**
     * `_calculate_percentages`: nothing when there are no rules, otherwise
     * the SQL coverage and a percentage per category, written in order
     * into `category_distribution`.
     */
    method CalculatePercentages()
      modifies this`sqlCoveragePercentage, this`categoryDistribution
      ensures totalRules == 0 ==>
                sqlCoveragePercentage == old(sqlCoveragePercentage) && categoryDistribution == old(categoryDistribution)
      ensures totalRules > 0 ==>
                && sqlCoveragePercentage == Percent(rulesWithSql, totalRules)
                && categoryDistribution == PutAll(old(categoryDistribution), Distribution(rulesByCategory, totalRules))
    {
      var total := totalRules;
      if total == 0 {
        return;
      }
      sqlCoveragePercentage := Percent(rulesWithSql, total);
      categoryDistribution := PutPercentages(categoryDistribution, rulesByCategory, total);
    }

    /** `_add_data_context` with the statistics the data analyzer reports. */
    method AddDataContext(stats: DataAnalysis.BasicStats)
      modifies this`dataContext
      ensures dataContext == Some(ContextOf(stats, totalRules))
    {
      dataContext := Some(ContextOf(stats, totalRules));
    }

    /**
     * `analyze_rules(rules, data_analyzer)`; `now` is the clock reading and
     * `stats` the data analyzer's `get_basic_stats()`, if there is one.
     * `ok` is false when a rule raised. The run starts from a reset that
     * keeps the dimension table, the SQL coverage and the data context.
     */
    method AnalyzeRules(rules: Rules, now: string, stats: Option<DataAnalysis.BasicStats>) returns (ok: bool)
      requires Sane() && DistinctKeys(rules)
      modifies this
      ensures Sane()
      ensures generationTimestamp == Some(now)
      ensures ok <==> Walk(Reset(old(dataQualityDimensions)), rules).Some?
      ensures ok ==> Some(Snapshot()) == Walk(Reset(old(dataQualityDimensions)), rules) && Valid()
      ensures ok && totalRules == 0 ==> sqlCoveragePercentage == old(sqlCoveragePercentage)
      ensures ok ==> dataContext == if stats.Some? then Some(ContextOf(stats.value, totalRules)) else old(dataContext)
      ensures !ok ==> && categoryDistribution == []
                      && sqlCoveragePercentage == old(sqlCoveragePercentage)
                      && dataContext == old(dataContext)
    {
      generationTimestamp := Some(now);
      ResetCounters();
      ok := AnalyzeCategories(rules);
      if !ok {
        return;
      }
      FinishRun(stats);
    }

    /** `_calculate_percentages` on the fresh distribution dict of a run. */
    method RefreshPercentages()
      requires TallySane(Snapshot()) && Conserved() && categoryDistribution == []
      modifies this`sqlCoveragePercentage, this`categoryDistribution
      ensures PercentagesCurrent() && DistinctKeys(categoryDistribution)
      ensures totalRules > 0 ==> 0.0 <= sqlCoveragePercentage <= 100.0
      ensures totalRules == 0 ==> sqlCoveragePercentage == old(sqlCoveragePercentage)
    {
      CalculatePercentages();
      if totalRules > 0 {
        PutAllFresh(Distribution(rulesByCategory, totalRules));
      }
    }

    /** The end of `analyze_rules`, once every category has been counted. */
    method FinishRun(stats: Option<DataAnalysis.BasicStats>)
      requires TallySane(Snapshot()) && Conserved()
      requires categoryDistribution == [] && 0.0 <= sqlCoveragePercentage <= 100.0
      modifies this`sqlCoveragePercentage, this`categoryDistribution, this`dataContext
      ensures Valid()
      ensures totalRules == 0 ==> sqlCoveragePercentage == old(sqlCoveragePercentage)
      ensures dataContext == if stats.Some? then Some(ContextOf(stats.value, totalRules)) else old(dataContext)
    {
      RefreshPercentages();
      if stats.Some? {
        AddDataContext(stats.value);
      }
    }

    /**
     * The category loop of `analyze_rules`, from the reset state. When a
     * rule raises, `ok` is false and the state still satisfies the dict
     * invariants.
     */
    method AnalyzeCategories(rules: Rules) returns (ok: bool)
      requires DistinctKeys(rules)
      requires Snapshot() == Reset(dataQualityDimensions)
      requires DistinctKeys(dataQualityDimensions) && Keys(dataQualityDimensions) == Dimensions
      modifies this`totalRules, this`rulesByCategory, this`dataQualityDimensions,
               this`rulesWithSql, this`rulesWithoutSql, this`simpleRules, this`complexRules,
               this`crossColumnRules, this`columnCoverage, this`validationTypes
      ensures TallySane(Snapshot())
      ensures ok <==> Walk(old(Snapshot()), rules).Some?
      ensures ok ==> Some(Snapshot()) == Walk(old(Snapshot()), rules) && Conserved()
    {
      ghost var d0 := dataQualityDimensions;
      var i := 0;
      while i < |rules|
        invariant 0 <= i <= |rules|
        invariant Walk(Reset(d0), rules[..i]) == Some(Snapshot())
      {
        var good := AnalyzeEntry(d0, rules, i);
        if !good {
          return false;
        }
        i := i + 1;
      }
      assert rules[..|rules|] == rules;
      RunSane(d0, rules);
      ok := true;
    }

    /** One pass of the category loop of `analyze_rules`. */
    method AnalyzeEntry(ghost d0: seq<(string, nat)>, rules: Rules, i: nat) returns (ok: bool)
      requires DistinctKeys(d0) && Keys(d0) == Dimensions && DistinctKeys(rules) && i < |rules|
      requires Walk(Reset(d0), rules[..i]) == Some(Snapshot())
      modifies this`totalRules, this`rulesByCategory, this`dataQualityDimensions,
               this`rulesWithSql, this`rulesWithoutSql, this`simpleRules, this`complexRules,
               this`crossColumnRules, this`columnCoverage, this`validationTypes
      ensures ok ==> Walk(Reset(d0), rules[..i + 1]) == Some(Snapshot())
      ensures !ok ==> Walk(Reset(d0), rules) == None && TallySane(Snapshot())
    {
      WalkStep(Reset(d0), rules, i);
      WalkSane(d0, rules, i);
      var (category, value) := rules[i];
      ok := true;
      if value.JList? {
        ghost var before := Snapshot();
        ok := AnalyzeCategory(category, value.items);
        if !ok {
          WalkNonePrefix(Reset(d0), rules, i + 1);
          HeaderSane(before, category, |value.items|);
        }
      }
    }

    /** The reset at the start of `analyze_rules`. */
    method ResetCounters()
      modifies this`totalRules, this`rulesWithSql, this`rulesWithoutSql, this`rulesByCategory,
               this`categoryDistribution, this`simpleRules, this`complexRules, this`crossColumnRules,
               this`columnCoverage, this`validationTypes
      ensures totalRules == 0 && rulesByCategory == [] && categoryDistribution == []
      ensures rulesWithSql == 0 && rulesWithoutSql == 0
      ensures simpleRules == 0 && complexRules == 0 && crossColumnRules == 0
      ensures columnCoverage == [] && validationTypes == []
    {
      totalRules := 0;
      rulesWithSql := 0;
      rulesWithoutSql := 0;
      rulesByCategory := [];
      categoryDistribution := [];
      simpleRules := 0;
      complexRules := 0;
      crossColumnRules := 0;
      columnCoverage := [];
      validationTypes := [];
    }

    /** `get_summary_metrics`. */
    function GetSummaryMetrics(): (s: Summary)
      reads this
      ensures s.totalRules == totalRules && s.sqlCoverage == sqlCoveragePercentage
      ensures s.topCategory == TopKey(rulesByCategory, "N/A")
      ensures s.mostCoveredColumn == TopKey(columnCoverage, HStr("N/A"))
      ensures s.complexityRatio == Ratio(complexRules, simpleRules)
    {
      Summary(totalRules, sqlCoveragePercentage,
              TopKey(rulesByCategory, "N/A"), TopKey(columnCoverage, HStr("N/A")),
              Ratio(complexRules, simpleRules))
    }

    /**
     * `get_category_breakdown`: per category, in order, its display name,
     * its count and its percentage (0 when it has none).
     */
    method GetCategoryBreakdown() returns (categories: seq<string>, counts: seq<nat>, percentages: seq<real>)
      ensures |categories| == |counts| == |percentages| == |rulesByCategory|
      ensures forall i :: 0 <= i < |rulesByCategory| ==>
                && categories[i] == Title(ReplaceChar(rulesByCategory[i].0, '_', ' '))
                && counts[i] == rulesByCategory[i].1
                && percentages[i] == Get(categoryDistribution, rulesByCategory[i].0, 0.0)
      ensures Valid() && totalRules > 0 ==>
                forall i :: 0 <= i < |rulesByCategory| ==> percentages[i] == Percent(counts[i], totalRules)
      ensures Valid() && totalRules > 0 ==> RealSum(percentages) == 100.0
    {
      categories, counts, percentages := [], [], [];
      var i := 0;
      while i < |rulesByCategory|
        invariant 0 <= i <= |rulesByCategory|
        invariant |categories| == |counts| == |percentages| == i
        invariant forall j :: 0 <= j < i ==>
                    && categories[j] == Title(ReplaceChar(rulesByCategory[j].0, '_', ' '))
                    && counts[j] == rulesByCategory[j].1
                    && percentages[j] == Get(categoryDistribution, rulesByCategory[j].0, 0.0)
      {
        var (category, count) := rulesByCategory[i];
        categories := categories + [Title(ReplaceChar(category, '_', ' '))];
        counts := counts + [count];
        percentages := percentages + [Get(categoryDistribution, category, 0.0)];
        i := i + 1;
      }
      if Valid() && totalRules > 0 {
        var ds := Distribution(rulesByCategory, totalRules);
        forall i | 0 <= i < |rulesByCategory|
          ensures percentages[i] == Percent(counts[i], totalRules)
        {
          LookupAt(ds, i);
        }
        assert percentages == Values(ds);
        DistributionTotal(rulesByCategory, totalRules);
      }
    }

    /** `get_validation_type_breakdown`: the types and their counts, in order. */
    function GetValidationTypeBreakdown(): (r: (seq<HashKey>, seq<nat>))
      reads this
      ensures |r.0| == |r.1| == |validationTypes|
      ensures DistinctKeys(validationTypes) ==>
                forall i :: 0 <= i < |r.0| ==> Lookup(validationTypes, r.0[i]) == Some(r.1[i])
      ensures DistinctKeys(validationTypes) ==> forall i, j :: 0 <= i < j < |r.0| ==> r.0[i] != r.0[j]
    {
      var types := Keys(validationTypes);
      var counts := Values(validationTypes);
      assert forall i :: 0 <= i < |types| ==> (types[i], counts[i]) == validationTypes[i];
      LookupAll(validationTypes);
      (types, counts)
    }

    /**
     * `get_column_coverage_analysis`: the columns by decreasing count; the
     * sort is stable, so columns with equal counts keep their order.
     */
    function GetColumnCoverageAnalysis(): (r: Coverage)
      reads this
      ensures |r.columns| == |r.coverage| == |columnCoverage|
      ensures forall i, j :: 0 <= i < j < |r.coverage| ==> r.coverage[i] >= r.coverage[j]
      ensures multiset(Zip(r.columns, r.coverage)) == multiset(columnCoverage)
      ensures forall c :: WithCount(Zip(r.columns, r.coverage), c) == WithCount(columnCoverage, c)
    {
      if columnCoverage == [] then Coverage([], [])
      else
        var sorted := SortDesc(columnCoverage);
        SortDescSorted(columnCoverage);
        SortDescPermutation(columnCoverage);
        assert |sorted| == |columnCoverage| by {
          assert |multiset(sorted)| == |multiset(columnCoverage)|;
        }
        assert Zip(Keys(sorted), Values(sorted)) == sorted;
        SortDescAllStable(columnCoverage);
        Coverage(Keys(sorted), Values(sorted))
    }

    /**
     * `get_quality_score`, before rounding: 0 without rules, otherwise a
     * weighted mix of SQL coverage, category diversity and the balance of
     * simple against complex rules, between 5 and 100.
     */
    function GetQualityScore(): (q: real)
      reads this
      ensures totalRules == 0 ==> q == 0.0
      ensures Sane() ==> 0.0 <= q <= 100.0
      ensures Sane() && totalRules > 0 ==> q >= 5.0
    {
      if totalRules == 0 then 0.0
      else
        var sqlScore := sqlCoveragePercentage / 100.0;
        var diversity := if |rulesByCategory| as real / 6.0 < 1.0 then |rulesByCategory| as real / 6.0 else 1.0;
        var both := simpleRules + complexRules;
        var balance := if both > 0 then 1.0 - Abs(0.5 - simpleRules as real / both as real) * 2.0 else 0.5;
        assert both > 0 ==> 0.0 <= simpleRules as real / both as real <= 1.0;
        assert Sane() ==> |rulesByCategory| >= 1;
        (sqlScore * 0.4 + diversity * 0.3 + balance * 0.3) * 100.0
    }
  }

  function Abs(x: real): real {
    if x < 0.0 then -x else x
  }
}
