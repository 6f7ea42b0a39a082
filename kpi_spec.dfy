/**
 * What one run of `KPIAnalyzer.analyze_rules` computes, as values: the
 * per-rule classification of utils/kpi_analyzer.py, the counters the run
 * accumulates (`Walk`, a fold in the source's category-then-rule order),
 * and independent counts over the flattened rule list that the
 * conservation laws are stated with.
 */
module KpiSpec {
  import opened Wrappers
  import opened Dicts
  import opened Json

  /** A rule set: category name to its value, normally a list of rules. */
  type Rules = seq<(string, Json)>

  /** A dict rule's fields. */
  type Fields = seq<(string, Json)>

  const SqlSentinel: string := "No SQL code available"

  const Dimensions: seq<string> :=
    ["accuracy", "completeness", "uniqueness", "consistency", "timeliness", "validity"]

  /** `rule.get('pseudo_sql') and rule.get('pseudo_sql') != 'No SQL code available'`. */
  predicate HasSql(rule: Fields) {
    var sql := Get(rule, "pseudo_sql", JNull);
    Truthy(sql) && sql != JStr(SqlSentinel)
  }

  /** `rule.get('columns', rule.get('columns_involved', []))`. */
  function ColumnsValue(rule: Fields): Json {
    Get(rule, "columns", Get(rule, "columns_involved", JList([])))
  }

  /**
   * The columns the analysis iterates over: a string is one column, a
   * dict contributes its keys, and any other non-list value makes `len` or
   * the `for` loop raise (None).
   */
  function RuleColumns(rule: Fields): Option<seq<Json>> {
    match ColumnsValue(rule)
    case JStr(s) => Some([JStr(s)])
    case JList(xs) => Some(xs)
    case JObj(fs) => Some(seq(|fs|, i requires 0 <= i < |fs| => JStr(fs[i].0)))
    case _ => None
  }

  function ColumnList(rule: Fields): seq<Json> {
    RuleColumns(rule).GetOr([])
  }

  /** `rule.get('type', rule.get('validation_type', 'unknown'))`. */
  function ValidationType(rule: Fields): Json {
    Get(rule, "type", Get(rule, "validation_type", JStr("unknown")))
  }

  predicate AllHashable(cs: seq<Json>) {
    forall i :: 0 <= i < |cs| ==> Hashable(cs[i])
  }

  /**
   * A dict rule `_analyze_rule_details` gets through without a TypeError:
   * its columns are a string, list or dict of hashable columns and its
   * validation type is hashable.
   */
  predicate Analyzable(rule: Fields) {
    RuleColumns(rule).Some? && AllHashable(RuleColumns(rule).value) && Hashable(ValidationType(rule))
  }

  /** `Analyzable`, in the order `_analyze_rule_details` meets its three conditions. */
  lemma AnalyzableInOrder(rule: Fields)
    ensures RuleColumns(rule).Some? <==> (ColumnsValue(rule).JStr? || ColumnsValue(rule).JList? || ColumnsValue(rule).JObj?)
    ensures Analyzable(rule) <==>
              && (ColumnsValue(rule).JStr? || ColumnsValue(rule).JList? || ColumnsValue(rule).JObj?)
              && AllHashable(ColumnList(rule))
              && Hashable(ValidationType(rule))
  {
  }

  datatype Complexity = Simple | Complex | CrossColumn

  /**
   * A dict rule of the "cross_column" category is cross-column whatever
   * its columns, other dict rules are complex with more than one column,
   * and everything else (string rules included) is simple.
   */
  function Classify(category: string, rule: Json): Complexity {
    if !rule.JObj? then Simple
    else if category == "cross_column" then CrossColumn
    else if |ColumnList(rule.fields)| > 1 then Complex
    else Simple
  }

  /** The counters `_analyze_rule_details` and the string-rule branch update. */
  datatype RuleTally = RuleTally(withSql: nat, withoutSql: nat,
                                 simple: nat, complex: nat, cross: nat,
                                 coverage: seq<(HashKey, nat)>, types: seq<(HashKey, nat)>)

  /** The state `analyze_rules` resets and then accumulates. */
  datatype Tally = Tally(total: nat, byCategory: seq<(string, nat)>, dims: seq<(string, nat)>,
                         counters: RuleTally)

  /** The reset at the start of a run; the dimension table is not reset. */
  function Reset(dims: seq<(string, nat)>): Tally {
    Tally(0, [], dims, RuleTally(0, 0, 0, 0, 0, [], []))
  }

  /** Column coverage after counting each of `cs` once, in order. */
  function IncrAll(d: seq<(HashKey, nat)>, cs: seq<HashKey>): (r: seq<(HashKey, nat)>)
    ensures DistinctKeys(d) ==> DistinctKeys(r)
    decreases cs
  {
    if cs == [] then d else IncrAll(Incr(d, cs[0]), cs[1..])
  }

  /** The SQL counters after one dict rule. */
  function SqlCounted(c: RuleTally, rule: Fields): RuleTally {
    if HasSql(rule) then c.(withSql := c.withSql + 1) else c.(withoutSql := c.withoutSql + 1)
  }

  /** The complexity counters after one dict rule. */
  function ComplexityCounted(c: RuleTally, category: string, rule: Fields): RuleTally {
    match Classify(category, JObj(rule))
    case Simple => c.(simple := c.simple + 1)
    case Complex => c.(complex := c.complex + 1)
    case CrossColumn => c.(cross := c.cross + 1)
  }

  /** The column coverage after one dict rule. */
  function ColumnsCounted(c: RuleTally, rule: Fields): RuleTally {
    c.(coverage := IncrAll(c.coverage, KeysOf(ColumnList(rule))))
  }

  /** The validation type counts after one dict rule. */
  function TypeCounted(c: RuleTally, rule: Fields): RuleTally {
    c.(types := Incr(c.types, KeyOf(ValidationType(rule))))
  }

  /** One more column at the back of `IncrAll`. */
  lemma {:induction false} IncrAllSnoc(d: seq<(HashKey, nat)>, ks: seq<HashKey>, k: HashKey)
    ensures IncrAll(d, ks + [k]) == Incr(IncrAll(d, ks), k)
    decreases ks
  {
    if ks == [] {
      assert ([] + [k])[1..] == [];
    } else {
      assert (ks + [k])[0] == ks[0] && (ks + [k])[1..] == ks[1..] + [k];
      IncrAllSnoc(Incr(d, ks[0]), ks[1..], k);
    }
  }

  /** A prefix of the columns, one longer. */
  lemma ColumnsSnoc(columns: seq<Json>, i: nat)
    requires i < |columns|
    ensures AllHashable(columns[..i]) && Hashable(columns[i]) ==> AllHashable(columns[..i + 1])
    ensures KeysOf(columns[..i + 1]) == KeysOf(columns[..i]) + [KeyOf(columns[i])]
  {
    assert columns[..i + 1] == columns[..i] + [columns[i]];
  }

  /** The effect of one analyzable dict rule on the counters. */
  function Counted(c: RuleTally, category: string, rule: Fields): RuleTally {
    var kind := Classify(category, JObj(rule));
    RuleTally(
      c.withSql + (if HasSql(rule) then 1 else 0),
      c.withoutSql + (if HasSql(rule) then 0 else 1),
      c.simple + (if kind == Simple then 1 else 0),
      c.complex + (if kind == Complex then 1 else 0),
      c.cross + (if kind == CrossColumn then 1 else 0),
      IncrAll(c.coverage, KeysOf(ColumnList(rule))),
      Incr(c.types, KeyOf(ValidationType(rule))))
  }

  /** The SQL counters of `Counted` and of the step-by-step updates agree. */
  lemma CountedSql(c: RuleTally, category: string, rule: Fields, b: RuleTally)
    requires b == TypeCounted(ColumnsCounted(ComplexityCounted(SqlCounted(c, rule), category, rule), rule), rule)
    ensures var a := Counted(c, category, rule);
            a.withSql == b.withSql && a.withoutSql == b.withoutSql
  {
  }

  /** So do the complexity counters. */
  lemma CountedKind(c: RuleTally, category: string, rule: Fields, b: RuleTally)
    requires b == TypeCounted(ColumnsCounted(ComplexityCounted(SqlCounted(c, rule), category, rule), rule), rule)
    ensures var a := Counted(c, category, rule);
            a.simple == b.simple && a.complex == b.complex && a.cross == b.cross
  {
  }

  /** So do the column coverage and the validation types. */
  lemma CountedCollections(c: RuleTally, category: string, rule: Fields, b: RuleTally)
    requires b == TypeCounted(ColumnsCounted(ComplexityCounted(SqlCounted(c, rule), category, rule), rule), rule)
    ensures var a := Counted(c, category, rule);
            a.coverage == b.coverage && a.types == b.types
  {
  }

  /** `Counted` is the four updates of `_analyze_rule_details`, in the source's order. */
  lemma CountedInOrder(c: RuleTally, category: string, rule: Fields)
    ensures Counted(c, category, rule) ==
            TypeCounted(ColumnsCounted(ComplexityCounted(SqlCounted(c, rule), category, rule), rule), rule)
  {
    var b := TypeCounted(ColumnsCounted(ComplexityCounted(SqlCounted(c, rule), category, rule), rule), rule);
    CountedSql(c, category, rule, b);
    CountedKind(c, category, rule, b);
    CountedCollections(c, category, rule, b);
  }

  /** One rule of a list-valued category; `None` when the source raises. */
  function RuleStep(c: RuleTally, category: string, rule: Json): Option<RuleTally> {
    if !rule.JObj? then Some(c.(simple := c.simple + 1))
    else if !Analyzable(rule.fields) then None
    else Some(Counted(c, category, rule.fields))
  }

  /** The rules of one category, each paired with the category name. */
  function Tag(category: string, rs: seq<Json>): (es: seq<(string, Json)>)
    ensures |es| == |rs|
    ensures forall i :: 0 <= i < |rs| ==> es[i] == (category, rs[i])
  {
    seq(|rs|, i requires 0 <= i < |rs| => (category, rs[i]))
  }

  /** The rule steps for a sequence of (category, rule) entries, in order. */
  function FoldEntries(c: RuleTally, es: seq<(string, Json)>): Option<RuleTally> {
    if es == [] then Some(c)
    else
      match FoldEntries(c, es[..|es| - 1])
      case None => None
      case Some(c') => RuleStep(c', es[|es| - 1].0, es[|es| - 1].1)
  }

  /** The bookkeeping for a list-valued category before its rules are visited. */
  function Header(t: Tally, category: string, n: nat): Tally {
    t.(total := t.total + n,
       byCategory := Put<string, nat>(t.byCategory, category, n),
       dims := if category in Keys(t.dims) then Put<string, nat>(t.dims, category, n) else t.dims)
  }

  /** One category: non-list values are skipped. */
  function CategoryStep(t: Tally, category: string, value: Json): Option<Tally> {
    if !value.JList? then Some(t)
    else
      var h := Header(t, category, |value.items|);
      match FoldEntries(h.counters, Tag(category, value.items))
      case None => None
      case Some(c) => Some(h.(counters := c))
  }

  /** The loop of `analyze_rules` over the categories, in order. */
  function Walk(t: Tally, rules: Rules): Option<Tally> {
    if rules == [] then Some(t)
    else
      match Walk(t, rules[..|rules| - 1])
      case None => None
      case Some(t') => CategoryStep(t', rules[|rules| - 1].0, rules[|rules| - 1].1)
  }

  // ---------------------------------------------------------------------
  // Reference definitions, independent of the order of the updates.

  /** Every rule of every list-valued category, as (category, rule). */
  function Entries(rules: Rules): seq<(string, Json)> {
    if rules == [] then []
    else
      var last := rules[|rules| - 1];
      Entries(rules[..|rules| - 1]) + (if last.1.JList? then Tag(last.0, last.1.items) else [])
  }

  /** The sum of the lengths of the list-valued categories. */
  function ListTotal(rules: Rules): nat {
    if rules == [] then 0
    else
      var last := rules[|rules| - 1];
      ListTotal(rules[..|rules| - 1]) + (if last.1.JList? then |last.1.items| else 0)
  }

  /** The list-valued categories with their lengths, in order. */
  function ListCategories(rules: Rules): seq<(string, nat)> {
    if rules == [] then []
    else
      var last := rules[|rules| - 1];
      ListCategories(rules[..|rules| - 1]) + (if last.1.JList? then [(last.0, |last.1.items|)] else [])
  }

  function CountIf(es: seq<(string, Json)>, p: ((string, Json)) -> bool): nat {
    if es == [] then 0 else CountIf(es[..|es| - 1], p) + (if p(es[|es| - 1]) then 1 else 0)
  }

  predicate IsDict(e: (string, Json)) { e.1.JObj? }
  predicate WithSql(e: (string, Json)) { e.1.JObj? && HasSql(e.1.fields) }
  predicate WithoutSql(e: (string, Json)) { e.1.JObj? && !HasSql(e.1.fields) }
  predicate IsSimple(e: (string, Json)) { Classify(e.0, e.1) == Simple }
  predicate IsComplex(e: (string, Json)) { Classify(e.0, e.1) == Complex }
  predicate IsCross(e: (string, Json)) { Classify(e.0, e.1) == CrossColumn }

  /** Every dict rule among the entries can be analyzed. */
  predicate AllAnalyzable(es: seq<(string, Json)>) {
    forall i :: 0 <= i < |es| && es[i].1.JObj? ==> Analyzable(es[i].1.fields)
  }

  /** The columns of all dict rules, concatenated in order. */
  function AllColumns(es: seq<(string, Json)>): seq<HashKey> {
    if es == [] then []
    else
      var e := es[|es| - 1];
      AllColumns(es[..|es| - 1]) + (if e.1.JObj? then KeysOf(ColumnList(e.1.fields)) else [])
  }

  function Occurrences(x: HashKey, xs: seq<HashKey>): nat {
    if xs == [] then 0 else Occurrences(x, xs[..|xs| - 1]) + (if xs[|xs| - 1] == x then 1 else 0)
  }

  /** The number of dict rules whose validation type is `v`. */
  function CountType(es: seq<(string, Json)>, v: HashKey): nat {
    if es == [] then 0
    else
      var e := es[|es| - 1];
      CountType(es[..|es| - 1], v) + (if e.1.JObj? && KeyOf(ValidationType(e.1.fields)) == v then 1 else 0)
  }
}
