/**
 * The two pieces of logic in main.py: the "SQL code only" download built
 * from the merged rule set (lines 386-406), and the field fallbacks the
 * rule display uses (lines 333-369).
 */
module SqlExport {
  import opened Wrappers
  import opened Dicts
  import opened Json
  import opened Text
  import opened KpiSpec
  import KpiLaws

  /** The only exception the export can raise: `', '.join` of a list holding a non-string. */
  datatype ExportError = TypeError

  /** The download: its text, and `sql_found`, which decides whether it is offered. */
  datatype Download = Download(content: string, found: bool)

  /** An f-string field `{x}` of a decoded value: a string is itself, anything else is `str(x)`. */
  function Show(j: Json, render: Json -> string): string {
    if j.JStr? then j.s else render(j)
  }

  /** The two header comment lines and the blank line of lines 386-387. */
  function Preamble(timestamp: string): string {
    "-- Data Quality Rules - Pseudo SQL Code\n" + "-- Generated on: " + timestamp + "\n\n"
  }

  /** A rule goes into the export when it is a dict with a `pseudo_sql` key, whatever its value. */
  predicate Contributes(rule: Json) {
    rule.JObj? && "pseudo_sql" in Keys(rule.fields)
  }

  /**
   * `', '.join(columns) if isinstance(columns, list) else columns`: a list is
   * joined and must hold only strings; any other value is written as it is.
   */
  function ColumnsText(columns: Json, render: Json -> string): (r: Result<string, ExportError>)
    ensures r.Failure? <==> columns.JList? && !AllStrings(columns.items)
    ensures columns.JList? && AllStrings(columns.items) ==> r == Success(Join(", ", Strings(columns.items)))
  {
    if !columns.JList? then Success(Show(columns, render))
    else if AllStrings(columns.items) then Success(Join(", ", Strings(columns.items)))
    else Failure(TypeError)
  }

  function Line(s: string): string {
    s + "\n"
  }

  /** Lines 395-398 for one rule of `category`. */
  function Block(category: string, rule: Fields, render: Json -> string): Result<string, ExportError> {
    var columns :- ColumnsText(ColumnsValue(rule), render);
    Success(Line("-- " + Upper(category) + ": " + Show(Get(rule, "rule", JStr("")), render))
          + Line("-- Columns: " + columns)
          + Line(Show(Get(rule, "pseudo_sql", JStr("")), render))
          + Line(""))
  }

  /** The blocks of the contributing entries of `es`, in order; the first failing join raises. */
  function Blocks(es: seq<(string, Json)>, render: Json -> string): Result<string, ExportError> {
    if es == [] then Success("")
    else
      var done :- Blocks(es[..|es| - 1], render);
      var last := es[|es| - 1];
      if !Contributes(last.1) then Success(done)
      else
        var b :- Block(last.0, last.1.fields, render);
        Success(done + b)
  }

  /** The contributing entries of `es`, in order. */
  function Exported(es: seq<(string, Json)>): seq<(string, Fields)> {
    if es == [] then []
    else
      var last := es[|es| - 1];
      Exported(es[..|es| - 1]) + (if Contributes(last.1) then [(last.0, last.1.fields)] else [])
  }

  /**
   * What lines 386-398 produce from the rule set: the preamble, then one
   * block per contributing rule of the list-valued categories, in
   * category-then-rule order; `found` when there was at least one.
   */
  function Export(rules: Rules, timestamp: string, render: Json -> string): Result<Download, ExportError> {
    var body :- Blocks(Entries(rules), render);
    Success(Download(Preamble(timestamp) + body, Exported(Entries(rules)) != []))
  }

  // ---------------------------------------------------------------------
  // What the export promises.

  /**
   * A block is four lines: a heading, the columns, the SQL and a blank line;
   * it holds no other line break unless the category, the rule text, the
   * columns or the SQL brings one.
   */
  lemma BlockShape(category: string, rule: Fields, render: Json -> string)
    requires Block(category, rule, render).Success?
    ensures var b := Block(category, rule, render).value;
            && b[..3] == "-- "
            && b[|b| - 2..] == "\n\n"
            && (Occurrences('\n', b) == 4 <==>
                  && '\n' !in Upper(category)
                  && '\n' !in Show(Get(rule, "rule", JStr("")), render)
                  && '\n' !in ColumnsText(ColumnsValue(rule), render).value
                  && '\n' !in Show(Get(rule, "pseudo_sql", JStr("")), render))
  {
    var upper := Upper(category);
    var text := Show(Get(rule, "rule", JStr("")), render);
    var columns := ColumnsText(ColumnsValue(rule), render).value;
    var sql := Show(Get(rule, "pseudo_sql", JStr("")), render);
    BlockLines(category, rule, render);
    HeadingBreaks(upper, text);
    ColumnsBreaks(columns);
    FourLines("-- " + upper + ": " + text, "-- Columns: " + columns, sql);
    OccurrencesNone('\n', upper);
    OccurrencesNone('\n', text);
    OccurrencesNone('\n', columns);
    OccurrencesNone('\n', sql);
  }

  lemma BlockLines(category: string, rule: Fields, render: Json -> string)
    requires Block(category, rule, render).Success?
    ensures Block(category, rule, render).value ==
            Line("-- " + Upper(category) + ": " + Show(Get(rule, "rule", JStr("")), render))
            + Line("-- Columns: " + ColumnsText(ColumnsValue(rule), render).value)
            + Line(Show(Get(rule, "pseudo_sql", JStr("")), render))
            + Line("")
  {
  }

  lemma HeadingBreaks(upper: string, text: string)
    ensures Occurrences('\n', "-- " + upper + ": " + text) == Occurrences('\n', upper) + Occurrences('\n', text)
  {
    OccurrencesAppend('\n', "-- " + upper + ": ", text);
    OccurrencesAppend('\n', "-- " + upper, ": ");
    OccurrencesAppend('\n', "-- ", upper);
  }

  lemma ColumnsBreaks(columns: string)
    ensures Occurrences('\n', "-- Columns: " + columns) == Occurrences('\n', columns)
  {
    OccurrencesAppend('\n', "-- Columns: ", columns);
    OccurrencesNone('\n', "-- Columns: ");
  }

  lemma FourLines(a: string, b: string, c: string)
    ensures var t := Line(a) + Line(b) + Line(c) + Line("");
            && t[|t| - 2..] == "\n\n"
            && Occurrences('\n', t) == 4 + Occurrences('\n', a) + Occurrences('\n', b) + Occurrences('\n', c)
  {
    OccurrencesLine(a);
    OccurrencesLine(b);
    OccurrencesLine(c);
    OccurrencesLine("");
    OccurrencesAppend('\n', Line(a), Line(b));
    OccurrencesAppend('\n', Line(a) + Line(b), Line(c));
    OccurrencesAppend('\n', Line(a) + Line(b) + Line(c), Line(""));
    var t := Line(a) + Line(b) + Line(c) + Line("");
    assert t[|t| - 2..] == Line(c)[|Line(c)| - 1..] + "\n";
  }

  /** How often `c` appears in `s`. */
  function Occurrences(c: char, s: string): nat {
    if s == [] then 0 else Occurrences(c, s[..|s| - 1]) + (if s[|s| - 1] == c then 1 else 0)
  }

  lemma {:induction false} OccurrencesAppend(c: char, a: string, b: string)
    ensures Occurrences(c, a + b) == Occurrences(c, a) + Occurrences(c, b)
  {
    if b != [] {
      assert (a + b)[..|a + b| - 1] == a + b[..|b| - 1];
      OccurrencesAppend(c, a, b[..|b| - 1]);
    } else {
      assert a + b == a;
    }
  }

  lemma {:induction false} OccurrencesNone(c: char, s: string)
    ensures Occurrences(c, s) == 0 <==> c !in s
  {
    if s != [] {
      OccurrencesNone(c, s[..|s| - 1]);
      assert s == s[..|s| - 1] + [s[|s| - 1]];
    }
  }

  lemma OccurrencesLine(s: string)
    ensures Occurrences('\n', Line(s)) == Occurrences('\n', s) + 1
  {
    assert Line(s)[..|Line(s)| - 1] == s;
  }

  /** A contributing rule whose columns are a list holding a non-string. */
  predicate Unjoinable(e: (string, Json), render: Json -> string) {
    Contributes(e.1) && ColumnsText(ColumnsValue(e.1.fields), render).Failure?
  }

  /** The last entry makes the export raise exactly when it is unjoinable. */
  lemma BlocksLast(es: seq<(string, Json)>, render: Json -> string)
    requires es != []
    ensures Blocks(es, render).Failure? <==>
              Blocks(es[..|es| - 1], render).Failure? || Unjoinable(es[|es| - 1], render)
  {
  }

  /** A failing export has an unjoinable rule; `k` is one. */
  lemma {:induction false} UnjoinableWitness(es: seq<(string, Json)>, render: Json -> string) returns (k: nat)
    requires Blocks(es, render).Failure?
    ensures k < |es| && Unjoinable(es[k], render)
  {
    var n := |es| - 1;
    BlocksLast(es, render);
    if Unjoinable(es[n], render) {
      k := n;
    } else {
      k := UnjoinableWitness(es[..n], render);
      assert es[..n][k] == es[k];
    }
  }

  /** An unjoinable rule anywhere makes the export raise. */
  lemma UnjoinableFails(es: seq<(string, Json)>, render: Json -> string, k: nat)
    requires k < |es| && Unjoinable(es[k], render)
    ensures Blocks(es, render).Failure?
  {
    var upto := es[..k + 1];
    assert upto[..k] == es[..k] && upto[k] == es[k];
    BlocksLast(upto, render);
    BlocksFailPrefix(upto, es, render);
  }

  /** The export raises exactly when some contributing rule has a list of columns holding a non-string. */
  lemma BlocksFail(es: seq<(string, Json)>, render: Json -> string)
    ensures Blocks(es, render).Failure? <==> exists k :: 0 <= k < |es| && Unjoinable(es[k], render)
  {
    if Blocks(es, render).Failure? {
      var k := UnjoinableWitness(es, render);
    }
    if exists k :: 0 <= k < |es| && Unjoinable(es[k], render) {
      var k :| 0 <= k < |es| && Unjoinable(es[k], render);
      UnjoinableFails(es, render, k);
    }
  }

  lemma ExportedLast(es: seq<(string, Json)>)
    requires es != []
    ensures Exported(es) != [] <==> Exported(es[..|es| - 1]) != [] || Contributes(es[|es| - 1].1)
  {
  }

  /** An export with a block has a contributing rule; `k` is one. */
  lemma {:induction false} ContributorWitness(es: seq<(string, Json)>) returns (k: nat)
    requires Exported(es) != []
    ensures k < |es| && Contributes(es[k].1)
  {
    var n := |es| - 1;
    ExportedLast(es);
    if Contributes(es[n].1) {
      k := n;
    } else {
      k := ContributorWitness(es[..n]);
      assert es[..n][k] == es[k];
    }
  }

  /** A contributing rule anywhere gives the export a block. */
  lemma ContributorExported(es: seq<(string, Json)>, k: nat)
    requires k < |es| && Contributes(es[k].1)
    ensures Exported(es) != []
  {
    var upto := es[..k + 1];
    assert upto[..k] == es[..k] && upto[k] == es[k];
    ExportedLast(upto);
    ExportedPrefix(upto, es);
  }

  /** A longer run of entries exports at least the blocks of a shorter one. */
  lemma {:induction false} ExportedPrefix(xs: seq<(string, Json)>, ys: seq<(string, Json)>)
    requires xs <= ys
    ensures Exported(xs) <= Exported(ys)
    decreases |ys|
  {
    if |ys| > |xs| {
      assert xs <= ys[..|ys| - 1];
      ExportedPrefix(xs, ys[..|ys| - 1]);
    } else {
      assert xs == ys;
    }
  }

  /** `sql_found` holds exactly when some rule contributed. */
  lemma ExportedNonEmpty(es: seq<(string, Json)>)
    ensures Exported(es) != [] <==> exists k :: 0 <= k < |es| && Contributes(es[k].1)
  {
    if Exported(es) != [] {
      var k := ContributorWitness(es);
    }
    if exists k :: 0 <= k < |es| && Contributes(es[k].1) {
      var k :| 0 <= k < |es| && Contributes(es[k].1);
      ContributorExported(es, k);
    }
  }

  /**
   * The export and the KPI counts: every rule the analysis counts as having
   * SQL is exported, and every exported rule is a dict rule.
   */
  lemma {:induction false} ExportedBetween(es: seq<(string, Json)>)
    ensures CountIf(es, WithSql) <= |Exported(es)| <= CountIf(es, IsDict) <= |es|
  {
    if es != [] {
      ExportedBetween(es[..|es| - 1]);
      var last := es[|es| - 1];
      assert last.1.JObj? && HasSql(last.1.fields) ==> "pseudo_sql" in Keys(last.1.fields);
    }
  }

  /**
   * The download from a successful export: it begins with the preamble, it
   * is offered exactly when some rule of a list-valued category is a dict
   * with a `pseudo_sql` key, and it holds no more blocks than `total_rules`
   * counts rules and no fewer than it counts rules with SQL.
   */
  lemma ExportMeaning(rules: Rules, timestamp: string, render: Json -> string)
    requires Export(rules, timestamp, render).Success?
    ensures var d := Export(rules, timestamp, render).value;
            var es := Entries(rules);
            && Preamble(timestamp) <= d.content
            && (d.found <==> exists k :: 0 <= k < |es| && Contributes(es[k].1))
            && CountIf(es, WithSql) <= |Exported(es)| <= ListTotal(rules)
  {
    ExportedNonEmpty(Entries(rules));
    ExportedBetween(Entries(rules));
    KpiLaws.EntriesLength(rules);
  }

  // ---------------------------------------------------------------------
  // The loops of lines 389-398.

  lemma OnlyTypeError(e: ExportError)
    ensures e == TypeError
  {
  }

  lemma AppendAssoc(a: string, b: string, c: string)
    ensures (a + b) + c == a + (b + c)
  {
  }

  /** A rule that does not contribute leaves the export as it was. */
  lemma BlocksSkip(es: seq<(string, Json)>, e: (string, Json), render: Json -> string)
    requires !Contributes(e.1)
    ensures Blocks(es + [e], render) == Blocks(es, render)
    ensures Exported(es + [e]) == Exported(es)
  {
    assert (es + [e])[..|es|] == es;
  }

  /** A contributing rule appends its block. */
  lemma BlocksAdd(es: seq<(string, Json)>, e: (string, Json), render: Json -> string, done: string, b: string)
    requires Contributes(e.1) && Blocks(es, render) == Success(done)
    requires Block(e.0, e.1.fields, render) == Success(b)
    ensures Blocks(es + [e], render) == Success(done + b)
    ensures Exported(es + [e]) != []
  {
    assert (es + [e])[..|es|] == es;
  }

  /** A contributing rule whose columns cannot be joined makes the export raise. */
  lemma BlocksStop(es: seq<(string, Json)>, e: (string, Json), render: Json -> string)
    requires Contributes(e.1) && Block(e.0, e.1.fields, render).Failure?
    ensures Blocks(es + [e], render).Failure?
  {
    assert (es + [e])[..|es|] == es;
  }

  lemma {:induction false} BlocksFailPrefix(xs: seq<(string, Json)>, ys: seq<(string, Json)>, render: Json -> string)
    requires xs <= ys && Blocks(xs, render).Failure?
    ensures Blocks(ys, render) == Blocks(xs, render)
    decreases |ys|
  {
    if |ys| > |xs| {
      assert xs <= ys[..|ys| - 1];
      BlocksFailPrefix(xs, ys[..|ys| - 1], render);
    } else {
      assert xs == ys;
    }
  }

  lemma EntriesSnoc(rules: Rules, i: nat)
    requires i < |rules|
    ensures Entries(rules[..i + 1]) ==
            Entries(rules[..i]) + (if rules[i].1.JList? then Tag(rules[i].0, rules[i].1.items) else [])
  {
    assert rules[..i + 1][..i] == rules[..i];
  }

  lemma {:induction false} EntriesPrefix(rules: Rules, i: nat)
    requires i <= |rules|
    ensures Entries(rules[..i]) <= Entries(rules)
    decreases |rules| - i
  {
    if i < |rules| {
      EntriesSnoc(rules, i);
      EntriesPrefix(rules, i + 1);
    } else {
      assert rules[..i] == rules;
    }
  }

  lemma TagSnoc(before: seq<(string, Json)>, category: string, items: seq<Json>, j: nat)
    requires j < |items|
    ensures before + Tag(category, items[..j + 1]) == before + Tag(category, items[..j]) + [(category, items[j])]
    ensures before + Tag(category, items[..j + 1]) <= before + Tag(category, items)
  {
    assert Tag(category, items[..j + 1]) == Tag(category, items[..j]) + [(category, items[j])];
  }

  /** Lines 393-398 for one rule, on an export that has so far produced `done` from `seen`. */
  method ExportRule(ghost seen: seq<(string, Json)>, category: string, rule: Json, render: Json -> string,
                    text: string, found: bool, ghost pre: string, ghost done: string)
    returns (text': string, found': bool, ok: bool, ghost done': string)
    requires Blocks(seen, render) == Success(done) && text == pre + done
    requires found == (Exported(seen) != [])
    ensures ok <==> Blocks(seen + [(category, rule)], render).Success?
    ensures ok ==> && Blocks(seen + [(category, rule)], render) == Success(done')
                   && text' == pre + done'
                   && found' == (Exported(seen + [(category, rule)]) != [])
  {
    text', found', ok, done' := text, found, true, done;
    if rule.JObj? && "pseudo_sql" in Keys(rule.fields) {
      found' := true;
      var b := Block(category, rule.fields, render);
      if b.Failure? {
        BlocksStop(seen, (category, rule), render);
        ok := false;
        return;
      }
      BlocksAdd(seen, (category, rule), render, done, b.value);
      AppendAssoc(pre, done, b.value);
      text' := text + b.value;
      done' := done + b.value;
    } else {
      BlocksSkip(seen, (category, rule), render);
    }
  }

  /**
   * The inner loop of lines 392-398 over the rules of one list-valued
   * category, continuing an export that has so far produced `pre + body`
   * from the entries `before`.
   */
  method ExportCategory(ghost before: seq<(string, Json)>, category: string, items: seq<Json>,
                        render: Json -> string, content: string, found: bool,
                        ghost pre: string, ghost body: string)
    returns (r: Result<(string, bool), ExportError>)
    requires Blocks(before, render) == Success(body) && content == pre + body
    requires found == (Exported(before) != [])
    ensures var es := before + Tag(category, items);
            && (r.Failure? <==> Blocks(es, render).Failure?)
            && (r.Success? ==> r.value == (pre + Blocks(es, render).value, Exported(es) != []))
  {
    var text := content;
    var any := found;
    ghost var done := body;
    ghost var seen := before;
    assert before + Tag(category, items[..0]) == before;
    for j := 0 to |items|
      invariant seen == before + Tag(category, items[..j])
      invariant Blocks(seen, render) == Success(done)
      invariant text == pre + done
      invariant any == (Exported(seen) != [])
    {
      TagSnoc(before, category, items, j);
      var ok;
      text, any, ok, done := ExportRule(seen, category, items[j], render, text, any, pre, done);
      if !ok {
        BlocksFailPrefix(seen + [(category, items[j])], before + Tag(category, items), render);
        return Failure(TypeError);
      }
      seen := seen + [(category, items[j])];
    }
    assert items[..|items|] == items;
    r := Success((text, any));
  }

  /** Lines 386-398: the preamble, then the loop over the categories. */
  method ExportSql(rules: Rules, timestamp: string, render: Json -> string)
    returns (r: Result<Download, ExportError>)
    ensures r == Export(rules, timestamp, render)
  {
    var content := Preamble(timestamp);
    var found := false;
    ghost var body := "";
    for i := 0 to |rules|
      invariant Blocks(Entries(rules[..i]), render) == Success(body)
      invariant content == Preamble(timestamp) + body
      invariant found == (Exported(Entries(rules[..i])) != [])
    {
      var (category, ruleList) := rules[i];
      EntriesSnoc(rules, i);
      if ruleList.JList? {
        assert Entries(rules[..i + 1]) == Entries(rules[..i]) + Tag(category, ruleList.items);
        var step := ExportCategory(Entries(rules[..i]), category, ruleList.items, render, content, found,
                                    Preamble(timestamp), body);
        if step.Failure? {
          EntriesPrefix(rules, i + 1);
          BlocksFailPrefix(Entries(rules[..i + 1]), Entries(rules), render);
          OnlyTypeError(Blocks(Entries(rules), render).error);
          return Failure(TypeError);
        }
        content, found := step.value.0, step.value.1;
        body := Blocks(Entries(rules[..i + 1]), render).value;
      } else {
        assert Entries(rules[..i]) + [] == Entries(rules[..i]);
      }
    }
    assert rules[..|rules|] == rules;
    r := Success(Download(content, found));
  }

  // ---------------------------------------------------------------------
  // The display of one rule, lines 333-369.

  const UnknownColumns: Json := JList([JStr("Unknown columns")])

  /** `rule.get('columns', rule.get('columns_involved', ['Unknown columns']))`. */
  function DisplayColumns(rule: Fields): Json {
    Get(rule, "columns", Get(rule, "columns_involved", UnknownColumns))
  }

  /** `rule.get('type', rule.get('validation_type', 'Unknown type'))`. */
  function DisplayType(rule: Fields): Json {
    Get(rule, "type", Get(rule, "validation_type", JStr("Unknown type")))
  }

  /** `rule.get('pseudo_sql', 'No SQL code available')`. */
  function DisplaySql(rule: Fields): Json {
    Get(rule, "pseudo_sql", JStr(SqlSentinel))
  }

  /** Line 358: the SQL block is shown for a truthy value other than the sentinel. */
  predicate ShowsSql(rule: Fields) {
    Truthy(DisplaySql(rule)) && DisplaySql(rule) != JStr(SqlSentinel)
  }

  /**
   * What the page shows for one rule. `Partial` is a dict rule whose columns
   * cannot be joined: the description heading, the rule text and the
   * columns caption are already on the page when the join raises, and the
   * handler then adds the bullet.
   */
  datatype RuleView =
    | Detailed(text: Json, columns: string, validationType: Json, sql: Option<string>)
    | Partial(text: Json, line: string)
    | Bullet(line: string)

  /**
   * Lines 333-369 for one rule: a dict rule is shown field by field, with
   * the SQL block only when line 358 allows it; any other rule is a bullet.
   */
  function ViewRule(rule: Json, render: Json -> string): (v: RuleView)
    ensures !rule.JObj? ==> v == Bullet("• " + Show(rule, render))
    ensures rule.JObj? ==> !v.Bullet?
    ensures rule.JObj? ==> (v.Detailed? <==> ColumnsText(DisplayColumns(rule.fields), render).Success?)
    ensures rule.JObj? ==> v.text == Get(rule.fields, "rule", JStr("No rule description available"))
    ensures v.Partial? ==> v.line == "• " + Show(rule, render)
    ensures v.Detailed? ==>
              && v.columns == ColumnsText(DisplayColumns(rule.fields), render).value
              && v.validationType == DisplayType(rule.fields)
              && (v.sql.Some? <==> HasSql(rule.fields))
              && (v.sql.Some? ==> v.sql.value == Show(DisplaySql(rule.fields), render))
  {
    if !rule.JObj? then Bullet("• " + Show(rule, render))
    else
      var fs := rule.fields;
      var text := Get(fs, "rule", JStr("No rule description available"));
      match ColumnsText(DisplayColumns(fs), render)
      case Failure(_) => Partial(text, "• " + Show(rule, render))
      case Success(columns) =>
        Detailed(text, columns, DisplayType(fs), if ShowsSql(fs) then Some(Show(DisplaySql(fs), render)) else None)
  }

  /** A rule whose columns are `[1]` keeps its description on the page beside the bullet. */
  lemma UnjoinedColumnsShowPartial(render: Json -> string)
    ensures var rule := JObj([("rule", JStr("r")), ("columns", JList([JInt(1)]))]);
            ViewRule(rule, render) == Partial(JStr("r"), "• " + render(rule))
  {
    var fs := [("rule", JStr("r")), ("columns", JList([JInt(1)]))];
    assert Keys(fs) == ["rule", "columns"];
    assert DisplayColumns(fs) == JList([JInt(1)]);
    assert !([JInt(1)][0]).JStr?;
  }

  /** The page shows a rule's SQL exactly when the analysis counts the rule as having SQL. */
  lemma ShowsSqlIffHasSql(rule: Fields)
    ensures ShowsSql(rule) <==> HasSql(rule)
  {
  }

  /**
   * The display and the export agree on a rule whose SQL is shown: it is
   * exported, and it is viewed in detail with that SQL unless its columns
   * cannot be joined, in which case the export raises too.
   */
  lemma ShownSqlIsExported(rule: Json, render: Json -> string)
    requires rule.JObj? && HasSql(rule.fields)
    ensures Contributes(rule)
    ensures ViewRule(rule, render).Detailed? ==> ViewRule(rule, render).sql.Some?
    ensures ViewRule(rule, render).Partial? ==> ColumnsText(ColumnsValue(rule.fields), render).Failure?
  {
    var fs := rule.fields;
    if "columns" !in Keys(fs) && "columns_involved" !in Keys(fs) {
      assert DisplayColumns(fs) == UnknownColumns;
    }
  }

  /** The converse fails: an empty `pseudo_sql` is exported but not shown. */
  lemma ExportedNotShown(render: Json -> string)
    ensures var rule := JObj([("pseudo_sql", JStr(""))]);
            Contributes(rule) && !ShowsSql(rule.fields)
  {
    assert Keys([("pseudo_sql", JStr(""))]) == ["pseudo_sql"];
  }

  /**
   * The display's fallbacks agree with the analysis and the export wherever
   * the rule names its columns or its type, and differ only in the default.
   */
  lemma DisplayFallbacks(rule: Fields)
    ensures "columns" in Keys(rule) || "columns_involved" in Keys(rule) ==>
              DisplayColumns(rule) == ColumnsValue(rule)
    ensures "columns" !in Keys(rule) && "columns_involved" !in Keys(rule) ==>
              DisplayColumns(rule) == UnknownColumns && ColumnsValue(rule) == JList([])
    ensures "type" in Keys(rule) || "validation_type" in Keys(rule) ==>
              DisplayType(rule) == ValidationType(rule)
    ensures "type" !in Keys(rule) && "validation_type" !in Keys(rule) ==>
              DisplayType(rule) == JStr("Unknown type") && ValidationType(rule) == JStr("unknown")
  {
  }
}
