/**
 * utils/rule_generator.py: the two requests `generate_rules` sends to the
 * rule-writing service, the merge of its two replies into one rule set,
 * and the relabelling `format_rules_for_display` does for the page.
 *
 * The service itself is not modelled: its two replies are inputs, and what
 * it is asked is returned as a trace of requests.
 */
module RuleGen {
  import opened Wrappers
  import opened Dicts
  import opened Json
  import opened KpiSpec
  import DataAnalysis

  /** The exceptions the merge can raise: a missing key, or a subscript of a non-dict. */
  datatype MergeError = KeyError(key: string) | TypeError

  /** `reply[key]` for a decoded reply: a dict lookup that raises on a miss or a non-dict. */
  function Subscript(reply: Json, key: string): (r: Result<Json, MergeError>)
    ensures r.Success? <==> reply.JObj? && key in Keys(reply.fields)
    ensures r.Success? ==> Lookup(reply.fields, key) == Some(r.value)
    ensures r.Failure? ==> r.error == if reply.JObj? then KeyError(key) else TypeError
  {
    if !reply.JObj? then Failure(TypeError)
    else match Lookup(reply.fields, key)
      case None => Failure(KeyError(key))
      case Some(v) => Success(v)
  }

  /**
   * Lines 31-32: `all_rules = rules["rules"]`, then
   * `all_rules["cross_column"] = cross_column_rules["cross_column_rules"]`.
   * Python evaluates the right-hand side before the subscript it assigns
   * to, so a missing `cross_column_rules` is reported before `all_rules`
   * turns out not to be a dict.
   */
  function Merge(reply: Json, crossReply: Json): Result<Rules, MergeError> {
    var allRules :- Subscript(reply, "rules");
    var cross :- Subscript(crossReply, "cross_column_rules");
    if !allRules.JObj? then Failure(TypeError)
    else Success(Put(allRules.fields, "cross_column", cross))
  }

  /** The merge fails exactly when one of the three subscripts does, with that one's error. */
  lemma MergeFails(reply: Json, crossReply: Json)
    ensures Merge(reply, crossReply).Success? <==>
              && reply.JObj? && "rules" in Keys(reply.fields)
              && crossReply.JObj? && "cross_column_rules" in Keys(crossReply.fields)
              && Get(reply.fields, "rules", JNull).JObj?
    ensures !reply.JObj? ==> Merge(reply, crossReply) == Failure(TypeError)
    ensures reply.JObj? && "rules" !in Keys(reply.fields) ==> Merge(reply, crossReply) == Failure(KeyError("rules"))
    ensures reply.JObj? && "rules" in Keys(reply.fields) && crossReply.JObj?
              && "cross_column_rules" !in Keys(crossReply.fields) ==>
              Merge(reply, crossReply) == Failure(KeyError("cross_column_rules"))
    ensures reply.JObj? && "rules" in Keys(reply.fields) && !crossReply.JObj? ==>
              Merge(reply, crossReply) == Failure(TypeError)
    ensures reply.JObj? && "rules" in Keys(reply.fields)
              && crossReply.JObj? && "cross_column_rules" in Keys(crossReply.fields)
              && !Get(reply.fields, "rules", JNull).JObj? ==>
              Merge(reply, crossReply) == Failure(TypeError)
  {
  }

  /**
   * A successful merge is the first reply's rule set with every key kept,
   * `cross_column` bound to the second reply's rules (replacing any value it
   * had), nothing else changed, and no key added but `cross_column`, at the
   * end when it was new.
   */
  lemma MergeContents(reply: Json, crossReply: Json)
    requires Merge(reply, crossReply).Success?
    ensures var rules := Lookup(reply.fields, "rules").value.fields;
            var merged := Merge(reply, crossReply).value;
            && Lookup(merged, "cross_column") == Lookup(crossReply.fields, "cross_column_rules")
            && (forall k :: k != "cross_column" ==> Lookup(merged, k) == Lookup(rules, k))
            && Keys(merged) == (if "cross_column" in Keys(rules) then Keys(rules) else Keys(rules) + ["cross_column"])
            && (DistinctKeys(rules) ==> DistinctKeys(merged))
  {
  }

  /** The replies are combined the same way whatever else the first one holds. */
  lemma MergeIgnoresOtherReplyKeys(reply: Json, crossReply: Json, extra: seq<(string, Json)>)
    requires reply.JObj? && crossReply.JObj?
    requires forall i :: 0 <= i < |extra| ==> extra[i].0 != "rules"
    ensures Merge(JObj(reply.fields + extra), crossReply) == Merge(reply, crossReply)
  {
    IndexOfAppend(reply.fields, extra, "rules");
  }

  /** Looking a key up in `a + b` finds it in `a` first, when `b` does not hold it at all. */
  lemma {:induction false} IndexOfAppend<V>(a: seq<(string, V)>, b: seq<(string, V)>, k: string)
    requires forall i :: 0 <= i < |b| ==> b[i].0 != k
    ensures IndexOf(a + b, k) == IndexOf(a, k)
  {
    if a != [] {
      assert (a + b)[0] == a[0] && (a + b)[1..] == a[1..] + b;
      IndexOfAppend(a[1..], b, k);
    } else {
      assert a + b == b;
    }
  }

  /** `column_info` of line 17: the inferred types and the profiles. */
  datatype ColumnInfo = ColumnInfo(types: seq<(string, DataAnalysis.ColumnType)>,
                                   profiles: seq<(string, DataAnalysis.Profile)>)

  /** What the rule-writing service is asked, in the order it is asked. */
  datatype Request =
    | SampleRequest(sample: seq<DataAnalysis.Record>, info: ColumnInfo)
    | CrossRequest(columns: seq<string>, correlations: Json)

  /**
   * `generate_rules`: the column analysis, the two requests (the sample with
   * its column information, then the column names in frame order with the
   * correlations), and the merge of the two replies. `correlations` is
   * `get_column_correlations()`; `reply` and `crossReply` are what the
   * service answered.
   */
  method GenerateRules(f: DataAnalysis.Frame, isDate: DataAnalysis.Value -> bool, correlations: Json,
                       reply: Json, crossReply: Json)
    returns (requests: seq<Request>, rules: Result<Rules, MergeError>)
    requires DataAnalysis.WellFormed(f)
    ensures |requests| == 2 && requests[0].SampleRequest? && requests[1].CrossRequest?
    ensures requests[0].info.types == DataAnalysis.ColumnTypes(f, isDate)
    ensures requests[0].info.profiles == DataAnalysis.Profiles(f)
    ensures requests[0].sample == DataAnalysis.GetDataSample(f)
    ensures requests[1].columns == Keys(requests[0].info.types) == DataAnalysis.Names(f)
    ensures requests[1].correlations == correlations
    ensures rules == Merge(reply, crossReply)
  {
    var columnTypes := DataAnalysis.InferColumnTypes(f, isDate);
    var columnProfiles := DataAnalysis.GenerateColumnProfiles(f);
    var sample := DataAnalysis.GetDataSample(f);
    var columnInfo := ColumnInfo(columnTypes, columnProfiles);
    requests := [SampleRequest(sample, columnInfo)];
    requests := requests + [CrossRequest(Keys(columnTypes), correlations)];
    rules := Merge(reply, crossReply);
  }

  // ---------------------------------------------------------------------
  // format_rules_for_display
  // ---------------------------------------------------------------------

  /** A relabelling table: category names to display labels. */
  type Table = seq<(string, string)>

  /** The `categories` table of lines 38-46. */
  const Labels: Table := [
    ("accuracy", "Accuracy Rules"),
    ("completeness", "Completeness Rules"),
    ("uniqueness", "Uniqueness Rules"),
    ("consistency", "Consistency Rules"),
    ("timeliness", "Timeliness Rules"),
    ("validity", "Validity Rules"),
    ("cross_column", "Cross-Column Rules")
  ]

  /** No two categories share an entry, and no two share a label. */
  predicate OneToOne(table: Table) {
    && DistinctKeys(table)
    && forall i, j :: 0 <= i < j < |table| ==> table[i].1 != table[j].1
  }

  lemma LabelsOneToOne()
    ensures OneToOne(Labels)
  {
  }

  /** `categories[category]`, or `None` where the lookup raises `KeyError`. */
  function Label(table: Table, category: string): Option<string> {
    Lookup(table, category)
  }

  /** Different categories get different labels, so no entry overwrites another. */
  lemma LabelInjective(table: Table, a: string, b: string)
    requires OneToOne(table) && Label(table, a).Some?
    ensures a != b ==> Label(table, a) != Label(table, b)
  {
    LookupAt(table, IndexOf(table, a));
    if b in Keys(table) {
      LookupAt(table, IndexOf(table, b));
    }
  }

  /** Every category is in the table. */
  predicate AllLabelled(table: Table, rules: Rules) {
    forall i :: 0 <= i < |rules| ==> Label(table, rules[i].0).Some?
  }

  /** The position of the first category from `from` on that is not in the table, or `|rules|`. */
  function UnknownFrom(table: Table, rules: Rules, from: nat): (i: nat)
    requires from <= |rules|
    ensures from <= i <= |rules|
    ensures forall j :: from <= j < i ==> Label(table, rules[j].0).Some?
    ensures i < |rules| ==> Label(table, rules[i].0).None?
    decreases |rules| - from
  {
    if from == |rules| || Label(table, rules[from].0).None? then from
    else UnknownFrom(table, rules, from + 1)
  }

  /** The scan stops at the first unknown category, and only there. */
  lemma {:induction false} UnknownFromFirst(table: Table, rules: Rules, from: nat, i: nat)
    requires from <= i <= |rules|
    requires forall j :: from <= j < i ==> Label(table, rules[j].0).Some?
    requires i == |rules| || Label(table, rules[i].0).None?
    ensures UnknownFrom(table, rules, from) == i
    decreases i - from
  {
    if from < i {
      UnknownFromFirst(table, rules, from + 1, i);
    }
  }

  /** The relabelling of each entry, position by position. */
  function Renamed(table: Table, rules: Rules): (r: Rules)
    requires AllLabelled(table, rules)
    ensures |r| == |rules|
    ensures forall i :: 0 <= i < |rules| ==> r[i] == (Label(table, rules[i].0).value, rules[i].1)
  {
    seq(|rules|, i requires 0 <= i < |rules| => (Label(table, rules[i].0).value, rules[i].1))
  }

  /**
   * What the loop of lines 48-49 leaves: `KeyError` for the first category
   * missing from the table, or else every entry stored, in order, under its
   * category's label in a new dict. It fails exactly when some category is
   * not in the table.
   */
  function Relabelled(table: Table, rules: Rules): (r: Result<Rules, string>)
    ensures r.Success? <==> AllLabelled(table, rules)
    ensures r.Failure? ==>
              exists i :: 0 <= i < |rules| && r.error == rules[i].0
                && Label(table, rules[i].0).None? && AllLabelled(table, rules[..i])
  {
    var i := UnknownFrom(table, rules, 0);
    if i < |rules| then
      assert AllLabelled(table, rules[..i]) by {
        forall j | 0 <= j < i ensures Label(table, rules[..i][j].0).Some? {
          assert rules[..i][j] == rules[j];
        }
      }
      Failure(rules[i].0)
    else Success(PutAll([], Renamed(table, rules)))
  }

  /** The renamed entries of a dict are a dict when the table is one to one. */
  lemma RenamedDistinct(table: Table, rules: Rules)
    requires OneToOne(table) && DistinctKeys(rules) && AllLabelled(table, rules)
    ensures DistinctKeys(Renamed(table, rules))
  {
    var r := Renamed(table, rules);
    forall i, j | 0 <= i < j < |r| ensures r[i].0 != r[j].0 {
      LabelInjective(table, rules[i].0, rules[j].0);
    }
  }

  /**
   * For a dict of rules and a one-to-one table, a successful relabelling is
   * one entry per entry of `rules`, in order, with the category renamed and
   * the value unchanged: nothing is overwritten and nothing is lost.
   */
  lemma RelabelledValue(table: Table, rules: Rules)
    requires OneToOne(table) && DistinctKeys(rules) && Relabelled(table, rules).Success?
    ensures Relabelled(table, rules).value == Renamed(table, rules)
    ensures |Relabelled(table, rules).value| == |rules|
    ensures DistinctKeys(Relabelled(table, rules).value)
  {
    RenamedDistinct(table, rules);
    PutAllFresh(Renamed(table, rules));
  }

  /** The labels of the first `i + 1` entries, one more than those of the first `i`. */
  lemma RenamedSnoc(table: Table, rules: Rules, i: nat)
    requires i < |rules|
    requires forall j :: 0 <= j <= i ==> Label(table, rules[j].0).Some?
    ensures AllLabelled(table, rules[..i]) && AllLabelled(table, rules[..i + 1])
    ensures Renamed(table, rules[..i + 1]) ==
            Renamed(table, rules[..i]) + [(Label(table, rules[i].0).value, rules[i].1)]
    ensures Renamed(table, rules[..i + 1])[..i] == Renamed(table, rules[..i])
  {
    assert forall j :: 0 <= j < i ==> rules[..i][j] == rules[j];
    assert forall j :: 0 <= j < i + 1 ==> rules[..i + 1][j] == rules[j];
  }

  /**
   * `format_rules_for_display`: a new dict filled in the order of `rules`;
   * a category outside the table raises `KeyError` with that category.
   */
  method FormatRulesForDisplay(rules: Rules) returns (formatted: Result<Rules, string>)
    ensures formatted == Relabelled(Labels, rules)
  {
    var categories := Labels;
    var out: Rules := [];
    var i := 0;
    while i < |rules|
      invariant 0 <= i <= |rules|
      invariant forall j :: 0 <= j < i ==> Label(categories, rules[j].0).Some?
      invariant AllLabelled(categories, rules[..i])
      invariant out == PutAll([], Renamed(categories, rules[..i]))
    {
      var (category, rulesList) := rules[i];
      var l := Label(categories, category);
      if l.None? {
        UnknownFromFirst(categories, rules, 0, i);
        return Failure(category);
      }
      RenamedSnoc(categories, rules, i);
      PutAllStep([], Renamed(categories, rules[..i + 1]), i);
      out := Put(out, l.value, rulesList);
      i := i + 1;
    }
    UnknownFromFirst(categories, rules, 0, i);
    assert rules[..i] == rules;
    formatted := Success(out);
  }

  /** The category `generate_rules` adds is displayed as "Cross-Column Rules". */
  lemma CrossColumnLabel()
    ensures Label(Labels, "cross_column") == Some("Cross-Column Rules")
  {
    assert Labels[6] == ("cross_column", "Cross-Column Rules");
    LabelsOneToOne();
    LookupAt(Labels, 6);
  }

  /** Each category's rules are displayed, unchanged, under that category's label. */
  lemma ShownUnder(table: Table, rules: Rules, category: string)
    requires OneToOne(table) && DistinctKeys(rules) && Relabelled(table, rules).Success?
    requires category in Keys(rules)
    ensures Label(table, category).Some?
    ensures Lookup(Relabelled(table, rules).value, Label(table, category).value) == Lookup(rules, category)
  {
    RelabelledValue(table, rules);
    var i := IndexOf(rules, category);
    LookupAt(Renamed(table, rules), i);
    LookupAt(rules, i);
  }

  /**
   * Merging and then formatting: when the merged rule set displays, the
   * cross-column rules of the second reply show under the label of
   * `cross_column` (with `Labels`, "Cross-Column Rules").
   */
  lemma CrossColumnShown(table: Table, reply: Json, crossReply: Json)
    requires OneToOne(table)
    requires Merge(reply, crossReply).Success?
    requires DistinctKeys(Lookup(reply.fields, "rules").value.fields)
    requires Relabelled(table, Merge(reply, crossReply).value).Success?
    ensures Label(table, "cross_column").Some?
    ensures Lookup(Relabelled(table, Merge(reply, crossReply).value).value, Label(table, "cross_column").value)
            == Lookup(crossReply.fields, "cross_column_rules")
  {
    MergeContents(reply, crossReply);
    ShownUnder(table, Merge(reply, crossReply).value, "cross_column");
  }
}
