/**
 * The column profiler of utils/data_analyzer.py over an already parsed
 * table: per-column type inference, the count fields of the column
 * profiles, the basic statistics and the five-row sample.
 *
 * `pd.to_datetime` is the parameter `isDate`; a column's dtype is given
 * with the column, and `is_numeric_dtype` holds of every dtype but object.
 */
module DataAnalysis {
  import opened Wrappers
  import opened Dicts

  datatype Value = VStr(s: string) | VInt(i: int) | VReal(r: real) | VBool(b: bool)

  datatype DType = Int64 | Float64 | Bool | Object

  /** A named column; `None` is a missing cell (NaN / None). */
  datatype Column = Column(name: string, dtype: DType, cells: seq<Option<Value>>)

  datatype Frame = Frame(rows: nat, columns: seq<Column>)

  /** Every column has one cell per row and column names are unique. */
  predicate WellFormed(f: Frame) {
    && (forall i :: 0 <= i < |f.columns| ==> |f.columns[i].cells| == f.rows)
    && (forall i, j :: 0 <= i < j < |f.columns| ==> f.columns[i].name != f.columns[j].name)
  }

  function Names(f: Frame): (ns: seq<string>)
    ensures |ns| == |f.columns|
    ensures forall i :: 0 <= i < |f.columns| ==> ns[i] == f.columns[i].name
  {
    seq(|f.columns|, i requires 0 <= i < |f.columns| => f.columns[i].name)
  }

  function Min(a: nat, b: nat): nat { if a <= b then a else b }

  /** `head(n)`: the first n elements, or all of them when there are fewer. */
  function Head<T>(xs: seq<T>, n: nat): (h: seq<T>)
    ensures |h| == Min(n, |xs|)
    ensures h == xs[..|h|]
  {
    xs[..Min(n, |xs|)]
  }

  /** `dropna()`: the present values, in order. */
  function NonNull(cells: seq<Option<Value>>): (vs: seq<Value>)
    ensures |vs| <= |cells|
  {
    if cells == [] then []
    else
      var rest := NonNull(cells[..|cells| - 1]);
      match cells[|cells| - 1]
      case None => rest
      case Some(v) => rest + [v]
  }

  /** `isnull().sum()`. */
  function CountNull(cells: seq<Option<Value>>): nat {
    if cells == [] then 0
    else CountNull(cells[..|cells| - 1]) + (if cells[|cells| - 1].None? then 1 else 0)
  }

  lemma {:induction false} NullSplit(cells: seq<Option<Value>>)
    ensures CountNull(cells) + |NonNull(cells)| == |cells|
  {
    if cells != [] {
      NullSplit(cells[..|cells| - 1]);
    }
  }

  lemma {:induction false} NonNullAppend(a: seq<Option<Value>>, b: seq<Option<Value>>)
    ensures NonNull(a + b) == NonNull(a) + NonNull(b)
  {
    if b != [] {
      assert (a + b)[..|a + b| - 1] == a + b[..|b| - 1];
      NonNullAppend(a, b[..|b| - 1]);
    } else {
      assert a + b == a;
    }
  }

  lemma {:induction false} NonNullEmpty(cells: seq<Option<Value>>)
    ensures NonNull(cells) == [] <==> forall i :: 0 <= i < |cells| ==> cells[i].None?
  {
    if cells != [] {
      var init := cells[..|cells| - 1];
      NonNullEmpty(init);
      assert forall i :: 0 <= i < |init| ==> init[i] == cells[i];
    }
  }

  /** `df[column].dropna().head(100)`, the values type inference looks at. */
  function Sample(c: Column): seq<Value> {
    Head(NonNull(c.cells), 100)
  }

  predicate IsNumericDtype(d: DType) {
    d != Object
  }

  /** A value equal to its own rounding. */
  predicate IsWhole(v: Value) {
    match v
    case VInt(_) => true
    case VBool(_) => true
    case VReal(r) => r == r.Floor as real
    case VStr(_) => false
  }

  /** `df[column].round().equals(df[column])`: missing cells compare equal. */
  predicate WholeColumn(cells: seq<Option<Value>>) {
    forall i :: 0 <= i < |cells| ==> cells[i].None? || IsWhole(cells[i].value)
  }

  /**
   * Python's equality on present values: True == 1 == 1.0 and False == 0,
   * so sets and `nunique` identify them.
   */
  datatype Key = KStr(s: string) | KNum(r: real)

  function PyKey(v: Value): Key {
    match v
    case VStr(s) => KStr(s)
    case VInt(i) => KNum(i as real)
    case VReal(r) => KNum(r)
    case VBool(b) => KNum(if b then 1.0 else 0.0)
  }

  /** Membership in `{'True', 'False', True, False}`. */
  predicate IsBoolLiteral(v: Value) {
    PyKey(v) == KStr("True") || PyKey(v) == KStr("False") || PyKey(v) == KNum(1.0) || PyKey(v) == KNum(0.0)
  }

  predicate AllBoolLiterals(vs: seq<Value>) {
    forall i :: 0 <= i < |vs| ==> IsBoolLiteral(vs[i])
  }

  datatype ColumnType = UnknownType | DateType | IntegerType | FloatType | BooleanType | StringType

  function TypeName(t: ColumnType): string {
    match t
    case UnknownType => "unknown"
    case DateType => "date"
    case IntegerType => "integer"
    case FloatType => "float"
    case BooleanType => "boolean"
    case StringType => "string"
  }

  /** The fixed-order decision of `infer_column_types` for one column. */
  function InferType(c: Column, isDate: Value -> bool): ColumnType {
    var sample := Sample(c);
    if |sample| == 0 then UnknownType
    else if isDate(sample[0]) then DateType
    else if IsNumericDtype(c.dtype) then
      if c.dtype == Int64 || WholeColumn(c.cells) then IntegerType else FloatType
    else if AllBoolLiterals(sample) then BooleanType
    else StringType
  }

  /** The dict `infer_column_types` returns, in column order. */
  function ColumnTypes(f: Frame, isDate: Value -> bool): (ts: seq<(string, ColumnType)>)
    ensures Keys(ts) == Names(f)
    ensures forall i :: 0 <= i < |f.columns| ==> ts[i].1 == InferType(f.columns[i], isDate)
  {
    seq(|f.columns|, i requires 0 <= i < |f.columns| => (f.columns[i].name, InferType(f.columns[i], isDate)))
  }

  /** The next column's name is not yet a key, and its entry extends the prefix. */
  lemma ColumnTypesStep(f: Frame, isDate: Value -> bool, i: nat)
    requires WellFormed(f) && i < |f.columns|
    ensures f.columns[i].name !in Keys(ColumnTypes(f, isDate)[..i])
    ensures ColumnTypes(f, isDate)[..i + 1]
      == ColumnTypes(f, isDate)[..i] + [(f.columns[i].name, InferType(f.columns[i], isDate))]
  {
    var ts := ColumnTypes(f, isDate);
    assert ts[..i + 1] == ts[..i] + [ts[i]];
    forall j | 0 <= j < i
      ensures Keys(ts[..i])[j] != f.columns[i].name
    {
      assert f.columns[j].name != f.columns[i].name;
    }
  }

  method InferColumnTypes(f: Frame, isDate: Value -> bool) returns (types: seq<(string, ColumnType)>)
    requires WellFormed(f)
    ensures types == ColumnTypes(f, isDate)
  {
    types := [];
    for i := 0 to |f.columns|
      invariant types == ColumnTypes(f, isDate)[..i]
    {
      var c := f.columns[i];
      var t := InferType(c, isDate);
      ColumnTypesStep(f, isDate, i);
      types := Put(types, c.name, t);
    }
    assert ColumnTypes(f, isDate)[..|f.columns|] == ColumnTypes(f, isDate);
  }

  /** The type is "unknown" exactly when every cell of the column is missing. */
  lemma InferUnknownIff(c: Column, isDate: Value -> bool)
    ensures InferType(c, isDate) == UnknownType <==> forall i :: 0 <= i < |c.cells| ==> c.cells[i].None?
  {
    NonNullEmpty(c.cells);
  }

  /**
   * The date check comes first: when the first present cell parses as a
   * date the column is "date", whatever its dtype and its other values.
   */
  lemma DateTakesPrecedence(c: Column, isDate: Value -> bool, k: nat)
    requires k < |c.cells| && c.cells[k].Some?
    requires forall j :: 0 <= j < k ==> c.cells[j].None?
    requires isDate(c.cells[k].value)
    ensures InferType(c, isDate) == DateType
  {
    var before := c.cells[..k];
    NonNullEmpty(before);
    assert c.cells[..k + 1] == before + [c.cells[k]];
    NonNullAppend(before, [c.cells[k]]);
    assert NonNull([c.cells[k]]) == [c.cells[k].value] by {
      assert [c.cells[k]][..0] == [];
    }
    assert c.cells == c.cells[..k + 1] + c.cells[k + 1..];
    NonNullAppend(c.cells[..k + 1], c.cells[k + 1..]);
  }

  /**
   * The boolean, string and date decisions look at the first 100 present
   * values only: cells after them never change the type of an object column.
   */
  lemma {:induction false} ObjectTypeIgnoresTail(c: Column, extra: seq<Option<Value>>, isDate: Value -> bool)
    requires c.dtype == Object
    requires |NonNull(c.cells)| >= 100
    ensures InferType(Column(c.name, c.dtype, c.cells + extra), isDate) == InferType(c, isDate)
  {
    NonNullAppend(c.cells, extra);
    var c' := Column(c.name, c.dtype, c.cells + extra);
    assert Sample(c') == Sample(c);
  }

  /**
   * The integer decision, by contrast, looks at the whole column: one
   * fractional value after the first 100 makes a float column.
   */
  lemma NumericTypeSeesWholeColumn(isDate: Value -> bool)
    requires !isDate(VReal(1.0))
    ensures var c := Column("x", Float64, seq(100, i => Some(VReal(1.0))) + [Some(VReal(1.5))]);
            Sample(c) == seq(100, i => VReal(1.0)) && InferType(c, isDate) == FloatType
  {
    var whole: seq<Option<Value>> := seq(100, i => Some(VReal(1.0)));
    var c := Column("x", Float64, whole + [Some(VReal(1.5))]);
    assert NonNull(whole) == seq(100, i => VReal(1.0)) by {
      NullSplit(whole);
      NonNullAll(whole);
    }
    NonNullAppend(whole, [Some(VReal(1.5))]);
    assert NonNull([Some(VReal(1.5))]) == [VReal(1.5)] by {
      assert [Some(VReal(1.5))][..0] == [];
    }
    assert !IsWhole(c.cells[100].value);
  }

  lemma {:induction false} NonNullAll(cells: seq<Option<Value>>)
    requires forall i :: 0 <= i < |cells| ==> cells[i].Some?
    ensures |NonNull(cells)| == |cells|
    ensures forall i :: 0 <= i < |cells| ==> NonNull(cells)[i] == cells[i].value
  {
    if cells != [] {
      NonNullAll(cells[..|cells| - 1]);
    }
  }

  /** Date-like text is "date", not "string": the date check runs first. */
  lemma TextDatesAreDates(isDate: Value -> bool)
    requires isDate(VStr("2024-01-01"))
    ensures InferType(Column("d", Object, [Some(VStr("2024-01-01")), Some(VStr("2024-02-01"))]), isDate) == DateType
  {
    DateTakesPrecedence(Column("d", Object, [Some(VStr("2024-01-01")), Some(VStr("2024-02-01"))]), isDate, 0);
  }

  /** The distinct present values under Python's equality. */
  function KeySet(vs: seq<Value>): set<Key> {
    if vs == [] then {} else KeySet(vs[..|vs| - 1]) + {PyKey(vs[|vs| - 1])}
  }

  lemma {:induction false} KeySetSize(vs: seq<Value>)
    ensures |KeySet(vs)| <= |vs|
    ensures vs != [] ==> |KeySet(vs)| >= 1
  {
    if vs != [] {
      var init := vs[..|vs| - 1];
      KeySetSize(init);
      assert PyKey(vs[|vs| - 1]) in KeySet(vs);
    }
  }

  /** The count fields of one column's profile. */
  datatype Profile = Profile(uniqueCount: nat, missingCount: nat, sampleValues: seq<Value>)

  function ProfileOf(c: Column): Profile {
    var present := NonNull(c.cells);
    Profile(|KeySet(present)|, CountNull(c.cells), Head(present, 5))
  }

  function Profiles(f: Frame): (ps: seq<(string, Profile)>)
    ensures Keys(ps) == Names(f)
    ensures forall i :: 0 <= i < |f.columns| ==> ps[i].1 == ProfileOf(f.columns[i])
  {
    seq(|f.columns|, i requires 0 <= i < |f.columns| => (f.columns[i].name, ProfileOf(f.columns[i])))
  }

  /** The next column's name is not yet a key, and its profile extends the prefix. */
  lemma ProfilesStep(f: Frame, i: nat)
    requires WellFormed(f) && i < |f.columns|
    ensures f.columns[i].name !in Keys(Profiles(f)[..i])
    ensures Profiles(f)[..i + 1] == Profiles(f)[..i] + [(f.columns[i].name, ProfileOf(f.columns[i]))]
  {
    var ps := Profiles(f);
    assert ps[..i + 1] == ps[..i] + [ps[i]];
    forall j | 0 <= j < i
      ensures Keys(ps[..i])[j] != f.columns[i].name
    {
      assert f.columns[j].name != f.columns[i].name;
    }
  }

  /** The per-column loop of `generate_column_profiles`, its count fields only. */
  method GenerateColumnProfiles(f: Frame) returns (profiles: seq<(string, Profile)>)
    requires WellFormed(f)
    ensures profiles == Profiles(f)
  {
    profiles := [];
    for i := 0 to |f.columns|
      invariant profiles == Profiles(f)[..i]
    {
      var c := f.columns[i];
      var present := NonNull(c.cells);
      var profile := Profile(|KeySet(present)|, CountNull(c.cells), Head(present, 5));
      ProfilesStep(f, i);
      profiles := Put(profiles, c.name, profile);
    }
    assert Profiles(f)[..|f.columns|] == Profiles(f);
  }

  /**
   * The counts of a profile agree: missing and present cells make up the
   * column, there are no more distinct values than present ones (and none
   * exactly when every cell is missing), and the five sample values are the
   * first five values type inference samples.
   */
  lemma ProfileCounts(c: Column)
    ensures ProfileOf(c).missingCount + |NonNull(c.cells)| == |c.cells|
    ensures ProfileOf(c).uniqueCount <= |c.cells| - ProfileOf(c).missingCount
    ensures ProfileOf(c).uniqueCount == 0 <==> ProfileOf(c).missingCount == |c.cells|
    ensures |ProfileOf(c).sampleValues| == Min(5, |c.cells| - ProfileOf(c).missingCount)
    ensures ProfileOf(c).sampleValues == Sample(c)[..|ProfileOf(c).sampleValues|]
  {
    NullSplit(c.cells);
    KeySetSize(NonNull(c.cells));
  }

  /** `get_basic_stats`; the dtype names are those pandas prints. */
  datatype BasicStats = BasicStats(rowCount: nat, columnCount: nat,
                                   missingValues: seq<(string, nat)>,
                                   columnTypes: seq<(string, string)>)

  function DtypeName(d: DType): string {
    match d
    case Int64 => "int64"
    case Float64 => "float64"
    case Bool => "bool"
    case Object => "object"
  }

  function GetBasicStats(f: Frame): (s: BasicStats)
    ensures s.rowCount == f.rows && s.columnCount == |f.columns|
    ensures Keys(s.missingValues) == Names(f) && Keys(s.columnTypes) == Names(f)
    ensures forall i :: 0 <= i < |f.columns| ==>
              s.missingValues[i].1 == CountNull(f.columns[i].cells) && s.columnTypes[i].1 == DtypeName(f.columns[i].dtype)
  {
    BasicStats(f.rows, |f.columns|,
               seq(|f.columns|, i requires 0 <= i < |f.columns| => (f.columns[i].name, CountNull(f.columns[i].cells))),
               seq(|f.columns|, i requires 0 <= i < |f.columns| => (f.columns[i].name, DtypeName(f.columns[i].dtype))))
  }

  /** `sum(1 for v in stats["missing_values"].values() if v > 0)`. */
  function CountPositive(counts: seq<(string, nat)>): (n: nat)
    ensures n <= |counts|
  {
    if counts == [] then 0
    else CountPositive(counts[..|counts| - 1]) + (if counts[|counts| - 1].1 > 0 then 1 else 0)
  }

  lemma {:induction false} CountNullPositive(cells: seq<Option<Value>>)
    ensures CountNull(cells) > 0 <==> exists i :: 0 <= i < |cells| && cells[i].None?
  {
    if cells != [] {
      var init := cells[..|cells| - 1];
      CountNullPositive(init);
      if exists i :: 0 <= i < |cells| && cells[i].None? {
        var i :| 0 <= i < |cells| && cells[i].None?;
        if i < |init| { assert init[i] == cells[i]; }
      }
    }
  }

  lemma {:induction false} CountPositiveZero(counts: seq<(string, nat)>)
    ensures CountPositive(counts) == 0 <==> forall i :: 0 <= i < |counts| ==> counts[i].1 == 0
  {
    if counts != [] {
      var init := counts[..|counts| - 1];
      CountPositiveZero(init);
      assert forall i :: 0 <= i < |init| ==> init[i] == counts[i];
    }
  }

  /**
   * The number of columns with missing values is at most the number of
   * columns, and it is zero exactly when no cell of the table is missing.
   */
  lemma ColumnsWithMissing(f: Frame)
    ensures CountPositive(GetBasicStats(f).missingValues) <= |f.columns|
    ensures CountPositive(GetBasicStats(f).missingValues) == 0 <==>
            forall i, r :: 0 <= i < |f.columns| && 0 <= r < |f.columns[i].cells| ==> f.columns[i].cells[r].Some?
  {
    var m := GetBasicStats(f).missingValues;
    CountPositiveZero(m);
    forall i | 0 <= i < |f.columns|
      ensures m[i].1 == 0 <==> forall r :: 0 <= r < |f.columns[i].cells| ==> f.columns[i].cells[r].Some?
    {
      CountNullPositive(f.columns[i].cells);
    }
  }

  /** One row of `to_dict(orient='records')`: column name to cell. */
  type Record = seq<(string, Option<Value>)>

  /** `df.head(5).to_dict(orient='records')`. */
  function GetDataSample(f: Frame): (rs: seq<Record>)
    requires WellFormed(f)
    ensures |rs| == Min(5, f.rows)
    ensures forall r :: 0 <= r < |rs| ==> |rs[r]| == |f.columns| && Keys(rs[r]) == Names(f)
    ensures forall r, j :: 0 <= r < |rs| && 0 <= j < |f.columns| ==> rs[r][j].1 == f.columns[j].cells[r]
  {
    seq(Min(5, f.rows), r requires 0 <= r < Min(5, f.rows) =>
      seq(|f.columns|, j requires 0 <= j < |f.columns| => (f.columns[j].name, f.columns[j].cells[r])))
  }
}
