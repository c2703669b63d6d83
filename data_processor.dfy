/**
 * Input validation and per-platform aggregation of campaign records
 * (utils/data_processor.py).
 *
 * A campaign table is a set of column names and a sequence of records. Each record
 * carries its platform (the `Channel_Used` value) and a map from every other column
 * to a raw cell. `process_data` coerces the numeric columns of the caller's table in
 * place (the `Frame` class), groups the records by platform, takes means and sums,
 * drops every aggregated column that is missing on some platform, and derives
 * `Engagement`.
 */
module DataProcessor {
  import opened Wrappers

  // ---------------------------------------------------------------------------
  // Column names
  // ---------------------------------------------------------------------------

  const ChannelUsed: string := "Channel_Used"
  const Roi: string := "ROI"
  const ConversionRate: string := "Conversion_Rate"
  const AcquisitionCost: string := "Acquisition_Cost"
  const Clicks: string := "Clicks"
  const Impressions: string := "Impressions"
  const Engagement: string := "Engagement"

  const RequiredColumns: seq<string> := [ChannelUsed, Roi]
  const RecommendedColumns: seq<string> := [ConversionRate, AcquisitionCost, Clicks, Impressions]
  /** The columns coerced to numbers and aggregated, in the order the source visits them. */
  const NumericColumns: seq<string> := [Roi, ConversionRate, AcquisitionCost, Clicks, Impressions]
  /** The aggregated columns that are summed; the other numeric columns are averaged. */
  const SumColumns: set<string> := {Clicks, Impressions}

  /** The Python exceptions the core raises. */
  datatype Error = ValueError(message: string) | KeyError(key: string)

  // ---------------------------------------------------------------------------
  // validate_data
  // ---------------------------------------------------------------------------

  datatype Validation = Validation(valid: bool, message: string)

  /** `a` is obtained from `b` by deleting elements, so it keeps their relative order. */
  predicate IsSubsequence(a: seq<string>, b: seq<string>)
    decreases |b|
  {
    a == [] || (b != [] && if a[0] == b[0] then IsSubsequence(a[1..], b[1..]) else IsSubsequence(a, b[1..]))
  }

  /** The names of `names` that are not in `present`, in the order of `names`. */
  function MissingFrom(names: seq<string>, present: set<string>): (missing: seq<string>)
    ensures forall c :: c in missing <==> c in names && c !in present
    ensures forall c :: multiset(missing)[c] == if c in present then 0 else multiset(names)[c]
    ensures IsSubsequence(missing, names)
  {
    if names == [] then []
    else
      var rest := MissingFrom(names[1..], present);
      assert names == [names[0]] + names[1..];
      if names[0] in present then rest else [names[0]] + rest
  }

  lemma {:induction false} MissingFromNone(names: seq<string>, present: set<string>)
    requires forall c :: c in names ==> c in present
    ensures MissingFrom(names, present) == []
  {
    if names != [] {
      assert names[0] in names;
      MissingFromNone(names[1..], present);
    }
  }

  /** Python's `sep.join(parts)`: the parts in order with `sep` between neighbours. */
  function Join(sep: string, parts: seq<string>): (r: string)
    ensures parts == [] ==> r == ""
    ensures parts != [] ==> parts[0] <= r
    ensures parts != [] ==> var last := parts[|parts| - 1];
      |last| <= |r| && r[|r| - |last|..] == last
    ensures |parts| > 1 ==> parts[0] + sep <= r
  {
    if |parts| == 0 then ""
    else if |parts| == 1 then parts[0]
    else parts[0] + sep + Join(sep, parts[1..])
  }

  const MissingRequiredPrefix: string := "Missing required columns: "
  const MissingRecommendedPrefix: string := "Data is valid but missing recommended columns: "
  const AllPresentMessage: string := "All required and recommended columns are present"

  /** Checks a column set against the required and the recommended columns. */
  function ValidateData(columns: set<string>): (v: Validation)
    ensures v.valid <==> ChannelUsed in columns && Roi in columns
  {
    var missingRequired := MissingFrom(RequiredColumns, columns);
    if missingRequired != [] then
      assert missingRequired[0] in missingRequired;
      Validation(false, MissingRequiredPrefix + Join(", ", missingRequired))
    else
      var missingRecommended := MissingFrom(RecommendedColumns, columns);
      var message :=
        if missingRecommended != [] then MissingRecommendedPrefix + Join(", ", missingRecommended)
        else AllPresentMessage;
      Validation(true, message)
  }

  /** The exact message for each combination of missing required columns. */
  lemma ValidateDataRequiredMessages(columns: set<string>)
    ensures ChannelUsed !in columns && Roi !in columns ==>
      ValidateData(columns).message == "Missing required columns: Channel_Used, ROI"
    ensures ChannelUsed !in columns && Roi in columns ==>
      ValidateData(columns).message == "Missing required columns: Channel_Used"
    ensures ChannelUsed in columns && Roi !in columns ==>
      ValidateData(columns).message == "Missing required columns: ROI"
  {
    if ChannelUsed !in columns && Roi !in columns {
      BothRequiredMissing(columns);
    } else if ChannelUsed !in columns && Roi in columns {
      OneRequiredMissing(columns, ChannelUsed);
      OneRequiredText();
    } else if ChannelUsed in columns && Roi !in columns {
      OneRequiredMissing(columns, Roi);
      OneRequiredText();
    }
  }

  lemma OneRequiredMissing(columns: set<string>, c: string)
    requires c == ChannelUsed || c == Roi
    requires ChannelUsed !in columns <==> c == ChannelUsed
    requires Roi !in columns <==> c == Roi
    ensures ValidateData(columns).message == MissingRequiredPrefix + c
  {
    MissingRequired(columns);
    assert MissingFrom(RequiredColumns, columns) == [c];
  }

  lemma OneRequiredText()
    ensures MissingRequiredPrefix + ChannelUsed == "Missing required columns: Channel_Used"
    ensures MissingRequiredPrefix + Roi == "Missing required columns: ROI"
  {
  }

  lemma BothRequiredMissing(columns: set<string>)
    requires ChannelUsed !in columns && Roi !in columns
    ensures ValidateData(columns).message == "Missing required columns: Channel_Used, ROI"
  {
    MissingRequired(columns);
    var m := MissingFrom(RequiredColumns, columns);
    assert m == [ChannelUsed, Roi];
    assert Join(", ", m) == ChannelUsed + ", " + Roi by {
      assert m[1..] == [Roi];
    }
    BothRequiredText();
  }

  lemma BothRequiredText()
    ensures MissingRequiredPrefix + (ChannelUsed + ", " + Roi) == "Missing required columns: Channel_Used, ROI"
  {
  }

  /** The missing required columns, in the order Channel_Used, ROI. */
  lemma MissingRequired(columns: set<string>)
    ensures MissingFrom(RequiredColumns, columns) ==
      (if ChannelUsed in columns then [] else [ChannelUsed]) + (if Roi in columns then [] else [Roi])
  {
    assert [Roi][1..] == [];
    assert MissingFrom([Roi], columns) == if Roi in columns then [] else [Roi];
    assert RequiredColumns[1..] == [Roi];
  }

  /**
   * A valid column set gets the fixed message when nothing recommended is missing,
   * and otherwise a message listing the missing recommended columns, which by the
   * contract of MissingFrom are exactly the absent ones in the order Conversion_Rate,
   * Acquisition_Cost, Clicks, Impressions.
   */
  lemma ValidateDataRecommendedMessage(columns: set<string>)
    requires ChannelUsed in columns && Roi in columns
    ensures (forall c :: c in RecommendedColumns ==> c in columns) ==>
      ValidateData(columns).message == AllPresentMessage
    ensures (exists c :: c in RecommendedColumns && c !in columns) ==>
      var missing := MissingFrom(RecommendedColumns, columns);
      && missing != []
      && ValidateData(columns).message == MissingRecommendedPrefix + Join(", ", missing)
  {
    var m := MissingFrom(RecommendedColumns, columns);
    RecommendedMessage(columns);
    if forall c :: c in RecommendedColumns ==> c in columns {
      MissingFromNone(RecommendedColumns, columns);
    } else {
      var c :| c in RecommendedColumns && c !in columns;
      assert c in m;
    }
  }

  /** With the required columns present, the message is decided by the missing recommended ones. */
  lemma RecommendedMessage(columns: set<string>)
    requires ChannelUsed in columns && Roi in columns
    ensures var m := MissingFrom(RecommendedColumns, columns);
      ValidateData(columns).message == if m != [] then MissingRecommendedPrefix + Join(", ", m) else AllPresentMessage
  {
    MissingFromNone(RequiredColumns, columns);
  }

  // ---------------------------------------------------------------------------
  // Raw records and numeric coercion
  // ---------------------------------------------------------------------------

  /**
   * A raw cell: a number, a value that does not parse as a number, or an empty cell.
   * A textual cell that `pd.to_numeric` would parse is represented as its Number.
   */
  datatype Cell = Number(value: real) | Text(text: string) | Blank

  /** One input row: its platform and its other columns. */
  datatype Record = Record(platform: string, cells: map<string, Cell>)

  /** The number a cell holds, if any: what pandas reads from it. */
  function NumericValue(c: Cell): Option<real>
  {
    match c
    case Number(v) => Some(v)
    case _ => None
  }

  /**
   * `pd.to_numeric(..., errors='coerce')` on one cell: no text remains, the numeric
   * reading is unchanged, and a cell is either kept as it was or emptied.
   */
  function ToNumeric(c: Cell): (r: Cell)
    ensures !r.Text?
    ensures NumericValue(r) == NumericValue(c)
    ensures r == c || r.Blank?
  {
    if c.Number? then c else Blank
  }

  /** The numeric columns of the source's list that the table actually has. */
  function CoercionTargets(columns: set<string>): set<string>
  {
    set c | c in NumericColumns && c in columns
  }

  /** Coerces the cells of the columns in `targets`; other cells are kept. */
  function CoerceRecordOn(r: Record, targets: set<string>): (r': Record)
    ensures r'.platform == r.platform && r'.cells.Keys == r.cells.Keys
    ensures forall c :: c in r.cells && c in targets ==> !r'.cells[c].Text?
    ensures forall c :: c in r.cells && c !in targets ==> r'.cells[c] == r.cells[c]
    ensures forall c :: Lookup(r', c) == Lookup(r, c)
  {
    r.(cells := map c | c in r.cells :: if c in targets then ToNumeric(r.cells[c]) else r.cells[c])
  }

  /**
   * The whole table after the coercion loop of process_data: the same records with the
   * same platforms and columns, and the same numeric reading of every cell.
   */
  function CoerceTable(rows: seq<Record>, columns: set<string>): (t: seq<Record>)
    ensures |t| == |rows|
    ensures forall i :: 0 <= i < |rows| ==>
      t[i].platform == rows[i].platform && t[i].cells.Keys == rows[i].cells.Keys
    ensures forall i, c :: 0 <= i < |rows| ==> Lookup(t[i], c) == Lookup(rows[i], c)
  {
    seq(|rows|, i requires 0 <= i < |rows| => CoerceRecordOn(rows[i], CoercionTargets(columns)))
  }

  /** Coercion of a single column, the body of one iteration of the source's loop. */
  function CoerceColumn(r: Record, col: string): (r': Record)
    ensures r'.platform == r.platform && r'.cells.Keys == r.cells.Keys
    ensures col in r.cells ==> !r'.cells[col].Text?
    ensures forall c :: c in r.cells && c != col ==> r'.cells[c] == r.cells[c]
    ensures forall c :: Lookup(r', c) == Lookup(r, c)
  {
    if col in r.cells then r.(cells := r.cells[col := ToNumeric(r.cells[col])]) else r
  }

  /** The targets handled by the first `k` iterations of the coercion loop. */
  function CoercedSoFar(columns: set<string>, k: nat): set<string>
    requires k <= |NumericColumns|
  {
    set c | c in NumericColumns[..k] && c in columns
  }

  lemma CoerceColumnStep(r: Record, done: set<string>, col: string)
    requires col !in done
    ensures CoerceColumn(CoerceRecordOn(r, done), col) == CoerceRecordOn(r, done + {col})
  {
    var lhs := CoerceColumn(CoerceRecordOn(r, done), col);
    var rhs := CoerceRecordOn(r, done + {col});
    assert lhs.cells == rhs.cells;
  }

  lemma CoercedSoFarStep(columns: set<string>, k: nat)
    requires k < |NumericColumns|
    ensures NumericColumns[k] !in CoercedSoFar(columns, k)
    ensures CoercedSoFar(columns, k + 1) ==
      if NumericColumns[k] in columns then CoercedSoFar(columns, k) + {NumericColumns[k]}
      else CoercedSoFar(columns, k)
  {
    assert NumericColumns[..k + 1] == NumericColumns[..k] + [NumericColumns[k]];
  }

  lemma CoerceRecordOnNothing(r: Record)
    ensures CoerceRecordOn(r, {}) == r
  {
    assert CoerceRecordOn(r, {}).cells == r.cells;
  }

  /**
   * The caller's campaign table. `process_data` overwrites its numeric columns with
   * their coerced values, a change the caller sees.
   */
  class Frame {
    const columns: set<string>
    const rows: array<Record>

    /** Every record has a cell for every column except the platform column. */
    ghost predicate Valid()
      reads this, rows
    {
      forall i :: 0 <= i < rows.Length ==> rows[i].cells.Keys == columns - {ChannelUsed}
    }

    constructor (columns: set<string>, records: seq<Record>)
      requires forall r :: r in records ==> r.cells.Keys == columns - {ChannelUsed}
      ensures Valid() && fresh(rows)
      ensures this.columns == columns && rows[..] == records
    {
      this.columns := columns;
      rows := new Record[|records|](i requires 0 <= i < |records| => records[i]);
    }

    /** The loop of process_data that coerces each present numeric column in place. */
    method CoerceNumeric()
      requires Valid()
      modifies rows
      ensures Valid()
      ensures rows[..] == CoerceTable(old(rows[..]), columns)
    {
      forall j | 0 <= j < rows.Length
        ensures rows[j] == CoerceRecordOn(rows[j], CoercedSoFar(columns, 0))
      {
        CoerceRecordOnNothing(rows[j]);
      }
      var k := 0;
      while k < |NumericColumns|
        invariant 0 <= k <= |NumericColumns|
        invariant forall j :: 0 <= j < rows.Length ==>
          rows[j] == CoerceRecordOn(old(rows[j]), CoercedSoFar(columns, k))
      {
        var col := NumericColumns[k];
        CoercedSoFarStep(columns, k);
        if col in columns {
          CoerceColumnInPlace(col);
          forall j | 0 <= j < rows.Length
            ensures rows[j] == CoerceRecordOn(old(rows[j]), CoercedSoFar(columns, k + 1))
          {
            CoerceColumnStep(old(rows[j]), CoercedSoFar(columns, k), col);
          }
        }
        k := k + 1;
      }
      assert NumericColumns[..|NumericColumns|] == NumericColumns;
      assert CoercedSoFar(columns, |NumericColumns|) == CoercionTargets(columns);
    }

    /** One iteration of the coercion loop: column `col` coerced in every record. */
    method CoerceColumnInPlace(col: string)
      modifies rows
      ensures forall j :: 0 <= j < rows.Length ==> rows[j] == CoerceColumn(old(rows[j]), col)
    {
      var i := 0;
      while i < rows.Length
        invariant 0 <= i <= rows.Length
        invariant forall j :: 0 <= j < i ==> rows[j] == CoerceColumn(old(rows[j]), col)
        invariant forall j :: i <= j < rows.Length ==> rows[j] == old(rows[j])
      {
        rows[i] := CoerceColumn(rows[i], col);
        i := i + 1;
      }
    }

    /** process_data: the schema check, the in-place coercion, then the aggregation. */
    method Process() returns (r: Result<Summary, Error>)
      requires Valid()
      modifies rows
      ensures Valid()
      ensures r == ProcessOutcome(old(rows[..]), columns)
      ensures r.Success? ==> rows[..] == CoerceTable(old(rows[..]), columns)
      ensures r.Failure? ==> rows[..] == old(rows[..])
    {
      if ChannelUsed !in columns || Roi !in columns {
        return Failure(SchemaError);
      }
      CoerceNumeric();
      r := Success(Summarise(rows[..], columns));
    }
  }

  /**
   * What coercion does to one cell: in a present numeric column a number is kept and
   * anything else becomes empty; every other cell is unchanged.
   */
  lemma CoerceTableCells(rows: seq<Record>, columns: set<string>, i: int, c: string)
    requires 0 <= i < |rows| && c in rows[i].cells
    ensures c in CoerceTable(rows, columns)[i].cells
    ensures var before, after := rows[i].cells[c], CoerceTable(rows, columns)[i].cells[c];
      if c in NumericColumns && c in columns then
        (before.Number? ==> after == before) && (!before.Number? ==> after == Blank)
      else after == before
  {
  }

  /** After coercion no present numeric column holds a non-numeric value. */
  lemma CoerceTableClean(rows: seq<Record>, columns: set<string>)
    ensures forall i, c ::
      (0 <= i < |rows| && c in NumericColumns && c in columns && c in CoerceTable(rows, columns)[i].cells) ==>
        !CoerceTable(rows, columns)[i].cells[c].Text?
  {
  }

  /** Coercing an already coerced table changes nothing. */
  lemma CoerceTableIdempotent(rows: seq<Record>, columns: set<string>)
    ensures CoerceTable(CoerceTable(rows, columns), columns) == CoerceTable(rows, columns)
  {
    var once := CoerceTable(rows, columns);
    var twice := CoerceTable(once, columns);
    forall i | 0 <= i < |rows|
      ensures twice[i] == once[i]
    {
      assert twice[i].cells == once[i].cells;
    }
  }

  // ---------------------------------------------------------------------------
  // Grouping by platform
  // ---------------------------------------------------------------------------

  function PlatformSet(rows: seq<Record>): set<string>
  {
    set r | r in rows :: r.platform
  }

  lemma PlatformSetSnoc(rows: seq<Record>, r: Record)
    ensures PlatformSet(rows + [r]) == PlatformSet(rows) + {r.platform}
  {
    var lhs, rhs := PlatformSet(rows + [r]), PlatformSet(rows) + {r.platform};
    forall p | p in lhs ensures p in rhs {
      var x :| x in rows + [r] && x.platform == p;
      if x != r { assert x in rows; }
    }
    forall p | p in rhs ensures p in lhs {
      if p != r.platform {
        var x :| x in rows && x.platform == p;
        assert x in rows + [r];
      } else {
        assert r in rows + [r];
      }
    }
  }

  /** The distinct platforms, in order of first appearance. */
  function Platforms(rows: seq<Record>): (ps: seq<string>)
    ensures forall p :: p in ps <==> p in PlatformSet(rows)
    ensures forall i, j :: 0 <= i < j < |ps| ==> ps[i] != ps[j]
  {
    if rows == [] then []
    else
      var init, last := rows[..|rows| - 1], rows[|rows| - 1];
      assert rows == init + [last];
      PlatformSetSnoc(init, last);
      var ps := Platforms(init);
      if last.platform in ps then ps else ps + [last.platform]
  }

  /** The records of platform `p`, in input order. */
  function Group(rows: seq<Record>, p: string): (g: seq<Record>)
    ensures forall r :: multiset(g)[r] == if r.platform == p then multiset(rows)[r] else 0
  {
    if rows == [] then []
    else
      var init, last := rows[..|rows| - 1], rows[|rows| - 1];
      assert rows == init + [last];
      Group(init, p) + (if last.platform == p then [last] else [])
  }

  /** `groupby('Channel_Used')`: each platform mapped to its records. */
  function GroupBy(rows: seq<Record>): (groups: map<string, seq<Record>>)
    ensures groups.Keys == PlatformSet(rows)
  {
    map p | p in PlatformSet(rows) :: Group(rows, p)
  }

  /**
   * The groups partition the input: every group is non-empty and holds only input
   * records of its own platform, each as often as it occurs in the input, and every
   * input record lies in the group of its platform.
   */
  lemma GroupByPartitions(rows: seq<Record>)
    ensures forall p :: p in GroupBy(rows) ==> GroupBy(rows)[p] != []
    ensures forall p :: p in GroupBy(rows) ==> forall r :: r in GroupBy(rows)[p] ==> r in rows && r.platform == p
    ensures forall p, r: Record :: p in GroupBy(rows) && r.platform == p ==>
      multiset(GroupBy(rows)[p])[r] == multiset(rows)[r]
    ensures forall i :: 0 <= i < |rows| ==>
      rows[i].platform in GroupBy(rows) && rows[i] in GroupBy(rows)[rows[i].platform]
  {
    GroupByNonEmpty(rows);
    GroupByMembers(rows);
    GroupByCovers(rows);
  }

  lemma GroupByNonEmpty(rows: seq<Record>)
    ensures forall p :: p in GroupBy(rows) ==> GroupBy(rows)[p] != []
  {
    forall p | p in GroupBy(rows) ensures GroupBy(rows)[p] != [] {
      GroupNonEmpty(rows, p);
    }
  }

  lemma GroupByMembers(rows: seq<Record>)
    ensures forall p :: p in GroupBy(rows) ==> forall r :: r in GroupBy(rows)[p] ==> r in rows && r.platform == p
  {
    forall p | p in GroupBy(rows) ensures forall r :: r in GroupBy(rows)[p] ==> r in rows && r.platform == p {
      GroupMembers(rows, p);
    }
  }

  lemma GroupMembers(rows: seq<Record>, p: string)
    ensures forall r :: r in Group(rows, p) ==> r in rows && r.platform == p
  {
    forall r | r in Group(rows, p) ensures r in rows && r.platform == p {
      GroupMember(rows, p, r);
    }
  }

  lemma GroupByCovers(rows: seq<Record>)
    ensures forall i :: 0 <= i < |rows| ==>
      rows[i].platform in GroupBy(rows) && rows[i] in GroupBy(rows)[rows[i].platform]
  {
    forall i | 0 <= i < |rows| ensures rows[i].platform in GroupBy(rows) && rows[i] in GroupBy(rows)[rows[i].platform] {
      GroupOwn(rows, i);
    }
  }

  lemma GroupNonEmpty(rows: seq<Record>, p: string)
    requires p in PlatformSet(rows)
    ensures Group(rows, p) != []
  {
    var r :| r in rows && r.platform == p;
    assert multiset(Group(rows, p))[r] == multiset(rows)[r] > 0;
  }

  lemma GroupMember(rows: seq<Record>, p: string, r: Record)
    requires r in Group(rows, p)
    ensures r in rows && r.platform == p
  {
    assert multiset(Group(rows, p))[r] > 0;
  }

  lemma GroupOwn(rows: seq<Record>, i: int)
    requires 0 <= i < |rows|
    ensures rows[i].platform in PlatformSet(rows) && rows[i] in Group(rows, rows[i].platform)
  {
    var r := rows[i];
    assert r in rows;
    assert multiset(Group(rows, r.platform))[r] == multiset(rows)[r] > 0;
  }

  // ---------------------------------------------------------------------------
  // Aggregation
  // ---------------------------------------------------------------------------

  /**
   * The value of column `c` in a record as pandas reads it: the number that coercion
   * leaves in the cell, missing where the column is absent or coercion empties the cell.
   */
  function Lookup(r: Record, c: string): (v: Option<real>)
    ensures v.Some? ==> c in r.cells && ToNumeric(r.cells[c]) == Number(v.value)
    ensures v.None? ==> c !in r.cells || ToNumeric(r.cells[c]).Blank?
  {
    if c in r.cells then NumericValue(r.cells[c]) else None
  }

  /**
   * The non-missing values of column `c`, in row order: at most one per record, and
   * none exactly when no record has a value there.
   */
  function ColumnValues(rows: seq<Record>, c: string): (vs: seq<real>)
    ensures |vs| <= |rows|
    ensures vs == [] <==> forall i :: 0 <= i < |rows| ==> Lookup(rows[i], c).None?
  {
    if rows == [] then []
    else
      var init, last := rows[..|rows| - 1], rows[|rows| - 1];
      ColumnValues(init, c) + CellValues(last, c)
  }

  /** The value of column `c` in one record, as a list of zero or one number. */
  function CellValues(r: Record, c: string): seq<real>
  {
    match Lookup(r, c)
    case Some(v) => [v]
    case None => []
  }

  function Sum(xs: seq<real>): real
  {
    if xs == [] then 0.0 else Sum(xs[..|xs| - 1]) + xs[|xs| - 1]
  }

  /** pandas' mean: missing (NaN) when there is no value. */
  function Mean(xs: seq<real>): (m: Option<real>)
    ensures m.Some? <==> xs != []
  {
    if xs == [] then None else Some(Sum(xs) / (|xs| as real))
  }

  /**
   * The aggregate of column `c` over one platform's records: a sum, which always exists,
   * or a mean, which is missing exactly when no record of the group has a value.
   */
  function Aggregate(c: string, group: seq<Record>): (a: Option<real>)
    ensures c in SumColumns ==> a.Some?
    ensures a.None? <==> c !in SumColumns && forall i :: 0 <= i < |group| ==> Lookup(group[i], c).None?
  {
    if c in SumColumns then Some(Sum(ColumnValues(group, c))) else Mean(ColumnValues(group, c))
  }

  /**
   * The keys of the `agg` dictionary whose aggregation is not None: ROI and the
   * recommended columns the table has. They are exactly the coerced columns.
   */
  function AggregatedColumns(columns: set<string>): (agg: set<string>)
    ensures agg == CoercionTargets(columns)
    ensures agg <= columns
    ensures Roi in columns ==> Roi in agg
  {
    assert [Roi] + RecommendedColumns == NumericColumns;
    set c | c in [Roi] + RecommendedColumns && c in columns
  }

  /** One aggregated row: its platform and a possibly missing value per column. */
  datatype PlatformRow = PlatformRow(platform: string, values: map<string, Option<real>>)

  /** The result of process_data; `columns` excludes the platform column. */
  datatype Summary = Summary(columns: set<string>, rows: seq<PlatformRow>)

  /** `groupby(...).agg(...).reset_index()`: one row per platform. */
  function GroupRows(rows: seq<Record>, aggregated: set<string>): (g: seq<PlatformRow>)
    ensures |g| == |Platforms(rows)|
    ensures forall i :: 0 <= i < |g| ==> g[i].platform == Platforms(rows)[i] && g[i].values.Keys == aggregated
  {
    var ps, groups := Platforms(rows), GroupBy(rows);
    seq(|ps|, i requires 0 <= i < |ps| =>
      PlatformRow(ps[i], map c | c in aggregated :: Aggregate(c, groups[ps[i]])))
  }

  /** Column `c` has a value on every row. */
  predicate NoMissing(g: seq<PlatformRow>, c: string)
  {
    forall i :: 0 <= i < |g| ==> c in g[i].values && g[i].values[c].Some?
  }

  /** `dropna(axis=1)`: keeps exactly the columns with no missing value. */
  function DropMissingColumns(g: seq<PlatformRow>, aggregated: set<string>): (s: Summary)
    ensures |s.rows| == |g|
    ensures forall i :: 0 <= i < |g| ==> s.rows[i].platform == g[i].platform
  {
    var kept := set c | c in aggregated && NoMissing(g, c);
    Summary(kept, seq(|g|, i requires 0 <= i < |g| =>
      g[i].(values := map c | c in kept && c in g[i].values :: g[i].values[c])))
  }

  function Get(values: map<string, Option<real>>, c: string): Option<real>
  {
    if c in values then values[c] else None
  }

  /** Clicks / Impressions, missing when either is missing or there are no impressions. */
  function EngagementOf(clicks: Option<real>, impressions: Option<real>): (e: Option<real>)
    ensures e.Some? <==> clicks.Some? && impressions.Some? && impressions.value != 0.0
    ensures e.Some? ==> e.value * impressions.value == clicks.value
  {
    if clicks.Some? && impressions.Some? && impressions.value != 0.0 then
      Some(clicks.value / impressions.value)
    else None
  }

  /** Adds the Engagement column when both Clicks and Impressions survived. */
  function AddEngagement(s: Summary): (t: Summary)
    ensures |t.rows| == |s.rows|
    ensures forall i :: 0 <= i < |s.rows| ==> t.rows[i].platform == s.rows[i].platform
  {
    if Clicks in s.columns && Impressions in s.columns then
      Summary(s.columns + {Engagement}, seq(|s.rows|, i requires 0 <= i < |s.rows| =>
        var v := s.rows[i].values;
        s.rows[i].(values := v[Engagement := EngagementOf(Get(v, Clicks), Get(v, Impressions))])))
    else s
  }

  /**
   * The aggregation pipeline of process_data, on an already coerced table: one row per
   * platform in order of first appearance, with aggregated columns and possibly Engagement.
   */
  function Summarise(rows: seq<Record>, columns: set<string>): (s: Summary)
    ensures |s.rows| == |Platforms(rows)|
    ensures forall i :: 0 <= i < |s.rows| ==> s.rows[i].platform == Platforms(rows)[i]
    ensures s.columns <= AggregatedColumns(columns) + {Engagement}
  {
    var aggregated := AggregatedColumns(columns);
    AddEngagement(DropMissingColumns(GroupRows(rows, aggregated), aggregated))
  }

  const SchemaError: Error := ValueError("Data must contain 'Channel_Used' and 'ROI' columns")

  /**
   * What process_data returns: the schema error exactly when a required column is
   * missing, otherwise a well-formed summary of the coerced table.
   */
  function ProcessOutcome(rows: seq<Record>, columns: set<string>): (r: Result<Summary, Error>)
    ensures r.Failure? <==> ChannelUsed !in columns || Roi !in columns
    ensures r.Failure? ==> r.error == SchemaError
    ensures r.Success? ==> WellFormed(r.value)
  {
    if ChannelUsed !in columns || Roi !in columns then Failure(SchemaError)
    else
      SummariseWellFormed(CoerceTable(rows, columns), columns);
      Success(Summarise(CoerceTable(rows, columns), columns))
  }

  // ---------------------------------------------------------------------------
  // Properties of the aggregation
  // ---------------------------------------------------------------------------

  /** Every row has exactly the summary's columns, and only Engagement can be missing. */
  predicate WellFormed(s: Summary)
  {
    forall i :: 0 <= i < |s.rows| ==>
      s.rows[i].values.Keys == s.columns &&
      forall c :: c in s.columns && c != Engagement ==> s.rows[i].values[c].Some?
  }

  lemma SummariseWellFormed(rows: seq<Record>, columns: set<string>)
    ensures WellFormed(Summarise(rows, columns))
    ensures Summarise(rows, columns).columns <= set c | c in NumericColumns + [Engagement]
  {
    var aggregated := AggregatedColumns(columns);
    var d := DropMissingColumns(GroupRows(rows, aggregated), aggregated);
    DropWellFormed(GroupRows(rows, aggregated), aggregated);
    AddEngagementWellFormed(d);
    assert d.columns <= aggregated;
  }

  /** dropna leaves a table whose every row has exactly the kept columns, all present. */
  lemma DropWellFormed(g: seq<PlatformRow>, aggregated: set<string>)
    ensures WellFormed(DropMissingColumns(g, aggregated))
    ensures DropMissingColumns(g, aggregated).columns <= aggregated
  {
    var s := DropMissingColumns(g, aggregated);
    forall i | 0 <= i < |s.rows|
      ensures s.rows[i].values.Keys == s.columns
      ensures forall c :: c in s.columns && c != Engagement ==> s.rows[i].values[c].Some?
    {
      forall c | c in s.columns ensures c in g[i].values && g[i].values[c].Some? {
        assert NoMissing(g, c);
      }
    }
  }

  /** Adding Engagement keeps a table well formed (Engagement itself may be missing). */
  lemma AddEngagementWellFormed(d: Summary)
    requires WellFormed(d)
    ensures WellFormed(AddEngagement(d))
    ensures AddEngagement(d).columns <= d.columns + {Engagement}
  {
  }

  /** The output has exactly one row per distinct platform of the input. */
  lemma SummaryOneRowPerPlatform(rows: seq<Record>, columns: set<string>)
    ensures var s := Summarise(rows, columns);
      && (forall p :: p in PlatformSet(rows) <==> exists i :: 0 <= i < |s.rows| && s.rows[i].platform == p)
      && (forall i, j :: 0 <= i < j < |s.rows| ==> s.rows[i].platform != s.rows[j].platform)
  {
    var s := Summarise(rows, columns);
    var ps := Platforms(rows);
    forall p | p in PlatformSet(rows)
      ensures exists i :: 0 <= i < |s.rows| && s.rows[i].platform == p
    {
      var i :| 0 <= i < |ps| && ps[i] == p;
      assert s.rows[i].platform == p;
    }
  }

  /**
   * An aggregated column survives exactly when the table has it and its aggregate
   * exists on every platform.
   */
  lemma ColumnSurvival(rows: seq<Record>, columns: set<string>, c: string)
    requires c != Engagement
    ensures c in Summarise(rows, columns).columns <==>
      c in NumericColumns && c in columns &&
      forall p :: p in PlatformSet(rows) ==> Aggregate(c, Group(rows, p)).Some?
  {
    var aggregated := AggregatedColumns(columns);
    KeptColumn(rows, columns, c);
    if c in aggregated {
      NoMissingIff(rows, aggregated, c);
    }
  }

  /** A column other than Engagement survives exactly when dropna keeps it. */
  lemma KeptColumn(rows: seq<Record>, columns: set<string>, c: string)
    requires c != Engagement
    ensures c in Summarise(rows, columns).columns <==>
      c in AggregatedColumns(columns) && NoMissing(GroupRows(rows, AggregatedColumns(columns)), c)
  {
    var aggregated := AggregatedColumns(columns);
    var d := DropMissingColumns(GroupRows(rows, aggregated), aggregated);
    assert Summarise(rows, columns) == AddEngagement(d);
    assert c in AddEngagement(d).columns <==> c in d.columns;
  }

  /** No platform row lacks column `c` exactly when every platform's aggregate exists. */
  lemma NoMissingIff(rows: seq<Record>, aggregated: set<string>, c: string)
    requires c in aggregated
    ensures NoMissing(GroupRows(rows, aggregated), c) <==>
      forall p :: p in PlatformSet(rows) ==> Aggregate(c, Group(rows, p)).Some?
  {
    var g := GroupRows(rows, aggregated);
    var ps := Platforms(rows);
    if forall p :: p in PlatformSet(rows) ==> Aggregate(c, Group(rows, p)).Some? {
      forall i | 0 <= i < |g| ensures c in g[i].values && g[i].values[c].Some? {
        assert ps[i] in PlatformSet(rows);
        GroupRowValue(rows, aggregated, i, c);
      }
    }
    if NoMissing(g, c) {
      forall p | p in PlatformSet(rows) ensures Aggregate(c, Group(rows, p)).Some? {
        var i :| 0 <= i < |ps| && ps[i] == p;
        GroupRowValue(rows, aggregated, i, c);
        assert g[i].values[c].Some?;
      }
    }
  }

  /**
   * A surviving column holds, on each platform's row, the mean (ROI,
   * Conversion_Rate, Acquisition_Cost) or the sum (Clicks, Impressions) of that
   * platform's non-missing values.
   */
  lemma SummaryValues(rows: seq<Record>, columns: set<string>, i: int, c: string)
    requires 0 <= i < |Summarise(rows, columns).rows|
    requires c in Summarise(rows, columns).columns && c != Engagement
    ensures var row := Summarise(rows, columns).rows[i];
      var vs := ColumnValues(Group(rows, row.platform), c);
      && c in row.values
      && (c in SumColumns ==> row.values[c] == Some(Sum(vs)))
      && (c !in SumColumns ==> vs != [] && row.values[c] == Some(Sum(vs) / (|vs| as real)))
  {
    SummaryRowAggregate(rows, columns, i, c);
  }

  /** The stages of Summarise keep, for a surviving column, the aggregate of GroupRows. */
  lemma SummaryRowAggregate(rows: seq<Record>, columns: set<string>, i: int, c: string)
    requires 0 <= i < |Summarise(rows, columns).rows|
    requires c in Summarise(rows, columns).columns && c != Engagement
    ensures var row := Summarise(rows, columns).rows[i];
      c in row.values && row.values[c] == Aggregate(c, Group(rows, row.platform)) && row.values[c].Some?
  {
    var aggregated := AggregatedColumns(columns);
    var g := GroupRows(rows, aggregated);
    var d := DropMissingColumns(g, aggregated);
    AddEngagementKeeps(d, i, c);
    DropKeeps(g, aggregated, i, c);
    GroupRowValue(rows, aggregated, i, c);
  }

  lemma AddEngagementKeeps(d: Summary, i: int, c: string)
    requires 0 <= i < |d.rows| && c != Engagement
    ensures var t := AddEngagement(d);
      && (c in t.columns <==> c in d.columns)
      && t.rows[i].platform == d.rows[i].platform
      && (c in d.rows[i].values ==> c in t.rows[i].values && t.rows[i].values[c] == d.rows[i].values[c])
  {
  }

  lemma DropKeeps(g: seq<PlatformRow>, aggregated: set<string>, i: int, c: string)
    requires 0 <= i < |g| && c in DropMissingColumns(g, aggregated).columns
    ensures var d := DropMissingColumns(g, aggregated);
      && c in aggregated && NoMissing(g, c)
      && d.rows[i].platform == g[i].platform
      && c in d.rows[i].values && d.rows[i].values[c] == g[i].values[c]
  {
  }

  lemma GroupRowValue(rows: seq<Record>, aggregated: set<string>, i: int, c: string)
    requires 0 <= i < |Platforms(rows)| && c in aggregated
    ensures var g := GroupRows(rows, aggregated);
      g[i].platform == Platforms(rows)[i] && g[i].values[c] == Aggregate(c, Group(rows, Platforms(rows)[i]))
  {
  }

  /** A summed column of the table always survives, since a sum is never missing. */
  lemma SumColumnsSurvive(rows: seq<Record>, columns: set<string>, c: string)
    requires c in SumColumns && c in columns
    ensures c in Summarise(rows, columns).columns
  {
    ColumnSurvival(rows, columns, c);
  }

  /** An averaged column survives exactly when every platform has a value in it. */
  lemma MeanColumnSurvival(rows: seq<Record>, columns: set<string>, c: string)
    requires c in NumericColumns && c !in SumColumns && c in columns
    ensures c in Summarise(rows, columns).columns <==>
      forall p :: p in PlatformSet(rows) ==> ColumnValues(Group(rows, p), c) != []
  {
    ColumnSurvival(rows, columns, c);
  }

  /** A column absent from the input is absent from the output. */
  lemma AbsentColumnsStayAbsent(rows: seq<Record>, columns: set<string>, c: string)
    requires c != Engagement && c !in columns
    ensures c !in Summarise(rows, columns).columns
  {
    ColumnSurvival(rows, columns, c);
  }

  /**
   * Engagement is present exactly when the table has both Clicks and Impressions, and
   * on each row it is Clicks / Impressions, missing when there are no impressions.
   */
  lemma EngagementColumn(rows: seq<Record>, columns: set<string>)
    ensures var s := Summarise(rows, columns);
      && (Engagement in s.columns <==> Clicks in columns && Impressions in columns)
      && (Engagement in s.columns ==> forall i :: 0 <= i < |s.rows| ==>
            var clicks := Sum(ColumnValues(Group(rows, s.rows[i].platform), Clicks));
            var impressions := Sum(ColumnValues(Group(rows, s.rows[i].platform), Impressions));
            s.rows[i].values[Engagement] == if impressions == 0.0 then None else Some(clicks / impressions))
  {
    var aggregated := AggregatedColumns(columns);
    var d := DropMissingColumns(GroupRows(rows, aggregated), aggregated);
    ColumnSurvival(rows, columns, Clicks);
    ColumnSurvival(rows, columns, Impressions);
    assert Engagement !in d.columns;
  }

  // ---------------------------------------------------------------------------
  // Means and sums
  // ---------------------------------------------------------------------------

  lemma {:induction false} SumAppend(a: seq<real>, b: seq<real>)
    ensures Sum(a + b) == Sum(a) + Sum(b)
    decreases |b|
  {
    if b == [] {
      assert a + b == a;
    } else {
      var b0, bl := b[..|b| - 1], b[|b| - 1];
      assert a + b == (a + b0) + [bl];
      assert (a + b)[..|a + b| - 1] == a + b0;
      SumAppend(a, b0);
    }
  }

  /** Every value lies in [lo, hi], so the sum lies in [n * lo, n * hi]. */
  lemma {:induction false} SumBounds(xs: seq<real>, lo: real, hi: real)
    requires forall i :: 0 <= i < |xs| ==> lo <= xs[i] <= hi
    ensures (|xs| as real) * lo <= Sum(xs) <= (|xs| as real) * hi
  {
    if xs != [] {
      var init := xs[..|xs| - 1];
      SumBounds(init, lo, hi);
      assert (|xs| as real) * lo == (|init| as real) * lo + lo;
      assert (|xs| as real) * hi == (|init| as real) * hi + hi;
    }
  }

  /** A mean lies between any lower and upper bound of the values it averages. */
  lemma MeanWithinBounds(xs: seq<real>, lo: real, hi: real)
    requires xs != []
    requires forall i :: 0 <= i < |xs| ==> lo <= xs[i] <= hi
    ensures lo <= Mean(xs).value <= hi
  {
    SumBounds(xs, lo, hi);
    var n := |xs| as real;
    var m := Sum(xs) / n;
    assert m * n == Sum(xs);
  }

  lemma ColumnValuesSnoc(rows: seq<Record>, r: Record, c: string)
    ensures ColumnValues(rows + [r], c) == ColumnValues(rows, c) + CellValues(r, c)
  {
    assert (rows + [r])[..|rows|] == rows;
  }

  lemma GroupSnoc(rows: seq<Record>, r: Record, p: string)
    ensures Group(rows + [r], p) == Group(rows, p) + (if r.platform == p then [r] else [])
  {
    assert (rows + [r])[..|rows|] == rows;
  }

  lemma {:induction false} GroupOfAbsent(rows: seq<Record>, p: string)
    requires p !in PlatformSet(rows)
    ensures Group(rows, p) == []
  {
    if rows != [] {
      var init, last := rows[..|rows| - 1], rows[|rows| - 1];
      assert rows == init + [last];
      PlatformSetSnoc(init, last);
      GroupOfAbsent(init, p);
      GroupSnoc(init, last, p);
    }
  }

  /** The total of column `c` over the records of platform `p`. */
  function GroupTotal(rows: seq<Record>, p: string, c: string): real
  {
    Sum(ColumnValues(Group(rows, p), c))
  }

  /** The sum of the totals of column `c` over the platforms `ps`. */
  function TotalOver(ps: seq<string>, rows: seq<Record>, c: string): real
  {
    if ps == [] then 0.0 else TotalOver(ps[..|ps| - 1], rows, c) + GroupTotal(rows, ps[|ps| - 1], c)
  }

  /** Appending a record adds its value to its own platform's total only. */
  lemma GroupTotalSnoc(rows: seq<Record>, r: Record, c: string, p: string)
    ensures GroupTotal(rows + [r], p, c) ==
      GroupTotal(rows, p, c) + (if p == r.platform then Sum(CellValues(r, c)) else 0.0)
  {
    GroupSnoc(rows, r, p);
    if p == r.platform {
      ColumnValuesSnoc(Group(rows, p), r, c);
      SumAppend(ColumnValues(Group(rows, p), c), CellValues(r, c));
    } else {
      assert Group(rows + [r], p) == Group(rows, p);
    }
  }

  /** Over distinct platforms, appending a record adds its value once if its platform is listed. */
  lemma {:induction false} TotalOverSnoc(ps: seq<string>, rows: seq<Record>, r: Record, c: string)
    requires forall i, j :: 0 <= i < j < |ps| ==> ps[i] != ps[j]
    ensures TotalOver(ps, rows + [r], c) ==
      TotalOver(ps, rows, c) + (if r.platform in ps then Sum(CellValues(r, c)) else 0.0)
  {
    if ps != [] {
      var init, last := ps[..|ps| - 1], ps[|ps| - 1];
      assert ps == init + [last];
      TotalOverSnoc(init, rows, r, c);
      GroupTotalSnoc(rows, r, c, last);
      assert r.platform in ps <==> r.platform in init || r.platform == last;
      assert r.platform == last ==> r.platform !in init;
    }
  }

  lemma PlatformsSnoc(rows: seq<Record>, r: Record)
    ensures Platforms(rows + [r]) ==
      if r.platform in Platforms(rows) then Platforms(rows) else Platforms(rows) + [r.platform]
  {
    assert (rows + [r])[..|rows|] == rows;
  }

  /**
   * Grouping partitions the records: the platform totals of a column add up to the
   * column's total over the whole input.
   */
  lemma {:induction false} GroupTotalsPartition(rows: seq<Record>, c: string)
    ensures TotalOver(Platforms(rows), rows, c) == Sum(ColumnValues(rows, c))
  {
    if rows != [] {
      var init, last := rows[..|rows| - 1], rows[|rows| - 1];
      assert rows == init + [last];
      GroupTotalsPartition(init, c);
      ColumnValuesSnoc(init, last, c);
      SumAppend(ColumnValues(init, c), CellValues(last, c));
      PartitionStep(init, last, c);
    }
  }

  /** Appending a record adds its value to the platform totals exactly once. */
  lemma PartitionStep(rows: seq<Record>, r: Record, c: string)
    ensures TotalOver(Platforms(rows + [r]), rows + [r], c) ==
      TotalOver(Platforms(rows), rows, c) + Sum(CellValues(r, c))
  {
    var ps := Platforms(rows);
    PlatformsSnoc(rows, r);
    TotalOverSnoc(ps, rows, r, c);
    if r.platform !in ps {
      var ps' := ps + [r.platform];
      assert ps'[..|ps'| - 1] == ps;
      GroupOfAbsent(rows, r.platform);
      GroupTotalSnoc(rows, r, c, r.platform);
      assert ColumnValues([], c) == [];
    }
  }

  /** A sum of per-platform totals, listed in platform order, is their TotalOver. */
  lemma {:induction false} SumOfTotals(xs: seq<real>, ps: seq<string>, rows: seq<Record>, c: string)
    requires |xs| == |ps|
    requires forall i :: 0 <= i < |ps| ==> xs[i] == GroupTotal(rows, ps[i], c)
    ensures Sum(xs) == TotalOver(ps, rows, c)
  {
    if ps != [] {
      SumOfTotals(xs[..|xs| - 1], ps[..|ps| - 1], rows, c);
    }
  }

  /** The total of a column of a summary over all its rows. */
  function ColumnTotal(s: Summary, c: string): real
    requires WellFormed(s) && c in s.columns && c != Engagement
  {
    Sum(seq(|s.rows|, i requires 0 <= i < |s.rows| => s.rows[i].values[c].value))
  }

  /** A summed column of the output totals to the same value as in the input. */
  lemma SumColumnTotals(rows: seq<Record>, columns: set<string>, c: string)
    requires c in SumColumns && c in columns
    ensures c in Summarise(rows, columns).columns
    ensures WellFormed(Summarise(rows, columns))
    ensures ColumnTotal(Summarise(rows, columns), c) == Sum(ColumnValues(rows, c))
  {
    var s := Summarise(rows, columns);
    SumColumnsSurvive(rows, columns, c);
    SummariseWellFormed(rows, columns);
    SummaryOneRowPerPlatform(rows, columns);
    var ps := Platforms(rows);
    var col := seq(|s.rows|, i requires 0 <= i < |s.rows| => s.rows[i].values[c].value);
    forall i | 0 <= i < |s.rows| ensures col[i] == GroupTotal(rows, ps[i], c) {
      SummaryValues(rows, columns, i, c);
    }
    SumOfTotals(col, ps, rows, c);
    GroupTotalsPartition(rows, c);
  }

  /** A surviving averaged column lies, per platform, within the range of its values. */
  lemma SummaryMeanWithinRange(rows: seq<Record>, columns: set<string>, i: int, c: string, lo: real, hi: real)
    requires 0 <= i < |Summarise(rows, columns).rows|
    requires c in Summarise(rows, columns).columns && c != Engagement && c !in SumColumns
    requires var vs := ColumnValues(Group(rows, Summarise(rows, columns).rows[i].platform), c);
      forall k :: 0 <= k < |vs| ==> lo <= vs[k] <= hi
    ensures var row := Summarise(rows, columns).rows[i];
      c in row.values && row.values[c].Some? && lo <= row.values[c].value <= hi
  {
    SummaryValues(rows, columns, i, c);
    var vs := ColumnValues(Group(rows, Summarise(rows, columns).rows[i].platform), c);
    MeanWithinBounds(vs, lo, hi);
  }

  // ---------------------------------------------------------------------------
  // process_data as a whole
  // ---------------------------------------------------------------------------

  lemma {:induction false} CoercedColumnValues(rows: seq<Record>, columns: set<string>, p: string, c: string)
    ensures ColumnValues(Group(CoerceTable(rows, columns), p), c) == ColumnValues(Group(rows, p), c)
    ensures PlatformSet(CoerceTable(rows, columns)) == PlatformSet(rows)
  {
    var coerced := CoerceTable(rows, columns);
    if rows != [] {
      var init, last := rows[..|rows| - 1], rows[|rows| - 1];
      assert rows == init + [last];
      var ci, cl := CoerceTable(init, columns), coerced[|rows| - 1];
      assert coerced == ci + [cl];
      CoercedColumnValues(init, columns, p, c);
      GroupSnoc(init, last, p);
      GroupSnoc(ci, cl, p);
      PlatformSetSnoc(init, last);
      PlatformSetSnoc(ci, cl);
      assert Lookup(cl, c) == Lookup(last, c);
      if last.platform == p {
        ColumnValuesSnoc(Group(init, p), last, c);
        ColumnValuesSnoc(Group(ci, p), cl, c);
      } else {
        assert Group(coerced, p) == Group(ci, p);
        assert Group(rows, p) == Group(init, p);
      }
    }
  }

  /** validate_data accepts a column set exactly when process_data does not raise. */
  lemma ValidateAgreesWithProcess(rows: seq<Record>, columns: set<string>)
    ensures ValidateData(columns).valid <==> ProcessOutcome(rows, columns).Success?
  {
  }

  /**
   * Engagement, stated on the caller's original records: present exactly when the table
   * has Clicks and Impressions, and then per platform the summed Clicks over the summed
   * Impressions, missing where the Impressions total is 0.
   */
  lemma CoercedEngagement(rows: seq<Record>, columns: set<string>)
    ensures var s := Summarise(CoerceTable(rows, columns), columns);
      && (Engagement in s.columns <==> Clicks in columns && Impressions in columns)
      && (Engagement in s.columns ==> forall i :: 0 <= i < |s.rows| ==>
            var clicks := Sum(ColumnValues(Group(rows, s.rows[i].platform), Clicks));
            var impressions := Sum(ColumnValues(Group(rows, s.rows[i].platform), Impressions));
            s.rows[i].values[Engagement] == if impressions == 0.0 then None else Some(clicks / impressions))
  {
    var coerced := CoerceTable(rows, columns);
    var s := Summarise(coerced, columns);
    EngagementColumn(coerced, columns);
    forall i | 0 <= i < |s.rows|
      ensures Sum(ColumnValues(Group(coerced, s.rows[i].platform), Clicks)) ==
              Sum(ColumnValues(Group(rows, s.rows[i].platform), Clicks))
      ensures Sum(ColumnValues(Group(coerced, s.rows[i].platform), Impressions)) ==
              Sum(ColumnValues(Group(rows, s.rows[i].platform), Impressions))
    {
      CoercedColumnValues(rows, columns, s.rows[i].platform, Clicks);
      CoercedColumnValues(rows, columns, s.rows[i].platform, Impressions);
    }
  }

  /**
   * process_data on the caller's table: the schema error exactly when a required
   * column is missing; otherwise one row per distinct input platform, each surviving
   * column holding the mean or sum of that platform's original numeric values, and a
   * column surviving exactly when the input has it and every platform has a value.
   * Engagement, derived from the surviving Clicks and Impressions, is stated by CoercedEngagement.
   */
  lemma ProcessDataContract(rows: seq<Record>, columns: set<string>)
    ensures var r := ProcessOutcome(rows, columns);
      && (r.Failure? <==> ChannelUsed !in columns || Roi !in columns)
      && (r.Failure? ==> r.error == ValueError("Data must contain 'Channel_Used' and 'ROI' columns"))
    ensures ProcessOutcome(rows, columns).Success? ==>
      var s := ProcessOutcome(rows, columns).value;
      && WellFormed(s)
      && (forall p :: p in PlatformSet(rows) <==> exists i :: 0 <= i < |s.rows| && s.rows[i].platform == p)
      && (forall i, j :: 0 <= i < j < |s.rows| ==> s.rows[i].platform != s.rows[j].platform)
      && (forall c :: c != Engagement ==>
            (c in s.columns <==> (c in NumericColumns && c in columns &&
              forall p :: p in PlatformSet(rows) ==> Aggregate(c, Group(rows, p)).Some?)))
      && (forall i, c :: 0 <= i < |s.rows| && c in s.columns && c != Engagement ==>
            c in s.rows[i].values && s.rows[i].values[c] == Aggregate(c, Group(rows, s.rows[i].platform)))
  {
    if ChannelUsed in columns && Roi in columns {
      var coerced := CoerceTable(rows, columns);
      assert ProcessOutcome(rows, columns).value == Summarise(coerced, columns);
      SummariseWellFormed(coerced, columns);
      CoercedPlatforms(rows, columns);
      CoercedColumns(rows, columns);
      CoercedValues(rows, columns);
    }
  }

  /** The summary of the coerced table has one row per distinct platform of the original. */
  lemma CoercedPlatforms(rows: seq<Record>, columns: set<string>)
    ensures var s := Summarise(CoerceTable(rows, columns), columns);
      && (forall p :: p in PlatformSet(rows) <==> exists i :: 0 <= i < |s.rows| && s.rows[i].platform == p)
      && (forall i, j :: 0 <= i < j < |s.rows| ==> s.rows[i].platform != s.rows[j].platform)
  {
    CoercedColumnValues(rows, columns, "", "");
    SummaryOneRowPerPlatform(CoerceTable(rows, columns), columns);
  }

  /** Coercion leaves every platform's aggregates as they are on the original records. */
  lemma CoercedAggregates(rows: seq<Record>, columns: set<string>)
    ensures PlatformSet(CoerceTable(rows, columns)) == PlatformSet(rows)
    ensures forall p, c :: Aggregate(c, Group(CoerceTable(rows, columns), p)) == Aggregate(c, Group(rows, p))
  {
    CoercedColumnValues(rows, columns, "", "");
    forall p, c ensures Aggregate(c, Group(CoerceTable(rows, columns), p)) == Aggregate(c, Group(rows, p)) {
      CoercedColumnValues(rows, columns, p, c);
    }
  }

  /** Which columns the summary of the coerced table keeps, in terms of the original records. */
  lemma CoercedColumns(rows: seq<Record>, columns: set<string>)
    ensures var s := Summarise(CoerceTable(rows, columns), columns);
      forall c :: c != Engagement ==>
        (c in s.columns <==> (c in NumericColumns && c in columns &&
          forall p :: p in PlatformSet(rows) ==> Aggregate(c, Group(rows, p)).Some?))
  {
    var coerced := CoerceTable(rows, columns);
    CoercedAggregates(rows, columns);
    forall c | c != Engagement
      ensures c in Summarise(coerced, columns).columns <==> (c in NumericColumns && c in columns &&
        forall p :: p in PlatformSet(rows) ==> Aggregate(c, Group(rows, p)).Some?)
    {
      ColumnSurvival(coerced, columns, c);
    }
  }

  /** The values of the summary of the coerced table are the original records' aggregates. */
  lemma CoercedValues(rows: seq<Record>, columns: set<string>)
    ensures var s := Summarise(CoerceTable(rows, columns), columns);
      forall i, c :: 0 <= i < |s.rows| && c in s.columns && c != Engagement ==>
        c in s.rows[i].values && s.rows[i].values[c] == Aggregate(c, Group(rows, s.rows[i].platform))
  {
    var coerced := CoerceTable(rows, columns);
    var s := Summarise(coerced, columns);
    CoercedAggregates(rows, columns);
    SummariseWellFormed(coerced, columns);
    forall i, c | 0 <= i < |s.rows| && c in s.columns && c != Engagement
      ensures c in s.rows[i].values && s.rows[i].values[c] == Aggregate(c, Group(rows, s.rows[i].platform))
    {
      SummaryValues(coerced, columns, i, c);
    }
  }
}
