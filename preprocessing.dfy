/**
 * The normalisation both loaders perform on one file's table once its
 * vendor is known: the vendor-specific edit, the column rename, the filling
 * of missing canonical columns, and the type coercion with the Source stamp.
 * It is specified here once, as a pipeline of pure table functions, together
 * with an independent row-by-row reference (`Expected`) and the theorems
 * that connect the two.
 */
module Preprocessing {
  import opened Wrappers
  import opened Frames
  import opened Vendors

  const TransactionDate: string := "TransactionDate"
  const ClearingDate: string := "ClearingDate"
  const Description: string := "Description"
  const Category: string := "Category"
  const Amount: string := "Amount"
  const Source: string := "Source"

  /** The five columns created as null when missing, in the order they are checked. */
  const Required: seq<string> := [TransactionDate, ClearingDate, Description, Category, Amount]

  /** The canonical six-column schema, in load order. */
  const Canonical: seq<string> := [TransactionDate, ClearingDate, Description, Category, Amount, Source]

  /**
   * The library parsers the coercion calls. `date` stands for what
   * `pd.to_datetime(..., errors='coerce').dt.date` makes of one present
   * cell and `amount` for `pd.to_numeric(..., errors='coerce')`; None is a
   * value they cannot parse.
   */
  datatype Parsers = Parsers(date: Cell -> Option<CalDate>, amount: Cell -> Option<real>)

  /** The date a cell parses to; a missing cell never parses. */
  function DateOf(p: Parsers, c: Cell): Option<CalDate> {
    if c.Null? then None else p.date(c)
  }

  function DateCell(d: Option<CalDate>): Cell {
    match d
    case Some(day) => Date(day)
    case None => Null
  }

  /** Date coercion of one cell: the parsed date, or null. */
  function CoerceDate(p: Parsers, c: Cell): (r: Cell)
    ensures r.Null? || r.Date?
    ensures r.Null? <==> c.Null? || p.date(c).None?
    ensures r.Date? ==> r == Date(p.date(c).value)
  {
    DateCell(DateOf(p, c))
  }

  /** The amount a cell parses to, 0 when it is missing or does not parse (`.fillna(0)`). */
  function AmountOf(p: Parsers, c: Cell): (r: real)
    ensures r == 0.0 || (!c.Null? && p.amount(c) == Some(r))
    ensures c.Null? || p.amount(c).None? ==> r == 0.0
    ensures !c.Null? && p.amount(c).Some? ==> r == p.amount(c).value
  {
    if c.Null? then 0.0
    else match p.amount(c)
      case Some(x) => x
      case None => 0.0
  }

  function CoerceAmount(p: Parsers, c: Cell): Cell {
    Num(AmountOf(p, c))
  }

  /** The column functions that the coercion assigns. */
  function DateCoercer(p: Parsers): Cell -> Cell {
    c => CoerceDate(p, c)
  }

  function AmountCoercer(p: Parsers): Cell -> Cell {
    c => CoerceAmount(p, c)
  }

  /** The ValueError raised for a file name of no known vendor, with its message. */
  datatype PreprocessError = InvalidFileType(message: string)

  /**
   * What renaming needs of a header: once the file's vendor is known, no two
   * columns may get the same name (a file with both "Amount (USD)" and
   * "Amount", say, is outside the model).
   */
  predicate Renamable(fileName: string, cols: seq<string>) {
    match Classify(fileName)
    case Some(v) => NoClash(cols, Mapping(v))
    case None => true
  }

  // ---------------------------------------------------------------------
  // The pipeline
  // ---------------------------------------------------------------------

  /**
   * The edit the EXPORT branch makes to the very frame it was given, before
   * renaming: ClearingDate and Category are set to None.
   */
  function Prepared(v: Vendor, t: Table): (r: Table)
    ensures WellFormed(t) ==> WellFormed(r)
    ensures |r.rows| == |t.rows|
  {
    if v == FifthThird then Assigned(Assigned(t, ClearingDate, Null), Category, Null) else t
  }

  /** The loop `for col in ...: if col not in df.columns: df[col] = None`. */
  function FillMissing(t: Table, cols: seq<string>): (r: Table)
    ensures WellFormed(t) ==> WellFormed(r)
    ensures |r.rows| == |t.rows|
    ensures |t.columns| <= |r.columns| && r.columns[..|t.columns|] == t.columns
    ensures HasColumns(r, cols)
    ensures forall c :: c in r.columns ==> c in t.columns || c in cols
    decreases |cols|
  {
    if cols == [] then t
    else
      var t' := if cols[0] in t.columns then t else Assigned(t, cols[0], Null);
      var r := FillMissing(t', cols[1..]);
      assert cols[0] in r.columns by {
        var i :| 0 <= i < |t'.columns| && t'.columns[i] == cols[0];
        assert r.columns[..|t'.columns|][i] == cols[0];
      }
      r
  }

  /** Filling adds null columns only: reading any column gives what it gave before. */
  lemma {:induction false} FillMissingGet(t: Table, cols: seq<string>, j: nat, c: string)
    requires WellFormed(t) && j < |t.rows|
    ensures Get(FillMissing(t, cols).rows[j], c) == Get(t.rows[j], c)
    decreases |cols|
  {
    if cols != [] {
      var t' := if cols[0] in t.columns then t else Assigned(t, cols[0], Null);
      if cols[0] !in t.columns {
        AssignedGet(t, cols[0], Null, j, c);
      }
      FillMissingGet(t', cols[1..], j, c);
    }
  }

  /** Filling columns that are all present changes nothing. */
  lemma {:induction false} FillMissingPresent(t: Table, cols: seq<string>)
    requires forall c :: c in cols ==> c in t.columns
    ensures FillMissing(t, cols) == t
    decreases |cols|
  {
    if cols != [] {
      FillMissingPresent(t, cols[1..]);
    }
  }

  /** Assigning a column whose renamed name no other column shares keeps renaming clash-free. */
  lemma AssignedNoClash(t: Table, col: string, v: Cell, m: map<string, string>)
    requires NoClash(t.columns, m)
    requires forall c :: RenameCol(m, c) == RenameCol(m, col) ==> c == col
    ensures NoClash(Assigned(t, col, v).columns, m)
  {
  }

  /** Under the bank mapping only ClearingDate itself is called ClearingDate, and likewise Category. */
  lemma FifthThirdKeeps(c: string)
    ensures RenameCol(Mapping(FifthThird), c) == ClearingDate <==> c == ClearingDate
    ensures RenameCol(Mapping(FifthThird), c) == Category <==> c == Category
  {
  }

  lemma PreparedNoClash(v: Vendor, t: Table)
    requires NoClash(t.columns, Mapping(v))
    ensures NoClash(Prepared(v, t).columns, Mapping(v))
  {
    if v == FifthThird {
      forall c ensures RenameCol(Mapping(v), c) == RenameCol(Mapping(v), ClearingDate) ==> c == ClearingDate {
        FifthThirdKeeps(c);
      }
      forall c ensures RenameCol(Mapping(v), c) == RenameCol(Mapping(v), Category) ==> c == Category {
        FifthThirdKeeps(c);
      }
      AssignedNoClash(t, ClearingDate, Null, Mapping(v));
      AssignedNoClash(Assigned(t, ClearingDate, Null), Category, Null, Mapping(v));
    }
  }

  /**
   * The field mapper of `TransactionProcessor.preprocess` and `preprocess_data`: the vendor's edit, `df.rename`, then the
   * null columns for the required names that are still missing.
   */
  function FieldMapped(v: Vendor, t: Table): (r: Table)
    requires WellFormed(t) && NoClash(t.columns, Mapping(v))
    ensures WellFormed(r) && |r.rows| == |t.rows|
    ensures HasColumns(r, Required)
  {
    PreparedNoClash(v, t);
    FillMissing(Renamed(Prepared(v, t), Mapping(v)), Required)
  }

  /**
   * The coercion of `TransactionProcessor.preprocess` and `preprocess_data`: both date columns parsed, Amount parsed with
   * 0 for failures, and Source set to the label in every row.
   */
  function Coerced(t: Table, sourceLabel: string, p: Parsers): (r: Table)
    requires WellFormed(t) && HasColumns(t, Required)
    ensures WellFormed(r) && |r.rows| == |t.rows|
    ensures HasColumns(r, Canonical)
  {
    var d := Transformed(t, TransactionDate, DateCoercer(p));
    var dd := Transformed(d, ClearingDate, DateCoercer(p));
    var a := Transformed(dd, Amount, AmountCoercer(p));
    Assigned(a, Source, Str(sourceLabel))
  }

  /** The whole normalisation of a table from vendor `v`, before any final projection. */
  function Normalised(v: Vendor, t: Table, p: Parsers): (r: Table)
    requires WellFormed(t) && NoClash(t.columns, Mapping(v))
    ensures WellFormed(r) && |r.rows| == |t.rows|
    ensures HasColumns(r, Canonical)
  {
    Coerced(FieldMapped(v, t), Label(v), p)
  }

  // ---------------------------------------------------------------------
  // The reference: what each canonical field of a row should be
  // ---------------------------------------------------------------------

  /**
   * The raw cell that ends up under column `target` after field mapping,
   * read off the input row directly: the bank's ClearingDate and Category
   * are blank, any other name takes the input column renamed to it, and a
   * name no column is renamed to is null.
   */
  function RawField(v: Vendor, cols: seq<string>, row: Row, target: string): Cell {
    if v == FifthThird && (target == ClearingDate || target == Category) then Null
    else match RenameSource(cols, Mapping(v), target)
      case Some(i) => Get(row, cols[i])
      case None => Null
  }

  /** A canonical transaction record: nullable dates and texts, an amount that is always a number, a source. */
  datatype Record = Record(
    transactionDate: Option<CalDate>,
    clearingDate: Option<CalDate>,
    description: Cell,
    category: Cell,
    amount: real,
    source: string)

  /** The record one input row of vendor `v` should become. */
  function Expected(v: Vendor, p: Parsers, cols: seq<string>, row: Row): Record {
    Record(
      DateOf(p, RawField(v, cols, row, TransactionDate)),
      DateOf(p, RawField(v, cols, row, ClearingDate)),
      RawField(v, cols, row, Description),
      RawField(v, cols, row, Category),
      AmountOf(p, RawField(v, cols, row, Amount)),
      Label(v))
  }

  /** A record as the six values of one INSERT, in the order of `Canonical`. */
  function RecordCells(r: Record): seq<Cell> {
    [DateCell(r.transactionDate), DateCell(r.clearingDate), r.description, r.category, Num(r.amount), Str(r.source)]
  }

  /** The six cells of a record, one by one. */
  lemma RecordCellsAt(r: Record)
    ensures |RecordCells(r)| == 6
    ensures RecordCells(r)[0] == DateCell(r.transactionDate) && RecordCells(r)[1] == DateCell(r.clearingDate)
    ensures RecordCells(r)[2] == r.description && RecordCells(r)[3] == r.category
    ensures RecordCells(r)[4] == Num(r.amount) && RecordCells(r)[5] == Str(r.source)
  {
  }

  /** The date cells of a record are the coerced raw date fields. */
  lemma RecordDates(v: Vendor, p: Parsers, cols: seq<string>, row: Row)
    ensures RecordCells(Expected(v, p, cols, row))[0] == CoerceDate(p, RawField(v, cols, row, TransactionDate))
    ensures RecordCells(Expected(v, p, cols, row))[1] == CoerceDate(p, RawField(v, cols, row, ClearingDate))
  {
  }

  // ---------------------------------------------------------------------
  // The pipeline agrees with the reference
  // ---------------------------------------------------------------------

  lemma {:induction false} RenameSourceAppend(cols: seq<string>, x: string, m: map<string, string>, target: string)
    requires RenameCol(m, x) != target
    ensures RenameSource(cols + [x], m, target) == RenameSource(cols, m, target)
  {
    if cols != [] {
      assert (cols + [x])[1..] == cols[1..] + [x];
      RenameSourceAppend(cols[1..], x, m, target);
    }
  }

  /** The bank edit only appends ClearingDate and Category, so other names are found where they were. */
  lemma PreparedSource(v: Vendor, t: Table, target: string)
    requires !(v == FifthThird && (target == ClearingDate || target == Category))
    ensures RenameSource(Prepared(v, t).columns, Mapping(v), target) == RenameSource(t.columns, Mapping(v), target)
    ensures |t.columns| <= |Prepared(v, t).columns| && Prepared(v, t).columns[..|t.columns|] == t.columns
  {
    if v == FifthThird {
      var m := Mapping(v);
      var t1 := Assigned(t, ClearingDate, Null);
      FifthThirdKeeps(ClearingDate);
      FifthThirdKeeps(Category);
      if ClearingDate !in t.columns {
        RenameSourceAppend(t.columns, ClearingDate, m, target);
      }
      if Category !in t1.columns {
        RenameSourceAppend(t1.columns, Category, m, target);
        assert (t1.columns + [Category])[..|t.columns|] == t1.columns[..|t.columns|];
      }
    }
  }

  /** The bank edit seen through the rename: blank ClearingDate and Category, other names as found in the input. */
  lemma BankRenamedCell(t: Table, j: nat, target: string)
    requires WellFormed(t) && NoClash(t.columns, Mapping(FifthThird)) && j < |t.rows|
    ensures var pre := Prepared(FifthThird, t);
      (match RenameSource(pre.columns, Mapping(FifthThird), target)
       case Some(i) => pre.rows[j][pre.columns[i]]
       case None => Null) == RawField(FifthThird, t.columns, t.rows[j], target)
  {
    var m := Mapping(FifthThird);
    var pre := Prepared(FifthThird, t);
    var t1 := Assigned(t, ClearingDate, Null);
    if target == ClearingDate || target == Category {
      match RenameSource(pre.columns, m, target)
      case Some(i) =>
        FifthThirdKeeps(pre.columns[i]);
        AssignedGet(t1, Category, Null, j, target);
        AssignedGet(t, ClearingDate, Null, j, target);
      case None =>
    } else {
      PreparedSource(FifthThird, t, target);
      match RenameSource(t.columns, m, target)
      case Some(i) =>
        var c := t.columns[i];
        assert pre.columns[i] == c;
        FifthThirdKeeps(c);
        AssignedGet(t1, Category, Null, j, c);
        AssignedGet(t, ClearingDate, Null, j, c);
      case None =>
    }
  }

  /** Field mapping, cell by cell: every column of the mapped table holds the reference's raw cell. */
  lemma FieldMappedGet(v: Vendor, t: Table, j: nat, target: string)
    requires WellFormed(t) && NoClash(t.columns, Mapping(v)) && j < |t.rows|
    ensures Get(FieldMapped(v, t).rows[j], target) == RawField(v, t.columns, t.rows[j], target)
  {
    var m := Mapping(v);
    PreparedNoClash(v, t);
    var pre := Prepared(v, t);
    var ren := Renamed(pre, m);
    FillMissingGet(ren, Required, j, target);
    RenamedGet(pre, m, j, target);
    if v == FifthThird {
      BankRenamedCell(t, j, target);
    }
  }

  /** Coercion, cell by cell. */
  lemma CoercedGet(t: Table, sourceLabel: string, p: Parsers, j: nat, c: string)
    requires WellFormed(t) && HasColumns(t, Required) && j < |t.rows|
    ensures Get(Coerced(t, sourceLabel, p).rows[j], c) ==
      if c == Source then Str(sourceLabel)
      else if c == TransactionDate || c == ClearingDate then CoerceDate(p, Get(t.rows[j], c))
      else if c == Amount then CoerceAmount(p, Get(t.rows[j], c))
      else Get(t.rows[j], c)
  {
    var d := Transformed(t, TransactionDate, DateCoercer(p));
    var dd := Transformed(d, ClearingDate, DateCoercer(p));
    var a := Transformed(dd, Amount, AmountCoercer(p));
    TransformedGet(t, TransactionDate, DateCoercer(p), j, c);
    TransformedGet(d, ClearingDate, DateCoercer(p), j, c);
    TransformedGet(dd, Amount, AmountCoercer(p), j, c);
    AssignedGet(a, Source, Str(sourceLabel), j, c);
  }

  /**
   * What column `c` of the normalised table holds for input row `row`: Source
   * is the label, the dates and the amount are coerced raw fields, and every
   * other column (canonical or not) is the raw field itself.
   */
  function ExpectedCell(v: Vendor, p: Parsers, cols: seq<string>, row: Row, c: string): Cell {
    var raw := RawField(v, cols, row, c);
    if c == Source then Str(Label(v))
    else if c == TransactionDate || c == ClearingDate then CoerceDate(p, raw)
    else if c == Amount then CoerceAmount(p, raw)
    else raw
  }

  /** The reference record, read as cells, is the expected cells of the six canonical columns. */
  lemma RecordCellsExpected(v: Vendor, p: Parsers, cols: seq<string>, row: Row)
    ensures RecordCells(Expected(v, p, cols, row)) == [
      ExpectedCell(v, p, cols, row, TransactionDate), ExpectedCell(v, p, cols, row, ClearingDate),
      ExpectedCell(v, p, cols, row, Description), ExpectedCell(v, p, cols, row, Category),
      ExpectedCell(v, p, cols, row, Amount), ExpectedCell(v, p, cols, row, Source)]
  {
  }

  /** Every cell of the normalised table is the expected cell of its input row. */
  lemma NormalisedGet(v: Vendor, t: Table, p: Parsers, j: nat, c: string)
    requires WellFormed(t) && NoClash(t.columns, Mapping(v)) && j < |t.rows|
    ensures Get(Normalised(v, t, p).rows[j], c) == ExpectedCell(v, p, t.columns, t.rows[j], c)
  {
    CoercedGet(FieldMapped(v, t), Label(v), p, j, c);
    FieldMappedGet(v, t, j, c);
  }

  lemma SixCells(row: seq<Cell>, c0: Cell, c1: Cell, c2: Cell, c3: Cell, c4: Cell, c5: Cell)
    requires |row| == 6 && row[0] == c0 && row[1] == c1 && row[2] == c2 && row[3] == c3 && row[4] == c4 && row[5] == c5
    ensures row == [c0, c1, c2, c3, c4, c5]
  {
  }

  /** A row of `df[Canonical].values.tolist()` is fixed by the six cells it reads. */
  lemma CanonicalValues(n: Table, j: nat, c0: Cell, c1: Cell, c2: Cell, c3: Cell, c4: Cell, c5: Cell)
    requires WellFormed(n) && HasColumns(n, Canonical) && j < |n.rows|
    requires Get(n.rows[j], TransactionDate) == c0 && Get(n.rows[j], ClearingDate) == c1
    requires Get(n.rows[j], Description) == c2 && Get(n.rows[j], Category) == c3
    requires Get(n.rows[j], Amount) == c4 && Get(n.rows[j], Source) == c5
    ensures Values(Selected(n, Canonical))[j] == [c0, c1, c2, c3, c4, c5]
  {
    var s := Selected(n, Canonical);
    SelectedValuesAt(n, Canonical, j, 0);
    SelectedValuesAt(n, Canonical, j, 1);
    SelectedValuesAt(n, Canonical, j, 2);
    SelectedValuesAt(n, Canonical, j, 3);
    SelectedValuesAt(n, Canonical, j, 4);
    SelectedValuesAt(n, Canonical, j, 5);
    SixCells(Values(s)[j], c0, c1, c2, c3, c4, c5);
  }

  /** The six canonical cells of a normalised row, one by one. */
  lemma NormalisedFields(v: Vendor, t: Table, p: Parsers, j: nat)
    requires WellFormed(t) && NoClash(t.columns, Mapping(v)) && j < |t.rows|
    ensures Get(Normalised(v, t, p).rows[j], TransactionDate) == ExpectedCell(v, p, t.columns, t.rows[j], TransactionDate)
    ensures Get(Normalised(v, t, p).rows[j], ClearingDate) == ExpectedCell(v, p, t.columns, t.rows[j], ClearingDate)
    ensures Get(Normalised(v, t, p).rows[j], Description) == ExpectedCell(v, p, t.columns, t.rows[j], Description)
    ensures Get(Normalised(v, t, p).rows[j], Category) == ExpectedCell(v, p, t.columns, t.rows[j], Category)
    ensures Get(Normalised(v, t, p).rows[j], Amount) == ExpectedCell(v, p, t.columns, t.rows[j], Amount)
    ensures Get(Normalised(v, t, p).rows[j], Source) == ExpectedCell(v, p, t.columns, t.rows[j], Source)
  {
    NormalisedGet(v, t, p, j, TransactionDate);
    NormalisedGet(v, t, p, j, ClearingDate);
    NormalisedGet(v, t, p, j, Description);
    NormalisedGet(v, t, p, j, Category);
    NormalisedGet(v, t, p, j, Amount);
    NormalisedGet(v, t, p, j, Source);
  }

  /** The headline theorem: the six values loaded for row j are exactly the reference record of input row j. */
  lemma NormalisedRecord(v: Vendor, t: Table, p: Parsers, j: nat)
    requires WellFormed(t) && NoClash(t.columns, Mapping(v)) && j < |t.rows|
    ensures Values(Selected(Normalised(v, t, p), Canonical))[j] == RecordCells(Expected(v, p, t.columns, t.rows[j]))
  {
    var cols, row := t.columns, t.rows[j];
    NormalisedFields(v, t, p, j);
    CanonicalValues(Normalised(v, t, p), j,
      ExpectedCell(v, p, cols, row, TransactionDate), ExpectedCell(v, p, cols, row, ClearingDate),
      ExpectedCell(v, p, cols, row, Description), ExpectedCell(v, p, cols, row, Category),
      ExpectedCell(v, p, cols, row, Amount), ExpectedCell(v, p, cols, row, Source));
    RecordCellsExpected(v, p, cols, row);
  }

  /** Coercion and stamping keep the columns they found, in place. */
  lemma CoercedColumns(t: Table, sourceLabel: string, p: Parsers)
    requires WellFormed(t) && HasColumns(t, Required)
    ensures |t.columns| <= |Coerced(t, sourceLabel, p).columns|
    ensures Coerced(t, sourceLabel, p).columns[..|t.columns|] == t.columns
  {
  }

  /** The expected cells of the coerced columns, spelled out. */
  lemma ExpectedCoerced(v: Vendor, p: Parsers, cols: seq<string>, row: Row)
    ensures ExpectedCell(v, p, cols, row, TransactionDate) == CoerceDate(p, RawField(v, cols, row, TransactionDate))
    ensures ExpectedCell(v, p, cols, row, ClearingDate) == CoerceDate(p, RawField(v, cols, row, ClearingDate))
    ensures ExpectedCell(v, p, cols, row, Amount) == Num(AmountOf(p, RawField(v, cols, row, Amount)))
    ensures ExpectedCell(v, p, cols, row, Source) == Str(Label(v))
  {
  }

  /** The coerced columns of a normalised row, read off the raw fields. */
  lemma NormalisedCoerced(v: Vendor, t: Table, p: Parsers, j: nat)
    requires WellFormed(t) && NoClash(t.columns, Mapping(v)) && j < |t.rows|
    ensures Get(Normalised(v, t, p).rows[j], TransactionDate) == CoerceDate(p, RawField(v, t.columns, t.rows[j], TransactionDate))
    ensures Get(Normalised(v, t, p).rows[j], ClearingDate) == CoerceDate(p, RawField(v, t.columns, t.rows[j], ClearingDate))
    ensures Get(Normalised(v, t, p).rows[j], Amount) == Num(AmountOf(p, RawField(v, t.columns, t.rows[j], Amount)))
    ensures Get(Normalised(v, t, p).rows[j], Source) == Str(Label(v))
  {
    NormalisedFields(v, t, p, j);
    ExpectedCoerced(v, p, t.columns, t.rows[j]);
  }

  /** A column the mapping does not name and the schema does not use keeps its name and its values. */
  lemma NormalisedRetains(v: Vendor, t: Table, p: Parsers, k: nat, j: nat)
    requires WellFormed(t) && NoClash(t.columns, Mapping(v)) && k < |t.columns| && j < |t.rows|
    requires t.columns[k] !in Mapping(v) && t.columns[k] !in Canonical
    ensures Get(Normalised(v, t, p).rows[j], t.columns[k]) == Get(t.rows[j], t.columns[k])
  {
    var c, m := t.columns[k], Mapping(v);
    assert c != TransactionDate && c != ClearingDate && c != Amount && c != Source;
    NormalisedGet(v, t, p, j, c);
    RenameSourceUnique(t.columns, m, k);
  }

  /** The input columns keep their positions, under their new names, ahead of any column the pipeline adds. */
  lemma NormalisedColumns(v: Vendor, t: Table, p: Parsers)
    requires WellFormed(t) && NoClash(t.columns, Mapping(v))
    ensures |t.columns| <= |Normalised(v, t, p).columns|
    ensures forall i :: 0 <= i < |t.columns| ==> Normalised(v, t, p).columns[i] == RenameCol(Mapping(v), t.columns[i])
  {
    PreparedNoClash(v, t);
    var pre := Prepared(v, t);
    PreparedSource(v, t, Source);
    var ren := Renamed(pre, Mapping(v));
    var f := FillMissing(ren, Required);
    assert f == FieldMapped(v, t);
    var n := Coerced(f, Label(v), p);
    CoercedColumns(f, Label(v), p);
    forall i | 0 <= i < |t.columns| ensures n.columns[i] == RenameCol(Mapping(v), t.columns[i]) {
      assert pre.columns[..|t.columns|][i] == t.columns[i];
      assert f.columns[..|ren.columns|][i] == ren.columns[i];
      assert n.columns[..|f.columns|][i] == f.columns[i];
    }
  }

  /** Renaming a name the vendor's rename already produced leaves it as it is. */
  lemma RenameSettled(v: Vendor, c: string)
    ensures RenameCol(Mapping(v), RenameCol(Mapping(v), c)) == RenameCol(Mapping(v), c)
  {
    if c in Mapping(v) {
      MappingTargetsFixed(v, c);
    }
  }

  /** The required canonical names are never renamed. */
  lemma RequiredSettled(v: Vendor, c: string)
    requires c in Required
    ensures RenameCol(Mapping(v), c) == c
  {
  }

  /** Every column of a mapped table already carries its final name. */
  lemma FieldMappedSettled(v: Vendor, t: Table)
    requires WellFormed(t) && NoClash(t.columns, Mapping(v))
    ensures var f := FieldMapped(v, t);
      forall i :: 0 <= i < |f.columns| ==> RenameCol(Mapping(v), f.columns[i]) == f.columns[i]
  {
    var m := Mapping(v);
    var f := FieldMapped(v, t);
    PreparedNoClash(v, t);
    var pre := Prepared(v, t);
    var ren := Renamed(pre, m);
    assert f == FillMissing(ren, Required);
    forall i | 0 <= i < |f.columns| ensures RenameCol(m, f.columns[i]) == f.columns[i] {
      var c := f.columns[i];
      if c in ren.columns {
        var k :| 0 <= k < |ren.columns| && ren.columns[k] == c;
        RenameSettled(v, pre.columns[k]);
      } else {
        RequiredSettled(v, c);
      }
    }
  }

  /** The bank's blank columns are already blank in a mapped table, so its edit changes nothing there. */
  lemma PreparedSettled(v: Vendor, t: Table)
    requires WellFormed(t) && NoClash(t.columns, Mapping(v))
    ensures Prepared(v, FieldMapped(v, t)) == FieldMapped(v, t)
  {
    var f := FieldMapped(v, t);
    if v == FifthThird {
      forall j | 0 <= j < |f.rows| ensures f.rows[j][ClearingDate] == Null {
        FieldMappedGet(v, t, j, ClearingDate);
      }
      AssignedSame(f, ClearingDate, Null);
      forall j | 0 <= j < |f.rows| ensures f.rows[j][Category] == Null {
        FieldMappedGet(v, t, j, Category);
      }
      AssignedSame(f, Category, Null);
    }
  }

  /**
   * The field mapper is idempotent: mapping a table it has already mapped
   * (same vendor) gives the same table back.
   */
  lemma FieldMappedIdempotent(v: Vendor, t: Table)
    requires WellFormed(t) && NoClash(t.columns, Mapping(v))
    ensures NoClash(FieldMapped(v, t).columns, Mapping(v))
    ensures FieldMapped(v, FieldMapped(v, t)) == FieldMapped(v, t)
  {
    var f := FieldMapped(v, t);
    FieldMappedSettled(v, t);
    RenamedIdentity(f, Mapping(v));
    PreparedSettled(v, t);
    FillMissingPresent(f, Required);
  }

  // ---------------------------------------------------------------------
  // The same steps on a mutable frame
  // ---------------------------------------------------------------------

  /** The loop that adds each missing required column, filled with nulls. */
  method FillRequired(f: Frame)
    requires f.Valid()
    modifies f
    ensures f.Valid() && f.Value() == FillMissing(old(f.Value()), Required)
  {
    ghost var target := FillMissing(f.Value(), Required);
    var i := 0;
    while i < |Required|
      invariant 0 <= i <= |Required|
      invariant f.Valid()
      invariant FillMissing(f.Value(), Required[i..]) == target
    {
      assert Required[i..][0] == Required[i] && Required[i..][1..] == Required[i + 1..];
      if Required[i] !in f.columns {
        f.Assign(Required[i], Null);
      }
      i := i + 1;
    }
  }

  /** The coercion of both dates and the amount, then the constant Source column. */
  method CoerceColumns(f: Frame, sourceLabel: string, p: Parsers)
    requires f.Valid() && HasColumns(f.Value(), Required)
    modifies f
    ensures f.Valid() && f.Value() == Coerced(old(f.Value()), sourceLabel, p)
  {
    f.Transform(TransactionDate, DateCoercer(p));
    f.Transform(ClearingDate, DateCoercer(p));
    f.Transform(Amount, AmountCoercer(p));
    f.Assign(Source, Str(sourceLabel));
  }

  /**
   * Renaming by `m` into a new frame, then the fill loop and the coercion
   * on that frame; `prepared` itself is not changed.
   */
  method Normalise(prepared: Frame, m: map<string, string>, sourceLabel: string, p: Parsers) returns (out: Frame)
    requires prepared.Valid() && NoClash(prepared.columns, m)
    ensures fresh(out) && out.Valid()
    ensures out.Value() == Coerced(FillMissing(Renamed(prepared.Value(), m), Required), sourceLabel, p)
  {
    out := prepared.Rename(m);
    FillRequired(out);
    CoerceColumns(out, sourceLabel, p);
  }
}
