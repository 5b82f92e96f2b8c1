/**
 * The part of a pandas DataFrame the loaders use: an ordered list of
 * distinct column names and a list of rows, each row a map from column name
 * to cell. The column operations are pure functions on `Table` values; the
 * class `Frame` is the mutable DataFrame object whose columns are assigned
 * in place.
 */
module Frames {
  import opened Wrappers

  /** A calendar date, what `.dt.date` leaves of a timestamp: no time of day. */
  datatype CalDate = CalDate(year: int, month: int, day: int)

  /**
   * One cell. `Null` stands for every missing value pandas has (None, NaN,
   * NaT); `Num` holds a number exactly, as a decimal.
   */
  datatype Cell = Null | Str(text: string) | Date(date: CalDate) | Num(amount: real)

  type Row = map<string, Cell>

  datatype Table = Table(columns: seq<string>, rows: seq<Row>)

  function ColumnSet(cols: seq<string>): set<string> {
    set c | c in cols
  }

  predicate Distinct(cols: seq<string>) {
    forall i, j :: 0 <= i < j < |cols| ==> cols[i] != cols[j]
  }

  /** What `pd.read_csv` hands over: distinct headers, and every row has exactly those keys. */
  predicate WellFormed(t: Table) {
    && Distinct(t.columns)
    && forall j :: 0 <= j < |t.rows| ==> t.rows[j].Keys == ColumnSet(t.columns)
  }

  /** Every name in `cols` is a column of `t`. */
  predicate HasColumns(t: Table, cols: seq<string>) {
    forall c :: c in cols ==> c in t.columns
  }

  /** The cell of column `c`, or Null when the row has no such column. */
  function Get(r: Row, c: string): Cell {
    if c in r then r[c] else Null
  }

  /**
   * `df[col] = v` with a scalar `v`: every row gets `v` in `col`; a column
   * that did not exist is appended after the others.
   */
  function Assigned(t: Table, col: string, v: Cell): (r: Table)
    ensures |r.rows| == |t.rows|
    ensures r.columns == if col in t.columns then t.columns else t.columns + [col]
    ensures WellFormed(t) ==> WellFormed(r)
  {
    var cols := if col in t.columns then t.columns else t.columns + [col];
    assert ColumnSet(cols) == ColumnSet(t.columns) + {col};
    Table(cols, seq(|t.rows|, j requires 0 <= j < |t.rows| => t.rows[j][col := v]))
  }

  /** After `df[col] = v`, column `col` reads `v` and every other column reads as before. */
  lemma AssignedGet(t: Table, col: string, v: Cell, j: nat, c: string)
    requires j < |t.rows|
    ensures Get(Assigned(t, col, v).rows[j], c) == if c == col then v else Get(t.rows[j], c)
  {
  }

  /** The name `df.rename(columns=m)` gives column `c`: its entry in `m`, or itself. */
  function RenameCol(m: map<string, string>, c: string): string {
    if c in m then m[c] else c
  }

  /**
   * No two columns end up with the same name after renaming. pandas would
   * then hold duplicate columns, which this model does not represent.
   */
  predicate NoClash(cols: seq<string>, m: map<string, string>) {
    forall i, j :: 0 <= i < j < |cols| ==> RenameCol(m, cols[i]) != RenameCol(m, cols[j])
  }

  function RenameRow(r: Row, cols: seq<string>, m: map<string, string>): Row
    requires NoClash(cols, m)
    requires forall c :: c in cols ==> c in r
  {
    map i | 0 <= i < |cols| :: RenameCol(m, cols[i]) := r[cols[i]]
  }

  function RenamedColumns(cols: seq<string>, m: map<string, string>): (r: seq<string>)
    ensures |r| == |cols| && forall i :: 0 <= i < |cols| ==> r[i] == RenameCol(m, cols[i])
  {
    seq(|cols|, i requires 0 <= i < |cols| => RenameCol(m, cols[i]))
  }

  /** A renamed row has exactly the renamed header as its keys. */
  lemma RenameRowKeys(r: Row, cols: seq<string>, m: map<string, string>)
    requires NoClash(cols, m) && r.Keys == ColumnSet(cols)
    ensures RenameRow(r, cols, m).Keys == ColumnSet(RenamedColumns(cols, m))
  {
    var a, rc := RenameRow(r, cols, m), RenamedColumns(cols, m);
    forall c | c in a.Keys ensures c in ColumnSet(rc) {
      var i :| 0 <= i < |cols| && RenameCol(m, cols[i]) == c;
      assert rc[i] == c;
    }
    forall c | c in ColumnSet(rc) ensures c in a.Keys {
      var i :| 0 <= i < |rc| && rc[i] == c;
      assert RenameCol(m, cols[i]) == c;
    }
  }

  /** `df.rename(columns=m)`: a new table whose columns carry their new names, in the old order. */
  function Renamed(t: Table, m: map<string, string>): (r: Table)
    requires WellFormed(t) && NoClash(t.columns, m)
    ensures |r.columns| == |t.columns| && |r.rows| == |t.rows|
    ensures forall i :: 0 <= i < |t.columns| ==> r.columns[i] == RenameCol(m, t.columns[i])
    ensures WellFormed(r)
  {
    var rows := seq(|t.rows|, j requires 0 <= j < |t.rows| => RenameRow(t.rows[j], t.columns, m));
    assert forall j :: 0 <= j < |rows| ==> rows[j].Keys == ColumnSet(RenamedColumns(t.columns, m)) by {
      forall j | 0 <= j < |rows| ensures rows[j].Keys == ColumnSet(RenamedColumns(t.columns, m)) {
        RenameRowKeys(t.rows[j], t.columns, m);
      }
    }
    Table(RenamedColumns(t.columns, m), rows)
  }

  /** A rename that gives every column its own name again leaves a row as it is. */
  lemma RenameRowIdentity(r: Row, cols: seq<string>, m: map<string, string>)
    requires NoClash(cols, m) && r.Keys == ColumnSet(cols)
    requires forall i :: 0 <= i < |cols| ==> RenameCol(m, cols[i]) == cols[i]
    ensures RenameRow(r, cols, m) == r
  {
    var a := RenameRow(r, cols, m);
    RenameRowKeys(r, cols, m);
    assert RenamedColumns(cols, m) == cols;
    forall k | k in a ensures a[k] == r[k] {
      var i :| 0 <= i < |cols| && RenameCol(m, cols[i]) == k;
    }
  }

  /** Renaming that gives every column its own name again is the identity. */
  lemma RenamedIdentity(t: Table, m: map<string, string>)
    requires WellFormed(t)
    requires forall i :: 0 <= i < |t.columns| ==> RenameCol(m, t.columns[i]) == t.columns[i]
    ensures NoClash(t.columns, m) && Renamed(t, m) == t
  {
    var r := Renamed(t, m);
    assert r.columns == t.columns;
    forall j | 0 <= j < |t.rows| ensures r.rows[j] == t.rows[j] {
      RenameRowIdentity(t.rows[j], t.columns, m);
    }
  }

  /** Assigning a column the value it already holds everywhere changes nothing. */
  lemma AssignedSame(t: Table, col: string, v: Cell)
    requires WellFormed(t) && col in t.columns
    requires forall j :: 0 <= j < |t.rows| ==> t.rows[j][col] == v
    ensures Assigned(t, col, v) == t
  {
    var r := Assigned(t, col, v);
    forall j | 0 <= j < |t.rows| ensures r.rows[j] == t.rows[j] {
      assert t.rows[j][col := v] == t.rows[j];
    }
  }

  /**
   * The position of the input column that `rename(columns=m)` turns into
   * `target`; at most one exists when there is no clash.
   */
  function RenameSource(cols: seq<string>, m: map<string, string>, target: string): (r: Option<nat>)
    ensures r.Some? ==> r.value < |cols| && RenameCol(m, cols[r.value]) == target
    ensures r.None? ==> forall i :: 0 <= i < |cols| ==> RenameCol(m, cols[i]) != target
  {
    if cols == [] then None
    else if RenameCol(m, cols[0]) == target then Some(0)
    else match RenameSource(cols[1..], m, target)
      case None => None
      case Some(k) => Some(k + 1)
  }

  /** Without a clash, the column found for a renamed name is the one it came from. */
  lemma RenameSourceUnique(cols: seq<string>, m: map<string, string>, k: nat)
    requires NoClash(cols, m) && k < |cols|
    ensures RenameSource(cols, m, RenameCol(m, cols[k])) == Some(k)
  {
  }

  /** The renamed row holds each input cell under the column's new name. */
  lemma RenameRowAt(r: Row, cols: seq<string>, m: map<string, string>, i: nat)
    requires NoClash(cols, m) && (forall c :: c in cols ==> c in r) && i < |cols|
    ensures RenameCol(m, cols[i]) in RenameRow(r, cols, m)
    ensures RenameRow(r, cols, m)[RenameCol(m, cols[i])] == r[cols[i]]
  {
    var a := RenameRow(r, cols, m);
    var k :| 0 <= k < |cols| && RenameCol(m, cols[k]) == RenameCol(m, cols[i]) && a[RenameCol(m, cols[i])] == r[cols[k]];
    assert k == i;
  }

  /** A name no column is renamed to is not a column of the renamed row. */
  lemma RenameRowMissing(r: Row, cols: seq<string>, m: map<string, string>, target: string)
    requires NoClash(cols, m) && (forall c :: c in cols ==> c in r)
    requires forall i :: 0 <= i < |cols| ==> RenameCol(m, cols[i]) != target
    ensures target !in RenameRow(r, cols, m)
  {
  }

  /** The cell a renamed row holds under `target` is the cell of the one column renamed to it. */
  lemma RenameRowGet(r: Row, cols: seq<string>, m: map<string, string>, target: string)
    requires NoClash(cols, m) && (forall c :: c in cols ==> c in r)
    ensures Get(RenameRow(r, cols, m), target) ==
      match RenameSource(cols, m, target)
      case Some(i) => r[cols[i]]
      case None => Null
  {
    match RenameSource(cols, m, target)
    case Some(i) =>
      RenameRowAt(r, cols, m, i);
    case None =>
      RenameRowMissing(r, cols, m, target);
  }

  /** The cell a renamed table holds under `target` is the cell of the one column renamed to it. */
  lemma RenamedGet(t: Table, m: map<string, string>, j: nat, target: string)
    requires WellFormed(t) && NoClash(t.columns, m) && j < |t.rows|
    ensures Get(Renamed(t, m).rows[j], target) ==
      match RenameSource(t.columns, m, target)
      case Some(i) => t.rows[j][t.columns[i]]
      case None => Null
  {
    assert Renamed(t, m).rows[j] == RenameRow(t.rows[j], t.columns, m);
    RenameRowGet(t.rows[j], t.columns, m, target);
  }

  /** `df[col] = f(df[col])`: an existing column recomputed cell by cell. */
  function Transformed(t: Table, col: string, f: Cell -> Cell): (r: Table)
    requires WellFormed(t) && col in t.columns
    ensures r.columns == t.columns && |r.rows| == |t.rows|
    ensures WellFormed(r)
  {
    Table(t.columns, seq(|t.rows|, j requires 0 <= j < |t.rows| => t.rows[j][col := f(t.rows[j][col])]))
  }

  /** After `df[col] = f(df[col])`, column `col` holds `f` of its old cell and the others are as before. */
  lemma TransformedGet(t: Table, col: string, f: Cell -> Cell, j: nat, c: string)
    requires WellFormed(t) && col in t.columns && j < |t.rows|
    ensures Get(Transformed(t, col, f).rows[j], c) == if c == col then f(Get(t.rows[j], col)) else Get(t.rows[j], c)
  {
  }

  /** `df[cols]`: the listed columns, in the listed order, and nothing else. */
  function Selected(t: Table, cols: seq<string>): (r: Table)
    requires WellFormed(t) && HasColumns(t, cols)
    ensures r.columns == cols && |r.rows| == |t.rows|
    ensures Distinct(cols) ==> WellFormed(r)
  {
    Table(cols, seq(|t.rows|, j requires 0 <= j < |t.rows| => map c | c in cols :: t.rows[j][c]))
  }

  /** `df.values.tolist()`: each row as the list of its cells in column order. */
  function Values(t: Table): (r: seq<seq<Cell>>)
    ensures |r| == |t.rows|
    ensures forall j :: 0 <= j < |r| ==> |r[j]| == |t.columns|
  {
    seq(|t.rows|, j requires 0 <= j < |t.rows| =>
      seq(|t.columns|, i requires 0 <= i < |t.columns| => Get(t.rows[j], t.columns[i])))
  }

  /** Reading `df[cols].values.tolist()` at row j, position k, reads column `cols[k]` of row j. */
  lemma SelectedValuesAt(t: Table, cols: seq<string>, j: nat, k: nat)
    requires WellFormed(t) && HasColumns(t, cols) && j < |t.rows| && k < |cols|
    ensures Values(Selected(t, cols))[j][k] == Get(t.rows[j], cols[k])
  {
  }

  /** A DataFrame object: its column list and rows are replaced when a column is assigned. */
  class Frame {
    var columns: seq<string>
    var rows: seq<Row>

    function Value(): Table
      reads this
    {
      Table(columns, rows)
    }

    ghost predicate Valid()
      reads this
    {
      WellFormed(Value())
    }

    constructor (t: Table)
      ensures Value() == t
    {
      columns := t.columns;
      rows := t.rows;
    }

    /** `df[col] = v` for a scalar `v`, in place. */
    method Assign(col: string, v: Cell)
      modifies this
      ensures Value() == Assigned(old(Value()), col, v)
    {
      var t := Assigned(Value(), col, v);
      columns, rows := t.columns, t.rows;
    }

    /** `df.rename(columns=m)`, which leaves `df` alone and returns a new frame. */
    method Rename(m: map<string, string>) returns (f: Frame)
      requires Valid() && NoClash(columns, m)
      ensures fresh(f) && f.Value() == Renamed(Value(), m)
    {
      f := new Frame(Renamed(Value(), m));
    }

    /** `df[col] = g(df[col])`, in place. */
    method Transform(col: string, g: Cell -> Cell)
      requires Valid() && col in columns
      modifies this
      ensures Value() == Transformed(old(Value()), col, g)
    {
      var t := Transformed(Value(), col, g);
      columns, rows := t.columns, t.rows;
    }

    /** `df[cols]`, a new frame. */
    method Select(cols: seq<string>) returns (f: Frame)
      requires Valid() && HasColumns(Value(), cols)
      ensures fresh(f) && f.Value() == Selected(Value(), cols)
    {
      f := new Frame(Selected(Value(), cols));
    }
  }
}
