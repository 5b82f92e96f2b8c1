/**
 * `TransactionProcessor` of AzureBudgetLoader.py: the per-file
 * preprocessor of the bulk loader, which keeps the vendor label it finds in
 * a field and returns exactly the six canonical columns.
 */
module AzureBudgetLoader {
  import opened Wrappers
  import opened Strings
  import opened Frames
  import opened Vendors
  import opened Preprocessing

  /** The message of the loader's ValueError. */
  function InvalidFileMessage(fileName: string): string {
    "Invalid file type: " + fileName
  }

  /**
   * `TransactionProcessor(file_name).preprocess(df)` as a value: the
   * six-column canonical table, or the ValueError when no prefix matches.
   */
  function Preprocessed(fileName: string, t: Table, p: Parsers): (r: Result<Table, PreprocessError>)
    requires WellFormed(t) && Renamable(fileName, t.columns)
    ensures r.Failure? <==> forall v :: !StartsWith(fileName, Prefix(v))
    ensures r.Failure? ==> r.error == InvalidFileType("Invalid file type: " + fileName)
    ensures r.Success? ==> r.value.columns == Canonical && |r.value.rows| == |t.rows|
  {
    match Classify(fileName)
    case None => Failure(InvalidFileType(InvalidFileMessage(fileName)))
    case Some(v) => Success(Selected(Normalised(v, t, p), Canonical))
  }

  /** Each loaded row is the reference record of the input row at the same position. */
  lemma PreprocessedRecords(fileName: string, t: Table, p: Parsers, v: Vendor, j: nat)
    requires WellFormed(t) && Renamable(fileName, t.columns) && Classify(fileName) == Some(v) && j < |t.rows|
    ensures Preprocessed(fileName, t, p).Success?
    ensures Values(Preprocessed(fileName, t, p).value)[j] == RecordCells(Expected(v, p, t.columns, t.rows[j]))
  {
    NormalisedRecord(v, t, p, j);
  }

  /**
   * The Amount value is always a number: the parsed amount, or 0 when the
   * raw field is null or does not parse.
   */
  lemma PreprocessedAmount(fileName: string, t: Table, p: Parsers, v: Vendor, out: Table, j: nat)
    requires WellFormed(t) && Renamable(fileName, t.columns) && Classify(fileName) == Some(v)
    requires Preprocessed(fileName, t, p) == Success(out) && j < |t.rows|
    ensures var raw := RawField(v, t.columns, t.rows[j], Amount);
      Values(out)[j][4] == Num(if raw.Null? then 0.0 else match p.amount(raw) case Some(a) => a case None => 0.0)
  {
    PreprocessedRecords(fileName, t, p, v, j);
    RecordCellsAt(Expected(v, p, t.columns, t.rows[j]));
  }

  /**
   * Each date value is its raw field coerced: null exactly when the raw
   * field is null or does not parse, and otherwise the parsed date.
   */
  lemma PreprocessedDates(fileName: string, t: Table, p: Parsers, v: Vendor, out: Table, j: nat)
    requires WellFormed(t) && Renamable(fileName, t.columns) && Classify(fileName) == Some(v)
    requires Preprocessed(fileName, t, p) == Success(out) && j < |t.rows|
    ensures Values(out)[j][0] == CoerceDate(p, RawField(v, t.columns, t.rows[j], TransactionDate))
    ensures Values(out)[j][1] == CoerceDate(p, RawField(v, t.columns, t.rows[j], ClearingDate))
  {
    PreprocessedRecords(fileName, t, p, v, j);
    RecordDates(v, p, t.columns, t.rows[j]);
  }

  /** Description and Category are carried over from the renamed input column unchanged. */
  lemma PreprocessedText(fileName: string, t: Table, p: Parsers, v: Vendor, out: Table, j: nat)
    requires WellFormed(t) && Renamable(fileName, t.columns) && Classify(fileName) == Some(v)
    requires Preprocessed(fileName, t, p) == Success(out) && j < |t.rows|
    ensures Values(out)[j][2] == RawField(v, t.columns, t.rows[j], Description)
    ensures Values(out)[j][3] == RawField(v, t.columns, t.rows[j], Category)
  {
    PreprocessedRecords(fileName, t, p, v, j);
    RecordCellsAt(Expected(v, p, t.columns, t.rows[j]));
  }

  /** Every row carries the vendor's label as its Source, so all rows of one file share it. */
  lemma PreprocessedSource(fileName: string, t: Table, p: Parsers, v: Vendor, out: Table, j: nat)
    requires WellFormed(t) && Renamable(fileName, t.columns) && Classify(fileName) == Some(v)
    requires Preprocessed(fileName, t, p) == Success(out) && j < |t.rows|
    ensures Values(out)[j][5] == Str(Label(v))
  {
    PreprocessedRecords(fileName, t, p, v, j);
    RecordCellsAt(Expected(v, p, t.columns, t.rows[j]));
  }

  /** A bank export has no clearing date and no category, whatever columns it had. */
  lemma BankExportBlanks(fileName: string, t: Table, p: Parsers, out: Table, j: nat)
    requires WellFormed(t) && Renamable(fileName, t.columns) && Classify(fileName) == Some(FifthThird)
    requires Preprocessed(fileName, t, p) == Success(out) && j < |t.rows|
    ensures Values(out)[j][1] == Null && Values(out)[j][3] == Null
  {
    PreprocessedRecords(fileName, t, p, FifthThird, j);
    RecordCellsAt(Expected(FifthThird, p, t.columns, t.rows[j]));
  }

  class TransactionProcessor {
    var fileName: string
    /** The vendor label of the last successful classification; None until then. */
    var sourceLabel: Option<string>

    constructor (fileName: string)
      ensures this.fileName == fileName && sourceLabel == None
    {
      this.fileName := fileName;
      sourceLabel := None;
    }

    /**
     * `preprocess(df)`: classifies the file, edits `df` in place for the
     * bank format, and returns a new frame with the canonical columns; on a
     * name of no vendor it raises and leaves `sourceLabel` and `df` as they were.
     */
    method Preprocess(df: Frame, p: Parsers) returns (r: Result<Frame, PreprocessError>)
      requires df.Valid() && Renamable(fileName, df.columns)
      modifies this, df
      ensures fileName == old(fileName)
      ensures sourceLabel == match Classify(fileName)
        case Some(v) => Some(Label(v))
        case None => old(sourceLabel)
      ensures df.Value() == match Classify(fileName)
        case Some(v) => Prepared(v, old(df.Value()))
        case None => old(df.Value())
      ensures r.Failure? ==> Preprocessed(fileName, old(df.Value()), p) == Failure(r.error)
      ensures r.Success? ==> fresh(r.value) && Preprocessed(fileName, old(df.Value()), p) == Success(r.value.Value())
    {
      ghost var t0 := df.Value();
      ghost var v: Vendor;
      var m: map<string, string>;
      if StartsWith(fileName, Prefix(AppleCard)) {
        v := AppleCard;
        sourceLabel := Some(Label(AppleCard));
        m := Mapping(AppleCard);
      } else if StartsWith(fileName, Prefix(Discover)) {
        v := Discover;
        sourceLabel := Some(Label(Discover));
        m := Mapping(Discover);
      } else if StartsWith(fileName, Prefix(FifthThird)) {
        v := FifthThird;
        sourceLabel := Some(Label(FifthThird));
        m := Mapping(FifthThird);
        df.Assign(ClearingDate, Null);
        df.Assign(Category, Null);
      } else {
        assert Classify(fileName) == None;
        r := Failure(InvalidFileType(InvalidFileMessage(fileName)));
        return;
      }
      assert Classify(fileName) == Some(v) && m == Mapping(v);
      assert df.Value() == Prepared(v, t0);
      PreparedNoClash(v, t0);
      var out := Normalise(df, m, sourceLabel.value, p);
      assert out.Value() == Normalised(v, t0, p);
      var selected := out.Select(Canonical);
      r := Success(selected);
    }
  }
}
