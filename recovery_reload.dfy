/**
 * RecoveryReload.py: the second copy of the preprocessing, which returns
 * every column, the projection that builds the INSERT payload, and the
 * replay of an archive folder in ascending name order that logs a failing
 * file and goes on with the next.
 */
module RecoveryReload {
  import opened Wrappers
  import opened Strings
  import opened Lists
  import opened Frames
  import opened Vendors
  import opened Preprocessing
  import AzureBudgetLoader

  // ---------------------------------------------------------------------
  // preprocess_data
  // ---------------------------------------------------------------------

  /** The head of the ValueError message, which is the loader's message. */
  const MessageHead := "Invalid file type: "
  /**
   * The tail of the ValueError message, which names the three accepted
   * prefixes in quotes: ". Must start with 'Apple Card', 'Discover', or 'EXPORT'."
   */
  const MessageTail := ". Must start with " + Quoted(AppleCard) + ", " + Quoted(Discover) + ", or " + Quoted(FifthThird) + "."

  function RecoveryMessage(fileName: string): string {
    MessageHead + fileName + MessageTail
  }

  /** A vendor's prefix in single quotes, as the message writes it. */
  function Quoted(v: Vendor): string {
    "'" + Prefix(v) + "'"
  }

  /** What `s` contains, `pre + s` contains too. */
  lemma ContainsAfter(pre: string, s: string, sub: string)
    requires Contains(s, sub)
    ensures Contains(pre + s, sub)
  {
    var i :| 0 <= i <= |s| && OccursAt(s, sub, i);
    assert (pre + s)[|pre| + i..|pre| + i + |sub|] == s[i..i + |sub|];
    assert OccursAt(pre + s, sub, |pre| + i);
  }

  /** What `s` contains, `s + post` contains too. */
  lemma ContainsBefore(s: string, post: string, sub: string)
    requires Contains(s, sub)
    ensures Contains(s + post, sub)
  {
    var i :| 0 <= i <= |s| && OccursAt(s, sub, i);
    assert (s + post)[i..i + |sub|] == s[i..i + |sub|];
    assert OccursAt(s + post, sub, i);
  }

  /** The tail of the message names each quoted prefix. */
  lemma MessageTailQuotes(v: Vendor)
    ensures Contains(MessageTail, Quoted(v))
  {
    var q0, q1, q2 := Quoted(AppleCard), Quoted(Discover), Quoted(FifthThird);
    var a, b, c, d := ". Must start with ", ", ", ", or ", ".";
    assert OccursAt(Quoted(v), Quoted(v), 0);
    match v
    case AppleCard =>
      ContainsAfter(a, q0, q0);
      ContainsBefore(a + q0, b, q0);
      ContainsBefore(a + q0 + b, q1, q0);
      ContainsBefore(a + q0 + b + q1, c, q0);
      ContainsBefore(a + q0 + b + q1 + c, q2, q0);
      ContainsBefore(a + q0 + b + q1 + c + q2, d, q0);
    case Discover =>
      ContainsAfter(a + q0 + b, q1, q1);
      ContainsBefore(a + q0 + b + q1, c, q1);
      ContainsBefore(a + q0 + b + q1 + c, q2, q1);
      ContainsBefore(a + q0 + b + q1 + c + q2, d, q1);
    case FifthThird =>
      ContainsAfter(a + q0 + b + q1 + c, q2, q2);
      ContainsBefore(a + q0 + b + q1 + c + q2, d, q2);
  }

  /**
   * The recovery message starts with the loader's message and names each of
   * the three prefixes in quotes.
   */
  lemma RecoveryMessageNamesPrefixes(fileName: string)
    ensures StartsWith(RecoveryMessage(fileName), AzureBudgetLoader.InvalidFileMessage(fileName))
    ensures forall v :: Contains(RecoveryMessage(fileName), Quoted(v))
  {
    var pre := MessageHead + fileName;
    assert RecoveryMessage(fileName)[..|pre|] == pre;
    forall v ensures Contains(RecoveryMessage(fileName), Quoted(v)) {
      MessageTailQuotes(v);
      ContainsAfter(pre, MessageTail, Quoted(v));
    }
  }

  /**
   * `preprocess_data(df, file_name)` as a value: the whole normalised
   * table, every input column kept, or the ValueError.
   */
  function PreprocessedData(fileName: string, t: Table, p: Parsers): (r: Result<Table, PreprocessError>)
    requires WellFormed(t) && Renamable(fileName, t.columns)
    ensures r.Failure? <==> forall v :: !StartsWith(fileName, Prefix(v))
    ensures r.Failure? ==> r.error == InvalidFileType(RecoveryMessage(fileName))
    ensures r.Success? ==> WellFormed(r.value) && HasColumns(r.value, Canonical) && |r.value.rows| == |t.rows|
  {
    match Classify(fileName)
    case None => Failure(InvalidFileType(RecoveryMessage(fileName)))
    case Some(v) => Success(Normalised(v, t, p))
  }

  /**
   * `preprocess_data`: edits the caller's `df` for the bank format, and
   * returns the renamed, filled and coerced copy.
   */
  method PreprocessData(df: Frame, fileName: string, p: Parsers) returns (r: Result<Frame, PreprocessError>)
    requires df.Valid() && Renamable(fileName, df.columns)
    modifies df
    ensures df.Value() == match Classify(fileName)
      case Some(v) => Prepared(v, old(df.Value()))
      case None => old(df.Value())
    ensures r.Failure? ==> PreprocessedData(fileName, old(df.Value()), p) == Failure(r.error)
    ensures r.Success? ==> fresh(r.value) && PreprocessedData(fileName, old(df.Value()), p) == Success(r.value.Value())
  {
    ghost var t0 := df.Value();
    ghost var v: Vendor;
    var sourceLabel: string;
    var m: map<string, string>;
    if StartsWith(fileName, Prefix(AppleCard)) {
      v := AppleCard;
      sourceLabel := Label(AppleCard);
      m := Mapping(AppleCard);
    } else if StartsWith(fileName, Prefix(Discover)) {
      v := Discover;
      sourceLabel := Label(Discover);
      m := Mapping(Discover);
    } else if StartsWith(fileName, Prefix(FifthThird)) {
      v := FifthThird;
      sourceLabel := Label(FifthThird);
      m := Mapping(FifthThird);
      df.Assign(ClearingDate, Null);
      df.Assign(Category, Null);
    } else {
      assert Classify(fileName) == None;
      r := Failure(InvalidFileType(RecoveryMessage(fileName)));
      return;
    }
    assert Classify(fileName) == Some(v) && m == Mapping(v) && sourceLabel == Label(v);
    assert df.Value() == Prepared(v, t0);
    PreparedNoClash(v, t0);
    var out := Normalise(df, m, sourceLabel, p);
    assert out.Value() == Normalised(v, t0, p);
    r := Success(out);
  }

  /** The input columns keep their positions under their renamed names. */
  lemma RecoveryColumns(fileName: string, t: Table, p: Parsers, v: Vendor, out: Table, i: nat)
    requires WellFormed(t) && Renamable(fileName, t.columns) && Classify(fileName) == Some(v)
    requires PreprocessedData(fileName, t, p) == Success(out) && i < |t.columns|
    ensures i < |out.columns| && out.columns[i] == RenameCol(Mapping(v), t.columns[i])
  {
    NormalisedColumns(v, t, p);
  }

  /**
   * A column outside the mapping and outside the canonical schema is kept,
   * with its values unchanged.
   */
  lemma RecoveryRetains(fileName: string, t: Table, p: Parsers, v: Vendor, out: Table, c: string, j: nat)
    requires WellFormed(t) && Renamable(fileName, t.columns) && Classify(fileName) == Some(v)
    requires PreprocessedData(fileName, t, p) == Success(out) && j < |t.rows|
    requires c in t.columns && c !in Mapping(v) && c !in Canonical
    ensures c in out.columns && Get(out.rows[j], c) == Get(t.rows[j], c)
  {
    var k :| 0 <= k < |t.columns| && t.columns[k] == c;
    RecoveryColumns(fileName, t, p, v, out, k);
    NormalisedRetains(v, t, p, k, j);
  }

  /**
   * The coerced columns: dates null exactly when missing or unparseable,
   * Amount the parsed number or 0, Source the label.
   */
  lemma RecoveryCoercion(fileName: string, t: Table, p: Parsers, v: Vendor, out: Table, j: nat)
    requires WellFormed(t) && Renamable(fileName, t.columns) && Classify(fileName) == Some(v)
    requires PreprocessedData(fileName, t, p) == Success(out) && j < |t.rows|
    ensures Get(out.rows[j], TransactionDate) == CoerceDate(p, RawField(v, t.columns, t.rows[j], TransactionDate))
    ensures Get(out.rows[j], ClearingDate) == CoerceDate(p, RawField(v, t.columns, t.rows[j], ClearingDate))
    ensures Get(out.rows[j], Amount) == Num(AmountOf(p, RawField(v, t.columns, t.rows[j], Amount)))
    ensures Get(out.rows[j], Source) == Str(Label(v))
  {
    assert out == Normalised(v, t, p);
    NormalisedCoerced(v, t, p, j);
  }

  // ---------------------------------------------------------------------
  // insert_data_to_sql: the payload
  // ---------------------------------------------------------------------

  /** `df[[six canonical columns]].values.tolist()`. */
  function InsertPayload(t: Table): (rows: seq<seq<Cell>>)
    requires WellFormed(t) && HasColumns(t, Canonical)
    ensures |rows| == |t.rows|
  {
    Values(Selected(t, Canonical))
  }

  /** Each payload row is the row's six canonical cells, in the order of the INSERT's columns. */
  lemma InsertPayloadRow(t: Table, j: nat)
    requires WellFormed(t) && HasColumns(t, Canonical) && j < |t.rows|
    ensures InsertPayload(t)[j] == [
      Get(t.rows[j], TransactionDate), Get(t.rows[j], ClearingDate), Get(t.rows[j], Description),
      Get(t.rows[j], Category), Get(t.rows[j], Amount), Get(t.rows[j], Source)]
  {
    CanonicalValues(t, j,
      Get(t.rows[j], TransactionDate), Get(t.rows[j], ClearingDate), Get(t.rows[j], Description),
      Get(t.rows[j], Category), Get(t.rows[j], Amount), Get(t.rows[j], Source));
  }

  /**
   * The two copies of the preprocessing agree: they fail on the same names,
   * and the recovery payload is the loader's output, value for value.
   */
  lemma CopiesAgree(fileName: string, t: Table, p: Parsers)
    requires WellFormed(t) && Renamable(fileName, t.columns)
    ensures PreprocessedData(fileName, t, p).Success? <==> AzureBudgetLoader.Preprocessed(fileName, t, p).Success?
    ensures PreprocessedData(fileName, t, p).Success? ==>
      AzureBudgetLoader.Preprocessed(fileName, t, p).value == Selected(PreprocessedData(fileName, t, p).value, Canonical)
    ensures PreprocessedData(fileName, t, p).Success? ==>
      InsertPayload(PreprocessedData(fileName, t, p).value) == Values(AzureBudgetLoader.Preprocessed(fileName, t, p).value)
  {
  }

  // ---------------------------------------------------------------------
  // The replay in main
  // ---------------------------------------------------------------------

  /** What the model needs of a table the reader returns for a file. */
  predicate Readable(fileName: string, read: Option<Table>) {
    read.Some? ==> WellFormed(read.value) && Renamable(fileName, read.value.columns)
  }

  predicate AllReadable(names: seq<string>, read: string -> Option<Table>) {
    forall k :: 0 <= k < |names| ==> Readable(names[k], read(names[k]))
  }

  /**
   * The body of the `try` for one archived file: the rows it inserts, or
   * None when reading, preprocessing or the insert fails and the error is
   * logged instead.
   */
  function ReplayFile(fileName: string, read: string -> Option<Table>, insertOk: string -> bool, p: Parsers): (r: Option<seq<seq<Cell>>>)
    requires Readable(fileName, read(fileName))
    ensures r.Some? <==> read(fileName).Some? && Classify(fileName).Some? && insertOk(fileName)
    ensures r.Some? ==> |r.value| == |read(fileName).value.rows|
  {
    match read(fileName)
    case None => None
    case Some(t) =>
      match PreprocessedData(fileName, t, p)
      case Failure(_) => None
      case Success(out) => if insertOk(fileName) then Some(InsertPayload(out)) else None
  }

  /** Whether a file is replayed; false also for a table outside the model. */
  predicate Replayed(fileName: string, read: string -> Option<Table>, insertOk: string -> bool, p: Parsers) {
    Readable(fileName, read(fileName)) && ReplayFile(fileName, read, insertOk, p).Some?
  }

  /** The files whose rows were inserted, the files logged as errors, and the rows inserted, in order. */
  datatype ReplayLog = ReplayLog(replayed: seq<string>, failed: seq<string>, inserted: seq<seq<Cell>>)

  /** The log after one more file: its rows and its name on success, its name among the errors otherwise. */
  function Logged(log: ReplayLog, fileName: string, outcome: Option<seq<seq<Cell>>>): ReplayLog {
    match outcome
    case Some(rows) => ReplayLog(log.replayed + [fileName], log.failed, log.inserted + rows)
    case None => ReplayLog(log.replayed, log.failed + [fileName], log.inserted)
  }

  /** The replay loop over `names`, one file after another. */
  function ReplaySpec(names: seq<string>, read: string -> Option<Table>, insertOk: string -> bool, p: Parsers): (r: ReplayLog)
    requires AllReadable(names, read)
    ensures |r.replayed| + |r.failed| == |names|
  {
    if names == [] then ReplayLog([], [], [])
    else
      var init, last := names[..|names| - 1], names[|names| - 1];
      Logged(ReplaySpec(init, read, insertOk, p), last, ReplayFile(last, read, insertOk, p))
  }

  /**
   * One file's failure does not stop the others: the replayed files are the
   * names that succeed and the failed files the rest, both in their order.
   */
  lemma {:induction false} ReplayPartition(names: seq<string>, read: string -> Option<Table>, insertOk: string -> bool, p: Parsers)
    requires AllReadable(names, read)
    ensures ReplaySpec(names, read, insertOk, p).replayed == Filter(names, x => Replayed(x, read, insertOk, p))
    ensures ReplaySpec(names, read, insertOk, p).failed == Filter(names, x => !Replayed(x, read, insertOk, p))
  {
    if names != [] {
      var init := names[..|names| - 1];
      ReplayPartition(init, read, insertOk, p);
    }
  }

  /** The names `main` replays: the `.csv` files of the listing, in ascending order. */
  function Archived(listing: seq<string>): (r: seq<string>)
    ensures Sorted(r)
    ensures multiset(r) == multiset(Filter(listing, IsCsvName))
    ensures forall x :: x in r <==> x in listing && IsCsvName(x)
  {
    var csvFiles := Filter(listing, IsCsvName);
    SortSorted(csvFiles);
    assert forall x :: x in Sort(csvFiles) <==> x in listing && IsCsvName(x) by {
      forall x ensures x in Sort(csvFiles) <==> x in listing && IsCsvName(x) {
        SortMembers(csvFiles, x);
        FilterMembers(listing, IsCsvName, x);
      }
    }
    Sort(csvFiles)
  }

  /** Each `.csv` name is processed exactly as often as it is listed, and no other name at all. */
  lemma ArchivedCount(listing: seq<string>, x: string)
    ensures multiset(Archived(listing))[x] == if IsCsvName(x) then multiset(listing)[x] else 0
  {
    FilterCount(listing, IsCsvName, x);
  }

  /**
   * The replay as a whole: files are replayed in ascending name order, and a
   * file is replayed exactly when it is a `.csv` of the listing, of a known
   * vendor, and its read, preprocessing and insert succeed.
   */
  lemma ReplayOrder(listing: seq<string>, read: string -> Option<Table>, insertOk: string -> bool, p: Parsers, x: string)
    requires forall y :: y in listing && IsCsvName(y) ==> Readable(y, read(y))
    ensures Sorted(ReplaySpec(Archived(listing), read, insertOk, p).replayed)
    ensures x in ReplaySpec(Archived(listing), read, insertOk, p).replayed <==>
      x in listing && IsCsvName(x) && Replayed(x, read, insertOk, p)
    ensures x in ReplaySpec(Archived(listing), read, insertOk, p).replayed ==> Classify(x).Some?
  {
    var names := Archived(listing);
    ReplayPartition(names, read, insertOk, p);
    FilterSorted(names, y => Replayed(y, read, insertOk, p));
    FilterMembers(names, y => Replayed(y, read, insertOk, p), x);
  }

  /** The `try` block for one file: read it, preprocess it, insert its payload. */
  method ReplayOne(fileName: string, read: string -> Option<Table>, insertOk: string -> bool, p: Parsers)
    returns (outcome: Option<seq<seq<Cell>>>)
    requires Readable(fileName, read(fileName))
    ensures outcome == ReplayFile(fileName, read, insertOk, p)
  {
    outcome := None;
    match read(fileName)
    case None =>
    case Some(t) =>
      var df := new Frame(t);
      var r := PreprocessData(df, fileName, p);
      if r.Success? && insertOk(fileName) {
        outcome := Some(InsertPayload(r.value.Value()));
      }
  }

  /** One more iteration of the replay loop. */
  lemma ReplaySpecStep(order: seq<string>, i: nat, read: string -> Option<Table>, insertOk: string -> bool, p: Parsers)
    requires AllReadable(order, read) && i < |order|
    ensures ReplaySpec(order[..i + 1], read, insertOk, p) ==
      Logged(ReplaySpec(order[..i], read, insertOk, p), order[i], ReplayFile(order[i], read, insertOk, p))
  {
    assert order[..i + 1][..i] == order[..i];
  }

  /** The loop `for file_name in sorted(csv_files)` with its `try`/`except`/`continue`. */
  method ReplayAll(order: seq<string>, read: string -> Option<Table>, insertOk: string -> bool, p: Parsers)
    returns (log: ReplayLog)
    requires AllReadable(order, read)
    ensures log == ReplaySpec(order, read, insertOk, p)
  {
    log := ReplayLog([], [], []);
    var i := 0;
    while i < |order|
      invariant 0 <= i <= |order|
      invariant log == ReplaySpec(order[..i], read, insertOk, p)
    {
      var fileName := order[i];
      ReplaySpecStep(order, i, read, insertOk, p);
      var outcome := ReplayOne(fileName, read, insertOk, p);
      log := Logged(log, fileName, outcome);
      i := i + 1;
    }
    assert order[..i] == order;
  }

  /**
   * `main` after the logging set-up: nothing when no `.csv` file is
   * archived, nothing when the connection fails, and otherwise the replay
   * of every archived file in ascending order.
   */
  method Replay(listing: seq<string>, connected: bool, read: string -> Option<Table>, insertOk: string -> bool, p: Parsers)
    returns (noneFound: bool, log: ReplayLog)
    requires forall x :: x in listing && IsCsvName(x) ==> Readable(x, read(x))
    ensures noneFound <==> Filter(listing, IsCsvName) == []
    ensures log == if noneFound || !connected then ReplayLog([], [], []) else ReplaySpec(Archived(listing), read, insertOk, p)
  {
    var csvFiles := Filter(listing, IsCsvName);
    noneFound := csvFiles == [];
    log := ReplayLog([], [], []);
    if noneFound || !connected {
      return;
    }
    var order := Sort(csvFiles);
    assert order == Archived(listing);
    log := ReplayAll(order, read, insertOk, p);
  }
}
