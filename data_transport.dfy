/**
 * DataTransport.py: the move of downloaded statement files into the
 * loader's folder. A file is eligible when its name ends in `.csv` in any
 * case and starts with one of the three vendor prefixes; each eligible file
 * is moved, and only the moves that succeed are counted.
 */
module DataTransport {
  import opened Wrappers
  import opened Strings
  import opened Lists
  import opened Frames
  import opened Vendors
  import opened Preprocessing
  import AzureBudgetLoader

  /** The eligibility test of the move loop: a `.csv` name, in any case, with a vendor's prefix, in its case. */
  predicate Eligible(fileName: string) {
    IsCsvName(fileName) &&
      (StartsWith(fileName, "Apple Card") || StartsWith(fileName, "Discover") || StartsWith(fileName, "EXPORT"))
  }

  /** Eligibility is the recovery's `.csv` test together with the loader's classification. */
  lemma EligibleClassified(fileName: string)
    ensures Eligible(fileName) <==> IsCsvName(fileName) && Classify(fileName).Some?
  {
  }

  /**
   * An eligible file is never rejected by the loader's preprocessing: its
   * name always has a vendor.
   */
  lemma EligibleAccepted(fileName: string, t: Table, p: Parsers)
    requires Eligible(fileName) && WellFormed(t) && Renamable(fileName, t.columns)
    ensures AzureBudgetLoader.Preprocessed(fileName, t, p).Success?
  {
  }

  /**
   * The loop of `main` over the listing. `moveOk` says whether
   * `shutil.move` succeeds for a name. Returns the counter, the names a move
   * was tried for, the names logged as moved, and whether "No files to move."
   * is logged.
   */
  method MoveFiles(listing: seq<string>, moveOk: string -> bool)
    returns (filesMoved: nat, attempted: seq<string>, moved: seq<string>, noFilesLogged: bool)
    ensures attempted == Filter(listing, Eligible)
    ensures moved == Filter(attempted, moveOk)
    ensures filesMoved == |moved|
    ensures noFilesLogged <==> filesMoved == 0
  {
    filesMoved := 0;
    attempted, moved := [], [];
    var i := 0;
    while i < |listing|
      invariant 0 <= i <= |listing|
      invariant attempted == Filter(listing[..i], Eligible)
      invariant moved == Filter(attempted, moveOk)
      invariant filesMoved == |moved|
    {
      var fileName := listing[i];
      FilterPrefix(listing, i, Eligible);
      if Eligible(fileName) {
        FilterSnoc(attempted, fileName, moveOk);
        attempted := attempted + [fileName];
        if moveOk(fileName) {
          moved := moved + [fileName];
          filesMoved := filesMoved + 1;
        }
      }
      i := i + 1;
    }
    assert listing[..i] == listing;
    noFilesLogged := filesMoved == 0;
  }

  /**
   * What the loop promises: only eligible files are moved, a failed move is
   * not counted, and the counter never exceeds the eligible files of the listing.
   */
  lemma MovedFiles(listing: seq<string>, moveOk: string -> bool, x: string)
    ensures x in Filter(Filter(listing, Eligible), moveOk) <==> x in listing && Eligible(x) && moveOk(x)
    ensures |Filter(Filter(listing, Eligible), moveOk)| <= |Filter(listing, Eligible)| <= |listing|
  {
    FilterMembers(listing, Eligible, x);
    FilterMembers(Filter(listing, Eligible), moveOk, x);
  }

  /** Every moved file is one the recovery replay picks up once archived: a `.csv` with a vendor. */
  lemma MovedArchivable(listing: seq<string>, moveOk: string -> bool, x: string)
    requires x in Filter(Filter(listing, Eligible), moveOk)
    ensures IsCsvName(x) && Classify(x).Some?
  {
    MovedFiles(listing, moveOk, x);
    EligibleClassified(x);
  }
}
