/**
 * The three vendor profiles and the file-name classifier shared by the
 * loader (AzureBudgetLoader.py) and the recovery script (RecoveryReload.py).
 */
module Vendors {
  import opened Wrappers
  import opened Strings

  /** The export formats the loaders know, in the order their names are tested. */
  datatype Vendor = AppleCard | Discover | FifthThird

  /** Position of a vendor in the if/elif chain. */
  function Rank(v: Vendor): nat {
    match v
    case AppleCard => 0
    case Discover => 1
    case FifthThird => 2
  }

  /** The file-name prefix that selects the vendor. */
  function Prefix(v: Vendor): string {
    match v
    case AppleCard => "Apple Card"
    case Discover => "Discover"
    case FifthThird => "EXPORT"
  }

  /** The value stamped into the Source column. */
  function Label(v: Vendor): string {
    match v
    case AppleCard => "Apple Card"
    case Discover => "Discover Card"
    case FifthThird => "5/3 Bank"
  }

  /** The vendor's `column_mapping`: vendor header to canonical column name. */
  function Mapping(v: Vendor): map<string, string> {
    match v
    case AppleCard => map[
      "Transaction Date" := "TransactionDate",
      "Clearing Date" := "ClearingDate",
      "Description" := "Description",
      "Category" := "Category",
      "Amount (USD)" := "Amount",
      "Amount" := "Amount"]
    case Discover => map[
      "Trans. Date" := "TransactionDate",
      "Post Date" := "ClearingDate",
      "Description" := "Description",
      "Category" := "Category",
      "Amount (USD)" := "Amount",
      "Amount" := "Amount"]
    case FifthThird => map[
      "Date" := "TransactionDate",
      "Description" := "Description",
      "Amount" := "Amount"]
  }

  /**
   * The if/elif chain on the file name: the first prefix that matches wins,
   * and a name that matches none is rejected (None stands for the ValueError).
   */
  function Classify(fileName: string): (r: Option<Vendor>)
    ensures r.Some? ==> StartsWith(fileName, Prefix(r.value))
    ensures r.Some? ==> forall w :: Rank(w) < Rank(r.value) ==> !StartsWith(fileName, Prefix(w))
    ensures r.None? <==> forall w :: !StartsWith(fileName, Prefix(w))
  {
    if StartsWith(fileName, "Apple Card") then Some(AppleCard)
    else if StartsWith(fileName, "Discover") then Some(Discover)
    else if StartsWith(fileName, "EXPORT") then Some(FifthThird)
    else
      assert forall w :: Prefix(w) in {"Apple Card", "Discover", "EXPORT"};
      None
  }

  /** No file name starts with two of the prefixes: they already differ in their first letter. */
  lemma PrefixesExclusive(fileName: string, v: Vendor, w: Vendor)
    requires StartsWith(fileName, Prefix(v)) && StartsWith(fileName, Prefix(w))
    ensures v == w
  {
    assert fileName[0] == Prefix(v)[0] && fileName[0] == Prefix(w)[0];
  }

  /** Hence the order of the tests decides nothing today: a name is classified as the one vendor whose prefix it has. */
  lemma ClassifyOrderIndependent(fileName: string, v: Vendor)
    ensures Classify(fileName) == Some(v) <==> StartsWith(fileName, Prefix(v))
  {
    if StartsWith(fileName, Prefix(v)) {
      PrefixesExclusive(fileName, v, Classify(fileName).value);
    }
  }

  /** The canonical names that renaming produces are left alone by a second renaming. */
  lemma MappingTargetsFixed(v: Vendor, k: string)
    requires k in Mapping(v)
    ensures var t := Mapping(v)[k]; t !in Mapping(v) || Mapping(v)[t] == t
  {
  }
}
