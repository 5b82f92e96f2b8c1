# BudgetTracker transaction preprocessing, in Dafny

BudgetTracker loads credit-card and bank statement exports (CSV files from
Apple Card, Discover and Fifth Third Bank) into one SQL table,
`BudgetTracker(TransactionDate, ClearingDate, Description, Category, Amount, Source)`.
This project models the part of the Python scripts that decides what a row
of that table is:

- the vendor classification of a file by its name prefix (`Apple Card`,
  `Discover` or `EXPORT`), and the rejection of any other name;
- the per-vendor column renaming, the two blank columns added for a Fifth
  Third `EXPORT` file, the loop that adds every missing required column as
  all-null, the coercion of the two date columns and the amount (an
  unparseable date becomes null, an unparseable or missing amount becomes
  0), the constant `Source` label, and the projection onto the six
  canonical columns;
- the same preprocessing as the recovery script copies it (a longer error
  message, no final projection), the projection that builds the INSERT
  payload, and the replay of an archive folder in ascending name order
  that logs a failing file and goes on with the next;
- the download mover's eligibility test and its count of successful moves.

A pandas DataFrame is the class `Frames.Frame`, whose `columns` and `rows`
fields its methods reassign. Column operations (assign, rename, transform,
select) are specified by pure functions on `Frames.Table` values. The steps
that change a frame in the source (`TransactionProcessor.preprocess`,
`preprocess_data`, the required-column loop) are methods on frames proved
equal to one pure pipeline, `Preprocessing.Normalised`. The file loops of
the two scripts are `while` loops proved against recursive specifications.
`Preprocessing.Expected` is an independent reference definition: it computes
each output field straight from the vendor's source column. The pipeline is
proved to agree with it, row by row.

Modules:

| file | module | what it holds |
|---|---|---|
| wrappers.dfy | Wrappers | `Option`, `Result` |
| strings.dfy | Strings | prefix and suffix tests, ASCII `lower`, the `.csv` test, Python string order |
| lists.dfy | Lists | filtering and `sorted` on lists of names, with their laws |
| frames.dfy | Frames | tables, cells, the `Frame` class and its operations |
| vendors.dfy | Vendors | the three vendors, their prefixes, labels and column mappings |
| preprocessing.dfy | Preprocessing | the normalisation pipeline shared by both copies, its reference definition, and the frame methods |
| azure_budget_loader.dfy | AzureBudgetLoader | `TransactionProcessor` |
| recovery_reload.dfy | RecoveryReload | `preprocess_data`, the INSERT payload, the archive replay |
| data_transport.dfy | DataTransport | eligibility and the move loop |

## Model

| member | source | states |
|---|---|---|
| Vendors.Classify | Python/AzureBudgetLoader.py:17-47 | a recognised name starts with its vendor's prefix and with no earlier-tested prefix; a name is rejected exactly when it starts with none of the three prefixes |
| Vendors.Prefix | Python/AzureBudgetLoader.py:17-37 | the file-name prefix each vendor's `startswith` test checks (the same three in Python/RecoveryReload.py:9-29) |
| Vendors.Label | Python/AzureBudgetLoader.py:18-38 | the `source_label` each vendor stamps into Source: "Apple Card", "Discover Card", "5/3 Bank" |
| Vendors.Mapping | Python/AzureBudgetLoader.py:19-43 | each vendor's `column_mapping` dict, from vendor header to canonical column (copied in Python/RecoveryReload.py:11-35) |
| Vendors.PrefixesExclusive | Python/AzureBudgetLoader.py:17-37 | no file name starts with two different vendor prefixes |
| Vendors.ClassifyOrderIndependent | Python/AzureBudgetLoader.py:17-37 | a name is classified as vendor v exactly when it starts with v's prefix, so the order of the elif tests does not matter |
| Vendors.MappingTargetsFixed | Python/AzureBudgetLoader.py:19-43 | every canonical name a mapping produces is left alone or mapped to itself by that mapping, so renaming twice changes nothing more |
| Strings.Lower | Python/DataTransport.py:34 | lower-casing keeps the length of the name |
| Strings.IsCsvName | Python/DataTransport.py:34 | `name.lower().endswith('.csv')`; spelt out by `Strings.IsCsvNameChars` |
| Strings.LowerCharInverse | Python/DataTransport.py:34 | the only characters that lower-case to a given lowercase letter are that letter and its capital |
| Strings.IsCsvNameChars | Python/DataTransport.py:34 | `name.lower().endswith('.csv')` holds exactly when the last four characters are `.`, `c`/`C`, `s`/`S`, `v`/`V` |
| Strings.LexLeReflexive | Python/RecoveryReload.py:98 | the string order used by `sorted` is reflexive |
| Strings.LexLeTotal | Python/RecoveryReload.py:98 | every two names are comparable |
| Strings.LexLeTransitive | Python/RecoveryReload.py:98 | the order is transitive |
| Strings.LexLeAntisymmetric | Python/RecoveryReload.py:98 | two names each at most the other are equal |
| Lists.Filter | Python/RecoveryReload.py:88 | a list comprehension with a condition is never longer than its input |
| Lists.FilterMembers | Python/RecoveryReload.py:88 | a name is kept exactly when it is in the input and meets the condition |
| Lists.FilterSorted | Python/RecoveryReload.py:88-98 | filtering a sorted list leaves it sorted |
| Lists.InsertSorted | Python/RecoveryReload.py:98 | inserting into a sorted list keeps it sorted |
| Lists.Sort | Python/RecoveryReload.py:98 | `sorted` on names: the result is a rearrangement of its input, with every element kept as often as it occurs |
| Lists.SortSorted | Python/RecoveryReload.py:98 | `sorted` returns an ascending list |
| Lists.SortMembers | Python/RecoveryReload.py:98 | `sorted` returns exactly the names it was given |
| Lists.FilterCount | Python/RecoveryReload.py:88 | the comprehension keeps every copy of a name that passes the test and no copy of one that fails |
| Lists.SortedUnique | Python/RecoveryReload.py:98 | two ascending lists with the same elements, counted with multiplicity, are equal |
| Lists.SortUnique | Python/RecoveryReload.py:98 | any ascending rearrangement of a list is `Sort` of it, so the model's sort returns exactly what Python's `sorted` returns |
| Frames.Assigned | Python/AzureBudgetLoader.py:44-45 | `df[col] = v` keeps the row count and well-formedness and appends the column only when it is new |
| Frames.AssignedGet | Python/AzureBudgetLoader.py:44-45 | after `df[col] = v` every row holds v in col and its old value in every other column |
| Frames.AssignedSame | Python/AzureBudgetLoader.py:44-45 | assigning a column the value it already holds in every row changes nothing |
| Frames.Renamed | Python/AzureBudgetLoader.py:49 | `df.rename(columns=m)` keeps the column count, the row count and well-formedness, and renames each column in place |
| Frames.RenameRowKeys | Python/AzureBudgetLoader.py:49 | a renamed row has exactly the renamed columns as keys |
| Frames.RenameSource | Python/AzureBudgetLoader.py:49 | finds the column that renaming turns into a given name, or shows that there is none |
| Frames.RenameSourceUnique | Python/AzureBudgetLoader.py:49 | with distinct targets, the column a renamed name comes from is the one it was renamed from |
| Frames.RenameRowAt | Python/AzureBudgetLoader.py:49 | a renamed row holds each old cell under the column's new name |
| Frames.RenameRowMissing | Python/AzureBudgetLoader.py:49 | a name that no column is renamed to is absent from the renamed row |
| Frames.RenameRowGet | Python/AzureBudgetLoader.py:49 | reading a renamed row under a name reads the source column of that name, or null when there is none |
| Frames.RenamedGet | Python/AzureBudgetLoader.py:49 | the same, for every row of a renamed table |
| Frames.RenameRowIdentity | Python/AzureBudgetLoader.py:49 | a mapping that fixes every column leaves a row unchanged |
| Frames.RenamedIdentity | Python/AzureBudgetLoader.py:49 | a mapping that fixes every column leaves a table unchanged |
| Frames.Transformed | Python/AzureBudgetLoader.py:55-57 | replacing a column by a function of itself keeps the columns, the row count and well-formedness |
| Frames.TransformedGet | Python/AzureBudgetLoader.py:55-57 | the transformed column holds f of its old value and every other column is untouched |
| Frames.Selected | Python/AzureBudgetLoader.py:60 | `df[cols]` has exactly those columns, in that order, and the same row count |
| Frames.Values | Python/RecoveryReload.py:63 | `.values.tolist()` gives one list per row, each as long as the column list |
| Frames.SelectedValuesAt | Python/RecoveryReload.py:63 | the k-th value of row j of a projection is that row's cell in the k-th selected column |
| Frames.Frame.constructor | Python/RecoveryReload.py:102 | a frame built from a table holds that table |
| Frames.Frame.Assign | Python/AzureBudgetLoader.py:44-45 | the frame becomes the assigned table |
| Frames.Frame.Rename | Python/AzureBudgetLoader.py:49 | a fresh frame holding the renamed table; the original frame is not changed |
| Frames.Frame.Transform | Python/AzureBudgetLoader.py:55-57 | the frame becomes the transformed table |
| Frames.Frame.Select | Python/AzureBudgetLoader.py:60 | a fresh frame holding the projection |
| Preprocessing.CoerceDate | Python/AzureBudgetLoader.py:55-56 | `pd.to_datetime(errors='coerce').dt.date`: the result is null or a date; null exactly when the cell is null or does not parse; otherwise the parsed date |
| Preprocessing.AmountOf | Python/AzureBudgetLoader.py:57 | `pd.to_numeric(errors='coerce').fillna(0)`: the amount is 0 or a number the cell parses to; it is 0 whenever the cell is missing or does not parse, and the parsed number whenever it parses |
| Preprocessing.Prepared | Python/AzureBudgetLoader.py:37-45 | adding the two blank Fifth Third columns keeps the row count and well-formedness |
| Preprocessing.FillMissing | Python/AzureBudgetLoader.py:51-53 | the required-column loop keeps the existing columns in front, adds only required ones, keeps the row count, and leaves every required column present |
| Preprocessing.FillMissingGet | Python/AzureBudgetLoader.py:51-53 | the loop changes no cell: a present column keeps its value and an added one reads null |
| Preprocessing.FillMissingPresent | Python/AzureBudgetLoader.py:51-53 | when every required column is present the loop changes nothing |
| Preprocessing.AssignedNoClash | Python/AzureBudgetLoader.py:44-49 | adding a column that no other column renames onto keeps the rename targets distinct |
| Preprocessing.FifthThirdKeeps | Python/AzureBudgetLoader.py:39-45 | the Fifth Third mapping renames nothing onto, or away from, the two blank columns |
| Preprocessing.PreparedNoClash | Python/AzureBudgetLoader.py:37-49 | the blank Fifth Third columns do not create clashing rename targets |
| Preprocessing.FieldMapped | Python/AzureBudgetLoader.py:44-53 | after the blank columns, the renaming and the fill loop, the table is well-formed, keeps its row count and has the five required columns |
| Preprocessing.Coerced | Python/AzureBudgetLoader.py:55-58 | after the coercions and the Source column, the table is well-formed, keeps its row count and has the six canonical columns |
| Preprocessing.Normalised | Python/AzureBudgetLoader.py:16-58 | the whole preprocessing of a recognised file yields a well-formed table with the canonical columns and one row per input row |
| Preprocessing.RenameSourceAppend | Python/AzureBudgetLoader.py:44-49 | a column added at the end that renames elsewhere does not change where a name comes from |
| Preprocessing.PreparedSource | Python/AzureBudgetLoader.py:37-49 | the blank Fifth Third columns change the source of no other output column |
| Preprocessing.BankRenamedCell | Python/AzureBudgetLoader.py:37-49 | for a Fifth Third file, the renamed row's blank columns read null and every other column reads its raw source field |
| Preprocessing.FieldMappedGet | Python/AzureBudgetLoader.py:37-53 | each required column of a row holds that vendor's raw source field, or null when the file lacks it |
| Preprocessing.CoercedGet | Python/AzureBudgetLoader.py:55-58 | after coercion the date columns hold coerced dates, the amount its coerced number, Source the label, and every other column is untouched |
| Preprocessing.NormalisedGet | Python/AzureBudgetLoader.py:16-58 | every canonical column of every output row equals the reference definition computed from the input row |
| Preprocessing.CanonicalValues | Python/AzureBudgetLoader.py:60 | projecting onto the canonical columns lists a row's six canonical cells in order |
| Preprocessing.NormalisedFields | Python/AzureBudgetLoader.py:16-58 | the six canonical columns of an output row each equal the reference cell |
| Preprocessing.NormalisedRecord | Python/AzureBudgetLoader.py:16-60 | each projected output row is exactly the reference record of the input row |
| Preprocessing.CoercedColumns | Python/AzureBudgetLoader.py:55-58 | coercion keeps the existing columns in front, in order |
| Preprocessing.NormalisedCoerced | Python/RecoveryReload.py:41-51 | every output row holds the coerced dates, the coerced amount and the vendor's label |
| Preprocessing.NormalisedRetains | Python/RecoveryReload.py:41-53 | a column the mapping does not touch and that is not canonical passes through with its values |
| Preprocessing.NormalisedColumns | Python/RecoveryReload.py:41-53 | the output begins with the input's columns, each renamed in place |
| Preprocessing.RenameSettled | Python/AzureBudgetLoader.py:19-49 | renaming a renamed column name changes it no further |
| Preprocessing.RequiredSettled | Python/AzureBudgetLoader.py:19-51 | every mapping leaves the required names alone |
| Preprocessing.FieldMappedSettled | Python/AzureBudgetLoader.py:44-53 | after renaming and filling, every column is fixed by the mapping and all required columns are present |
| Preprocessing.PreparedSettled | Python/AzureBudgetLoader.py:37-45 | once renamed and filled, the blank Fifth Third columns are already present, so adding them again changes nothing |
| Preprocessing.FieldMappedIdempotent | Python/AzureBudgetLoader.py:37-53 | preprocessing up to the coercions is idempotent: a second rename and fill changes nothing |
| Preprocessing.FillRequired | Python/AzureBudgetLoader.py:51-53 | the `for col in [...]` loop leaves the frame holding the filled table |
| Preprocessing.CoerceColumns | Python/AzureBudgetLoader.py:55-58 | the three coercions and the Source assignment leave the frame holding the coerced table |
| Preprocessing.Normalise | Python/AzureBudgetLoader.py:49-58 | rename, fill and coerce yield a fresh frame holding the normalised table |
| AzureBudgetLoader.Preprocessed | Python/AzureBudgetLoader.py:16-60 | the file is rejected exactly when its name starts with no prefix, with the message "Invalid file type: " and the name; otherwise the result has exactly the canonical columns and one row per input row |
| AzureBudgetLoader.InvalidFileMessage | Python/AzureBudgetLoader.py:47 | the loader's ValueError text: "Invalid file type: " followed by the file name |
| AzureBudgetLoader.PreprocessedRecords | Python/AzureBudgetLoader.py:16-60 | a recognised file is accepted and each output row is the reference record of its input row |
| AzureBudgetLoader.PreprocessedAmount | Python/AzureBudgetLoader.py:57 | the Amount value is 0 for a missing or unparseable amount and the parsed number otherwise |
| AzureBudgetLoader.PreprocessedDates | Python/AzureBudgetLoader.py:55-56 | the two date values are the coerced raw dates |
| AzureBudgetLoader.PreprocessedText | Python/AzureBudgetLoader.py:49-53 | Description and Category are copied from the vendor's source columns, or null when absent |
| AzureBudgetLoader.PreprocessedSource | Python/AzureBudgetLoader.py:17-58 | the Source value is the vendor's label, "Apple Card", "Discover Card" or "5/3 Bank" |
| AzureBudgetLoader.BankExportBlanks | Python/AzureBudgetLoader.py:44-45 | a Fifth Third row always has null ClearingDate and Category |
| AzureBudgetLoader.TransactionProcessor.constructor | Python/AzureBudgetLoader.py:12-14 | the processor keeps the file name and starts with no source label |
| AzureBudgetLoader.TransactionProcessor.Preprocess | Python/AzureBudgetLoader.py:16-60 | sets the source label to the vendor's label (unchanged on rejection); adds the blank columns to the caller's frame for EXPORT and changes it in no other way; returns the error or a fresh frame holding exactly `Preprocessed` of the input |
| RecoveryReload.MessageTailQuotes | Python/RecoveryReload.py:39 | the tail of the recovery message names each quoted prefix |
| RecoveryReload.RecoveryMessage | Python/RecoveryReload.py:39 | the recovery ValueError text: the loader's message, then the sentence naming the three quoted prefixes; its content is stated by `RecoveryReload.RecoveryMessageNamesPrefixes` |
| RecoveryReload.RecoveryMessageNamesPrefixes | Python/RecoveryReload.py:39 | the recovery message extends the loader's message and names all three quoted prefixes |
| RecoveryReload.PreprocessedData | Python/RecoveryReload.py:8-53 | rejected exactly when the name starts with no prefix, with the longer message; otherwise well-formed, with the canonical columns and one row per input row |
| RecoveryReload.PreprocessData | Python/RecoveryReload.py:8-53 | adds the blank columns to the caller's frame for EXPORT and changes it in no other way; returns the error or a fresh frame holding exactly `PreprocessedData` of the input |
| RecoveryReload.RecoveryColumns | Python/RecoveryReload.py:41-53 | each input column survives, renamed in place |
| RecoveryReload.RecoveryRetains | Python/RecoveryReload.py:41-53 | a column outside the mapping and the canonical set is returned with its values |
| RecoveryReload.RecoveryCoercion | Python/RecoveryReload.py:48-51 | the dates, amount and Source of each returned row are the coerced raw fields and the label |
| RecoveryReload.InsertPayload | Python/RecoveryReload.py:63 | one payload row per table row |
| RecoveryReload.InsertPayloadRow | Python/RecoveryReload.py:63 | each payload row lists the row's six canonical cells in table order |
| RecoveryReload.CopiesAgree | Python/RecoveryReload.py:8-63 | both copies accept the same files; the loader's result is the recovery result projected, and the INSERT payload equals the loader's values |
| RecoveryReload.ReplaySpec | Python/RecoveryReload.py:98-108 | the log lists one outcome per processed file: the replayed and the failed files together number exactly the files processed |
| RecoveryReload.ReplayPartition | Python/RecoveryReload.py:98-108 | the replayed files are exactly the files that succeed and the failed files exactly the rest, each in processing order |
| RecoveryReload.ReplayFile | Python/RecoveryReload.py:101-108 | one file's `try` body: rows are inserted exactly when the file reads, its name has a vendor prefix and the insert succeeds, and then one payload row per row read |
| RecoveryReload.Archived | Python/RecoveryReload.py:88-98 | the processing order is ascending and a permutation of the listed names that end in `.csv` in any case (of `Filter(listing, IsCsvName)`) |
| RecoveryReload.ArchivedCount | Python/RecoveryReload.py:88-98 | each `.csv` name is processed exactly as often as it is listed, and no other name is processed at all |
| RecoveryReload.ReplayOrder | Python/RecoveryReload.py:88-108 | replayed files come out in ascending order, are exactly the listed `.csv` files that succeed, and each has a vendor prefix |
| RecoveryReload.ReplayOne | Python/RecoveryReload.py:101-108 | the try block for one file yields its payload or the logged failure, as `ReplayFile` defines |
| RecoveryReload.ReplaySpecStep | Python/RecoveryReload.py:98-108 | one more file extends the log by that file's outcome |
| RecoveryReload.ReplayAll | Python/RecoveryReload.py:98-108 | the loop over the sorted names yields the log `ReplaySpec` defines |
| RecoveryReload.Replay | Python/RecoveryReload.py:88-110 | "none found" is logged exactly when no listed name ends in `.csv`; nothing is replayed when none is found or the connection fails; otherwise the log is the replay of the sorted `.csv` names |
| DataTransport.EligibleClassified | Python/DataTransport.py:34-35 | a file is eligible exactly when it is a `.csv` name that the loader classifies |
| DataTransport.Eligible | Python/DataTransport.py:34-35 | the move test: a `.csv` name in any case that starts with one of the three vendor prefixes, in their case |
| DataTransport.EligibleAccepted | Python/DataTransport.py:34-35 | the loader never rejects an eligible file's name |
| DataTransport.MoveFiles | Python/DataTransport.py:30-48 | moves are tried for exactly the eligible names, in order; the counter is the number of moves that succeed; "No files to move." is logged exactly when it is 0 |
| DataTransport.MovedFiles | Python/DataTransport.py:33-45 | a name is counted exactly when it is listed, eligible and its move succeeds; the count never exceeds the eligible names |
| DataTransport.MovedArchivable | Python/DataTransport.py:33-45 | every moved file is a `.csv` with a vendor prefix, which the recovery replay would pick up |

## Left out

- `pd.to_datetime` and `pd.to_numeric` are not modelled internally. They are the two function fields of `Preprocessing.Parsers`, each applied cell by cell to a non-null cell. Column-wide format inference is not modelled.
- Amounts are exact reals, not IEEE floats.
- `Frames.Cell`'s single `Null` stands for pandas' None, NaN and NaT alike. The INSERT payload (Python/AzureBudgetLoader.py:73, Python/RecoveryReload.py:63) can carry these as different values, and the model does not tell them apart.
- A cell coerced to a date is modelled as already being `.dt.date`; the time of day is not modelled.
- CSV reading (`pd.read_csv`) is the oracle `read`. A file it cannot read is `None`. The chunked loading path of the loader application is not modelled.
- Python's `str.lower` is modelled on ASCII letters only.
- Renaming two columns onto the same name is not modelled. pandas allows it: an Apple Card or Discover file with both `Amount (USD)` and `Amount` gets two `Amount` columns. `pd.to_numeric` then raises on the two-column selection (Python/AzureBudgetLoader.py:57, Python/RecoveryReload.py:50). The loader then skips the file (Python/AzureBudgetLoader.py:132-134) and the recovery replay logs it as failed (Python/RecoveryReload.py:106-108). The model instead requires distinct rename targets (`Frames.NoClash`, or `Preprocessing.Renamable` for a file name), so that raise is outside it. The members that carry this requirement are:
  - `AzureBudgetLoader.Preprocessed`, `AzureBudgetLoader.TransactionProcessor.Preprocess`, `RecoveryReload.PreprocessedData`, `RecoveryReload.PreprocessData` and the lemmas about them;
  - the replay members, through `RecoveryReload.Readable`/`RecoveryReload.AllReadable`: `RecoveryReload.ReplayFile`, `RecoveryReload.ReplaySpec`, `RecoveryReload.ReplayPartition`, `RecoveryReload.ReplayOrder`, `RecoveryReload.ReplayOne`, `RecoveryReload.ReplayAll` and `RecoveryReload.Replay`;
  - `DataTransport.EligibleAccepted`.
- RecoveryReload.Replay: the database insert (`executemany` and `commit`) is the all-or-nothing oracle `insertOk`. A partially applied batch is not modelled.
- RecoveryReload.Replay: the connection attempt is the parameter `connected`. Credentials, the connection string and the exception text are not modelled.
- Log lines are modelled by what they record: the file names, the rows inserted, and whether the "none found" and "No files to move." lines are written. Timestamps, formatting and log-file creation are not modelled.
- DataTransport.MoveFiles: `shutil.move` is the oracle `moveOk`. The file system, folder creation and which names `os.listdir` returns are not modelled; the listing is a parameter.
- AzureBudgetLoader.Preprocessed: it does not state that its result is well-formed (each row keyed by exactly its columns). The six values of each row are stated by `AzureBudgetLoader.PreprocessedRecords`.
- `SQLUploader`, `BudgetLoaderApp` (threads, archiving, orchestration), `LogRemover.py` and the deprecated training scripts are not part of this model.
