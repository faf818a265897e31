# TESS Atlas menu page: table reconciliation and status counts

This project models, in Dafny, the logic of `scripts/menu-page.py`, the script that builds the
catalogue page of the TESS Atlas. For every artifact folder `objects/toi_<n>_files` it finds, it
parses the TOI number n. It builds an id link and a phase-plot thumbnail anchor for n. It then
reconciles the folders with the summary CSV: summary rows with a missing cell are dropped, and so
are rows for TOIs without a folder. Each folder TOI that no summary row covers gets an empty
placeholder row and a warning on standard error. Finally the links overwrite the TOI column and
the thumbnails become a new second column. The script's main block counts the statuses of the
unfiltered summary and the distinct TOIs of the ExoFOP reference catalogue for the page template.

Modules:

- `Wrappers` (wrappers.dfy): `Option` and `Result`. A `None` or `Failure` stands for a missing CSV
  cell or a raised exception.
- `PyInt` (py_int.dfy): Python's `str(n)` and `int(text)` for base-10 text.
- `SeqSets` (seq_sets.dfy): distinctness, and the number of distinct elements of a sequence.
- `ToiLinks` (toi_links.dfy): the folder-name parse and the two HTML anchors.
- `TableHtml` (table_html.dfy): `generate_table_html` up to the itables call. The discovery loop
  and the placeholder loop are methods with loop invariants, proved against specification
  functions. The filter and the column operations are functions.
- `MenuCounts` (menu_counts.dfy): the values of the main block that feed the template.

Exceptions the script raises become `TableError` values:

- `BadFolderName`: `int()` rejects the middle of a folder name. The first such name aborts the scan.
- `LengthMismatch`: `df["TOI"] = toi_links` gets a list whose length differs from the row count.
- `DuplicateColumn` and `BadPosition`: refusals of `df.insert`. The script never reaches them.

The warnings written to standard error are returned as a sequence of strings.

The model follows the code, quirks included:

- The link paths are `/objects/toi_<n>/`, and the thumbnail anchor carries a stray `/'` after its
  href.
- There is no duplicate-id policy. Two folders naming the same TOI (`toi_7_files`,
  `toi_007_files`) give two links but add at most one placeholder row for that TOI: one when no
  complete summary row covers it, none when one does. With no TOI repeated among the complete
  summary rows, the table has one row per distinct discovered TOI (`ReconciledOncePerDistinctId`).
  Two complete summary rows for one discovered TOI both survive the selection; rows for a TOI
  without a folder are dropped however often they repeat. The TOI assignment succeeds exactly
  when the row count equals the link count (`GenerateTable`). A repeated discovered TOI on one
  side alone makes it raise (`RepeatedFolderOnePlaceholder`, `RepeatedSummaryRows`). Repeats on
  both sides can cancel out, and the assignment then succeeds (`RepeatsCancel`).
- The TOI column is overwritten by position: row i gets the link of the i-th discovered folder,
  whatever TOI row i holds. Row i is mislabelled whenever its TOI differs from the i-th
  discovered id (`LinksFollowDiscoveryOrder`), placeholder rows included. This happens when the
  summary lists TOIs in another order than the folders were found (`SummaryOrderMislabels`). It
  also happens with the summary in discovery order, whenever a folder without a complete summary
  row is found before a matched one, because every placeholder goes after all the selected rows
  (`PlaceholderFirstMislabels`).
- A folder name that `int()` rejects aborts the whole run; nothing classifies or skips it.

## Model

| member | source | states |
|---|---|---|
| `PyInt.IntToDecimal` | scripts/menu-page.py:26-28 | `str(n)`, a minus sign before the numeral of -n for negative n. Specified by `NatToDecimal`, `ParseIntOfDecimal` and `DecimalInjective` |
| `PyInt.ParseInt` | scripts/menu-page.py:24 | `int(text)` in base 10, with None where Python raises ValueError. Specified by `ParseNumeral`, `ParseNegatedNumeral`, `ParseIntOfDecimal`, `ZeroSevenValue` and `SeparatorRejected` |
| `PyInt.NatToDecimal` | scripts/menu-page.py:26-28 | `str(n)` of a non-negative TOI is a non-empty run of digits, with no leading zero unless n is 0, whose decimal value is n |
| `PyInt.ParseNumeral` | scripts/menu-page.py:24 | `int()` of a bare numeral is its decimal value |
| `PyInt.ParseNegatedNumeral` | scripts/menu-page.py:24 | `int()` of a minus sign followed by a numeral is the negated decimal value |
| `PyInt.ParseIntOfDecimal` | scripts/menu-page.py:24 | `int(str(n)) == n` for every integer n, the negative ones included |
| `PyInt.DecimalInjective` | scripts/menu-page.py:26-28 | two different integers never print the same numeral |
| `ToiLinks.RemovePrefix` | scripts/menu-page.py:24 | `removeprefix` drops the prefix exactly when the name starts with it, and otherwise returns the name unchanged |
| `ToiLinks.RemoveSuffix` | scripts/menu-page.py:24 | `removesuffix` drops the suffix exactly when the name ends with it, and otherwise returns the name unchanged |
| `ToiLinks.FolderId` | scripts/menu-page.py:24 | the TOI of a folder name, None where `int()` raises. Specified by `FolderIdRoundTrip`, `LeadingZerosIgnored` and `SeparatorRejected` |
| `ToiLinks.FolderIdRoundTrip` | scripts/menu-page.py:23-24 | parsing the folder name `toi_<n>_files` gives back n |
| `ToiLinks.ZeroSevenValue` | scripts/menu-page.py:24 | `int("007")` is 7 |
| `ToiLinks.SeparatorRejected` | scripts/menu-page.py:24 | `int()` strips only space, tab, line feed, vertical tab, form feed and carriage return, so `toi_\x1c7_files` does not parse and the scan aborts |
| `ToiLinks.LeadingZerosIgnored` | scripts/menu-page.py:24 | `toi_007_files` and `toi_7_files` both parse to TOI 7 |
| `ToiLinks.ToiLink` | scripts/menu-page.py:26-27 | the id link of n. Specified by `AnchorsNameObject`, `NumeralInAnchors`, `ToiLinkInjective` and `ToiLinkOfSeven` |
| `ToiLinks.Thumbnail` | scripts/menu-page.py:28 | the thumbnail anchor of n. Specified by `AnchorsNameObject`, `NumeralInAnchors`, `ThumbnailNamesFolder`, `ThumbnailInjective` and `ThumbnailOfSeven` |
| `ToiLinks.PathInLink` | scripts/menu-page.py:26-27 | for any numeral, the id link holds the object page of that numeral right after `<a href='` |
| `ToiLinks.PathInThumbnail` | scripts/menu-page.py:26-28 | for any numeral, the thumbnail anchor holds the object page of that numeral right after `<a href='` |
| `ToiLinks.AnchorsNameObject` | scripts/menu-page.py:26-28 | both the id link and the thumbnail anchor hold the object page `/objects/toi_<n>/` right after `<a href='` |
| `ToiLinks.ThumbnailPathRoundTrip` | scripts/menu-page.py:28 | the thumbnail image path names the folder `toi_<n>_files`, and that folder name parses back to n |
| `ToiLinks.ImagePathInThumbnail` | scripts/menu-page.py:28 | for any numeral d, the image path `/toi_data/toi_<d>_files/thumbnail.png` sits right after `<img src='` in the thumbnail anchor |
| `ToiLinks.ThumbnailNamesFolder` | scripts/menu-page.py:24-28 | the thumbnail anchor of n contains the folder name `toi_<n>_files`, and that name parses back to n |
| `ToiLinks.NumeralInLink` | scripts/menu-page.py:26-27 | for any numeral, the id link carries it at offset 22 |
| `ToiLinks.NumeralInThumbnail` | scripts/menu-page.py:26-28 | for any numeral, the thumbnail anchor carries it at offset 22 |
| `ToiLinks.NumeralInAnchors` | scripts/menu-page.py:26-28 | both anchors carry the numeral of n at offset 22 |
| `ToiLinks.ToiLinkInjective` | scripts/menu-page.py:26-27 | distinct TOIs get distinct id links |
| `ToiLinks.ThumbnailInjective` | scripts/menu-page.py:26-28 | distinct TOIs get distinct thumbnail anchors |
| `ToiLinks.ThumbnailOfSeven` | scripts/menu-page.py:28 | the thumbnail anchor for TOI 7 is `<a href='/objects/toi_7/'/'> <img src='/toi_data/toi_7_files/thumbnail.png'></a>`, stray `/'` included |
| `ToiLinks.ToiLinkOfSeven` | scripts/menu-page.py:26-27 | the id link for TOI 7 is `<a href='/objects/toi_7/'> 7</a>`, character for character |
| `TableHtml.Discover` | scripts/menu-page.py:23-30 | the loop succeeds exactly when every folder name parses. Then the id, link and thumbnail lists have one entry per folder, the i-th built from the i-th folder. Otherwise it fails on the first name that does not parse, and every earlier name parses |
| `TableHtml.DiscoveredIds` | scripts/menu-page.py:23-25 | the id list has one entry per folder, and entry i is the id parsed from folder i |
| `TableHtml.IdLinks` | scripts/menu-page.py:27-30 | link i is the id link of discovered id i |
| `TableHtml.IdThumbnails` | scripts/menu-page.py:28-29 | thumbnail i is the thumbnail anchor of discovered id i |
| `TableHtml.Matched` | scripts/menu-page.py:32-36 | the selection is never longer than the summary, and every row in it has a discovered TOI |
| `TableHtml.MatchedMembership` | scripts/menu-page.py:32-36 | a row is selected exactly when some summary row has all four fields present and a discovered TOI, and carries the same four values. So fields are copied verbatim, and undiscovered TOIs never reach the table |
| `TableHtml.MatchedAppend` | scripts/menu-page.py:32-36 | the selection keeps summary order: selecting from a concatenation concatenates the selections |
| `TableHtml.Missing` | scripts/menu-page.py:39-43 | the placeholder ids are discovered ids that the selected rows lack, no id occurs twice, and every discovered id is either selected or among them |
| `TableHtml.FirstIndex` | scripts/menu-page.py:39 | the position found is the first occurrence of the id among the discovered ids |
| `TableHtml.MissingInDiscoveryOrder` | scripts/menu-page.py:39-43 | placeholders are handed out in the order their ids were first discovered |
| `TableHtml.MissingStep` | scripts/menu-page.py:39-43 | one more discovered id adds a placeholder exactly when neither the selected rows nor the earlier placeholders hold it |
| `TableHtml.PlaceholderTurn` | scripts/menu-page.py:39-43 | one turn of the loop: an id already in the grown table changes nothing; any other id appends one empty row and one warning for it |
| `TableHtml.AddPlaceholders` | scripts/menu-page.py:38-43 | the loop appends, after the rows it is given, one empty row per placeholder id and one warning per placeholder id, both in placeholder order |
| `TableHtml.Warning` | scripts/menu-page.py:41 | the message for an unmatched TOI. Specified by `WarningsMatchPlaceholders` and `ThreeFoldersOneUnmatched` |
| `TableHtml.Reconciled` | scripts/menu-page.py:32-43 | the selected rows followed by the placeholders. Specified by `ReconciledCoversDiscovered`, `ReconciledOncePerDistinctId`, `EmptyOnlyWithoutFolders` and `AddPlaceholders` |
| `TableHtml.UnmatchedWarnings` | scripts/menu-page.py:39-41 | the warnings of the placeholder loop. Specified by `WarningsMatchPlaceholders` and `AddPlaceholders` |
| `TableHtml.ReconciledCoversDiscovered` | scripts/menu-page.py:32-43 | a TOI has a row exactly when it was discovered. The selected rows come first, and every row after them has empty Status, Category and Classification |
| `TableHtml.ReconciledOncePerDistinctId` | scripts/menu-page.py:32-43 | when no TOI has two complete summary rows, every discovered TOI is in exactly one row, repeated folders included, so there are as many rows as distinct discovered TOIs |
| `TableHtml.ReconciledOncePerId` | scripts/menu-page.py:32-45 | when no folder repeats a TOI and no TOI has two complete summary rows, there is one row per discovered folder and each discovered TOI is in exactly one row |
| `TableHtml.PlaceholderWarnings` | scripts/menu-page.py:39-43 | there are as many warnings as placeholder rows, and warning i names the TOI of placeholder row i |
| `TableHtml.NoneMissing` | scripts/menu-page.py:39-43 | no placeholder is added exactly when every discovered TOI is already in the table |
| `TableHtml.WarningsMatchPlaceholders` | scripts/menu-page.py:39-43 | there is one warning per placeholder row, naming that row's TOI. There are no warnings exactly when every discovered TOI has a selected row |
| `TableHtml.NothingDiscovered` | scripts/menu-page.py:23-43 | with no folders, the table and the warnings are empty |
| `TableHtml.EmptyOnlyWithoutFolders` | scripts/menu-page.py:23-45 | the reconciled table has no rows exactly when no folder was found, so the TOI assignment never meets an empty frame with a non-empty list |
| `TableHtml.PageTable` | scripts/menu-page.py:45-46 | the five-column page table, row i holding link i and thumbnail i beside the three cells of row i. Specified by `InsertPhasePlot`, `LinksFollowDiscoveryOrder` and `GenerateTable` |
| `TableHtml.LinkToiColumn` | scripts/menu-page.py:45 | the assignment succeeds exactly when there are as many links as rows. Row i then gets link i in the TOI column and keeps its other three cells |
| `TableHtml.InsertColumn` | scripts/menu-page.py:46 | `insert` succeeds exactly for a new name, a position within the header and one value per row. It refuses an existing name first, then a list of the wrong length, then a position past the end. On success the new column lands at that position and the later columns shift right, in the header and in every row |
| `TableHtml.InsertPhasePlot` | scripts/menu-page.py:46 | inserting the thumbnails at index 1 of the linked table gives the page table: TOI link, Phase Plot, Status, Category, Classification |
| `TableHtml.GenerateTable` | scripts/menu-page.py:17-46 | a bad folder name fails before any warning, with the error naming the first folder whose number `int()` rejects. Otherwise the warnings are those of the unmatched TOIs. The result succeeds exactly when the reconciled row count equals the folder count, and is then the page table; otherwise it is a length mismatch |
| `TableHtml.LinksFollowDiscoveryOrder` | scripts/menu-page.py:45 | row i shows the link of the i-th discovered TOI, and that is the row's own link exactly when the row's TOI is the i-th discovered one |
| `TableHtml.PlaceholderFirstRows` | scripts/menu-page.py:32-43 | with folders 5, 7 and a complete summary row only for 7, the table is the row of 7 followed by an empty row for 5 |
| `TableHtml.PlaceholderFirstMislabels` | scripts/menu-page.py:32-46 | in that case page row 0 shows the link of TOI 5 beside the status of TOI 7, and page row 1 shows the link of TOI 7 beside empty cells |
| `TableHtml.SummaryOrderMislabels` | scripts/menu-page.py:32-45 | with folders 5 and 7 and a summary listing 7 first, the first row shows the link of TOI 5 beside the status of TOI 7 |
| `TableHtml.ThreeFoldersMatched` | scripts/menu-page.py:32-36 | with folders 5, 7, 9 and summary rows for 5, 7 and 20, the selection is the rows of 5 and 7 in summary order |
| `TableHtml.NineMissing` | scripts/menu-page.py:39-43 | with folders 5, 7, 9 and selected rows for 5 and 7, only 9 gets a placeholder |
| `TableHtml.ThreeFoldersOneUnmatched` | scripts/menu-page.py:23-43 | with folders 5, 7, 9 and summary rows for 5, 7 and 20, the table is the rows of 5 and 7 and an empty row for 9. There is exactly one warning, for 9, and nothing for 20 |
| `TableHtml.RepeatedFolderOnePlaceholder` | scripts/menu-page.py:39-45 | two folders for TOI 7 and no summary rows give a single empty row for two links, so the row count differs from the link count |
| `TableHtml.RepeatedSummaryRows` | scripts/menu-page.py:32-45 | two complete summary rows for the one discovered TOI both survive the selection, giving two rows for one link |
| `TableHtml.RepeatsCancel` | scripts/menu-page.py:32-45 | folders [7, 7] and two complete summary rows for 7 give two rows for two links, so the TOI assignment succeeds |
| `SeqSets.ElementsCount` | scripts/menu-page.py:81-83 | the number of distinct elements is at most the length, and equals it exactly when nothing repeats |
| `SeqSets.SameElementsSameLength` | scripts/menu-page.py:81-83 | two repetition-free sequences with the same elements have the same length, so a repetition-free TOI list has as many entries as `np.unique` of it |
| `MenuCounts.StatusColumn` | scripts/menu-page.py:79-80 | the Status column has one cell per summary row, taken from that row |
| `MenuCounts.Present` | scripts/menu-page.py:97 | `dropna` keeps exactly the non-missing statuses, each as often as it occurs |
| `MenuCounts.ValueCounts` | scripts/menu-page.py:80 | `value_counts` has a key exactly for each status that occurs, mapped to its number of occurrences. Missing statuses are not counted |
| `MenuCounts.CountOr` | scripts/menu-page.py:99-101 | `counts.get(key, default)`. Specified by `CountOrIsOccurrences` and `TemplateCounts` |
| `MenuCounts.CountOrIsOccurrences` | scripts/menu-page.py:99-101 | a lookup with default 0 is the number of rows carrying that status, and 0 when none does |
| `MenuCounts.Statuses` | scripts/menu-page.py:80 | each occurring status is listed once, so the list enumerates the keys of the counts |
| `MenuCounts.CountsSumToTotal` | scripts/menu-page.py:80-97 | the per-status counts add up to the number of non-missing statuses (N_TESS_ATLAS) |
| `MenuCounts.DistinctCount` | scripts/menu-page.py:81-83 | the reference total is at most the number of reference rows, and equals it exactly when no TOI repeats |
| `MenuCounts.TemplateCounts` | scripts/menu-page.py:79-101 | N_TESS_ATLAS is the number of summary rows whose status is not missing, which is also the sum of the per-status counts. N_PASS, N_FAIL and N_NOT_STARTED are the occurrence counts of "completed", "failed" and "not_started", and together never exceed N_TESS_ATLAS. N_EXOFOP is the number of distinct reference TOIs, at most the reference size |
| `MenuCounts.NoStatusNoCounts` | scripts/menu-page.py:97-101 | a summary without any status gives zero for every status count |

## Left out

- Argument parsing, path resolution and the `assert csv_path.is_file()` check (scripts/menu-page.py:63-76) are command-line and file-system plumbing.
- The folder glob (scripts/menu-page.py:23) is replaced by the sequence of folder names it returns, in its order. The glob pattern itself is not checked; the parse handles any name.
- `pd.read_csv` (scripts/menu-page.py:32, 79) is replaced by summary rows whose cells are `Option`s. Which strings pandas reads as missing ("", "NA", "null", ...) is not modelled. Columns beyond the four the table uses are not modelled.
- The casts `astype({"TOI": "int"})` (scripts/menu-page.py:34) and `astype(np.int64)` (scripts/menu-page.py:82) are floating-point conversions. The model takes TOIs as integers.
- Fetching the ExoFOP CSV (scripts/menu-page.py:12-13, 82) is a network call. Its TOI column is an input, and a failed fetch is not modelled.
- The itables rendering (scripts/menu-page.py:48-59) and the jinja2 template rendering and printing (scripts/menu-page.py:88-104) are library calls. The model stops at the table and the counts they receive.
- `reset_index` (scripts/menu-page.py:36, 43) only renumbers the row labels. The model keeps row order and no labels.
- PyInt.ParseInt: handles only ASCII digits and the six ASCII whitespace characters (space, tab, line feed, vertical tab, form feed, carriage return). A name whose number uses non-ASCII Unicode digits or spaces is rejected here but accepted by Python.
