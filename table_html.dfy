/** The table reconciliation of generate_table_html in scripts/menu-page.py:
    artifact folders are matched against the summary CSV, TOIs without a
    summary row get placeholder rows, and the id and thumbnail anchors become
    the first two columns. The itables rendering is not part of this model. */
module TableHtml {
  import opened Wrappers
  import opened PyInt
  import opened SeqSets
  import opened ToiLinks

  /** One row of the summary CSV as pandas reads it; None is a missing cell. */
  datatype SummaryRow = SummaryRow(
    toi: Option<int>,
    status: Option<string>,
    category: Option<string>,
    classification: Option<string>)

  /** A row of the reconciled table before the TOI column becomes links. */
  datatype Row = Row(toi: int, status: string, category: string, classification: string)

  /** A DataFrame of text cells: a header and rows of cells. */
  datatype Frame = Frame(columns: seq<string>, cells: seq<seq<string>>)

  /** The exceptions generate_table_html can raise. */
  datatype TableError =
    | BadFolderName(name: string)            // int() rejects the folder's middle part
    | LengthMismatch(rows: nat, values: nat) // a column assignment of the wrong length
    | DuplicateColumn(name: string)          // insert of a column that already exists
    | BadPosition(position: nat)             // insert beyond the last column

  /** What the discovery loop collects: the ids, and the two anchors per id. */
  datatype Discovered = Discovered(ids: seq<int>, links: seq<string>, thumbnails: seq<string>)

  const SummaryColumns: seq<string> := ["TOI", "Status", "Category", "Classification"]
  const PageColumns: seq<string> := ["TOI", "Phase Plot", "Status", "Category", "Classification"]

  // ---------------------------------------------------------------- discovery

  predicate AllParse(names: seq<string>)
  {
    forall i :: 0 <= i < |names| ==> FolderId(names[i]).Some?
  }

  /** The ids of the discovered folders, in discovery order. */
  function DiscoveredIds(names: seq<string>): (ids: seq<int>)
    requires AllParse(names)
    ensures |ids| == |names|
    ensures forall i :: 0 <= i < |names| ==> FolderId(names[i]) == Some(ids[i])
  {
    seq(|names|, i requires 0 <= i < |names| => FolderId(names[i]).value)
  }

  /** The id link of every id, in order. */
  function IdLinks(ids: seq<int>): (links: seq<string>)
    ensures |links| == |ids| && forall i :: 0 <= i < |ids| ==> links[i] == ToiLink(ids[i])
  {
    seq(|ids|, i requires 0 <= i < |ids| => ToiLink(ids[i]))
  }

  /** The thumbnail of every id, in order. */
  function IdThumbnails(ids: seq<int>): (thumbnails: seq<string>)
    ensures |thumbnails| == |ids| && forall i :: 0 <= i < |ids| ==> thumbnails[i] == Thumbnail(ids[i])
  {
    seq(|ids|, i requires 0 <= i < |ids| => Thumbnail(ids[i]))
  }

  lemma IdsStep(names: seq<string>, i: nat, toi: int)
    requires i < |names| && AllParse(names[..i]) && FolderId(names[i]) == Some(toi)
    ensures AllParse(names[..i + 1])
    ensures DiscoveredIds(names[..i]) + [toi] == DiscoveredIds(names[..i + 1])
  {
    assert names[..i + 1] == names[..i] + [names[i]];
  }

  lemma AnchorsStep(ids: seq<int>, toi: int)
    ensures IdLinks(ids) + [ToiLink(toi)] == IdLinks(ids + [toi])
    ensures IdThumbnails(ids) + [Thumbnail(toi)] == IdThumbnails(ids + [toi])
  {
  }

  /** The loop over the globbed folders: parse each id and build its two
      anchors; the first name `int()` rejects aborts the scan. */
  method Discover(names: seq<string>) returns (r: Result<Discovered, TableError>)
    ensures r.Success? <==> AllParse(names)
    ensures r.Success? ==>
      var ids := DiscoveredIds(names);
      r.value == Discovered(ids, IdLinks(ids), IdThumbnails(ids))
    ensures r.Failure? ==>
      exists k :: 0 <= k < |names| && r.error == BadFolderName(names[k])
        && FolderId(names[k]).None? && AllParse(names[..k])
  {
    var tois, links, thumbnails := [], [], [];
    for i := 0 to |names|
      invariant AllParse(names[..i]) && tois == DiscoveredIds(names[..i])
      invariant links == IdLinks(tois) && thumbnails == IdThumbnails(tois)
    {
      var parsed := FolderId(names[i]);
      if parsed.None? {
        return Failure(BadFolderName(names[i]));
      }
      var toi := parsed.value;
      IdsStep(names, i, toi);
      AnchorsStep(tois, toi);
      tois := tois + [toi];
      thumbnails := thumbnails + [Thumbnail(toi)];
      links := links + [ToiLink(toi)];
    }
    assert names[..|names|] == names;
    r := Success(Discovered(tois, links, thumbnails));
  }

  // ---------------------------------------------------------------- filtering

  predicate IsComplete(s: SummaryRow)
  {
    s.toi.Some? && s.status.Some? && s.category.Some? && s.classification.Some?
  }

  function ToRow(s: SummaryRow): Row
    requires IsComplete(s)
  {
    Row(s.toi.value, s.status.value, s.category.value, s.classification.value)
  }

  /** A summary row survives `dropna()` and `isin(tois)`. */
  predicate Keeps(s: SummaryRow, ids: seq<int>)
  {
    IsComplete(s) && s.toi.value in ids
  }

  /** The summary after `dropna()` and the `isin(tois)` selection. */
  function Matched(summary: seq<SummaryRow>, ids: seq<int>): (t: seq<Row>)
    ensures |t| <= |summary|
    ensures forall r :: r in t ==> r.toi in ids
  {
    if summary == [] then []
    else (if Keeps(summary[0], ids) then [ToRow(summary[0])] else []) + Matched(summary[1..], ids)
  }

  /** The selection keeps summary order: it distributes over concatenation. */
  lemma {:induction false} MatchedAppend(a: seq<SummaryRow>, b: seq<SummaryRow>, ids: seq<int>)
    ensures Matched(a + b, ids) == Matched(a, ids) + Matched(b, ids)
  {
    if a != [] {
      assert (a + b)[0] == a[0] && (a + b)[1..] == a[1..] + b;
      MatchedAppend(a[1..], b, ids);
      var head := if Keeps(a[0], ids) then [ToRow(a[0])] else [];
      assert Matched(a + b, ids) == head + Matched(a[1..] + b, ids);
      assert Matched(a, ids) == head + Matched(a[1..], ids);
    } else {
      assert a + b == b;
    }
  }

  /** A row is in the selection exactly when some complete summary row with a
      discovered TOI carries the same four fields. */
  lemma {:induction false} MatchedMembership(summary: seq<SummaryRow>, ids: seq<int>, r: Row)
    ensures r in Matched(summary, ids) <==>
      exists i :: 0 <= i < |summary| && Keeps(summary[i], ids) && ToRow(summary[i]) == r
  {
    if summary != [] {
      MatchedMembership(summary[1..], ids, r);
      if r in Matched(summary[1..], ids) {
        var i :| 0 <= i < |summary[1..]| && Keeps(summary[1..][i], ids) && ToRow(summary[1..][i]) == r;
        assert summary[i + 1] == summary[1..][i];
      }
      if exists i :: 0 <= i < |summary| && Keeps(summary[i], ids) && ToRow(summary[i]) == r {
        var i :| 0 <= i < |summary| && Keeps(summary[i], ids) && ToRow(summary[i]) == r;
        if i > 0 {
          assert summary[1..][i - 1] == summary[i];
        }
      }
    }
  }

  // ------------------------------------------------------------- placeholders

  function ToiColumn(t: seq<Row>): (c: seq<int>)
    ensures |c| == |t| && forall i :: 0 <= i < |t| ==> c[i] == t[i].toi
  {
    seq(|t|, i requires 0 <= i < |t| => t[i].toi)
  }

  function Placeholder(toi: int): Row { Row(toi, "", "", "") }

  function Placeholders(m: seq<int>): (p: seq<Row>)
    ensures |p| == |m| && forall i :: 0 <= i < |m| ==> p[i] == Placeholder(m[i])
  {
    seq(|m|, i requires 0 <= i < |m| => Placeholder(m[i]))
  }

  /** The message written to standard error for an unmatched TOI. */
  function Warning(toi: int): string
  {
    "WARNING: did not find TOI " + IntToDecimal(toi) + " in summary file"
  }

  function Warnings(m: seq<int>): (w: seq<string>)
    ensures |w| == |m| && forall i :: 0 <= i < |m| ==> w[i] == Warning(m[i])
  {
    seq(|m|, i requires 0 <= i < |m| => Warning(m[i]))
  }

  /** The discovered ids that get a placeholder, in the order they get it:
      each id missing from `present` and not already given one. */
  function Missing(ids: seq<int>, present: seq<int>): (m: seq<int>)
    ensures forall d :: d in m ==> d in ids && d !in present
    ensures forall d :: d in ids ==> d in present || d in m
    ensures Distinct(m)
  {
    if ids == [] then []
    else
      var m := Missing(ids[..|ids| - 1], present);
      var d := ids[|ids| - 1];
      assert ids == ids[..|ids| - 1] + [d];
      if d in present || d in m then m else m + [d]
  }

  /** The index of the first occurrence of x in s. */
  function FirstIndex(s: seq<int>, x: int): (k: nat)
    requires x in s
    ensures k < |s| && s[k] == x && x !in s[..k]
  {
    if x in s[..|s| - 1] then FirstIndex(s[..|s| - 1], x)
    else
      assert s == s[..|s| - 1] + [s[|s| - 1]];
      |s| - 1
  }

  lemma FirstIndexPrefix(s: seq<int>, n: nat, x: int)
    requires n <= |s| && x in s[..n]
    ensures FirstIndex(s, x) == FirstIndex(s[..n], x)
  {
    var k, k' := FirstIndex(s, x), FirstIndex(s[..n], x);
    assert s[..n][k'] == s[k'];
  }

  /** Placeholders are handed out in the order the ids were discovered. */
  lemma {:induction false} MissingInDiscoveryOrder(ids: seq<int>, present: seq<int>)
    ensures forall i, j :: 0 <= i < j < |Missing(ids, present)| ==>
      FirstIndex(ids, Missing(ids, present)[i]) < FirstIndex(ids, Missing(ids, present)[j])
  {
    if ids != [] {
      var p := ids[..|ids| - 1];
      var d := ids[|ids| - 1];
      var m := Missing(p, present);
      MissingInDiscoveryOrder(p, present);
      assert ids[..|ids| - 1] == p;
      forall i, j | 0 <= i < j < |Missing(ids, present)|
        ensures FirstIndex(ids, Missing(ids, present)[i]) < FirstIndex(ids, Missing(ids, present)[j])
      {
        var mm := Missing(ids, present);
        assert mm[i] == m[i];
        FirstIndexPrefix(ids, |ids| - 1, m[i]);
        if j < |m| {
          assert mm[j] == m[j];
          FirstIndexPrefix(ids, |ids| - 1, m[j]);
        } else {
          assert mm[j] == d && d !in p;
          assert FirstIndex(ids, d) == |ids| - 1;
        }
      }
    }
  }

  lemma ColumnWithPlaceholders(t: seq<Row>, m: seq<int>)
    ensures ToiColumn(t + Placeholders(m)) == ToiColumn(t) + m
  {
  }

  lemma MissingStep(ids: seq<int>, i: nat, present: seq<int>)
    requires i < |ids|
    ensures Missing(ids[..i + 1], present) ==
      var m := Missing(ids[..i], present);
      if ids[i] in present || ids[i] in m then m else m + [ids[i]]
  {
    assert ids[..i + 1][..i] == ids[..i];
  }

  lemma AppendPlaceholder(m: seq<int>, toi: int)
    ensures Placeholders(m + [toi]) == Placeholders(m) + [Placeholder(toi)]
    ensures Warnings(m + [toi]) == Warnings(m) + [Warning(toi)]
  {
  }

  /** One turn of the placeholder loop, stated on the table grown so far. */
  lemma PlaceholderTurn(table: seq<Row>, ids: seq<int>, i: nat)
    requires i < |ids|
    ensures
      var present := ToiColumn(table);
      var m := Missing(ids[..i], present);
      var grown := table + Placeholders(m);
      var m' := Missing(ids[..i + 1], present);
      && (ids[i] in ToiColumn(grown) ==> m' == m)
      && (ids[i] !in ToiColumn(grown) ==>
            && table + Placeholders(m') == grown + [Placeholder(ids[i])]
            && Warnings(m') == Warnings(m) + [Warning(ids[i])])
  {
    var present := ToiColumn(table);
    var m := Missing(ids[..i], present);
    MissingStep(ids, i, present);
    ColumnWithPlaceholders(table, m);
    AppendPlaceholder(m, ids[i]);
  }

  /** The loop that appends a placeholder row, and writes a warning, for every
      discovered TOI the growing table does not yet hold. */
  method AddPlaceholders(table: seq<Row>, ids: seq<int>) returns (grown: seq<Row>, warnings: seq<string>)
    ensures grown == table + Placeholders(Missing(ids, ToiColumn(table)))
    ensures warnings == Warnings(Missing(ids, ToiColumn(table)))
  {
    ghost var present := ToiColumn(table);
    grown, warnings := table, [];
    for i := 0 to |ids|
      invariant grown == table + Placeholders(Missing(ids[..i], present))
      invariant warnings == Warnings(Missing(ids[..i], present))
    {
      var toi := ids[i];
      PlaceholderTurn(table, ids, i);
      if toi !in ToiColumn(grown) {
        warnings := warnings + [Warning(toi)];
        grown := grown + [Placeholder(toi)];
      }
    }
    assert ids[..|ids|] == ids;
  }

  // ---------------------------------------------------------------- reconciled table

  /** The table before its TOI column becomes links: the selected summary
      rows, then one placeholder per discovered TOI they do not cover. */
  function Reconciled(summary: seq<SummaryRow>, ids: seq<int>): seq<Row>
  {
    var t := Matched(summary, ids);
    t + Placeholders(Missing(ids, ToiColumn(t)))
  }

  /** The warnings written to standard error while the placeholders are added. */
  function UnmatchedWarnings(summary: seq<SummaryRow>, ids: seq<int>): seq<string>
  {
    Warnings(Missing(ids, ToiColumn(Matched(summary, ids))))
  }

  /** Every discovered TOI has a row, and every row belongs to a discovered
      TOI; the selected rows come first, the empty placeholders after them. */
  lemma ReconciledCoversDiscovered(summary: seq<SummaryRow>, ids: seq<int>)
    ensures forall d :: d in ToiColumn(Reconciled(summary, ids)) <==> d in ids
    ensures Reconciled(summary, ids)[..|Matched(summary, ids)|] == Matched(summary, ids)
    ensures forall i :: |Matched(summary, ids)| <= i < |Reconciled(summary, ids)| ==>
      var r := Reconciled(summary, ids)[i];
      r.status == "" && r.category == "" && r.classification == ""
  {
    var t := Matched(summary, ids);
    var m := Missing(ids, ToiColumn(t));
    ColumnWithPlaceholders(t, m);
    forall d | d in ToiColumn(t) ensures d in ids {
      var k :| 0 <= k < |t| && ToiColumn(t)[k] == d;
      assert t[k] in t;
    }
  }

  /** When no TOI has two complete summary rows, every discovered TOI
      appears in exactly one row, repeated folders included: the table has
      one row per distinct discovered TOI. */
  lemma ReconciledOncePerDistinctId(summary: seq<SummaryRow>, ids: seq<int>)
    requires Distinct(ToiColumn(Matched(summary, ids)))
    ensures |Reconciled(summary, ids)| == |Elements(ids)|
    ensures Distinct(ToiColumn(Reconciled(summary, ids)))
  {
    var t := Matched(summary, ids);
    var c := ToiColumn(t);
    var m := Missing(ids, c);
    ColumnWithPlaceholders(t, m);
    ReconciledCoversDiscovered(summary, ids);
    var all := c + m;
    assert ToiColumn(Reconciled(summary, ids)) == all;
    assert Distinct(all) by {
      forall i, j | 0 <= i < j < |all| ensures all[i] != all[j] {
        if j < |c| {
          assert all[i] == c[i] && all[j] == c[j];
        } else if i >= |c| {
          assert all[i] == m[i - |c|] && all[j] == m[j - |c|];
        } else {
          assert all[j] == m[j - |c|] && all[j] in m;
          assert all[i] in c;
        }
      }
    }
    assert Elements(all) == Elements(ids);
    ElementsCount(all);
  }

  /** When moreover no folder repeats a TOI, the table has one row per
      discovered folder. */
  lemma ReconciledOncePerId(summary: seq<SummaryRow>, ids: seq<int>)
    requires Distinct(ids)
    requires Distinct(ToiColumn(Matched(summary, ids)))
    ensures |Reconciled(summary, ids)| == |ids|
    ensures Distinct(ToiColumn(Reconciled(summary, ids)))
  {
    ReconciledOncePerDistinctId(summary, ids);
    ElementsCount(ids);
  }

  /** One warning per placeholder row, naming that row's TOI; none exactly
      when every discovered TOI has a selected summary row. */
  lemma WarningsMatchPlaceholders(summary: seq<SummaryRow>, ids: seq<int>)
    ensures |UnmatchedWarnings(summary, ids)| == |Reconciled(summary, ids)| - |Matched(summary, ids)|
    ensures forall i :: 0 <= i < |UnmatchedWarnings(summary, ids)| ==>
      UnmatchedWarnings(summary, ids)[i] == Warning(Reconciled(summary, ids)[|Matched(summary, ids)| + i].toi)
    ensures UnmatchedWarnings(summary, ids) == [] <==>
      forall d :: d in ids ==> d in ToiColumn(Matched(summary, ids))
  {
    var t := Matched(summary, ids);
    var m := Missing(ids, ToiColumn(t));
    PlaceholderWarnings(t, m);
    NoneMissing(ids, ToiColumn(t));
  }

  /** Warning i names the TOI of placeholder row i after the rows t. */
  lemma PlaceholderWarnings(t: seq<Row>, m: seq<int>)
    ensures |Warnings(m)| == |t + Placeholders(m)| - |t|
    ensures forall i :: 0 <= i < |m| ==> Warnings(m)[i] == Warning((t + Placeholders(m))[|t| + i].toi)
  {
    forall i | 0 <= i < |m| ensures Warnings(m)[i] == Warning((t + Placeholders(m))[|t| + i].toi) {
      assert (t + Placeholders(m))[|t| + i] == Placeholders(m)[i];
    }
  }

  /** No id gets a placeholder exactly when every id is present. */
  lemma NoneMissing(ids: seq<int>, present: seq<int>)
    ensures Missing(ids, present) == [] <==> forall d :: d in ids ==> d in present
  {
    var m := Missing(ids, present);
    if m != [] {
      assert m[0] in m;
    }
  }

  /** Nothing discovered: an empty table and no warnings. */
  lemma NothingDiscovered(summary: seq<SummaryRow>)
    ensures Reconciled(summary, []) == [] && UnmatchedWarnings(summary, []) == []
  {
    var t := Matched(summary, []);
    if t != [] {
      assert t[0] in t;
    }
  }

  /** The reconciled table has no rows only when no folder was found. */
  lemma EmptyOnlyWithoutFolders(summary: seq<SummaryRow>, ids: seq<int>)
    ensures Reconciled(summary, ids) == [] <==> ids == []
  {
    if ids != [] {
      var t := Matched(summary, ids);
      var m := Missing(ids, ToiColumn(t));
      assert ids[0] in ids;
      if t == [] {
        assert ids[0] in m;
      }
      assert |Reconciled(summary, ids)| == |t| + |m|;
    } else {
      NothingDiscovered(summary);
    }
  }

  // ---------------------------------------------------------------- columns

  predicate WellShaped(f: Frame)
  {
    forall i :: 0 <= i < |f.cells| ==> |f.cells[i]| == |f.columns|
  }

  /** `df["TOI"] = toi_links`: the i-th link replaces the TOI of the i-th row,
      whichever TOI that row holds; a list of another length is refused.
      pandas instead takes the index from the list when the frame has no
      rows, but the table here is empty only when no folder was found
      (`EmptyOnlyWithoutFolders`), and then the list is empty too. */
  function LinkToiColumn(table: seq<Row>, links: seq<string>): (r: Result<Frame, TableError>)
    ensures r.Success? <==> |links| == |table|
    ensures r.Failure? ==> r.error == LengthMismatch(|table|, |links|)
    ensures r.Success? ==>
      && r.value.columns == SummaryColumns && WellShaped(r.value) && |r.value.cells| == |table|
      && forall i :: 0 <= i < |table| ==>
        r.value.cells[i] == [links[i], table[i].status, table[i].category, table[i].classification]
  {
    if |links| != |table| then Failure(LengthMismatch(|table|, |links|))
    else
      Success(Frame(SummaryColumns,
        seq(|table|, i requires 0 <= i < |table| =>
          [links[i], table[i].status, table[i].category, table[i].classification])))
  }

  /** `df.insert(pos, name, values)`: the new column lands at index pos and the
      columns from pos on move one place right, in the header and in every
      row. pandas refuses an existing name, then a list of the wrong length,
      then a position past the last column. On a frame with no rows it would
      take the index from the list instead; the frame the Phase Plot column
      goes into has one row per thumbnail, so that case does not arise. */
  function InsertColumn(f: Frame, pos: nat, name: string, values: seq<string>): (r: Result<Frame, TableError>)
    requires WellShaped(f)
    ensures r.Success? <==> name !in f.columns && pos <= |f.columns| && |values| == |f.cells|
    ensures name in f.columns ==> r == Failure(DuplicateColumn(name))
    ensures name !in f.columns && |values| != |f.cells| ==> r == Failure(LengthMismatch(|f.cells|, |values|))
    ensures name !in f.columns && |values| == |f.cells| && pos > |f.columns| ==> r == Failure(BadPosition(pos))
    ensures r.Success? ==>
      && WellShaped(r.value) && |r.value.columns| == |f.columns| + 1 && |r.value.cells| == |f.cells|
      && r.value.columns[pos] == name
      && r.value.columns[..pos] == f.columns[..pos] && r.value.columns[pos + 1..] == f.columns[pos..]
      && forall i :: 0 <= i < |f.cells| ==>
        && r.value.cells[i][pos] == values[i]
        && r.value.cells[i][..pos] == f.cells[i][..pos]
        && r.value.cells[i][pos + 1..] == f.cells[i][pos..]
  {
    if name in f.columns then Failure(DuplicateColumn(name))
    else if |values| != |f.cells| then Failure(LengthMismatch(|f.cells|, |values|))
    else if pos > |f.columns| then Failure(BadPosition(pos))
    else
      var cells := seq(|f.cells|, i requires 0 <= i < |f.cells| => f.cells[i][..pos] + [values[i]] + f.cells[i][pos..]);
      var columns := f.columns[..pos] + [name] + f.columns[pos..];
      assert columns[..pos] == f.columns[..pos] && columns[pos + 1..] == f.columns[pos..];
      assert forall i :: 0 <= i < |f.cells| ==>
        cells[i][..pos] == f.cells[i][..pos] && cells[i][pos + 1..] == f.cells[i][pos..];
      Success(Frame(columns, cells))
  }

  /** The page table: row i shows the link and thumbnail of the i-th
      discovered TOI beside the three text fields of the i-th reconciled row. */
  function PageTable(rows: seq<Row>, ids: seq<int>): Frame
    requires |rows| == |ids|
  {
    Frame(PageColumns,
      seq(|rows|, i requires 0 <= i < |rows| =>
        [ToiLink(ids[i]), Thumbnail(ids[i]), rows[i].status, rows[i].category, rows[i].classification]))
  }

  lemma InsertPhasePlot(linked: Frame, rows: seq<Row>, ids: seq<int>)
    requires |rows| == |ids|
    requires linked.columns == SummaryColumns && WellShaped(linked) && |linked.cells| == |rows|
    requires forall i :: 0 <= i < |rows| ==>
      linked.cells[i] == [ToiLink(ids[i]), rows[i].status, rows[i].category, rows[i].classification]
    ensures InsertColumn(linked, 1, "Phase Plot", IdThumbnails(ids)) == Success(PageTable(rows, ids))
  {
    var r := InsertColumn(linked, 1, "Phase Plot", IdThumbnails(ids));
    assert r.Success?;
    var page := PageTable(rows, ids);
    assert r.value.columns == page.columns;
    forall i | 0 <= i < |rows| ensures r.value.cells[i] == page.cells[i] {
      assert r.value.cells[i] == linked.cells[i][..1] + [Thumbnail(ids[i])] + linked.cells[i][1..];
    }
    assert r.value.cells == page.cells;
  }

  /** generate_table_html up to the itables call: scan the folders, select the
      summary rows, add placeholders with their warnings, then put the links
      in the TOI column and the thumbnails in a new column at index 1. */
  method GenerateTable(names: seq<string>, summary: seq<SummaryRow>)
    returns (r: Result<Frame, TableError>, warnings: seq<string>)
    ensures !AllParse(names) ==> r.Failure? && warnings == []
    ensures !AllParse(names) ==>
      exists k :: 0 <= k < |names| && r.error == BadFolderName(names[k])
        && FolderId(names[k]).None? && AllParse(names[..k])
    ensures AllParse(names) ==>
      var ids := DiscoveredIds(names);
      var rows := Reconciled(summary, ids);
      && warnings == UnmatchedWarnings(summary, ids)
      && (r.Success? <==> |rows| == |ids|)
      && (r.Success? ==> r.value == PageTable(rows, ids))
      && (r.Failure? ==> r.error == LengthMismatch(|rows|, |ids|))
  {
    var found := Discover(names);
    if found.Failure? {
      return Failure(found.error), [];
    }
    var d := found.value;
    var table := Matched(summary, d.ids);
    var grown;
    grown, warnings := AddPlaceholders(table, d.ids);
    var linked := LinkToiColumn(grown, d.links);
    if linked.Failure? {
      return Failure(linked.error), warnings;
    }
    InsertPhasePlot(linked.value, grown, d.ids);
    r := InsertColumn(linked.value, 1, "Phase Plot", d.thumbnails);
  }

  // ---------------------------------------------------------------- the positional TOI column

  /** The link in row i is that of the i-th discovered TOI; it names the row's
      own TOI only where the reconciled rows follow discovery order. */
  lemma LinksFollowDiscoveryOrder(rows: seq<Row>, ids: seq<int>, i: nat)
    requires |rows| == |ids| && i < |rows|
    ensures PageTable(rows, ids).cells[i][0] == ToiLink(ids[i])
    ensures PageTable(rows, ids).cells[i][0] == ToiLink(rows[i].toi) <==> rows[i].toi == ids[i]
  {
    if PageTable(rows, ids).cells[i][0] == ToiLink(rows[i].toi) {
      ToiLinkInjective(ids[i], rows[i].toi);
    }
  }

  /** Folders for TOIs 5 and 7 and a summary listing 7 before 5: the first row
      carries the status of TOI 7 beside the link of TOI 5. */
  lemma SummaryOrderMislabels()
    ensures
      var summary := [SummaryRow(Some(7), Some("failed"), Some("B"), Some("Y")),
                      SummaryRow(Some(5), Some("completed"), Some("A"), Some("X"))];
      var rows := Reconciled(summary, [5, 7]);
      && rows == [Row(7, "failed", "B", "Y"), Row(5, "completed", "A", "X")]
      && PageTable(rows, [5, 7]).cells[0][0] == ToiLink(5)
      && PageTable(rows, [5, 7]).cells[0][2] == "failed"
      && ToiLink(5) != ToiLink(7)
  {
    var summary := [SummaryRow(Some(7), Some("failed"), Some("B"), Some("Y")),
                    SummaryRow(Some(5), Some("completed"), Some("A"), Some("X"))];
    var t := Matched(summary, [5, 7]);
    assert t == [Row(7, "failed", "B", "Y"), Row(5, "completed", "A", "X")];
    assert ToiColumn(t) == [7, 5];
    assert [5, 7][..1] == [5] && [5][..0] == [];
    assert Missing([5], [7, 5]) == [];
    assert Missing([5, 7], [7, 5]) == [];
    if ToiLink(5) == ToiLink(7) {
      ToiLinkInjective(5, 7);
    }
  }

  lemma ThreeFoldersMatched()
    ensures
      Matched([SummaryRow(Some(5), Some("completed"), Some("A"), Some("X")),
               SummaryRow(Some(7), Some("failed"), Some("B"), Some("Y")),
               SummaryRow(Some(20), Some("completed"), Some("C"), Some("Z"))], [5, 7, 9])
        == [Row(5, "completed", "A", "X"), Row(7, "failed", "B", "Y")]
  {
    var r5 := SummaryRow(Some(5), Some("completed"), Some("A"), Some("X"));
    var r7 := SummaryRow(Some(7), Some("failed"), Some("B"), Some("Y"));
    var r20 := SummaryRow(Some(20), Some("completed"), Some("C"), Some("Z"));
    assert [r5, r7, r20][1..] == [r7, r20] && [r7, r20][1..] == [r20] && [r20][1..] == [];
    assert Matched([r20], [5, 7, 9]) == [];
    assert Matched([r7, r20], [5, 7, 9]) == [ToRow(r7)];
  }

  lemma NineMissing()
    ensures Missing([5, 7, 9], [5, 7]) == [9]
  {
    assert [5, 7, 9][..2] == [5, 7] && [5, 7][..1] == [5] && [5][..0] == [];
    assert Missing([5], [5, 7]) == [];
    assert Missing([5, 7], [5, 7]) == [];
  }

  /** Folders for TOIs 5 and 7 and a complete summary row only for 7, in
      discovery order: the placeholder for 5 goes after the row of 7, so both
      page rows carry the other TOI's link. */
  lemma PlaceholderFirstMislabels()
    ensures
      var rows := Reconciled([SummaryRow(Some(7), Some("failed"), Some("B"), Some("Y"))], [5, 7]);
      && rows == [Row(7, "failed", "B", "Y"), Row(5, "", "", "")]
      && PageTable(rows, [5, 7]).cells[0][0] == ToiLink(5)
      && PageTable(rows, [5, 7]).cells[0][2] == "failed"
      && PageTable(rows, [5, 7]).cells[1][0] == ToiLink(7)
      && PageTable(rows, [5, 7]).cells[1][2] == ""
  {
    PlaceholderFirstRows();
  }

  lemma PlaceholderFirstRows()
    ensures Reconciled([SummaryRow(Some(7), Some("failed"), Some("B"), Some("Y"))], [5, 7])
      == [Row(7, "failed", "B", "Y"), Row(5, "", "", "")]
  {
    var s7 := SummaryRow(Some(7), Some("failed"), Some("B"), Some("Y"));
    assert [s7][1..] == [];
    var t := Matched([s7], [5, 7]);
    assert t == [Row(7, "failed", "B", "Y")];
    assert ToiColumn(t) == [7];
    assert [5, 7][..1] == [5] && [5][..0] == [];
    assert Missing([5], [7]) == [5];
    assert Missing([5, 7], [7]) == [5];
  }

  /** Folders for TOIs 5, 7 and 9; summary rows for 5, 7 and the undiscovered
      20: three rows, an empty one for 9, one warning, nothing for 20. */
  lemma ThreeFoldersOneUnmatched()
    ensures
      var summary := [SummaryRow(Some(5), Some("completed"), Some("A"), Some("X")),
                      SummaryRow(Some(7), Some("failed"), Some("B"), Some("Y")),
                      SummaryRow(Some(20), Some("completed"), Some("C"), Some("Z"))];
      && Reconciled(summary, [5, 7, 9])
           == [Row(5, "completed", "A", "X"), Row(7, "failed", "B", "Y"), Row(9, "", "", "")]
      && UnmatchedWarnings(summary, [5, 7, 9]) == [Warning(9)]
  {
    ThreeFoldersMatched();
    var t := [Row(5, "completed", "A", "X"), Row(7, "failed", "B", "Y")];
    assert ToiColumn(t) == [5, 7];
    NineMissing();
  }

  /** Two folders that name the same TOI (`toi_7_files`, `toi_007_files`) and
      no summary row: one placeholder for two links, so the TOI assignment
      fails with a length mismatch. */
  lemma RepeatedFolderOnePlaceholder()
    ensures Reconciled([], [7, 7]) == [Placeholder(7)]
    ensures |Reconciled([], [7, 7])| != |[7, 7]|
  {
    assert [7, 7][..1] == [7] && [7][..0] == [];
    assert Missing([7], []) == [7];
    assert Missing([7, 7], []) == [7];
  }

  /** Two complete summary rows for one discovered TOI: two rows for one link,
      the same failure. */
  lemma RepeatedSummaryRows()
    ensures
      var twice := [SummaryRow(Some(5), Some("completed"), Some("A"), Some("X")),
                    SummaryRow(Some(5), Some("failed"), Some("A"), Some("X"))];
      && Reconciled(twice, [5]) == [Row(5, "completed", "A", "X"), Row(5, "failed", "A", "X")]
      && |Reconciled(twice, [5])| != |[5]|
  {
    var a := SummaryRow(Some(5), Some("completed"), Some("A"), Some("X"));
    var b := SummaryRow(Some(5), Some("failed"), Some("A"), Some("X"));
    assert [a, b][1..] == [b] && [b][1..] == [];
    assert Matched([b], [5]) == [ToRow(b)];
    var t := Matched([a, b], [5]);
    assert t == [ToRow(a), ToRow(b)];
    assert ToiColumn(t) == [5, 5];
    assert [5][..0] == [];
    assert Missing([5], [5, 5]) == [];
  }

  /** Folders [7, 7] and two complete summary rows for TOI 7: the surplus
      row and the surplus link cancel out, so the TOI assignment succeeds. */
  lemma RepeatsCancel()
    ensures
      var twice := [SummaryRow(Some(7), Some("completed"), Some("A"), Some("X")),
                    SummaryRow(Some(7), Some("failed"), Some("A"), Some("X"))];
      && Reconciled(twice, [7, 7]) == [Row(7, "completed", "A", "X"), Row(7, "failed", "A", "X")]
      && |Reconciled(twice, [7, 7])| == |[7, 7]|
  {
    var a := SummaryRow(Some(7), Some("completed"), Some("A"), Some("X"));
    var b := SummaryRow(Some(7), Some("failed"), Some("A"), Some("X"));
    assert [a, b][1..] == [b] && [b][1..] == [];
    assert Matched([b], [7, 7]) == [ToRow(b)];
    var t := Matched([a, b], [7, 7]);
    assert t == [ToRow(a), ToRow(b)];
    assert ToiColumn(t) == [7, 7];
    assert [7, 7][..1] == [7] && [7][..0] == [];
    assert Missing([7], [7, 7]) == [];
    assert Missing([7, 7], [7, 7]) == [];
  }
}
