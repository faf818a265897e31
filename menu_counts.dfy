/** The counts the __main__ block of scripts/menu-page.py hands to the page
    template: how many summary rows have a status, how many of them are
    completed, failed and not started, and how many distinct TOIs the
    reference catalogue lists. */
module MenuCounts {
  import opened Wrappers
  import opened SeqSets
  import opened TableHtml

  /** The values the template receives besides the table. */
  datatype PageCounts = PageCounts(
    processed: nat,   // N_TESS_ATLAS
    reference: nat,   // N_EXOFOP
    passed: nat,      // N_PASS
    failed: nat,      // N_FAIL
    notStarted: nat)  // N_NOT_STARTED

  /** `df["Status"]` of the unfiltered summary. */
  function StatusColumn(summary: seq<SummaryRow>): (col: seq<Option<string>>)
    ensures |col| == |summary| && forall i :: 0 <= i < |summary| ==> col[i] == summary[i].status
  {
    seq(|summary|, i requires 0 <= i < |summary| => summary[i].status)
  }

  /** `col.dropna()`: the statuses that are there, in order. */
  function Present(col: seq<Option<string>>): (p: seq<string>)
    ensures |p| + multiset(col)[None] == |col|
    ensures forall s :: multiset(p)[s] == multiset(col)[Some(s)]
  {
    if col == [] then []
    else
      var q := col[..|col| - 1];
      assert col == q + [col[|col| - 1]];
      match col[|col| - 1]
      case None => Present(q)
      case Some(s) => Present(q) + [s]
  }

  /** `col.value_counts().to_dict()`: each status that occurs, with the number
      of rows that carry it; missing statuses are not counted. */
  function ValueCounts(col: seq<Option<string>>): (counts: map<string, nat>)
    ensures forall s :: s in counts <==> Some(s) in col
    ensures forall s :: s in counts ==> counts[s] == multiset(col)[Some(s)]
  {
    if col == [] then map[]
    else
      var q := col[..|col| - 1];
      var counts := ValueCounts(q);
      assert col == q + [col[|col| - 1]];
      match col[|col| - 1]
      case None => counts
      case Some(s) => counts[s := (if s in counts then counts[s] else 0) + 1]
  }

  /** `counts.get(key, default)`. */
  function CountOr(counts: map<string, nat>, key: string, default: nat): nat
  {
    if key in counts then counts[key] else default
  }

  /** The dictionary lookup with default 0 is the number of rows with that status. */
  lemma CountOrIsOccurrences(col: seq<Option<string>>, key: string)
    ensures CountOr(ValueCounts(col), key, 0) == multiset(col)[Some(key)]
  {
  }

  /** The statuses that occur, each once, in order of first appearance: an
      enumeration of the keys of ValueCounts. */
  function Statuses(col: seq<Option<string>>): (ks: seq<string>)
    ensures Distinct(ks)
    ensures forall s :: s in ks <==> Some(s) in col
  {
    if col == [] then []
    else
      var q := col[..|col| - 1];
      var ks := Statuses(q);
      assert col == q + [col[|col| - 1]];
      match col[|col| - 1]
      case None => ks
      case Some(s) => if s in ks then ks else ks + [s]
  }

  /** The sum of counts[k] over the keys ks. */
  function SumOver(counts: map<string, nat>, ks: seq<string>): nat
    requires forall k :: k in ks ==> k in counts
  {
    if ks == [] then 0 else SumOver(counts, ks[..|ks| - 1]) + counts[ks[|ks| - 1]]
  }

  lemma {:induction false} SumOverAgree(a: map<string, nat>, b: map<string, nat>, ks: seq<string>)
    requires forall k :: k in ks ==> k in a && k in b && a[k] == b[k]
    ensures SumOver(a, ks) == SumOver(b, ks)
  {
    if ks != [] {
      SumOverAgree(a, b, ks[..|ks| - 1]);
    }
  }

  lemma {:induction false} SumOverBump(counts: map<string, nat>, ks: seq<string>, s: string)
    requires Distinct(ks) && s in ks && forall k :: k in ks ==> k in counts
    ensures SumOver(counts[s := counts[s] + 1], ks) == SumOver(counts, ks) + 1
  {
    var q := ks[..|ks| - 1];
    var last := ks[|ks| - 1];
    var bumped := counts[s := counts[s] + 1];
    assert ks == q + [last];
    if last == s {
      assert s !in q;
      SumOverAgree(bumped, counts, q);
    } else {
      SumOverBump(counts, q, s);
    }
  }

  /** The per-status counts add up to the number of rows with a status. */
  lemma {:induction false} CountsSumToTotal(col: seq<Option<string>>)
    ensures SumOver(ValueCounts(col), Statuses(col)) == |Present(col)|
  {
    if col != [] {
      var q := col[..|col| - 1];
      CountsSumToTotal(q);
      var counts := ValueCounts(q);
      var ks := Statuses(q);
      match col[|col| - 1]
      case None =>
      case Some(s) =>
        if s in ks {
          SumOverBump(counts, ks, s);
        } else {
          var ks' := ks + [s];
          assert ks'[..|ks'| - 1] == ks;
          SumOverAgree(counts[s := 1], counts, ks);
        }
    }
  }

  lemma {:induction false} ThreeCountsBound(p: seq<string>, a: string, b: string, c: string)
    requires a != b && b != c && a != c
    ensures multiset(p)[a] + multiset(p)[b] + multiset(p)[c] <= |p|
  {
    if p != [] {
      var q := p[..|p| - 1];
      assert p == q + [p[|p| - 1]];
      ThreeCountsBound(q, a, b, c);
    }
  }

  /** `len(np.unique(ids))`: the number of distinct reference TOIs. */
  function DistinctCount(ids: seq<int>): (n: nat)
    ensures n <= |ids|
    ensures n == |ids| <==> Distinct(ids)
  {
    ElementsCount(ids);
    |Elements(ids)|
  }

  /** The template values: N_TESS_ATLAS counts the non-missing statuses of
      the whole summary, N_PASS, N_FAIL and N_NOT_STARTED look up
      "completed", "failed" and "not_started" with 0 as default, and
      N_EXOFOP counts the distinct reference TOIs. */
  function TemplateCounts(summary: seq<SummaryRow>, referenceIds: seq<int>): (c: PageCounts)
    ensures c.processed <= |summary|
    ensures c.processed + multiset(StatusColumn(summary))[None] == |summary|
    ensures c.processed == SumOver(ValueCounts(StatusColumn(summary)), Statuses(StatusColumn(summary)))
    ensures c.passed == multiset(StatusColumn(summary))[Some("completed")]
    ensures c.failed == multiset(StatusColumn(summary))[Some("failed")]
    ensures c.notStarted == multiset(StatusColumn(summary))[Some("not_started")]
    ensures c.passed + c.failed + c.notStarted <= c.processed
    ensures c.reference <= |referenceIds|
    ensures c.reference == |Elements(referenceIds)|
  {
    var col := StatusColumn(summary);
    var counts := ValueCounts(col);
    var present := Present(col);
    ThreeCountsBound(present, "completed", "failed", "not_started");
    CountsSumToTotal(col);
    CountOrIsOccurrences(col, "completed");
    CountOrIsOccurrences(col, "failed");
    CountOrIsOccurrences(col, "not_started");
    assert multiset(present)["completed"] == multiset(col)[Some("completed")];
    assert multiset(present)["failed"] == multiset(col)[Some("failed")];
    assert multiset(present)["not_started"] == multiset(col)[Some("not_started")];
    PageCounts(
      |present|,
      DistinctCount(referenceIds),
      CountOr(counts, "completed", 0),
      CountOr(counts, "failed", 0),
      CountOr(counts, "not_started", 0))
  }

  /** A summary without any status gives zero for every count. */
  lemma NoStatusNoCounts(summary: seq<SummaryRow>, referenceIds: seq<int>)
    requires forall i :: 0 <= i < |summary| ==> summary[i].status.None?
    ensures var c := TemplateCounts(summary, referenceIds);
      c.processed == c.passed == c.failed == c.notStarted == 0
  {
  }
}
