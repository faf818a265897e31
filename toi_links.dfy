/** Folder names of the per-TOI artifact directories and the two HTML
    fragments the page builds from a TOI number (scripts/menu-page.py, the
    discovery loop of generate_table_html). */
module ToiLinks {
  import opened Wrappers
  import opened PyInt

  const Prefix: string := "toi_"
  const Suffix: string := "_files"

  /** `s.removeprefix(p)`. */
  function RemovePrefix(s: string, p: string): (r: string)
    ensures p <= s ==> p + r == s
    ensures !(p <= s) ==> r == s
  {
    if p <= s then s[|p|..] else s
  }

  /** `s.removesuffix(p)`. */
  function RemoveSuffix(s: string, p: string): (r: string)
    ensures |p| <= |s| && s[|s| - |p|..] == p ==> r + p == s
    ensures !(|p| <= |s| && s[|s| - |p|..] == p) ==> r == s
  {
    if |p| <= |s| && s[|s| - |p|..] == p then s[..|s| - |p|] else s
  }

  /** The artifact directory of TOI n, as the glob `toi_*_files` finds it. */
  function FolderName(n: int): string
  {
    Prefix + IntToDecimal(n) + Suffix
  }

  /** `int(name.removeprefix("toi_").removesuffix("_files"))`; None where
      `int()` raises. */
  function FolderId(name: string): Option<int>
  {
    ParseInt(RemoveSuffix(RemovePrefix(name, Prefix), Suffix))
  }

  // The anchors are built from the numeral d = str(n), as the f-strings do.

  /** The page of the TOI whose numeral is d. */
  function ObjectPathOf(d: string): string { "/objects/toi_" + d + "/" }

  /** The quoted href value shared by both anchors. */
  function HrefOf(d: string): string { "'" + ObjectPathOf(d) + "'" }

  /** The phase-plot image kept in the artifact folder `toi_<d>_files`. */
  function ThumbnailPathOf(d: string): string { "/toi_data/" + (Prefix + d + Suffix) + "/thumbnail.png" }

  function LinkHtml(d: string): string
  {
    "<a href=" + HrefOf(d) + "> " + d + "</a>"
  }

  function ThumbnailHtml(d: string): string
  {
    "<a href=" + HrefOf(d) + "/'> <img src='" + ThumbnailPathOf(d) + "'></a>"
  }

  function ObjectPath(n: int): string { ObjectPathOf(IntToDecimal(n)) }

  function ThumbnailPath(n: int): string { ThumbnailPathOf(IntToDecimal(n)) }

  /** The id link placed in the TOI column. */
  function ToiLink(n: int): string { LinkHtml(IntToDecimal(n)) }

  /** The thumbnail anchor placed in the Phase Plot column, with the stray
      `/'` after the href exactly as the script writes it. */
  function Thumbnail(n: int): string { ThumbnailHtml(IntToDecimal(n)) }

  /** Parsing the folder name of n gives n back. */
  lemma FolderIdRoundTrip(n: int)
    ensures FolderId(FolderName(n)) == Some(n)
  {
    var d := IntToDecimal(n);
    var name := FolderName(n);
    assert Prefix <= name;
    var rest := RemovePrefix(name, Prefix);
    assert rest == d + Suffix;
    assert rest[|rest| - |Suffix|..] == Suffix;
    assert RemoveSuffix(rest, Suffix) == d;
    ParseIntOfDecimal(n);
  }

  lemma PrefixSlice(x: string, y: string, i: nat, j: nat)
    requires i <= j <= |x|
    ensures (x + y)[i..j] == x[i..j]
  {
  }

  lemma Middle(a: string, b: string, c: string)
    ensures (a + b + c)[|a|..|a| + |b|] == b
  {
    assert forall i :: 0 <= i < |b| ==> (a + b + c)[|a| + i] == b[i];
  }

  lemma Nested(s: string, i: nat, j: nat, k: nat, l: nat)
    requires i <= j <= |s| && k <= l <= j - i
    ensures s[i..j][k..l] == s[i + k..i + l]
  {
    assert forall m :: 0 <= m < l - k ==> s[i..j][k..l][m] == s[i + k..i + l][m];
  }

  lemma PathInLink(d: string)
    ensures LinkHtml(d)[9..9 + |ObjectPathOf(d)|] == ObjectPathOf(d)
  {
    var h, p := HrefOf(d), ObjectPathOf(d);
    Middle("'", p, "'");
    var tail := "> " + d + "</a>";
    assert LinkHtml(d) == "<a href=" + h + tail;
    Middle("<a href=", h, tail);
    Nested(LinkHtml(d), 8, 8 + |h|, 1, 1 + |p|);
  }

  lemma PathInThumbnail(d: string)
    ensures ThumbnailHtml(d)[9..9 + |ObjectPathOf(d)|] == ObjectPathOf(d)
  {
    var h, p := HrefOf(d), ObjectPathOf(d);
    Middle("'", p, "'");
    var tail := "/'> <img src='" + ThumbnailPathOf(d) + "'></a>";
    assert ThumbnailHtml(d) == "<a href=" + h + tail;
    Middle("<a href=", h, tail);
    Nested(ThumbnailHtml(d), 8, 8 + |h|, 1, 1 + |p|);
  }

  /** Both anchors open with the quoted object page of n. */
  lemma AnchorsNameObject(n: int)
    ensures ToiLink(n)[9..9 + |ObjectPath(n)|] == ObjectPath(n)
    ensures Thumbnail(n)[9..9 + |ObjectPath(n)|] == ObjectPath(n)
  {
    PathInLink(IntToDecimal(n));
    PathInThumbnail(IntToDecimal(n));
  }

  /** The folder named in the thumbnail image path parses back to n. */
  lemma ThumbnailPathRoundTrip(n: int)
    ensures ThumbnailPath(n)[10..10 + |FolderName(n)|] == FolderName(n)
    ensures FolderId(ThumbnailPath(n)[10..10 + |FolderName(n)|]) == Some(n)
  {
    Middle("/toi_data/", FolderName(n), "/thumbnail.png");
    FolderIdRoundTrip(n);
  }

  /** The image path sits right after `<img src='` in the thumbnail anchor. */
  lemma ImagePathInThumbnail(d: string)
    ensures ThumbnailHtml(d)[38 + |d|..72 + 2 * |d|] == ThumbnailPathOf(d)
  {
    var head := "<a href=" + HrefOf(d) + "/'> <img src='";
    assert |head| == 38 + |d|;
    assert ThumbnailHtml(d) == head + ThumbnailPathOf(d) + "'></a>";
    Middle(head, ThumbnailPathOf(d), "'></a>");
  }

  /** The folder named inside the thumbnail anchor of n parses back to n. */
  lemma ThumbnailNamesFolder(n: int)
    ensures var k := |IntToDecimal(n)|;
      && Thumbnail(n)[48 + k..48 + k + |FolderName(n)|] == FolderName(n)
      && FolderId(Thumbnail(n)[48 + k..48 + k + |FolderName(n)|]) == Some(n)
  {
    var d := IntToDecimal(n);
    var k := |d|;
    ImagePathInThumbnail(d);
    ThumbnailPathRoundTrip(n);
    Nested(Thumbnail(n), 38 + k, 72 + 2 * k, 10, 10 + |FolderName(n)|);
  }

  lemma NumeralInLink(d: string)
    ensures LinkHtml(d)[22..22 + |d|] == d
  {
    var x := "<a href=" + "'/objects/toi_";
    assert "<a href=" + HrefOf(d) == x + d + "/'";
    Middle(x, d, "/'");
    PrefixSlice(x + d + "/'", "> " + d + "</a>", 22, 22 + |d|);
    assert LinkHtml(d) == (x + d + "/'") + ("> " + d + "</a>");
  }

  lemma NumeralInThumbnail(d: string)
    ensures ThumbnailHtml(d)[22..22 + |d|] == d
  {
    var x := "<a href=" + "'/objects/toi_";
    assert "<a href=" + HrefOf(d) == x + d + "/'";
    Middle(x, d, "/'");
    var tail := "/'> <img src='" + ThumbnailPathOf(d) + "'></a>";
    PrefixSlice(x + d + "/'", tail, 22, 22 + |d|);
    assert ThumbnailHtml(d) == (x + d + "/'") + tail;
  }

  /** The numeral of n sits at a fixed offset in both anchors. */
  lemma NumeralInAnchors(n: int)
    ensures ToiLink(n)[22..22 + |IntToDecimal(n)|] == IntToDecimal(n)
    ensures Thumbnail(n)[22..22 + |IntToDecimal(n)|] == IntToDecimal(n)
  {
    NumeralInLink(IntToDecimal(n));
    NumeralInThumbnail(IntToDecimal(n));
  }

  /** Distinct TOIs get distinct id links. */
  lemma ToiLinkInjective(m: int, n: int)
    requires ToiLink(m) == ToiLink(n)
    ensures m == n
  {
    var dm, dn := IntToDecimal(m), IntToDecimal(n);
    assert |LinkHtml(dm)| - 2 * |dm| == |LinkHtml(dn)| - 2 * |dn|;
    NumeralInLink(dm);
    NumeralInLink(dn);
    DecimalInjective(m, n);
  }

  /** Distinct TOIs get distinct thumbnails. */
  lemma ThumbnailInjective(m: int, n: int)
    requires Thumbnail(m) == Thumbnail(n)
    ensures m == n
  {
    var dm, dn := IntToDecimal(m), IntToDecimal(n);
    assert |ThumbnailHtml(dm)| - 2 * |dm| == |ThumbnailHtml(dn)| - 2 * |dn|;
    NumeralInThumbnail(dm);
    NumeralInThumbnail(dn);
    DecimalInjective(m, n);
  }

  /** The id link for TOI 7, character for character. */
  lemma ToiLinkOfSeven()
    ensures ToiLink(7) == "<a href='/objects/toi_7/'> 7</a>"
  {
    assert IntToDecimal(7) == "7";
  }

  /** The thumbnail anchor for TOI 7, stray `/'` and image path included. */
  lemma ThumbnailOfSeven()
    ensures Thumbnail(7)
      == "<a href='/objects/toi_7/'/'> <img src='/toi_data/toi_7_files/thumbnail.png'></a>"
  {
    assert IntToDecimal(7) == "7";
    SevenThumbnailHtml();
  }

  lemma SevenAnchorHead()
    ensures "<a href=" + HrefOf("7") + "/'> <img src='" == "<a href='/objects/toi_7/'/'> <img src='"
  {
    assert HrefOf("7") == "'/objects/toi_7/'";
  }

  lemma SevenImageTail()
    ensures ThumbnailPathOf("7") + "'></a>" == "/toi_data/toi_7_files/thumbnail.png'></a>"
  {
    assert ThumbnailPathOf("7") == "/toi_data/toi_7_files/thumbnail.png";
  }

  lemma SevenThumbnailHtml()
    ensures ThumbnailHtml("7")
      == "<a href='/objects/toi_7/'/'> <img src='/toi_data/toi_7_files/thumbnail.png'></a>"
  {
    var head := "<a href=" + HrefOf("7") + "/'> <img src='";
    var tail := ThumbnailPathOf("7") + "'></a>";
    assert ThumbnailHtml("7") == head + tail;
    SevenAnchorHead();
    SevenImageTail();
    SevenJoin();
  }

  lemma SevenJoin()
    ensures "<a href='/objects/toi_7/'/'> <img src='" + "/toi_data/toi_7_files/thumbnail.png'></a>"
      == "<a href='/objects/toi_7/'/'> <img src='/toi_data/toi_7_files/thumbnail.png'></a>"
  {
  }

  lemma ZeroSevenDigits()
    ensures AllDigits("007") && DigitsValue("007") == 7
  {
    assert "007"[..2] == "00" && "00"[..1] == "0" && "0"[..0] == "";
  }

  lemma ZeroSevenValue()
    ensures ParseInt("007") == Some(7)
  {
    ZeroSevenDigits();
    ParseNumeral("007");
  }

  /** The information separator U+001C is not stripped by `int()`, so the
      folder `toi_\U{1C}7_files` does not name a TOI. */
  lemma SeparatorRejected()
    ensures ParseInt("\U{1C}7") == None
    ensures FolderId("toi_\U{1C}7_files") == None
  {
    assert Strip("\U{1C}7") == "\U{1C}7";
    assert Prefix <= "toi_\U{1C}7_files";
    assert RemovePrefix("toi_\U{1C}7_files", Prefix) == "\U{1C}7_files";
    assert "\U{1C}7_files"[2..] == Suffix;
    assert RemoveSuffix("\U{1C}7_files", Suffix) == "\U{1C}7";
  }

  /** Leading zeros in a folder name are dropped by `int()`, so `toi_007_files`
      and `toi_7_files` both name TOI 7. */
  lemma LeadingZerosIgnored()
    ensures FolderId("toi_007_files") == Some(7)
    ensures FolderId("toi_7_files") == Some(7)
  {
    FolderIdRoundTrip(7);
    assert FolderName(7) == "toi_7_files" by { assert IntToDecimal(7) == "7"; }
    assert Prefix <= "toi_007_files";
    assert RemovePrefix("toi_007_files", Prefix) == "007_files";
    assert "007_files"[3..] == Suffix;
    assert RemoveSuffix("007_files", Suffix) == "007";
    ZeroSevenValue();
  }
}
