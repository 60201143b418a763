/**
 * Text bookkeeping of the OCR worker: file validation and routing, the content hash
 * format, page-offset parsing over the page separators, page-count derivation and
 * `max_pages` truncation. Marker, LibreOffice and SHA-256 are oracles.
 */
module OcrWorker {
  import opened Wrappers
  import opened PyStr
  import opened PyPath

  // ---------------------------------------------------------------------------
  // Errors
  // ---------------------------------------------------------------------------

  /** The OCR error family; each carries the category the caller reports. */
  datatype OcrError =
    | OcrApiError(message: string, statusCode: int)
    | OcrFileError(message: string, filePath: string)
    | OcrDependencyError(message: string)
    | OcrTimeoutError(message: string)
  {
    function Category(): (c: string)
      ensures OcrApiError? ==> (c == "OCR_SERVER_ERROR" <==> statusCode >= 500)
      ensures OcrApiError? ==> (c == "OCR_API_ERROR" <==> statusCode < 500)
    {
      match this
      case OcrApiError(_, status) => if status >= 500 then "OCR_SERVER_ERROR" else "OCR_API_ERROR"
      case OcrFileError(_, _) => "OCR_FILE_ERROR"
      case OcrDependencyError(_) => "OCR_DEPENDENCY_ERROR"
      case OcrTimeoutError(_) => "OCR_TIMEOUT"
    }
  }

  // ---------------------------------------------------------------------------
  // Supported files and routing
  // ---------------------------------------------------------------------------

  const SupportedExtensions: set<string> := {
    ".pdf", ".png", ".jpg", ".jpeg", ".tiff", ".tif", ".bmp", ".gif", ".webp",
    ".docx", ".doc", ".pptx", ".ppt", ".xlsx", ".xls", ".txt", ".csv", ".md"}
  /** Handled by Marker directly. */
  const MarkerExtensions: set<string> := {
    ".pdf", ".png", ".jpg", ".jpeg", ".tiff", ".tif", ".bmp", ".gif", ".webp"}
  /** Converted to PDF by LibreOffice first. */
  const OfficeExtensions: set<string> := {".docx", ".doc", ".pptx", ".ppt", ".xlsx", ".xls"}
  /** Read as plain text. */
  const TextExtensions: set<string> := {".txt", ".csv", ".md"}
  /** The supported extensions, sorted and comma-separated, as the validation error lists them. */
  const SupportedListing :=
    ".bmp, .csv, .doc, .docx, .gif, .jpeg, .jpg, .md, .pdf, .png, .ppt, .pptx, .tif, .tiff, .txt, .webp, .xls, .xlsx"

  /** The three handler sets are pairwise disjoint and together make up the supported set. */
  lemma ExtensionSetsPartition()
    ensures TextExtensions !! OfficeExtensions
    ensures TextExtensions !! MarkerExtensions
    ensures OfficeExtensions !! MarkerExtensions
    ensures TextExtensions + OfficeExtensions + MarkerExtensions == SupportedExtensions
  {
  }

  /** `validate_file`: the resolved path, or a file error for a missing path, a non-file, an unsupported suffix. */
  function ValidateFile(filePath: string, probe: FileProbe): (r: Result<string, OcrError>)
    ensures r.Ok? <==> probe.found && probe.isFile && Lower(Suffix(probe.resolved)) in SupportedExtensions
    ensures r.Ok? ==> r.value == probe.resolved
    ensures r.Err? ==> r.error.OcrFileError? && r.error.filePath == probe.resolved
    ensures !probe.found ==> r == Err(OcrFileError("File not found: " + filePath, probe.resolved))
    ensures probe.found && !probe.isFile ==> r == Err(OcrFileError("Not a file: " + filePath, probe.resolved))
  {
    var path := probe.resolved;
    if !probe.found then Err(OcrFileError("File not found: " + filePath, path))
    else if !probe.isFile then Err(OcrFileError("Not a file: " + filePath, path))
    else if Lower(Suffix(path)) !in SupportedExtensions then
      Err(OcrFileError("Unsupported file type: " + Suffix(path) + ". Supported: " + SupportedListing, path))
    else Ok(path)
  }

  /** The branch of `process_document` a lowered extension goes to. */
  datatype Handler = ReadText | ConvertOfficeThenMarker | RunMarker | NoHandler

  function Route(ext: string): Handler {
    if ext in TextExtensions then ReadText
    else if ext in OfficeExtensions then ConvertOfficeThenMarker
    else if ext in MarkerExtensions then RunMarker
    else NoHandler
  }

  /**
   * Every supported extension reaches exactly the branch of the set it belongs to,
   * so the "no handler" error is unreachable after validation.
   */
  lemma RouteCoversSupported(ext: string)
    ensures Route(ext) == NoHandler <==> ext !in SupportedExtensions
    ensures Route(ext) == ReadText <==> ext in TextExtensions
    ensures Route(ext) == ConvertOfficeThenMarker <==> ext in OfficeExtensions
    ensures Route(ext) == RunMarker <==> ext in MarkerExtensions
  {
    ExtensionSetsPartition();
  }

  /** A file that passes validation never meets the "no handler" branch. */
  lemma ValidatedFileHasHandler(filePath: string, probe: FileProbe)
    requires ValidateFile(filePath, probe).Ok?
    ensures Route(Lower(Suffix(probe.resolved))) != NoHandler
  {
    RouteCoversSupported(Lower(Suffix(probe.resolved)));
  }

  // ---------------------------------------------------------------------------
  // Content hash format
  // ---------------------------------------------------------------------------

  newtype byte = x: int | 0 <= x < 256

  /** A SHA-256 digest: 32 bytes. */
  type Digest = d: seq<byte> | |d| == 32 witness seq(32, _ => 0 as byte)

  const HexChars := "0123456789abcdef"

  /** The value of a lowercase hex digit, or -1 for any other character. */
  function HexValue(c: char): int {
    if '0' <= c <= '9' then c as int - '0' as int
    else if 'a' <= c <= 'f' then c as int - 'a' as int + 10
    else -1
  }

  /** `hexdigest()`: two lowercase hex digits per byte, high nibble first. */
  function HexDigest(d: seq<byte>): (r: string)
    ensures |r| == 2 * |d|
    ensures forall i :: 0 <= i < |r| ==> r[i] in HexChars
  {
    if |d| == 0 then ""
    else [HexChars[d[0] as int / 16], HexChars[d[0] as int % 16]] + HexDigest(d[1..])
  }

  /** Reads a hex digest back into bytes; None when the text is not lowercase hex pairs. */
  function ParseHexDigest(h: string): Option<seq<byte>>
    decreases |h|
  {
    if |h| == 0 then Some([])
    else if |h| == 1 then None
    else
      var hi := HexValue(h[0]);
      var lo := HexValue(h[1]);
      if hi < 0 || lo < 0 then None
      else match ParseHexDigest(h[2..])
        case None => None
        case Some(rest) => Some([(hi * 16 + lo) as byte] + rest)
  }

  lemma HexValueOfDigit(n: int)
    requires 0 <= n < 16
    ensures HexValue(HexChars[n]) == n
  {
  }

  /** Hex encoding loses nothing: parsing it back gives the same bytes. */
  lemma ByteNibbles(b: byte)
    ensures 0 <= b as int / 16 < 16 && 0 <= b as int % 16 < 16
    ensures ((b as int / 16) * 16 + b as int % 16) as byte == b
  {
  }

  /** Parsing a valid pair of hex digits in front of the rest. */
  lemma ParseHexPair(hi: int, lo: int, rest: string)
    requires 0 <= hi < 16 && 0 <= lo < 16
    ensures ParseHexDigest([HexChars[hi], HexChars[lo]] + rest) ==
      match ParseHexDigest(rest)
      case None => None
      case Some(r) => Some([(hi * 16 + lo) as byte] + r)
  {
    HexValueOfDigit(hi);
    HexValueOfDigit(lo);
    var h := [HexChars[hi], HexChars[lo]] + rest;
    assert h[2..] == rest;
  }

  /** Hex encoding loses nothing: parsing it back gives the same bytes. */
  lemma {:induction false} HexRoundTrip(d: seq<byte>)
    ensures ParseHexDigest(HexDigest(d)) == Some(d)
  {
    if |d| > 0 {
      var hi := d[0] as int / 16;
      var lo := d[0] as int % 16;
      var t := HexDigest(d[1..]);
      ByteNibbles(d[0]);
      assert HexDigest(d) == [HexChars[hi], HexChars[lo]] + t;
      HexRoundTrip(d[1..]);
      ParseHexPair(hi, lo, t);
      assert [(hi * 16 + lo) as byte] + d[1..] == d;
    }
  }

  /** `compute_content_hash`: "sha256:" and the lowercase hex of the digest of the text. */
  function ContentHash(content: string, sha256: string -> Digest): (r: string)
    ensures |r| == 71
    ensures StartsWith(r, "sha256:")
    ensures forall i :: 7 <= i < 71 ==> r[i] in HexChars
  {
    "sha256:" + HexDigest(sha256(content))
  }

  /** The digest a content hash carries. */
  function DigestOf(h: string): Option<seq<byte>> {
    if StartsWith(h, "sha256:") then ParseHexDigest(h[7..]) else None
  }

  /**
   * The hash string carries the digest exactly: it can be read back, so two texts get
   * the same hash string if and only if their digests agree.
   */
  lemma ContentHashCarriesDigest(a: string, b: string, sha256: string -> Digest)
    ensures DigestOf(ContentHash(a, sha256)) == Some(sha256(a))
    ensures ContentHash(a, sha256) == ContentHash(b, sha256) <==> sha256(a) == sha256(b)
  {
    HexRoundTrip(sha256(a));
    HexRoundTrip(sha256(b));
    assert ContentHash(a, sha256)[7..] == HexDigest(sha256(a));
    assert ContentHash(b, sha256)[7..] == HexDigest(sha256(b));
  }

  // ---------------------------------------------------------------------------
  // Page separators
  // ---------------------------------------------------------------------------

  const Separator := "\n---\n"
  const MarkerOpen := "<!-- Page "
  const MarkerClose := " -->\n"

  /** The length of the run of digits starting at `j` (a greedy `\d+`). */
  function DigitRun(s: string, j: nat): (n: nat)
    requires j <= |s|
    ensures j + n <= |s|
    ensures forall k :: j <= k < j + n ==> IsDigit(s[k])
    ensures j + n == |s| || !IsDigit(s[j + n])
    decreases |s| - j
  {
    if j < |s| && IsDigit(s[j]) then 1 + DigitRun(s, j + 1) else 0
  }

  /** `<!-- Page (\d+) -->\n` at position `j`: its end and the captured digits. */
  function PageMarkerAt(s: string, j: nat): (r: Option<(nat, string)>)
    requires j <= |s|
    ensures r.Some? ==> j + 15 < r.value.0 <= |s| && IsDigits(r.value.1) && |r.value.1| == r.value.0 - j - 15
  {
    if OccursAt(s, MarkerOpen, j) then
      var d := j + |MarkerOpen|;
      var n := DigitRun(s, d);
      if n > 0 && OccursAt(s, MarkerClose, d + n) then Some((d + n + |MarkerClose|, s[d..d + n]))
      else None
    else None
  }

  /**
   * The page pattern `\n---\n(?:<!-- Page (\d+) -->\n)?` matched at position `i`:
   * its end and its capture (None when the optional marker is absent).
   */
  function SeparatorAt(s: string, i: nat): (r: Option<(nat, Option<string>)>)
    requires i <= |s|
    ensures r.Some? ==> i + 5 <= r.value.0 <= |s|
    ensures r.Some? && r.value.1.Some? ==> IsDigits(r.value.1.value) && |r.value.1.value| <= r.value.0 - i - 5
  {
    if OccursAt(s, Separator, i) then
      match PageMarkerAt(s, i + |Separator|)
      case Some((e, digits)) => Some((e, Some(digits)))
      case None => Some((i + |Separator|, None))
    else None
  }

  /**
   * `re.split` with the page pattern, scanning from `i` with the current piece
   * starting at `last`: pieces of text alternate with the captured page numbers.
   */
  function SplitFrom(s: string, last: nat, i: nat): seq<Option<string>>
    requires last <= i <= |s|
    decreases |s| - i
  {
    if i == |s| then [Some(s[last..])]
    else match SeparatorAt(s, i)
      case Some((e, cap)) => [Some(s[last..i]), cap] + SplitFrom(s, e, e)
      case None => SplitFrom(s, last, i + 1)
  }

  function SplitPages(s: string): seq<Option<string>> {
    SplitFrom(s, 0, 0)
  }

  /** No match of the page pattern from `i` on. */
  predicate NoSeparatorFrom(s: string, i: nat)
    requires i <= |s|
  {
    forall j :: i <= j <= |s| ==> SeparatorAt(s, j).None?
  }

  /** Without a separator the split is the whole text in one piece. */
  lemma {:induction false} SplitWithoutSeparator(s: string, last: nat, i: nat)
    requires last <= i <= |s|
    requires NoSeparatorFrom(s, i)
    ensures SplitFrom(s, last, i) == [Some(s[last..])]
    decreases |s| - i
  {
    if i < |s| {
      assert SeparatorAt(s, i).None?;
      SplitWithoutSeparator(s, last, i + 1);
    }
  }

  /** A separator anywhere ahead splits the text into at least three parts. */
  lemma {:induction false} SplitWithSeparator(s: string, last: nat, i: nat, j: nat)
    requires last <= i <= j <= |s|
    requires SeparatorAt(s, j).Some?
    ensures |SplitFrom(s, last, i)| >= 3
    decreases |s| - i
  {
    if i < |s| && SeparatorAt(s, i).None? {
      SplitWithSeparator(s, last, i + 1, j);
    } else if i < |s| {
      var (e, cap) := SeparatorAt(s, i).value;
      assert SplitFrom(s, e, e) == SplitFrom(s, e, e);
      SplitNonEmpty(s, e, e);
    }
  }

  lemma {:induction false} SplitNonEmpty(s: string, last: nat, i: nat)
    requires last <= i <= |s|
    ensures |SplitFrom(s, last, i)| >= 1
    decreases |s| - i
  {
    if i < |s| {
      match SeparatorAt(s, i)
      case Some((e, cap)) => SplitNonEmpty(s, e, e);
      case None => SplitNonEmpty(s, last, i + 1);
    }
  }

  /** The total length of the pieces (text and captures) of a split. */
  function PiecesLength(parts: seq<Option<string>>): nat {
    if |parts| == 0 then 0
    else (if parts[0].Some? then |parts[0].value| else 0) + PiecesLength(parts[1..])
  }

  lemma {:induction false} PiecesLengthAppend(a: seq<Option<string>>, b: seq<Option<string>>)
    ensures PiecesLength(a + b) == PiecesLength(a) + PiecesLength(b)
  {
    if |a| == 0 {
      assert a + b == b;
    } else {
      assert (a + b)[0] == a[0];
      assert (a + b)[1..] == a[1..] + b;
      PiecesLengthAppend(a[1..], b);
    }
  }

  /** The pieces of a split never add up to more than the text they came from. */
  lemma {:induction false} SplitPiecesFit(s: string, last: nat, i: nat)
    requires last <= i <= |s|
    ensures PiecesLength(SplitFrom(s, last, i)) <= |s| - last
    decreases |s| - i
  {
    if i < |s| {
      match SeparatorAt(s, i)
      case Some((e, cap)) =>
        SplitPiecesFit(s, e, e);
        PiecesLengthAppend([Some(s[last..i]), cap], SplitFrom(s, e, e));
        assert PiecesLength([cap]) == (if cap.Some? then |cap.value| else 0);
        assert PiecesLength([Some(s[last..i]), cap]) == (i - last) + PiecesLength([cap]);
      case None => SplitPiecesFit(s, last, i + 1);
    }
  }

  // ---------------------------------------------------------------------------
  // Page offsets
  // ---------------------------------------------------------------------------

  /** `PageOffset`: a page number and the half-open character range of its text. */
  datatype PageOffset = PageOffset(page: int, charStart: int, charEnd: int)

  /** A split piece that is read as a page number rather than as page text. */
  predicate IsPageNumber(p: string) {
    p != "" && IsDigits(p)
  }

  /**
   * The offsets the loop of `parse_page_offsets` produces from the pieces, starting at
   * character `cur` with page number `page`.
   */
  function OffsetsFrom(parts: seq<Option<string>>, cur: int, page: int): seq<PageOffset> {
    if |parts| == 0 then []
    else match parts[0]
      case None => OffsetsFrom(parts[1..], cur, page)
      case Some(p) =>
        if IsPageNumber(p) then OffsetsFrom(parts[1..], cur, DigitsValue(p))
        else [PageOffset(page, cur, cur + |p|)] + OffsetsFrom(parts[1..], cur + |p|, page + 1)
  }

  /** The total length of the pieces that become page text. */
  function TextLength(parts: seq<Option<string>>): nat {
    if |parts| == 0 then 0
    else (if parts[0].Some? && !IsPageNumber(parts[0].value) then |parts[0].value| else 0) + TextLength(parts[1..])
  }

  lemma {:induction false} TextWithinPieces(parts: seq<Option<string>>)
    ensures TextLength(parts) <= PiecesLength(parts)
  {
    if |parts| > 0 {
      TextWithinPieces(parts[1..]);
    }
  }

  /** `parse_page_offsets` as a function of the text. */
  function PageOffsets(markdown: string): seq<PageOffset> {
    var parts := SplitPages(markdown);
    var whole := [PageOffset(1, 0, |markdown|)];
    if |parts| == 1 then whole
    else
      var offsets := OffsetsFrom(parts, 0, 1);
      if offsets == [] then whole else offsets
  }

  /** Consecutive ranges that start at `cur` and end after `total` characters of page text. */
  predicate Contiguous(o: seq<PageOffset>, cur: int, total: int) {
    && (forall k :: 0 <= k < |o| ==> o[k].charStart <= o[k].charEnd)
    && (forall k :: 0 <= k < |o| - 1 ==> o[k].charEnd == o[k + 1].charStart)
    && (|o| > 0 ==> o[0].charStart == cur && o[|o| - 1].charEnd == cur + total)
    && (|o| == 0 ==> total == 0)
  }

  /** The loop's offsets tile the page text without gaps, separators left out. */
  lemma {:induction false} OffsetsContiguous(parts: seq<Option<string>>, cur: int, page: int)
    ensures Contiguous(OffsetsFrom(parts, cur, page), cur, TextLength(parts))
  {
    if |parts| > 0 {
      match parts[0]
      case None => OffsetsContiguous(parts[1..], cur, page);
      case Some(p) =>
        if IsPageNumber(p) {
          OffsetsContiguous(parts[1..], cur, DigitsValue(p));
        } else {
          OffsetsContiguous(parts[1..], cur + |p|, page + 1);
        }
    }
  }

  /** The pieces that become page text, in order: present and not a page number. */
  function TextPieces(parts: seq<Option<string>>): seq<string> {
    if |parts| == 0 then []
    else (if parts[0].Some? && !IsPageNumber(parts[0].value) then [parts[0].value] else []) + TextPieces(parts[1..])
  }

  /** The loop makes one range per text piece, the k-th exactly as long as the k-th piece. */
  lemma {:induction false} OffsetsMatchPieces(parts: seq<Option<string>>, cur: int, page: int)
    ensures |OffsetsFrom(parts, cur, page)| == |TextPieces(parts)|
    ensures forall k :: 0 <= k < |TextPieces(parts)| ==>
      OffsetsFrom(parts, cur, page)[k].charEnd - OffsetsFrom(parts, cur, page)[k].charStart == |TextPieces(parts)[k]|
  {
    if |parts| > 0 {
      match parts[0]
      case None => OffsetsMatchPieces(parts[1..], cur, page);
      case Some(p) =>
        if IsPageNumber(p) {
          OffsetsMatchPieces(parts[1..], cur, DigitsValue(p));
        } else {
          OffsetsMatchPieces(parts[1..], cur + |p|, page + 1);
          assert TextPieces(parts) == [p] + TextPieces(parts[1..]);
        }
    }
  }

  /** Where no piece is a page number, pages count up by one from the starting number. */
  lemma {:induction false} OffsetsNumberPages(parts: seq<Option<string>>, cur: int, page: int)
    requires forall k :: 0 <= k < |parts| && parts[k].Some? ==> !IsPageNumber(parts[k].value)
    ensures forall k :: 0 <= k < |OffsetsFrom(parts, cur, page)| ==> OffsetsFrom(parts, cur, page)[k].page == page + k
  {
    if |parts| > 0 {
      match parts[0]
      case None => OffsetsNumberPages(parts[1..], cur, page);
      case Some(p) =>
        assert !IsPageNumber(p);
        OffsetsNumberPages(parts[1..], cur + |p|, page + 1);
    }
  }

  /** A page-number piece sets the number of the next page of text. */
  lemma PageNumberSetsNextPage(n: string, rest: seq<Option<string>>, cur: int, page: int)
    requires IsPageNumber(n)
    ensures OffsetsFrom([Some(n)] + rest, cur, page) == OffsetsFrom(rest, cur, DigitsValue(n))
  {
    assert ([Some(n)] + rest)[1..] == rest;
  }

  /** A text without a separator is one page covering all of it. */
  lemma SinglePageWithoutSeparator(markdown: string)
    requires NoSeparatorFrom(markdown, 0)
    ensures PageOffsets(markdown) == [PageOffset(1, 0, |markdown|)]
  {
    SplitWithoutSeparator(markdown, 0, 0);
  }

  /**
   * The page offsets always start at 0, tile the page text without gaps and stay
   * within the text.
   */
  lemma PageOffsetsWithinText(markdown: string)
    ensures |PageOffsets(markdown)| >= 1
    ensures PageOffsets(markdown)[0].charStart == 0
    ensures Contiguous(PageOffsets(markdown), 0, PageOffsets(markdown)[|PageOffsets(markdown)| - 1].charEnd)
    ensures PageOffsets(markdown)[|PageOffsets(markdown)| - 1].charEnd <= |markdown|
    ensures var parts := SplitPages(markdown);
      |parts| > 1 && TextPieces(parts) != [] ==>
        |PageOffsets(markdown)| == |TextPieces(parts)| &&
        forall k :: 0 <= k < |TextPieces(parts)| ==>
          PageOffsets(markdown)[k].charEnd - PageOffsets(markdown)[k].charStart == |TextPieces(parts)[k]|
  {
    var parts := SplitPages(markdown);
    OffsetsContiguous(parts, 0, 1);
    OffsetsMatchPieces(parts, 0, 1);
    SplitPiecesFit(markdown, 0, 0);
    TextWithinPieces(parts);
  }

  /** `parse_page_offsets`: walks the split pieces, accumulating the offset and the page number. */
  method ParsePageOffsets(markdown: string) returns (offsets: seq<PageOffset>)
    ensures offsets == PageOffsets(markdown)
  {
    var parts := SplitPages(markdown);
    if |parts| == 1 {
      return [PageOffset(1, 0, |markdown|)];
    }
    offsets := [];
    var current := 0;
    var pageNum := 1;
    for i := 0 to |parts|
      invariant offsets + OffsetsFrom(parts[i..], current, pageNum) == OffsetsFrom(parts, 0, 1)
    {
      assert parts[i..][1..] == parts[i + 1..];
      match parts[i]
      case None =>
      case Some(part) =>
        if IsPageNumber(part) {
          pageNum := DigitsValue(part);
        } else {
          offsets := offsets + [PageOffset(pageNum, current, current + |part|)];
          current := current + |part|;
          pageNum := pageNum + 1;
        }
    }
    assert parts[|parts|..] == [];
    if offsets == [] {
      offsets := [PageOffset(1, 0, |markdown|)];
    }
  }

  // ---------------------------------------------------------------------------
  // Separator counting and truncation
  // ---------------------------------------------------------------------------

  /** The starts of the non-overlapping `\n---\n` matches found scanning from `i` (`re.finditer`). */
  function SeparatorsFrom(s: string, i: nat): (r: seq<nat>)
    requires i <= |s|
    ensures forall k :: 0 <= k < |r| ==> i <= r[k] && OccursAt(s, Separator, r[k])
    ensures forall j, k :: 0 <= j < k < |r| ==> r[j] + 5 <= r[k]
    decreases |s| - i
  {
    if i + |Separator| > |s| then []
    else if OccursAt(s, Separator, i) then [i] + SeparatorsFrom(s, i + |Separator|)
    else SeparatorsFrom(s, i + 1)
  }

  function SeparatorStarts(s: string): seq<nat> {
    SeparatorsFrom(s, 0)
  }

  /** `len(re.findall(r"\n---\n", s))` */
  function CountSeparators(s: string): nat {
    |SeparatorStarts(s)|
  }

  /**
   * Where the text is cut for `max_pages`: at the start of the `max_pages`-th
   * separator (the first one when `max_pages` is below 1), or at the end of the text
   * when there are not that many.
   */
  function CutIndex(s: string, maxPages: int): (c: nat)
    ensures c <= |s|
  {
    var starts := SeparatorStarts(s);
    var need := if maxPages < 1 then 1 else maxPages;
    if |starts| >= need then starts[need - 1] else |s|
  }

  /** The truncation loop: counts separator matches and stops at the `max_pages`-th. */
  method FindCut(markdown: string, maxPages: int) returns (cutPos: nat)
    ensures cutPos == CutIndex(markdown, maxPages)
  {
    var matches := SeparatorStarts(markdown);
    var separatorCount := 0;
    cutPos := |markdown|;
    for j := 0 to |matches|
      invariant separatorCount == j
      invariant cutPos == |markdown|
      invariant j == 0 || j < maxPages
    {
      separatorCount := separatorCount + 1;
      if separatorCount >= maxPages {
        cutPos := matches[j];
        return;
      }
    }
  }

  /** Cutting the text at a separator start keeps exactly the separators before it. */
  lemma {:induction false} SeparatorsOfPrefix(s: string, i: nat, m: nat)
    requires i <= |s|
    requires m < |SeparatorsFrom(s, i)|
    ensures i <= SeparatorsFrom(s, i)[m]
    ensures SeparatorsFrom(s[..SeparatorsFrom(s, i)[m]], i) == SeparatorsFrom(s, i)[..m]
    decreases |s| - i
  {
    var st := SeparatorsFrom(s, i);
    var c := st[m];
    var t := s[..c];
    if OccursAt(s, Separator, i) {
      if m == 0 {
        assert c == i;
      } else {
        var rest := SeparatorsFrom(s, i + 5);
        assert st == [i] + rest;
        assert c == rest[m - 1];
        SeparatorsOfPrefix(s, i + 5, m - 1);
        assert t[i..i + 5] == s[i..i + 5];
        assert OccursAt(t, Separator, i);
        assert st[..m] == [i] + rest[..m - 1];
      }
    } else {
      var rest := SeparatorsFrom(s, i + 1);
      assert st == rest;
      SeparatorsOfPrefix(s, i + 1, m);
      if i + 5 <= c {
        assert t[i..i + 5] == s[i..i + 5];
        assert !OccursAt(t, Separator, i);
      } else {
        assert m == 0;
      }
    }
  }

  /**
   * Truncating to `k >= 1` pages when there are at least `k` separators keeps exactly
   * `k - 1` of them, that is `k` pages by the separator count.
   */
  lemma TruncationKeepsRequestedPages(s: string, k: int)
    requires k >= 1 && CountSeparators(s) >= k
    ensures CountSeparators(s[..CutIndex(s, k)]) == k - 1
  {
    SeparatorsOfPrefix(s, 0, k - 1);
  }

  /** With fewer separators than requested pages, the text is not cut at all. */
  lemma TruncationWithFewSeparators(s: string, k: int)
    requires CountSeparators(s) < (if k < 1 then 1 else k)
    ensures CutIndex(s, k) == |s|
  {
  }

  // ---------------------------------------------------------------------------
  // Metadata and page count
  // ---------------------------------------------------------------------------

  /** A metadata value, as far as truthiness and `isinstance(_, int)` can tell it apart. */
  datatype MetaValue =
    | IntVal(i: int)
    | BoolVal(b: bool)
    | StrVal(s: string)
    | OtherVal(truthy: bool)
  {
    predicate Truthy() {
      match this
      case IntVal(i) => i != 0
      case BoolVal(b) => b
      case StrVal(s) => s != ""
      case OtherVal(t) => t
    }
  }

  type Metadata = map<string, MetaValue>

  /** `metadata.get(key)` is truthy. */
  predicate TruthyAt(m: Metadata, key: string) {
    key in m && m[key].Truthy()
  }

  /** `metadata.get(k1) or metadata.get(k2)` */
  function FirstOf(m: Metadata, k1: string, k2: string): (r: Option<MetaValue>)
    ensures TruthyAt(m, k1) ==> r == Some(m[k1])
    ensures !TruthyAt(m, k1) ==> (r.Some? <==> k2 in m)
    ensures r.Some? ==> (k1 in m && r.value == m[k1]) || (k2 in m && r.value == m[k2])
  {
    if TruthyAt(m, k1) then Some(m[k1]) else if k2 in m then Some(m[k2]) else None
  }

  /** A chosen page-count value after the `isinstance(_, int)` check; True is the integer 1. */
  function AsPageCount(v: MetaValue): int {
    match v
    case IntVal(i) => i
    case _ => 1
  }

  /**
   * The page count of `process_document`: the first truthy value among `page_count`,
   * `pages`, `num_pages`, else the separator count plus one; a non-integer value is 1.
   */
  function PageCount(m: Metadata, markdown: string): (n: int)
    ensures n != 0
    ensures TruthyAt(m, "page_count") ==> n == AsPageCount(m["page_count"])
    ensures !TruthyAt(m, "page_count") && TruthyAt(m, "pages") ==> n == AsPageCount(m["pages"])
    ensures !TruthyAt(m, "page_count") && !TruthyAt(m, "pages") && TruthyAt(m, "num_pages") ==>
      n == AsPageCount(m["num_pages"])
    ensures !TruthyAt(m, "page_count") && !TruthyAt(m, "pages") && !TruthyAt(m, "num_pages") ==>
      n == CountSeparators(markdown) + 1
  {
    if TruthyAt(m, "page_count") then AsPageCount(m["page_count"])
    else if TruthyAt(m, "pages") then AsPageCount(m["pages"])
    else if TruthyAt(m, "num_pages") then AsPageCount(m["num_pages"])
    else CountSeparators(markdown) + 1
  }

  // ---------------------------------------------------------------------------
  // Text files
  // ---------------------------------------------------------------------------

  /** `str.lstrip(".")` */
  function LStripDots(s: string): (r: string)
    ensures r == "" || r[0] != '.'
  {
    if |s| > 0 && s[0] == '.' then LStripDots(s[1..]) else s
  }

  /** The metadata the text reader records: its name and the file's format. */
  function ReaderMetadata(format: string): (m: Metadata)
    ensures m.Keys == {"source", "format"}
    ensures m["source"] == StrVal("text_reader") && m["format"] == StrVal(format)
  {
    map["source" := StrVal("text_reader"), "format" := StrVal(format)]
  }

  /**
   * `process_text_file`: the text as read (in a csv code block for a `.csv` file) and
   * metadata naming the reader and the suffix without its dot. `read` is what reading
   * the file gave: the text, or the message of the exception.
   */
  function ProcessTextFile(path: string, read: Result<string, string>): (r: Result<(string, Metadata), OcrError>)
    ensures read.Err? ==> r == Err(OcrFileError("Failed to read text file: " + read.error, path))
    ensures read.Ok? ==> r.Ok? && r.value.1 == ReaderMetadata(LStripDots(Suffix(path)))
    ensures read.Ok? && Lower(Suffix(path)) == ".csv" ==> r.value.0 == "```csv\n" + read.value + "\n```"
    ensures read.Ok? && Lower(Suffix(path)) != ".csv" ==> r.value.0 == read.value
  {
    match read
    case Err(e) => Err(OcrFileError("Failed to read text file: " + e, path))
    case Ok(text) =>
      var body := if Lower(Suffix(path)) == ".csv" then "```csv\n" + text + "\n```" else text;
      Ok((body, ReaderMetadata(LStripDots(Suffix(path)))))
  }

  /** The format recorded for `dir/stem.ext` is the extension as written, without the dot. */
  lemma TextFileFormat(dir: string, stem: string, ext: string)
    requires dir == "" || dir[|dir| - 1] == '/'
    requires stem != "" && '/' !in stem
    requires ext != "" && '.' !in ext && '/' !in ext
    ensures LStripDots(Suffix(dir + stem + "." + ext)) == ext
  {
    SuffixOfName(dir, stem, ext);
    assert ext[0] in ext;
  }

  /**
   * The text reader's metadata has none of the page-count keys, so the page count of a
   * text file comes from its separators, overriding the `page_count = 1` of that branch.
   */
  lemma TextFilePageCount(path: string, read: Result<string, string>)
    requires ProcessTextFile(path, read).Ok?
    ensures PageCount(ProcessTextFile(path, read).value.1, ProcessTextFile(path, read).value.0) ==
      CountSeparators(ProcessTextFile(path, read).value.0) + 1
  {
    var (text, meta) := ProcessTextFile(path, read).value;
    ReaderKeysCountNoPages(LStripDots(Suffix(path)), text);
  }

  /** Metadata holding only `source` and `format` leaves the page count to the separators. */
  lemma ReaderKeysCountNoPages(format: string, text: string)
    ensures PageCount(ReaderMetadata(format), text) == CountSeparators(text) + 1
  {
    var meta := ReaderMetadata(format);
    assert |"page_count"| == 10 && |"pages"| == 5 && |"num_pages"| == 9;
    assert "page_count" !in meta && "pages" !in meta && "num_pages" !in meta;
  }

  // ---------------------------------------------------------------------------
  // process_document
  // ---------------------------------------------------------------------------

  /** What Marker (directly, or after LibreOffice) returns: markdown, images and metadata. */
  datatype MarkerOutput = MarkerOutput(markdown: string, images: map<string, string>, metadata: Metadata)

  /** How a handler can fail: with an OCR error, or with any other exception. */
  datatype Failure = Known(error: OcrError) | Unexpected(message: string)

  /** The outcomes the three handlers would have for this file (oracles). */
  datatype Handlers = Handlers(
    readText: Result<string, string>,
    officeThenMarker: Result<MarkerOutput, Failure>,
    marker: Result<MarkerOutput, Failure>)

  /** OCR errors pass through; any other exception becomes a server error with status 500. */
  function Surface(f: Failure): (e: OcrError)
    ensures f.Known? ==> e == f.error
    ensures f.Unexpected? ==> e.OcrApiError? && e.statusCode == 500 && e.Category() == "OCR_SERVER_ERROR"
  {
    match f
    case Known(e) => e
    case Unexpected(message) => OcrApiError(message, 500)
  }

  /** The branch of `process_document` for a lowered extension and what it produces. */
  function HandlerOutput(ext: string, path: string, h: Handlers): (r: Result<MarkerOutput, OcrError>)
    ensures Route(ext) == NoHandler ==> r == Err(OcrFileError("No handler for extension: " + ext, path))
    ensures Route(ext) == ReadText && r.Ok? ==> r.value.images == map[]
  {
    match Route(ext)
    case ReadText =>
      (match ProcessTextFile(path, h.readText)
       case Ok((text, meta)) => Ok(MarkerOutput(text, map[], meta))
       case Err(e) => Err(e))
    case ConvertOfficeThenMarker =>
      (match h.officeThenMarker
       case Ok(out) => Ok(out)
       case Err(f) => Err(Surface(f)))
    case RunMarker =>
      (match h.marker
       case Ok(out) => Ok(out)
       case Err(f) => Err(Surface(f)))
    case NoHandler => Err(OcrFileError("No handler for extension: " + ext, path))
  }

  /** The fields of `OCRResult` that the local worker derives from the document. */
  datatype OcrResult = OcrResult(
    extractedText: string,
    textLength: int,
    pageCount: int,
    costCents: int,
    contentHash: string,
    pageOffsets: seq<PageOffset>,
    images: Option<map<string, string>>,
    metadata: Option<Metadata>,
    docTitle: Option<MetaValue>,
    docAuthor: Option<MetaValue>,
    docSubject: Option<MetaValue>)

  /** `max_pages and page_count > max_pages` */
  predicate Truncates(maxPages: Option<int>, pageCount: int) {
    maxPages.Some? && maxPages.value != 0 && pageCount > maxPages.value
  }

  /** The text after honouring `max_pages`. */
  function FinalText(out: MarkerOutput, maxPages: Option<int>): string {
    if Truncates(maxPages, PageCount(out.metadata, out.markdown)) then
      out.markdown[..CutIndex(out.markdown, maxPages.value)]
    else out.markdown
  }

  /** The record `process_document` builds from a handler's output. */
  function Assemble(out: MarkerOutput, maxPages: Option<int>, disableImages: bool, sha256: string -> Digest): OcrResult {
    var pc := PageCount(out.metadata, out.markdown);
    var text := FinalText(out, maxPages);
    var images := if disableImages then map[] else out.images;
    OcrResult(
      text, |text|,
      if Truncates(maxPages, pc) then maxPages.value else pc,
      0, ContentHash(text, sha256), PageOffsets(text),
      if |images| == 0 then None else Some(images),
      if |out.metadata| == 0 then None else Some(out.metadata),
      FirstOf(out.metadata, "title", "Title"),
      FirstOf(out.metadata, "author", "Author"),
      FirstOf(out.metadata, "subject", "Subject"))
  }

  /**
   * What the record promises: its text is a prefix of the handler's markdown, its
   * length, hash and page offsets are those of that text, the page count is never 0
   * and stays within a positive `max_pages`, and disabled images are absent.
   */
  lemma AssembledRecord(out: MarkerOutput, maxPages: Option<int>, disableImages: bool, sha256: string -> Digest)
    ensures var res := Assemble(out, maxPages, disableImages, sha256);
      && res.extractedText <= out.markdown
      && res.textLength == |res.extractedText|
      && res.costCents == 0
      && DigestOf(res.contentHash) == Some(sha256(res.extractedText))
      && res.pageCount != 0
      && (maxPages.Some? && maxPages.value > 0 ==> res.pageCount <= maxPages.value)
      && (disableImages ==> res.images.None?)
      && (!Truncates(maxPages, PageCount(out.metadata, out.markdown)) ==>
            res.extractedText == out.markdown && res.pageCount == PageCount(out.metadata, out.markdown))
  {
    var res := Assemble(out, maxPages, disableImages, sha256);
    ContentHashCarriesDigest(res.extractedText, res.extractedText, sha256);
  }

  /**
   * Truncation keeps `max_pages` pages: when the text has at least `max_pages`
   * separators, the kept text has `max_pages - 1` of them and the page count is `max_pages`.
   */
  lemma AssembledTruncation(out: MarkerOutput, k: int, disableImages: bool, sha256: string -> Digest)
    requires k >= 1 && PageCount(out.metadata, out.markdown) > k
    requires CountSeparators(out.markdown) >= k
    ensures CountSeparators(Assemble(out, Some(k), disableImages, sha256).extractedText) == k - 1
    ensures Assemble(out, Some(k), disableImages, sha256).pageCount == k
  {
    TruncationKeepsRequestedPages(out.markdown, k);
  }

  /** The error for a `file_url`, which the local worker does not fetch. */
  const FileUrlRejected: OcrError := OcrApiError(
    "file_url is not supported by the local OCR worker. Download the file first and pass the local file_path instead.",
    400)

  /**
   * `process_document`: rejects a `file_url`, validates the file, routes it by its
   * lowered suffix, derives the page count, honours `max_pages` by cutting at a
   * separator, then computes the offsets and the content hash of the final text.
   */
  method ProcessDocument(
    filePath: string, probe: FileProbe, fileUrl: Option<string>, maxPages: Option<int>,
    disableImages: bool, h: Handlers, sha256: string -> Digest)
    returns (r: Result<OcrResult, OcrError>)
    ensures fileUrl.Some? && fileUrl.value != "" ==>
      r == Err(FileUrlRejected) && r.error.statusCode == 400 && r.error.Category() == "OCR_API_ERROR"
    ensures (fileUrl.None? || fileUrl.value == "") && ValidateFile(filePath, probe).Err? ==>
      r == Err(ValidateFile(filePath, probe).error)
    ensures (fileUrl.None? || fileUrl.value == "") && ValidateFile(filePath, probe).Ok? ==>
      var out := HandlerOutput(Lower(Suffix(probe.resolved)), probe.resolved, h);
      && Route(Lower(Suffix(probe.resolved))) != NoHandler
      && (out.Err? ==> r == Err(out.error))
      && (out.Ok? ==> r == Ok(Assemble(out.value, maxPages, disableImages, sha256)))
  {
    if fileUrl.Some? && fileUrl.value != "" {
      return Err(FileUrlRejected);
    }
    var validated := ValidateFile(filePath, probe);
    if validated.Err? {
      return Err(validated.error);
    }
    var path := validated.value;
    var ext := Lower(Suffix(path));
    ValidatedFileHasHandler(filePath, probe);
    var out := HandlerOutput(ext, path, h);
    if out.Err? {
      return Err(out.error);
    }
    var res := BuildResult(out.value, maxPages, disableImages, sha256);
    r := Ok(res);
  }

  /** The second half of `process_document`: page count, truncation, offsets and hash of the handler's output. */
  method BuildResult(out: MarkerOutput, maxPages: Option<int>, disableImages: bool, sha256: string -> Digest)
    returns (res: OcrResult)
    ensures res == Assemble(out, maxPages, disableImages, sha256)
  {
    var markdown := out.markdown;
    var images := if disableImages then map[] else out.images;
    var metadata := out.metadata;
    var pageCount := PageCount(metadata, markdown);
    if Truncates(maxPages, pageCount) {
      var cutPos := FindCut(markdown, maxPages.value);
      markdown := markdown[..cutPos];
      pageCount := maxPages.value;
    }
    assert markdown == FinalText(out, maxPages);
    var pageOffsets := ParsePageOffsets(markdown);
    var contentHash := ContentHash(markdown, sha256);
    res := OcrResult(
      markdown, |markdown|, pageCount, 0, contentHash, pageOffsets,
      if |images| == 0 then None else Some(images),
      if |metadata| == 0 then None else Some(metadata),
      FirstOf(metadata, "title", "Title"),
      FirstOf(metadata, "author", "Author"),
      FirstOf(metadata, "subject", "Subject"));
  }

  // ---------------------------------------------------------------------------
  // Marked pages
  // ---------------------------------------------------------------------------

  /** A piece placed between two others occurs where it was placed. */
  lemma OccursAtJoin(a: string, b: string, c: string)
    ensures OccursAt(a + b + c, b, |a|)
  {
    assert (a + b + c)[|a|..|a| + |b|] == b;
  }

  /** A piece appended at the end occurs there. */
  lemma OccursAtEnd(a: string, b: string)
    ensures OccursAt(a + b, b, |a|)
  {
    assert (a + b)[|a|..|a| + |b|] == b;
  }

  /** Appending text keeps every occurrence. */
  lemma OccursExtend(x: string, y: string, b: string, i: int)
    requires OccursAt(x, b, i)
    ensures OccursAt(x + y, b, i)
  {
    assert (x + y)[i..i + |b|] == x[i..i + |b|];
  }

  /** A marker recognised from its three parts in place. */
  lemma MarkerParts(s: string, j: nat, d: nat, e: nat, n: string)
    requires IsDigits(n) && d == j + |MarkerOpen| && e == d + |n|
    requires OccursAt(s, MarkerOpen, j) && OccursAt(s, n, d) && OccursAt(s, MarkerClose, e)
    ensures PageMarkerAt(s, j) == Some((e + |MarkerClose|, n))
  {
    assert s[e] == s[e..e + 5][0] == ' ';
    forall k | d <= k < e ensures IsDigit(s[k]) {
      assert s[k] == s[d..e][k - d];
    }
    DigitRunOver(s, d, |n|);
  }

  /** A page marker placed after `p` is recognised there, capturing its number. */
  lemma MarkerAfter(p: string, n: string, rest: string)
    requires IsDigits(n)
    ensures PageMarkerAt(p + MarkerOpen + n + MarkerClose + rest, |p|) == Some((|p| + 15 + |n|, n))
  {
    MarkerPlaced(p, n, rest);
    MarkerParts(p + MarkerOpen + n + MarkerClose + rest, |p|, |p + MarkerOpen|, |p + MarkerOpen + n|, n);
  }

  /** The three parts of a marker placed after `p` occur where they were placed. */
  lemma MarkerPlaced(p: string, n: string, rest: string)
    ensures var s := p + MarkerOpen + n + MarkerClose + rest;
      && OccursAt(s, MarkerOpen, |p|)
      && OccursAt(s, n, |p + MarkerOpen|)
      && OccursAt(s, MarkerClose, |p + MarkerOpen + n|)
  {
    var po := p + MarkerOpen;
    var pon := po + n;
    var ponc := pon + MarkerClose;
    OccursAtEnd(p, MarkerOpen);
    OccursExtend(po, n, MarkerOpen, |p|);
    OccursExtend(pon, MarkerClose, MarkerOpen, |p|);
    OccursExtend(ponc, rest, MarkerOpen, |p|);
    OccursAtEnd(po, n);
    OccursExtend(pon, MarkerClose, n, |po|);
    OccursExtend(ponc, rest, n, |po|);
    OccursAtEnd(pon, MarkerClose);
    OccursExtend(ponc, rest, MarkerClose, |pon|);
  }

  /** A separator with a page marker for page `n`. */
  function Marked(n: string): (r: string)
    ensures |r| == 20 + |n|
  {
    Separator + MarkerOpen + n + MarkerClose
  }

  lemma SeparatorThenMarker(a: string, n: string, rest: string)
    requires IsDigits(n)
    ensures SeparatorAt(a + Separator + MarkerOpen + n + MarkerClose + rest, |a|) ==
      Some((|a| + 20 + |n|, Some(n)))
  {
    SeparatorPlaced(a, n, rest);
    MarkerAfter(a + Separator, n, rest);
    SeparatorMarked(a + Separator + MarkerOpen + n + MarkerClose + rest, |a|, |a + Separator|,
                    |a + Separator| + 15 + |n|, n);
  }

  lemma SeparatorPlaced(a: string, n: string, rest: string)
    ensures OccursAt(a + Separator + MarkerOpen + n + MarkerClose + rest, Separator, |a|)
  {
    var x := a + Separator;
    OccursAtEnd(a, Separator);
    OccursExtend(x, MarkerOpen, Separator, |a|);
    OccursExtend(x + MarkerOpen, n, Separator, |a|);
    OccursExtend(x + MarkerOpen + n, MarkerClose, Separator, |a|);
    OccursExtend(x + MarkerOpen + n + MarkerClose, rest, Separator, |a|);
  }

  /** A separator whose marker is recognised right after it is one match with the marker's number. */
  lemma SeparatorMarked(s: string, i: nat, j: nat, e: nat, n: string)
    requires j == i + |Separator| && j <= |s|
    requires OccursAt(s, Separator, i) && PageMarkerAt(s, j) == Some((e, n))
    ensures SeparatorAt(s, i) == Some((e, Some(n)))
  {
  }

  /** A separator followed by a page marker is one match, capturing the page number. */
  lemma MarkedSeparator(a: string, n: string, rest: string)
    requires IsDigits(n)
    ensures SeparatorAt(a + Marked(n) + rest, |a|) == Some((|a| + |Marked(n)|, Some(n)))
  {
    assert a + Marked(n) + rest == a + Separator + MarkerOpen + n + MarkerClose + rest;
    SeparatorThenMarker(a, n, rest);
  }

  /** `\d+` takes exactly a maximal run of digits. */
  lemma {:induction false} DigitRunOver(s: string, j: nat, n: nat)
    requires j + n <= |s|
    requires forall k :: j <= k < j + n ==> IsDigit(s[k])
    requires j + n == |s| || !IsDigit(s[j + n])
    ensures DigitRun(s, j) == n
    decreases n
  {
    if n > 0 {
      DigitRunOver(s, j + 1, n - 1);
    }
  }

  /** The example text of `MarkedPagesExample`. */
  function MarkedText(x: char, y: char, z: char, m: string, n: string): string {
    [x] + Marked(m) + [y] + Marked(n) + [z]
  }

  /** A character that is not a newline starts no separator, so the split moves past it. */
  lemma SplitSkipsChar(s: string, last: nat, i: nat)
    requires last <= i < |s| && s[i] != '\n'
    ensures SplitFrom(s, last, i) == SplitFrom(s, last, i + 1)
  {
    if i + 5 <= |s| {
      assert s[i..i + 5][0] == s[i];
    }
  }

  /** The split at a marked separator placed after `a`, with the current piece from `last`. */
  lemma SplitAtMarked(s: string, a: string, n: string, rest: string, last: nat, e: nat)
    requires IsDigits(n) && last <= |a| && e == |a| + |Marked(n)|
    requires s == a + Marked(n) + rest
    ensures SplitFrom(s, last, |a|) == [Some(s[last..|a|]), Some(n)] + SplitFrom(s, e, e)
  {
    MarkedSeparator(a, n, rest);
  }

  lemma MarkedTextSplit(x: char, y: char, z: char, m: string, n: string)
    requires x != '\n' && y != '\n' && z != '\n'
    requires IsDigits(m) && IsDigits(n)
    ensures SplitPages(MarkedText(x, y, z, m, n)) == [Some([x]), Some(m), Some([y]), Some(n), Some([z])]
  {
    var s := MarkedText(x, y, z, m, n);
    var yz := [y] + Marked(n) + [z];
    var ay := [x] + Marked(m) + [y];
    MarkedTextShape(x, y, z, m, n);
    var e1 := |ay| - 1;
    var e2 := |ay| + |Marked(n)|;
    SplitAtMarked(s, [x], m, yz, 0, e1);
    SplitAtMarked(s, ay, n, [z], e1, e2);
    SplitChain(s, m, n, e1, e2);
  }

  /** The split of a text whose only separators are two marked ones around a single character. */
  lemma SplitChain(s: string, m: string, n: string, e1: nat, e2: nat)
    requires 1 <= e1 < e2 && e2 + 1 == |s|
    requires s[0] != '\n' && s[e1] != '\n' && s[e2] != '\n'
    requires SplitFrom(s, 0, 1) == [Some(s[..1]), Some(m)] + SplitFrom(s, e1, e1)
    requires SplitFrom(s, e1, e1 + 1) == [Some(s[e1..e1 + 1]), Some(n)] + SplitFrom(s, e2, e2)
    ensures SplitFrom(s, 0, 0) == [Some([s[0]]), Some(m), Some([s[e1]]), Some(n), Some([s[e2]])]
  {
    SplitPastChar(s, 0, Some(m), SplitFrom(s, e1, e1));
    SplitPastChar(s, e1, Some(n), SplitFrom(s, e2, e2));
    SplitLastChar(s, e2);
    FivePieces(SplitFrom(s, 0, 0), SplitFrom(s, e1, e1), SplitFrom(s, e2, e2),
               Some([s[0]]), Some(m), Some([s[e1]]), Some(n), Some([s[e2]]));
  }

  /** Moving past a one-character piece that ends at a match. */
  lemma SplitPastChar(s: string, i: nat, cap: Option<string>, tail: seq<Option<string>>)
    requires i < |s| && s[i] != '\n'
    requires SplitFrom(s, i, i + 1) == [Some(s[i..i + 1]), cap] + tail
    ensures SplitFrom(s, i, i) == [Some([s[i]]), cap] + tail
  {
    SplitSkipsChar(s, i, i);
    assert s[i..i + 1] == [s[i]];
  }

  lemma FivePieces<T>(p: seq<T>, q: seq<T>, t: seq<T>, a: T, b: T, c: T, d: T, e: T)
    requires p == [a, b] + q && q == [c, d] + t && t == [e]
    ensures p == [a, b, c, d, e]
  {
  }

  /** Where the pieces of the example text sit. */
  lemma MarkedTextShape(x: char, y: char, z: char, m: string, n: string)
    ensures var s := MarkedText(x, y, z, m, n);
      var ay := [x] + Marked(m) + [y];
      && s == [x] + Marked(m) + ([y] + Marked(n) + [z])
      && s == ay + Marked(n) + [z]
      && |s| == |ay| + |Marked(n)| + 1
      && s[0] == x && s[|ay| - 1] == y && s[|ay| + |Marked(n)|] == z
      && s[..1] == [x] && s[|ay| - 1..|ay|] == [y]
  {
  }

  /** The split from a last character that is not a newline is that character alone. */
  lemma SplitLastChar(s: string, e: nat)
    requires e + 1 == |s| && s[e] != '\n'
    ensures SplitFrom(s, e, e) == [Some([s[e]])]
  {
    SplitSkipsChar(s, e, e);
    assert s[e..] == [s[e]];
  }

  /** The offsets of the pieces: text, number, text, number, text. */
  lemma MarkedPiecesOffsets(a: string, m: string, b: string, n: string, c: string)
    requires !IsPageNumber(a) && !IsPageNumber(b) && !IsPageNumber(c)
    requires IsPageNumber(m) && IsPageNumber(n)
    ensures OffsetsFrom([Some(a), Some(m), Some(b), Some(n), Some(c)], 0, 1) ==
      [PageOffset(1, 0, |a|), PageOffset(DigitsValue(m), |a|, |a| + |b|),
       PageOffset(DigitsValue(n), |a| + |b|, |a| + |b| + |c|)]
  {
    var parts := [Some(a), Some(m), Some(b), Some(n), Some(c)];
    var ab := |a| + |b|;
    var third := [PageOffset(DigitsValue(n), ab, ab + |c|)];
    assert parts[4..][1..] == [];
    assert OffsetsFrom(parts[4..], ab, DigitsValue(n)) == third;
    assert parts[3..][1..] == parts[4..];
    assert OffsetsFrom(parts[3..], ab, DigitsValue(m) + 1) == third;
    assert parts[2..][1..] == parts[3..];
    assert OffsetsFrom(parts[2..], |a|, DigitsValue(m)) == [PageOffset(DigitsValue(m), |a|, ab)] + third;
    assert parts[1..][1..] == parts[2..];
    assert OffsetsFrom(parts[1..], |a|, 2) == OffsetsFrom(parts[2..], |a|, DigitsValue(m));
  }

  /**
   * Three one-character pages, the second and third introduced by a separator with a
   * page marker: the first page is 1 and each marker names the page after it.
   */
  lemma MarkedPagesExample(x: char, y: char, z: char, m: string, n: string)
    requires x != '\n' && y != '\n' && z != '\n'
    requires !IsDigit(x) && !IsDigit(y) && !IsDigit(z)
    requires IsDigits(m) && IsDigits(n)
    ensures PageOffsets(MarkedText(x, y, z, m, n)) ==
      [PageOffset(1, 0, 1), PageOffset(DigitsValue(m), 1, 2), PageOffset(DigitsValue(n), 2, 3)]
  {
    var t := MarkedText(x, y, z, m, n);
    MarkedTextSplit(x, y, z, m, n);
    assert !IsPageNumber([x]) by { assert [x][0] == x; }
    assert !IsPageNumber([y]) by { assert [y][0] == y; }
    assert !IsPageNumber([z]) by { assert [z][0] == z; }
    MarkedPiecesOffsets([x], m, [y], n, [z]);
  }
}
