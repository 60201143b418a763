/**
 * The bookkeeping of the DOCX image extractor: the relationship map, the paragraph
 * positions of image references, the page estimate, and the extraction loop with its
 * cap, size filter, per-page indices and warnings. The zip archive, the XML parser,
 * Pillow and the converters are oracles.
 */
module DocxImages {
  import opened Wrappers
  import opened PyStr
  import opened ImageFiles

  /** Paragraphs counted as one page by the estimate. */
  const ParagraphsPerPage := 40

  /** A part of the archive read as XML: absent, unparsable, or its parsed content. */
  datatype XmlPart<T> = Absent | Malformed(message: string) | Parsed(content: T)

  // ---------------------------------------------------------------------------
  // Relationships
  // ---------------------------------------------------------------------------

  /** One `<Relationship>` element; a missing attribute reads as "". */
  datatype Relationship = Relationship(id: string, target: string)

  predicate Kept(rel: Relationship) {
    rel.id != "" && rel.target != ""
  }

  /** The relationship map after reading `rels` in order: a later `Id` overwrites an earlier one. */
  function RelsMap(rels: seq<Relationship>): map<string, string> {
    if |rels| == 0 then map[]
    else
      var m := RelsMap(rels[..|rels| - 1]);
      var rel := rels[|rels| - 1];
      if Kept(rel) then m[rel.id := rel.target] else m
  }

  /** `_parse_relationships`: {} when the part is absent or malformed. */
  method ParseRelationships(part: XmlPart<seq<Relationship>>) returns (ridToTarget: map<string, string>)
    ensures part.Parsed? ==> ridToTarget == RelsMap(part.content)
    ensures !part.Parsed? ==> ridToTarget == map[]
  {
    ridToTarget := map[];
    if !part.Parsed? {
      return;
    }
    var rels := part.content;
    for i := 0 to |rels|
      invariant ridToTarget == RelsMap(rels[..i])
    {
      assert rels[..i + 1][..i] == rels[..i];
      var rel := rels[i];
      if rel.id != "" && rel.target != "" {
        ridToTarget := ridToTarget[rel.id := rel.target];
      }
    }
    assert rels[..|rels|] == rels;
  }

  /** An id is mapped exactly when some element with that id has both attributes. */
  lemma {:induction false} RelsMapKeys(rels: seq<Relationship>, k: string)
    ensures k in RelsMap(rels) <==> exists i :: 0 <= i < |rels| && Kept(rels[i]) && rels[i].id == k
  {
    if |rels| > 0 {
      var init := rels[..|rels| - 1];
      RelsMapKeys(init, k);
      if exists i :: 0 <= i < |rels| && Kept(rels[i]) && rels[i].id == k {
        var i :| 0 <= i < |rels| && Kept(rels[i]) && rels[i].id == k;
        if i < |rels| - 1 {
          assert init[i] == rels[i];
        }
      }
      if exists i :: 0 <= i < |init| && Kept(init[i]) && init[i].id == k {
        var i :| 0 <= i < |init| && Kept(init[i]) && init[i].id == k;
        assert rels[i] == init[i];
      }
    }
  }

  /** The last element with an id decides its target. */
  lemma {:induction false} RelsMapLastWins(rels: seq<Relationship>, i: nat)
    requires i < |rels| && Kept(rels[i])
    requires forall j :: i < j < |rels| ==> !(Kept(rels[j]) && rels[j].id == rels[i].id)
    ensures rels[i].id in RelsMap(rels) && RelsMap(rels)[rels[i].id] == rels[i].target
  {
    if i < |rels| - 1 {
      var init := rels[..|rels| - 1];
      assert init[i] == rels[i];
      RelsMapLastWins(init, i);
    }
  }

  // ---------------------------------------------------------------------------
  // Image positions
  // ---------------------------------------------------------------------------

  /** An image reference: the paragraph it sits in and the media file it names. */
  datatype Position = Position(paragraphIndex: nat, mediaFile: string)

  /** The media file of a relationship target: its last `/`-component. */
  function MediaFileOf(target: string): (r: string)
    ensures '/' !in r && EndsWith(target, r)
  {
    AfterLast(target, '/')
  }

  /** A blip's `r:embed` that names a known relationship. */
  predicate Resolves(rid: string, ridToTarget: map<string, string>) {
    rid != "" && rid in ridToTarget
  }

  /** The references among the blips of paragraph `p` (each given by its `r:embed`, "" when absent). */
  function BlipPositions(p: nat, blips: seq<string>, ridToTarget: map<string, string>): seq<Position> {
    if |blips| == 0 then []
    else
      var last := blips[|blips| - 1];
      BlipPositions(p, blips[..|blips| - 1], ridToTarget) +
        (if Resolves(last, ridToTarget) then [Position(p, MediaFileOf(ridToTarget[last]))] else [])
  }

  /** The references of all paragraphs, in document order. */
  function PositionsOf(paragraphs: seq<seq<string>>, ridToTarget: map<string, string>): seq<Position> {
    if |paragraphs| == 0 then []
    else
      PositionsOf(paragraphs[..|paragraphs| - 1], ridToTarget) +
        BlipPositions(|paragraphs| - 1, paragraphs[|paragraphs| - 1], ridToTarget)
  }

  /** `_parse_image_positions`: [] when the document part is absent or malformed. */
  method ParseImagePositions(document: XmlPart<seq<seq<string>>>, ridToTarget: map<string, string>)
    returns (positions: seq<Position>)
    ensures document.Parsed? ==> positions == PositionsOf(document.content, ridToTarget)
    ensures !document.Parsed? ==> positions == []
  {
    positions := [];
    if !document.Parsed? {
      return;
    }
    var paragraphs := document.content;
    for p := 0 to |paragraphs|
      invariant positions == PositionsOf(paragraphs[..p], ridToTarget)
    {
      assert paragraphs[..p + 1][..p] == paragraphs[..p];
      positions := ParagraphBlips(positions, p, paragraphs[p], ridToTarget);
    }
    assert paragraphs[..|paragraphs|] == paragraphs;
  }

  /** The inner loop of `_parse_image_positions`: the references of paragraph `p`, appended in order. */
  method ParagraphBlips(before: seq<Position>, p: nat, blips: seq<string>, ridToTarget: map<string, string>)
    returns (positions: seq<Position>)
    ensures positions == before + BlipPositions(p, blips, ridToTarget)
  {
    var found: seq<Position> := [];
    for b := 0 to |blips|
      invariant found == BlipPositions(p, blips[..b], ridToTarget)
    {
      assert blips[..b + 1][..b] == blips[..b];
      var rid := blips[b];
      if rid != "" && rid in ridToTarget {
        found := found + [Position(p, MediaFileOf(ridToTarget[rid]))];
      }
    }
    assert blips[..|blips|] == blips;
    positions := before + found;
  }

  /** `q` names the media file of one of the resolvable blips. */
  predicate FromBlips(q: Position, blips: seq<string>, ridToTarget: map<string, string>) {
    exists b :: b in blips && Resolves(b, ridToTarget) && q.mediaFile == MediaFileOf(ridToTarget[b])
  }

  lemma {:induction false} BlipPositionsSound(p: nat, blips: seq<string>, ridToTarget: map<string, string>)
    ensures forall q :: q in BlipPositions(p, blips, ridToTarget) ==> q.paragraphIndex == p && FromBlips(q, blips, ridToTarget)
  {
    if |blips| > 0 {
      var init := blips[..|blips| - 1];
      BlipPositionsSound(p, init, ridToTarget);
      var last := blips[|blips| - 1];
      forall q | q in BlipPositions(p, blips, ridToTarget)
        ensures q.paragraphIndex == p && FromBlips(q, blips, ridToTarget)
      {
        if q in BlipPositions(p, init, ridToTarget) {
          assert FromBlips(q, init, ridToTarget);
          var b :| b in init && Resolves(b, ridToTarget) && q.mediaFile == MediaFileOf(ridToTarget[b]);
          assert b in blips;
        } else {
          assert last in blips;
        }
      }
    }
  }

  /** `q` names a paragraph of the document and the media file of one of its resolvable blips. */
  predicate FromParagraph(q: Position, paragraphs: seq<seq<string>>, ridToTarget: map<string, string>) {
    q.paragraphIndex < |paragraphs| && FromBlips(q, paragraphs[q.paragraphIndex], ridToTarget)
  }

  /** Every recorded position comes from a resolvable blip of the paragraph it names. */
  lemma {:induction false} PositionsSound(paragraphs: seq<seq<string>>, ridToTarget: map<string, string>)
    ensures forall q :: q in PositionsOf(paragraphs, ridToTarget) ==> FromParagraph(q, paragraphs, ridToTarget)
  {
    if |paragraphs| > 0 {
      var init := paragraphs[..|paragraphs| - 1];
      var p := |paragraphs| - 1;
      PositionsSound(init, ridToTarget);
      BlipPositionsSound(p, paragraphs[p], ridToTarget);
      var a := PositionsOf(init, ridToTarget);
      var b := BlipPositions(p, paragraphs[p], ridToTarget);
      forall q | q in a + b ensures FromParagraph(q, paragraphs, ridToTarget) {
        if q in a {
          assert FromParagraph(q, init, ridToTarget);
          assert paragraphs[q.paragraphIndex] == init[q.paragraphIndex];
        }
      }
    }
  }

  /** Positions follow paragraph order. */
  lemma {:induction false} PositionsInOrder(paragraphs: seq<seq<string>>, ridToTarget: map<string, string>)
    ensures forall j, k :: 0 <= j < k < |PositionsOf(paragraphs, ridToTarget)| ==>
      PositionsOf(paragraphs, ridToTarget)[j].paragraphIndex <= PositionsOf(paragraphs, ridToTarget)[k].paragraphIndex
  {
    if |paragraphs| > 0 {
      var init := paragraphs[..|paragraphs| - 1];
      var p := |paragraphs| - 1;
      PositionsInOrder(init, ridToTarget);
      PositionsSound(init, ridToTarget);
      BlipPositionsSound(p, paragraphs[p], ridToTarget);
      var a := PositionsOf(init, ridToTarget);
      var b := BlipPositions(p, paragraphs[p], ridToTarget);
      var ps := a + b;
      forall j, k | 0 <= j < k < |ps| ensures ps[j].paragraphIndex <= ps[k].paragraphIndex {
        if k >= |a| {
          assert ps[k] == b[k - |a|] && b[k - |a|] in b;
          if j < |a| {
            assert ps[j] == a[j] && a[j] in a;
          } else {
            assert ps[j] == b[j - |a|] && b[j - |a|] in b;
          }
        } else {
          assert ps[j] == a[j] && ps[k] == a[k];
        }
      }
    }
  }

  // ---------------------------------------------------------------------------
  // Media files to paragraphs and pages
  // ---------------------------------------------------------------------------

  /** Each media file mapped to the paragraph of its first reference. */
  function FirstParagraphs(positions: seq<Position>): map<string, nat> {
    if |positions| == 0 then map[]
    else
      var m := FirstParagraphs(positions[..|positions| - 1]);
      var last := positions[|positions| - 1];
      if last.mediaFile in m then m else m[last.mediaFile := last.paragraphIndex]
  }

  /** The lookup loop of `extract_images`: the first paragraph wins. */
  method MapMediaToParagraph(positions: seq<Position>) returns (mediaToParagraph: map<string, nat>)
    ensures mediaToParagraph == FirstParagraphs(positions)
  {
    mediaToParagraph := map[];
    for i := 0 to |positions|
      invariant mediaToParagraph == FirstParagraphs(positions[..i])
    {
      assert positions[..i + 1][..i] == positions[..i];
      var fname := positions[i].mediaFile;
      if fname !in mediaToParagraph {
        mediaToParagraph := mediaToParagraph[fname := positions[i].paragraphIndex];
      }
    }
    assert positions[..|positions|] == positions;
  }

  /** A media file maps to the paragraph of its first reference, and only referenced files are mapped. */
  lemma {:induction false} FirstParagraphIsFirst(positions: seq<Position>, k: nat)
    requires k < |positions|
    requires forall j :: 0 <= j < k ==> positions[j].mediaFile != positions[k].mediaFile
    ensures positions[k].mediaFile in FirstParagraphs(positions)
    ensures FirstParagraphs(positions)[positions[k].mediaFile] == positions[k].paragraphIndex
  {
    var init := positions[..|positions| - 1];
    if k < |positions| - 1 {
      assert init[k] == positions[k];
      assert forall j :: 0 <= j < k ==> init[j] == positions[j];
      FirstParagraphIsFirst(init, k);
    } else {
      FirstParagraphsKeys(init, positions[k].mediaFile);
      assert forall j :: 0 <= j < |init| ==> init[j] == positions[j];
    }
  }

  lemma {:induction false} FirstParagraphsKeys(positions: seq<Position>, f: string)
    ensures f in FirstParagraphs(positions) <==> exists j :: 0 <= j < |positions| && positions[j].mediaFile == f
  {
    if |positions| > 0 {
      var init := positions[..|positions| - 1];
      FirstParagraphsKeys(init, f);
      if exists j :: 0 <= j < |positions| && positions[j].mediaFile == f {
        var j :| 0 <= j < |positions| && positions[j].mediaFile == f;
        if j < |init| {
          assert init[j] == positions[j];
        }
      }
      if exists j :: 0 <= j < |init| && init[j].mediaFile == f {
        var j :| 0 <= j < |init| && init[j].mediaFile == f;
        assert positions[j] == init[j];
      }
    }
  }

  /** `_estimate_page`: 1-based, one page per 40 paragraphs. */
  function EstimatePage(paragraphIndex: nat): (page: nat)
    ensures page >= 1
  {
    paragraphIndex / ParagraphsPerPage + 1
  }

  /** The estimate never goes back as paragraphs advance. */
  lemma EstimatePageMonotone(p: nat, q: nat)
    requires p <= q
    ensures EstimatePage(p) <= EstimatePage(q)
  {
  }

  /** All 40 paragraphs of a block share a page: block `b` is page `b + 1`. */
  lemma EstimatePageBlock(b: nat, r: nat)
    requires r < ParagraphsPerPage
    ensures EstimatePage(ParagraphsPerPage * b + r) == b + 1
  {
    var p := ParagraphsPerPage * b + r;
    assert p / ParagraphsPerPage == b by {
      assert p == ParagraphsPerPage * b + r;
    }
  }

  /** The page of a media file: from its first reference, or page 1 when it is never referenced. */
  function PageOfMedia(mediaToParagraph: map<string, nat>, name: string): (page: nat)
    ensures name !in mediaToParagraph ==> page == 1
    ensures name in mediaToParagraph ==> page == EstimatePage(mediaToParagraph[name])
  {
    EstimatePage(if name in mediaToParagraph then mediaToParagraph[name] else 0)
  }

  // ---------------------------------------------------------------------------
  // Candidates
  // ---------------------------------------------------------------------------

  /** A zip entry inside `word/media/` that is not a directory. */
  predicate IsMediaEntry(name: string) {
    StartsWith(name, "word/media/") && !EndsWith(name, "/")
  }

  /** The media entries of the archive listing, in listing order. */
  function MediaEntries(names: seq<string>): (r: seq<string>)
    ensures forall x :: x in r <==> x in names && IsMediaEntry(x)
    ensures |r| == 0 <==> forall x :: x in names ==> !IsMediaEntry(x)
  {
    if |names| == 0 then []
    else
      var last := names[|names| - 1];
      MediaEntries(names[..|names| - 1]) + (if IsMediaEntry(last) then [last] else [])
  }

  /** `name.rsplit(".", 1)[-1].lower()` when the name has a dot, else "". */
  function MediaExt(name: string): (ext: string)
    ensures '.' !in ext
  {
    if '.' in name then
      var tail := AfterLast(name, '.');
      assert forall i :: 0 <= i < |tail| ==> LowerChar(tail[i]) != '.';
      Lower(tail)
    else ""
  }

  // ---------------------------------------------------------------------------
  // The extraction loop
  // ---------------------------------------------------------------------------

  /**
   * What the archive and the libraries give for one media entry (oracles): its byte
   * count or the read error, Pillow's dimensions or its error, the converters, and the
   * error of writing the file, if any.
   */
  datatype MediaEntry = MediaEntry(
    read: Result<nat, string>,
    dims: Result<(int, int), string>,
    converters: Converters,
    writeError: Option<string>)

  /** The fixed inputs of the loop. */
  datatype Setup = Setup(
    outputDir: OutputDir,
    minSize: int,
    maxImages: int,
    formats: seq<string>,
    mediaToParagraph: map<string, nat>,
    entry: string -> MediaEntry)

  /**
   * A problem the loop records for one entry. The loop keeps the problems and the result
   * carries their texts (`Warning`), in the same order.
   */
  datatype Problem =
    | ReadFailed(zipEntry: string, message: string)
    | DimsFailed(zipEntry: string, message: string)
    | MetafileUnconverted(name: string)
    | KeptOriginal(name: string, ext: string)
    | WriteFailed(zipEntry: string, path: string, message: string, outputDir: string)

  /** The loop's variables: `images`, `errors`, `count`, `page_image_counts`. */
  datatype Progress = Progress(images: seq<ExtractedImage>, errors: seq<Problem>, count: int, pageCounts: map<nat, nat>)

  /** `page_image_counts.get(page, 0)` */
  function CountOn(pageCounts: map<nat, nat>, page: nat): nat {
    if page in pageCounts then pageCounts[page] else 0
  }

  function ReadError(zipEntry: string, message: string): string {
    "File '" + zipEntry + "': Failed to read from ZIP: " + message + ". The DOCX archive may be corrupted."
  }

  function DimsError(zipEntry: string, message: string): string {
    "File '" + zipEntry + "': Failed to read image dimensions with Pillow: " + message +
    ". The image data may be corrupted or in an unsupported format."
  }

  function MetafileError(name: string): string {
    "EMF/WMF image '" + name + "' could not be converted to PNG. Install inkscape or imagemagick in the Docker image."
  }

  function KeepWarning(name: string, ext: string): string {
    var up := Upper(ext);
    "File '" + name + "': Cannot convert " + up + " to Gemini-compatible format (png/jpg/gif/webp). Saving as " +
    up + ". VLM processing will skip this image. Install inkscape or imagemagick to enable conversion."
  }

  function WriteError(zipEntry: string, path: string, message: string, outputDir: string): string {
    "File '" + zipEntry + "': Failed to save to '" + path + "': " + message +
    ". Check that the output directory '" + outputDir + "' is writable."
  }

  /** The text appended to `errors` for a problem. */
  function Warning(p: Problem): string {
    match p
    case ReadFailed(zipEntry, message) => ReadError(zipEntry, message)
    case DimsFailed(zipEntry, message) => DimsError(zipEntry, message)
    case MetafileUnconverted(name) => MetafileError(name)
    case KeptOriginal(name, ext) => KeepWarning(name, ext)
    case WriteFailed(zipEntry, path, message, outputDir) => WriteError(zipEntry, path, message, outputDir)
  }


  /** One iteration of the loop over media entries (after the `max_images` check). */
  function Step(st: Progress, zipEntry: string, s: Setup): Progress {
    var name := AfterLast(zipEntry, '/');
    var ext := MediaExt(name);
    if !FormatAllowed(s.formats, ext) then st
    else
      var e := s.entry(zipEntry);
      if e.read.Err? then st.(errors := st.errors + [ReadFailed(zipEntry, e.read.error)])
      else if e.dims.Err? then st.(errors := st.errors + [DimsFailed(zipEntry, e.dims.error)])
      else if e.dims.value.0 < s.minSize || e.dims.value.1 < s.minSize then st
      else Keep(st, zipEntry, name, ext, e, s)
  }

  /** The rest of an iteration for an entry that passed the filters: convert, index, save. */
  function Keep(st: Progress, zipEntry: string, name: string, ext: string, e: MediaEntry, s: Setup): Progress
    requires e.read.Ok? && e.dims.Ok?
  {
    var conv := Convert(ext, e.converters);
    if conv.SkipMetafile? then st.(errors := st.errors + [MetafileUnconverted(name)])
    else Save(st, ConversionErrors(st.errors, name, ext, conv), zipEntry, PageOfMedia(s.mediaToParagraph, name), ext, conv, e, s)
  }

  /** The warning for an image kept in a format the vision model cannot read. */
  function ConversionErrors(errors: seq<Problem>, name: string, ext: string, conv: Conversion): seq<Problem> {
    if conv.KeepOriginal? then errors + [KeptOriginal(name, ext)] else errors
  }

  /** Take the page's next index, then write the file and record the image. */
  function Save(st: Progress, errors: seq<Problem>, zipEntry: string, page: nat, ext: string, conv: Conversion,
                e: MediaEntry, s: Setup): Progress
    requires e.read.Ok? && e.dims.Ok? && !conv.SkipMetafile?
  {
    var index := CountOn(st.pageCounts, page);
    var counts := st.pageCounts[page := index + 1];
    var saveExt := SaveExt(ext, conv);
    var path := ImagePath(s.outputDir.absolute, page, index, saveExt);
    if e.writeError.Some? then
      var shown := ImagePath(s.outputDir.path, page, index, saveExt);
      Progress(st.images, errors + [WriteFailed(zipEntry, shown, e.writeError.value, s.outputDir.given)], st.count, counts)
    else
      var dims := if conv.ToPng? && conv.png.dims.Some? then conv.png.dims.value else e.dims.value;
      var bytes := if conv.ToPng? then conv.png.size else e.read.value;
      var image := ExtractedImage(page, index, saveExt, dims.0, dims.1,
                                  BBox(0.0, 0.0, e.dims.value.0 as real, e.dims.value.1 as real), path, bytes);
      Progress(st.images + [image], errors, st.count + 1, counts)
  }

  /** The iteration with the fixed inputs bound. */
  function StepOf(s: Setup): (Progress, string) -> Progress {
    (st: Progress, zipEntry: string) => Step(st, zipEntry, s)
  }

  /** The loop from entry `i` on: it stops at the end or once `count` reaches `max_images`. */
  function ProcessFrom(st: Progress, entries: seq<string>, i: nat, maxImages: int,
                       step: (Progress, string) -> Progress): Progress
    requires i <= |entries|
    decreases |entries| - i
  {
    if i == |entries| || st.count >= maxImages then st
    else ProcessFrom(step(st, entries[i]), entries, i + 1, maxImages, step)
  }

  /**
   * What the loop keeps true: `count` is the number of images and within the cap, every
   * kept image passed the size filter on its original dimensions, is on a page of at
   * least 1 with an index already consumed on that page, is saved under its own name,
   * and images of one page have increasing indices in processing order.
   */
  ghost predicate Good(st: Progress, s: Setup) {
    && st.count == |st.images|
    && st.count <= Cap(s.maxImages)
    && (forall k :: 0 <= k < |st.images| ==> GoodImage(st.images[k], st.pageCounts, s))
    && (forall j, k :: 0 <= j < k < |st.images| && st.images[j].page == st.images[k].page ==>
          st.images[j].index < st.images[k].index)
  }

  predicate GoodImage(im: ExtractedImage, pageCounts: map<nat, nat>, s: Setup) {
    && im.page >= 1
    && im.bbox.width >= s.minSize as real && im.bbox.height >= s.minSize as real
    && im.index < CountOn(pageCounts, im.page)
    && im.path == ImagePath(s.outputDir.absolute, im.page, im.index, im.format)
  }

  /** Index counters only grow. */
  ghost predicate CountsGrow(before: map<nat, nat>, after: map<nat, nat>) {
    forall p :: CountOn(before, p) <= CountOn(after, p)
  }

  lemma GoodImageKept(im: ExtractedImage, before: map<nat, nat>, after: map<nat, nat>, s: Setup)
    requires GoodImage(im, before, s) && CountsGrow(before, after)
    ensures GoodImage(im, after, s)
  {
  }

  /** An iteration that keeps no image: the images and `count` stay, counters only grow. */
  ghost predicate KeptNothing(st: Progress, next: Progress) {
    next.images == st.images && next.count == st.count && CountsGrow(st.pageCounts, next.pageCounts)
  }

  /**
   * An iteration that keeps one image: it is appended, `count` goes up by one, and it
   * takes its page's next index, which is then consumed.
   */
  ghost predicate KeptOne(st: Progress, next: Progress, s: Setup) {
    && |next.images| == |st.images| + 1
    && next.images[..|st.images|] == st.images
    && next.count == st.count + 1
    && var im := next.images[|st.images|];
    && im.index == CountOn(st.pageCounts, im.page)
    && next.pageCounts == st.pageCounts[im.page := im.index + 1]
    && im.page >= 1
    && im.bbox.width >= s.minSize as real && im.bbox.height >= s.minSize as real
    && im.path == ImagePath(s.outputDir.absolute, im.page, im.index, im.format)
  }

  /** Taking a page's next index only raises that page's counter. */
  lemma TakeIndexGrows(counts: map<nat, nat>, page: nat)
    ensures CountsGrow(counts, counts[page := CountOn(counts, page) + 1])
  {
  }

  lemma SaveShape(st: Progress, errors: seq<Problem>, zipEntry: string, page: nat, ext: string, conv: Conversion,
                  e: MediaEntry, s: Setup)
    requires e.read.Ok? && e.dims.Ok? && !conv.SkipMetafile? && page >= 1
    requires e.dims.value.0 >= s.minSize && e.dims.value.1 >= s.minSize
    ensures var next := Save(st, errors, zipEntry, page, ext, conv, e, s);
      KeptNothing(st, next) || KeptOne(st, next, s)
  {
    var next := Save(st, errors, zipEntry, page, ext, conv, e, s);
    TakeIndexGrows(st.pageCounts, page);
    if e.writeError.None? {
      assert next.images[..|st.images|] == st.images;
    }
  }

  lemma KeepShape(st: Progress, zipEntry: string, name: string, ext: string, e: MediaEntry, s: Setup)
    requires e.read.Ok? && e.dims.Ok? && e.dims.value.0 >= s.minSize && e.dims.value.1 >= s.minSize
    ensures var next := Keep(st, zipEntry, name, ext, e, s);
      KeptNothing(st, next) || KeptOne(st, next, s)
  {
    var conv := Convert(ext, e.converters);
    if !conv.SkipMetafile? {
      SaveShape(st, ConversionErrors(st.errors, name, ext, conv), zipEntry, PageOfMedia(s.mediaToParagraph, name),
                ext, conv, e, s);
    }
  }

  /** Every iteration either keeps nothing or keeps one image as described. */
  lemma StepShape(st: Progress, zipEntry: string, s: Setup)
    ensures var next := Step(st, zipEntry, s);
      KeptNothing(st, next) || KeptOne(st, next, s)
  {
    var next := Step(st, zipEntry, s);
    var name := AfterLast(zipEntry, '/');
    var e := s.entry(zipEntry);
    if FormatAllowed(s.formats, MediaExt(name)) && e.read.Ok? && e.dims.Ok?
       && e.dims.value.0 >= s.minSize && e.dims.value.1 >= s.minSize {
      assert next == Keep(st, zipEntry, name, MediaExt(name), e, s);
      KeepShape(st, zipEntry, name, MediaExt(name), e, s);
    } else {
      assert next.images == st.images && next.count == st.count && next.pageCounts == st.pageCounts;
      assert KeptNothing(st, next);
    }
  }

  lemma AppendGood(st: Progress, next: Progress, s: Setup)
    requires Good(st, s) && st.count < s.maxImages && KeptOne(st, next, s)
    ensures Good(next, s)
  {
    var n := |st.images|;
    var im := next.images[n];
    assert CountsGrow(st.pageCounts, next.pageCounts);
    assert next.images == st.images + [im] by {
      assert next.images == next.images[..n] + [im];
    }
    forall k | 0 <= k < |next.images| ensures GoodImage(next.images[k], next.pageCounts, s) {
      if k < n {
        GoodImageKept(st.images[k], st.pageCounts, next.pageCounts, s);
      }
    }
    forall j, k | 0 <= j < k < |next.images| && next.images[j].page == next.images[k].page
      ensures next.images[j].index < next.images[k].index
    {
      if k == n {
        assert GoodImage(st.images[j], st.pageCounts, s);
      }
    }
  }

  /** One iteration below the cap keeps the invariant. */
  lemma StepGood(st: Progress, zipEntry: string, s: Setup)
    requires Good(st, s) && st.count < s.maxImages
    ensures Good(Step(st, zipEntry, s), s)
  {
    var next := Step(st, zipEntry, s);
    StepShape(st, zipEntry, s);
    if KeptOne(st, next, s) {
      AppendGood(st, next, s);
    } else {
      forall k | 0 <= k < |st.images| ensures GoodImage(st.images[k], next.pageCounts, s) {
        GoodImageKept(st.images[k], st.pageCounts, next.pageCounts, s);
      }
    }
  }

  /** Every iteration below the cap keeps the invariant. */
  lemma StepOfGood(s: Setup)
    ensures forall st, zipEntry :: Good(st, s) && st.count < s.maxImages ==> Good(StepOf(s)(st, zipEntry), s)
  {
    forall st, zipEntry | Good(st, s) && st.count < s.maxImages
      ensures Good(StepOf(s)(st, zipEntry), s)
    {
      StepGood(st, zipEntry, s);
    }
  }

  /** The whole loop keeps the invariant when each iteration below the cap does. */
  lemma {:induction false} ProcessFromGood(st: Progress, entries: seq<string>, i: nat, s: Setup,
                                           step: (Progress, string) -> Progress)
    requires i <= |entries| && Good(st, s)
    requires forall p, zipEntry :: Good(p, s) && p.count < s.maxImages ==> Good(step(p, zipEntry), s)
    ensures Good(ProcessFrom(st, entries, i, s.maxImages, step), s)
    decreases |entries| - i
  {
    if i < |entries| && st.count < s.maxImages {
      ProcessFromGood(step(st, entries[i]), entries, i + 1, s, step);
    }
  }

  /**
   * A failed write still consumes the page's next index: no image is added, yet the
   * next image on that page gets the index after it, leaving a gap.
   */
  lemma WriteFailureLeavesGap(st: Progress, zipEntry: string, s: Setup)
    requires var e := s.entry(zipEntry); var name := AfterLast(zipEntry, '/');
      && FormatAllowed(s.formats, MediaExt(name))
      && e.read.Ok? && e.dims.Ok? && e.dims.value.0 >= s.minSize && e.dims.value.1 >= s.minSize
      && !Convert(MediaExt(name), e.converters).SkipMetafile?
      && e.writeError.Some?
    ensures var page := PageOfMedia(s.mediaToParagraph, AfterLast(zipEntry, '/'));
      && Step(st, zipEntry, s).images == st.images
      && CountOn(Step(st, zipEntry, s).pageCounts, page) == CountOn(st.pageCounts, page) + 1
  {
  }

  /** Two images at different positions are saved under different paths. */
  lemma DistinctPaths(a: ExtractedImage, b: ExtractedImage, s: Setup, counts: map<nat, nat>)
    requires GoodImage(a, counts, s) && GoodImage(b, counts, s)
    requires a.page != b.page || a.index != b.index
    ensures a.path != b.path
  {
    ImagePathInjective(s.outputDir.absolute, a.page, a.index, a.format, b.page, b.index, b.format);
  }

  // ---------------------------------------------------------------------------
  // extract_images
  // ---------------------------------------------------------------------------

  /** What opening the archive gave (oracle), with the parts the extractor reads. */
  datatype Archive =
    | BadZip
    | NotFound
    | PermissionDenied
    | OpenFailed(typeName: string, message: string)
    | Opened(
        names: seq<string>,
        rels: XmlPart<seq<Relationship>>,
        document: XmlPart<seq<seq<string>>>,
        entry: string -> MediaEntry)

  /** Why the archive could not be opened; `FailureText` gives the result's `error` text. */
  datatype Failure =
    | NotZip(docxPath: string)
    | NoFile(docxPath: string)
    | Denied(docxPath: string)
    | OpenError(docxPath: string, typeName: string, message: string)

  function FailureText(f: Failure): string {
    match f
    case NotZip(docxPath) =>
      "Cannot open as ZIP archive: " + docxPath + ". The file may be corrupted or not a valid DOCX. " +
      "Verify the file opens in Microsoft Word or LibreOffice."
    case NoFile(docxPath) => "DOCX file not found: " + docxPath
    case Denied(docxPath) =>
      "Permission denied reading: " + docxPath + ". Check file permissions with: ls -la '{docx_path}'"
    case OpenError(docxPath, t, m) => "Failed to open DOCX file '" + docxPath + "': " + t + ": " + m
  }

  /** The extractor's JSON result; a failure carries no `count`. */
  datatype Extraction = Extraction(
    success: bool, count: Option<nat>, images: seq<ExtractedImage>, error: Option<Failure>, warnings: Option<seq<string>>)

  function Failed(f: Failure): Extraction {
    Extraction(false, None, [], Some(f), None)
  }

  /** The result of a completed loop: `warnings` only when errors were recorded. */
  function Finish(images: seq<ExtractedImage>, errors: seq<Problem>): (r: Extraction)
    ensures r.success && r.count == Some(|images|) && r.images == images
    ensures r.warnings.Some? <==> |errors| > 0
    ensures r.warnings.Some? ==> r.warnings.value == Texts(errors, Warning)
  {
    Extraction(true, Some(|images|), images, None, if |errors| > 0 then Some(Texts(errors, Warning)) else None)
  }

  /** The sorted media entries and the first-paragraph lookup of an opened archive. */
  function Candidates(names: seq<string>): seq<string> {
    SortStrings(MediaEntries(names))
  }

  function SetupOf(outputDir: OutputDir, minSize: int, maxImages: int, formats: seq<string>,
                   rels: XmlPart<seq<Relationship>>, document: XmlPart<seq<seq<string>>>,
                   entry: string -> MediaEntry): Setup {
    var ridToTarget := if rels.Parsed? then RelsMap(rels.content) else map[];
    var positions := if document.Parsed? then PositionsOf(document.content, ridToTarget) else [];
    Setup(outputDir, minSize, maxImages, formats, FirstParagraphs(positions), entry)
  }

  /** `extract_images` as a function of its inputs and the archive. */
  function ExtractImagesSpec(docxPath: string, outputDir: OutputDir, minSize: int, maxImages: int,
                             formats: seq<string>, archive: Archive): Extraction {
    match archive
    case BadZip => Failed(NotZip(docxPath))
    case NotFound => Failed(NoFile(docxPath))
    case PermissionDenied => Failed(Denied(docxPath))
    case OpenFailed(t, m) => Failed(OpenError(docxPath, t, m))
    case Opened(names, rels, document, entry) =>
      if |MediaEntries(names)| == 0 then Extraction(true, Some(0), [], None, None)
      else
        var s := SetupOf(outputDir, minSize, maxImages, formats, rels, document, entry);
        var st := ProcessFrom(Progress([], [], 0, map[]), Candidates(names), 0, maxImages, StepOf(s));
        Finish(st.images, st.errors)
  }

  /**
   * What every result promises: `count` is the number of images and never exceeds
   * `max_images` (0 when that is negative); every kept image is at least `min_size` in
   * both original dimensions and on a page of at least 1; images of one page carry
   * increasing indices; and no two images share a path.
   */
  lemma ExtractionBounds(docxPath: string, outputDir: OutputDir, minSize: int, maxImages: int,
                         formats: seq<string>, archive: Archive)
    ensures var r := ExtractImagesSpec(docxPath, outputDir, minSize, maxImages, formats, archive);
      && (r.success <==> r.count.Some?)
      && (r.count.Some? ==> r.count.value == |r.images| <= Cap(maxImages))
      && (forall k :: 0 <= k < |r.images| ==>
            r.images[k].page >= 1 && r.images[k].bbox.width >= minSize as real && r.images[k].bbox.height >= minSize as real)
      && (forall j, k :: 0 <= j < k < |r.images| && r.images[j].page == r.images[k].page ==>
            r.images[j].index < r.images[k].index)
      && (forall j, k :: 0 <= j < k < |r.images| ==> r.images[j].path != r.images[k].path)
  {
    if archive.Opened? && |MediaEntries(archive.names)| > 0 {
      var s := SetupOf(outputDir, minSize, maxImages, formats, archive.rels, archive.document, archive.entry);
      LoopBounds(Candidates(archive.names), s);
    }
  }

  /** The same promises for the images the loop collects from any list of entries. */
  lemma LoopBounds(entries: seq<string>, s: Setup)
    ensures var st := ProcessFrom(Progress([], [], 0, map[]), entries, 0, s.maxImages, StepOf(s));
      && st.count == |st.images| <= Cap(s.maxImages)
      && (forall k :: 0 <= k < |st.images| ==>
            st.images[k].page >= 1 && st.images[k].bbox.width >= s.minSize as real && st.images[k].bbox.height >= s.minSize as real)
      && (forall j, k :: 0 <= j < k < |st.images| && st.images[j].page == st.images[k].page ==>
            st.images[j].index < st.images[k].index)
      && (forall j, k :: 0 <= j < k < |st.images| ==> st.images[j].path != st.images[k].path)
  {
    var init := Progress([], [], 0, map[]);
    StepOfGood(s);
    ProcessFromGood(init, entries, 0, s, StepOf(s));
    var st := ProcessFrom(init, entries, 0, s.maxImages, StepOf(s));
    forall k | 0 <= k < |st.images|
      ensures st.images[k].page >= 1 && st.images[k].bbox.width >= s.minSize as real && st.images[k].bbox.height >= s.minSize as real
    {
      assert GoodImage(st.images[k], st.pageCounts, s);
    }
    forall j, k | 0 <= j < k < |st.images| ensures st.images[j].path != st.images[k].path {
      DistinctPaths(st.images[j], st.images[k], s, st.pageCounts);
    }
  }

  /** The body of the loop once an entry passed the filters: convert, then save. */
  method KeepEntry(st: Progress, zipEntry: string, mediaFilename: string, ext: string, e: MediaEntry, s: Setup)
    returns (next: Progress)
    requires e.read.Ok? && e.dims.Ok?
    ensures next == Keep(st, zipEntry, mediaFilename, ext, e, s)
  {
    var page := PageOfMedia(s.mediaToParagraph, mediaFilename);
    var conv := Convert(ext, e.converters);
    if conv.SkipMetafile? {
      next := st.(errors := st.errors + [MetafileUnconverted(mediaFilename)]);
    } else {
      var errors := st.errors;
      if conv.KeepOriginal? {
        errors := errors + [KeptOriginal(mediaFilename, ext)];
      }
      next := SaveEntry(st, errors, zipEntry, page, ext, conv, e, s);
    }
  }

  /** Index, write and record one image. */
  method SaveEntry(st: Progress, errors: seq<Problem>, zipEntry: string, page: nat, ext: string, conv: Conversion,
                   e: MediaEntry, s: Setup)
    returns (next: Progress)
    requires e.read.Ok? && e.dims.Ok? && !conv.SkipMetafile?
    ensures next == Save(st, errors, zipEntry, page, ext, conv, e, s)
  {
    var imgIdx := CountOn(st.pageCounts, page);
    var pageImageCounts := st.pageCounts[page := imgIdx + 1];
    var saveExt := SaveExt(ext, conv);
    var filepath := ImagePath(s.outputDir.path, page, imgIdx, saveExt);
    if e.writeError.Some? {
      next := Progress(st.images, errors + [WriteFailed(zipEntry, filepath, e.writeError.value, s.outputDir.given)],
                       st.count, pageImageCounts);
    } else {
      var dims := e.dims.value;
      if conv.ToPng? && conv.png.dims.Some? {
        dims := conv.png.dims.value;
      }
      var imgSize := if conv.ToPng? then conv.png.size else e.read.value;
      var image := ExtractedImage(page, imgIdx, saveExt, dims.0, dims.1,
                                  BBox(0.0, 0.0, e.dims.value.0 as real, e.dims.value.1 as real),
                                  ImagePath(s.outputDir.absolute, page, imgIdx, saveExt), imgSize);
      next := Progress(st.images + [image], errors, st.count + 1, pageImageCounts);
    }
  }

  /**
   * `extract_images`: opens the archive, lists the media entries, maps them to pages,
   * then walks them in sorted order with the cap, the filters, the conversion chain and
   * the per-page indices.
   */
  method ExtractImages(docxPath: string, outputDir: OutputDir, minSize: int, maxImages: int,
                       formats: seq<string>, archive: Archive)
    returns (r: Extraction)
    ensures r == ExtractImagesSpec(docxPath, outputDir, minSize, maxImages, formats, archive)
  {
    match archive {
      case BadZip => return Failed(NotZip(docxPath));
      case NotFound => return Failed(NoFile(docxPath));
      case PermissionDenied => return Failed(Denied(docxPath));
      case OpenFailed(t, m) => return Failed(OpenError(docxPath, t, m));
      case Opened(_, _, _, _) =>
    }
    var mediaFiles := MediaEntries(archive.names);
    if |mediaFiles| == 0 {
      return Extraction(true, Some(0), [], None, None);
    }
    var ridToTarget := ParseRelationships(archive.rels);
    var imagePositions := ParseImagePositions(archive.document, ridToTarget);
    var mediaToParagraph := MapMediaToParagraph(imagePositions);
    mediaFiles := SortStrings(mediaFiles);
    var s := Setup(outputDir, minSize, maxImages, formats, mediaToParagraph, archive.entry);
    assert s == SetupOf(outputDir, minSize, maxImages, formats, archive.rels, archive.document, archive.entry);

    var st := Progress([], [], 0, map[]);
    ghost var goal := ProcessFrom(st, mediaFiles, 0, maxImages, StepOf(s));
    for i := 0 to |mediaFiles|
      invariant ProcessFrom(st, mediaFiles, i, maxImages, StepOf(s)) == goal
    {
      if st.count >= maxImages {
        break;
      }
      ghost var next := Step(st, mediaFiles[i], s);
      assert ProcessFrom(st, mediaFiles, i, maxImages, StepOf(s)) == ProcessFrom(next, mediaFiles, i + 1, maxImages, StepOf(s));
      var zipEntry := mediaFiles[i];
      var mediaFilename := AfterLast(zipEntry, '/');
      var ext := MediaExt(mediaFilename);
      if !FormatAllowed(formats, ext) {
        continue;
      }
      var e := archive.entry(zipEntry);
      if e.read.Err? {
        st := st.(errors := st.errors + [ReadFailed(zipEntry, e.read.error)]);
      } else if e.dims.Err? {
        st := st.(errors := st.errors + [DimsFailed(zipEntry, e.dims.error)]);
      } else if e.dims.value.0 >= minSize && e.dims.value.1 >= minSize {
        st := KeepEntry(st, zipEntry, mediaFilename, ext, e, s);
      }
    }
    r := Finish(st.images, st.errors);
  }
}
