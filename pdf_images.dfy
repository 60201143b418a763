/**
 * The PDF image extractor: walks the pages of a PDF and each page's embedded images in
 * order, keeps those passing the format and size filters, converts formats the vision
 * model cannot read, and saves each as `p{page:03d}_i{index:03d}.{ext}`, where `index`
 * is the image's position in its page's listing. A failure inside one image is counted
 * and recorded; a failure listing a page ends the whole extraction.
 */
module PdfImages {
  import opened Wrappers
  import opened PyStr
  import opened ImageFiles

  /**
   * What the PDF library and Pillow give for one embedded image (oracles): the extracted
   * byte count and format, or the error; Pillow's dimensions or its error; the image's
   * rectangles on the page, or the error; the converters; and the error of writing the
   * file, if any.
   */
  datatype PdfImage = PdfImage(
    extract: Result<(nat, string), string>,
    dims: Result<(int, int), string>,
    rects: Result<seq<BBox>, string>,
    converters: Converters,
    writeError: Option<string>)

  /** A page's image listing, or the error raised while listing it. */
  datatype Listing = ListFailed(message: string) | Listed(images: seq<PdfImage>)

  /** What opening the PDF gave (oracle). */
  datatype Document =
    | FileNotFound
    | FileDataError(message: string)
    | OpenFailed(message: string)
    | Opened(pages: seq<Listing>)

  /** The fixed inputs of the loops. */
  datatype Setup = Setup(outputDir: OutputDir, minSize: int, maxImages: int, formats: seq<string>)

  /**
   * A problem recorded for one image. The loops keep the problems and the result carries
   * their texts (`Warning`), in the same order.
   */
  datatype Problem =
    | ImageFailed(pageNum: nat, index: nat, message: string)
    | DimsFailed(pageNum: nat, index: nat, message: string)
    | RgbaFailed(pageNum: nat, index: nat, ext: string, message: string)
    | MetafileUnconverted(pageNum: nat, index: nat)

  /** The loop variables: `images`, `errors`, `count` and `failed_count`. */
  datatype Progress = Progress(images: seq<ExtractedImage>, errors: seq<Problem>, count: int, failed: nat)

  /** `f"Page {page_num + 1}, image {img_idx}: "` */
  function Where(pageNum: nat, index: nat): string {
    "Page " + NatToDecimal(pageNum + 1) + ", image " + NatToDecimal(index) + ": "
  }

  function DimsError(pageNum: nat, index: nat, message: string): string {
    Where(pageNum, index) + "Failed to read dimensions: " + message
  }

  function RgbaError(pageNum: nat, index: nat, ext: string, message: string): string {
    Where(pageNum, index) + "RGBA conversion failed for format '" + ext + "': " + message
  }

  function MetafileError(pageNum: nat, index: nat): string {
    "EMF/WMF image 'p" + NatToDecimal(pageNum + 1) + "_i" + NatToDecimal(index) +
    "' could not be converted to PNG. Install inkscape or imagemagick in the Docker image."
  }

  /** The text appended to `errors` for a problem. */
  function Warning(p: Problem): string {
    match p
    case ImageFailed(pageNum, index, message) => Where(pageNum, index) + message
    case DimsFailed(pageNum, index, message) => DimsError(pageNum, index, message)
    case RgbaFailed(pageNum, index, ext, message) => RgbaError(pageNum, index, ext, message)
    case MetafileUnconverted(pageNum, index) => MetafileError(pageNum, index)
  }


  /** The handler around one image: the failure is counted and recorded. */
  function Failure(st: Progress, pageNum: nat, index: nat, message: string): Progress {
    st.(errors := st.errors + [ImageFailed(pageNum, index, message)], failed := st.failed + 1)
  }

  /** One image of page `pageNum` (0-based) at listing position `index`. */
  function ImageStep(st: Progress, pageNum: nat, index: nat, im: PdfImage, s: Setup): Progress {
    match im.extract
    case Err(m) => Failure(st, pageNum, index, m)
    case Ok((size, format)) =>
      var ext := Lower(format);
      if !FormatAllowed(s.formats, ext) then st
      else if im.dims.Err? then st.(errors := st.errors + [DimsFailed(pageNum, index, im.dims.error)])
      else if im.dims.value.0 < s.minSize || im.dims.value.1 < s.minSize then st
      else if im.rects.Err? then Failure(st, pageNum, index, im.rects.error)
      else Place(st, pageNum, index, ext, size, im, s)
  }

  /** The bounding box: the first rectangle on the page, else the image's own size at the origin. */
  function BoxOf(rects: seq<BBox>, width: int, height: int): BBox {
    if |rects| > 0 then rects[0] else BBox(0.0, 0.0, width as real, height as real)
  }

  /** Convert if needed, then save: a failed Pillow conversion is recorded, a failed metafile skipped. */
  function Place(st: Progress, pageNum: nat, index: nat, ext: string, size: nat, im: PdfImage, s: Setup): Progress
    requires im.dims.Ok? && im.rects.Ok?
  {
    var conv := Convert(ext, im.converters);
    var errors := match conv
      case KeepOriginal(e) => st.errors + [RgbaFailed(pageNum, index, ext, e)]
      case SkipMetafile(e) => st.errors + [RgbaFailed(pageNum, index, ext, e)]
      case _ => st.errors;
    if conv.SkipMetafile? then st.(errors := errors + [MetafileUnconverted(pageNum, index)])
    else
      var bytes := if conv.ToPng? then conv.png.size else size;
      Write(st, errors, pageNum, index, SaveExt(ext, conv), bytes, im.dims.value.0, im.dims.value.1,
            BoxOf(im.rects.value, im.dims.value.0, im.dims.value.1), im.writeError, s)
  }

  /** Write the file; a write error goes to the image's handler. */
  function Write(st: Progress, errors: seq<Problem>, pageNum: nat, index: nat, ext: string, size: nat,
                 width: int, height: int, bbox: BBox, writeError: Option<string>, s: Setup): Progress
  {
    match writeError
    case Some(m) => Progress(st.images, errors + [ImageFailed(pageNum, index, m)], st.count, st.failed + 1)
    case None =>
      var image := ExtractedImage(pageNum + 1, index, ext, width, height, bbox,
                                  ImagePath(s.outputDir.absolute, pageNum + 1, index, ext), size);
      Progress(st.images + [image], errors, st.count + 1, st.failed)
  }

  /** The inner loop over a page's images from position `i`, stopping at the cap. */
  function ImagesFrom(st: Progress, pageNum: nat, list: seq<PdfImage>, i: nat, s: Setup): Progress
    requires i <= |list|
    decreases |list| - i
  {
    if i == |list| || st.count >= s.maxImages then st
    else ImagesFrom(ImageStep(st, pageNum, i, list[i], s), pageNum, list, i + 1, s)
  }

  /** The outer loop over pages from `pageNum`, stopping at the cap; a listing error aborts. */
  function PagesFrom(st: Progress, pages: seq<Listing>, pageNum: nat, s: Setup): Result<Progress, string>
    requires pageNum <= |pages|
    decreases |pages| - pageNum
  {
    if pageNum == |pages| || st.count >= s.maxImages then Ok(st)
    else match pages[pageNum]
      case ListFailed(m) => Err(m)
      case Listed(list) => PagesFrom(ImagesFrom(st, pageNum, list, 0, s), pages, pageNum + 1, s)
  }

  // ---------------------------------------------------------------------------
  // The loop invariant
  // ---------------------------------------------------------------------------

  /** `a` comes before `b` in (page, index) order. */
  predicate Earlier(a: ExtractedImage, b: ExtractedImage) {
    a.page < b.page || (a.page == b.page && a.index < b.index)
  }

  /** `im` was taken before position `i` of 0-based page `pageNum`. */
  predicate Before(im: ExtractedImage, pageNum: nat, i: nat) {
    im.page < pageNum + 1 || (im.page == pageNum + 1 && im.index < i)
  }

  predicate GoodImage(im: ExtractedImage, s: Setup) {
    && im.page >= 1
    && im.width >= s.minSize && im.height >= s.minSize
    && im.path == ImagePath(s.outputDir.absolute, im.page, im.index, im.format)
  }

  /**
   * What the loops keep true: `count` is the number of images and within the cap, every
   * failure left a warning, every image passed the size filter and is saved under its own
   * name, and images come in strictly increasing (page, index) order.
   */
  ghost predicate Good(st: Progress, s: Setup) {
    && st.count == |st.images| <= Cap(s.maxImages)
    && st.failed <= |st.errors|
    && (forall k :: 0 <= k < |st.images| ==> GoodImage(st.images[k], s))
    && (forall j, k :: 0 <= j < k < |st.images| ==> Earlier(st.images[j], st.images[k]))
  }

  /** Every image so far was taken before position `i` of page `pageNum`. */
  ghost predicate TakenBefore(st: Progress, pageNum: nat, i: nat) {
    forall k :: 0 <= k < |st.images| ==> Before(st.images[k], pageNum, i)
  }

  /** A step that keeps no image: images and `count` stay, and each new failure left a warning. */
  ghost predicate KeptNothing(st: Progress, next: Progress) {
    && next.images == st.images && next.count == st.count
    && next.failed + |st.errors| <= st.failed + |next.errors|
  }

  /** A step that keeps the image at (pageNum + 1, i), appended and counted. */
  ghost predicate KeptOne(st: Progress, next: Progress, pageNum: nat, i: nat, s: Setup) {
    && |next.images| == |st.images| + 1
    && next.images[..|st.images|] == st.images
    && next.count == st.count + 1
    && next.failed + |st.errors| <= st.failed + |next.errors|
    && next.images[|st.images|].page == pageNum + 1
    && next.images[|st.images|].index == i
    && GoodImage(next.images[|st.images|], s)
  }

  lemma WriteShape(st: Progress, errors: seq<Problem>, pageNum: nat, index: nat, ext: string, size: nat,
                   width: int, height: int, bbox: BBox, writeError: Option<string>, s: Setup)
    requires |st.errors| <= |errors| && width >= s.minSize && height >= s.minSize
    ensures var next := Write(st, errors, pageNum, index, ext, size, width, height, bbox, writeError, s);
      KeptNothing(st, next) || KeptOne(st, next, pageNum, index, s)
  {
    var next := Write(st, errors, pageNum, index, ext, size, width, height, bbox, writeError, s);
    if writeError.None? {
      assert next.images[..|st.images|] == st.images;
    }
  }

  lemma StepShape(st: Progress, pageNum: nat, i: nat, im: PdfImage, s: Setup)
    ensures var next := ImageStep(st, pageNum, i, im, s);
      KeptNothing(st, next) || KeptOne(st, next, pageNum, i, s)
  {
    if im.extract.Ok? && FormatAllowed(s.formats, Lower(im.extract.value.1)) && im.dims.Ok?
       && im.dims.value.0 >= s.minSize && im.dims.value.1 >= s.minSize && im.rects.Ok? {
      var ext := Lower(im.extract.value.1);
      var conv := Convert(ext, im.converters);
      if !conv.SkipMetafile? {
        var errors := match conv
          case KeepOriginal(e) => st.errors + [RgbaFailed(pageNum, i, ext, e)]
          case SkipMetafile(e) => st.errors + [RgbaFailed(pageNum, i, ext, e)]
          case _ => st.errors;
        var bytes := if conv.ToPng? then conv.png.size else im.extract.value.0;
        WriteShape(st, errors, pageNum, i, SaveExt(ext, conv), bytes, im.dims.value.0, im.dims.value.1,
                   BoxOf(im.rects.value, im.dims.value.0, im.dims.value.1), im.writeError, s);
      }
    }
  }

  lemma AppendGood(st: Progress, next: Progress, pageNum: nat, i: nat, s: Setup)
    requires Good(st, s) && TakenBefore(st, pageNum, i) && st.count < s.maxImages
    requires KeptOne(st, next, pageNum, i, s)
    ensures Good(next, s) && TakenBefore(next, pageNum, i + 1)
  {
    var n := |st.images|;
    var im := next.images[n];
    assert next.images == st.images + [im] by {
      assert next.images == next.images[..n] + [im];
    }
    forall j, k | 0 <= j < k < |next.images| ensures Earlier(next.images[j], next.images[k]) {
      if k == n {
        assert Before(st.images[j], pageNum, i);
      }
    }
  }

  /** One image below the cap keeps the invariant and moves the position on. */
  lemma StepGood(st: Progress, pageNum: nat, i: nat, im: PdfImage, s: Setup)
    requires Good(st, s) && TakenBefore(st, pageNum, i) && st.count < s.maxImages
    ensures Good(ImageStep(st, pageNum, i, im, s), s)
    ensures TakenBefore(ImageStep(st, pageNum, i, im, s), pageNum, i + 1)
  {
    var next := ImageStep(st, pageNum, i, im, s);
    StepShape(st, pageNum, i, im, s);
    if KeptOne(st, next, pageNum, i, s) {
      AppendGood(st, next, pageNum, i, s);
    }
  }

  lemma {:induction false} ImagesFromGood(st: Progress, pageNum: nat, list: seq<PdfImage>, i: nat, s: Setup)
    requires i <= |list| && Good(st, s) && TakenBefore(st, pageNum, i)
    ensures Good(ImagesFrom(st, pageNum, list, i, s), s)
    ensures TakenBefore(ImagesFrom(st, pageNum, list, i, s), pageNum + 1, 0)
    decreases |list| - i
  {
    if i < |list| && st.count < s.maxImages {
      var next := ImageStep(st, pageNum, i, list[i], s);
      StepGood(st, pageNum, i, list[i], s);
      assert ImagesFrom(st, pageNum, list, i, s) == ImagesFrom(next, pageNum, list, i + 1, s);
      ImagesFromGood(next, pageNum, list, i + 1, s);
    }
  }

  lemma {:induction false} PagesFromGood(st: Progress, pages: seq<Listing>, pageNum: nat, s: Setup)
    requires pageNum <= |pages| && Good(st, s) && TakenBefore(st, pageNum, 0)
    ensures PagesFrom(st, pages, pageNum, s).Ok? ==> Good(PagesFrom(st, pages, pageNum, s).value, s)
    decreases |pages| - pageNum
  {
    if pageNum < |pages| && st.count < s.maxImages && pages[pageNum].Listed? {
      ImagesFromGood(st, pageNum, pages[pageNum].images, 0, s);
      PagesFromGood(ImagesFrom(st, pageNum, pages[pageNum].images, 0, s), pages, pageNum + 1, s);
    }
  }

  // ---------------------------------------------------------------------------
  // extract_images
  // ---------------------------------------------------------------------------

  /** The extractor's JSON result; early failures carry neither `count` nor `failed_count`. */
  datatype PdfExtraction = PdfExtraction(
    success: bool,
    count: Option<nat>,
    images: seq<ExtractedImage>,
    failedCount: Option<nat>,
    error: Option<string>,
    warnings: Option<seq<string>>)

  function Failed(message: string): PdfExtraction {
    PdfExtraction(false, None, [], None, Some(message), None)
  }

  /**
   * The result of completed loops: it fails only when every attempted image failed,
   * and carries the warnings only when there are some.
   */
  function Finish(st: Progress): (r: PdfExtraction)
    ensures r.count == Some(|st.images|) && r.images == st.images && r.failedCount == Some(st.failed)
    ensures !r.success <==> st.failed > 0 && |st.images| == 0
    ensures r.error.Some? <==> !r.success
    ensures r.warnings.Some? <==> |st.errors| > 0
    ensures r.warnings.Some? ==> r.warnings.value == Texts(st.errors, Warning)
  {
    var totalAttempted := |st.images| + st.failed;
    var allFailed := st.failed > 0 && st.failed == totalAttempted;
    PdfExtraction(
      !allFailed, Some(|st.images|), st.images, Some(st.failed),
      if allFailed then Some("All " + NatToDecimal(st.failed) + " images failed extraction") else None,
      if |st.errors| > 0 then Some(Texts(st.errors, Warning)) else None)
  }

  /** `extract_images` as a function of its inputs and the document. */
  function ExtractImagesSpec(pdfPath: string, outputDir: OutputDir, minSize: int, maxImages: int,
                             formats: seq<string>, doc: Document): PdfExtraction {
    match doc
    case FileNotFound => Failed("PDF file not found: " + pdfPath)
    case FileDataError(m) => Failed("Invalid PDF file: " + m)
    case OpenFailed(m) => Failed("Extraction failed: " + m)
    case Opened(pages) =>
      match PagesFrom(Progress([], [], 0, 0), pages, 0, Setup(outputDir, minSize, maxImages, formats))
      case Err(m) => Failed("Extraction failed: " + m)
      case Ok(st) => Finish(st)
  }

  /**
   * What every result promises: `count` is present exactly when the loops completed and
   * then equals the number of images, within `max_images` (0 when negative); each image
   * is at least `min_size` in both dimensions and on a page of at least 1; images come
   * in strictly increasing (page, index) order, so no two share a path; and every
   * counted failure left a warning.
   */
  lemma ExtractionBounds(pdfPath: string, outputDir: OutputDir, minSize: int, maxImages: int,
                         formats: seq<string>, doc: Document)
    ensures var r := ExtractImagesSpec(pdfPath, outputDir, minSize, maxImages, formats, doc);
      && (r.count.Some? <==> r.failedCount.Some?)
      && (r.count.Some? ==> r.count.value == |r.images| <= Cap(maxImages))
      && (r.failedCount.Some? && r.failedCount.value > 0 ==> r.warnings.Some? && r.failedCount.value <= |r.warnings.value|)
      && (forall k :: 0 <= k < |r.images| ==>
            r.images[k].page >= 1 && r.images[k].width >= minSize && r.images[k].height >= minSize)
      && (forall j, k :: 0 <= j < k < |r.images| ==> Earlier(r.images[j], r.images[k]))
      && (forall j, k :: 0 <= j < k < |r.images| ==> r.images[j].path != r.images[k].path)
  {
    if doc.Opened? {
      var s := Setup(outputDir, minSize, maxImages, formats);
      var init := Progress([], [], 0, 0);
      PagesFromGood(init, doc.pages, 0, s);
      var res := PagesFrom(init, doc.pages, 0, s);
      if res.Ok? {
        var st := res.value;
        forall j, k | 0 <= j < k < |st.images| ensures st.images[j].path != st.images[k].path {
          var a, b := st.images[j], st.images[k];
          assert Earlier(a, b) && GoodImage(a, s) && GoodImage(b, s);
          ImagePathInjective(outputDir.absolute, a.page, a.index, a.format, b.page, b.index, b.format);
        }
      }
    }
  }

  /** An error listing a page the loop reaches discards everything extracted so far. */
  lemma ListingErrorAborts(pdfPath: string, outputDir: OutputDir, minSize: int, maxImages: int,
                           formats: seq<string>, m: string, rest: seq<Listing>)
    requires maxImages > 0
    ensures ExtractImagesSpec(pdfPath, outputDir, minSize, maxImages, formats, Opened([ListFailed(m)] + rest)) ==
      Failed("Extraction failed: " + m)
  {
  }

  /**
   * A page after the cap is reached is never listed: once `max_images` images are kept,
   * what follows, even a page whose listing fails, does not change the result.
   */
  lemma {:induction false} CapStopsPages(st: Progress, pages: seq<Listing>, pageNum: nat, s: Setup, more: seq<Listing>)
    requires pageNum <= |pages|
    requires PagesFrom(st, pages, pageNum, s).Ok? && PagesFrom(st, pages, pageNum, s).value.count >= s.maxImages
    ensures PagesFrom(st, pages + more, pageNum, s) == PagesFrom(st, pages, pageNum, s)
    decreases |pages| - pageNum
  {
    if pageNum < |pages| && st.count < s.maxImages {
      assert (pages + more)[pageNum] == pages[pageNum];
      var next := ImagesFrom(st, pageNum, pages[pageNum].images, 0, s);
      CapStopsPages(next, pages, pageNum + 1, s, more);
    }
  }

  // ---------------------------------------------------------------------------
  // The imperative loops
  // ---------------------------------------------------------------------------

  /** The body of the inner loop for one image. */
  method ExtractOne(st: Progress, pageNum: nat, imgIdx: nat, im: PdfImage, s: Setup) returns (next: Progress)
    ensures next == ImageStep(st, pageNum, imgIdx, im, s)
  {
    if im.extract.Err? {
      return Failure(st, pageNum, imgIdx, im.extract.error);
    }
    var (size, format) := im.extract.value;
    var ext := Lower(format);
    if !FormatAllowed(s.formats, ext) {
      return st;
    }
    if im.dims.Err? {
      return st.(errors := st.errors + [DimsFailed(pageNum, imgIdx, im.dims.error)]);
    }
    var (width, height) := im.dims.value;
    if width < s.minSize || height < s.minSize {
      return st;
    }
    if im.rects.Err? {
      return Failure(st, pageNum, imgIdx, im.rects.error);
    }
    next := SaveOne(st, pageNum, imgIdx, ext, size, im, s);
  }

  /** Convert if needed, then write the file and record the image. */
  method SaveOne(st: Progress, pageNum: nat, imgIdx: nat, ext: string, size: nat, im: PdfImage, s: Setup)
    returns (next: Progress)
    requires im.dims.Ok? && im.rects.Ok?
    ensures next == Place(st, pageNum, imgIdx, ext, size, im, s)
  {
    var (width, height) := im.dims.value;
    var bbox := BoxOf(im.rects.value, width, height);
    var conv := Convert(ext, im.converters);
    var errors := st.errors;
    var imgBytes := size;
    if conv.KeepOriginal? || conv.SkipMetafile? {
      errors := errors + [RgbaFailed(pageNum, imgIdx, ext, conv.pillowError)];
    }
    if conv.SkipMetafile? {
      return st.(errors := errors + [MetafileUnconverted(pageNum, imgIdx)]);
    }
    if conv.ToPng? {
      imgBytes := conv.png.size;
    }
    var saveExt := SaveExt(ext, conv);
    var filepath := ImagePath(s.outputDir.absolute, pageNum + 1, imgIdx, saveExt);
    if im.writeError.Some? {
      return Progress(st.images, errors + [ImageFailed(pageNum, imgIdx, im.writeError.value)], st.count, st.failed + 1);
    }
    var image := ExtractedImage(pageNum + 1, imgIdx, saveExt, width, height, bbox, filepath, imgBytes);
    next := Progress(st.images + [image], errors, st.count + 1, st.failed);
  }

  /**
   * `extract_images`: the page loop and, inside it, the loop over the page's images,
   * both stopping once `max_images` images are kept.
   */
  method ExtractImages(pdfPath: string, outputDir: OutputDir, minSize: int, maxImages: int,
                       formats: seq<string>, doc: Document)
    returns (r: PdfExtraction)
    ensures r == ExtractImagesSpec(pdfPath, outputDir, minSize, maxImages, formats, doc)
  {
    match doc {
      case FileNotFound => return Failed("PDF file not found: " + pdfPath);
      case FileDataError(m) => return Failed("Invalid PDF file: " + m);
      case OpenFailed(m) => return Failed("Extraction failed: " + m);
      case Opened(_) =>
    }
    var s := Setup(outputDir, minSize, maxImages, formats);
    var st := Progress([], [], 0, 0);
    ghost var goal := PagesFrom(st, doc.pages, 0, s);
    for pageNum := 0 to |doc.pages|
      invariant PagesFrom(st, doc.pages, pageNum, s) == goal
    {
      if st.count >= maxImages {
        break;
      }
      var listing := doc.pages[pageNum];
      if listing.ListFailed? {
        return Failed("Extraction failed: " + listing.message);
      }
      var imageList := listing.images;
      for imgIdx := 0 to |imageList|
        invariant PagesFrom(ImagesFrom(st, pageNum, imageList, imgIdx, s), doc.pages, pageNum + 1, s) == goal
      {
        if st.count >= maxImages {
          break;
        }
        st := ExtractOne(st, pageNum, imgIdx, imageList[imgIdx], s);
      }
    }
    r := Finish(st);
  }
}
