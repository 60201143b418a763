/**
 * What the PDF and DOCX image extractors share: the image record, the
 * `p{page:03d}_i{index:03d}.{ext}` file name, and the chain that converts formats the
 * vision model cannot read (inkscape, then ImageMagick for metafiles, then Pillow).
 */
module ImageFiles {
  import opened Wrappers
  import opened PyStr

  /** Formats the vision model reads as they are. */
  const NativeFormats: set<string> := {"png", "jpg", "jpeg", "gif", "webp"}

  /** Windows metafiles, which are never saved unconverted. */
  predicate IsMetafile(ext: string) {
    ext == "emf" || ext == "wmf"
  }

  datatype BBox = BBox(x: real, y: real, width: real, height: real)

  /** One saved image, as the extractors report it. */
  datatype ExtractedImage = ExtractedImage(
    page: nat, index: nat, format: string, width: int, height: int, bbox: BBox, path: string, size: nat)

  /** A letter followed by a zero-padded number, as in `p001` or `i000`. */
  function Tagged(tag: char, n: nat): (r: string)
    ensures |r| >= 4 && r[0] == tag && r[1..] == Pad3(n)
  {
    [tag] + Pad3(n)
  }

  /** A tagged number holds no character other than its tag and digits. */
  lemma TaggedLacks(tag: char, n: nat, c: char)
    requires c != tag && !IsDigit(c)
    ensures c !in Tagged(tag, n)
  {
    var t := Tagged(tag, n);
    assert forall k :: 1 <= k < |t| ==> t[k] == Pad3(n)[k - 1];
  }

  /** `f"p{page:03d}_i{index:03d}.{ext}"` */
  function FileName(page: nat, index: nat, ext: string): string {
    Tagged('p', page) + "_" + Tagged('i', index) + "." + ext
  }

  /** A file name determines its page, index and extension, so distinct positions never collide. */
  lemma FileNameInjective(p1: nat, i1: nat, e1: string, p2: nat, i2: nat, e2: string)
    requires FileName(p1, i1, e1) == FileName(p2, i2, e2)
    ensures p1 == p2 && i1 == i2 && e1 == e2
  {
    var x1, x2 := Tagged('i', i1) + "." + e1, Tagged('i', i2) + "." + e2;
    assert FileName(p1, i1, e1) == Tagged('p', p1) + ['_'] + x1;
    assert FileName(p2, i2, e2) == Tagged('p', p2) + ['_'] + x2;
    TaggedLacks('p', p1, '_');
    TaggedLacks('p', p2, '_');
    SplitAtFirst(Tagged('p', p1), Tagged('p', p2), '_', x1, x2);
    Pad3Injective(p1, p2);
    assert x1 == Tagged('i', i1) + ['.'] + e1 && x2 == Tagged('i', i2) + ['.'] + e2;
    TaggedLacks('i', i1, '.');
    TaggedLacks('i', i2, '.');
    SplitAtFirst(Tagged('i', i1), Tagged('i', i2), '.', e1, e2);
    Pad3Injective(i1, i2);
  }

  /**
   * The output directory as the extractors see it: the argument as given, pathlib's
   * string of it (`str(Path(output_dir))`, with doubled and trailing slashes and `.`
   * components dropped), and the absolute form of that (`str(Path(output_dir).absolute())`),
   * which depends on the working directory and so is an input.
   */
  datatype OutputDir = OutputDir(given: string, path: string, absolute: string)

  /**
   * What a pathlib directory string puts before a file name joined to it: nothing for
   * `.`, the directory itself when it already ends in `/` (the root), else the directory
   * and one `/`.
   */
  function JoinPrefix(dir: string): string {
    if dir == "." then ""
    else if |dir| > 0 && dir[|dir| - 1] == '/' then dir
    else dir + "/"
  }

  /** `str(Path(dir) / name)` for a pathlib directory string and a single-component name. */
  function JoinPath(dir: string, name: string): string {
    JoinPrefix(dir) + name
  }

  /** The texts of the recorded problems, one per problem and in the same order. */
  function Texts<P>(problems: seq<P>, text: P -> string): (r: seq<string>)
    ensures |r| == |problems|
    ensures forall k :: 0 <= k < |problems| ==> r[k] == text(problems[k])
  {
    seq(|problems|, k requires 0 <= k < |problems| => text(problems[k]))
  }

  /** The saved path of an image: the output directory joined with its file name. */
  function ImagePath(outputDir: string, page: nat, index: nat, ext: string): string {
    JoinPath(outputDir, FileName(page, index, ext))
  }

  /** Images at different positions are saved under different paths. */
  lemma ImagePathInjective(dir: string, p1: nat, i1: nat, e1: string, p2: nat, i2: nat, e2: string)
    requires p1 != p2 || i1 != i2
    ensures ImagePath(dir, p1, i1, e1) != ImagePath(dir, p2, i2, e2)
  {
    var pre := JoinPrefix(dir);
    var f1, f2 := FileName(p1, i1, e1), FileName(p2, i2, e2);
    if pre + f1 == pre + f2 {
      assert f1 == (pre + f1)[|pre|..] == (pre + f2)[|pre|..] == f2;
      FileNameInjective(p1, i1, e1, p2, i2, e2);
    }
  }

  /** The format filter: none when `formats` is empty, else membership among the lowered names. */
  predicate FormatAllowed(formats: seq<string>, ext: string) {
    |formats| == 0 || ext in LowerAll(formats)
  }

  /** `[f.lower() for f in formats]` */
  function LowerAll(xs: seq<string>): (r: seq<string>)
    ensures |r| == |xs| && forall k :: 0 <= k < |xs| ==> r[k] == Lower(xs[k])
  {
    if |xs| == 0 then [] else [Lower(xs[0])] + LowerAll(xs[1..])
  }

  /** The cap the image count can reach: `max_images`, or 0 when that is negative. */
  function Cap(maxImages: int): nat {
    if maxImages < 0 then 0 else maxImages
  }

  /** A PNG produced by a converter: its byte size and the dimensions read back from it, if readable. */
  datatype Png = Png(size: nat, dims: Option<(int, int)>)

  /**
   * What each converter would produce for this image (oracles): inkscape and ImageMagick
   * (None when absent or failing), and Pillow's RGBA-to-PNG re-encoding or its error.
   */
  datatype Converters = Converters(inkscape: Option<Png>, magick: Option<Png>, pillow: Result<Png, string>)

  /** The outcome of the conversion chain. */
  datatype Conversion =
    | NotNeeded                       // a native format, saved as it is
    | ToPng(png: Png)                 // converted, saved as "png"
    | KeepOriginal(pillowError: string) // not convertible, saved in its own format
    | SkipMetafile(pillowError: string) // a metafile nobody could convert: not saved

  /**
   * The conversion chain: native formats stay; metafiles try inkscape, then ImageMagick;
   * anything not yet converted tries Pillow; what is still unconverted is skipped if it
   * is a metafile and kept in its own format otherwise.
   */
  function Convert(ext: string, c: Converters): (r: Conversion)
    ensures ext in NativeFormats <==> r == NotNeeded
    ensures r.SkipMetafile? ==> IsMetafile(ext)
    ensures r.KeepOriginal? ==> !IsMetafile(ext) && ext !in NativeFormats
  {
    if ext in NativeFormats then NotNeeded
    else if IsMetafile(ext) && c.inkscape.Some? then ToPng(c.inkscape.value)
    else if IsMetafile(ext) && c.magick.Some? then ToPng(c.magick.value)
    else match c.pillow
      case Ok(png) => ToPng(png)
      case Err(e) => if IsMetafile(ext) then SkipMetafile(e) else KeepOriginal(e)
  }

  /** The extension an image is saved under. */
  function SaveExt(ext: string, conv: Conversion): string {
    if conv.ToPng? then "png" else ext
  }

  /**
   * The order of the chain: inkscape wins for a metafile, ImageMagick only when inkscape
   * failed, Pillow only when both failed or for other formats, and a metafile is never
   * saved unconverted.
   */
  lemma ConversionOrder(ext: string, c: Converters)
    requires ext !in NativeFormats
    ensures IsMetafile(ext) && c.inkscape.Some? ==> Convert(ext, c) == ToPng(c.inkscape.value)
    ensures IsMetafile(ext) && c.inkscape.None? && c.magick.Some? ==> Convert(ext, c) == ToPng(c.magick.value)
    ensures (!IsMetafile(ext) || (c.inkscape.None? && c.magick.None?)) && c.pillow.Ok? ==>
      Convert(ext, c) == ToPng(c.pillow.value)
    ensures IsMetafile(ext) ==> !Convert(ext, c).KeepOriginal?
    ensures !IsMetafile(ext) ==> Convert(ext, c) == Convert(ext, c.(inkscape := None, magick := None))
  {
    assert !IsMetafile("png");
  }
}
