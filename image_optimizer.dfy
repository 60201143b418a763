/**
 * The image optimizer's relevance heuristics: the size and aspect scores, the category
 * prediction, the weighted relevance and the decision whether the vision model should
 * see an image, and the dimension arithmetic of resizing for the vision model. Pixel
 * decoding and the colour count are inputs: `unique_colors` and a diversity in [0, 1].
 * Scores are exact reals.
 */
module ImageOptimizer {
  import opened Wrappers
  import opened PyStr

  const MinDimensionVlm: nat := 50
  const MinRelevanceScore: real := 0.35
  const LogoColorThreshold: nat := 48
  const ExtremeAspectRatio: real := 3.5
  const VlmMaxDimension: int := 2048

  function Max(a: int, b: int): int { if a >= b then a else b }
  function Min(a: int, b: int): int { if a <= b then a else b }
  function MaxReal(a: real, b: real): real { if a >= b then a else b }

  // ---------------------------------------------------------------------------
  // Scores
  // ---------------------------------------------------------------------------

  /** `max(w, h) / min(w, h)` for positive dimensions. */
  function Ratio(width: nat, height: nat): (r: real)
    requires width > 0 && height > 0
    ensures r >= 1.0
  {
    var hi, lo := Max(width, height) as real, Min(width, height) as real;
    assert hi >= lo > 0.0;
    QuotientAtLeastOne(hi, lo);
    hi / lo
  }

  lemma QuotientAtLeastOne(a: real, b: real)
    requires a >= b > 0.0
    ensures a / b >= 1.0
  {
    var q := a / b;
    assert q * b == a;
    assert (q - 1.0) * b == a - b;
    if q < 1.0 {
      NegTimesPos(q - 1.0, b);
    }
  }

  lemma NegTimesPos(x: real, y: real)
    requires x < 0.0 && y > 0.0
    ensures x * y < 0.0
  {
  }

  /**
   * The aspect score as a function of the ratio: 1.0 up to 2, a linear fall to 0.5 at
   * 3.5, then 0.1 lower per unit of ratio, never below 0.1.
   */
  function AspectOfRatio(ratio: real): (s: real)
    ensures 0.1 <= s <= 1.0
  {
    if ratio <= 2.0 then 1.0
    else if ratio <= ExtremeAspectRatio then 1.0 - 0.5 * (ratio - 2.0) / (ExtremeAspectRatio - 2.0)
    else MaxReal(0.1, 0.5 - 0.1 * (ratio - ExtremeAspectRatio))
  }

  /** `calculate_aspect_score` */
  function AspectScore(width: nat, height: nat): (s: real)
    ensures width == 0 || height == 0 ==> s == 0.0
    ensures width > 0 && height > 0 ==> 0.1 <= s <= 1.0
  {
    if width == 0 || height == 0 then 0.0 else AspectOfRatio(Ratio(width, height))
  }

  /** The aspect score does not depend on orientation. */
  lemma AspectSymmetric(width: nat, height: nat)
    ensures AspectScore(width, height) == AspectScore(height, width)
  {
  }

  /** The aspect score never rises as the ratio grows. */
  lemma AspectNonIncreasing(r1: real, r2: real)
    requires r1 <= r2
    ensures AspectOfRatio(r1) >= AspectOfRatio(r2)
  {
  }

  /** The pieces meet: 1.0 at ratio 2 and 0.5 at ratio 3.5 from both sides, so the score is continuous. */
  lemma AspectPiecesMeet()
    ensures AspectOfRatio(2.0) == 1.0 && 1.0 - 0.5 * (2.0 - 2.0) / (ExtremeAspectRatio - 2.0) == 1.0
    ensures AspectOfRatio(ExtremeAspectRatio) == 0.5 && MaxReal(0.1, 0.5 - 0.1 * (ExtremeAspectRatio - ExtremeAspectRatio)) == 0.5
    ensures forall r :: r >= 7.5 ==> AspectOfRatio(r) == 0.1
  {
  }

  /** `calculate_size_score` as a step function of the pixel count. */
  function SizeOfPixels(pixels: nat): (s: real)
    ensures s == 0.0 || s == 0.2 || s == 0.4 || s == 0.7 || s == 1.0
  {
    if pixels < 50 * 50 then 0.0
    else if pixels < 100 * 100 then 0.2
    else if pixels < 200 * 200 then 0.4
    else if pixels < 400 * 400 then 0.7
    else 1.0
  }

  function SizeScore(width: nat, height: nat): (s: real)
    ensures 0.0 <= s <= 1.0
  {
    SizeOfPixels(width * height)
  }

  /** More pixels never score lower. */
  lemma SizeNonDecreasing(p1: nat, p2: nat)
    requires p1 <= p2
    ensures SizeOfPixels(p1) <= SizeOfPixels(p2)
  {
  }

  // ---------------------------------------------------------------------------
  // Category
  // ---------------------------------------------------------------------------

  datatype Category = Photo | Chart | Document | Logo | Icon | Decorative | Unknown
  {
    function Value(): string {
      match this
      case Photo => "photo"
      case Chart => "chart"
      case Document => "document"
      case Logo => "logo"
      case Icon => "icon"
      case Decorative => "decorative"
      case Unknown => "unknown"
    }

    /** The category's weight in the relevance score. */
    function Bonus(): (b: real)
      ensures 0.1 <= b <= 1.0
    {
      match this
      case Photo => 1.0
      case Chart => 1.0
      case Document => 0.9
      case Unknown => 0.5
      case Logo => 0.2
      case Icon => 0.1
      case Decorative => 0.1
    }
  }

  /** The ratio used for the category: 999 when a dimension is 0. */
  function CategoryRatio(width: nat, height: nat): real {
    if Min(width, height) > 0 then Ratio(width, height) else 999.0
  }

  /** The first matching rule of `predict_category`. */
  function PredictCategory(width: nat, height: nat, uniqueColors: nat, diversity: real): Category {
    var maxDim := Max(width, height);
    var ratio := CategoryRatio(width, height);
    if maxDim < 64 then Icon
    else if uniqueColors < 8 && maxDim < 200 then Icon
    else if uniqueColors < LogoColorThreshold && maxDim < 400 then Logo
    else if ratio > 6.0 then Decorative
    else if diversity > 0.7 && width * height > 200 * 200 then Photo
    else if LogoColorThreshold <= uniqueColors < 256 then (if ratio < 2.0 then Chart else Document)
    else if uniqueColors >= 256 then Photo
    else Unknown
  }

  /**
   * Which rules produce which category: ICON exactly for tiny or few-colour small images;
   * LOGO exactly for the next rule; DECORATIVE exactly for an extreme ratio after those;
   * CHART and DOCUMENT only for 48 to 255 colours; UNKNOWN only below 48 colours once
   * the size rules passed.
   */
  lemma CategoryRules(width: nat, height: nat, uniqueColors: nat, diversity: real)
    ensures var c := PredictCategory(width, height, uniqueColors, diversity);
      var maxDim := Max(width, height);
      && (c == Icon <==> maxDim < 64 || (uniqueColors < 8 && maxDim < 200))
      && (c == Logo <==> c != Icon && uniqueColors < LogoColorThreshold && maxDim < 400)
      && (c == Decorative <==> c != Icon && c != Logo && CategoryRatio(width, height) > 6.0)
      && (c == Chart || c == Document ==> LogoColorThreshold <= uniqueColors < 256)
      && (c == Chart ==> CategoryRatio(width, height) < 2.0)
      && (c == Unknown ==> uniqueColors < LogoColorThreshold && maxDim >= 400)
  {
  }

  /** An image of at least 256 colours, 64 pixels and a ratio of at most 6 is a photo. */
  lemma ManyColoursArePhotos(width: nat, height: nat, uniqueColors: nat, diversity: real)
    requires uniqueColors >= 256 && Max(width, height) >= 64 && CategoryRatio(width, height) <= 6.0
    ensures PredictCategory(width, height, uniqueColors, diversity) == Photo
  {
  }

  // ---------------------------------------------------------------------------
  // Relevance and the decision
  // ---------------------------------------------------------------------------

  /** The weighted relevance: 30% size, 20% aspect, 30% colour diversity, 20% category bonus. */
  function Relevance(sizeScore: real, aspectScore: real, diversity: real, category: Category): real {
    0.30 * sizeScore + 0.20 * aspectScore + 0.30 * diversity + 0.20 * category.Bonus()
  }

  /** With a diversity in [0, 1] the relevance lies in [0, 1], and at least 0.02 from the bonus. */
  lemma RelevanceBounds(width: nat, height: nat, uniqueColors: nat, diversity: real)
    requires 0.0 <= diversity <= 1.0
    ensures var c := PredictCategory(width, height, uniqueColors, diversity);
      0.02 <= Relevance(SizeScore(width, height), AspectScore(width, height), diversity, c) <= 1.0
  {
  }

  /** Why an image is not sent to the vision model, in the order the checks run. */
  datatype SkipReason =
    | TooSmall(width: nat, height: nat)
    | SkippedCategory(category: Category)
    | LowRelevanceLogo(relevance: real)
    | LowRelevance(relevance: real)

  /** The decision: the first failing check gives the reason; none failing sends the image. */
  function Decide(width: nat, height: nat, category: Category, relevance: real): (r: Option<SkipReason>)
    ensures r.None? <==>
      && Max(width, height) >= MinDimensionVlm
      && category != Icon && category != Decorative
      && !(category == Logo && relevance < 0.4)
      && relevance >= MinRelevanceScore
  {
    if Max(width, height) < MinDimensionVlm then Some(TooSmall(width, height))
    else if category == Icon || category == Decorative then Some(SkippedCategory(category))
    else if category == Logo && relevance < 0.4 then Some(LowRelevanceLogo(relevance))
    else if relevance < MinRelevanceScore then Some(LowRelevance(relevance))
    else None
  }

  datatype ImageAnalysis = ImageAnalysis(
    width: nat, height: nat, aspectRatio: real, uniqueColors: nat, colorDiversity: real,
    sizeScore: real, aspectScore: real, overallRelevance: real, category: Category,
    shouldVlm: bool, skipReason: Option<SkipReason>)

  /** `analyze_image` given the decoded size and the colour measurements. */
  function AnalyzeImage(width: nat, height: nat, uniqueColors: nat, diversity: real): (a: ImageAnalysis)
    ensures a.shouldVlm <==> a.skipReason.None?
    ensures a.category == PredictCategory(width, height, uniqueColors, diversity)
  {
    var sizeScore := SizeScore(width, height);
    var aspectScore := AspectScore(width, height);
    var category := PredictCategory(width, height, uniqueColors, diversity);
    var relevance := Relevance(sizeScore, aspectScore, diversity, category);
    var reason := Decide(width, height, category, relevance);
    ImageAnalysis(width, height, CategoryRatio(width, height), uniqueColors, diversity,
                  sizeScore, aspectScore, relevance, category, reason.None?, reason)
  }

  /**
   * Nothing under 64 pixels on its longer side reaches the vision model: under 50 it is
   * too small, and from 50 to 63 it is an icon.
   */
  lemma SmallImagesSkipped(width: nat, height: nat, uniqueColors: nat, diversity: real)
    requires Max(width, height) < 64
    ensures var a := AnalyzeImage(width, height, uniqueColors, diversity);
      && !a.shouldVlm
      && (Max(width, height) < MinDimensionVlm ==> a.skipReason == Some(TooSmall(width, height)))
      && (Max(width, height) >= MinDimensionVlm ==> a.skipReason == Some(SkippedCategory(Icon)))
  {
  }

  /** A sent image has a relevance of at least 0.35 (0.4 for a logo) and is neither icon nor decoration. */
  lemma SentImagesRelevant(width: nat, height: nat, uniqueColors: nat, diversity: real)
    requires AnalyzeImage(width, height, uniqueColors, diversity).shouldVlm
    ensures var a := AnalyzeImage(width, height, uniqueColors, diversity);
      && a.overallRelevance >= MinRelevanceScore
      && (a.category == Logo ==> a.overallRelevance >= 0.4)
      && a.category != Icon && a.category != Decorative
      && Max(width, height) >= 64
  {
  }

  /** The message of the size check, the only reason shown with integers only. */
  function TooSmallMessage(width: nat, height: nat): string {
    "Too small: " + NatToDecimal(width) + "x" + NatToDecimal(height) + " < " + NatToDecimal(MinDimensionVlm) + "px"
  }

  // ---------------------------------------------------------------------------
  // resize_for_vlm
  // ---------------------------------------------------------------------------

  /**
   * Python's `int(a / b)` for an exact quotient and a positive divisor: truncation toward
   * zero, where Dafny's `/` rounds toward negative infinity.
   */
  function TruncDiv(a: int, b: int): int
    requires b > 0
  {
    if a >= 0 then a / b else -((-a) / b)
  }

  datatype Resize =
    | Skipped(originalWidth: nat, originalHeight: nat)
    | NotResized(width: nat, height: nat)
    | Resized(originalWidth: nat, originalHeight: nat, outputWidth: int, outputHeight: int, scale: real)
    | InvalidSize(outputWidth: int, outputHeight: int)   // Pillow's `resize` rejects a side below 1 (`ValueError`)
    | ZeroDivision   // `max_dimension / max_dim` with an empty image that passed both checks

  /** One side times `bound / longest`, truncated: `int(d * scale)` with the exact scale. */
  function ScaledSide(d: nat, bound: int, longest: nat): int
    requires longest > 0
  {
    TruncDiv(d * bound, longest)
  }

  /**
   * `(int(w * scale), int(h * scale))` with `scale = bound / longest`, then the resize,
   * which fails when a side came out below 1.
   */
  function ScaledDims(width: nat, height: nat, bound: int, longest: nat): Resize
    requires longest > 0
  {
    var w := ScaledSide(width, bound, longest);
    var h := ScaledSide(height, bound, longest);
    if w < 1 || h < 1 then InvalidSize(w, h)
    else Resized(width, height, w, h, bound as real / longest as real)
  }

  /** The dimension arithmetic of `resize_for_vlm` (the image I/O is left out). */
  function ResizeForVlm(width: nat, height: nat, maxDimension: int, skipBelow: int): (r: Resize)
    ensures Max(width, height) < skipBelow <==> r.Skipped?
    ensures r.NotResized? <==> skipBelow <= Max(width, height) <= maxDimension
    ensures r.NotResized? ==> r == NotResized(width, height)
    ensures r.ZeroDivision? ==> width == 0 && height == 0 && maxDimension < 0
  {
    var maxDim := Max(width, height);
    if maxDim < skipBelow then Skipped(width, height)
    else if maxDim <= maxDimension then NotResized(width, height)
    else if maxDim == 0 then ZeroDivision
    else ScaledDims(width, height, maxDimension, maxDim)
  }

  /**
   * A resize to a non-negative bound scales the longer side to exactly the bound and the
   * other side to at most the bound, never enlarging either.
   */
  lemma ResizeFits(width: nat, height: nat, maxDimension: int, skipBelow: int)
    requires maxDimension >= 0
    requires ResizeForVlm(width, height, maxDimension, skipBelow).Resized?
    ensures var r := ResizeForVlm(width, height, maxDimension, skipBelow);
      && 1 <= r.outputWidth <= width && 1 <= r.outputHeight <= height
      && Max(r.outputWidth, r.outputHeight) == maxDimension
  {
    var maxDim := Max(width, height);
    assert 0 <= maxDimension < maxDim;
    assert ResizeForVlm(width, height, maxDimension, skipBelow) == ScaledDims(width, height, maxDimension, maxDim);
    ScaledFits(width, height, maxDimension);
  }

  /**
   * With a positive bound below the longer side, the resize fails exactly when the
   * shorter side scales below one pixel: when it times the bound is less than the
   * longer side.
   */
  lemma ThinImageFails(width: nat, height: nat, maxDimension: int, skipBelow: int)
    requires 1 <= maxDimension < Max(width, height) && skipBelow <= Max(width, height)
    ensures var shorter := if width <= height then width else height;
      ResizeForVlm(width, height, maxDimension, skipBelow).InvalidSize? <==> shorter * maxDimension < Max(width, height)
  {
    var big := Max(width, height);
    var shorter := if width <= height then width else height;
    assert ResizeForVlm(width, height, maxDimension, skipBelow) == ScaledDims(width, height, maxDimension, big);
    ScaleSide(width, big, maxDimension);
    ScaleSide(height, big, maxDimension);
    ZeroQuotient(shorter * maxDimension, big);
    MulLe(0, shorter, maxDimension);
    if width <= height {
      assert ScaledSide(height, maxDimension, big) == maxDimension;
      assert ScaledSide(width, maxDimension, big) == (shorter * maxDimension) / big;
    } else {
      assert ScaledSide(width, maxDimension, big) == maxDimension;
      assert ScaledSide(height, maxDimension, big) == (shorter * maxDimension) / big;
    }
  }

  /** A 3000x1 image bound to 2048 gets height 0, which the resize rejects. */
  lemma ThinImageExample()
    ensures ResizeForVlm(3000, 1, VlmMaxDimension, MinDimensionVlm) == InvalidSize(2048, 0)
  {
    ThinImageFails(3000, 1, VlmMaxDimension, MinDimensionVlm);
    assert ScaledSide(3000, 2048, 3000) == 2048;
  }

  /** A non-negative quotient is 0 exactly when the dividend is below the divisor. */
  lemma ZeroQuotient(a: int, b: nat)
    requires a >= 0 && b > 0
    ensures a / b == 0 <==> a < b
  {
    var q := a / b;
    assert b * q + a % b == a;
    if q >= 1 {
      MulLe(1, q, b);
    }
  }

  lemma ScaledFits(width: nat, height: nat, m: int)
    requires 0 <= m < Max(width, height)
    ensures var r := ScaledDims(width, height, m, Max(width, height));
      && 0 <= r.outputWidth <= width && 0 <= r.outputHeight <= height
      && Max(r.outputWidth, r.outputHeight) == m
  {
    var big := Max(width, height);
    ScaleSide(width, big, m);
    ScaleSide(height, big, m);
    LongerSideIsBound(width, height, ScaledSide(width, m, big), ScaledSide(height, m, big), m);
  }

  /** The side that was the longest reaches the bound, the other stays at most the bound. */
  lemma LongerSideIsBound(width: nat, height: nat, w: int, h: int, m: int)
    requires w <= m && h <= m
    requires width == Max(width, height) ==> w == m
    requires height == Max(width, height) ==> h == m
    ensures Max(w, h) == m
  {
  }

  /** One side scaled by `bound / longest`: within the side and the bound, and exactly the bound for the longest side. */
  lemma ScaleSide(d: nat, big: nat, m: int)
    requires d <= big && 0 <= m < big
    ensures 0 <= ScaledSide(d, m, big) <= d && ScaledSide(d, m, big) <= m
    ensures d == big ==> ScaledSide(d, m, big) == m
  {
    var a := d * m;
    MulLe(0, d, m);
    MulLe(d, big, m);
    DivBetween(a, big, m);
    MulLe(m, big, d);
    assert a <= big * d;
    DivBetween(a, big, d);
    assert ScaledSide(d, m, big) == a / big;
    if d == big {
      DivExact(big, m);
    }
  }

  lemma MulLe(x: int, y: int, k: nat)
    requires x <= y
    ensures x * k <= y * k
  {
  }

  /** `0 <= a / b <= c` once `0 <= a <= b * c`. */
  lemma DivBetween(a: int, b: nat, c: int)
    requires b > 0 && 0 <= a <= b * c
    ensures 0 <= a / b <= c
  {
    var q := a / b;
    assert b * q + a % b == a;
    if q < 0 {
      MulLe(q, -1, b);
    }
    if q > c {
      MulLe(c + 1, q, b);
    }
  }

  lemma DivExact(b: nat, c: int)
    requires b > 0 && c >= 0
    ensures (b * c) / b == c
  {
    var q := (b * c) / b;
    assert b * q + (b * c) % b == b * c;
    DivBetween(b * c, b, c);
    if q < c {
      MulLe(q + 1, c, b);
    }
  }
}
