/** The dimension resolver of index.ts (`getDimensions`): an aspect-ratio token,
    a size preset and optional custom width/height give a pixel pair or an error. */
module DimensionResolver {
  import opened Wrappers
  import opened Rounding

  type Positive = n: nat | n > 0 witness 1

  /** A pixel pair. */
  datatype Dimensions = Dimensions(width: nat, height: nat)

  /** One entry of the fixed aspect-ratio table, as [ratioW, ratioH]. */
  datatype Ratio = Ratio(w: Positive, h: Positive)

  /** The three errors `getDimensions` throws. */
  datatype DimensionError =
    | MissingCustomDimensions
    | CustomDimensionsOutOfRange
    | InvalidAspectRatio(aspectRatio: string)

  const InvalidAspectRatioPrefix: string := "Invalid aspect ratio: "
  /** Both custom-size errors start with this phrase. */
  const WidthAndHeightMust: string := "Width and height must "

  /** The text of the error `getDimensions` throws. */
  function ErrorMessage(e: DimensionError): (m: string)
    ensures e.InvalidAspectRatio? <==> InvalidAspectRatioPrefix <= m
    ensures e.InvalidAspectRatio? ==> m[|InvalidAspectRatioPrefix|..] == e.aspectRatio
  {
    match e
    case MissingCustomDimensions =>
      var m := WidthAndHeightMust + "be provided when aspect_ratio is 'custom'";
      assert m[0] == 'W' != InvalidAspectRatioPrefix[0];
      m
    case CustomDimensionsOutOfRange =>
      var m := WidthAndHeightMust + "be between 512 and 2048 pixels";
      assert m[0] == 'W' != InvalidAspectRatioPrefix[0];
      m
    case InvalidAspectRatio(a) => InvalidAspectRatioPrefix + a
  }

  /** Each error has its own message, so the message tells which error was thrown
      and, for an unknown ratio, which token was given. */
  lemma ErrorMessageInjective(e1: DimensionError, e2: DimensionError)
    requires ErrorMessage(e1) == ErrorMessage(e2)
    ensures e1 == e2
  {
  }

  const Custom := "custom"
  const Small := "small"
  const Big := "big"
  /** Bounds on each custom side, inclusive. */
  const MinCustomSide := 512
  const MaxCustomSide := 2048
  /** "small" pins the shorter side, "big" the longer side. */
  const SmallShortSide := 512
  const BigLongSide := 2048
  /** Any other size aims at one megapixel. */
  const TargetPixels := 1048576

  const AspectRatios: map<string, Ratio> := map[
    "1:1" := Ratio(1, 1),
    "3:4" := Ratio(3, 4),
    "4:3" := Ratio(4, 3),
    "16:9" := Ratio(16, 9),
    "9:16" := Ratio(9, 16),
    "2:3" := Ratio(2, 3),
    "3:2" := Ratio(3, 2),
    "21:9" := Ratio(21, 9)
  ]

  function Min(a: int, b: int): int { if a <= b then a else b }
  function Max(a: int, b: int): int { if a <= b then b else a }

  /** JavaScript truthiness of an optional number: `undefined` and 0 are falsy. */
  predicate Truthy(v: Option<int>) {
    v.Some? && v.value != 0
  }

  /** A custom side that `getDimensions` accepts. */
  predicate CustomSideOk(v: Option<int>) {
    v.Some? && MinCustomSide <= v.value <= MaxCustomSide
  }

  /** "small": the shorter side is 512, the other the rounded 512 * long / short. */
  function SmallDimensions(r: Ratio): (d: Dimensions)
    ensures Min(d.width, d.height) == SmallShortSide
  {
    if r.w < r.h then
      RoundDivAtLeast(SmallShortSide * r.h, r.w, SmallShortSide);
      Dimensions(SmallShortSide, RoundDiv(SmallShortSide * r.h, r.w))
    else
      RoundDivAtLeast(SmallShortSide * r.w, r.h, SmallShortSide);
      Dimensions(RoundDiv(SmallShortSide * r.w, r.h), SmallShortSide)
  }

  /** "big": the longer side is 2048, the other the rounded 2048 * short / long. */
  function BigDimensions(r: Ratio): (d: Dimensions)
    ensures Max(d.width, d.height) == BigLongSide
  {
    if r.w > r.h then
      RoundDivAtMost(BigLongSide * r.h, r.w, BigLongSide);
      Dimensions(BigLongSide, RoundDiv(BigLongSide * r.h, r.w))
    else
      RoundDivAtMost(BigLongSide * r.w, r.h, BigLongSide);
      Dimensions(RoundDiv(BigLongSide * r.w, r.h), BigLongSide)
  }

  /** Any other size: width is the rounded square root of 1048576 * w / h,
      height the rounded width * h / w. */
  function RegularDimensions(r: Ratio): (d: Dimensions)
    ensures NearestSqrt(TargetPixels * r.w, r.h, d.width)
    ensures r.w * (2 * d.height - 1) <= 2 * (d.width * r.h) < r.w * (2 * d.height + 1)
  {
    var width := RoundSqrtDiv(TargetPixels * r.w, r.h);
    Dimensions(width, RoundDiv(width * r.h, r.w))
  }

  /** Models `getDimensions(aspectRatio, size, customWidth, customHeight)`. */
  function GetDimensions(aspectRatio: string, size: string, customWidth: Option<int>, customHeight: Option<int>)
    : (r: Result<Dimensions, DimensionError>)
    ensures r.Success? ==> r.value.width > 0 && r.value.height > 0
    ensures aspectRatio == Custom ==>
      (r.Success? <==> CustomSideOk(customWidth) && CustomSideOk(customHeight))
    ensures aspectRatio == Custom && r.Success? ==>
      r.value == Dimensions(customWidth.value, customHeight.value)
    ensures aspectRatio == Custom ==>
      (r == Failure(MissingCustomDimensions) <==> !Truthy(customWidth) || !Truthy(customHeight))
    ensures (aspectRatio == Custom && Truthy(customWidth) && Truthy(customHeight)
             && !(CustomSideOk(customWidth) && CustomSideOk(customHeight)))
      ==> r == Failure(CustomDimensionsOutOfRange)
    ensures aspectRatio != Custom ==>
      (r.Success? <==> aspectRatio in {"1:1", "3:4", "4:3", "16:9", "9:16", "2:3", "3:2", "21:9"})
    ensures aspectRatio != Custom && r.Failure? ==> r == Failure(InvalidAspectRatio(aspectRatio))
  {
    if aspectRatio == Custom then
      if !Truthy(customWidth) || !Truthy(customHeight) then
        Failure(MissingCustomDimensions)
      else if customWidth.value < MinCustomSide || customWidth.value > MaxCustomSide
           || customHeight.value < MinCustomSide || customHeight.value > MaxCustomSide then
        Failure(CustomDimensionsOutOfRange)
      else
        Success(Dimensions(customWidth.value, customHeight.value))
    else if aspectRatio !in AspectRatios then
      Failure(InvalidAspectRatio(aspectRatio))
    else
      var ratio := AspectRatios[aspectRatio];
      if size == Small then
        Success(SmallDimensions(ratio))
      else if size == Big then
        BigPositive(ratio);
        Success(BigDimensions(ratio))
      else
        RegularTable();
        Success(RegularDimensions(ratio))
  }

  /** On the table's ratios (never more than 2048 : 1) the short side of "big" is positive. */
  lemma BigPositive(r: Ratio)
    requires r.w <= BigLongSide * r.h && r.h <= BigLongSide * r.w
    ensures BigDimensions(r).width > 0 && BigDimensions(r).height > 0
  {
    if r.w > r.h {
      RoundDivAtLeast(BigLongSide * r.h, r.w, 1);
    } else {
      RoundDivAtLeast(BigLongSide * r.w, r.h, 1);
    }
  }

  /** The one-megapixel size of a ratio is the pair that meets both roundings' brackets. */
  lemma RegularIs(r: Ratio, width: nat, height: nat)
    requires NearestSqrt(TargetPixels * r.w, r.h, width)
    requires r.w * (2 * height - 1) <= 2 * (width * r.h) < r.w * (2 * height + 1)
    ensures RegularDimensions(r) == Dimensions(width, height)
  {
    NearestSqrtUnique(TargetPixels * r.w, r.h, width);
    RoundDivUnique(width * r.h, r.w, height);
  }

  /** The one-megapixel size of each of the eight ratios. */
  lemma RegularTable()
    ensures RegularDimensions(Ratio(1, 1)) == Dimensions(1024, 1024)
    ensures RegularDimensions(Ratio(3, 4)) == Dimensions(887, 1183)
    ensures RegularDimensions(Ratio(4, 3)) == Dimensions(1182, 887)
    ensures RegularDimensions(Ratio(16, 9)) == Dimensions(1365, 768)
    ensures RegularDimensions(Ratio(9, 16)) == Dimensions(768, 1365)
    ensures RegularDimensions(Ratio(2, 3)) == Dimensions(836, 1254)
    ensures RegularDimensions(Ratio(3, 2)) == Dimensions(1254, 836)
    ensures RegularDimensions(Ratio(21, 9)) == Dimensions(1564, 670)
  {
    RegularIs(Ratio(1, 1), 1024, 1024);
    RegularIs(Ratio(3, 4), 887, 1183);
    RegularIs(Ratio(4, 3), 1182, 887);
    RegularIs(Ratio(16, 9), 1365, 768);
    RegularIs(Ratio(9, 16), 768, 1365);
    RegularIs(Ratio(2, 3), 836, 1254);
    RegularIs(Ratio(3, 2), 1254, 836);
    RegularIs(Ratio(21, 9), 1564, 670);
  }

  /** "custom" returns exactly the given pair when both sides are in range,
      whatever the size preset says. */
  lemma CustomIsExact(size: string, customWidth: Option<int>, customHeight: Option<int>)
    requires CustomSideOk(customWidth) && CustomSideOk(customHeight)
    ensures GetDimensions(Custom, size, customWidth, customHeight)
         == Success(Dimensions(customWidth.value, customHeight.value))
  {
  }

  /** "small": the short side is 512 and the long side is 512 * long / short rounded. */
  lemma SmallPinsShortSide(aspectRatio: string, customWidth: Option<int>, customHeight: Option<int>)
    requires aspectRatio in AspectRatios
    ensures var r := GetDimensions(aspectRatio, Small, customWidth, customHeight);
      var ratio := AspectRatios[aspectRatio];
      r.Success? && Min(r.value.width, r.value.height) == SmallShortSide
      && (ratio.w < ratio.h ==> (r.value.width == SmallShortSide
            && ratio.w * (2 * r.value.height - 1) <= 2 * (SmallShortSide * ratio.h) < ratio.w * (2 * r.value.height + 1)))
      && (ratio.w >= ratio.h ==> (r.value.height == SmallShortSide
            && ratio.h * (2 * r.value.width - 1) <= 2 * (SmallShortSide * ratio.w) < ratio.h * (2 * r.value.width + 1)))
  {
  }

  /** "big": the long side is 2048 and the short side is 2048 * short / long rounded. */
  lemma BigPinsLongSide(aspectRatio: string, customWidth: Option<int>, customHeight: Option<int>)
    requires aspectRatio in AspectRatios
    ensures var r := GetDimensions(aspectRatio, Big, customWidth, customHeight);
      var ratio := AspectRatios[aspectRatio];
      r.Success? && Max(r.value.width, r.value.height) == BigLongSide
      && (ratio.w > ratio.h ==> (r.value.width == BigLongSide
            && ratio.w * (2 * r.value.height - 1) <= 2 * (BigLongSide * ratio.h) < ratio.w * (2 * r.value.height + 1)))
      && (ratio.w <= ratio.h ==> (r.value.height == BigLongSide
            && ratio.h * (2 * r.value.width - 1) <= 2 * (BigLongSide * ratio.w) < ratio.h * (2 * r.value.width + 1)))
  {
  }

  /** The dispatch on the size preset for a known ratio. */
  lemma RegularBranch(aspectRatio: string, size: string, customWidth: Option<int>, customHeight: Option<int>)
    requires aspectRatio in AspectRatios && size != Small && size != Big
    ensures GetDimensions(aspectRatio, size, customWidth, customHeight)
         == Success(RegularDimensions(AspectRatios[aspectRatio]))
  {
  }

  /** Every size other than "small" and "big", unknown strings included, aims at
      one megapixel: the width is the integer nearest to sqrt(1048576 * w / h)
      and the height the integer nearest to width * h / w. */
  lemma OtherSizesAreRegular(aspectRatio: string, size: string, customWidth: Option<int>, customHeight: Option<int>)
    requires aspectRatio in AspectRatios && size != Small && size != Big
    ensures var r := GetDimensions(aspectRatio, size, customWidth, customHeight);
      var ratio := AspectRatios[aspectRatio];
      r.Success?
      && NearestSqrt(TargetPixels * ratio.w, ratio.h, r.value.width)
      && ratio.w * (2 * r.value.height - 1) <= 2 * (r.value.width * ratio.h) < ratio.w * (2 * r.value.height + 1)
      && r == GetDimensions(aspectRatio, "regular", customWidth, customHeight)
  {
    RegularBranch(aspectRatio, size, customWidth, customHeight);
    RegularBranch(aspectRatio, "regular", customWidth, customHeight);
  }

  /** The one-megapixel preset misses the target area by less than one pixel
      per side: (w - 1)(h - 1) <= 1048576 <= (w + 1)(h + 1). */
  lemma RegularAreaNearTarget(aspectRatio: string, size: string, customWidth: Option<int>, customHeight: Option<int>)
    requires aspectRatio in AspectRatios && size != Small && size != Big
    ensures var r := GetDimensions(aspectRatio, size, customWidth, customHeight);
      r.Success?
      && (r.value.width - 1) * (r.value.height - 1) <= TargetPixels <= (r.value.width + 1) * (r.value.height + 1)
  {
    RegularBranch(aspectRatio, size, customWidth, customHeight);
    TableRatio(aspectRatio);
    RegularOfTableRatio(AspectRatios[aspectRatio]);
    RegularSizeArea(RegularDimensions(AspectRatios[aspectRatio]));
  }

  /** The eight one-megapixel results, as listed by RegularTable. */
  const RegularSizes: set<Dimensions> := {
    Dimensions(1024, 1024), Dimensions(887, 1183), Dimensions(1182, 887), Dimensions(1365, 768),
    Dimensions(768, 1365), Dimensions(836, 1254), Dimensions(1254, 836), Dimensions(1564, 670)
  }

  lemma TableRatio(aspectRatio: string)
    requires aspectRatio in AspectRatios
    ensures AspectRatios[aspectRatio] in {Ratio(1, 1), Ratio(3, 4), Ratio(4, 3), Ratio(16, 9),
                                          Ratio(9, 16), Ratio(2, 3), Ratio(3, 2), Ratio(21, 9)}
  {
  }

  lemma RegularOfTableRatio(ratio: Ratio)
    requires ratio in {Ratio(1, 1), Ratio(3, 4), Ratio(4, 3), Ratio(16, 9),
                       Ratio(9, 16), Ratio(2, 3), Ratio(3, 2), Ratio(21, 9)}
    ensures RegularDimensions(ratio) in RegularSizes
  {
    RegularTable();
  }

  lemma RegularSizeArea(d: Dimensions)
    requires d in RegularSizes
    ensures (d.width - 1) * (d.height - 1) <= TargetPixels <= (d.width + 1) * (d.height + 1)
  {
  }

  /** Whatever the preset, the resolved pair keeps the requested ratio up to the
      rounding of the derived side: |width * h - height * w| <= max(w, h) / 2. */
  lemma AspectRatioKept(aspectRatio: string, size: string, customWidth: Option<int>, customHeight: Option<int>)
    requires aspectRatio in AspectRatios
    ensures var r := GetDimensions(aspectRatio, size, customWidth, customHeight);
      var ratio := AspectRatios[aspectRatio];
      r.Success?
      && -Max(ratio.w, ratio.h) <= 2 * (r.value.width * ratio.h - r.value.height * ratio.w) <= Max(ratio.w, ratio.h)
  {
    var ratio := AspectRatios[aspectRatio];
    if size == Small {
      SmallPinsShortSide(aspectRatio, customWidth, customHeight);
      RatioKeptBy(ratio, SmallDimensions(ratio));
    } else if size == Big {
      BigPinsLongSide(aspectRatio, customWidth, customHeight);
      RatioKeptBy(ratio, BigDimensions(ratio));
    } else {
      RegularBranch(aspectRatio, size, customWidth, customHeight);
      RatioKeptBy(ratio, RegularDimensions(ratio));
    }
  }

  /** Each preset's result for a ratio keeps that ratio up to half a pixel scaled. */
  lemma RatioKeptBy(ratio: Ratio, d: Dimensions)
    requires d in {SmallDimensions(ratio), BigDimensions(ratio), RegularDimensions(ratio)}
    ensures -Max(ratio.w, ratio.h) <= 2 * (d.width * ratio.h - d.height * ratio.w) <= Max(ratio.w, ratio.h)
  {
    if d == SmallDimensions(ratio) {
      if ratio.w < ratio.h {
        BracketDistance(ratio.w, SmallShortSide * ratio.h, d.height);
      } else {
        BracketDistance(ratio.h, SmallShortSide * ratio.w, d.width);
      }
    } else if d == BigDimensions(ratio) {
      if ratio.w > ratio.h {
        BracketDistance(ratio.w, BigLongSide * ratio.h, d.height);
      } else {
        BracketDistance(ratio.h, BigLongSide * ratio.w, d.width);
      }
    } else {
      BracketDistance(ratio.w, d.width * ratio.h, d.height);
    }
  }

  /** A rounded quotient r of x / b is within half of b: |2x - 2br| <= b. */
  lemma BracketDistance(b: int, x: int, r: int)
    requires b * (2 * r - 1) <= 2 * x < b * (2 * r + 1)
    ensures -b <= 2 * x - 2 * (r * b) <= b
  {
    assert b * (2 * r - 1) == 2 * (r * b) - b;
    assert b * (2 * r + 1) == 2 * (r * b) + b;
  }

  /** Worked cases of the one-megapixel preset: the square and the default widescreen. */
  lemma RegularExamples()
    ensures GetDimensions("1:1", "regular", None, None) == Success(Dimensions(1024, 1024))
    ensures GetDimensions("16:9", "regular", None, None) == Success(Dimensions(1365, 768))
  {
    RegularBranch("1:1", "regular", None, None);
    RegularBranch("16:9", "regular", None, None);
    assert AspectRatios["1:1"] == Ratio(1, 1) && AspectRatios["16:9"] == Ratio(16, 9);
    RegularIs(Ratio(1, 1), 1024, 1024);
    RegularIs(Ratio(16, 9), 1365, 768);
  }

  /** Worked cases of "small" and "custom": a small widescreen, a small square,
      an over-tall custom pair and a zero custom width. */
  lemma SmallAndCustomExamples()
    ensures GetDimensions("16:9", Small, None, None) == Success(Dimensions(910, 512))
    ensures GetDimensions("1:1", Small, None, None) == Success(Dimensions(512, 512))
    ensures GetDimensions(Custom, Big, Some(600), Some(3000)) == Failure(CustomDimensionsOutOfRange)
    ensures GetDimensions(Custom, Small, Some(0), Some(600)) == Failure(MissingCustomDimensions)
  {
  }
}
