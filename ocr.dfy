/**
 * The subtitle region analyser of `ocr.py`: the colour-distance test, the
 * scroll-bar aware crop of a captured frame, and the name of the debug image
 * written beside each recognised text.
 */
module Ocr {

  import opened Wrappers

  /** An RGB pixel value, as `getpixel` returns it for an RGB frame. */
  type Colour = (int, int, int)

  /** The progress-bar colours the scan looks for: the red played part and two greys of the track. */
  const ScrollbarColours: seq<Colour> := [(234, 51, 35), (212, 212, 212), (128, 128, 128)]

  /** The radius within which a pixel counts as a progress-bar colour. */
  const ScrollbarRadius: int := 10

  // ---------------------------------------------------------------------------
  // Colour distance
  // ---------------------------------------------------------------------------

  function SquaredDistance(a: Colour, b: Colour): int {
    (a.0 - b.0) * (a.0 - b.0) + (a.1 - b.1) * (a.1 - b.1) + (a.2 - b.2) * (a.2 - b.2)
  }

  /** `colour_close`: the squared Euclidean RGB distance is at most the squared radius. */
  predicate ColourClose(a: Colour, b: Colour, radius: int) {
    SquaredDistance(a, b) <= radius * radius
  }

  function Abs(n: int): nat {
    if n < 0 then -n else n
  }

  lemma SquareOfAbs(n: int)
    ensures n * n == Abs(n) * Abs(n)
  {
  }

  /** Squaring is strictly monotone on naturals. */
  lemma SquareStrictlyMonotone(m: nat, n: nat)
    requires m < n
    ensures m * m < n * n
  {
    assert m * m <= m * n;
    assert m * n < n * n;
  }

  lemma SquareMonotone(m: nat, n: nat)
    requires m <= n
    ensures m * m <= n * n
  {
    if m < n { SquareStrictlyMonotone(m, n); }
  }

  /** The test does not depend on the order of the two colours. */
  lemma ColourCloseSymmetric(a: Colour, b: Colour, radius: int)
    ensures ColourClose(a, b, radius) == ColourClose(b, a, radius)
  {
  }

  /** Every colour is close to itself, whatever the radius (a negative radius squares to a positive one). */
  lemma ColourCloseReflexive(a: Colour, radius: int)
    ensures ColourClose(a, a, radius)
  {
    SquareOfAbs(radius);
  }

  /** A close pair differs by at most the radius in each channel. */
  lemma ColourCloseChannelBound(a: Colour, b: Colour, radius: int)
    requires ColourClose(a, b, radius)
    ensures Abs(a.0 - b.0) <= Abs(radius)
    ensures Abs(a.1 - b.1) <= Abs(radius)
    ensures Abs(a.2 - b.2) <= Abs(radius)
  {
    SquareOfAbs(radius);
    SquareOfAbs(a.0 - b.0);
    SquareOfAbs(a.1 - b.1);
    SquareOfAbs(a.2 - b.2);
    assert 0 <= (a.1 - b.1) * (a.1 - b.1) && 0 <= (a.2 - b.2) * (a.2 - b.2);
    assert 0 <= (a.0 - b.0) * (a.0 - b.0);
    if Abs(radius) < Abs(a.0 - b.0) { SquareStrictlyMonotone(Abs(radius), Abs(a.0 - b.0)); }
    if Abs(radius) < Abs(a.1 - b.1) { SquareStrictlyMonotone(Abs(radius), Abs(a.1 - b.1)); }
    if Abs(radius) < Abs(a.2 - b.2) { SquareStrictlyMonotone(Abs(radius), Abs(a.2 - b.2)); }
  }

  lemma QuarterSquare(d: nat, r: nat)
    requires 2 * d <= r
    ensures 4 * (d * d) <= r * r
  {
    SquareMonotone(2 * d, r);
    assert (2 * d) * (2 * d) == 4 * (d * d);
  }

  /** Conversely, a pair that differs by at most half the radius in every channel is close. */
  lemma ColourCloseWithinHalfRadius(a: Colour, b: Colour, radius: int)
    requires 2 * Abs(a.0 - b.0) <= Abs(radius)
    requires 2 * Abs(a.1 - b.1) <= Abs(radius)
    requires 2 * Abs(a.2 - b.2) <= Abs(radius)
    ensures ColourClose(a, b, radius)
  {
    var r := Abs(radius);
    QuarterSquare(Abs(a.0 - b.0), r);
    QuarterSquare(Abs(a.1 - b.1), r);
    QuarterSquare(Abs(a.2 - b.2), r);
    SquareOfAbs(radius);
    SquareOfAbs(a.0 - b.0);
    SquareOfAbs(a.1 - b.1);
    SquareOfAbs(a.2 - b.2);
    var s0, s1, s2 := (a.0 - b.0) * (a.0 - b.0), (a.1 - b.1) * (a.1 - b.1), (a.2 - b.2) * (a.2 - b.2);
    var big := radius * radius;
    assert 4 * s0 <= big && 4 * s1 <= big && 4 * s2 <= big;
    assert SquaredDistance(a, b) == s0 + s1 + s2;
  }

  /** Widening the radius keeps a close pair close. */
  lemma ColourCloseMonotone(a: Colour, b: Colour, radius: int, wider: int)
    requires ColourClose(a, b, radius)
    requires Abs(radius) <= Abs(wider)
    ensures ColourClose(a, b, wider)
  {
    SquareOfAbs(radius);
    SquareOfAbs(wider);
    SquareMonotone(Abs(radius), Abs(wider));
  }

  /** Whether `c` is close to some colour of `palette`, trying the palette in order. */
  function AnyClose(c: Colour, palette: seq<Colour>, radius: int): (r: bool)
    ensures r <==> exists k :: 0 <= k < |palette| && ColourClose(c, palette[k], radius)
  {
    if palette == [] then false
    else if ColourClose(c, palette[0], radius) then true
    else
      var rest := AnyClose(c, palette[1..], radius);
      assert forall k :: 1 <= k < |palette| ==> palette[k] == palette[1..][k - 1];
      rest
  }

  predicate IsScrollbarColour(c: Colour) {
    AnyClose(c, ScrollbarColours, ScrollbarRadius)
  }

  /** The palette colours lie so far apart that a pixel matches at most one of them. */
  lemma ScrollbarMatchUnambiguous(c: Colour, i: nat, j: nat)
    requires i < |ScrollbarColours| && j < |ScrollbarColours|
    requires ColourClose(c, ScrollbarColours[i], ScrollbarRadius)
    requires ColourClose(c, ScrollbarColours[j], ScrollbarRadius)
    ensures i == j
  {
    ColourCloseChannelBound(c, ScrollbarColours[i], ScrollbarRadius);
    ColourCloseChannelBound(c, ScrollbarColours[j], ScrollbarRadius);
  }

  // ---------------------------------------------------------------------------
  // Frames and cropping
  // ---------------------------------------------------------------------------

  /** A frame: `height` rows of `width` pixels, row `y` holding the pixels `(x, y)`. */
  datatype Image = Image(width: nat, height: nat, pixels: seq<seq<Colour>>) {
    predicate WellFormed() {
      |pixels| == height && forall y :: 0 <= y < height ==> |pixels[y]| == width
    }
  }

  /** The two ways a crop box can be reversed; Pillow rejects both. */
  datatype CropError = RightBeforeLeft | LowerBeforeUpper

  datatype CropResult = Cropped(image: Image) | Invalid(error: CropError)

  /**
   * `image.crop((left, upper, right, lower))`: the sub-frame of the columns
   * `left .. right - 1` and the rows `upper .. lower - 1`. A box that leaves the
   * frame is excluded (Pillow would pad it); a reversed box is an error.
   */
  function Crop(img: Image, left: int, upper: int, right: int, lower: int): (r: CropResult)
    requires img.WellFormed()
    requires 0 <= left && 0 <= upper && right <= img.width && lower <= img.height
    ensures right < left ==> r == Invalid(RightBeforeLeft)
    ensures left <= right && lower < upper ==> r == Invalid(LowerBeforeUpper)
    ensures left <= right && upper <= lower ==>
      && r.Cropped?
      && r.image.WellFormed()
      && r.image.width == right - left
      && r.image.height == lower - upper
      && forall y, x :: 0 <= y < lower - upper && 0 <= x < right - left ==>
           r.image.pixels[y][x] == img.pixels[upper + y][left + x]
  {
    if right < left then Invalid(RightBeforeLeft)
    else if lower < upper then Invalid(LowerBeforeUpper)
    else
      Cropped(Image(right - left, lower - upper,
        seq(lower - upper, y requires 0 <= y < lower - upper => img.pixels[upper + y][left..right])))
  }

  /** The fixed subtitle window `(500, 1300, 2880 - 500, 1800 - 150)` of a 2880x1800 screen. */
  const WindowLeft: int := 500
  const WindowUpper: int := 1300
  const WindowRight: int := 2880 - 500
  const WindowLower: int := 1800 - 150

  /** The frame contains the whole subtitle window. */
  predicate CoversWindow(img: Image) {
    img.WellFormed() && WindowRight <= img.width && WindowLower <= img.height
  }

  /** The first crop of `smart_crop`: a 1880x350 frame taken at (500, 1300). */
  function Window(img: Image): (w: Image)
    requires CoversWindow(img)
    ensures w.WellFormed() && w.width == 1880 && w.height == 350
    ensures forall y, x :: 0 <= y < 350 && 0 <= x < 1880 ==>
      w.pixels[y][x] == img.pixels[1300 + y][500 + x]
  {
    Crop(img, WindowLeft, WindowUpper, WindowRight, WindowLower).image
  }

  /**
   * The first row at or below `from` whose pixel in column `x` has a
   * progress-bar colour, scanning top-down.
   */
  function ScanColumn(img: Image, x: nat, from: nat): (r: Option<nat>)
    requires img.WellFormed() && x < img.width
    ensures r.Some? ==>
      && from <= r.value < img.height
      && IsScrollbarColour(img.pixels[r.value][x])
      && forall y :: from <= y < r.value ==> !IsScrollbarColour(img.pixels[y][x])
    ensures r.None? ==> forall y :: from <= y < img.height ==> !IsScrollbarColour(img.pixels[y][x])
    decreases img.height - from
  {
    if img.height <= from then None
    else if IsScrollbarColour(img.pixels[from][x]) then Some(from)
    else ScanColumn(img, x, from + 1)
  }

  /** Two frames of one height that agree on column `x` give the same scan. */
  lemma {:induction false} ScanColumnReadsOnlyColumn(a: Image, b: Image, x: nat, from: nat)
    requires a.WellFormed() && b.WellFormed() && x < a.width && x < b.width && a.height == b.height
    requires forall y :: from <= y < a.height ==> a.pixels[y][x] == b.pixels[y][x]
    ensures ScanColumn(a, x, from) == ScanColumn(b, x, from)
    decreases a.height - from
  {
    if from < a.height {
      ScanColumnReadsOnlyColumn(a, b, x, from + 1);
    }
  }

  /**
   * `smart_crop`: crop to the subtitle window, scan its middle column top-down
   * for a progress-bar colour, and on the first match at row `y` cut the window
   * to `(0, 0, width - 1, y - 1)`; without a match return the window.
   */
  method SmartCrop(image: Image) returns (r: CropResult)
    requires CoversWindow(image)
    ensures var w := Window(image); var found := ScanColumn(w, w.width / 2, 0);
      && (found.None? ==> r == Cropped(w))
      && (found == Some(0) ==> r == Invalid(LowerBeforeUpper))
      && (found.Some? && 0 < found.value ==>
            && r == Crop(w, 0, 0, w.width - 1, found.value - 1)
            && r.Cropped?
            && r.image.width == w.width - 1
            && r.image.height == found.value - 1)
  {
    var w := Crop(image, WindowLeft, WindowUpper, WindowRight, WindowLower).image;
    var x := w.width / 2;
    for y := 0 to w.height
      invariant ScanColumn(w, x, 0) == ScanColumn(w, x, y)
    {
      var colour := w.pixels[y][x];
      if AnyClose(colour, ScrollbarColours, ScrollbarRadius) {
        return Crop(w, 0, 0, w.width - 1, y - 1);
      }
    }
    return Cropped(w);
  }

  /**
   * Whether and where `smart_crop` cuts depends only on screen column
   * 500 + 1880 / 2 = 1440, rows 1300 .. 1649.
   */
  lemma MiddleColumnDecides(a: Image, b: Image)
    requires CoversWindow(a) && CoversWindow(b)
    requires forall y :: 1300 <= y < 1650 ==> a.pixels[y][1440] == b.pixels[y][1440]
    ensures ScanColumn(Window(a), 940, 0) == ScanColumn(Window(b), 940, 0)
  {
    var wa, wb := Window(a), Window(b);
    forall y | 0 <= y < 350
      ensures wa.pixels[y][940] == wb.pixels[y][940]
    {
      assert a.pixels[1300 + y][1440] == b.pixels[1300 + y][1440];
    }
    ScanColumnReadsOnlyColumn(wa, wb, 940, 0);
  }

  // ---------------------------------------------------------------------------
  // Debug image path
  // ---------------------------------------------------------------------------

  /** `s.replace(c, sub)` for single characters: every `c` becomes `sub`. */
  function ReplaceChar(s: string, c: char, sub: char): (r: string)
    ensures |r| == |s|
    ensures forall i :: 0 <= i < |s| ==> r[i] == if s[i] == c then sub else s[i]
  {
    if s == [] then []
    else [if s[0] == c then sub else s[0]] + ReplaceChar(s[1..], c, sub)
  }

  /** The path `get_text` saves the cropped frame under: the text with `.` and `/` made `_`. */
  function DebugPath(text: string): (p: string)
    ensures |p| == |text| + 7
    ensures p[..3] == "ss/" && p[|text| + 3..] == ".png"
    ensures forall i :: 0 <= i < |text| ==>
      p[3 + i] == if text[i] == '.' || text[i] == '/' then '_' else text[i]
    ensures forall i :: 3 <= i < |text| + 3 ==> p[i] != '.' && p[i] != '/'
  {
    "ss/" + ReplaceChar(ReplaceChar(text, '.', '_'), '/', '_') + ".png"
  }
}
