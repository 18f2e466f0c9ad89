// The screen-difference script: the share of RGB channel values in which a
// fresh capture differs from a reference image, printed as a truncated
// whole percentage. Opening the reference, grabbing the screen and resizing
// belong to the imaging library and are parameters; an image is a
// row-major sequence of pixels. The script's arithmetic is double
// precision; here it is exact (real numbers).
module ScreenshotDiff {
  import opened Common

  /** One pixel after `convert('RGB')`: three channel values. */
  datatype Pixel = Pixel(r: int, g: int, b: int)

  /** An image of `height` rows of `width` pixels. */
  datatype Image = Image(width: nat, height: nat, pixels: seq<Pixel>)

  /** The pixel array has the shape the size promises. */
  predicate WellFormed(img: Image)
  {
    |img.pixels| == img.width * img.height
  }

  /** What the script prints and the status it exits with. */
  datatype Output = Output(printed: string, exitCode: int)

  /** Printed, with exit status 1, on a missing argument and on any exception. */
  const FailureOutput := Output("0", 1)

  /** The number of channel values (out of three) in which two pixels agree. */
  function PixelMatches(p: Pixel, q: Pixel): (n: nat)
    ensures n <= 3
    ensures n == 3 <==> p == q
  {
    (if p.r == q.r then 1 else 0) + (if p.g == q.g then 1 else 0) + (if p.b == q.b then 1 else 0)
  }

  /** `np.sum(ref_array == current_array)` over arrays of the same shape. */
  function EqualChannels(a: seq<Pixel>, b: seq<Pixel>): (n: nat)
    requires |a| == |b|
    ensures n <= 3 * |a|
  {
    if a == [] then 0 else PixelMatches(a[0], b[0]) + EqualChannels(a[1..], b[1..])
  }

  /** Every channel of an image agrees with itself. */
  lemma {:induction false} EqualChannelsSelf(a: seq<Pixel>)
    ensures EqualChannels(a, a) == 3 * |a|
  {
    if a != [] {
      EqualChannelsSelf(a[1..]);
    }
  }

  /** Two pixel sequences that differ in every channel share no channel value. */
  lemma {:induction false} EqualChannelsNone(a: seq<Pixel>, b: seq<Pixel>)
    requires |a| == |b|
    requires forall i :: 0 <= i < |a| ==> a[i].r != b[i].r && a[i].g != b[i].g && a[i].b != b[i].b
    ensures EqualChannels(a, b) == 0
  {
    if a != [] {
      EqualChannelsNone(a[1..], b[1..]);
    }
  }

  /** Python's `int()` on a float: truncation toward zero. */
  function Truncate(x: real): (t: int)
    ensures x >= 0.0 ==> t == x.Floor
    ensures x < 0.0 ==> t == -((-x).Floor)
  {
    if x >= 0.0 then x.Floor else -((-x).Floor)
  }

  /** `100 - ((matches / total_pixels) * 100)` with `matches = equal / 3`, in exact arithmetic. */
  function PercentDifferent(equal: nat, total: nat): (p: real)
    requires total > 0
  {
    100.0 - (((equal as real / 3.0) / total as real) * 100.0)
  }

  /** The floor of a quotient of naturals is their integer quotient. */
  lemma FloorOfQuotient(a: int, b: int)
    requires a >= 0 && b > 0
    ensures (a as real / b as real).Floor == a / b
  {
    var q, m := a / b, a % b;
    assert a == q * b + m && 0 <= m < b;
    assert (a as real) == (q as real) * (b as real) + m as real;
    assert a as real / b as real == q as real + m as real / b as real;
    assert 0.0 <= m as real / b as real < 1.0;
  }

  /** The script's expression for the difference share, as one fraction. */
  lemma ShareAsFraction(e: real, t: real)
    requires t > 0.0
    ensures 100.0 - (((e / 3.0) / t) * 100.0) == (300.0 * t - 100.0 * e) / (3.0 * t)
  {
    var d := 3.0 * t;
    assert (e / 3.0) / t == e / d;
    assert (e / d) * 100.0 == (100.0 * e) / d;
    assert (300.0 * t) / d == 100.0;
    assert (300.0 * t - 100.0 * e) / d == (300.0 * t) / d - (100.0 * e) / d;
  }

  /**
   * The printed percentage is `(300·total − 100·equal) div (3·total)`:
   * the truncation of the difference share, computed on integers.
   */
  lemma PrintedPercent(equal: nat, total: nat)
    requires total > 0 && equal <= 3 * total
    ensures Truncate(PercentDifferent(equal, total)) == (300 * total - 100 * equal) / (3 * total)
    ensures 0 <= Truncate(PercentDifferent(equal, total)) <= 100
  {
    var num, den := 300 * total - 100 * equal, 3 * total;
    ShareAsFraction(equal as real, total as real);
    assert num as real == 300.0 * (total as real) - 100.0 * (equal as real);
    assert den as real == 3.0 * (total as real);
    FloorOfQuotient(num, den);
    assert num <= 100 * den;
    assert num / den <= 100;
  }

  /**
   * `get_screenshot_diff` after the image is opened and the screen is
   * grabbed. `None` is an exception: a failed open or grab, arrays whose
   * shapes do not agree, or an image without pixels (the division gives
   * NaN, which `int()` refuses).
   */
  function Diff(reference: Option<Image>, capture: Option<Image>, resize: (Image, nat, nat) -> Image): (r: Option<int>)
    ensures r.Some? ==> 0 <= r.value <= 100
    ensures r.Some? ==> reference.Some? && capture.Some? && reference.value.width * reference.value.height > 0
  {
    if reference.None? || capture.None? then None
    else
      var ref := reference.value;
      var current :=
        if (capture.value.width, capture.value.height) != (ref.width, ref.height)
        then resize(capture.value, ref.width, ref.height)
        else capture.value;
      var total := ref.height * ref.width;
      if !WellFormed(ref) || |current.pixels| != |ref.pixels| || total == 0 then None
      else
        var equal := EqualChannels(ref.pixels, current.pixels);
        PrintedPercent(equal, total);
        Some(Truncate(PercentDifferent(equal, total)))
  }

  /**
   * The script: `argv[1]` names the reference image. A missing argument or
   * any exception prints "0" and exits with status 1; otherwise the
   * percentage is printed and the script exits normally.
   */
  function Script(argv: seq<string>, open: string -> Option<Image>, capture: Option<Image>,
                resize: (Image, nat, nat) -> Image): (o: Output)
    ensures |argv| < 2 ==> o == FailureOutput
    ensures o.exitCode == 0 || o == FailureOutput
    ensures o.exitCode == 0 <==> |argv| >= 2 && Diff(open(argv[1]), capture, resize).Some?
    ensures o.exitCode == 0 ==> o.printed == IntToString(Diff(open(argv[1]), capture, resize).value)
  {
    if |argv| < 2 then FailureOutput
    else
      match Diff(open(argv[1]), capture, resize)
      case None => FailureOutput
      case Some(percent) => Output(IntToString(percent), 0)
  }

  /**
   * A capture of another size is compared after it is resized to the
   * reference's size: the result is the one the resized capture gets.
   */
  lemma ComparesResizedCapture(ref: Image, capture: Image, resize: (Image, nat, nat) -> Image)
    requires (capture.width, capture.height) != (ref.width, ref.height)
    requires resize(capture, ref.width, ref.height).width == ref.width
    requires resize(capture, ref.width, ref.height).height == ref.height
    ensures Diff(Some(ref), Some(capture), resize) == Diff(Some(ref), Some(resize(capture, ref.width, ref.height)), resize)
  {
  }

  /** A screen identical to the reference differs in 0 percent of its pixels. */
  lemma IdenticalImagesDifferByZero(img: Image, resize: (Image, nat, nat) -> Image)
    requires WellFormed(img) && img.width * img.height > 0
    ensures Diff(Some(img), Some(img), resize) == Some(0)
  {
    EqualChannelsSelf(img.pixels);
    PrintedPercent(3 * |img.pixels|, img.height * img.width);
  }

  /** A screen that differs from the reference in every channel differs in 100 percent. */
  lemma DisjointImagesDifferByHundred(ref: Image, current: Image, resize: (Image, nat, nat) -> Image)
    requires WellFormed(ref) && ref.width * ref.height > 0
    requires current.width == ref.width && current.height == ref.height && |current.pixels| == |ref.pixels|
    requires forall i :: 0 <= i < |ref.pixels| ==>
               ref.pixels[i].r != current.pixels[i].r && ref.pixels[i].g != current.pixels[i].g
               && ref.pixels[i].b != current.pixels[i].b
    ensures Diff(Some(ref), Some(current), resize) == Some(100)
  {
    EqualChannelsNone(ref.pixels, current.pixels);
    PrintedPercent(0, ref.height * ref.width);
  }

  /**
   * The count is per channel: a one-pixel screen differing from the
   * reference in one channel still counts two thirds of a match, and the
   * script prints 33 rather than 100.
   */
  lemma OneChannelCountsTwoThirds(resize: (Image, nat, nat) -> Image)
    ensures Diff(Some(Image(1, 1, [Pixel(0, 0, 0)])), Some(Image(1, 1, [Pixel(255, 0, 0)])), resize) == Some(33)
  {
    var a, b := [Pixel(0, 0, 0)], [Pixel(255, 0, 0)];
    assert EqualChannels(a, b) == 2 by {
      assert a[1..] == [] && b[1..] == [];
    }
    PrintedPercent(2, 1);
  }

  /** An empty reference image makes the script fail rather than print a percentage. */
  lemma EmptyReferenceFails(argv: seq<string>, open: string -> Option<Image>, capture: Option<Image>,
                            resize: (Image, nat, nat) -> Image)
    requires |argv| >= 2 && open(argv[1]).Some? && open(argv[1]).value.width == 0
    ensures Script(argv, open, capture, resize) == FailureOutput
  {
  }
}
