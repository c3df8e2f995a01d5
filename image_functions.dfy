/**
 * Dimension arithmetic of the caption commands in src/cogs/image/functions.py:
 * `add_images` puts a rendered caption above a still image and `gif_maker`
 * puts it above every frame of a GIF. Pixels, fonts and encoding are left
 * to the imaging library; what is modelled is the size of the caption after
 * the halving loop, the canvas, and where each part is pasted.
 */
module ImageFunctions {
  import opened Arith

  datatype Size = Size(width: nat, height: nat)

  datatype Point = Point(x: int, y: int)

  /** A canvas with the caption pasted at `textAt` and the picture at `baseAt`. */
  datatype Layout = Layout(canvas: Size, textAt: Point, baseAt: Point)

  /** One frame of the output GIF: the input frame it was built from and its layout. */
  datatype OutFrame<F> = OutFrame(frame: F, layout: Layout)

  /** A length after `k` rounds of `//= 2`: the length divided by 2^k with floor division. */
  function Shrunk(length: nat, k: nat): (r: nat)
    ensures r <= length
  {
    DivBy(length, Pow2(k))
  }

  /** One more round halves the previous result. */
  lemma ShrunkStep(length: nat, k: nat)
    ensures Shrunk(length, k + 1) == Shrunk(length, k) / 2
  {
    HalveStep(length, k);
  }

  /** Both sides after `k` rounds of halving. */
  function Halved(s: Size, k: nat): (r: Size)
    ensures r.width <= s.width && r.height <= s.height
  {
    Size(Shrunk(s.width, k), Shrunk(s.height, k))
  }

  /** `k` is the least number of halvings after which `width` is at most `limit`. */
  predicate LeastFit(width: nat, limit: nat, k: nat) {
    Shrunk(width, k) <= limit && forall j :: 0 <= j < k ==> Shrunk(width, j) > limit
  }

  /**
   * The `while new_text_width > base.width` loop: width and height are
   * halved together until the width fits.
   */
  method FitText(text: Size, limit: nat) returns (fitted: Size, ghost k: nat)
    ensures fitted == Halved(text, k)
    ensures LeastFit(text.width, limit, k)
  {
    var w, h := text.width, text.height;
    k := 0;
    assert Shrunk(text.width, 0) == w && Shrunk(text.height, 0) == h;
    while w > limit
      invariant w == Shrunk(text.width, k) && h == Shrunk(text.height, k)
      invariant forall j :: 0 <= j < k ==> Shrunk(text.width, j) > limit
      decreases w
    {
      ShrunkStep(text.width, k);
      ShrunkStep(text.height, k);
      w, h := w / 2, h / 2;
      k := k + 1;
    }
    fitted := Size(w, h);
  }

  /** The number of halvings is determined: two least fits are the same. */
  lemma LeastFitUnique(width: nat, limit: nat, k1: nat, k2: nat)
    requires LeastFit(width, limit, k1) && LeastFit(width, limit, k2)
    ensures k1 == k2
  {
  }

  /**
   * The resize guard `text.width > new_width or text.height > new_height`
   * holds exactly when the caption did not already fit, i.e. when at least
   * one halving happened.
   */
  lemma ResizedIffTooWide(text: Size, limit: nat, k: nat)
    requires LeastFit(text.width, limit, k)
    ensures (text.width > Halved(text, k).width || text.height > Halved(text, k).height)
        <==> text.width > limit
    ensures text.width > limit <==> k > 0
  {
    if k == 0 {
      assert Halved(text, k) == text;
    } else {
      assert Shrunk(text.width, 0) == text.width;
      HalvedIsSmaller(text.width, k);
    }
  }

  /** `(outer - inner) // 2`: the left margin that centres `inner` in `outer`. */
  function CentreOffset(outer: nat, inner: nat): (x: int)
    requires inner <= outer
    ensures 0 <= x && x + inner <= outer
    ensures 0 <= outer - (x + inner) - x <= 1
  {
    (outer - inner) / 2
  }

  /**
   * The canvas `(base.width, text.height + base.height)` with the caption
   * centred on top and the picture below it.
   */
  function Compose(text: Size, base: Size): (l: Layout)
    requires text.width <= base.width
    ensures l.canvas == Size(base.width, text.height + base.height)
    ensures l.textAt.y == 0 && l.textAt.y + text.height == l.baseAt.y
    ensures l.baseAt.x == 0 && l.baseAt.y + base.height == l.canvas.height
    ensures 0 <= l.textAt.x && l.textAt.x + text.width <= l.canvas.width
  {
    Layout(Size(base.width, text.height + base.height),
           Point(CentreOffset(base.width, text.width), 0),
           Point(0, text.height))
  }

  /** `add_images`: the caption size actually pasted, whether it was resized, and the layout. */
  method AddImages(text: Size, bottom: Size) returns (caption: Size, resized: bool, layout: Layout)
    ensures exists k :: LeastFit(text.width, bottom.width, k) && caption == Halved(text, k)
    ensures caption.width <= bottom.width
    ensures resized <==> text.width > bottom.width
    ensures !resized ==> caption == text
    ensures layout == Compose(caption, bottom)
  {
    var fitted, k := FitText(text, bottom.width);
    ResizedIffTooWide(text, bottom.width, k);
    resized := text.width > fitted.width || text.height > fitted.height;
    caption := if resized then fitted else text;
    layout := Compose(caption, bottom);
  }

  /**
   * `gif_maker`: one output frame per input frame, in order, each with the
   * same caption and the layout of `add_images` at the GIF's size.
   */
  method GifMaker<F>(text: Size, gif: Size, frames: seq<F>) returns (caption: Size, out: seq<OutFrame<F>>)
    ensures exists k :: LeastFit(text.width, gif.width, k) && caption == Halved(text, k)
    ensures caption.width <= gif.width
    ensures |out| == |frames|
    ensures forall i :: 0 <= i < |out| ==> out[i] == OutFrame(frames[i], Compose(caption, gif))
  {
    var fitted, k := FitText(text, gif.width);
    ResizedIffTooWide(text, gif.width, k);
    var resized := text.width > fitted.width || text.height > fitted.height;
    caption := if resized then fitted else text;
    var layout := Compose(caption, gif);
    out := [];
    for i := 0 to |frames|
      invariant |out| == i
      invariant forall j :: 0 <= j < i ==> out[j] == OutFrame(frames[j], layout)
    {
      out := out + [OutFrame(frames[i], layout)];
    }
  }
}
