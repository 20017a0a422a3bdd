/** Image buffers and the integer geometry the augmentation stages do on them:
    the two PIL flips, centring a small square on a larger canvas (and the
    inverse window), and cropping a box out of a square. */
module Images {

  /** One pixel: its channel values, three of them in a well-formed image. */
  type Pixel = seq<real>

  /** An image as rows of pixels: `img[r][c][k]` is channel `k` of row `r`, column `c`. */
  type Image = seq<seq<Pixel>>

  const Channels: nat := 3

  /** The pixel `np.zeros` leaves on a fresh canvas. */
  const Black: Pixel := [0.0, 0.0, 0.0]

  /** `img` has `h` rows of `w` pixels, each of three channels (an `h×w×3` array). */
  predicate IsImage(img: Image, h: nat, w: nat) {
    && |img| == h
    && (forall r :: 0 <= r < h ==> |img[r]| == w)
    && (forall r, c :: 0 <= r < h && 0 <= c < w ==> |img[r][c]| == Channels)
  }

  /** `img` is an `n×n×3` array. */
  predicate IsSquare(img: Image, n: nat) {
    IsImage(img, n, n)
  }

  /** The `n×n×3` canvas of zeros. */
  function ZeroImage(n: nat): (img: Image)
    ensures IsSquare(img, n)
    ensures forall r, c :: 0 <= r < n && 0 <= c < n ==> img[r][c] == Black
  {
    seq(n, _ => seq(n, _ => Black))
  }

  // ----------------------------------------------------------------- flips

  /** PIL's `FLIP_TOP_BOTTOM`: an `h×w×3` image keeps its shape, and row `r`
      is read from row `h-1-r`. */
  function FlipTopBottom(img: Image): (flipped: Image)
    ensures forall h: nat, w: nat {:trigger IsImage(img, h, w)} :: IsImage(img, h, w) ==>
              && IsImage(flipped, h, w)
              && forall r, c :: 0 <= r < h && 0 <= c < w ==> flipped[r][c] == img[h - 1 - r][c]
  {
    seq(|img|, r requires 0 <= r < |img| => img[|img| - 1 - r])
  }

  /** PIL's `FLIP_LEFT_RIGHT`: an `h×w×3` image keeps its shape, and column `c`
      is read from column `w-1-c`. */
  function FlipLeftRight(img: Image): (flipped: Image)
    ensures forall h: nat, w: nat {:trigger IsImage(img, h, w)} :: IsImage(img, h, w) ==>
              && IsImage(flipped, h, w)
              && forall r, c :: 0 <= r < h && 0 <= c < w ==> flipped[r][c] == img[r][w - 1 - c]
  {
    seq(|img|, r requires 0 <= r < |img| =>
      seq(|img[r]|, c requires 0 <= c < |img[r]| => img[r][|img[r]| - 1 - c]))
  }

  /** Flipping top to bottom twice gives back the image. */
  lemma FlipTopBottomInvolution(img: Image)
    ensures FlipTopBottom(FlipTopBottom(img)) == img
  {
    var twice := FlipTopBottom(FlipTopBottom(img));
    forall r | 0 <= r < |img|
      ensures twice[r] == img[r]
    {
      assert FlipTopBottom(img)[|img| - 1 - r] == img[r];
    }
  }

  /** Flipping left to right twice gives back the image. */
  lemma FlipLeftRightInvolution(img: Image)
    ensures FlipLeftRight(FlipLeftRight(img)) == img
  {
    var once := FlipLeftRight(img);
    var twice := FlipLeftRight(once);
    forall r | 0 <= r < |img|
      ensures twice[r] == img[r]
    {
      assert |once[r]| == |img[r]|;
      forall c | 0 <= c < |img[r]|
        ensures twice[r][c] == img[r][c]
      {
        assert once[r][|img[r]| - 1 - c] == img[r][c];
      }
    }
  }

  /** The two flips commute: reversing the rows and reversing each row can be
      done in either order. */
  lemma FlipsCommute(img: Image)
    ensures FlipLeftRight(FlipTopBottom(img)) == FlipTopBottom(FlipLeftRight(img))
  {
    var a := FlipLeftRight(FlipTopBottom(img));
    var b := FlipTopBottom(FlipLeftRight(img));
    forall r | 0 <= r < |img|
      ensures a[r] == b[r]
    {
      assert a[r] == FlipLeftRight(FlipTopBottom(img))[r];
      assert |a[r]| == |img[|img| - 1 - r]| == |b[r]|;
    }
  }

  // --------------------------------------------------- centring a window

  /** The margin before a window of side `small` centred in a square of side
      `big`, Python's `(big - small) // 2`: the slack is split in two and,
      when it is odd, the extra pixel goes after the window. */
  function Offset(big: nat, small: nat): (p: nat)
    requires small <= big
    ensures p + small <= big
    ensures p <= big - small - p <= p + 1
  {
    (big - small) / 2
  }

  /** The `n×n×3` canvas of zeros with the square image `x` written into the
      centred window `canvas[p:p+s, p:p+s, :]`, where `s = |x|` and `p = (n - s) // 2`. */
  function CenterPaste(x: Image, n: nat): (canvas: Image)
    requires IsSquare(x, |x|) && |x| <= n
    ensures IsSquare(canvas, n)
  {
    var s := |x|;
    var p := Offset(n, s);
    seq(n, r requires 0 <= r < n =>
      seq(n, c requires 0 <= c < n =>
        if p <= r < p + s && p <= c < p + s then x[r - p][c - p] else Black))
  }

  /** The centred `n×n` window `y[q:q+n, q:q+n, :]` of the square image `y`,
      where `q = (|y| - n) // 2`. */
  function CenterCrop(y: Image, n: nat): (window: Image)
    requires IsSquare(y, |y|) && n <= |y|
    ensures IsSquare(window, n)
  {
    var q := Offset(|y|, n);
    seq(n, r requires 0 <= r < n => seq(n, c requires 0 <= c < n => y[r + q][c + q]))
  }

  /** Cropping the pasted image back out of its canvas recovers it exactly:
      the centred paste loses nothing and puts nothing over the image. */
  lemma {:induction false} CropUndoesPaste(x: Image, n: nat)
    requires IsSquare(x, |x|) && |x| <= n
    ensures CenterCrop(CenterPaste(x, n), |x|) == x
  {
    var s := |x|;
    var y := CenterPaste(x, n);
    var w := CenterCrop(y, s);
    assert Offset(|y|, s) == Offset(n, s);
    forall r | 0 <= r < s
      ensures w[r] == x[r]
    {
      assert |w[r]| == |x[r]| == s;
      forall c | 0 <= c < s
        ensures w[r][c] == x[r][c]
      {
      }
    }
  }

  /** A window of the image's own size, pasted or cropped, is the image itself:
      a resize that lands exactly on the canvas size needs neither padding nor cropping. */
  lemma {:induction false} CenterAtSameSizeIsIdentity(x: Image)
    requires IsSquare(x, |x|)
    ensures CenterPaste(x, |x|) == x
    ensures CenterCrop(x, |x|) == x
  {
    var s := |x|;
    assert Offset(s, s) == 0;
    var pasted, cropped := CenterPaste(x, s), CenterCrop(x, s);
    forall r | 0 <= r < s
      ensures pasted[r] == x[r] && cropped[r] == x[r]
    {
      assert |pasted[r]| == |cropped[r]| == |x[r]| == s;
    }
  }

  // ----------------------------------------------------------- crop box

  /** A PIL crop box `(left, upper, right, lower)`: columns `left..right`,
      rows `upper..lower`, right and lower edges exclusive. */
  datatype Box = Box(left: nat, upper: nat, right: nat, lower: nat)

  /** The box lies within an `n×n` image. */
  predicate BoxWithin(b: Box, n: nat) {
    b.left <= b.right <= n && b.upper <= b.lower <= n
  }

  /** PIL's `crop(box)` of a square image with the box inside it. */
  function CropWindow(img: Image, b: Box): (window: Image)
    requires IsSquare(img, |img|) && BoxWithin(b, |img|)
    ensures IsImage(window, b.lower - b.upper, b.right - b.left)
    ensures forall r, c :: 0 <= r < b.lower - b.upper && 0 <= c < b.right - b.left ==>
              window[r][c] == img[b.upper + r][b.left + c]
  {
    seq(b.lower - b.upper, r requires 0 <= r < b.lower - b.upper => img[b.upper + r][b.left .. b.right])
  }
}
