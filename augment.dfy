/** The augmentation stages and the per-image chain the batch generator runs:
    load (or load and crop) -> flip -> colour -> size -> rotate.

    Every random draw a stage makes is a parameter (a `...Draw` value), and the
    library calls it makes (image loading, the two resizes, the PIL
    enhancements and blur, skimage's rotation) are the function-valued fields
    of an `ImageOps`, about which the model assumes only that they return
    images of the stated shape (`Lawful`). */
module Augment {
  import opened Errors
  import opened Images

  /** The configuration flags the stages read; immutable for the whole run. */
  datatype Config = Config(
    imgSize: nat,             // side of every image leaving the chain
    sizeBeforeCrop: nat,      // side the image is loaded at when cropping is on
    cropSide: nat,            // int(size_before_crop * crop_scale)
    maxRotation: int,         // bound of the rotation angle draw
    colorChoices: seq<real>,  // the enhancement factors random.choice picks from
    numClass: nat,            // width of the one-hot label rows
    ifCrop: bool,
    ifFlip: bool,
    ifColor: bool,
    ifSize: bool,
    ifRotate: bool)

  datatype Enhancement = Brightness | Saturation | Contrast | Sharpness

  /** The library calls of the stages. */
  datatype ImageOps = ImageOps(
    load: (string, nat) -> Image,                 // open_img(name, size, img_type)
    cvResize: (Image, nat) -> Image,              // cv2.resize(img, (s, s))
    pilResize: (Image, nat) -> Image,             // PIL image.resize((n, n))
    enhance: (Enhancement, Image, real) -> Image, // ImageEnhance.<kind>(image).enhance(f)
    blur: Image -> Image,                         // image.filter(ImageFilter.BLUR)
    rotate: (Image, int) -> Image)                // transform.rotate(img, angle, preserve_range=True)

  /** What the model assumes of the library: loading and resizing give a square
      of the requested side, and the enhancements, blur and rotation keep the shape. */
  ghost predicate Lawful(ops: ImageOps) {
    && (forall name: string, n: nat :: IsSquare(ops.load(name, n), n))
    && (forall img: Image, n: nat :: IsSquare(ops.cvResize(img, n), n))
    && (forall img: Image, n: nat :: IsSquare(ops.pilResize(img, n), n))
    && (forall kind: Enhancement, img: Image, f: real, n: nat ::
          IsSquare(img, n) ==> IsSquare(ops.enhance(kind, img, f), n))
    && (forall img: Image, n: nat :: IsSquare(img, n) ==> IsSquare(ops.blur(img), n))
    && (forall img: Image, angle: int, n: nat :: IsSquare(img, n) ==> IsSquare(ops.rotate(img, angle), n))
  }

  // ------------------------------------------------------------- draws

  /** The crop stage's coin and the two `np.random.randint(0, hi)` offsets. */
  datatype CropDraw = CropDraw(coin: bool, locX: int, locY: int)

  /** The flip stage's two independent coins. */
  datatype FlipDraw = FlipDraw(vertical: bool, horizontal: bool)

  /** One gated enhancement: skipped, or applied with the factor at index
      `choice` of the configured choices. */
  datatype Gate = Skip | Apply(choice: nat)

  datatype ColorDraw = ColorDraw(
    coin: bool, brightness: Gate, saturation: Gate, contrast: Gate, sharpness: Gate, blur: bool)

  /** The size stage's coin, whether the drawn ratio is at most 1.0, and the
      side `round(ratio * img_size)` the image is resized to. */
  datatype SizeDraw = SizeDraw(coin: bool, shrink: bool, side: nat)

  datatype RotateDraw = RotateDraw(coin: bool, angle: int)

  /** Everything drawn for one batch row: the index `random.choice` picks in
      the sample set, then the draws of each stage. */
  datatype RowDraws = RowDraws(
    pick: nat, crop: CropDraw, flip: FlipDraw, color: ColorDraw, size: SizeDraw, rotate: RotateDraw)

  /** `np.random.randint(0, hi)` yields a value in `[0, hi)` whenever that range is not empty. */
  predicate CropDrawInRange(cfg: Config, d: CropDraw) {
    var hi := cfg.sizeBeforeCrop - cfg.cropSide;
    d.coin && hi > 0 ==> 0 <= d.locX < hi && 0 <= d.locY < hi
  }

  /** `random.choice` yields an index of the choices whenever there are any. */
  predicate GateInRange(cfg: Config, g: Gate) {
    g.Apply? && cfg.colorChoices != [] ==> g.choice < |cfg.colorChoices|
  }

  predicate ColorDrawInRange(cfg: Config, d: ColorDraw) {
    && GateInRange(cfg, d.brightness)
    && GateInRange(cfg, d.saturation)
    && GateInRange(cfg, d.contrast)
    && GateInRange(cfg, d.sharpness)
  }

  /** A ratio at most 1.0 rounds to a side at most `img_size`, a larger one to a side at least `img_size`. */
  predicate SizeDrawInRange(cfg: Config, d: SizeDraw) {
    d.coin ==> if d.shrink then d.side <= cfg.imgSize else cfg.imgSize <= d.side
  }

  /** `np.random.randint(-m, m)` yields a value in `[-m, m)` whenever that range is not empty. */
  predicate RotateDrawInRange(cfg: Config, d: RotateDraw) {
    d.coin && -cfg.maxRotation < cfg.maxRotation ==> -cfg.maxRotation <= d.angle < cfg.maxRotation
  }

  predicate StagesInRange(cfg: Config, d: RowDraws) {
    && CropDrawInRange(cfg, d.crop)
    && ColorDrawInRange(cfg, d.color)
    && SizeDrawInRange(cfg, d.size)
    && RotateDrawInRange(cfg, d.rotate)
  }

  /** The row's draws are ones the random sources can produce for a sample set of `poolSize` names. */
  predicate InRange(cfg: Config, d: RowDraws, poolSize: nat) {
    && (poolSize > 0 ==> d.pick < poolSize)
    && StagesInRange(cfg, d)
  }

  // ------------------------------------------------------------ stages

  /** The crop box: `cropSide` pixels square at the drawn offsets, `locX` a
      column and `locY` a row as PIL reads them. */
  function CropBox(cfg: Config, d: CropDraw): (b: Box)
    requires cfg.cropSide < cfg.sizeBeforeCrop && d.coin && CropDrawInRange(cfg, d)
    ensures BoxWithin(b, cfg.sizeBeforeCrop)
    ensures b.right - b.left == b.lower - b.upper == cfg.cropSide
    ensures b.right < cfg.sizeBeforeCrop && b.lower < cfg.sizeBeforeCrop
  {
    Box(d.locX, d.locY, d.locX + cfg.cropSide, d.locY + cfg.cropSide)
  }

  /** The crop draw fails: `np.random.randint(0, hi)` with an empty range. */
  predicate CropFails(cfg: Config, d: CropDraw) {
    d.coin && cfg.sizeBeforeCrop <= cfg.cropSide
  }

  /** Crop-and-resize of an image loaded at `sizeBeforeCrop`, or, on the other
      coin outcome, a fresh load at `imgSize` that discards `img`. */
  function CropStage(cfg: Config, ops: ImageOps, img: Image, name: string, d: CropDraw): (r: Result<Image>)
    requires Lawful(ops) && IsSquare(img, cfg.sizeBeforeCrop) && CropDrawInRange(cfg, d)
    ensures r.Err? <==> CropFails(cfg, d)
    ensures r.Err? ==> r.error == EmptyRange(0, cfg.sizeBeforeCrop - cfg.cropSide)
    ensures r.Ok? ==> IsSquare(r.value, cfg.imgSize)
    ensures !d.coin ==> r == Ok(ops.load(name, cfg.imgSize))
  {
    if d.coin then
      var hi := cfg.sizeBeforeCrop - cfg.cropSide;
      if hi <= 0 then Err(EmptyRange(0, hi))
      else Ok(ops.pilResize(CropWindow(img, CropBox(cfg, d)), cfg.imgSize))
    else
      Ok(ops.load(name, cfg.imgSize))
  }

  /** The flip stage has no outer coin: a vertical flip, then a horizontal one, each on its own coin. */
  function FlipStage(img: Image, d: FlipDraw): (flipped: Image)
    ensures forall h: nat, w: nat {:trigger IsImage(img, h, w)} :: IsImage(img, h, w) ==>
              && IsImage(flipped, h, w)
              && forall r, c :: 0 <= r < h && 0 <= c < w ==>
                   flipped[r][c] == img[if d.vertical then h - 1 - r else r][if d.horizontal then w - 1 - c else c]
  {
    var v := if d.vertical then FlipTopBottom(img) else img;
    if d.horizontal then FlipLeftRight(v) else v
  }

  /** Running the flip stage twice with the same coins gives back the image;
      in particular flipping both ways twice is the identity. */
  lemma {:induction false} FlipStageInvolution(img: Image, d: FlipDraw)
    ensures FlipStage(FlipStage(img, d), d) == img
  {
    if d.vertical && d.horizontal {
      var v := FlipTopBottom(img);
      FlipsCommute(v);
      FlipLeftRightInvolution(FlipTopBottom(v));
      FlipTopBottomInvolution(img);
    } else if d.vertical {
      FlipTopBottomInvolution(img);
    } else if d.horizontal {
      FlipLeftRightInvolution(img);
    }
  }

  /** One gated enhancement: the factor is `random.choice(color_augment_choices)`. */
  function Enhanced(cfg: Config, ops: ImageOps, img: Image, kind: Enhancement, g: Gate): (r: Result<Image>)
    requires Lawful(ops) && IsSquare(img, cfg.imgSize) && GateInRange(cfg, g)
    ensures r.Err? <==> g.Apply? && cfg.colorChoices == []
    ensures r.Ok? ==> IsSquare(r.value, cfg.imgSize)
    ensures g.Skip? ==> r == Ok(img)
  {
    match g
    case Skip => Ok(img)
    case Apply(k) =>
      if cfg.colorChoices == [] then Err(EmptySequence)
      else
        var f := cfg.colorChoices[k];
        assert IsSquare(ops.enhance(kind, img, f), cfg.imgSize);
        Ok(ops.enhance(kind, img, f))
  }

  /** An enhancement is drawn from an empty set of choices. */
  predicate ColorFails(cfg: Config, d: ColorDraw) {
    && d.coin
    && cfg.colorChoices == []
    && (d.brightness.Apply? || d.saturation.Apply? || d.contrast.Apply? || d.sharpness.Apply?)
  }

  /** Colour jitter: on its coin, brightness, saturation, contrast and
      sharpness, each on its own gate and in that order, then an optional blur. */
  function ColorStage(cfg: Config, ops: ImageOps, img: Image, d: ColorDraw): (r: Result<Image>)
    requires Lawful(ops) && IsSquare(img, cfg.imgSize) && ColorDrawInRange(cfg, d)
    ensures r.Err? <==> ColorFails(cfg, d)
    ensures r.Err? ==> r.error == EmptySequence
    ensures r.Ok? ==> IsSquare(r.value, cfg.imgSize)
    ensures !d.coin ==> r == Ok(img)
  {
    if !d.coin then Ok(img)
    else
      var a :- Enhanced(cfg, ops, img, Brightness, d.brightness);
      var b :- Enhanced(cfg, ops, a, Saturation, d.saturation);
      var c :- Enhanced(cfg, ops, b, Contrast, d.contrast);
      var e :- Enhanced(cfg, ops, c, Sharpness, d.sharpness);
      Ok(if d.blur then ops.blur(e) else e)
  }

  /** Scale-and-fit: on its coin, resize to `side` and then either centre the
      result on a zero canvas (ratio at most 1) or take its centred window. */
  function SizeStage(cfg: Config, ops: ImageOps, img: Image, d: SizeDraw): (r: Image)
    requires Lawful(ops) && IsSquare(img, cfg.imgSize) && SizeDrawInRange(cfg, d)
    ensures IsSquare(r, cfg.imgSize)
    ensures !d.coin ==> r == img
  {
    if !d.coin then img
    else
      var resized := ops.cvResize(img, d.side);
      if d.shrink then CenterPaste(resized, cfg.imgSize) else CenterCrop(resized, cfg.imgSize)
  }

  /** Where the size stage puts the resized image. Shrinking: cell `(r, c)` is
      `resized[r-p][c-p]` inside the centred window at `p = (img_size - s) // 2`
      and zero outside it. Growing: cell `(r, c)` is `resized[r+q][c+q]` with
      `q = (s - img_size) // 2`. */
  lemma SizeStagePlacement(cfg: Config, ops: ImageOps, img: Image, d: SizeDraw)
    requires Lawful(ops) && IsSquare(img, cfg.imgSize) && SizeDrawInRange(cfg, d) && d.coin
    ensures d.shrink ==>
              var out, resized := SizeStage(cfg, ops, img, d), ops.cvResize(img, d.side);
              var s, p := d.side, Offset(cfg.imgSize, d.side);
              forall r, c :: 0 <= r < cfg.imgSize && 0 <= c < cfg.imgSize ==>
                out[r][c] == if p <= r < p + s && p <= c < p + s then resized[r - p][c - p] else Black
    ensures !d.shrink ==>
              var out, resized := SizeStage(cfg, ops, img, d), ops.cvResize(img, d.side);
              var q := Offset(d.side, cfg.imgSize);
              forall r, c :: 0 <= r < cfg.imgSize && 0 <= c < cfg.imgSize ==>
                out[r][c] == resized[r + q][c + q]
  {
  }

  /** A shrink is undone by taking the centred window of the canvas: the
      padded image is the resized one, untouched. */
  lemma {:induction false} ShrinkKeepsResized(cfg: Config, ops: ImageOps, img: Image, d: SizeDraw)
    requires Lawful(ops) && IsSquare(img, cfg.imgSize) && SizeDrawInRange(cfg, d) && d.coin && d.shrink
    ensures CenterCrop(SizeStage(cfg, ops, img, d), d.side) == ops.cvResize(img, d.side)
  {
    CropUndoesPaste(ops.cvResize(img, d.side), cfg.imgSize);
  }

  /** A ratio that rounds back to `img_size` leaves the resized image as it
      is, on either branch. */
  lemma {:induction false} SizeStageAtSameSide(cfg: Config, ops: ImageOps, img: Image, d: SizeDraw)
    requires Lawful(ops) && IsSquare(img, cfg.imgSize) && d.coin && d.side == cfg.imgSize
    ensures SizeStage(cfg, ops, img, d) == ops.cvResize(img, d.side)
  {
    CenterAtSameSizeIsIdentity(ops.cvResize(img, d.side));
  }

  /** The zero canvas the size stage allocates, read back as an image. */
  function Snapshot(canvas: array2<Pixel>): (img: Image)
    reads canvas
    ensures |img| == canvas.Length0
    ensures forall r :: 0 <= r < canvas.Length0 ==> |img[r]| == canvas.Length1
    ensures forall r, c :: 0 <= r < canvas.Length0 && 0 <= c < canvas.Length1 ==> img[r][c] == canvas[r, c]
  {
    seq(canvas.Length0, r requires 0 <= r < canvas.Length0 reads canvas =>
      seq(canvas.Length1, c requires 0 <= c < canvas.Length1 reads canvas => canvas[r, c]))
  }

  /** The slice assignment `canvas[p:p+s, p:p+s, :] = x` for an `s×s` image `x`. */
  method PasteAt(canvas: array2<Pixel>, x: Image, p: nat)
    requires IsSquare(x, |x|) && p + |x| <= canvas.Length0 && p + |x| <= canvas.Length1
    modifies canvas
    ensures forall i, j :: 0 <= i < canvas.Length0 && 0 <= j < canvas.Length1 ==>
              canvas[i, j] == if p <= i < p + |x| && p <= j < p + |x| then x[i - p][j - p] else old(canvas[i, j])
  {
    var s := |x|;
    for r := 0 to s
      invariant forall i, j :: 0 <= i < canvas.Length0 && 0 <= j < canvas.Length1 ==>
                  canvas[i, j] == if p <= i < p + r && p <= j < p + s then x[i - p][j - p] else old(canvas[i, j])
    {
      for c := 0 to s
        invariant forall i, j :: 0 <= i < canvas.Length0 && 0 <= j < canvas.Length1 ==>
                    canvas[i, j] ==
                    if (p <= i < p + r && p <= j < p + s) || (i == p + r && p <= j < p + c)
                    then x[i - p][j - p] else old(canvas[i, j])
      {
        canvas[p + r, p + c] := x[r][c];
      }
    }
  }

  /** The slice assignment `canvas[:, :, :] = y[q:q+n, q:q+n, :]` for an `n×n` canvas. */
  method CopyWindow(canvas: array2<Pixel>, y: Image, q: nat)
    requires IsSquare(y, |y|) && q + canvas.Length0 <= |y| && q + canvas.Length1 <= |y|
    modifies canvas
    ensures forall i, j :: 0 <= i < canvas.Length0 && 0 <= j < canvas.Length1 ==> canvas[i, j] == y[i + q][j + q]
  {
    for r := 0 to canvas.Length0
      invariant forall i, j :: 0 <= i < r && 0 <= j < canvas.Length1 ==> canvas[i, j] == y[i + q][j + q]
    {
      for c := 0 to canvas.Length1
        invariant forall i, j :: 0 <= i < r && 0 <= j < canvas.Length1 ==> canvas[i, j] == y[i + q][j + q]
        invariant forall j :: 0 <= j < c ==> canvas[r, j] == y[r + q][j + q]
      {
        canvas[r, c] := y[r + q][c + q];
      }
    }
  }

  /** The size stage as the source runs it: allocate an `img_size×img_size`
      canvas of zeros and fill it by slice assignment. */
  method SizeAugment(cfg: Config, ops: ImageOps, img: Image, d: SizeDraw) returns (out: Image)
    requires Lawful(ops) && IsSquare(img, cfg.imgSize) && SizeDrawInRange(cfg, d)
    ensures out == SizeStage(cfg, ops, img, d)
  {
    if !d.coin {
      return img;
    }
    var resized := ops.cvResize(img, d.side);
    if d.shrink {
      out := PadToCanvas(resized, cfg.imgSize);
    } else {
      out := CropToCanvas(resized, cfg.imgSize);
    }
  }

  /** The shrink branch: a zero canvas of side `n` with `x` pasted into its centred window. */
  method PadToCanvas(x: Image, n: nat) returns (out: Image)
    requires IsSquare(x, |x|) && |x| <= n
    ensures out == CenterPaste(x, n)
  {
    var canvas := new Pixel[n, n]((_, _) => Black);
    PasteAt(canvas, x, (n - |x|) / 2);
    out := Snapshot(canvas);
    var expected := CenterPaste(x, n);
    forall r | 0 <= r < n
      ensures out[r] == expected[r]
    {
      assert |out[r]| == |expected[r]| == n;
    }
  }

  /** The grow branch: a canvas of side `n` filled with the centred window of `y`. */
  method CropToCanvas(y: Image, n: nat) returns (out: Image)
    requires IsSquare(y, |y|) && n <= |y|
    ensures out == CenterCrop(y, n)
  {
    var canvas := new Pixel[n, n]((_, _) => Black);
    CopyWindow(canvas, y, (|y| - n) / 2);
    out := Snapshot(canvas);
    var expected := CenterCrop(y, n);
    forall r | 0 <= r < n
      ensures out[r] == expected[r]
    {
      assert |out[r]| == |expected[r]| == n;
    }
  }

  /** The rotation draw fails: `np.random.randint(-m, m)` with `m <= 0`. */
  predicate RotateFails(cfg: Config, d: RotateDraw) {
    d.coin && cfg.maxRotation <= 0
  }

  /** On its coin, rotate by the drawn angle. */
  function RotateStage(cfg: Config, ops: ImageOps, img: Image, d: RotateDraw): (r: Result<Image>)
    requires Lawful(ops) && IsSquare(img, cfg.imgSize) && RotateDrawInRange(cfg, d)
    ensures r.Err? <==> RotateFails(cfg, d)
    ensures r.Err? ==> r.error == EmptyRange(-cfg.maxRotation, cfg.maxRotation)
    ensures r.Ok? ==> IsSquare(r.value, cfg.imgSize)
    ensures !d.coin ==> r == Ok(img)
  {
    if !d.coin then Ok(img)
    else if cfg.maxRotation <= -cfg.maxRotation then Err(EmptyRange(-cfg.maxRotation, cfg.maxRotation))
    else Ok(ops.rotate(img, d.angle))
  }

  // ------------------------------------------------------------- chain

  /** Some enabled stage draws from an empty range. */
  predicate RowFails(cfg: Config, d: RowDraws) {
    || (cfg.ifCrop && CropFails(cfg, d.crop))
    || (cfg.ifColor && ColorFails(cfg, d.color))
    || (cfg.ifRotate && RotateFails(cfg, d.rotate))
  }

  /** The image of one batch row: load (at `sizeBeforeCrop` and crop when
      cropping is on, else at `imgSize`), then flip, colour, size and rotate,
      each only when enabled, in that fixed order. Whatever stages fire, the
      result is `imgSize×imgSize×3`. */
  function RowImage(cfg: Config, ops: ImageOps, name: string, d: RowDraws): (r: Result<Image>)
    requires Lawful(ops) && StagesInRange(cfg, d)
    ensures r.Ok? <==> !RowFails(cfg, d)
    ensures r.Ok? ==> IsSquare(r.value, cfg.imgSize)
    ensures cfg.ifCrop && CropFails(cfg, d.crop) ==> r == Err(EmptyRange(0, cfg.sizeBeforeCrop - cfg.cropSide))
  {
    var loaded :-
      if cfg.ifCrop then CropStage(cfg, ops, ops.load(name, cfg.sizeBeforeCrop), name, d.crop)
      else Ok(ops.load(name, cfg.imgSize));
    var flipped := if cfg.ifFlip then FlipStage(loaded, d.flip) else loaded;
    var colored :- if cfg.ifColor then ColorStage(cfg, ops, flipped, d.color) else Ok(flipped);
    var sized := if cfg.ifSize then SizeStage(cfg, ops, colored, d.size) else colored;
    if cfg.ifRotate then RotateStage(cfg, ops, sized, d.rotate) else Ok(sized)
  }

  // ------------------------------------------------------- normalising

  /** Every channel value lies in `[lo, hi]`. */
  predicate ValuesWithin(img: Image, lo: real, hi: real) {
    forall r, c, k :: 0 <= r < |img| && 0 <= c < |img[r]| && 0 <= k < |img[r][c]| ==> lo <= img[r][c][k] <= hi
  }

  /** The row written into `train_img`: divided by 255 when normalising, else as is. */
  function Scaled(img: Image, normalize: bool): (out: Image)
    ensures IsSquare(img, |img|) ==> IsSquare(out, |img|)
    ensures !normalize ==> out == img
    ensures normalize && ValuesWithin(img, 0.0, 255.0) ==> ValuesWithin(out, 0.0, 1.0)
  {
    if normalize then
      seq(|img|, r requires 0 <= r < |img| =>
        seq(|img[r]|, c requires 0 <= c < |img[r]| =>
          seq(|img[r][c]|, k requires 0 <= k < |img[r][c]| => img[r][c][k] / 255.0)))
    else img
  }
}
