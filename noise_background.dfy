/** The noise background (src/components/backgrounds/NoiseBackground.tsx):
    on mount, a 200 x 200 canvas is filled with faint grey noise. The
    `Math.random()` draws are passed in, one per pixel. */
module NoiseBackground {

  const Width: nat := 200
  const Height: nat := 200
  /** Length of the RGBA pixel buffer: four bytes per pixel. */
  const BufferLength: nat := Width * Height * 4

  /** The alpha byte every pixel gets. */
  const Alpha: int := 15

  /** Storing a number into a `Uint8ClampedArray` element: clamp to 0..255,
      then round to nearest with ties to even. */
  function ToUint8Clamp(v: real): (b: int)
    ensures 0 <= b <= 255
    ensures 0.0 <= v <= 255.0 ==> (b as real) - 0.5 <= v <= (b as real) + 0.5
  {
    if v <= 0.0 then 0
    else if v >= 255.0 then 255
    else
      var f := v.Floor;
      if (f as real) + 0.5 < v then f + 1
      else if v < (f as real) + 0.5 then f
      else if f % 2 == 0 then f else f + 1
  }

  /** The byte the fill loop leaves at position `i` of the buffer: the three
      colour bytes of a pixel hold its noise value `draw * 20`, the fourth
      holds the alpha. */
  function PixelByte(draws: seq<real>, i: nat): int
    requires i / 4 < |draws|
  {
    if i % 4 == 3 then Alpha else ToUint8Clamp(draws[i / 4] * 20.0)
  }

  /** Within a pixel, red, green and blue are equal and alpha is 15; with a
      draw in [0, 1) every colour byte is between 0 and 20. */
  lemma PixelShape(draws: seq<real>, p: nat)
    requires p < |draws|
    requires 0.0 <= draws[p] < 1.0
    ensures PixelByte(draws, 4 * p) == PixelByte(draws, 4 * p + 1) == PixelByte(draws, 4 * p + 2)
    ensures PixelByte(draws, 4 * p + 3) == Alpha
    ensures 0 <= PixelByte(draws, 4 * p) <= 20
  {
    assert (4 * p) / 4 == p && (4 * p + 1) / 4 == p && (4 * p + 2) / 4 == p && (4 * p + 3) / 4 == p;
    assert (4 * p) % 4 == 0 && (4 * p + 1) % 4 == 1 && (4 * p + 2) % 4 == 2 && (4 * p + 3) % 4 == 3;
  }

  /** The fill loop: stride 4 over the buffer, writing the pixel's noise
      value into its three colour bytes and 15 into its alpha byte. Every
      byte ends up written, since the length is a multiple of 4. */
  method FillNoise(data: array<int>, draws: seq<real>)
    requires data.Length % 4 == 0
    requires |draws| >= data.Length / 4
    modifies data
    ensures forall i :: 0 <= i < data.Length ==> data[i] == PixelByte(draws, i)
  {
    var i := 0;
    while i < data.Length
      invariant 0 <= i <= data.Length && i % 4 == 0
      invariant forall j :: 0 <= j < i ==> data[j] == PixelByte(draws, j)
    {
      var noise := draws[i / 4] * 20.0;
      data[i] := ToUint8Clamp(noise);
      data[i + 1] := ToUint8Clamp(noise);
      data[i + 2] := ToUint8Clamp(noise);
      data[i + 3] := Alpha;
      assert (i + 1) / 4 == i / 4 && (i + 2) / 4 == i / 4 && (i + 3) / 4 == i / 4;
      i := i + 4;
    }
  }

  /** The size of a canvas element without width and height attributes. */
  const DefaultWidth: nat := 300
  const DefaultHeight: nat := 150

  /** The canvas element the effect draws on. */
  class Canvas {
    var width: nat
    var height: nat
    /** The RGBA bytes of the canvas bitmap. */
    var image: seq<int>

    /** A new canvas element: 300 x 150, every pixel transparent black. */
    constructor ()
      ensures width == DefaultWidth && height == DefaultHeight
      ensures |image| == DefaultWidth * DefaultHeight * 4
      ensures forall i :: 0 <= i < |image| ==> image[i] == 0
    {
      width, height := DefaultWidth, DefaultHeight;
      image := seq(DefaultWidth * DefaultHeight * 4, _ => 0);
    }
  }

  /** The mount effect: without a canvas or without a 2D context it returns
      at once; otherwise it sizes the canvas to 200 x 200, fills a fresh
      buffer and puts it on the canvas. */
  method MountEffect(canvas: Canvas?, hasContext: bool, draws: seq<real>)
    requires |draws| >= Width * Height
    modifies canvas
    ensures canvas != null && !hasContext ==>
      canvas.width == old(canvas.width) && canvas.height == old(canvas.height)
      && canvas.image == old(canvas.image)
    ensures canvas != null && hasContext ==>
      canvas.width == Width && canvas.height == Height
      && |canvas.image| == BufferLength
      && forall i :: 0 <= i < BufferLength ==> canvas.image[i] == PixelByte(draws, i)
  {
    if canvas == null {
      return;
    }
    if !hasContext {
      return;
    }
    canvas.width := Width;
    canvas.height := Height;
    var data := new int[Width * Height * 4](_ => 0);
    FillNoise(data, draws);
    canvas.image := data[..];
  }
}
