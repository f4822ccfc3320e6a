/**
 * The 2D-framework prototype: its own copy of the clock-to-pixel
 * conversions and the centre net, drawn as instances of one segment
 * image, each placed at its row minus half the viewport height.
 *
 * Unlike the engine-plugin prototype, the vertical position here is
 * measured from the end of vertical blanking with no sync delay.
 */
module GgezPong {
  import opened Primitives

  const VIEWPORT_WIDTH: int := 640
  const VIEWPORT_HEIGHT: int := 480
  /** 1.68 pixels per horizontal clock, in hundredths. */
  const PX_UNIT_WIDTH: nat := 168
  /** 1.95 pixels per vertical clock, in hundredths. */
  const PX_UNIT_HEIGHT: nat := 195
  const HBLANK: int := 81
  const VBLANK: int := 16
  /** Moves everything right so that the net is centred. */
  const HSHIFT: int := 16

  // ---------------------------------------------------------------------
  // Clock-to-pixel conversions

  /** Pixel column of a horizontal clock: `(hclk - 81 + 16) * 1.68`, truncated toward zero. */
  function HclkToXpos(hclk: int): (x: int)
    ensures IsTruncQuotient(x, (hclk - 65) * 168, 100)
  {
    ScaleTrunc(hclk - HBLANK + HSHIFT, PX_UNIT_WIDTH)
  }

  /** Pixel width of a horizontal duration: `hclk * 1.68`, truncated toward zero. */
  function HclkToPx(hclk: int): (w: int)
    ensures IsTruncQuotient(w, hclk * 168, 100)
    ensures hclk >= 0 ==> 0 <= w <= 2 * hclk
  {
    ScaleTrunc(hclk, PX_UNIT_WIDTH)
  }

  /** Pixel row of a vertical clock: `(vclk - 16) * 1.95`, truncated toward zero. */
  function VclkToYpos(vclk: int): (y: int)
    ensures IsTruncQuotient(y, (vclk - 16) * 195, 100)
  {
    ScaleTrunc(vclk - VBLANK, PX_UNIT_HEIGHT)
  }

  /** Pixel height of a vertical duration: `vclk * 1.95`, truncated toward zero. */
  function VclkToPx(vclk: int): (h: int)
    ensures IsTruncQuotient(h, vclk * 195, 100)
    ensures vclk >= 0 ==> vclk <= h <= 2 * vclk
  {
    ScaleTrunc(vclk, PX_UNIT_HEIGHT)
  }

  /** Both position conversions keep the order of clock values. */
  lemma PositionsMonotone(a: int, b: int)
    requires a <= b
    ensures HclkToXpos(a) <= HclkToXpos(b)
    ensures VclkToYpos(a) <= VclkToYpos(b)
  {
    ScaleTruncMonotone(a - HBLANK + HSHIFT, b - HBLANK + HSHIFT, PX_UNIT_WIDTH);
    ScaleTruncMonotone(a - VBLANK, b - VBLANK, PX_UNIT_HEIGHT);
  }

  /** Both extent conversions map a zero duration to zero pixels and keep order. */
  lemma ExtentsMonotone(a: int, b: int)
    requires a <= b
    ensures HclkToPx(0) == 0 && VclkToPx(0) == 0
    ensures HclkToPx(a) <= HclkToPx(b)
    ensures VclkToPx(a) <= VclkToPx(b)
  {
    ScaleTruncMonotone(a, b, PX_UNIT_WIDTH);
    ScaleTruncMonotone(a, b, PX_UNIT_HEIGHT);
  }

  /**
   * The values this prototype uses or implies: the end of vertical
   * blanking is row 0, the paddle's starting clock 128V is row 218, the
   * net is one pixel wide, a segment 7 pixels tall, one every 15 pixels.
   */
  lemma ConversionValues()
    ensures HclkToXpos(256) == 320
    ensures VclkToYpos(16) == 0
    ensures VclkToYpos(128) == 218
    ensures HclkToPx(1) == 1
    ensures VclkToPx(4) == 7 && VclkToPx(8) == 15
  {
  }

  // ---------------------------------------------------------------------
  // The net

  /**
   * Net::draw: one segment image, one horizontal clock wide and four
   * vertical clocks tall, placed every eight vertical clocks from row 0
   * while the row is inside the viewport; each placement is at x = 0 and
   * at that row minus half the viewport height.
   */
  method NetDraw() returns (netWidth: int, segHeight: int, dests: seq<Vec2>)
    ensures netWidth == 1 && segHeight == 7
    ensures |dests| == 32
    ensures forall k :: 0 <= k < |dests| ==> dests[k] == Vec2(0, 15 * k - 240)
    ensures dests[0].y == -240 && dests[|dests| - 1].y == 225
    ensures forall k, l :: 0 <= k < l < |dests| ==> dests[k].y < dests[l].y
  {
    ConversionValues();
    netWidth := HclkToPx(1);
    segHeight := VclkToPx(4);
    var segSpacing := VclkToPx(8);
    dests := [];
    var i := 0;
    while i < VIEWPORT_HEIGHT
      invariant 0 <= i <= VIEWPORT_HEIGHT && i % 15 == 0
      invariant |dests| == i / 15
      invariant forall k :: 0 <= k < |dests| ==> dests[k] == Vec2(0, 15 * k - 240)
    {
      var ypos := i - VIEWPORT_HEIGHT / 2;
      dests := dests + [Vec2(0, ypos)];
      i := i + segSpacing;
    }
  }
}
