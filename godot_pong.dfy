/**
 * The engine-plugin prototype: clock-to-pixel conversions, the centre
 * net's vertex and index buffers, and the paddles.
 *
 * The original video signal was 455 x 262 clocks; the active area is
 * mapped onto a 640 x 480 viewport at 1.68 pixels per horizontal clock
 * and 1.95 pixels per vertical clock. Positions are measured from the
 * end of the blanking interval, shifted by a sync delay.
 */
module GodotPong {
  import opened Primitives

  const VIEWPORT_WIDTH: int := 640
  const VIEWPORT_HEIGHT: int := 480
  /** 1.68 pixels per horizontal clock, in hundredths. */
  const PX_UNIT_WIDTH: nat := 168
  /** 1.95 pixels per vertical clock, in hundredths. */
  const PX_UNIT_HEIGHT: nat := 195
  const HBLANK: int := 81
  const VBLANK: int := 16
  const HSYNC_DLY: int := 16
  const VSYNC_DLY: int := 8

  // ---------------------------------------------------------------------
  // Clock-to-pixel conversions

  /** Pixel column of a horizontal clock: `(hclk - 81 + 16) * 1.68`, truncated toward zero. */
  function HclkToXpos(hclk: int): (x: int)
    ensures IsTruncQuotient(x, (hclk - 65) * 168, 100)
  {
    ScaleTrunc(hclk - HBLANK + HSYNC_DLY, PX_UNIT_WIDTH)
  }

  /** Pixel width of a horizontal duration: `hclk * 1.68`, truncated toward zero. */
  function HclkToInterval(hclk: int): (w: int)
    ensures IsTruncQuotient(w, hclk * 168, 100)
    ensures hclk >= 0 ==> 0 <= w <= 2 * hclk
  {
    ScaleTrunc(hclk, PX_UNIT_WIDTH)
  }

  /** Pixel row of a vertical clock: `(vclk - 16 + 8) * 1.95`, truncated toward zero. */
  function VclkToYpos(vclk: int): (y: int)
    ensures IsTruncQuotient(y, (vclk - 8) * 195, 100)
  {
    ScaleTrunc(vclk - VBLANK + VSYNC_DLY, PX_UNIT_HEIGHT)
  }

  /** Pixel height of a vertical duration: `vclk * 1.95`, truncated toward zero. */
  function VclkToInterval(vclk: int): (h: int)
    ensures IsTruncQuotient(h, vclk * 195, 100)
    ensures vclk >= 0 ==> vclk <= h <= 2 * vclk
  {
    ScaleTrunc(vclk, PX_UNIT_HEIGHT)
  }

  /** Both position conversions keep the order of clock values. */
  lemma PositionsMonotone(a: int, b: int)
    requires a <= b
    ensures HclkToXpos(a) <= HclkToXpos(b)
    ensures VclkToYpos(a) <= VclkToYpos(b)
  {
    ScaleTruncMonotone(a - HBLANK + HSYNC_DLY, b - HBLANK + HSYNC_DLY, PX_UNIT_WIDTH);
    ScaleTruncMonotone(a - VBLANK + VSYNC_DLY, b - VBLANK + VSYNC_DLY, PX_UNIT_HEIGHT);
  }

  /** Both interval conversions map a zero duration to zero pixels and keep order. */
  lemma IntervalsMonotone(a: int, b: int)
    requires a <= b
    ensures HclkToInterval(0) == 0 && VclkToInterval(0) == 0
    ensures HclkToInterval(a) <= HclkToInterval(b)
    ensures VclkToInterval(a) <= VclkToInterval(b)
  {
    ScaleTruncMonotone(a, b, PX_UNIT_WIDTH);
    ScaleTruncMonotone(a, b, PX_UNIT_HEIGHT);
  }

  /**
   * The values the prototype draws with: the net's left edge at 256H is
   * the screen centre, the paddles stand at 128H and 384H, the paddle
   * starts at 128V. A negative position truncates toward zero, not down:
   * 0H is -65 * 1.68 = -109.2, giving -109 where a floor would give -110.
   */
  lemma ConversionValues()
    ensures HclkToXpos(256) == 320
    ensures HclkToXpos(128) == 105
    ensures HclkToXpos(384) == 535
    ensures HclkToXpos(0) == -109
    ensures VclkToYpos(128) == 234
    ensures HclkToInterval(1) == 1 && HclkToInterval(4) == 6
    ensures VclkToInterval(4) == 7 && VclkToInterval(8) == 15 && VclkToInterval(15) == 29
  {
    TruncQuotientUnique(HclkToXpos(0), -109, -65 * 168, 100);
  }

  // ---------------------------------------------------------------------
  // The net

  /**
   * Net::draw: the net's left edge is at 256H, one horizontal clock wide;
   * a segment is 4 vertical clocks tall and one is started every 8
   * vertical clocks, from row 0 while the row is inside the viewport.
   * The first loop pushes the four corners of each segment, the second
   * one index group per four vertices.
   */
  method NetDraw() returns (polygon: seq<Vec2>, polygons: seq<seq<int>>)
    ensures |polygon| == 128
    ensures forall k :: 0 <= k < 32 ==> Quad(polygon, k) == Rect(320, 15 * k, 1, 7)
    ensures |polygons| == |polygon| / 4
    ensures forall k :: 0 <= k < |polygons| ==> polygons[k] == [4 * k, 4 * k + 1, 4 * k + 2, 4 * k + 3]
  {
    var netLeftEdge := HclkToXpos(256);
    polygon := [];
    polygons := [];
    var netSegmentSpacing := VclkToInterval(8);
    var netWidth := HclkToInterval(1);
    var netHeight := VclkToInterval(4);
    ConversionValues();

    var i := 0;
    while i < VIEWPORT_HEIGHT
      invariant 0 <= i <= VIEWPORT_HEIGHT && i % 15 == 0
      invariant |polygon| == 4 * (i / 15)
      invariant forall k :: 0 <= k < i / 15 ==> Quad(polygon, k) == Rect(320, 15 * k, 1, 7)
    {
      ghost var before := polygon;
      polygon := polygon + [Vec2(netLeftEdge, i)];
      polygon := polygon + [Vec2(netLeftEdge + netWidth, i)];
      polygon := polygon + [Vec2(netLeftEdge + netWidth, i + netHeight)];
      polygon := polygon + [Vec2(netLeftEdge, i + netHeight)];
      assert polygon == before + Rect(320, i, 1, 7);
      forall k | 0 <= k < i / 15 + 1
        ensures Quad(polygon, k) == Rect(320, 15 * k, 1, 7)
      {
        if k < i / 15 {
          assert Quad(polygon, k) == Quad(before, k);
        } else {
          assert Quad(polygon, k) == polygon[|before|..];
        }
      }
      i := i + netSegmentSpacing;
    }

    var numVertices := |polygon|;
    var j := 0;
    while j < numVertices / 4
      invariant 0 <= j <= numVertices / 4
      invariant |polygons| == j
      invariant forall k :: 0 <= k < j ==> polygons[k] == [4 * k, 4 * k + 1, 4 * k + 2, 4 * k + 3]
    {
      var base := 4 * j;
      polygons := polygons + [[base, base + 1, base + 2, base + 3]];
      j := j + 1;
    }
  }

  // ---------------------------------------------------------------------
  // Paddles

  datatype Side = Left | Right

  /** Which of the four input actions are held down in this frame. */
  datatype Actions = Actions(upL: bool, dnL: bool, upR: bool, dnR: bool)

  /** The up action belonging to a side. */
  function UpPressed(side: Side, input: Actions): bool
  {
    match side
    case Left => input.upL
    case Right => input.upR
  }

  /** The down action belonging to a side. */
  function DownPressed(side: Side, input: Actions): bool
  {
    match side
    case Left => input.dnL
    case Right => input.dnR
  }

  /** The paddle's column: 128H for the left paddle, 128H + 256H for the right one. */
  function PaddleX(side: Side): (x: int)
    ensures side == Left ==> x == 105
    ensures side == Right ==> x == 535
    ensures 0 <= x < VIEWPORT_WIDTH
  {
    ConversionValues();
    match side
    case Left => HclkToXpos(128)
    case Right => HclkToXpos(128 + 256)
  }

  /** The paddle's outline: 4 horizontal clocks wide and 15 vertical clocks tall, its top at `ypos`. */
  function PaddleRect(side: Side, ypos: int): (vs: seq<Vec2>)
    ensures vs == [Vec2(PaddleX(side), ypos), Vec2(PaddleX(side) + 6, ypos),
                   Vec2(PaddleX(side) + 6, ypos + 29), Vec2(PaddleX(side), ypos + 29)]
  {
    ConversionValues();
    Rect(PaddleX(side), ypos, HclkToInterval(4), VclkToInterval(15))
  }

  /**
   * The row a paddle moves to in one frame: up adds one, down takes one
   * away, both together cancel out, and there is no clamping.
   */
  function Moved(side: Side, input: Actions, ypos: int): (r: int)
    ensures r == ypos + 1 <==> UpPressed(side, input) && !DownPressed(side, input)
    ensures r == ypos - 1 <==> DownPressed(side, input) && !UpPressed(side, input)
    ensures r == ypos <==> UpPressed(side, input) == DownPressed(side, input)
  {
    var up := if UpPressed(side, input) then 1 else 0;
    var down := if DownPressed(side, input) then 1 else 0;
    ypos + up - down
  }

  /** A paddle does not react to the actions of the other side. */
  lemma MovedIgnoresOtherSide(input: Actions, other: Actions, ypos: int)
    ensures input.upL == other.upL && input.dnL == other.dnL ==>
              Moved(Left, input, ypos) == Moved(Left, other, ypos)
    ensures input.upR == other.upR && input.dnR == other.dnR ==>
              Moved(Right, input, ypos) == Moved(Right, other, ypos)
  {
  }

  /** A paddle's row after a number of frames with the same actions held; nothing bounds it. */
  function MovedFor(side: Side, input: Actions, ypos: int, frames: nat): int
  {
    if frames == 0 then ypos else Moved(side, input, MovedFor(side, input, ypos, frames - 1))
  }

  /** Holding up alone for n frames moves the paddle by exactly n, however far that goes. */
  lemma {:induction false} HeldUpIsUnclamped(side: Side, input: Actions, ypos: int, frames: nat)
    requires UpPressed(side, input) && !DownPressed(side, input)
    ensures MovedFor(side, input, ypos, frames) == ypos + frames
  {
    if frames > 0 {
      HeldUpIsUnclamped(side, input, ypos, frames - 1);
    }
  }

  /** A paddle: its side is fixed; its row changes each frame; its outline is redrawn each frame. */
  class Paddle {
    var ypos: int
    const side: Side
    /** The vertices last handed to the paddle's polygon. */
    var polygon: seq<Vec2>

    /** The engine's default construction: a left paddle at 128V. */
    constructor Init()
      ensures side == Left
      ensures ypos == VclkToYpos(128) && ypos == 234
      ensures polygon == []
    {
      ConversionValues();
      ypos := VclkToYpos(128);
      side := Left;
      polygon := [];
    }

    /** Paddle::from_side: a paddle of the given side at 128V, whatever the side. */
    constructor FromSide(side: Side)
      ensures this.side == side
      ensures ypos == VclkToYpos(128) && ypos == 234
      ensures polygon == []
    {
      ConversionValues();
      var initY := VclkToYpos(128);
      ypos := initY;
      this.side := side;
      polygon := [];
    }

    /** One frame: move by the side's own actions, then redraw. */
    method Process(input: Actions)
      modifies this
      ensures ypos == Moved(side, input, old(ypos))
      ensures polygon == PaddleRect(side, ypos)
    {
      match side {
        case Left =>
          if input.upL { ypos := ypos + 1; }
          if input.dnL { ypos := ypos - 1; }
        case Right =>
          if input.upR { ypos := ypos + 1; }
          if input.dnR { ypos := ypos - 1; }
      }
      Draw();
    }

    /** Pushes the four corners of the paddle, from its top-left corner clockwise. */
    method Draw()
      modifies this`polygon
      ensures polygon == PaddleRect(side, ypos)
    {
      var vertices: seq<Vec2> := [];
      var xpos := match side
        case Left => HclkToXpos(128)
        case Right => HclkToXpos(128 + 256);
      var batHeight := VclkToInterval(15);
      var batWidth := HclkToInterval(4);
      vertices := vertices + [Vec2(xpos, ypos)];
      vertices := vertices + [Vec2(xpos + batWidth, ypos)];
      vertices := vertices + [Vec2(xpos + batWidth, ypos + batHeight)];
      vertices := vertices + [Vec2(xpos, ypos + batHeight)];
      ConversionValues();
      polygon := vertices;
    }
  }
}
