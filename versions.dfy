/**
 * How the two prototypes' conversions relate. The horizontal ones and the
 * extent ones are the same functions under different names; the vertical
 * position differs by the 8-clock sync delay that only the engine-plugin
 * prototype adds.
 */
module Versions {
  import Godot = GodotPong
  import Ggez = GgezPong

  /** Both prototypes place a horizontal clock at the same column. */
  lemma HorizontalPositionsAgree(hclk: int)
    ensures Godot.HclkToXpos(hclk) == Ggez.HclkToXpos(hclk)
  {
  }

  /** Both prototypes give a duration the same pixel extent. */
  lemma ExtentsAgree(n: int)
    ensures Godot.HclkToInterval(n) == Ggez.HclkToPx(n)
    ensures Godot.VclkToInterval(n) == Ggez.VclkToPx(n)
  {
  }

  /** The engine-plugin row of a clock is the framework row of the clock 8 later. */
  lemma VerticalPositionIsDelayed(vclk: int)
    ensures Godot.VclkToYpos(vclk) == Ggez.VclkToYpos(vclk + 8)
  {
  }

  /**
   * Inside the active area (from the end of blanking on) the sync delay
   * lowers everything by 15 or 16 pixels: 8 clocks are 15.6 pixels, and
   * truncation makes that either 15 or 16. At 128V it is 234 against 218.
   */
  lemma VerticalDelayInPixels(vclk: int)
    requires vclk >= 16
    ensures 15 <= Godot.VclkToYpos(vclk) - Ggez.VclkToYpos(vclk) <= 16
  {
    var godotY, ggezY := Godot.VclkToYpos(vclk), Ggez.VclkToYpos(vclk);
    var n := (vclk - 16) * 195;
    assert ggezY * 100 <= n < ggezY * 100 + 100;
    assert godotY * 100 <= n + 1560 < godotY * 100 + 100;
  }
}
