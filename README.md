# Pong prototypes: clock-to-pixel coordinates, net and paddles

This project models the arithmetic and layout core of two early prototypes
of a clone of the arcade paddle-and-ball game: one written as a plugin for
a game engine (`rust/src/lib.rs`), one for a lightweight 2D framework
(`ggez/src/main.rs`).

The original game had no pixels: positions were counts of the horizontal
(H) and vertical (V) clocks of an analog video signal of 455 x 262 clocks.
Both prototypes map that signal onto a 640 x 480 viewport at 1.68 pixels
per H clock and 1.95 pixels per V clock, measuring positions from the end
of blanking (81 H, 16 V) and truncating toward zero. Both draw a centre
net as a column of short segments: the engine prototype puts its left edge
at 256H (column 320), while the framework prototype places its segments at
x = 0 and at row minus 240. The engine prototype also has two paddles that
move one pixel per frame while an input action is held.

Modules:

- `Primitives` (`primitives.dfy`): truncation toward zero (Rust's
  `as i32`), the scale-and-truncate idiom `(n as f32 * k) as i32` with `k`
  in hundredths, a 2D vertex, and the four-corner rectangle the engine
  prototype pushes for the net and the paddles.
- `GodotPong` (`godot_pong.dfy`): the engine prototype's four conversions,
  the net's vertex and index buffers, and the paddle (a class whose row
  changes each frame and whose outline is redrawn).
- `GgezPong` (`ggez_pong.dfy`): the framework prototype's four conversions
  and the positions at which its net segments are placed.
- `Versions` (`versions.dfy`): how the two prototypes' conversions relate.

Notes on the code:

- The engine prototype's vertical position adds an 8-clock sync delay
  (`(v - 16 + 8) * 1.95`); the framework prototype does not
  (`(v - 16) * 1.95`). Both are modelled, and `Versions` states the shift.
- The paddle row is not clamped; the model does not clamp it either
  (`GodotPong.HeldUpIsUnclamped`).
- "Up" adds one to the row, though rows grow downwards on screen; the
  model keeps the sign the code uses.

## Model

| member | source | states |
|---|---|---|
| `Primitives.TruncDiv` | rust/src/lib.rs:36 | the result is the quotient truncated toward zero: `q*d <= n < q*d + d` for a non-negative numerator, `q*d - d < n <= q*d` for a negative one, with the sign of the numerator |
| `Primitives.TruncQuotientUnique` | rust/src/lib.rs:36 | only one integer is the truncated quotient, so the truncation property determines a conversion's result |
| `Primitives.TruncDivMonotone` | rust/src/lib.rs:36 | truncating division by a positive divisor keeps the order of numerators, across the sign change too |
| `Primitives.ScaleTrunc` | rust/src/lib.rs:40 | models the idiom `(x as f32 * k) as i32` with `k` as an exact rational in hundredths: the result is the exact product `x * k` truncated toward zero, and zero maps to zero |
| `Primitives.ScaleTruncMonotone` | rust/src/lib.rs:40 | scaling by a non-negative factor and truncating is monotone non-decreasing |
| `GodotPong.HclkToXpos` | rust/src/lib.rs:34-37 | the column is `(hclk - 81 + 16) * 1.68` truncated toward zero |
| `GodotPong.HclkToInterval` | rust/src/lib.rs:39-41 | the width is `hclk * 1.68` truncated toward zero, with no offset; between 0 and twice the clock count for a non-negative count |
| `GodotPong.VclkToYpos` | rust/src/lib.rs:43-46 | the row is `(vclk - 16 + 8) * 1.95` truncated toward zero, sync delay included |
| `GodotPong.VclkToInterval` | rust/src/lib.rs:48-50 | the height is `vclk * 1.95` truncated toward zero, with no offset; between the clock count and twice it for a non-negative count |
| `GodotPong.PositionsMonotone` | rust/src/lib.rs:34-46 | both position conversions are monotone non-decreasing |
| `GodotPong.IntervalsMonotone` | rust/src/lib.rs:39-50 | both interval conversions map 0 to 0 and are monotone non-decreasing |
| `GodotPong.ConversionValues` | rust/src/lib.rs:34-50 | the values the prototype draws with: 256H is column 320, 128H is 105, 384H is 535, 0H is -109 (toward zero, not -110), 128V is row 234; intervals 1H = 1, 4H = 6, 4V = 7, 8V = 15, 15V = 29 |
| `GodotPong.NetDraw` | rust/src/lib.rs:93-115 | the net loop starts a segment at rows 0, 15, ..., 465: 128 vertices, segment k is (320, 15k), (321, 15k), (321, 15k+7), (320, 15k+7) in that order; the index list has one entry per four vertices and entry k is [4k, 4k+1, 4k+2, 4k+3] |
| `GodotPong.PaddleX` | rust/src/lib.rs:184-187 | the paddle column depends only on its side: 105 on the left, 535 on the right, both inside the viewport |
| `GodotPong.PaddleRect` | rust/src/lib.rs:183-194 | the paddle outline is (x, y), (x+6, y), (x+6, y+29), (x, y+29), with x from the side and y the paddle's row |
| `GodotPong.Moved` | rust/src/lib.rs:151-160 | one frame moves the row up by one exactly when only the side's up action is held, down by one exactly when only its down action is held, and leaves it unchanged exactly when both or neither are held |
| `GodotPong.MovedIgnoresOtherSide` | rust/src/lib.rs:151-160 | a paddle's move depends only on its own side's two actions |
| `GodotPong.HeldUpIsUnclamped` | rust/src/lib.rs:149-160 | holding up alone for n frames moves the row by exactly n, from any row: nothing clamps it |
| `GodotPong.Paddle.Init` | rust/src/lib.rs:134-142 | the engine's default paddle is a left paddle at row 234 (128V) |
| `GodotPong.Paddle.FromSide` | rust/src/lib.rs:166-176 | a paddle keeps the side it is made for and starts at row 234 (128V) whatever the side |
| `GodotPong.Paddle.Process` | rust/src/lib.rs:149-162 | the new row is the old row moved by the paddle's own actions, and the outline is redrawn at the new row |
| `GodotPong.Paddle.Draw` | rust/src/lib.rs:182-196 | the outline handed to the polygon is the paddle rectangle at the current side and row; nothing else changes |
| `GgezPong.HclkToXpos` | ggez/src/main.rs:27-30 | the column is `(hclk - 81 + 16) * 1.68` truncated toward zero |
| `GgezPong.HclkToPx` | ggez/src/main.rs:32-34 | the width is `hclk * 1.68` truncated toward zero; between 0 and twice the clock count for a non-negative count |
| `GgezPong.VclkToYpos` | ggez/src/main.rs:36-39 | the row is `(vclk - 16) * 1.95` truncated toward zero, with no sync delay |
| `GgezPong.VclkToPx` | ggez/src/main.rs:41-43 | the height is `vclk * 1.95` truncated toward zero; between the clock count and twice it for a non-negative count |
| `GgezPong.PositionsMonotone` | ggez/src/main.rs:27-39 | both position conversions are monotone non-decreasing |
| `GgezPong.ExtentsMonotone` | ggez/src/main.rs:32-43 | both extent conversions map 0 to 0 and are monotone non-decreasing |
| `GgezPong.ConversionValues` | ggez/src/main.rs:27-50 | 256H is column 320, 16V is row 0, 128V is row 218; the net is 1 wide, a segment 7 tall, the spacing 15 |
| `GgezPong.NetDraw` | ggez/src/main.rs:47-61 | the segment image is 1 x 7; exactly 32 instances are placed, instance k at (0, 15k - 240), from -240 to 225, strictly increasing |
| `Versions.HorizontalPositionsAgree` | ggez/src/main.rs:27-30 | both prototypes compute the same column for every horizontal clock |
| `Versions.ExtentsAgree` | ggez/src/main.rs:32-43 | both prototypes compute the same width and height for every duration |
| `Versions.VerticalPositionIsDelayed` | rust/src/lib.rs:43-46 | the engine prototype's row for a clock is the framework prototype's row for the clock 8 later |
| `Versions.VerticalDelayInPixels` | rust/src/lib.rs:43-46 | from the end of vertical blanking on, the sync delay lowers the row by 15 or 16 pixels |

## Left out

- `Primitives.ScaleTrunc`: the factor is an exact rational; the code multiplies in `f32`, so where the `f32` factor differs from the exact one and the exact product is a whole number the code can truncate one lower (75 * 1.68 gives 125 in `f32`, not 126).
- `GodotPong.HclkToXpos`: multiplies by exactly 1.68; the `f32` 1.68 is slightly smaller, so where `(hclk - 65) * 1.68` is a whole number the code can give one less (hclk 140, 215, 365). No clock the prototype uses is affected.
- `GodotPong.HclkToInterval`: multiplies by exactly 1.68; with the slightly smaller `f32` 1.68 the code can give one less where `hclk * 1.68` is a whole number (75, 150, 300). No duration the prototype uses is affected.
- `GgezPong.HclkToXpos`: as `GodotPong.HclkToXpos`, the exact 1.68 can give one more than the code's `f32` product at hclk 140, 215, 365; no clock the prototype uses is affected.
- `GgezPong.HclkToPx`: as `GodotPong.HclkToInterval`, the exact 1.68 can give one more than the code's `f32` product at 75, 150, 300; no duration the prototype uses is affected.
- `GodotPong.VclkToYpos`, `GodotPong.VclkToInterval`, `GgezPong.VclkToYpos` and `GgezPong.VclkToPx` multiply by exactly 1.95; the `f32` value errs upward, which does not change any truncated result within the signal's 262 clocks.
- `GodotPong.Moved`: the row is an unbounded integer; the code's row is an `i32`, and `+= 1` / `-= 1` at its limits panics in a debug build and wraps in a release build. Nothing clamps the row, so holding one key for about 2^31 frames reaches a limit; that behaviour is not modelled.
- `GodotPong.HeldUpIsUnclamped`: holds for unbounded rows only; in the code the row would overflow its `i32` range after 2^31 - 1 - ypos frames (panic or wrap, by build), which the lemma does not capture.
- `GodotPong.Paddle.Process`: updates an unbounded row; the `i32` overflow of the code's row at its limits (panic or wrap) is not modelled.
- The conversions work on unbounded integers: `i32` overflow, `f32` loss of precision beyond 2^24 and the saturation of `as i32` are not modelled, as the arguments stay within the signal's 455 x 262 clocks.
- Vertex coordinates are integers; the code stores them as `f32`, which holds the net's vertices and a paddle's vertices exactly while the paddle row and the row plus 29 stay within ±2^24.
- `GodotPong.PaddleRect`: the vertices are exact integers for every row; the code converts the row with `as f32` and adds the height in `f32`, so once the row is beyond ±2^24 its vertices are rounded (row 16777217 gives top edge 16777216.0 and bottom edge 16777244.0, not 16777217 and 16777246).
- `GodotPong.Paddle.Draw`: the outline is exact for every row; the code's `f32` vertices round once the row is beyond ±2^24, which the model does not capture.
- `GodotPong.Paddle.Process`: the outline it redraws is exact for every row; the code's `f32` vertices round once the row is beyond ±2^24 (reached after about 2^24 frames of one held key), which the model does not capture.
- Engine glue: the extension entry point, the engine base classes, `add_child`, `set_polygon`/`set_polygons` (modelled as the returned buffers or the paddle's `polygon` field), object handles and their clones, and the `Main` node that creates the net and two paddles and draws the net once.
- The input singleton: a frame's input is the `Actions` value of the four held actions.
- The frame time passed to `process` is unused by the code and not modelled.
- Framework glue: the context, canvas, image, instance array, draw parameters, the debug printing, the event loop and `main`; the net is modelled by the image size and the list of destinations it would draw.
- The empty `Paddle` and the `State` holding it in the framework prototype, and its unused `PADDLE_MOVE_BY` and `WIN_SCORE` constants: they carry no behaviour.
- The panics of `try_into().unwrap()` on a negative spacing and of `step_by(0)`: the spacing is the constant 15.
- Ball physics, velocity tables, collisions, scoring, the win threshold, attract mode and paddle clamping: none of them is in these two prototypes.
