# A walk on a small planet, modelled in Dafny

The game is a terminal game drawn with ftxui. A stick figure walks on the
surface of a sphere among grass tufts and trees, looking for an exit. Once the
player comes within 5 units of the exit, the game shows "Victory!" and ends
two seconds later.

This project models the discrete core of that game:

- **The `GameState` session.** Module `Game`, class `Game.GameState`.
  - Its fields and their initial values.
  - The four arrow handlers and the movement bookkeeping behind them.
  - The walk animation counter and its idle reset.
  - The win latch and the exit timer.
  - World generation, which builds 300 grass tufts, 75 trees and one exit. The exit reference is kept as an index into `objects`.
  - The frame drawing: the starfield, the two object passes, the planet, the player and the victory text.
- **`draw_chars`.** Module `DrawHelpers`. It splits a string at line breaks and emits one text call per line on row-aligned rows.
- **The world objects.** Module `Objects`. A grass tuft, a tree or the exit, each with a foreground and a background draw.
- **The integer screen point `Point2`.** Module `Point2D`. Its truncating conversion from `Point2F`.

The model's modules:

- `GameRules` holds the value-level rules the class applies: pass selection, the leg sprite, the player sprite, the win distance and the exit timer.
- `World` describes the generated world.
- `Starfield` holds the star recurrence.

The canvas is the sequence of drawing calls made on it (`Canvas.Command`). A drawing method returns the calls it makes, in order.

### Floating point and randomness

The floating-point camera geometry is not computed. Reals stand for doubles.

The operations that need `sqrt`, `cos`, `sin` or the screen projection are a `FloatOps` value, passed to the methods that use them. The walk direction, the snap back to the sphere, the turn of the normal and the projection to a `Point2` all come from it.

Two things are computed exactly on reals:

- An object's signed depth, `(point - player_pos) . normal`.
- The win test. "Length below 5" is stated as "squared length below 25".

The random engine is a `RandomDraws` value: the sequence of coordinate draws and the sequence of grass-type draws. The class counts how many of each it has used.

### Depth sign: the code is followed

The comment on `project_info_t` says that a negative distance means the object is in front. The passes do the opposite: depth ≥ 0 goes to the foreground pass, and depth < 0 to the background pass. The model follows the code (`GameRules.InForeground`).

## Model

| member | source | states |
|---|---|---|
| Point2D.TruncTowardZero | src/geometry/point2.hpp:9 | the cast drops the fraction toward zero: below the value for a non-negative double, above it for a negative one, by less than 1 |
| Point2D.FromPoint2F | src/geometry/point2.hpp:9 | each coordinate keeps its sign and loses less than 1 of its magnitude; undefined casts (outside `int`) are excluded |
| Point2D.TruncationExamples | src/geometry/point2.hpp:9 | (2.9, -2.9) converts to (2, -2): truncation, neither rounding nor flooring |
| Point2D.AddThenSub | src/geometry/point2.hpp:10-11 | (a + b) - b == a whenever no `int` overflows |
| Point2D.SubThenAdd | src/geometry/point2.hpp:10-11 | (a - b) + b == a whenever no `int` overflows |
| Point2D.Add | src/geometry/point2.hpp:11 | `operator+`: taking b back off each coordinate of the sum gives a's coordinate; the sum must fit an `int` |
| Point2D.Sub | src/geometry/point2.hpp:10 | `operator-`: adding b back to each coordinate of the difference gives a's coordinate; the difference must fit an `int` |
| DrawHelpers.TruncDiv | src/draw_helpers.cpp:10 | C++ division by a positive divisor: the quotient rounds toward zero for both signs of the dividend |
| DrawHelpers.QuantizeRow | src/draw_helpers.cpp:10 | for y ≥ 0 the anchor row is the largest row ≤ y; for y < 0 it is the smallest row ≥ y |
| DrawHelpers.QuantizedRowIsMultiple | src/draw_helpers.cpp:10 | the anchor row is a multiple of the row height 4 |
| DrawHelpers.QuantizeNegativeRoundsTowardZero | src/draw_helpers.cpp:10 | -1 is anchored on row 0 and -5 on row -4 |
| DrawHelpers.Find | src/draw_helpers.cpp:16 | a found position lies in the searched range and holds the character |
| DrawHelpers.FindIsFirst | src/draw_helpers.cpp:16 | the position found is the first one; `npos` means the character does not occur |
| DrawHelpers.LinesFrom | src/draw_helpers.cpp:15-20 | the do-while loop always yields at least one line |
| DrawHelpers.LinesCount | src/draw_helpers.cpp:11-20 | there is one line more than there are '\n' characters |
| DrawHelpers.LinesHaveNoNewline | src/draw_helpers.cpp:16-17 | no line contains '\n' |
| DrawHelpers.JoinLinesOfLines | src/draw_helpers.cpp:15-20 | the lines rejoined with '\n' give the string back |
| DrawHelpers.LinesOfJoinLines | src/draw_helpers.cpp:15-20 | splitting newline-free pieces joined with '\n' gives the pieces back |
| DrawHelpers.DrawCharsLayout | src/draw_helpers.cpp:8-21 | count('\n') + 1 calls, all at the given x and colour, one row apart, the last on the anchor row; they hold no '\n' and together spell the string |
| DrawHelpers.DrawCharsShape | src/draw_helpers.cpp:8-21 | every output has at least one text, all at the point's column and in the given colour, the last on the anchor row |
| DrawHelpers.DrawCharsEmpty | src/draw_helpers.cpp:15-20 | an empty string still yields one call, with "" on the anchor row |
| DrawHelpers.DrawChars | src/draw_helpers.cpp:8-21 | the do-while loop makes exactly the calls `DrawCharsSpec` describes |
| Objects.GrassGlyph | src/objects/grass.cpp:10-19 | type 0 gives "///", type 1 gives three backslashes, and any other type gives "" (each an if-and-only-if) |
| Objects.MakeGrass | src/objects/grass.cpp:8-20 | the tuft keeps its position; its glyph is visible exactly for types 0 and 1, and has 3 characters when visible |
| Objects.DrawForeground | src/objects/grass.cpp:23-26 | `draw_foreground` of every kind (also src/objects/tree.cpp:20-23, src/objects/exit.cpp:18-21): at least one text, at the point's column, in the kind's foreground colour; a tuft is one text of its glyph on the point's own row; a tree or the exit ends on the anchor row |
| Objects.DrawBackground | src/objects/grass.cpp:22 | `draw_background` of every kind (also src/objects/tree.cpp:25-29, src/objects/exit.cpp:23-26): nothing for grass; for a tree or the exit at least one text, at the point's column, in the kind's background colour, ending on the anchor row |
| Objects.GrassPasses | src/objects/grass.cpp:22-26 | the background draw is empty; the foreground draw is one green text at exactly the given point |
| Objects.GrassIsNotRowAligned | src/objects/grass.cpp:23-26 | a tuft at y = 5 stays on 5, where `draw_chars` would have moved it to 4 |
| Objects.SpriteLiterals | src/objects/tree.cpp:12-16 | the sprite constants are the raw strings of the tree and the exit |
| Objects.TreeGlyphSplit | src/objects/tree.cpp:8-17 | the tree sprite has 4 line breaks and splits into 5 lines, the first of them empty |
| Objects.ExitGlyphSplit | src/objects/exit.cpp:7-16 | the exit sprite has 3 line breaks and splits into its 4 lines |
| Objects.GlyphLines | src/draw_helpers.cpp:11-20 | a string joined from newline-free lines has one line break fewer than lines, and splits back into them |
| Objects.DrawCharsByLines | src/draw_helpers.cpp:12-19 | for a string with known lines, line i is drawn (n - 1 - i) rows above the anchor row |
| Objects.DrawCharsOfLines | src/draw_helpers.cpp:8-21 | for a string joined from newline-free lines, one call per line, the last on the anchor row and each earlier one a row higher |
| Objects.Recolored | src/objects/tree.cpp:20-29 | drawing a string in two colours gives the same calls except for the colour |
| Objects.SpritePasses | src/objects/tree.cpp:20-29 | a tree or the exit draws the same lines at the same rows in both passes, only in its darker colour in the background pass |
| Starfield.Lehmer | src/gamestate.cpp:162-163 | every state of the recurrence lies in [0, 2^31 - 1) |
| Starfield.Stars | src/gamestate.cpp:149-166 | exactly 200 white points, all on the canvas |
| Starfield.FirstStarPair | src/gamestate.cpp:152-163 | the first raw pair is (144813, 55705) |
| Starfield.StepInt32 | src/gamestate.cpp:162-163 | a step in `int` is defined exactly when the product fits 32 bits, and then equals one step of the recurrence |
| Starfield.StarStepsOverflowInt32 | src/gamestate.cpp:162-163 | as written, the x stream overflows `int` on its second step and the y stream on its third |
| Starfield.StepFitsInt64 | src/gamestate.cpp:154-156 | with a 64-bit product, as `std::minstd_rand` computes it, no step overflows for either multiplier |
| World.GrassObjectsStep | src/gamestate.cpp:136-138 | each tuft takes the next coordinate draw and the next grass-type draw |
| World.TreeObjectsStep | src/gamestate.cpp:144-146 | each tree takes the next coordinate draw |
| World.WorldLayout | src/gamestate.cpp:133-178 | 376 objects: grass at 0..299, trees at 300..374 and the only exit at 375, each at the coordinate draw of its own index |
| World.GeneratedGrassVisible | src/gamestate.cpp:135-137 | when the distribution draws only 0 or 1, every generated tuft has a 3-character glyph |
| GameRules.PassesPartition | src/gamestate.cpp:115-131 | the two passes together select every object exactly once (as multisets): depth ≥ 0 in the foreground pass, depth < 0 in the background pass |
| GameRules.PassDrawsSelected | src/gamestate.cpp:115-131 | a pass's calls are the draws of exactly the objects it selects, in order |
| GameRules.LegsLeft | src/gamestate.cpp:194-207 | a 3-character, newline-free string exactly for frames 0..3, and "" for any other frame |
| GameRules.SwapSlash | src/gamestate.cpp:213-221 | '/' and '\\' trade places (both directions); every other character is kept |
| GameRules.Mirrored | src/gamestate.cpp:211-222 | mirroring keeps the length |
| GameRules.MirroredTwice | src/gamestate.cpp:211-222 | mirroring is its own inverse |
| GameRules.MirroredKeepsLines | src/gamestate.cpp:211-222 | a mirrored string has a line break exactly when the original has one |
| GameRules.LegsRightFrames | src/gamestate.cpp:209-224 | facing right, the four frames are the left-facing ones with frames 1 and 3 traded and frames 0 and 2 unchanged; both facings have length 3 |
| GameRules.PlayerSpriteFormat | src/gamestate.cpp:229 | the formatted string is head, body and legs joined by line breaks |
| GameRules.ThreeRows | src/draw_helpers.cpp:8-21 | three newline-free lines are drawn two rows above, one row above and on the anchor row |
| GameRules.PlayerRows | src/gamestate.cpp:226-231 | the player is three white calls: legs on the anchor row, body one row up, head two rows up |
| GameRules.NotDoneEarly | src/gamestate.cpp:99 | never done before the win or within 2 s of it; done once over 2 s have passed since the win |
| GameRules.DoneStaysDone | src/gamestate.cpp:99 | once done, done at every later time |
| Game.GameState.IsDone | src/gamestate.cpp:99 | `is_done`: false before the win and within 2 s of it; true once the game is won and over 2 s have passed since |
| Game.NextStepFrame | src/gamestate.cpp:54-57 | the next walk frame stays in [0, 4) and goes 0→1→2→3→0 |
| Game.StepFrameCycle | src/gamestate.cpp:54-57 | four steps return to the starting frame, and no fewer do |
| Game.GameState.constructor | src/gamestate.hpp:71-85 | the fields' initial values (facing right, frame 0, not won, the start position and axes); the world is `WorldFrom` of the first draws; the exit reference designates entry 375 |
| Game.GameState.NextCoords | src/gamestate.cpp:265-272 | returns the next coordinate draw and uses it up |
| Game.GameState.NextGrassType | src/gamestate.cpp:135-137 | returns the next grass-type draw and uses it up |
| Game.GameState.GenerateGrass | src/gamestate.cpp:133-139 | appends the 300 tufts of the next draws, and nothing else |
| Game.GameState.GenerateTrees | src/gamestate.cpp:141-147 | appends the 75 trees of the next coordinate draws |
| Game.GameState.GenerateExit | src/gamestate.cpp:168-172 | appends the exit, and the exit reference designates it |
| Game.GameState.GenerateWorld | src/gamestate.cpp:174-178 | appends grass, trees and exit after the existing objects; the reference designates the new exit |
| Game.GameState.IncStepFrame | src/gamestate.cpp:54-57 | the frame becomes the next one in the cycle |
| Game.GameState.ProcessBeforeFrame | src/gamestate.cpp:21-24 | the frame resets to 0 exactly when over 250 ms have passed since the last move; nothing else changes |
| Game.GameState.CheckWinCondition | src/gamestate.cpp:26-31 | the win latches once near the exit and never unlatches; its time is written only on the change from not won to won |
| Game.GameState.PostProcessMovement | src/gamestate.cpp:33-39 | the walk direction comes from the position before the snap, reversed when facing left; the player is snapped to the sphere; the move is stamped; the win is checked at the new position |
| Game.GameState.PostProcessRotation | src/gamestate.cpp:41-45 | the normal turns by the signed step, then the movement bookkeeping runs |
| Game.GameState.OnArrowUp | src/gamestate.cpp:49 | a turn one way by the rotation oracle; the walk direction is recomputed from the turned normal and the position before the snap, reversed when facing left; the player is snapped and the move stamped; the win is checked; facing and frame are untouched, and the state stays valid |
| Game.GameState.OnArrowDown | src/gamestate.cpp:50-52 | a turn the other way, with the same recomputed walk direction, snap, stamp and win check as the up arrow |
| Game.GameState.OnArrowRight | src/gamestate.cpp:59-68 | facing right: a step along the walk direction and the next frame; facing left: only the turn to face right, frame kept; then the bookkeeping |
| Game.GameState.OnArrowLeft | src/gamestate.cpp:70-79 | the mirror image of the right arrow |
| Game.GameState.GetLegsStr | src/gamestate.cpp:209-224 | the in-place reverse and slash patch give `Legs`: the left legs, mirrored when facing right |
| Game.GameState.DrawBackground | src/gamestate.cpp:149-166 | the loop plots exactly `Stars`, which depends on no game state |
| Game.GameState.DrawObjectsForeground | src/gamestate.cpp:115-122 | the foreground draws of the objects of depth ≥ 0, in order |
| Game.GameState.DrawObjectsBackground | src/gamestate.cpp:124-131 | the background draws of the objects of depth < 0, in order |
| Game.GameState.DrawPlayer | src/gamestate.cpp:226-231 | `draw_chars` of the player sprite in white at the player's screen point |
| Game.GameState.DrawScene | src/gamestate.cpp:85-96 | sky, objects behind, planet, player, objects in front, then "Victory!" once won |
| Game.GameState.BeginFrame | src/gamestate.cpp:83-84 | the frame time is stamped and the walk resets exactly after over 250 ms idle; a finished game stays finished when the time does not go back |
| Game.GameState.Planet | src/gamestate.cpp:233-237 | `draw_planet`: one rosy-brown filled circle of radius 250 (the world radius cast to `int`) at the projected world centre |
| Game.GameState.Draw | src/gamestate.cpp:81-97 | stamps the frame time, applies the idle reset, draws the frame; a finished game stays finished at any later frame |

## Left out

- src/main.cpp is not part of this model. It holds the ftxui event loop, the refresh thread and command-line parsing: I/O and concurrency.
- Floating-point geometry is left to the `FloatOps` oracle. This covers `normalized`, `length`, `cross`, `project_on`, `get_projection_f`, `screen_offset`, the `cos`/`sin` turn and the snap back to the sphere. `angle_step` is folded into the sign the oracle receives. The model proves nothing about these values beyond where they are stored.
- `generate_random_coords_on_world`, the `std::default_random_engine` seeded from `std::random_device`, and the two distributions are left out. They are taken as the `RandomDraws` sequences. The model keeps coordinate draws and grass-type draws in two separate sequences. It does not model that both come from one engine, nor the order in which C++ evaluates the two arguments of `grass_t`'s constructor.
- `draw_object1` and `draw_object2` are left out. They use `pow` and double radii, and their colour has an unguarded `uint8_t` wrap-around. `DrawScene` and `Draw` therefore omit their calls.
- `draw_overlay` (empty) and `draw_debug` (debug builds only) are left out.
- Game.GameState.Draw: time is integer milliseconds passed in as `now`, instead of reading `steady_clock`. Sub-millisecond differences are not modelled.
- DrawHelpers.TruncDiv: only positive divisors are covered, which is all `draw_chars` uses.
- DrawHelpers.DrawChars: `point.y` arithmetic near the `int` range (src/draw_helpers.cpp:12, 19) is not modelled; the rows are mathematical integers. In C++, an anchor row of 2147483644 or more overflows on the step after the last line, even for "", and a very negative y overflows when the rows above are subtracted.
- The projection oracle returns the already truncated `Point2`, so the `Point2(Point2F)` casts in src/gamestate.cpp:108, 119 and 128 are not routed through `Point2D.FromPoint2F`, and a projected coordinate outside the `int` range (undefined behaviour in C++) is not modelled.
- Point2D.Add and Point2D.Sub require the results to fit an `int`. In C++ an overflow there is undefined behaviour.
- Game.GameState.Draw: the canvas's width and height are parameters. The canvas itself, and the clipping ftxui applies to calls outside it, are not modelled.

## Findings

| source | as written | input that shows it | evidently intended | confidence | as-written member | corrected member |
|---|---|---|---|---|---|---|
| src/gamestate.cpp:162-163 | `x = (x * x_mult) % mod_num` and the same for y, computed in 32-bit `int` | the second x step, 144813 * 48271 = 6990268323, which exceeds 2^31 - 1 (signed overflow, undefined behaviour); the y stream overflows on its third step | the Lehmer recurrence of `std::minstd_rand`, whose product is formed in 64 bits and always fits | not executed | Starfield.StarStepsOverflowInt32 | Starfield.StepFitsInt64 |

The rest of the model uses the corrected recurrence (`Starfield.Lehmer`, used by `Game.GameState.DrawBackground`).
