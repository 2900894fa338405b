# Level-fit camera and player movement of a 2D LDtk platformer

This project models, in Dafny, the two gameplay systems of a small Bevy
platformer that hold real logic.

- `camera_fit_inside_current_level` (src/ldtk.rs). Each tick it refits the
  single camera to the currently selected LDtk level. It compares the level's
  pixel aspect ratio with 16:9. A level strictly wider than 16:9 gets a
  viewport whose height is snapped to the 9-pixel grid. Any other level gets a
  viewport whose width is snapped to the 16-pixel grid. The other side always
  follows from 16:9. The camera then follows the player along one axis,
  clamped so that it shows nothing beyond the level on that axis. It is pinned
  to the level's edge on the other axis, and finally moved by the level's
  world origin.
- `move_player` (src/player.rs). It adds `intent * 150 * dt` to the
  translation of every entity that carries the `Player` marker. It does
  nothing when there is no movement intent.

Files:

- `viewport.dfy`, module `Viewport`: the pure arithmetic. It holds the branch
  test, the grid snapping, the 16:9 viewport, `f32::clamp`, and the condition
  under which that clamp panics.
- `ldtk_loader.dfy`, module `LdtkLoader`: the level and camera records and the
  specification of one refit, of the loop over levels and of a whole tick. The
  `Camera` class holds the projection and translation fields; its method
  `FitInsideCurrentLevel` updates them in place as the system does and is
  proved equal to the specification.
- `player.dfy`, module `Player`: the displacement of one tick, and
  `MovePlayer`, which updates an array of translations in place.
- `vectors.dfy` and `wrappers.dfy`: the engine's `Vec2`/`Vec3` and an
  `Option` type.

Modelling choices:

- Pixel sizes are natural numbers. The rounding `round(x / g) * g` is
  computed in integers: `9 * ((2*h + 9) / 18)` and `16 * ((w + 8) / 16)`.
  Ties round up, as `f32::round` does for positive values. Ties can only occur
  on the 16-pixel grid.
- The branch test `px_wid / px_hei > 16/9` is the cross-multiplied
  `9 * px_wid > 16 * px_hei`. `Viewport.WiderIffRatioAbove` proves the two
  agree on exact numbers. A zero height also matches the float behaviour: an
  infinite ratio takes the wider branch, and the NaN of `0 / 0` does not.
- Positions, offsets and the `f32` viewport sizes are exact reals.
- `f32::clamp` panics when its lower bound exceeds its upper bound. This
  happens here when snapping makes the viewport longer than the level along
  the tracked axis. The panic is a precondition of the camera system; it is
  demanded only of selected levels, and only when there is exactly one player.
  `Viewport.OverflowExamples` exhibits levels that violate it (25 x 14 and
  24 x 14).
- The player query's `get_single` succeeds only for exactly one Player. The
  system receives the translations of all Player entities and does nothing
  unless there is exactly one.
- Three consequences of the code that the model keeps as they are:
  - The clamp panics for a selected level whose snapped viewport is longer
    than the level along the tracked axis, as above.
  - A 1600 x 800 level gets a viewport height of 801 (round(88.9) * 9), not
    729, and a width of 1424 (`Viewport.FitViewportExample`).
  - The snapped axis is not clamped, so there the viewport can extend up to
    4 pixels (wider levels) or 8 pixels (other levels) past the level
    (`Viewport.FittedAxisOvershoot`).
- The camera's `scale` is spawned as `CAMERA_SCALE` = 1.0 and never changed
  by the system, so the fixed viewport size is the visible area. Statements
  about what is visible assume that scale.

## Model

| member | source | states |
|---|---|---|
| `Viewport.WiderIffRatioAbove` | src/ldtk.rs:67-69 | for a positive height, the wider branch is taken exactly when `px_wid / px_hei` is strictly greater than 16/9 |
| `Viewport.BranchExamples` | src/ldtk.rs:67-79 | a level of exactly 16:9 (32 x 18, 16 x 9) or a square one takes the taller branch; 33 x 18 and 1600 x 800 take the wider one |
| `Viewport.SnapHeight` | src/ldtk.rs:71 | the snapped height is a multiple of 9 within 4 pixels of the level height |
| `Viewport.SnapHeightIsNearest` | src/ldtk.rs:71 | no multiple of 9 is nearer to the level height than the snapped height |
| `Viewport.SnapWidth` | src/ldtk.rs:81 | the snapped width is a multiple of 16 in `(px_wid - 8, px_wid + 8]` |
| `Viewport.SnapWidthIsNearest` | src/ldtk.rs:81 | no multiple of 16 is nearer to the level width, and of two equally near ones the larger is chosen (ties round up) |
| `Viewport.SnapWidthTieRoundsUp` | src/ldtk.rs:81 | a width of 24 snaps to 32, 8 to 16 and 23 to 16 |
| `Viewport.GridCellsInRatio` | src/ldtk.rs:72 | `9m` scaled by 16/9 is exactly `16m`, and `16m` divided by 16/9 is exactly `9m` |
| `Viewport.FitViewport` | src/ldtk.rs:67-84 | the viewport is exactly 16:9; its height is a whole multiple of 9 and its width a whole multiple of 16; the wider branch uses the snapped height, the taller branch the snapped width |
| `Viewport.FittedAxisOvershoot` | src/ldtk.rs:71-84 | on the snapped axis the viewport exceeds the level by at most 4 pixels (wider branch) or 8 pixels (taller branch) |
| `Viewport.FitViewportExample` | src/ldtk.rs:71-72 | a 1600 x 800 level gets a viewport of 1424 x 801 |
| `Viewport.Clamp` | src/ldtk.rs:75-77 | when `lo <= hi`, the result lies in `[lo, hi]`, equals the value when the value is in range, and is the point of the range nearest to the value |
| `Viewport.OnlyRoundingUpOverflows` | src/ldtk.rs:75-87 | the clamp range can be empty only when the fitted side was rounded up past the level's own size |
| `Viewport.OverflowExamples` | src/ldtk.rs:77-87 | 25 x 14 (wider) and 24 x 14 (taller) both get a 32 x 18 viewport and would make the clamp panic |
| `LdtkLoader.FitLevel` | src/ldtk.rs:67-92 | a refit sets the viewport origin to (0,0) and a fixed 16:9 mode on the snapped grid, and keeps scale and z. Wider branch: the final x lies in `[level.x, level.x + px_wid - width]`, equals `player.x - width/2` whenever that is in range, and otherwise rests on the nearer edge; the final y is `level.y`. The taller branch mirrors this on y, with x equal to `level.x` |
| `LdtkLoader.FitLevelOverwrites` | src/ldtk.rs:68-92 | a refit's result does not depend on the camera's previous viewport origin, scaling mode, x or y |
| `LdtkLoader.FitLevelKeepsPlayerInView` | src/ldtk.rs:75-88 | at the spawn scale 1.0, a player inside the level along the tracked axis lies inside the fitted viewport on that axis |
| `LdtkLoader.FitAll` | src/ldtk.rs:57-93 | the loop over levels never changes scale or z, and leaves the camera unchanged when no level is selected |
| `LdtkLoader.FitAllFollowsLastSelected` | src/ldtk.rs:57-66 | unselected levels never affect the camera: after the loop the camera is the refit of the original camera to the last selected level, or unchanged if none is selected |
| `LdtkLoader.Update` | src/ldtk.rs:48-52 | unless there is exactly one player, the camera's projection and transform are left unchanged; scale and z are never changed |
| `LdtkLoader.UpdateIgnoresPreviousPose` | src/ldtk.rs:68-92 | when a level is selected, two cameras with the same scale and z end in the same state, whatever their previous x, y and projection |
| `LdtkLoader.UpdateIdempotent` | src/ldtk.rs:48-96 | running the system twice with the same player and levels gives the same camera as running it once |
| `LdtkLoader.Camera.FitInsideCurrentLevel` | src/ldtk.rs:31-96 | the in-place update of the camera's fields, with the `+=` of the level origin, leaves the camera exactly in the state `Update` specifies |
| `Player.Displacement` | src/player.rs:28-33 | the displacement has z = 0; it is zero for a zero intent or a zero elapsed time; for non-negative time each component has the sign of the intent component (non-negative stays non-negative, non-positive stays non-positive) |
| `Player.DisplacementAdditive` | src/player.rs:28-33 | the displacement for `dt1 + dt2` is the sum of the displacements for `dt1` and `dt2` |
| `Player.DisplacementExample` | src/player.rs:28-33 | intent (1,0) for 0.1 s gives a displacement of exactly (15, 0, 0) |
| `Player.Translate` | src/player.rs:34-36 | every translation tagged as a player moves by the same displacement, and every other one is unchanged |
| `Player.TranslateCompose` | src/player.rs:34-36 | two moves compose into one move by the sum of their displacements |
| `Player.StillIntentMovesNothing` | src/player.rs:28-36 | a zero intent or a zero elapsed time leaves every translation unchanged |
| `Player.MovePlayer` | src/player.rs:20-37 | with no intent no translation changes. With an intent, every Player translation is moved by exactly `intent * 150 * dt`, for any number of players including zero. Non-player translations are untouched, and every z is kept |

## Left out

- `spawn_level` (src/ldtk.rs:14-28) creates the camera and asks the asset server to load the LDtk file. This is engine I/O. The `Camera` constructor takes any initial state instead.
- The plugin registrations (`Plugin::build` in src/ldtk.rs and src/player.rs) and the `PlayerBundle` derive are scheduling and registration glue with no logic.
- The LDtk project lookups, their `.expect` calls and `LevelSelection::is_match` are calls into the LDtk library. Each level record carries its pixel size and a `selected` flag instead. The level identifier is not modelled.
- `camera_query.single_mut()` panics unless there is exactly one camera. The model assumes the single camera: it is the receiver of `FitInsideCurrentLevel`.
- Exact `f32` behaviour is not modelled. The constant 16/9 is inexact in `f32`, so `height * ASPECT_RATIO` may be off by an ulp. The float division before the comparison may equate ratios that are not exactly equal. The model uses exact integers and reals.
- Negative pixel sizes are not modelled; LDtk level sizes are positive.
- The physics components of src/phys/components.rs are derived data bundles with no logic. The collider attachment to newly spawned players is not part of this model.
- Sprites, rendering, input collection (`Actions`) and the clock (`Time`) are external. The movement intent and the elapsed seconds are parameters of `MovePlayer`.
- The ECS query of `move_player` is modelled as an array of translations with a tag sequence marking the Player entities. Aliasing between entities does not arise in that model.
