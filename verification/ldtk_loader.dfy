/**
 * The level-fit camera system `camera_fit_inside_current_level`
 * (src/ldtk.rs). Each tick, if there is exactly one player, every loaded
 * level is inspected and each selected one refits the single camera:
 * a 16:9 fixed viewport snapped to the level, the camera clamped inside the
 * level along the axis it follows the player on, pinned to the level's edge
 * on the other, and finally moved by the level's world origin.
 *
 * The LDtk project lookup and the level selection test are not modelled:
 * each level record carries the pixel size the project gives it and a flag
 * saying whether the level selection matches it.
 */
module LdtkLoader {
  import opened Wrappers
  import opened Vectors
  import opened Viewport

  /** A spawned level: its pixel size, its transform's translation, and whether it is selected. */
  datatype Level = Level(pxWid: nat, pxHei: nat, translation: Vec3, selected: bool)

  /**
   * The projection's scaling mode. `WindowSize` stands for the mode the
   * camera is spawned with; the system only ever writes `Fixed`.
   */
  datatype ScalingMode = WindowSize | Fixed(width: real, height: real)

  /** What the system reads and writes of the camera: projection and translation. */
  datatype CameraState = CameraState(
    scale: real,
    viewportOrigin: Vec2,
    scalingMode: ScalingMode,
    translation: Vec3)

  /** Refitting the camera to this level does not reach the panicking clamp. */
  predicate Fits(level: Level) {
    ViewportFitsLevel(level.pxWid, level.pxHei)
  }

  /** Every selected level can be fitted without a panic. */
  predicate SelectedLevelsFit(levels: seq<Level>) {
    forall i :: 0 <= i < |levels| && levels[i].selected ==> Fits(levels[i])
  }

  /**
   * The camera coordinate `pos` along one axis follows the player there:
   * it never shows area before `origin` or beyond `origin + extent`, it
   * centres the player whenever it can, and otherwise it rests on the edge
   * nearer to the player.
   */
  predicate FollowsPlayer(pos: real, player: real, origin: real, extent: real, size: real) {
    var centred := player - size / 2.0;
    origin <= pos <= origin + extent - size
    && (origin <= centred <= origin + extent - size ==> pos == centred)
    && (centred < origin ==> pos == origin)
    && (centred > origin + extent - size ==> pos == origin + extent - size)
  }

  /** The camera after one selected level has refitted it (src/ldtk.rs, lines 67-92). */
  function FitLevel(s: CameraState, player: Vec3, level: Level): (r: CameraState)
    requires Fits(level)
    ensures r.scale == s.scale && r.translation.z == s.translation.z
    ensures r.viewportOrigin == Zero2
    ensures r.scalingMode.Fixed?
    ensures r.scalingMode.width * 9.0 == r.scalingMode.height * 16.0
    ensures IsWider(level.pxWid, level.pxHei) ==>
      && r.scalingMode.height == SnapHeight(level.pxHei) as real
      && FollowsPlayer(r.translation.x, player.x, level.translation.x, level.pxWid as real, r.scalingMode.width)
      && r.translation.y == level.translation.y
    ensures !IsWider(level.pxWid, level.pxHei) ==>
      && r.scalingMode.width == SnapWidth(level.pxWid) as real
      && FollowsPlayer(r.translation.y, player.y, level.translation.y, level.pxHei as real, r.scalingMode.height)
      && r.translation.x == level.translation.x
  {
    var v := FitViewport(level.pxWid, level.pxHei);
    var mode := Fixed(v.width, v.height);
    var origin := level.translation;
    if IsWider(level.pxWid, level.pxHei) then
      var x := Clamp(player.x - origin.x - v.width / 2.0, 0.0, level.pxWid as real - v.width);
      CameraState(s.scale, Zero2, mode, Vec3(x + origin.x, 0.0 + origin.y, s.translation.z))
    else
      var y := Clamp(player.y - origin.y - v.height / 2.0, 0.0, level.pxHei as real - v.height);
      CameraState(s.scale, Zero2, mode, Vec3(0.0 + origin.x, y + origin.y, s.translation.z))
  }

  /**
   * A refit overwrites everything it writes: two cameras that agree on the
   * scale and on z are refitted to the same camera, whatever their previous
   * projection and x and y.
   */
  lemma FitLevelOverwrites(s1: CameraState, s2: CameraState, player: Vec3, level: Level)
    requires Fits(level)
    requires s1.scale == s2.scale && s1.translation.z == s2.translation.z
    ensures FitLevel(s1, player, level) == FitLevel(s2, player, level)
  {
  }

  /**
   * A player inside the level stays in view along the tracked axis: at the
   * scale the camera is spawned with, which the system never changes, the
   * visible area is the fixed viewport starting at the camera position, and
   * it contains the player's coordinate.
   */
  lemma FitLevelKeepsPlayerInView(s: CameraState, player: Vec3, level: Level)
    requires Fits(level)
    requires s.scale == CAMERA_SCALE
    ensures var r := FitLevel(s, player, level);
      IsWider(level.pxWid, level.pxHei)
      && level.translation.x <= player.x <= level.translation.x + level.pxWid as real
      ==> r.translation.x <= player.x <= r.translation.x + r.scalingMode.width
    ensures var r := FitLevel(s, player, level);
      !IsWider(level.pxWid, level.pxHei)
      && level.translation.y <= player.y <= level.translation.y + level.pxHei as real
      ==> r.translation.y <= player.y <= r.translation.y + r.scalingMode.height
  {
  }

  /** The camera after the loop over `levels` (src/ldtk.rs, lines 57-93). */
  function FitAll(s: CameraState, player: Vec3, levels: seq<Level>): (r: CameraState)
    requires SelectedLevelsFit(levels)
    ensures r.scale == s.scale && r.translation.z == s.translation.z
    ensures (forall i :: 0 <= i < |levels| ==> !levels[i].selected) ==> r == s
    decreases |levels|
  {
    if levels == [] then s
    else
      var prev := FitAll(s, player, levels[..|levels| - 1]);
      var last := levels[|levels| - 1];
      if last.selected then FitLevel(prev, player, last) else prev
  }

  /** The index of the last selected level, if any. */
  function LastSelected(levels: seq<Level>): (r: Option<nat>)
    ensures r.Some? ==> r.value < |levels| && levels[r.value].selected
    ensures r.Some? ==> forall j :: r.value < j < |levels| ==> !levels[j].selected
    ensures r.None? ==> forall j :: 0 <= j < |levels| ==> !levels[j].selected
    decreases |levels|
  {
    if levels == [] then None
    else if levels[|levels| - 1].selected then Some(|levels| - 1)
    else LastSelected(levels[..|levels| - 1])
  }

  /**
   * Levels that are not selected never affect the camera: the loop leaves
   * the camera as the last selected level fits it, or unchanged when no
   * level is selected.
   */
  lemma {:induction false} FitAllFollowsLastSelected(s: CameraState, player: Vec3, levels: seq<Level>)
    requires SelectedLevelsFit(levels)
    ensures LastSelected(levels).None? ==> FitAll(s, player, levels) == s
    ensures LastSelected(levels).Some? ==>
      FitAll(s, player, levels) == FitLevel(s, player, levels[LastSelected(levels).value])
    decreases |levels|
  {
    if levels != [] {
      var init := levels[..|levels| - 1];
      var last := levels[|levels| - 1];
      FitAllFollowsLastSelected(s, player, init);
      if last.selected {
        FitLevelOverwrites(FitAll(s, player, init), s, player, last);
      }
    }
  }

  /**
   * One tick of the system: nothing happens unless there is exactly one
   * player (src/ldtk.rs, lines 48-52); otherwise the levels are looped over.
   */
  function Update(s: CameraState, players: seq<Vec3>, levels: seq<Level>): (r: CameraState)
    requires |players| == 1 ==> SelectedLevelsFit(levels)
    ensures |players| != 1 ==> r == s
    ensures (forall i :: 0 <= i < |levels| ==> !levels[i].selected) ==> r == s
    ensures r.scale == s.scale && r.translation.z == s.translation.z
  {
    if |players| == 1 then FitAll(s, players[0], levels) else s
  }

  /** The new camera does not depend on the previous viewport, projection mode, x or y. */
  lemma UpdateIgnoresPreviousPose(s1: CameraState, s2: CameraState, players: seq<Vec3>, levels: seq<Level>)
    requires |players| == 1 && SelectedLevelsFit(levels)
    requires LastSelected(levels).Some?
    requires s1.scale == s2.scale && s1.translation.z == s2.translation.z
    ensures Update(s1, players, levels) == Update(s2, players, levels)
  {
  }

  /** Running the system twice with the same player and levels gives the camera of running it once. */
  lemma UpdateIdempotent(s: CameraState, players: seq<Vec3>, levels: seq<Level>)
    requires |players| == 1 ==> SelectedLevelsFit(levels)
    ensures Update(Update(s, players, levels), players, levels) == Update(s, players, levels)
  {
    if |players| == 1 {
      var once := Update(s, players, levels);
      FitAllFollowsLastSelected(s, players[0], levels);
      FitAllFollowsLastSelected(once, players[0], levels);
      if LastSelected(levels).Some? {
        FitLevelOverwrites(once, s, players[0], levels[LastSelected(levels).value]);
      }
    }
  }

  /**
   * The single camera entity (the query's `single_mut` panics unless there
   * is exactly one; here it is the receiver): its orthographic projection
   * and its transform's translation.
   */
  class Camera {
    var scale: real
    var viewportOrigin: Vec2
    var scalingMode: ScalingMode
    var x: real
    var y: real
    var z: real

    function State(): CameraState
      reads this
    {
      CameraState(scale, viewportOrigin, scalingMode, Vec3(x, y, z))
    }

    constructor (initial: CameraState)
      ensures State() == initial
    {
      scale := initial.scale;
      viewportOrigin := initial.viewportOrigin;
      scalingMode := initial.scalingMode;
      x, y, z := initial.translation.x, initial.translation.y, initial.translation.z;
    }

    /**
     * `camera_fit_inside_current_level`: `players` are the translations of
     * the Player entities, `levels` the spawned levels in query order.
     */
    method FitInsideCurrentLevel(players: seq<Vec3>, levels: seq<Level>)
      requires |players| == 1 ==> SelectedLevelsFit(levels)
      modifies this
      ensures State() == Update(old(State()), players, levels)
    {
      if |players| != 1 {
        return;
      }
      var player := players[0];
      for i := 0 to |levels|
        invariant State() == FitAll(old(State()), player, levels[..i])
      {
        var level := levels[i];
        if level.selected {
          viewportOrigin := Zero2;
          var v := FitViewport(level.pxWid, level.pxHei);
          scalingMode := Fixed(v.width, v.height);
          if IsWider(level.pxWid, level.pxHei) {
            x := Clamp(player.x - level.translation.x - v.width / 2.0, 0.0, level.pxWid as real - v.width);
            y := 0.0;
          } else {
            y := Clamp(player.y - level.translation.y - v.height / 2.0, 0.0, level.pxHei as real - v.height);
            x := 0.0;
          }
          x := x + level.translation.x;
          y := y + level.translation.y;
        }
        assert levels[..i + 1][..i] == levels[..i];
      }
      assert levels[..|levels|] == levels;
    }
  }
}
