/**
 * The player movement system `move_player` (src/player.rs). The movement
 * intent and the frame's elapsed seconds, which the engine's input and time
 * resources supply, are parameters; the transforms the system queries are an
 * array of translations, each tagged with whether its entity carries the
 * `Player` marker component.
 */
module Player {
  import opened Wrappers
  import opened Vectors

  /** The player's speed, in world units per second. */
  const SPEED: real := 150.0

  /** The displacement of one tick: the intent scaled by the speed and the elapsed seconds. */
  function Displacement(intent: Vec2, deltaSecs: real): (d: Vec3)
    ensures d.z == 0.0
    ensures intent == Zero2 || deltaSecs == 0.0 ==> d == Zero3
    ensures deltaSecs >= 0.0 && intent.x >= 0.0 ==> d.x >= 0.0
    ensures deltaSecs >= 0.0 && intent.y >= 0.0 ==> d.y >= 0.0
    ensures deltaSecs >= 0.0 && intent.x <= 0.0 ==> d.x <= 0.0
    ensures deltaSecs >= 0.0 && intent.y <= 0.0 ==> d.y <= 0.0
  {
    Vec3(intent.x * SPEED * deltaSecs, intent.y * SPEED * deltaSecs, 0.0)
  }

  /** Moving for `dt1` and then for `dt2` seconds covers the distance of one move for `dt1 + dt2`. */
  lemma DisplacementAdditive(intent: Vec2, dt1: real, dt2: real)
    ensures Displacement(intent, dt1 + dt2) == Displacement(intent, dt1).Plus(Displacement(intent, dt2))
  {
  }

  /** Full speed to the right for a tenth of a second moves 15 units right. */
  lemma DisplacementExample()
    ensures Displacement(Vec2(1.0, 0.0), 0.1) == Vec3(15.0, 0.0, 0.0)
  {
  }

  /** `translations` with `d` added to every one tagged as a player. */
  function Translate(translations: seq<Vec3>, isPlayer: seq<bool>, d: Vec3): (r: seq<Vec3>)
    requires |isPlayer| == |translations|
    ensures |r| == |translations|
    ensures forall i :: 0 <= i < |r| && isPlayer[i] ==> r[i] == translations[i].Plus(d)
    ensures forall i :: 0 <= i < |r| && !isPlayer[i] ==> r[i] == translations[i]
  {
    seq(|translations|, i requires 0 <= i < |translations| =>
      if isPlayer[i] then translations[i].Plus(d) else translations[i])
  }

  /** Two moves of the players compose into one move by the sum of the displacements. */
  lemma TranslateCompose(translations: seq<Vec3>, isPlayer: seq<bool>, d1: Vec3, d2: Vec3)
    requires |isPlayer| == |translations|
    ensures Translate(Translate(translations, isPlayer, d1), isPlayer, d2) == Translate(translations, isPlayer, d1.Plus(d2))
  {
  }

  /** A zero intent or a zero elapsed time leaves every translation where it was. */
  lemma StillIntentMovesNothing(translations: seq<Vec3>, isPlayer: seq<bool>, intent: Vec2, deltaSecs: real)
    requires |isPlayer| == |translations|
    requires intent == Zero2 || deltaSecs == 0.0
    ensures Translate(translations, isPlayer, Displacement(intent, deltaSecs)) == translations
  {
  }

  /**
   * `move_player`: with no intent nothing changes; otherwise every player
   * translation is moved by the same displacement and nothing else is
   * touched.
   */
  method MovePlayer(deltaSecs: real, playerMovement: Option<Vec2>, translations: array<Vec3>, isPlayer: seq<bool>)
    requires |isPlayer| == translations.Length
    modifies translations
    ensures playerMovement.None? ==> translations[..] == old(translations[..])
    ensures playerMovement.Some? ==>
      translations[..] == Translate(old(translations[..]), isPlayer, Displacement(playerMovement.value, deltaSecs))
    ensures forall i :: 0 <= i < translations.Length && !isPlayer[i] ==> translations[i] == old(translations[i])
    ensures forall i :: 0 <= i < translations.Length ==> translations[i].z == old(translations[i].z)
  {
    if playerMovement.None? {
      return;
    }
    var intent := playerMovement.value;
    var movement := Vec3(intent.x * SPEED * deltaSecs, intent.y * SPEED * deltaSecs, 0.0);
    for i := 0 to translations.Length
      invariant forall k :: 0 <= k < i && isPlayer[k] ==> translations[k] == old(translations[k]).Plus(movement)
      invariant forall k :: 0 <= k < i && !isPlayer[k] ==> translations[k] == old(translations[k])
      invariant forall k :: i <= k < translations.Length ==> translations[k] == old(translations[k])
    {
      if isPlayer[i] {
        translations[i] := translations[i].Plus(movement);
      }
    }
    ghost var expected := Translate(old(translations[..]), isPlayer, Displacement(intent, deltaSecs));
    assert forall k :: 0 <= k < translations.Length ==> translations[..][k] == expected[k];
  }
}
