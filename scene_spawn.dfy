/**
 * Where the player appears when a scene loads: at the spawn point registered for the scene it
 * came from, else at the default point; an existing player is moved there, a missing one spawned.
 */
module SceneSpawnModel {
  import opened Wrappers
  import opened Scene
  import opened GameLoop

  const PlayerTag: string := "Player"

  /** An inspector entry: the scene the player arrives from, and where it then appears. */
  datatype SpawnPoint = SpawnPoint(previousSceneName: string, spawnTransform: Transform?)

  /** An entry usable for arrivals from `scene`: the name matches and the transform is assigned. */
  predicate Usable(sp: SpawnPoint, scene: string)
  {
    sp.previousSceneName == scene && sp.spawnTransform != null
  }

  /** The first usable entry at index i or later. */
  function FirstUsableFrom(points: seq<SpawnPoint>, scene: string, i: nat): (r: Option<nat>)
    requires i <= |points|
    ensures r.Some? ==> i <= r.value < |points|
    decreases |points| - i
  {
    if i == |points| then None
    else if Usable(points[i], scene) then Some(i)
    else FirstUsableFrom(points, scene, i + 1)
  }

  /**
   * The first usable entry is the earliest one: nothing usable comes before it, and when there is
   * none, no entry from i on is usable.
   */
  lemma {:induction false} FirstUsableIsEarliest(points: seq<SpawnPoint>, scene: string, i: nat)
    requires i <= |points|
    ensures FirstUsableFrom(points, scene, i).Some? ==>
      var k := FirstUsableFrom(points, scene, i).value;
      && i <= k < |points| && Usable(points[k], scene)
      && forall j :: i <= j < k ==> !Usable(points[j], scene)
    ensures FirstUsableFrom(points, scene, i).None? ==> forall j :: i <= j < |points| ==> !Usable(points[j], scene)
    decreases |points| - i
  {
    if i < |points| && !Usable(points[i], scene) {
      FirstUsableIsEarliest(points, scene, i + 1);
    }
  }

  /** The scene the player comes from, as the spawn manager reads it: "" without a manager. */
  function PreviousScene(gm: GameLoopManager?): string
    reads gm
  {
    if gm != null then gm.previousSceneName else ""
  }

  /** The player object: its transform, its rigidbody's velocities and its tag. */
  class Player {
    const transform: Transform
    const hasRigidbody: bool
    var tag: string
    var linearVelocity: Vector3
    var angularVelocity: Vector3

    /** A player instantiated from the prefab at a position and rotation. */
    constructor (position: Vector3, rotation: Quaternion, tag: string, hasRigidbody: bool)
      ensures fresh(transform)
      ensures transform.position == position && transform.rotation == rotation
      ensures this.tag == tag && this.hasRigidbody == hasRigidbody
      ensures linearVelocity == Zero && angularVelocity == Zero
    {
      transform := new Transform(position, rotation);
      this.tag := tag;
      this.hasRigidbody := hasRigidbody;
      linearVelocity := Zero;
      angularVelocity := Zero;
    }
  }

  class SceneSpawnManager {
    const hasPlayerPrefab: bool
    /** The tag the prefab carries. */
    const prefabTag: string
    const prefabHasRigidbody: bool
    const defaultSpawnPoint: Transform?
    const spawnPoints: seq<SpawnPoint>

    constructor (hasPlayerPrefab: bool, prefabTag: string, prefabHasRigidbody: bool, defaultSpawnPoint: Transform?,
                 spawnPoints: seq<SpawnPoint>)
      ensures this.hasPlayerPrefab == hasPlayerPrefab && this.prefabTag == prefabTag
      ensures this.prefabHasRigidbody == prefabHasRigidbody && this.defaultSpawnPoint == defaultSpawnPoint
      ensures this.spawnPoints == spawnPoints
    {
      this.hasPlayerPrefab := hasPlayerPrefab;
      this.prefabTag := prefabTag;
      this.prefabHasRigidbody := prefabHasRigidbody;
      this.defaultSpawnPoint := defaultSpawnPoint;
      this.spawnPoints := spawnPoints;
    }

    /** The default point, unless the previous scene is named and some entry is usable for it. */
    function SpawnTarget(previousScene: string): Transform?
    {
      if previousScene == "" then defaultSpawnPoint
      else match FirstUsableFrom(spawnPoints, previousScene, 0)
        case Some(k) => spawnPoints[k].spawnTransform
        case None => defaultSpawnPoint
    }

    /**
     * The chosen point is the default when the previous scene is unnamed or no entry is usable;
     * otherwise it is the transform of the earliest usable entry, so entries with a matching name
     * but no transform are passed over.
     */
    lemma SpawnTargetIsFirstUsable(previousScene: string)
      ensures previousScene == "" ==> SpawnTarget(previousScene) == defaultSpawnPoint
      ensures previousScene != "" && (forall j :: 0 <= j < |spawnPoints| ==> !Usable(spawnPoints[j], previousScene))
              ==> SpawnTarget(previousScene) == defaultSpawnPoint
      ensures previousScene != "" && (exists j :: 0 <= j < |spawnPoints| && Usable(spawnPoints[j], previousScene)) ==>
        exists k :: && 0 <= k < |spawnPoints| && Usable(spawnPoints[k], previousScene)
                    && (forall j :: 0 <= j < k ==> !Usable(spawnPoints[j], previousScene))
                    && SpawnTarget(previousScene) == spawnPoints[k].spawnTransform
    {
      FirstUsableIsEarliest(spawnPoints, previousScene, 0);
    }

    /** The search loop with its early exit, computing the spawn target. */
    method FindSpawnPoint(previousScene: string) returns (targetSpawn: Transform?)
      ensures targetSpawn == SpawnTarget(previousScene)
    {
      targetSpawn := defaultSpawnPoint;
      if previousScene != "" {
        var i := 0;
        while i < |spawnPoints|
          invariant 0 <= i <= |spawnPoints|
          invariant FirstUsableFrom(spawnPoints, previousScene, 0) == FirstUsableFrom(spawnPoints, previousScene, i)
          invariant targetSpawn == defaultSpawnPoint
        {
          var sp := spawnPoints[i];
          if sp.previousSceneName == previousScene && sp.spawnTransform != null {
            targetSpawn := sp.spawnTransform;
            break;
          }
          i := i + 1;
        }
      }
    }

    /**
     * Placing the player: with no spawn target nothing happens. Otherwise an existing player is
     * moved there; without one, a player is spawned from the prefab (tagged "Player" whatever the
     * prefab's tag), or nothing happens when there is no prefab.
     */
    method SpawnOrPositionPlayer(gm: GameLoopManager?, existing: Player?) returns (player: Player?)
      modifies existing, if existing != null then {existing.transform} else {}
      ensures SpawnTarget(PreviousScene(gm)) == null ==>
        player == existing && (existing != null ==> unchanged(existing, existing.transform))
      ensures SpawnTarget(PreviousScene(gm)) != null && existing != null ==>
        player == existing && Repositioned(existing, SpawnTarget(PreviousScene(gm)))
      ensures SpawnTarget(PreviousScene(gm)) != null && existing == null && !hasPlayerPrefab ==> player == null
      ensures SpawnTarget(PreviousScene(gm)) != null && existing == null && hasPlayerPrefab ==>
        var target := SpawnTarget(PreviousScene(gm));
        && player != null && fresh(player) && fresh(player.transform)
        && player.tag == PlayerTag && player.hasRigidbody == prefabHasRigidbody
        && player.transform.position == old(target.position) && player.transform.rotation == old(target.rotation)
        && player.linearVelocity == Zero && player.angularVelocity == Zero
    {
      player := existing;
      var previousScene := if gm != null then gm.previousSceneName else "";
      var targetSpawn := FindSpawnPoint(previousScene);
      if targetSpawn == null {
        return;
      }
      if player == null {
        if hasPlayerPrefab {
          player := new Player(targetSpawn.position, targetSpawn.rotation, prefabTag, prefabHasRigidbody);
          if player.tag != PlayerTag {
            player.tag := PlayerTag;
          }
        } else {
          return;
        }
      } else {
        PositionExistingPlayer(player, targetSpawn);
      }
    }

    /** Moves the player onto the spawn point and stops its rigidbody. */
    method PositionExistingPlayer(player: Player, targetSpawn: Transform)
      modifies player, player.transform
      ensures Repositioned(player, targetSpawn)
    {
      player.transform.position := targetSpawn.position;
      player.transform.rotation := targetSpawn.rotation;
      if player.hasRigidbody {
        player.linearVelocity := Zero;
        player.angularVelocity := Zero;
      }
    }
  }

  /**
   * The player took the spawn point's position and rotation (as they were before the move), and a
   * player with a rigidbody is at rest; the tag is kept.
   */
  twostate predicate Repositioned(player: Player, targetSpawn: Transform)
    reads player, player.transform, targetSpawn
  {
    && player.transform.position == old(targetSpawn.position)
    && player.transform.rotation == old(targetSpawn.rotation)
    && player.tag == old(player.tag)
    && (player.hasRigidbody ==> player.linearVelocity == Zero && player.angularVelocity == Zero)
    && (!player.hasRigidbody ==>
          player.linearVelocity == old(player.linearVelocity) && player.angularVelocity == old(player.angularVelocity))
  }
}
