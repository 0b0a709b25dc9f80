/**
 * The engine objects the game scripts talk to: the scene manager and global time scale,
 * Fungus flowcharts, and transforms.
 */
module Scene {

  datatype Vector3 = Vector3(x: real, y: real, z: real)

  datatype Quaternion = Quaternion(x: real, y: real, z: real, w: real)

  const Zero: Vector3 := Vector3(0.0, 0.0, 0.0)

  /**
   * Engine-wide state: the name of the active scene, the scenes loaded directly through
   * SceneManager.LoadScene (in call order), and Time.timeScale.
   */
  class Engine {
    var activeScene: string
    var directLoads: seq<string>
    var timeScale: real

    constructor (activeScene: string)
      ensures this.activeScene == activeScene && directLoads == [] && timeScale == 1.0
    {
      this.activeScene := activeScene;
      directLoads := [];
      timeScale := 1.0;
    }

    /** SceneManager.LoadScene: the load is recorded as a request, in order. */
    method LoadScene(name: string)
      modifies this
      ensures directLoads == old(directLoads) + [name]
      ensures activeScene == old(activeScene) && timeScale == old(timeScale)
    {
      directLoads := directLoads + [name];
    }
  }

  /**
   * A Fungus flowchart: the fixed set of block names it holds, the log of the blocks it was
   * asked to execute, and the variables written into it.
   */
  class Flowchart {
    const blocks: set<string>
    var executed: seq<string>
    var boolVars: map<string, bool>
    var intVars: map<string, int>

    constructor (blocks: set<string>)
      ensures this.blocks == blocks && executed == [] && boolVars == map[] && intVars == map[]
    {
      this.blocks := blocks;
      executed := [];
      boolVars := map[];
      intVars := map[];
    }

    predicate HasBlock(name: string)
    {
      name in blocks
    }

    method ExecuteBlock(name: string)
      modifies this
      ensures executed == old(executed) + [name]
      ensures boolVars == old(boolVars) && intVars == old(intVars)
    {
      executed := executed + [name];
    }

    method SetBooleanVariable(key: string, value: bool)
      modifies this
      ensures boolVars == old(boolVars)[key := value]
      ensures executed == old(executed) && intVars == old(intVars)
    {
      boolVars := boolVars[key := value];
    }

    method SetIntegerVariable(key: string, value: int)
      modifies this
      ensures intVars == old(intVars)[key := value]
      ensures executed == old(executed) && boolVars == old(boolVars)
    {
      intVars := intVars[key := value];
    }
  }

  /** A Unity transform: position and rotation. */
  class Transform {
    var position: Vector3
    var rotation: Quaternion

    constructor (position: Vector3, rotation: Quaternion)
      ensures this.position == position && this.rotation == rotation
    {
      this.position := position;
      this.rotation := rotation;
    }
  }
}
