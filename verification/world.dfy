/**
 * The parts of the 2D world that the cognitive core consumes: the state an
 * object reports, the perception dictionary built each tick, and the
 * environment as an abstract record (physics and rendering are not modelled).
 */
module World {
  import opened Common

  /** What `WorldObject.get_state` reports: its position and whether it is movable. */
  datatype ObjectState = ObjectState(position: (real, real), movable: bool)

  /**
   * The perception dictionary. Every field may be missing, mirroring the
   * `.get(key, default)` lookups the core makes on it.
   */
  datatype Perception = Perception(
    position: Option<(real, real)>,
    objects: Option<seq<ObjectState>>,
    sunlight: Option<real>)

  /** `perception.get("sunlight", 0.0)`. */
  function SunlightOf(perception: Perception): (s: real)
    ensures perception.sunlight.None? ==> s == 0.0
    ensures perception.sunlight.Some? ==> s == perception.sunlight.value
  {
    match perception.sunlight
    case None => 0.0
    case Some(v) => v
  }

  /** `len(perception.get("objects", []))`. */
  function ObjectCount(perception: Perception): (n: nat)
    ensures perception.objects.None? ==> n == 0
    ensures perception.objects.Some? ==> n == |perception.objects.value|
  {
    match perception.objects
    case None => 0
    case Some(objs) => |objs|
  }

  /**
   * The environment as the agent sees it: its size, the current sunlight and
   * the states of its objects in order. The physics that changes sunlight and
   * object positions is not part of this model.
   */
  class Environment {
    const width: int
    const height: int
    var sunlight: real
    var objects: seq<ObjectState>

    /** A new world: full sunlight, a static tree at (200, 0) and a movable rock at (400, 100). */
    constructor (width: int, height: int)
      ensures this.width == width && this.height == height
      ensures sunlight == 1.0
      ensures objects == [ObjectState((200.0, 0.0), false), ObjectState((400.0, 100.0), true)]
    {
      this.width := width;
      this.height := height;
      sunlight := 1.0;
      objects := [ObjectState((200.0, 0.0), false), ObjectState((400.0, 100.0), true)];
    }
  }
}
