/** The objects the player can interact with, as far as the controller sees
    them: a CGObject component with two capability queries and a mutable
    object state, and the scene-graph fact of being parented under the player. */
module Scene {

  /** Identity of a scene object (its Transform / GameObject). */
  type ObjId = nat

  /** The object's EObjectState. GROUND is the resting state named by the
      controller's comment; PICKED is what a pick-up writes. */
  datatype ObjectState = Ground | Picked

  /** The CGObject component: whether it is movable (`IsMovable()`) and its
      `ObjectState`. */
  datatype CGObject = CGObject(movable: bool, state: ObjectState) {

    /** `IsPickable()`: the object rests on the ground. */
    predicate Pickable() {
      state == Ground
    }
  }

  /** `objects` maps every object that carries a CGObject component to it;
      `attached` holds the objects whose Transform parent is the player. */
  datatype World = World(objects: map<ObjId, CGObject>, attached: set<ObjId>)

  /** Why a call throws: the object has no CGObject component, so the
      component query returns null. */
  datatype Fault = MissingCGObject
}
