/** The player's interaction state machine and the forward-raycast decision:
    which state the player is in, which object it holds, and what a pick-up,
    throw or finished throw does to the player and to the target object. */
module Player {
  import opened Wrappers
  import opened Scene
  import opened Geometry
  import opened Control

  /** EPlayerState without its count sentinel: PLAYER_STATE_NONE, _IDLE,
      _PICK and _THROW. */
  datatype PlayerState = NoState | Idle | Pick | Throw

  /** The controller's interaction data: its state and the object it last picked up. */
  datatype Player = Player(state: PlayerState, held: Option<ObjId>)

  /** A started controller: what it captured from the player object, and its interaction data. */
  datatype Started = Started(rig: Rig, player: Player)

  /** Start-up captures the player object's up vector and local rotation as
      the axis and base of every later turn, puts the player in IDLE and
      leaves the held-object field as it was. */
  function InitializePlayer(p: Player, up: Vec3, localRotation: Rotation): (r: Started)
    ensures r.rig.up == up && r.rig.origin == localRotation
    ensures r.player.state == Idle && r.player.held == p.held
  {
    Started(Rig(up, localRotation), p.(state := Idle))
  }

  /** The answer of a forward raycast: whether an object may be picked and,
      exactly then, which. */
  datatype Probe = Probe(found: bool, target: Option<ObjId>)

  /** The decision taken on the engine's raycast result `hit`: an object is
      found exactly when it is movable and pickable; a missed ray, an object
      that is not movable or not pickable all give false with no object. A hit
      on an object without a CGObject component makes the component query throw. */
  function ShotRayCastToForward(w: World, hit: Option<ObjId>): (r: Result<Probe, Fault>)
    ensures r.Failure? <==> hit.Some? && hit.value !in w.objects
    ensures r.Success? ==> (r.value.found <==> r.value.target.Some?)
    ensures r.Success? && r.value.found ==> r.value.target == hit
    ensures r.Success? ==>
              (r.value.found <==>
                 hit.Some? && hit.value in w.objects
                 && w.objects[hit.value].movable && w.objects[hit.value].Pickable())
  {
    match hit
    case None => Success(Probe(false, None))
    case Some(id) =>
      if id !in w.objects then Failure(MissingCGObject)
      else if !w.objects[id].movable then Success(Probe(false, None))
      else if !w.objects[id].Pickable() then Success(Probe(false, None))
      else Success(Probe(true, Some(id)))
  }

  /** An object that is not movable is never found, whatever its object state. */
  lemma ImmovableNeverFound(w: World, id: ObjId)
    requires id in w.objects && !w.objects[id].movable
    ensures ShotRayCastToForward(w, Some(id)) == Success(Probe(false, None))
  {
  }

  /** The result of a pick-up: whether it happened, and the player and world after it. */
  datatype PickOutcome = PickOutcome(picked: bool, player: Player, world: World)

  /** A pick-up succeeds exactly from IDLE on an object with a CGObject
      component. It then marks the target PICKED, parents it under the player,
      moves the player to PICK and records the target as held; every other
      object is left as it was. From any other state it returns false and
      nothing changes, whatever the target. From IDLE on an object without
      the component the component query throws before anything is written. */
  function PickUpObject(p: Player, w: World, target: ObjId): (r: Result<PickOutcome, Fault>)
    ensures r.Failure? <==> p.state == Idle && target !in w.objects
    ensures r.Success? ==> (r.value.picked <==> p.state == Idle)
    ensures r.Success? && !r.value.picked ==> r.value.player == p && r.value.world == w
    ensures r.Success? && r.value.picked ==>
              r.value.player.state == Pick && r.value.player.held == Some(target)
    ensures r.Success? ==> r.value.world.objects.Keys == w.objects.Keys
    ensures r.Success? && r.value.picked ==>
              && r.value.world.objects[target].state == Picked
              && r.value.world.objects[target].movable == w.objects[target].movable
    ensures r.Success? ==>
              forall id :: id in w.objects && id != target ==> r.value.world.objects[id] == w.objects[id]
    ensures r.Success? && r.value.picked ==> r.value.world.attached == w.attached + {target}
  {
    if p.state != Idle then Success(PickOutcome(false, p, w))
    else if target !in w.objects then Failure(MissingCGObject)
    else
      var marked := w.objects[target].(state := Picked);
      var w' := World(w.objects[target := marked], w.attached + {target});
      Success(PickOutcome(true, Player(Pick, Some(target)), w'))
  }

  /** Once picked up, an object is no longer pickable, so the forward raycast
      no longer finds it. */
  lemma PickedObjectNoLongerFound(p: Player, w: World, target: ObjId)
    requires p.state == Idle && target in w.objects
    ensures PickUpObject(p, w, target).Success?
    ensures ShotRayCastToForward(PickUpObject(p, w, target).value.world, Some(target))
         == Success(Probe(false, None))
  {
  }

  /** A throw moves the player to THROW from any state and keeps the held
      object; the strength is not used. */
  function ThrowObject(p: Player, throwStrength: real): (r: Player)
    ensures r.state == Throw && r.held == p.held
  {
    p.(state := Throw)
  }

  /** The strength passed to a throw never changes its outcome. */
  lemma ThrowStrengthUnused(p: Player, s1: real, s2: real)
    ensures ThrowObject(p, s1) == ThrowObject(p, s2)
  {
  }

  /** Finishing a throw returns to IDLE from any state and does not clear the held object. */
  function FinishThrowObject(p: Player): (r: Player)
    ensures r.state == Idle && r.held == p.held
  {
    p.(state := Idle)
  }

  /** A started player can always pick up an object carrying a CGObject component. */
  lemma StartedPlayerCanPick(p: Player, up: Vec3, localRotation: Rotation, w: World, target: ObjId)
    requires target in w.objects
    ensures PickUpObject(InitializePlayer(p, up, localRotation).player, w, target).Success?
    ensures PickUpObject(InitializePlayer(p, up, localRotation).player, w, target).value.picked
  {
  }

  /** A pick-up is refused while the player is in PICK or THROW, leaving everything as it
      was, even for an object without a CGObject component. */
  lemma BusyPlayerRefusesPick(p: Player, w: World, target: ObjId)
    requires p.state == Pick || p.state == Throw
    ensures PickUpObject(p, w, target) == Success(PickOutcome(false, p, w))
  {
  }
}
