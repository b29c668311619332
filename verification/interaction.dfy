/** Sequences of interaction calls on one player: what any run of pick-ups,
    throws and finished throws keeps true, and the pick-throw-finish cycle. */
module Interaction {
  import opened Wrappers
  import opened Scene
  import opened Player

  /** One call made by other code: a pick-up, a throw, a finished throw, or a
      write through the public `PlayerState` setter, which stores any state
      unchecked. */
  datatype Action =
    | PickUp(target: ObjId)
    | ThrowAct(strength: real)
    | FinishThrow
    | SetState(newState: PlayerState)

  /** The player and the world between calls. */
  datatype Snapshot = Snapshot(player: Player, world: World)

  /** One call. Only a pick-up can change the world, and it keeps the set of
      objects. A pick-up that throws has written nothing, so the snapshot after
      it is the one before. */
  function Step(s: Snapshot, a: Action): (r: Snapshot)
    ensures r.world.objects.Keys == s.world.objects.Keys
    ensures !a.PickUp? ==> r.world == s.world
    ensures a.PickUp? && s.player.state == Idle && a.target !in s.world.objects ==> r == s
    ensures a.SetState? ==> r.player.state == a.newState && r.player.held == s.player.held
  {
    match a
    case PickUp(t) =>
      var r := PickUpObject(s.player, s.world, t);
      if r.Success? then Snapshot(r.value.player, r.value.world) else s
    case ThrowAct(k) => Snapshot(ThrowObject(s.player, k), s.world)
    case FinishThrow => Snapshot(FinishThrowObject(s.player), s.world)
    case SetState(st) => Snapshot(s.player.(state := st), s.world)
  }

  /** The calls of `acts`, in order. */
  function Run(s: Snapshot, acts: seq<Action>): (r: Snapshot)
    ensures r.world.objects.Keys == s.world.objects.Keys
    decreases |acts|
  {
    if |acts| == 0 then s
    else Run(Step(s, acts[0]), acts[1..])
  }

  /** A run starts with its first call. */
  lemma RunFirst(s: Snapshot, a: Action, rest: seq<Action>)
    ensures Run(s, [a] + rest) == Run(Step(s, a), rest)
  {
  }

  /** The held object, if any, is marked PICKED and parented under the player. */
  predicate Holding(s: Snapshot) {
    s.player.held.Some? ==>
      && s.player.held.value in s.world.objects
      && s.world.objects[s.player.held.value].state == Picked
      && s.player.held.value in s.world.attached
  }

  /** Each call keeps the held object marked and attached. */
  lemma StepKeepsHolding(s: Snapshot, a: Action)
    requires Holding(s)
    ensures Holding(Step(s, a))
  {
  }

  /** Every run keeps the held object marked and attached: no call clears the
      PICKED state or the parenting, including a finished throw and a state
      setter write. */
  lemma {:induction false} RunKeepsHolding(s: Snapshot, acts: seq<Action>)
    requires Holding(s)
    ensures Holding(Run(s, acts))
    decreases |acts|
  {
    if |acts| > 0 {
      StepKeepsHolding(s, acts[0]);
      RunKeepsHolding(Step(s, acts[0]), acts[1..]);
    }
  }

  /** True when no call of `acts` writes NONE through the state setter. */
  predicate NeverSetsNone(acts: seq<Action>) {
    forall i :: 0 <= i < |acts| ==> acts[i] != SetState(NoState)
  }

  /** Once started, a player returns to NONE only through the state setter:
      a run that never writes NONE there ends in a started state. */
  lemma {:induction false} RunStaysStarted(s: Snapshot, acts: seq<Action>)
    requires s.player.state != NoState
    requires NeverSetsNone(acts)
    ensures Run(s, acts).player.state != NoState
    decreases |acts|
  {
    if |acts| > 0 {
      assert acts[0] != SetState(NoState);
      assert NeverSetsNone(acts[1..]) by {
        forall i | 0 <= i < |acts[1..]|
          ensures acts[1..][i] != SetState(NoState)
        {
          assert acts[1..][i] == acts[i + 1];
        }
      }
      RunStaysStarted(Step(s, acts[0]), acts[1..]);
    }
  }

  /** The state setter alone can stop a started player, in one call. */
  lemma SetterStopsPlayer(s: Snapshot)
    ensures Run(s, [SetState(NoState)]).player == s.player.(state := NoState)
  {
    RunFirst(s, SetState(NoState), []);
  }

  /** True when `id` is the target of some pick-up in `acts`. */
  predicate Targeted(acts: seq<Action>, id: ObjId) {
    exists i :: 0 <= i < |acts| && acts[i] == PickUp(id)
  }

  /** An object that no call of the run targets keeps its component data and
      its parenting. */
  lemma {:induction false} UntargetedUnchanged(s: Snapshot, acts: seq<Action>, id: ObjId)
    requires id in s.world.objects && !Targeted(acts, id)
    ensures Run(s, acts).world.objects[id] == s.world.objects[id]
    ensures id in Run(s, acts).world.attached <==> id in s.world.attached
    decreases |acts|
  {
    if |acts| > 0 {
      assert acts[0] != PickUp(id);
      assert !Targeted(acts[1..], id) by {
        forall i | 0 <= i < |acts[1..]|
          ensures acts[1..][i] != PickUp(id)
        {
          assert acts[1..][i] == acts[i + 1];
        }
      }
      UntargetedUnchanged(Step(s, acts[0]), acts[1..], id);
    }
  }

  /** IDLE, pick up, throw, finish: the player is IDLE again but still holds
      the object, which stays PICKED and parented under the player. */
  lemma PickThrowFinishCycle(p: Player, w: World, target: ObjId, strength: real)
    requires p.state == Idle && target in w.objects
    ensures Run(Snapshot(p, w), [PickUp(target), ThrowAct(strength), FinishThrow])
         == Snapshot(Player(Idle, Some(target)),
                     World(w.objects[target := w.objects[target].(state := Picked)],
                           w.attached + {target}))
  {
    var s0 := Snapshot(p, w);
    var s1 := Step(s0, PickUp(target));
    var s2 := Step(s1, ThrowAct(strength));
    var s3 := Step(s2, FinishThrow);
    RunFirst(s2, FinishThrow, []);
    RunFirst(s1, ThrowAct(strength), [FinishThrow]);
    RunFirst(s0, PickUp(target), [ThrowAct(strength), FinishThrow]);
  }

  /** After a finished throw a second pick-up is accepted and replaces the held
      object; the first object stays PICKED and parented under the player
      although nothing refers to it any more. */
  lemma SecondPickOrphansFirst(p: Player, w: World, first: ObjId, second: ObjId, strength: real)
    requires p.state == Idle && first in w.objects && second in w.objects && first != second
    ensures var r := Run(Snapshot(p, w),
                         [PickUp(first), ThrowAct(strength), FinishThrow, PickUp(second)]);
            && r.player == Player(Pick, Some(second))
            && r.world.objects[first].state == Picked
            && first in r.world.attached
  {
    var s0 := Snapshot(p, w);
    var s1 := Step(s0, PickUp(first));
    var s2 := Step(s1, ThrowAct(strength));
    var s3 := Step(s2, FinishThrow);
    RunFirst(s3, PickUp(second), []);
    RunFirst(s2, FinishThrow, [PickUp(second)]);
    RunFirst(s1, ThrowAct(strength), [FinishThrow, PickUp(second)]);
    RunFirst(s0, PickUp(first), [ThrowAct(strength), FinishThrow, PickUp(second)]);
  }
}
