/**
 * The drag system (src/ecs/systems/dragSystem.ts): while the button is down,
 * every entity holding Dragging snaps to the pointer's world position.
 */
module DragSystem {
  import opened Wrappers
  import opened Ecs

  /** The Position column after the entities in `targets` are moved to `p`. */
  function Snapped(pos: map<Entity, Vec2>, targets: set<Entity>, p: Vec2): (r: map<Entity, Vec2>)
    ensures r.Keys == pos.Keys + targets
    ensures forall e :: e in targets ==> r[e] == p
    ensures forall e :: e in pos && e !in targets ==> r[e] == pos[e]
  {
    map e | e in pos.Keys + targets :: if e in targets then p else pos[e]
  }

  /** `dragSystem`, given the Dragging snapshot it takes. */
  method DragSystem(w: World, mouse: Option<Mouse>, draggingNow: seq<Entity>)
    requires w.Valid()
    requires IsSnapshot(draggingNow, w.dragging)
    modifies w`pos
    ensures w.Valid()
    ensures mouse.None? || !mouse.value.isDown ==> w.pos == old(w.pos)
    ensures mouse.Some? && mouse.value.isDown ==>
      w.pos == Snapped(old(w.pos), w.dragging, Vec2(mouse.value.worldX, mouse.value.worldY))
  {
    if mouse.None? || !mouse.value.isDown {
      return;
    }
    if |draggingNow| == 0 {
      assert w.dragging == {};
      NothingDraggedKeepsPositions(w.pos, Vec2(mouse.value.worldX, mouse.value.worldY));
      return;
    }
    var p := Vec2(mouse.value.worldX, mouse.value.worldY);
    var i := 0;
    while i < |draggingNow|
      invariant 0 <= i <= |draggingNow|
      invariant w.pos == Snapped(old(w.pos), Elements(draggingNow[..i]), p)
    {
      SnapOneMore(old(w.pos), Elements(draggingNow[..i]), draggingNow[i], p);
      ElementsOfPrefix(draggingNow, i);
      w.pos := w.pos[draggingNow[i] := p];
      i := i + 1;
    }
    assert draggingNow[..|draggingNow|] == draggingNow;
  }

  /** Snapping one more entity is a single column write. */
  lemma SnapOneMore(pos: map<Entity, Vec2>, targets: set<Entity>, e: Entity, p: Vec2)
    ensures Snapped(pos, targets + {e}, p) == Snapped(pos, targets, p)[e := p]
  {
    assert Snapped(pos, targets + {e}, p).Keys == Snapped(pos, targets, p)[e := p].Keys;
  }

  /** With nothing dragging, every position is kept. */
  lemma NothingDraggedKeepsPositions(pos: map<Entity, Vec2>, p: Vec2)
    ensures Snapped(pos, {}, p) == pos
  {
  }

  /** Dragging twice with the same pointer gives the same positions as dragging once. */
  lemma SnapIdempotent(pos: map<Entity, Vec2>, targets: set<Entity>, p: Vec2)
    ensures Snapped(Snapped(pos, targets, p), targets, p) == Snapped(pos, targets, p)
  {
  }
}
