/**
 * The mouse interaction system (src/ecs/systems/mouseInteraction.ts): once per
 * frame it refreshes Hover while the button is up, adds Dragging to the
 * selected draggable while the button is down, and removes Dragging from
 * every dragging entity while the button is up.
 */
module MouseInteraction {
  import opened Wrappers
  import opened Ecs
  import opened MouseCapture

  /** A linear search of a query snapshot, stopping at the first match. */
  method Contains(q: seq<Entity>, x: Entity) returns (found: bool)
    ensures found <==> x in q
  {
    found := false;
    var i := 0;
    while i < |q|
      invariant 0 <= i <= |q|
      invariant x !in q[..i]
    {
      if q[i] == x {
        found := true;
        break;
      }
      i := i + 1;
    }
    assert !found ==> q[..|q|] == q;
  }

  /** The draggable the scan picks, as a set of at most one entity. */
  ghost function HoverWinner(pos: map<Entity, Vec2>, radius: map<Entity, real>, draggables: seq<Entity>, m: Mouse): (s: set<Entity>)
    ensures |s| <= 1
    ensures forall e :: e in s ==> e in draggables && Qualifies(pos, radius, e, m.worldX, m.worldY)
  {
    var hit := ClosestHit(pos, radius, draggables, m.worldX, m.worldY);
    if hit.Some? then HitIsWithinRadius(pos, radius, draggables, m.worldX, m.worldY); {hit.value}
    else {}
  }

  /** Dragging after activation: the selected draggable is added (a no-op if present). */
  ghost function Activated(dragging: set<Entity>, draggable: set<Entity>, selected: Entity): (s: set<Entity>)
    ensures selected > 0 && selected in draggable ==> selected in s
    ensures !(selected > 0 && selected in draggable) ==> s == dragging
    ensures selected in dragging ==> s == dragging
    ensures dragging <= s && s - dragging <= {selected}
  {
    if selected > 0 && selected in draggable then dragging + {selected} else dragging
  }

  /** `mouseInteractionSystem`, given the three query snapshots it takes at entry. */
  method MouseInteractionSystem(w: World, mouse: Option<Mouse>,
                                draggables: seq<Entity>, hovered: seq<Entity>, draggingNow: seq<Entity>)
    requires w.Valid()
    requires IsSnapshot(draggables, w.draggable)
    requires IsSnapshot(hovered, w.hover)
    requires IsSnapshot(draggingNow, w.dragging)
    modifies w`hover, w`dragging
    ensures w.Valid()
    ensures mouse.None? ==> w.hover == old(w.hover) && w.dragging == old(w.dragging)
    ensures mouse.Some? && !mouse.value.isDown ==>
      w.hover == HoverWinner(w.pos, w.radius, draggables, mouse.value) && w.dragging == {}
    ensures mouse.Some? && mouse.value.isDown ==>
      w.hover == old(w.hover) &&
      w.dragging == Activated(old(w.dragging), w.draggable, mouse.value.selected)
  {
    if mouse.None? {
      return;
    }
    var m := mouse.value;

    if !m.isDown {
      var i := 0;
      while i < |hovered|
        invariant 0 <= i <= |hovered|
        invariant forall e :: e in w.hover <==> e in old(w.hover) && e !in hovered[..i]
        invariant w.dragging == old(w.dragging)
      {
        w.hover := w.hover - {hovered[i]};
        i := i + 1;
      }
      assert hovered[..|hovered|] == hovered;
      assert w.hover == {};

      var hoveredEntity := FindControlPointAt(w.pos, w.radius, draggables, m.worldX, m.worldY);
      if hoveredEntity.Some? {
        HitIsWithinRadius(w.pos, w.radius, draggables, m.worldX, m.worldY);
        w.hover := w.hover + {hoveredEntity.value};
      }
    }

    if m.isDown && m.selected > 0 {
      var isDraggable := Contains(draggables, m.selected);
      if isDraggable {
        var isAlreadyDragging := Contains(draggingNow, m.selected);
        if !isAlreadyDragging {
          w.dragging := w.dragging + {m.selected};
        }
      }
    }

    if !m.isDown {
      ghost var hoverAfter := w.hover;
      var i := 0;
      while i < |draggingNow|
        invariant 0 <= i <= |draggingNow|
        invariant w.hover == hoverAfter
        invariant forall e :: e in w.dragging <==> e in old(w.dragging) && e !in draggingNow[..i]
      {
        w.dragging := w.dragging - {draggingNow[i]};
        i := i + 1;
      }
      assert draggingNow[..|draggingNow|] == draggingNow;
    }
  }

  /** After any frame at most one entity is hovered, and it is a draggable. */
  lemma AtMostOneHovered(w: World, draggables: seq<Entity>, m: Mouse)
    requires IsSnapshot(draggables, w.draggable)
    ensures |HoverWinner(w.pos, w.radius, draggables, m)| <= 1
    ensures HoverWinner(w.pos, w.radius, draggables, m) <= w.draggable
  {
  }
}
