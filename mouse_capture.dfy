/**
 * The mouse capture system (src/ecs/systems/mouseCapture.ts): the pointer
 * hit test over draggable entities, the screen-to-world transform, and the
 * mouse record that the mouse event handlers update while the system is active.
 *
 * Distances are compared squared: for a threshold t >= 0,
 * `sqrt(d2) < t` holds exactly when `d2 < t * t`.
 */
module MouseCapture {
  import opened Wrappers
  import opened Ecs
  import Config

  /** Squared distance from an entity position to the pointer. */
  function DistSq(p: Vec2, mx: real, my: real): (d: real)
    ensures d >= 0.0
  {
    (p.x - mx) * (p.x - mx) + (p.y - my) * (p.y - my)
  }

  /** `Math.max(CLICK_RADIUS, radius)`: the hit threshold of one entity. */
  function Threshold(radius: real): (t: real)
    ensures t >= Config.CLICK_RADIUS && t >= radius
    ensures t == Config.CLICK_RADIUS || t == radius
  {
    if Config.CLICK_RADIUS >= radius then Config.CLICK_RADIUS else radius
  }

  /** The running best starts at `CLICK_RADIUS + 1`; this is its square. */
  const InitialBestSq: real := (Config.CLICK_RADIUS + 1.0) * (Config.CLICK_RADIUS + 1.0)

  /**
   * An entity can win the scan: it has a position and a radius (a missing
   * column entry reads as NaN in the source, which fails every comparison),
   * it is within its threshold, and within the initial running best.
   */
  ghost predicate Qualifies(pos: map<Entity, Vec2>, radius: map<Entity, real>, e: Entity, mx: real, my: real)
  {
    e in pos && e in radius &&
    DistSq(pos[e], mx, my) < Threshold(radius[e]) * Threshold(radius[e]) &&
    DistSq(pos[e], mx, my) < InitialBestSq
  }

  /** No candidate among the first `n` qualifies. */
  ghost predicate NoHitAmong(pos: map<Entity, Vec2>, radius: map<Entity, real>, ents: seq<Entity>, n: nat, mx: real, my: real)
    requires n <= |ents|
  {
    forall j :: 0 <= j < n ==> !Qualifies(pos, radius, ents[j], mx, my)
  }

  /**
   * Index k wins the scan of the first n candidates: it qualifies, every
   * earlier qualifier is strictly farther, and no later qualifier is closer.
   */
  ghost predicate IsWinnerAmong(pos: map<Entity, Vec2>, radius: map<Entity, real>, ents: seq<Entity>, n: nat, k: int, mx: real, my: real)
    requires n <= |ents|
  {
    0 <= k < n &&
    Qualifies(pos, radius, ents[k], mx, my) &&
    (forall j :: 0 <= j < k && Qualifies(pos, radius, ents[j], mx, my) ==>
       DistSq(pos[ents[j]], mx, my) > DistSq(pos[ents[k]], mx, my)) &&
    (forall j :: k < j < n && Qualifies(pos, radius, ents[j], mx, my) ==>
       DistSq(pos[ents[j]], mx, my) >= DistSq(pos[ents[k]], mx, my))
  }

  /** When some candidate qualifies, a winner exists: the first closest qualifier. */
  lemma {:induction false} WinnerExists(pos: map<Entity, Vec2>, radius: map<Entity, real>, ents: seq<Entity>, n: nat, mx: real, my: real)
    requires n <= |ents|
    requires !NoHitAmong(pos, radius, ents, n, mx, my)
    ensures exists k :: IsWinnerAmong(pos, radius, ents, n, k, mx, my)
  {
    var j :| 0 <= j < n && Qualifies(pos, radius, ents[j], mx, my);
    if NoHitAmong(pos, radius, ents, n - 1, mx, my) {
      assert j == n - 1;
      assert IsWinnerAmong(pos, radius, ents, n, n - 1, mx, my);
    } else {
      WinnerExists(pos, radius, ents, n - 1, mx, my);
      var k :| IsWinnerAmong(pos, radius, ents, n - 1, k, mx, my);
      var last := ents[n - 1];
      if Qualifies(pos, radius, last, mx, my) && DistSq(pos[last], mx, my) < DistSq(pos[ents[k]], mx, my) {
        assert IsWinnerAmong(pos, radius, ents, n, n - 1, mx, my);
      } else {
        assert IsWinnerAmong(pos, radius, ents, n, k, mx, my);
      }
    }
  }

  /** The winner is unique: exact ties always go to the earlier candidate. */
  lemma WinnerUnique(pos: map<Entity, Vec2>, radius: map<Entity, real>, ents: seq<Entity>, n: nat, k1: int, k2: int, mx: real, my: real)
    requires n <= |ents|
    requires IsWinnerAmong(pos, radius, ents, n, k1, mx, my)
    requires IsWinnerAmong(pos, radius, ents, n, k2, mx, my)
    ensures k1 == k2
  {
  }

  /**
   * The reference result of the hit test over the whole candidate list:
   * no entity when nothing qualifies, otherwise the entity at the winning index.
   */
  ghost function ClosestHit(pos: map<Entity, Vec2>, radius: map<Entity, real>, ents: seq<Entity>, mx: real, my: real): (r: Option<Entity>)
    ensures r.None? <==> NoHitAmong(pos, radius, ents, |ents|, mx, my)
    ensures r.Some? ==> exists k :: IsWinnerAmong(pos, radius, ents, |ents|, k, mx, my) && ents[k] == r.value
  {
    if NoHitAmong(pos, radius, ents, |ents|, mx, my) then None
    else
      WinnerExists(pos, radius, ents, |ents|, mx, my);
      var k :| IsWinnerAmong(pos, radius, ents, |ents|, k, mx, my);
      Some(ents[k])
  }

  /** Whatever the hit test returns lies within both its threshold and `CLICK_RADIUS + 1`. */
  lemma HitIsWithinRadius(pos: map<Entity, Vec2>, radius: map<Entity, real>, ents: seq<Entity>, mx: real, my: real)
    requires ClosestHit(pos, radius, ents, mx, my).Some?
    ensures var e := ClosestHit(pos, radius, ents, mx, my).value;
      e in ents && e in pos && e in radius &&
      DistSq(pos[e], mx, my) < Threshold(radius[e]) * Threshold(radius[e]) &&
      DistSq(pos[e], mx, my) < InitialBestSq
  {
    var r := ClosestHit(pos, radius, ents, mx, my);
    var k :| IsWinnerAmong(pos, radius, ents, |ents|, k, mx, my) && ents[k] == r.value;
  }

  /**
   * `findControlPointAt`: a linear scan keeping a running best, replaced only
   * by a strictly closer qualifying candidate.
   */
  method FindControlPointAt(pos: map<Entity, Vec2>, radius: map<Entity, real>, ents: seq<Entity>, mx: real, my: real)
    returns (closest: Option<Entity>)
    ensures closest == ClosestHit(pos, radius, ents, mx, my)
  {
    closest := None;
    var bestSq := InitialBestSq;
    ghost var wk: int := 0;
    var i := 0;
    while i < |ents|
      invariant 0 <= i <= |ents|
      invariant closest.None? ==> bestSq == InitialBestSq && NoHitAmong(pos, radius, ents, i, mx, my)
      invariant closest.Some? ==>
        IsWinnerAmong(pos, radius, ents, i, wk, mx, my) && closest.value == ents[wk] &&
        bestSq == DistSq(pos[ents[wk]], mx, my)
    {
      var e := ents[i];
      if e in pos && e in radius {
        var d := DistSq(pos[e], mx, my);
        var t := Threshold(radius[e]);
        if d < t * t && d < bestSq {
          bestSq := d;
          closest := Some(e);
          wk := i;
        }
      }
      i := i + 1;
    }
    if closest.Some? {
      ghost var r := ClosestHit(pos, radius, ents, mx, my);
      ghost var k :| IsWinnerAmong(pos, radius, ents, |ents|, k, mx, my) && ents[k] == r.value;
      WinnerUnique(pos, radius, ents, |ents|, k, wk, mx, my);
    }
  }

  /** `screenToWorld`: screen coordinates divided by the canvas scale. */
  function ScreenToWorld(sx: real, sy: real, scaleX: real, scaleY: real): (w: Vec2)
    requires scaleX != 0.0 && scaleY != 0.0
    ensures w.x * scaleX == sx && w.y * scaleY == sy
  {
    Vec2(sx / scaleX, sy / scaleY)
  }

  /** `mouse.selected = entity || 0`: the hit entity's id, 0 when there is none. */
  function SelectedId(hit: Option<Entity>): (id: Entity)
    ensures hit.None? ==> id == 0
    ensures hit.Some? ==> id == hit.value
  {
    if hit.Some? then hit.value else 0
  }

  /** A hit on entity 0 and no hit at all leave the same `selected` value. */
  lemma HitOnZeroLooksLikeMiss()
    ensures SelectedId(Some(0)) == SelectedId(None)
  {
  }

  /**
   * The state of one mouse capture system: the `isActive` flag and the mouse
   * record its closures share. The canvas scale is fixed at creation.
   */
  class MouseCaptureSystem {
    const scaleX: real
    const scaleY: real
    var isActive: bool
    var mouse: Mouse

    ghost predicate Valid()
      reads this
    {
      scaleX != 0.0 && scaleY != 0.0
    }

    /** `createMouseCaptureSystem`: inactive, all-zero mouse record. */
    constructor (scaleX: real, scaleY: real)
      requires scaleX != 0.0 && scaleY != 0.0
      ensures Valid()
      ensures this.scaleX == scaleX && this.scaleY == scaleY
      ensures !isActive && mouse == ZeroMouse
    {
      this.scaleX := scaleX;
      this.scaleY := scaleY;
      isActive := false;
      mouse := ZeroMouse;
    }

    /** The pointer relative to the canvas, in screen and world coordinates. */
    function Located(m: Mouse, clientX: real, clientY: real, left: real, top: real): (m': Mouse)
      reads this
      requires Valid()
      ensures m'.isDown == m.isDown && m'.selected == m.selected
      ensures m'.screenX == clientX - left && m'.screenY == clientY - top
      ensures m'.worldX * scaleX == m'.screenX && m'.worldY * scaleY == m'.screenY
    {
      var w := ScreenToWorld(clientX - left, clientY - top, scaleX, scaleY);
      m.(screenX := clientX - left, screenY := clientY - top, worldX := w.x, worldY := w.y)
    }

    /** `onMouseMove`: while active, only the coordinates change. */
    method OnMouseMove(clientX: real, clientY: real, left: real, top: real)
      requires Valid()
      modifies this`mouse
      ensures !isActive ==> mouse == old(mouse)
      ensures isActive ==> mouse == Located(old(mouse), clientX, clientY, left, top)
      ensures mouse.isDown == old(mouse.isDown) && mouse.selected == old(mouse.selected)
    {
      if !isActive {
        return;
      }
      mouse := Located(mouse, clientX, clientY, left, top);
    }

    /** `onMouseDown`: while active, press the button and select the hit entity (0 for none). */
    method OnMouseDown(clientX: real, clientY: real, left: real, top: real, w: World, draggables: seq<Entity>)
      requires Valid()
      requires IsSnapshot(draggables, w.draggable)
      modifies this`mouse
      ensures !isActive ==> mouse == old(mouse)
      ensures isActive ==>
        var m := Located(old(mouse), clientX, clientY, left, top);
        mouse == m.(isDown := true,
                     selected := SelectedId(ClosestHit(w.pos, w.radius, draggables, m.worldX, m.worldY)))
    {
      if !isActive {
        return;
      }
      var m := Located(mouse, clientX, clientY, left, top);
      var entity := FindControlPointAt(w.pos, w.radius, draggables, m.worldX, m.worldY);
      mouse := m.(isDown := true, selected := SelectedId(entity));
    }

    /** `onMouseUp`: while active, release the button and clear the selection. */
    method OnMouseUp(clientX: real, clientY: real, left: real, top: real)
      requires Valid()
      modifies this`mouse
      ensures !isActive ==> mouse == old(mouse)
      ensures isActive ==>
        mouse == Located(old(mouse), clientX, clientY, left, top).(isDown := false, selected := 0)
    {
      if !isActive {
        return;
      }
      mouse := Located(mouse, clientX, clientY, left, top).(isDown := false, selected := 0);
    }

    /** `start`: on an inactive system, zero the mouse record and activate; otherwise nothing. */
    method Start()
      modifies this`mouse, this`isActive
      ensures old(isActive) ==> isActive && mouse == old(mouse)
      ensures !old(isActive) ==> isActive && mouse == ZeroMouse
    {
      if isActive {
        return;
      }
      mouse := ZeroMouse;
      isActive := true;
    }

    /** `stop`: deactivate; the mouse record is kept as it is. */
    method Stop()
      modifies this`isActive
      ensures !isActive
    {
      if !isActive {
        return;
      }
      isActive := false;
    }

    /** `getInteractiveEntity` / `getIn`: the shared mouse record. */
    function GetMouse(): (m: Mouse)
      reads this
      ensures m == mouse
    {
      mouse
    }
  }
}
