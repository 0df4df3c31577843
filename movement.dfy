/**
 * The movement system (src/ecs/systems/movement.ts): every entity holding
 * Position and Movement advances by its velocity times the frame time.
 */
module Movement {
  import opened Ecs

  /** One entity's `Position += Movement * dt`: the displacement is the velocity times the frame time. */
  function Advance(p: Vec2, v: Vec2, dt: real): (r: Vec2)
    ensures r.x - p.x == v.x * dt && r.y - p.y == v.y * dt
    ensures dt == 0.0 || (v.x == 0.0 && v.y == 0.0) ==> r == p
  {
    Vec2(p.x + v.x * dt, p.y + v.y * dt)
  }

  /** The Position column after the entities in `targets` advance by `vel * dt`. */
  function Integrated(pos: map<Entity, Vec2>, vel: map<Entity, Vec2>, targets: set<Entity>, dt: real): (r: map<Entity, Vec2>)
    ensures r.Keys == pos.Keys
    ensures forall e :: e in targets && e in pos && e in vel ==> r[e] == Advance(pos[e], vel[e], dt)
    ensures forall e :: e in pos && !(e in targets && e in vel) ==> r[e] == pos[e]
  {
    map e | e in pos :: if e in targets && e in vel then Advance(pos[e], vel[e], dt) else pos[e]
  }

  /** `movementSystem`, given the Position+Movement snapshot it takes. */
  method MovementSystem(w: World, dt: real, movable: seq<Entity>)
    requires w.Valid()
    requires IsSnapshot(movable, w.pos.Keys * w.vel.Keys)
    modifies w`pos
    ensures w.Valid()
    ensures w.pos == Integrated(old(w.pos), old(w.vel), old(w.pos).Keys * old(w.vel).Keys, dt)
  {
    ghost var pos0 := w.pos;
    var i := 0;
    while i < |movable|
      invariant 0 <= i <= |movable|
      invariant w.pos == Integrated(pos0, w.vel, Elements(movable[..i]), dt)
    {
      var e := movable[i];
      assert e in movable && e !in movable[..i];
      assert e in pos0 && e in w.vel;
      ElementsOfPrefix(movable, i);
      MoveOneMore(pos0, w.vel, Elements(movable[..i]), e, dt);
      w.pos := w.pos[e := Advance(w.pos[e], w.vel[e], dt)];
      i := i + 1;
    }
    assert movable[..|movable|] == movable;
    SameMovers(old(w.pos), w.vel, Elements(movable), old(w.pos).Keys * w.vel.Keys, dt);
  }

  /** Moving one more entity is a single `+=` on its column entries. */
  lemma MoveOneMore(pos: map<Entity, Vec2>, vel: map<Entity, Vec2>, targets: set<Entity>, e: Entity, dt: real)
    requires e in pos && e in vel && e !in targets
    ensures var before := Integrated(pos, vel, targets, dt);
      Integrated(pos, vel, targets + {e}, dt) == before[e := Advance(before[e], vel[e], dt)]
  {
  }

  /** Only the movers that have a position and a velocity matter. */
  lemma SameMovers(pos: map<Entity, Vec2>, vel: map<Entity, Vec2>, t1: set<Entity>, t2: set<Entity>, dt: real)
    requires t1 * pos.Keys * vel.Keys == t2 * pos.Keys * vel.Keys
    ensures Integrated(pos, vel, t1, dt) == Integrated(pos, vel, t2, dt)
  {
    forall e | e in pos
      ensures Integrated(pos, vel, t1, dt)[e] == Integrated(pos, vel, t2, dt)[e]
    {
      assert (e in t1 && e in vel) == (e in t1 * pos.Keys * vel.Keys);
      assert (e in t2 && e in vel) == (e in t2 * pos.Keys * vel.Keys);
    }
  }

  /** A zero time step leaves every position where it is. */
  lemma ZeroStepKeepsPositions(pos: map<Entity, Vec2>, vel: map<Entity, Vec2>, targets: set<Entity>)
    ensures Integrated(pos, vel, targets, 0.0) == pos
  {
  }

  /** One step of `dt1 + dt2` equals a step of `dt1` followed by a step of `dt2`. */
  lemma StepsCompose(pos: map<Entity, Vec2>, vel: map<Entity, Vec2>, targets: set<Entity>, dt1: real, dt2: real)
    ensures Integrated(Integrated(pos, vel, targets, dt1), vel, targets, dt2) == Integrated(pos, vel, targets, dt1 + dt2)
  {
  }
}
