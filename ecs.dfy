/**
 * The shared entity-component world: component columns keyed by entity id,
 * the marker components used by the mouse systems, and the mouse record.
 */
module Ecs {
  /** Entity ids are plain non-negative integers. */
  type Entity = nat

  /** A pair of world coordinates (a position or a velocity). */
  datatype Vec2 = Vec2(x: real, y: real)

  /**
   * The mouse record the capture system maintains and the other systems read.
   * `isDown` is the source's 0/1 flag; `selected` is an entity id, 0 for none.
   */
  datatype Mouse = Mouse(screenX: real, screenY: real, worldX: real, worldY: real,
                         isDown: bool, selected: Entity)

  /** The mouse record as `start` initialises it: everything zero. */
  const ZeroMouse := Mouse(0.0, 0.0, 0.0, 0.0, false, 0)

  /** A query result: distinct ids, exactly the entities holding the queried components. */
  ghost predicate IsSnapshot(q: seq<Entity>, s: set<Entity>)
  {
    (forall i, j :: 0 <= i < j < |q| ==> q[i] != q[j]) &&
    (forall e :: e in q <==> e in s)
  }

  /** The elements of a query snapshot. */
  ghost function Elements(q: seq<Entity>): (s: set<Entity>)
    ensures forall e :: e in s <==> e in q
  {
    set e | e in q
  }

  /** Extending a snapshot prefix by one id adds that id. */
  lemma ElementsOfPrefix(q: seq<Entity>, i: nat)
    requires i < |q|
    ensures Elements(q[..i + 1]) == Elements(q[..i]) + {q[i]}
  {
    assert q[..i + 1] == q[..i] + [q[i]];
  }

  /**
   * The world: the Position, Movement and Render columns as maps (an entity
   * holds the component exactly when it is a key), and the marker components
   * Draggable, Hover and Dragging as sets.
   */
  class World {
    /** The next id the entity allocator hands out. */
    var nextId: Entity
    var pos: map<Entity, Vec2>
    var vel: map<Entity, Vec2>
    var color: map<Entity, int>
    var radius: map<Entity, real>
    var draggable: set<Entity>
    var hover: set<Entity>
    var dragging: set<Entity>

    /** Every entity mentioned anywhere has been allocated. */
    ghost predicate Valid()
      reads this
    {
      (forall e :: e in pos ==> e < nextId) &&
      (forall e :: e in vel ==> e < nextId) &&
      (forall e :: e in color ==> e < nextId) &&
      (forall e :: e in radius ==> e < nextId) &&
      (forall e :: e in draggable ==> e < nextId) &&
      (forall e :: e in hover ==> e < nextId) &&
      (forall e :: e in dragging ==> e < nextId)
    }

    constructor ()
      ensures Valid()
      ensures nextId == 0 && pos == map[] && vel == map[] && color == map[] && radius == map[]
      ensures draggable == {} && hover == {} && dragging == {}
    {
      nextId := 0;
      pos, vel, color, radius := map[], map[], map[], map[];
      draggable, hover, dragging := {}, {}, {};
    }

    /** Allocates a fresh entity id that no component mentions yet. */
    method AddEntity() returns (e: Entity)
      requires Valid()
      modifies this`nextId
      ensures Valid()
      ensures e == old(nextId) && nextId == e + 1
      ensures e !in pos && e !in vel && e !in color && e !in radius
      ensures e !in draggable && e !in hover && e !in dragging
    {
      e := nextId;
      nextId := nextId + 1;
    }
  }
}
