/**
 * The random entity factory (src/ecs/entities.ts). Each `Math.random()` call
 * becomes a sample in [0, 1) passed in by the caller, in the order the source
 * draws them.
 */
module Entities {
  import opened Ecs
  import Config

  /** A value `Math.random()` can return. */
  type UnitSample = u: real | 0.0 <= u < 1.0

  /** One colour channel. */
  type Byte = b: int | 0 <= b < 256

  /** `randomBetween(min, max)` for the sample `u`. */
  function RandomBetween(min: real, max: real, u: UnitSample): (r: real)
    ensures min < max ==> min <= r < max
    ensures min == max ==> r == min
    ensures u == 0.0 ==> r == min
  {
    Scaled(u, max - min) + min
  }

  /** A unit sample times a width: in [0, width) for a positive width, 0 for a zero width or sample. */
  function Scaled(u: UnitSample, width: real): (v: real)
    ensures width > 0.0 ==> 0.0 <= v < width
    ensures width == 0.0 || u == 0.0 ==> v == 0.0
  {
    ScaledBounds(u, width);
    u * width
  }

  lemma ScaledBounds(u: UnitSample, width: real)
    ensures width > 0.0 ==> 0.0 <= u * width < width
    ensures width == 0.0 || u == 0.0 ==> u * width == 0.0
  {
    if width > 0.0 {
      var rest := 1.0 - u;
      assert rest * width > 0.0;
      assert width - u * width == rest * width;
    } else if width == 0.0 {
      assert u * 0.0 == 0.0;
    } else if u == 0.0 {
      assert 0.0 * width == 0.0;
    }
  }

  /** `Math.floor(Math.random() * 256)`. */
  function RandomByte(u: UnitSample): (b: Byte)
    ensures b as real <= Scaled(u, 256.0) < b as real + 1.0
  {
    Scaled(u, 256.0).Floor
  }

  /** 2 to the power k. */
  function Pow2(k: nat): (p: nat)
    ensures p >= 1
  {
    if k == 0 then 1 else 2 * Pow2(k - 1)
  }

  /** The two shift widths the colour code uses. */
  lemma Pow2Of8And16()
    ensures Pow2(8) == 256 && Pow2(16) == 65536
  {
    assert Pow2(4) == 16 by {
      assert Pow2(1) == 2;
      assert Pow2(2) == 4;
      assert Pow2(3) == 8;
    }
    assert Pow2(8) == 256 by {
      assert Pow2(5) == 32;
      assert Pow2(6) == 64;
      assert Pow2(7) == 128;
    }
    assert Pow2(12) == 4096 by {
      assert Pow2(9) == 512;
      assert Pow2(10) == 1024;
      assert Pow2(11) == 2048;
    }
    assert Pow2(13) == 8192;
    assert Pow2(14) == 16384;
    assert Pow2(15) == 32768;
  }

  /** JavaScript's `x << k` on a non-negative 32-bit value that does not overflow: k doublings. */
  function ShiftLeft(x: nat, k: nat): nat
  {
    if k == 0 then x else 2 * ShiftLeft(x, k - 1)
  }

  /** Shifting left by k multiplies by 2^k. */
  lemma {:induction false} ShiftLeftIsMul(x: nat, k: nat)
    ensures ShiftLeft(x, k) == x * Pow2(k)
  {
    if k > 0 {
      ShiftLeftIsMul(x, k - 1);
      var p := Pow2(k - 1);
      assert x * (2 * p) == 2 * (x * p);
    }
  }

  /** JavaScript's `x >> k` on a non-negative 32-bit value: k halvings. */
  function ShiftRight(x: nat, k: nat): nat
  {
    if k == 0 then x else ShiftRight(x / 2, k - 1)
  }

  /** JavaScript's `a | b` on non-negative 32-bit values, bit by bit from the lowest. */
  function BitOr(a: nat, b: nat): nat
    decreases a + b
  {
    if a == 0 then b
    else if b == 0 then a
    else 2 * BitOr(a / 2, b / 2) + (if a % 2 == 1 || b % 2 == 1 then 1 else 0)
  }

  /** JavaScript's `a & b` on non-negative 32-bit values, bit by bit from the lowest. */
  function BitAnd(a: nat, b: nat): nat
    decreases a + b
  {
    if a == 0 || b == 0 then 0
    else 2 * BitAnd(a / 2, b / 2) + (if a % 2 == 1 && b % 2 == 1 then 1 else 0)
  }

  /** OR with an even value: the low bit is the other operand's, the rest is the OR of the halves. */
  lemma OrOfEven(t: nat, b: nat)
    requires t % 2 == 0
    ensures BitOr(t, b) == 2 * BitOr(t / 2, b / 2) + b % 2
  {
  }

  /** OR of a value shifted left by k with one below 2^k adds them: no bits overlap. */
  lemma {:induction false} OrOfDisjoint(a: nat, b: nat, k: nat)
    requires b < Pow2(k)
    ensures BitOr(ShiftLeft(a, k), b) == ShiftLeft(a, k) + b
  {
    if k == 0 {
      assert ShiftLeft(a, 0) == a && b == 0;
    } else {
      var s := ShiftLeft(a, k - 1);
      assert b / 2 < Pow2(k - 1);
      OrOfDisjoint(a, b / 2, k - 1);
      OrOfEven(2 * s, b);
    }
  }

  /** AND with the mask 2p - 1 keeps the low bit and ANDs the rest with p - 1. */
  lemma MaskStep(x: nat, p: nat)
    requires p >= 1
    ensures BitAnd(x, 2 * p - 1) == 2 * BitAnd(x / 2, p - 1) + x % 2
  {
    assert (2 * p - 1) / 2 == p - 1 && (2 * p - 1) % 2 == 1;
  }

  /** Putting a halved value back together. */
  lemma Recombine(x: nat, hi: nat, p: nat, lo: nat)
    requires x / 2 == hi * p + lo
    ensures x == hi * (2 * p) + (2 * lo + x % 2)
  {
    assert hi * (2 * p) == 2 * (hi * p);
  }

  /**
   * Shifting right by k drops exactly the bits that AND with the mask
   * 2^k - 1 keeps: x is the shifted value times 2^k plus the masked value.
   */
  lemma {:induction false} ShiftAndMaskSplit(x: nat, k: nat)
    ensures BitAnd(x, Pow2(k) - 1) < Pow2(k)
    ensures x == ShiftRight(x, k) * Pow2(k) + BitAnd(x, Pow2(k) - 1)
  {
    if k > 0 {
      var p := Pow2(k - 1);
      ShiftAndMaskSplit(x / 2, k - 1);
      var hi, lo := ShiftRight(x / 2, k - 1), BitAnd(x / 2, p - 1);
      assert Pow2(k) == 2 * p && ShiftRight(x, k) == hi;
      MaskStep(x, p);
      Recombine(x, hi, p, lo);
    }
  }

  /** A value as its quotient and remainder by 256, and by 65536. */
  lemma ByteSplit(q: nat, s: nat)
    ensures s < 256 ==> (q * 256 + s) / 256 == q && (q * 256 + s) % 256 == s
    ensures s < 65536 ==> (q * 65536 + s) / 65536 == q
  {
  }

  /**
   * `(r << 16) | (g << 8) | b`: the channels as base-256 digits, below 0x1000000.
   */
  function PackRgb(r: Byte, g: Byte, b: Byte): (c: int)
    ensures c == r * 65536 + g * 256 + b
    ensures 0 <= c < 0x100_0000
  {
    Pow2Of8And16();
    ShiftLeftIsMul(r, 16);
    ShiftLeftIsMul(g, 8);
    ShiftLeftIsMul(r * 256 + g, 8);
    OrOfDisjoint(r, g * 256, 16);
    OrOfDisjoint(r * 256 + g, b, 8);
    BitOr(BitOr(ShiftLeft(r, 16), ShiftLeft(g, 8)), b)
  }

  /** The three channels of a packed colour: `c >> 16`, `(c >> 8) & 0xff`, `c & 0xff`. */
  function UnpackRgb(c: int): (rgb: (Byte, Byte, Byte))
    requires 0 <= c < 0x100_0000
    ensures rgb.0 == c / 65536 && rgb.1 == (c / 256) % 256 && rgb.2 == c % 256
  {
    Pow2Of8And16();
    ShiftAndMaskSplit(c, 16);
    ShiftAndMaskSplit(c, 8);
    ShiftAndMaskSplit(ShiftRight(c, 8), 8);
    ByteSplit(ShiftRight(c, 16), BitAnd(c, 65535));
    ByteSplit(ShiftRight(c, 8), BitAnd(c, 255));
    ByteSplit(ShiftRight(ShiftRight(c, 8), 8), BitAnd(ShiftRight(c, 8), 255));
    (ShiftRight(c, 16), BitAnd(ShiftRight(c, 8), 0xff), BitAnd(c, 0xff))
  }

  /** Unpacking a packed colour gives back its channels. */
  lemma UnpackPack(r: Byte, g: Byte, b: Byte)
    ensures UnpackRgb(PackRgb(r, g, b)) == (r, g, b)
  {
    var c := PackRgb(r, g, b);
    var rg := r * 256 + g;
    assert c == r * 65536 + (g * 256 + b) && c == rg * 256 + b;
    ByteSplit(r, g * 256 + b);
    ByteSplit(rg, b);
    ByteSplit(r, g);
    var t := UnpackRgb(c);
    assert t.0 == r && t.1 == g && t.2 == b;
  }

  /** Every colour below 0x1000000 is the packing of its own channels. */
  lemma PackUnpack(c: int)
    requires 0 <= c < 0x100_0000
    ensures var (r, g, b) := UnpackRgb(c); PackRgb(r, g, b) == c
  {
    var hi := c / 256;
    assert c == hi * 256 + c % 256;
    assert hi == (hi / 256) * 256 + hi % 256;
    assert hi / 256 == c / 65536;
  }

  /** `randomColor()` for the three channel samples. */
  function RandomColor(ur: UnitSample, ug: UnitSample, ub: UnitSample): (c: int)
    ensures 0 <= c < 0x100_0000
    ensures UnpackRgb(c) == (RandomByte(ur), RandomByte(ug), RandomByte(ub))
  {
    var r, g, b := RandomByte(ur), RandomByte(ug), RandomByte(ub);
    UnpackPack(r, g, b);
    PackRgb(r, g, b)
  }

  /** The eight samples one `createRandomEntity()` draws, in drawing order. */
  datatype EntitySamples = EntitySamples(x: UnitSample, y: UnitSample,
                                         vx: UnitSample, vy: UnitSample,
                                         red: UnitSample, green: UnitSample, blue: UnitSample,
                                         radius: UnitSample)

  /** The component values one entity receives. */
  datatype Components = Components(pos: Vec2, vel: Vec2, color: int, radius: real)

  /** The components `createRandomEntity()` writes for the given samples. */
  function Sampled(s: EntitySamples): (c: Components)
    ensures 0.0 <= c.pos.x < Config.CANVAS_WIDTH && 0.0 <= c.pos.y < Config.CANVAS_HEIGHT
    ensures Config.MIN_VELOCITY <= c.vel.x < Config.MAX_VELOCITY
    ensures Config.MIN_VELOCITY <= c.vel.y < Config.MAX_VELOCITY
    ensures 0 <= c.color < 0x100_0000
    ensures Config.MIN_RADIUS <= c.radius < Config.MAX_RADIUS
  {
    Components(
      Vec2(RandomBetween(0.0, Config.CANVAS_WIDTH, s.x), RandomBetween(0.0, Config.CANVAS_HEIGHT, s.y)),
      Vec2(RandomBetween(Config.MIN_VELOCITY, Config.MAX_VELOCITY, s.vx),
           RandomBetween(Config.MIN_VELOCITY, Config.MAX_VELOCITY, s.vy)),
      RandomColor(s.red, s.green, s.blue),
      RandomBetween(Config.MIN_RADIUS, Config.MAX_RADIUS, s.radius))
  }

  /** The four component columns `createRandomEntity()` writes. */
  datatype Columns = Columns(pos: map<Entity, Vec2>, vel: map<Entity, Vec2>,
                             color: map<Entity, int>, radius: map<Entity, real>)

  /** The columns of a world. */
  function ColumnsOf(w: World): Columns
    reads w
  {
    Columns(w.pos, w.vel, w.color, w.radius)
  }

  /** Entity `e` holds exactly the components `c`. */
  ghost predicate Holds(cols: Columns, e: Entity, c: Components)
  {
    e in cols.pos && cols.pos[e] == c.pos &&
    e in cols.vel && cols.vel[e] == c.vel &&
    e in cols.color && cols.color[e] == c.color &&
    e in cols.radius && cols.radius[e] == c.radius
  }

  /** The columns after entity `e` receives the components `c`. */
  function Spawn(cols: Columns, e: Entity, c: Components): Columns
  {
    Columns(cols.pos[e := c.pos], cols.vel[e := c.vel], cols.color[e := c.color], cols.radius[e := c.radius])
  }

  /** The columns after the entities `first, first + 1, ...` receive `cs` in order. */
  function SpawnAll(cols: Columns, first: Entity, cs: seq<Components>): Columns
  {
    if cs == [] then cols
    else Spawn(SpawnAll(cols, first, cs[..|cs| - 1]), first + |cs| - 1, cs[|cs| - 1])
  }

  /** Spawning one more entity after a run extends the run. */
  lemma SpawnAllAppend(cols: Columns, first: Entity, cs: seq<Components>, c: Components)
    ensures SpawnAll(cols, first, cs + [c]) == Spawn(SpawnAll(cols, first, cs), first + |cs|, c)
  {
    assert (cs + [c])[..|cs|] == cs;
  }

  /** Every spawned entity holds its own components, whatever was spawned after it. */
  lemma {:induction false} SpawnedHold(cols: Columns, first: Entity, cs: seq<Components>, k: nat)
    requires k < |cs|
    ensures Holds(SpawnAll(cols, first, cs), first + k, cs[k])
  {
    if k < |cs| - 1 {
      SpawnedHold(cols, first, cs[..|cs| - 1], k);
    }
  }

  /** Entities below `first` keep every component they had, and gain none. */
  lemma {:induction false} OthersKept(cols: Columns, first: Entity, cs: seq<Components>, e: Entity)
    requires e < first
    ensures var after := SpawnAll(cols, first, cs);
      (e in after.pos <==> e in cols.pos) && (e in cols.pos ==> after.pos[e] == cols.pos[e]) &&
      (e in after.vel <==> e in cols.vel) && (e in cols.vel ==> after.vel[e] == cols.vel[e]) &&
      (e in after.color <==> e in cols.color) && (e in cols.color ==> after.color[e] == cols.color[e]) &&
      (e in after.radius <==> e in cols.radius) && (e in cols.radius ==> after.radius[e] == cols.radius[e])
  {
    if cs != [] {
      OthersKept(cols, first, cs[..|cs| - 1], e);
    }
  }

  /** `createRandomEntity()`: allocate an entity and write its sampled components. */
  method CreateRandomEntity(w: World, s: EntitySamples) returns (e: Entity)
    requires w.Valid()
    modifies w`nextId, w`pos, w`vel, w`color, w`radius
    ensures w.Valid()
    ensures e == old(w.nextId) && w.nextId == e + 1
    ensures ColumnsOf(w) == Spawn(old(ColumnsOf(w)), e, Sampled(s))
  {
    e := w.AddEntity();
    var c := Sampled(s);
    w.pos := w.pos[e := c.pos];
    w.vel := w.vel[e := c.vel];
    w.color := w.color[e := c.color];
    w.radius := w.radius[e := c.radius];
  }

  /** The ids `[first, first + n)` in increasing order. */
  function IdRange(first: Entity, n: nat): (ids: seq<Entity>)
    ensures |ids| == n
    ensures forall k :: 0 <= k < n ==> ids[k] == first + k
  {
    seq(n, k requires 0 <= k => first + k)
  }

  /** One more id extends the range at the end. */
  lemma IdRangeAppend(first: Entity, n: nat)
    ensures IdRange(first, n + 1) == IdRange(first, n) + [first + n]
  {
  }

  /** The components for each of a run of samples. */
  function SampledAll(samples: seq<EntitySamples>): (cs: seq<Components>)
    ensures |cs| == |samples|
    ensures forall k :: 0 <= k < |samples| ==> cs[k] == Sampled(samples[k])
  {
    seq(|samples|, k requires 0 <= k < |samples| => Sampled(samples[k]))
  }

  /** One more sample adds its components at the end. */
  lemma SampledAllAppend(samples: seq<EntitySamples>, i: nat)
    requires i < |samples|
    ensures SampledAll(samples[..i + 1]) == SampledAll(samples[..i]) + [Sampled(samples[i])]
  {
    assert SampledAll(samples[..i + 1])[..i] == SampledAll(samples[..i]);
  }

  /** `createRandomEntities(count)`: `count` entities (none when `count <= 0`), in creation order. */
  method CreateRandomEntities(w: World, count: int, samples: seq<EntitySamples>) returns (ids: seq<Entity>)
    requires w.Valid()
    requires count <= |samples|
    modifies w`nextId, w`pos, w`vel, w`color, w`radius
    ensures w.Valid()
    ensures |ids| == if count > 0 then count else 0
    ensures ids == IdRange(old(w.nextId), |ids|) && w.nextId == old(w.nextId) + |ids|
    ensures ColumnsOf(w) == SpawnAll(old(ColumnsOf(w)), old(w.nextId), SampledAll(samples[..|ids|]))
  {
    ids := [];
    ghost var first, cols0 := w.nextId, ColumnsOf(w);
    var i := 0;
    while i < count
      invariant 0 <= i && (count > 0 ==> i <= count) && (count <= 0 ==> i == 0)
      invariant w.Valid()
      invariant ids == IdRange(first, i) && w.nextId == first + i
      invariant ColumnsOf(w) == SpawnAll(cols0, first, SampledAll(samples[..i]))
    {
      ghost var before := ColumnsOf(w);
      var e := CreateRandomEntity(w, samples[i]);
      ghost var done, c := SampledAll(samples[..i]), Sampled(samples[i]);
      SampledAllAppend(samples, i);
      SpawnAllAppend(cols0, first, done, c);
      assert ColumnsOf(w) == Spawn(before, e, c) && e == first + |done|;
      IdRangeAppend(first, i);
      ids := ids + [e];
      i := i + 1;
    }
  }

  /** `createRandomEntities()` with its default argument, `GAME_CONFIG.DEFAULT_ENTITY_COUNT`. */
  method CreateDefaultEntities(w: World, samples: seq<EntitySamples>) returns (ids: seq<Entity>)
    requires w.Valid()
    requires Config.DEFAULT_ENTITY_COUNT <= |samples|
    modifies w`nextId, w`pos, w`vel, w`color, w`radius
    ensures w.Valid()
    ensures |ids| == Config.DEFAULT_ENTITY_COUNT
    ensures ids == IdRange(old(w.nextId), |ids|) && w.nextId == old(w.nextId) + |ids|
    ensures ColumnsOf(w) == SpawnAll(old(ColumnsOf(w)), old(w.nextId), SampledAll(samples[..|ids|]))
  {
    ids := CreateRandomEntities(w, Config.DEFAULT_ENTITY_COUNT, samples);
  }
}
