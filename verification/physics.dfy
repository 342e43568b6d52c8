/**
 * The simulation engine of src/physics.ts: the xorshift32 generator used for
 * the floor-bounce jitter, the creation of the physics and static buffers, and
 * the per-frame step that integrates every body and bounces it off the four
 * walls, in place.
 *
 * Float32Array entries and JavaScript numbers are modelled as exact reals;
 * the offsets `i << 2` and `i << 1` are written `4 * i` and `2 * i`, which they
 * equal for every body count the configuration allows.
 */
module Physics {
  import opened Constants

  // ---------------------------------------------------------------------------
  // fastRandom: xorshift32 (13, 17, 5)
  // ---------------------------------------------------------------------------

  const INITIAL_SEED: bv32 := 0xdead_beef

  /** One xorshift32 step; `<<` and `>>` on bv32 are JavaScript's `<<` and `>>>`
      on the int32 bit pattern. */
  function XorShift(s: bv32): bv32 {
    var a := s ^ (s << 13);
    var b := a ^ (a >> 17);
    b ^ (b << 5)
  }

  lemma XorShift13NonZero(s: bv32)
    requires s != 0
    ensures s ^ (s << 13) != 0
  {
  }

  lemma XorShift17NonZero(s: bv32)
    requires s != 0
    ensures s ^ (s >> 17) != 0
  {
  }

  lemma XorShift5NonZero(s: bv32)
    requires s != 0
    ensures s ^ (s << 5) != 0
  {
  }

  /** A non-zero seed never becomes zero, so the generator never gets stuck. */
  lemma XorShiftNonZero(s: bv32)
    requires s != 0
    ensures XorShift(s) != 0
  {
    XorShift13NonZero(s);
    var a := s ^ (s << 13);
    XorShift17NonZero(a);
    XorShift5NonZero(a ^ (a >> 17));
  }

  /** `(seed >>> 0) / 0xffffffff`: the unsigned value of the seed scaled into [0, 1]. */
  function UnitOf(s: bv32): (r: real)
    ensures 0.0 <= r <= 1.0
  {
    (s as int) as real / 4294967295.0
  }

  /** The draw is 0 only for the zero seed, which a non-zero seed never
      reaches, and 1 only for the all-ones seed. */
  lemma UnitOfEnds(s: bv32)
    ensures UnitOf(s) == 0.0 <==> s == 0
    ensures UnitOf(s) == 1.0 <==> s == 0xffff_ffff
  {
  }

  /** The module-level `xorSeed` and the `fastRandom` closure over it. */
  class FastRandom {
    var seed: bv32

    constructor ()
      ensures seed == INITIAL_SEED
    {
      seed := INITIAL_SEED;
    }

    method Next() returns (r: real)
      modifies this
      ensures seed == XorShift(old(seed))
      ensures r == UnitOf(seed)
    {
      seed := XorShift(seed);
      r := UnitOf(seed);
    }
  }

  // ---------------------------------------------------------------------------
  // Bodies and buffers
  // ---------------------------------------------------------------------------

  /** The four scalars one body occupies in the physics buffer. */
  datatype Body = Body(x: real, y: real, vx: real, vy: real)

  /** The record of src/types.ts: the stride-4 physics buffer and its stride-2
      mirror of positions, the one the renderer uploads. */
  datatype PhysicsState = PhysicsState(physics: array<real>, positions: array<real>)

  const RIGHT_WALL: real := BOUNDS_RIGHT - SCALE_X
  const TOP_WALL: real := BOUNDS_TOP - SCALE_Y

  /** Both buffers are distinct and sized for `count` bodies. */
  predicate Sized(state: PhysicsState, count: nat) {
    state.physics.Length == 4 * count && state.positions.Length == 2 * count
    && state.physics != state.positions
  }

  function BodyAt(p: seq<real>, i: nat): Body
    requires 4 * i + 3 < |p|
  {
    Body(p[4 * i], p[4 * i + 1], p[4 * i + 2], p[4 * i + 3])
  }

  function Flat(b: Body): seq<real> {
    [b.x, b.y, b.vx, b.vy]
  }

  /** The position buffer holds exactly the x and y of every body of the physics buffer. */
  predicate Mirrored(p: seq<real>, q: seq<real>, count: nat)
    requires |p| == 4 * count && |q| == 2 * count
  {
    forall i :: 0 <= i < count ==> q[2 * i] == p[4 * i] && q[2 * i + 1] == p[4 * i + 1]
  }

  /** A body whose sprite lies inside the walls. */
  predicate InBounds(b: Body) {
    BOUNDS_LEFT <= b.x <= RIGHT_WALL && BOUNDS_BOTTOM <= b.y <= TOP_WALL
  }

  predicate AllInBounds(p: seq<real>, count: nat)
    requires |p| == 4 * count
  {
    forall i :: 0 <= i < count ==> InBounds(BodyAt(p, i))
  }

  // ---------------------------------------------------------------------------
  // createPhysicsState, createStaticData
  // ---------------------------------------------------------------------------

  /** `rand(min, max)` for one Math.random draw `u` in [0, 1). Its range is
      stated where it is used with constant bounds, which keeps the arithmetic linear. */
  function Rand(min: real, max: real, u: real): real {
    min + u * (max - min)
  }

  /** A sequence of Math.random draws: each in [0, 1). */
  predicate Draws(u: seq<real>) {
    forall k :: 0 <= k < |u| ==> 0.0 <= u[k] < 1.0
  }

  /** The body `createPhysicsState` makes from four draws. */
  function InitialBody(u: seq<real>, i: nat): (b: Body)
    requires 4 * i + 3 < |u| && Draws(u)
    ensures -0.95 <= b.x < 0.95 && -0.95 <= b.y < 0.95
    ensures -0.015 <= b.vx < 0.015 && -0.01 <= b.vy < 0.01
    ensures InBounds(b)
  {
    Body(Rand(-0.95, 0.95, u[4 * i]), Rand(-0.95, 0.95, u[4 * i + 1]),
         Rand(-0.015, 0.015, u[4 * i + 2]), Rand(-0.01, 0.01, u[4 * i + 3]))
  }

  /** The physics buffer `createPhysicsState` fills for the first n bodies. */
  function InitialBuffer(u: seq<real>, n: nat): (r: seq<real>)
    requires 4 * n <= |u| && Draws(u)
    ensures |r| == 4 * n
  {
    if n == 0 then [] else InitialBuffer(u, n - 1) + Flat(InitialBody(u, n - 1))
  }

  /** createPhysicsState: `u` holds the 4 * count Math.random draws in call order. */
  method CreatePhysicsState(count: nat, u: seq<real>) returns (state: PhysicsState)
    requires |u| == 4 * count && Draws(u)
    ensures fresh(state.physics) && fresh(state.positions) && Sized(state, count)
    ensures state.physics[..] == InitialBuffer(u, count)
    ensures Mirrored(state.physics[..], state.positions[..], count)
  {
    var physics := new real[4 * count];
    var positions := new real[2 * count];
    for i := 0 to count
      invariant Filled(physics, positions, u, i)
    {
      CreateBody(physics, positions, u, i);
    }
    assert physics[..][..4 * count] == physics[..];
    assert positions[..][..2 * count] == positions[..];
    state := PhysicsState(physics, positions);
  }

  /** The state of createPhysicsState's loop after i bodies: they hold their
      initial values and their positions are mirrored. */
  ghost predicate Filled(physics: array<real>, positions: array<real>, u: seq<real>, i: nat)
    reads physics, positions
  {
    4 * i <= |u| && Draws(u) && 4 * i <= physics.Length && 2 * i <= positions.Length
    && physics[..][..4 * i] == InitialBuffer(u, i)
    && Mirrored(InitialBuffer(u, i), positions[..][..2 * i], i)
  }

  /** One iteration of createPhysicsState's loop: body i gets its four draws
      and its position is copied from them. */
  method CreateBody(physics: array<real>, positions: array<real>, u: seq<real>, i: nat)
    requires physics != positions && 4 * i + 3 < physics.Length && 2 * i + 1 < positions.Length
    requires 4 * i + 3 < |u| && Filled(physics, positions, u, i)
    modifies physics, positions
    ensures Filled(physics, positions, u, i + 1)
  {
    ghost var p, q := physics[..], positions[..];
    var b := InitialBody(u, i);
    StoreBody(physics, positions, i, b);
    StorePrefix(p, i, b);
    MirroredStore(InitialBuffer(u, i), q, i, b);
  }

  /** Body i of the initial buffer is the body made from draws 4i .. 4i + 3. */
  lemma {:induction false} InitialBufferAt(u: seq<real>, n: nat, j: nat)
    requires 4 * n <= |u| && Draws(u) && j < n
    ensures BodyAt(InitialBuffer(u, n), j) == InitialBody(u, j)
  {
    if j < n - 1 {
      InitialBufferAt(u, n - 1, j);
    }
  }

  /** Every body createPhysicsState makes starts inside the walls. */
  lemma InitialInBounds(u: seq<real>, n: nat)
    requires 4 * n <= |u| && Draws(u)
    ensures AllInBounds(InitialBuffer(u, n), n)
  {
    forall j | 0 <= j < n
      ensures InBounds(BodyAt(InitialBuffer(u, n), j))
    {
      InitialBufferAt(u, n, j);
    }
  }

  /** The writes of one loop iteration: body `b` over entries 4i .. 4i + 3 of
      the physics buffer and its x, y over entries 2i, 2i + 1 of the positions. */
  method StoreBody(physics: array<real>, positions: array<real>, i: nat, b: Body)
    requires physics != positions && 4 * i + 3 < physics.Length && 2 * i + 1 < positions.Length
    modifies physics, positions
    ensures physics[..] == old(physics[..])[..4 * i] + Flat(b) + old(physics[..])[4 * i + 4..]
    ensures positions[..] == old(positions[..])[2 * i := b.x][2 * i + 1 := b.y]
  {
    ghost var before := physics[..];
    var physOffset := 4 * i;
    physics[physOffset] := b.x;
    physics[physOffset + 1] := b.y;
    physics[physOffset + 2] := b.vx;
    physics[physOffset + 3] := b.vy;
    assert physics[..] == before[..4 * i] + Flat(b) + before[4 * i + 4..];

    var posOffset := 2 * i;
    positions[posOffset] := physics[physOffset];
    positions[posOffset + 1] := physics[physOffset + 1];
  }

  lemma StorePrefix(p: seq<real>, i: nat, b: Body)
    requires 4 * i + 4 <= |p|
    ensures (p[..4 * i] + Flat(b) + p[4 * i + 4..])[..4 * (i + 1)] == p[..4 * i] + Flat(b)
  {
  }

  /** The per-instance record the renderer reads: a scale and an atlas UV offset. */
  datatype StaticSprite = StaticSprite(scaleX: real, scaleY: real, uvX: real, uvY: real)

  /** `Math.floor(rand(0, SPRITE_TYPES))`: the sprite variant of one body. */
  function SpriteIndex(u: real): (k: nat)
    requires 0.0 <= u < 1.0
    ensures k < SPRITE_TYPES
    ensures k as real <= u * SPRITE_TYPES as real < k as real + 1.0
  {
    (u * SPRITE_TYPES as real).Floor
  }

  /** The static record of sprite variant `k`: the fixed scale and the origin
      of cell (k % 4, k / 4) of the atlas in UV units. */
  function StaticRecord(k: nat): (r: StaticSprite)
    requires k < SPRITE_TYPES
    ensures r.scaleX == SCALE_X && r.scaleY == SCALE_Y
    ensures r.uvX * SPRITE_COLUMNS as real == (k % SPRITE_COLUMNS) as real
    ensures r.uvY * SPRITE_ROWS as real == (k / SPRITE_COLUMNS) as real
    ensures OnGrid(r)
  {
    var col := k % SPRITE_COLUMNS;
    var row := k / SPRITE_COLUMNS;
    StaticSprite(SCALE_X, SCALE_Y, col as real / SPRITE_COLUMNS as real, row as real / SPRITE_ROWS as real)
  }

  /** A static record with the fixed scale whose UV offset is one of the 4 x 3
      cell origins {0, 1/4, 1/2, 3/4} x {0, 1/3, 2/3}. */
  predicate OnGrid(r: StaticSprite) {
    r.scaleX == SCALE_X && r.scaleY == SCALE_Y
    && r.uvX in {0.0, 0.25, 0.5, 0.75} && r.uvY in {0.0, 1.0 / 3.0, 2.0 / 3.0}
  }

  function StaticAt(s: seq<real>, i: nat): StaticSprite
    requires 4 * i + 3 < |s|
  {
    StaticSprite(s[4 * i], s[4 * i + 1], s[4 * i + 2], s[4 * i + 3])
  }

  /** createStaticData: `u` holds the count Math.random draws in call order. */
  method CreateStaticData(count: nat, u: seq<real>) returns (staticData: array<real>)
    requires |u| == count && Draws(u)
    ensures fresh(staticData) && staticData.Length == 4 * count
    ensures forall i :: 0 <= i < count ==> StaticAt(staticData[..], i) == StaticRecord(SpriteIndex(u[i]))
  {
    staticData := new real[4 * count];
    for i := 0 to count
      invariant forall j :: 0 <= j < i ==> StaticAt(staticData[..], j) == StaticRecord(SpriteIndex(u[j]))
    {
      var bunnyIndex := SpriteIndex(u[i]);
      var col := bunnyIndex % SPRITE_COLUMNS;
      var row := bunnyIndex / SPRITE_COLUMNS;

      var offset := i * 4;
      staticData[offset] := SCALE_X;
      staticData[offset + 1] := SCALE_Y;
      staticData[offset + 2] := col as real / SPRITE_COLUMNS as real;
      staticData[offset + 3] := row as real / SPRITE_ROWS as real;
    }
  }

  // ---------------------------------------------------------------------------
  // updatePhysics
  // ---------------------------------------------------------------------------

  /** The floor-bounce impulse `(r1 * 0.006 + 0.003) * (r2 > 0.5 ? 1 : 0)`. */
  function Jitter(r1: real, r2: real): (j: real)
    requires 0.0 <= r1 <= 1.0
    ensures j == 0.0 || 0.003 <= j <= 0.009
    ensures j != 0.0 <==> r2 > 0.5
  {
    (r1 * 0.006 + 0.003) * (if r2 > 0.5 then 1.0 else 0.0)
  }

  /** x integrated over the step. */
  function DriftX(b: Body, dt: real): real {
    b.x + b.vx * dt
  }

  /** vy after the step's gravity, `velY + gravityDt`. */
  function FallVelocity(b: Body, dt: real): real {
    b.vy + GRAVITY * dt
  }

  /** y integrated over the step with the post-gravity vy. */
  function FallY(b: Body, dt: real): real {
    b.y + FallVelocity(b, dt) * dt
  }

  /** Whether the body goes below the floor during a step of length dt. */
  predicate HitsFloor(b: Body, dt: real) {
    FallY(b, dt) < BOUNDS_BOTTOM
  }

  /** The x-axis part of one step: the new x and vx. */
  function StepX(b: Body, dt: real): Body {
    var px := DriftX(b, dt);
    if px > RIGHT_WALL then b.(x := RIGHT_WALL, vx := -b.vx)
    else if px < BOUNDS_LEFT then b.(x := BOUNDS_LEFT, vx := -b.vx)
    else b.(x := px)
  }

  /**
   * One body's step: gravity, integration, then the side walls and the floor
   * or ceiling. The result carries the generator's seed after the step: a floor
   * bounce draws twice, the first draw scaling the impulse and the second
   * gating it.
   */
  function StepBody(b: Body, dt: real, seed: bv32): (Body, bv32) {
    var vy := FallVelocity(b, dt);
    var py := FallY(b, dt);
    var h := StepX(b, dt);
    if py < BOUNDS_BOTTOM then
      var s1 := XorShift(seed);
      var s2 := XorShift(s1);
      (h.(y := BOUNDS_BOTTOM, vy := -vy * BOUNCE_DAMPING + Jitter(UnitOf(s1), UnitOf(s2))), s2)
    else if py > TOP_WALL then
      (h.(y := TOP_WALL, vy := -vy), seed)
    else
      (h.(y := py, vy := vy), seed)
  }

  /** `deltaTime / TARGET_FRAME_TIME`: the step length in reference frames. */
  function StepLength(deltaTime: real): (dt: real)
    ensures dt * TARGET_FRAME_TIME == deltaTime
    ensures deltaTime == 0.0 <==> dt == 0.0
  {
    deltaTime / TARGET_FRAME_TIME
  }

  /** The first n bodies of buffer `p` after one step of length `dt`, in
      buffer order, with the seed after them. */
  function Advance(p: seq<real>, dt: real, seed: bv32, n: nat): (r: (seq<real>, bv32))
    requires 4 * n <= |p|
    ensures |r.0| == 4 * n
  {
    if n == 0 then ([], seed)
    else
      var prev := Advance(p, dt, seed, n - 1);
      var next := StepBody(BodyAt(p, n - 1), dt, prev.1);
      (prev.0 + Flat(next.0), next.1)
  }

  /**
   * updatePhysics: every body of the buffer is replaced by its step, the seed
   * moves on by the draws the floor bounces made, and the position buffer is
   * rewritten to mirror the new physics buffer.
   */
  method UpdatePhysics(state: PhysicsState, count: nat, rng: FastRandom, deltaTime: real)
    requires Sized(state, count)
    modifies state.physics, state.positions, rng
    ensures state.physics[..] == Advance(old(state.physics[..]), StepLength(deltaTime), old(rng.seed), count).0
    ensures rng.seed == Advance(old(state.physics[..]), StepLength(deltaTime), old(rng.seed), count).1
    ensures Mirrored(state.physics[..], state.positions[..], count)
  {
    var physics, positions := state.physics, state.positions;
    ghost var p0 := physics[..];
    ghost var seed0 := rng.seed;
    var dt := deltaTime / TARGET_FRAME_TIME;

    for i := 0 to count
      invariant Stepped(state, count, p0, dt, seed0, i, rng.seed)
    {
      UpdateBody(state, count, i, dt, rng, p0, seed0);
    }
    assert p0[4 * count..] == [];
    assert positions[..][..2 * count] == positions[..];
  }

  /** The state of updatePhysics' loop after i bodies: those bodies hold their
      step and the rest of the physics buffer is untouched, the seed is the
      one their bounces left, and their positions are mirrored. */
  ghost predicate Stepped(state: PhysicsState, count: nat, p0: seq<real>, dt: real, seed0: bv32, i: nat, seed: bv32)
    reads state.physics, state.positions
  {
    Sized(state, count) && |p0| == 4 * count && i <= count
    && state.physics[..] == Advance(p0, dt, seed0, i).0 + p0[4 * i..]
    && seed == Advance(p0, dt, seed0, i).1
    && Mirrored(Advance(p0, dt, seed0, i).0, state.positions[..][..2 * i], i)
  }

  /**
   * The arithmetic of one iteration of updatePhysics' loop: `posX`, `posY`,
   * `velX` and `velY` updated step by step, drawing from the generator on a
   * floor bounce only.
   */
  method MoveBody(b: Body, dt: real, rng: FastRandom) returns (r: Body)
    modifies rng
    ensures r == StepBody(b, dt, old(rng.seed)).0
    ensures rng.seed == StepBody(b, dt, old(rng.seed)).1
  {
    var gravityDt := GRAVITY * dt;
    var rightBound := BOUNDS_RIGHT - SCALE_X;
    var topBound := BOUNDS_TOP - SCALE_Y;
    ghost var h := StepX(b, dt);

    var posX := b.x;
    var posY := b.y;
    var velX := b.vx;
    var velY := b.vy + gravityDt;

    posX := posX + velX * dt;
    posY := posY + velY * dt;

    if posX > rightBound {
      velX := -velX;
      posX := rightBound;
    } else if posX < BOUNDS_LEFT {
      velX := -velX;
      posX := BOUNDS_LEFT;
    }
    assert posX == h.x && velX == h.vx;
    assert posY == FallY(b, dt) && velY == FallVelocity(b, dt);

    if posY < BOUNDS_BOTTOM {
      velY := -velY * BOUNCE_DAMPING;
      posY := BOUNDS_BOTTOM;
      var r1 := rng.Next();
      var r2 := rng.Next();
      velY := velY + Jitter(r1, r2);
    } else if posY > topBound {
      velY := -velY;
      posY := topBound;
    }
    r := Body(posX, posY, velX, velY);
  }

  /** One iteration of updatePhysics' loop: body i is read from the physics
      buffer, moved, and written back over its own entries of both buffers. */
  method UpdateBody(state: PhysicsState, count: nat, i: nat, dt: real, rng: FastRandom,
                    ghost p0: seq<real>, ghost seed0: bv32)
    requires i < count && Stepped(state, count, p0, dt, seed0, i, rng.seed)
    modifies state.physics, state.positions, rng
    ensures Stepped(state, count, p0, dt, seed0, i + 1, rng.seed)
  {
    var physics, positions := state.physics, state.positions;
    ghost var done := Advance(p0, dt, seed0, i);
    ghost var q := positions[..];
    AdvanceNext(p0, dt, seed0, i);

    var physOffset := 4 * i;
    var body := Body(physics[physOffset], physics[physOffset + 1],
                     physics[physOffset + 2], physics[physOffset + 3]);
    assert body == BodyAt(p0, i);
    var moved := MoveBody(body, dt, rng);
    StoreBody(physics, positions, i, moved);
    MirroredStore(done.0, q, i, moved);
  }

  /** Writing body i's step over its four entries of the half-stepped buffer
      extends the stepped prefix by one body. */
  lemma AdvanceNext(p: seq<real>, dt: real, seed: bv32, i: nat)
    requires 4 * (i + 1) <= |p|
    ensures var done := Advance(p, dt, seed, i);
            var next := StepBody(BodyAt(p, i), dt, done.1);
            var cur := done.0 + p[4 * i..];
            && BodyAt(cur, i) == BodyAt(p, i)
            && cur[..4 * i] + Flat(next.0) + cur[4 * i + 4..] == Advance(p, dt, seed, i + 1).0 + p[4 * (i + 1)..]
            && Advance(p, dt, seed, i + 1).1 == next.1
  {
    var done := Advance(p, dt, seed, i);
    var cur := done.0 + p[4 * i..];
    assert cur[..4 * i] == done.0;
    assert cur[4 * i + 4..] == p[4 * (i + 1)..];
  }

  /** Writing body i's position over its two entries extends the mirror by one body. */
  lemma MirroredStore(done: seq<real>, q: seq<real>, i: nat, b: Body)
    requires |done| == 4 * i && 2 * (i + 1) <= |q| && Mirrored(done, q[..2 * i], i)
    ensures Mirrored(done + Flat(b), q[2 * i := b.x][2 * i + 1 := b.y][..2 * (i + 1)], i + 1)
  {
    assert q[2 * i := b.x][2 * i + 1 := b.y][..2 * (i + 1)] == q[..2 * i] + [b.x, b.y];
  }

  /** Per-body independence: body j of a step depends only on body j of the
      input, the step length, and the seed the bodies before it left. */
  lemma {:induction false} AdvanceBodyAt(p: seq<real>, dt: real, seed: bv32, n: nat, j: nat)
    requires 4 * n <= |p| && j < n
    ensures BodyAt(Advance(p, dt, seed, n).0, j) == StepBody(BodyAt(p, j), dt, Advance(p, dt, seed, j).1).0
  {
    if j < n - 1 {
      AdvanceBodyAt(p, dt, seed, n - 1, j);
    }
  }

  // ---------------------------------------------------------------------------
  // Properties of one step
  // ---------------------------------------------------------------------------

  function Abs(v: real): real {
    if v < 0.0 then -v else v
  }

  /** Whatever the body and the step length, the step ends inside the walls. */
  lemma StepInBounds(b: Body, dt: real, seed: bv32)
    ensures InBounds(StepBody(b, dt, seed).0)
  {
  }

  /** The side walls only keep or negate vx, so |vx| never changes; vx is
      negated exactly when the integrated x crossed a wall, and x is then that wall. */
  lemma SideWalls(b: Body, dt: real, seed: bv32)
    ensures var r := StepBody(b, dt, seed).0;
            var px := DriftX(b, dt);
            && Abs(r.vx) == Abs(b.vx)
            && (px > RIGHT_WALL ==> r.x == RIGHT_WALL && r.vx == -b.vx)
            && (px < BOUNDS_LEFT ==> r.x == BOUNDS_LEFT && r.vx == -b.vx)
            && (BOUNDS_LEFT <= px <= RIGHT_WALL ==> r.x == px && r.vx == b.vx)
  {
  }

  /** Below the floor: y is set to the floor, the post-gravity vy is negated
      and damped by 0.85, an impulse of 0 or of 0.003 .. 0.009 is added, and the
      generator has advanced exactly twice. */
  lemma FloorBounce(b: Body, dt: real, seed: bv32)
    requires HitsFloor(b, dt)
    ensures var r := StepBody(b, dt, seed);
            var damped := -FallVelocity(b, dt) * BOUNCE_DAMPING;
            && r.0.y == BOUNDS_BOTTOM
            && (r.0.vy == damped || damped + 0.003 <= r.0.vy <= damped + 0.009)
            && r.1 == XorShift(XorShift(seed))
  {
  }

  /** Above the ceiling: y is set to the ceiling and the post-gravity vy is
      negated without damping; the generator is not touched. */
  lemma CeilingBounce(b: Body, dt: real, seed: bv32)
    requires FallY(b, dt) > TOP_WALL
    ensures var r := StepBody(b, dt, seed);
            && r.0.y == TOP_WALL && r.0.vy == -FallVelocity(b, dt)
            && r.1 == seed
  {
  }

  /** Between floor and ceiling the body just falls: y and vy are the
      integrated values and the generator is not touched. */
  lemma FreeFlight(b: Body, dt: real, seed: bv32)
    requires BOUNDS_BOTTOM <= FallY(b, dt) <= TOP_WALL
    ensures var r := StepBody(b, dt, seed);
            && r.0.y == FallY(b, dt) && r.0.vy == FallVelocity(b, dt)
            && r.1 == seed
  {
  }

  /** A zero-length step leaves a body that is inside the walls, and the seed, as they were. */
  lemma ZeroStepBody(b: Body, seed: bv32)
    requires InBounds(b)
    ensures StepBody(b, 0.0, seed) == (b, seed)
  {
    var r := StepBody(b, 0.0, seed);
    assert r.0 == b;
  }

  // ---------------------------------------------------------------------------
  // Properties of a whole step
  // ---------------------------------------------------------------------------

  /** After a step every body is inside the walls, whatever the buffer held. */
  lemma AdvanceInBounds(p: seq<real>, dt: real, seed: bv32, n: nat)
    requires 4 * n <= |p|
    ensures AllInBounds(Advance(p, dt, seed, n).0, n)
  {
    forall j | 0 <= j < n
      ensures InBounds(BodyAt(Advance(p, dt, seed, n).0, j))
    {
      AdvanceBodyAt(p, dt, seed, n, j);
      StepInBounds(BodyAt(p, j), dt, Advance(p, dt, seed, j).1);
    }
  }

  /** The seed after k generator calls. */
  function Iterate(seed: bv32, k: nat): bv32 {
    if k == 0 then seed else XorShift(Iterate(seed, k - 1))
  }

  /** How many of the first n bodies hit the floor. */
  function FloorHits(p: seq<real>, dt: real, n: nat): (k: nat)
    requires 4 * n <= |p|
    ensures k <= n
  {
    if n == 0 then 0
    else FloorHits(p, dt, n - 1) + (if HitsFloor(BodyAt(p, n - 1), dt) then 1 else 0)
  }

  /** A body's step calls the generator twice if it hits the floor and never otherwise. */
  lemma StepSeed(b: Body, dt: real, seed: bv32)
    ensures StepBody(b, dt, seed).1 == if HitsFloor(b, dt) then Iterate(seed, 2) else seed
  {
    IterateTwice(seed);
  }

  lemma IterateTwice(seed: bv32)
    ensures Iterate(seed, 2) == XorShift(XorShift(seed))
  {
    assert Iterate(seed, 1) == XorShift(seed);
  }

  /** A step calls the generator exactly twice per floor bounce and never otherwise. */
  lemma {:induction false} AdvanceSeedCount(p: seq<real>, dt: real, seed: bv32, n: nat)
    requires 4 * n <= |p|
    ensures Advance(p, dt, seed, n).1 == Iterate(seed, 2 * FloorHits(p, dt, n))
  {
    if n > 0 {
      AdvanceSeedCount(p, dt, seed, n - 1);
      var b, k := BodyAt(p, n - 1), FloorHits(p, dt, n - 1);
      var before := Iterate(seed, 2 * k);
      assert Advance(p, dt, seed, n).1 == StepBody(b, dt, before).1;
      StepSeed(b, dt, before);
      if HitsFloor(b, dt) {
        assert FloorHits(p, dt, n) == k + 1;
        IterateAdd(seed, 2 * k);
      } else {
        assert FloorHits(p, dt, n) == k;
      }
    }
  }

  lemma IterateAdd(seed: bv32, k: nat)
    ensures Iterate(Iterate(seed, k), 2) == Iterate(seed, k + 2)
  {
    IterateTwice(Iterate(seed, k));
    assert Iterate(seed, k + 1) == XorShift(Iterate(seed, k));
    assert Iterate(seed, k + 2) == XorShift(Iterate(seed, k + 1));
  }

  /** A step reads only the first n bodies of the buffer. */
  lemma {:induction false} AdvancePrefix(p: seq<real>, dt: real, seed: bv32, n: nat)
    requires 4 * n <= |p|
    decreases n
    ensures Advance(p, dt, seed, n) == Advance(p[..4 * n], dt, seed, n)
  {
    if n > 0 {
      AdvancePrefix(p, dt, seed, n - 1);
      AdvancePrefix(p[..4 * n], dt, seed, n - 1);
      assert p[..4 * n][..4 * (n - 1)] == p[..4 * (n - 1)];
      assert BodyAt(p[..4 * n], n - 1) == BodyAt(p, n - 1);
    }
  }

  /** With deltaTime 0 a buffer whose bodies are all inside the walls is left as it is. */
  lemma {:induction false} ZeroStep(p: seq<real>, seed: bv32, n: nat)
    requires |p| == 4 * n && AllInBounds(p, n)
    ensures StepLength(0.0) == 0.0
    ensures Advance(p, 0.0, seed, n) == (p, seed)
  {
    ZeroStepPrefix(p, seed, n);
    assert p[..4 * n] == p;
  }

  lemma {:induction false} ZeroStepPrefix(p: seq<real>, seed: bv32, n: nat)
    requires 4 * n <= |p| && forall j :: 0 <= j < n ==> InBounds(BodyAt(p, j))
    ensures Advance(p, 0.0, seed, n) == (p[..4 * n], seed)
  {
    if n > 0 {
      ZeroStepPrefix(p, seed, n - 1);
      ZeroStepBody(BodyAt(p, n - 1), seed);
      assert p[..4 * (n - 1)] + Flat(BodyAt(p, n - 1)) == p[..4 * n];
    }
  }

  /** The position mirror of a physics buffer is unique. */
  lemma MirrorUnique(p: seq<real>, q1: seq<real>, q2: seq<real>, n: nat)
    requires |p| == 4 * n && |q1| == 2 * n && |q2| == 2 * n
    requires Mirrored(p, q1, n) && Mirrored(p, q2, n)
    ensures q1 == q2
  {
    forall k | 0 <= k < 2 * n
      ensures q1[k] == q2[k]
    {
      var i := k / 2;
      assert k == 2 * i || k == 2 * i + 1;
    }
  }

  /** updatePhysics with deltaTime 0 on a mirrored buffer of bodies inside the
      walls: the physics and positions entries and the seed all stay as they were. */
  lemma ZeroStepNoOp(p: seq<real>, q: seq<real>, seed: bv32, n: nat, p': seq<real>, q': seq<real>, seed': bv32)
    requires |p| == 4 * n && |q| == 2 * n && |q'| == 2 * n
    requires AllInBounds(p, n) && Mirrored(p, q, n)
    requires (p', seed') == Advance(p, StepLength(0.0), seed, n) && Mirrored(p', q', n)
    ensures p' == p && q' == q && seed' == seed
  {
    ZeroStep(p, seed, n);
    MirrorUnique(p, q, q', n);
  }
}
