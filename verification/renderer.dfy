/**
 * The arithmetic of the vertex shader `mainVertex` of src/renderer.ts and the
 * GPU buffer layouts it reads: each sprite is an instanced unit quad of six
 * vertices, moved to its body's position and scaled, textured from its cell
 * of the 4 x 3 bunny atlas.  The WebGPU set-up around the shader is not
 * modelled; `f32` values are modelled as exact reals.
 */
module Renderer {
  import opened Constants
  import opened Physics
  import Spritesheet

  datatype Vec2 = Vec2(x: real, y: real)
  datatype Vec4 = Vec4(x: real, y: real, z: real, w: real)

  /** The shader's output: the clip-space position and the texture coordinate. */
  datatype VertexOut = VertexOut(pos: Vec4, texcoord: Vec2)

  // ---------------------------------------------------------------------------
  // The quad table
  // ---------------------------------------------------------------------------

  /** The vertex count of one `draw` instance. */
  const VERTICES_PER_SPRITE: nat := 6

  /** `quadPositions`: two triangles of the unit square. */
  const QUAD_POSITIONS: seq<Vec2> :=
    [Vec2(0.0, 0.0), Vec2(1.0, 0.0), Vec2(0.0, 1.0),
     Vec2(0.0, 1.0), Vec2(1.0, 0.0), Vec2(1.0, 1.0)]

  predicate IsCorner(v: Vec2) {
    (v.x == 0.0 || v.x == 1.0) && (v.y == 0.0 || v.y == 1.0)
  }

  /** Twice the signed area of triangle abc; positive when abc turns counter-clockwise. */
  function Orientation(a: Vec2, b: Vec2, c: Vec2): real {
    (b.x - a.x) * (c.y - a.y) - (b.y - a.y) * (c.x - a.x)
  }

  /** The table holds one vertex per vertex index; every entry is a corner of
      the unit square and every corner appears. */
  lemma QuadCorners()
    ensures |QUAD_POSITIONS| == VERTICES_PER_SPRITE
    ensures forall v :: 0 <= v < |QUAD_POSITIONS| ==> IsCorner(QUAD_POSITIONS[v])
    ensures forall c :: IsCorner(c) ==> c in QUAD_POSITIONS
  {
    forall c | IsCorner(c)
      ensures c in QUAD_POSITIONS
    {
      if c.x == 0.0 && c.y == 0.0 {
        assert c == QUAD_POSITIONS[0];
      } else if c.x == 1.0 && c.y == 0.0 {
        assert c == QUAD_POSITIONS[1];
      } else if c.x == 0.0 {
        assert c == QUAD_POSITIONS[2];
      } else {
        assert c == QUAD_POSITIONS[5];
      }
    }
  }

  /** Triangle t of the table: vertices 3t, 3t + 1, 3t + 2. */
  function Triangle(t: nat): (Vec2, Vec2, Vec2)
    requires t < 2
  {
    (QUAD_POSITIONS[3 * t], QUAD_POSITIONS[3 * t + 1], QUAD_POSITIONS[3 * t + 2])
  }

  function TriangleOrientation(t: nat): real
    requires t < 2
  {
    var (a, b, c) := Triangle(t);
    Orientation(a, b, c)
  }

  /** The two triangles share the diagonal from (1, 0) to (0, 1) and both
      turn counter-clockwise with twice-signed area 1, half of the square's 2
      each, so together they tile the square. */
  lemma QuadTriangles()
    ensures Triangle(0).1 == Triangle(1).1 == Vec2(1.0, 0.0)
    ensures Triangle(0).2 == Triangle(1).0 == Vec2(0.0, 1.0)
    ensures TriangleOrientation(0) == TriangleOrientation(1) == 1.0
  {
    var q := QUAD_POSITIONS;
    assert q[0] == Vec2(0.0, 0.0) && q[1] == Vec2(1.0, 0.0) && q[2] == Vec2(0.0, 1.0);
    assert q[3] == Vec2(0.0, 1.0) && q[4] == Vec2(1.0, 0.0) && q[5] == Vec2(1.0, 1.0);
  }

  // ---------------------------------------------------------------------------
  // Buffer layouts
  // ---------------------------------------------------------------------------

  const FLOAT_BYTES: nat := 4
  /** The size, alignment and array stride of a `vec2f`. */
  const VEC2F_BYTES: nat := 2 * FLOAT_BYTES

  /** `StaticSpriteData`: scale, then uvOffset at the next 8-byte boundary;
      the struct is 16 bytes long, a multiple of its alignment, so it is
      also its array stride. */
  const SCALE_OFFSET: nat := 0
  const UV_OFFSET_OFFSET: nat := SCALE_OFFSET + VEC2F_BYTES
  const STATIC_SPRITE_BYTES: nat := UV_OFFSET_OFFSET + VEC2F_BYTES

  /** The f32 index of a member at byte `offset` of element i of an array. */
  function FloatIndex(stride: nat, i: nat, offset: nat): nat {
    (stride * i + offset) / FLOAT_BYTES
  }

  /**
   * The GPU layouts agree with the Float32Arrays of src/physics.ts: element i
   * of `PositionBuffer` is floats 2i, 2i + 1 of `positions`, where the
   * simulation mirrors body i; the scale of element i of `StaticBuffer` is
   * floats 4i, 4i + 1 and its uvOffset 4i + 2, 4i + 3, where `createStaticData`
   * writes them; and count elements take exactly the bytes of the 2 * count
   * and 4 * count floats the two arrays hold.
   */
  lemma BufferLayouts(count: nat, i: nat)
    ensures FloatIndex(VEC2F_BYTES, i, 0) == 2 * i
    ensures FloatIndex(STATIC_SPRITE_BYTES, i, SCALE_OFFSET) == 4 * i
    ensures FloatIndex(STATIC_SPRITE_BYTES, i, UV_OFFSET_OFFSET) == 4 * i + 2
    ensures count * VEC2F_BYTES == (2 * count) * FLOAT_BYTES
    ensures count * STATIC_SPRITE_BYTES == (4 * count) * FLOAT_BYTES
  {
  }

  // ---------------------------------------------------------------------------
  // mainVertex
  // ---------------------------------------------------------------------------

  /** `positions[instanceId]`. */
  function PositionAt(positions: seq<real>, i: nat): Vec2
    requires 2 * i + 1 < |positions|
  {
    Vec2(positions[2 * i], positions[2 * i + 1])
  }

  /** `uvScale`: the size of one atlas cell in texture coordinates. */
  const UV_SCALE: Vec2 := Vec2(1.0 / SPRITE_COLUMNS as real, 1.0 / SPRITE_ROWS as real)

  /** `localPos * scale + position`. */
  function WorldPosition(local: Vec2, position: Vec2, sprite: StaticSprite): Vec4 {
    Vec4(local.x * sprite.scaleX + position.x, local.y * sprite.scaleY + position.y, 0.0, 1.0)
  }

  /** `(localPos.x, 1 - localPos.y) * uvScale + uvOffset`. */
  function TexCoord(local: Vec2, sprite: StaticSprite): Vec2 {
    Vec2(local.x * UV_SCALE.x + sprite.uvX, (1.0 - local.y) * UV_SCALE.y + sprite.uvY)
  }

  /** The vertex shader for one vertex of one instance. */
  function MainVertex(vertexIndex: nat, instanceId: nat, positions: seq<real>, staticData: seq<real>): (out: VertexOut)
    requires vertexIndex < |QUAD_POSITIONS|
    requires 2 * instanceId + 1 < |positions| && 4 * instanceId + 3 < |staticData|
    ensures out.pos.z == 0.0 && out.pos.w == 1.0
  {
    var local := QUAD_POSITIONS[vertexIndex];
    var sprite := StaticAt(staticData, instanceId);
    VertexOut(WorldPosition(local, PositionAt(positions, instanceId), sprite), TexCoord(local, sprite))
  }

  /** Corner (0, 0) of the quad lands on the body's position and corner (1, 1)
      on position + scale. */
  lemma WorldCorners(position: Vec2, sprite: StaticSprite)
    ensures WorldPosition(Vec2(0.0, 0.0), position, sprite) == Vec4(position.x, position.y, 0.0, 1.0)
    ensures WorldPosition(Vec2(1.0, 1.0), position, sprite)
            == Vec4(position.x + sprite.scaleX, position.y + sprite.scaleY, 0.0, 1.0)
  {
  }

  /** With a non-negative scale every point of the unit square lands in the
      box between those two corners. */
  lemma WorldWithin(local: Vec2, position: Vec2, sprite: StaticSprite)
    requires sprite.scaleX >= 0.0 && sprite.scaleY >= 0.0
    requires 0.0 <= local.x <= 1.0 && 0.0 <= local.y <= 1.0
    ensures position.x <= WorldPosition(local, position, sprite).x <= position.x + sprite.scaleX
    ensures position.y <= WorldPosition(local, position, sprite).y <= position.y + sprite.scaleY
  {
    ScaleWithin(local.x, sprite.scaleX);
    ScaleWithin(local.y, sprite.scaleY);
    var p := WorldPosition(local, position, sprite);
    assert p.x == local.x * sprite.scaleX + position.x;
    assert local.x * sprite.scaleX <= sprite.scaleX;
    assert p.y == local.y * sprite.scaleY + position.y;
    assert local.y * sprite.scaleY <= sprite.scaleY;
  }

  lemma ScaleWithin(t: real, s: real)
    requires 0.0 <= t <= 1.0 && s >= 0.0
    ensures 0.0 <= t * s <= s
  {
    assert s - t * s == (1.0 - t) * s;
  }

  /**
   * Every point of the unit square samples inside the cell [uvOffset,
   * uvOffset + uvScale]; local y is flipped, so the quad's bottom edge samples
   * the cell's bottom edge (the texture's v grows downward).
   */
  lemma UvWithinCell(local: Vec2, sprite: StaticSprite)
    requires 0.0 <= local.x <= 1.0 && 0.0 <= local.y <= 1.0
    ensures var uv := TexCoord(local, sprite);
            && sprite.uvX <= uv.x <= sprite.uvX + UV_SCALE.x
            && sprite.uvY <= uv.y <= sprite.uvY + UV_SCALE.y
    ensures local.y == 0.0 ==> TexCoord(local, sprite).y == sprite.uvY + UV_SCALE.y
    ensures local.y == 1.0 ==> TexCoord(local, sprite).y == sprite.uvY
  {
  }

  /** With a uvOffset on the 4 x 3 grid, every texture coordinate is in [0, 1]^2. */
  lemma UvInRange(local: Vec2, sprite: StaticSprite)
    requires 0.0 <= local.x <= 1.0 && 0.0 <= local.y <= 1.0 && OnGrid(sprite)
    ensures 0.0 <= TexCoord(local, sprite).x <= 1.0 && 0.0 <= TexCoord(local, sprite).y <= 1.0
  {
    UvWithinCell(local, sprite);
  }

  /**
   * The static record of sprite k addresses the cell of atlas frame k: in a
   * 4 x 3 layout, uvOffset scaled to the atlas size is the frame's top-left
   * corner and uvScale scaled to it is the cell size.
   */
  lemma UvMatchesFrame(k: nat, layout: Spritesheet.Layout)
    requires k < SPRITE_TYPES && layout.columns == SPRITE_COLUMNS && layout.rows == SPRITE_ROWS
    ensures var r, f := StaticRecord(k), Spritesheet.FrameAt(k, layout);
            && r.uvX * (layout.columns * layout.cellWidth) as real == f.x as real
            && r.uvY * (layout.rows * layout.cellHeight) as real == f.y as real
            && UV_SCALE.x * (layout.columns * layout.cellWidth) as real == layout.cellWidth as real
            && UV_SCALE.y * (layout.rows * layout.cellHeight) as real == layout.cellHeight as real
  {
    var r := StaticRecord(k);
    var w, h := layout.cellWidth as real, layout.cellHeight as real;
    assert (layout.columns * layout.cellWidth) as real == 4.0 * w;
    assert (layout.rows * layout.cellHeight) as real == 3.0 * h;
    assert r.uvX * (4.0 * w) == (r.uvX * 4.0) * w;
    assert r.uvY * (3.0 * h) == (r.uvY * 3.0) * h;
  }

  // ---------------------------------------------------------------------------
  // draw(6, SPRITE_COUNT)
  // ---------------------------------------------------------------------------

  /**
   * `draw(VERTICES_PER_SPRITE, count)`: the shader outputs of every vertex of
   * every instance, instance by instance.
   */
  function Draw(positions: seq<real>, staticData: seq<real>, count: nat): (r: seq<VertexOut>)
    requires |positions| == 2 * count && |staticData| == 4 * count
    ensures |r| == VERTICES_PER_SPRITE * count
  {
    seq(VERTICES_PER_SPRITE * count, k requires 0 <= k < VERTICES_PER_SPRITE * count =>
      MainVertex(k % VERTICES_PER_SPRITE, k / VERTICES_PER_SPRITE, positions, staticData))
  }

  /** Vertex v of instance i is output 6i + v, and its indices are in range of
      the quad table and of both buffers. */
  lemma DrawIndices(positions: seq<real>, staticData: seq<real>, count: nat, i: nat, v: nat)
    requires |positions| == 2 * count && |staticData| == 4 * count
    requires i < count && v < VERTICES_PER_SPRITE
    ensures VERTICES_PER_SPRITE * i + v < VERTICES_PER_SPRITE * count
    ensures Draw(positions, staticData, count)[VERTICES_PER_SPRITE * i + v] == MainVertex(v, i, positions, staticData)
  {
    var k := VERTICES_PER_SPRITE * i + v;
    assert k % VERTICES_PER_SPRITE == v && k / VERTICES_PER_SPRITE == i;
  }

  /**
   * A frame of bodies that are in bounds, mirrored into the position buffer,
   * with static records on the grid: every drawn vertex is inside the
   * [-1, 1]^2 clip-space bounds and samples the texture inside its sprite's
   * atlas cell, within [0, 1]^2.
   */
  lemma DrawOnScreen(p: seq<real>, positions: seq<real>, staticData: seq<real>, count: nat, k: nat)
    requires |p| == 4 * count && |positions| == 2 * count && |staticData| == 4 * count
    requires AllInBounds(p, count) && Mirrored(p, positions, count)
    requires forall i :: 0 <= i < count ==> OnGrid(StaticAt(staticData, i))
    requires k < VERTICES_PER_SPRITE * count
    ensures var out, sprite := Draw(positions, staticData, count)[k], StaticAt(staticData, k / VERTICES_PER_SPRITE);
            && BOUNDS_LEFT <= out.pos.x <= BOUNDS_RIGHT && BOUNDS_BOTTOM <= out.pos.y <= BOUNDS_TOP
            && sprite.uvX <= out.texcoord.x <= sprite.uvX + UV_SCALE.x
            && sprite.uvY <= out.texcoord.y <= sprite.uvY + UV_SCALE.y
            && 0.0 <= out.texcoord.x <= 1.0 && 0.0 <= out.texcoord.y <= 1.0
  {
    var i, v := k / VERTICES_PER_SPRITE, k % VERTICES_PER_SPRITE;
    var sprite := StaticAt(staticData, i);
    var local := QUAD_POSITIONS[v];
    QuadCorners();
    assert IsCorner(local);
    assert InBounds(BodyAt(p, i));
    assert PositionAt(positions, i) == Vec2(BodyAt(p, i).x, BodyAt(p, i).y);
    WorldWithin(local, PositionAt(positions, i), sprite);
    UvWithinCell(local, sprite);
    UvInRange(local, sprite);
  }
}
