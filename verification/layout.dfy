/**
 Memory layout of the coloured-particle vertex buffer: the per-vertex record
 (`ColoredParticleVertex`), its 8-bit RGBA colour, the particle state handed in
 by the particle system, and the fixed texture corners of a quad.
 Floating-point fields are modelled as `real`.
 */
module Layout {

  /** `uchar` */
  newtype Byte = x: int | 0 <= x < 0x100

  /** `quint16`, the element type of the index buffer */
  newtype U16 = x: int | 0 <= x < 0x1_0000

  /** Largest vertex count a 16-bit index buffer may address */
  const MaxVertexCount: int := 0xffff

  const VerticesPerQuad: int := 4
  const IndicesPerQuad: int := 6

  /** `Color4ub` */
  datatype Color4ub = Color4ub(r: Byte, g: Byte, b: Byte, a: Byte)

  /** `ColoredParticleVertex`: one corner of a particle quad */
  datatype Vertex = Vertex(
    x: real, y: real,
    tx: real, ty: real,
    t: real, lifeSpan: real, size: real, endSize: real,
    sx: real, sy: real, ax: real, ay: real,
    color: Color4ub)

  /** The particle system's per-particle state (`ParticleVertex`) */
  datatype ParticleVertex = ParticleVertex(
    x: real, y: real,
    t: real, lifeSpan: real, size: real, endSize: real,
    sx: real, sy: real, ax: real, ay: real)

  /** The particle system's origin, subtracted from every written position */
  datatype Offset = Offset(x: real, y: real)

  /** Texture coordinates of corner `c` of a quad: (0,0), (1,0), (0,1), (1,1) */
  function CornerTx(c: int): real
    requires 0 <= c < VerticesPerQuad
  {
    if c % 2 == 0 then 0.0 else 1.0
  }

  function CornerTy(c: int): real
    requires 0 <= c < VerticesPerQuad
  {
    if c < 2 then 0.0 else 1.0
  }

  /** Slot `pos` names four whole vertices of `vs` */
  predicate ValidSlot(vs: seq<Vertex>, pos: int)
  {
    0 <= pos && VerticesPerQuad * pos + VerticesPerQuad <= |vs|
  }

  /** Vertex `k` of `vs` belongs to slot `pos` */
  predicate InSlot(k: int, pos: int)
  {
    VerticesPerQuad * pos <= k < VerticesPerQuad * pos + VerticesPerQuad
  }

  /** Every vertex carries the texture coordinates of its corner */
  ghost predicate HasTexCorners(vs: seq<Vertex>)
  {
    && |vs| % VerticesPerQuad == 0
    && forall k :: 0 <= k < |vs| ==>
         vs[k].tx == CornerTx(k % VerticesPerQuad) && vs[k].ty == CornerTy(k % VerticesPerQuad)
  }

  /** `v` holds the particle state `a` with its position taken relative to `off` */
  predicate Carries(v: Vertex, a: ParticleVertex, off: Offset)
  {
    && v.x == a.x - off.x && v.y == a.y - off.y
    && v.t == a.t && v.lifeSpan == a.lifeSpan && v.size == a.size && v.endSize == a.endSize
    && v.sx == a.sx && v.sy == a.sy && v.ax == a.ax && v.ay == a.ay
  }

  /** `v` and `w` agree on every field except the texture coordinates and colour */
  predicate SameDynamics(v: Vertex, w: Vertex)
  {
    && v.x == w.x && v.y == w.y
    && v.t == w.t && v.lifeSpan == w.lifeSpan && v.size == w.size && v.endSize == w.endSize
    && v.sx == w.sx && v.sy == w.sy && v.ax == w.ax && v.ay == w.ay
  }

  /** The four vertices of every slot share their dynamic fields */
  ghost predicate SlotsUniform(vs: seq<Vertex>)
  {
    forall k :: 0 <= k < |vs| ==> SameDynamics(vs[k], vs[k - k % VerticesPerQuad])
  }
}
