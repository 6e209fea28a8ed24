/**
 The quad buffer built by `ColoredParticle::buildParticleNode`: `4*count`
 vertices reset to a "not alive" sentinel with fixed texture corners, `6*count`
 16-bit indices drawing two triangles per quad, and the material variant.
 */
module QuadBuffer {
  import opened Layout
  import opened Wrappers

  /** Why a build produced no node */
  datatype BuildError = TooManyParticles | TooFewParticles | ImageLoadFailed

  /** Plain textured shading, or shading remapped through a colour table */
  datatype Variant = Plain | ColorTable

  /** `ParticleTrailsMaterial` (or its colour-table subclass); the timestamp is
      the last raw value received from the particle system's clock */
  datatype Material = Material(variant: Variant, timestamp: nat)

  /** The node's `QSGGeometry`: vertex buffer and 16-bit index buffer */
  datatype Geometry = Geometry(vertices: seq<Vertex>, indices: seq<U16>)

  /** What a successful build hands back: the node's geometry and its material */
  datatype Built = Built(geometry: Geometry, material: Material)

  /** Vertex offsets, within a quad, of its two triangles */
  const QuadPattern: seq<int> := [0, 1, 2, 1, 3, 2]

  /** Number of quads a geometry holds */
  function SlotCount(g: Geometry): nat
  {
    |g.vertices| / VerticesPerQuad
  }

  /** A vertex in the "not alive" state: `t = -1`, every physical field zero */
  predicate IsSentinel(v: Vertex)
  {
    && v.x == 0.0 && v.y == 0.0 && v.t == -1.0
    && v.lifeSpan == 0.0 && v.size == 0.0 && v.endSize == 0.0
    && v.sx == 0.0 && v.sy == 0.0 && v.ax == 0.0 && v.ay == 0.0
  }

  /** Whole quads, two triangles per quad, and every index names an existing vertex */
  ghost predicate WellFormed(g: Geometry)
  {
    && HasTexCorners(g.vertices)
    && |g.vertices| <= MaxVertexCount
    && |g.indices| == IndicesPerQuad * SlotCount(g)
    && forall k :: 0 <= k < |g.indices| ==> g.indices[k] as int < |g.vertices|
  }

  /** The capacity guard of the build: at most 0xffff vertices and at least one quad */
  function CheckCapacity(count: int): (r: Option<BuildError>)
    ensures r == None <==> 0 < count <= 0x3fff
    ensures r == Some(TooManyParticles) <==> count > 0x3fff
    ensures r == Some(TooFewParticles) <==> count <= 0
  {
    if count * VerticesPerQuad > MaxVertexCount then Some(TooManyParticles)
    else if count <= 0 then Some(TooFewParticles)
    else None
  }

  /** The colour-table variant needs a configured table that loads */
  function ChooseVariant(colortableName: string, colortableLoads: bool): (v: Variant)
    ensures v == ColorTable <==> |colortableName| > 0 && colortableLoads
  {
    if colortableName != [] && colortableLoads then ColorTable else Plain
  }

  /** Corner `c` of a freshly reset quad; the colour bytes are whatever the
      allocation left there, since the build never writes them */
  function BlankVertex(c: int, color: Color4ub): Vertex
    requires 0 <= c < VerticesPerQuad
  {
    Vertex(0.0, 0.0, CornerTx(c), CornerTy(c), -1.0, 0.0, 0.0, 0.0, 0.0, 0.0, 0.0, 0.0, color)
  }

  /** Reference definition of the vertex buffer after the build;
      `leftover(k)` is the uninitialised content of vertex `k` */
  function BlankVertices(count: nat, leftover: nat -> Vertex): (r: seq<Vertex>)
    ensures |r| == VerticesPerQuad * count
    ensures forall k :: 0 <= k < |r| ==> IsSentinel(r[k]) && r[k].color == leftover(k).color
    ensures HasTexCorners(r)
    ensures SlotsUniform(r)
  {
    var r := seq(VerticesPerQuad * count, k requires 0 <= k => BlankVertex(k % VerticesPerQuad, leftover(k).color));
    assert forall k :: 0 <= k < |r| ==> r[k] == BlankVertex(k % VerticesPerQuad, leftover(k).color);
    r
  }

  /** The `k`-th index of the two-triangles-per-quad topology */
  function QuadIndex(k: nat): int
  {
    VerticesPerQuad * (k / IndicesPerQuad) + QuadPattern[k % IndicesPerQuad]
  }

  lemma QuadIndexInQuad(k: nat, count: nat)
    requires k < IndicesPerQuad * count
    ensures k / IndicesPerQuad < count
    ensures VerticesPerQuad * (k / IndicesPerQuad) <= QuadIndex(k) < VerticesPerQuad * (k / IndicesPerQuad) + VerticesPerQuad
    ensures QuadIndex(k) < VerticesPerQuad * count
  {
  }

  /** Reference definition of the index buffer after the build */
  function QuadIndices(count: nat): (r: seq<U16>)
    requires VerticesPerQuad * count <= MaxVertexCount
    ensures |r| == IndicesPerQuad * count
  {
    seq(IndicesPerQuad * count, k requires 0 <= k < IndicesPerQuad * count =>
      QuadIndexInQuad(k, count); QuadIndex(k) as U16)
  }

  /** Quad `i` is drawn as the triangles (o, o+1, o+2) and (o+1, o+3, o+2), with `o = 4i` */
  lemma QuadIndicesPattern(count: nat, i: nat)
    requires VerticesPerQuad * count <= MaxVertexCount
    requires i < count
    ensures var ix := QuadIndices(count); var o := VerticesPerQuad * i; var n := IndicesPerQuad * i;
      && ix[n] as int == o && ix[n + 1] as int == o + 1 && ix[n + 2] as int == o + 2
      && ix[n + 3] as int == o + 1 && ix[n + 4] as int == o + 3 && ix[n + 5] as int == o + 2
  {
  }

  /** Every index of quad `k / 6` names one of that quad's own four vertices,
      so the quads are disjoint and every index is below 0xffff */
  lemma QuadIndicesStayInQuad(count: nat)
    requires VerticesPerQuad * count <= MaxVertexCount
    ensures var ix := QuadIndices(count);
      forall k :: 0 <= k < |ix| ==>
        && VerticesPerQuad * (k / IndicesPerQuad) <= ix[k] as int < VerticesPerQuad * (k / IndicesPerQuad) + VerticesPerQuad
        && ix[k] as int < MaxVertexCount
  {
  }

  /** No vertex is left out of the drawing: every vertex of the buffer is
      named by some index */
  lemma QuadIndicesCoverEveryVertex(count: nat, v: int)
    requires VerticesPerQuad * count <= MaxVertexCount
    requires 0 <= v < VerticesPerQuad * count
    ensures exists k :: 0 <= k < |QuadIndices(count)| && QuadIndices(count)[k] as int == v
  {
    var i := v / VerticesPerQuad;
    var c := v % VerticesPerQuad;
    var n := IndicesPerQuad * i;
    QuadIndicesPattern(count, i);
    var k := if c == 0 then n else if c == 1 then n + 1 else if c == 2 then n + 2 else n + 4;
    assert QuadIndices(count)[k] as int == v;
  }

  /** `buildParticleNode`: reject a bad capacity or a missing image, otherwise
      allocate and initialise the buffers and pick the material variant */
  function BuildParticleNode(count: int, imageLoads: bool, colortableName: string,
                             colortableLoads: bool, leftover: nat -> Vertex): (r: Result<Built, BuildError>)
    ensures r.Success? <==> 0 < count <= 0x3fff && imageLoads
    ensures CheckCapacity(count).Some? ==> r == Failure(CheckCapacity(count).value)
    ensures CheckCapacity(count).None? && !imageLoads ==> r == Failure(ImageLoadFailed)
    ensures r.Success? ==> |r.value.geometry.vertices| == VerticesPerQuad * count
    ensures r.Success? ==> |r.value.geometry.indices| == IndicesPerQuad * count
    ensures r.Success? ==> WellFormed(r.value.geometry) && SlotsUniform(r.value.geometry.vertices)
    ensures r.Success? ==> forall k :: 0 <= k < |r.value.geometry.vertices| ==> IsSentinel(r.value.geometry.vertices[k])
    ensures r.Success? ==> (r.value.material.variant == ColorTable <==> |colortableName| > 0 && colortableLoads)
    ensures r.Success? ==> r.value.material.timestamp == 0
    ensures r.Success? ==> r.value.geometry == Geometry(BlankVertices(count, leftover), QuadIndices(count))
  {
    match CheckCapacity(count)
    case Some(e) => Failure(e)
    case None =>
      if !imageLoads then Failure(ImageLoadFailed)
      else
        var g := Geometry(BlankVertices(count, leftover), QuadIndices(count));
        Success(Built(g, Material(ChooseVariant(colortableName, colortableLoads), 0)))
  }

  /** The dynamic fields of `v` reset to the "not alive" sentinel */
  function Cleared(v: Vertex): (r: Vertex)
    ensures IsSentinel(r)
    ensures r.tx == v.tx && r.ty == v.ty && r.color == v.color
  {
    v.(x := 0.0, y := 0.0, t := -1.0, lifeSpan := 0.0, size := 0.0,
       endSize := 0.0, sx := 0.0, sy := 0.0, ax := 0.0, ay := 0.0)
  }

  /** One iteration of the vertex loop: the four vertices of the quad starting
      at `o` are cleared and given their texture corners */
  method ResetQuad(a: array<Vertex>, o: nat)
    requires o + VerticesPerQuad <= a.Length
    modifies a
    ensures forall k :: 0 <= k < a.Length && !(o <= k < o + VerticesPerQuad) ==> a[k] == old(a[k])
    ensures forall k :: o <= k < o + VerticesPerQuad ==> a[k] == BlankVertex(k - o, old(a[k]).color)
  {
    var i := 0;
    while i < VerticesPerQuad
      invariant 0 <= i <= VerticesPerQuad
      invariant forall k :: 0 <= k < a.Length && !(o <= k < o + i) ==> a[k] == old(a[k])
      invariant forall k :: o <= k < o + i ==> a[k] == Cleared(old(a[k]))
    {
      a[o + i] := Cleared(a[o + i]);
      i := i + 1;
    }
    a[o] := a[o].(tx := 0.0, ty := 0.0);
    a[o + 1] := a[o + 1].(tx := 1.0, ty := 0.0);
    a[o + 2] := a[o + 2].(tx := 0.0, ty := 1.0);
    a[o + 3] := a[o + 3].(tx := 1.0, ty := 1.0);
  }

  /** The vertex loop of the build: every quad gets the sentinel dynamic
      fields and its four texture corners */
  method InitVertices(count: nat, leftover: nat -> Vertex) returns (vs: seq<Vertex>)
    ensures vs == BlankVertices(count, leftover)
  {
    var a := new Vertex[VerticesPerQuad * count](k => leftover(k));
    assert forall k :: 0 <= k < a.Length ==> a[k] == leftover(k);
    var p := 0;
    while p < count
      invariant 0 <= p <= count
      invariant forall k :: 0 <= k < VerticesPerQuad * p ==> a[k] == BlankVertex(k % VerticesPerQuad, leftover(k).color)
      invariant forall k :: VerticesPerQuad * p <= k < a.Length ==> a[k] == leftover(k)
    {
      ResetQuad(a, VerticesPerQuad * p);
      p := p + 1;
    }
    vs := a[..];
  }

  /** The index loop of the build: quad `i` with first vertex `o = 4i` gets
      the triangles (o, o+1, o+2) and (o+1, o+3, o+2) */
  method InitIndices(count: nat) returns (ix: seq<U16>)
    requires VerticesPerQuad * count <= MaxVertexCount
    ensures ix == QuadIndices(count)
  {
    var a := new U16[IndicesPerQuad * count];
    var i := 0;
    while i < count
      invariant 0 <= i <= count
      invariant forall k :: 0 <= k < IndicesPerQuad * i ==> a[k] as int == QuadIndex(k)
    {
      var o := VerticesPerQuad * i;
      var n := IndicesPerQuad * i;
      a[n] := o as U16;
      a[n + 1] := (o + 1) as U16;
      a[n + 2] := (o + 2) as U16;
      a[n + 3] := (o + 1) as U16;
      a[n + 4] := (o + 3) as U16;
      a[n + 5] := (o + 2) as U16;
      i := i + 1;
    }
    ix := a[..];
  }
}
