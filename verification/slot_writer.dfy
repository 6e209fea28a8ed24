/**
 Writing one particle into its quad: `ColoredParticle::vertexCopy`, `reload`
 and `load`, on the vertex buffer as a sequence. Slot `pos` is the four
 vertices `4*pos .. 4*pos+3`.
 */
module SlotWriter {
  import opened Layout

  /** `vertexCopy`: the particle's state, position relative to the system
      origin; texture corner and colour stay */
  function VertexCopy(b: Vertex, a: ParticleVertex, off: Offset): (r: Vertex)
    ensures Carries(r, a, off)
    ensures r.tx == b.tx && r.ty == b.ty && r.color == b.color
  {
    b.(x := a.x - off.x, y := a.y - off.y, t := a.t, lifeSpan := a.lifeSpan,
       size := a.size, endSize := a.endSize, sx := a.sx, sy := a.sy, ax := a.ax, ay := a.ay)
  }

  /** `reload`: copy the particle into all four vertices of slot `pos` */
  function Reload(vs: seq<Vertex>, pos: int, a: ParticleVertex, off: Offset): (r: seq<Vertex>)
    requires ValidSlot(vs, pos)
    ensures |r| == |vs|
    ensures forall k :: 0 <= k < |vs| && !InSlot(k, pos) ==> r[k] == vs[k]
    ensures forall k :: 0 <= k < |vs| && InSlot(k, pos) ==>
      && Carries(r[k], a, off)
      && r[k].tx == vs[k].tx && r[k].ty == vs[k].ty && r[k].color == vs[k].color
  {
    var o := VerticesPerQuad * pos;
    vs[o := VertexCopy(vs[o], a, off)]
      [o + 1 := VertexCopy(vs[o + 1], a, off)]
      [o + 2 := VertexCopy(vs[o + 2], a, off)]
      [o + 3 := VertexCopy(vs[o + 3], a, off)]
  }

  /** The colour stamp of `load`: one colour on all four vertices of slot `pos` */
  function StampColor(vs: seq<Vertex>, pos: int, color: Color4ub): (r: seq<Vertex>)
    requires ValidSlot(vs, pos)
    ensures |r| == |vs|
    ensures forall k :: 0 <= k < |vs| && !InSlot(k, pos) ==> r[k] == vs[k]
    ensures forall k :: 0 <= k < |vs| && InSlot(k, pos) ==> r[k] == vs[k].(color := color)
  {
    var o := VerticesPerQuad * pos;
    vs[o := vs[o].(color := color)]
      [o + 1 := vs[o + 1].(color := color)]
      [o + 2 := vs[o + 2].(color := color)]
      [o + 3 := vs[o + 3].(color := color)]
  }

  /** `load`: stamp the spawn colour on slot `pos`, then copy the particle in */
  function Load(vs: seq<Vertex>, pos: int, color: Color4ub, a: ParticleVertex, off: Offset): (r: seq<Vertex>)
    requires ValidSlot(vs, pos)
    ensures |r| == |vs|
    ensures forall k :: 0 <= k < |vs| && !InSlot(k, pos) ==> r[k] == vs[k]
    ensures forall k :: 0 <= k < |vs| && InSlot(k, pos) ==>
      && Carries(r[k], a, off) && r[k].color == color
      && r[k].tx == vs[k].tx && r[k].ty == vs[k].ty
  {
    Reload(StampColor(vs, pos, color), pos, a, off)
  }

  /** Both writers keep every texture corner and keep the four vertices of
      each slot in step */
  lemma WritersPreserveLayout(vs: seq<Vertex>, pos: int, color: Color4ub, a: ParticleVertex, off: Offset)
    requires ValidSlot(vs, pos)
    ensures HasTexCorners(vs) ==> HasTexCorners(Reload(vs, pos, a, off)) && HasTexCorners(Load(vs, pos, color, a, off))
    ensures SlotsUniform(vs) ==> SlotsUniform(Reload(vs, pos, a, off)) && SlotsUniform(Load(vs, pos, color, a, off))
  {
    var r := Reload(vs, pos, a, off);
    var l := Load(vs, pos, color, a, off);
    if SlotsUniform(vs) {
      forall k | 0 <= k < |vs|
        ensures SameDynamics(r[k], r[k - k % VerticesPerQuad])
        ensures SameDynamics(l[k], l[k - k % VerticesPerQuad])
      {
        var h := k - k % VerticesPerQuad;
        assert InSlot(k, pos) <==> InSlot(h, pos);
      }
    }
  }

  /** After `load`, the four vertices of the slot share one colour */
  predicate SlotColored(vs: seq<Vertex>, pos: int, color: Color4ub)
    requires ValidSlot(vs, pos)
  {
    forall k :: VerticesPerQuad * pos <= k < VerticesPerQuad * pos + VerticesPerQuad ==> vs[k].color == color
  }

  /** A later `reload` keeps the colour stamped at spawn: reloading a loaded
      slot is the same as having loaded the newer particle state */
  lemma ReloadAfterLoad(vs: seq<Vertex>, pos: int, color: Color4ub,
                          a1: ParticleVertex, off1: Offset, a2: ParticleVertex, off2: Offset)
    requires ValidSlot(vs, pos)
    ensures Reload(Load(vs, pos, color, a1, off1), pos, a2, off2) == Load(vs, pos, color, a2, off2)
    ensures SlotColored(Reload(Load(vs, pos, color, a1, off1), pos, a2, off2), pos, color)
  {
  }

  /** `reload` with the same particle state twice writes nothing new */
  lemma ReloadIdempotent(vs: seq<Vertex>, pos: int, a: ParticleVertex, off: Offset)
    requires ValidSlot(vs, pos)
    ensures Reload(Reload(vs, pos, a, off), pos, a, off) == Reload(vs, pos, a, off)
  {
  }

  /** Writes to different slots do not interfere: their order does not matter */
  lemma ReloadsCommute(vs: seq<Vertex>, p: int, a: ParticleVertex, q: int, b: ParticleVertex, off: Offset)
    requires ValidSlot(vs, p) && ValidSlot(vs, q) && p != q
    ensures Reload(Reload(vs, p, a, off), q, b, off) == Reload(Reload(vs, q, b, off), p, a, off)
  {
  }
}
