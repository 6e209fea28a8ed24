/**
 The render-node lifecycle of `ColoredParticle`: a "please reset" flag set by
 `setCount` and `reset`, honoured by the next `updatePaintNode`, which drops
 node and material together; a running frame lazily rebuilds a missing node
 and stamps the material with the particle system's clock; particle writes
 are dropped while there is no node.
 */
module Lifecycle {
  import opened Layout
  import opened Wrappers
  import opened QuadBuffer
  import SlotWriter

  /** The fields of `ColoredParticle` the lifecycle reads and writes. `node`
      is the geometry of `m_node`; `material` is `m_material`, which the node
      draws with. */
  datatype State = State(
    count: int,
    colortableName: string,
    pleaseReset: bool,
    node: Option<Geometry>,
    material: Option<Material>,
    lastParticle: int)

  /** What the outside world answers during one frame: whether the particle
      system runs, whether the image and the colour table load, the clock
      value `systemSync` returns, and the uninitialised content of freshly
      allocated vertex memory */
  datatype Frame = Frame(
    running: bool,
    imageLoads: bool,
    colortableLoads: bool,
    stamp: nat,
    leftover: nat -> Vertex)

  /** What `updatePaintNode` leaves behind: the new state, the node it hands
      to the scene graph, and whether it marked that node's material dirty */
  datatype Paint = Paint(state: State, drawn: Option<Geometry>, markedDirty: bool)

  /** Node and material exist together or not at all, a node's buffers are
      well formed, its index buffer is the two-triangles-per-quad topology,
      and the four vertices of each of its quads agree on their dynamic fields */
  ghost predicate Valid(s: State)
  {
    && (s.node.Some? <==> s.material.Some?)
    && (s.node.Some? ==> WellFormed(s.node.value))
    && (s.node.Some? ==> s.node.value.indices == QuadIndices(SlotCount(s.node.value)))
    && (s.node.Some? ==> SlotsUniform(s.node.value.vertices))
  }

  /** The constructor: no node and no material, and the colour-table URL
      starts empty. Its initialiser list does not set the count, the reset
      flag or the last particle, so they are inputs. */
  function Initial(count: int, pleaseReset: bool, lastParticle: int): (r: State)
    ensures Valid(r)
    ensures r.node.None? && r.material.None?
    ensures r.count == count && r.colortableName == [] && r.pleaseReset == pleaseReset
  {
    State(count, [], pleaseReset, None, None, lastParticle)
  }

  /** `setCount`: store the new capacity and ask for a reset; the current node
      stays until the next paint */
  function SetCount(s: State, c: int): (r: State)
    ensures r.count == c && r.pleaseReset
    ensures r.node == s.node && r.material == s.material
    ensures r.colortableName == s.colortableName && r.lastParticle == s.lastParticle
    ensures Valid(s) ==> Valid(r)
  {
    s.(count := c, pleaseReset := true)
  }

  /** `reset`: ask for a reset and change nothing else */
  function Reset(s: State): (r: State)
    ensures r.pleaseReset
    ensures r.(pleaseReset := s.pleaseReset) == s
    ensures Valid(s) ==> Valid(r)
  {
    s.(pleaseReset := true)
  }

  /** `prepareNextFrame`: build a node if there is none (giving up for this
      frame if the build fails), then store the clock value in the material */
  function PrepareNextFrame(s: State, f: Frame): (r: State)
    requires Valid(s)
    ensures Valid(r)
    ensures r.count == s.count && r.colortableName == s.colortableName && r.pleaseReset == s.pleaseReset
    ensures s.node.Some? ==> r.node == s.node && r.lastParticle == s.lastParticle
    ensures s.node.Some? ==> r.material == Some(s.material.value.(timestamp := f.stamp))
    ensures r.node.Some? <==> s.node.Some? || (0 < s.count <= 0x3fff && f.imageLoads)
    ensures s.node.None? && r.node.None? ==> r == s
    ensures s.node.None? && r.node.Some? ==>
      && BuildParticleNode(s.count, f.imageLoads, s.colortableName, f.colortableLoads, f.leftover).Success?
      && r.node.value == BuildParticleNode(s.count, f.imageLoads, s.colortableName, f.colortableLoads, f.leftover).value.geometry
      && |r.node.value.vertices| == VerticesPerQuad * s.count
      && (forall k :: 0 <= k < |r.node.value.vertices| ==> IsSentinel(r.node.value.vertices[k]))
      && r.material.value.variant == ChooseVariant(s.colortableName, f.colortableLoads)
      && r.lastParticle == 0
    ensures r.node.Some? ==> r.material.value.timestamp == f.stamp
  {
    if s.node.None? then
      match BuildParticleNode(s.count, f.imageLoads, s.colortableName, f.colortableLoads, f.leftover)
      case Failure(_) => s
      case Success(b) =>
        s.(node := Some(b.geometry), material := Some(b.material.(timestamp := f.stamp)), lastParticle := 0)
    else
      s.(material := Some(s.material.value.(timestamp := f.stamp)))
  }

  /** `updatePaintNode`: honour a pending reset by dropping node and material,
      prepare the frame if the system runs, and mark a present node dirty */
  function UpdatePaintNode(s: State, f: Frame): (r: Paint)
    requires Valid(s)
    ensures Valid(r.state)
    ensures !r.state.pleaseReset
    ensures r.drawn == r.state.node
    ensures r.markedDirty <==> r.state.node.Some?
    ensures !f.running ==> r.state.node == (if s.pleaseReset then None else s.node)
    ensures r.state.node.Some? && (s.pleaseReset || s.node.None?) ==> f.running && f.imageLoads
    ensures !s.pleaseReset && s.node.Some? ==> r.state.node == s.node
    ensures r.state.node.None? ==> r.state == s.(node := None, material := None, pleaseReset := false)
    ensures (s.pleaseReset || s.node.None?) && r.state.node.Some? ==>
      var b := BuildParticleNode(s.count, f.imageLoads, s.colortableName, f.colortableLoads, f.leftover);
      && b.Success?
      && r.state.node.value == b.value.geometry
      && r.state.material.value.variant == ChooseVariant(s.colortableName, f.colortableLoads)
      && r.state.material.value.timestamp == f.stamp
      && r.state.lastParticle == 0
    ensures r.state.count == s.count && r.state.colortableName == s.colortableName
    ensures f.running && (s.pleaseReset || s.node.None?) ==>
      (r.state.node.Some? <==> 0 < s.count <= 0x3fff && f.imageLoads)
    ensures f.running && r.state.node.Some? ==> r.state.material.value.timestamp == f.stamp
    ensures !s.pleaseReset && s.node.Some? ==>
      && r.state.lastParticle == s.lastParticle
      && r.state.material.value.variant == s.material.value.variant
      && r.state.material == (if f.running then Some(s.material.value.(timestamp := f.stamp)) else s.material)
    ensures !f.running && !s.pleaseReset ==> r.state == s
  {
    var cleared := if s.pleaseReset then s.(node := None, material := None, pleaseReset := false) else s;
    var prepared := if f.running then PrepareNextFrame(cleared, f) else cleared;
    Paint(prepared, prepared.node, prepared.node.Some?)
  }

  /** `reload` on the state: dropped without a node, otherwise the slot write
      on the node's vertices, indices and material untouched */
  function Reload(s: State, pos: int, a: ParticleVertex, off: Offset): (r: State)
    requires s.node.Some? ==> ValidSlot(s.node.value.vertices, pos)
    ensures s.node.None? ==> r == s
    ensures r.(node := s.node) == s
    ensures s.node.Some? ==> r.node == Some(Geometry(SlotWriter.Reload(s.node.value.vertices, pos, a, off), s.node.value.indices))
    ensures Valid(s) ==> Valid(r)
  {
    if s.node.None? then s
    else
      var g := s.node.value;
      // only the reload half of the lemma is used, so the colour argument is irrelevant
      SlotWriter.WritersPreserveLayout(g.vertices, pos, Color4ub(0, 0, 0, 0), a, off);
      s.(node := Some(g.(vertices := SlotWriter.Reload(g.vertices, pos, a, off))))
  }

  /** `load` on the state: dropped without a node, otherwise the spawn write
      with colour `color` on the node's vertices */
  function Load(s: State, pos: int, color: Color4ub, a: ParticleVertex, off: Offset): (r: State)
    requires s.node.Some? ==> ValidSlot(s.node.value.vertices, pos)
    ensures s.node.None? ==> r == s
    ensures r.(node := s.node) == s
    ensures s.node.Some? ==> r.node == Some(Geometry(SlotWriter.Load(s.node.value.vertices, pos, color, a, off), s.node.value.indices))
    ensures Valid(s) ==> Valid(r)
  {
    if s.node.None? then s
    else
      var g := s.node.value;
      SlotWriter.WritersPreserveLayout(g.vertices, pos, color, a, off);
      s.(node := Some(g.(vertices := SlotWriter.Load(g.vertices, pos, color, a, off))))
  }
}

/** Properties of operation sequences of the lifecycle */
module LifecycleProperties {
  import opened Layout
  import opened QuadBuffer
  import opened Lifecycle
  import SlotWriter

  /** After `reset`, the next paint never shows the old node or material:
      with the system stopped there is none at all, and with it running the
      node is the one a fresh build makes from the current configuration, in
      which every particle is "not alive" */
  lemma ResetDiscardsNodeOnNextPaint(s: State, f: Frame)
    requires Valid(s)
    ensures var p := UpdatePaintNode(Reset(s), f);
      && !p.state.pleaseReset
      && (!f.running ==> p.state.node.None? && p.state.material.None? && p.drawn.None? && !p.markedDirty)
      && (p.state.node.Some? ==>
            && |p.state.node.value.vertices| == VerticesPerQuad * s.count
            && (forall k :: 0 <= k < |p.state.node.value.vertices| ==> IsSentinel(p.state.node.value.vertices[k]))
            && p.state.material.value.timestamp == f.stamp)
      && (p.state.node.Some? ==>
            var b := BuildParticleNode(s.count, f.imageLoads, s.colortableName, f.colortableLoads, f.leftover);
            && b.Success?
            && p.state.node.value == b.value.geometry
            && p.state.node.value == Geometry(BlankVertices(s.count, f.leftover), QuadIndices(s.count))
            && p.state.material.value.variant == ChooseVariant(s.colortableName, f.colortableLoads)
            && p.state.lastParticle == 0)
  {
  }

  /** `setCount(c)` followed by a running frame yields a node exactly when
      `c` is a valid capacity and the image loads, sized for `c` quads */
  lemma SetCountRebuildsOnNextFrame(s: State, c: int, f: Frame)
    requires Valid(s) && f.running
    ensures var p := UpdatePaintNode(SetCount(s, c), f);
      && (p.drawn.Some? <==> 0 < c <= 0x3fff && f.imageLoads)
      && (p.drawn.Some? ==>
            && |p.drawn.value.vertices| == VerticesPerQuad * c
            && |p.drawn.value.indices| == IndicesPerQuad * c
            && p.markedDirty)
      && (p.drawn.None? ==> p.state.material.None?)
  {
  }

  /** A stopped system never builds a node */
  lemma NoNodeWithoutRunningFrame(s: State, f: Frame)
    requires Valid(s) && s.node.None? && !f.running
    ensures UpdatePaintNode(s, f).state.node.None?
    ensures UpdatePaintNode(s, f).state.count == s.count
  {
  }

  /** A particle spawned into the node keeps its colour through a later paint
      without a pending reset, and through later updates of its position */
  lemma SpawnColourSurvivesPaintAndReload(s: State, pos: int, color: Color4ub, a1: ParticleVertex,
                                          a2: ParticleVertex, off: Offset, f: Frame)
    requires Valid(s) && s.node.Some? && !s.pleaseReset
    requires ValidSlot(s.node.value.vertices, pos)
    ensures var p := UpdatePaintNode(Load(s, pos, color, a1, off), f);
      && p.drawn.Some?
      && ValidSlot(p.drawn.value.vertices, pos)
      && SlotWriter.SlotColored(Reload(p.state, pos, a2, off).node.value.vertices, pos, color)
  {
  }
}
