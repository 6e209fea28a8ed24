# Coloured particle quad buffer

A Dafny model of the geometry core of `ColoredParticle`, the Qt Quick particle
renderer that draws every particle as a textured quad. The model covers
three parts:

- **The quad buffer.** `buildParticleNode` rejects a bad capacity or a missing image. Otherwise it
  allocates `4*count` vertices and `6*count` 16-bit indices. It resets every vertex to the
  "not alive" sentinel (`t = -1`, physical fields zero), gives each quad its texture
  corners (0,0), (1,0), (0,1), (1,1), and writes two triangles per quad. It picks the plain
  or colour-table material.
- **The slot writers.** `vertexCopy`, `reload` and `load` copy one particle into the four
  vertices of its quad. The position is taken relative to the particle system's origin.
  `load` also stamps the spawn colour.
- **The render-node lifecycle.** `setCount` and `reset` raise a "please reset" flag.
  `updatePaintNode` honours the flag by dropping node and material together, and then
  prepares the frame while the system runs. `prepareNextFrame` lazily rebuilds a missing
  node and stores the clock value in the material. Writes are dropped while there is no node.

Modules:

- `Layout` (layout.dfy): the vertex record, the colour, the particle state and the texture corners.
- `QuadBuffer` (quad_buffer.dfy): the capacity guard and the reference buffers. It also holds
  the imperative vertex and index loops, proved equal to those buffers, and the build.
- `SlotWriter` (slot_writer.dfy): the slot writers on the vertex sequence, with their frame conditions.
- `Lifecycle` and `LifecycleProperties` (lifecycle.dfy): the state record, its operations,
  and properties of operation sequences.
- `Int32Guard` (int32_guard.dfy): the capacity guard in 32-bit arithmetic (see Findings).
- `Wrappers` (wrappers.dfy): `Option` and `Result`.

Outside collaborators become inputs. A `Frame` record carries them:

- whether the particle system is running;
- whether the image and the colour table load;
- the value `systemSync` returns;
- the content that fresh vertex memory holds.

The build never writes the colour bytes, so a fresh buffer's colours are that leftover
content. The slot index (`particleTypeIndex`) is an input. Its precondition is that it
names a quad of the current node, because the code does no bounds check.

## Model

| member | source | states |
|---|---|---|
| QuadBuffer.CheckCapacity | src/imports/particles/coloredparticle.cpp:282-290 | the build is refused as too many exactly when count > 0x3fff (4*count > 0xffff), as too few exactly when count <= 0, and admitted exactly for 0 < count <= 0x3fff |
| QuadBuffer.ChooseVariant | src/imports/particles/coloredparticle.cpp:352-361 | the colour-table material is chosen if and only if a colour-table name is set and its image loads; otherwise the plain material |
| QuadBuffer.BlankVertices | src/imports/particles/coloredparticle.cpp:298-333 | the built vertex buffer has 4*count vertices; each is a sentinel (t = -1, x, y, lifeSpan, size, endSize, sx, sy, ax, ay all 0); each carries its corner's texture coordinates; the four vertices of each quad agree; colour bytes are left as allocated |
| QuadBuffer.Cleared | src/imports/particles/coloredparticle.cpp:307-318 | the inner loop body makes a vertex a sentinel and keeps its texture coordinates and colour |
| QuadBuffer.ResetQuad | src/imports/particles/coloredparticle.cpp:307-332 | one outer iteration turns the four vertices of one quad into sentinels with corners (0,0), (1,0), (0,1), (1,1) and touches no other vertex |
| QuadBuffer.InitVertices | src/imports/particles/coloredparticle.cpp:304-333 | the nested vertex loop produces exactly the reference vertex buffer |
| QuadBuffer.InitIndices | src/imports/particles/coloredparticle.cpp:335-345 | the index loop produces exactly the reference index buffer; every value it stores fits in a quint16 because 4*count <= 0xffff |
| QuadBuffer.QuadIndexInQuad | src/imports/particles/coloredparticle.cpp:336-344 | index k belongs to quad k/6 < count and names one of that quad's vertices 4(k/6) .. 4(k/6)+3 |
| QuadBuffer.QuadIndicesPattern | src/imports/particles/coloredparticle.cpp:336-345 | quad i with o = 4i has indices 6i..6i+5 equal to o, o+1, o+2, o+1, o+3, o+2 |
| QuadBuffer.QuadIndicesStayInQuad | src/imports/particles/coloredparticle.cpp:335-345 | every index lies in [4i, 4i+3] for its own quad i and is below 0xffff, so quads share no vertex |
| QuadBuffer.QuadIndicesCoverEveryVertex | src/imports/particles/coloredparticle.cpp:335-345 | every one of the 4*count vertices is named by at least one index, so no quad corner is left undrawn |
| QuadBuffer.BuildParticleNode | src/imports/particles/coloredparticle.cpp:278-373 | a node is built if and only if 0 < count <= 0x3fff and the image loads, with the matching error otherwise; a built node's geometry is exactly the reference vertex buffer (4*count sentinels with their corners and the allocation's colour bytes) and the two-triangles-per-quad index buffer of 6*count indices; the material variant follows the colour-table rule, with timestamp 0 |
| SlotWriter.VertexCopy | src/imports/particles/coloredparticle.cpp:412-424 | the vertex afterwards carries the particle's state with position minus the system offset; texture coordinates and colour are kept |
| SlotWriter.Reload | src/imports/particles/coloredparticle.cpp:426-443 | all four vertices of slot pos carry the particle (position minus offset) and keep texture coordinates and colour; every other vertex is unchanged |
| SlotWriter.StampColor | src/imports/particles/coloredparticle.cpp:457-459 | the four vertices of the slot get the one colour and nothing else changes; other slots are untouched |
| SlotWriter.Load | src/imports/particles/coloredparticle.cpp:445-465 | the four vertices of the slot get the same colour and the particle's state (position minus offset), keep their texture coordinates; every other vertex is unchanged |
| SlotWriter.WritersPreserveLayout | src/imports/particles/coloredparticle.cpp:426-464 | reload and load keep every texture corner, and keep the four vertices of each quad in agreement whenever they agreed before |
| SlotWriter.ReloadAfterLoad | src/imports/particles/coloredparticle.cpp:445-464 | reloading a loaded slot equals loading the newer particle state: the spawn colour survives later position updates |
| SlotWriter.ReloadIdempotent | src/imports/particles/coloredparticle.cpp:426-443 | reloading the same particle state twice is the same as once |
| SlotWriter.ReloadsCommute | src/imports/particles/coloredparticle.cpp:426-443 | reloads of two different slots, with the same system offset, commute |
| Lifecycle.Initial | src/imports/particles/coloredparticle.cpp:193-204 | the constructed item has neither node nor material and an empty colour-table name, so it satisfies the lifecycle invariant |
| Lifecycle.SetCount | src/imports/particles/coloredparticle.cpp:252-256 | the new count is stored and the reset flag raised; node and material stay until the next paint |
| Lifecycle.Reset | src/imports/particles/coloredparticle.cpp:258-261 | the reset flag is raised and nothing else changes |
| Lifecycle.PrepareNextFrame | src/imports/particles/coloredparticle.cpp:398-409 | an existing node is kept and only its material timestamp is updated; a missing node is rebuilt exactly when capacity and image allow it, and is then exactly the node the build makes, with the variant chosen by the colour-table rule and the last particle reset to 0; a failed build leaves the whole state unchanged (node null, timestamp not written); the lifecycle invariant (pairing, well-formed buffers, quad topology, slots in agreement) is kept |
| Lifecycle.UpdatePaintNode | src/imports/particles/coloredparticle.cpp:375-396 | the reset flag is always clear afterwards and count and colour-table name are unchanged; a pending reset drops node and material together; whenever a node exists afterwards that did not survive from before (after a reset, on the first paint, or on a retry after a failed build), it is exactly the node a fresh build makes from the current count and colour-table configuration, with the re-chosen material variant, this frame's clock value and the last particle reset to 0; when no node exists afterwards, the only change is that node, material and reset flag are cleared (the last particle is untouched); in a running frame with no surviving node, a node exists afterwards if and only if 0 < count <= 0x3fff and the image loads; in a running frame any node's material carries this frame's clock value; without a pending reset a kept node keeps its variant and last particle, its material is restamped only when running, and a stopped frame changes nothing; the returned node is the state's node and it is marked dirty exactly when present |
| Lifecycle.Reload | src/imports/particles/coloredparticle.cpp:426-443 | without a node nothing changes; otherwise only the node's vertices change, by the slot write, and the lifecycle invariant (including the agreement of each quad's four vertices) is kept |
| Lifecycle.Load | src/imports/particles/coloredparticle.cpp:445-465 | without a node nothing changes; otherwise only the node's vertices change, by the spawn write, and the lifecycle invariant (including the agreement of each quad's four vertices) is kept |
| LifecycleProperties.ResetDiscardsNodeOnNextPaint | src/imports/particles/coloredparticle.cpp:377-404 | after reset the next paint shows no node and no material when the system is stopped, and otherwise only the node a fresh build makes (all sentinels, the reference vertex and index buffers for the current count), with the variant re-chosen from the current colour-table configuration, this frame's clock value, and the last particle reset to 0 |
| LifecycleProperties.SetCountRebuildsOnNextFrame | src/imports/particles/coloredparticle.cpp:377-404 | after setCount(c) a running frame yields a node if and only if c is a valid capacity and the image loads, sized 4c vertices and 6c indices and marked dirty |
| LifecycleProperties.NoNodeWithoutRunningFrame | src/imports/particles/coloredparticle.cpp:388-389 | a stopped system never builds a node |
| LifecycleProperties.SpawnColourSurvivesPaintAndReload | src/imports/particles/coloredparticle.cpp:445-464 | a colour loaded into a slot survives a paint without pending reset and a later reload of that slot |
| Int32Guard.RejectsAsWritten | src/imports/particles/coloredparticle.cpp:282-290 | the guard with a wrapping 32-bit product rejects every count <= 0 and admits every count in 1..0x3fff |
| Int32Guard.GuardAdmitsOverflowingCount | src/imports/particles/coloredparticle.cpp:282 | count 2^30 passes the guard as written, though the corrected guard rejects it as too many |
| Int32Guard.GuardsAgreeWithoutOverflow | src/imports/particles/coloredparticle.cpp:282-290 | for counts whose product fits in 32 bits, the guard as written and the corrected guard agree |

## Left out

- The material and shader classes (lines 11-160) are left out. They cover texture binding order, uniform locations, shader source loading and the static `chunkOfBytes` scratch array, which are all GL side effects. The material is modelled as its variant plus its timestamp.
- The spawn colour arithmetic (lines 453-456) is left out because it depends on `rand()` and on a `qreal` to `uchar` conversion. The colour is an arbitrary input of `Load`.
- The timestamp conversion `timeStamp / 1000.` (lines 405-408) is floating point, and its value comes from the external `systemSync`. The material stores the raw clock value instead.
- Image decoding, `createTexture` and `printf` are left out. Whether an image loads is a boolean input.
- The property setters (lines 206-250) are left out. They only store a value and emit a signal. The colour-table name is a field of the state.
- The byte layout of the attribute set (lines 263-276) is raw memory layout and is left out.
- Float rounding is not modelled. Vertex fields are `real`, so `a.x - offset.x` is exact.
- `update()` in `updatePaintNode` only schedules another paint, so it is left out.
- `ParticleType::setCount` and `particleTypeIndex` are declared in headers that are not part of this model. `setCount` is taken to store the count. The slot index is an input.
- Lifecycle.PrepareNextFrame: requires the lifecycle invariant `Valid`. That invariant pairs node and material, because the source dereferences `m_material` whenever `m_node` is set. It also asks for a well-formed node whose index buffer is the quad topology and whose quads each have four vertices in agreement. `Initial` establishes the invariant and every operation of the model keeps it.
- Lifecycle.PrepareNextFrame: `m_system->systemSync(this)` is treated as free of side effects on this item; only its returned clock value is modelled. Any particle writes the particle system makes during that call are modelled as later `Lifecycle.Load` / `Lifecycle.Reload` calls. The particle system's source is not part of this model.
- Lifecycle.UpdatePaintNode: requires the same invariant `Valid`, for the same reasons.

## Findings

| source | as written | input that shows it | evidently intended | confidence | as-written member | corrected member |
|---|---|---|---|---|---|---|
| src/imports/particles/coloredparticle.cpp:282 | `m_count * 4 > 0xffff` is computed in 32-bit `int`, so a huge count can wrap to a small product and pass the guard | count = 2^30: the product wraps to 0, the guard passes, and the build then fills 2^30 quads into a buffer sized for a wrapped vertex count | reject every count with 4*count > 0xffff | low; not executed; signed overflow is undefined behaviour in C++, so a compiler may fold the test to `count > 0x3fff` | Int32Guard.GuardAdmitsOverflowingCount | QuadBuffer.CheckCapacity |
