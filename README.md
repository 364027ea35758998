# Terasology mesh persistence, mesh data, tiles, item use and prefab loading in Dafny

This project models five pieces of the Terasology voxel engine and proves
properties about them.

- **Chunk mesh codec** (`ChunkMeshTypeHandler`): a finalized chunk mesh
  holds one vertex and one index int buffer per render type. Serialisation
  writes them as an untagged, positional list of byte blobs, two per render
  type in enumeration order, 4 big-endian bytes per int. Deserialisation
  decodes each blob into a freshly allocated direct int buffer and hands the
  buffers out front to back. `java.nio.IntBuffer` is modelled as a class
  with position, limit and a backing array (`NioBuffers.IntBuffer`).
- **Standard mesh data** (`StandardMeshData`): six single-attribute vertex
  buffers (position, normal, uv0, uv1, color0, light0) bound to slots 0..5,
  and an index buffer. Reserve and reallocate apply one vertex count to all six
  vertex buffers and an index count to the index buffer.
  Clone copies them into a fresh, unaliased mesh.
- **Tile format** (`TileFormat`): a tile image is a horizontal strip of
  square frames whose side is a power of two. Loading checks the dimensions,
  cuts the strip into frames by drawing it shifted left into blank squares,
  and records whether one of the directories on the file's path (a list of
  directory names) is named "auto".
- **Item system** (`ItemSystem`): four use-item handlers, stack
  consumption, and block placement. Two handlers are gated on the item's
  usage type (`useItemOnBlock` on OnBlock, `useItem` on OnUser). The other
  two (`useItemOnEntity`, `useItemInDirection`) need only an item
  component, so an item of any usage activates and is consumed there. Placement
  happens next to the targeted block, after the ordered attachment,
  occupancy and player-overlap checks.
- **Prefab loading** (`LoadPrefabs`): a step-based load process that fixes
  the step total in `begin` and loads one prefab per `step` until none
  remain.

Files:
- `wrappers.dfy`: Option and Result.
- `words.dfy`: the big-endian int/byte codec.
- `nio_buffers.dfy`: the int buffer.
- `chunk_mesh_codec.dfy`: the chunk mesh codec.
- `standard_mesh_data.dfy`: the standard mesh data.
- `tile_format.dfy`: the tile format.
- `item_system.dfy`: the item system.
- `load_prefabs.dfy`: prefab loading.

Behaviours of the code that the model keeps:
- **Reconstructed buffers are four times larger.** Each reconstructed direct
  buffer is allocated with `limit * 4` ints, not sized identically to the
  original. Its first n ints are the decoded ones and the other 3n are zero.
  So the round trip is exact on the decoded prefix, and serialising a
  decoded mesh again yields blobs four times as long
  (`ChunkMeshCodec.ReserializeQuadruples`).
- **Blob-count mismatches are not reported by render type.** Too few blobs
  fail when `remove(0)` is called on an empty list; this is modelled as
  `MissingBlob`. Surplus blobs are silently ignored
  (`ChunkMeshCodec.SurplusBlobsIgnored`).
- **`asByteBuffer` leaves the input at its limit.** It rewinds its input
  and then reads the input to the end, so the input's position ends at its
  limit rather than at 0.

## Model

| member | source | states |
|---|---|---|
| Words.EncodeWord | engine/src/main/java/org/terasology/engine/persistence/typeHandling/extensionTypes/ChunkMeshTypeHandler.java:56 | an int becomes 4 bytes, the most significant first and the least significant last |
| Words.DecodeWord | engine/src/main/java/org/terasology/engine/persistence/typeHandling/extensionTypes/ChunkMeshTypeHandler.java:38 | 4 bytes read as an int, big-endian: the first byte gives the top 8 bits and the last the bottom 8 |
| Words.EncodeWords | engine/src/main/java/org/terasology/engine/persistence/typeHandling/extensionTypes/ChunkMeshTypeHandler.java:53-58 | encoding n ints yields 4n bytes, and bytes 4k..4k+3 decode back to int k |
| Words.DecodeWords | engine/src/main/java/org/terasology/engine/persistence/typeHandling/extensionTypes/ChunkMeshTypeHandler.java:38 | a blob of b bytes views as b/4 ints, int k being the big-endian reading of bytes 4k..4k+3 (trailing bytes are dropped) |
| Words.DecodeEncodeWords | engine/src/main/java/org/terasology/engine/persistence/typeHandling/extensionTypes/ChunkMeshTypeHandler.java:38-40 | decoding the encoding of any int sequence gives it back |
| Words.EncodeWordsPrefix | engine/src/main/java/org/terasology/engine/persistence/typeHandling/extensionTypes/ChunkMeshTypeHandler.java:53-58 | the encoding of the first n ints is the first 4n bytes of the encoding of all of them |
| Words.EncodeDecodeWords | engine/src/main/java/org/terasology/engine/persistence/typeHandling/extensionTypes/ChunkMeshTypeHandler.java:38-40 | encoding the decoding of a blob whose length is a multiple of 4 gives it back |
| NioBuffers.IntBuffer.Put | engine/src/main/java/org/terasology/engine/persistence/typeHandling/extensionTypes/ChunkMeshTypeHandler.java:40 | the source's remaining ints are copied at this buffer's position, which advances by their number; the source is drained; nothing else in the backing array changes |
| NioBuffers.IntBuffer.Rewind | engine/src/main/java/org/terasology/engine/persistence/typeHandling/extensionTypes/ChunkMeshTypeHandler.java:41 | the position returns to 0, the contents are unchanged |
| NioBuffers.IntBuffer.Allocate | engine/src/main/java/org/terasology/engine/persistence/typeHandling/extensionTypes/ChunkMeshTypeHandler.java:39 | a fresh buffer of the given capacity, zero-filled, position 0, limit = capacity |
| NioBuffers.IntBuffer.Wrap | engine/src/main/java/org/terasology/engine/persistence/typeHandling/extensionTypes/ChunkMeshTypeHandler.java:38 | a buffer viewing exactly the decoded ints, position 0, limit = their number |
| ChunkMeshCodec.EncodeLayers | engine/src/main/java/org/terasology/engine/persistence/typeHandling/extensionTypes/ChunkMeshTypeHandler.java:26-30 | the record has exactly two entries per layer |
| ChunkMeshCodec.EncodeLayersAt | engine/src/main/java/org/terasology/engine/persistence/typeHandling/extensionTypes/ChunkMeshTypeHandler.java:27-29 | entry 2k encodes layer k's vertices and entry 2k+1 its indices |
| ChunkMeshCodec.Reconstruction | engine/src/main/java/org/terasology/engine/persistence/typeHandling/extensionTypes/ChunkMeshTypeHandler.java:38-41 | a reconstructed buffer holds 4n ints for n decoded ints: the decoded ones first, then zeros |
| ChunkMeshCodec.TakeLayers | engine/src/main/java/org/terasology/engine/persistence/typeHandling/extensionTypes/ChunkMeshTypeHandler.java:45-48 | taking from the front succeeds exactly when there are at least two buffers per layer; layer k gets buffers 2k and 2k+1 |
| ChunkMeshCodec.DecodeRecord | engine/src/main/java/org/terasology/engine/persistence/typeHandling/extensionTypes/ChunkMeshTypeHandler.java:35-48 | a record decodes exactly when it has at least two blobs per render type, and then into one layer per render type |
| ChunkMeshCodec.DecodeRecordAt | engine/src/main/java/org/terasology/engine/persistence/typeHandling/extensionTypes/ChunkMeshTypeHandler.java:36-48 | a record with enough blobs decodes, and layer k is built from blobs 2k and 2k+1 |
| ChunkMeshCodec.ReconstructionOfEncoding | engine/src/main/java/org/terasology/engine/persistence/typeHandling/extensionTypes/ChunkMeshTypeHandler.java:38-41 | reconstructing an encoded buffer of n ints gives 4n ints whose first n are the original ones |
| ChunkMeshCodec.RoundTrip | engine/src/main/java/org/terasology/engine/persistence/typeHandling/extensionTypes/ChunkMeshTypeHandler.java:22-48 | for every render type, decoding the serialised record gives buffers whose first n ints are the original n vertex or index ints, four times as long |
| ChunkMeshCodec.SurplusBlobsIgnored | engine/src/main/java/org/terasology/engine/persistence/typeHandling/extensionTypes/ChunkMeshTypeHandler.java:36-48 | blobs beyond two per render type do not change the decoded mesh |
| ChunkMeshCodec.ReserializeQuadruples | engine/src/main/java/org/terasology/engine/persistence/typeHandling/extensionTypes/ChunkMeshTypeHandler.java:22-48 | serialising a decoded mesh again gives blobs four times as long, which start with the original blobs |
| ChunkMeshCodec.ChunkMesh.constructor | engine/src/main/java/org/terasology/engine/persistence/typeHandling/extensionTypes/ChunkMeshTypeHandler.java:44-48 | a mesh with vertex data holding the given buffers, one vertex and one index buffer per render type |
| ChunkMeshCodec.AsByteBuffer | engine/src/main/java/org/terasology/engine/persistence/typeHandling/extensionTypes/ChunkMeshTypeHandler.java:53-58 | the result is the 4-byte big-endian encoding of the input's ints up to its limit; the input's position ends at its limit |
| ChunkMeshCodec.Serialize | engine/src/main/java/org/terasology/engine/persistence/typeHandling/extensionTypes/ChunkMeshTypeHandler.java:22-32 | fails with DataDiscarded exactly when the mesh has no vertex data; otherwise it returns 2 × render types blobs, the encoding of each layer's vertices then indices in enumeration order, and leaves every buffer's position at its limit; only positions change, and on failure none does |
| ChunkMeshCodec.EncodeMeshBuffer | engine/src/main/java/org/terasology/engine/persistence/typeHandling/extensionTypes/ChunkMeshTypeHandler.java:28-29 | encoding one of the mesh's buffers yields the encoding of its ints, leaves that buffer's position at its limit and every layer of the mesh as it was |
| ChunkMeshCodec.EncodeLayer | engine/src/main/java/org/terasology/engine/persistence/typeHandling/extensionTypes/ChunkMeshTypeHandler.java:28-29 | render type k yields the encodings of its vertex and index words, and its two buffers are left at their limits |
| ChunkMeshCodec.Deserialize | engine/src/main/java/org/terasology/engine/persistence/typeHandling/extensionTypes/ChunkMeshTypeHandler.java:35-51 | succeeds exactly when there are at least two blobs per render type, otherwise fails with MissingBlob; on success the fresh mesh's layers are the decoding of the record, and every buffer is fresh and rewound; no two buffers are the same or share storage, and all their storage is newly allocated |
| ChunkMeshCodec.Assemble | engine/src/main/java/org/terasology/engine/persistence/typeHandling/extensionTypes/ChunkMeshTypeHandler.java:44-48 | the mesh holds the buffers taken two per render type, is valid, has vertex data, and its layers are the decoding of the record; its buffers share no storage, all of it belonging to the given buffers |
| ChunkMeshCodec.PairBuffers | engine/src/main/java/org/terasology/engine/persistence/typeHandling/extensionTypes/ChunkMeshTypeHandler.java:45-48 | succeeds exactly when there are at least two buffers per render type; render type k then gets buffers 2k and 2k+1 |
| ChunkMeshCodec.DirectBuffers | engine/src/main/java/org/terasology/engine/persistence/typeHandling/extensionTypes/ChunkMeshTypeHandler.java:36-43 | one fresh, rewound direct buffer per blob, in order, each holding that blob's reconstruction in newly allocated storage; no two share an object or a backing array |
| ChunkMeshCodec.ToDirectBuffer | engine/src/main/java/org/terasology/engine/persistence/typeHandling/extensionTypes/ChunkMeshTypeHandler.java:38-41 | a fresh direct buffer over a newly allocated array, holding the blob's reconstruction, with position 0 |
| StandardMesh.ComponentCount | engine/src/main/java/org/terasology/engine/rendering/assets/mesh/StandardMeshData.java:49-70 | every attribute format has 2 to 4 float components, and exactly the colour format has 4 |
| StandardMesh.SlotFormat | engine/src/main/java/org/terasology/engine/rendering/assets/mesh/StandardMeshData.java:19-24 | the slot of color0 holds 4 floats, the uv slots 2, and position, normal and light0 3 |
| StandardMesh.BuildSingle | engine/src/main/java/org/terasology/engine/rendering/assets/mesh/StandardMeshData.java:48-50 | a fresh empty buffer carrying exactly the one attribute, and a binding of that attribute to it |
| StandardMesh.VertexResource.constructor | engine/src/main/java/org/terasology/engine/rendering/assets/mesh/StandardMeshData.java:48-50 | (assumed) a built buffer carries the attributes it was built with and holds no elements |
| StandardMesh.VertexResource.ReserveElements | engine/src/main/java/org/terasology/engine/rendering/assets/mesh/StandardMeshData.java:77 | (assumed) capacity becomes at least n and never shrinks; the elements are unchanged |
| StandardMesh.VertexResource.ReallocateElements | engine/src/main/java/org/terasology/engine/rendering/assets/mesh/StandardMeshData.java:87 | (assumed) capacity becomes exactly n; at most n elements remain, the first min(count, n) of them unchanged |
| StandardMesh.VertexResource.Copy | engine/src/main/java/org/terasology/engine/rendering/assets/mesh/StandardMeshData.java:122 | (assumed) the elements become those of the other buffer |
| StandardMesh.IndexResource.ReserveElements | engine/src/main/java/org/terasology/engine/rendering/assets/mesh/StandardMeshData.java:83 | (assumed) as for vertex buffers |
| StandardMesh.IndexResource.ReallocateElements | engine/src/main/java/org/terasology/engine/rendering/assets/mesh/StandardMeshData.java:93 | (assumed) as for vertex buffers |
| StandardMesh.IndexResource.Copy | engine/src/main/java/org/terasology/engine/rendering/assets/mesh/StandardMeshData.java:128 | (assumed) as for vertex buffers |
| StandardMesh.IndexResource.constructor | engine/src/main/java/org/terasology/engine/rendering/assets/mesh/StandardMeshData.java:73 | (assumed) a new index buffer is empty |
| StandardMesh.StandardMeshData.LayoutBySlot | engine/src/main/java/org/terasology/engine/rendering/assets/mesh/StandardMeshData.java:46-74 | vertex buffer k carries exactly the attribute of slot k with its format, and binding k refers to it |
| StandardMesh.StandardMeshData.constructor | engine/src/main/java/org/terasology/engine/rendering/assets/mesh/StandardMeshData.java:46-74 | seven fresh, distinct, empty buffers laid out slot by slot |
| StandardMesh.StandardMeshData.Reserve | engine/src/main/java/org/terasology/engine/rendering/assets/mesh/StandardMeshData.java:76-84 | every vertex buffer's capacity becomes at least numVertices and at least what it was, the index buffer's likewise for numIndices; no contents change and the layout is kept |
| StandardMesh.StandardMeshData.Reallocate | engine/src/main/java/org/terasology/engine/rendering/assets/mesh/StandardMeshData.java:86-95 | every vertex buffer's capacity becomes exactly numVerts and the index buffer's numIndices; each vertex buffer then holds at most numVerts elements and keeps its first min(count, numVerts) unchanged, and the index buffer likewise for numIndices |
| StandardMesh.StandardMeshData.Positions | engine/src/main/java/org/terasology/engine/rendering/assets/mesh/StandardMeshData.java:97-100 | the position binding, on the position buffer at slot 0 with three floats |
| StandardMesh.StandardMeshData.VertexResources | engine/src/main/java/org/terasology/engine/rendering/assets/mesh/StandardMeshData.java:102-112 | a fresh array of the six vertex buffers, the buffer at index k carrying slot k |
| StandardMesh.StandardMeshData.IndexBuffer | engine/src/main/java/org/terasology/engine/rendering/assets/mesh/StandardMeshData.java:114-117 | the mesh's own index buffer |
| StandardMesh.StandardMeshData.Clone | engine/src/main/java/org/terasology/engine/rendering/assets/mesh/StandardMeshData.java:119-130 | a fresh mesh whose buffers share nothing with this one, with a valid layout and the same vertex and index contents |
| StandardMesh.StandardMeshData.CopyBuffers | engine/src/main/java/org/terasology/engine/rendering/assets/mesh/StandardMeshData.java:122-128 | each of this mesh's buffers takes the contents of the corresponding buffer of a disjoint mesh |
| StandardMesh.StandardMeshData.CopyGeometry | engine/src/main/java/org/terasology/engine/rendering/assets/mesh/StandardMeshData.java:122-125 | the position, normal and two uv buffers take the contents of those of a disjoint mesh; the layout is kept |
| StandardMesh.StandardMeshData.CopyShading | engine/src/main/java/org/terasology/engine/rendering/assets/mesh/StandardMeshData.java:126-128 | the light, colour and index buffers take the contents of those of a disjoint mesh; the layout is kept |
| Tiles.Blank | engine/src/main/java/org/terasology/engine/world/block/tiles/TileFormat.java:39 | a new frame of the given size, every pixel transparent |
| Tiles.DrawImage | engine/src/main/java/org/terasology/engine/world/block/tiles/TileFormat.java:40 | a pixel of the destination takes the source pixel at the shifted position when that is inside the source, and otherwise stays as it was |
| Tiles.IsPowerOfTwo | engine/src/main/java/org/terasology/engine/world/block/tiles/TileFormat.java:34 | only positive numbers are powers of two |
| Tiles.PowerOfTwoIff | engine/src/main/java/org/terasology/engine/world/block/tiles/TileFormat.java:34 | the halving test holds exactly for the numbers 2^k |
| Tiles.IsTileSheet | engine/src/main/java/org/terasology/engine/world/block/tiles/TileFormat.java:34-36 | an accepted image has positive height, positive width and a width that is a multiple of the height |
| Tiles.FrameCount | engine/src/main/java/org/terasology/engine/world/block/tiles/TileFormat.java:37 | at least one frame, and the frames exactly cover the width |
| Tiles.Frame | engine/src/main/java/org/terasology/engine/world/block/tiles/TileFormat.java:37-41 | frame i is a height × height square whose pixel (x, y) is the image's pixel (height·i + x, y) |
| Tiles.FrameInside | engine/src/main/java/org/terasology/engine/world/block/tiles/TileFormat.java:37-40 | every frame lies within the image |
| Tiles.FramesTileSheet | engine/src/main/java/org/terasology/engine/world/block/tiles/TileFormat.java:37-41 | every pixel of the image appears in frame x / height at column x mod height |
| Tiles.DrawnFrame | engine/src/main/java/org/terasology/engine/world/block/tiles/TileFormat.java:39-40 | drawing the image shifted left by height·i into a blank square yields frame i |
| Tiles.Load | engine/src/main/java/org/terasology/engine/world/block/tiles/TileFormat.java:30-44 | fails exactly when the image is not a row of power-of-two squares; otherwise it returns width/height frames, frame i being the i-th square, with the auto flag true exactly when some directory on the file's path is named "auto" |
| Items.SideVector | src/main/java/org/terasology/componentSystem/items/ItemSystem.java:114 | every face direction is a unit axis vector |
| Items.PlacementPos | src/main/java/org/terasology/componentSystem/items/ItemSystem.java:113-114 | the placement position is the target's neighbour across the surface: distance 1, never the target itself |
| Items.AnyColliderOverlaps | src/main/java/org/terasology/componentSystem/items/ItemSystem.java:153-157 | true exactly when some collider of the block overlaps the given box |
| Items.AnyPlayerOverlaps | src/main/java/org/terasology/componentSystem/items/ItemSystem.java:149-158 | true exactly when some collider overlaps some player's box |
| Items.CanPlaceBlock | src/main/java/org/terasology/componentSystem/items/ItemSystem.java:135-161 | placement is allowed exactly when the target allows attachment, the neighbour holds no visible block that selection rays stop at, and the block is penetrable or overlaps no player |
| Items.Consume | src/main/java/org/terasology/componentSystem/items/ItemSystem.java:94-104 | an item is kept exactly when it is not consumed on use; it is destroyed only from a stack of 1; otherwise the saved stack is one smaller and never 0 |
| Items.ConsumeCases | src/main/java/org/terasology/componentSystem/items/ItemSystem.java:94-104 | a non-consumable item is kept; a consumable one is destroyed exactly when its stack was 1; a stack of 0 or less is saved negative, never destroyed |
| Items.ItemSystem.CheckConsumeItem | src/main/java/org/terasology/componentSystem/items/ItemSystem.java:94-104 | a consumable item's stack drops by one, then the item is destroyed if that leaves 0 and saved otherwise; a non-consumable item is untouched |
| Items.ItemSystem.constructor | src/main/java/org/terasology/componentSystem/items/ItemSystem.java:39-43 | the system works on the given world and entity queries |
| Items.ItemSystem.Placeable | src/main/java/org/terasology/componentSystem/items/ItemSystem.java:112-133 | placement never succeeds when the family has no block for the two faces, and succeeds only when the target allows attachment |
| Items.ItemSystem.PlaceBlock | src/main/java/org/terasology/componentSystem/items/ItemSystem.java:112-133 | returns true exactly when the family has a block for the two faces and placement is allowed; only then is that block written at the placement position; an existing placed entity then gets its block and health components and the reference is cleared |
| Items.ItemSystem.OnDestroyed | src/main/java/org/terasology/componentSystem/items/ItemSystem.java:45-48 | the placed entity, if any, is destroyed |
| Items.ItemSystem.UseItemOnBlock | src/main/java/org/terasology/componentSystem/items/ItemSystem.java:50-65 | nothing happens unless the item is used on blocks. A block item is consumed exactly when placement happens, and then the block is written at the placement position and the placed entity, if alive, gets its components and the reference is cleared; otherwise the world and the reference stay. Any other item activates the target's block entity and is consumed. Without an item component nothing about the item changes |
| Items.ItemSystem.UseItem | src/main/java/org/terasology/componentSystem/items/ItemSystem.java:67-74 | nothing happens unless the item is used on its user (without an item component the item's liveness and saves stay); then it activates with the instigator as target and is consumed |
| Items.ItemSystem.UseItemOnEntity | src/main/java/org/terasology/componentSystem/items/ItemSystem.java:76-83 | any item activates the target entity and is consumed; an entity without an item component is left as it was |
| Items.ItemSystem.UseItemInDirection | src/main/java/org/terasology/componentSystem/items/ItemSystem.java:85-92 | any item activates along the location and direction and is consumed; an entity without an item component is left as it was |
| PrefabLoading.DistinctOccursOnce | engine/src/main/java/org/terasology/engine/core/modes/loadProcesses/LoadPrefabs.java:51 | in the set of available prefabs, each occurs exactly once |
| PrefabLoading.LoadPrefabs.constructor | engine/src/main/java/org/terasology/engine/core/modes/loadProcesses/LoadPrefabs.java:31-33 | a process over the asset manager's prefabs, not yet begun, with nothing loaded or counted |
| PrefabLoading.LoadPrefabs.ExpectedCost | engine/src/main/java/org/terasology/engine/core/modes/loadProcesses/LoadPrefabs.java:55-58 | the expected cost is always 1 |
| PrefabLoading.LoadPrefabs.Begin | engine/src/main/java/org/terasology/engine/core/modes/loadProcesses/LoadPrefabs.java:49-53 | iteration starts at the first prefab and the total is the number of available prefabs |
| PrefabLoading.LoadPrefabs.Step | engine/src/main/java/org/terasology/engine/core/modes/loadProcesses/LoadPrefabs.java:40-47 | loads the next prefab and counts one step only when one remains; returns true exactly when none remain afterwards |
| PrefabLoading.BeginAndStep | engine/src/main/java/org/terasology/engine/core/modes/loadProcesses/LoadPrefabs.java:40-53 | after begin and n steps, step i reports completion exactly when i + 1 reaches the total; the first min(n, N) prefabs are loaded in order with one counted step each; after N steps every prefab is loaded exactly once (with none, the first step loads nothing and returns true) |

## Left out

- GPU upload (`generateVBOs`) and the internals of `new ChunkMesh(null)` are left out. The model's mesh is built from the collected buffers in one step, rather than created first and filled layer by layer.
- Native-memory allocation is left out. A direct buffer is modelled only by its capacity, limit, position and contents.
- ChunkMesh and its RenderType enumeration are not part of this model. The enumeration is taken to have four entries, and every property is stated in terms of its length.
- `PersistedDataSerializer` and `PersistedData` are left out. A record is a sequence of byte blobs.
- VertexResource, IndexResource, VertexResourceBuilder and VertexAttributeBinding are not part of this model. The model assumes the following of them. A built buffer is empty. Reserving n keeps the contents and leaves a capacity of at least n that never shrinks. Reallocating to n sets the capacity to exactly n and keeps the leading elements that fit. Copying makes the contents those of the other buffer.
- StandardMesh.VertexResource.ReallocateElements: the code of `reallocateElements` is not part of this model, so whether growing a buffer adds zeroed elements is not known. The contract promises only that at most n elements remain and that the first min(count, n) are kept. It does not promise that a buffer holds exactly n elements afterwards.
- StandardMesh.IndexResource.ReallocateElements: the same limit as for vertex buffers, for indices.
- StandardMesh.StandardMeshData.Reallocate: as a consequence, it does not promise that the six vertex buffers hold equally many elements afterwards. It promises only the common capacity and the kept leading elements.
- StandardMesh.StandardMeshData.Reserve: sizes are natural numbers. The Java methods take `int`, and what a negative size does is up to the buffer classes, which are not part of this model. The same holds for Reallocate.
- The float conversions of vector and colour attributes are left out; an element is opaque bytes.
- Image decoding (`ImageIO.read`), the stream and I/O failures are left out. Pixels are opaque 32-bit ARGB values.
- Tiles.DrawImage: drawing copies source pixels without alpha blending, which only approximates source-over drawing onto a fully transparent frame. Opaque pixels come out the same. A pixel with alpha 0 but non-zero colour bits gives 0 under source-over, yet the model copies it. Partly transparent pixels may differ by the blend's rounding.
- `IntMath.isPowerOfTwo` is modelled by its meaning, as a halving test.
- `AudioManager.play` is left out: it plays a sound only.
- Event dispatch by annotation and the entity-manager lookups are left out. Handlers take the item entity directly.
- The block-entity registry is left out. The activated block entity is identified by its position.
- Box overlap, block colliders and player locations are left out as geometry: they are opaque queries.
- The world provider and block manager are merged into a map from positions to blocks. A missing entry stands for a null block. The target position must hold a block whenever a block item's family gives a block for the two faces, because only then does placement read the target's block.
- Items.ItemComponent.stackCount: the width of the stack counter is not shown, so it is an unbounded integer.
- Items.SideVector: Side is not part of this model, and its vectors are taken to be the unit axis vectors.
- The asset manager is a fixed sequence of distinct URNs, in iteration order. The prefab assets themselves are left out; a load is recorded in a log.
- StepBasedLoadProcess is not part of this model. `setTotalSteps` and `stepDone` are modelled as a plain assignment and an increment.
- `getMessage` is kept as a constant (`PrefabLoading.LoadingMessage`) and carries no property.
- LeftStrafeButton is left out: it declares a key binding and has no logic.
