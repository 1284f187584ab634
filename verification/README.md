# Voxel terrain core of flying-rat-project, in Dafny

The game streams a world of chunk-sized columns of blocks around the player. This project models the integer core of that engine:

- **`Chunk.cs`.** A chunk holds a dense `S × H × S` block array with `H = S*S/2`, plus a per-column height-map. It fills both from a per-column terrain height. It builds a mesh from six constant face templates, testing each face of each solid voxel for visibility. It edits single voxels: placing raises the column height, removing rescans the column downward, and every edit clears and rebuilds the mesh.
- **`World.cs`.** The world maps positions to chunks by floor division. It keeps the chunk dictionary and streams the half-open square of chunk coordinates around the player's chunk: missing chunks are enqueued, registered ones are activated, and far ones are deactivated. A rate-gated `LateUpdate` loop drains the queue. Edits and reads are routed to the owning chunk, and go nowhere when no chunk is registered there.
- **`Player.cs` (hotbar only).** Three slot counters, the selected slot, placing from it, breaking into the slot of the block looked at, the mining timer and the looked-at block.

Everything is a pure function over immutable values. Chunk generation is also written a second time as a method over arrays with loop invariants. A C# `IndexOutOfRangeException` is not an error the model excludes; it is a result:

- A pure read or write returns `Result`: `Ok` or `Err(IndexOutOfRange)`.
- A call whose earlier effects survive a later throw returns `Outcome`. `Completed(state)` is a normal return. `Threw(state, fault)` ends the Unity callback with `state` being whatever had been mutated before the throw.

The model reproduces the engine's quirks instead of repairing them:

- The streamed square is half-open, `[p - r, p + r)` on both axes, so it holds `(2r)²` chunks. A square centred on `p` would be `[p - r, p + r]`; the loops in `World.cs:191-195` stop one short on each axis, and the model follows them.
- `World.Update` streams around the chunk coordinate stored *before* the move, and only then stores the new one.
- `Chunk.PlaceBlockAt` writes the voxel before its own bounds test `y > _height || y < 0`. The write throws for every `y` that test would catch, so the test can never fire, and its `>` (which would admit `y == H`) never matters.
- `IsFaceVisible` does not guard the top of the array. The up-face of a solid voxel in layer `H - 1` reads layer `H` and throws, so a mesh build throws exactly when the top layer holds a solid voxel.
- The terrain height is clamped to `S*S - 1`, which is above the top layer `H - 1`. A tall enough column therefore makes chunk generation throw after the volume is filled.
- `Player.PlaceBlock` spends the block even when no chunk is registered at the target, and `BreakBlock` credits the slot before asking the world to remove the block.
- `IsPlayerInBlock` returns *true when the player's box does not overlap the cell*. `PlaceBlock` calls it with the matching negation, so the overall behaviour is "do not place into the player"; only the name is inverted.

Noise is replaced by an uninterpreted integer function `Terrain`: the truncated sum of the four noise layers at a world column. Only the integer tail of `GetHeightAtCord` (base 64, division by 5 toward zero, clamp) is modelled. `Time.time` is a real parameter. The raycast is a `Ray` input (miss, or the floored cells behind and in front of the hit face). The player's position is a `Body` input. The random base offset is part of `Config`.

Files: `wrappers.dfy` (Option, Result, Outcome), `blocks.dfy` (block enum and per-type tables), `faces.dfy` (face templates), `coords.dfy` (world-to-chunk mapping), `heightfield.dfy` (height clamp), `volume.dfy` (volume and height-map), `mesher.dfy` (mesh building), `chunks.dfy` (one chunk), `world.dfy` (registry, streaming, queue, routing), `hotbar.dfy` (inventory).

## Model

| member | source | states |
|---|---|---|
| Blocks.Ordinal | Assets/Scripts/World.cs:10-16 | Every block type has an ordinal below 4, and only AIR has ordinal 0. |
| Blocks.FromOrdinal | Assets/Scripts/World.cs:10-16 | Enum arithmetic `AIR + n` for `n` in 0..3 gives the type whose ordinal is `n`. |
| Blocks.OrdinalRoundTrip | Assets/Scripts/World.cs:10-16 | Converting a type to its ordinal and back gives the same type. |
| Blocks.TimeToBreak | Assets/Scripts/World.cs:254-269 | Break times lie in [0, 2]; the time is 0 exactly for AIR, and snow breaks in under a second. |
| Blocks.TintOf | Assets/Scripts/Chunk.cs:403-417 | The colour is clear exactly for AIR; grass, and only grass, takes a shade that depends on its world column. |
| Faces.TemplateShape | Assets/Scripts/Chunk.cs:224-336 | Every template has 4 corners, 4 UVs and 6 indices, each index in 0..3, and its normal is the direction it is used for. |
| Faces.TemplateFacesOut | Assets/Scripts/Chunk.cs:224-336 | In every template, the edge cross product of both triangles equals the declared normal: each of the twelve triangles is wound toward the side its face is drawn on. |
| Faces.TemplateOnCubeSide | Assets/Scripts/Chunk.cs:224-336 | Every template corner is a unit-cube corner on the side its normal names, and both triangles together use all four corners. |
| Coords.FloorDiv | Assets/Scripts/World.cs:228 | For an integer coordinate, the chunk index `c` satisfies `c*S <= a < (c+1)*S`, i.e. floor division. |
| Coords.FloorDivReal | Assets/Scripts/World.cs:210-211 | For a real observer coordinate, the chunk index `c` satisfies `c*S <= a < (c+1)*S`. |
| Coords.FloorScale | Assets/Scripts/World.cs:210-211 | If `c` is the floor of `a / S`, then `c*S <= a < (c+1)*S`. |
| Coords.ChunkOf | Assets/Scripts/World.cs:228 | The owning chunk of a block position brackets it between `c*S` and `(c+1)*S` on x and z. |
| Coords.LocalInsideOwner | Assets/Scripts/Chunk.cs:346-350 | Relative to its owning chunk, a position has x and z in [0, S) and the same height. |
| Coords.OwnerUnique | Assets/Scripts/Chunk.cs:346-350 | The owning chunk is the only chunk in which the position's local x and z land in [0, S). |
| Coords.FloorUnique | Assets/Scripts/World.cs:228 | At most one integer `c` satisfies `c*S <= a < (c+1)*S`. |
| HeightField.TruncDiv | Assets/Scripts/World.cs:152 | C# `/=` truncates toward zero: the remainder `a - q*b` lies in `[0, b)` for a non-negative dividend and in `(-b, 0]` for a negative one. |
| HeightField.TruncDivVersusFloor | Assets/Scripts/World.cs:152 | Truncation equals floor division except for a negative dividend that is not a multiple of the divisor, where it is one higher (`-7 / 5` is `-1`). |
| HeightField.Clamp | Assets/Scripts/World.cs:153 | The result lies within the bounds. A value already inside is kept; below the lower bound gives the lower bound, above the upper bound gives the upper bound. |
| HeightField.HeightFromNoise | Assets/Scripts/World.cs:141-154 | For any integer noise sum and chunk size at least 1, the height lies in [0, S*S-1], and it equals `(64 + sum) / 5` whenever that is already in range. |
| HeightField.ClampExceedsChunkTop | Assets/Scripts/World.cs:153 | A large enough noise sum gives height `S*S-1`, which lies above the chunk's top layer `S*S/2 - 1`. |
| HeightField.ColumnHeight | Assets/Scripts/World.cs:139-154 | The height of a chunk's local column, sampled at its world column plus the base offset, lies in `[0, S*S-1]`. |
| Voxels.HeightHalvesLayer | Assets/Scripts/Chunk.cs:34 | A chunk has `S*S/2` layers, rounded down. |
| Voxels.Classify | Assets/Scripts/Chunk.cs:76-91 | One voxel of a column of height `h`: AIR iff above `h`, STONE iff below `h`, and at `h` SNOW iff `h > 100` (GRASS otherwise). |
| Voxels.Fill | Assets/Scripts/Chunk.cs:63-97 | The filled volume: AIR above the column height, SNOW (height > 100) or GRASS at it, STONE below, and the height-map holds the column heights. |
| Voxels.GenerateChunkData | Assets/Scripts/Chunk.cs:63-97 | The x, z, y loops over arrays produce exactly the volume the generation rule describes. |
| Voxels.FillColumn | Assets/Scripts/Chunk.cs:74-94 | The y loop of one column writes that column's generated blocks and height, and keeps every earlier column. |
| Voxels.Freeze | Assets/Scripts/Chunk.cs:65 | Reading the filled arrays back as a value keeps every voxel and every height. |
| Voxels.GeneratedSurface | Assets/Scripts/Chunk.cs:74-94 | In a generated volume a voxel is AIR iff it lies above its column height, and nothing above the height-map is solid. |
| Voxels.GeneratedUnique | Assets/Scripts/Chunk.cs:63-97 | The column heights determine the generated volume completely. |
| Voxels.Get | Assets/Scripts/Chunk.cs:437-441 | A read throws exactly outside the array; otherwise it returns the stored voxel. |
| Voxels.Store | Assets/Scripts/Chunk.cs:352 | The array store sets exactly one voxel and leaves the height-map and every other voxel alone. |
| Voxels.SetSurface | Assets/Scripts/Chunk.cs:359-360 | The height-map store sets exactly one column's height and leaves the blocks and every other column alone. |
| Voxels.Place | Assets/Scripts/Chunk.cs:343-361 | Throws exactly outside the array. Otherwise the voxel becomes `t`, the column height becomes max(old, y), and no other voxel or column changes. |
| Voxels.PlaceBoundsCheckUnreachable | Assets/Scripts/Chunk.cs:352-356 | Whenever the store succeeds, the source's later bounds test is false, and the layer `y == H` that `>` would admit is rejected by the store. |
| Voxels.GetAfterPlace | Assets/Scripts/Chunk.cs:352 | Reading a placed voxel back yields the placed type. |
| Voxels.PlaceKeepsSurface | Assets/Scripts/Chunk.cs:352-360 | Placing keeps every voxel above its column height AIR. |
| Voxels.Rescan | Assets/Scripts/Chunk.cs:383-393 | The downward loop sets the height to the highest solid voxel below the removed one, or 0 when there is none. |
| Voxels.Remove | Assets/Scripts/Chunk.cs:369-394 | Throws exactly outside the array. Otherwise the voxel becomes AIR; if it sat at the column height, the new height is the highest solid voxel below it (or 0); else the height is kept; no other voxel or column changes. |
| Voxels.GetAfterRemove | Assets/Scripts/Chunk.cs:378 | Reading a removed voxel back yields AIR. |
| Voxels.RemoveKeepsSurface | Assets/Scripts/Chunk.cs:378-394 | Removing keeps every voxel above its column height AIR. |
| Mesher.IsFaceVisible | Assets/Scripts/Chunk.cs:191-206 | The test throws exactly for the up-face of the top layer. A face below layer 0 is hidden; a face leaving the chunk sideways is drawn; any other face is drawn iff its neighbour is AIR. |
| Mesher.GenerateFace | Assets/Scripts/Chunk.cs:167-189 | Appends exactly 4 vertices (template corners moved to the voxel), 4 colours, 4 UVs and 6 indices (template indices plus the prior vertex count), keeps the old buffers as a prefix, and keeps every index pointing at a vertex. |
| Mesher.VoxelTint | Assets/Scripts/Chunk.cs:403-417 | A voxel's colour is clear exactly for AIR; grass, and only grass, is shaded by its world column. |
| Mesher.VisibleFaces | Assets/Scripts/Chunk.cs:151-165 | The faces of one voxel that should be drawn: exactly the directions tested for which the visibility test answers true. |
| Mesher.MeshFaces | Assets/Scripts/Chunk.cs:99-118 | The faces a list of voxels should draw: exactly the visible faces of voxels in the list. |
| Mesher.Quads | Assets/Scripts/Chunk.cs:167-189 | Appending one quad per face only extends the buffers, adds 4 vertices and 6 indices per face, and keeps the mesh well formed. |
| Mesher.QuadsAppend | Assets/Scripts/Chunk.cs:167-189 | Appending the quads of two face lists in turn is appending the quads of their concatenation. |
| Mesher.QuadsPlaceFaces | Assets/Scripts/Chunk.cs:167-189 | The `i`-th face becomes vertices `4i` to `4i+3` of the appended part: its template's corners moved to its voxel. |
| Mesher.VoxelFaces | Assets/Scripts/Chunk.cs:151-165 | Testing a voxel's faces throws exactly when the up direction is tested in the top layer. Otherwise it appends one quad for each face the visibility test admits, in test order, and nothing else. |
| Mesher.Emit | Assets/Scripts/Chunk.cs:99-118 | Emitting a list of voxels throws exactly when some voxel is in the top layer. Otherwise it appends one quad for each visible face of each voxel, voxel by voxel, and keeps the mesh well formed. |
| Mesher.EmitAfter | Assets/Scripts/Chunk.cs:99-118 | The same facts for the rest of an emission pass after one voxel. |
| Mesher.BuildMesh | Assets/Scripts/Chunk.cs:99-118 | A completed build holds exactly one quad per visible face of the scanned voxels, 4 vertices each, in scan order. It has one UV and one colour per vertex and every index below the vertex count. |
| Mesher.MeshFacesOfSolidVoxels | Assets/Scripts/Chunk.cs:99-118 | Under the height-map invariant, the faces a build draws are exactly the visible faces of the solid voxels, and none is listed twice, so each gets exactly one quad. |
| Mesher.ColumnScan | Assets/Scripts/Chunk.cs:105-115 | The early-stopping column scan visits only solid voxels of its column, at or above its start layer. |
| Mesher.RowScan | Assets/Scripts/Chunk.cs:103-116 | A row scan visits only solid in-bounds voxels of its row, from its start column on. |
| Mesher.Scan | Assets/Scripts/Chunk.cs:101-117 | The chunk scan visits only solid in-bounds voxels, from its start row on. |
| Mesher.ColumnScanFullMembers | Assets/Scripts/Chunk.cs:105-115 | Scanning a column to the top visits exactly its solid voxels. |
| Mesher.EarlyStopHarmless | Assets/Scripts/Chunk.cs:108-109 | Under the height-map invariant, the `break` above height + 1 gives the same column list as scanning every layer. |
| Mesher.AirFrom | Assets/Scripts/Chunk.cs:108-109 | Under the height-map invariant, the layers above a column's height hold no solid voxel. |
| Mesher.ColumnScanWithinFull | Assets/Scripts/Chunk.cs:105-115 | The early-stopping column scan visits only voxels that the full scan visits. |
| Mesher.RowScanMembers | Assets/Scripts/Chunk.cs:103-116 | The full scan of a row visits exactly its solid voxels. |
| Mesher.RowScanWithinFull | Assets/Scripts/Chunk.cs:103-116 | The early-stopping row scan visits only voxels that the full row scan visits. |
| Mesher.RowScanEarlyStop | Assets/Scripts/Chunk.cs:103-116 | Under the height-map invariant, the early-stopping and full row scans are equal. |
| Mesher.ScanMembers | Assets/Scripts/Chunk.cs:101-117 | The full scan visits exactly the solid voxels of the chunk. |
| Mesher.ScanWithinFull | Assets/Scripts/Chunk.cs:101-117 | The early-stopping scan visits only in-bounds solid voxels. |
| Mesher.ScanEarlyStop | Assets/Scripts/Chunk.cs:101-117 | Under the height-map invariant, `GenerateMesh` visits the same voxels, in the same order, as a scan without the `break`. |
| Mesher.ScanIsSolidVoxels | Assets/Scripts/Chunk.cs:101-117 | Under the height-map invariant, the mesher visits exactly the solid voxels, each once. |
| Mesher.ColumnScanFullDistinct | Assets/Scripts/Chunk.cs:105-115 | Scanning a column visits no voxel twice, because its layers rise. |
| Mesher.RowScanDistinct | Assets/Scripts/Chunk.cs:103-116 | Scanning a row visits no voxel twice, because its columns differ in z. |
| Mesher.ScanDistinct | Assets/Scripts/Chunk.cs:101-117 | The full scan visits no voxel twice, because its rows differ in x. |
| Mesher.VisibleFacesDistinct | Assets/Scripts/Chunk.cs:151-165 | Testing each direction once gives no face of a voxel twice. |
| Mesher.MeshFacesDistinct | Assets/Scripts/Chunk.cs:99-118 | A voxel list without repeats draws no face twice. |
| Mesher.BuildMeshFails | Assets/Scripts/Chunk.cs:194-205 | Under the height-map invariant, a build throws iff some voxel of the top layer is solid. |
| Mesher.TopLayerScanned | Assets/Scripts/Chunk.cs:101-117 | If a voxel list holds exactly the solid voxels, it contains a top-layer voxel iff the top layer has a solid voxel. |
| Chunks.GenerateChunk | Assets/Scripts/Chunk.cs:29-61 | Fills the volume from the terrain at the chunk's world columns and keeps the height-map invariant. It throws iff some column reaches the top layer. On completion the mesh is a fresh build; on a throw it is empty. |
| Chunks.GeneratedTopLayer | Assets/Scripts/Chunk.cs:74-94 | A generated volume has a solid top-layer voxel iff some column height reaches the top layer. |
| Chunks.TopVoxel | Assets/Scripts/Chunk.cs:76-91 | In a generated volume, the top voxel of a column is solid iff the column height reaches the top layer. |
| Chunks.Rebuild | Assets/Scripts/Chunk.cs:120-127 | Clearing and regenerating leaves the volume alone. The mesh is then a fresh build of the volume, or empty if the build threw. |
| Chunks.GetBlockAt | Assets/Scripts/Chunk.cs:437-441 | A read at a world position throws exactly when its local cell lies outside the array, and otherwise returns the voxel stored there. |
| Chunks.PlaceBlockAt | Assets/Scripts/Chunk.cs:343-367 | Outside the array it throws with the chunk unchanged. Otherwise the cell then reads back as `t`, no other voxel changes, the invariant holds, the rebuild completes iff the top layer stays clear, and a completed mesh equals a fresh build. |
| Chunks.RemoveBlockAt | Assets/Scripts/Chunk.cs:369-401 | Outside the array it throws with the chunk unchanged. Otherwise the cell then reads back as AIR, no other voxel changes, the invariant holds, the rebuild completes iff the top layer stays clear, and a completed mesh equals a fresh build. |
| Chunks.PlaceOnTopLayerThrows | Assets/Scripts/Chunk.cs:194-205 | Placing a solid block in the top layer always makes the rebuild throw, and the placed block stays stored. |
| World.Find | Assets/Scripts/World.cs:229-237 | The routing loop stops at the first entry whose chunk reports the position; if none does, nothing is found. |
| World.FindIsKeyLookup | Assets/Scripts/World.cs:229-237 | In a sound registry, searching by chunk position is the same as looking up the key. |
| World.Row | Assets/Scripts/World.cs:194-203 | The inner loop visits exactly the coordinates `(x, z)` with `z` in `[lo, hi)`, each once. |
| World.Rows | Assets/Scripts/World.cs:191-204 | The nested loops visit exactly the rectangle `[x, hiX) × [loZ, hiZ)`, each coordinate once, `(hiX - x)` rows of `(hiZ - loZ)`. |
| World.Square | Assets/Scripts/World.cs:191-204 | The streaming loops visit exactly the half-open square `[p-r, p+r)²`, each coordinate once. |
| World.TimesIsProduct | Assets/Scripts/World.cs:191-195 | Counting `k` rows of `n` coordinates gives `k * n`. |
| World.SquareCount | Assets/Scripts/World.cs:191-195 | The streamed square holds `4r²` coordinates. |
| World.Missing | Assets/Scripts/World.cs:199-200 | The enqueued coordinates are exactly the visited ones that are not registered. |
| World.MissingDistinct | Assets/Scripts/World.cs:199-200 | A visit without repeats enqueues no coordinate twice. |
| World.Activate | Assets/Scripts/World.cs:201-202 | Activating a key sets that key's entry active, leaves every other entry's flag alone, and changes no key or chunk. |
| World.Visit | Assets/Scripts/World.cs:191-204 | The second loop keeps keys and chunks and appends exactly the unregistered visited coordinates to the queue. |
| World.VisitActivates | Assets/Scripts/World.cs:199-202 | After the second loop an entry is active iff it was already, or its key was visited. |
| World.Deactivate | Assets/Scripts/World.cs:183-188 | The first loop sets inactive exactly the chunks whose squared distance exceeds `r²`, and changes nothing else. |
| World.RequestChunkUpdate | Assets/Scripts/World.cs:179-205 | No chunk leaves the registry. A chunk ends active iff it lies in the square, or was active and within distance `r`. The queue gains, at its end and in loop order, exactly the unregistered coordinates of the square, each once. |
| World.RequestKeepsRegistry | Assets/Scripts/World.cs:179-205 | Streaming keeps the registry sound. |
| World.Due | Assets/Scripts/World.cs:159 | The rate gate never passes at rate 0. At a positive rate it passes only once the clock has moved on; at a negative rate it passes whenever the clock has not gone back. |
| World.Interval | Assets/Scripts/World.cs:159 | The generation interval `1 / chunksPerSecond` has the rate's sign. |
| World.GenerateNext | Assets/Scripts/World.cs:161-173 | One loop pass dequeues the head and stamps the time. A registered coordinate is skipped with the registry unchanged. Otherwise a completed generation appends exactly one active entry under that key, and a throw leaves the registry unchanged. |
| World.GenerateNextKeepsRegistry | Assets/Scripts/World.cs:161-173 | One pass keeps keys distinct and every chunk sound and under its own key. |
| World.LateUpdate | Assets/Scripts/World.cs:157-176 | A drain that returns normally leaves the queue empty or the gate closed. The placed record, the stored chunk coordinate and the rate never change. |
| World.LateUpdateKeepsRegistry | Assets/Scripts/World.cs:157-176 | The drain loop keeps the registry sound: no duplicate keys. |
| World.LateUpdateDequeues | Assets/Scripts/World.cs:157-176 | The queue only loses elements from its front. |
| World.LateUpdateIdle | Assets/Scripts/World.cs:159 | With an empty queue or a closed rate gate, nothing changes. |
| World.LateUpdateGrows | Assets/Scripts/World.cs:157-176 | The registry only grows, at its end; no chunk is removed. |
| World.LateUpdateKeysFromQueue | Assets/Scripts/World.cs:162-173 | Every key the registry gains was in the queue. |
| World.LateUpdateDrains | Assets/Scripts/World.cs:159 | At a negative rate the gate always passes, so a drain that does not throw empties the queue. |
| World.LateUpdateAtMostOne | Assets/Scripts/World.cs:159-161 | At a positive rate one call dequeues at most one coordinate: after one pass the gate compares the clock with itself plus a positive interval. |
| World.ObserverChunk | Assets/Scripts/World.cs:209-211 | The observer's chunk brackets its position: `c*S <= x < (c+1)*S` on both axes. |
| World.Update | Assets/Scripts/World.cs:207-217 | The stored coordinate becomes the observer's chunk. If it is unchanged nothing else happens; otherwise streaming runs around the old coordinate first. |
| World.UpdateIdempotent | Assets/Scripts/World.cs:207-217 | A second update from the same position changes nothing. |
| World.UpdateStreamsAroundPreviousChunk | Assets/Scripts/World.cs:212-215 | The coordinates an update enqueues are the unregistered ones of the square around the previous chunk, not the new one. |
| World.Start | Assets/Scripts/World.cs:81-84 | Start sets the rate to `5r`, samples the clock, and enqueues the whole square around (0, 0) into an empty registry, each coordinate once. |
| World.StartWithRadiusOne | Assets/Scripts/World.cs:191-195 | With render distance 1 the start-up queue is exactly (-1,-1), (-1,0), (0,-1), (0,0); the loops stop before `p + r`. |
| World.UnitSquare | Assets/Scripts/World.cs:191-195 | The radius-1 square around (0, 0) in loop order. |
| World.MissingNothingRegistered | Assets/Scripts/World.cs:199-200 | With nothing registered, every visited coordinate is enqueued. |
| World.RemoveFirst | Assets/Scripts/World.cs:247 | `List.Remove` drops one copy of the position if present, and otherwise leaves the list alone. |
| World.FirstIndex | Assets/Scripts/World.cs:247 | The index found holds the position, and no earlier element does. |
| World.RemoveFirstCutsFirst | Assets/Scripts/World.cs:247 | `List.Remove` cuts out exactly the first occurrence and keeps the order of the rest. |
| World.PlacedRoundTrip | Assets/Scripts/World.cs:233-247 | Recording a position and then removing it restores the record as a multiset. |
| World.GetBlockAt | Assets/Scripts/World.cs:271-283 | With no owning chunk registered the result is AIR. Otherwise the read goes to the entry under the owning chunk's key, and its result is that chunk's read; it throws iff the height is outside the chunk. |
| World.PlaceBlockAt | Assets/Scripts/World.cs:226-238 | With no owning chunk nothing changes, including the placed record. Otherwise the position is recorded and exactly the owning entry's chunk is replaced by the chunk-level placement; a throw there is passed on. Keys, queue and clock never change, and the registry stays sound. |
| World.RemoveBlockAt | Assets/Scripts/World.cs:240-252 | With no owning chunk nothing changes. Otherwise the first record of the position is dropped and exactly the owning entry's chunk is replaced by the chunk-level removal; keys, queue and clock never change, and the registry stays sound. |
| World.PlaceThenGet | Assets/Scripts/World.cs:226-238 | In a loaded chunk at a height inside it, the world then reports the placed block even if the rebuild threw. At any other height the store throws and no chunk changes. |
| World.RemoveThenGet | Assets/Scripts/World.cs:240-252 | In a loaded chunk at a height inside it, the world then reports AIR. At any other height the store throws and no chunk changes. |
| World.ReplaceChunk | Assets/Scripts/World.cs:234 | Swapping an entry's chunk for a sound one keeps the keys and the registry's soundness. |
| World.FindAfterUpdate | Assets/Scripts/World.cs:229-237 | In a sound registry the routing loop finds the entry under the chunk's own key. |
| Hotbar.InitialOk | Assets/Scripts/Player.cs:38-39 | The initial inventory has slot 1 selected and three zero counts. |
| Hotbar.SlotBlock | Assets/Scripts/Player.cs:218 | Slot `i` places the type of ordinal `i`, which is never AIR. |
| Hotbar.SlotsMatchBlocks | Assets/Scripts/Player.cs:218-231 | Slots 1, 2, 3 place grass, stone, snow, and breaking a block credits the slot that places it again. |
| Hotbar.SelectSlot | Assets/Scripts/Player.cs:251-260 | The highest number key pressed wins and the slot stays in 1..3. No key leaves the player unchanged, and nothing but the slot ever changes. |
| Hotbar.OverlapsIsBoxIntersection | Assets/Scripts/Player.cs:285-297 | The boxes overlap exactly when the player's centre lies strictly inside the cell widened by 0.3 on x and z and by 0.9 on y. |
| Hotbar.IsPlayerInBlock | Assets/Scripts/Player.cs:285-297 | Returns true exactly when the player's box and the cell do not overlap. |
| Hotbar.PlaceBlock | Assets/Scripts/Player.cs:209-221 | Counts never go negative, the registry stays sound, and the slot, timer and looked-at block are untouched. |
| Hotbar.PlaceBlockBlockedKeepsGame | Assets/Scripts/Player.cs:209-221 | Without a hit, without blocks in the slot, or with the player in the way, player and world stay as they were. |
| Hotbar.PlaceBlockSpendsOne | Assets/Scripts/Player.cs:209-221 | A placement that goes ahead hands the slot's block to the world. It spends exactly one from the selected slot if the world completes, and none if the world throws. |
| Hotbar.PlaceIntoUnloadedChunkSpendsBlock | Assets/Scripts/Player.cs:218-219 | Placing toward an unregistered chunk changes no chunk but still spends one block. |
| Hotbar.PlaceThenLook | Assets/Scripts/Player.cs:218 | Placing into a loaded chunk at a height inside it makes the world report the slot's block there. |
| Hotbar.BreakBlock | Assets/Scripts/Player.cs:223-234 | With a hit the timer resets and the looked-at type's slot gains exactly one. The world then removes the target, and a world throw keeps the credit; looking at AIR throws before any credit. Without a hit nothing changes. |
| Hotbar.IndicatorBreakTime | Assets/Scripts/Player.cs:168-174 | The indicator's break-time table agrees with the world's for every type. |
| Hotbar.BlockBreakManager | Assets/Scripts/Player.cs:152-185 | Looking at AIR only resets the timer and never breaks. Otherwise the block breaks exactly when the timer reaches its break time. A throw only comes after the credit. |
| Hotbar.Hwyla | Assets/Scripts/Player.cs:236-249 | With a hit, the looked-at type is the world's block at the target and the target is remembered. A new target resets the timer. The world and inventory never change. |
| Hotbar.Mine | Assets/Scripts/Player.cs:91-101 | Releasing the button resets the timer and nothing else. Holding it keeps the selection in range and counts non-negative. |
| Hotbar.Frame | Assets/Scripts/Player.cs:84-103 | A frame of look, place, mine and slot selection keeps the slot in 1..3, every count non-negative, and the registry sound. |

## Left out

- Noise: FastNoiseLite sampling, the float multipliers, `Math.Pow` and the `(int)` truncation of their sum (`World.cs:143-151`) are the uninterpreted `Terrain` function. Only the base, the division and the clamp are modelled.
- Random seed and base offset: `Random.Range` in `World.Start` is replaced by a `Config` parameter.
- Grass colour: `World.GetColor` and the `Color32.Lerp` are float colour arithmetic through a singleton. A voxel's colour is the opaque `Tint` (grass carries its world column).
- Unity plumbing:
  - `Instantiate`, `RenderMesh`, `mesh.Clear`, `RecalculateNormals`;
  - colliders, trigger callbacks and `ActivateCollider`;
  - `SetActive`, which is the `active` flag of a registry entry.
- Mesh buffers after a throw: `Chunk.mesh` is the mesh uploaded to the renderer. After a throwing rebuild, the C# lists hold the faces appended before the throw. Nothing reads them before the next clear, so they are not modelled.
- `List` capacity pre-sizing (`Chunk.cs:37-42`) and the `playerPosition` field: performance and bookkeeping only.
- Float positions: world block positions are integers. The callers floor the raycast points before they reach the core, so the `(int)` casts in `Chunk.cs` are the identity on them. The observer position in `World.Update` is a real floored by `FloorDivReal`. Float rounding of large coordinates is not modelled.
- Rate gate: `World.Due` and `World.Interval` compute `last + 1 / chunksPerSecond` and compare with the clock in exact reals. The source uses float `Time.time` and `1f / chunksPerSecond`, and their rounding is not modelled.
- A chunk size of 0 or less (`ConfigOk`): a misconfiguration. With size 0, the float divisions `position.x / chunkSize` (`World.cs:210-211`, `228`, `242`, `273`) give infinities or NaN instead of chunk coordinates, and raise no exception. A negative size asks for negative array dimensions at `Chunk.cs:51` and `Chunk.cs:65`, which .NET rejects.
- CameraMovement.cs, and player movement, jumping, camera look, grounding and the spawn raycast in `Player.cs`: physics and input devices.
- Raycast, and the break and place indicators: the sprite index, UI colours and amount texts are left out. The raycast is one `Ray` input per frame. The source casts again inside `PlaceBlock`, `BreakBlock` and `BlockBreakManager`, and a block placed earlier in the same frame could change what those later casts hit.
