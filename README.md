# Voxel chunk pipeline, modelled in Dafny

This project models the per-chunk pipeline of a voxel engine. A world is cut
into chunks of 16×16×16 voxels. Each chunk keeps its voxels in one byte
buffer, with a 9-byte record per voxel: six visibility bytes (one per side),
a big-endian 16-bit type and a light byte whose low nibble is the normal light
and whose high nibble is the sunlight.

A chunk moves through a fixed sequence of stages: NONE, INITIALIZE, LOAD,
VISIBILITY, SUNLIGHT, LIGHTING, MERGE_FACES and DONE. It talks to its 26
neighbours only through messages, which the model collects in an outbox.
Each stage works as follows:

- INITIALIZE allocates the buffer.
- LOAD fills the columns below the terrain with voxels of type 1.
- VISIBILITY decides which faces can be seen. It asks the neighbour chunks
  about border voxels.
- SUNLIGHT floods sunlight straight down from the top of the world, chunk by
  chunk.
- LIGHTING samples the 26 neighbours of each voxel and averages them into
  per-vertex light, using the ambient-occlusion rule.

The greedy mesher (`FacesMerger`) sweeps each side of a chunk. It joins
visible faces of the same type into rectangles and hands them to the mesh
builder, which groups them by (type, side) and derives positions, normals,
indices and UVs.

Modules, following the source files:

| module | file | source |
|---|---|---|
| `Voxel` | voxel.dfy | record layout, side indices, masks (`Voxel.cs`) |
| `Vec3Math` | vec3.dfy | integer vectors, truncating `/` and `%`, voxel offset (`Vec3.cs`) |
| `ChunkDims` | chunk.dfy | `Chunk.SIZE` |
| `ChunkBuffers` | chunk_buffer.dfy | the byte buffer and the older cursor in `ChunkBuffer.cs` |
| `VoxRefs` | vox_ref.dfy | the voxel cursor (`VoxRef.cs`) and the record fields it reads and writes |
| `Messages` | messages.dfy | message kinds and the voxel-request answer (`Messages.cs`) |
| `StageCommon` | stage_common.dfy | shared data, base stage, neighbour cluster (`StageCommon.cs`) |
| `NeighbourAddress` | neighbour_address.dfy | which chunk and coordinate a voxel outside the chunk belongs to |
| `InitializeStages`, `LoadStages` | initialize_stage.dfy, load_stage.dfy | the two small stages |
| `VisibilityStages`, `SunlightStages`, `LightingStages` | visibility_stage.dfy, sunlight_stage.dfy, lighting_stage.dfy | the three scanning stages |
| `ChunkLight` | chunk_lighting.dfy | the lighting table and ambient occlusion (`ChunkLighting.cs`) |
| `StageSwitchers` | stage_switcher.dfy | the stage state machine (`ChunkStageSwitcher`) |
| `Chunks` | chunk_main.dfy | the chunk: message routing and voxel answers (`Chunk.cs`) |
| `SweepGeometry`, `FacesSpec`, `FacesMergers` | faces_sweep.dfy, faces_spec.dfy, faces_merger.dfy | the greedy mesher |
| `MeshBuilders` | mesh_builder.dfy | the mesh builder |
| `Wrappers` | wrappers.dfy | `Option` |

How the source is represented:

- Objects the source updates in place are classes with `modifies` frames:
  - the buffer, the cursors and the stages;
  - the shared data, whose outbox, voxel count and error count change;
  - the cluster and the switcher;
  - the merger, the mesh builder and the lighting table.
- Each loop is a `while` loop with invariants. Every method is proved against
  a specification function of the old state, for example:
  - the sunlight flood is proved against `InReach`;
  - the visibility answers are proved against `ApplyAnswers`;
  - the mesher is proved against `Tiling`.
- Bytes are `bv8` and the voxel type is `bv16`, so masks and shifts are the
  source's own.
- C#'s integer `/` and `%` truncate toward zero. They are modelled as
  `TruncDiv` and `TruncMod`.
- `controller.Post(m)` appends `m` to `SharedData.outbox`.
- `Debug.LogError` adds one to `SharedData.errors`.

## Model

All source paths are relative to the repository root.

| member | source | states |
|---|---|---|
| Voxel.AllSidesEnumeratesSides | Assets/Scripts/Engine/Voxel/Voxel.cs:11-31 | `ALL_SIDES` holds the six side indices FRONT..DOWN = 0..5, each exactly once. |
| Voxel.RecordLayout | Assets/Scripts/Engine/Voxel/Voxel.cs:35-52 | `BYTE_NUM` is 9 and exceeds `LAST_BYTE`; the side bytes lie below the two type bytes, and the light byte is the last byte of the record. |
| Voxel.MasksPartition | Assets/Scripts/Engine/Voxel/Voxel.cs:57-87 | The visibility and light masks are disjoint. The normal and sun nibbles are disjoint, cover the byte, and the sun nibble is the normal one shifted by `LIGHT_SUN_SHIFT`. `SUNLIGHT_MAX_VALUE` fills one nibble. |
| Vec3Math.TruncDiv | Assets/Scripts/Engine/Math/Vec3.cs:99-102 | The quotient's magnitude is the quotient of the magnitudes. A non-zero quotient is negative exactly when the operands' signs differ (C# rounds toward zero). |
| Vec3Math.TruncMod | Assets/Scripts/Engine/Math/Vec3.cs:104-107 | `a == TruncDiv(a, b) * b + r`, where `r` is smaller than `b` in magnitude and is never of the opposite sign to `a`. |
| Vec3Math.TruncatingRemainder | Assets/Scripts/Engine/Math/Vec3.cs:124-127 | `(-1, 16, 17) % 16 == (-1, 0, 1)` and `(-1, 16, 17) / 16 == (0, 1, 1)`, unlike Euclidean `%`, which gives 15 for -1. |
| Vec3Math.TruncModNonNegative | Assets/Scripts/Engine/Math/Vec3.cs:99-107 | On non-negative operands, truncating and Euclidean division agree. |
| Vec3Math.Eq | Assets/Scripts/Engine/Math/Vec3.cs:109-112 | `==` holds exactly when the components are equal. It is defined on two positions; a null operand, on which the source's operator throws, has no counterpart. |
| Vec3Math.NotEq | Assets/Scripts/Engine/Math/Vec3.cs:114-117 | `!=` is the negation of `==`. |
| Vec3Math.Equals | Assets/Scripts/Engine/Math/Vec3.cs:78-82 | `Equals` is false for null and agrees with `==` otherwise. |
| Vec3Math.Clone | Assets/Scripts/Engine/Math/Vec3.cs:68-71 | The clone is `==` to the original. |
| Vec3Math.AddSubInverse | Assets/Scripts/Engine/Math/Vec3.cs:84-92 | `+` and `-` undo each other, `+` commutes, and ZERO is its unit. |
| Vec3Math.ToVoxelOffset | Assets/Scripts/Engine/Math/Vec3.cs:63-66 | Inside the grid, `(x<<8)\|(y<<4)\|z` is `x*256 + y*16 + z`; with y up to 255 it still stays below 4096. |
| Vec3Math.FromVoxelOffset | Assets/Scripts/Engine/Math/Vec3.cs:63-66 | Unpacking any offset gives an in-grid voxel. |
| Vec3Math.VoxelOffsetBijection | Assets/Scripts/Engine/Math/Vec3.cs:63-66 | The voxel offset is a bijection between the 16³ grid and [0, 4096); packing and unpacking are mutually inverse. |
| Vec3Math.VoxelOffsetInjective | Assets/Scripts/Engine/Math/Vec3.cs:63-66 | Two in-grid voxels have the same offset exactly when they are equal. |
| Vec3Math.VoxelOffsetAliasing | Assets/Scripts/Engine/Math/Vec3.cs:63-66 | (10,11,12) packs to 2748. A y of 16 is OR-ed into x: (0,16,0) packs like (1,0,0). |
| Vec3Math.PackedInGrid | Assets/Scripts/Engine/Math/Vec3.cs:65 | The bitwise OR of the shifted coordinates equals their sum inside the grid. |
| Vec3Math.FaceDirectionsAreUnit | Assets/Scripts/Engine/Math/Vec3.cs:10-36 | `ALL_DIRECTIONS` has six unit vectors. |
| Vec3Math.FaceDirectionsOpposite | Assets/Scripts/Engine/Math/Vec3.cs:10-36 | FRONT/BACK, RIGHT/LEFT and TOP/DOWN are opposite directions. |
| Vec3Math.AllDirsEnumeratesNeighbours | Assets/Scripts/Engine/Voxel/Stages/ChunkLightingStage.cs:35-75 | `ALL_DIRS` lists each of the 26 neighbour offsets exactly once. |
| Vec3Math.AllDirsIndexed | Assets/Scripts/Engine/Voxel/Stages/ChunkLightingStage.cs:35-75 | `NeighbourIndex` finds each entry of `ALL_DIRS` back at its own index. |
| Vec3Math.AllDirsCover | Assets/Scripts/Engine/Voxel/Stages/ChunkLightingStage.cs:35-75 | Every neighbour offset sits in `ALL_DIRS` at its `NeighbourIndex`. |
| ChunkBuffers.BufferSizeAsWritten | Assets/Scripts/Engine/Voxel/ChunkBuffer.cs:64 | As written, `(SIZE ^ 3) * BYTE_NUM` is the XOR 19 times 9, i.e. 171. That is already reached by the record of (0,1,3). |
| ChunkBuffers.EveryRecordFits | Assets/Scripts/Engine/Voxel/ChunkBuffer.cs:64 | With the intended size 16³·9 = 36864, every in-grid voxel's record fits in the buffer. |
| ChunkBuffers.WriteShort | Assets/Scripts/Engine/Voxel/ChunkBuffer.cs:88-97 | Writing a short gives a buffer whose short at that index reads back the value, with every other byte unchanged. |
| ChunkBuffers.ReadShortBytes | Assets/Scripts/Engine/Voxel/ChunkBuffer.cs:94-97 | A short reads as high byte << 8 \| low byte. |
| ChunkBuffers.WriteShortOverwrites | Assets/Scripts/Engine/Voxel/ChunkBuffer.cs:88-92 | A second write of the same short replaces the first. |
| ChunkBuffers.WriteShortOfReadShort | Assets/Scripts/Engine/Voxel/ChunkBuffer.cs:88-97 | Writing back the short just read changes nothing. |
| ChunkBuffers.ChunkBuffer.constructor | Assets/Scripts/Engine/Voxel/ChunkBuffer.cs:66 | A new buffer has no byte array. |
| ChunkBuffers.ChunkBuffer.Allocate | Assets/Scripts/Engine/Voxel/ChunkBuffer.cs:68-71 | Corrected (Finding 3): Installs a fresh, zero-filled array of `BUFFER_SIZE` bytes. |
| ChunkBuffers.ChunkBuffer.Free | Assets/Scripts/Engine/Voxel/ChunkBuffer.cs:73-76 | Drops the array; every access then requires a new `Allocate`. |
| ChunkBuffers.ChunkBuffer.SetByte | Assets/Scripts/Engine/Voxel/ChunkBuffer.cs:78-81 | Byte `voxelOffset + data` becomes the value and no other byte changes. |
| ChunkBuffers.ChunkBuffer.GetByte | Assets/Scripts/Engine/Voxel/ChunkBuffer.cs:83-86 | Returns byte `voxelOffset + data`. |
| ChunkBuffers.ChunkBuffer.SetShort | Assets/Scripts/Engine/Voxel/ChunkBuffer.cs:88-92 | The buffer becomes `WriteShort` of the old buffer: the high byte goes at o+d, the low byte at o+d+1. |
| ChunkBuffers.ChunkBuffer.GetShort | Assets/Scripts/Engine/Voxel/ChunkBuffer.cs:94-97 | Returns the big-endian short at o+d. |
| ChunkBuffers.LegacyRecordsOverlap | Assets/Scripts/Engine/Voxel/ChunkBuffer.cs:34-37 | The older cursor's offset lacks `* BYTE_NUM`, so setting the type of (0,0,1) changes the type read at (0,0,0). |
| ChunkBuffers.LegacyVoxRef.WithPos | Assets/Scripts/Engine/Voxel/ChunkBuffer.cs:8-12 | Stores the buffer and the position; the offset stays 0. |
| ChunkBuffers.LegacyVoxRef.constructor | Assets/Scripts/Engine/Voxel/ChunkBuffer.cs:14-17 | Stores the buffer, with no position. |
| ChunkBuffers.LegacyVoxRef.Bind | Assets/Scripts/Engine/Voxel/ChunkBuffer.cs:19-22 | Rebinds the buffer and keeps position and offset. |
| ChunkBuffers.LegacyVoxRef.Target | Assets/Scripts/Engine/Voxel/ChunkBuffer.cs:24-32 | Sets the position and the offset `ToVoxelOffset(pos)`, without `BYTE_NUM`. |
| ChunkBuffers.LegacyVoxRef.UpdateOffset | Assets/Scripts/Engine/Voxel/ChunkBuffer.cs:34-37 | Recomputes the offset from the position, without `BYTE_NUM`. |
| ChunkBuffers.LegacyVoxRef.ZeroFill | Assets/Scripts/Engine/Voxel/ChunkBuffer.cs:44-48 | Zeroes exactly bytes offset..offset+8. |
| ChunkBuffers.LegacyVoxRef.SetType | Assets/Scripts/Engine/Voxel/ChunkBuffer.cs:50-53 | Writes the type short at offset + TYPE. |
| ChunkBuffers.LegacyVoxRef.GetType | Assets/Scripts/Engine/Voxel/ChunkBuffer.cs:55-58 | Reads the type short at offset + TYPE. |
| VoxRefs.VoxelIndexIsOffset | Assets/Scripts/Engine/Voxel/VoxRef.cs:33-36 | The row-major index of an in-grid voxel is its `ToVoxelOffset`. |
| VoxRefs.VoxelIndexInjective | Assets/Scripts/Engine/Voxel/VoxRef.cs:33-36 | Distinct voxels have distinct indices. |
| VoxRefs.RecordOffset | Assets/Scripts/Engine/Voxel/VoxRef.cs:35 | The record of an in-grid voxel, `offset * BYTE_NUM`, lies inside the buffer. |
| VoxRefs.VoxelAt | Assets/Scripts/Engine/Voxel/VoxRef.cs:33-36 | The voxel of an offset is in the grid and has that offset. |
| VoxRefs.OwnerOf | Assets/Scripts/Engine/Voxel/VoxRef.cs:33-36 | The owner of any buffer byte is an in-grid voxel. |
| VoxRefs.RecordByte | Assets/Scripts/Engine/Voxel/VoxRef.cs:33-36 | Field f of v's record is a buffer byte owned by v, at position f of the record. |
| VoxRefs.ByteOwner | Assets/Scripts/Engine/Voxel/VoxRef.cs:33-36 | Every buffer byte is field `k % BYTE_NUM` of its owner's record. |
| VoxRefs.RecordsDisjoint | Assets/Scripts/Engine/Voxel/VoxRef.cs:33-36 | Two voxel fields share a byte exactly when they are the same field of the same voxel, so records are disjoint. |
| VoxRefs.WithType | Assets/Scripts/Engine/Voxel/VoxRef.cs:56-59 | The type of v reads back as t, and only bytes TYPE and TYPE+1 of v's record change. |
| VoxRefs.WithVisible | Assets/Scripts/Engine/Voxel/Stages/ChunkVisibilityStage.cs:57 | The side's bit reads back as given, and only that side byte changes. |
| VoxRefs.VisibleByte | Assets/Scripts/Engine/Voxel/Voxel.cs:57 | Setting the visibility bit sets exactly `MASK_VISIBLE` and keeps the other bits. |
| VoxRefs.SunLightByte | Assets/Scripts/Engine/Voxel/Voxel.cs:72-82 | Setting sunlight writes the sun nibble and keeps the normal nibble. |
| VoxRefs.WithSunLight | Assets/Scripts/Engine/Voxel/Voxel.cs:72-87 | The sunlight reads back as the value's nibble, the normal light is kept, and only the light byte changes. |
| VoxRefs.WithTypeFrame | Assets/Scripts/Engine/Voxel/VoxRef.cs:56-59 | Setting a type keeps every other voxel's type, every visibility bit and every light byte. |
| VoxRefs.WithVisibleFrame | Assets/Scripts/Engine/Voxel/Voxel.cs:11-39 | Setting a visibility bit keeps every type, light byte and other bit. |
| VoxRefs.WithSunLightFrame | Assets/Scripts/Engine/Voxel/Voxel.cs:11-39 | Setting sunlight keeps every type, every visibility bit and the other voxels' light. |
| VoxRefs.TypeRoundTrip | Assets/Scripts/Engine/Voxel/VoxRef.cs:50-60 | A type written reads back; writing back the old type restores the buffer. |
| VoxRefs.ZeroBufferIsEmpty | Assets/Scripts/Engine/Voxel/ChunkBuffer.cs:68-71 | In a zero-filled buffer every voxel is empty, invisible and unlit. |
| VoxRefs.CubeCorners | Assets/Scripts/Engine/Voxel/VoxRef.cs:92-228 | V0..V7 are eight distinct corners of the unit cube at the voxel. V0..V3 lie on the face at z+1, and V(k+4) is Vk moved back to z. |
| VoxRefs.WithPosOffsetOnlyFitsOrigin | Assets/Scripts/Engine/Voxel/VoxRef.cs:7-11 | The offset 0 left by the two-argument constructor is the record of its position only at the origin. |
| VoxRefs.VoxRef.WithPos | Assets/Scripts/Engine/Voxel/VoxRef.cs:7-11 | As written: stores the buffer and the position; the offset stays 0. |
| VoxRefs.VoxRef.At | Assets/Scripts/Engine/Voxel/VoxRef.cs:7-11 | Corrected: the cursor is targeted at the position, so its offset is that position's record. |
| VoxRefs.VoxRef.constructor | Assets/Scripts/Engine/Voxel/VoxRef.cs:13-16 | Stores the buffer, with no position and offset 0. |
| VoxRefs.VoxRef.Bind | Assets/Scripts/Engine/Voxel/VoxRef.cs:18-21 | Rebinds the buffer and keeps position and offset. |
| VoxRefs.VoxRef.Target | Assets/Scripts/Engine/Voxel/VoxRef.cs:23-31 | The position becomes (x,y,z) and the offset `ToVoxelOffset * BYTE_NUM`; in the grid the cursor addresses that voxel's record. |
| VoxRefs.VoxRef.TryTarget | Assets/Scripts/Engine/Voxel/Stages/ChunkVisibilityStage.cs:54 | Succeeds exactly when every coordinate is in [0,16). It always moves the position, and on failure keeps the offset. |
| VoxRefs.VoxRef.UpdateOffset | Assets/Scripts/Engine/Voxel/VoxRef.cs:33-36 | The offset becomes the position's voxel offset times `BYTE_NUM`, within the buffer. |
| VoxRefs.VoxRef.ZeroFill | Assets/Scripts/Engine/Voxel/VoxRef.cs:43-47 | Zeroes exactly the `BYTE_NUM` bytes of the record and nothing else. |
| VoxRefs.VoxRef.GetType | Assets/Scripts/Engine/Voxel/VoxRef.cs:52-55 | Reads the short at offset + TYPE, which for a targeted cursor is the voxel's type. |
| VoxRefs.VoxRef.SetType | Assets/Scripts/Engine/Voxel/VoxRef.cs:56-59 | Writes the short at offset + TYPE, which for a targeted cursor sets the voxel's type and only it. |
| VoxRefs.VoxRef.IsEmpty | Assets/Scripts/Engine/Voxel/Stages/ChunkVisibilityStage.cs:47 | True exactly when the voxel's type is `VT_EMPTY`. |
| VoxRefs.VoxRef.IsVisible | Assets/Scripts/Engine/Voxel/FacesMerger.cs:65 | True exactly when the side byte has `MASK_VISIBLE` set. |
| VoxRefs.VoxRef.SetVisible | Assets/Scripts/Engine/Voxel/Stages/ChunkVisibilityStage.cs:57 | The buffer becomes `WithVisible` of the old one. |
| VoxRefs.VoxRef.GetLight | Assets/Scripts/Engine/Voxel/Stages/ChunkLightingStage.cs:134 | Returns the voxel's light byte. |
| VoxRefs.VoxRef.SetSunLight | Assets/Scripts/Engine/Voxel/Stages/ChunkSunlightStage.cs:28 | The buffer becomes `WithSunLight` of the old one. |
| VoxRefs.VoxRef.Snapshot | Assets/Scripts/Engine/Voxel/Chunk.cs:58 | The snapshot holds the voxel's type and light. |
| Messages.Respond | Assets/Scripts/Engine/Voxel/Messages.cs:51-60 | The answer to a request travels back: its pos is the request's target, its target the request's pos, and its action is RES_VOX. |
| Messages.EntryFor | Assets/Scripts/Engine/Voxel/Chunk.cs:57-60 | The entry names the coordinate asked. It has a snapshot exactly when the coordinate is in the chunk, and the snapshot holds that voxel's type and light. |
| Messages.EntriesFor | Assets/Scripts/Engine/Voxel/Chunk.cs:55-61 | One entry per coordinate asked, in order. |
| Messages.AnswerFor | Assets/Scripts/Engine/Voxel/Chunk.cs:48-62 | The answer has no list exactly when the chunk holds no voxel. |
| Messages.ActionsOfKinds | Assets/Scripts/Engine/Voxel/Messages.cs:14-60 | In a well-typed message the action determines the message kind, so each cast the receivers make yields an object. |
| StageCommon.SharedData.constructor | Assets/Scripts/Engine/Voxel/Stages/StageCommon.cs:147-152 | Stores buffer and position; no voxel, nothing posted and no error yet. |
| StageCommon.SharedData.Post | Assets/Scripts/Engine/Voxel/Stages/StageCommon.cs:145 | The message is appended to the outbox and nothing else changes. |
| StageCommon.SharedData.LogError | Assets/Scripts/Engine/Voxel/Stages/StageCommon.cs:108 | One more error and nothing else changes. |
| StageCommon.BaseStage.constructor | Assets/Scripts/Engine/Voxel/Stages/StageCommon.cs:79-85 | Stores the tag and the shared data; the stage is neither finished nor done. |
| StageCommon.BaseStage.Finish | Assets/Scripts/Engine/Voxel/Stages/StageCommon.cs:104-114 | The stage is finished afterwards and `done` is unchanged. Finishing again logs one error. |
| StageCommon.BaseStage.Done | Assets/Scripts/Engine/Voxel/Stages/StageCommon.cs:116-120 | Finishes the stage, with the same error on a second finish, and marks it done. |
| StageCommon.BaseStage.Unexpected | Assets/Scripts/Engine/Voxel/Stages/StageCommon.cs:101 | An unexpected message logs one error and changes nothing else. |
| StageCommon.BaseStage.StartNone | Assets/Scripts/Engine/Voxel/Stages/StageCommon.cs:128-132 | The NONE stage finishes on start. |
| StageCommon.BaseStage.StartDone | Assets/Scripts/Engine/Voxel/Stages/StageCommon.cs:134-138 | The DONE stage is done on start. |
| StageCommon.ChunkCluster.constructor | Assets/Scripts/Engine/Voxel/Stages/StageCommon.cs:10-14 | 26 neighbour slots, all NONE. |
| StageCommon.ChunkCluster.Find | Assets/Scripts/Engine/Voxel/Stages/StageCommon.cs:16-30 | Returns -1 exactly when `(neighbour - pos) / SIZE` is not a neighbour offset. Otherwise it returns that offset's index in `ALL_DIRS`. |
| StageCommon.ChunkCluster.UpdateStage | Assets/Scripts/Engine/Voxel/Stages/StageCommon.cs:32-35 | Only the slot of the neighbour's direction changes, and it takes the new stage. |
| StageCommon.ChunkCluster.CanChangeStage | Assets/Scripts/Engine/Voxel/Stages/StageCommon.cs:37-50 | True exactly when every slot is NONE or at least `current`. |
| StageCommon.AnnouncementSlot | Assets/Scripts/Engine/Voxel/Stages/StageCommon.cs:16-25 | A chunk at `pos + ALL_DIRS[i] * SIZE` lands in slot i of the cluster at pos. |
| StageCommon.GateMonotone | Assets/Scripts/Engine/Voxel/Stages/StageCommon.cs:37-50 | A gate that lets a stage pass also lets every lower stage pass. |
| StageCommon.Without | Assets/Scripts/Engine/Voxel/Stages/ChunkVisibilityStage.cs:117 | The dictionary's enumeration order after `Remove(key)` holds exactly the other keys. |
| StageCommon.WithoutDistinct | Assets/Scripts/Engine/Voxel/Stages/ChunkVisibilityStage.cs:117 | Removing a key keeps the enumeration order free of repetitions. |
| NeighbourAddress.RequestAsWritten | Assets/Scripts/Engine/Voxel/Stages/ChunkLightingStage.cs:138-139 | As written, the request goes to `pos + dir * SIZE` for the coordinate `p % SIZE` with truncating `%`, so a -1 coordinate stays -1. |
| NeighbourAddress.NeighbourCoord | Assets/Scripts/Engine/Voxel/Stages/ChunkVisibilityStage.cs:62 | Corrected: the coordinate inside the owning chunk is always in the grid. |
| NeighbourAddress.AddressIsExact | Assets/Scripts/Engine/Voxel/Stages/ChunkVisibilityStage.cs:61-62 | The owning chunk plus the corrected coordinate is the original point. The owner is the chunk itself exactly when the point is inside it. |
| NeighbourAddress.FaceStepAgrees | Assets/Scripts/Engine/Voxel/Stages/ChunkVisibilityStage.cs:61-62 | For a face step the as-written chunk key is right, and so is the coordinate for FRONT, RIGHT and TOP. Only the steps to negative coordinates are off. |
| NeighbourAddress.TruncatedCoordinateLeavesChunk | Assets/Scripts/Engine/Voxel/Stages/ChunkVisibilityStage.cs:62 | Stepping LEFT from (0,5,3) asks chunk (-16,0,0) for (-1,5,3), which lies outside every chunk. The intended coordinate is (15,5,3). |
| NeighbourAddress.DiagonalRequestMissesOwner | Assets/Scripts/Engine/Voxel/Stages/ChunkLightingStage.cs:138 | Stepping diagonally (1,1,0) from (15,5,3) is keyed to chunk (16,16,0), although (16,6,3) belongs to chunk (16,0,0). |
| InitializeStages.ChunkInitializeStage.constructor | Assets/Scripts/Engine/Voxel/Stages/ChunkInitializeStage.cs:5 | The stage tag is INITIALIZE; not finished, not done. |
| InitializeStages.ChunkInitializeStage.OnStart | Assets/Scripts/Engine/Voxel/Stages/ChunkInitializeStage.cs:7-11 | Allocates a zero-filled buffer and finishes. It posts nothing and leaves the voxel count and `done` unchanged. |
| LoadStages.ColumnFill | Assets/Scripts/Engine/Voxel/ChunkStages/ChunkLoadStage.cs:17-26 | A column fills between 0 and SIZE voxels. It fills none exactly when the terrain is at or below the chunk's floor, and all exactly when the terrain reaches the chunk's top. |
| LoadStages.FilledCount | Assets/Scripts/Engine/Voxel/ChunkStages/ChunkLoadStage.cs:12-28 | The whole chunk fills between 0 and 4096 voxels. |
| LoadStages.SolidIsColumnFill | Assets/Scripts/Engine/Voxel/ChunkStages/ChunkLoadStage.cs:19 | A voxel is below the terrain exactly when it lies in the filled part of its column. |
| LoadStages.LoadedChunkIsEmptyIff | Assets/Scripts/Engine/Voxel/ChunkStages/ChunkLoadStage.cs:19-25 | Corrected (Finding 7): After loading an empty buffer, a voxel is non-empty exactly when it is below the terrain. The count is 0 exactly when the chunk stays empty. |
| LoadStages.ColumnTargetsAsWritten | Assets/Scripts/Engine/Voxel/ChunkStages/ChunkLoadStage.cs:19-21 | As written, the y loop targets (x, y, z) for every world height below the terrain, with no `y < SIZE` bound. |
| LoadStages.TallColumnSpillsIntoNextColumn | Assets/Scripts/Engine/Voxel/ChunkStages/ChunkLoadStage.cs:19 | A 17-high column makes 17 writes. The 17th, at (0,16,0), lands on the record of (1,0,0), while the corrected fill stops at 16. |
| LoadStages.ChunkLoadStage.constructor | Assets/Scripts/Engine/Voxel/ChunkStages/ChunkLoadStage.cs:5 | The stage tag is LOAD; not finished, not done. |
| LoadStages.ChunkLoadStage.LoadColumn | Assets/Scripts/Engine/Voxel/ChunkStages/ChunkLoadStage.cs:17-26 | Corrected (Finding 7): Type 1 is written from the floor up to the terrain, stopping at the chunk's top, and the count grows by that many. |
| LoadStages.ChunkLoadStage.LoadRow | Assets/Scripts/Engine/Voxel/ChunkStages/ChunkLoadStage.cs:15-27 | Corrected (Finding 7): Loads the 16 columns of a row, and the count grows by their fill. |
| LoadStages.ChunkLoadStage.OnStart | Assets/Scripts/Engine/Voxel/ChunkStages/ChunkLoadStage.cs:7-31 | Corrected (Finding 7): Every voxel below the terrain becomes type 1 and every other voxel keeps its type. The count grows by exactly the voxels written. The stage finishes and posts nothing. |
| VisibilityStages.Coordinates | Assets/Scripts/Engine/Voxel/Stages/ChunkVisibilityStage.cs:102-103 | The request lists each filed neighbour coordinate, in filing order. |
| VisibilityStages.RequestMessages | Assets/Scripts/Engine/Voxel/Stages/ChunkVisibilityStage.cs:98-106 | One request per target chunk, in enumeration order. |
| VisibilityStages.KeysDistinct | Assets/Scripts/Engine/Voxel/Stages/ChunkVisibilityStage.cs:61 | The six sides address six different neighbour chunks. |
| VisibilityStages.WithVisibleKeeps | Assets/Scripts/Engine/Voxel/Stages/ChunkVisibilityStage.cs:57 | Setting one face's bit keeps every type, light byte and other face. |
| VisibilityStages.FirstMatch | Assets/Scripts/Engine/Voxel/Stages/ChunkVisibilityStage.cs:138 | `List.Find`: the first request for the coordinate, or -1 when none asks for it. |
| VisibilityStages.MarkAllSettles | Assets/Scripts/Engine/Voxel/Stages/ChunkVisibilityStage.cs:125-133 | A missing neighbour makes exactly the requested faces visible and touches nothing else. |
| VisibilityStages.AnswersSettle | Assets/Scripts/Engine/Voxel/Stages/ChunkVisibilityStage.cs:136-141 | Each requested face becomes visible exactly when its snapshot is missing or empty. |
| VisibilityStages.AnswersFrame | Assets/Scripts/Engine/Voxel/Stages/ChunkVisibilityStage.cs:136-141 | Faces not asked about keep their bits. |
| VisibilityStages.AnswersKeepContents | Assets/Scripts/Engine/Voxel/Stages/ChunkVisibilityStage.cs:130-141 | Answers only write visibility bits; no type or light changes. |
| VisibilityStages.ListsDistinct | Assets/Scripts/Engine/Voxel/Stages/ChunkVisibilityStage.cs:87-96 | Every filed list names each face once and each neighbour coordinate once. |
| VisibilityStages.AnswerSettlesRequests | Assets/Scripts/Engine/Voxel/Stages/ChunkVisibilityStage.cs:136-141 | The neighbour's answer to a filed list sets every requested face from its own neighbour's snapshot, and nothing else. |
| VisibilityStages.AliasedAsWritten | Assets/Scripts/Engine/Voxel/VoxRef.cs:23-41 | As written, once the scan is over every filed request names the last voxel scanned, (15,15,15), with its neighbour and side kept. |
| VisibilityStages.AnswersTouchOnlyRequested | Assets/Scripts/Engine/Voxel/Stages/ChunkVisibilityStage.cs:136-141 | An answer writes only faces its list requests, whatever the list. |
| VisibilityStages.AliasedAnswerMissesRequester | Assets/Scripts/Engine/Voxel/Stages/ChunkVisibilityStage.cs:128-141 | As written, neither a missing neighbour nor a listed answer sets the face of a requester other than (15,15,15); the corrected lists set it. |
| VisibilityStages.CoordinateDetermines | Assets/Scripts/Engine/Voxel/Stages/ChunkVisibilityStage.cs:62 | Within one neighbour chunk, the in-chunk coordinate determines the neighbour voxel. |
| VisibilityStages.ChunkVisibilityStage.constructor | Assets/Scripts/Engine/Voxel/Stages/ChunkVisibilityStage.cs:21-25 | Empty request table; not finished. |
| VisibilityStages.ChunkVisibilityStage.AddRequestChunkVoxel | Assets/Scripts/Engine/Voxel/Stages/ChunkVisibilityStage.cs:87-96 | Corrected (Finding 8): The request joins the end of its chunk's list. A new chunk is added to the table last. |
| VisibilityStages.ChunkVisibilityStage.SendRequest | Assets/Scripts/Engine/Voxel/Stages/ChunkVisibilityStage.cs:98-106 | Posts exactly `RequestMessages` of the table. |
| VisibilityStages.ChunkVisibilityStage.ScanFace | Assets/Scripts/Engine/Voxel/Stages/ChunkVisibilityStage.cs:50-65 | Corrected (Findings 1 and 8): With the neighbour in the chunk, the face is visible exactly when that neighbour is empty. Otherwise the face is filed under the neighbour chunk. |
| VisibilityStages.ChunkVisibilityStage.ScanVoxel | Assets/Scripts/Engine/Voxel/Stages/ChunkVisibilityStage.cs:50-66 | Corrected (Findings 1 and 8): The six faces of a voxel are decided or filed, in side order. |
| VisibilityStages.ChunkVisibilityStage.ScanAt | Assets/Scripts/Engine/Voxel/Stages/ChunkVisibilityStage.cs:45-66 | Corrected (Findings 1 and 8): Empty voxels are skipped, and a non-empty voxel's faces are scanned. |
| VisibilityStages.ChunkVisibilityStage.Scan | Assets/Scripts/Engine/Voxel/Stages/ChunkVisibilityStage.cs:39-69 | Corrected (Findings 1 and 8): After the scan every face is decided or filed, and only visibility bits have changed. |
| VisibilityStages.ChunkVisibilityStage.OnStart | Assets/Scripts/Engine/Voxel/Stages/ChunkVisibilityStage.cs:27-72 | Corrected (Findings 1 and 8): An empty chunk finishes at once, with no request. Otherwise every inner face is decided, every border face is filed, the requests are posted, and the stage does not finish. |
| VisibilityStages.ChunkVisibilityStage.MarkFaces | Assets/Scripts/Engine/Voxel/Stages/ChunkVisibilityStage.cs:128-132 | Corrected (Finding 8): The buffer becomes `MarkAll`: every face of the list is visible. |
| VisibilityStages.ChunkVisibilityStage.SettleAnswers | Assets/Scripts/Engine/Voxel/Stages/ChunkVisibilityStage.cs:136-141 | Corrected (Finding 8): The buffer becomes `ApplyAnswers` of the entries. |
| VisibilityStages.ChunkVisibilityStage.ChunkVoxelRes | Assets/Scripts/Engine/Voxel/Stages/ChunkVisibilityStage.cs:108-148 | Corrected (Finding 8): An untracked answer logs one error and changes nothing. Otherwise the chunk leaves the table and its faces are settled. The stage finishes exactly when the table becomes empty. |
| VisibilityStages.ChunkVisibilityStage.Dispatch | Assets/Scripts/Engine/Voxel/Stages/ChunkVisibilityStage.cs:74-85 | Corrected (Finding 8). `Handled`: an answer for a tracked chunk drops the chunk from the table and leaves the buffer as `MarkAll` (null list) or `ApplyAnswers` makes it. The stage finishes exactly when the table empties, logging only if it had finished already. An answer for an untracked chunk, or any other message, logs one error and changes nothing else. |
| SunlightStages.ReachIsColumn | Assets/Scripts/Engine/Voxel/Stages/ChunkSunlightStage.cs:66-75 | Light from p reaches r exactly when r is below p in its column and the stretch between them is open. |
| SunlightStages.NextLighter | Assets/Scripts/Engine/Voxel/Stages/ChunkSunlightStage.cs:66-81 | Every step lowers the queue's weight, so the loop terminates. |
| SunlightStages.SunLightKeeps | Assets/Scripts/Engine/Voxel/Stages/ChunkSunlightStage.cs:72 | Writing sunlight keeps every type, visibility bit, normal light and other voxel's light. |
| SunlightStages.EndMessagesTargets | Assets/Scripts/Engine/Voxel/Stages/ChunkSunlightStage.cs:87-90 | END messages go exactly to the chunks of the column from y down to the bound, a chunk apart. |
| SunlightStages.EndBoundAsWrittenSkipsChunks | Assets/Scripts/Engine/Voxel/Stages/ChunkSunlightStage.cs:87 | With the bottom bound at chunk -2, the as-written bound sends no END to the chunk at y = -16. The corrected bound does. |
| SunlightStages.EndReachesEveryChunkBelow | Assets/Scripts/Engine/Voxel/Stages/ChunkSunlightStage.cs:85-91 | With the bound in chunk units, every chunk below, down to the bottom bound, gets an END message. |
| SunlightStages.SkyLight | Assets/Scripts/Engine/Voxel/Stages/ChunkSunlightStage.cs:15-35 | In the top chunk, light reaches exactly the empty voxels with nothing but empty voxels above them. |
| SunlightStages.FloorOpen | Assets/Scripts/Engine/Voxel/Stages/ChunkSunlightStage.cs:76-80 | Light leaves the top chunk through exactly the columns that are empty all the way down. |
| SunlightStages.SeedsAre | Assets/Scripts/Engine/Voxel/Stages/ChunkSunlightStage.cs:20-32 | A voxel is a seed exactly when it lies just below an empty voxel of the top row. |
| SunlightStages.ChunkSunlightStage.constructor | Assets/Scripts/Engine/Voxel/Stages/ChunkSunlightStage.cs:8-11 | Empty queue; not finished. |
| SunlightStages.ChunkSunlightStage.Step | Assets/Scripts/Engine/Voxel/Stages/ChunkSunlightStage.cs:68-80 | An empty in-chunk head gets full sunlight and queues the voxel below. An out-of-chunk head yields (x, SIZE-1, z) for the chunk below. |
| SunlightStages.ChunkSunlightStage.DrainQueue | Assets/Scripts/Engine/Voxel/Stages/ChunkSunlightStage.cs:63-81 | The queue empties. Exactly the empty voxels in reach get full sunlight, and only sunlight changes. The result is `Bottoms` of the queue: one entry, in loop order, each time the head leaves through the floor. So its members are exactly the columns where light leaves the chunk. |
| SunlightStages.BottomsAreExits | Assets/Scripts/Engine/Voxel/Stages/ChunkSunlightStage.cs:63-81 | A column is in the list the loop hands on exactly when light in reach of the queue leaves the chunk through its floor. |
| SunlightStages.ChunkSunlightStage.Announce | Assets/Scripts/Engine/Voxel/Stages/ChunkSunlightStage.cs:85-95 | Corrected (Finding 5): With no continuation, an END goes to every chunk below. Otherwise one SUNLIGHT_PROP message goes to the chunk below. |
| SunlightStages.ChunkSunlightStage.PropagateSunlight | Assets/Scripts/Engine/Voxel/Stages/ChunkSunlightStage.cs:61-98 | Corrected (Finding 5): Drains the queue as `DrainQueue` does, posts `Announced` for the returned list, and always finishes. A second finish logs an error. |
| SunlightStages.ChunkSunlightStage.SeedTopRow | Assets/Scripts/Engine/Voxel/Stages/ChunkSunlightStage.cs:19-32 | Each empty top-row voxel gets full sunlight, and the voxel below it is queued. |
| SunlightStages.ChunkSunlightStage.OnStart | Assets/Scripts/Engine/Voxel/Stages/ChunkSunlightStage.cs:13-36 | Corrected (Finding 5): A chunk below the top changes nothing. The top chunk lights exactly the voxels under open sky, passes the open columns down, and finishes. |
| SunlightStages.ChunkSunlightStage.AddToPropagationQueue | Assets/Scripts/Engine/Voxel/Stages/ChunkSunlightStage.cs:54-59 | Corrected (Finding 5): The handed-down voxels join the queue. The queue is drained with the lights and the `Bottoms` list of `DrainQueue`, the list is announced, and the stage finishes. |
| SunlightStages.ChunkSunlightStage.Dispatch | Assets/Scripts/Engine/Voxel/Stages/ChunkSunlightStage.cs:38-52 | Corrected (Finding 5). `Handled`: SUNLIGHT_PROP lights exactly the empty voxels in reach of the old queue plus the voxels, empties the queue, posts `Announced` of their `Bottoms` and finishes. SUNLIGHT_PROP_END only finishes. Anything else logs one error and changes nothing else. |
| ChunkLight.ParseValueRange | Assets/Scripts/Engine/Voxel/ChunkLighting.cs:258-262 | A parsed sample is below 255, and it is 0 exactly for 0 and for the invalid marker. |
| ChunkLight.AmbientOcclusionBounds | Assets/Scripts/Engine/Voxel/ChunkLighting.cs:243-256 | The vertex light lies between 0 and any bound on its four parsed inputs. |
| ChunkLight.AmbientOcclusionCalibrated | Assets/Scripts/Engine/Voxel/ChunkLighting.cs:243-256 | Even light stays unchanged, and an invalid sample weighs like a dark one. |
| ChunkLight.AmbientOcclusionEdges | Assets/Scripts/Engine/Voxel/ChunkLighting.cs:249-255 | The two edges are symmetric. When both are dark the corner does not count, and the result is a quarter of the face light. |
| ChunkLight.CalcVoxel | Assets/Scripts/Engine/Voxel/ChunkLighting.cs:160-166 | `Calc` on a voxel gives its light byte when the side is visible, and 255 otherwise. |
| ChunkLight.SamplesAgree | Assets/Scripts/Engine/Voxel/ChunkLighting.cs:160-174 | `Calc` on a snapshot agrees with `Calc` on the voxel. A hidden side is 255, and a missing snapshot on a visible side is `SUNLIGHT_MAX_VALUE`. |
| ChunkLight.FacesHaveReachOne | Assets/Scripts/Engine/Voxel/ChunkLighting.cs:20-146 | A neighbour offset is a face direction exactly when it has one non-zero component. |
| ChunkLight.CornersDirAreEdgesAndCorners | Assets/Scripts/Engine/Voxel/ChunkLighting.cs:20-146 | `CORNERS_DIR` has 20 neighbour offsets over {-1,0,1}, each with at least two non-zero components. |
| ChunkLight.CornersDirIndexed | Assets/Scripts/Engine/Voxel/ChunkLighting.cs:20-146 | The entries of `CORNERS_DIR` are pairwise distinct. |
| ChunkLight.CornersDirCover | Assets/Scripts/Engine/Voxel/ChunkLighting.cs:20-146 | Every edge and corner offset appears in `CORNERS_DIR`. |
| ChunkLight.CornersDirKeepsOrder | Assets/Scripts/Engine/Voxel/ChunkLighting.cs:20-146 | `CORNERS_DIR` keeps the order of `ALL_DIRS`. |
| ChunkLight.CornerAt | Assets/Scripts/Engine/Voxel/ChunkLighting.cs:148-156 | Every `CORNERS` entry is below 20. |
| ChunkLight.CornerSamplesInFront | Assets/Scripts/Engine/Voxel/ChunkLighting.cs:148-156 | The three samples of each vertex lie in the layer in front of their side (z = +1 for FRONT, y = +1 for TOP, and so on). |
| ChunkLight.CornerIsEdgeSum | Assets/Scripts/Engine/Voxel/ChunkLighting.cs:148-156 | At each vertex, the corner sample is the sum of the two edge samples minus the side's direction. |
| ChunkLight.SmoothedCell | Assets/Scripts/Engine/Voxel/ChunkLighting.cs:204-223 | Smoothing drops both inputs and gives a side four vertex lights exactly when its light is valid, each within [0, 254]. |
| ChunkLight.ChunkLighting.constructor | Assets/Scripts/Engine/Voxel/ChunkLighting.cs:176-179 | 4096 empty cells. |
| ChunkLight.ChunkLighting.SetSidesLightign | Assets/Scripts/Engine/Voxel/ChunkLighting.cs:181-184 | The cell starts afresh with its side lights. |
| ChunkLight.ChunkLighting.SetNeighborLighting | Assets/Scripts/Engine/Voxel/ChunkLighting.cs:186-189 | On a set cell only its neighbour samples change. On a cell never set, where the source throws, it reports failure and changes nothing. |
| ChunkLight.ChunkLighting.SmoothSide | Assets/Scripts/Engine/Voxel/ChunkLighting.cs:211-216 | Gives the four vertex lights of a side. |
| ChunkLight.ChunkLighting.SmoothCell | Assets/Scripts/Engine/Voxel/ChunkLighting.cs:199-223 | Turns one cell into its `Smoothed` form. |
| ChunkLight.FirstUnready | Assets/Scripts/Engine/Voxel/ChunkLighting.cs:199-215 | The first set cell the smoothing cannot read, with every set cell before it readable; none when all are. |
| ChunkLight.ChunkLighting.ComputeSmoothLighting | Assets/Scripts/Engine/Voxel/ChunkLighting.cs:191-227 | It succeeds exactly when every set cell is readable; then each set cell is smoothed and each empty cell is left alone. Where the source throws, the cells before the first unreadable one are smoothed and those after it are untouched. |
| LightingStages.IndexOf | Assets/Scripts/Engine/Voxel/Stages/ChunkLightingStage.cs:121 | `Array.IndexOf` returns the first position of x, or -1 exactly when x is absent. |
| LightingStages.SidesAreFaceSlots | Assets/Scripts/Engine/Voxel/Stages/ChunkLightingStage.cs:85 | `SIDES[side]` is the `ALL_DIRS` slot of that side's direction, and `IndexOf` finds the side back. |
| LightingStages.FaceSlotsAreSides | Assets/Scripts/Engine/Voxel/Stages/ChunkLightingStage.cs:115-121 | A slot's direction is a unit one exactly when the slot is in `SIDES`. |
| LightingStages.FaceSide | Assets/Scripts/Engine/Voxel/Stages/ChunkLightingStage.cs:119-121 | -1 exactly for edge and corner slots; for a face slot, its side. |
| LightingStages.TablesAgree | Assets/Scripts/Engine/Voxel/Stages/ChunkLightingStage.cs:76-85 | The stage's `CORNERS` table names the same neighbours as the older `ChunkLighting` table, re-indexed into the 26 slots. |
| LightingStages.LightSidesShape | Assets/Scripts/Engine/Voxel/Stages/ChunkLightingStage.cs:242-256 | A voxel has six side entries. A side has four vertex lights exactly when its face slot is valid, each within [0, 254]. |
| LightingStages.LightSidesMatchTable | Assets/Scripts/Engine/Voxel/Stages/ChunkLightingStage.cs:225-266 | The stage computes the same vertex lights as `ChunkLighting` fed with the same samples. |
| LightingStages.ScanSamples | Assets/Scripts/Engine/Voxel/Stages/ChunkLightingStage.cs:112-142 | A voxel has 26 samples. |
| LightingStages.ScannedCells | Assets/Scripts/Engine/Voxel/Stages/ChunkLightingStage.cs:100-147 | Corrected (Findings 1-2): There is one cell per voxel: the samples of a non-empty voxel, or nothing for an empty one. |
| LightingStages.Coordinates | Assets/Scripts/Engine/Voxel/Stages/ChunkLightingStage.cs:183-184 | The request lists each filed coordinate, in filing order. |
| LightingStages.RequestMessages | Assets/Scripts/Engine/Voxel/Stages/ChunkLightingStage.cs:179-187 | One request per target chunk, in enumeration order. |
| LightingStages.AnswerSettlesRequests | Assets/Scripts/Engine/Voxel/Stages/ChunkLightingStage.cs:200-216 | After the neighbour's answer, each asked slot holds that neighbour's light, or 255 when the neighbour is empty. Other slots are unchanged. |
| LightingStages.AnswerListsAskedCoordinates | Assets/Scripts/Engine/Voxel/Stages/ChunkLightingStage.cs:210-212 | Every coordinate of the answer was asked for, so `Find` never returns null. |
| LightingStages.SmoothDescribesCells | Assets/Scripts/Engine/Voxel/Stages/ChunkLightingStage.cs:236-258 | Each output entry describes a scanned cell, with the lights its samples give. |
| LightingStages.SmoothInOffsetOrder | Assets/Scripts/Engine/Voxel/Stages/ChunkLightingStage.cs:230-264 | The output is in offset order, so no voxel appears twice. |
| LightingStages.SmoothListsEveryCell | Assets/Scripts/Engine/Voxel/Stages/ChunkLightingStage.cs:236-258 | Every scanned cell has its entry. |
| LightingStages.InteriorChunkIsQuiet | Assets/Scripts/Engine/Voxel/Stages/ChunkLightingStage.cs:132-141 | A chunk whose voxels all stay off the border asks nothing of other chunks. |
| LightingStages.ChunkLightingStage.constructor | Assets/Scripts/Engine/Voxel/Stages/ChunkLightingStage.cs:90-93 | No request, no output, all cells empty. |
| LightingStages.ChunkLightingStage.AddRequestChunkVoxel | Assets/Scripts/Engine/Voxel/Stages/ChunkLightingStage.cs:168-177 | The request joins the end of its chunk's list; a new chunk is added last. |
| LightingStages.ChunkLightingStage.SendRequest | Assets/Scripts/Engine/Voxel/Stages/ChunkLightingStage.cs:179-187 | Posts exactly `RequestMessages` of the table. |
| LightingStages.ChunkLightingStage.ScanSlot | Assets/Scripts/Engine/Voxel/Stages/ChunkLightingStage.cs:116-141 | Corrected (Findings 1-2): A hidden face gives 255 without a lookup. An in-chunk neighbour gives 255 if it is empty and its light otherwise. An outside neighbour is filed under its chunk. |
| LightingStages.ChunkLightingStage.SampleVoxel | Assets/Scripts/Engine/Voxel/Stages/ChunkLightingStage.cs:112-142 | Corrected (Findings 1-2): Gives the 26 samples of a voxel, in slot order. |
| LightingStages.ChunkLightingStage.Scan | Assets/Scripts/Engine/Voxel/Stages/ChunkLightingStage.cs:100-147 | Corrected (Findings 1-2): The cells become `ScannedCells` of the buffer, and every pending slot is filed. |
| LightingStages.ChunkLightingStage.ComputeSmoothLighting | Assets/Scripts/Engine/Voxel/Stages/ChunkLightingStage.cs:225-267 | The output lists the smoothed lights of the scanned cells, in offset order, and every cell is cleared. |
| LightingStages.ChunkLightingStage.FillInvalid | Assets/Scripts/Engine/Voxel/Stages/ChunkLightingStage.cs:203-206 | Every slot of the list becomes 255. |
| LightingStages.ChunkLightingStage.FillMatchingSlots | Assets/Scripts/Engine/Voxel/Stages/ChunkLightingStage.cs:212-214 | The slots asking for the entry's coordinate take its light. |
| LightingStages.ChunkLightingStage.SettleAnswers | Assets/Scripts/Engine/Voxel/Stages/ChunkLightingStage.cs:210-215 | The cells become `ApplyEntries` of the answer. |
| LightingStages.ChunkLightingStage.ChunkVoxelRes | Assets/Scripts/Engine/Voxel/Stages/ChunkLightingStage.cs:189-223 | An untracked answer changes nothing. Otherwise the chunk leaves the table and its slots are filled. When the table empties, the output is computed and the stage finishes. |
| LightingStages.ChunkLightingStage.Dispatch | Assets/Scripts/Engine/Voxel/Stages/ChunkLightingStage.cs:155-166 | `Handled`: an answer for a tracked chunk drops it from the table and fills its slots as `Answered` says. With the last answer the output becomes the smoothing of the filled cells, the cells are cleared and the stage finishes. Otherwise the cells and output are kept. An untracked answer changes nothing. Any other message logs one error and changes nothing else. |
| LightingStages.ChunkLightingStage.OnStartAsWritten | Assets/Scripts/Engine/Voxel/Stages/ChunkLightingStage.cs:95-153 | As written, a chunk that needs no answer finishes with no output. |
| LightingStages.InteriorChunkHasLights | Assets/Scripts/Engine/Voxel/Stages/ChunkLightingStage.cs:149-152 | A chunk whose non-empty voxels all lie off the border asks nothing, yet the output should list every one of its voxels. |
| LightingStages.ChunkLightingStage.OnStart | Assets/Scripts/Engine/Voxel/Stages/ChunkLightingStage.cs:95-153 | Corrected (Finding 6): Requests are posted when there are any. A quiet chunk computes its output from the scanned cells and finishes. |
| StageSwitchers.BroadcastIsRecordable | Assets/Scripts/Engine/Voxel/Stages/StageCommon.cs:253-263 | Each of the 26 announcements reaches a chunk that sees the sender as a neighbour, in the slot of the opposite direction. |
| StageSwitchers.ChunkStageSwitcher.constructor | Assets/Scripts/Engine/Voxel/Stages/StageCommon.cs:161-166 | Starts at an unfinished NONE stage, with all neighbours NONE. |
| StageSwitchers.ChunkStageSwitcher.CanChangeStage | Assets/Scripts/Engine/Voxel/Stages/StageCommon.cs:225-228 | Ready exactly when the stage is finished, is not DONE, and no neighbour is behind. |
| StageSwitchers.ChunkStageSwitcher.TryGoToNextStage | Assets/Scripts/Engine/Voxel/Stages/StageCommon.cs:217-223 | Posts CHANGE_STAGE(current+1) to itself exactly when ready, and nothing otherwise. |
| StageSwitchers.ChunkStageSwitcher.NeighborStageChanged | Assets/Scripts/Engine/Voxel/Stages/StageCommon.cs:191-194 | Only the sender's slot changes, and it takes the announced stage. |
| StageSwitchers.ChunkStageSwitcher.GetNextStage | Assets/Scripts/Engine/Voxel/Stages/StageCommon.cs:230-251 | Gives a fresh, unstarted stage of the requested tag, or NONE for any other tag. MERGE_FACES receives the lighting output. |
| StageSwitchers.ChunkStageSwitcher.Start | Assets/Scripts/Engine/Voxel/Stages/StageCommon.cs:90-99 | Runs the stage's start: NONE, INITIALIZE and LOAD finish, and DONE is done. |
| StageSwitchers.ChunkStageSwitcher.ReplaceStage | Assets/Scripts/Engine/Voxel/Stages/StageCommon.cs:203-212 | A done stage is replaced by DONE, and any other by the requested stage, which is then started. |
| StageSwitchers.ChunkStageSwitcher.ChageStage | Assets/Scripts/Engine/Voxel/Stages/StageCommon.cs:196-215 | Gated out, nothing changes. Otherwise the new stage starts and is announced to all 26 neighbours. The requested stage need not be current+1. |
| StageSwitchers.ChunkStageSwitcher.BroadacstChunkStageChanged | Assets/Scripts/Engine/Voxel/Stages/StageCommon.cs:253-263 | Posts one NFY_STAGE_CHANGED to each neighbour, in `ALL_DIRS` order. |
| StageSwitchers.ChunkStageSwitcher.DispatchCurrent | Assets/Scripts/Engine/Voxel/Stages/StageCommon.cs:186 | `StageHandled`: the visibility, sunlight and lighting stages do what their own `Handled` says. Any other stage logs one error and changes nothing else. |
| StageSwitchers.ChunkStageSwitcher.Dispatch | Assets/Scripts/Engine/Voxel/Stages/StageCommon.cs:173-189 | `Routed`: an announcement is recorded in its neighbour's slot. A stage change behind a known neighbour does nothing; otherwise it installs the next stage (DONE once done) and ends with the 26 announcements. Any other message goes to the current stage as `StageHandled` says. Then CHANGE_STAGE(current+1) is posted exactly when ready. |
| Chunks.AnswerMatchesVisibilityRequest | Assets/Scripts/Engine/Voxel/Chunk.cs:55-61 | A chunk's answer to a visibility request names only coordinates that were asked for. |
| Chunks.AnswerMatchesLightingRequest | Assets/Scripts/Engine/Voxel/Chunk.cs:55-61 | A chunk's answer to a lighting request names only coordinates that were asked for. |
| Chunks.Chunk.constructor | Assets/Scripts/Engine/Voxel/Chunk.cs:15-21 | An empty chunk at NONE that posts CHANGE_STAGE(INITIALIZE) to itself. |
| Chunks.Chunk.VoxRequest | Assets/Scripts/Engine/Voxel/Chunk.cs:46-65 | An empty chunk answers with no list. Otherwise there is one entry per coordinate, in order, with a snapshot exactly for in-chunk coordinates. |
| Chunks.Chunk.Dispatch | Assets/Scripts/Engine/Voxel/Chunk.cs:30-44 | NONE changes nothing, and REQ_VOX posts the answer for the buffer; both leave the buffer, the counters, the switcher and the stage's fields untouched. Everything else does what the switcher's `Routed` says, then CHANGE_STAGE(current+1) is posted exactly when the switcher is ready. |
| SweepGeometry.SweepIsBijection | Assets/Scripts/Engine/Voxel/FacesMerger.cs:51-55 | Each sweep visits every voxel exactly once. |
| SweepGeometry.SlotInjective | Assets/Scripts/Engine/Voxel/FacesMerger.cs:15-25 | Within one side, distinct cells own distinct `mergedSides` bytes, and a byte's index modulo 6 is its side, so no two (voxel, side) pairs share a byte. |
| SweepGeometry.LinOrder | Assets/Scripts/Engine/Voxel/FacesMerger.cs:51-55 | The visiting order is lexicographic in (layer, row, column). |
| SweepGeometry.QuadOnFacePlane | Assets/Scripts/Engine/Voxel/FacesMerger.cs:86-163 | A quad's four vertices lie on the outward face plane of its voxels. |
| SweepGeometry.QuadExtents | Assets/Scripts/Engine/Voxel/FacesMerger.cs:86-163 | The edges v0-v1 and v0-v3 measure the quad's width and height. |
| SweepGeometry.QuadVerticesFront | Assets/Scripts/Engine/Voxel/FacesMerger.cs:86-163 | A FRONT quad's four vertices are, in order, V0 of its first cell, V1 of the last cell of its first row, V2 of its last cell and V3 of the first cell of its last row (rows in sweep order). |
| SweepGeometry.QuadVerticesBack | Assets/Scripts/Engine/Voxel/FacesMerger.cs:220-262 | A BACK quad's four vertices are, in order, V5 of its first cell, V4 of the last cell of its first row, V7 of its last cell and V6 of the first cell of its last row (rows in sweep order). |
| SweepGeometry.QuadVerticesTop | Assets/Scripts/Engine/Voxel/FacesMerger.cs:319-362 | A TOP quad's four vertices are, in order, V3 of its first cell, V2 of the last cell of its first row, V6 of its last cell and V7 of the first cell of its last row (rows in sweep order). |
| SweepGeometry.QuadVerticesDown | Assets/Scripts/Engine/Voxel/FacesMerger.cs:419-459 | A DOWN quad's four vertices are, in order, V4 of its first cell, V5 of the last cell of its first row, V1 of its last cell and V0 of the first cell of its last row (rows in sweep order). |
| SweepGeometry.QuadVerticesRight | Assets/Scripts/Engine/Voxel/FacesMerger.cs:516-558 | A RIGHT quad's four vertices are, in order, V1 of its first cell, V5 of the last cell of its first row, V6 of its last cell and V2 of the first cell of its last row (rows in sweep order). |
| SweepGeometry.QuadVerticesLeft | Assets/Scripts/Engine/Voxel/FacesMerger.cs:615-656 | A LEFT quad's four vertices are, in order, V4 of its first cell, V0 of the last cell of its first row, V3 of its last cell and V7 of the first cell of its last row (rows in sweep order). |
| SweepGeometry.QuadUVsAreExtents | Assets/Scripts/Engine/Voxel/MeshBuilder.cs:136-177 | A quad's UVs are (w,0), (0,0), (0,h), (w,h). |
| FacesSpec.SweepEnd | Assets/Scripts/Engine/Voxel/FacesMerger.cs:51-180 | A finished sweep is a tiling: its quads are valid and pairwise disjoint, and they cover exactly the visible non-empty faces not merged before. |
| FacesSpec.EmitPreserves | Assets/Scripts/Engine/Voxel/FacesMerger.cs:165-176 | Emitting a quad of joinable cells and marking exactly its cells keeps the sweep invariant. |
| FacesSpec.NewQuadDisjoint | Assets/Scripts/Engine/Voxel/FacesMerger.cs:107-141 | A quad of unmarked cells overlaps no earlier quad. |
| FacesSpec.RectJoinable | Assets/Scripts/Engine/Voxel/FacesMerger.cs:97-149 | A rectangle grown row-first from a joinable start is joinable throughout. |
| FacesSpec.MergeOrderCoversSides | Assets/Scripts/Engine/Voxel/FacesMerger.cs:677-687 | `Merge` sweeps each side exactly once. |
| FacesSpec.TilingsKept | Assets/Scripts/Engine/Voxel/FacesMerger.cs:677-687 | A sweep of one side keeps the tilings of the other sides. |
| FacesMergers.FacesMerger.constructor | Assets/Scripts/Engine/Voxel/FacesMerger.cs:8-13 | `mergedSides` is 4096·6 zero bytes, and the builder is empty. |
| FacesMergers.FacesMerger.IsSideMerged | Assets/Scripts/Engine/Voxel/FacesMerger.cs:15-19 | True exactly when the voxel's byte for the side is 1. |
| FacesMergers.FacesMerger.SetSideMerged | Assets/Scripts/Engine/Voxel/FacesMerger.cs:21-25 | Only that byte changes, and it becomes 1. |
| FacesMergers.FacesMerger.IsJoinable | Assets/Scripts/Engine/Voxel/FacesMerger.cs:107-108 | A cell joins exactly when it is unmerged, visible and of the start type. |
| FacesMergers.FacesMerger.ExtendFirst | Assets/Scripts/Engine/Voxel/FacesMerger.cs:97-114 | The first direction grows over joinable cells and stops at the chunk's edge or at the first cell that is not joinable. |
| FacesMergers.FacesMerger.ExtendSecond | Assets/Scripts/Engine/Voxel/FacesMerger.cs:129-149 | The second direction grows while whole rows are joinable, up to the chunk's edge. |
| FacesMergers.FacesMerger.MarkRect | Assets/Scripts/Engine/Voxel/FacesMerger.cs:165-174 | Exactly the quad's cells are marked for the side, and the other sides' bytes are untouched. |
| FacesMergers.FacesMerger.Grow | Assets/Scripts/Engine/Voxel/FacesMerger.cs:70-163 | The quad starting at the cell is joinable and maximal: its first row and its height cannot grow. |
| FacesMergers.FacesMerger.Emit | Assets/Scripts/Engine/Voxel/FacesMerger.cs:70-176 | Marks exactly the quad's cells and adds its 12 vertex numbers to the builder's (type, side) group. |
| FacesMergers.FacesMerger.Visit | Assets/Scripts/Engine/Voxel/FacesMerger.cs:57-177 | A cell that must be drawn and is not merged starts a quad. The sweep invariant is kept. |
| FacesMergers.BackTestAsWritten | Assets/Scripts/Engine/Voxel/FacesMerger.cs:229-230 | As written, the BACK test reads the cursor `nv`: no result (a null dereference) before it has a position, else the test of whatever voxel it holds. |
| FacesMergers.BackTestAsWrittenMisfires | Assets/Scripts/Engine/Voxel/FacesMerger.cs:183-237 | As written, the first BACK face with x > 0 throws, and a merged leftover in `nv` stops a face the next cell would join; with `nv` at x - 1 it agrees with `Joinable`. |
| FacesMergers.FacesMerger.MergeSide | Assets/Scripts/Engine/Voxel/FacesMerger.cs:37-181 | Corrected (Finding 9) for BACK. One sweep appends quads that tile the side. It changes only that side's bytes and adds those quads to the builder. |
| FacesMergers.FacesMerger.Merge | Assets/Scripts/Engine/Voxel/FacesMerger.cs:677-687 | Corrected (Finding 9) for BACK. FRONT, BACK, TOP, DOWN, RIGHT and LEFT are swept once each, in that order. Each side is tiled, and the builder is returned. |
| MeshBuilders.MeshBuilder.constructor | Assets/Scripts/Engine/Voxel/MeshBuilder.cs:25 | No group. |
| MeshBuilders.MeshBuilder.SafeGet | Assets/Scripts/Engine/Voxel/MeshBuilder.cs:27-43 | Gives the existing (type, side) group. Otherwise it appends an empty group at the end. |
| MeshBuilders.MeshBuilder.Add | Assets/Scripts/Engine/Voxel/MeshBuilder.cs:45-49 | The numbers are appended to the (type, side) group. |
| MeshBuilders.AddedGroups | Assets/Scripts/Engine/Voxel/MeshBuilder.cs:27-49 | Adding creates no duplicate key. The group gains exactly the numbers, a new group appears only for a new key, and every other group is unchanged. |
| MeshBuilders.AddedTotal | Assets/Scripts/Engine/Voxel/MeshBuilder.cs:45-58 | Adding grows the number total by exactly the numbers added. |
| MeshBuilders.MeshBuilder.GetPositionFloatCount | Assets/Scripts/Engine/Voxel/MeshBuilder.cs:51-58 | Gives the number total over all groups. |
| MeshBuilders.MeshBuilder.GetPositionCount | Assets/Scripts/Engine/Voxel/MeshBuilder.cs:60-63 | Gives a third of the number total. |
| MeshBuilders.MeshBuilder.GetPositions | Assets/Scripts/Engine/Voxel/MeshBuilder.cs:83-88 | Gives the groups' triples, in creation order. |
| MeshBuilders.PositionsCount | Assets/Scripts/Engine/Voxel/MeshBuilder.cs:83-88 | There is one position per three numbers. |
| MeshBuilders.MeshBuilder.GetNormals | Assets/Scripts/Engine/Voxel/MeshBuilder.cs:90-100 | Each vertex gets the normal of its group's side. |
| MeshBuilders.NormalsMatchPositions | Assets/Scripts/Engine/Voxel/MeshBuilder.cs:90-100 | There is one normal per position. |
| MeshBuilders.NormalsAreFaceDirections | Assets/Scripts/Engine/Voxel/MeshBuilder.cs:6-15 | `NORMALS[s]` is the outward direction of side s. |
| MeshBuilders.MeshBuilder.GetIndices | Assets/Scripts/Engine/Voxel/MeshBuilder.cs:102-134 | There are total/2 indices, and block k of six is 4k, 4k+1, 4k+2, 4k+2, 4k+3, 4k. |
| MeshBuilders.IndicesAddressQuads | Assets/Scripts/Engine/Voxel/MeshBuilder.cs:102-134 | Every index addresses an existing vertex of its own quad. |
| MeshBuilders.MeshBuilder.GetUVs | Assets/Scripts/Engine/Voxel/MeshBuilder.cs:136-177 | Each 12-number quad gets its four UVs from its edge extents. |
| MeshBuilders.UVsCount | Assets/Scripts/Engine/Voxel/MeshBuilder.cs:136-177 | There is one UV per position when the groups hold whole quads. |
| MeshBuilders.MeshBuilder.GetTileUVs | Assets/Scripts/Engine/Voxel/MeshBuilder.cs:179-194 | Every vertex, one per started triple of numbers, gets the fixed tile UV (0, 1). |
| MeshBuilders.MeshBuilder.GetColors | Assets/Scripts/Engine/Voxel/MeshBuilder.cs:196-210 | Every vertex, one per started triple of numbers, gets white. |
| MeshBuilders.PerVertexStreams | Assets/Scripts/Engine/Voxel/MeshBuilder.cs:179-210 | Tile UVs and colours have one entry per position. |

## Left out

- Threading is left out. This covers the controller's thread and blocking queue, `VoxelViewport` and the editor-only `Interlocked` stage counters. Each chunk is modelled as one sequential object, and `controller.Post` appends to an outbox.
- `ChunkController`, `VoxelViewport`, `VoxelController`, `VoxelDebugUI`, `ChunkMath.cs` and the older `ChunkStages/ChunkBaseStage.cs` are not part of this model. They are plumbing, UI, or superseded copies.
- `ChunkMergeFacesStage` is not part of this model, because its source is not available. `GetNextStage` builds it with the lighting output. Its start does nothing, so a chunk stays at MERGE_FACES.
- `Debug.Log` and `Debug.LogError` are modelled as an error count. `Debug.Log` in the lighting stage does not count, since it is not an error.
- The terrain noise `MakeSomeNoise.Get` is a parameter. It is given as a function from the world column to the first integer height that stays empty, which equals the ceiling of the float height.
- `Vec3(Vector3)` is left out, as are `GetHashCode`, `ToString` and the Unity `Vector3`, `Vector2` and `Color` wrappers. Vertex numbers are integers and light values are reals.
- The ambient-occlusion result `/ 4f` is computed with `real`, not 32-bit floats. The two copies of `AmbientOcclusion` are one function, and `LightingStages.LightSidesMatchTable` proves that the stage and the older table agree.
- `Vec3.ALL_DIRS`, `ALL_UNIT_DIRS` and `IsUnit` are not shown in the source. `ALL_DIRS` is rebuilt from the lighting stage's index diagram, which fixes `SIDES` = 12, 10, 13, 15, 4, 21. `ALL_UNIT_DIRS` is `ALL_DIRECTIONS`.
- `VoxRef.TryTarget/IsEmpty/IsVisible/SetVisible/light/sunLight/SideNeighbor/Snapshot` and the static corner functions are reconstructed with the obvious meaning.
- `controller.bounds` is read from `SharedData.bounds`, because the controller is not part of this model.
- Dictionaries enumerate keys in insertion order. The model keeps that order as a sequence beside the map, and `Remove` drops the key from it.
- `Messages.cs` is an older revision, with one voxel per request and none of the stage messages. The model uses the message kinds the stages and `Chunk.cs` use: lists of voxels, CHANGE_STAGE, NFY_STAGE_CHANGED, SUNLIGHT_PROP and SUNLIGHT_PROP_END.
- StageCommon.ChunkCluster.Find does not log its error on a miss, because the cluster holds no shared data to count it in.
- The cluster's `Find` returns -1 for a non-neighbour, and `UpdateStage` would then index -1, which throws. `StageSwitchers.ChunkStageSwitcher.NeighborStageChanged` therefore requires the sender to be a neighbour. `BroadcastIsRecordable` shows that every announcement meets that requirement.
- LightingStages.ChunkLightingStage.FillMatchingSlots fills every slot whose coordinate matches the entry, where `List.Find` at `ChunkLightingStage.cs:212-214` fills only the first; see the ChunkVoxelRes line below for when the two differ.
- LightingStages.ChunkLightingStage.ChunkVoxelRes fills every request whose coordinate matches an entry, where the source fills only the first one (`List.Find`). With the corrected chunk keys, one list can hold a coordinate several times: a diagonal neighbour can be asked once per adjacent voxel. In the source's own keying each coordinate appears once per list, so the two agree there.
- LightingStages.ChunkLightingStage.ChunkVoxelRes requires every answer entry to be among the coordinates asked. Otherwise `Find` returns null and the source throws. `Chunks.AnswerMatchesLightingRequest` shows that a chunk's answer always meets this.
- The lighting stage's request keeps the cell offset and slot of its sample instead of an alias to the sample array.
- FacesMergers.FacesMerger.Merge is a loop over the six sides in `MERGE_ORDER`, where the source makes six calls. The six sweeps are one generic sweep with a per-side coordinate map (`SweepGeometry.ToPos`).
- FacesMergers.FacesMerger.MergeSide models the BACK sweep's test of the neighbour as intended (voxel x-1). At `FacesMerger.cs:229` the source tests the other cursor `nv`, which has no position before the sweep's first growth along y, so the first BACK face with x > 0 throws a null dereference and `Merge` stops there; later faces test whatever voxel `nv` was left at (Finding 9).
- FacesMergers.FacesMerger.MergeSide states that the quads are disjoint and exactly cover the faces. It does not state the sum of their areas as a number.
- VoxRefs.VoxRef.Target is modelled with a null-safe `pos == null` test. With the `Vec3.cs` of this revision, whose `operator ==` reads the fields of both operands, that test throws a null dereference on every call: on the first call the cursor's position is null, afterwards the `null` literal is. The model follows the revision in which `Vec3` has `set`, which `Target` calls and whose comparison must therefore be the working one; every stage that targets a voxel depends on it.
- ChunkBuffers.LegacyVoxRef.Target is modelled with the same null-safe test; with this `Vec3.cs`, `pos == null` at `ChunkBuffer.cs:26` throws on every call for the same reason.
- Vec3Math.Eq compares two positions; the source's `operator ==` throws when either operand is null, which the model has no value for.
- VisibilityStages.ChunkVisibilityStage.AddRequestChunkVoxel files a copy of the requesting voxel's position. The source files the scanning cursor's own position object, which later `Target` calls overwrite, so all requests end up naming (15,15,15) (Finding 8). The model follows the copy because the `Vec3.cs` of this revision has read-only fields and no `set`, while `VoxRef.Target` calls `pos.set`; the two files cannot both be current. `VisibilityStages.AliasedAnswerMissesRequester` states the aliased behaviour.
- VisibilityStages.ChunkVisibilityStage.ScanFace files copied positions; as written every filed request names (15,15,15) once the scan ends (Finding 8).
- VisibilityStages.ChunkVisibilityStage.ScanVoxel files copied positions; as written every filed request names (15,15,15) once the scan ends (Finding 8).
- VisibilityStages.ChunkVisibilityStage.ScanAt files copied positions; as written every filed request names (15,15,15) once the scan ends (Finding 8).
- VisibilityStages.ChunkVisibilityStage.Scan files copied positions; as written every filed request names (15,15,15) once the scan ends (Finding 8).
- VisibilityStages.ChunkVisibilityStage.OnStart files copied positions; as written every filed request names (15,15,15) once the scan ends (Finding 8).
- VisibilityStages.ChunkVisibilityStage.MarkFaces sets the faces of the requesting voxels; as written it targets (15,15,15) (Finding 8).
- VisibilityStages.ChunkVisibilityStage.SettleAnswers sets the faces of the requesting voxels; as written it targets (15,15,15) (Finding 8).
- VisibilityStages.ChunkVisibilityStage.ChunkVoxelRes settles the requesting voxels' faces; as written the aliased requests settle only (15,15,15) (Finding 8).
- VisibilityStages.ChunkVisibilityStage.Dispatch settles the requesting voxels' faces; as written the aliased requests settle only (15,15,15) (Finding 8).
- ChunkLight.ChunkLighting.SetNeighborLighting reports the null dereference on an unset cell as `ok == false`; the exception's unwinding to the caller is not modelled.
- ChunkLight.ChunkLighting.ComputeSmoothLighting reports the null dereference as `ok == false` and does not state the cell it fails on. There the source has already replaced the cell's `lighting` and may have smoothed its first sides before the null dereference.
- VisibilityStages.ChunkVisibilityStage.ChunkVoxelRes requires every answer entry to match a filed request. Otherwise `Find` returns null, and the source throws on `req.vox`. `Chunks.AnswerMatchesVisibilityRequest` shows that a chunk's own answer meets this.
- MeshBuilders.MeshBuilder.GetPositions requires every group to hold whole triples. Otherwise the source reads past the end of the buffer and throws.
- MeshBuilders.MeshBuilder.GetUVs requires every group to hold whole 12-number quads. Otherwise the source reads past the end of the buffer and throws.
- MeshBuilders.MeshBuilder.GetIndices requires whole quads. With a partial block the source writes past its array, which throws.
- VisibilityStages.ChunkVisibilityStage.ChunkVoxelRes and LightingStages.ChunkLightingStage.ChunkVoxelRes do not model the failed-`Remove` branch, because `Remove` cannot fail right after a successful lookup.
- The free-then-access error is modelled by requiring an allocated buffer on every access. The test files' `GetByte(o)`, `SetUShort` and `SetFlag` do not exist in the source and are not modelled.

## Findings

| source | as written | input that shows it | evidently intended | confidence | as-written member | corrected member |
|---|---|---|---|---|---|---|
| Assets/Scripts/Engine/Voxel/Stages/ChunkVisibilityStage.cs:62 | `neighborPos %= SIZE` truncates, so a step to x = -1 keeps -1 | voxel (0,5,3) stepping LEFT asks chunk (-16,0,0) for (-1,5,3) | the coordinate inside the neighbour chunk, (15,5,3) | high, not executed | NeighbourAddress.TruncatedCoordinateLeavesChunk | NeighbourAddress.AddressIsExact |
| Assets/Scripts/Engine/Voxel/Stages/ChunkLightingStage.cs:138 | the chunk key is `pos + dir * SIZE` for all 26 directions | voxel (15,5,3) with direction (1,1,0) samples (16,6,3), owned by chunk (16,0,0), but is keyed to (16,16,0) | the chunk that owns the sample | high, not executed | NeighbourAddress.DiagonalRequestMissesOwner | NeighbourAddress.AddressIsExact |
| Assets/Scripts/Engine/Voxel/ChunkBuffer.cs:64 | `SIZE ^ 3` is XOR, giving 171 bytes | any voxel beyond (0,1,2), e.g. (0,1,3) at byte 171 | 16³·9 = 36864 bytes | high, not executed | ChunkBuffers.BufferSizeAsWritten | ChunkBuffers.EveryRecordFits |
| Assets/Scripts/Engine/Voxel/VoxRef.cs:7-11 | the two-argument constructor stores the position but leaves the offset 0 | a cursor built at (2,3,4) reads the record of (0,0,0) | compute the offset, as `Target` does | medium, not executed | VoxRefs.WithPosOffsetOnlyFitsOrigin | VoxRefs.VoxRef.At |
| Assets/Scripts/Engine/Voxel/Stages/ChunkSunlightStage.cs:87 | END messages stop at `bounds.bottom.y`, in chunk units, while y is in voxels | bottom bound -2, closed column at chunk 0: the chunk at y = -16 gets no END | stop at `bounds.bottom.y * SIZE`, as line 15 scales `up.y` | high, not executed | SunlightStages.EndBoundAsWrittenSkipsChunks | SunlightStages.EndReachesEveryChunkBelow |
| Assets/Scripts/Engine/Voxel/Stages/ChunkLightingStage.cs:149-152 | a chunk that needs no answer finishes without `ComputeSmoothLighting` | a chunk whose only voxel is (8,8,8) ends with no output | compute the output, then finish, as lines 218-222 do | medium, not executed | LightingStages.InteriorChunkHasLights, LightingStages.ChunkLightingStage.OnStartAsWritten | LightingStages.ChunkLightingStage.OnStart |
| Assets/Scripts/Engine/Voxel/ChunkStages/ChunkLoadStage.cs:19 | the y loop has no `y < SIZE` bound | terrain height 17 over chunk (0,0,0): the 17th write at (0,16,0) lands on (1,0,0) | stop at the chunk's top | high, not executed | LoadStages.TallColumnSpillsIntoNextColumn | LoadStages.ChunkLoadStage.LoadColumn |
| Assets/Scripts/Engine/Voxel/Stages/ChunkVisibilityStage.cs:64 | each request keeps `voxRef.GetPos()`, the cursor's own position, which `Target` updates in place (VoxRef.cs:23-31) | a chunk whose only solid voxel is (0,5,3) files a LEFT request; a missing neighbour then marks the LEFT face of (15,15,15), not of (0,5,3) | each request keeps a copy of its voxel's position | medium (Vec3.cs of this revision has no `set`), not executed | VisibilityStages.AliasedAnswerMissesRequester | VisibilityStages.AnswerSettlesRequests |
| Assets/Scripts/Engine/Voxel/FacesMerger.cs:229 | the BACK sweep moves `v` to x - 1 but tests `nv` | visible BACK faces of one type at (1,0,0) and (0,0,0) only: the first face met is (1,0,0), `nv` has no position, and the merge throws | test the voxel at x - 1, as the other five sweeps test their next voxel | high, not executed | FacesMergers.BackTestAsWrittenMisfires | FacesMergers.FacesMerger.MergeSide |
