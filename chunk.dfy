/** Chunk dimensions: a chunk is a cube of SIZE voxels per axis. */
module ChunkDims {
  const SIZE: int := 16
}
