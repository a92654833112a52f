/** Sizes the chunk format, the manifests and the writers share. */
module Consts {
  const MAX_CHUNK_PLAINTEXT := 4 * 1024 * 1024
  const ALIGNMENT := 4096
  const CODEC_FRAME_HEADER_BYTES := 16
  const MAX_CODEC_OVERHEAD := CODEC_FRAME_HEADER_BYTES + MAX_CHUNK_PLAINTEXT / 128
  const CHUNK_HEADER_BYTES := ALIGNMENT
  const MAX_CHUNK_OBJECT_BYTES :=
    CHUNK_HEADER_BYTES + MAX_CHUNK_PLAINTEXT + MAX_CODEC_OVERHEAD + 16 + ALIGNMENT

  /** Tokens between two checkpoints of a prompt. */
  const BLOCK := 256
}
