/** The wire protocol's size limits (crates/condr-core/src/protocol.rs). */
module ProtocolLimits {
  const MAX_FRAME_SIZE: nat := 2 * 1024 * 1024
  const MAX_FRAME_PREFIX: nat := 10
  const MAX_CHUNK_PAYLOAD_SIZE: nat := MAX_FRAME_SIZE - 256
  const MAX_CHUNKED_RECORD_SIZE: nat := 24 * 1024 * 1024
  const MAX_BOOTSTRAP_TOTAL_SIZE: nat := 64 * 1024 * 1024
  const MAX_BOOTSTRAP_BATCHES: nat := 65536
  const BOOTSTRAP_BATCH_FRAME_OVERHEAD: nat := 64
  const MAX_FRAMED_BOOTSTRAP_BYTES: nat :=
    (MAX_FRAME_SIZE + MAX_FRAME_PREFIX) + MAX_BOOTSTRAP_TOTAL_SIZE
    + MAX_BOOTSTRAP_BATCHES * BOOTSTRAP_BATCH_FRAME_OVERHEAD
}
