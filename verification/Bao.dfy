/** Content hashes and BAO hash trees, as far as storing and serving depends on them. */
module Bao {
  import opened Wrappers

  /** A blob's pre-order hash tree: its root and the bytes stored for it. */
  datatype Outboard = Outboard(root: string, data: Bytes)

  /** What BLAKE3 and bao-tree compute. */
  datatype Digest = Digest(hash: Bytes -> string, outboard: Bytes -> Outboard)

  const CHUNK_GROUP := 16 * 1024

  /** `BaoTree::outboard_size`: one pair of 32-byte hashes per chunk group but the first. */
  function OutboardSize(size: nat): nat {
    if size <= CHUNK_GROUP then 0 else (size - 1) / CHUNK_GROUP * 64
  }

  /** A hash identifies its bytes; an outboard has the hash as its root and the tree's size. */
  ghost predicate Ideal(d: Digest) {
    && (forall a, b :: d.hash(a) == d.hash(b) ==> a == b)
    && (forall a :: d.outboard(a).root == d.hash(a) && |d.outboard(a).data| == OutboardSize(|a|))
  }

  /** `ingest::compute_outboard`: refused when the root is not the expected hash. */
  function ComputeOutboard(d: Digest, data: Bytes, expected: string): Option<Outboard> {
    if d.outboard(data).root == expected then Some(d.outboard(data)) else None
  }
}
