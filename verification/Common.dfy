/** Types every module shares. */
module Common {
  type byte = b: int | 0 <= b < 256
  type Bytes = seq<byte>

  /** A 32-byte hash output. */
  type Digest = d: Bytes | |d| == 32 witness seq(32, _ => 0)

  datatype Option<+T> = None | Some(value: T)

  datatype Result<+T, +E> = Ok(value: T) | Err(error: E)

  type U16 = v: nat | v < 0x1_0000
  const MAX_U64 := 0xFFFF_FFFF_FFFF_FFFF
  type U64 = v: nat | v <= MAX_U64

  /** Asset identity: issuing transaction and position in its packet. */
  datatype AssetId = AssetId(txid: Digest, group: U16)

  function Reversed(b: Bytes): (r: Bytes)
    ensures |r| == |b|
  {
    if b == [] then [] else Reversed(b[1..]) + [b[0]]
  }

  /** Byte-lexicographic order of equally long strings. */
  predicate LexLess(a: Bytes, b: Bytes) {
    a != [] && b != [] && (a[0] < b[0] || (a[0] == b[0] && LexLess(a[1..], b[1..])))
  }

  /** An opaque transaction identifier. */
  type Txid = nat

  datatype OutPoint = OutPoint(txid: Txid, vout: nat)

  /** `s` stands in `b` at `off`. */
  predicate At(b: Bytes, off: nat, s: Bytes) { off + |s| <= |b| && b[off..off + |s|] == s }

  lemma {:induction false} SubsetSize<T>(a: set<T>, b: set<T>)
    requires a <= b
    ensures |a| <= |b|
    decreases a
  {
    if x :| x in a { SubsetSize(a - {x}, b - {x}); }
  }
}
