/**
 * The bit layout of the multi-block-change packet (MinecraftQuarryClient.py,
 * `packet_multi_block_change`): an 8-byte chunk-section position followed by
 * a count and that many 64-bit block records. The varints themselves are read
 * by the protocol library and arrive here as numbers.
 */
module MultiBlockChange {

  newtype Byte = b: int | 0 <= b < 256

  const TWO_4: nat := 0x10
  const TWO_8: nat := 0x100
  const TWO_12: nat := 0x1000
  const TWO_19: nat := 0x8_0000
  const TWO_20: nat := 0x10_0000
  const TWO_21: nat := 0x20_0000
  const TWO_22: nat := 0x40_0000
  const TWO_42: nat := 0x400_0000_0000
  const TWO_52: nat := 0x10_0000_0000_0000
  const TWO_64: nat := 0x1_0000_0000_0000_0000

  function Pow256(n: nat): (p: nat)
    ensures p > 0
  {
    if n == 0 then 1 else 256 * Pow256(n - 1)
  }

  /** The unsigned number the bytes spell, most significant byte first (how BitStream reads them). */
  function WordOf(b: seq<Byte>): (w: nat)
    ensures w < Pow256(|b|)
  {
    if b == [] then 0 else WordOf(b[..|b| - 1]) * 256 + b[|b| - 1] as int
  }

  /** The `n` bytes that spell `w` most significant first; the inverse of WordOf. */
  function BytesOf(w: nat, n: nat): (b: seq<Byte>)
    requires w < Pow256(n)
    ensures |b| == n && WordOf(b) == w
  {
    if n == 0 then []
    else
      var b := BytesOf(w / 256, n - 1) + [(w % 256) as Byte];
      assert b[..n - 1] == BytesOf(w / 256, n - 1);
      b
  }

  /** Reading bytes as a number and writing the number back gives the same bytes. */
  lemma {:induction false} BytesOfWordOf(b: seq<Byte>)
    ensures BytesOf(WordOf(b), |b|) == b
  {
    if b != [] {
      var init := b[..|b| - 1];
      BytesOfWordOf(init);
      assert b == init + [b[|b| - 1]];
    }
  }

  lemma EightBytesSpan()
    ensures Pow256(8) == TWO_64
  {
  }

  /**
   * The two's-complement value of an unsigned bit field with `2 * half` values,
   * which is what BitStream's `.int` reads.
   */
  function Signed(u: nat, half: nat): (r: int)
    requires u < 2 * half
    ensures -(half as int) <= r < half
    ensures r == u || r == u - 2 * half
  {
    if u < half then u else u - 2 * half
  }

  /** A chunk-section position, in the order the packet carries it. */
  datatype SectionPosition = SectionPosition(x: int, z: int, y: int)

  /** The positions the 22/22/20-bit layout can carry. */
  predicate PositionRepresentable(p: SectionPosition) {
    && -(TWO_21 as int) <= p.x < TWO_21
    && -(TWO_21 as int) <= p.z < TWO_21
    && -(TWO_19 as int) <= p.y < TWO_19
  }

  /** The three signed fields of the 64-bit position word: x in the top 22 bits, z in the next 22, y in the low 20. */
  function DecodeSectionWord(w: nat): (p: SectionPosition)
    requires w < TWO_64
    ensures PositionRepresentable(p)
  {
    SectionPosition(Signed(w / TWO_42, TWO_21), Signed((w / TWO_20) % TWO_22, TWO_21), Signed(w % TWO_20, TWO_19))
  }

  /**
   * `(x & 0x3FFFFF) << 42 | (z & 0x3FFFFF) << 20 | (y & 0xFFFFF)`: masking is
   * the remainder modulo a power of two, and the fields do not overlap, so
   * the bitwise or is a sum.
   */
  function EncodeSectionWord(p: SectionPosition): (w: nat)
    ensures w < TWO_64
  {
    (p.x % TWO_22) * TWO_42 + (p.z % TWO_22) * TWO_20 + p.y % TWO_20
  }

  /** `packet_multi_block_change`'s first step: the 8 bytes read as one big-endian word, then split. */
  function DecodeSectionPosition(b: seq<Byte>): (p: SectionPosition)
    requires |b| == 8
    ensures PositionRepresentable(p)
  {
    EightBytesSpan();
    DecodeSectionWord(WordOf(b))
  }

  function EncodeSectionPosition(p: SectionPosition): (b: seq<Byte>)
    ensures |b| == 8
  {
    EightBytesSpan();
    BytesOf(EncodeSectionWord(p), 8)
  }

  lemma SplitWord(hi: nat, mid: nat, lo: nat)
    requires hi < TWO_22 && mid < TWO_22 && lo < TWO_20
    ensures (hi * TWO_42 + mid * TWO_20 + lo) / TWO_42 == hi
    ensures ((hi * TWO_42 + mid * TWO_20 + lo) / TWO_20) % TWO_22 == mid
    ensures (hi * TWO_42 + mid * TWO_20 + lo) % TWO_20 == lo
  {
    var w := hi * TWO_42 + mid * TWO_20 + lo;
    assert mid * TWO_20 + lo < TWO_42;
    assert w == (hi * TWO_22 + mid) * TWO_20 + lo;
    assert w / TWO_20 == hi * TWO_22 + mid;
  }

  lemma JoinWord(w: nat)
    requires w < TWO_64
    ensures (w / TWO_42) * TWO_42 + ((w / TWO_20) % TWO_22) * TWO_20 + w % TWO_20 == w
  {
    var q := w / TWO_20;
    assert w == q * TWO_20 + w % TWO_20;
    assert q == (q / TWO_22) * TWO_22 + q % TWO_22;
    assert q / TWO_22 == w / TWO_42;
  }

  /** Every representable position survives encoding and decoding. */
  lemma SectionPositionRoundTrip(p: SectionPosition)
    requires PositionRepresentable(p)
    ensures DecodeSectionWord(EncodeSectionWord(p)) == p
    ensures DecodeSectionPosition(EncodeSectionPosition(p)) == p
  {
    SplitWord(p.x % TWO_22, p.z % TWO_22, p.y % TWO_20);
  }

  /** Every 64-bit position word is the encoding of the position it decodes to. */
  lemma SectionWordRoundTrip(w: nat)
    requires w < TWO_64
    ensures EncodeSectionWord(DecodeSectionWord(w)) == w
  {
    JoinWord(w);
  }

  /** Every 8-byte position field is the encoding of the position it decodes to. */
  lemma SectionBytesRoundTrip(b: seq<Byte>)
    requires |b| == 8
    ensures EncodeSectionPosition(DecodeSectionPosition(b)) == b
  {
    EightBytesSpan();
    SectionWordRoundTrip(WordOf(b));
    BytesOfWordOf(b);
  }

  /** One changed block, stored as the source stores it: `(block_state_id, (x, y, z))`. */
  datatype BlockChange = BlockChange(stateId: nat, x: nat, y: nat, z: nat)

  /** A 52-bit state id and three coordinates local to the 16x16x16 section. */
  predicate RecordRepresentable(b: BlockChange) {
    b.stateId < TWO_52 && b.x < 16 && b.y < 16 && b.z < 16
  }

  /** One 64-bit record: the state id in the high 52 bits, then 4 bits each of x, z and y. */
  function DecodeRecord(v: nat): (b: BlockChange)
    requires v < TWO_64
    ensures RecordRepresentable(b)
  {
    BlockChange(v / TWO_12, (v / TWO_8) % 16, v % 16, (v / TWO_4) % 16)
  }

  /** `state_id << 12 | x << 8 | z << 4 | y`. */
  function EncodeRecord(b: BlockChange): (v: nat)
    requires RecordRepresentable(b)
    ensures v < TWO_64
  {
    b.stateId * TWO_12 + b.x * TWO_8 + b.z * TWO_4 + b.y
  }

  /** Every representable block change survives encoding and decoding. */
  lemma RecordRoundTrip(b: BlockChange)
    requires RecordRepresentable(b)
    ensures DecodeRecord(EncodeRecord(b)) == b
  {
    var v := EncodeRecord(b);
    assert v == ((b.stateId * 16 + b.x) * 16 + b.z) * 16 + b.y;
    assert v / 16 == (b.stateId * 16 + b.x) * 16 + b.z;
    assert v / TWO_8 == (v / 16) / 16;
    assert v / TWO_12 == (v / TWO_8) / 16;
  }

  /** Every 64-bit record is the encoding of the block change it decodes to. */
  lemma RecordWordRoundTrip(v: nat)
    requires v < TWO_64
    ensures EncodeRecord(DecodeRecord(v)) == v
  {
    assert v / TWO_8 == (v / 16) / 16;
    assert v / TWO_12 == (v / TWO_8) / 16;
    assert v == (v / 16) * 16 + v % 16;
    assert v / 16 == (v / TWO_8) * 16 + (v / 16) % 16;
    assert v / TWO_8 == (v / TWO_12) * 16 + (v / TWO_8) % 16;
  }

  /**
   * The record loop of `packet_multi_block_change`: one block change per
   * record, in order, so there are exactly `blocks_array_size` of them, each
   * re-encoding to its record.
   */
  method DecodeBlocks(records: seq<nat>) returns (blocks: seq<BlockChange>)
    requires forall i :: 0 <= i < |records| ==> records[i] < TWO_64
    ensures |blocks| == |records|
    ensures forall i :: 0 <= i < |records| ==> blocks[i] == DecodeRecord(records[i])
    ensures forall i :: 0 <= i < |records| ==> RecordRepresentable(blocks[i]) && EncodeRecord(blocks[i]) == records[i]
  {
    blocks := [];
    var k := 0;
    while k < |records|
      invariant k <= |records| && |blocks| == k
      invariant forall i :: 0 <= i < k ==> blocks[i] == DecodeRecord(records[i])
    {
      blocks := blocks + [DecodeRecord(records[k])];
      k := k + 1;
    }
    forall i | 0 <= i < |records|
      ensures RecordRepresentable(blocks[i]) && EncodeRecord(blocks[i]) == records[i]
    {
      RecordWordRoundTrip(records[i]);
    }
  }
}
