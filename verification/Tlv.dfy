/** Type-Length-Value blocks, per section "Type-Length-Value (TLV) Encoding" of the
    NDN Packet Format Specification. */
module Tlv {
  import opened Options
  import opened ByteStrings

  const LIMIT: nat := 0x1_0000_0000_0000_0000

  // Packet and name component types of the NDN Packet Format Specification.
  const NAME := 7
  const GENERIC_COMPONENT := 8
  const CONTENT := 21
  const SEGMENT_COMPONENT := 50
  const VERSION_COMPONENT := 54

  // src/common.hpp
  const ENCRYPTED_AES_KEY := 601
  const ENCRYPTED_CONTENT := 602
  const PLAIN_TEXT_SIZE := 603
  const INITIAL_VECTOR := 605
  const ATTRIBUTE := 606

  datatype Block = Block(typ: nat, value: Bytes) {
    /** The sizes a 64-bit machine can hold; every block in memory fits. */
    predicate Fits() {
      typ < LIMIT && |value| < LIMIT
    }
  }

  /** VAR-NUMBER: one byte, or a marker 253/254/255 followed by 2/4/8 bytes. */
  function EncodeVar(n: nat): Bytes {
    if n < 253 then [n]
    else if n < 0x1_0000 then [253] + BigEndian(n, 2)
    else if n < 0x1_0000_0000 then [254] + BigEndian(n, 4)
    else [255] + BigEndian(n, 8)
  }

  function TakeBigEndian(b: Bytes, k: nat): (r: Option<(nat, Bytes)>)
    ensures r.Some? ==> |r.value.1| + k == |b|
  {
    if k <= |b| then Some((FromBigEndian(b[..k]), b[k..])) else None
  }

  function DecodeVar(b: Bytes): (r: Option<(nat, Bytes)>)
    ensures r.Some? ==> |r.value.1| < |b|
  {
    if b == [] then None
    else if b[0] < 253 then Some((b[0], b[1..]))
    else if b[0] == 253 then TakeBigEndian(b[1..], 2)
    else if b[0] == 254 then TakeBigEndian(b[1..], 4)
    else TakeBigEndian(b[1..], 8)
  }

  lemma VarRoundTrip(n: nat, rest: Bytes)
    requires n < LIMIT
    ensures DecodeVar(EncodeVar(n) + rest) == Some((n, rest))
  {
    Powers();
    var k := if n < 253 then 0 else if n < 0x1_0000 then 2 else if n < 0x1_0000_0000 then 4 else 8;
    var b := EncodeVar(n) + rest;
    if k == 0 {
      assert b[1..] == rest;
    } else {
      BigEndianRoundTrip(n, k);
      assert b[1..][..k] == BigEndian(n, k) && b[1..][k..] == rest;
    }
  }

  /** No encoding that decodes to a number is shorter than the one that is written. */
  lemma VarIsShortest(n: nat, b: Bytes)
    requires DecodeVar(b) == Some((n, []))
    ensures |EncodeVar(n)| <= |b|
  {
    Powers();
    var k := |b| - 1;
    if b[0] >= 253 {
      assert k == 2 || k == 4 || k == 8;
      BoundedByLength(b[1..][..k]);
    }
  }

  /** The type codes of src/common.hpp, lines 88 to 93, need the three-byte form. */
  lemma TypeCodes()
    ensures EncodeVar(ENCRYPTED_AES_KEY) == [253, 0x02, 0x59] && EncodeVar(ENCRYPTED_CONTENT) == [253, 0x02, 0x5a]
    ensures EncodeVar(PLAIN_TEXT_SIZE) == [253, 0x02, 0x5b] && EncodeVar(INITIAL_VECTOR) == [253, 0x02, 0x5d]
    ensures EncodeVar(ATTRIBUTE) == [253, 0x02, 0x5e]
  {
  }

  /** NonNegativeInteger: exactly 1, 2, 4 or 8 bytes. */
  function EncodeNni(n: nat): Bytes {
    if n < 0x100 then BigEndian(n, 1)
    else if n < 0x1_0000 then BigEndian(n, 2)
    else if n < 0x1_0000_0000 then BigEndian(n, 4)
    else BigEndian(n, 8)
  }

  predicate IsNni(b: Bytes) {
    |b| in {1, 2, 4, 8}
  }

  function DecodeNni(b: Bytes): Option<nat> {
    if IsNni(b) then Some(FromBigEndian(b)) else None
  }

  lemma NniRoundTrip(n: nat)
    requires n < LIMIT
    ensures DecodeNni(EncodeNni(n)) == Some(n)
  {
    Powers();
    BigEndianRoundTrip(n, if n < 0x100 then 1 else if n < 0x1_0000 then 2 else if n < 0x1_0000_0000 then 4 else 8);
  }

  lemma NniIsShortest(n: nat, b: Bytes)
    requires DecodeNni(b) == Some(n)
    ensures |EncodeNni(n)| <= |b|
  {
    Powers();
    BoundedByLength(b);
  }

  function EncodeBlock(b: Block): Bytes {
    EncodeVar(b.typ) + EncodeVar(|b.value|) + b.value
  }

  /** One block from the front of a buffer, and what follows it. */
  function DecodeBlock(b: Bytes): (r: Option<(Block, Bytes)>)
    ensures r.Some? ==> |r.value.1| < |b|
  {
    var (typ, afterType) :- DecodeVar(b);
    var (length, afterLength) :- DecodeVar(afterType);
    if length <= |afterLength| then Some((Block(typ, afterLength[..length]), afterLength[length..])) else None
  }

  lemma BlockRoundTrip(b: Block, rest: Bytes)
    requires b.Fits()
    ensures DecodeBlock(EncodeBlock(b) + rest) == Some((b, rest))
  {
    var typ, length, tail := EncodeVar(b.typ), EncodeVar(|b.value|), b.value + rest;
    Associative(typ + length, b.value, rest);
    Associative(typ, length, tail);
    VarRoundTrip(b.typ, length + tail);
    VarRoundTrip(|b.value|, tail);
    assert tail[..|b.value|] == b.value && tail[|b.value|..] == rest;
  }

  /** A block is its type, its length and its value, in this order. */
  lemma BlockLayout(b: Block)
    requires b.Fits()
    ensures var afterType := EncodeVar(|b.value|) + b.value;
            DecodeVar(EncodeBlock(b)) == Some((b.typ, afterType)) && DecodeVar(afterType) == Some((|b.value|, b.value))
  {
    Associative(EncodeVar(b.typ), EncodeVar(|b.value|), b.value);
    VarRoundTrip(b.typ, EncodeVar(|b.value|) + b.value);
    VarRoundTrip(|b.value|, b.value);
  }

  lemma Associative(a: Bytes, b: Bytes, c: Bytes)
    ensures (a + b) + c == a + (b + c)
  {
  }

  function EncodeBlocks(bs: seq<Block>): Bytes {
    if bs == [] then [] else EncodeBlock(bs[0]) + EncodeBlocks(bs[1..])
  }

  /** `Block::parse`: the nested elements that fill a value. */
  function DecodeBlocks(b: Bytes): Option<seq<Block>>
    decreases |b|
  {
    if b == [] then Some([])
    else
      var (first, rest) :- DecodeBlock(b);
      var others :- DecodeBlocks(rest);
      Some([first] + others)
  }

  predicate AllFit(bs: seq<Block>) {
    forall b <- bs :: b.Fits()
  }

  lemma {:induction false} BlocksRoundTrip(bs: seq<Block>)
    requires AllFit(bs)
    ensures DecodeBlocks(EncodeBlocks(bs)) == Some(bs)
  {
    if bs != [] {
      BlockRoundTrip(bs[0], EncodeBlocks(bs[1..]));
      BlocksRoundTrip(bs[1..]);
      assert bs == [bs[0]] + bs[1..];
    }
  }

  lemma {:induction false} EncodeBlocksAppend(bs: seq<Block>, cs: seq<Block>)
    ensures EncodeBlocks(bs + cs) == EncodeBlocks(bs) + EncodeBlocks(cs)
  {
    if bs == [] {
      assert bs + cs == cs;
    } else {
      EncodeBlocksAppend(bs[1..], cs);
      Associative(EncodeBlock(bs[0]), EncodeBlocks(bs[1..]), EncodeBlocks(cs));
      assert (bs + cs)[1..] == bs[1..] + cs;
    }
  }

  /** `Block(buffer)`: the buffer must hold exactly one block. */
  function DecodeWhole(b: Bytes): Option<Block> {
    var (block, rest) :- DecodeBlock(b);
    if rest == [] then Some(block) else None
  }

  lemma WholeRoundTrip(b: Block)
    requires b.Fits()
    ensures DecodeWhole(EncodeBlock(b)) == Some(b)
  {
    BlockRoundTrip(b, []);
    assert EncodeBlock(b) + [] == EncodeBlock(b);
  }

  /** `Block::get`: the value of the first element of a type; the original throws when there is none. */
  function Get(elements: seq<Block>, typ: nat): Option<Bytes> {
    if elements == [] then None
    else if elements[0].typ == typ then Some(elements[0].value)
    else Get(elements[1..], typ)
  }

  /** A block of type Content around the given elements, as `encode` lays it out. */
  function EncodeContent(elements: seq<Block>): Bytes {
    EncodeBlock(Block(CONTENT, EncodeBlocks(elements)))
  }

  /** The elements of a buffer that holds one block. */
  function DecodeContent(wire: Bytes): Option<seq<Block>> {
    var block :- DecodeWhole(wire);
    DecodeBlocks(block.value)
  }

  lemma ContentRoundTrip(elements: seq<Block>)
    requires AllFit(elements) && |EncodeBlocks(elements)| < LIMIT
    ensures DecodeContent(EncodeContent(elements)) == Some(elements)
    ensures DecodeWhole(EncodeContent(elements)).Some? && DecodeWhole(EncodeContent(elements)).value.typ == 21
  {
    WholeRoundTrip(Block(CONTENT, EncodeBlocks(elements)));
    BlocksRoundTrip(elements);
  }
}
