/** NDN names and segmented objects. */
module Names {
  import opened Options
  import opened ByteStrings
  import opened Tlv

  /** A name is its sequence of components; each component is a TLV block. */
  type Name = seq<Block>

  function Generic(value: Bytes): Block {
    Block(GENERIC_COMPONENT, value)
  }

  function SegmentNumber(i: nat): Block {
    Block(SEGMENT_COMPONENT, EncodeNni(i))
  }

  function Version(v: nat): Block {
    Block(VERSION_COMPONENT, EncodeNni(v))
  }

  predicate IsSegment(c: Block) {
    c.typ == SEGMENT_COMPONENT && IsNni(c.value)
  }

  predicate IsVersion(c: Block) {
    c.typ == VERSION_COMPONENT && IsNni(c.value)
  }

  predicate EndsInSegment(name: Name) {
    |name| > 0 && IsSegment(name[|name| - 1])
  }

  /** `getPrefix(-1)`. */
  function Parent(name: Name): Name {
    if name == [] then [] else name[..|name| - 1]
  }

  function EncodeName(name: Name): Bytes {
    EncodeBlock(Block(NAME, EncodeBlocks(name)))
  }

  function NameOfBlock(b: Block): Option<Name> {
    if b.typ == NAME then DecodeBlocks(b.value) else None
  }

  /** `Name(component.blockFromValue())`. */
  function DecodeName(wire: Bytes): Option<Name> {
    var block :- DecodeWhole(wire);
    NameOfBlock(block)
  }

  predicate NameFits(name: Name) {
    AllFit(name) && |EncodeName(name)| < LIMIT
  }

  lemma NameRoundTrip(name: Name)
    requires NameFits(name)
    ensures DecodeName(EncodeName(name)) == Some(name)
    ensures NameOfBlock(Block(NAME, EncodeBlocks(name))) == Some(name)
  {
    WholeRoundTrip(Block(NAME, EncodeBlocks(name)));
    BlocksRoundTrip(name);
  }

  datatype Data = Data(name: Name, content: Bytes)

  function Split(b: Bytes, max: nat): (parts: seq<Bytes>)
    requires max > 0
    ensures 0 < |parts| <= |b| + 1
    ensures forall i :: 0 <= i < |parts| ==> |parts[i]| <= max
    ensures forall i :: 0 <= i < |parts| - 1 ==> |parts[i]| == max
  {
    if |b| <= max then [b] else [b[..max]] + Split(b[max..], max)
  }

  function Join(parts: seq<Bytes>): Bytes {
    if parts == [] then [] else parts[0] + Join(parts[1..])
  }

  /** `Segmenter::segment`: consecutive pieces named object name + segment number. */
  function Segment(b: Bytes, obj: Name, max: nat): seq<Data>
    requires max > 0
  {
    var parts := Split(b, max);
    seq(|parts|, i requires 0 <= i < |parts| => Data(obj + [SegmentNumber(i)], parts[i]))
  }

  /** What a completed `SegmentFetcher` hands over: the contents in segment order. */
  function Reassemble(ds: seq<Data>): Bytes {
    Join(seq(|ds|, i requires 0 <= i < |ds| => ds[i].content))
  }

  lemma {:induction false} JoinSplit(b: Bytes, max: nat)
    requires max > 0
    ensures Join(Split(b, max)) == b
  {
    if |b| <= max {
      assert Join([b]) == b + Join([]);
    } else {
      JoinSplit(b[max..], max);
      assert Split(b, max)[1..] == Split(b[max..], max);
    }
  }

  lemma ReassembleSegment(b: Bytes, obj: Name, max: nat)
    requires max > 0
    ensures Reassemble(Segment(b, obj, max)) == b
  {
    var ds := Segment(b, obj, max);
    assert seq(|ds|, i requires 0 <= i < |ds| => ds[i].content) == Split(b, max);
    JoinSplit(b, max);
  }

  /** Segments carry the name of the object and a number, respect the maximum, and only the last may be short. */
  lemma SegmentSizes(b: Bytes, obj: Name, max: nat)
    requires max > 0
    ensures var ds := Segment(b, obj, max);
            && |ds| > 0
            && (forall i :: 0 <= i < |ds| ==> ds[i].name == obj + [SegmentNumber(i)] && |ds[i].content| <= max)
            && (forall i :: 0 <= i < |ds| - 1 ==> |ds[i].content| == max)
  {
  }

  lemma SegmentNumberInjective(i: nat, j: nat)
    requires i < LIMIT && j < LIMIT && SegmentNumber(i) == SegmentNumber(j)
    ensures i == j
  {
    NniRoundTrip(i);
    NniRoundTrip(j);
  }
}
