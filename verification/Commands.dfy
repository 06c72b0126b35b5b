/** src/data-owner.cpp and the decoding half of src/producer.cpp: policy commands. */
module Commands {
  import opened Options
  import opened ByteStrings
  import opened Tlv
  import opened Names

  const SET_POLICY: Bytes := Ascii("SET_POLICY")

  function AttributeBlock(attribute: Bytes): Block {
    Block(ATTRIBUTE, attribute)
  }

  function AttributeBlocks(attributes: seq<Bytes>): seq<Block> {
    seq(|attributes|, i requires 0 <= i < |attributes| => AttributeBlock(attributes[i]))
  }

  /** The bytes of a list built from its end, each attribute put in front of what is there. */
  function PrependEach(attributes: seq<Bytes>): Bytes {
    if attributes == [] then [] else EncodeBlock(AttributeBlock(attributes[0])) + PrependEach(attributes[1..])
  }

  /** The bytes of a list built from its start, each attribute put behind what is there. */
  function AppendEach(attributes: seq<Bytes>): Bytes {
    if attributes == [] then []
    else
      var n := |attributes| - 1;
      AppendEach(attributes[..n]) + EncodeBlock(AttributeBlock(attributes[n]))
  }

  lemma {:induction false} PrependIsBlocks(attributes: seq<Bytes>)
    ensures PrependEach(attributes) == EncodeBlocks(AttributeBlocks(attributes))
  {
    if attributes != [] {
      PrependIsBlocks(attributes[1..]);
      assert AttributeBlocks(attributes)[1..] == AttributeBlocks(attributes[1..]);
    }
  }

  lemma {:induction false} AppendIsBlocks(attributes: seq<Bytes>)
    ensures AppendEach(attributes) == EncodeBlocks(AttributeBlocks(attributes))
  {
    if attributes != [] {
      var n := |attributes| - 1;
      var last := AttributeBlock(attributes[n]);
      AppendIsBlocks(attributes[..n]);
      EncodeBlocksAppend(AttributeBlocks(attributes[..n]), [last]);
      assert AttributeBlocks(attributes) == AttributeBlocks(attributes[..n]) + [last];
      assert EncodeBlocks([last]) == EncodeBlock(last) + EncodeBlocks([]);
    }
  }

  /** Building backwards and building forwards give the same bytes. */
  lemma BackwardIsForward(attributes: seq<Bytes>)
    ensures PrependEach(attributes) == AppendEach(attributes)
  {
    PrependIsBlocks(attributes);
    AppendIsBlocks(attributes);
  }

  /** The data owner's loop: value, length and type are prepended for each attribute, last to first. */
  method EncodeAttributesBackward(attributes: seq<Bytes>) returns (enc: Bytes)
    ensures enc == PrependEach(attributes)
  {
    enc := [];
    for i := |attributes| downto 0
      invariant enc == PrependEach(attributes[i..])
    {
      assert attributes[i..][1..] == attributes[i + 1..];
      ghost var tail := enc;
      enc := attributes[i] + enc;
      enc := EncodeVar(|attributes[i]|) + enc;
      enc := EncodeVar(ATTRIBUTE) + enc;
      assert enc == EncodeBlock(AttributeBlock(attributes[i])) + tail;
    }
  }

  /** The producer's loop over `push_back` that makes the last component of a CK name. */
  method EncodeAttributesForward(attributes: seq<Bytes>) returns (value: Bytes)
    ensures value == AppendEach(attributes)
  {
    value := [];
    for i := 0 to |attributes|
      invariant value == AppendEach(attributes[..i])
    {
      assert attributes[..i + 1][..i] == attributes[..i];
      value := value + EncodeBlock(AttributeBlock(attributes[i]));
    }
    assert attributes[..|attributes|] == attributes;
  }

  function CommandName(producer: Name, dataPrefix: Name, payload: Bytes): Name {
    producer + [Generic(SET_POLICY), Generic(EncodeName(dataPrefix)), Generic(payload)]
  }

  /** `commandProducerPolicyImpl`, up to the signature that is appended to the name. */
  method BuildCommandName(producer: Name, dataPrefix: Name, payload: Bytes) returns (policyName: Name)
    ensures policyName == CommandName(producer, dataPrefix, payload)
  {
    policyName := producer;
    policyName := policyName + [Generic(SET_POLICY)];
    policyName := policyName + [Generic(EncodeName(dataPrefix))];
    policyName := policyName + [Generic(payload)];
  }

  // ---------- The producer's side ----------

  /** The reads of `onPolicyInterest`, None where one of them throws. */
  function CommandPrefix(identitySize: nat, name: Name): Option<Name> {
    if |name| > identitySize + 1 then DecodeName(name[identitySize + 1].value) else None
  }

  function CommandPolicy(identitySize: nat, name: Name): Option<Bytes> {
    if |name| > identitySize + 2 then Some(name[identitySize + 2].value) else None
  }

  function Values(elements: seq<Block>): seq<Bytes> {
    seq(|elements|, i requires 0 <= i < |elements| => elements[i].value)
  }

  function CommandAttributes(identitySize: nat, name: Name): Option<seq<Bytes>> {
    var value :- CommandPolicy(identitySize, name);
    var elements :- DecodeBlocks(value);
    Some(Values(elements))
  }

  method ReadStrings(elements: seq<Block>) returns (strings: seq<Bytes>)
    ensures strings == Values(elements)
  {
    strings := [];
    for i := 0 to |elements|
      invariant strings == Values(elements[..i])
    {
      strings := strings + [elements[i].value];
    }
    assert elements[..|elements|] == elements;
  }

  /** A policy command falls under the prefix on which the producer listens, and what the producer
      decodes from it is what the owner encoded, whatever components the signature adds behind it. */
  lemma PolicyCommandRoundTrip(producer: Name, dataPrefix: Name, policy: Bytes, signature: Name)
    requires NameFits(dataPrefix)
    ensures var name := CommandName(producer, dataPrefix, policy) + signature;
            && producer + [Block(8, Ascii("SET_POLICY"))] <= name
            && CommandPrefix(|producer|, name) == Some(dataPrefix) && CommandPolicy(|producer|, name) == Some(policy)
  {
    NameRoundTrip(dataPrefix);
  }

  lemma AttributePayloadRoundTrip(attributes: seq<Bytes>)
    requires forall a <- attributes :: |a| < LIMIT
    ensures DecodeBlocks(PrependEach(attributes)) == Some(AttributeBlocks(attributes))
    ensures DecodeBlocks(AppendEach(attributes)) == Some(AttributeBlocks(attributes))
    ensures Values(AttributeBlocks(attributes)) == attributes
  {
    PrependIsBlocks(attributes);
    AppendIsBlocks(attributes);
    forall b <- AttributeBlocks(attributes)
      ensures b.Fits()
    {
      var i :| 0 <= i < |attributes| && b == AttributeBlocks(attributes)[i];
      assert attributes[i] in attributes;
    }
    BlocksRoundTrip(AttributeBlocks(attributes));
  }

  lemma AttributeCommandRoundTrip(producer: Name, dataPrefix: Name, attributes: seq<Bytes>, signature: Name)
    requires NameFits(dataPrefix) && forall a <- attributes :: |a| < LIMIT
    ensures var name := CommandName(producer, dataPrefix, PrependEach(attributes)) + signature;
            && producer + [Block(8, Ascii("SET_POLICY"))] <= name
            && CommandPrefix(|producer|, name) == Some(dataPrefix) && CommandAttributes(|producer|, name) == Some(attributes)
  {
    PolicyCommandRoundTrip(producer, dataPrefix, PrependEach(attributes), signature);
    AttributePayloadRoundTrip(attributes);
  }
}
