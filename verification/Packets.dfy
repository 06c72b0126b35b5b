/** The packet formats: content packets, CK packets and the hybrid envelope of DKEY packets. */
module Packets {
  import opened Options
  import opened ByteStrings
  import opened Tlv
  import opened Names
  import opened Crypto

  /** What a consumer reads from a content packet. */
  datatype Content = Content(cipher: Bytes, plainSize: nat, ckName: Name)

  function CipherElements(cipher: Bytes, plainSize: nat): seq<Block> {
    [Block(ENCRYPTED_CONTENT, cipher), Block(PLAIN_TEXT_SIZE, EncodeNni(plainSize))]
  }

  function NameElement(name: Name): Block {
    Block(NAME, EncodeBlocks(name))
  }

  function DataElements(content: Content): seq<Block> {
    CipherElements(content.cipher, content.plainSize) + [NameElement(content.ckName)]
  }

  function EncodeDataContent(content: Content): Bytes {
    EncodeContent(DataElements(content))
  }

  /** The reads of `decryptContent`; None where one of them throws. */
  function ReadContent(elements: seq<Block>): Option<Content> {
    var cipher :- Get(elements, ENCRYPTED_CONTENT);
    var sizeBytes :- Get(elements, PLAIN_TEXT_SIZE);
    var size :- DecodeNni(sizeBytes);
    var nameBytes :- Get(elements, NAME);
    var name :- DecodeBlocks(nameBytes);
    Some(Content(cipher, size % UINT32, name))
  }

  function ParseDataContent(wire: Bytes): Option<Content> {
    var elements :- DecodeContent(wire);
    ReadContent(elements)
  }

  lemma ReadDataElements(content: Content)
    requires content.plainSize < UINT32 && AllFit(content.ckName)
    ensures ReadContent(DataElements(content)) == Some(content)
  {
    var a, b := Block(ENCRYPTED_CONTENT, content.cipher), Block(PLAIN_TEXT_SIZE, EncodeNni(content.plainSize));
    var c := NameElement(content.ckName);
    assert DataElements(content) == [a, b, c];
    GetOfThree(a, b, c);
    NniRoundTrip(content.plainSize);
    BlocksRoundTrip(content.ckName);
  }

  /** Parsing a built content packet by type returns the cipher text, the plaintext size and the CK
      name, whatever bytes they hold and whatever their lengths. */
  lemma DataContentRoundTrip(content: Content)
    requires content.plainSize < UINT32 && AllFit(content.ckName)
    requires |EncodeDataContent(content)| < LIMIT
    ensures ParseDataContent(EncodeDataContent(content)) == Some(content)
  {
    var elements := DataElements(content);
    FitsInside(elements);
    ContentRoundTrip(elements);
    ReadDataElements(content);
  }

  /** The wire of a content packet: encrypted content (602), plaintext size (603), CK name (7). */
  lemma DataContentWire(content: Content)
    requires content.plainSize < UINT32 && AllFit(content.ckName)
    requires |EncodeDataContent(content)| < LIMIT
    ensures var elements := DecodeContent(EncodeDataContent(content));
            && elements.Some? && |elements.value| == 3
            && elements.value[0] == Block(602, content.cipher)
            && elements.value[1].typ == 603 && DecodeNni(elements.value[1].value) == Some(content.plainSize)
            && elements.value[2].typ == 7 && DecodeBlocks(elements.value[2].value) == Some(content.ckName)
  {
    FitsInside(DataElements(content));
    ContentRoundTrip(DataElements(content));
    NniRoundTrip(content.plainSize);
    BlocksRoundTrip(content.ckName);
  }

  /** Every value inside an encoded block is no longer than the block. */
  lemma {:induction false} SizesInside(elements: seq<Block>, i: nat)
    requires i < |elements|
    ensures |elements[i].value| <= |EncodeBlocks(elements)|
  {
    if i > 0 {
      SizesInside(elements[1..], i - 1);
    }
  }

  lemma FitsInside(elements: seq<Block>)
    requires |EncodeContent(elements)| < LIMIT && forall i :: 0 <= i < |elements| ==> elements[i].typ < LIMIT
    ensures AllFit(elements) && |EncodeBlocks(elements)| < LIMIT
  {
    forall b <- elements
      ensures b.Fits()
    {
      var i :| 0 <= i < |elements| && elements[i] == b;
      SizesInside(elements, i);
    }
  }

  lemma GetOfThree(a: Block, b: Block, c: Block)
    requires a.typ != b.typ && a.typ != c.typ && b.typ != c.typ
    ensures Get([a, b, c], a.typ) == Some(a.value)
    ensures Get([a, b, c], b.typ) == Some(b.value)
    ensures Get([a, b, c], c.typ) == Some(c.value)
  {
    assert [a, b, c][1..] == [b, c] && [b, c][1..] == [c];
    assert Get([c], c.typ) == Some(c.value);
  }

  /** `CipherText::makeDataContent`: a content block grown element by element, not yet encoded. */
  method MakeDataContent(cipher: Bytes, plainSize: nat) returns (elements: seq<Block>)
    ensures elements == CipherElements(cipher, plainSize)
  {
    elements := [];
    elements := elements + [Block(ENCRYPTED_CONTENT, cipher)];
    elements := elements + [Block(PLAIN_TEXT_SIZE, EncodeNni(plainSize))];
  }

  function EncodeCk(encAesKey: Bytes): Bytes {
    EncodeContent([Block(ENCRYPTED_AES_KEY, encAesKey)])
  }

  /** The reads of the CK completion handler and of `onCkeyData`. */
  function ParseCk(wire: Bytes): Option<Bytes> {
    var elements :- DecodeContent(wire);
    Get(elements, ENCRYPTED_AES_KEY)
  }

  lemma CkRoundTrip(encAesKey: Bytes)
    requires |EncodeCk(encAesKey)| < LIMIT
    ensures ParseCk(EncodeCk(encAesKey)) == Some(encAesKey)
  {
    var elements := [Block(ENCRYPTED_AES_KEY, encAesKey)];
    FitsInside(elements);
    ContentRoundTrip(elements);
  }

  /** The wire of a CK packet: the wrapped key (601). */
  lemma CkWireElements(encAesKey: Bytes)
    requires |EncodeCk(encAesKey)| < LIMIT
    ensures DecodeContent(EncodeCk(encAesKey)) == Some([Block(601, encAesKey)])
  {
    var elements := [Block(ENCRYPTED_AES_KEY, encAesKey)];
    FitsInside(elements);
    ContentRoundTrip(elements);
  }

  // ---------- src/ndn-crypto/data-enc-dec.cpp ----------

  datatype EnvelopeCoins = EnvelopeCoins(aesKey: Bytes, iv: Bytes, rsa: nat)

  function EnvelopeElements(lib: Library, payload: Bytes, rsaKey: Bytes, coins: EnvelopeCoins): seq<Block> {
    [Block(ENCRYPTED_CONTENT, lib.aesEncrypt(coins.aesKey, payload, coins.iv)),
     Block(ENCRYPTED_AES_KEY, lib.rsaEncrypt(rsaKey, coins.aesKey, coins.rsa)),
     Block(INITIAL_VECTOR, coins.iv)]
  }

  function Envelope(lib: Library, payload: Bytes, rsaKey: Bytes, coins: EnvelopeCoins): Bytes {
    EncodeContent(EnvelopeElements(lib, payload, rsaKey, coins))
  }

  function DecryptDataContent(lib: Library, wire: Bytes, key: Bytes): Option<Bytes> {
    var elements :- DecodeContent(wire);
    var iv :- Get(elements, INITIAL_VECTOR);
    var encryptedAesKey :- Get(elements, ENCRYPTED_AES_KEY);
    var encryptedPayload :- Get(elements, ENCRYPTED_CONTENT);
    var aesKey :- lib.rsaDecrypt(key, encryptedAesKey);
    lib.aesDecrypt(aesKey, encryptedPayload, iv)
  }

  /** `encryptDataContentWithCK`. */
  method EncryptDataContentWithCk(lib: Library, payload: Bytes, rsaKey: Bytes, coins: EnvelopeCoins)
    returns (wire: Bytes)
    ensures wire == Envelope(lib, payload, rsaKey, coins)
  {
    var encryptedPayload := lib.aesEncrypt(coins.aesKey, payload, coins.iv);
    var encryptedAesKey := lib.rsaEncrypt(rsaKey, coins.aesKey, coins.rsa);
    var content := [];
    content := content + [Block(ENCRYPTED_CONTENT, encryptedPayload)];
    content := content + [Block(ENCRYPTED_AES_KEY, encryptedAesKey)];
    content := content + [Block(INITIAL_VECTOR, coins.iv)];
    assert content == EnvelopeElements(lib, payload, rsaKey, coins);
    wire := EncodeContent(content);
  }

  /** The owner of the RSA key recovers exactly the payload. */
  lemma EnvelopeRoundTrip(lib: Library, payload: Bytes, rsaKey: Bytes, coins: EnvelopeCoins)
    requires EnvelopeCorrect(lib)
    requires |Envelope(lib, payload, lib.rsaPublic(rsaKey), coins)| < LIMIT
    ensures DecryptDataContent(lib, Envelope(lib, payload, lib.rsaPublic(rsaKey), coins), rsaKey) == Some(payload)
  {
    var elements := EnvelopeElements(lib, payload, lib.rsaPublic(rsaKey), coins);
    FitsInside(elements);
    ContentRoundTrip(elements);
    GetOfThree(elements[0], elements[1], elements[2]);
  }

  /** The wire of the envelope: encrypted payload (602), encrypted AES key (601), initial vector (605). */
  lemma EnvelopeWire(lib: Library, payload: Bytes, rsaKey: Bytes, coins: EnvelopeCoins)
    requires |Envelope(lib, payload, rsaKey, coins)| < LIMIT
    ensures DecodeContent(Envelope(lib, payload, rsaKey, coins))
         == Some([Block(602, lib.aesEncrypt(coins.aesKey, payload, coins.iv)),
                  Block(601, lib.rsaEncrypt(rsaKey, coins.aesKey, coins.rsa)),
                  Block(605, coins.iv)])
  {
    var elements := EnvelopeElements(lib, payload, rsaKey, coins);
    FitsInside(elements);
    ContentRoundTrip(elements);
  }
}
