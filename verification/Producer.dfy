/** src/producer.cpp: from a plaintext and a rule to content packets and the CK packets that open them. */
module Producer {
  import opened Options
  import opened ByteStrings
  import opened Tlv
  import opened Names
  import opened Crypto
  import opened AbeSupport
  import opened Packets
  import opened PrefixTable
  import Attributes
  import Commands
  import ParamFetcher

  const CONTENT_KEY: Bytes := Ascii("CK")
  const ENCRYPT_BY: Bytes := Ascii("ENC-BY")
  const DEFAULT_SEGMENT: nat := 1500

  /** What content is encrypted for: a policy under CP-ABE, an attribute list under KP-ABE. */
  datatype Rule = ByPolicy(policy: Bytes) | ByAttributes(attributes: seq<Bytes>) {
    predicate Usable() {
      ByAttributes? ==> attributes != []
    }

    function Schema(): Schema {
      if ByPolicy? then CpAbe else KpAbe
    }

    function Input(): Bytes
      requires Usable()
    {
      if ByPolicy? then policy else Attributes.JoinAttributes(attributes)
    }

    /** The last component of the CK object's name. */
    function Component(): Block {
      Generic(if ByPolicy? then CString(policy) else Commands.AppendEach(attributes))
    }
  }

  /** The producer's fixed surroundings and the public parameters it has stored. */
  datatype Settings = Settings(lib: Library, identity: Name, abeType: Bytes, pub: Bytes)

  datatype Coins = Coins(symKey: Bytes, wrapping: nat, word: nat, sealing: nat)

  /** A content key with the segments that publish it. */
  datatype CkPair = CkPair(aesKey: Bytes, encAesKey: Bytes, segments: seq<Data>)

  datatype Generated = NoKey | KeyError | Key(pair: CkPair)

  datatype Produced = Nothing | Error | Packets(data: seq<Data>, ck: seq<Data>)

  // ---------- Specification ----------

  /** `std::to_string` of an unsigned number. */
  function Decimal(n: nat): Bytes {
    (if n < 10 then [] else Decimal(n / 10)) + [48 + n % 10]
  }

  function CkObject(identity: Name, rule: Rule, word: nat): Name {
    identity + [Generic(CONTENT_KEY), Generic(Decimal(word)), Generic(ENCRYPT_BY), rule.Component()]
  }

  function CkDataGen(s: Settings, rule: Rule, coins: Coins, max: nat): Generated
    requires rule.Usable() && max > 0
  {
    if s.pub == [] || ParamFetcher.SchemaOf(s.abeType) != Some(rule.Schema()) then NoKey
    else
      match s.lib.wrap(rule.Schema(), s.pub, rule.Input(), coins.symKey, coins.wrapping)
      case None => KeyError
      case Some(wrapped) =>
        var enc := WrappedBuffer(wrapped);
        Key(CkPair(coins.symKey, enc, Segment(EncodeCk(enc), CkObject(s.identity, rule, coins.word), max)))
  }

  function ContentOf(s: Settings, aesKey: Bytes, ckName: Name, plain: Bytes, sealing: nat): Content {
    Content(SealedBuffer(s.lib, aesKey, plain, sealing), |plain| % UINT32, ckName)
  }

  function ContentSegments(s: Settings, aesKey: Bytes, ckName: Name, suffix: Name,
                           plain: Bytes, sealing: nat, max: nat): seq<Data>
    requires max > 0
  {
    Segment(EncodeDataContent(ContentOf(s, aesKey, ckName, plain, sealing)), s.identity + suffix, max)
  }

  function Publish(s: Settings, pair: CkPair, suffix: Name, plain: Bytes, sealing: nat, max: nat): Produced
    requires max > 0
  {
    if pair.segments == [] then Error
    else Packets(ContentSegments(s, pair.aesKey, Parent(pair.segments[0].name), suffix, plain, sealing, max), pair.segments)
  }

  /** The common end of every production: encrypt under the key, if there is one. */
  function PublishUnder(s: Settings, g: Generated, suffix: Name, plain: Bytes, sealing: nat, max: nat): Produced
    requires max > 0
  {
    match g
    case NoKey => Nothing
    case KeyError => Error
    case Key(pair) => Publish(s, pair, suffix, plain, sealing, max)
  }

  function Produce(s: Settings, rule: Rule, suffix: Name, plain: Bytes, coins: Coins, max: nat): Produced
    requires rule.Usable() && max > 0
  {
    PublishUnder(s, CkDataGen(s, rule, coins, max), suffix, plain, coins.sealing, max)
  }

  /** The rule that governs a data name, if any: an empty policy or list counts as none. */
  function GoverningRule(abeType: Bytes, policies: map<Name, Bytes>, attributes: map<Name, seq<Bytes>>,
                         suffix: Name): (r: Option<Rule>)
    ensures r.Some? ==> r.value.Usable()
  {
    match ParamFetcher.SchemaOf(abeType)
    case None => None
    case Some(CpAbe) =>
      var policy := OrDefault(LongestMatch(policies, suffix), []);
      if policy == [] then None else Some(ByPolicy(policy))
    case Some(KpAbe) =>
      var list := OrDefault(LongestMatch(attributes, suffix), []);
      if list == [] then None else Some(ByAttributes(list))
  }

  datatype Reply = NoReply | Replied(success: bool) | Raised

  /** The effect of a policy Interest on the two tables. */
  function OnPolicy(identitySize: nat, abeType: Bytes, policies: Table<Bytes>, attributes: Table<seq<Bytes>>,
                    name: Name, authentic: bool): (Table<Bytes>, Table<seq<Bytes>>, Reply) {
    match Commands.CommandPrefix(identitySize, name)
    case None => (policies, attributes, Raised)
    case Some(prefix) =>
      if !authentic then (policies, attributes, NoReply)
      else
        match ParamFetcher.SchemaOf(abeType)
        case None => (policies, attributes, Replied(false))
        case Some(CpAbe) =>
          (match Commands.CommandPolicy(identitySize, name)
           case None => (policies, attributes, Raised)
           case Some(policy) => (Put(policies, prefix, policy), attributes, Replied(true)))
        case Some(KpAbe) =>
          (match Commands.CommandAttributes(identitySize, name)
           case None => (policies, attributes, Raised)
           case Some(list) => (policies, Put(attributes, prefix, list), Replied(true)))
  }

  // ---------- Implementation ----------

  datatype Ck = NoCk | CkThrew | CkMade(key: ContentKey, segments: seq<Data>)

  ghost predicate Represents(ck: Ck, g: Generated)
    reads if ck.CkMade? then {ck.key} else {}
  {
    match ck
    case NoCk => g == NoKey
    case CkThrew => g == KeyError
    case CkMade(key, segments) => g == Key(CkPair(key.aesKey, key.encAesKey, segments))
  }

  class ProducerNode {
    const identity: Name
    const abe: ABESupport
    const params: ParamFetcher.Client
    const policies: PolicyVector<Bytes>
    const attributes: PolicyVector<seq<Bytes>>

    constructor (identity: Name, abe: ABESupport, params: ParamFetcher.Client)
      ensures this.identity == identity && this.abe == abe && this.params == params
      ensures fresh(policies) && fresh(attributes) && policies.items == [] && attributes.items == []
    {
      this.identity, this.abe, this.params := identity, abe, params;
      this.policies := new PolicyVector<Bytes>();
      this.attributes := new PolicyVector<seq<Bytes>>();
    }

    function CurrentSettings(): Settings
      reads params
    {
      Settings(abe.lib, identity, params.abeType, params.pub)
    }

    method CkDataGenPolicy(policy: Bytes, coins: Coins, max: nat) returns (ck: Ck)
      requires max > 0
      ensures Represents(ck, CkDataGen(CurrentSettings(), ByPolicy(policy), coins, max))
      ensures ck.CkMade? ==>
                && ck.key.aesKey == coins.symKey
                && abe.lib.wrap(CpAbe, params.pub, policy, coins.symKey, coins.wrapping).Some?
                && ck.key.encAesKey == WrappedBuffer(abe.lib.wrap(CpAbe, params.pub, policy, coins.symKey, coins.wrapping).value)
      ensures ck.CkMade? ==> fresh(ck.key)
    {
      if params.pub == [] {
        return NoCk;
      } else if params.abeType != ParamFetcher.CP_ABE {
        return NoCk;
      }
      var contentKey := abe.CpContentKeyGen(params.pub, policy, coins.symKey, coins.wrapping);
      if contentKey.None? {
        return CkThrew;
      }
      var ckName := identity;
      ckName := ckName + [Generic(CONTENT_KEY)] + [Generic(Decimal(coins.word))];
      var ckBlock := contentKey.value.MakeCkContent();
      var ckDataName := ckName + [Generic(ENCRYPT_BY)] + [Generic(CString(policy))];
      assert ckDataName == CkObject(identity, ByPolicy(policy), coins.word);
      ck := CkMade(contentKey.value, Segment(ckBlock, ckDataName, max));
    }

    method CkDataGenAttributes(list: seq<Bytes>, coins: Coins, max: nat) returns (ck: Ck)
      requires max > 0 && list != []
      ensures Represents(ck, CkDataGen(CurrentSettings(), ByAttributes(list), coins, max))
      ensures ck.CkMade? ==>
                && ck.key.aesKey == coins.symKey
                && var w := abe.lib.wrap(KpAbe, params.pub, Attributes.JoinAttributes(list), coins.symKey, coins.wrapping);
                   w.Some? && ck.key.encAesKey == WrappedBuffer(w.value)
      ensures ck.CkMade? ==> fresh(ck.key)
    {
      ParamFetcher.AbeTypesDiffer();
      if params.pub == [] {
        return NoCk;
      } else if params.abeType != ParamFetcher.KP_ABE {
        return NoCk;
      }
      var contentKey := abe.KpContentKeyGen(params.pub, list, coins.symKey, coins.wrapping);
      if contentKey.None? {
        return CkThrew;
      }
      var nc := Commands.EncodeAttributesForward(list);
      var ckDataName := identity + [Generic(CONTENT_KEY)] + [Generic(Decimal(coins.word))]
                        + [Generic(ENCRYPT_BY)] + [Generic(nc)];
      assert ckDataName == CkObject(identity, ByAttributes(list), coins.word);
      var ckBlock := contentKey.value.MakeCkContent();
      ck := CkMade(contentKey.value, Segment(ckBlock, ckDataName, max));
    }

    method GetCkEncryptedData(suffix: Name, cipherText: CipherText, ckName: Name, max: nat) returns (segments: seq<Data>)
      requires max > 0
      ensures segments == Segment(EncodeDataContent(Content(cipherText.content, cipherText.plainTextSize, ckName)),
                                  identity + suffix, max)
    {
      var dataBlock := MakeDataContent(cipherText.content, cipherText.plainTextSize);
      dataBlock := dataBlock + [NameElement(ckName)];
      segments := Segment(EncodeContent(dataBlock), identity + suffix, max);
    }

    method ProduceWithKey(key: ContentKey, keyName: Name, suffix: Name, plain: Bytes, sealing: nat, max: nat)
      returns (segments: seq<Data>)
      requires max > 0
      ensures segments == ContentSegments(CurrentSettings(), key.aesKey, keyName, suffix, plain, sealing, max)
      ensures var content := Content(SealedBuffer(abe.lib, key.aesKey, plain, sealing), |plain| % UINT32, keyName);
              segments == Segment(EncodeDataContent(content), identity + suffix, max)
    {
      var cipherText := abe.Encrypt(key, plain, sealing);
      segments := GetCkEncryptedData(suffix, cipherText, keyName, max);
    }

    method ProducePolicy(suffix: Name, policy: Bytes, plain: Bytes, coins: Coins, max: nat) returns (result: Produced)
      requires max > 0
      ensures result == Produce(CurrentSettings(), ByPolicy(policy), suffix, plain, coins, max)
    {
      var ck := CkDataGenPolicy(policy, coins, max);
      result := Finish(ck, suffix, plain, coins.sealing, max);
    }

    method ProduceAttributes(suffix: Name, list: seq<Bytes>, plain: Bytes, coins: Coins, max: nat) returns (result: Produced)
      requires max > 0 && list != []
      ensures result == Produce(CurrentSettings(), ByAttributes(list), suffix, plain, coins, max)
    {
      var ck := CkDataGenAttributes(list, coins, max);
      result := Finish(ck, suffix, plain, coins.sealing, max);
    }

    /** The common end of the two `produce` overloads: name the CK object and encrypt under its key. */
    method Finish(ck: Ck, suffix: Name, plain: Bytes, sealing: nat, max: nat) returns (result: Produced)
      requires max > 0
      ensures forall g :: Represents(ck, g) ==> result == PublishUnder(CurrentSettings(), g, suffix, plain, sealing, max)
    {
      match ck
      case NoCk => result := Nothing;
      case CkThrew => result := Error;
      case CkMade(key, segments) =>
        if segments == [] {
          return Error;
        }
        var ckObjName := Parent(segments[0].name);
        var data := ProduceWithKey(key, ckObjName, suffix, plain, sealing, max);
        result := Packets(data, segments);
    }

    /** `produce` by data name: the rule comes from the routing table. */
    method ProduceByName(suffix: Name, plain: Bytes, coins: Coins, max: nat) returns (result: Produced)
      requires max > 0
      requires Distinct(policies.items) && Distinct(attributes.items)
      ensures var rule := GoverningRule(params.abeType, AsMap(policies.items), AsMap(attributes.items), suffix);
              result == if rule.None? then Nothing
                        else Produce(CurrentSettings(), rule.value, suffix, plain, coins, max)
    {
      if params.abeType == ParamFetcher.CP_ABE {
        var policy := policies.FindMatched(suffix, []);
        if policy == [] {
          return Nothing;
        }
        result := ProducePolicy(suffix, policy, plain, coins, max);
      } else if params.abeType == ParamFetcher.KP_ABE {
        var list := attributes.FindMatched(suffix, []);
        if list == [] {
          return Nothing;
        }
        result := ProduceAttributes(suffix, list, plain, coins, max);
      } else {
        result := Nothing;
      }
    }

    /** The policy command handler; `authentic` is the verdict of the signature check. */
    method OnPolicyInterest(name: Name, authentic: bool) returns (reply: Reply)
      requires policies != attributes as object
      modifies policies, attributes
      ensures (policies.items, attributes.items, reply)
           == OnPolicy(|identity|, params.abeType, old(policies.items), old(attributes.items), name, authentic)
    {
      var dataPrefix := Commands.CommandPrefix(|identity|, name);
      if dataPrefix.None? {
        return Raised;
      }
      if !authentic {
        return NoReply;
      }
      var success := false;
      if params.abeType == ParamFetcher.CP_ABE {
        if |name| <= |identity| + 2 {
          return Raised;
        }
        policies.Add(dataPrefix.value, name[|identity| + 2].value);
        success := true;
      } else if params.abeType == ParamFetcher.KP_ABE {
        if |name| <= |identity| + 2 {
          return Raised;
        }
        var elements := DecodeBlocks(name[|identity| + 2].value);
        if elements.None? {
          return Raised;
        }
        var attrs := Commands.ReadStrings(elements.value);
        attributes.Add(dataPrefix.value, attrs);
        success := true;
      }
      reply := Replied(success);
    }
  }

  // ---------- Properties ----------

  function FromDecimal(b: Bytes): int {
    if b == [] then 0
    else
      var last: int := b[|b| - 1];
      10 * FromDecimal(b[..|b| - 1]) + (last - 48)
  }

  lemma {:induction false} DecimalRoundTrip(n: nat)
    ensures FromDecimal(Decimal(n)) == n
  {
    var tens := if n < 10 then [] else Decimal(n / 10);
    assert Decimal(n)[..|Decimal(n)| - 1] == tens;
    if n >= 10 {
      DecimalRoundTrip(n / 10);
    }
  }

  /** Keys generated with different random words never share a CK name, whatever their rules. */
  lemma CkNamesDistinct(identity: Name, a: Rule, wordA: nat, b: Rule, wordB: nat)
    requires CkObject(identity, a, wordA) == CkObject(identity, b, wordB)
    ensures wordA == wordB
  {
    var n := |identity| + 1;
    assert CkObject(identity, a, wordA)[n] == Generic(Decimal(wordA));
    assert CkObject(identity, b, wordB)[n] == Generic(Decimal(wordB));
    DecimalRoundTrip(wordA);
    DecimalRoundTrip(wordB);
  }

  /** A CK name reads identity, CK, the random word, ENC-BY and what the key was wrapped for: the
      attribute list, or the policy up to its first NUL, so the policy itself exactly when it has none. */
  lemma CkNameTellsRule(identity: Name, rule: Rule, word: nat)
    requires rule.ByAttributes? ==> forall a <- rule.attributes :: |a| < LIMIT
    ensures var name := CkObject(identity, rule, word);
            var n := |identity|;
            && |name| == n + 4 && identity <= name
            && name[n] == Block(8, Ascii("CK")) && name[n + 2] == Block(8, Ascii("ENC-BY"))
            && FromDecimal(name[n + 1].value) == word
            && match rule
               case ByPolicy(policy) =>
                 name[n + 3].value == CString(policy) && (name[n + 3].value == policy <==> NulFree(policy))
               case ByAttributes(list) =>
                 var elements := DecodeBlocks(name[n + 3].value);
                 elements.Some? && Commands.Values(elements.value) == list
  {
    DecimalRoundTrip(word);
    match rule
    case ByPolicy(policy) => TerminatedRoundTrip(policy);
    case ByAttributes(list) => Commands.AttributePayloadRoundTrip(list);
  }

  /** A policy Interest changes the tables only if it is authentic and its parts decode under the
      producer's scheme, and exactly then it is answered with success. A forged one gets no reply, an
      authentic one before the parameters a failure, and a malformed one raises. */
  lemma OnlyGoodCommandsCount(identitySize: nat, abeType: Bytes, policies: Table<Bytes>, attributes: Table<seq<Bytes>>,
                              name: Name, authentic: bool)
    ensures var (policies', attributes', reply) := OnPolicy(identitySize, abeType, policies, attributes, name, authentic);
            var decodes := match ParamFetcher.SchemaOf(abeType)
                           case None => false
                           case Some(CpAbe) => Commands.CommandPolicy(identitySize, name).Some?
                           case Some(KpAbe) => Commands.CommandAttributes(identitySize, name).Some?;
            var prefixed := Commands.CommandPrefix(identitySize, name).Some?;
            && (reply == Replied(true) <==> authentic && prefixed && decodes)
            && (reply == Replied(false) <==> authentic && prefixed && ParamFetcher.SchemaOf(abeType).None?)
            && (reply == NoReply <==> prefixed && !authentic)
            && (reply == Raised <==>
                  !prefixed || (authentic && ParamFetcher.SchemaOf(abeType).Some? && !decodes))
            && (reply != Replied(true) ==> policies' == policies && attributes' == attributes)
            && (policies' == policies || attributes' == attributes)
  {
    hide Commands.CommandPrefix, Commands.CommandPolicy, Commands.CommandAttributes, Put;
  }

  // ---------- What content is encrypted for ----------

  /** ABE asked to wrap a key for a policy as it stands, or for the attributes joined by bars. */
  function WrapFor(lib: Library, pub: Bytes, rule: Rule, key: Bytes, coins: nat): Option<Bytes>
    requires rule.Usable()
  {
    match rule
    case ByPolicy(policy) => lib.wrap(CpAbe, pub, policy, key, coins)
    case ByAttributes(list) => lib.wrap(KpAbe, pub, Attributes.JoinAttributes(list), key, coins)
  }

  /** Keys generated for d satisfy the policy, or are satisfied by the attributes. */
  predicate MayRead(lib: Library, rule: Rule, d: Bytes)
    requires rule.Usable()
  {
    match rule
    case ByPolicy(policy) => lib.satisfies(CpAbe, policy, d)
    case ByAttributes(list) => lib.satisfies(KpAbe, Attributes.JoinAttributes(list), d)
  }

  /** The deployment whose keys a rule is for. */
  function DeploymentFor(rule: Rule, pub: Bytes): Deployment {
    match rule
    case ByPolicy(_) => Deployment(CpAbe, pub)
    case ByAttributes(_) => Deployment(KpAbe, pub)
  }

  /** ABE is given the same for both rules. */
  predicate SameInput(a: Rule, b: Rule) {
    match (a, b)
    case (ByPolicy(p), ByPolicy(q)) => p == q
    case (ByAttributes(l), ByAttributes(m)) =>
      l != [] && m != [] && Attributes.JoinAttributes(l) == Attributes.JoinAttributes(m)
    case _ => false
  }

  /** Key generation does nothing without parameters or under the other scheme, and otherwise wraps a
      fresh key for exactly the policy or the joined attributes of the caller. */
  lemma KeyIsForRule(s: Settings, rule: Rule, coins: Coins, max: nat)
    requires rule.Usable() && max > 0
    ensures var g := CkDataGen(s, rule, coins, max);
            match rule
            case ByPolicy(policy) =>
              var wrapped := s.lib.wrap(CpAbe, s.pub, policy, coins.symKey, coins.wrapping);
              && (g == NoKey <==> s.pub == [] || s.abeType != Ascii("CP-ABE"))
              && (g != NoKey ==> (g == KeyError <==> wrapped.None?))
              && (g.Key? ==> wrapped.Some? && g.pair.aesKey == coins.symKey && g.pair.encAesKey == WrappedBuffer(wrapped.value))
            case ByAttributes(list) =>
              var wrapped := s.lib.wrap(KpAbe, s.pub, Attributes.JoinAttributes(list), coins.symKey, coins.wrapping);
              && (g == NoKey <==> s.pub == [] || s.abeType != Ascii("KP-ABE"))
              && (g != NoKey ==> (g == KeyError <==> wrapped.None?))
              && (g.Key? ==> wrapped.Some? && g.pair.aesKey == coins.symKey && g.pair.encAesKey == WrappedBuffer(wrapped.value))
  {
    ParamFetcher.SchemaNames(s.abeType);
    hide ParamFetcher.SchemaOf;
  }

  /** Production yields packets exactly when there are parameters of the rule's scheme and ABE wraps the
      key; without such parameters nothing, and an error when ABE throws. */
  lemma ProduceOutcome(s: Settings, rule: Rule, suffix: Name, plain: Bytes, coins: Coins, max: nat)
    requires rule.Usable() && max > 0
    ensures var out := Produce(s, rule, suffix, plain, coins, max);
            var stored := s.pub != [] && s.abeType == (if rule.ByPolicy? then Ascii("CP-ABE") else Ascii("KP-ABE"));
            var wrapped := WrapFor(s.lib, s.pub, rule, coins.symKey, coins.wrapping);
            && (out == Nothing <==> !stored)
            && (out == Error <==> stored && wrapped.None?)
            && (out.Packets? <==> stored && wrapped.Some?)
  {
    KeyIsForRule(s, rule, coins, max);
    if CkDataGen(s, rule, coins, max).Key? {
      GeneratedPair(s, rule, coins, max);
    }
    hide CkDataGen;
  }

  /** A published pair: the key of the pair is the wrapped one, and the segments carry it under
      an object name that the consumer's normalisation leaves alone, none longer than the maximum. */
  lemma GeneratedPair(s: Settings, rule: Rule, coins: Coins, max: nat)
    requires rule.Usable() && max > 0 && CkDataGen(s, rule, coins, max).Key?
    ensures var pair := CkDataGen(s, rule, coins, max).pair;
            var obj := CkObject(s.identity, rule, coins.word);
            && (match rule
                case ByPolicy(policy) =>
                  WellWrapped(s.lib, Deployment(CpAbe, s.pub), policy, coins.wrapping, pair.aesKey, pair.encAesKey)
                case ByAttributes(list) =>
                  WellWrapped(s.lib, Deployment(KpAbe, s.pub), Attributes.JoinAttributes(list), coins.wrapping,
                              pair.aesKey, pair.encAesKey))
            && Reassemble(pair.segments) == EncodeCk(pair.encAesKey)
            && |pair.segments| > 0
            && (forall i :: 0 <= i < |pair.segments| ==>
                  pair.segments[i].name == obj + [SegmentNumber(i)] && |pair.segments[i].content| <= max)
            && !EndsInSegment(obj)
  {
    var pair := CkDataGen(s, rule, coins, max).pair;
    KeyIsForRule(s, rule, coins, max);
    ReassembleSegment(EncodeCk(pair.encAesKey), CkObject(s.identity, rule, coins.word), max);
  }

  /** What a producer publishes under a pair. */
  lemma PublishedContent(s: Settings, rule: Rule, coins: Coins, suffix: Name, plain: Bytes, sealing: nat, ckMax: nat, max: nat)
    requires AllFit(s.identity) && rule.Usable() && ckMax > 0 && max > 0
    requires CkDataGen(s, rule, coins, ckMax).Key?
    requires var pair := CkDataGen(s, rule, coins, ckMax).pair;
             var out := Publish(s, pair, suffix, plain, sealing, max);
             out.Packets? && |Reassemble(out.data)| < LIMIT && |Reassemble(out.ck)| < LIMIT
    ensures var pair := CkDataGen(s, rule, coins, ckMax).pair;
            var data := Publish(s, pair, suffix, plain, sealing, max).data;
            var content := ParseDataContent(Reassemble(data));
            && content == Some(Content(SealedBuffer(s.lib, pair.aesKey, plain, sealing), |plain| % UINT32,
                                       CkObject(s.identity, rule, coins.word)))
            && ParseCk(Reassemble(pair.segments)) == Some(pair.encAesKey)
            && (forall i :: 0 <= i < |data| ==>
                  data[i].name == s.identity + suffix + [SegmentNumber(i)] && |data[i].content| <= max)
  {
    var pair := CkDataGen(s, rule, coins, ckMax).pair;
    var obj := CkObject(s.identity, rule, coins.word);
    var content := ContentOf(s, pair.aesKey, obj, plain, sealing);
    GeneratedPair(s, rule, coins, ckMax);
    assert Parent(pair.segments[0].name) == obj;
    hide CkDataGen, CkObject, SealedBuffer;
    ReassembleSegment(EncodeDataContent(content), s.identity + suffix, max);
    CkNameFits(s.identity, rule, coins.word, content);
    DataContentRoundTrip(content);
    CkRoundTrip(pair.encAesKey);
  }

  /** Every content packet points at the CK object that opens it: it names the object of the CK
      segments, whose key decrypts the content exactly for the holders whose key satisfies the caller's
      policy, or is satisfied by its attributes. It tells the size of the plaintext. The two buffers
      keep their NUL exactly when they fit a 32-bit size, and then what is recovered is the plaintext
      exactly when that is shorter than 4 GiB. */
  lemma PublishedOpens(s: Settings, rule: Rule, coins: Coins, suffix: Name, plain: Bytes, sealing: nat,
                       ckMax: nat, max: nat, holder: Holder)
    requires Ideal(s.lib) && AllFit(s.identity) && rule.Usable() && ckMax > 0 && max > 0
    requires CkDataGen(s, rule, coins, ckMax).Key?
    requires Holds(s.lib, DeploymentFor(rule, s.pub), holder)
    requires var pair := CkDataGen(s, rule, coins, ckMax).pair;
             var out := Publish(s, pair, suffix, plain, sealing, max);
             out.Packets? && |Reassemble(out.data)| < LIMIT && |Reassemble(out.ck)| < LIMIT
    ensures var pair := CkDataGen(s, rule, coins, ckMax).pair;
            var abe := DeploymentFor(rule, s.pub);
            var obj := CkObject(s.identity, rule, coins.word);
            var data := Publish(s, pair, suffix, plain, sealing, max).data;
            var content := ParseDataContent(Reassemble(data));
            && content.Some? && content.value.ckName == obj && content.value.plainSize == |plain| % UINT32
            && ParseCk(Reassemble(pair.segments)) == Some(pair.encAesKey)
            && (forall i :: 0 <= i < |data| ==>
                  data[i].name == s.identity + suffix + [SegmentNumber(i)] && |data[i].content| <= max)
            && !EndsInSegment(obj)
            && (0 in content.value.cipher <==> |s.lib.seal(coins.symKey, Take32(plain), sealing)| + 1 < UINT32)
            && WrapFor(s.lib, s.pub, rule, coins.symKey, coins.wrapping).Some?
            && (0 in pair.encAesKey <==> |WrapFor(s.lib, s.pub, rule, coins.symKey, coins.wrapping).value| + 1 < UINT32)
            && (0 in content.value.cipher && 0 in pair.encAesKey ==>
                  var outcome := FullPath(s.lib, abe, PrvOf(s.lib, abe, holder), pair.encAesKey, content.value.cipher);
                  && (if MayRead(s.lib, rule, holder.d) then outcome == Success(Take32(plain)) else outcome.Failure?)
                  && (outcome == Success(plain) <==> MayRead(s.lib, rule, holder.d) && |plain| < UINT32))
  {
    var pair := CkDataGen(s, rule, coins, ckMax).pair;
    var e := match rule case ByPolicy(policy) => policy case ByAttributes(list) => Attributes.JoinAttributes(list);
    var abe := DeploymentFor(rule, s.pub);
    PublishedContent(s, rule, coins, suffix, plain, sealing, ckMax, max);
    KeyIsForRule(s, rule, coins, ckMax);
    GeneratedPair(s, rule, coins, ckMax);
    hide CkDataGen, CkObject, Publish, ParseDataContent, ParseCk, FullPath, Reassemble, SealedBuffer;
    WholeBuffers(s.lib, abe, e, coins.wrapping, pair.aesKey, pair.encAesKey, plain, sealing);
    if 0 in SealedBuffer(s.lib, pair.aesKey, plain, sealing) && 0 in pair.encAesKey {
      FullPathOpens(s.lib, abe, holder, e, coins.wrapping, pair.aesKey, pair.encAesKey, plain, sealing);
    }
  }

  lemma CkNameFits(identity: Name, rule: Rule, word: nat, content: Content)
    requires AllFit(identity) && content.ckName == CkObject(identity, rule, word)
    requires |EncodeDataContent(content)| < LIMIT
    ensures AllFit(content.ckName)
  {
    var elements := DataElements(content);
    FitsInside(elements);
    SizesInside(elements, 2);
    forall b <- content.ckName
      ensures b.Fits()
    {
      var i :| 0 <= i < |content.ckName| && content.ckName[i] == b;
      SizesInside(content.ckName, i);
      assert i < |identity| ==> b in identity;
    }
  }

  // ---------- Runs of the routing tables ----------

  /** What reaches the tables, in any order: public parameters are stored, or a policy Interest comes
      in, authentic or forged, well-formed or not, before the parameters or after them. */
  datatype Happening = ParamsStored(abeType: Bytes) | Interest(name: Name, authentic: bool)

  datatype Tables = Tables(abeType: Bytes, policies: Table<Bytes>, attributes: Table<seq<Bytes>>)

  function Handle(identitySize: nat, t: Tables, h: Happening): Tables {
    match h
    case ParamsStored(abeType) => t.(abeType := abeType)
    case Interest(name, authentic) =>
      var (policies, attributes, _) := OnPolicy(identitySize, t.abeType, t.policies, t.attributes, name, authentic);
      Tables(t.abeType, policies, attributes)
  }

  function TablesAfter(identitySize: nat, hs: seq<Happening>): Tables {
    if hs == [] then Tables([], [], [])
    else Handle(identitySize, TablesAfter(identitySize, hs[..|hs| - 1]), hs[|hs| - 1])
  }

  /** The ABE type last stored. */
  function TypeAfter(hs: seq<Happening>): Bytes {
    if hs == [] then []
    else if hs[|hs| - 1].ParamsStored? then hs[|hs| - 1].abeType
    else TypeAfter(hs[..|hs| - 1])
  }

  /** The command in an authentic, decodable Interest that comes in while its scheme is in force. */
  function AcceptedPolicy(identitySize: nat, abeType: Bytes, h: Happening): Option<(Name, Bytes)> {
    if h.Interest? && h.authentic && ParamFetcher.SchemaOf(abeType) == Some(CpAbe) then
      var prefix :- Commands.CommandPrefix(identitySize, h.name);
      var policy :- Commands.CommandPolicy(identitySize, h.name);
      Some((prefix, policy))
    else None
  }

  function AcceptedList(identitySize: nat, abeType: Bytes, h: Happening): Option<(Name, seq<Bytes>)> {
    if h.Interest? && h.authentic && ParamFetcher.SchemaOf(abeType) == Some(KpAbe) then
      var prefix :- Commands.CommandPrefix(identitySize, h.name);
      var list :- Commands.CommandAttributes(identitySize, h.name);
      Some((prefix, list))
    else None
  }

  function Extend<T>(commands: seq<(Name, T)>, c: Option<(Name, T)>): seq<(Name, T)> {
    if c.None? then commands else commands + [c.value]
  }

  function AcceptedPolicies(identitySize: nat, hs: seq<Happening>): seq<(Name, Bytes)> {
    if hs == [] then []
    else
      var n := |hs| - 1;
      Extend(AcceptedPolicies(identitySize, hs[..n]), AcceptedPolicy(identitySize, TypeAfter(hs[..n]), hs[n]))
  }

  function AcceptedAttributes(identitySize: nat, hs: seq<Happening>): seq<(Name, seq<Bytes>)> {
    if hs == [] then []
    else
      var n := |hs| - 1;
      Extend(AcceptedAttributes(identitySize, hs[..n]), AcceptedList(identitySize, TypeAfter(hs[..n]), hs[n]))
  }

  function PutIf<T>(t: Table<T>, c: Option<(Name, T)>): Table<T> {
    if c.None? then t else Put(t, c.value.0, c.value.1)
  }

  lemma ReplayExtend<T>(commands: seq<(Name, T)>, c: Option<(Name, T)>)
    ensures Replay(Extend(commands, c)) == PutIf(Replay(commands), c)
  {
    if c.Some? {
      assert (commands + [c.value])[..|commands|] == commands;
    }
  }

  /** A happening puts into the tables what it commands, if that is accepted. */
  lemma HandlePuts(identitySize: nat, t: Tables, h: Happening)
    ensures Handle(identitySize, t, h).policies == PutIf(t.policies, AcceptedPolicy(identitySize, t.abeType, h))
    ensures Handle(identitySize, t, h).attributes == PutIf(t.attributes, AcceptedList(identitySize, t.abeType, h))
  {
    hide Commands.CommandPrefix, Commands.CommandPolicy, Commands.CommandAttributes, Put;
  }

  /** In every reachable state the two tables are those of the accepted commands alone, whatever else
      came in between, and lookups follow the last accepted command per prefix. */
  lemma {:induction false} TablesFollowAccepted(identitySize: nat, hs: seq<Happening>, suffix: Name)
    ensures var t := TablesAfter(identitySize, hs);
            && t.abeType == TypeAfter(hs)
            && t.policies == Replay(AcceptedPolicies(identitySize, hs)) && Distinct(t.policies)
            && t.attributes == Replay(AcceptedAttributes(identitySize, hs)) && Distinct(t.attributes)
            && LongestMatch(AsMap(t.policies), suffix) == LongestMatch(LastWins(AcceptedPolicies(identitySize, hs)), suffix)
            && LongestMatch(AsMap(t.attributes), suffix) == LongestMatch(LastWins(AcceptedAttributes(identitySize, hs)), suffix)
  {
    hide Handle, AcceptedPolicy, AcceptedList, LongestMatch, Put;
    if hs != [] {
      var n := |hs| - 1;
      TablesFollowAccepted(identitySize, hs[..n], suffix);
      HandlePuts(identitySize, TablesAfter(identitySize, hs[..n]), hs[n]);
      HandleType(identitySize, TablesAfter(identitySize, hs[..n]), hs[n]);
      ReplayExtend(AcceptedPolicies(identitySize, hs[..n]), AcceptedPolicy(identitySize, TypeAfter(hs[..n]), hs[n]));
      ReplayExtend(AcceptedAttributes(identitySize, hs[..n]), AcceptedList(identitySize, TypeAfter(hs[..n]), hs[n]));
    }
    ReplayIsLastWins(AcceptedPolicies(identitySize, hs));
    ReplayIsLastWins(AcceptedAttributes(identitySize, hs));
  }

  lemma HandleType(identitySize: nat, t: Tables, h: Happening)
    ensures Handle(identitySize, t, h).abeType == if h.ParamsStored? then h.abeType else t.abeType
  {
  }

  /** A command as the owner issued it, and the components its signature added. */
  datatype Command<T> = Command(prefix: Name, value: T, signature: Name)

  /** An authentic Interest that comes in while a scheme is in force. */
  predicate Counts(hs: seq<Happening>, i: nat, schema: Schema)
    requires i < |hs|
  {
    hs[i].Interest? && hs[i].authentic && ParamFetcher.SchemaOf(TypeAfter(hs[..i])) == Some(schema)
  }

  /** The commands issued while a scheme was in force, in order. */
  function InForce<T>(hs: seq<Happening>, commands: seq<Command<T>>, schema: Schema): seq<(Name, T)>
    requires |hs| == |commands|
  {
    if hs == [] then []
    else
      var n := |hs| - 1;
      InForce(hs[..n], commands[..n], schema)
      + if Counts(hs, n, schema) then [(commands[n].prefix, commands[n].value)] else []
  }

  predicate PolicyCommandIn(identity: Name, h: Happening, c: Command<Bytes>) {
    h.Interest? && h.authentic ==>
      NameFits(c.prefix) && h.name == Commands.CommandName(identity, c.prefix, c.value) + c.signature
  }

  predicate AttributeCommandIn(identity: Name, h: Happening, c: Command<seq<Bytes>>) {
    h.Interest? && h.authentic ==>
      && NameFits(c.prefix) && (forall a <- c.value :: |a| < LIMIT)
      && h.name == Commands.CommandName(identity, c.prefix, Commands.PrependEach(c.value)) + c.signature
  }

  /** When the authentic Interests are the owner's policy commands, every data name is governed by the
      last policy commanded, since the CP-ABE parameters were stored, for its longest non-empty
      commanded prefix; forged and early Interests change nothing. */
  lemma {:induction false} OwnerGovernsPolicies(identity: Name, hs: seq<Happening>, commands: seq<Command<Bytes>>, suffix: Name)
    requires |hs| == |commands| && forall i :: 0 <= i < |hs| ==> PolicyCommandIn(identity, hs[i], commands[i])
    ensures AcceptedPolicies(|identity|, hs) == InForce(hs, commands, CpAbe)
    ensures LongestMatch(AsMap(TablesAfter(|identity|, hs).policies), suffix)
         == LongestMatch(LastWins(InForce(hs, commands, CpAbe)), suffix)
  {
    TablesFollowAccepted(|identity|, hs, suffix);
    if hs != [] {
      var n := |hs| - 1;
      OwnerGovernsPolicies(identity, hs[..n], commands[..n], suffix);
      hide Commands.CommandPrefix, Commands.CommandPolicy, Commands.CommandName, NameFits, LongestMatch, LastWins, TablesAfter;
      if Counts(hs, n, CpAbe) {
        assert PolicyCommandIn(identity, hs[n], commands[n]);
        Commands.PolicyCommandRoundTrip(identity, commands[n].prefix, commands[n].value, commands[n].signature);
      }
    }
  }

  lemma {:induction false} OwnerGovernsAttributes(identity: Name, hs: seq<Happening>,
                                                  commands: seq<Command<seq<Bytes>>>, suffix: Name)
    requires |hs| == |commands| && forall i :: 0 <= i < |hs| ==> AttributeCommandIn(identity, hs[i], commands[i])
    ensures AcceptedAttributes(|identity|, hs) == InForce(hs, commands, KpAbe)
    ensures LongestMatch(AsMap(TablesAfter(|identity|, hs).attributes), suffix)
         == LongestMatch(LastWins(InForce(hs, commands, KpAbe)), suffix)
  {
    TablesFollowAccepted(|identity|, hs, suffix);
    if hs != [] {
      var n := |hs| - 1;
      OwnerGovernsAttributes(identity, hs[..n], commands[..n], suffix);
      hide Commands.CommandPrefix, Commands.CommandAttributes, Commands.CommandName,
           NameFits, LongestMatch, LastWins, TablesAfter;
      if Counts(hs, n, KpAbe) {
        assert AttributeCommandIn(identity, hs[n], commands[n]);
        Commands.AttributeCommandRoundTrip(identity, commands[n].prefix, commands[n].value, commands[n].signature);
      }
    }
  }

  /** What content is encrypted for when only its name is given, in every reachable state. */
  lemma OwnerChoosesPolicy(identity: Name, hs: seq<Happening>, commands: seq<Command<Bytes>>, suffix: Name)
    requires |hs| == |commands| && forall i :: 0 <= i < |hs| ==> PolicyCommandIn(identity, hs[i], commands[i])
    requires ParamFetcher.SchemaOf(TypeAfter(hs)) == Some(CpAbe)
    ensures var t := TablesAfter(|identity|, hs);
            var policy := OrDefault(LongestMatch(LastWins(InForce(hs, commands, CpAbe)), suffix), []);
            GoverningRule(t.abeType, AsMap(t.policies), AsMap(t.attributes), suffix)
            == if policy == [] then None else Some(ByPolicy(policy))
  {
    hide LongestMatch;
    TablesFollowAccepted(|identity|, hs, suffix);
    OwnerGovernsPolicies(identity, hs, commands, suffix);
  }

  lemma OwnerChoosesAttributes(identity: Name, hs: seq<Happening>, commands: seq<Command<seq<Bytes>>>, suffix: Name)
    requires |hs| == |commands| && forall i :: 0 <= i < |hs| ==> AttributeCommandIn(identity, hs[i], commands[i])
    requires ParamFetcher.SchemaOf(TypeAfter(hs)) == Some(KpAbe)
    ensures var t := TablesAfter(|identity|, hs);
            var list := OrDefault(LongestMatch(LastWins(InForce(hs, commands, KpAbe)), suffix), []);
            GoverningRule(t.abeType, AsMap(t.policies), AsMap(t.attributes), suffix)
            == if list == [] then None else Some(ByAttributes(list))
  {
    hide LongestMatch;
    TablesFollowAccepted(|identity|, hs, suffix);
    OwnerGovernsAttributes(identity, hs, commands, suffix);
  }
}
