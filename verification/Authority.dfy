/** src/attribute-authority.cpp: private keys generated on request and served as versioned segments. */
module Authority {
  import opened Options
  import opened ByteStrings
  import opened Tlv
  import opened Names
  import opened Crypto
  import opened Packets
  import opened AbeSupport
  import Attributes
  import Consumer

  const KEY: Bytes := Ascii("KEY")
  const DECRYPT_KEY: Bytes := Ascii("DKEY")

  /** What a decryptor is registered with: attributes at a CP-ABE authority, a policy at a KP-ABE one. */
  datatype Grant = OfAttributes(attributes: seq<Bytes>) | OfPolicy(policy: Bytes) {
    predicate Suits(schema: Schema) {
      match this
      case OfAttributes(attributes) => schema == CpAbe && attributes != []
      case OfPolicy(_) => schema == KpAbe
    }

    function Input(): Bytes
      requires Suits(CpAbe) || Suits(KpAbe)
    {
      if OfAttributes? then Attributes.JoinAttributes(attributes) else policy
    }
  }

  datatype Config = Config(lib: Library, identity: Name, schema: Schema, pub: Bytes, msk: Bytes, max: nat)

  datatype KeyCoins = KeyCoins(keygen: nat, envelope: EnvelopeCoins)

  /** The record of one generation: for whom, from what, and the block that was built. */
  datatype Issue = Issue(
    request: Name, version: nat, keyName: Name, rsaKey: Bytes, grant: Grant, coins: KeyCoins, prv: Bytes, wire: Bytes)

  datatype State = State(
    tokens: map<Name, Grant>,
    certs: map<Name, Bytes>,
    store: map<Name, seq<Data>>,
    sent: seq<Data>,
    issued: map<Name, Issue>)

  const INITIAL := State(map[], map[], map[], [], map[])

  datatype Event =
    | AddPolicy(identity: Name, grant: Grant)
    | AddCertificate(keyName: Name, rsaKey: Bytes)
    | Request(name: Name, version: nat, coins: KeyCoins)

  // ---------- Specification ----------

  /** Key names are identity / KEY / key-id. */
  predicate IsKeyName(name: Name) {
    |name| >= 2 && name[|name| - 2] == Generic(KEY)
  }

  function IdentityOf(keyName: Name): Name
    requires IsKeyName(keyName)
  {
    keyName[..|keyName| - 2]
  }

  /** The key name inside a request; None where reading it throws. */
  function RequestedKey(identitySize: nat, name: Name): (r: Option<Name>)
    ensures r.Some? ==> IsKeyName(r.value) && |name| > identitySize + 1
  {
    if |name| <= identitySize + 1 then None
    else
      var keyName :- DecodeName(name[identitySize + 1].value);
      if IsKeyName(keyName) then Some(keyName) else None
  }

  predicate ForSegment(name: Name) {
    |name| >= 2 && IsSegment(name[|name| - 1]) && IsVersion(name[|name| - 2])
  }

  /** The stored segments with exactly this name. */
  function Matching(ds: seq<Data>, name: Name): seq<Data> {
    if ds == [] then []
    else
      var n := |ds| - 1;
      Matching(ds[..n], name) + (if ds[n].name == name then [ds[n]] else [])
  }

  function Stored(s: State, obj: Name): seq<Data> {
    if obj in s.store then s.store[obj] else []
  }

  predicate GrantsSuit(cfg: Config, s: State) {
    cfg.max > 0 && forall identity <- s.tokens :: s.tokens[identity].Suits(cfg.schema)
  }

  function Generate(cfg: Config, s: State, request: Name, keyName: Name, version: nat, coins: KeyCoins): State
    requires GrantsSuit(cfg, s) && IsKeyName(keyName) && IdentityOf(keyName) in s.tokens && keyName in s.certs
  {
    match cfg.lib.keygen(cfg.schema, cfg.pub, cfg.msk, s.tokens[IdentityOf(keyName)].Input(), coins.keygen)
    case None => s
    case Some(prv) =>
      var obj := request + [Version(version)];
      var wire := Envelope(cfg.lib, Terminate(prv), s.certs[keyName], coins.envelope);
      var segments := Segment(wire, obj, cfg.max);
      var s' := s.(sent := s.sent + [segments[0]]);
      if obj in s.store then s'
      else s'.(store := s.store[obj := segments],
               issued := s.issued[obj := Issue(request, version, keyName, s.certs[keyName], s.tokens[IdentityOf(keyName)],
                                               coins, prv, wire)])
  }

  function OnRequest(cfg: Config, s: State, name: Name, version: nat, coins: KeyCoins): State
    requires GrantsSuit(cfg, s)
  {
    match RequestedKey(|cfg.identity|, name)
    case None => s
    case Some(keyName) =>
      if IdentityOf(keyName) !in s.tokens then s
      else if ForSegment(name) then s.(sent := s.sent + Matching(Stored(s, Parent(name)), name))
      else if keyName in s.certs then Generate(cfg, s, name, keyName, version, coins)
      else s
  }

  /** `std::map::insert`: the first registration of an identity stays. */
  function Register(s: State, identity: Name, grant: Grant): State {
    if identity in s.tokens then s else s.(tokens := s.tokens[identity := grant])
  }

  function Step(cfg: Config, s: State, e: Event): State
    requires GrantsSuit(cfg, s)
  {
    match e
    case AddPolicy(identity, grant) => Register(s, identity, grant)
    case AddCertificate(keyName, rsaKey) => s.(certs := s.certs[keyName := rsaKey])
    case Request(name, version, coins) => OnRequest(cfg, s, name, version, coins)
  }

  // ---------- Implementation ----------

  class AuthorityNode {
    const identity: Name
    const schema: Schema
    const max: nat
    const abe: ABESupport
    var pub: Bytes
    var msk: Bytes
    var tokens: map<Name, Grant>
    var certs: map<Name, Bytes>
    var segmentMap: map<Name, seq<Data>>
    var sent: seq<Data>
    ghost var issued: map<Name, Issue>

    ghost function Settings(): Config
      reads this
    {
      Config(abe.lib, identity, schema, pub, msk, max)
    }

    ghost function View(): State
      reads this
    {
      State(tokens, certs, segmentMap, sent, issued)
    }

    constructor (identity: Name, schema: Schema, max: nat, abe: ABESupport, pub: Bytes, msk: Bytes)
      ensures View() == INITIAL && Settings() == Config(abe.lib, identity, schema, pub, msk, max)
    {
      this.identity, this.schema, this.max, this.abe, this.pub, this.msk := identity, schema, max, abe, pub, msk;
      tokens, certs, segmentMap, sent, issued := map[], map[], map[], [], map[];
    }

    method AddNewPolicy(decryptor: Name, grant: Grant)
      modifies this`tokens
      ensures View() == Register(old(View()), decryptor, grant)
      ensures tokens == if decryptor in old(tokens) then old(tokens) else old(tokens)[decryptor := grant]
    {
      if decryptor !in tokens {
        tokens := tokens[decryptor := grant];
      }
    }

    /** `addNewPolicy` with the certificate of a key: the certificate is replaced, the registration is not. */
    method AddCertifiedPolicy(keyName: Name, rsaKey: Bytes, grant: Grant)
      requires IsKeyName(keyName)
      modifies this`tokens, this`certs
      ensures certs == old(certs)[keyName := rsaKey]
      ensures View() == Register(old(View()).(certs := certs), IdentityOf(keyName), grant)
    {
      certs := certs[keyName := rsaKey];
      AddNewPolicy(IdentityOf(keyName), grant);
    }

    /** `getPrivateKey` of the two authorities. */
    method GetPrivateKey(decryptor: Name, coins: nat) returns (prv: Option<Bytes>)
      requires decryptor in tokens && tokens[decryptor].Suits(schema)
      ensures match tokens[decryptor]
              case OfAttributes(attributes) =>
                prv == abe.lib.keygen(CpAbe, pub, msk, Attributes.JoinAttributes(attributes), coins)
              case OfPolicy(policy) => prv == abe.lib.keygen(KpAbe, pub, msk, policy, coins)
    {
      match tokens[decryptor]
      case OfAttributes(attributes) => prv := abe.CpPrvKeyGen(pub, msk, attributes, coins);
      case OfPolicy(policy) => prv := abe.KpPrvKeyGen(pub, msk, policy, coins);
    }

    /** `generateDecryptionKeySegments`, followed by the reply with the first segment. */
    method GenerateAndReply(request: Name, keyName: Name, version: nat, coins: KeyCoins)
      requires GrantsSuit(Settings(), View()) && IsKeyName(keyName) && IdentityOf(keyName) in tokens && keyName in certs
      modifies this`segmentMap, this`sent, this`issued
      ensures View() == Generate(Settings(), old(View()), request, keyName, version, coins)
    {
      var prvKey := GetPrivateKey(IdentityOf(keyName), coins.keygen);
      if prvKey.None? {
        return;
      }
      var objName := request + [Version(version)];
      var abePrvKey := new PrivateKey(prvKey.value);
      var prvBuffer := abePrvKey.ToBuffer();
      var dkBlock := EncryptDataContentWithCk(abe.lib, prvBuffer, certs[keyName], coins.envelope);
      var dkSegments := Segment(dkBlock, objName, max);
      if objName !in segmentMap {
        segmentMap := segmentMap[objName := dkSegments];
        issued := issued[objName := Issue(request, version, keyName, certs[keyName], tokens[IdentityOf(keyName)],
                                          coins, prvKey.value, dkBlock)];
      }
      if |dkSegments| > 0 {
        sent := sent + [dkSegments[0]];
      }
    }

    /** The loop that answers a segment request. */
    method ReplyMatching(segments: seq<Data>, name: Name)
      modifies this`sent
      ensures sent == old(sent) + Matching(segments, name)
    {
      for i := 0 to |segments|
        invariant sent == old(sent) + Matching(segments[..i], name)
      {
        assert segments[..i + 1][..i] == segments[..i];
        if name == segments[i].name {
          sent := sent + [segments[i]];
        }
      }
      assert segments[..|segments|] == segments;
    }

    method OnDecryptionKeyRequest(name: Name, version: nat, coins: KeyCoins)
      requires GrantsSuit(Settings(), View())
      modifies this`segmentMap, this`sent, this`issued
      ensures View() == OnRequest(Settings(), old(View()), name, version, coins)
    {
      var supposedKeyName := RequestedKey(|identity|, name);
      if supposedKeyName.None? {
        return;
      }
      var keyName := supposedKeyName.value;
      if IdentityOf(keyName) !in tokens {
        return;
      }
      if ForSegment(name) {
        if Parent(name) in segmentMap {
          ReplyMatching(segmentMap[Parent(name)], name);
        }
      } else if keyName in certs {
        GenerateAndReply(name, keyName, version, coins);
      }
    }
  }

  // ---------- Invariant over runs ----------

  /** Versions are fresh: no object of that name is stored yet. */
  predicate Enabled(cfg: Config, s: State, e: Event) {
    match e
    case AddPolicy(_, grant) => grant.Suits(cfg.schema)
    case AddCertificate(_, _) => true
    case Request(name, version, _) => name + [Version(version)] !in s.store && version < LIMIT
  }

  /** An issued block is the envelope of a key generated for the recorded grant. */
  predicate Genuine(cfg: Config, obj: Name, issue: Issue) {
    && obj == issue.request + [Version(issue.version)] && issue.version < LIMIT
    && RequestedKey(|cfg.identity|, issue.request) == Some(issue.keyName)
    && issue.grant.Suits(cfg.schema)
    && cfg.lib.keygen(cfg.schema, cfg.pub, cfg.msk, issue.grant.Input(), issue.coins.keygen) == Some(issue.prv)
    && issue.wire == Envelope(cfg.lib, Terminate(issue.prv), issue.rsaKey, issue.coins.envelope)
  }

  /** The recorded grant is what the identity behind the requested key is registered with. */
  predicate Registered(s: State, issue: Issue) {
    IsKeyName(issue.keyName) && IdentityOf(issue.keyName) in s.tokens && s.tokens[IdentityOf(issue.keyName)] == issue.grant
  }

  predicate StoredWell(cfg: Config, s: State, obj: Name)
    requires cfg.max > 0 && obj in s.issued
  {
    && obj in s.store && s.store[obj] == Segment(s.issued[obj].wire, obj, cfg.max)
    && Registered(s, s.issued[obj]) && Genuine(cfg, obj, s.issued[obj])
  }

  predicate StoreInv(cfg: Config, s: State) {
    && GrantsSuit(cfg, s)
    && s.store.Keys == s.issued.Keys
    && forall obj <- s.issued :: StoredWell(cfg, s, obj)
  }

  /** Registrations are never replaced. */
  predicate KeepsGrants(s: State, s': State) {
    forall identity <- s.tokens :: identity in s'.tokens && s'.tokens[identity] == s.tokens[identity]
  }

  /** Stored objects are never replaced. */
  predicate KeepsObjects(s: State, s': State) {
    forall obj <- s.store :: obj in s'.store && s'.store[obj] == s.store[obj]
  }

  lemma StoredWellKept(cfg: Config, s: State, s': State, obj: Name)
    requires cfg.max > 0 && obj in s.issued && StoredWell(cfg, s, obj) && KeepsGrants(s, s')
    requires obj in s'.issued && s'.issued[obj] == s.issued[obj] && obj in s'.store && s'.store[obj] == s.store[obj]
    ensures StoredWell(cfg, s', obj)
  {
    hide Genuine, Segment;
  }

  lemma SameStoreKept(cfg: Config, s: State, s': State)
    requires StoreInv(cfg, s) && GrantsSuit(cfg, s') && KeepsGrants(s, s')
    requires s'.store == s.store && s'.issued == s.issued
    ensures StoreInv(cfg, s')
  {
    hide Genuine, Segment;
    forall obj <- s'.issued
      ensures StoredWell(cfg, s', obj)
    {
      StoredWellKept(cfg, s, s', obj);
    }
  }

  lemma NewObjectKept(cfg: Config, s: State, s': State, obj: Name, segments: seq<Data>, issue: Issue)
    requires StoreInv(cfg, s) && obj !in s.store && s'.tokens == s.tokens
    requires s'.store == s.store[obj := segments] && s'.issued == s.issued[obj := issue]
    requires Genuine(cfg, obj, issue) && Registered(s, issue) && segments == Segment(issue.wire, obj, cfg.max)
    ensures StoreInv(cfg, s') && KeepsObjects(s, s')
  {
    hide Genuine, Segment;
    forall o <- s'.issued
      ensures StoredWell(cfg, s', o)
    {
      if o != obj {
        StoredWellKept(cfg, s, s', o);
      }
    }
  }

  /** What a generation adds. */
  lemma GeneratedIsGenuine(cfg: Config, s: State, request: Name, keyName: Name, version: nat, coins: KeyCoins)
    requires GrantsSuit(cfg, s) && RequestedKey(|cfg.identity|, request) == Some(keyName)
    requires IdentityOf(keyName) in s.tokens && keyName in s.certs && version < LIMIT
    requires request + [Version(version)] !in s.store
    ensures var s' := Generate(cfg, s, request, keyName, version, coins);
            var obj := request + [Version(version)];
            && s'.tokens == s.tokens
            && if s'.store == s.store then s'.issued == s.issued else
                 && obj in s'.issued && s'.issued == s.issued[obj := s'.issued[obj]]
                 && Genuine(cfg, obj, s'.issued[obj]) && Registered(s, s'.issued[obj])
                 && s'.store == s.store[obj := Segment(s'.issued[obj].wire, obj, cfg.max)]
  {
  }

  lemma GenerateKeepsInv(cfg: Config, s: State, request: Name, keyName: Name, version: nat, coins: KeyCoins)
    requires StoreInv(cfg, s) && RequestedKey(|cfg.identity|, request) == Some(keyName)
    requires IdentityOf(keyName) in s.tokens && keyName in s.certs && version < LIMIT
    requires request + [Version(version)] !in s.store
    ensures var s' := Generate(cfg, s, request, keyName, version, coins);
            StoreInv(cfg, s') && KeepsGrants(s, s') && KeepsObjects(s, s')
  {
    GeneratedIsGenuine(cfg, s, request, keyName, version, coins);
    hide Genuine, Segment, Generate, RequestedKey;
    var obj := request + [Version(version)];
    var s' := Generate(cfg, s, request, keyName, version, coins);
    if s'.store == s.store {
      SameStoreKept(cfg, s, s');
    } else {
      NewObjectKept(cfg, s, s', obj, s'.store[obj], s'.issued[obj]);
    }
  }

  lemma StepKeepsStore(cfg: Config, s: State, e: Event)
    requires StoreInv(cfg, s) && Enabled(cfg, s, e)
    ensures StoreInv(cfg, Step(cfg, s, e)) && KeepsGrants(s, Step(cfg, s, e)) && KeepsObjects(s, Step(cfg, s, e))
  {
    hide Genuine, Segment, Generate, RequestedKey;
    var keyName := if e.Request? then RequestedKey(|cfg.identity|, e.name) else None;
    if keyName.Some? && IdentityOf(keyName.value) in s.tokens && !ForSegment(e.name) && keyName.value in s.certs {
      GenerateKeepsInv(cfg, s, e.name, keyName.value, e.version, e.coins);
    } else {
      SameStoreKept(cfg, s, Step(cfg, s, e));
    }
  }

  ghost predicate ValidRun(cfg: Config, s: State, events: seq<Event>)
    decreases |events|
  {
    events == [] ||
    (GrantsSuit(cfg, s) && Enabled(cfg, s, events[0]) && ValidRun(cfg, Step(cfg, s, events[0]), events[1..]))
  }

  ghost function Run(cfg: Config, s: State, events: seq<Event>): State
    requires ValidRun(cfg, s, events)
    decreases |events|
  {
    if events == [] then s else Run(cfg, Step(cfg, s, events[0]), events[1..])
  }

  /** The invariant holds in every reachable state; registrations and stored blocks are never replaced. */
  lemma {:induction false} RunKeepsStore(cfg: Config, s: State, events: seq<Event>)
    requires StoreInv(cfg, s) && ValidRun(cfg, s, events)
    ensures StoreInv(cfg, Run(cfg, s, events))
    ensures KeepsGrants(s, Run(cfg, s, events)) && KeepsObjects(s, Run(cfg, s, events))
    decreases |events|
  {
    if events != [] {
      StepKeepsStore(cfg, s, events[0]);
      RunKeepsStore(cfg, Step(cfg, s, events[0]), events[1..]);
    }
  }

  // ---------- Registrations and certificates over runs ----------

  /** For each identity the grant of its first registration. */
  function GrantsOf(events: seq<Event>): map<Name, Grant> {
    if events == [] then map[]
    else if events[0].AddPolicy? then GrantsOf(events[1..])[events[0].identity := events[0].grant]
    else GrantsOf(events[1..])
  }

  /** For each key the certificate added last. */
  function CertsOf(events: seq<Event>): map<Name, Bytes> {
    if events == [] then map[]
    else if events[0].AddCertificate? then map[events[0].keyName := events[0].rsaKey] + CertsOf(events[1..])
    else CertsOf(events[1..])
  }

  /** A registration takes effect if it is the first of its identity, and nothing else touches the registry. */
  lemma StepRegisters(cfg: Config, s: State, e: Event)
    requires GrantsSuit(cfg, s)
    ensures match e
            case AddPolicy(identity, grant) =>
              && Step(cfg, s, e).certs == s.certs
              && (identity !in s.tokens ==> Step(cfg, s, e).tokens == s.tokens[identity := grant])
              && (identity in s.tokens ==> Step(cfg, s, e).tokens == s.tokens)
            case AddCertificate(keyName, rsaKey) =>
              Step(cfg, s, e).tokens == s.tokens && Step(cfg, s, e).certs == s.certs[keyName := rsaKey]
            case Request(_, _, _) => Step(cfg, s, e).tokens == s.tokens && Step(cfg, s, e).certs == s.certs
  {
  }

  /** After any run the registry holds the first grant of each identity, and the last certificate of each key. */
  lemma {:induction false} RunRegisters(cfg: Config, s: State, events: seq<Event>)
    requires ValidRun(cfg, s, events)
    ensures Run(cfg, s, events).tokens == GrantsOf(events) + s.tokens
    ensures Run(cfg, s, events).certs == s.certs + CertsOf(events)
    decreases |events|
  {
    hide Step, Enabled, GrantsSuit, GrantsOf, CertsOf;
    if events == [] {
      NoneRegistered();
    } else {
      var s' := Step(cfg, s, events[0]);
      StepRegisters(cfg, s, events[0]);
      RunRegisters(cfg, s', events[1..]);
      FirstGrantStays(events, s.tokens, s'.tokens);
      LastCertificateCounts(events, s.certs, s'.certs);
    }
  }

  /** The same from the start, with the store invariant. */
  lemma RunFromStart(cfg: Config, events: seq<Event>)
    requires ValidRun(cfg, INITIAL, events) && cfg.max > 0
    ensures var s := Run(cfg, INITIAL, events);
            s.tokens == GrantsOf(events) && s.certs == CertsOf(events) && StoreInv(cfg, s)
  {
    RunKeepsStore(cfg, INITIAL, events);
    RunRegisters(cfg, INITIAL, events);
    hide Run;
    assert GrantsOf(events) + map[] == GrantsOf(events) && map[] + CertsOf(events) == CertsOf(events);
  }

  lemma NoneRegistered()
    ensures GrantsOf([]) == map[] && CertsOf([]) == map[]
  {
  }

  lemma FirstGrantStays(events: seq<Event>, tokens: map<Name, Grant>, tokens': map<Name, Grant>)
    requires events != []
    requires tokens' == if events[0].AddPolicy? && events[0].identity !in tokens
                        then tokens[events[0].identity := events[0].grant] else tokens
    ensures GrantsOf(events[1..]) + tokens' == GrantsOf(events) + tokens
  {
  }

  lemma LastCertificateCounts(events: seq<Event>, certs: map<Name, Bytes>, certs': map<Name, Bytes>)
    requires events != []
    requires certs' == if events[0].AddCertificate? then certs[events[0].keyName := events[0].rsaKey] else certs
    ensures certs' + CertsOf(events[1..]) == certs + CertsOf(events)
  {
  }

  /** The name of a key is its owner's identity, KEY and the id of the key. */
  lemma KeyNameTellsIdentity(id: Name, keyId: Block)
    ensures var keyName := id + [Block(8, Ascii("KEY")), keyId];
            IsKeyName(keyName) && IdentityOf(keyName) == id
  {
    var keyName := id + [Block(8, Ascii("KEY")), keyId];
    assert keyName[..|keyName| - 2] == id;
  }

  // ---------- Delivery ----------

  lemma {:induction false} MatchingOne(ds: seq<Data>, i: nat)
    requires i < |ds| && forall j, k :: 0 <= j < k < |ds| ==> ds[j].name != ds[k].name
    ensures Matching(ds, ds[i].name) == [ds[i]]
  {
    var n := |ds| - 1;
    if i < n {
      MatchingOne(ds[..n], i);
    } else {
      MatchingNone(ds[..n], ds[n].name);
    }
  }

  lemma {:induction false} MatchingNone(ds: seq<Data>, name: Name)
    requires forall j :: 0 <= j < |ds| ==> ds[j].name != name
    ensures Matching(ds, name) == []
  {
    if ds != [] {
      MatchingNone(ds[..|ds| - 1], name);
    }
  }

  lemma SegmentNamesDistinct(wire: Bytes, obj: Name, max: nat)
    requires max > 0 && |wire| < LIMIT
    ensures forall j, k :: 0 <= j < k < |Segment(wire, obj, max)| ==>
              Segment(wire, obj, max)[j].name != Segment(wire, obj, max)[k].name
  {
    var ds := Segment(wire, obj, max);
    forall j, k | 0 <= j < k < |ds|
      ensures ds[j].name != ds[k].name
    {
      if ds[j].name == ds[k].name {
        assert ds[j].name[|obj|] == SegmentNumber(j) && ds[k].name[|obj|] == SegmentNumber(k);
        SegmentNumberInjective(j, k);
      }
    }
  }

  lemma SegmentRequest(cfg: Config, obj: Name, issue: Issue, i: nat)
    requires Genuine(cfg, obj, issue)
    ensures var name := obj + [SegmentNumber(i)];
            && RequestedKey(|cfg.identity|, name) == Some(issue.keyName)
            && ForSegment(name) && Parent(name) == obj
  {
    var name := obj + [SegmentNumber(i)];
    assert name[|cfg.identity| + 1] == issue.request[|cfg.identity| + 1];
    assert name[|name| - 2] == Version(issue.version);
  }

  /** A request for segment i of a stored object is answered with exactly that segment. */
  lemma SegmentServed(cfg: Config, s: State, obj: Name, i: nat, version: nat, coins: KeyCoins)
    requires StoreInv(cfg, s) && obj in s.store && i < |s.store[obj]| && |s.issued[obj].wire| < LIMIT
    ensures var name := obj + [SegmentNumber(i)];
            s.store[obj][i].name == name
            && OnRequest(cfg, s, name, version, coins) == s.(sent := s.sent + [s.store[obj][i]])
  {
    hide Genuine, RequestedKey;
    assert StoredWell(cfg, s, obj);
    SegmentRequest(cfg, obj, s.issued[obj], i);
    SegmentNamesDistinct(s.issued[obj].wire, obj, cfg.max);
    MatchingOne(s.store[obj], i);
  }

  /** However many other requests come in between, a segment of an object is served as it was built. */
  lemma ServedLater(cfg: Config, before: seq<Event>, after: seq<Event>, obj: Name, i: nat, version: nat, coins: KeyCoins)
    requires cfg.max > 0 && ValidRun(cfg, INITIAL, before) && ValidRun(cfg, Run(cfg, INITIAL, before), after)
    requires var s := Run(cfg, INITIAL, before);
             obj in s.store && i < |s.store[obj]| && |Reassemble(s.store[obj])| < LIMIT
    ensures var s := Run(cfg, INITIAL, before);
            var later := Run(cfg, s, after);
            && s.store[obj][i].name == obj + [SegmentNumber(i)] && GrantsSuit(cfg, later)
            && OnRequest(cfg, later, obj + [SegmentNumber(i)], version, coins)
               == later.(sent := later.sent + [s.store[obj][i]])
  {
    hide Genuine, OnRequest;
    RunKeepsStore(cfg, INITIAL, before);
    var s := Run(cfg, INITIAL, before);
    RunKeepsStore(cfg, s, after);
    var later := Run(cfg, s, after);
    assert StoredWell(cfg, s, obj) && StoredWell(cfg, later, obj);
    ReassembleSegment(s.issued[obj].wire, obj, cfg.max);
    ReassembleSegment(later.issued[obj].wire, obj, cfg.max);
    SegmentServed(cfg, later, obj, i, version, coins);
  }

  /** The key an issue carries: generated for the recorded grant. */
  function HolderOf(cfg: Config, issue: Issue): Holder
    requires issue.grant.Suits(cfg.schema)
  {
    Holder(cfg.msk, issue.grant.Input(), issue.coins.keygen)
  }

  /** What ABE is given for a grant: the attributes joined by bars at a CP-ABE authority, the policy
      at a KP-ABE one. */
  predicate GrantGives(schema: Schema, grant: Grant, d: Bytes) {
    match grant
    case OfAttributes(attributes) => schema == CpAbe && attributes != [] && d == Attributes.JoinAttributes(attributes)
    case OfPolicy(policy) => schema == KpAbe && d == policy
  }

  /** In every reachable state, over any interleaving of requests by any decryptors with fresh
      versions: the segments of an issued object reassemble to exactly the block generated for it,
      and the holder of the RSA key recovers from it a private key for exactly the grant with which
      the identity whose key is named in the request was registered first. */
  lemma KeyDelivered(cfg: Config, events: seq<Event>, obj: Name, host: Consumer.Host)
    requires ValidRun(cfg, INITIAL, events) && cfg.max > 0 && obj in Run(cfg, INITIAL, events).store
    requires Ideal(cfg.lib) && cfg.lib.mates(cfg.schema, cfg.pub, cfg.msk)
    requires var issue := Run(cfg, INITIAL, events).issued;
             obj in issue && |issue[obj].wire| < LIMIT
             && host.lib == cfg.lib && issue[obj].rsaKey == cfg.lib.rsaPublic(host.rsaKey)
    ensures var s := Run(cfg, INITIAL, events);
            var issue := s.issued[obj];
            var keyName := issue.keyName;
            var abe := Deployment(cfg.schema, cfg.pub);
            && obj == issue.request + [Block(54, EncodeNni(issue.version))] && |issue.request| > |cfg.identity| + 1
            && DecodeName(issue.request[|cfg.identity| + 1].value) == Some(keyName)
            && |keyName| >= 2 && keyName[|keyName| - 2] == Block(8, Ascii("KEY"))
            && keyName[..|keyName| - 2] in GrantsOf(events) && issue.grant == GrantsOf(events)[keyName[..|keyName| - 2]]
            && issue.grant.Suits(cfg.schema) && GrantGives(cfg.schema, issue.grant, HolderOf(cfg, issue).d)
            && Reassemble(s.store[obj]) == issue.wire
            && Holds(cfg.lib, abe, HolderOf(cfg, issue))
            && Consumer.KeyOf(host, issue.wire) == Some(PrvOf(cfg.lib, abe, HolderOf(cfg, issue)))
  {
    RunFromStart(cfg, events);
    var s := Run(cfg, INITIAL, events);
    hide Run, ValidRun, GrantsOf, CertsOf, StoredWell, GrantsSuit;
    assert StoredWell(cfg, s, obj);
    hide *;
    IssueOpens(cfg, s, obj, host);
    IssueNamed(cfg, s, obj);
  }

  lemma IssueNamed(cfg: Config, s: State, obj: Name)
    requires cfg.max > 0 && obj in s.issued && StoredWell(cfg, s, obj)
    ensures var issue := s.issued[obj];
            var keyName := issue.keyName;
            && obj == issue.request + [Block(54, EncodeNni(issue.version))] && |issue.request| > |cfg.identity| + 1
            && DecodeName(issue.request[|cfg.identity| + 1].value) == Some(keyName)
            && |keyName| >= 2 && keyName[|keyName| - 2] == Block(8, Ascii("KEY"))
            && keyName[..|keyName| - 2] in s.tokens && issue.grant == s.tokens[keyName[..|keyName| - 2]]
            && issue.grant.Suits(cfg.schema) && GrantGives(cfg.schema, issue.grant, HolderOf(cfg, issue).d)
  {
    hide Envelope, DecodeName, Segment;
  }

  lemma IssueOpens(cfg: Config, s: State, obj: Name, host: Consumer.Host)
    requires cfg.max > 0 && obj in s.issued && StoredWell(cfg, s, obj)
    requires Ideal(cfg.lib) && cfg.lib.mates(cfg.schema, cfg.pub, cfg.msk)
    requires |s.issued[obj].wire| < LIMIT && host.lib == cfg.lib && s.issued[obj].rsaKey == cfg.lib.rsaPublic(host.rsaKey)
    ensures var issue := s.issued[obj];
            var abe := Deployment(cfg.schema, cfg.pub);
            && Reassemble(s.store[obj]) == issue.wire
            && issue.grant.Suits(cfg.schema) && Holds(cfg.lib, abe, HolderOf(cfg, issue))
            && Consumer.KeyOf(host, issue.wire) == Some(PrvOf(cfg.lib, abe, HolderOf(cfg, issue)))
  {
    var issue := s.issued[obj];
    ReassembleSegment(issue.wire, obj, cfg.max);
    EnvelopeRoundTrip(cfg.lib, Terminate(issue.prv), host.rsaKey, issue.coins.envelope);
    assert Terminate(issue.prv)[|issue.prv|] == 0;
    TerminatedRoundTrip(issue.prv);
  }

  /** The name `obtainDecryptionKey` asks for. */
  function DkeyRequest(authority: Name, keyName: Name): Name {
    authority + [Generic(DECRYPT_KEY), Generic(EncodeName(keyName))]
  }

  lemma RequestNamesKey(cfg: Config, keyName: Name, rest: Name)
    requires IsKeyName(keyName) && NameFits(keyName)
    ensures RequestedKey(|cfg.identity|, DkeyRequest(cfg.identity, keyName) + rest) == Some(keyName)
  {
    NameRoundTrip(keyName);
    assert (DkeyRequest(cfg.identity, keyName) + rest)[|cfg.identity| + 1] == Generic(EncodeName(keyName));
  }

  /** After any run, a decryptor whose identity was registered and whose certificate is known, and that
      asks for its key, has an object issued in its own name, for its first grant, under the RSA key of
      its certificate, and is sent the object's first segment. */
  lemma RequestAnswered(cfg: Config, events: seq<Event>, id: Name, keyId: Block, d: Bytes, version: nat, coins: KeyCoins)
    requires ValidRun(cfg, INITIAL, events) && cfg.max > 0 && version < LIMIT
    requires var keyName := id + [Block(8, Ascii("KEY")), keyId];
             NameFits(keyName) && id in GrantsOf(events) && keyName in CertsOf(events)
             && GrantGives(cfg.schema, GrantsOf(events)[id], d)
             && cfg.lib.keygen(cfg.schema, cfg.pub, cfg.msk, d, coins.keygen).Some?
             && DkeyRequest(cfg.identity, keyName) + [Version(version)] !in Run(cfg, INITIAL, events).store
    ensures var keyName := id + [Block(8, Ascii("KEY")), keyId];
            var s := Run(cfg, INITIAL, events);
            var obj := DkeyRequest(cfg.identity, keyName) + [Version(version)];
            && GrantsSuit(cfg, s) && cfg.identity + [Block(8, Ascii("DKEY"))] <= obj
            && (var s' := OnRequest(cfg, s, DkeyRequest(cfg.identity, keyName), version, coins);
                && obj in s'.store && obj in s'.issued && |s'.store[obj]| > 0
                && s'.issued[obj].keyName == keyName && s'.issued[obj].rsaKey == CertsOf(events)[keyName]
                && s'.issued[obj].grant == GrantsOf(events)[id]
                && s'.sent == s.sent + [s'.store[obj][0]])
  {
    var keyName := id + [Block(8, Ascii("KEY")), keyId];
    RunFromStart(cfg, events);
    KeyNameTellsIdentity(id, keyId);
    RequestNamesKey(cfg, keyName, []);
    assert DkeyRequest(cfg.identity, keyName) + [] == DkeyRequest(cfg.identity, keyName);
    hide DecodeName, Envelope, Genuine, RequestedKey, Run, GrantsOf, CertsOf;
  }

  /** Whatever follows the name of the key in a request, nobody is served in the name of an identity
      that was never registered. */
  lemma UnregisteredIgnored(cfg: Config, events: seq<Event>, id: Name, keyId: Block, rest: Name, version: nat, coins: KeyCoins)
    requires ValidRun(cfg, INITIAL, events) && cfg.max > 0 && id !in GrantsOf(events)
    requires NameFits(id + [Block(8, Ascii("KEY")), keyId])
    ensures var s := Run(cfg, INITIAL, events);
            var request := DkeyRequest(cfg.identity, id + [Block(8, Ascii("KEY")), keyId]) + rest;
            GrantsSuit(cfg, s) && OnRequest(cfg, s, request, version, coins) == s
  {
    RunFromStart(cfg, events);
    KeyNameTellsIdentity(id, keyId);
    RequestNamesKey(cfg, id + [Block(8, Ascii("KEY")), keyId], rest);
    hide RequestedKey, Run, GrantsOf;
  }
}
