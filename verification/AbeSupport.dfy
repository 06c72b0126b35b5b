/** src/algo/abe-support.cpp: content keys, and decryption behind a cache of unwrapped keys. */
module AbeSupport {
  import opened Options
  import opened ByteStrings
  import opened Crypto
  import Attributes
  import Packets
  import Tlv

  datatype Outcome = Success(plain: Bytes) | Failure(message: string)

  const LIBRARY_ERROR := "cannot encrypt the ciphertext using given private key."
  const DECRYPTION_ERROR := "Decryption error!"

  /** One ABE deployment: the scheme and its public parameters. */
  datatype Deployment = Deployment(schema: Schema, pub: Bytes)

  /** The private key unwraps what was wrapped for an e that d satisfies, and nothing else. */
  ghost predicate OpensExactly(lib: Library, abe: Deployment, prv: Bytes, d: Bytes) {
    forall e, key, coins :: lib.wrap(abe.schema, abe.pub, e, key, coins).Some? ==>
      var answer := lib.unwrap(abe.schema, abe.pub, prv, lib.wrap(abe.schema, abe.pub, e, key, coins).value);
      if lib.satisfies(abe.schema, e, d) then answer == Unwrapped(key) else !answer.Unwrapped?
  }

  // ---------- Specification ----------

  function Recover(lib: Library, key: Bytes, content: Bytes): Outcome {
    match lib.open(key, CString(content))
    case Some(plain) => Success(Take32(plain))
    case None => Failure(LIBRARY_ERROR)
  }

  /** Decryption with nothing remembered. */
  function FullPath(lib: Library, abe: Deployment, prv: Bytes, encAesKey: Bytes, content: Bytes): Outcome {
    match lib.unwrap(abe.schema, abe.pub, prv, CString(encAesKey))
    case Unwrapped(key) => Recover(lib, key, content)
    case Refused(_) => Failure(DECRYPTION_ERROR)
    case Threw(_) => Failure(LIBRARY_ERROR)
  }

  /** The two buffers of an encryption, each copied with a size of 32 bits; only the bytes that a
      32-bit size counts are sealed. */
  function WrappedBuffer(wrapped: Bytes): Bytes {
    CopyTerminated(wrapped)
  }

  function SealedBuffer(lib: Library, aesKey: Bytes, plain: Bytes, coins: nat): Bytes {
    CopyTerminated(lib.seal(aesKey, Take32(plain), coins))
  }

  /** Why a decryption with nothing remembered fails: the key was refused, or a library call threw. */
  lemma FailureReasons(lib: Library, abe: Deployment, prv: Bytes, encAesKey: Bytes, content: Bytes)
    ensures var outcome := FullPath(lib, abe, prv, encAesKey, content);
            var answer := lib.unwrap(abe.schema, abe.pub, prv, CString(encAesKey));
            && (outcome == Failure("Decryption error!") <==> answer.Refused?)
            && (outcome == Failure("cannot encrypt the ciphertext using given private key.")
                <==> answer.Threw? || (answer.Unwrapped? && lib.open(answer.key, CString(content)).None?))
            && (outcome.Success? <==> answer.Unwrapped? && lib.open(answer.key, CString(content)).Some?)
  {
    assert |DECRYPTION_ERROR| == |"Decryption error!"| == 17 && |LIBRARY_ERROR| != 17;
  }

  type KeyCache = map<Bytes, Bytes>

  /** Decryption through the cache of unwrapped keys. */
  function CachedPath(lib: Library, abe: Deployment, prv: Bytes, cache: KeyCache, encAesKey: Bytes, content: Bytes): Outcome {
    if CString(encAesKey) in cache then Recover(lib, cache[CString(encAesKey)], content)
    else FullPath(lib, abe, prv, encAesKey, content)
  }

  function CacheAfter(lib: Library, abe: Deployment, prv: Bytes, cache: KeyCache, encAesKey: Bytes): KeyCache {
    var wrapped := CString(encAesKey);
    if wrapped in cache then cache
    else
      match lib.unwrap(abe.schema, abe.pub, prv, wrapped)
      case Unwrapped(key) => cache[wrapped := key]
      case _ => cache
  }

  /** What `decrypt` leaves in the shared content key's m_aesKey. */
  function AesKeyAfter(lib: Library, abe: Deployment, prv: Bytes, cache: KeyCache, encAesKey: Bytes, aesKey: Bytes): Bytes {
    if CString(encAesKey) in cache then aesKey
    else
      match lib.unwrap(abe.schema, abe.pub, prv, CString(encAesKey))
      case Unwrapped(key) => key
      case Refused(left) => if left.Some? then left.value else aesKey
      case Threw(left) => if left.Some? then left.value else aesKey
  }

  // ---------- Implementation ----------

  /** A content key is shared: several cipher texts may point at one. */
  class ContentKey {
    var aesKey: Bytes
    var encAesKey: Bytes

    constructor (aesKey: Bytes, encAesKey: Bytes)
      ensures this.aesKey == aesKey && this.encAesKey == encAesKey
    {
      this.aesKey, this.encAesKey := aesKey, encAesKey;
    }

    method MakeCkContent() returns (wire: Bytes)
      ensures wire == Packets.EncodeCk(encAesKey)
      ensures |wire| < Tlv.LIMIT ==> Packets.ParseCk(wire) == Some(encAesKey)
    {
      var elements := [];
      elements := elements + [Tlv.Block(Tlv.ENCRYPTED_AES_KEY, encAesKey)];
      assert elements == [Tlv.Block(Tlv.ENCRYPTED_AES_KEY, encAesKey)];
      wire := Tlv.EncodeContent(elements);
      if |wire| < Tlv.LIMIT {
        Packets.CkRoundTrip(encAesKey);
      }
    }
  }

  /** src/algo/private-key.cpp. */
  class PrivateKey {
    var prv: Bytes

    constructor (prv: Bytes)
      ensures this.prv == prv
    {
      this.prv := prv;
    }

    method ToBuffer() returns (buffer: Bytes)
      ensures buffer == Terminate(prv) && (CString(buffer) == prv <==> NulFree(prv))
    {
      TerminatedRoundTrip(prv);
      buffer := prv + [0];
    }

    method FromBuffer(buffer: Bytes)
      requires 0 in buffer
      modifies this
      ensures prv == CString(buffer)
    {
      prv := CString(buffer);
    }
  }

  datatype CipherText = CipherText(contentKey: ContentKey, content: Bytes, plainTextSize: nat)

  class ABESupport {
    const lib: Library
    var decryptedContentKeyMap: KeyCache

    constructor (lib: Library)
      ensures this.lib == lib && decryptedContentKeyMap == map[]
    {
      this.lib, decryptedContentKeyMap := lib, map[];
    }

    method CpPrvKeyGen(pub: Bytes, msk: Bytes, attributes: seq<Bytes>, coins: nat) returns (prv: Option<Bytes>)
      requires attributes != []
      ensures prv == lib.keygen(CpAbe, pub, msk, Attributes.JoinAttributes(attributes), coins)
      ensures AbeCorrect(lib) && lib.mates(CpAbe, pub, msk) && prv.Some? ==>
                OpensExactly(lib, Deployment(CpAbe, pub), prv.value, Attributes.JoinAttributes(attributes))
    {
      var input := Attributes.Join(attributes);
      prv := lib.keygen(CpAbe, pub, msk, input, coins);
    }

    method KpPrvKeyGen(pub: Bytes, msk: Bytes, policy: Bytes, coins: nat) returns (prv: Option<Bytes>)
      ensures prv == lib.keygen(KpAbe, pub, msk, policy, coins)
      ensures AbeCorrect(lib) && lib.mates(KpAbe, pub, msk) && prv.Some? ==>
                OpensExactly(lib, Deployment(KpAbe, pub), prv.value, policy)
    {
      prv := lib.keygen(KpAbe, pub, msk, policy, coins);
    }

    /** None when the library throws; otherwise a fresh key and its wrapping, NUL included. */
    method ContentKeyGen(abe: Deployment, input: Bytes, symKey: Bytes, coins: nat) returns (key: Option<ContentKey>)
      ensures key.Some? <==> lib.wrap(abe.schema, abe.pub, input, symKey, coins).Some?
      ensures key.Some? ==>
                && fresh(key.value)
                && key.value.aesKey == symKey
                && key.value.encAesKey == WrappedBuffer(lib.wrap(abe.schema, abe.pub, input, symKey, coins).value)
    {
      match lib.wrap(abe.schema, abe.pub, input, symKey, coins)
      case None => key := None;
      case Some(wrapped) =>
        var k := new ContentKey(symKey, WrappedBuffer(wrapped));
        key := Some(k);
    }

    method CpContentKeyGen(pub: Bytes, policy: Bytes, symKey: Bytes, coins: nat) returns (key: Option<ContentKey>)
      ensures key.Some? <==> lib.wrap(CpAbe, pub, policy, symKey, coins).Some?
      ensures key.Some? ==>
                && fresh(key.value)
                && key.value.aesKey == symKey
                && key.value.encAesKey == WrappedBuffer(lib.wrap(CpAbe, pub, policy, symKey, coins).value)
    {
      key := ContentKeyGen(Deployment(CpAbe, pub), policy, symKey, coins);
    }

    method KpContentKeyGen(pub: Bytes, attributes: seq<Bytes>, symKey: Bytes, coins: nat) returns (key: Option<ContentKey>)
      requires attributes != []
      ensures var w := lib.wrap(KpAbe, pub, Attributes.JoinAttributes(attributes), symKey, coins);
              && (key.Some? <==> w.Some?)
              && (key.Some? ==> fresh(key.value) && key.value.aesKey == symKey && key.value.encAesKey == WrappedBuffer(w.value))
    {
      var input := Attributes.Join(attributes);
      key := ContentKeyGen(Deployment(KpAbe, pub), input, symKey, coins);
    }

    method Encrypt(contentKey: ContentKey, plain: Bytes, coins: nat) returns (cipherText: CipherText)
      ensures cipherText.contentKey == contentKey
      ensures cipherText.content == SealedBuffer(lib, contentKey.aesKey, plain, coins)
      ensures cipherText.plainTextSize == |plain| % UINT32
      ensures SealCorrect(lib) && Armoured(lib) ==>
                && (0 in cipherText.content <==> |lib.seal(contentKey.aesKey, Take32(plain), coins)| + 1 < UINT32)
                && (0 in cipherText.content ==>
                      Recover(lib, contentKey.aesKey, cipherText.content) == Success(Take32(plain)))
    {
      var ciphertext := lib.seal(contentKey.aesKey, plain[..|plain| % UINT32], coins);
      CopiedRoundTrip(ciphertext);
      cipherText := CipherText(contentKey, CopyTerminated(ciphertext), |plain| % UINT32);
    }

    /** Both buffers are read up to their first NUL, so each must hold one. */
    method Decrypt(abe: Deployment, prv: Bytes, cipherText: CipherText) returns (outcome: Outcome)
      requires 0 in cipherText.contentKey.encAesKey && 0 in cipherText.content
      modifies this`decryptedContentKeyMap, cipherText.contentKey`aesKey
      ensures var enc := cipherText.contentKey.encAesKey;
              && outcome == CachedPath(lib, abe, prv, old(decryptedContentKeyMap), enc, cipherText.content)
              && decryptedContentKeyMap == CacheAfter(lib, abe, prv, old(decryptedContentKeyMap), enc)
              && cipherText.contentKey.aesKey
                 == AesKeyAfter(lib, abe, prv, old(decryptedContentKeyMap), enc, old(cipherText.contentKey.aesKey))
    {
      var contentKey := cipherText.contentKey;
      var encryptedSymmetricKey := CString(contentKey.encAesKey);
      var decryptedSymmetricKey: Bytes;
      if encryptedSymmetricKey in decryptedContentKeyMap {
        decryptedSymmetricKey := decryptedContentKeyMap[encryptedSymmetricKey];
      } else {
        match lib.unwrap(abe.schema, abe.pub, prv, encryptedSymmetricKey) {
          case Unwrapped(key) =>
            contentKey.aesKey := key;
          case Refused(left) =>
            contentKey.aesKey := if left.Some? then left.value else contentKey.aesKey;
            return Failure(DECRYPTION_ERROR);
          case Threw(left) =>
            contentKey.aesKey := if left.Some? then left.value else contentKey.aesKey;
            return Failure(LIBRARY_ERROR);
        }
        decryptedContentKeyMap := decryptedContentKeyMap[encryptedSymmetricKey := contentKey.aesKey];
        decryptedSymmetricKey := contentKey.aesKey;
      }
      outcome := Recover(lib, decryptedSymmetricKey, cipherText.content);
    }

    method ClearCachedContentKeys()
      modifies this`decryptedContentKeyMap
      ensures decryptedContentKeyMap == map[]
    {
      decryptedContentKeyMap := map[];
    }
  }

  // ---------- Coherence of the cache ----------

  /** Each entry maps a wrapped key to the key that was wrapped, whatever the deployment. */
  ghost predicate Coherent(lib: Library, cache: KeyCache) {
    forall schema, pub, e, key, coins ::
      lib.wrap(schema, pub, e, key, coins).Some? && lib.wrap(schema, pub, e, key, coins).value in cache ==>
        cache[lib.wrap(schema, pub, e, key, coins).value] == key
  }

  /** A private key is one the authority generated for some attributes or policy d. */
  datatype Holder = Holder(msk: Bytes, d: Bytes, coins: nat)

  predicate Holds(lib: Library, abe: Deployment, holder: Holder) {
    && lib.mates(abe.schema, abe.pub, holder.msk)
    && lib.keygen(abe.schema, abe.pub, holder.msk, holder.d, holder.coins).Some?
  }

  function PrvOf(lib: Library, abe: Deployment, holder: Holder): Bytes
    requires Holds(lib, abe, holder)
  {
    lib.keygen(abe.schema, abe.pub, holder.msk, holder.d, holder.coins).value
  }

  /** What happens to the process-wide cache: anyone holding a key of any deployment decrypts
      anything, or the cache is cleared. */
  datatype CacheEvent = Decrypting(abe: Deployment, holder: Holder, encAesKey: Bytes) | Clearing

  predicate CacheEnabled(lib: Library, event: CacheEvent) {
    event.Decrypting? ==> Holds(lib, event.abe, event.holder)
  }

  predicate AllEnabled(lib: Library, events: seq<CacheEvent>) {
    forall i :: 0 <= i < |events| ==> CacheEnabled(lib, events[i])
  }

  function CacheRun(lib: Library, events: seq<CacheEvent>): KeyCache
    requires AllEnabled(lib, events)
  {
    if events == [] then map[]
    else
      var last := events[|events| - 1];
      match last
      case Decrypting(abe, holder, enc) =>
        CacheAfter(lib, abe, PrvOf(lib, abe, holder), CacheRun(lib, events[..|events| - 1]), enc)
      case Clearing => map[]
  }

  lemma WrapOpens(lib: Library, abe: Deployment, holder: Holder, e: Bytes, key: Bytes, coins: nat)
    requires AbeCorrect(lib) && Holds(lib, abe, holder)
    requires lib.wrap(abe.schema, abe.pub, e, key, coins).Some?
    ensures var answer := lib.unwrap(abe.schema, abe.pub, PrvOf(lib, abe, holder),
                                     lib.wrap(abe.schema, abe.pub, e, key, coins).value);
            if lib.satisfies(abe.schema, e, holder.d) then answer == Unwrapped(key) else !answer.Unwrapped?
  {
  }

  /** A holder of any deployment unwraps exactly what was wrapped in its own deployment for an e it satisfies. */
  lemma ForeignWrapStaysShut(lib: Library, abe: Deployment, holder: Holder, wrapper: Deployment, e: Bytes, key: Bytes, coins: nat)
    requires AbeCorrect(lib) && Separated(lib) && Holds(lib, abe, holder)
    requires lib.wrap(wrapper.schema, wrapper.pub, e, key, coins).Some?
    ensures var answer := lib.unwrap(abe.schema, abe.pub, PrvOf(lib, abe, holder),
                                     lib.wrap(wrapper.schema, wrapper.pub, e, key, coins).value);
            if abe == wrapper && lib.satisfies(abe.schema, e, holder.d) then answer == Unwrapped(key) else !answer.Unwrapped?
  {
    if abe == wrapper {
      WrapOpens(lib, abe, holder, e, key, coins);
    } else {
      assert (wrapper.schema, wrapper.pub) != (abe.schema, abe.pub);
    }
  }

  /** This decryption unwrapped w. */
  predicate Opened(lib: Library, event: CacheEvent, w: Bytes, key: Bytes) {
    && event.Decrypting? && Holds(lib, event.abe, event.holder) && CString(event.encAesKey) == w
    && lib.unwrap(event.abe.schema, event.abe.pub, PrvOf(lib, event.abe, event.holder), w) == Unwrapped(key)
  }

  /** In every reachable state, after decryptions by any holders of keys of any deployments and any
      clearing, each entry was unwrapped by a decryption of the run, and maps a wrapped key to the
      key that was wrapped. */
  lemma {:induction false} CacheAlwaysCoherent(lib: Library, events: seq<CacheEvent>)
    requires AbeCorrect(lib) && Separated(lib) && AllEnabled(lib, events)
    ensures forall w <- CacheRun(lib, events) ::
              exists i :: 0 <= i < |events| && Opened(lib, events[i], w, CacheRun(lib, events)[w])
    ensures Coherent(lib, CacheRun(lib, events))
  {
    if events != [] && events[|events| - 1].Decrypting? {
      var n := |events| - 1;
      CacheAlwaysCoherent(lib, events[..n]);
      var cache, cache' := CacheRun(lib, events[..n]), CacheRun(lib, events);
      forall w <- cache'
        ensures exists i :: 0 <= i < |events| && Opened(lib, events[i], w, cache'[w])
      {
        if w in cache {
          var i :| 0 <= i < n && Opened(lib, events[..n][i], w, cache[w]);
          assert events[i] == events[..n][i];
        } else {
          assert Opened(lib, events[n], w, cache'[w]);
        }
      }
      OpenedIsCoherent(lib, events, cache');
    }
  }

  lemma OpenedIsCoherent(lib: Library, events: seq<CacheEvent>, cache: KeyCache)
    requires AbeCorrect(lib) && Separated(lib)
    requires forall w <- cache :: exists i :: 0 <= i < |events| && Opened(lib, events[i], w, cache[w])
    ensures Coherent(lib, cache)
  {
    forall schema, pub, e, key, coins |
        lib.wrap(schema, pub, e, key, coins).Some? && lib.wrap(schema, pub, e, key, coins).value in cache
      ensures cache[lib.wrap(schema, pub, e, key, coins).value] == key
    {
      var w := lib.wrap(schema, pub, e, key, coins).value;
      var i :| 0 <= i < |events| && Opened(lib, events[i], w, cache[w]);
      ForeignWrapStaysShut(lib, events[i].abe, events[i].holder, Deployment(schema, pub), e, key, coins);
    }
  }

  /** A wrapped key is remembered only after somebody of its own deployment who satisfies what it was
      wrapped for has opened it. */
  lemma RememberedWasPermitted(lib: Library, events: seq<CacheEvent>, abe: Deployment, e: Bytes, key: Bytes, coins: nat)
    requires AbeCorrect(lib) && Separated(lib) && AllEnabled(lib, events)
    requires lib.wrap(abe.schema, abe.pub, e, key, coins).Some?
    requires lib.wrap(abe.schema, abe.pub, e, key, coins).value in CacheRun(lib, events)
    ensures exists i :: 0 <= i < |events| && events[i].Decrypting? && events[i].abe == abe
                        && lib.satisfies(abe.schema, e, events[i].holder.d)
  {
    CacheAlwaysCoherent(lib, events);
    var w := lib.wrap(abe.schema, abe.pub, e, key, coins).value;
    var i :| 0 <= i < |events| && Opened(lib, events[i], w, CacheRun(lib, events)[w]);
    ForeignWrapStaysShut(lib, events[i].abe, events[i].holder, abe, e, key, coins);
  }

  /** A content key that wraps its own symmetric key for e. */
  ghost predicate WellWrapped(lib: Library, abe: Deployment, e: Bytes, coins: nat, aesKey: Bytes, encAesKey: Bytes) {
    && lib.wrap(abe.schema, abe.pub, e, aesKey, coins).Some?
    && encAesKey == WrappedBuffer(lib.wrap(abe.schema, abe.pub, e, aesKey, coins).value)
  }

  /** A buffer that still holds its NUL reads back as what was copied into it. */
  lemma WholeBuffers(lib: Library, abe: Deployment, e: Bytes, coins: nat,
                     aesKey: Bytes, encAesKey: Bytes, plain: Bytes, sealing: nat)
    requires Ideal(lib) && WellWrapped(lib, abe, e, coins, aesKey, encAesKey)
    ensures 0 in encAesKey <==> |lib.wrap(abe.schema, abe.pub, e, aesKey, coins).value| + 1 < UINT32
    ensures 0 in encAesKey ==> CString(encAesKey) == lib.wrap(abe.schema, abe.pub, e, aesKey, coins).value
    ensures var content := SealedBuffer(lib, aesKey, plain, sealing);
            && (0 in content <==> |lib.seal(aesKey, Take32(plain), sealing)| + 1 < UINT32)
            && (0 in content ==> Recover(lib, aesKey, content) == Success(Take32(plain)))
  {
    CopiedRoundTrip(lib.wrap(abe.schema, abe.pub, e, aesKey, coins).value);
    CopiedRoundTrip(lib.seal(aesKey, Take32(plain), sealing));
  }

  /** With nothing remembered, decryption recovers what a 32-bit size counts of the plaintext exactly
      when the key satisfies what the content key was wrapped for; so the plaintext itself exactly
      when, besides, it is shorter than 4 GiB. */
  lemma FullPathOpens(lib: Library, abe: Deployment, holder: Holder, e: Bytes, coins: nat,
                      aesKey: Bytes, encAesKey: Bytes, plain: Bytes, sealing: nat)
    requires Ideal(lib) && Holds(lib, abe, holder) && WellWrapped(lib, abe, e, coins, aesKey, encAesKey)
    requires 0 in encAesKey && 0 in SealedBuffer(lib, aesKey, plain, sealing)
    ensures var outcome := FullPath(lib, abe, PrvOf(lib, abe, holder), encAesKey, SealedBuffer(lib, aesKey, plain, sealing));
            && (if lib.satisfies(abe.schema, e, holder.d) then outcome == Success(Take32(plain)) else outcome.Failure?)
            && (outcome == Success(plain) <==> lib.satisfies(abe.schema, e, holder.d) && |plain| < UINT32)
  {
    WrapOpens(lib, abe, holder, e, aesKey, coins);
    WholeBuffers(lib, abe, e, coins, aesKey, encAesKey, plain, sealing);
  }

  /** A plaintext of exactly 4 GiB: nothing of it is sealed, and a satisfying holder decrypts the
      empty string. */
  lemma FourGibIsLost()
    ensures var lib, abe := SymbolicLibrary((schema, e, d) => true), Deployment(CpAbe, []);
            var plain: Bytes := seq(UINT32, i => 65);
            var enc, content := WrappedBuffer(lib.wrap(CpAbe, [], [], [], 0).value), SealedBuffer(lib, [], plain, 0);
            && Ideal(lib) && Holds(lib, abe, Holder([], [], 0)) && WellWrapped(lib, abe, [], 0, [], enc)
            && 0 in enc && 0 in content
            && FullPath(lib, abe, PrvOf(lib, abe, Holder([], [], 0)), enc, content) == Success([]) != Success(plain)
  {
    var lib, abe := SymbolicLibrary((schema, e, d) => true), Deployment(CpAbe, []);
    var plain: Bytes := seq(UINT32, i => 65);
    SymbolicLibraryIsIdeal((schema, e, d) => true);
    assert Take32(plain) == [];
    WholeBuffers(lib, abe, [], 0, [], WrappedBuffer(lib.wrap(CpAbe, [], [], [], 0).value), plain, 0);
    FullPathOpens(lib, abe, Holder([], [], 0), [], 0, [], WrappedBuffer(lib.wrap(CpAbe, [], [], [], 0).value), plain, 0);
  }

  /** In every reachable state a cached decryption differs from the full path in one case only: the
      wrapped key is remembered, but the reader is of another deployment or its key does not satisfy
      the policy. So a hit agrees whenever the full path succeeds, and with an empty cache failures
      agree too. */
  lemma CachedAgreesExactly(lib: Library, events: seq<CacheEvent>, reader: Deployment, holder: Holder,
                            abe: Deployment, e: Bytes, coins: nat,
                            aesKey: Bytes, encAesKey: Bytes, plain: Bytes, sealing: nat)
    requires Ideal(lib) && Holds(lib, reader, holder) && WellWrapped(lib, abe, e, coins, aesKey, encAesKey)
    requires 0 in encAesKey && 0 in SealedBuffer(lib, aesKey, plain, sealing) && AllEnabled(lib, events)
    ensures var content := SealedBuffer(lib, aesKey, plain, sealing);
            var cache := CacheRun(lib, events);
            var prv := PrvOf(lib, reader, holder);
            CachedPath(lib, reader, prv, cache, encAesKey, content) == FullPath(lib, reader, prv, encAesKey, content)
            <==> CString(encAesKey) !in cache || (reader == abe && lib.satisfies(abe.schema, e, holder.d))
    ensures CacheRun(lib, events + [Clearing]) == map[]
  {
    CacheAlwaysCoherent(lib, events);
    WholeBuffers(lib, abe, e, coins, aesKey, encAesKey, plain, sealing);
    ForeignWrapStaysShut(lib, reader, holder, abe, e, aesKey, coins);
  }

  /** The case where they differ is reachable, for a reader whose key does not satisfy the policy and
      for any reader of another deployment: a satisfying holder decrypts, then the other one. */
  lemma CachedCanDiffer(lib: Library, abe: Deployment, satisfying: Holder, reader: Deployment, other: Holder,
                        e: Bytes, coins: nat, aesKey: Bytes, encAesKey: Bytes, plain: Bytes, sealing: nat)
    requires Ideal(lib) && Holds(lib, abe, satisfying) && Holds(lib, reader, other)
    requires WellWrapped(lib, abe, e, coins, aesKey, encAesKey)
    requires 0 in encAesKey && 0 in SealedBuffer(lib, aesKey, plain, sealing)
    requires lib.satisfies(abe.schema, e, satisfying.d) && (reader != abe || !lib.satisfies(abe.schema, e, other.d))
    ensures var cache := CacheRun(lib, [Decrypting(abe, satisfying, encAesKey)]);
            var content := SealedBuffer(lib, aesKey, plain, sealing);
            && FullPath(lib, reader, PrvOf(lib, reader, other), encAesKey, content).Failure?
            && CachedPath(lib, reader, PrvOf(lib, reader, other), cache, encAesKey, content) == Success(Take32(plain))
  {
    var events := [Decrypting(abe, satisfying, encAesKey)];
    assert events[..0] == [];
    WrapOpens(lib, abe, satisfying, e, aesKey, coins);
    ForeignWrapStaysShut(lib, reader, other, abe, e, aesKey, coins);
    WholeBuffers(lib, abe, e, coins, aesKey, encAesKey, plain, sealing);
  }

  /** The write through the shared content key: a well-wrapped content key stays as it was, so that
      later encryptions under it are unaffected, unless the library is asked, fails, and leaves other
      bytes behind. */
  lemma WriteThroughKeepsKey(lib: Library, reader: Deployment, holder: Holder, cache: KeyCache,
                             abe: Deployment, e: Bytes, coins: nat, aesKey: Bytes, encAesKey: Bytes)
    requires Ideal(lib) && Holds(lib, reader, holder) && WellWrapped(lib, abe, e, coins, aesKey, encAesKey) && 0 in encAesKey
    ensures AesKeyAfter(lib, reader, PrvOf(lib, reader, holder), cache, encAesKey, aesKey) == aesKey
            <==> || CString(encAesKey) in cache
                 || (reader == abe && lib.satisfies(abe.schema, e, holder.d))
                 || !lib.unwrap(reader.schema, reader.pub, PrvOf(lib, reader, holder), CString(encAesKey)).Spoils(aesKey)
  {
    WholeBuffers(lib, abe, e, coins, aesKey, encAesKey, [], 0);
    ForeignWrapStaysShut(lib, reader, holder, abe, e, aesKey, coins);
  }
}
