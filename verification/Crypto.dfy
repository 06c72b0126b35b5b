/** The cryptographic libraries as records of functions, and what an ideal library does. */
module Crypto {
  import opened Options
  import opened ByteStrings

  datatype Schema = CpAbe | KpAbe

  /** What OpenABE answers to `decrypt`: true with the key, false, or an exception. A failing
      call may leave bytes in its output argument. */
  datatype AbeAnswer = Unwrapped(key: Bytes) | Refused(left: Option<Bytes>) | Threw(left: Option<Bytes>) {
    /** A failing call that leaves something else in an output argument that held key. */
    predicate Spoils(key: Bytes) {
      !Unwrapped? && left.Some? && left.value != key
    }
  }

  /** None stands for an exception. Every randomised call takes its coins as an argument.
      - satisfies(schema, e, d): keys generated for d open what was encrypted for e
      - mates(schema, pub, msk): public parameters and master key of one setup
      - keygen(schema, pub, msk, d, coins), wrap(schema, pub, e, key, coins),
        unwrap(schema, pub, prv, wrapped): OpenABECryptoContext
      - seal(key, plain, coins), open(key, sealed): OpenABESymKeyEnc
      - the rest: the AES-CBC and RSA calls of the hybrid envelope */
  datatype Library = Library(
    satisfies: (Schema, Bytes, Bytes) -> bool,
    mates: (Schema, Bytes, Bytes) -> bool,
    keygen: (Schema, Bytes, Bytes, Bytes, nat) -> Option<Bytes>,
    wrap: (Schema, Bytes, Bytes, Bytes, nat) -> Option<Bytes>,
    unwrap: (Schema, Bytes, Bytes, Bytes) -> AbeAnswer,
    seal: (Bytes, Bytes, nat) -> Bytes,
    open: (Bytes, Bytes) -> Option<Bytes>,
    aesEncrypt: (Bytes, Bytes, Bytes) -> Bytes,
    aesDecrypt: (Bytes, Bytes, Bytes) -> Option<Bytes>,
    rsaPublic: Bytes -> Bytes,
    rsaEncrypt: (Bytes, Bytes, nat) -> Bytes,
    rsaDecrypt: (Bytes, Bytes) -> Option<Bytes>)

  /** Unwrapping undoes wrapping exactly when the key satisfies what was encrypted for. */
  ghost predicate AbeCorrect(lib: Library) {
    forall schema, pub, msk, e, d, key, coins, coins' ::
      lib.mates(schema, pub, msk) &&
      lib.wrap(schema, pub, e, key, coins).Some? &&
      lib.keygen(schema, pub, msk, d, coins').Some? ==>
        var answer := lib.unwrap(schema, pub, lib.keygen(schema, pub, msk, d, coins').value,
                                 lib.wrap(schema, pub, e, key, coins).value);
        if lib.satisfies(schema, e, d) then answer == Unwrapped(key) else !answer.Unwrapped?
  }

  /** A key generated in one setup opens nothing that was wrapped under other public parameters. */
  ghost predicate Separated(lib: Library) {
    forall schema, pub, e, key, coins, schema', pub', msk', d', coins' ::
      (schema, pub) != (schema', pub') && lib.mates(schema', pub', msk') &&
      lib.wrap(schema, pub, e, key, coins).Some? &&
      lib.keygen(schema', pub', msk', d', coins').Some? ==>
        !lib.unwrap(schema', pub', lib.keygen(schema', pub', msk', d', coins').value,
                    lib.wrap(schema, pub, e, key, coins).value).Unwrapped?
  }

  ghost predicate SealCorrect(lib: Library) {
    forall key, plain, coins :: lib.open(key, lib.seal(key, plain, coins)) == Some(plain)
  }

  /** OpenABE exports text: its strings hold no NUL. */
  ghost predicate Armoured(lib: Library) {
    && (forall schema, pub, e, key, coins ::
          lib.wrap(schema, pub, e, key, coins).Some? ==> NulFree(lib.wrap(schema, pub, e, key, coins).value))
    && (forall schema, pub, msk, d, coins ::
          lib.keygen(schema, pub, msk, d, coins).Some? ==> NulFree(lib.keygen(schema, pub, msk, d, coins).value))
    && (forall key, plain, coins :: NulFree(lib.seal(key, plain, coins)))
  }

  ghost predicate EnvelopeCorrect(lib: Library) {
    && (forall key, payload, iv :: lib.aesDecrypt(key, lib.aesEncrypt(key, payload, iv), iv) == Some(payload))
    && (forall sk, m, coins :: lib.rsaDecrypt(sk, lib.rsaEncrypt(lib.rsaPublic(sk), m, coins)) == Some(m))
  }

  ghost predicate Ideal(lib: Library) {
    AbeCorrect(lib) && Separated(lib) && SealCorrect(lib) && Armoured(lib) && EnvelopeCorrect(lib)
  }

  // ---------- A symbolic library: ideal libraries exist for every satisfaction relation ----------

  /** NUL-free text for any bytes: two digits 1..16 per byte. */
  function Digits(b: Bytes): (t: Bytes)
    ensures forall x <- t :: 1 <= x <= 16
  {
    if b == [] then [] else [b[0] / 16 + 1, b[0] % 16 + 1] + Digits(b[1..])
  }

  function Undigits(t: Bytes): Bytes {
    if |t| < 2 then []
    else
      var high: int, low: int := t[0], t[1];
      [(16 * (high - 1) + (low - 1)) % 256] + Undigits(t[2..])
  }

  const SEPARATOR: Byte := 17

  function Pack(a: Bytes, b: Bytes): (t: Bytes)
    ensures NulFree(t)
  {
    Digits(a) + [SEPARATOR] + Digits(b)
  }

  lemma {:induction false} DigitsRoundTrip(b: Bytes)
    ensures Undigits(Digits(b)) == b
  {
    if b != [] {
      DigitsRoundTrip(b[1..]);
      assert Digits(b)[2..] == Digits(b[1..]);
    }
  }

  function First(t: Bytes): Bytes {
    Undigits(Before(t, SEPARATOR))
  }

  function Second(t: Bytes): Bytes {
    Undigits(After(t, SEPARATOR))
  }

  /** A scheme and its public parameters as one string. */
  function Setup(schema: Schema, pub: Bytes): Bytes {
    [if schema == CpAbe then 0 else 1] + pub
  }

  lemma PackRoundTrip(a: Bytes, b: Bytes)
    ensures First(Pack(a, b)) == a && Second(Pack(a, b)) == b
  {
    SplitAt(Digits(a), SEPARATOR, Digits(b));
    DigitsRoundTrip(a);
    DigitsRoundTrip(b);
  }

  function SymbolicUnwrap(sat: (Schema, Bytes, Bytes) -> bool,
                          schema: Schema, pub: Bytes, prv: Bytes, wrapped: Bytes): AbeAnswer {
    if First(wrapped) == First(prv) == Setup(schema, pub) && sat(schema, First(Second(wrapped)), Second(prv))
    then Unwrapped(Second(Second(wrapped)))
    else Refused(None)
  }

  function SymbolicOpen(key: Bytes, sealed: Bytes): Option<Bytes> {
    if First(sealed) == key then Some(Second(sealed)) else None
  }

  function SymbolicLibrary(sat: (Schema, Bytes, Bytes) -> bool): Library {
    Library(
      sat,
      (schema, pub, msk) => true,
      (schema, pub, msk, d, coins) => Some(Pack(Setup(schema, pub), d)),
      (schema, pub, e, key, coins) => Some(Pack(Setup(schema, pub), Pack(e, key))),
      (schema, pub, prv, wrapped) => SymbolicUnwrap(sat, schema, pub, prv, wrapped),
      (key, plain, coins) => Pack(key, plain),
      (key, sealed) => SymbolicOpen(key, sealed),
      (key, payload, iv) => Pack(key, payload),
      (key, sealed, iv) => SymbolicOpen(key, sealed),
      sk => sk,
      (pk, m, coins) => Pack(pk, m),
      (sk, c) => SymbolicOpen(sk, c))
  }

  /** The assumptions of `Ideal` are consistent, whatever the satisfaction relation. */
  lemma SymbolicLibraryIsIdeal(sat: (Schema, Bytes, Bytes) -> bool)
    ensures Ideal(SymbolicLibrary(sat)) && SymbolicLibrary(sat).satisfies == sat
  {
    forall a: Bytes, b: Bytes
      ensures First(Pack(a, b)) == a && Second(Pack(a, b)) == b
    {
      PackRoundTrip(a, b);
    }
    forall schema, pub, schema', pub' | Setup(schema, pub) == Setup(schema', pub')
      ensures schema == schema' && pub == pub'
    {
      assert Setup(schema, pub)[1..] == pub && Setup(schema', pub')[1..] == pub';
    }
  }
}
