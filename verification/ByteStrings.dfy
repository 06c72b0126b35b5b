/** Optional values, used for lookups that may miss and for calls that may throw. */
module Options {
  datatype Option<+T> = None | Some(value: T) {
    predicate IsFailure() { None? }

    function PropagateFailure<U>(): Option<U>
      requires None?
    {
      None
    }

    function Extract(): T
      requires Some?
    {
      value
    }
  }
}

/** Byte strings (std::string and ndn::Buffer alike), big-endian integers and C strings. */
module ByteStrings {
  type Byte = x: int | 0 <= x < 256
  type Bytes = seq<Byte>

  function Ascii(s: string): Bytes {
    seq(|s|, i requires 0 <= i < |s| => (s[i] as int) % 256)
  }

  function Pow256(k: nat): (p: nat)
    ensures p > 0
  {
    if k == 0 then 1 else 256 * Pow256(k - 1)
  }

  /** The low k bytes of n, most significant first. */
  function BigEndian(n: nat, k: nat): (b: Bytes)
    ensures |b| == k
  {
    if k == 0 then [] else BigEndian(n / 256, k - 1) + [n % 256]
  }

  function FromBigEndian(b: Bytes): nat {
    if b == [] then 0 else 256 * FromBigEndian(b[..|b| - 1]) + b[|b| - 1]
  }

  lemma {:induction false} BigEndianRoundTrip(n: nat, k: nat)
    requires n < Pow256(k)
    ensures FromBigEndian(BigEndian(n, k)) == n
  {
    if k > 0 {
      BigEndianRoundTrip(n / 256, k - 1);
      var b := BigEndian(n, k);
      assert b[..|b| - 1] == BigEndian(n / 256, k - 1);
    }
  }

  lemma {:induction false} BoundedByLength(b: Bytes)
    ensures FromBigEndian(b) < Pow256(|b|)
  {
    if b != [] {
      BoundedByLength(b[..|b| - 1]);
    }
  }

  /** n shifted right by k bytes. */
  function Shifted(n: nat, k: nat): nat {
    if k == 0 then n else Shifted(n / 256, k - 1)
  }

  /** The most significant byte comes first: byte i of k is what is left of n above the bytes behind it. */
  lemma {:induction false} MostSignificantFirst(n: nat, k: nat, i: nat)
    requires i < k
    ensures BigEndian(n, k)[i] == Shifted(n, k - 1 - i) % 256
  {
    if i < k - 1 {
      MostSignificantFirst(n / 256, k - 1, i);
    }
  }

  lemma Powers()
    ensures Pow256(1) == 0x100 && Pow256(2) == 0x1_0000
    ensures Pow256(4) == 0x1_0000_0000 && Pow256(8) == 0x1_0000_0000_0000_0000
  {
    assert Pow256(3) == 0x100_0000 && Pow256(5) == 0x100_0000_0000;
    assert Pow256(6) == 0x1_0000_0000_0000 && Pow256(7) == 0x100_0000_0000_0000;
  }

  /** What precedes the first occurrence of a separator byte, and what follows it. */
  function Before(t: Bytes, separator: Byte): Bytes {
    if t == [] || t[0] == separator then [] else [t[0]] + Before(t[1..], separator)
  }

  function After(t: Bytes, separator: Byte): Bytes {
    if t == [] then [] else if t[0] == separator then t[1..] else After(t[1..], separator)
  }

  /** The pieces between the separators. */
  function Pieces(t: Bytes, separator: Byte): (parts: seq<Bytes>)
    ensures parts != []
    decreases |t|
  {
    if separator !in t then [t]
    else
      AfterIsShorter(t, separator);
      [Before(t, separator)] + Pieces(After(t, separator), separator)
  }

  lemma {:induction false} AfterIsShorter(t: Bytes, separator: Byte)
    requires separator in t
    ensures |After(t, separator)| < |t|
  {
    if t[0] != separator {
      AfterIsShorter(t[1..], separator);
    }
  }

  lemma {:induction false} SplitAt(a: Bytes, separator: Byte, b: Bytes)
    requires separator !in a
    ensures Before(a + [separator] + b, separator) == a && After(a + [separator] + b, separator) == b
  {
    var t := a + [separator] + b;
    if a == [] {
      assert t[1..] == b;
    } else {
      SplitAt(a[1..], separator, b);
      assert t[1..] == a[1..] + [separator] + b;
    }
  }

  predicate NulFree(s: Bytes) {
    0 !in s
  }

  /** `Buffer(s.c_str(), s.size() + 1)`. */
  function Terminate(s: Bytes): Bytes {
    s + [0]
  }

  /** `std::string((char*)buf.data())`: the bytes before the first NUL. */
  function CString(buf: Bytes): (s: Bytes)
    ensures NulFree(s) && s <= buf
    ensures |s| < |buf| ==> buf[|s|] == 0
  {
    if buf == [] || buf[0] == 0 then [] else [buf[0]] + CString(buf[1..])
  }

  const UINT32: nat := 0x1_0000_0000

  /** The first `(uint32_t) s.size()` bytes. */
  function Take32(s: Bytes): (t: Bytes)
    ensures t == s <==> |s| < UINT32
  {
    s[..|s| % UINT32]
  }

  /** `Buffer(s.c_str(), (uint32_t) s.size() + 1)`: cast and addition both wrap at 32 bits. */
  function CopyTerminated(s: Bytes): Bytes {
    Terminate(s)[..(|s| % UINT32 + 1) % UINT32]
  }

  /** A copy whose size is taken to 32 bits still holds its NUL, and reads back as the string,
      exactly when the size plus one fits; no longer string survives. */
  lemma CopiedRoundTrip(s: Bytes)
    ensures CString(CopyTerminated(s)) == s <==> NulFree(s) && |s| + 1 < UINT32
    ensures NulFree(s) ==> (0 in CopyTerminated(s) <==> |s| + 1 < UINT32)
  {
    var copy := CopyTerminated(s);
    if |s| + 1 < UINT32 {
      assert copy == Terminate(s) && copy[|s|] == 0;
      TerminatedRoundTrip(s);
    } else {
      assert |copy| < |s| && copy <= s;
    }
  }

  /** Writing size + 1 bytes and reading back to the first NUL loses nothing exactly when
      the string has no NUL; otherwise it cuts the string at its first NUL. */
  lemma {:induction false} TerminatedRoundTrip(s: Bytes)
    ensures CString(Terminate(s)) == s <==> NulFree(s)
    ensures CString(Terminate(s)) == CString(s)
  {
    if s != [] && s[0] != 0 {
      TerminatedRoundTrip(s[1..]);
      assert Terminate(s)[1..] == Terminate(s[1..]);
    }
  }
}
