/** Attribute lists and the strings made of them. */
module Attributes {
  import opened ByteStrings

  const BAR: Byte := 124

  /** The attribute string handed to OpenABE: the attributes separated by '|'. */
  function JoinAttributes(attributes: seq<Bytes>): Bytes
    requires attributes != []
  {
    if |attributes| == 1 then attributes[0]
    else attributes[0] + [BAR] + JoinAttributes(attributes[1..])
  }

  /** Every attribute followed by '|'. */
  function BarTerminated(attributes: seq<Bytes>): Bytes {
    if attributes == [] then []
    else BarTerminated(attributes[..|attributes| - 1]) + attributes[|attributes| - 1] + [BAR]
  }

  lemma {:induction false} BarTerminatedFromFront(attributes: seq<Bytes>)
    requires attributes != []
    ensures BarTerminated(attributes) == attributes[0] + [BAR] + BarTerminated(attributes[1..])
  {
    var n := |attributes| - 1;
    if n > 0 {
      BarTerminatedFromFront(attributes[..n]);
      assert attributes[..n][1..] == attributes[1..][..n - 1];
      assert attributes[1..][n - 1] == attributes[n];
    }
  }

  lemma {:induction false} BarTerminatedIsJoin(attributes: seq<Bytes>)
    requires attributes != []
    ensures BarTerminated(attributes) == JoinAttributes(attributes) + [BAR]
  {
    BarTerminatedFromFront(attributes);
    if |attributes| > 1 {
      BarTerminatedIsJoin(attributes[1..]);
    }
  }

  /** The loop of `ABESupport` that joins attributes: append each with '|', drop the last '|'. */
  method Join(attributes: seq<Bytes>) returns (s: Bytes)
    requires attributes != []
    ensures s == JoinAttributes(attributes)
  {
    s := [];
    for i := 0 to |attributes|
      invariant s == BarTerminated(attributes[..i])
    {
      assert attributes[..i + 1][..i] == attributes[..i];
      s := s + (attributes[i] + [BAR]);
    }
    assert attributes[..|attributes|] == attributes;
    BarTerminatedIsJoin(attributes);
    s := s[..|s| - 1];
  }

  ghost predicate BarFree(attributes: seq<Bytes>) {
    forall a <- attributes :: BAR !in a
  }

  /** The attribute string reads as the list, in its order: attributes without '|' are the pieces
      between the bars. */
  lemma {:induction false} JoinReads(attributes: seq<Bytes>)
    requires attributes != [] && forall a <- attributes :: 124 !in a
    ensures Pieces(JoinAttributes(attributes), 124) == attributes
  {
    assert 124 !in attributes[0];
    if |attributes| > 1 {
      assert forall a <- attributes[1..] :: a in attributes;
      JoinReads(attributes[1..]);
      SplitAt(attributes[0], BAR, JoinAttributes(attributes[1..]));
      assert attributes == [attributes[0]] + attributes[1..];
    }
  }

  /** The cache key of a list determines the string ABE is given, and conversely. */
  lemma SameKeySameString(a: seq<Bytes>, b: seq<Bytes>)
    requires a != [] && b != []
    ensures BarTerminated(a) == BarTerminated(b) <==> JoinAttributes(a) == JoinAttributes(b)
  {
    BarTerminatedIsJoin(a);
    BarTerminatedIsJoin(b);
    if BarTerminated(a) == BarTerminated(b) {
      assert JoinAttributes(a) == BarTerminated(a)[..|BarTerminated(a)| - 1];
    }
  }

  lemma {:induction false} BarTerminatedInjective(a: seq<Bytes>, b: seq<Bytes>)
    requires BarFree(a) && BarFree(b) && BarTerminated(a) == BarTerminated(b)
    ensures a == b
  {
    if a != [] && b != [] {
      BarTerminatedFromFront(a);
      BarTerminatedFromFront(b);
      SplitAt(a[0], BAR, BarTerminated(a[1..]));
      SplitAt(b[0], BAR, BarTerminated(b[1..]));
      BarTerminatedInjective(a[1..], b[1..]);
      assert a == [a[0]] + a[1..] && b == [b[0]] + b[1..];
    }
  }

  /** On attributes without '|' the attribute string determines the list. */
  lemma JoinInjective(a: seq<Bytes>, b: seq<Bytes>)
    requires a != [] && b != [] && BarFree(a) && BarFree(b)
    ensures JoinAttributes(a) == JoinAttributes(b) <==> a == b
  {
    if JoinAttributes(a) == JoinAttributes(b) {
      SameKeySameString(a, b);
      BarTerminatedInjective(a, b);
    }
  }
}
