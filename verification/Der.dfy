/** The DER encoding of the proxy's certificate, against a reference decoder for ITU-T X.690: lengths as in
    sections 8.1.3 and 10.1 (definite form, fewest octets), object identifiers as in section 8.19.
    Tags are single octets.
 */
module Der {
  import opened Wrappers
  import opened Common

  // ---- The encoder ------------------------------------------------------------------------------------

  /** Base 256, most significant octet first, nothing for zero. */
  function Base256(n: nat): seq<Byte> {
    if n == 0 then [] else Base256(n / 256) + [n % 256]
  }

  /** An octet with its top bit set, of what fits below it. */
  function Marked(n: nat): Byte {
    0x80 + n % 0x80
  }

  function Tlv(tag: Byte, body: seq<Byte>): (bytes: seq<Byte>)
  {
    if |body| < 0x80 then [tag, |body|] + body
    else [tag, Marked(|Base256(|body|)|)] + Base256(|body|) + body
  }

  method EncodeTlv(tag: Byte, body: seq<Byte>) returns (bytes: seq<Byte>)
    ensures bytes == Tlv(tag, body)
  {
    if |body| < 0x80 {
      return [tag, |body|] + body;
    }
    var length: seq<Byte> := [];
    var n := |body|;
    while n > 0
      invariant n >= 0 && Base256(n) + length == Base256(|body|)
    {
      Grouping(Base256(n / 256), [n % 256], length);
      length := [n % 256] + length;
      n := n / 256;
    }
    bytes := [tag, Marked(|length|)] + length + body;
  }

  /** All octets of a number in base 128 but its last, each marked. */
  function MarkedBase128(n: nat): seq<Byte> {
    if n == 0 then [] else MarkedBase128(n / 128) + [Marked(n % 128)]
  }

  function Arc(n: nat): seq<Byte> {
    MarkedBase128(n / 128) + [n % 128]
  }

  function Arcs(ns: seq<nat>): seq<Byte> {
    if ns == [] then [] else Arc(ns[0]) + Arcs(ns[1..])
  }

  /** The first two arcs share one octet, which keeps only what fits. */
  function OidBody(arcs: seq<nat>): seq<Byte>
    requires |arcs| >= 2
  {
    [(40 * arcs[0] + arcs[1]) % 256] + Arcs(arcs[2..])
  }

  /** The loop over one arc's octets. */
  method EncodeArc(n: nat) returns (chunk: seq<Byte>)
    ensures chunk == Arc(n)
  {
    chunk := [n % 128];
    var v := n / 128;
    while v > 0
      invariant v >= 0 && MarkedBase128(v) + chunk == Arc(n)
    {
      Grouping(MarkedBase128(v / 128), [Marked(v % 128)], chunk);
      chunk := [Marked(v % 128)] + chunk;
      v := v / 128;
    }
  }

  method EncodeOid(arcs: seq<nat>) returns (bytes: seq<Byte>)
    requires |arcs| >= 2
    ensures bytes == Tlv(0x06, OidBody(arcs))
  {
    var body: seq<Byte> := [(40 * arcs[0] + arcs[1]) % 256];
    var rest := arcs[2..];
    for i := 0 to |rest|
      invariant body + Arcs(rest[i..]) == OidBody(arcs)
    {
      var chunk := EncodeArc(rest[i]);
      assert rest[i..][1..] == rest[i + 1..];
      Grouping(body, chunk, Arcs(rest[i + 1..]));
      body := body + chunk;
    }
    assert body + [] == body;
    bytes := EncodeTlv(0x06, body);
  }

  // ---- The reference decoder --------------------------------------------------------------------------

  function ValueOf256(octets: seq<Byte>): nat {
    if octets == [] then 0 else ValueOf256(octets[..|octets| - 1]) * 256 + octets[|octets| - 1]
  }

  datatype Element = Element(tag: Byte, body: seq<Byte>)

  /** How many octets the length takes after its first one. */
  function LongFormOctets(first: Byte): nat {
    if first < 0x80 then 0 else first - 0x80
  }

  /** One element from the front, and what follows it. Section 8.1.3.5 rules out 0xff as the first octet of
      the length, section 10.1 the indefinite form and lengths in more octets than needed. */
  function Decode(bytes: seq<Byte>): Option<(Element, seq<Byte>)> {
    if |bytes| < 2 || bytes[1] == 0x80 || bytes[1] == 0xff then None else
    var more := LongFormOctets(bytes[1]);
    if |bytes| < 2 + more then None else
    var octets := bytes[2..2 + more];
    if more > 0 && (octets[0] == 0 || ValueOf256(octets) < 0x80) then None else
    var length := if more == 0 then bytes[1] else ValueOf256(octets);
    if |bytes| < 2 + more + length then None else
    Some((Element(bytes[0], bytes[2 + more..2 + more + length]), bytes[2 + more + length..]))
  }

  // ---- Encoding and decoding are inverse --------------------------------------------------------------

  lemma {:induction false} Base256Value(n: nat)
    ensures ValueOf256(Base256(n)) == n
    ensures n > 0 ==> |Base256(n)| > 0 && Base256(n)[0] != 0
  {
    if n > 0 {
      Base256Value(n / 256);
      assert Base256(n)[..|Base256(n)| - 1] == Base256(n / 256);
    }
  }

  lemma {:induction false} ValueBase256(octets: seq<Byte>)
    requires octets == [] || octets[0] != 0
    ensures Base256(ValueOf256(octets)) == octets
    ensures octets != [] ==> ValueOf256(octets) > 0
  {
    if octets != [] {
      var init := octets[..|octets| - 1];
      ValueBase256(init);
      assert octets == init + [octets[|octets| - 1]];
      assert init == [] ==> ValueOf256(init) == 0;
    }
  }

  /** A length that the long form can announce. */
  predicate Announceable(length: nat) {
    |Base256(length)| <= 126
  }

  /** Where the parts of four put together are. */
  lemma Parts(a: seq<Byte>, b: seq<Byte>, c: seq<Byte>, d: seq<Byte>)
    ensures var all := a + b + c + d;
            && all[|a|..|a| + |b|] == b
            && all[|a| + |b|..|a| + |b| + |c|] == c && all[|a| + |b| + |c|..] == d
  {
  }

  lemma DecodeLongForm(tag: Byte, octets: seq<Byte>, body: seq<Byte>, rest: seq<Byte>)
    requires 0 < |octets| <= 126 && octets[0] != 0 && ValueOf256(octets) == |body| >= 0x80
    ensures Decode([tag, 0x80 + |octets|] + octets + body + rest) == Some((Element(tag, body), rest))
  {
    Parts([tag, 0x80 + |octets|], octets, body, rest);
    assert LongFormOctets(0x80 + |octets|) == |octets|;
  }

  lemma DecodeShortForm(tag: Byte, body: seq<Byte>, rest: seq<Byte>)
    requires |body| < 0x80
    ensures Decode([tag, |body|] + body + rest) == Some((Element(tag, body), rest))
  {
    var bytes := [tag, |body|] + body + rest;
    assert bytes[2..2 + |body|] == body && bytes[2 + |body|..] == rest;
  }

  lemma LongForm(tag: Byte, body: seq<Byte>)
    requires Announceable(|body|) && |body| >= 0x80
    ensures var octets := Base256(|body|);
            && Tlv(tag, body) == [tag, 0x80 + |octets|] + octets + body
            && 0 < |octets| <= 126 && octets[0] != 0 && ValueOf256(octets) == |body|
  {
    Base256Value(|body|);
  }

  /** The decoder recovers what was encoded, whatever follows it. */
  lemma DecodeInvertsTlv(tag: Byte, body: seq<Byte>, rest: seq<Byte>)
    requires Announceable(|body|)
    ensures Decode(Tlv(tag, body) + rest) == Some((Element(tag, body), rest))
  {
    if |body| < 0x80 {
      DecodeShortForm(tag, body, rest);
    } else {
      LongForm(tag, body);
      DecodeLongForm(tag, Base256(|body|), body, rest);
    }
  }

  lemma ShortLengths(n: nat)
    requires n < 0x80
    ensures Announceable(n)
  {
    assert n / 256 == 0;
    assert Base256(n / 256) == [];
  }

  /** An element with a short length takes two octets and its body. */
  lemma ShortFormIsTlv(bytes: seq<Byte>)
    requires Decode(bytes).Some? && bytes[1] < 0x80
    ensures var (element, rest) := Decode(bytes).value;
            Announceable(|element.body|) && bytes == Tlv(element.tag, element.body) + rest
  {
    var (element, rest) := Decode(bytes).value;
    ShortLengths(|element.body|);
    assert bytes == [bytes[0], bytes[1]] + element.body + rest;
  }

  /** The parts of an element with a long length. */
  lemma LongFormParts(bytes: seq<Byte>)
    requires Decode(bytes).Some? && bytes[1] >= 0x80
    ensures var more := LongFormOctets(bytes[1]);
            var (element, rest) := Decode(bytes).value;
            && 0 < more <= 126 && 2 + more <= |bytes| && element.tag == bytes[0]
            && bytes[2] != 0 && ValueOf256(bytes[2..2 + more]) == |element.body| >= 0x80
            && bytes == [bytes[0], bytes[1]] + bytes[2..2 + more] + element.body + rest
  {
    var more := LongFormOctets(bytes[1]);
    var tail := bytes[2 + more..];
    var (element, rest) := Decode(bytes).value;
    assert tail[..|element.body|] == element.body && tail[|element.body|..] == rest;
    assert bytes == [bytes[0], bytes[1]] + bytes[2..2 + more] + tail;
  }

  /** Octets without a leading zero, marked with their number, are what the encoder writes. */
  lemma LongFormIsTlv(tag: Byte, octets: seq<Byte>, body: seq<Byte>)
    requires 0 < |octets| <= 126 && octets[0] != 0 && ValueOf256(octets) == |body| >= 0x80
    ensures Announceable(|body|) && Tlv(tag, body) == [tag, 0x80 + |octets|] + octets + body
  {
    ValueBase256(octets);
  }

  /** What the decoder accepts is what the encoder writes: every element has one encoding, the shortest. */
  lemma TlvInvertsDecode(bytes: seq<Byte>)
    requires Decode(bytes).Some?
    ensures var (element, rest) := Decode(bytes).value;
            Announceable(|element.body|) && bytes == Tlv(element.tag, element.body) + rest
  {
    if bytes[1] < 0x80 {
      ShortFormIsTlv(bytes);
    } else {
      LongFormParts(bytes);
      var (element, _) := Decode(bytes).value;
      LongFormIsTlv(bytes[0], bytes[2..2 + LongFormOctets(bytes[1])], element.body);
    }
  }

  function TlvAll(elements: seq<Element>): seq<Byte> {
    if elements == [] then [] else Tlv(elements[0].tag, elements[0].body) + TlvAll(elements[1..])
  }

  function DecodeAll(bytes: seq<Byte>): Option<seq<Element>>
    decreases |bytes|
  {
    if bytes == [] then Some([]) else
    match Decode(bytes)
    case None => None
    case Some(pair) =>
      if |pair.1| >= |bytes| then None else
      match DecodeAll(pair.1)
      case None => None
      case Some(rest) => Some([pair.0] + rest)
  }

  /** The contents of a sequence or set read back as the elements they were put together from. */
  lemma {:induction false} DecodeAllInvertsTlvAll(elements: seq<Element>)
    requires forall e :: e in elements ==> Announceable(|e.body|)
    ensures DecodeAll(TlvAll(elements)) == Some(elements)
  {
    if elements != [] {
      DecodeInvertsTlv(elements[0].tag, elements[0].body, TlvAll(elements[1..]));
      DecodeAllInvertsTlvAll(elements[1..]);
      assert [elements[0]] + elements[1..] == elements;
    }
  }

  // ---- Object identifiers -----------------------------------------------------------------------------

  /** One subidentifier, with `acc` read of it so far: octets with the top bit set, then one without. */
  function Subidentifier(acc: nat, bytes: seq<Byte>): Option<(nat, seq<Byte>)>
    decreases bytes
  {
    if bytes == [] then None
    else if bytes[0] < 0x80 then Some((acc * 128 + bytes[0], bytes[1..]))
    else Subidentifier(acc * 128 + (bytes[0] - 0x80), bytes[1..])
  }

  /** Section 8.19.2 rules out 0x80 as the first octet of a subidentifier. */
  function Subidentifiers(bytes: seq<Byte>): Option<seq<nat>>
    decreases |bytes|
  {
    if bytes == [] then Some([])
    else if bytes[0] == 0x80 then None
    else match Subidentifier(0, bytes)
      case None => None
      case Some(pair) =>
        if |pair.1| >= |bytes| then None
        else match Subidentifiers(pair.1)
          case None => None
          case Some(rest) => Some([pair.0] + rest)
  }

  /** Section 8.19.4: the first subidentifier stands for the first two arcs. */
  function DecodeOid(body: seq<Byte>): Option<seq<nat>> {
    match Subidentifiers(body)
    case None => None
    case Some(subs) =>
      if subs == [] then None else
      var first := if subs[0] / 40 < 2 then subs[0] / 40 else 2;
      Some([first, subs[0] - 40 * first] + subs[1..])
  }

  lemma {:induction false} MarkedIsRead(n: nat, tail: seq<Byte>)
    ensures Subidentifier(0, MarkedBase128(n) + tail) == Subidentifier(n, tail)
    ensures n > 0 ==> MarkedBase128(n) != [] && MarkedBase128(n)[0] > 0x80
    decreases n
  {
    if n == 0 {
      assert MarkedBase128(n) + tail == tail;
    } else {
      var more := [Marked(n % 128)] + tail;
      assert MarkedBase128(n) + tail == MarkedBase128(n / 128) + more;
      MarkedIsRead(n / 128, more);
      assert more[1..] == tail;
    }
  }

  lemma ArcIsRead(n: nat, tail: seq<Byte>)
    ensures Subidentifier(0, Arc(n) + tail) == Some((n, tail))
    ensures Arc(n)[0] != 0x80 && |Arc(n)| > 0
  {
    assert Arc(n) + tail == MarkedBase128(n / 128) + ([n % 128] + tail);
    MarkedIsRead(n / 128, [n % 128] + tail);
    assert ([n % 128] + tail)[1..] == tail;
  }

  lemma {:induction false} ArcsAreRead(ns: seq<nat>)
    ensures Subidentifiers(Arcs(ns)) == Some(ns)
  {
    if ns != [] {
      ArcIsRead(ns[0], Arcs(ns[1..]));
      ArcsAreRead(ns[1..]);
      assert [ns[0]] + ns[1..] == ns;
    }
  }

  /** The octets that end a subidentifier. */
  function Ends(bytes: seq<Byte>): nat {
    if bytes == [] then 0 else (if bytes[0] < 0x80 then 1 else 0) + Ends(bytes[1..])
  }

  lemma {:induction false} EndsOfSum(a: seq<Byte>, b: seq<Byte>)
    ensures Ends(a + b) == Ends(a) + Ends(b)
  {
    if a == [] {
      assert a + b == b;
    } else {
      assert (a + b)[1..] == a[1..] + b;
      EndsOfSum(a[1..], b);
    }
  }

  lemma {:induction false} MarkedEnds(n: nat)
    ensures Ends(MarkedBase128(n)) == 0
  {
    if n > 0 {
      MarkedEnds(n / 128);
      EndsOfSum(MarkedBase128(n / 128), [Marked(n % 128)]);
    }
  }

  lemma {:induction false} ArcsEnd(ns: seq<nat>)
    ensures Ends(Arcs(ns)) == |ns|
  {
    if ns != [] {
      EndsOfSum(Arc(ns[0]), Arcs(ns[1..]));
      EndsOfSum(MarkedBase128(ns[0] / 128), [ns[0] % 128]);
      MarkedEnds(ns[0] / 128);
      ArcsEnd(ns[1..]);
    }
  }

  lemma {:induction false} SubidentifierEndsOnce(acc: nat, bytes: seq<Byte>)
    ensures var r := Subidentifier(acc, bytes); r.Some? ==> Ends(bytes) == 1 + Ends(r.value.1)
    decreases bytes
  {
    if bytes != [] && bytes[0] >= 0x80 {
      SubidentifierEndsOnce(acc * 128 + (bytes[0] - 0x80), bytes[1..]);
    }
  }

  lemma {:induction false} SubidentifiersAreEnds(bytes: seq<Byte>)
    ensures Subidentifiers(bytes).Some? ==> |Subidentifiers(bytes).value| == Ends(bytes)
    decreases |bytes|
  {
    if bytes != [] && Subidentifiers(bytes).Some? {
      SubidentifierEndsOnce(0, bytes);
      SubidentifiersAreEnds(Subidentifier(0, bytes).value.1);
    }
  }

  lemma OidInOneOctet(arcs: seq<nat>)
    requires |arcs| >= 2 && (40 * arcs[0] + arcs[1]) % 256 < 0x80
    ensures var joint := (40 * arcs[0] + arcs[1]) % 256;
            var first := if joint / 40 < 2 then joint / 40 else 2;
            DecodeOid(OidBody(arcs)) == Some([first, joint - 40 * first] + arcs[2..])
  {
    var joint := (40 * arcs[0] + arcs[1]) % 256;
    var body := OidBody(arcs);
    assert body[1..] == Arcs(arcs[2..]);
    ArcsAreRead(arcs[2..]);
    assert Subidentifier(0, body) == Some((joint, body[1..]));
    assert Subidentifiers(body) == Some([joint] + arcs[2..]);
    assert ([joint] + arcs[2..])[1..] == arcs[2..];
  }

  lemma OidOutOfOctet(arcs: seq<nat>)
    requires |arcs| >= 2 && (40 * arcs[0] + arcs[1]) % 256 >= 0x80
    ensures DecodeOid(OidBody(arcs)) != Some(arcs)
  {
    var body := OidBody(arcs);
    assert body[1..] == Arcs(arcs[2..]);
    ArcsEnd(arcs[2..]);
    SubidentifiersAreEnds(body);
    assert Ends(body) == |arcs| - 2;
  }

  /** Exactly which object identifiers the encoding keeps: those whose first two arcs X.660 allows and fit
      one octet together. Every later arc may be of any size. */
  lemma OidRoundTrip(arcs: seq<nat>)
    requires |arcs| >= 2
    ensures DecodeOid(OidBody(arcs)) == Some(arcs)
            <==> arcs[0] <= 2 && (arcs[0] < 2 ==> arcs[1] < 40) && 40 * arcs[0] + arcs[1] <= 127
  {
    if (40 * arcs[0] + arcs[1]) % 256 < 0x80 {
      OidInOneOctet(arcs);
      assert arcs == [arcs[0], arcs[1]] + arcs[2..];
    } else {
      OidOutOfOctet(arcs);
    }
  }
}
