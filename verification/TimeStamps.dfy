/** RFC 3161 requests and responses (sections 2.4.1 and 2.4.2), written and read with Der. */
module TimeStamps {
  import opened Options
  import opened Der

  /** 2.16.840.1.101.3.4.2.1, sha256. */
  const SHA256: seq<Byte> := [0x60, 0x86, 0x48, 0x01, 0x65, 0x03, 0x04, 0x02, 0x01]

  function Algorithm(): seq<Byte> {
    TlvBytes(SEQUENCE, TlvBytes(OID, SHA256) + TlvBytes(NULL, []))
  }

  function Imprint(digest: seq<Byte>): seq<Byte> {
    TlvBytes(SEQUENCE, Algorithm() + TlvBytes(OCTET_STRING, digest))
  }

  function RequestContent(digest: seq<Byte>, nonce: seq<Byte>): seq<Byte> {
    IntegerBytes([1]) + (Imprint(digest) + (IntegerBytes(nonce) + TlvBytes(BOOLEAN, [0xff])))
  }

  function RequestBytes(digest: seq<Byte>, nonce: seq<Byte>): seq<Byte> {
    TlvBytes(SEQUENCE, RequestContent(digest, nonce))
  }

  datatype Built = Built(der: seq<Byte>, nonce: seq<Byte>)

  /** Without a nonce of the caller's, eight random bytes are used. */
  method BuildTimeStampRequest(digest: seq<Byte>, nonce: Option<seq<Byte>>, random: seq<Byte>)
    returns (r: Result<Built>)
    ensures r.Ok? <==> |digest| == 32
    ensures r.Ok? ==> r.value.nonce == (if nonce.Some? then nonce.value else random)
    ensures r.Ok? ==> r.value.der == RequestBytes(digest, r.value.nonce)
  {
    hide TlvBytes, IntegerBytes, Flatten;
    if |digest| != 32 { return Err("expected a 32-byte sha256 digest"); }
    var used := if nonce.Some? then nonce.value else random;
    var oid := Tlv(OID, SHA256);
    var nil := Tlv(NULL, []);
    var pair := Concat([oid[..], nil[..]]);
    TwoParts(oid[..], nil[..]);
    var algorithm := Tlv(SEQUENCE, pair[..]);
    var octets := Tlv(OCTET_STRING, digest);
    var pair2 := Concat([algorithm[..], octets[..]]);
    TwoParts(algorithm[..], octets[..]);
    var imprint := Tlv(SEQUENCE, pair2[..]);
    var version := DerIntegerFromNumber(1);
    One();
    var number := DerInteger(used);
    var cert := Tlv(BOOLEAN, [0xff]);
    var all := Concat([version[..], imprint[..], number[..], cert[..]]);
    FourParts(version[..], imprint[..], number[..], cert[..]);
    var der := Tlv(SEQUENCE, all[..]);
    return Ok(Built(der[..], used));
  }

  lemma One()
    ensures BigEndian(1) == [1]
  {}

  lemma FourParts(a: seq<Byte>, b: seq<Byte>, c: seq<Byte>, d: seq<Byte>)
    ensures Flatten([a, b, c, d]) == a + (b + (c + d))
  {
    TwoParts(a, b);
    assert [a, b, c, d][..3] == [a, b, c] && [a, b, c][..2] == [a, b];
    assert Flatten([a, b, c]) == Flatten([a, b]) + c;
    assert Flatten([a, b, c, d]) == Flatten([a, b, c]) + d;
  }

  /** The bytes of every request for a 32-byte digest: version 1, the sha256 identifier with its NULL, the digest, the
      nonce, and certReq TRUE. */
  lemma RequestSpelled(digest: seq<Byte>, nonce: seq<Byte>)
    requires |digest| == 32
    ensures RequestContent(digest, nonce) ==
      [0x02, 0x01, 0x01, 0x30, 0x31, 0x30, 0x0d, 0x06, 0x09, 0x60, 0x86, 0x48, 0x01, 0x65, 0x03, 0x04, 0x02, 0x01, 0x05,
       0x00, 0x04, 0x20] + digest + IntegerBytes(nonce) + [0x01, 0x01, 0xff]
    ensures RequestBytes(digest, nonce)[0] == 0x30
  {
    VersionSpelled();
    AlgorithmSpelled();
    hide IntegerBytes, Algorithm, LengthBytes;
    ShortLengths();
  }

  lemma ShortLengths()
    ensures LengthBytes(0x31) == [0x31] && LengthBytes(0x20) == [0x20] && LengthBytes(1) == [1]
  {}

  lemma VersionSpelled()
    ensures IntegerBytes([1]) == [0x02, 0x01, 0x01]
  {}

  lemma AlgorithmSpelled()
    ensures Algorithm() == [0x30, 0x0d, 0x06, 0x09, 0x60, 0x86, 0x48, 0x01, 0x65, 0x03, 0x04, 0x02, 0x01, 0x05, 0x00]
  {}

  // ------------------------------------------------------------------ walking a request

  /** An element of the given tag at offset. */
  function Element(buf: seq<Byte>, offset: nat, tag: Byte): Option<Tag> {
    var r := ReadAt(buf, offset);
    if r.Ok? && r.value.tag == tag then Some(r.value) else None
  }

  function Content(buf: seq<Byte>, t: Tag): seq<Byte> {
    if t.contentStart <= t.contentEnd <= |buf| then buf[t.contentStart..t.contentEnd] else []
  }

  datatype Request = Request(version: int, oid: seq<Byte>, digest: seq<Byte>, nonce: int, certReq: seq<Byte>)

  function SignedOf(b: seq<Byte>): int {
    if b == [] then 0 else Signed(b)
  }

  /** A reader of requests: every element in its place, every sequence filled to its end. */
  function WalkRequest(buf: seq<Byte>, offset: nat): Option<Request> {
    var outer := Element(buf, offset, SEQUENCE);
    if outer.None? then None else
    var version := Element(buf, outer.value.contentStart, INTEGER);
    if version.None? then None else
    var digest := WalkImprint(buf, version.value.contentEnd);
    if digest.None? then None else
    var nonce := Element(buf, digest.value.end, INTEGER);
    if nonce.None? then None else
    var cert := Element(buf, nonce.value.contentEnd, BOOLEAN);
    if cert.None? || cert.value.contentEnd != outer.value.contentEnd then None else
    Some(Request(SignedOf(Content(buf, version.value)), digest.value.oid, digest.value.digest,
                 SignedOf(Content(buf, nonce.value)), Content(buf, cert.value)))
  }

  datatype ImprintRead = ImprintRead(oid: seq<Byte>, digest: seq<Byte>, end: nat)

  function WalkImprint(buf: seq<Byte>, offset: nat): Option<ImprintRead> {
    var imprint := Element(buf, offset, SEQUENCE);
    if imprint.None? then None else
    var algorithm := Element(buf, imprint.value.contentStart, SEQUENCE);
    if algorithm.None? then None else
    var oid := Element(buf, algorithm.value.contentStart, OID);
    if oid.None? then None else
    var nil := Element(buf, oid.value.contentEnd, NULL);
    if nil.None? || nil.value.contentEnd != algorithm.value.contentEnd then None else
    var digest := Element(buf, algorithm.value.contentEnd, OCTET_STRING);
    if digest.None? || digest.value.contentEnd != imprint.value.contentEnd then None else
    Some(ImprintRead(Content(buf, oid.value), Content(buf, digest.value), imprint.value.contentEnd))
  }

  /** The element at the head of a run of bytes, and the bytes behind it. */
  lemma Child(buf: seq<Byte>, offset: nat, tag: Byte, content: seq<Byte>, rest: seq<Byte>) returns (t: Tag)
    requires At(buf, offset, TlvBytes(tag, content) + rest) && |content| < WORD
    ensures Element(buf, offset, tag) == Some(t) && ReadAt(buf, offset) == Ok(t) && Content(buf, t) == content
    ensures t.contentEnd == offset + |TlvBytes(tag, content)| && At(buf, t.contentStart, content)
      && At(buf, t.contentEnd, rest)
    ensures t.contentEnd == t.contentStart + |content|
  {
    AtSplit(buf, offset, TlvBytes(tag, content), rest);
    ReadsWritten(buf, offset, tag, content);
    LengthFits(|content|);
    hide LengthBytes, LengthRead, ReadAt;
    t := ReadAt(buf, offset).value;
  }

  lemma OnlyChild(buf: seq<Byte>, offset: nat, tag: Byte, content: seq<Byte>) returns (t: Tag)
    requires At(buf, offset, TlvBytes(tag, content)) && |content| < WORD
    ensures Element(buf, offset, tag) == Some(t) && ReadAt(buf, offset) == Ok(t) && Content(buf, t) == content
    ensures t.contentEnd == offset + |TlvBytes(tag, content)| && At(buf, t.contentStart, content)
    ensures t.contentEnd == t.contentStart + |content|
  {
    hide TlvBytes, Content, Element, ReadAt;
    assert TlvBytes(tag, content) + [] == TlvBytes(tag, content);
    t := Child(buf, offset, tag, content, []);
  }

  lemma TlvLonger(tag: Byte, content: seq<Byte>)
    ensures |TlvBytes(tag, content)| > |content|
  {}

  lemma ImprintReadBack(buf: seq<Byte>, offset: nat, digest: seq<Byte>)
    requires At(buf, offset, Imprint(digest)) && |Algorithm() + TlvBytes(OCTET_STRING, digest)| < WORD
    ensures WalkImprint(buf, offset) == Some(ImprintRead(SHA256, digest, offset + |Imprint(digest)|))
  {
    hide TlvBytes, At, Content, Element, ReadAt;
    var pair := TlvBytes(OID, SHA256) + TlvBytes(NULL, []);
    TlvLonger(SEQUENCE, pair);
    TlvLonger(OCTET_STRING, digest);
    var imprint := OnlyChild(buf, offset, SEQUENCE, Algorithm() + TlvBytes(OCTET_STRING, digest));
    var algorithm := Child(buf, imprint.contentStart, SEQUENCE, pair, TlvBytes(OCTET_STRING, digest));
    var oid := Child(buf, algorithm.contentStart, OID, SHA256, TlvBytes(NULL, []));
    var nil := OnlyChild(buf, oid.contentEnd, NULL, []);
    var octets := OnlyChild(buf, algorithm.contentEnd, OCTET_STRING, digest);
  }

  /** Walking a built request recovers version, hash algorithm, digest, nonce value and certReq, at any offset of any
      buffer. */
  lemma RequestReadBack(buf: seq<Byte>, offset: nat, digest: seq<Byte>, nonce: seq<Byte>)
    requires At(buf, offset, RequestBytes(digest, nonce)) && |RequestContent(digest, nonce)| < WORD
    ensures WalkRequest(buf, offset) == Some(Request(1, SHA256, digest, ValueOf(nonce), [0xff]))
  {
    hide TlvBytes, At, Content, Element, ReadAt, Imprint, IntegerBody;
    var cert := TlvBytes(BOOLEAN, [0xff]);
    var tail := IntegerBytes(nonce) + cert;
    var one, body := IntegerBody([1]), IntegerBody(nonce);
    TlvLonger(INTEGER, one);
    TlvLonger(INTEGER, body);
    ImprintSize(digest);
    IntegerFaithful([1]);
    IntegerFaithful(nonce);
    var outer := OnlyChild(buf, offset, SEQUENCE, RequestContent(digest, nonce));
    var version := Child(buf, outer.contentStart, INTEGER, one, Imprint(digest) + tail);
    AtSplit(buf, version.contentEnd, Imprint(digest), tail);
    ImprintReadBack(buf, version.contentEnd, digest);
    var number := Child(buf, version.contentEnd + |Imprint(digest)|, INTEGER, body, cert);
    var last := OnlyChild(buf, number.contentEnd, BOOLEAN, [0xff]);
    ValueOfOne();
  }

  lemma ValueOfOne()
    ensures ValueOf([1]) == 1
  {
    assert ValueOf([1]) == ValueOf([1][..0]) * 256 + 1;
  }

  lemma ImprintSize(digest: seq<Byte>)
    ensures |Imprint(digest)| > |Algorithm() + TlvBytes(OCTET_STRING, digest)|
  {
    hide LengthBytes, Algorithm;
  }

  /** Different digests, or nonces of different value, never give the same request. */
  lemma RequestsDiffer(d1: seq<Byte>, n1: seq<Byte>, d2: seq<Byte>, n2: seq<Byte>)
    requires |RequestContent(d1, n1)| < WORD && |RequestContent(d2, n2)| < WORD
    ensures RequestBytes(d1, n1) == RequestBytes(d2, n2) <==> d1 == d2 && ValueOf(n1) == ValueOf(n2)
  {
    hide *;
    WholeRequest(d1, n1);
    WholeRequest(d2, n2);
    IntegerCanonical(n1, n2);
    if ValueOf(n1) == ValueOf(n2) { SameBody(d1, n1, n2); }
  }

  lemma SameBody(d: seq<Byte>, m: seq<Byte>, n: seq<Byte>)
    requires IntegerBody(m) == IntegerBody(n)
    ensures RequestBytes(d, m) == RequestBytes(d, n)
  {
    hide TlvBytes, IntegerBody;
  }

  lemma WholeRequest(digest: seq<Byte>, nonce: seq<Byte>)
    requires |RequestContent(digest, nonce)| < WORD
    ensures WalkRequest(RequestBytes(digest, nonce), 0) == Some(Request(1, SHA256, digest, ValueOf(nonce), [0xff]))
  {
    var buf := RequestBytes(digest, nonce);
    assert At(buf, 0, buf);
    hide *;
    RequestReadBack(buf, 0, digest, nonce);
  }

  // --------------------------------------------------------------------------- response

  datatype Response = Response(status: nat, granted: bool, token: Option<seq<Byte>>)

  function Parse(der: seq<Byte>): Result<Response> {
    var outer := ReadAt(der, 0);
    if outer.Err? then Err(outer.message)
    else if outer.value.tag != SEQUENCE then Err("malformed TimeStampResp: not a SEQUENCE")
    else
      var info := ReadAt(der, outer.value.contentStart);
      if info.Err? then Err(info.message)
      else if info.value.tag != SEQUENCE then Err("malformed TimeStampResp: PKIStatusInfo is not a SEQUENCE")
      else
        var code := ReadAt(der, info.value.contentStart);
        if code.Err? then Err(code.message)
        else if code.value.tag != INTEGER then Err("malformed TimeStampResp: status is not an INTEGER")
        else
          var status := ValueOf(der[code.value.contentStart..code.value.contentEnd]);
          if info.value.contentEnd < outer.value.contentEnd then
            var token := ReadAt(der, info.value.contentEnd);
            if token.Err? then Err(token.message)
            else Ok(Response(status, status == 0
              || status == 1, Some(der[info.value.contentEnd..token.value.contentEnd])))
          else Ok(Response(status, status == 0 || status == 1, None))
  }

  predicate IsElement(r: Result<Tag>, tag: Byte) {
    r.Ok? && r.value.tag == tag
  }

  function MessageOf(r: Result<Tag>, otherwise: string): string {
    if r.Err? then r.message else otherwise
  }

  /** Which responses are accepted, and the first thing wrong with the others: no outer sequence, no status sequence in
      it, no status integer in that, or a token that cannot be read. */
  lemma ParseIs(der: seq<Byte>)
    ensures var r := Parse(der);
      var outer := ReadAt(der, 0);
      if !IsElement(outer, 0x30) then r == Err(MessageOf(outer, "malformed TimeStampResp: not a SEQUENCE"))
      else
        var info := ReadAt(der, outer.value.contentStart);
        if !IsElement(info, 0x30) then
          r == Err(MessageOf(info, "malformed TimeStampResp: PKIStatusInfo is not a SEQUENCE"))
        else
          var code := ReadAt(der, info.value.contentStart);
          if !IsElement(code, 0x02) then
            r == Err(MessageOf(code, "malformed TimeStampResp: status is not an INTEGER"))
          else
            var status, token := ValueOf(Content(der, code.value)), ReadAt(der, info.value.contentEnd);
            if info.value.contentEnd >= outer.value.contentEnd then r == Ok(Response(status, status in {0, 1}, None))
            else if token.Err? then r == Err(token.message)
            else r == Ok(Response(status, status in {0, 1}, Some(der[info.value.contentEnd..token.value.contentEnd])))
  {
    hide ReadAt, ValueOf;
  }

  method ParseTimeStampResponse(der: seq<Byte>) returns (r: Result<Response>)
    ensures r == Parse(der)
  {
    hide ReadAt;
    var outer := ReadTlv(der, 0);
    if outer.Err? { return Err(outer.message); }
    if outer.value.tag != SEQUENCE { return Err("malformed TimeStampResp: not a SEQUENCE"); }
    var info := ReadTlv(der, outer.value.contentStart);
    if info.Err? { return Err(info.message); }
    if info.value.tag != SEQUENCE { return Err("malformed TimeStampResp: PKIStatusInfo is not a SEQUENCE"); }
    var code := ReadTlv(der, info.value.contentStart);
    if code.Err? { return Err(code.message); }
    if code.value.tag != INTEGER { return Err("malformed TimeStampResp: status is not an INTEGER"); }
    var status := ReadNumber(der, code.value.contentStart, code.value.contentEnd);
    var granted := status == 0 || status == 1;
    if info.value.contentEnd < outer.value.contentEnd {
      var token := ReadTlv(der, info.value.contentEnd);
      if token.Err? { return Err(token.message); }
      return Ok(Response(status, granted, Some(der[info.value.contentEnd..token.value.contentEnd])));
    }
    return Ok(Response(status, granted, None));
  }

  /** A token as it stands in a response, or nothing. */
  datatype Token = Token(tag: Byte, content: seq<Byte>)

  function TokenBytes(token: Option<Token>): seq<Byte> {
    match token
    case None => []
    case Some(t) => TlvBytes(t.tag, t.content)
  }

  /** PKIStatusInfo may carry more than the status; whatever follows the token inside the outer sequence is more. */
  function ResponseContent(status: seq<Byte>, extra: seq<Byte>, token: Option<Token>, more: seq<Byte>): seq<Byte> {
    TlvBytes(SEQUENCE, TlvBytes(INTEGER, status) + extra) + (TokenBytes(token) + more)
  }

  function ResponseBytes(status: seq<Byte>, extra: seq<Byte>, token: Option<Token>, more: seq<Byte>): seq<Byte> {
    TlvBytes(SEQUENCE, ResponseContent(status, extra, token, more))
  }

  /** A response built from a status and a token gives back that status and the token's bytes verbatim. */
  lemma ResponseReadBack(status: seq<Byte>, extra: seq<Byte>, token: Option<Token>, more: seq<Byte>,
                         trailing: seq<Byte>)
    requires |ResponseContent(status, extra, token, more)| < WORD && (token.None? ==> more == [])
    ensures Parse(ResponseBytes(status, extra, token, more) + trailing) ==
      Ok(Response(ValueOf(status), ValueOf(status) <= 1, if token.Some? then Some(TokenBytes(token)) else None))
  {
    var content := ResponseContent(status, extra, token, more);
    var der := TlvBytes(SEQUENCE, content) + trailing;
    assert At(der, 0, TlvBytes(SEQUENCE, content) + trailing);
    hide TlvBytes, ReadAt, Element, Content, At, ValueOf, Parse;
    var inner := TlvBytes(INTEGER, status) + extra;
    TlvLonger(SEQUENCE, inner);
    TlvLonger(INTEGER, status);
    var outer := Child(der, 0, SEQUENCE, content, trailing);
    var info := Child(der, outer.contentStart, SEQUENCE, inner, TokenBytes(token) + more);
    var code := Child(der, info.contentStart, INTEGER, status, extra);
    ContentStands(der, code);
    if token.Some? { TlvLonger(token.value.tag, token.value.content);
      TokenReadBack(der, info.contentEnd, token.value, more); }
    ParseSteps(der, outer, info, code);
  }

  /** What the answer is made of, once the three headers are read. */
  lemma ParseSteps(der: seq<Byte>, outer: Tag, info: Tag, code: Tag)
    requires ReadAt(der, 0) == Ok(outer) && ReadAt(der, outer.contentStart) == Ok(info)
    requires ReadAt(der, info.contentStart) == Ok(code)
    requires outer.tag == info.tag == SEQUENCE && code.tag == INTEGER
    ensures var status := ValueOf(der[code.contentStart..code.contentEnd]);
      var token := ReadAt(der, info.contentEnd);
      && (info.contentEnd >= outer.contentEnd ==> Parse(der) == Ok(Response(status, status <= 1, None)))
      && (info.contentEnd < outer.contentEnd && token.Ok? ==>
            Parse(der) == Ok(Response(status, status <= 1, Some(der[info.contentEnd..token.value.contentEnd]))))
  {
    hide ReadAt, ValueOf;
  }

  lemma ContentStands(buf: seq<Byte>, t: Tag)
    requires t.contentStart <= t.contentEnd <= |buf|
    ensures Content(buf, t) == buf[t.contentStart..t.contentEnd]
  {}

  lemma TokenReadBack(buf: seq<Byte>, offset: nat, t: Token, more: seq<Byte>)
    requires At(buf, offset, TlvBytes(t.tag, t.content) + more) && |t.content| < WORD
    ensures var r := ReadAt(buf, offset);
      r.Ok? && r.value.contentEnd == offset + |TlvBytes(t.tag, t.content)|
      && r.value.contentEnd <= |buf| && buf[offset..r.value.contentEnd] == TlvBytes(t.tag, t.content)
  {
    hide TlvBytes, ReadAt, Element, Content;
    var whole := Child(buf, offset, t.tag, t.content, more);
    AtSplit(buf, offset, TlvBytes(t.tag, t.content), more);
  }

  function OuterEnd(der: seq<Byte>): nat {
    var outer := ReadAt(der, 0);
    if outer.Ok? then outer.value.contentEnd else 0
  }

  /** Elements are read against the whole buffer, so a token may run past the outer sequence that should hold it. */
  lemma TokenMayOverrun()
    ensures var der: seq<Byte> := [0x30, 0x06, 0x30, 0x03, 0x02, 0x01, 0x00, 0x05, 0x00];
      && OuterEnd(der) == 8 && Parse(der) == Ok(Response(0, true, Some([0x05, 0x00]))) && !Inside(der)
  {
    var der: seq<Byte> := [0x30, 0x06, 0x30, 0x03, 0x02, 0x01, 0x00, 0x05, 0x00];
    assert ReadAt(der, 0) == Ok(Tag(0x30, 2, 8));
    assert ReadAt(der, 2) == Ok(Tag(0x30, 4, 7));
    assert ReadAt(der, 4) == Ok(Tag(0x02, 6, 7));
    assert ReadAt(der, 7) == Ok(Tag(0x05, 9, 9));
    assert der[6..7] == [0];
    assert ValueOf([0]) == ValueOf([0][..0]) * 256 + 0;
    assert der[7..9] == [0x05, 0x00];
  }

  /** The end of the token, for an accepted response that has one. */
  predicate TokenInside(der: seq<Byte>)
    requires Parse(der).Ok?
  {
    var info := ReadAt(der, ReadAt(der, 0).value.contentStart).value;
    var token := Parse(der).value.token;
    token.Some? ==> info.contentEnd + |token.value| <= OuterEnd(der)
  }

  /** PKIStatusInfo and the status inside the sequences that hold them. */
  predicate StatusInside(der: seq<Byte>)
    requires Parse(der).Ok?
  {
    var outer := ReadAt(der, 0).value;
    var info := ReadAt(der, outer.contentStart).value;
    var code := ReadAt(der, info.contentStart).value;
    code.contentEnd <= outer.contentEnd && info.contentEnd <= outer.contentEnd
  }

  /** Everything an accepted response gives is read from inside its outer sequence. */
  predicate Inside(der: seq<Byte>)
    requires Parse(der).Ok?
  {
    StatusInside(der) && TokenInside(der)
  }

  /** With nothing behind the outer sequence, which its first header shows, every accepted response lies inside it. */
  lemma NothingBehind(der: seq<Byte>)
    requires Parse(der).Ok? && |der| == OuterEnd(der)
    ensures Inside(der)
  {
    hide ValueOf;
  }

  /** Behind the outer sequence lie one byte and k zeros; the token takes the first of them. */
  function Overrun(k: nat): seq<Byte> {
    [0x30, 0x06, 0x30, 0x03, 0x02, 0x01, 0x00, 0x05] + seq(k + 1, _ => 0)
  }

  lemma OverrunAccepted(k: nat)
    ensures OuterEnd(Overrun(k)) == 8 && |Overrun(k)| == 9 + k
    ensures Parse(Overrun(k)).Ok? && !Inside(Overrun(k))
  {
    var der := Overrun(k);
    assert ReadAt(der, 0) == Ok(Tag(0x30, 2, 8));
    assert ReadAt(der, 2) == Ok(Tag(0x30, 4, 7));
    assert ReadAt(der, 4) == Ok(Tag(0x02, 6, 7));
    assert ReadAt(der, 7) == Ok(Tag(0x05, 9, 9));
    hide ReadAt, ValueOf;
  }

  /** Every response accepted with this many bytes behind its outer sequence lies inside that sequence. */
  ghost predicate AllInside(behind: nat) {
    forall der: seq<Byte> :: Parse(der).Ok? && |der| == OuterEnd(der) + behind ==> Inside(der)
  }

  /** Accepted responses lie inside their outer sequence exactly when no byte may stand behind it. */
  lemma InsideIff(behind: nat)
    ensures AllInside(behind) <==> behind == 0
  {
    hide Parse, Inside, OuterEnd, Overrun;
    if behind == 0 {
      forall der: seq<Byte> | Parse(der).Ok? && |der| == OuterEnd(der) ensures Inside(der) {
        NothingBehind(der);
      }
    } else {
      OverrunAccepted(behind - 1);
    }
  }
}
