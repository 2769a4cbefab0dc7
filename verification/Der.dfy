/** The DER writer and reader for RFC 3161 time stamps (ITU-T X.690, sections 8.1.3, 8.3 and 10.1). */
module Der {
  type Byte = b: int | 0 <= b < 256

  datatype Result<T> = Ok(value: T) | Err(message: string)

  const BOOLEAN: Byte := 0x01
  const INTEGER: Byte := 0x02
  const OCTET_STRING: Byte := 0x04
  const NULL: Byte := 0x05
  const OID: Byte := 0x06
  const SEQUENCE: Byte := 0x30

  /** The writer shifts with an unsigned 32-bit shift, so lengths are reduced modulo this. */
  const WORD := 0x1_0000_0000

  // -------------------------------------------------------------- unsigned big-endian

  function ValueOf(b: seq<Byte>): (v: nat)
  {
    if b == [] then 0 else ValueOf(b[..|b| - 1]) * 256 + b[|b| - 1]
  }

  /** The shortest big-endian form; zero takes one byte. */
  function BigEndian(v: nat): (b: seq<Byte>)
    ensures |b| >= 1 && (|b| > 1 ==> b[0] != 0)
    ensures ValueOf(b) == v
  {
    if v < 256 then
      assert ValueOf([v]) == ValueOf([v][..0]) * 256 + v;
      [v]
    else
      var b := BigEndian(v / 256) + [v % 256];
      assert b[..|b| - 1] == BigEndian(v / 256);
      assert b[|b| - 1] == v % 256;
      b
  }

  predicate Minimal(b: seq<Byte>) {
    |b| >= 1 && (|b| > 1 ==> b[0] != 0)
  }

  lemma {:induction false} ValueLowerBound(b: seq<Byte>)
    requires |b| >= 1 && b[0] != 0
    ensures ValueOf(b) >= 1
  {
    if |b| > 1 { ValueLowerBound(b[..|b| - 1]); }
  }

  /** Only one minimal form has a given value. */
  lemma {:induction false} MinimalUnique(b: seq<Byte>)
    requires Minimal(b)
    ensures BigEndian(ValueOf(b)) == b
    decreases |b|
  {
    var head := b[..|b| - 1];
    if |b| > 1 {
      ValueLowerBound(head);
      MinimalUnique(head);
      assert ValueOf(b) / 256 == ValueOf(head) && ValueOf(b) % 256 == b[|b| - 1];
      assert head + [b[|b| - 1]] == b;
    } else {
      assert head == [];
      assert b == [b[0]];
    }
  }

  lemma {:induction false} LeadingZero(b: seq<Byte>)
    ensures ValueOf([0] + b) == ValueOf(b)
    decreases |b|
  {
    var z: seq<Byte> := [0] + b;
    if b == [] {
      assert z == [0] && z[..0] == [];
    } else {
      LeadingZero(b[..|b| - 1]);
      assert z[..|z| - 1] == [0] + b[..|b| - 1];
    }
  }

  lemma {:induction false} DigitCount(v: nat, k: nat)
    requires v < Power256(k) && k >= 1
    ensures |BigEndian(v)| <= k
  {
    if v >= 256 { DigitCount(v / 256, k - 1); }
  }

  function Power256(k: nat): (p: nat)
    ensures p >= 1
  {
    if k == 0 then 1 else 256 * Power256(k - 1)
  }

  // ---------------------------------------------------------------------------- length

  /** Short form below 128, else a count byte and the length modulo 2^32. */
  function LengthBytes(n: nat): seq<Byte> {
    if n < 0x80 then [n] else LongForm(BigEndian(n % WORD))
  }

  function LongForm(digits: seq<Byte>): seq<Byte> {
    if |digits| <= 0x7e then [0x80 + |digits|] + digits else []
  }

  /** One octet below 128; else the number of octets that follow, its high bit set, and the length in as few octets as
      will hold it (sections 8.1.3 and 10.1). */
  lemma LengthIs(n: nat)
    requires n < WORD
    ensures n <= 127 ==> LengthBytes(n) == [n]
    ensures n > 127 ==>
      var b := LengthBytes(n);
      2 <= |b| <= 5 && b[0] == 127 + |b| && b[1] != 0 && ValueOf(b[1..]) == n
  {
    FourDigits(n);
    if n > 127 {
      var digits := BigEndian(n);
      assert LengthBytes(n)[1..] == digits;
      if |digits| == 1 { assert digits[..0] == []; }
    }
    hide BigEndian;
  }

  lemma FourDigits(n: nat)
    ensures |BigEndian(n % WORD)| <= 4
  {
    assert Power256(1) == 256 && Power256(2) == 256 * 256 && Power256(3) == 256 * 256 * 256;
    assert Power256(4) == WORD;
    DigitCount(n % WORD, 4);
  }

  /** The digits still to be written when v is left. */
  function Leading(v: nat): seq<Byte> {
    if v > 0 then BigEndian(v) else []
  }

  lemma LastDigit(v: nat)
    ensures BigEndian(v) == Leading(v / 256) + [v % 256]
  {}

  lemma LowByte(v: nat)
    ensures v % WORD % 256 == v % 256
  {
    assert v == WORD * (v / WORD) + v % WORD;
    assert v == 256 * (0x100_0000 * (v / WORD)) + v % WORD;
  }

  /** The digits are those of n modulo 2^32, except that v is still to be written. */
  predicate Written(n: nat, v: nat, bytes: seq<Byte>) {
    if bytes == [] then v == n else v < WORD && BigEndian(n % WORD) == Leading(v) + bytes
  }

  lemma WriteStart(n: nat)
    ensures Written(n, n, [])
  {}

  lemma WriteStep(n: nat, v: nat, bytes: seq<Byte>)
    requires v > 0 && Written(n, v, bytes)
    ensures Written(n, v % WORD / 256, [v % 256] + bytes)
  {
    hide BigEndian;
    var rest: nat := v % WORD / 256;
    LastDigit(v % WORD);
    LowByte(v);
    assert BigEndian(v % WORD) == Leading(rest) + [v % 256];
    assert Leading(rest) + [v % 256] + bytes == Leading(rest) + ([v % 256] + bytes);
  }

  lemma WriteEnd(n: nat, bytes: seq<Byte>)
    requires n >= 0x80 && Written(n, 0, bytes)
    ensures |bytes| <= 4 && LengthBytes(n) == [0x80 + |bytes|] + bytes
  {
    FourDigits(n);
    hide BigEndian;
    assert Leading(0) + bytes == bytes;
  }

  method DerLength(n: int) returns (r: Result<seq<Byte>>)
    ensures n < 0 ==> r == Err("negative DER length")
    ensures n >= 0 ==> r == Ok(LengthBytes(n))
  {
    if n < 0 { return Err("negative DER length"); }
    if n < 0x80 { return Ok([n]); }
    hide BigEndian, Written, LengthBytes;
    var bytes: seq<Byte> := [];
    var v: nat := n;
    WriteStart(n);
    while v > 0
      invariant Written(n, v, bytes)
    {
      WriteStep(n, v, bytes);
      bytes := [v % 256] + bytes;
      v := v % WORD / 256;
    }
    WriteEnd(n, bytes);
    if |bytes| > 0x7e { return Err("DER length too large"); }
    return Ok([0x80 + |bytes|] + bytes);
  }

  // ------------------------------------------------------------------------ tag, length, value

  function TlvBytes(tag: Byte, content: seq<Byte>): seq<Byte> {
    [tag] + LengthBytes(|content|) + content
  }

  /** out.set(source, at) */
  method Set(out: array<Byte>, source: seq<Byte>, at: nat)
    requires at + |source| <= out.Length
    modifies out
    ensures out[..] == old(out[..at]) + source + old(out[at + |source|..])
  {
    for i := 0 to |source|
      invariant out[..at] == old(out[..at]) && out[at..at + i] == source[..i]
      invariant out[at + i..] == old(out[at + i..])
    {
      out[at + i] := source[i];
      assert out[at..at + i + 1] == out[at..at + i] + [source[i]];
    }
  }

  method Tlv(tag: Byte, content: seq<Byte>) returns (out: array<Byte>)
    ensures fresh(out) && out[..] == TlvBytes(tag, content)
  {
    hide LengthBytes;
    var len := DerLength(|content|);
    var bytes := len.value;
    out := new Byte[1 + |bytes| + |content|](_ => 0);
    out[0] := tag;
    assert out[..1] == [tag];
    Set(out, bytes, 1);
    assert out[..1 + |bytes|] == [tag] + bytes;
    Set(out, content, 1 + |bytes|);
  }

  function Flatten(parts: seq<seq<Byte>>): seq<Byte> {
    if parts == [] then [] else Flatten(parts[..|parts| - 1]) + parts[|parts| - 1]
  }

  lemma FlattenStep(parts: seq<seq<Byte>>, i: nat)
    requires i < |parts|
    ensures Flatten(parts[..i + 1]) == Flatten(parts[..i]) + parts[i]
  {
    assert parts[..i + 1][..i] == parts[..i];
  }

  lemma {:induction false} FlattenGrows(parts: seq<seq<Byte>>, i: nat)
    requires i <= |parts|
    ensures |Flatten(parts[..i])| <= |Flatten(parts)|
    decreases |parts| - i
  {
    if i < |parts| {
      FlattenGrows(parts, i + 1);
      FlattenStep(parts, i);
    } else {
      assert parts[..i] == parts;
    }
  }

  method Concat(parts: seq<seq<Byte>>) returns (out: array<Byte>)
    ensures fresh(out) && out[..] == Flatten(parts)
  {
    var total: nat := 0;
    for i := 0 to |parts|
      invariant total == |Flatten(parts[..i])|
    {
      FlattenStep(parts, i);
      total := total + |parts[i]|;
    }
    assert parts[..|parts|] == parts;
    hide Flatten;
    out := new Byte[total](_ => 0);
    var off: nat := 0;
    for i := 0 to |parts|
      invariant off == |Flatten(parts[..i])| <= total && out[..off] == Flatten(parts[..i])
    {
      FlattenGrows(parts, i + 1);
      FlattenStep(parts, i);
      Set(out, parts[i], off);
      off := off + |parts[i]|;
    }
    assert out[..off] == out[..];
  }

  // --------------------------------------------------------------------------- INTEGER

  /** Leading zeros off, keeping one byte. */
  function Stripped(u: seq<Byte>): seq<Byte> {
    if |u| > 1 && u[0] == 0 then Stripped(u[1..]) else u
  }

  function IntegerBody(u: seq<Byte>): seq<Byte> {
    var s := Stripped(u);
    var body := if s == [] then [0] else s;
    if body[0] >= 0x80 then [0] + body else body
  }

  function IntegerBytes(u: seq<Byte>): seq<Byte> {
    TlvBytes(INTEGER, IntegerBody(u))
  }

  method DerInteger(u: seq<Byte>) returns (out: array<Byte>)
    ensures fresh(out) && out[..] == IntegerBytes(u)
  {
    hide TlvBytes;
    var start := 0;
    assert u[0..] == u;
    while start < |u| - 1 && u[start] == 0
      invariant start <= |u| && (start < |u| || u == []) && Stripped(u) == Stripped(u[start..])
    {
      assert u[start..][1..] == u[start + 1..];
      start := start + 1;
    }
    var body := u[start..];
    if |body| == 0 { body := [0]; }
    if body[0] >= 0x80 {
      var longer := Concat([[0], body]);
      TwoParts([0], body);
      body := longer[..];
    }
    out := Tlv(INTEGER, body);
  }

  lemma TwoParts(a: seq<Byte>, b: seq<Byte>)
    ensures Flatten([a, b]) == a + b
  {
    assert [a, b][..1] == [a] && [a][..0] == [];
    assert Flatten([a]) == Flatten([]) + a;
  }

  method DerIntegerFromNumber(n: nat) returns (out: array<Byte>)
    ensures fresh(out) && out[..] == IntegerBytes(BigEndian(n))
  {
    hide BigEndian, IntegerBytes;
    LastDigit(n);
    var bytes: seq<Byte> := [n % 256];
    var v: nat := n / 256;
    while v > 0
      invariant BigEndian(n) == Leading(v) + bytes
    {
      LastDigit(v);
      assert Leading(v / 256) + [v % 256] + bytes == Leading(v / 256) + ([v % 256] + bytes);
      bytes := [v % 256] + bytes;
      v := v / 256;
    }
    assert Leading(0) + bytes == bytes;
    out := DerInteger(bytes);
  }

  /** Two's complement reading of INTEGER content. */
  function Signed(body: seq<Byte>): int
    requires |body| >= 1
  {
    if body[0] >= 0x80 then ValueOf(body) - Power256(|body|) else ValueOf(body)
  }

  lemma {:induction false} StrippedIs(u: seq<Byte>)
    ensures ValueOf(Stripped(u)) == ValueOf(u)
    ensures u != [] ==> Minimal(Stripped(u))
  {
    if |u| > 1 && u[0] == 0 {
      StrippedIs(u[1..]);
      LeadingZero(u[1..]);
      assert [0] + u[1..] == u;
    }
  }

  /** The content is the minimal form of the value, with a zero in front exactly when its high bit is set. */
  lemma IntegerBodyIs(u: seq<Byte>)
    ensures var m := BigEndian(ValueOf(u)); IntegerBody(u) == if m[0] >= 0x80 then [0] + m else m
  {
    StrippedIs(u);
    if u == [] {
      assert BigEndian(0) == [0];
    } else {
      MinimalUnique(Stripped(u));
    }
  }

  /** An INTEGER keeps the unsigned value, is positive, and is minimal (X.690, section 8.3.2). */
  lemma IntegerFaithful(u: seq<Byte>)
    ensures var body := IntegerBody(u);
      && |body| >= 1 && body[0] < 0x80 && Signed(body) == ValueOf(u)
      && (|body| > 1 ==> !(body[0] == 0 && body[1] < 0x80) && !(body[0] == 0xff && body[1] >= 0x80))
  {
    IntegerBodyIs(u);
    var m := BigEndian(ValueOf(u));
    LeadingZero(m);
  }

  /** Two byte strings encode to the same INTEGER exactly when they have the same value. */
  lemma IntegerCanonical(u: seq<Byte>, v: seq<Byte>)
    ensures IntegerBody(u) == IntegerBody(v) <==> ValueOf(u) == ValueOf(v)
  {
    IntegerBodyIs(u);
    IntegerBodyIs(v);
    IntegerFaithful(u);
    IntegerFaithful(v);
  }

  // ---------------------------------------------------------------------------- reader

  datatype Tag = Tag(tag: Byte, contentStart: nat, contentEnd: nat)

  /** What a header at offset says; the end of the element is contentEnd. */
  function ReadAt(buf: seq<Byte>, offset: nat): (r: Result<Tag>)
    ensures r.Ok? ==> offset + 2 <= r.value.contentStart <= r.value.contentEnd <= |buf| && r.value.tag == buf[offset]
  {
    if offset + 2 > |buf| then Err("truncated DER: header")
    else
      var first := buf[offset + 1];
      if first == 0x80 then Err("indefinite DER length not permitted")
      else
        var count := if first < 0x80 then 0 else first - 0x80;
        if offset + 2 + count > |buf| then Err("truncated DER: length")
        else
          var length := if first < 0x80 then first else ValueOf(buf[offset + 2..offset + 2 + count]);
          var start := offset + 2 + count;
          if start + length > |buf| then Err("truncated DER: content") else Ok(Tag(buf[offset], start, start + length))
  }

  /** The element that begins here, or the first thing that is wrong with it: no room for a header, an indefinite
      length, no room for the length, no room for the content (sections 8.1.2 to 8.1.4). */
  lemma ReadIs(buf: seq<Byte>, offset: nat)
    ensures var r := ReadAt(buf, offset);
      var header := offset + 2 <= |buf|;
      var first := if header then buf[offset + 1] else 0;
      var start := if first <= 0x7f then offset + 2 else offset + 2 + (first as int - 0x80);
      var definite := header && first != 0x80;
      var lengthy := definite && start <= |buf|;
      var length := if lengthy then (if first <= 0x7f then first else ValueOf(buf[offset + 2..start])) else 0;
      && (r == Err("truncated DER: header") <==> !header)
      && (r == Err("indefinite DER length not permitted") <==> header && !definite)
      && (r == Err("truncated DER: length") <==> definite && !lengthy)
      && (r == Err("truncated DER: content") <==> lengthy && start + length > |buf|)
      && (lengthy && start + length <= |buf| ==> r == Ok(Tag(buf[offset], start, start + length)))
  {
    hide ValueOf;
  }

  /** Big-endian value of a stretch of the buffer. */
  method ReadNumber(buf: seq<Byte>, from: nat, to: nat) returns (value: nat)
    requires from <= to <= |buf|
    ensures value == ValueOf(buf[from..to])
  {
    value := 0;
    for i := from to to
      invariant value == ValueOf(buf[from..i])
    {
      assert buf[from..i + 1][..i - from] == buf[from..i];
      value := value * 256 + buf[i];
    }
  }

  method ReadTlv(buf: seq<Byte>, offset: nat) returns (r: Result<Tag>)
    ensures r == ReadAt(buf, offset)
  {
    if offset + 2 > |buf| { return Err("truncated DER: header"); }
    var tag, first := buf[offset], buf[offset + 1];
    var contentStart: nat, length: nat;
    if first < 0x80 {
      length := first;
      contentStart := offset + 2;
    } else {
      var numBytes := first - 0x80;
      if numBytes == 0 { return Err("indefinite DER length not permitted"); }
      if offset + 2 + numBytes > |buf| { return Err("truncated DER: length"); }
      length := ReadNumber(buf, offset + 2, offset + 2 + numBytes);
      contentStart := offset + 2 + numBytes;
    }
    var contentEnd := contentStart + length;
    if contentEnd > |buf| { return Err("truncated DER: content"); }
    return Ok(Tag(tag, contentStart, contentEnd));
  }

  // ----------------------------------------------------------------- writer and reader

  /** The bytes stand in the buffer at an offset. */
  predicate At(buf: seq<Byte>, offset: nat, bytes: seq<Byte>) {
    offset + |bytes| <= |buf| && buf[offset..offset + |bytes|] == bytes
  }

  lemma AtSplit(buf: seq<Byte>, offset: nat, a: seq<Byte>, b: seq<Byte>)
    ensures At(buf, offset, a + b) <==> At(buf, offset, a) && At(buf, offset + |a|, b)
  {
    if At(buf, offset, a + b) {
      assert buf[offset..offset + |a + b|][..|a|] == a;
      assert buf[offset..offset + |a + b|][|a|..] == b;
    }
    if At(buf, offset, a) && At(buf, offset + |a|, b) {
      assert buf[offset..offset + |a + b|] == buf[offset..offset + |a|] + buf[offset + |a|..offset + |a| + |b|];
    }
  }

  lemma AtFirst(buf: seq<Byte>, offset: nat, b: Byte)
    ensures At(buf, offset, [b]) <==> offset < |buf| && buf[offset] == b
  {}

  /** What the reader makes of a written length, for contents of any size. */
  function LengthRead(n: nat): nat {
    if n < 0x80 then n else n % WORD
  }

  lemma LengthFits(n: nat)
    ensures LengthRead(n) == n <==> n < WORD
    ensures LengthRead(n) <= n
  {}

  /** Reading a written element at any offset of any buffer gives its tag, and the length modulo 2^32. */
  lemma ReadsWritten(buf: seq<Byte>, offset: nat, tag: Byte, content: seq<Byte>)
    requires At(buf, offset, TlvBytes(tag, content))
    ensures var start := offset + 1 + |LengthBytes(|content|)|;
      && ReadAt(buf, offset) == Ok(Tag(tag, start, start + LengthRead(|content|)))
      && At(buf, start, content)
  {
    var n := |content|;
    var len := LengthBytes(n);
    FourDigits(n);
    AtSplit(buf, offset, [tag] + len, content);
    AtSplit(buf, offset, [tag], len);
    AtFirst(buf, offset, tag);
    if n < 0x80 {
      AtFirst(buf, offset + 1, n);
    } else {
      hide BigEndian, ValueOf, ReadAt;
      var digits := BigEndian(n % WORD);
      AtSplit(buf, offset + 1, [0x80 + |digits|], digits);
      AtFirst(buf, offset + 1, 0x80 + |digits|);
      LongRead(buf, offset, offset + 2 + |digits|);
    }
  }

  lemma LongRead(buf: seq<Byte>, offset: nat, start: nat)
    requires offset + 2 < start <= |buf| && offset + 2 + buf[offset + 1] == start + 0x80
    requires start + ValueOf(buf[offset + 2..start]) <= |buf|
    ensures ReadAt(buf, offset) == Ok(Tag(buf[offset], start, start + ValueOf(buf[offset + 2..start])))
  {
    hide ValueOf;
  }

  /** The content comes back exactly when it is shorter than 2^32 bytes. */
  lemma TlvRoundTripIff(buf: seq<Byte>, offset: nat, tag: Byte, content: seq<Byte>)
    requires At(buf, offset, TlvBytes(tag, content))
    ensures var r := ReadAt(buf, offset);
      && r.Ok? && r.value.tag == tag
      && (buf[r.value.contentStart..r.value.contentEnd] == content <==> |content| < WORD)
      && (r.value.contentEnd == offset + |TlvBytes(tag, content)| <==> |content| < WORD)
  {
    ReadsWritten(buf, offset, tag, content);
    LengthFits(|content|);
    hide ReadAt, LengthBytes, LengthRead;
  }

  /** The length octets at offset are the shortest that say what they say (section 10.1). */
  predicate ShortestLength(buf: seq<Byte>, offset: nat)
    requires offset + 2 <= |buf|
  {
    var first := buf[offset + 1];
    first < 0x80 ||
    (first > 0x80 && offset + 2 + (first - 0x80) <= |buf|
     && Minimal(buf[offset + 2..offset + 2 + (first - 0x80)])
     && ValueOf(buf[offset + 2..offset + 2 + (first - 0x80)]) >= 0x80)
  }

  /** Writing back what was read restores the bytes exactly when their length was in shortest form and below 2^32. */
  lemma WritesReadIff(buf: seq<Byte>, offset: nat)
    requires ReadAt(buf, offset).Ok?
    ensures var t := ReadAt(buf, offset).value;
      TlvBytes(t.tag, buf[t.contentStart..t.contentEnd]) == buf[offset..t.contentEnd]
      <==> ShortestLength(buf, offset) && t.contentEnd - t.contentStart < WORD
  {
    var t := ReadAt(buf, offset).value;
    var content := buf[t.contentStart..t.contentEnd];
    var header := buf[offset + 1..t.contentStart];
    assert buf[offset..t.contentEnd] == [t.tag] + header + content;
    HeaderIff(buf, offset);
    hide ReadAt, LengthBytes, ShortestLength;
    if TlvBytes(t.tag, content) == buf[offset..t.contentEnd] {
      SameHeader(t.tag, LengthBytes(|content|), header, content, buf[offset..t.contentEnd]);
    }
  }

  lemma HeaderIff(buf: seq<Byte>, offset: nat)
    requires ReadAt(buf, offset).Ok?
    ensures var t := ReadAt(buf, offset).value;
      LengthBytes(t.contentEnd - t.contentStart) == buf[offset + 1..t.contentStart]
      <==> ShortestLength(buf, offset) && t.contentEnd - t.contentStart < WORD
  {
    hide BigEndian, ValueOf;
    var t := ReadAt(buf, offset).value;
    var header := buf[offset + 1..t.contentStart];
    if buf[offset + 1] < 0x80 {
      assert header == [t.contentEnd - t.contentStart];
    } else {
      var digits := buf[offset + 2..t.contentStart];
      assert header == [buf[offset + 1]] + digits;
      assert |digits| == buf[offset + 1] - 0x80 && ValueOf(digits) == t.contentEnd - t.contentStart;
      hide ReadAt, LengthBytes, ValueOf, Minimal;
      LongHeaderIff(digits);
    }
  }

  lemma LongHeaderIff(digits: seq<Byte>)
    requires 1 <= |digits| <= 0x7f
    ensures LengthBytes(ValueOf(digits)) == [0x80 + |digits|] + digits
      <==> Minimal(digits) && 0x80 <= ValueOf(digits) < WORD
  {
    hide *;
    if Minimal(digits) && 0x80 <= ValueOf(digits) < WORD { LongHeader(digits, ValueOf(digits)); }
    if LengthBytes(ValueOf(digits)) == [0x80 + |digits|] + digits { LongHeaderOnly(digits, ValueOf(digits)); }
  }

  lemma LongHeader(digits: seq<Byte>, n: nat)
    requires Minimal(digits) && n == ValueOf(digits) && 0x80 <= n < WORD
    ensures LengthBytes(n) == [0x80 + |digits|] + digits
  {
    var b := LongLength(n);
    hide *;
    MinimalUnique(digits);
  }

  lemma LongHeaderOnly(digits: seq<Byte>, n: nat)
    requires 1 <= |digits| <= 0x7f && n == ValueOf(digits) && LengthBytes(n) == [0x80 + |digits|] + digits
    ensures Minimal(digits) && 0x80 <= n < WORD
  {
    hide ValueOf, BigEndian;
    if n < 0x80 {
      ShortLength(n);
    } else {
      var b := LongLength(n);
      SameTail(0x80 + |b|, b, 0x80 + |digits|, digits);
    }
  }

  lemma SameTail(x: Byte, a: seq<Byte>, y: Byte, b: seq<Byte>)
    requires [x] + a == [y] + b
    ensures a == b
  {
    assert a == ([x] + a)[1..] && b == ([y] + b)[1..];
  }

  lemma ShortLength(n: nat)
    requires n < 0x80
    ensures LengthBytes(n) == [n]
  {}

  lemma LongLength(n: nat) returns (b: seq<Byte>)
    requires n >= 0x80
    ensures Minimal(b) && (ValueOf(b) == n <==> n < WORD) && (n < WORD ==> b == BigEndian(n))
    ensures |b| <= 0x7e && LengthBytes(n) == [0x80 + |b|] + b
  {
    hide BigEndian;
    FourDigits(n);
    b := BigEndian(n % WORD);
    assert n % WORD == n <==> n < WORD;
  }

  lemma SameHeader(tag: Byte, a: seq<Byte>, b: seq<Byte>, content: seq<Byte>, whole: seq<Byte>)
    requires whole == [tag] + a + content && whole == [tag] + b + content
    ensures a == b
  {
    assert |a| == |b|;
    assert a == whole[1..1 + |a|] && b == whole[1..1 + |b|];
  }
}
