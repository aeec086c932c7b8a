/** The hand-written DER printer of the bridge, and a strict parser that undoes it. */
module Der {
  import opened Wrappers

  const SEQUENCE: byte := 0x30
  const OCTET_STRING: byte := 0x04
  const INTEGER: byte := 0x02
  const NULL: byte := 0x05
  const OID: byte := 0x06

  const LIMIT := 0x1_0000

  // ---------- printer ----------

  function Flatten(parts: seq<Bytes>): (body: Bytes) {
    if parts == [] then [] else Flatten(parts[..|parts| - 1]) + parts[|parts| - 1]
  }

  /** Go's `byte(n)`: the low eight bits. */
  function LowByte(n: nat): (b: byte) {
    (n % 256) as byte
  }

  function Header(tag: byte, length: nat): (h: Bytes) {
    if length < 128 then [tag, LowByte(length)]
    else if length < 256 then [tag, 0x81, LowByte(length)]
    else [tag, 0x82, LowByte(length / 256), LowByte(length)]
  }

  function Wrap(tag: byte, body: Bytes): (der: Bytes) {
    Header(tag, |body|) + body
  }

  method Asn1Wrap(tag: byte, contents: seq<Bytes>) returns (der: Bytes)
    ensures der == Wrap(tag, Flatten(contents))
  {
    var body: Bytes := [];
    for i := 0 to |contents|
      invariant body == Flatten(contents[..i])
    {
      body := body + contents[i];
      assert contents[..i + 1][..i] == contents[..i];
    }
    assert contents[..|contents|] == contents;
    var length := |body|;
    var header: Bytes;
    if length < 128 {
      header := [tag, LowByte(length)];
    } else if length < 256 {
      header := [tag, 0x81, LowByte(length)];
    } else {
      header := [tag, 0x82, LowByte(length / 256), LowByte(length)];
    }
    der := header + body;
  }

  /** `asn1Integer`: a zero octet in front of a magnitude whose high bit is set. */
  function IntegerBody(magnitude: Bytes): (body: Bytes) {
    if magnitude != [] && magnitude[0] >= 0x80 then [0x00] + magnitude else magnitude
  }

  method Asn1Integer(data: Bytes) returns (der: Bytes)
    ensures der == Wrap(INTEGER, IntegerBody(data))
  {
    var d := data;
    if |d| > 0 && d[0] >= 0x80 {
      d := [0x00] + d;
    }
    assert Flatten([d][..0]) == [] && Flatten([d]) == d;
    der := Asn1Wrap(INTEGER, [d]);
  }

  // ---------- parser ----------

  datatype Tlv = Tlv(tag: byte, body: Bytes)

  /** The length octets: short form, or long form with one or two octets; only the shortest form
      is DER (ITU-T X.690, sections 8.1.3 and 10.1). Returns the length and the octets used. */
  function ParseLength(s: Bytes): (r: Option<(nat, nat)>)
    ensures r.Some? ==> r.value.1 <= |s|
  {
    if s == [] then None
    else if s[0] < 0x80 then Some((s[0] as nat, 1))
    else if s[0] == 0x81 then
      if |s| >= 2 && s[1] >= 0x80 then Some((s[1] as nat, 2)) else None
    else if s[0] == 0x82 then
      if |s| >= 3 && s[1] > 0 then Some((s[1] as nat * 256 + s[2] as nat, 3)) else None
    else None
  }

  /** One element, and what follows it. */
  function Parse(s: Bytes): (r: Option<(Tlv, Bytes)>)
    ensures r.Some? ==> |r.value.1| < |s|
  {
    if s == [] then None
    else
      match ParseLength(s[1..])
      case None => None
      case Some((length, used)) =>
        var rest := s[1 + used..];
        if length > |rest| then None else Some((Tlv(s[0], rest[..length]), rest[length..]))
  }

  function ParseAll(s: Bytes): (r: Option<seq<Tlv>>)
    decreases |s|
  {
    if s == [] then Some([])
    else
      match Parse(s)
      case None => None
      case Some((first, rest)) =>
        match ParseAll(rest)
        case None => None
        case Some(others) => Some([first] + others)
  }

  // ---------- round trip ----------

  lemma LengthRoundTrip(length: nat, rest: Bytes)
    requires length < LIMIT
    ensures ParseLength(Header(0, length)[1..] + rest) == Some((length, |Header(0, length)| - 1))
  {
    var s := Header(0, length)[1..] + rest;
    assert length >= 128 ==> s[1] == Header(0, length)[2];
    assert length >= 256 ==> s[2] == Header(0, length)[3];
  }

  /** The parser recovers tag, body and rest exactly. */
  lemma ParseWrap(tag: byte, body: Bytes, rest: Bytes)
    requires |body| < LIMIT
    ensures Parse(Wrap(tag, body) + rest) == Some((Tlv(tag, body), rest))
  {
    var s := Wrap(tag, body) + rest;
    var h := Header(tag, |body|);
    LengthRoundTrip(|body|, body + rest);
    assert s[1..] == Header(0, |body|)[1..] + (body + rest);
    assert s[|h|..] == body + rest;
    assert (body + rest)[..|body|] == body && (body + rest)[|body|..] == rest;
  }

  /** From 65536 octets on the two length octets wrap around, and the body does not come back: the
      round trip holds exactly below that. */
  lemma WrapParsesExactlyBelowLimit(tag: byte, body: Bytes)
    ensures Parse(Wrap(tag, body)) == Some((Tlv(tag, body), [])) <==> |body| < LIMIT
  {
    assert Wrap(tag, body) + [] == Wrap(tag, body);
    if |body| < LIMIT {
      ParseWrap(tag, body, []);
    } else {
      var s := Wrap(tag, body);
      var lengths := s[1..];
      assert s[1] == 0x82 && s[2] == LowByte(|body| / 256) && s[3] == LowByte(|body|);
      assert lengths[0] == s[1] && lengths[1] == s[2] && lengths[2] == s[3];
      if Parse(s).Some? {
        assert |Parse(s).value.0.body| <= 255 * 256 + 255;
      }
    }
  }

  /** No encoding is a proper prefix of another, so a stream of them can be read only one way. */
  lemma EncodingsArePrefixFree(tag: byte, body: Bytes, rest: Bytes, tag': byte, body': Bytes, rest': Bytes)
    requires |body| < LIMIT && |body'| < LIMIT
    requires Wrap(tag, body) + rest == Wrap(tag', body') + rest'
    ensures tag == tag' && body == body' && rest == rest'
  {
    ParseWrap(tag, body, rest);
    ParseWrap(tag', body', rest');
  }

  lemma LengthIsMinimal(s: Bytes, tag: byte)
    requires ParseLength(s).Some?
    ensures var (length, used) := ParseLength(s).value; length < LIMIT && Header(tag, length) == [tag] + s[..used]
  {
    var (length, used) := ParseLength(s).value;
    assert used == 3 ==> length / 256 == s[1] as nat && length % 256 == s[2] as nat;
  }

  /** The other direction: what the strict parser accepts is what the printer prints, so lengths
      are minimal and every accepted element has one encoding. */
  lemma WrapParse(s: Bytes)
    requires Parse(s).Some?
    ensures var (t, rest) := Parse(s).value; |t.body| < LIMIT && s == Wrap(t.tag, t.body) + rest
  {
    var (t, rest) := Parse(s).value;
    LengthIsMinimal(s[1..], s[0]);
    var (length, used) := ParseLength(s[1..]).value;
    calc {
      s;
      [s[0]] + s[1..];
      { assert s[1..] == s[1..][..used] + s[1 + used..]; }
      [s[0]] + (s[1..][..used] + s[1 + used..]);
      { assert s[1 + used..] == t.body + rest; }
      [s[0]] + (s[1..][..used] + (t.body + rest));
      ([s[0]] + s[1..][..used]) + t.body + rest;
    }
  }

  function WrapAll(items: seq<Tlv>): (s: Bytes) {
    if items == [] then [] else Wrap(items[0].tag, items[0].body) + WrapAll(items[1..])
  }

  predicate Short(items: seq<Tlv>) {
    forall t :: t in items ==> |t.body| < LIMIT
  }

  /** The contents of a sequence parse back to its items. */
  lemma {:induction false} ParseAllWrapAll(items: seq<Tlv>)
    requires Short(items)
    ensures ParseAll(WrapAll(items)) == Some(items)
  {
    if items != [] {
      ParseWrap(items[0].tag, items[0].body, WrapAll(items[1..]));
      ParseAllWrapAll(items[1..]);
      assert [items[0]] + items[1..] == items;
    }
  }

  /** One element of the given tag, and nothing after it. */
  function ParseOnly(s: Bytes, tag: byte): (body: Option<Bytes>) {
    match Parse(s)
    case None => None
    case Some((t, rest)) => if t.tag == tag && rest == [] then Some(t.body) else None
  }

  function ParseSequence(s: Bytes): (items: Option<seq<Tlv>>) {
    match ParseOnly(s, SEQUENCE)
    case None => None
    case Some(body) => ParseAll(body)
  }

  lemma ParseOnlyWrap(tag: byte, body: Bytes)
    requires |body| < LIMIT
    ensures ParseOnly(Wrap(tag, body), tag) == Some(body)
  {
    ParseWrap(tag, body, []);
    assert Wrap(tag, body) + [] == Wrap(tag, body);
  }

  /** A nested sequence as the bridge prints it parses back to its items, exactly while its body
      stays below 65536 octets. */
  lemma NestedSequenceRoundTrip(items: seq<Tlv>)
    requires Short(items)
    ensures ParseSequence(Wrap(SEQUENCE, WrapAll(items))) == Some(items) <==> |WrapAll(items)| < LIMIT
  {
    ParseAllWrapAll(items);
    var s := Wrap(SEQUENCE, WrapAll(items));
    if |WrapAll(items)| < LIMIT {
      ParseOnlyWrap(SEQUENCE, WrapAll(items));
    }
    if ParseSequence(s) == Some(items) {
      WrapParse(s);
      ParsedBodyIsItems(ParseOnly(s, SEQUENCE).value, items);
    }
  }

  /** `ParseAll` accepts only the printer's output. */
  lemma {:induction false} ParsedBodyIsItems(s: Bytes, items: seq<Tlv>)
    requires ParseAll(s) == Some(items)
    ensures s == WrapAll(items)
    decreases |s|
  {
    if s != [] {
      var (first, rest) := Parse(s).value;
      WrapParse(s);
      ParsedBodyIsItems(rest, items[1..]);
    }
  }
}
