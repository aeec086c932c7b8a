/** What the bridge prints with the DER builders: OCSP requests, and the DigestInfo that an RSA
    token signs. */
module Ocsp {
  import opened Wrappers
  import opened Der

  const SHA1_OID: Bytes := [0x2b, 0x0e, 0x03, 0x02, 0x1a]
  const SHA256_OID: Bytes := [0x60, 0x86, 0x48, 0x01, 0x65, 0x03, 0x04, 0x02, 0x01]

  // ---------- integers ----------

  /** `big.Int.Bytes`: the shortest big-endian octets of a magnitude, none for zero. */
  function Magnitude(n: nat): (b: Bytes) {
    if n == 0 then [] else Magnitude(n / 256) + [LowByte(n)]
  }

  function Value(b: Bytes): (n: nat) {
    if b == [] then 0 else Value(b[..|b| - 1]) * 256 + b[|b| - 1] as nat
  }

  function Power256(k: nat): (p: nat)
    ensures p > 0
  {
    if k == 0 then 1 else 256 * Power256(k - 1)
  }

  lemma {:induction false} MagnitudeValue(n: nat)
    ensures Value(Magnitude(n)) == n
    ensures n > 0 ==> Magnitude(n) != [] && Magnitude(n)[0] != 0
  {
    if n > 0 {
      MagnitudeValue(n / 256);
      assert Magnitude(n)[..|Magnitude(n)| - 1] == Magnitude(n / 256);
      if n / 256 == 0 {
        assert Magnitude(n) == [LowByte(n)];
      }
    }
  }

  /** The contents of a DER INTEGER: two's complement, at least one octet, no octet too many
      (ITU-T X.690, section 8.3). */
  function ParseInteger(b: Bytes): (n: Option<int>) {
    if b == [] then None
    else if |b| > 1 && b[0] == 0x00 && b[1] < 0x80 then None
    else if |b| > 1 && b[0] == 0xff && b[1] >= 0x80 then None
    else Some(Value(b) - (if b[0] >= 0x80 then Power256(|b|) else 0))
  }

  lemma {:induction false} ValueLeadingZero(b: Bytes)
    ensures Value([0] + b) == Value(b)
  {
    if b == [] {
      assert [0 as byte] + b == [0] && [0 as byte][..0] == [];
    } else {
      ValueLeadingZero(b[..|b| - 1]);
      assert ([0] + b)[..|b|] == [0] + b[..|b| - 1];
    }
  }

  /** The octets that the bridge prints for a serial number: the sign is lost on the way. */
  function SerialBody(serial: int): (b: Bytes) {
    IntegerBody(Magnitude(if serial < 0 then -serial else serial))
  }

  /** They are a minimal INTEGER with the same value exactly for positive serial numbers: zero
      prints no octet at all, and a negative number prints its absolute value. */
  lemma SerialRoundTrip(serial: int)
    ensures ParseInteger(SerialBody(serial)) == Some(serial) <==> serial > 0
    ensures serial != 0 ==> ParseInteger(SerialBody(serial)) == Some(if serial < 0 then -serial else serial)
  {
    var n := if serial < 0 then -serial else serial;
    MagnitudeValue(n);
    ValueLeadingZero(Magnitude(n));
  }

  // ---------- OCSP requests ----------

  datatype CertId = CertId(algorithm: Bytes, issuerNameHash: Bytes, issuerKeyHash: Bytes, serial: int)

  function AlgorithmIdentifier(oid: Bytes): (items: seq<Tlv>) {
    [Tlv(OID, oid), Tlv(NULL, [])]
  }

  function CertIdItems(nameHash: Bytes, keyHash: Bytes, serial: int): (items: seq<Tlv>) {
    [Tlv(SEQUENCE, WrapAll(AlgorithmIdentifier(SHA1_OID))), Tlv(OCTET_STRING, nameHash),
     Tlv(OCTET_STRING, keyHash), Tlv(INTEGER, SerialBody(serial))]
  }

  function Nested(body: Bytes): (der: Bytes) {
    Wrap(SEQUENCE, body)
  }

  /** CertID inside Request inside the request list inside TBSRequest inside OCSPRequest. */
  function OcspRequest(nameHash: Bytes, keyHash: Bytes, serial: int): (der: Bytes) {
    Nested(Nested(Nested(Nested(Nested(WrapAll(CertIdItems(nameHash, keyHash, serial)))))))
  }

  method Asn1Sequence(items: seq<Bytes>) returns (der: Bytes)
    ensures der == Nested(Flatten(items))
  {
    der := Asn1Wrap(SEQUENCE, items);
  }

  lemma FlattenOne(x: Bytes)
    ensures Flatten([x]) == x
  {
    assert [x][..0] == [];
  }

  lemma FlattenFour(a: Bytes, b: Bytes, c: Bytes, d: Bytes)
    ensures Flatten([a, b, c, d]) == a + b + c + d
    ensures Flatten([a, b]) == a + b
  {
    assert [a, b][..1] == [a] && [a, b, c][..2] == [a, b] && [a, b, c, d][..3] == [a, b, c];
    FlattenOne(a);
    assert Flatten([a, b]) == a + b;
    assert Flatten([a, b, c]) == Flatten([a, b]) + c;
  }

  method BuildOCSPRequest(issuerNameHash: Bytes, issuerKeyHash: Bytes, serial: int) returns (der: Bytes)
    ensures der == OcspRequest(issuerNameHash, issuerKeyHash, serial)
  {
    var sha1OID: Bytes := [0x06, 0x05, 0x2b, 0x0e, 0x03, 0x02, 0x1a];
    var asn1Null: Bytes := [0x05, 0x00];
    assert sha1OID == Wrap(OID, SHA1_OID) && asn1Null == Wrap(NULL, []);
    var algorithm := Asn1Sequence([sha1OID, asn1Null]);
    FlattenFour(sha1OID, asn1Null, [], []);
    assert WrapAll(AlgorithmIdentifier(SHA1_OID)[1..]) == Wrap(NULL, []) + WrapAll(AlgorithmIdentifier(SHA1_OID)[1..][1..]);
    assert WrapAll(AlgorithmIdentifier(SHA1_OID)) == sha1OID + asn1Null;
    var name := Asn1Wrap(OCTET_STRING, [issuerNameHash]);
    var key := Asn1Wrap(OCTET_STRING, [issuerKeyHash]);
    FlattenOne(issuerNameHash);
    FlattenOne(issuerKeyHash);
    var number := Asn1Integer(Magnitude(if serial < 0 then -serial else serial));
    var certID := Asn1Sequence([algorithm, name, key, number]);
    FlattenFour(algorithm, name, key, number);
    CertIdBytes(issuerNameHash, issuerKeyHash, serial);
    var request := Asn1Sequence([certID]);
    FlattenOne(certID);
    var requestList := Asn1Sequence([request]);
    FlattenOne(request);
    var tbsRequest := Asn1Sequence([requestList]);
    FlattenOne(requestList);
    der := Asn1Sequence([tbsRequest]);
    FlattenOne(tbsRequest);
  }

  lemma CertIdBytes(nameHash: Bytes, keyHash: Bytes, serial: int)
    ensures WrapAll(CertIdItems(nameHash, keyHash, serial))
            == Nested(WrapAll(AlgorithmIdentifier(SHA1_OID))) + Wrap(OCTET_STRING, nameHash)
               + Wrap(OCTET_STRING, keyHash) + Wrap(INTEGER, SerialBody(serial))
  {
    var items := CertIdItems(nameHash, keyHash, serial);
    assert items[1..][1..] == items[2..] && items[2..][1..] == items[3..] && items[3..][1..] == [];
    assert WrapAll(items[3..]) == Wrap(INTEGER, SerialBody(serial));
    assert WrapAll(items[2..]) == Wrap(OCTET_STRING, keyHash) + WrapAll(items[3..]);
    assert WrapAll(items[1..]) == Wrap(OCTET_STRING, nameHash) + WrapAll(items[2..]);
  }

  /** The body of a SEQUENCE with exactly one element, itself a SEQUENCE. */
  function Descend(s: Bytes): (body: Option<Bytes>) {
    ParseOnly(s, SEQUENCE)
  }

  function ParseAlgorithm(s: Bytes): (oid: Option<Bytes>) {
    match ParseAll(s)
    case None => None
    case Some(items) =>
      if |items| == 2 && items[0].tag == OID && items[1] == Tlv(NULL, []) then Some(items[0].body) else None
  }

  function ParseCertId(s: Bytes): (id: Option<CertId>) {
    match ParseAll(s)
    case None => None
    case Some(items) =>
      if |items| != 4 || items[0].tag != SEQUENCE || items[1].tag != OCTET_STRING || items[2].tag != OCTET_STRING
         || items[3].tag != INTEGER then None
      else if ParseAlgorithm(items[0].body).None? || ParseInteger(items[3].body).None? then None
      else Some(CertId(ParseAlgorithm(items[0].body).value, items[1].body, items[2].body, ParseInteger(items[3].body).value))
  }

  /** The OCSPRequest of RFC 6960, section 4.1.1, with one request and no optional field. */
  function ParseOcspRequest(s: Bytes): (id: Option<CertId>) {
    match Descend(s)
    case None => None
    case Some(ocsp) =>
      match Descend(ocsp)
      case None => None
      case Some(tbs) =>
        match Descend(tbs)
        case None => None
        case Some(list) =>
          match Descend(list)
          case None => None
          case Some(request) =>
            match Descend(request)
            case None => None
            case Some(certId) => ParseCertId(certId)
  }

  lemma DescendNested(body: Bytes)
    ensures Descend(Nested(body)) == if |body| < LIMIT then Some(body) else None
  {
    if |body| < LIMIT {
      ParseOnlyWrap(SEQUENCE, body);
    } else if Descend(Nested(body)).Some? {
      WrapParse(Nested(body));
      assert |Nested(body)| == 4 + |body|;
    }
  }

  lemma AlgorithmParses()
    ensures ParseAlgorithm(WrapAll(AlgorithmIdentifier(SHA1_OID))) == Some(SHA1_OID)
    ensures |WrapAll(AlgorithmIdentifier(SHA1_OID))| == 9
  {
    var algorithm := AlgorithmIdentifier(SHA1_OID);
    assert Short(algorithm);
    ParseAllWrapAll(algorithm);
    assert algorithm[1..][1..] == [] && WrapAll(algorithm[1..]) == Wrap(NULL, []);
  }

  lemma ParseCertIdBack(nameHash: Bytes, keyHash: Bytes, serial: int)
    requires |nameHash| < LIMIT && |keyHash| < LIMIT && |SerialBody(serial)| < LIMIT
    ensures ParseCertId(WrapAll(CertIdItems(nameHash, keyHash, serial)))
            == if serial == 0 then None
               else Some(CertId(SHA1_OID, nameHash, keyHash, if serial < 0 then -serial else serial))
  {
    hide ParseAlgorithm, AlgorithmIdentifier, ParseAll;
    AlgorithmParses();
    var items := CertIdItems(nameHash, keyHash, serial);
    assert Short(items);
    ParseAllWrapAll(items);
    SerialRoundTrip(serial);
  }

  /** The most octets of a serial number, sign octet included, that the printer can take: its body
      is wrapped once as INTEGER and, with 55 octets before it, four times as a sequence, before the
      outermost sequence must stay below 65536 octets. */
  const SERIAL_LIMIT := LIMIT - 55 - 5 * 4

  lemma NestedSize(body: Bytes)
    ensures |Nested(body)| == |body| + (if |body| < 128 then 2 else if |body| < 256 then 3 else 4)
  {
  }

  lemma CertIdSize(nameHash: Bytes, keyHash: Bytes, serial: int)
    requires |nameHash| == 20 && |keyHash| == 20
    ensures var n := |SerialBody(serial)|;
            |WrapAll(CertIdItems(nameHash, keyHash, serial))|
            == 55 + n + (if n < 128 then 2 else if n < 256 then 3 else 4)
  {
    AlgorithmParses();
    CertIdBytes(nameHash, keyHash, serial);
    NestedSize(WrapAll(AlgorithmIdentifier(SHA1_OID)));
    hide SerialBody, WrapAll, AlgorithmIdentifier, Nested;
  }

  /** Five nested sequences open as long as the outermost stays below the limit. */
  lemma ParseFiveNested(body: Bytes)
    ensures var inner := Nested(Nested(Nested(Nested(body))));
            ParseOcspRequest(Nested(inner)) == if |inner| < LIMIT then ParseCertId(body) else None
  {
    var b1 := Nested(body);
    var b2 := Nested(b1);
    var b3 := Nested(b2);
    var b4 := Nested(b3);
    NestedGrows(body);
    NestedGrows(b1);
    NestedGrows(b2);
    NestedGrows(b3);
    DescendNested(b4);
    DescendNested(b3);
    DescendNested(b2);
    DescendNested(b1);
    DescendNested(body);
    hide ParseCertId, Nested, Descend;
  }

  lemma NestedGrows(body: Bytes)
    ensures |body| < |Nested(body)|
  {
    NestedSize(body);
    hide Nested;
  }

  lemma FourNestedSize(body: Bytes)
    requires |body| >= 55
    ensures |Nested(Nested(Nested(Nested(body))))| < LIMIT <==> |body| + 16 < LIMIT
  {
    var b1 := Nested(body);
    var b2 := Nested(b1);
    NestedSize(body);
    NestedSize(b1);
    NestedSize(b2);
    NestedSize(Nested(b2));
    hide Nested;
  }

  /** `buildOCSPRequest` parses back to exactly its hashes and serial number: for every positive
      serial number that leaves the whole below the printer's limit, and for no other. */
  lemma OcspRequestRoundTrip(nameHash: Bytes, keyHash: Bytes, serial: int)
    requires |nameHash| == 20 && |keyHash| == 20
    ensures ParseOcspRequest(OcspRequest(nameHash, keyHash, serial)) == Some(CertId(SHA1_OID, nameHash, keyHash, serial))
            <==> serial > 0 && |SerialBody(serial)| < SERIAL_LIMIT
  {
    var body := WrapAll(CertIdItems(nameHash, keyHash, serial));
    CertIdSize(nameHash, keyHash, serial);
    ParseFiveNested(body);
    FourNestedSize(body);
    hide SerialBody, ParseCertId, ParseOcspRequest, WrapAll, CertIdItems, Nested;
    if |SerialBody(serial)| < SERIAL_LIMIT {
      ParseCertIdBack(nameHash, keyHash, serial);
    }
  }

  // ---------- what the token signs ----------

  datatype KeyType = Rsa | Ec | OtherKey

  datatype Mechanism = RsaPkcs | Ecdsa

  const SHA256_DIGEST_INFO_PREFIX: Bytes :=
    [0x30, 0x31, 0x30, 0x0d, 0x06, 0x09, 0x60, 0x86, 0x48, 0x01, 0x65, 0x03, 0x04, 0x02, 0x01, 0x05, 0x00, 0x04, 0x20]

  /** Mechanism and data by key type, in `SignHash`. */
  function DataToSign(key: KeyType, hash: Bytes): (d: Option<(Mechanism, Bytes)>) {
    match key
    case Rsa => Some((RsaPkcs, SHA256_DIGEST_INFO_PREFIX + hash))
    case Ec => Some((Ecdsa, hash))
    case OtherKey => None
  }

  /** An RSA key signs the constant and the hash with PKCS #1 padding, an EC key the hash alone, and
      no other key signs; the data determine the hash. */
  lemma DataByKey(key: KeyType, hash: Bytes, other: Bytes)
    ensures DataToSign(key, hash).None? <==> key == OtherKey
    ensures key == Rsa ==> DataToSign(key, hash).value.0 == RsaPkcs && |DataToSign(key, hash).value.1| == 19 + |hash|
                           && DataToSign(key, hash).value.1[19..] == hash
    ensures key == Ec ==> DataToSign(key, hash) == Some((Ecdsa, hash))
    ensures key != OtherKey ==> (DataToSign(key, hash) == DataToSign(key, other) <==> hash == other)
  {
    assert (SHA256_DIGEST_INFO_PREFIX + hash)[19..] == hash;
    assert (SHA256_DIGEST_INFO_PREFIX + other)[19..] == other;
  }

  function DigestInfo(oid: Bytes, hash: Bytes): (der: Bytes) {
    Nested(WrapAll([Tlv(SEQUENCE, WrapAll(AlgorithmIdentifier(oid))), Tlv(OCTET_STRING, hash)]))
  }

  lemma Sha256AlgorithmBytes()
    ensures WrapAll(AlgorithmIdentifier(SHA256_OID)) == [0x06, 0x09] + SHA256_OID + [0x05, 0x00]
  {
    var algorithm := AlgorithmIdentifier(SHA256_OID);
    assert algorithm[1..][1..] == [];
    assert WrapAll([]) == [];
    assert WrapAll(algorithm[1..]) == Wrap(NULL, []) + [];
    assert Wrap(NULL, []) == [0x05, 0x00];
    assert Wrap(OID, SHA256_OID) == [0x06, 0x09] + SHA256_OID;
  }

  /** The middle of the constant is the algorithm identifier of SHA-256. */
  lemma PrefixHoldsAlgorithm()
    ensures Nested([0x06, 0x09] + SHA256_OID + [0x05, 0x00]) == SHA256_DIGEST_INFO_PREFIX[2..17]
  {
    var body: Bytes := [0x06, 0x09] + SHA256_OID + [0x05, 0x00];
    assert body == [0x06, 0x09, 0x60, 0x86, 0x48, 0x01, 0x65, 0x03, 0x04, 0x02, 0x01, 0x05, 0x00];
    assert |body| == 13;
    assert Header(SEQUENCE, 13) == [0x30, 0x0d];
    assert SHA256_DIGEST_INFO_PREFIX[2..17]
        == [0x30, 0x0d, 0x06, 0x09, 0x60, 0x86, 0x48, 0x01, 0x65, 0x03, 0x04, 0x02, 0x01, 0x05, 0x00];
  }

  lemma WrapTwo(x: Tlv, y: Tlv)
    ensures WrapAll([x, y]) == Wrap(x.tag, x.body) + Wrap(y.tag, y.body)
  {
    hide Wrap;
    assert [x, y][1..] == [y] && [y][1..] == [];
    assert WrapAll([y]) == Wrap(y.tag, y.body) + [];
  }

  lemma DigestInfoBytes(hash: Bytes)
    ensures DigestInfo(SHA256_OID, hash) == Nested(SHA256_DIGEST_INFO_PREFIX[2..17] + Wrap(OCTET_STRING, hash))
  {
    Sha256AlgorithmBytes();
    PrefixHoldsAlgorithm();
    WrapTwo(Tlv(SEQUENCE, WrapAll(AlgorithmIdentifier(SHA256_OID))), Tlv(OCTET_STRING, hash));
    hide Wrap, WrapAll, AlgorithmIdentifier;
  }

  /** For 32 octets both length octets of the constant are the printed ones. */
  lemma PrefixFor32(hash: Bytes)
    requires |hash| == 32
    ensures Nested(SHA256_DIGEST_INFO_PREFIX[2..17] + Wrap(OCTET_STRING, hash)) == SHA256_DIGEST_INFO_PREFIX + hash
  {
    assert Header(OCTET_STRING, 32) == [0x04, 0x20] && Header(SEQUENCE, 0x31) == [0x30, 0x31];
    hide Header;
    var prefix := SHA256_DIGEST_INFO_PREFIX;
    assert prefix == [0x30, 0x31] + prefix[2..17] + [0x04, 0x20];
    var body := prefix[2..17] + Wrap(OCTET_STRING, hash);
    assert |body| == 0x31;
    assert body == prefix[2..17] + [0x04, 0x20] + hash;
    assert Nested(body) == [0x30, 0x31] + body;
  }

  lemma PrefixForOthers(hash: Bytes)
    requires |hash| != 32
    ensures Nested(SHA256_DIGEST_INFO_PREFIX[2..17] + Wrap(OCTET_STRING, hash))[1] != 0x31
  {
    var body := SHA256_DIGEST_INFO_PREFIX[2..17] + Wrap(OCTET_STRING, hash);
    assert |body| == 15 + |Header(OCTET_STRING, |hash|)| + |hash|;
    assert |body| != 0x31;
    assert Nested(body)[1] == Header(SEQUENCE, |body|)[1];
  }

  /** The constant prefix and a hash make the DigestInfo of RFC 8017, section 9.2, exactly for
      hashes of 32 octets. */
  lemma PrefixMakesDigestInfoExactlyFor32(hash: Bytes)
    ensures DataToSign(Rsa, hash).value.1 == DigestInfo(SHA256_OID, hash) <==> |hash| == 32
  {
    DigestInfoBytes(hash);
    assert (SHA256_DIGEST_INFO_PREFIX + hash)[1] == 0x31;
    hide DigestInfo, Nested;
    if |hash| == 32 {
      PrefixFor32(hash);
    } else {
      PrefixForOthers(hash);
    }
  }
}
