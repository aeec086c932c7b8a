/** The gate in front of the token: a sign request passes for a site with a stored secret only if
    the server issued it, within a minute. */
module Authenticity {
  import opened Wrappers
  import opened Text

  const WINDOW := 60

  /** The five fields under the message authentication code. */
  datatype Message = Message(session: string, hash: string, algorithm: string, timestamp: int, nonce: string)

  /** HMAC-SHA256 as an ideal function: a tag is a term that remembers key and payload. */
  datatype Mac = Mac(key: string, payload: string)

  datatype MacText = Absent | Hex(mac: Mac) | OtherText(text: string)

  datatype SignRequest = SignRequest(message: Message, expectedFingerprint: string, hmac: MacText, pin: string)

  /** The payload under the tag: both sides join these five fields with a bar. */
  function Payload(m: Message): (s: string) {
    Join([m.session, m.hash, m.algorithm, PrintInt(m.timestamp), m.nonce], '|')
  }

  /** What the server sends: a uuid, hex digits, a digest name, a hex nonce. */
  predicate ServerMade(m: Message) {
    Free(m.session, '|') && Free(m.hash, '|') && Free(m.algorithm, '|') && Free(m.nonce, '|')
  }

  lemma PrintIntFree(i: int)
    ensures Free(PrintInt(i), '|')
  {
    var digits := PrintNat(if i < 0 then -i else i);
    assert forall c :: c in digits ==> IsDigit(c);
  }

  /** The payload determines the message, if the server made one of the two. */
  lemma PayloadInjective(m: Message, other: Message)
    requires ServerMade(m) && Payload(m) == Payload(other)
    ensures m == other
  {
    PrintIntFree(m.timestamp);
    var a := [m.session, m.hash, m.algorithm, PrintInt(m.timestamp), m.nonce];
    var b := [other.session, other.hash, other.algorithm, PrintInt(other.timestamp), other.nonce];
    JoinInjective(a, b, '|');
    assert a[0] == b[0] && a[1] == b[1] && a[2] == b[2] && a[3] == b[3] && a[4] == b[4];
    PrintIntInjective(m.timestamp, other.timestamp);
  }

  /** Without that the payload does not determine the message. */
  lemma PayloadsCollideWithBars(x: string, y: string, z: string, m: Message)
    ensures Payload(m.(session := x + "|" + y, hash := z)) == Payload(m.(session := x, hash := y + "|" + z))
  {
    var rest := [m.algorithm, PrintInt(m.timestamp), m.nonce];
    var a := [x + "|" + y, z] + rest;
    var b := [x, y + "|" + z] + rest;
    assert a[1..] == [z] + rest && a[1..][1..] == rest && b[1..] == [y + "|" + z] + rest && b[1..][1..] == rest;
    assert Join(a, '|') == x + "|" + y + "|" + (z + "|" + Join(rest, '|'));
    assert Join(b, '|') == x + "|" + ((y + "|" + z) + "|" + Join(rest, '|'));
    assert Join(a, '|') == Join(b, '|');
    assert a == [x + "|" + y, z, m.algorithm, PrintInt(m.timestamp), m.nonce];
    assert b == [x, y + "|" + z, m.algorithm, PrintInt(m.timestamp), m.nonce];
  }

  /** `verifyHMAC`: timestamp present, within the window, and the tag that the secret gives. */
  function VerifyHmac(secret: string, req: SignRequest, now: int): (ok: bool) {
    if req.message.timestamp <= 0 then false
    else
      var skew := now - req.message.timestamp;
      var distance := if skew < 0 then -skew else skew;
      if distance > WINDOW then false
      else req.hmac == Hex(Mac(secret, Payload(req.message)))
  }

  /** What the keystore answers about a site. */
  datatype SiteView = SiteView(paired: bool, token: Option<string>, secret: Option<string>)

  /** `securityMiddleware` on the sign path: a site token must match if one is sent, otherwise the
      origin must be paired. `corsOriginAllowed` agrees on this path. */
  predicate OriginAdmitted(site: SiteView, origin: string, token: string) {
    origin != "" && (if token != "" then site.paired && site.token == Some(token) else site.paired)
  }

  predicate AlgorithmSupported(algorithm: string) {
    algorithm == "" || algorithm == "sha256"
  }

  predicate StoredSecret(site: SiteView) {
    site.paired && site.secret.Some? && site.secret.value != ""
  }

  /** The HMAC part of `HandleSign`. A site without a stored secret is let through. */
  predicate HmacAdmitted(site: SiteView, origin: string, req: SignRequest, now: int) {
    if req.hmac != Absent && req.message.timestamp != 0 && req.message.nonce != "" then
      origin != "" && (StoredSecret(site) ==> VerifyHmac(site.secret.value, req, now))
    else
      origin != "" ==> !StoredSecret(site)
  }

  predicate Accepted(site: SiteView, origin: string, token: string, req: SignRequest, now: int) {
    OriginAdmitted(site, origin, token) && AlgorithmSupported(req.message.algorithm) && HmacAdmitted(site, origin, req, now)
  }

  /** Nobody but the server makes tags: whatever tag under `secret` a request shows, the server
      issued a message with that payload. */
  ghost predicate Unforged(issued: set<Message>, secret: string, req: SignRequest) {
    req.hmac.Hex? && req.hmac.mac.key == secret ==> exists m :: m in issued && Payload(m) == req.hmac.mac.payload
  }

  /** Every request accepted for a site with a stored secret is a message that the server issued,
      field for field, not older or newer than a minute by the bridge's clock. */
  lemma AcceptedIsIssued(issued: set<Message>, site: SiteView, origin: string, token: string, req: SignRequest, now: int)
    requires StoredSecret(site) && Accepted(site, origin, token, req, now)
    requires forall m :: m in issued ==> ServerMade(m)
    requires Unforged(issued, site.secret.value, req)
    ensures req.message in issued
    ensures -WINDOW <= now - req.message.timestamp <= WINDOW && req.message.timestamp > 0
  {
    var m :| m in issued && Payload(m) == req.hmac.mac.payload;
    PayloadInjective(m, req.message);
  }

  /** The gate in terms of what it is shown: the origin is paired and a site token, if sent, is its
      own; and if the site has a secret, the tag is the one of this message under it, with a nonce,
      within the minute. A nonce is not remembered: the same message passes again until its minute
      is over. */
  lemma AcceptedExactlyWhen(site: SiteView, origin: string, token: string, req: SignRequest, now: int)
    ensures Accepted(site, origin, token, req, now)
            <==> && origin != "" && site.paired && (token == "" || site.token == Some(token))
                 && req.message.algorithm in {"", "sha256"}
                 && (site.secret.None? || site.secret.value == ""
                     || (&& req.hmac == Hex(Mac(site.secret.value, Payload(req.message)))
                         && req.message.nonce != "" && req.message.timestamp > 0
                         && now - 60 <= req.message.timestamp <= now + 60))
  {
    hide Payload;
  }

  /** The text under the tag, in the order of its fields. */
  lemma PayloadReads(m: Message)
    ensures Payload(m) == m.session + "|" + m.hash + "|" + m.algorithm + "|" + PrintInt(m.timestamp) + "|" + m.nonce
  {
    hide PrintInt, Join;
    var time := PrintInt(m.timestamp);
    JoinCons(m.session, [m.hash, m.algorithm, time, m.nonce]);
    JoinCons(m.hash, [m.algorithm, time, m.nonce]);
    JoinCons(m.algorithm, [time, m.nonce]);
    JoinCons(time, [m.nonce]);
    JoinOne(m.nonce);
    assert [m.session] + [m.hash, m.algorithm, time, m.nonce] == [m.session, m.hash, m.algorithm, time, m.nonce];
    assert [m.hash] + [m.algorithm, time, m.nonce] == [m.hash, m.algorithm, time, m.nonce];
    assert [m.algorithm] + [time, m.nonce] == [m.algorithm, time, m.nonce];
    assert [time] + [m.nonce] == [time, m.nonce];
    Associative(m.session + "|" + m.hash + "|" + m.algorithm, time, m.nonce);
    Associative(m.session + "|" + m.hash, m.algorithm, time + "|" + m.nonce);
    Associative(m.session, m.hash, m.algorithm + "|" + (time + "|" + m.nonce));
  }

  lemma JoinCons(first: string, rest: seq<string>)
    requires rest != []
    ensures Join([first] + rest, '|') == first + "|" + Join(rest, '|')
  {
    assert ([first] + rest)[1..] == rest;
  }

  lemma JoinOne(only: string)
    ensures Join([only], '|') == only
  {
  }

  lemma Associative(a: string, b: string, c: string)
    ensures a + "|" + (b + "|" + c) == a + "|" + b + "|" + c
  {
  }
}
