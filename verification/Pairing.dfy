/** The pairing handshake between server and bridges over a network that loses messages. */
module Pairing {
  import opened Wrappers
  import opened Text
  import opened Keystore

  const CODE_TTL := 600

  /** SHA-256 of a site token, as an ideal function. */
  datatype TokenHash = TokenHash(token: string)

  datatype PairingCode = PairingCode(user: string, expires: int)

  /** `code` is the model's own record of the code that led to the registration. */
  datatype Registration = Registration(user: string, agent: string, active: bool, tokenHash: TokenHash, code: nat)

  /** The durable part of the server: registrations and the HMAC secret. */
  datatype Registry = Registry(registrations: seq<Registration>, secret: Option<string>)

  /** Codes live in the cache. Random values never repeat: the n-th token, and the n-th secret, is
      written as the number n. The model's own records: `clears` counts how often an administrator
      has cleared the secret, `births` tells what that count was when a secret was created. */
  datatype Server = Server(
    registry: Registry, codes: map<nat, PairingCode>, nextCode: nat, nextToken: nat, nextSecret: nat, now: int,
    clears: nat, births: map<string, nat>)

  datatype Grant = Grant(token: string, secret: string, registration: nat)

  /** Where the server's call breaks off: before the registration is committed, or after it. */
  datatype ServerFault = Smooth | InsertFails | CrashAfterCommit

  predicate CodeLive(s: Server, code: nat) {
    code in s.codes && s.now < s.codes[code].expires
  }

  /** `get_or_create_hmac_secret`. */
  function EnsureSecretEffect(s: Server): (r: (Server, string)) {
    if s.registry.secret.Some? && s.registry.secret.value != "" then (s, s.registry.secret.value)
    else
      var secret := PrintNat(s.nextSecret);
      (s.(registry := s.registry.(secret := Some(secret)), nextSecret := s.nextSecret + 1, births := s.births[secret := s.clears]),
       secret)
  }

  /** `validate_pairing_code`: the code is spent first, then the registration is committed, and only
      then are token and secret handed out. */
  function ValidateEffect(s: Server, code: nat, agent: string, fault: ServerFault): (r: (Server, Option<Grant>)) {
    if !CodeLive(s, code) then (s, None)
    else
      var token := PrintNat(s.nextToken);
      var spent := s.(codes := s.codes - {code}, nextToken := s.nextToken + 1);
      if fault.InsertFails? then (spent, None)
      else
        var registration := Registration(s.codes[code].user, agent, true, TokenHash(token), code);
        var registered := spent.(registry := s.registry.(registrations := s.registry.registrations + [registration]));
        if fault.CrashAfterCommit? then (registered, None)
        else
          var (ensured, secret) := EnsureSecretEffect(registered);
          (ensured, Some(Grant(token, secret, |s.registry.registrations|)))
  }

  /** `verify_site_token` finds an active registration with the token's hash and the agent. */
  predicate Verifies(r: Registry, token: string, agent: string) {
    token != "" && exists i :: 0 <= i < |r.registrations| && r.registrations[i].tokenHash == TokenHash(token)
                               && r.registrations[i].active && r.registrations[i].agent == agent
  }

  class PairingServer {
    var committed: Registry
    var staged: Registry
    var codes: map<nat, PairingCode>
    var nextCode: nat
    var nextToken: nat
    var nextSecret: nat
    var now: int
    ghost var clears: nat
    ghost var births: map<string, nat>

    ghost predicate Idle()
      reads this
    {
      staged == committed
    }

    ghost function Seen(): (s: Server)
      reads this
    {
      Server(committed, codes, nextCode, nextToken, nextSecret, now, clears, births)
    }

    method GeneratePairingCode(user: string) returns (code: nat)
      modifies `codes, `nextCode
      ensures code == old(nextCode) && nextCode == code + 1
      ensures codes == old(codes)[code := PairingCode(user, now + CODE_TTL)]
      ensures code in codes && codes[code].user == user && codes[code].expires == now + CODE_TTL
      ensures forall c :: c != code ==> (c in codes <==> c in old(codes)) && (c in codes ==> codes[c] == old(codes)[c])
    {
      code := nextCode;
      nextCode := nextCode + 1;
      codes := codes[code := PairingCode(user, now + CODE_TTL)];
    }

    /** Creates the secret on first use, and commits it before anyone sees it. */
    method GetOrCreateSecret() returns (secret: string)
      requires Idle()
      modifies `staged, `committed, `nextSecret, `births
      ensures Idle() && (Seen(), secret) == EnsureSecretEffect(old(Seen()))
      ensures committed.secret == Some(secret) && (old(committed).secret == Some(secret) || secret == PrintNat(old(nextSecret)))
    {
      if staged.secret.Some? && staged.secret.value != "" { return staged.secret.value; }
      secret := PrintNat(nextSecret);
      nextSecret := nextSecret + 1;
      births := births[secret := clears];
      staged := staged.(secret := Some(secret));
      committed := staged;
    }

    method ValidatePairingCode(code: nat, agent: string, fault: ServerFault) returns (grant: Option<Grant>)
      requires Idle()
      modifies this
      ensures Idle() && (Seen(), grant) == ValidateEffect(old(Seen()), code, agent, fault)
      ensures grant.Some? <==> code in old(codes) && now < old(codes)[code].expires && fault.Smooth?
      ensures !(code in old(codes) && now < old(codes)[code].expires) ==> Seen() == old(Seen())
    {
      if code !in codes || now >= codes[code].expires { return None; }
      var data := codes[code];
      codes := codes - {code};
      var token := PrintNat(nextToken);
      nextToken := nextToken + 1;
      if fault.InsertFails? { return None; }
      var id := |staged.registrations|;
      staged := staged.(registrations := staged.registrations + [Registration(data.user, agent, true, TokenHash(token), code)]);
      committed := staged;
      if fault.CrashAfterCommit? { return None; }
      var secret := GetOrCreateSecret();
      return Some(Grant(token, secret, id));
    }
  }

  // ---------- the bridge's side ----------

  /** `stamps[url]`: how often the secret had been cleared at the last pairing that stored a secret
      for `url`. The model's own record. */
  datatype Agent = Agent(fingerprint: string, store: Store, stamps: map<string, nat>)

  /** The tail of `HandlePair`: token first; the secret only if that worked, and its own failure is
      merely logged. Returns the store, whether the site was stored, and whether the secret was. */
  function StoreGrant(s: Store, url: string, g: Grant, meta: Meta): (r: (Store, bool, bool)) {
    var (s1, ok1) := AddSiteEffect(s, url, g.token, meta);
    if !ok1 then (s1, false, false)
    else
      var (s2, ok2) := SetSecretEffect(s1, url, g.secret);
      (s2, true, ok2)
  }

  function AcceptGrant(a: Agent, url: string, g: Grant, meta: Meta, clears: nat): (a': Agent) {
    var (store, _, secretStored) := StoreGrant(a.store, url, g, meta);
    a.(store := store, stamps := if secretStored then a.stamps[url := clears] else a.stamps)
  }

  datatype PairAnswer = BadRequest | NotConfirmed | InvalidPairingCode | StoreFailed | Paired

  /** `HandlePair`; `reply` is what the site answers to the code, if an answer arrives. */
  method HandlePair(ks: Keystore, code: string, url: string, confirmed: bool, reply: Option<Grant>, meta: Meta)
    returns (answer: PairAnswer)
    modifies ks
    ensures answer == if code == "" || url == "" then BadRequest else if !confirmed then NotConfirmed
                      else if reply.None? || reply.value.token == "" then InvalidPairingCode
                      else if StoreGrant(old(ks.Seen()), url, reply.value, meta).1 then Paired else StoreFailed
    ensures ks.Seen() == if answer == Paired || answer == StoreFailed
                         then StoreGrant(old(ks.Seen()), url, reply.value, meta).0 else old(ks.Seen())
  {
    if code == "" || url == "" { return BadRequest; }
    if !confirmed { return NotConfirmed; }
    if reply.None? || reply.value.token == "" { return InvalidPairingCode; }
    var ok := ks.AddSite(url, reply.value.token, meta);
    if !ok { return StoreFailed; }
    if reply.value.secret != "" {
      var logged := ks.SetHMACSecret(url, reply.value.secret);
    }
    return Paired;
  }

  datatype Loss = Delivered | RequestLost | ResponseLost

  datatype Network = Network(server: Server, agents: map<nat, Agent>)

  datatype Op =
    | GenerateCode(user: string)
    | Pair(agent: nat, url: string, code: nat, meta: Meta, fault: ServerFault, loss: Loss)
    | PairElsewhere(agent: nat, url: string, grant: Grant, meta: Meta)
    | RemoveSite(agent: nat, url: string)
    | Restart(agent: nat)
    | Disk(agent: nat, up: bool)
    | ToggleKeychain(agent: nat)
    | ClearSecret
    | UseSecret
    | Tick(seconds: nat)

  function WithStore(n: Network, i: nat, store: Store): (n': Network)
    requires i in n.agents
  {
    n.(agents := n.agents[i := n.agents[i].(store := store)])
  }

  function Step(n: Network, op: Op): (n': Network) {
    match op
    case GenerateCode(user) =>
      n.(server := n.server.(codes := n.server.codes[n.server.nextCode := PairingCode(user, n.server.now + CODE_TTL)],
                             nextCode := n.server.nextCode + 1))
    case Pair(i, url, code, meta, fault, loss) =>
      if i !in n.agents || loss.RequestLost? then n
      else
        var (server, grant) := ValidateEffect(n.server, code, n.agents[i].fingerprint, fault);
        if grant.None? || loss.ResponseLost? then n.(server := server)
        else Network(server, n.agents[i := AcceptGrant(n.agents[i], url, grant.value, meta, server.clears)])
    case PairElsewhere(i, url, grant, meta) =>
      if i !in n.agents then n
      else n.(agents := n.agents[i := AcceptGrant(n.agents[i], url, grant, meta, 0)])
    case RemoveSite(i, url) => if i in n.agents then WithStore(n, i, RemoveSiteEffect(n.agents[i].store, url).0) else n
    case Restart(i) =>
      if i in n.agents then WithStore(n, i, n.agents[i].store.(sites := n.agents[i].store.savedSites)) else n
    case Disk(i, up) => if i in n.agents then WithStore(n, i, n.agents[i].store.(diskUp := up)) else n
    case ToggleKeychain(i) =>
      if i in n.agents then WithStore(n, i, n.agents[i].store.(keychainUp := !n.agents[i].store.keychainUp)) else n
    case ClearSecret => n.(server := n.server.(registry := n.server.registry.(secret := None), clears := n.server.clears + 1))
    case UseSecret => n.(server := EnsureSecretEffect(n.server).0)
    case Tick(seconds) => n.(server := n.server.(now := n.server.now + seconds))
  }

  function Run(n: Network, ops: seq<Op>): (n': Network) {
    if ops == [] then n else Step(Run(n, ops[..|ops| - 1]), ops[|ops| - 1])
  }

  /** `homes` are the addresses of this server. No site URL starts with "hmac:", and other addresses
      belong to other servers. */
  predicate Sensible(op: Op, homes: set<string>) {
    match op
    case Pair(_, url, _, _, _, _) => url in homes && Plain(url)
    case PairElsewhere(_, url, _, _) => url !in homes && Plain(url)
    case RemoveSite(_, url) => Plain(url)
    case _ => true
  }

  predicate AllSensible(ops: seq<Op>, homes: set<string>) {
    forall i :: 0 <= i < |ops| ==> Sensible(ops[i], homes)
  }

  predicate Initial(n: Network) {
    && n.server.registry == Registry([], None) && n.server.codes == map[] && n.server.nextToken == 0 && n.server.nextSecret == 0
    && n.server.births == map[]
    && forall i :: i in n.agents ==>
         n.agents[i].store.keychain == map[] && n.agents[i].store.tokenFile == map[] && n.agents[i].stamps == map[]
  }

  // ---------- tokens have registrations ----------

  predicate ValueVerifies(r: Registry, values: map<string, string>, url: string, agent: string) {
    url in values ==> Verifies(r, values[url], agent)
  }

  ghost predicate TokensRegistered(n: Network, homes: set<string>) {
    forall i, url :: i in n.agents && url in homes && Plain(url) ==>
      ValueVerifies(n.server.registry, n.agents[i].store.keychain, url, n.agents[i].fingerprint)
      && ValueVerifies(n.server.registry, n.agents[i].store.tokenFile, url, n.agents[i].fingerprint)
  }

  lemma VerifiesStays(r: Registry, r': Registry, token: string, agent: string)
    requires Verifies(r, token, agent) && r.registrations <= r'.registrations
    ensures Verifies(r', token, agent)
  {
    var i :| 0 <= i < |r.registrations| && r.registrations[i].tokenHash == TokenHash(token)
             && r.registrations[i].active && r.registrations[i].agent == agent;
    assert r'.registrations[i] == r.registrations[i];
  }

  lemma GrantedTokenVerifies(s: Server, code: nat, agent: string, fault: ServerFault)
    ensures var (s', grant) := ValidateEffect(s, code, agent, fault);
            s.registry.registrations <= s'.registry.registrations
            && (grant.Some? ==> Verifies(s'.registry, grant.value.token, agent))
  {
    var (s', grant) := ValidateEffect(s, code, agent, fault);
    if grant.Some? {
      var last := s'.registry.registrations[|s.registry.registrations|];
      assert last.tokenHash == TokenHash(grant.value.token) && last.active && last.agent == agent;
    }
  }

  /** What accepting a grant can leave under a plain key: what was there, or the granted token. */
  lemma AcceptedValues(a: Agent, url: string, g: Grant, meta: Meta, clears: nat, key: string)
    requires Plain(key) && Plain(url)
    ensures var a' := AcceptGrant(a, url, g, meta, clears);
            a'.fingerprint == a.fingerprint && a'.store.keychainUp == a.store.keychainUp
            && (key in a'.store.keychain ==>
                  (key in a.store.keychain && a'.store.keychain[key] == a.store.keychain[key])
                  || (key == url && a'.store.keychain[key] == g.token))
            && (key in a'.store.tokenFile ==>
                  (key in a.store.tokenFile && a'.store.tokenFile[key] == a.store.tokenFile[key])
                  || (key == url && a'.store.tokenFile[key] == g.token))
  {
    KeysApart(key, url);
  }

  lemma EnsureKeepsRegistrations(s: Server)
    ensures EnsureSecretEffect(s).0.registry.registrations == s.registry.registrations
  {
  }

  lemma RegistrationsGrow(n: Network, op: Op)
    ensures n.server.registry.registrations <= Step(n, op).server.registry.registrations
  {
    hide PrintNat, AcceptGrant, ValidateEffect, EnsureSecretEffect, RemoveSiteEffect, Verifies;
    EnsureKeepsRegistrations(n.server);
    if op.Pair? && op.agent in n.agents {
      GrantedTokenVerifies(n.server, op.code, n.agents[op.agent].fingerprint, op.fault);
    }
  }

  lemma ValueStays(r: Registry, r': Registry, values: map<string, string>, url: string, agent: string)
    requires ValueVerifies(r, values, url, agent) && r.registrations <= r'.registrations
    ensures ValueVerifies(r', values, url, agent)
  {
    if url in values { VerifiesStays(r, r', values[url], agent); }
  }

  lemma TokensRegisteredStep(n: Network, op: Op, homes: set<string>)
    requires TokensRegistered(n, homes) && Sensible(op, homes)
    ensures TokensRegistered(Step(n, op), homes)
  {
    hide PrintNat, AcceptGrant, ValidateEffect, EnsureSecretEffect, Verifies;
    var n' := Step(n, op);
    RegistrationsGrow(n, op);
    forall i, url | i in n'.agents && url in homes && Plain(url)
      ensures ValueVerifies(n'.server.registry, n'.agents[i].store.keychain, url, n'.agents[i].fingerprint)
      ensures ValueVerifies(n'.server.registry, n'.agents[i].store.tokenFile, url, n'.agents[i].fingerprint)
    {
      var a, a' := n.agents[i], n'.agents[i];
      ValueStays(n.server.registry, n'.server.registry, a.store.keychain, url, a.fingerprint);
      ValueStays(n.server.registry, n'.server.registry, a.store.tokenFile, url, a.fingerprint);
      if op.Pair? && op.agent == i && a' != a {
        var (server, grant) := ValidateEffect(n.server, op.code, a.fingerprint, op.fault);
        GrantedTokenVerifies(n.server, op.code, a.fingerprint, op.fault);
        AcceptedValues(a, op.url, grant.value, op.meta, server.clears, url);
      } else if op.PairElsewhere? && op.agent == i {
        AcceptedValues(a, op.url, op.grant, op.meta, 0, url);
      }
    }
  }

  lemma {:induction false} AlwaysRegistered(n: Network, ops: seq<Op>, homes: set<string>)
    requires Initial(n) && AllSensible(ops, homes)
    ensures TokensRegistered(Run(n, ops), homes)
  {
    if ops != [] {
      AlwaysRegistered(n, ops[..|ops| - 1], homes);
      TokensRegisteredStep(Run(n, ops[..|ops| - 1]), ops[|ops| - 1], homes);
    }
  }

  /** Whatever was lost, every site token that a bridge reads for this server is one that
      `verify_site_token` finds. */
  lemma HeldTokensVerify(n: Network, ops: seq<Op>, homes: set<string>, i: nat, url: string)
    requires Initial(n) && AllSensible(ops, homes) && url in homes && Plain(url) && i in Run(n, ops).agents
    ensures var a := Run(n, ops).agents[i];
            TokenOf(a.store, url).Some? ==> Verifies(Run(n, ops).server.registry, TokenOf(a.store, url).value, a.fingerprint)
  {
    AlwaysRegistered(n, ops, homes);
  }

  // ---------- a token is one agent's ----------

  ghost predicate IsPastToken(s: Server, h: TokenHash) {
    exists t: nat :: t < s.nextToken && h == TokenHash(PrintNat(t))
  }

  /** Each registration has a token of its own. */
  ghost predicate TokensApart(s: Server) {
    && (forall k :: 0 <= k < |s.registry.registrations| ==> IsPastToken(s, s.registry.registrations[k].tokenHash))
    && (forall j, k :: 0 <= j < k < |s.registry.registrations| ==>
          s.registry.registrations[j].tokenHash != s.registry.registrations[k].tokenHash)
  }

  lemma PastTokenStays(s: Server, s': Server, h: TokenHash)
    requires IsPastToken(s, h) && s.nextToken <= s'.nextToken
    ensures IsPastToken(s', h) && h != TokenHash(PrintNat(s.nextToken))
  {
    var t: nat :| t < s.nextToken && h == TokenHash(PrintNat(t));
    ParsePrintNat(t);
    ParsePrintNat(s.nextToken);
    assert h == TokenHash(PrintNat(t)) && t < s'.nextToken;
  }

  /** A step adds at most one registration, with the next token. */
  lemma TokensAfter(n: Network, op: Op)
    ensures var s, s' := n.server, Step(n, op).server;
            && s.nextToken <= s'.nextToken
            && (s'.registry.registrations == s.registry.registrations
                || (&& s.nextToken < s'.nextToken && |s'.registry.registrations| == |s.registry.registrations| + 1
                    && s.registry.registrations <= s'.registry.registrations
                    && s'.registry.registrations[|s.registry.registrations|].tokenHash == TokenHash(PrintNat(s.nextToken))))
  {
    hide PrintNat, AcceptGrant, RemoveSiteEffect;
  }

  lemma TokensApartStep(n: Network, op: Op)
    requires TokensApart(n.server)
    ensures TokensApart(Step(n, op).server)
  {
    hide Step, IsPastToken, PrintNat;
    var s, s' := n.server, Step(n, op).server;
    TokensAfter(n, op);
    forall k | 0 <= k < |s.registry.registrations|
      ensures IsPastToken(s', s.registry.registrations[k].tokenHash)
      ensures s.registry.registrations[k].tokenHash != TokenHash(PrintNat(s.nextToken))
    {
      PastTokenStays(s, s', s.registry.registrations[k].tokenHash);
    }
    if s.nextToken < s'.nextToken { NextTokenIsPast(s, s'); }
  }

  lemma NextTokenIsPast(s: Server, s': Server)
    requires s.nextToken < s'.nextToken
    ensures IsPastToken(s', TokenHash(PrintNat(s.nextToken)))
  {
  }

  lemma {:induction false} AlwaysApart(n: Network, ops: seq<Op>)
    requires Initial(n)
    ensures TokensApart(Run(n, ops).server)
  {
    hide Step;
    if ops != [] {
      AlwaysApart(n, ops[..|ops| - 1]);
      TokensApartStep(Run(n, ops[..|ops| - 1]), ops[|ops| - 1]);
    }
  }

  /** Over every run `verify_site_token` finds a token for one agent only, and never the empty one. */
  lemma TokenVerifiesForOneAgent(n: Network, ops: seq<Op>, token: string, agent: string, other: string)
    requires Initial(n)
    requires Verifies(Run(n, ops).server.registry, token, agent) && Verifies(Run(n, ops).server.registry, token, other)
    ensures agent == other && token != ""
  {
    hide Run;
    AlwaysApart(n, ops);
    var rs := Run(n, ops).server.registry.registrations;
    var i :| 0 <= i < |rs| && rs[i].tokenHash == TokenHash(token) && rs[i].active && rs[i].agent == agent;
    var j :| 0 <= j < |rs| && rs[j].tokenHash == TokenHash(token) && rs[j].active && rs[j].agent == other;
    assert !(i < j) && !(j < i);
  }

  // ---------- codes are used once ----------

  ghost predicate CodesUsedOnce(s: Server) {
    && (forall c :: c in s.codes ==> c < s.nextCode)
    && (forall k :: 0 <= k < |s.registry.registrations| ==>
          s.registry.registrations[k].code < s.nextCode && s.registry.registrations[k].code !in s.codes)
    && (forall j, k :: 0 <= j < k < |s.registry.registrations| ==>
          s.registry.registrations[j].code != s.registry.registrations[k].code)
  }

  /** A call to `validate_pairing_code` adds at most one registration, for the code it spends. */
  lemma CodeIsSpent(s: Server, code: nat, agent: string, fault: ServerFault)
    ensures var s' := ValidateEffect(s, code, agent, fault).0;
            && s'.nextCode == s.nextCode
            && (if CodeLive(s, code)
                then && s'.codes == s.codes - {code}
                     && (s'.registry.registrations == s.registry.registrations
                         || (|s'.registry.registrations| == |s.registry.registrations| + 1
                             && s.registry.registrations <= s'.registry.registrations
                             && s'.registry.registrations[|s.registry.registrations|].code == code))
                else s' == s)
  {
    hide PrintNat;
  }

  lemma CodesStep(n: Network, op: Op)
    requires CodesUsedOnce(n.server)
    ensures CodesUsedOnce(Step(n, op).server)
  {
    hide PrintNat, AcceptGrant, ValidateEffect, RemoveSiteEffect;
    if op.Pair? && op.agent in n.agents {
      CodeIsSpent(n.server, op.code, n.agents[op.agent].fingerprint, op.fault);
    }
  }

  /** Each code yields at most one registration, over any run. */
  lemma {:induction false} CodeYieldsAtMostOneRegistration(n: Network, ops: seq<Op>)
    requires Initial(n)
    ensures CodesUsedOnce(Run(n, ops).server)
  {
    if ops != [] {
      CodeYieldsAtMostOneRegistration(n, ops[..|ops| - 1]);
      CodesStep(Run(n, ops[..|ops| - 1]), ops[|ops| - 1]);
    }
  }

  // ---------- codes expire ----------

  /** An expired or unknown code changes nothing. Otherwise the code is spent; unless the insert fails,
      one active registration is added, for the user who asked for the code, the agent who showed it
      and the token handed out; and the grant is handed out exactly if nothing fails. */
  lemma CodeWorksExactlyInTime(s: Server, code: nat, agent: string, fault: ServerFault)
    ensures var (s', grant) := ValidateEffect(s, code, agent, fault);
            if code !in s.codes || s.codes[code].expires <= s.now then s' == s && grant.None?
            else
              && s'.codes == s.codes - {code} && s'.now == s.now && s'.nextCode == s.nextCode && s'.nextToken == s.nextToken + 1
              && s'.registry.registrations == s.registry.registrations
                 + (if fault.InsertFails? then []
                    else [Registration(s.codes[code].user, agent, true, TokenHash(PrintNat(s.nextToken)), code)])
              && (grant.Some? <==> fault.Smooth?)
              && (grant.Some? ==> grant.value.token == PrintNat(s.nextToken) && s'.registry.secret == Some(grant.value.secret)
                                  && s'.registry.registrations[grant.value.registration].code == code)
  {
    hide PrintNat;
  }

  /** Step `j` of the run is the request of `user` that was answered with `code`. */
  ghost predicate AskedFor(n: Network, ops: seq<Op>, j: nat, code: nat, user: string) {
    j < |ops| && ops[j] == GenerateCode(user) && Run(n, ops[..j]).server.nextCode == code
  }

  /** Step `k` of the run is the pairing with `code` that added registration `x`. */
  ghost predicate RegisteredBy(n: Network, ops: seq<Op>, k: nat, x: nat, code: nat, agent: string) {
    && k < |ops| && ops[k].Pair? && ops[k].code == code
    && var before := Run(n, ops[..k]);
       && ops[k].agent in before.agents && before.agents[ops[k].agent].fingerprint == agent
       && |before.server.registry.registrations| == x < |Step(before, ops[k]).server.registry.registrations|
  }

  function TimeOf(n: Network, ops: seq<Op>, j: nat): (t: int)
    requires j <= |ops|
  {
    Run(n, ops[..j]).server.now
  }

  /** Every code in the cache was asked for, and expires 600 seconds after that. */
  ghost predicate CodesAsked(n: Network, ops: seq<Op>) {
    var s := Run(n, ops).server;
    forall c :: c in s.codes ==> exists j: nat :: AskedFor(n, ops, j, c, s.codes[c].user) && s.codes[c].expires == TimeOf(n, ops, j) + 600
  }

  lemma RunSnoc(n: Network, ops: seq<Op>, op: Op)
    ensures Run(n, ops + [op]) == Step(Run(n, ops), op)
  {
    assert (ops + [op])[..|ops|] == ops;
  }

  lemma AskedStays(n: Network, ops: seq<Op>, op: Op, j: nat, code: nat, user: string)
    requires AskedFor(n, ops, j, code, user)
    ensures AskedFor(n, ops + [op], j, code, user) && TimeOf(n, ops + [op], j) == TimeOf(n, ops, j)
  {
    hide Run;
    assert (ops + [op])[..j] == ops[..j];
  }

  /** A step keeps the codes, spends one, or adds the one asked for. */
  lemma CodesAfter(n: Network, op: Op, c: nat)
    requires c in Step(n, op).server.codes
    ensures (c in n.server.codes && Step(n, op).server.codes[c] == n.server.codes[c])
            || (op.GenerateCode? && c == n.server.nextCode && Step(n, op).server.codes[c] == PairingCode(op.user, n.server.now + 600))
  {
    hide PrintNat, AcceptGrant, ValidateEffect, RemoveSiteEffect;
    if op.Pair? && op.agent in n.agents {
      CodeIsSpent(n.server, op.code, n.agents[op.agent].fingerprint, op.fault);
    }
  }

  lemma CodesAskedStep(n: Network, ops: seq<Op>, op: Op)
    requires CodesAsked(n, ops)
    ensures CodesAsked(n, ops + [op])
  {
    hide Run, Step;
    RunSnoc(n, ops, op);
    var s' := Run(n, ops + [op]).server;
    forall c | c in s'.codes
      ensures exists j: nat :: AskedFor(n, ops + [op], j, c, s'.codes[c].user) && s'.codes[c].expires == TimeOf(n, ops + [op], j) + 600
    {
      var s := Run(n, ops).server;
      CodesAfter(Run(n, ops), op, c);
      if c in s.codes && s'.codes[c] == s.codes[c] {
        var j: nat :| AskedFor(n, ops, j, c, s.codes[c].user) && s.codes[c].expires == TimeOf(n, ops, j) + 600;
        AskedStays(n, ops, op, j, c, s.codes[c].user);
      } else {
        assert (ops + [op])[..|ops|] == ops;
        assert AskedFor(n, ops + [op], |ops|, c, op.user);
      }
    }
  }

  lemma {:induction false} CodesAlwaysAsked(n: Network, ops: seq<Op>)
    requires Initial(n)
    ensures CodesAsked(n, ops)
  {
    if ops != [] {
      hide CodesAsked;
      CodesAlwaysAsked(n, ops[..|ops| - 1]);
      CodesAskedStep(n, ops[..|ops| - 1], ops[|ops| - 1]);
      assert ops == ops[..|ops| - 1] + [ops[|ops| - 1]];
    }
  }

  /** What a step does to the registrations. */
  lemma RegistrationsAfter(n: Network, op: Op)
    ensures var rs, rs' := n.server.registry.registrations, Step(n, op).server.registry.registrations;
            || rs' == rs
            || (&& op.Pair? && op.agent in n.agents && op.code in n.server.codes && n.server.now < n.server.codes[op.code].expires
                && |rs'| == |rs| + 1 && rs <= rs'
                && rs'[|rs|].user == n.server.codes[op.code].user && rs'[|rs|].code == op.code
                && rs'[|rs|].agent == n.agents[op.agent].fingerprint && rs'[|rs|].active)
  {
    hide PrintNat, AcceptGrant, ValidateEffect, EnsureSecretEffect, RemoveSiteEffect;
    EnsureKeepsRegistrations(n.server);
    if op.Pair? && op.agent in n.agents {
      CodeWorksExactlyInTime(n.server, op.code, n.agents[op.agent].fingerprint, op.fault);
    }
  }

  /** Over every run each registration comes from a pairing that showed a code less than 600 seconds
      after somebody asked for it, and it is in that user's name and for that agent. */
  lemma {:induction false} RegistrationsFollowTheirCode(n: Network, ops: seq<Op>, x: nat) returns (j: nat, k: nat)
    requires Initial(n) && x < |Run(n, ops).server.registry.registrations|
    ensures var reg := Run(n, ops).server.registry.registrations[x];
            && AskedFor(n, ops, j, reg.code, reg.user) && j < k && RegisteredBy(n, ops, k, x, reg.code, reg.agent)
            && TimeOf(n, ops, k) < TimeOf(n, ops, j) + 600
  {
    hide Step;
    if ops == [] {
      assert false;
    } else {
      var init, last := ops[..|ops| - 1], ops[|ops| - 1];
      assert ops == init + [last];
      RunSnoc(n, init, last);
      RegistrationsAfter(Run(n, init), last);
      var reg := Run(n, ops).server.registry.registrations[x];
      if x < |Run(n, init).server.registry.registrations| {
        j, k := RegistrationsFollowTheirCode(n, init, x);
        AskedStays(n, init, last, j, reg.code, reg.user);
        RegisteredStays(n, init, last, k, x, reg.code, reg.agent);
      } else {
        var s := Run(n, init).server;
        CodesAlwaysAsked(n, init);
        j :| AskedFor(n, init, j, reg.code, s.codes[reg.code].user) && s.codes[reg.code].expires == TimeOf(n, init, j) + 600;
        AskedStays(n, init, last, j, reg.code, reg.user);
        k := |init|;
        assert ops[..k] == init;
      }
    }
  }

  lemma RegisteredStays(n: Network, ops: seq<Op>, op: Op, k: nat, x: nat, code: nat, agent: string)
    requires RegisteredBy(n, ops, k, x, code, agent)
    ensures RegisteredBy(n, ops + [op], k, x, code, agent) && TimeOf(n, ops + [op], k) == TimeOf(n, ops, k)
  {
    hide Run, Step;
    assert (ops + [op])[..k] == ops[..k];
  }

  // ---------- the two sides share the secret ----------

  /** Of the secrets ever created, the server's is the one created since it was last cleared. */
  ghost predicate Born(s: Server) {
    && (forall k: nat :: k >= s.nextSecret ==> PrintNat(k) !in s.births)
    && (forall v :: v in s.births ==> s.births[v] <= s.clears && v != "")
    && (s.registry.secret.Some? ==> s.registry.secret.value in s.births)
    && (forall v :: v in s.births ==> (s.births[v] == s.clears <==> s.registry.secret == Some(v)))
  }

  predicate Extends(s: Server, s': Server) {
    s.clears <= s'.clears && forall v :: v in s.births ==> v in s'.births && s'.births[v] == s.births[v]
  }

  lemma EnsureKeepsBorn(s: Server)
    requires Born(s)
    ensures var (s', secret) := EnsureSecretEffect(s);
            && Born(s') && Extends(s, s') && s'.clears == s.clears
            && secret in s'.births && s'.births[secret] == s'.clears && s'.registry.secret == Some(secret)
  {
    var (s', secret) := EnsureSecretEffect(s);
    if s' != s {
      assert secret == PrintNat(s.nextSecret) && secret !in s.births;
      forall k: nat | k >= s'.nextSecret
        ensures PrintNat(k) !in s'.births
      {
        ParsePrintNat(k);
        ParsePrintNat(s.nextSecret);
      }
    }
  }

  lemma ValidateKeepsBorn(s: Server, code: nat, agent: string, fault: ServerFault)
    requires Born(s)
    ensures var (s', grant) := ValidateEffect(s, code, agent, fault);
            && Born(s') && Extends(s, s') && s'.clears == s.clears
            && (grant.Some? ==> grant.value.secret in s'.births && s'.births[grant.value.secret] == s'.clears)
  {
    hide EnsureSecretEffect;
    if CodeLive(s, code) && fault.Smooth? {
      var token := PrintNat(s.nextToken);
      var registration := Registration(s.codes[code].user, agent, true, TokenHash(token), code);
      var registered := s.(codes := s.codes - {code}, nextToken := s.nextToken + 1,
                           registry := s.registry.(registrations := s.registry.registrations + [registration]));
      assert Born(registered);
      EnsureKeepsBorn(registered);
    }
  }

  lemma BornStep(n: Network, op: Op)
    requires Born(n.server)
    ensures Born(Step(n, op).server) && Extends(n.server, Step(n, op).server)
  {
    hide EnsureSecretEffect, ValidateEffect, AcceptGrant, RemoveSiteEffect;
    match op
    case Pair(i, _, code, _, fault, _) =>
      if i in n.agents { ValidateKeepsBorn(n.server, code, n.agents[i].fingerprint, fault); }
    case UseSecret => EnsureKeepsBorn(n.server);
    case _ =>
  }

  // ---------- whatever the keychain does ----------

  predicate BornAt(s: Server, values: map<string, string>, key: string) {
    key in values ==> values[key] in s.births
  }

  /** What a bridge has stored for this server, wherever it is, is one of the server's secrets. */
  ghost predicate SecretsBorn(n: Network, homes: set<string>) {
    forall i, url :: i in n.agents && url in homes && Plain(url) ==>
      BornAt(n.server, n.agents[i].store.keychain, HmacKey(url)) && BornAt(n.server, n.agents[i].store.tokenFile, HmacKey(url))
  }

  /** What accepting a grant can leave under a site's secret key: what was there, or the granted one. */
  lemma AcceptedSecrets(a: Agent, url: string, g: Grant, meta: Meta, clears: nat, other: string)
    requires Plain(url) && Plain(other)
    ensures var a' := AcceptGrant(a, url, g, meta, clears);
            var key := HmacKey(other);
            && (key in a'.store.keychain ==>
                  (key in a.store.keychain && a'.store.keychain[key] == a.store.keychain[key])
                  || (other == url && a'.store.keychain[key] == g.secret))
            && (key in a'.store.tokenFile ==>
                  (key in a.store.tokenFile && a'.store.tokenFile[key] == a.store.tokenFile[key])
                  || (other == url && a'.store.tokenFile[key] == g.secret))
  {
    KeysApart(url, other);
    KeysApart(other, url);
    hide HmacKey;
  }

  lemma SecretsBornStep(n: Network, op: Op, homes: set<string>)
    requires Born(n.server) && SecretsBorn(n, homes) && Sensible(op, homes)
    ensures SecretsBorn(Step(n, op), homes)
  {
    var n' := Step(n, op);
    BornStep(n, op);
    if op.Pair? && op.agent in n.agents {
      ValidateKeepsBorn(n.server, op.code, n.agents[op.agent].fingerprint, op.fault);
    }
    hide EnsureSecretEffect, ValidateEffect, AcceptGrant, Born, HmacKey;
    forall i, url | i in n'.agents && url in homes && Plain(url)
      ensures BornAt(n'.server, n'.agents[i].store.keychain, HmacKey(url))
      ensures BornAt(n'.server, n'.agents[i].store.tokenFile, HmacKey(url))
    {
      var a, a' := n.agents[i], n'.agents[i];
      assert BornAt(n.server, a.store.keychain, HmacKey(url)) && BornAt(n.server, a.store.tokenFile, HmacKey(url));
      if op.Pair? && op.agent == i && a' != a {
        var (server, grant) := ValidateEffect(n.server, op.code, a.fingerprint, op.fault);
        AcceptedSecrets(a, op.url, grant.value, op.meta, server.clears, url);
      } else if op.PairElsewhere? && op.agent == i {
        AcceptedSecrets(a, op.url, op.grant, op.meta, 0, url);
      }
    }
  }

  lemma {:induction false} AlwaysBorn(n: Network, ops: seq<Op>, homes: set<string>)
    requires Initial(n) && AllSensible(ops, homes)
    ensures Born(Run(n, ops).server) && SecretsBorn(Run(n, ops), homes)
  {
    hide Step;
    if ops != [] {
      AlwaysBorn(n, ops[..|ops| - 1], homes);
      BornStep(Run(n, ops[..|ops| - 1]), ops[|ops| - 1]);
      SecretsBornStep(Run(n, ops[..|ops| - 1]), ops[|ops| - 1], homes);
    }
  }

  /** Whatever keychain and disk did meanwhile and whatever was lost, a secret that a bridge reads
      for this server is one that the server created, and it is the server's now if and only if
      the server's has not been cleared since. */
  lemma HeldSecretIsServersExactlyWhen(n: Network, ops: seq<Op>, homes: set<string>, i: nat, url: string)
    requires Initial(n) && AllSensible(ops, homes) && url in homes && Plain(url) && i in Run(n, ops).agents
    requires SecretOf(Run(n, ops).agents[i].store, url).Some?
    ensures var n' := Run(n, ops);
            var v := SecretOf(n'.agents[i].store, url).value;
            v in n'.server.births && (n'.server.registry.secret == Some(v) <==> n'.server.births[v] == n'.server.clears)
  {
    AlwaysBorn(n, ops, homes);
    var n' := Run(n, ops);
    assert BornAt(n'.server, n'.agents[i].store.keychain, HmacKey(url)) && BornAt(n'.server, n'.agents[i].store.tokenFile, HmacKey(url));
  }

  // ---------- at most one change of the keychain ----------

  function Changes(ops: seq<Op>, i: nat): (k: nat) {
    if ops == [] then 0 else Changes(ops[..|ops| - 1], i) + (if ops[|ops| - 1] == ToggleKeychain(i) then 1 else 0)
  }

  /** Value `v` is the secret that the last storing pairing with `url` delivered. */
  predicate Latest(s: Server, a: Agent, url: string, v: string) {
    url in a.stamps && v in s.births && s.births[v] == a.stamps[url]
  }

  predicate LatestIn(s: Server, a: Agent, url: string, values: map<string, string>) {
    HmacKey(url) in values ==> Latest(s, a, url, values[HmacKey(url)])
  }

  /** How the entry for `url` stands after at most one change: the place in use has nothing but the
      latest secret; a file used after losing the keychain has nothing older; a keychain gained on
      the way hides an older file entry, and is not empty then. */
  predicate HeldIsLatest(s: Server, a: Agent, url: string, startedUp: bool, switches: nat) {
    && a.store.keychainUp == (startedUp == (switches == 0))
    && if switches == 0 then
         if startedUp then LatestIn(s, a, url, a.store.keychain) && HmacKey(url) !in a.store.tokenFile
         else LatestIn(s, a, url, a.store.tokenFile) && HmacKey(url) !in a.store.keychain
       else if startedUp then LatestIn(s, a, url, a.store.tokenFile)
       else LatestIn(s, a, url, a.store.keychain) && (HmacKey(url) !in a.store.keychain ==> LatestIn(s, a, url, a.store.tokenFile))
  }

  function Stamp(a: Agent, url: string): (v: Option<nat>) {
    if url in a.stamps then Some(a.stamps[url]) else None
  }

  /** Nothing about the entry changed but the server's records grew. */
  lemma SameEntry(s: Server, a: Agent, s': Server, a': Agent, url: string, startedUp: bool, switches: nat)
    requires HeldIsLatest(s, a, url, startedUp, switches) && Extends(s, s')
    requires a'.store.keychainUp == a.store.keychainUp && SameAt(a.store, a'.store, HmacKey(url)) && Stamp(a', url) == Stamp(a, url)
    ensures HeldIsLatest(s', a', url, startedUp, switches)
  {
    hide HmacKey;
  }

  lemma SwitchedEntry(s: Server, a: Agent, url: string, startedUp: bool)
    requires HeldIsLatest(s, a, url, startedUp, 0)
    ensures HeldIsLatest(s, a.(store := a.store.(keychainUp := !a.store.keychainUp)), url, startedUp, 1)
  {
    hide HmacKey;
  }

  /** A grant leaves the secrets of other sites and their stamps alone. */
  lemma OtherSecretUntouched(a: Agent, url: string, g: Grant, meta: Meta, clears: nat, other: string)
    requires Plain(url) && Plain(other) && url != other
    ensures var a' := AcceptGrant(a, url, g, meta, clears);
            a'.store.keychainUp == a.store.keychainUp && SameAt(a.store, a'.store, HmacKey(other)) && Stamp(a', other) == Stamp(a, other)
  {
    var s1 := AddSiteEffect(a.store, url, g.token, meta).0;
    OtherSiteUntouched(a.store, Add(url, g.token, meta), other);
    OtherSiteUntouched(s1, SetSecret(url, g.secret), other);
  }

  /** For its own site the granted secret is stored in the place in use and stamped, or nothing about
      the entry changes. */
  lemma OwnSecretStored(a: Agent, url: string, g: Grant, meta: Meta, clears: nat)
    requires Plain(url) && g.secret != ""
    ensures var a' := AcceptGrant(a, url, g, meta, clears);
            var key := HmacKey(url);
            && a'.store.keychainUp == a.store.keychainUp
            && ((SameAt(a.store, a'.store, key) && a'.stamps == a.stamps)
                || (a'.stamps == a.stamps[url := clears]
                    && if a.store.keychainUp
                       then Lookup(a'.store.keychain, key) == Some(g.secret) && Lookup(a'.store.tokenFile, key) == Lookup(a.store.tokenFile, key)
                       else Lookup(a'.store.tokenFile, key) == Some(g.secret) && Lookup(a'.store.keychain, key) == Lookup(a.store.keychain, key)))
  {
    KeysApart(url, url);
    if g.token != "" { PutElsewhere(a.store, url, g.token, HmacKey(url)); }
    hide HmacKey;
  }

  lemma GrantKeepsLatest(s: Server, a: Agent, s': Server, url: string, g: Grant, meta: Meta, other: string, startedUp: bool, switches: nat)
    requires HeldIsLatest(s, a, other, startedUp, switches) && Extends(s, s') && Plain(url) && Plain(other)
    requires g.secret != "" && g.secret in s'.births && s'.births[g.secret] == s'.clears
    ensures HeldIsLatest(s', AcceptGrant(a, url, g, meta, s'.clears), other, startedUp, switches)
  {
    hide HmacKey, AcceptGrant, Extends;
    var a' := AcceptGrant(a, url, g, meta, s'.clears);
    if url == other {
      OwnSecretStored(a, url, g, meta, s'.clears);
      if SameAt(a.store, a'.store, HmacKey(url)) && a'.stamps == a.stamps {
        SameEntry(s, a, s', a', other, startedUp, switches);
      }
    } else {
      OtherSecretUntouched(a, url, g, meta, s'.clears, other);
      SameEntry(s, a, s', a', other, startedUp, switches);
    }
  }

  lemma PairKeepsLatest(n: Network, op: Op, i: nat, url: string, startedUp: bool, switches: nat)
    requires Born(n.server) && op.Pair? && Plain(op.url)
    requires i in n.agents && Plain(url) && HeldIsLatest(n.server, n.agents[i], url, startedUp, switches)
    ensures HeldIsLatest(Step(n, op).server, Step(n, op).agents[i], url, startedUp, switches)
  {
    hide HmacKey, AcceptGrant, ValidateEffect, HeldIsLatest;
    var a := n.agents[i];
    if op.agent in n.agents {
      var fingerprint := n.agents[op.agent].fingerprint;
      var (server, grant) := ValidateEffect(n.server, op.code, fingerprint, op.fault);
      ValidateKeepsBorn(n.server, op.code, fingerprint, op.fault);
      if op.agent == i && grant.Some? {
        GrantKeepsLatest(n.server, a, server, op.url, grant.value, op.meta, url, startedUp, switches);
      }
      SameEntry(n.server, a, server, a, url, startedUp, switches);
    }
  }

  /** Removing a site deletes its secret where that can be written. A keychain gained on the way
      needs the file written too, or it would uncover what the file still has. */
  lemma RemoveKeepsLatest(s: Server, a: Agent, removed: string, url: string, startedUp: bool, switches: nat)
    requires HeldIsLatest(s, a, url, startedUp, switches) && Plain(removed) && Plain(url)
    requires switches > 0 && !startedUp ==> a.store.diskUp
    ensures HeldIsLatest(s, a.(store := RemoveSiteEffect(a.store, removed).0), url, startedUp, switches)
  {
    if removed != url {
      OtherSiteUntouched(a.store, Remove(removed), url);
      SameEntry(s, a, s, a.(store := RemoveSiteEffect(a.store, removed).0), url, startedUp, switches);
    } else {
      KeysApart(url, url);
      hide HmacKey;
    }
  }

  /** Bridge `i` never removes a site while its disk fails. */
  predicate RemovalsWritten(n: Network, ops: seq<Op>, i: nat) {
    forall k :: 0 <= k < |ops| && ops[k].RemoveSite? && ops[k].agent == i && i in Run(n, ops[..k]).agents ==>
      Run(n, ops[..k]).agents[i].store.diskUp
  }

  lemma LatestStep(n: Network, op: Op, homes: set<string>, i: nat, url: string, startedUp: bool, switches: nat)
    requires Born(n.server) && Sensible(op, homes) && i in n.agents && url in homes && Plain(url)
    requires HeldIsLatest(n.server, n.agents[i], url, startedUp, switches)
    requires op == ToggleKeychain(i) ==> switches == 0
    requires op.RemoveSite? && op.agent == i && switches > 0 && !startedUp ==> n.agents[i].store.diskUp
    ensures i in Step(n, op).agents
    ensures HeldIsLatest(Step(n, op).server, Step(n, op).agents[i], url, startedUp, switches + (if op == ToggleKeychain(i) then 1 else 0))
  {
    var n' := Step(n, op);
    var a := n.agents[i];
    BornStep(n, op);
    hide HmacKey, AcceptGrant, ValidateEffect, EnsureSecretEffect, HeldIsLatest, RemoveSiteEffect, Born, Extends;
    if op == ToggleKeychain(i) {
      SwitchedEntry(n.server, a, url, startedUp);
    } else if op.Pair? {
      PairKeepsLatest(n, op, i, url, startedUp, switches);
    } else if op.PairElsewhere? && op.agent == i {
      OtherSecretUntouched(a, op.url, op.grant, op.meta, 0, url);
      SameEntry(n.server, a, n'.server, n'.agents[i], url, startedUp, switches);
    } else if op.RemoveSite? && op.agent == i {
      RemoveKeepsLatest(n.server, a, op.url, url, startedUp, switches);
    } else {
      SameEntry(n.server, a, n'.server, n'.agents[i], url, startedUp, switches);
    }
  }

  lemma {:induction false} AlwaysLatest(n: Network, ops: seq<Op>, homes: set<string>, i: nat, url: string)
    requires Initial(n) && AllSensible(ops, homes) && url in homes && Plain(url) && i in n.agents
    requires Changes(ops, i) <= 1 && (n.agents[i].store.keychainUp || Changes(ops, i) == 0 || RemovalsWritten(n, ops, i))
    ensures i in Run(n, ops).agents
    ensures HeldIsLatest(Run(n, ops).server, Run(n, ops).agents[i], url, n.agents[i].store.keychainUp, Changes(ops, i))
  {
    hide Step, HmacKey;
    if ops != [] {
      var init, last := ops[..|ops| - 1], ops[|ops| - 1];
      assert forall k :: 0 <= k < |init| ==> init[..k] == ops[..k];
      AlwaysLatest(n, init, homes, i, url);
      AlwaysBorn(n, init, homes);
      LatestStep(Run(n, init), last, homes, i, url, n.agents[i].store.keychainUp, Changes(init, i));
    }
  }

  /** With at most one change of a bridge's keychain, the secret it reads is the one that its last
      storing pairing delivered; so it is the server's if and only if the server's has not been
      cleared since that pairing. If the keychain was gained, not lost, sites must not have been
      removed while the disk failed. */
  lemma HeldSecretIsServers(n: Network, ops: seq<Op>, homes: set<string>, i: nat, url: string)
    requires Initial(n) && AllSensible(ops, homes) && url in homes && Plain(url) && i in n.agents
    requires Changes(ops, i) <= 1 && (n.agents[i].store.keychainUp || Changes(ops, i) == 0 || RemovalsWritten(n, ops, i))
    ensures i in Run(n, ops).agents
    ensures var n' := Run(n, ops);
            var a := n'.agents[i];
            SecretOf(a.store, url).Some? ==>
              url in a.stamps && (SecretOf(a.store, url) == n'.server.registry.secret <==> a.stamps[url] == n'.server.clears)
  {
    AlwaysLatest(n, ops, homes, i, url);
    AlwaysBorn(n, ops, homes);
    hide HmacKey, Run;
  }

  // ---------- where one change is too many ----------

  lemma {:induction false} RunConcat(n: Network, first: seq<Op>, second: seq<Op>)
    ensures Run(n, first + second) == Run(Run(n, first), second)
  {
    hide Step;
    if second == [] {
      assert first + second == first;
    } else {
      var init := second[..|second| - 1];
      assert (first + second)[..|first + second| - 1] == first + init;
      RunConcat(n, first, init);
    }
  }

  lemma RunOne(n: Network, op: Op)
    ensures Run(n, [op]) == Step(n, op)
  {
    assert [op][..0] == [];
  }

  /** An undisturbed pairing with a fresh code. */
  function PairOps(i: nat, url: string, code: nat, user: string, meta: Meta): (ops: seq<Op>) {
    [GenerateCode(user), Pair(i, url, code, meta, Smooth, Delivered)]
  }

  /** Bridge `i` of `n'` is the one of `n` after a pairing with `url` that stored secret `v` in the
      place in use. */
  predicate PairedWith(n: Network, n': Network, i: nat, url: string, v: string) {
    && i in n.agents && i in n'.agents
    && var a, a', key := n.agents[i], n'.agents[i], HmacKey(url);
       && a'.store.keychainUp == a.store.keychainUp && a'.store.diskUp == a.store.diskUp
       && url in a'.store.sites && url in a'.store.savedSites && a'.stamps == a.stamps[url := n'.server.clears]
       && (if a.store.keychainUp
           then Lookup(a'.store.keychain, key) == Some(v) && Lookup(a'.store.tokenFile, key) == Lookup(a.store.tokenFile, key)
           else Lookup(a'.store.tokenFile, key) == Some(v) && Lookup(a'.store.keychain, key) == Lookup(a.store.keychain, key))
       && n'.server.clears == n.server.clears && n'.server.nextCode == n.server.nextCode + 1
  }

  lemma PairRun(n: Network, i: nat, url: string, user: string, meta: Meta) returns (v: string)
    requires Born(n.server) && i in n.agents && n.agents[i].store.diskUp && Plain(url)
    ensures var n' := Run(n, PairOps(i, url, n.server.nextCode, user, meta));
            && PairedWith(n, n', i, url, v) && n'.server.registry.secret == Some(v) && Born(n'.server) && Extends(n.server, n'.server)
            && (n.server.registry.secret.Some? ==> n.server.registry.secret == Some(v))
  {
    hide PrintNat, AcceptGrant, Plain, HmacKey;
    var ops := PairOps(i, url, n.server.nextCode, user, meta);
    var n1 := Step(n, ops[0]);
    var n2 := Step(n1, ops[1]);
    RunOne(n, ops[0]);
    RunOne(n1, ops[1]);
    RunConcat(n, [ops[0]], [ops[1]]);
    assert ops == [ops[0]] + [ops[1]];
    hide Run;
    assert Born(n1.server);
    var (server, grant) := ValidateEffect(n1.server, n.server.nextCode, n.agents[i].fingerprint, Smooth);
    ValidateKeepsBorn(n1.server, n.server.nextCode, n.agents[i].fingerprint, Smooth);
    v := grant.value.secret;
    SmoothlyAccepted(n.agents[i], url, grant.value, meta, server.clears);
  }

  lemma SmoothlyAccepted(a: Agent, url: string, g: Grant, meta: Meta, clears: nat)
    requires Plain(url) && a.store.diskUp && g.secret != ""
    ensures var a' := AcceptGrant(a, url, g, meta, clears);
            var key := HmacKey(url);
            && a'.store.keychainUp == a.store.keychainUp && a'.store.diskUp == a.store.diskUp
            && url in a'.store.sites && url in a'.store.savedSites && a'.stamps == a.stamps[url := clears]
            && (if a.store.keychainUp
                then Lookup(a'.store.keychain, key) == Some(g.secret) && Lookup(a'.store.tokenFile, key) == Lookup(a.store.tokenFile, key)
                else Lookup(a'.store.tokenFile, key) == Some(g.secret) && Lookup(a'.store.keychain, key) == Lookup(a.store.keychain, key))
  {
    KeysApart(url, url);
    if g.token != "" { PutElsewhere(a.store, url, g.token, HmacKey(url)); }
    hide HmacKey;
  }

  function Cleared(cleared: bool): (ops: seq<Op>) {
    if cleared then [ClearSecret] else []
  }

  /** Pair, have the keychain change, perhaps have the server's secret cleared, pair again. */
  function PairTwice(n: Network, i: nat, url: string, user: string, meta: Meta, cleared: bool): (ops: seq<Op>) {
    PairOps(i, url, n.server.nextCode, user, meta) + [ToggleKeychain(i)] + Cleared(cleared)
    + PairOps(i, url, n.server.nextCode + 1, user, meta)
  }

  /** After that the one place holds the first secret and the other, in use, the second. */
  lemma PairedTwice(n: Network, i: nat, url: string, user: string, meta: Meta, cleared: bool) returns (first: string, second: string)
    requires Born(n.server) && i in n.agents && n.agents[i].store.diskUp && Plain(url)
    ensures var n' := Run(n, PairTwice(n, i, url, user, meta, cleared));
            && i in n'.agents
            && var a, key := n'.agents[i], HmacKey(url);
               && a.store.keychainUp == !n.agents[i].store.keychainUp && a.store.diskUp
               && url in a.store.sites && url in a.store.savedSites && Stamp(a, url) == Some(n'.server.clears)
               && (if a.store.keychainUp
                   then Lookup(a.store.keychain, key) == Some(second) && Lookup(a.store.tokenFile, key) == Some(first)
                   else Lookup(a.store.tokenFile, key) == Some(second) && Lookup(a.store.keychain, key) == Some(first))
               && n'.server.registry.secret == Some(second) && (first == second <==> !cleared)
  {
    hide HmacKey, ValidateEffect, AcceptGrant, EnsureSecretEffect, Run;
    var one, two := PairOps(i, url, n.server.nextCode, user, meta), PairOps(i, url, n.server.nextCode + 1, user, meta);
    var n1 := Run(n, one);
    first := PairRun(n, i, url, user, meta);
    RunConcat(n, one, [ToggleKeychain(i)]);
    RunOne(n1, ToggleKeychain(i));
    var n2 := Step(n1, ToggleKeychain(i));
    var n3 := AfterClear(n2, cleared);
    RunConcat(n, one + [ToggleKeychain(i)], Cleared(cleared));
    BornAfterClear(n2, cleared, first);
    second := PairRun(n3, i, url, user, meta);
    RunConcat(n, one + [ToggleKeychain(i)] + Cleared(cleared), two);
  }

  lemma {:induction false} ChangesConcat(first: seq<Op>, second: seq<Op>, i: nat)
    ensures Changes(first + second, i) == Changes(first, i) + Changes(second, i)
  {
    if second == [] {
      assert first + second == first;
    } else {
      var init := second[..|second| - 1];
      assert (first + second)[..|first + second| - 1] == first + init;
      ChangesConcat(first, init, i);
    }
  }

  lemma NoChangeIn(ops: seq<Op>, i: nat)
    requires ToggleKeychain(i) !in ops
    ensures Changes(ops, i) == 0
  {
    if ops != [] {
      NoChangeIn(ops[..|ops| - 1], i);
    }
  }

  lemma PairTwiceChangesOnce(n: Network, i: nat, url: string, user: string, meta: Meta, cleared: bool)
    ensures Changes(PairTwice(n, i, url, user, meta, cleared), i) == 1
  {
    var one, two := PairOps(i, url, n.server.nextCode, user, meta), PairOps(i, url, n.server.nextCode + 1, user, meta);
    var toggle := [ToggleKeychain(i)];
    NoChangeIn(one, i);
    NoChangeIn(two, i);
    NoChangeIn(Cleared(cleared), i);
    assert toggle[..0] == [] && Changes(toggle, i) == 1;
    ChangesConcat(one, toggle, i);
    ChangesConcat(one + toggle, Cleared(cleared), i);
    ChangesConcat(one + toggle + Cleared(cleared), two, i);
  }

  function AfterClear(n: Network, cleared: bool): (n': Network) {
    if cleared then Step(n, ClearSecret) else n
  }

  lemma BornAfterClear(n: Network, cleared: bool, v: string)
    requires Born(n.server) && n.server.registry.secret == Some(v)
    ensures var n' := AfterClear(n, cleared);
            && Run(n, Cleared(cleared)) == n' && Born(n'.server) && n'.agents == n.agents && n'.server.nextCode == n.server.nextCode
            && v in n'.server.births && (n'.server.births[v] == n'.server.clears <==> !cleared)
            && (!cleared ==> n'.server.registry.secret == Some(v))
  {
    RunOne(n, ClearSecret);
  }

  /** Two changes of the keychain bring the first secret back, whether the bridge started with the
      keychain or without it: although the last pairing stored the server's secret, what the bridge
      reads is the server's if and only if the server's was not cleared between the pairings. */
  lemma TwoChangesExactlyWhen(n: Network, i: nat, url: string, user: string, meta: Meta, cleared: bool)
    requires Initial(n) && i in n.agents && n.agents[i].store.diskUp && Plain(url)
    ensures Changes(PairTwice(n, i, url, user, meta, cleared) + [ToggleKeychain(i)], i) == 2
    ensures var n' := Run(n, PairTwice(n, i, url, user, meta, cleared) + [ToggleKeychain(i)]);
            && i in n'.agents && Stamp(n'.agents[i], url) == Some(n'.server.clears)
            && SecretOf(n'.agents[i].store, url).Some?
            && (SecretOf(n'.agents[i].store, url) == n'.server.registry.secret <==> !cleared)
  {
    hide HmacKey, PairTwice, Run;
    var ops := PairTwice(n, i, url, user, meta, cleared);
    var first, second := PairedTwice(n, i, url, user, meta, cleared);
    RunConcat(n, ops, [ToggleKeychain(i)]);
    RunOne(Run(n, ops), ToggleKeychain(i));
    PairTwiceChangesOnce(n, i, url, user, meta, cleared);
    assert (ops + [ToggleKeychain(i)])[..|ops|] == ops;
  }

  /** Why the removals must be written: one change is enough if a site is removed while the disk
      fails, and the bridge restarts. */
  lemma FailedRemovalUncovers(n: Network, i: nat, url: string, user: string, meta: Meta)
    requires Initial(n) && i in n.agents && n.agents[i].store.diskUp && !n.agents[i].store.keychainUp && Plain(url)
    ensures Changes(PairTwice(n, i, url, user, meta, true) + [Disk(i, false), RemoveSite(i, url), Restart(i)], i) == 1
    ensures var n' := Run(n, PairTwice(n, i, url, user, meta, true) + [Disk(i, false), RemoveSite(i, url), Restart(i)]);
            && i in n'.agents && Stamp(n'.agents[i], url) == Some(n'.server.clears)
            && SecretOf(n'.agents[i].store, url).Some? && SecretOf(n'.agents[i].store, url) != n'.server.registry.secret
  {
    KeysApart(url, url);
    hide HmacKey, PairTwice, Run;
    var ops := PairTwice(n, i, url, user, meta, true);
    var first, second := PairedTwice(n, i, url, user, meta, true);
    var n1 := Run(n, ops);
    var n2 := Step(n1, Disk(i, false));
    var n3 := Step(n2, RemoveSite(i, url));
    RunConcat(n, ops, [Disk(i, false)]);
    RunOne(n1, Disk(i, false));
    RunConcat(n, ops + [Disk(i, false)], [RemoveSite(i, url)]);
    RunOne(n2, RemoveSite(i, url));
    RunConcat(n, ops + [Disk(i, false)] + [RemoveSite(i, url)], [Restart(i)]);
    RunOne(n3, Restart(i));
    PairTwiceChangesOnce(n, i, url, user, meta, true);
    NoChangeIn([Disk(i, false), RemoveSite(i, url), Restart(i)], i);
    ChangesConcat(ops, [Disk(i, false), RemoveSite(i, url), Restart(i)], i);
    assert ops + [Disk(i, false)] + [RemoveSite(i, url)] + [Restart(i)] == ops + [Disk(i, false), RemoveSite(i, url), Restart(i)];
  }
}
