/** One server with its bridges: the signing endpoints of `Lifecycle` and the handshakes of `Pairing`
    interleave, and read and write the same HMAC secret. */
module Deployment {
  import opened Wrappers
  import opened Text
  import opened Records
  import Lifecycle
  import Evidence
  import opened Authenticity
  import opened Protocol
  import Keystore
  import Pairing

  datatype System = System(world: World, net: Pairing.Network)

  datatype Move = Endpoint(call: Call) | Handshake(op: Pairing.Op)

  /** The server as its endpoints see it: an `initiate` that has to create the secret draws it from
      the same source as pairing, and the secret is set by handshakes only. */
  function CallOf(g: System, move: Move): (c: Call) {
    match move
    case Endpoint(call) =>
      (match call
       case Initiate(i) => Initiate(i.(freshSecret := PrintNat(g.net.server.nextSecret)))
       case SecretSet(_) => SecretSet(g.world.db.secret)
       case _ => call)
    case Handshake(op) =>
      (match op
       case Tick(seconds) => Tick(seconds)
       case _ => SecretSet(Pairing.Step(g.net, op).server.registry.secret))
  }

  /** The same move as pairing sees it. */
  function OpOf(g: System, move: Move): (op: Pairing.Op) {
    match move
    case Endpoint(call) =>
      (match call
       case Initiate(_) =>
         if Lifecycle.EffectOf(g.world, CallOf(g, move)).reply.Issued? then Pairing.UseSecret else Pairing.Tick(0)
       case Tick(seconds) => Pairing.Tick(seconds)
       case _ => Pairing.Tick(0))
    case Handshake(op) => op
  }

  function Step(g: System, move: Move): (g': System) {
    System(Lifecycle.Apply(g.world, CallOf(g, move)), Pairing.Step(g.net, OpOf(g, move)))
  }

  function Run(g: System, moves: seq<Move>): (g': System) {
    if moves == [] then g else Step(Run(g, moves[..|moves| - 1]), moves[|moves| - 1])
  }

  function CallsOf(g: System, moves: seq<Move>): (calls: seq<Call>) {
    if moves == [] then []
    else CallsOf(g, moves[..|moves| - 1]) + [CallOf(Run(g, moves[..|moves| - 1]), moves[|moves| - 1])]
  }

  function OpsOf(g: System, moves: seq<Move>): (ops: seq<Pairing.Op>) {
    if moves == [] then []
    else OpsOf(g, moves[..|moves| - 1]) + [OpOf(Run(g, moves[..|moves| - 1]), moves[|moves| - 1])]
  }

  predicate Sensible(moves: seq<Move>, homes: set<string>) {
    forall k :: 0 <= k < |moves| && moves[k].Handshake? ==> Pairing.Sensible(moves[k].op, homes)
  }

  lemma {:induction false} OpsAreSensible(g: System, moves: seq<Move>, homes: set<string>)
    requires Sensible(moves, homes)
    ensures Pairing.AllSensible(OpsOf(g, moves), homes)
  {
    hide Run;
    if moves != [] {
      OpsAreSensible(g, moves[..|moves| - 1], homes);
    }
  }

  /** A run of the whole is a run of the endpoints beside a run of the handshakes. */
  lemma {:induction false} RunsSideBySide(g: System, moves: seq<Move>, homes: set<string>)
    ensures Run(g, moves) == System(Lifecycle.Run(g.world, CallsOf(g, moves)), Pairing.Run(g.net, OpsOf(g, moves)))
    ensures Sensible(moves, homes) ==> Pairing.AllSensible(OpsOf(g, moves), homes)
  {
    if Sensible(moves, homes) { OpsAreSensible(g, moves, homes); }
    if moves != [] {
      var init, last := moves[..|moves| - 1], moves[|moves| - 1];
      hide CallOf, OpOf, Lifecycle.Apply, Lifecycle.Run, Pairing.Step, Pairing.AllSensible, Sensible;
      RunsSideBySide(g, init, homes);
      RunSnoc(g.world, CallsOf(g, init), CallOf(Run(g, init), last));
      Pairing.RunSnoc(g.net, OpsOf(g, init), OpOf(Run(g, init), last));
      hide Pairing.Run;
    }
  }

  // ---------- one secret, one clock ----------

  predicate OneServer(g: System) {
    g.world.db.secret == g.net.server.registry.secret && g.world.now == g.net.server.now
  }

  predicate Initial(g: System) {
    Evidence.Initial(g.world) && Pairing.Initial(g.net) && OneServer(g)
  }

  /** Which calls write the secret, and which one the clock. */
  lemma SecretAfter(w: World, c: Call)
    ensures var e := Lifecycle.EffectOf(w, c);
            && e.world.now == w.now + (if c.Tick? then c.seconds else 0)
            && e.world.db.secret ==
               if c.SecretSet? then c.secret
               else if c.Initiate? && e.reply.Issued? && w.db.secret.None? then Some(c.i.freshSecret)
               else w.db.secret
  {
    hide Lifecycle.InitiateCheck, Lifecycle.Minted, Lifecycle.AttrsFor, Lifecycle.WithDocumentStatus, Lifecycle.StaleFor,
         Lifecycle.TimedOut, Lifecycle.Purgeable, Lifecycle.HasOpenRequest, Lifecycle.Complete, Lifecycle.RuleHasRequest,
         Lifecycle.Allowed, Lifecycle.FinalizedRow, Lifecycle.FinalizedDocuments, Lifecycle.NewFile, Lifecycle.FinalizeEvents,
         Lifecycle.InitiateEvents, Lifecycle.RuleEvents, Lifecycle.Mismatch, Lifecycle.FailureReason, Lifecycle.FinalizeError;
  }

  lemma ClockAfter(n: Pairing.Network, op: Pairing.Op)
    ensures Pairing.Step(n, op).server.now == n.server.now + (if op.Tick? then op.seconds else 0)
    ensures op.Tick? ==> Pairing.Step(n, op).server.registry == n.server.registry
  {
    hide Pairing.AcceptGrant, Keystore.RemoveSiteEffect;
  }

  lemma OneServerStep(g: System, move: Move)
    requires OneServer(g) && Pairing.Born(g.net.server)
    ensures OneServer(Step(g, move))
  {
    SecretAfter(g.world, CallOf(g, move));
    ClockAfter(g.net, OpOf(g, move));
    hide Lifecycle.EffectOf;
    assert Lifecycle.Apply(g.world, CallOf(g, move)) == Lifecycle.EffectOf(g.world, CallOf(g, move)).world;
    if OpOf(g, move).UseSecret? {
      assert g.net.server.registry.secret.Some? ==> g.net.server.registry.secret.value != "";
      hide Lifecycle.Apply;
    } else {
      hide Lifecycle.Apply, Pairing.Step;
    }
  }

  /** In every reachable state endpoints and handshakes have the same secret and the same time. */
  lemma {:induction false} AlwaysOneServer(g: System, moves: seq<Move>, homes: set<string>)
    requires Initial(g) && Sensible(moves, homes)
    ensures OneServer(Run(g, moves))
  {
    hide Step, Pairing.Born;
    if moves != [] {
      var init, last := moves[..|moves| - 1], moves[|moves| - 1];
      AlwaysOneServer(g, init, homes);
      RunsSideBySide(g, init, homes);
      Pairing.AlwaysBorn(g.net, OpsOf(g, init), homes);
      OneServerStep(Run(g, init), last);
    }
  }

  // ---------- what a paired bridge signs ----------

  /** What the gate sees of a paired site. */
  function ViewOf(a: Pairing.Agent, url: string): (site: SiteView) {
    SiteView(url in a.store.sites, Keystore.TokenOf(a.store, url), Keystore.SecretOf(a.store, url))
  }

  /** Only the server makes tags under the secrets that it has created. */
  ghost predicate Genuine(t: Texts, g: System, moves: seq<Move>, req: SignRequest) {
    req.hmac.Hex? && req.hmac.mac.key in Run(g, moves).net.server.births ==>
      OnlyServerTags(t, g.world, CallsOf(g, moves), req.hmac.mac.key, req)
  }

  /** What is read for a home of this server is one of its secrets, and the gate checks it. */
  lemma HeldSecretIsBorn(g: System, moves: seq<Move>, homes: set<string>, i: nat, url: string)
    requires Initial(g) && Sensible(moves, homes) && url in homes && Keystore.Plain(url) && i in Run(g, moves).net.agents
    requires Keystore.SecretOf(Run(g, moves).net.agents[i].store, url).Some?
    ensures var site := ViewOf(Run(g, moves).net.agents[i], url);
            StoredSecret(site) && site.secret.value in Run(g, moves).net.server.births
  {
    hide Run, Pairing.Run;
    RunsSideBySide(g, moves, homes);
    Pairing.HeldSecretIsServersExactlyWhen(g.net, OpsOf(g, moves), homes, i, url);
    Pairing.AlwaysBorn(g.net, OpsOf(g, moves), homes);
  }

  /** Whatever was lost, whatever keychain and disk did and however often the secret was cleared, a
      bridge that has a secret for a home of this server signs only what an authorised `initiate`
      of this server fixed within the minute, under the very secret that the bridge reads. */
  lemma PairedBridgeSignsAuthorised(t: Texts, g: System, moves: seq<Move>, homes: set<string>, i: nat, url: string,
                                    token: string, req: SignRequest, now: int)
    returns (j: nat)
    requires Initial(g) && Readable(t) && Free(Lifecycle.Algorithm(g.world.settings), '|')
    requires Sensible(moves, homes) && url in homes && Keystore.Plain(url) && Genuine(t, g, moves, req)
    requires var n := Run(g, moves).net;
             i in n.agents && Accepted(ViewOf(n.agents[i], url), url, token, req, now)
             && Keystore.SecretOf(n.agents[i].store, url).Some?
    ensures SignsFor(t, g.world, CallsOf(g, moves), j, req.message,
                     Keystore.SecretOf(Run(g, moves).net.agents[i].store, url).value, now)
  {
    HeldSecretIsBorn(g, moves, homes, i, url);
    var site := ViewOf(Run(g, moves).net.agents[i], url);
    TagIsUnderHeldSecret(site, url, token, req, now);
    hide Accepted, SignsFor, Run, StoredSecret, Readable;
    j := AcceptedMeansAuthorised(t, g.world, CallsOf(g, moves), site, url, token, req, now);
  }

  lemma TagIsUnderHeldSecret(site: SiteView, origin: string, token: string, req: SignRequest, now: int)
    requires StoredSecret(site) && Accepted(site, origin, token, req, now)
    ensures req.hmac.Hex? && req.hmac.mac.key == site.secret.value
  {
  }

  /** The other direction: message `m` that the server issued under a secret it still has passes at a
      bridge, with at most one change of its keychain, if and only if the secret was not cleared
      since the last pairing that stored one there, the minute is open and the algorithm supported. */
  lemma IssuedIsAcceptedExactlyWhen(t: Texts, g: System, moves: seq<Move>, homes: set<string>, i: nat, url: string,
                                    token: string, req: SignRequest, now: int, j: nat)
    requires Initial(g) && Sensible(moves, homes) && url in homes && Keystore.Plain(url) && i in g.net.agents
    requires var ops := OpsOf(g, moves);
             Pairing.Changes(ops, i) <= 1
             && (g.net.agents[i].store.keychainUp || Pairing.Changes(ops, i) == 0 || Pairing.RemovalsWritten(g.net, ops, i))
    requires var g' := Run(g, moves);
             && g'.world.db.secret.Some? && IssuedBy(t, g.world, CallsOf(g, moves), j, req.message, g'.world.db.secret.value)
             && req.hmac == Hex(Mac(g'.world.db.secret.value, Payload(req.message)))
    ensures i in Run(g, moves).net.agents
    ensures var g' := Run(g, moves);
            var a := g'.net.agents[i];
            OriginAdmitted(ViewOf(a, url), url, token) && Keystore.SecretOf(a.store, url).Some? ==>
              && url in a.stamps
              && (Accepted(ViewOf(a, url), url, token, req, now)
                  <==> && a.stamps[url] == g'.net.server.clears
                       && AlgorithmSupported(req.message.algorithm) && req.message.nonce != ""
                       && req.message.timestamp > 0 && -WINDOW <= now - req.message.timestamp <= WINDOW)
  {
    hide Run, Pairing.Run, Pairing.RemovalsWritten, Pairing.Changes, IssuedBy, Accepted, Payload;
    RunsSideBySide(g, moves, homes);
    Pairing.HeldSecretIsServers(g.net, OpsOf(g, moves), homes, i, url);
    AlwaysOneServer(g, moves, homes);
    var a := Run(g, moves).net.agents[i];
    if OriginAdmitted(ViewOf(a, url), url, token) && Keystore.SecretOf(a.store, url).Some? {
      HeldSecretIsBorn(g, moves, homes, i, url);
      AcceptedExactlyWhen(ViewOf(a, url), url, token, req, now);
    }
  }
}
