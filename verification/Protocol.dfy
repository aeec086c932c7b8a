/** The protocol from end to end: what a request that the server shows as Signed, and a signature
    that a bridge grants, say about the `initiate` that started it. */
module Protocol {
  import opened Wrappers
  import opened Text
  import opened Records
  import opened Lifecycle
  import opened Evidence
  import opened Binding
  import opened Authenticity

  // ---------- where sessions come from ----------

  /** Call `j` of the run is the `initiate` that stored session `sid` as `s`. */
  ghost predicate MintedBy(w0: World, calls: seq<Call>, j: nat, sid: SessionId, s: Session) {
    && j < |calls| && calls[j].Initiate? && !calls[j].i.fault.BeforeSessionStored?
    && var w := Run(w0, calls[..j]);
       InitiateCheck(w, calls[j].i).None? && sid == w.nextSession && s == Minted(w, calls[j].i)
  }

  ghost predicate WasMinted(w0: World, calls: seq<Call>, sid: SessionId, s: Session) {
    exists j: nat :: MintedBy(w0, calls, j, sid, s)
  }

  /** File `file` was made from a session that an `initiate` of the run stored for request `r`. */
  ghost predicate Grounded(w0: World, calls: seq<Call>, file: SignedFile, r: RequestId) {
    exists s :: WasMinted(w0, calls, file.origin, s) && s.request == r && MadeFrom(file, s)
  }

  ghost predicate Traced(w0: World, calls: seq<Call>) {
    var w := Run(w0, calls);
    && (forall sid :: sid in w.cache ==> WasMinted(w0, calls, sid, w.cache[sid]))
    && (forall r :: r in w.db.requests && w.db.requests[r].signedFile.Some? ==>
          w.db.requests[r].signedFile.value < |w.db.files|
          && Grounded(w0, calls, w.db.files[w.db.requests[r].signedFile.value], r))
  }

  lemma RunSnoc(w0: World, calls: seq<Call>, c: Call)
    ensures Run(w0, calls + [c]) == Apply(Run(w0, calls), c)
  {
    hide Apply;
    RunAppend(w0, calls, [c]);
    assert [c][1..] == [];
  }

  lemma MintedStays(w0: World, calls: seq<Call>, c: Call, sid: SessionId, s: Session)
    requires WasMinted(w0, calls, sid, s)
    ensures WasMinted(w0, calls + [c], sid, s)
  {
    hide Minted, InitiateCheck, Run;
    var j: nat :| MintedBy(w0, calls, j, sid, s);
    assert (calls + [c])[..j] == calls[..j];
    assert MintedBy(w0, calls + [c], j, sid, s);
  }

  lemma GroundedStays(w0: World, calls: seq<Call>, c: Call, file: SignedFile, r: RequestId)
    requires Grounded(w0, calls, file, r)
    ensures Grounded(w0, calls + [c], file, r)
  {
    hide WasMinted, MadeFrom;
    var s :| WasMinted(w0, calls, file.origin, s) && s.request == r && MadeFrom(file, s);
    MintedStays(w0, calls, c, file.origin, s);
  }

  lemma MintedNow(w0: World, calls: seq<Call>, c: Call, sid: SessionId)
    requires c.Initiate? && !c.i.fault.BeforeSessionStored?
    requires var w := Run(w0, calls); InitiateCheck(w, c.i).None? && sid == w.nextSession
    ensures WasMinted(w0, calls + [c], sid, Minted(Run(w0, calls), c.i))
  {
    assert c.i.found.Some?;
    hide Minted, InitiateCheck, Run;
    assert (calls + [c])[..|calls|] == calls;
    assert MintedBy(w0, calls + [c], |calls|, sid, Minted(Run(w0, calls), c.i));
  }

  /** A row names the file it had, or the one that this `finalize` of its own session saved. */
  lemma SignedFileAfter(w: World, c: Call, r: RequestId)
    requires Named(w) && r in Apply(w, c).db.requests && Apply(w, c).db.requests[r].signedFile.Some?
    ensures || (r in w.db.requests && w.db.requests[r].signedFile == Apply(w, c).db.requests[r].signedFile)
            || (c.Finalize? && Live(w, c.f.session) && w.cache[c.f.session].request == r
                && Apply(w, c).db.requests[r].signedFile == Some(|w.db.files|)
                && Apply(w, c).db.files == w.db.files + [NewFile(w, c.f)])
  {
    hide FinalizeEvents, FinalizedDocuments, NewFile, FailureReason, FinalizeError, InitiateEvents, Minted, AttrsFor,
         WithDocumentStatus, StaleFor, TimedOut, Purgeable, HasOpenRequest, Complete, RuleEvents, RuleHasRequest, Allowed;
  }

  lemma NewFileIsGrounded(w0: World, calls: seq<Call>, f: FinalizeCall, w: World)
    requires f.session in w.cache && WasMinted(w0, calls, f.session, w.cache[f.session])
    ensures Grounded(w0, calls, NewFile(w, f), w.cache[f.session].request)
  {
    hide WasMinted;
    assert MadeFrom(NewFile(w, f), w.cache[f.session]);
  }

  lemma NotStoredBefore(w: World, i: InitiateCall)
    ensures i.fault.BeforeSessionStored? ==> Apply(w, Initiate(i)).nextSession == w.nextSession
  {
  }

  lemma TracedStep(w0: World, calls: seq<Call>, c: Call)
    requires Named(Run(w0, calls)) && Traced(w0, calls)
    ensures Traced(w0, calls + [c])
  {
    hide Apply, Run, Named, WasMinted, Grounded, NewFile, Minted, InitiateCheck;
    var w := Run(w0, calls);
    var w' := Apply(w, c);
    RunSnoc(w0, calls, c);
    forall sid | sid in w'.cache
      ensures WasMinted(w0, calls + [c], sid, w'.cache[sid])
    {
      CacheAfter(w, c, sid);
      if sid in w.cache && w'.cache[sid] == w.cache[sid] {
        MintedStays(w0, calls, c, sid, w.cache[sid]);
      } else {
        NotStoredBefore(w, c.i);
        MintedNow(w0, calls, c, sid);
      }
    }
    forall r | r in w'.db.requests && w'.db.requests[r].signedFile.Some?
      ensures w'.db.requests[r].signedFile.value < |w'.db.files|
      ensures Grounded(w0, calls + [c], w'.db.files[w'.db.requests[r].signedFile.value], r)
    {
      SignedFileAfter(w, c, r);
      TrailsGrow(w, c);
      var k := w'.db.requests[r].signedFile.value;
      if r in w.db.requests && w.db.requests[r].signedFile == Some(k) {
        GroundedStays(w0, calls, c, w.db.files[k], r);
      } else {
        MintedStays(w0, calls, c, c.f.session, w.cache[c.f.session]);
        NewFileIsGrounded(w0, calls + [c], c.f, w);
      }
    }
  }

  lemma {:induction false} AlwaysTraced(w0: World, calls: seq<Call>)
    requires Initial(w0)
    ensures Traced(w0, calls) && Sound(Run(w0, calls))
  {
    hide Apply;
    EveryStateIsSound(w0, calls);
    if calls != [] {
      var init, last := calls[..|calls| - 1], calls[|calls| - 1];
      AlwaysTraced(w0, init);
      TracedStep(w0, init, last);
      assert calls == init + [last];
    }
  }

  // ---------- every saved file has its attempt ----------

  /** Call `j` of the run is the `finalize` that saved file `k`: right after it the request of its
      session is Signed and names the file, or it is Failed. */
  ghost predicate SavedBy(w0: World, calls: seq<Call>, j: nat, k: nat, file: SignedFile) {
    && j < |calls| && calls[j].Finalize?
    && var w, f := Run(w0, calls[..j]), calls[j].f;
       && Live(w, f.session) && f.session == file.origin && |w.db.files| == k
       && var w', r := Apply(w, calls[j]), w.cache[f.session].request;
          && w'.db.files == w.db.files + [file] && r in w'.db.requests
          && ((w'.db.requests[r].status == Signed && w'.db.requests[r].signedFile == Some(k)) || w'.db.requests[r].status == Failed)
  }

  lemma NewFileIsSaved(w0: World, calls: seq<Call>, c: Call)
    requires var w := Run(w0, calls); Apply(w, c).db.files != w.db.files
    ensures var w := Run(w0, calls);
            |Apply(w, c).db.files| == |w.db.files| + 1
            && SavedBy(w0, calls + [c], |calls|, |w.db.files|, Apply(w, c).db.files[|w.db.files|])
  {
    var w := Run(w0, calls);
    hide Run, FinalizeEvents, FinalizedDocuments, BuildCms, AttachedTo;
    FilesAfter(w, c);
    assert (calls + [c])[..|calls|] == calls;
  }

  /** Over every run each saved file comes from one attempt, which left its request Signed and
      naming the file, or Failed. */
  lemma {:induction false} EveryFileHasItsAttempt(w0: World, calls: seq<Call>, k: nat) returns (j: nat)
    requires Initial(w0) && k < |Run(w0, calls).db.files|
    ensures SavedBy(w0, calls, j, k, Run(w0, calls).db.files[k])
  {
    hide Apply, SavedBy;
    if calls == [] {
      assert false;
    } else {
      var init, last := calls[..|calls| - 1], calls[|calls| - 1];
      assert calls == init + [last];
      RunSnoc(w0, init, last);
      TrailsGrow(Run(w0, init), last);
      if k < |Run(w0, init).db.files| {
        j := EveryFileHasItsAttempt(w0, init, k);
        SavedStays(w0, init, last, j, k, Run(w0, init).db.files[k]);
      } else {
        j := |init|;
        NewFileIsSaved(w0, init, last);
      }
    }
  }

  lemma SavedStays(w0: World, calls: seq<Call>, c: Call, j: nat, k: nat, file: SignedFile)
    requires SavedBy(w0, calls, j, k, file)
    ensures SavedBy(w0, calls + [c], j, k, file)
  {
    hide Apply, Run;
    assert (calls + [c])[..j] == calls[..j];
  }

  /** A signed PDF that no request names: in a reachable state an attempt leaves one exactly when
      the exception strikes between saving the verified PDF and writing the row. */
  lemma UnnamedFileExactlyWhen(w0: World, calls: seq<Call>, f: FinalizeCall)
    requires Initial(w0)
    requires var w := Run(w0, calls); Reaches(w, f) && !Mismatch(w.db, w.db.requests[w.cache[f.session].request], f.cert)
    ensures var w := Run(w0, calls);
            var w' := Apply(w, Finalize(f));
            (|w'.db.files| > |w.db.files|
             && forall r :: r in w'.db.requests ==> w'.db.requests[r].signedFile != Some(|w.db.files|))
            <==> Verified(f.verification) && f.fault.RowFails?
  {
    AlwaysTraced(w0, calls);
    var w := Run(w0, calls);
    hide Run, Grounded, WasMinted, FinalizeEvents, FinalizedDocuments, NewFile, FailureReason;
    var w' := Apply(w, Finalize(f));
    assert w'.db == FinalizeDb(w, f);
    var r := w.cache[f.session].request;
    assert r in w'.db.requests;
  }

  // ---------- Signed goes back to an authorised initiate ----------

  /** Call `j` was an `initiate` that passed every check on its user, for the Pending request `r`: the
      expected signer or somebody with write permission, allowed by an active and unexpired profile,
      with the registered certificate, and located where that is enforced. */
  ghost predicate Authorised(w0: World, calls: seq<Call>, j: nat, r: RequestId) {
    && j < |calls| && calls[j].Initiate? && calls[j].i.found == Some(r)
    && var w := Run(w0, calls[..j]);
       var i := calls[j].i;
       && r in w.db.requests && Matches(w.db.requests[r], i.doctype, i.docname, Pending)
       && (w.db.requests[r].expectedSigner in {"", i.user} || i.mayWrite)
       && (w.settings.enforceLocation ==> i.located)
       && w.db.requests[r].profile in w.db.profiles
       && var profile := w.db.profiles[w.db.requests[r].profile];
          && profile.active
          && (i.user in profile.allowedUsers || forall u :: u in profile.allowedUsers ==> u == "")
          && (profile.notAfterDay.Some? ==> w.now / SECONDS_PER_DAY <= profile.notAfterDay.value)
          && (profile.fingerprint.Some? ==> profile.fingerprint.value.digest == Some(CertDigest(i.cert)))
  }

  lemma MintedIsAuthorised(w0: World, calls: seq<Call>, j: nat, sid: SessionId, s: Session)
    requires MintedBy(w0, calls, j, sid, s)
    ensures Authorised(w0, calls, j, s.request)
  {
    var w := Run(w0, calls[..j]);
    hide Run;
    var profile := w.db.profiles[w.db.requests[s.request].profile];
    assert forall u :: u in NamedUsers(profile) <==> u in profile.allowedUsers && u != "";
  }

  /** Call `k` of the run is the `finalize` that signed request `r`, with session `s`. */
  ghost predicate SignedBy(w0: World, calls: seq<Call>, k: nat, r: RequestId, s: Session) {
    && k < |calls| && calls[k].Finalize?
    && var w, f := Run(w0, calls[..k]), calls[k].f;
       && Reaches(w, f) && w.cache[f.session] == s && s.request == r && r in w.db.requests
       && Succeeds(f) && !Mismatch(w.db, w.db.requests[r], f.cert)
  }

  /** The row that a signing `finalize` leaves, and the file that it saves. */
  lemma SignedRowAfter(w: World, f: FinalizeCall)
    requires Reaches(w, f) && Succeeds(f) && !Mismatch(w.db, w.db.requests[w.cache[f.session].request], f.cert)
    ensures var s := w.cache[f.session];
            var db := Apply(w, Finalize(f)).db;
            && s.request in db.requests
            && db.requests[s.request] == SignedRow(w.db.requests[s.request], f, s, |w.db.files|, w.now)
            && db.files == w.db.files + [NewFile(w, f)]
  {
    hide FinalizeEvents, FinalizedDocuments, NewFile, SignedRow;
  }

  lemma {:induction false} FilesStay(w: World, calls: seq<Call>)
    ensures w.db.files <= Run(w, calls).db.files
    decreases |calls|
  {
    hide Apply;
    if calls != [] {
      TrailsGrow(w, calls[0]);
      FilesStay(Apply(w, calls[0]), calls[1..]);
    }
  }

  /** A Signed row stands as the last `finalize` that signed it left it. */
  lemma {:induction false} SignedByCall(w0: World, calls: seq<Call>, r: RequestId) returns (k: nat, s: Session)
    requires Initial(w0)
    requires r in Run(w0, calls).db.requests && Run(w0, calls).db.requests[r].status == Signed
    ensures SignedBy(w0, calls, k, r, s)
    ensures Run(w0, calls[..k + 1]).db.requests.Keys >= {r} && Run(w0, calls[..k + 1]).db.requests[r] == Run(w0, calls).db.requests[r]
  {
    hide Apply, SignedBy, Mismatch;
    if calls == [] {
      assert false;
    } else {
      var init, last := calls[..|calls| - 1], calls[|calls| - 1];
      assert calls == init + [last];
      RunSnoc(w0, init, last);
      SignedOnlyByFinalize(Run(w0, init), last, r);
      if r in Run(w0, init).db.requests && Run(w0, init).db.requests[r] == Run(w0, calls).db.requests[r] {
        k, s := SignedByCall(w0, init, r);
        SignedByStays(w0, init, last, k, r, s);
      } else {
        k := |init|;
        s := Run(w0, init).cache[last.f.session];
        SignsNow(w0, init, last, r);
        assert calls[..k + 1] == calls;
      }
    }
  }

  lemma SignedByStays(w0: World, calls: seq<Call>, c: Call, k: nat, r: RequestId, s: Session)
    requires SignedBy(w0, calls, k, r, s)
    ensures SignedBy(w0, calls + [c], k, r, s) && (calls + [c])[..k + 1] == calls[..k + 1]
  {
    hide Run, Reaches, Mismatch;
    assert (calls + [c])[..k] == calls[..k];
  }

  lemma SignsNow(w0: World, calls: seq<Call>, c: Call, r: RequestId)
    requires c.Finalize? && Reaches(Run(w0, calls), c.f) && Run(w0, calls).cache[c.f.session].request == r
    requires Succeeds(c.f) && !Mismatch(Run(w0, calls).db, Run(w0, calls).db.requests[r], c.f.cert)
    ensures SignedBy(w0, calls + [c], |calls|, r, Run(w0, calls).cache[c.f.session])
  {
    hide Run, Mismatch;
    assert (calls + [c])[..|calls|] == calls;
  }

  /** The session that a call used comes from an earlier `initiate`. */
  lemma UsedSessionWasMinted(w0: World, calls: seq<Call>, k: nat, r: RequestId, s: Session) returns (j: nat)
    requires Initial(w0) && SignedBy(w0, calls, k, r, s)
    ensures j < k && MintedBy(w0, calls, j, calls[k].f.session, s)
  {
    hide Run, InitiateCheck, Minted, Mismatch, Grounded;
    var before := calls[..k];
    AlwaysTraced(w0, before);
    j :| MintedBy(w0, before, j, calls[k].f.session, s);
    assert before[..j] == calls[..j];
  }

  /** The file of a Signed row is the one that the signing call saved. */
  lemma SignedFileIsKept(w0: World, calls: seq<Call>, k: nat, r: RequestId, s: Session)
    requires SignedBy(w0, calls, k, r, s)
    ensures var w, f := Run(w0, calls[..k]), calls[k].f;
            && r in Run(w0, calls[..k + 1]).db.requests
            && Run(w0, calls[..k + 1]).db.requests[r] == SignedRow(w.db.requests[r], f, s, |w.db.files|, w.now)
            && |w.db.files| < |Run(w0, calls).db.files| && Run(w0, calls).db.files[|w.db.files|] == NewFile(w, f)
  {
    hide Run, Mismatch, NewFile, SignedRow, Apply;
    var w := Run(w0, calls[..k]);
    SignedRowAfter(w, calls[k].f);
    RunSnoc(w0, calls[..k], calls[k]);
    assert calls[..k] + [calls[k]] == calls[..k + 1];
    RunAppend(w0, calls[..k + 1], calls[k + 1..]);
    assert calls[..k + 1] + calls[k + 1..] == calls;
    FilesStay(Run(w0, calls[..k + 1]), calls[k + 1..]);
  }

  /** Every Signed request of every reachable state: call `j` of the run was an authorised `initiate`
      for this very request, when it was Pending, and a later call `k`, within the session's 600
      seconds, signed it. The request's file holds the PDF prepared in `j`, and its CMS names the
      certificate presented then and carries the signature bytes on the row, over attributes with
      the signing time and the digest of that PDF. The recorded signer is whoever made call `k`:
      the authorised one if and only if the same user made both. */
  lemma SignedMeansAuthorised(w0: World, calls: seq<Call>, r: RequestId) returns (j: nat, k: nat)
    requires Initial(w0)
    requires r in Run(w0, calls).db.requests && Run(w0, calls).db.requests[r].status == Signed
    ensures Evidenced(Run(w0, calls).db, r) && j < k && Authorised(w0, calls, j, r) && k < |calls| && calls[k].Finalize?
    ensures var row := Run(w0, calls).db.requests[r];
            var file := Run(w0, calls).db.files[row.signedFile.value];
            var i := calls[j].i;
            && file.doctype == i.doctype && file.docname == i.docname && file.content.prepared == i.prepared
            && file.content.cms.signer == i.cert && row.fingerprint == Some(CertDigest(i.cert))
            && row.signatureBytes == Some(file.content.cms.signature) && file.content.cms.signature == calls[k].f.signature
            && file.content.cms.attrs == AttrsFor(Run(w0, calls[..j]), i)
            && row.signedOn == Some(Run(w0, calls[..k]).now) && row.signedOn.value < Run(w0, calls[..j]).now + SESSION_TTL
            && row.actualSigner == Some(calls[k].f.user) && (row.actualSigner == Some(i.user) <==> calls[k].f.user == i.user)
  {
    hide Run, InitiateCheck, Logged, Mismatch;
    var s;
    k, s := SignedByCall(w0, calls, r);
    j := UsedSessionWasMinted(w0, calls, k, r, s);
    MintedIsAuthorised(w0, calls, j, calls[k].f.session, s);
    SignedFileIsKept(w0, calls, k, r, s);
    AlwaysTraced(w0, calls);
  }

  /** `finalize` checks nothing about the user who calls it: made by another user, the same call
      leaves the same world but for the signer it records. */
  lemma AnyUserMayFinalize(w: World, f: FinalizeCall, u: string)
    ensures var e, e' := EffectOf(w, Finalize(f)), EffectOf(w, Finalize(f.(user := u)));
            && e'.reply == e.reply
            && (Reaches(w, f) && SignsRow(f) && !Mismatch(w.db, w.db.requests[w.cache[f.session].request], f.cert) ==>
                  var r := w.cache[f.session].request;
                  && r in e.world.db.requests
                  && e'.world == e.world.(db := e.world.db.(requests :=
                       e.world.db.requests[r := e.world.db.requests[r].(actualSigner := Some(u))])))
            && (!(Reaches(w, f) && SignsRow(f) && !Mismatch(w.db, w.db.requests[w.cache[f.session].request], f.cert)) ==>
                  e'.world == e.world)
  {
    hide Mismatch, BuildCms, AttachedTo;
    var g := f.(user := u);
    if Reaches(w, f) {
      var r := w.cache[f.session].request;
      assert FinalizeEvents(f, r, w.now) == FinalizeEvents(g, r, w.now);
      assert SavesFile(f) == SavesFile(g) && SignsRow(f) == SignsRow(g) && NewFile(w, f) == NewFile(w, g);
      assert FinalizedDocuments(w, f) == FinalizedDocuments(w, g);
      if !SignsRow(f) { assert FinalizedRow(w, f) == FinalizedRow(w, g); }
    }
  }

  // ---------- what the bridge signs ----------

  /** How the server writes sessions, digests and nonces into a message. */
  datatype Texts = Texts(session: SessionId -> string, hash: Digest -> string, nonce: SessionId -> string)

  ghost predicate Readable(t: Texts) {
    && (forall sid :: Free(t.session(sid), '|') && Free(t.nonce(sid), '|'))
    && (forall d :: Free(t.hash(d), '|'))
    && (forall sid, sid' :: t.session(sid) == t.session(sid') ==> sid == sid')
    && (forall d, d' :: t.hash(d) == t.hash(d') ==> d == d')
  }

  function MessageOf(t: Texts, reply: Reply): (m: Message)
    requires reply.Issued?
  {
    Message(t.session(reply.session), t.hash(reply.hash), reply.algorithm, reply.timestamp, t.nonce(reply.session))
  }

  /** Call `j` of the run returned message `m` to the browser, with a tag under `secret`, the one in
      the database when the call returned. */
  ghost predicate IssuedBy(t: Texts, w0: World, calls: seq<Call>, j: nat, m: Message, secret: string) {
    && j < |calls| && calls[j].Initiate?
    && var e := EffectOf(Run(w0, calls[..j]), calls[j]);
       e.reply.Issued? && m == MessageOf(t, e.reply) && e.world.db.secret == Some(secret)
  }

  /** Only the server makes tags under `secret`, and only for what it issues. */
  ghost predicate OnlyServerTags(t: Texts, w0: World, calls: seq<Call>, secret: string, req: SignRequest) {
    req.hmac.Hex? && req.hmac.mac.key == secret ==>
      exists j: nat, m :: IssuedBy(t, w0, calls, j, m, secret) && Payload(m) == req.hmac.mac.payload
  }

  lemma {:induction false} SettingsStay(w: World, calls: seq<Call>)
    ensures Run(w, calls).settings == w.settings
    decreases |calls|
  {
    if calls != [] {
      SettingsStay(Apply(w, calls[0]), calls[1..]);
    }
  }

  lemma IssuedIsAuthorised(t: Texts, w0: World, calls: seq<Call>, j: nat, m: Message, secret: string)
    requires IssuedBy(t, w0, calls, j, m, secret)
    ensures var w := Run(w0, calls[..j]);
            var reply := EffectOf(w, calls[j]).reply;
            && calls[j].i.found.Some? && MintedBy(w0, calls, j, reply.session, Minted(w, calls[j].i))
            && reply.request == Minted(w, calls[j].i).request
            && reply.hash == AttrsDigest(AttrsFor(w, calls[j].i)) && reply.timestamp == w.now
            && reply.algorithm == Algorithm(w.settings)
  {
    hide Run, AttrsFor;
  }

  /** Call `j` was an authorised `initiate` within a minute of `now`, which issued message `m` under
      `secret`; the message's hash is that of the attributes it fixed, and whatever PDF its session
      ever led to carries exactly these attributes and the certificate presented then. */
  ghost predicate SignsFor(t: Texts, w0: World, calls: seq<Call>, j: nat, m: Message, secret: string, now: int) {
    && IssuedBy(t, w0, calls, j, m, secret)
    && j < |calls| && calls[j].Initiate? && calls[j].i.found.Some? && Authorised(w0, calls, j, calls[j].i.found.value)
    && var w := Run(w0, calls[..j]);
       var i := calls[j].i;
       && m.hash == t.hash(AttrsDigest(AttrsFor(w, i))) && -WINDOW <= now - w.now <= WINDOW
       && forall k :: 0 <= k < |Run(w0, calls).db.files| && t.session(Run(w0, calls).db.files[k].origin) == m.session ==>
            var content := Run(w0, calls).db.files[k].content;
            content.prepared == i.prepared && content.cms.signer == i.cert && t.hash(AttrsDigest(content.cms.attrs)) == m.hash
  }

  /** What the bridge signs: a hash that it accepts for a site with a stored secret is the hash of
      the attributes that an authorised `initiate` of the run fixed. */
  lemma AcceptedMeansAuthorised(t: Texts, w0: World, calls: seq<Call>,
                                site: SiteView, origin: string, token: string, req: SignRequest, now: int)
    returns (j: nat)
    requires Initial(w0) && Readable(t) && Free(Algorithm(w0.settings), '|')
    requires StoredSecret(site) && Accepted(site, origin, token, req, now)
    requires OnlyServerTags(t, w0, calls, site.secret.value, req)
    ensures SignsFor(t, w0, calls, j, req.message, site.secret.value, now)
  {
    hide Run, InitiateCheck, AttrsFor, EffectOf;
    var m;
    j, m :| IssuedBy(t, w0, calls, j, m, site.secret.value) && Payload(m) == req.hmac.mac.payload;
    IssuedIsAuthorised(t, w0, calls, j, m, site.secret.value);
    SettingsStay(w0, calls[..j]);
    assert ServerMade(m);
    PayloadInjective(m, req.message);
    var w := Run(w0, calls[..j]);
    var reply := EffectOf(w, calls[j]).reply;
    var s := Minted(w, calls[j].i);
    MintedIsAuthorised(w0, calls, j, reply.session, s);
    FilesOfSession(w0, calls, j, reply.session, s);
  }

  /** Over the rest of the run the session stays bound to what it was stored as. */
  lemma FilesOfSession(w0: World, calls: seq<Call>, j: nat, sid: SessionId, s: Session)
    requires Initial(w0) && MintedBy(w0, calls, j, sid, s)
    ensures forall k :: 0 <= k < |Run(w0, calls).db.files| && Run(w0, calls).db.files[k].origin == sid ==>
              MadeFrom(Run(w0, calls).db.files[k], s)
  {
    hide Run, InitiateCheck, Minted;
    var w := Run(w0, calls[..j]);
    EveryStateIsSound(w0, calls[..j]);
    var w1 := Apply(w, calls[j]);
    assert w1.cache[sid] == s && w1.db.files == w.db.files && w1.nextSession == sid + 1;
    assert BoundTo(w1, sid, s);
    StaysBound(w1, calls[j + 1..], sid, s);
    RunSnoc(w0, calls[..j], calls[j]);
    RunAppend(w0, calls[..j] + [calls[j]], calls[j + 1..]);
    assert calls == calls[..j] + [calls[j]] + calls[j + 1..];
  }
}
