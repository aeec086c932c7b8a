/** What every committed state holds: names are used up, sessions agree with the request they
    were minted for, and a Signed request carries its evidence. */
module Evidence {
  import opened Wrappers
  import opened Records
  import opened Lifecycle

  /** A fresh installation. */
  predicate Initial(w: World) {
    w.db.requests == map[] && w.db.nextRequest == 0 && w.db.documents == map[] && w.db.files == [] && w.db.events == []
    && w.cache == map[] && w.nextSession == 0
  }

  ghost predicate Named(w: World) {
    && (forall r :: r in w.db.requests ==> r < w.db.nextRequest)
    && (forall sid :: sid in w.cache ==> sid < w.nextSession && w.cache[sid].request < w.db.nextRequest)
    && (forall i :: 0 <= i < |w.db.files| ==> w.db.files[i].origin < w.nextSession)
  }

  /** The document a session was prepared for is the document of its request. */
  ghost predicate Agreed(w: World) {
    forall sid :: sid in w.cache && w.cache[sid].request in w.db.requests ==>
      w.cache[sid].doctype == w.db.requests[w.cache[sid].request].doctype
      && w.cache[sid].docname == w.db.requests[w.cache[sid].request].docname
  }

  ghost predicate Logged(db: Db, r: RequestId, kind: EventKind) {
    exists i :: 0 <= i < |db.events| && db.events[i].request == r && db.events[i].kind == kind
  }

  /** The evidence of row `r`: a saved PDF of this document, made with these signature bytes and
      this certificate, a signer, and the "Request Signed" event. */
  ghost predicate Evidenced(db: Db, r: RequestId)
    requires r in db.requests
  {
    var row := db.requests[r];
    && row.signedFile.Some? && row.signedFile.value < |db.files|
    && row.actualSigner.Some? && row.signatureBytes.Some? && row.fingerprint.Some? && row.signedOn.Some?
    && (var file := db.files[row.signedFile.value];
        && file.doctype == row.doctype && file.docname == row.docname
        && file.content.cms.signature == row.signatureBytes.value
        && CertDigest(file.content.cms.signer) == row.fingerprint.value)
    && Logged(db, r, RequestSigned)
  }

  ghost predicate SignedHaveEvidence(db: Db) {
    forall r :: r in db.requests && db.requests[r].status == Signed ==> Evidenced(db, r)
  }

  ghost predicate Sound(w: World) {
    Named(w) && Agreed(w) && SignedHaveEvidence(w.db)
  }

  /** The audit trail and the saved files only grow. */
  lemma TrailsGrow(w: World, c: Call)
    ensures w.db.events <= Apply(w, c).db.events
    ensures w.db.files <= Apply(w, c).db.files
  {
    hide InitiateCheck, Minted, AttrsFor, WithDocumentStatus, StaleFor, TimedOut, Purgeable, HasOpenRequest, Complete,
         RuleHasRequest, Allowed, FinalizedRow, FinalizedDocuments, NewFile, Recovered, Expired;
    FilesAfter(w, c);
  }

  /** A call adds at most one session to the cache, the one that `initiate` mints. */
  lemma CacheAfter(w: World, c: Call, sid: SessionId)
    requires sid in Apply(w, c).cache
    ensures Apply(w, c).nextSession >= w.nextSession
    ensures (sid in w.cache && Apply(w, c).cache[sid] == w.cache[sid])
            || (c.Initiate? && InitiateCheck(w, c.i).None? && sid == w.nextSession < Apply(w, c).nextSession
                && Apply(w, c).cache[sid] == Minted(w, c.i))
  {
  }

  /** `finalize` writes at most the row of its session's request. */
  lemma FinalizeWritesOneRow(w: World, f: FinalizeCall, r: RequestId)
    ensures var w' := Apply(w, Finalize(f));
            && w'.db.nextRequest == w.db.nextRequest && w'.nextSession == w.nextSession && w'.now == w.now
            && w'.db.requests.Keys == w.db.requests.Keys
            && (r in w.db.requests ==>
                  && w'.db.requests[r].doctype == w.db.requests[r].doctype && w'.db.requests[r].docname == w.db.requests[r].docname
                  && (w'.db.requests[r] == w.db.requests[r]
                      || (Live(w, f.session) && w.cache[f.session].request == r
                          && (w'.db.requests[r].status == Signed || w'.db.requests[r].status == Failed))))
  {
    hide FinalizedDocuments, FinalizeEvents, NewFile, FailureReason, FinalizeError;
  }

  /** What each call leaves of a row: the document it is for; or a new row under the next name. */
  ghost predicate RowFollows(w: World, w': World, r: RequestId)
    requires r in w'.db.requests
  {
    if r in w.db.requests
    then w'.db.requests[r].doctype == w.db.requests[r].doctype && w'.db.requests[r].docname == w.db.requests[r].docname
    else r == w.db.nextRequest < w'.db.nextRequest
  }

  lemma InitiatedRowFollows(w: World, i: InitiateCall, r: RequestId)
    requires r in Apply(w, Initiate(i)).db.requests
    ensures RowFollows(w, Apply(w, Initiate(i)), r)
  {
    hide InitiateEvents, Minted, AttrsFor, WithDocumentStatus;
  }

  lemma GuardedRowFollows(w: World, c: Call, r: RequestId)
    requires (c.Retry? || c.Cancel? || c.Abort?) && r in Apply(w, c).db.requests
    ensures RowFollows(w, Apply(w, c), r)
  {
    hide WithDocumentStatus, Allowed;
  }

  lemma CreatedRowFollows(w: World, c: Call, r: RequestId)
    requires Named(w) && (c.RuleMatched? || c.SaveDocument?) && r in Apply(w, c).db.requests
    ensures RowFollows(w, Apply(w, c), r)
  {
    hide HasOpenRequest, Complete, RuleEvents, RuleHasRequest, SavedFields;
  }

  /** A call adds at most one request, under the next name, and never moves one to another document. */
  lemma RequestAfter(w: World, c: Call, r: RequestId)
    requires Named(w) && r in Apply(w, c).db.requests
    ensures RowFollows(w, Apply(w, c), r)
  {
    hide WithDocumentStatus, StaleFor, TimedOut, Purgeable;
    match c
    case Initiate(i) => InitiatedRowFollows(w, i, r); hide Apply;
    case Finalize(f) => FinalizeWritesOneRow(w, f, r); hide Apply;
    case Retry(_) => GuardedRowFollows(w, c, r); hide Apply;
    case Cancel(_) => GuardedRowFollows(w, c, r); hide Apply;
    case Abort(_) => GuardedRowFollows(w, c, r); hide Apply;
    case RuleMatched(_) => CreatedRowFollows(w, c, r); hide Apply;
    case SaveDocument(_) => CreatedRowFollows(w, c, r); hide Apply;
    case _ =>
  }

  lemma CountersGrow(w: World, c: Call)
    ensures w.db.nextRequest <= Apply(w, c).db.nextRequest && w.nextSession <= Apply(w, c).nextSession
  {
    if c.Finalize? {
      FinalizeWritesOneRow(w, c.f, 0);
    }
  }

  /** A call saves at most one file, from a session that is then gone from the cache. */
  lemma FilesAfter(w: World, c: Call)
    ensures Apply(w, c).db.files == w.db.files
            || (c.Finalize? && Live(w, c.f.session) && Apply(w, c).db.files == w.db.files + [NewFile(w, c.f)]
                && c.f.session !in Apply(w, c).cache)
  {
    hide InitiateCheck, InitiateEvents, Minted, AttrsFor, WithDocumentStatus, StaleFor, TimedOut, Purgeable, HasOpenRequest,
         Complete, RuleEvents, RuleHasRequest, Allowed, FinalizedRow, FinalizedDocuments, FinalizeEvents, NewFile, Mismatch;
  }

  lemma NamedStep(w: World, c: Call)
    requires Named(w)
    ensures Named(Apply(w, c))
  {
    var w' := Apply(w, c);
    CountersGrow(w, c);
    forall r | r in w'.db.requests
      ensures r < w'.db.nextRequest
    {
      RequestAfter(w, c, r);
    }
    forall sid | sid in w'.cache
      ensures sid < w'.nextSession && w'.cache[sid].request < w'.db.nextRequest
    {
      CacheAfter(w, c, sid);
    }
    FilesAfter(w, c);
  }

  lemma AgreedStep(w: World, c: Call)
    requires Named(w) && Agreed(w)
    ensures Agreed(Apply(w, c))
  {
    var w' := Apply(w, c);
    forall sid | sid in w'.cache && w'.cache[sid].request in w'.db.requests
      ensures w'.cache[sid].doctype == w'.db.requests[w'.cache[sid].request].doctype
      ensures w'.cache[sid].docname == w'.db.requests[w'.cache[sid].request].docname
    {
      CacheAfter(w, c, sid);
      RequestAfter(w, c, w'.cache[sid].request);
    }
  }

  lemma LoggedStays(db: Db, db': Db, r: RequestId, kind: EventKind)
    requires Logged(db, r, kind) && db.events <= db'.events
    ensures Logged(db', r, kind)
  {
    var i :| 0 <= i < |db.events| && db.events[i].request == r && db.events[i].kind == kind;
    assert db'.events[i] == db.events[i];
  }

  /** A row that is Signed after a call either was stored as it is, or this call signed it. */
  lemma SignedOnlyByFinalize(w: World, c: Call, r: RequestId)
    requires r in Apply(w, c).db.requests && Apply(w, c).db.requests[r].status == Signed
    ensures (r in w.db.requests && w.db.requests[r] == Apply(w, c).db.requests[r])
            || (c.Finalize? && Reaches(w, c.f) && w.cache[c.f.session].request == r && Succeeds(c.f)
                && !Mismatch(w.db, w.db.requests[r], c.f.cert))
  {
    hide InitiateEvents, Minted, AttrsFor, WithDocumentStatus, StaleFor, TimedOut, Purgeable, HasOpenRequest, Complete,
         RuleEvents, RuleHasRequest, FinalizedDocuments, FinalizeEvents, NewFile, FailureReason, FinalizeError, Mismatch;
  }

  lemma FinalizeLeavesEvidence(w: World, f: FinalizeCall)
    requires Agreed(w) && Reaches(w, f) && Succeeds(f)
    requires var r := w.cache[f.session].request; !Mismatch(w.db, w.db.requests[r], f.cert)
    ensures Evidenced(Apply(w, Finalize(f)).db, w.cache[f.session].request)
  {
    var r := w.cache[f.session].request;
    var db := Apply(w, Finalize(f)).db;
    assert db == FinalizeDb(w, f);
    var n := |w.db.events| + 3;
    assert FinalizeEvents(f, r, w.now)[3] == Event(r, RequestSigned, w.now);
    assert db.events[n] == Event(r, RequestSigned, w.now);
  }

  lemma EvidenceStep(w: World, c: Call)
    requires Agreed(w) && SignedHaveEvidence(w.db)
    ensures SignedHaveEvidence(Apply(w, c).db)
  {
    var db := Apply(w, c).db;
    TrailsGrow(w, c);
    forall r | r in db.requests && db.requests[r].status == Signed
      ensures Evidenced(db, r)
    {
      SignedOnlyByFinalize(w, c, r);
      if r in w.db.requests && w.db.requests[r] == db.requests[r] {
        LoggedStays(w.db, db, r, RequestSigned);
        assert db.files[db.requests[r].signedFile.value] == w.db.files[db.requests[r].signedFile.value];
      } else {
        FinalizeLeavesEvidence(w, c.f);
      }
    }
  }

  /** Durable evidence: in every state that a fresh installation can reach. */
  lemma {:induction false} EveryStateIsSound(w: World, calls: seq<Call>)
    requires Sound(w)
    ensures Sound(Run(w, calls))
    decreases |calls|
  {
    if calls != [] {
      NamedStep(w, calls[0]);
      AgreedStep(w, calls[0]);
      EvidenceStep(w, calls[0]);
      EveryStateIsSound(Apply(w, calls[0]), calls[1..]);
    }
  }

  lemma SignedRequestsHaveEvidence(w: World, calls: seq<Call>, r: RequestId)
    requires Initial(w)
    requires r in Run(w, calls).db.requests && Run(w, calls).db.requests[r].status == Signed
    ensures Evidenced(Run(w, calls).db, r)
  {
    EveryStateIsSound(w, calls);
  }

  /** Every `finalize` that gets past its session check commits: Signed exactly when it returns,
      Failed when it throws, and the events of the attempt either way. */
  lemma FinalizeAlwaysDecides(w: World, f: FinalizeCall)
    requires Reaches(w, f)
    ensures var r := w.cache[f.session].request;
            var e := EffectOf(w, Finalize(f));
            && r in e.world.db.requests
            && (e.reply.Finalized? <==> e.world.db.requests[r].status == Signed)
            && (e.reply.Throw? <==> e.world.db.requests[r].status == Failed)
            && Logged(e.world.db, r, if e.reply.Throw? then RequestFailed else RequestSigned)
  {
    var r := w.cache[f.session].request;
    var db := Apply(w, Finalize(f)).db;
    if Mismatch(w.db, w.db.requests[r], f.cert) {
      assert db.events[|w.db.events| + 2] == Event(r, RequestFailed, w.now);
    } else {
      var es := FinalizeEvents(f, r, w.now);
      var last := |es| - 1;
      assert es[last].request == r && es[last].kind == if Succeeds(f) then RequestSigned else RequestFailed;
      assert db.events[|w.db.events| + last] == es[last];
    }
  }

  /** An `initiate` that throws leaves the database as it was; one that returns has moved one
      Pending request to In Progress and put one new session in the cache. The cache is not part
      of the transaction: the late failures leave a live session behind. */
  lemma InitiateIsAllOrNothing(w: World, i: InitiateCall)
    requires Named(w)
    ensures var e := EffectOf(w, Initiate(i));
            && (e.reply.Throw? ==> e.world.db == w.db)
            && (e.reply.Issued? ==>
                  var r := e.reply.request;
                  && r in w.db.requests && w.db.requests[r].status == Pending
                  && e.world.db.requests[r].status == InProgress && e.world.db.requests[r].modified == w.now
                  && e.world.db.requests.Keys == w.db.requests.Keys
                  && Live(e.world, e.reply.session) && e.reply.session !in w.cache
                  && e.world.cache[e.reply.session].request == r
                  && AttrsDigest(e.world.cache[e.reply.session].attrs) == e.reply.hash)
            && (e.world.cache != w.cache ==> e.reply.Issued? || i.fault.AfterSessionStored?)
  {
  }

  /** Who gets a session: an unexpired, active profile's allowed user, with the registered
      certificate, on a placed document when the source is a Document Sign record. */
  lemma SessionsAreAuthorised(w: World, i: InitiateCall)
    requires Apply(w, Initiate(i)).cache != w.cache
    ensures i.found.Some? && i.found.value in w.db.requests
    ensures var row := w.db.requests[i.found.value];
            && row.profile in w.db.profiles
            && (var profile := w.db.profiles[row.profile];
                && profile.active
                && (i.user in profile.allowedUsers || forall u :: u in profile.allowedUsers ==> u == "")
                && (profile.fingerprint.Some? ==> profile.fingerprint.value.digest == Some(CertDigest(i.cert))))
            && (row.expectedSigner in {"", i.user} || i.mayWrite)
            && (w.settings.enforceLocation ==> i.located)
            && (i.doctype == DOCUMENT_SIGN ==>
                  i.docname in w.db.documents && w.db.documents[i.docname].sigWidth != 0.0 && w.db.documents[i.docname].sigHeight != 0.0)
  {
    var profile := w.db.profiles[w.db.requests[i.found.value].profile];
    assert forall u :: u in NamedUsers(profile) <==> u in profile.allowedUsers && u != "";
  }

  /** Letter case is exactly what separates the two comparisons. The code itself registers
      fingerprints in lower case; for one that came in otherwise, in capitals, `initiate` rejects
      every certificate, though `finalize` would accept the right one. */
  lemma FingerprintComparisonsDiffer(db: Db, row: Request, cert: Bytes)
    requires row.profile in db.profiles && db.profiles[row.profile].fingerprint.Some?
    ensures var text := db.profiles[row.profile].fingerprint.value;
            Registered(db.profiles[row.profile], cert) <==> !Mismatch(db, row, Some(cert)) && text.lowerCase
  {
    var text := db.profiles[row.profile].fingerprint.value;
    assert text == FingerprintText(text.digest, text.lowerCase);
  }

  /** "Signed" does not say that the signature verified: a PDF with at least one embedded
      signature passes whatever the verifier says about it. Exactly an unfaulted call with a valid
      verdict or some signature signs. */
  lemma SignedDespiteVerdict(w: World, f: FinalizeCall)
    requires Reaches(w, f) && !Mismatch(w.db, w.db.requests[w.cache[f.session].request], f.cert)
    ensures var row := Apply(w, Finalize(f)).db.requests[w.cache[f.session].request];
            row.status == Signed <==> f.fault.NoFault? && (f.verification.valid || f.verification.signatures > 0)
  {
  }
}
