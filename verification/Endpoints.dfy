/** What every endpoint and job answers and leaves, said of its arguments and the stored rows alone:
    which call succeeds, which error each failing check gives, and the whole new row, record, trail
    and cache of a call that writes. */
module Endpoints {
  import opened Wrappers
  import opened Records
  import opened Lifecycle
  import opened Evidence

  // ---------- checks in order ----------

  /** Checks with the error that each gives where it fails, in the order in which they are made. */
  type Checks = seq<(bool, Error)>

  predicate PassesAll(checks: Checks) {
    forall k :: 0 <= k < |checks| ==> checks[k].0
  }

  /** Check `k` is the first that fails. */
  predicate FailsFirst(checks: Checks, k: nat) {
    k < |checks| && !checks[k].0 && forall j :: 0 <= j < k ==> checks[j].0
  }

  // ---------- initiate ----------

  predicate PendingFound(w: World, i: InitiateCall) {
    && i.found.Some? && i.found.value in w.db.requests
    && var row := w.db.requests[i.found.value];
       row.doctype == i.doctype && row.docname == i.docname && row.status == Pending
  }

  /** The checks of `initiate`: those on a row or profile that an earlier check did not find pass. */
  function InitiateChecks(w: World, i: InitiateCall): (checks: Checks) {
    var row := if i.found.Some? && i.found.value in w.db.requests then Some(w.db.requests[i.found.value]) else None;
    var profile := if row.Some? && row.value.profile in w.db.profiles then Some(w.db.profiles[row.value.profile]) else None;
    var record := if i.docname in w.db.documents then Some(w.db.documents[i.docname]) else None;
    [ (i.cert != [], CertMissing),
      (PendingFound(w, i), NoPendingRequest),
      (row.Some? ==> row.value.expectedSigner in {"", i.user} || i.mayWrite, NotAuthorised),
      (profile.Some?, ProfileMissing),
      (profile.Some? ==> profile.value.active, ProfileInactive),
      (profile.Some? ==> (i.user != "" && i.user in profile.value.allowedUsers) || forall u :: u in profile.value.allowedUsers ==> u == "",
       NotAllowed),
      (profile.Some? && profile.value.notAfterDay.Some? ==> w.now / 86400 <= profile.value.notAfterDay.value, CertExpired),
      (w.settings.enforceLocation ==> i.located, LocationRequired),
      (i.doctype == "DSC Document Sign" ==> record.Some? && i.upload.Some?, BadUpload),
      (i.doctype == "DSC Document Sign" && record.Some? ==> record.value.sigWidth != 0.0 && record.value.sigHeight != 0.0, NoPlacement),
      (profile.Some? && profile.value.fingerprint.Some? ==>
         profile.value.fingerprint.value.digest == Some(CertDigest(i.cert)) && profile.value.fingerprint.value.lowerCase, FingerprintMismatch) ]
  }

  /** `initiate` stops at the first failing check with that check's error, and with all passed it
      breaks off only where something outside raises. */
  lemma InitiateAnswers(w: World, i: InitiateCall)
    ensures var reply := EffectOf(w, Initiate(i)).reply;
            var checks := InitiateChecks(w, i);
            && (forall k: nat :: FailsFirst(checks, k) ==> reply == Throw(checks[k].1))
            && (PassesAll(checks) ==> if i.fault.Smooth? then reply.Issued? else reply == Throw(Crash))
  {
    var checks := InitiateChecks(w, i);
    if PassesAll(checks) {
      InitiatePasses(w, i);
    }
    hide InitiateChecks, InitiateCheck;
    forall k: nat | FailsFirst(checks, k)
      ensures EffectOf(w, Initiate(i)).reply == Throw(checks[k].1)
    {
      InitiateFails(w, i, k);
    }
  }

  lemma WhoIsAllowed(w: World, i: InitiateCall)
    requires i.found.Some? && i.found.value in w.db.requests && w.db.requests[i.found.value].profile in w.db.profiles
    ensures var profile := w.db.profiles[w.db.requests[i.found.value].profile];
            (NamedUsers(profile) == {} || i.user in NamedUsers(profile))
            <==> (i.user != "" && i.user in profile.allowedUsers) || forall u :: u in profile.allowedUsers ==> u == ""
  {
    var profile := w.db.profiles[w.db.requests[i.found.value].profile];
    assert forall u :: u in NamedUsers(profile) <==> u in profile.allowedUsers && u != "";
  }

  lemma InitiatePasses(w: World, i: InitiateCall)
    requires PassesAll(InitiateChecks(w, i))
    ensures InitiateCheck(w, i).None?
  {
    var checks := InitiateChecks(w, i);
    assert checks[0].0 && checks[1].0 && checks[2].0 && checks[3].0 && checks[4].0 && checks[5].0 && checks[6].0 && checks[7].0
           && checks[8].0 && checks[9].0 && checks[10].0;
    WhoIsAllowed(w, i);
    hide NamedUsers;
  }

  lemma InitiateFails(w: World, i: InitiateCall, k: nat)
    requires FailsFirst(InitiateChecks(w, i), k)
    ensures InitiateCheck(w, i) == Some(InitiateChecks(w, i)[k].1)
  {
    var checks := InitiateChecks(w, i);
    if k > 3 {
      assert checks[1].0 && checks[3].0;
      WhoIsAllowed(w, i);
    }
    hide NamedUsers;
    assert k > 0 ==> checks[0].0;
    assert k > 1 ==> checks[1].0;
    assert k > 2 ==> checks[2].0;
    assert k > 3 ==> checks[3].0;
    assert k > 4 ==> checks[4].0;
    assert k > 5 ==> checks[5].0;
    assert k > 6 ==> checks[6].0;
    assert k > 7 ==> checks[7].0;
    assert k > 8 ==> checks[8].0;
    assert k > 9 ==> checks[9].0;
  }

  /** Exactly when a signing session is issued. */
  lemma InitiateSucceedsExactlyWhen(w: World, i: InitiateCall)
    ensures EffectOf(w, Initiate(i)).reply.Issued? <==>
            && i.cert != [] && i.found.Some? && i.found.value in w.db.requests
            && (var row := w.db.requests[i.found.value];
                && row.doctype == i.doctype && row.docname == i.docname && row.status == Pending
                && (row.expectedSigner == "" || row.expectedSigner == i.user || i.mayWrite)
                && row.profile in w.db.profiles
                && (var profile := w.db.profiles[row.profile];
                    && profile.active
                    && ((i.user != "" && i.user in profile.allowedUsers) || forall u :: u in profile.allowedUsers ==> u == "")
                    && (profile.notAfterDay.Some? ==> w.now / 86400 <= profile.notAfterDay.value)
                    && (profile.fingerprint.Some? ==>
                          profile.fingerprint.value.digest == Some(CertDigest(i.cert)) && profile.fingerprint.value.lowerCase)))
            && (w.settings.enforceLocation ==> i.located)
            && (i.doctype == "DSC Document Sign" ==>
                  && i.docname in w.db.documents && i.upload.Some?
                  && w.db.documents[i.docname].sigWidth != 0.0 && w.db.documents[i.docname].sigHeight != 0.0)
            && i.fault.Smooth?
  {
    if i.found.Some? && i.found.value in w.db.requests && w.db.requests[i.found.value].profile in w.db.profiles {
      WhoIsAllowed(w, i);
    }
    hide NamedUsers;
  }

  function Logs(r: RequestId, kinds: seq<EventKind>, at: int): (events: seq<Event>)
    ensures |events| == |kinds| && forall k :: 0 <= k < |kinds| ==> events[k] == Event(r, kinds[k], at)
  {
    seq(|kinds|, k requires 0 <= k < |kinds| => Event(r, kinds[k], at))
  }

  /** Nothing of the database but the row `r`, which becomes `row`, and the trail, which grows by
      these events, is different; records are left to the caller. */
  ghost predicate Writes(db: Db, db': Db, r: RequestId, row: Request, kinds: seq<EventKind>, at: int) {
    && db'.requests == db.requests[r := row] && db'.events == db.events + Logs(r, kinds, at)
    && db'.files == db.files && db'.profiles == db.profiles && db'.nextRequest == db.nextRequest
  }

  /** The record of a Document Sign request gets this status, nothing else of any record changes. */
  ghost predicate RecordFollows(db: Db, db': Db, doctype: string, docname: string, status: Status) {
    && db'.documents.Keys == db.documents.Keys
    && forall name :: name in db.documents ==>
         db'.documents[name] == if doctype == "DSC Document Sign" && name == docname then db.documents[name].(status := status)
                                else db.documents[name]
  }

  function HashAlgorithm(settings: Settings): (a: string) {
    if settings.hashAlgorithm != "" then settings.hashAlgorithm else "sha256"
  }

  /** What an issued session leaves, and what the reply says. */
  lemma InitiateLeaves(w: World, i: InitiateCall)
    requires EffectOf(w, Initiate(i)).reply.Issued?
    ensures i.found.Some? && i.found.value in w.db.requests
    ensures var e := EffectOf(w, Initiate(i));
            var r := i.found.value;
            var attrs := SignedAttrs(w.now, PdfDigest(HashAlgorithm(w.settings), i.prepared));
            var row := w.db.requests[r].(status := InProgress, hashToSign := Some(AttrsDigest(attrs)), modified := w.now);
            var kinds := if i.located then [SignerLocationCaptured, HashComputed, AgentCalled] else [HashComputed, AgentCalled];
            && e.reply == Issued(r, w.nextSession, AttrsDigest(attrs), HashAlgorithm(w.settings), w.now)
            && Writes(w.db, e.world.db, r, row, kinds, w.now)
            && RecordFollows(w.db, e.world.db, i.doctype, i.docname, InProgress)
            && e.world.db.secret == (if w.db.secret.Some? then w.db.secret else Some(i.freshSecret))
            && e.world.cache == w.cache[w.nextSession :=
                 Session(r, i.doctype, i.docname, i.prepared, attrs, i.cert, w.now + 600)]
            && e.world.nextSession == w.nextSession + 1 && e.world.now == w.now && e.world.settings == w.settings
  {
    hide InitiateCheck;
    assert InitiateCheck(w, i).None?;
    IssuedForFound(w, i);
    var kinds := if i.located then [SignerLocationCaptured, HashComputed, AgentCalled] else [HashComputed, AgentCalled];
    assert InitiateEvents(w, i) == Logs(i.found.value, kinds, w.now);
  }

  lemma IssuedForFound(w: World, i: InitiateCall)
    requires InitiateCheck(w, i).None?
    ensures i.found.Some? && i.found.value in w.db.requests
  {
  }

  /** An `initiate` that throws leaves everything as it was, unless it had passed all checks and stored
      its session: that stays. */
  lemma ThrowingInitiateLeaves(w: World, i: InitiateCall)
    requires !EffectOf(w, Initiate(i)).reply.Issued?
    ensures Apply(w, Initiate(i)) ==
            if PassesAll(InitiateChecks(w, i)) && i.fault == AfterSessionStored && i.found.Some? then
              w.(cache := w.cache[w.nextSession :=
                   Session(i.found.value, i.doctype, i.docname, i.prepared,
                           SignedAttrs(w.now, PdfDigest(HashAlgorithm(w.settings), i.prepared)), i.cert, w.now + 600)],
                 nextSession := w.nextSession + 1)
            else w
  {
    if PassesAll(InitiateChecks(w, i)) {
      InitiatePasses(w, i);
      IssuedForFound(w, i);
    } else {
      var k: nat := SomeFails(InitiateChecks(w, i));
      InitiateFails(w, i, k);
    }
    hide InitiateChecks, InitiateCheck;
  }

  lemma {:induction false} SomeFails(checks: Checks) returns (k: nat)
    requires !PassesAll(checks)
    ensures FailsFirst(checks, k)
  {
    if !checks[0].0 {
      k := 0;
    } else {
      var j: nat :| j < |checks| && !checks[j].0;
      assert checks[1..][j - 1] == checks[j];
      k := SomeFails(checks[1..]);
      k := k + 1;
      assert forall i :: 1 <= i < |checks| ==> checks[i] == checks[1..][i - 1];
    }
  }

  // ---------- finalize ----------

  /** Both fingerprints are there, and differ in more than letter case. */
  predicate WrongToken(w: World, row: Request, f: FinalizeCall) {
    && f.cert.Some? && row.profile in w.db.profiles && w.db.profiles[row.profile].fingerprint.Some?
    && w.db.profiles[row.profile].fingerprint.value.digest != Some(CertDigest(f.cert.value))
  }

  /** The row of the session's request, if session and row are there. */
  function RowOf(w: World, f: FinalizeCall): (row: Option<Request>) {
    if f.session in w.cache && w.cache[f.session].request in w.db.requests then Some(w.db.requests[w.cache[f.session].request]) else None
  }

  function FinalizeChecks(w: World, f: FinalizeCall): (checks: Checks) {
    [ (f.session in w.cache && w.now < w.cache[f.session].expires, SessionGone),
      (f.fault != BadCert, Crash),
      (RowOf(w, f).Some?, RequestMissing),
      (RowOf(w, f).Some? ==> !WrongToken(w, RowOf(w, f).value, f), FingerprintMismatch),
      (f.fault != AssemblyFails, Crash),
      (f.verification.valid || f.verification.signatures > 0, VerificationFailed),
      (f.fault == NoFault, Crash) ]
  }

  /** `finalize` answers with the error of the first failing check, and with all passed it returns
      the next file. */
  lemma FinalizeAnswers(w: World, f: FinalizeCall)
    ensures var reply := EffectOf(w, Finalize(f)).reply;
            var checks := FinalizeChecks(w, f);
            && (forall k: nat :: FailsFirst(checks, k) ==> reply == Throw(checks[k].1))
            && (PassesAll(checks) ==> reply == Finalized(|w.db.files|))
  {
    var checks := FinalizeChecks(w, f);
    assert PassesAll(checks) ==> checks[0].0 && checks[1].0 && checks[2].0 && checks[3].0 && checks[4].0 && checks[5].0 && checks[6].0;
    forall k: nat | FailsFirst(checks, k)
      ensures EffectOf(w, Finalize(f)).reply == Throw(checks[k].1)
    {
      assert k > 0 ==> checks[0].0;
      assert k > 1 ==> checks[1].0;
      assert k > 2 ==> checks[2].0;
      assert k > 3 ==> checks[3].0;
      assert k > 4 ==> checks[4].0;
      assert k > 5 ==> checks[5].0;
    }
  }

  /** Without a live session, with an unreadable certificate, or without its request it changes nothing. */
  lemma RefusedFinalizeLeaves(w: World, f: FinalizeCall)
    requires f.session !in w.cache || w.cache[f.session].expires <= w.now || f.fault == BadCert || RowOf(w, f).None?
    ensures Apply(w, Finalize(f)) == w
  {
  }

  /** The call gets past the fingerprint comparison: it pops its session from the cache. */
  predicate Attempts(w: World, f: FinalizeCall) {
    && f.session in w.cache && w.now < w.cache[f.session].expires && f.fault != BadCert
    && w.cache[f.session].request in w.db.requests && !WrongToken(w, w.db.requests[w.cache[f.session].request], f)
  }

  /** A session is spent by the first attempt, whatever becomes of it, and by nothing short of one. */
  lemma SessionSpentExactlyByAttempt(w: World, f: FinalizeCall)
    ensures var w' := Apply(w, Finalize(f));
            && (f.session in w.cache ==> (f.session !in w'.cache <==> Attempts(w, f)))
            && w'.cache - {f.session} == w.cache - {f.session}
            && (f.session in w'.cache ==> w'.cache == w.cache)
            && (!Attempts(w, f) ==> w'.cache == w.cache)
  {
    hide FinalizeDb, MismatchDb;
  }

  lemma {:induction false} GoneStaysGone(w: World, calls: seq<Call>, sid: SessionId)
    requires sid !in w.cache && sid < w.nextSession
    ensures sid !in Run(w, calls).cache
    decreases |calls|
  {
    hide Apply;
    if calls != [] {
      var w' := Apply(w, calls[0]);
      CountersGrow(w, calls[0]);
      if sid in w'.cache { CacheAfter(w, calls[0], sid); }
      GoneStaysGone(w', calls[1..], sid);
    }
  }

  /** After an attempt, failed or not, whatever calls follow: every `finalize` with its session is
      refused and changes nothing. */
  lemma SpentSessionIsRefused(w: World, f: FinalizeCall, later: seq<Call>, again: FinalizeCall)
    requires Named(w) && Attempts(w, f) && again.session == f.session
    ensures var w' := Run(Apply(w, Finalize(f)), later); EffectOf(w', Finalize(again)) == Effect(w', Throw(SessionGone))
  {
    hide Run, FinalizeDb;
    var w1 := Apply(w, Finalize(f));
    SessionSpentExactlyByAttempt(w, f);
    CountersGrow(w, Finalize(f));
    GoneStaysGone(w1, later, f.session);
  }

  /** So over every run a session is attempted at most once. */
  lemma AtMostOneAttemptPerSession(w0: World, calls: seq<Call>, j: nat, k: nat)
    requires Initial(w0) && j < k < |calls| && calls[j].Finalize? && calls[k].Finalize? && calls[j].f.session == calls[k].f.session
    requires Attempts(Run(w0, calls[..j]), calls[j].f)
    ensures EffectOf(Run(w0, calls[..k]), calls[k]) == Effect(Run(w0, calls[..k]), Throw(SessionGone))
  {
    hide Apply, EffectOf, Attempts;
    EveryStateIsSound(w0, calls[..j]);
    var w := Run(w0, calls[..j]);
    SpentSessionIsRefused(w, calls[j].f, calls[j + 1..k], calls[k].f);
    assert [calls[j]][1..] == [] && Run(w, [calls[j]]) == Run(Apply(w, calls[j]), []);
    RunAppend(w0, calls[..j], [calls[j]]);
    RunAppend(w0, calls[..j] + [calls[j]], calls[j + 1..k]);
    assert calls[..j] + [calls[j]] + calls[j + 1..k] == calls[..k];
  }

  /** A mismatch commits the failed row and its three events, and nothing else. */
  lemma MismatchLeaves(w: World, f: FinalizeCall)
    requires f.session in w.cache && w.now < w.cache[f.session].expires && f.fault != BadCert
    requires w.cache[f.session].request in w.db.requests && WrongToken(w, w.db.requests[w.cache[f.session].request], f)
    ensures var w' := Apply(w, Finalize(f));
            var r := w.cache[f.session].request;
            && r in w'.db.requests && w'.db.requests[r].failureReason != ""
            && Writes(w.db, w'.db, r, w.db.requests[r].(status := Failed, failureReason := w'.db.requests[r].failureReason, modified := w.now),
                      [SignatureReturned, CertPresented, RequestFailed], w.now)
            && w'.db.documents == w.db.documents && w'.db.secret == w.db.secret
  {
    assert Logs(w.cache[f.session].request, [SignatureReturned, CertPresented, RequestFailed], w.now)
        == [Event(w.cache[f.session].request, SignatureReturned, w.now), Event(w.cache[f.session].request, CertPresented, w.now),
            Event(w.cache[f.session].request, RequestFailed, w.now)];
  }

  predicate SeesSignature(f: FinalizeCall) {
    f.verification.valid || f.verification.signatures > 0
  }

  /** The statements of an attempt that happen: everything before the one named by the fault. */
  predicate StoresPdf(f: FinalizeCall) {
    SeesSignature(f) && f.fault in {NoFault, RowFails, MirrorFails, EventFails, TimelineFails}
  }

  predicate StoresEvidence(f: FinalizeCall) {
    SeesSignature(f) && f.fault in {NoFault, MirrorFails, EventFails, TimelineFails}
  }

  predicate StoresLink(f: FinalizeCall) {
    SeesSignature(f) && f.fault in {NoFault, EventFails, TimelineFails}
  }

  predicate ReportsSigned(f: FinalizeCall) {
    SeesSignature(f) && f.fault in {NoFault, TimelineFails}
  }

  predicate Signs(f: FinalizeCall) {
    SeesSignature(f) && f.fault == NoFault
  }

  /** The row with or without evidence, decided one way or the other. */
  lemma RowOfAttempt(row: Request, f: FinalizeCall, s: Session, file: nat, now: int)
    requires f.fault != BadCert
    ensures var evidence := if SignsRow(f) then SignedRow(row, f, s, file, now) else row;
            var row' := if Succeeds(f) then evidence else FailedRow(evidence, FailureReason(f), now);
            var named := if StoresEvidence(f)
                         then row.(actualSigner := Some(f.user), signedOn := Some(now), signatureBytes := Some(f.signature),
                                   fingerprint := Some(CertDigest(s.cert)), signedFile := Some(file))
                         else row;
            && row' == named.(status := if Signs(f) then Signed else Failed, modified := now,
                              failureReason := if Signs(f) then row.failureReason else row'.failureReason)
            && (!Signs(f) ==> row'.failureReason != "")
  {
  }

  lemma AttemptWrites(w: World, f: FinalizeCall)
    requires Attempts(w, f)
    ensures Apply(w, Finalize(f)).db.requests == w.db.requests[w.cache[f.session].request := FinalizedRow(w, f)]
  {
    hide FinalizedDocuments, FinalizeEvents, NewFile, FinalizedRow;
  }

  /** The file that an attempt saves: what the session fixed, with the returned signature. */
  lemma AttemptLeavesFile(w: World, f: FinalizeCall)
    requires Attempts(w, f)
    ensures var w' := Apply(w, Finalize(f));
            var s := w.cache[f.session];
            w'.db.files == w.db.files + if StoresPdf(f)
                                        then [SignedFile(s.doctype, s.docname, AttachedTo(w.db.files, s.doctype, s.docname) + 1,
                                                         SignedPdf(s.preparedPdf, Cms(s.cert, f.chain, s.attrs, f.signature)), f.session)]
                                        else []
  {
    hide FinalizedRow, FinalizedDocuments, FinalizeEvents;
  }

  /** The row that an attempt leaves: Signed or Failed; the evidence if it got that far; no other. */
  lemma AttemptLeavesRow(w: World, f: FinalizeCall)
    requires Attempts(w, f)
    ensures var w' := Apply(w, Finalize(f));
            var s := w.cache[f.session];
            && s.request in w'.db.requests
            && var row, row' := w.db.requests[s.request], w'.db.requests[s.request];
               var evidence := if StoresEvidence(f)
                               then row.(actualSigner := Some(f.user), signedOn := Some(w.now), signatureBytes := Some(f.signature),
                                         fingerprint := Some(CertDigest(s.cert)), signedFile := Some(|w.db.files|))
                               else row;
               && row' == evidence.(status := if Signs(f) then Signed else Failed, modified := w.now,
                                    failureReason := if Signs(f) then row.failureReason else row'.failureReason)
               && (!Signs(f) ==> row'.failureReason != "")
               && w'.db.requests == w.db.requests[s.request := row']
  {
    hide SignedRow;
    AttemptWrites(w, f);
    RowOfAttempt(w.db.requests[w.cache[f.session].request], f, w.cache[f.session], |w.db.files|, w.now);
    hide Apply, Signs, StoresEvidence, Succeeds, SignsRow, FailureReason;
  }

  /** The record of the session's document, which is the request's. */
  lemma AttemptLeavesRecord(w: World, f: FinalizeCall, name: string)
    requires Attempts(w, f) && Agreed(w) && name in w.db.documents
    ensures var w' := Apply(w, Finalize(f));
            var s := w.cache[f.session];
            && w'.db.documents.Keys == w.db.documents.Keys
            && w'.db.documents[name] ==
               if s.doctype == "DSC Document Sign" && s.docname == name
               then w.db.documents[name].(status := if Signs(f) then Signed else Failed,
                                          signedFile := if StoresLink(f) then Some(|w.db.files|) else w.db.documents[name].signedFile)
               else w.db.documents[name]
  {
    hide FinalizedRow, FinalizeEvents, NewFile;
  }

  /** The trail of an attempt, event by event. */
  lemma AttemptLeavesTrail(w: World, f: FinalizeCall)
    requires Attempts(w, f)
    ensures Apply(w, Finalize(f)).db.events == w.db.events + Logs(w.cache[f.session].request,
              [SignatureReturned, CertPresented]
              + (if f.fault == AssemblyFails then [RequestFailed]
                 else [PdfVerified(f.verification.valid)]
                      + if !SeesSignature(f) then [RequestFailed, RequestFailed]
                        else if Signs(f) then [RequestSigned]
                        else if ReportsSigned(f) then [RequestSigned, RequestFailed]
                        else [RequestFailed]), w.now)
  {
    hide FinalizedRow, FinalizedDocuments, NewFile, Logs;
    var r := w.cache[f.session].request;
    assert Apply(w, Finalize(f)).db.events == w.db.events + FinalizeEvents(f, r, w.now);
    TrailOf(f, r, w.now);
  }

  lemma TrailOf(f: FinalizeCall, r: RequestId, now: int)
    requires f.fault != BadCert
    ensures FinalizeEvents(f, r, now) == Logs(r,
              [SignatureReturned, CertPresented]
              + (if f.fault == AssemblyFails then [RequestFailed]
                 else [PdfVerified(f.verification.valid)]
                      + if !SeesSignature(f) then [RequestFailed, RequestFailed]
                        else if Signs(f) then [RequestSigned]
                        else if ReportsSigned(f) then [RequestSigned, RequestFailed]
                        else [RequestFailed]), now)
  {
  }

  // ---------- retry, cancel, abort, poll ----------

  /** Retrying succeeds exactly on Failed requests, and clears the reason. */
  lemma RetryExactlyWhen(w: World, r: RequestId)
    ensures var e := EffectOf(w, Retry(r));
            if r in w.db.requests && w.db.requests[r].status == Failed then
              && e.reply == Done && e.world == w.(db := e.world.db) && e.world.db.secret == w.db.secret
              && Writes(w.db, e.world.db, r, w.db.requests[r].(status := Pending, failureReason := "", modified := w.now),
                        [RequestRetried], w.now)
              && RecordFollows(w.db, e.world.db, w.db.requests[r].doctype, w.db.requests[r].docname, Pending)
            else e == Effect(w, Throw(if r in w.db.requests then WrongStatus else RequestMissing))
  {
    assert Logs(r, [RequestRetried], w.now) == [Event(r, RequestRetried, w.now)];
  }

  /** Cancelling succeeds exactly on Pending requests; Failed ones are refused by the table, others by
      the endpoint. */
  lemma CancelExactlyWhen(w: World, r: RequestId)
    ensures var e := EffectOf(w, Cancel(r));
            if r in w.db.requests && w.db.requests[r].status == Pending then
              && e.reply == Done && e.world == w.(db := e.world.db) && e.world.db.secret == w.db.secret
              && Writes(w.db, e.world.db, r, w.db.requests[r].(status := Cancelled, cancelledOn := Some(w.now), modified := w.now),
                        [RequestCancelled], w.now)
              && RecordFollows(w.db, e.world.db, w.db.requests[r].doctype, w.db.requests[r].docname, Cancelled)
            else e == Effect(w, Throw(if r !in w.db.requests then RequestMissing
                                      else if w.db.requests[r].status == Failed then TransitionRejected else WrongStatus))
  {
    assert Logs(r, [RequestCancelled], w.now) == [Event(r, RequestCancelled, w.now)];
  }

  lemma AbortAnswers(w: World, r: RequestId)
    ensures EffectOf(w, Abort(r)) ==
            Effect(w, if r !in w.db.requests then Throw(RequestMissing)
                      else if w.db.requests[r].status == InProgress then Throw(TransitionRejected) else Done)
  {
  }

  lemma SameRecords(db: Db, doctype: string, docname: string, status: Status, db': Db)
    requires db'.documents == WithDocumentStatus(db.documents, doctype, docname, status)
    ensures RecordFollows(db, db', doctype, docname, status)
  {
  }

  lemma PollTables(w: World, doctype: string, docname: string)
    ensures var e := EffectOf(w, GetStatus(doctype, docname));
            var ids := StaleIds(w, doctype, docname);
            && e.reply == Done && e.world == w.(db := w.db.(requests := e.world.db.requests, documents := e.world.db.documents))
            && e.world.db.requests == Recovered(w.db.requests, ids)
            && e.world.db.documents == if ids == {} then w.db.documents else WithDocumentStatus(w.db.documents, doctype, docname, Pending)
  {
    hide Recovered, WithDocumentStatus, StaleIds;
  }

  /** The poll recovers exactly the document's requests that have been In Progress for 300 seconds. */
  lemma PollRecoversExactly(w: World, doctype: string, docname: string)
    ensures var e := EffectOf(w, GetStatus(doctype, docname));
            var db := e.world.db;
            && e.reply == Done && e.world == w.(db := w.db.(requests := db.requests, documents := db.documents))
            && db.requests.Keys == w.db.requests.Keys
            && (forall r :: r in db.requests ==>
                  var row := w.db.requests[r];
                  db.requests[r] == if row.doctype == doctype && row.docname == docname && row.status == InProgress
                                       && w.now >= row.modified + 300
                                    then row.(status := Pending) else row)
            && (if exists r :: r in w.db.requests && db.requests[r] != w.db.requests[r]
                then RecordFollows(w.db, db, doctype, docname, Pending) else db.documents == w.db.documents)
  {
    PollTables(w, doctype, docname);
    hide EffectOf, WithDocumentStatus, RecordFollows;
    var e := EffectOf(w, GetStatus(doctype, docname));
    assert forall r :: r in StaleIds(w, doctype, docname) ==> e.world.db.requests[r] != w.db.requests[r];
    if exists r :: r in w.db.requests && e.world.db.requests[r] != w.db.requests[r] {
      SameRecords(w.db, doctype, docname, Pending, e.world.db);
    }
  }

  // ---------- creation ----------

  /** A new Pending row. */
  predicate IsNew(row: Request, doctype: string, docname: string, rule: string, profile: string, signer: string, now: int) {
    && row.doctype == doctype && row.docname == docname && row.rule == rule && row.profile == profile && row.expectedSigner == signer
    && row.status == Pending && row.failureReason == "" && row.createdOn == now && row.modified == now
    && row.hashToSign.None? && row.actualSigner.None? && row.signatureBytes.None? && row.fingerprint.None?
    && row.signedFile.None? && row.signedOn.None? && row.cancelledOn.None?
  }

  /** A matched rule asks for a request exactly if document and rule have none, under a new name. */
  lemma RuleAsksExactlyOnce(w: World, c: RuleCall)
    requires Named(w)
    requires c.found.Some? <==> exists r :: r in w.db.requests && w.db.requests[r].doctype == c.doctype
                                            && w.db.requests[r].docname == c.docname && w.db.requests[r].rule == c.rule
    ensures var e := EffectOf(w, RuleMatched(c));
            var db := e.world.db;
            var r := w.db.nextRequest;
            var after := if c.hasTemplate then [RuleEvaluated, TemplateSelected] else [RuleEvaluated];
            && e.reply == Done && e.world == w.(db := db) && r !in w.db.requests
            && db == w.db.(requests := db.requests, nextRequest := db.nextRequest, events := db.events)
            && if c.found.Some? then db.requests == w.db.requests && db.events == w.db.events + Logs(c.found.value, after, w.now)
               else && r in db.requests && IsNew(db.requests[r], c.doctype, c.docname, c.rule, c.profile, c.signer, w.now)
                    && db.requests == w.db.requests[r := db.requests[r]] && db.nextRequest == r + 1
                    && db.events == w.db.events + Logs(r, [RequestCreated] + after, w.now)
  {
    var r := if c.found.Some? then c.found.value else w.db.nextRequest;
    var after := if c.hasTemplate then [RuleEvaluated, TemplateSelected] else [RuleEvaluated];
    assert RuleEvents(c, r, w.now) == Logs(r, after, w.now);
    assert [Event(r, RequestCreated, w.now)] + RuleEvents(c, r, w.now) == Logs(r, [RequestCreated] + after, w.now);
  }

  /** Saving a Document Sign record: refused exactly for an inactive profile; a request is asked for
      exactly if the record is a complete Draft without an open one, and it is the one then named. */
  lemma SaveAsksExactlyWhen(w: World, c: SaveCall)
    requires Named(w)
    ensures var e := EffectOf(w, SaveDocument(c));
            var db := e.world.db;
            var r := w.db.nextRequest;
            var before := if c.name in w.db.documents then w.db.documents[c.name]
                       else DocumentSign(c.uploadedPdf, c.profile, c.sigWidth, c.sigHeight, Draft, None, None);
            var saved := before.(uploadedPdf := c.uploadedPdf, profile := c.profile, sigWidth := c.sigWidth, sigHeight := c.sigHeight);
            var open := exists q :: q in w.db.requests && w.db.requests[q].doctype == "DSC Document Sign"
                                    && w.db.requests[q].docname == c.name && w.db.requests[q].status in {Pending, InProgress};
            if c.profile in w.db.profiles && !w.db.profiles[c.profile].active then e == Effect(w, Throw(ProfileInactive))
            else
              && e.reply == Done && e.world == w.(db := db)
              && db == w.db.(requests := db.requests, nextRequest := db.nextRequest, documents := db.documents)
              && if before.status == Draft && c.uploadedPdf != "" && c.profile != "" && c.sigWidth != 0.0 && c.sigHeight != 0.0 && !open
                 then && r !in w.db.requests && r in db.requests && db.requests == w.db.requests[r := db.requests[r]]
                      && IsNew(db.requests[r], "DSC Document Sign", c.name, "", c.profile, c.user, w.now) && db.nextRequest == r + 1
                      && db.documents == w.db.documents[c.name := saved.(signingRequest := Some(r), status := Pending)]
                 else db.requests == w.db.requests && db.nextRequest == r && db.documents == w.db.documents[c.name := saved]
  {
    assert HasOpenRequest(w.db, c.name) <==>
           exists q :: q in w.db.requests && w.db.requests[q].doctype == "DSC Document Sign"
                       && w.db.requests[q].docname == c.name && w.db.requests[q].status in {Pending, InProgress};
    hide HasOpenRequest;
  }

  // ---------- scheduled jobs ----------

  /** The hourly job fails exactly the requests In Progress for longer than the timeout, 180 seconds
      if none is set, and writes nothing else. */
  lemma CleanupFailsExactly(w: World)
    ensures var e := EffectOf(w, Cleanup);
            var timeout := if w.settings.timeoutSeconds != 0 then w.settings.timeoutSeconds else 180;
            && e.world == w.(db := w.db.(requests := e.world.db.requests)) && e.world.db.requests.Keys == w.db.requests.Keys
            && forall r :: r in w.db.requests ==>
                 var row, row' := w.db.requests[r], e.world.db.requests[r];
                 if row.status == InProgress && row.modified + timeout < w.now
                 then row' == row.(status := Failed, failureReason := row'.failureReason, modified := w.now) && row'.failureReason != ""
                 else row' == row
  {
  }

  /** The daily job deletes exactly the Signed, Failed and Cancelled requests created before the
      cutoff, and nothing else: trail, files and records stay. */
  lemma PurgeDeletesExactly(w: World, cutoff: int)
    ensures var w' := Apply(w, Purge(cutoff));
            && w' == w.(db := w.db.(requests := w'.db.requests))
            && forall r :: r in w'.db.requests <==>
                 r in w.db.requests && (w.db.requests[r].status in {Draft, Pending, InProgress} || w.db.requests[r].createdOn >= cutoff)
    ensures forall r :: r in Apply(w, Purge(cutoff)).db.requests ==> Apply(w, Purge(cutoff)).db.requests[r] == w.db.requests[r]
  {
  }

  /** An audit event can be neither edited nor deleted. */
  lemma AlterAnswers(w: World, index: nat, edited: Option<Event>)
    ensures EffectOf(w, AlterEvent(index, edited))
         == Effect(w, Throw(if index < |w.db.events| then AppendOnly else EventMissing))
  {
  }
}
