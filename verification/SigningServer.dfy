/** The endpoints and jobs as they run: statements on a staged database that a return or an
    explicit commit makes durable and a throw rolls back, beside a session cache that neither
    touches. Each is proved to have the effect that `Lifecycle` states for it. */
module SigningServer {
  import opened Wrappers
  import opened Records
  import opened Lifecycle

  /** The database when the verified PDF has been saved and the statements behind it have run as
      far as they get. */
  function SavedDb(db: Db, c: FinalizeCall, s: Session, r: RequestId, now: int): (db': Db)
    requires r in db.requests
  {
    var file := SignedFile(s.doctype, s.docname, AttachedTo(db.files, s.doctype, s.docname) + 1,
                           SignedPdf(s.preparedPdf, BuildCms(s, c.signature, c.chain)), c.session);
    db.(files := db.files + [file],
        requests := if SignsRow(c) then db.requests[r := SignedRow(db.requests[r], c, s, |db.files|, now)] else db.requests,
        documents := if MirrorsSigned(c) && s.doctype == DOCUMENT_SIGN && s.docname in db.documents
                     then db.documents[s.docname := db.documents[s.docname].(status := Signed, signedFile := Some(|db.files|))]
                     else db.documents,
        events := if LogsSigned(c) then db.events + [Event(r, RequestSigned, now)] else db.events)
  }

  /** The database when control leaves the `try` block of `finalize`. */
  function AssembledDb(db: Db, c: FinalizeCall, s: Session, r: RequestId, now: int): (db': Db)
    requires r in db.requests
  {
    if c.fault.AssemblyFails? then db
    else
      var checked := db.(events := db.events + [Event(r, PdfVerified(c.verification.valid), now)]);
      if !Verified(c.verification) then
        checked.(requests := db.requests[r := FailedRow(db.requests[r], "Signed PDF verification failed", now)],
                 events := checked.events + [Event(r, RequestFailed, now)])
      else if c.fault.SaveFails? then checked
      else SavedDb(checked, c, s, r, now)
  }

  /** What the `try` block leaves of each table. */
  lemma AssembledTables(db: Db, c: FinalizeCall, s: Session, r: RequestId, now: int)
    requires r in db.requests && !c.fault.BadCert?
    ensures var db' := AssembledDb(db, c, s, r, now);
            && db'.requests.Keys == db.requests.Keys && db'.nextRequest == db.nextRequest
            && db'.profiles == db.profiles && db'.secret == db.secret
            && (forall k :: k in db.requests && k != r ==> db'.requests[k] == db.requests[k])
            && db'.documents == (if MirrorsSigned(c) && s.doctype == DOCUMENT_SIGN && s.docname in db.documents
                                 then db.documents[s.docname := db.documents[s.docname].(status := Signed, signedFile := Some(|db.files|))]
                                 else db.documents)
            && db'.files == (if SavesFile(c)
                             then db.files + [SignedFile(s.doctype, s.docname, AttachedTo(db.files, s.doctype, s.docname) + 1,
                                                         SignedPdf(s.preparedPdf, BuildCms(s, c.signature, c.chain)), c.session)]
                             else db.files)
  {
    hide SignedRow, FailedRow, BuildCms, AttachedTo;
  }

  /** The row that the `except` block leaves; a first failure inside the `try` block shows no more. */
  lemma AssembledRow(db: Db, c: FinalizeCall, s: Session, r: RequestId, now: int)
    requires r in db.requests && !c.fault.BadCert?
    ensures var row := AssembledDb(db, c, s, r, now).requests[r];
            var evidence := if SignsRow(c) then SignedRow(db.requests[r], c, s, |db.files|, now) else db.requests[r];
            && (Succeeds(c) ==> row == evidence)
            && FailedRow(row, FailureReason(c), now) == FailedRow(evidence, FailureReason(c), now)
  {
    hide SignedRow, BuildCms, AttachedTo;
  }

  lemma AssembledEvents(db: Db, c: FinalizeCall, s: Session, r: RequestId, now: int, before: seq<Event>)
    requires r in db.requests && !c.fault.BadCert?
    requires db.events == before + [Event(r, SignatureReturned, now)] + [Event(r, CertPresented, now)]
    ensures AssembledDb(db, c, s, r, now).events + (if Succeeds(c) then [] else [Event(r, RequestFailed, now)])
         == before + FinalizeEvents(c, r, now)
  {
    hide SignedRow, FailedRow, BuildCms, AttachedTo;
  }

  /** Two events, the `try` block, and on an exception the `except` block, make up the stated effect. */
  lemma AssembledThenDecided(w: World, c: FinalizeCall)
    requires Reaches(w, c)
    ensures var s := w.cache[c.session];
            var r := s.request;
            var row := w.db.requests[r];
            var returned := w.db.(events := w.db.events + [Event(r, SignatureReturned, w.now)] + [Event(r, CertPresented, w.now)]);
            var db := AssembledDb(returned, c, s, r, w.now);
            r in db.requests
            && FinalizeDb(w, c) ==
               if Succeeds(c) then db
               else db.(requests := db.requests[r := FailedRow(db.requests[r], FailureReason(c), w.now)],
                        documents := WithDocumentStatus(db.documents, row.doctype, row.docname, Failed),
                        events := db.events + [Event(r, RequestFailed, w.now)])
  {
    hide AssembledDb, FinalizeEvents, FailureReason, SignedRow, FailedRow, WithDocumentStatus, AttachedTo, BuildCms;
    var s := w.cache[c.session];
    var r := s.request;
    var returned := w.db.(events := w.db.events + [Event(r, SignatureReturned, w.now)] + [Event(r, CertPresented, w.now)]);
    var db := AssembledDb(returned, c, s, r, w.now);
    AssembledTables(returned, c, s, r, w.now);
    AssembledRow(returned, c, s, r, w.now);
    AssembledEvents(returned, c, s, r, w.now, w.db.events);
    assert FinalizeDb(w, c).requests
        == if Succeeds(c) then db.requests else db.requests[r := FailedRow(db.requests[r], FailureReason(c), w.now)];
  }

  lemma RecoveredNone(requests: map<RequestId, Request>)
    ensures Recovered(requests, {}) == requests
  {
  }

  lemma RecoveredOne(requests: map<RequestId, Request>, ids: set<RequestId>, r: RequestId)
    requires r in requests && r !in ids
    ensures Recovered(requests, ids)[r := requests[r].(status := Pending)] == Recovered(requests, ids + {r})
  {
  }

  function RecoverRow(db: Db, r: RequestId, doctype: string, docname: string): (db': Db)
    requires r in db.requests
  {
    db.(requests := db.requests[r := db.requests[r].(status := Pending)],
        documents := WithDocumentStatus(db.documents, doctype, docname, Pending))
  }

  /** The database when the poll has recovered the requests `hit`. */
  function Polled(db: Db, hit: set<RequestId>, doctype: string, docname: string): (db': Db) {
    db.(requests := Recovered(db.requests, hit),
        documents := if hit == {} then db.documents else WithDocumentStatus(db.documents, doctype, docname, Pending))
  }

  lemma PolledNone(db: Db, doctype: string, docname: string)
    ensures Polled(db, {}, doctype, docname) == db
  {
    RecoveredNone(db.requests);
  }

  lemma PolledAll(w: World, doctype: string, docname: string)
    ensures StatusEffect(w, doctype, docname)
         == Effect(w.(db := Polled(w.db, StaleIds(w, doctype, docname), doctype, docname)), Done)
  {
  }

  lemma PolledOne(db: Db, hit: set<RequestId>, r: RequestId, doctype: string, docname: string)
    requires r in db.requests && r !in hit
    ensures r in Polled(db, hit, doctype, docname).requests
    ensures Polled(db, hit, doctype, docname).requests[r] == db.requests[r]
    ensures RecoverRow(Polled(db, hit, doctype, docname), r, doctype, docname) == Polled(db, hit + {r}, doctype, docname)
  {
    RecoveredOne(db.requests, hit, r);
  }

  lemma ExpiredNone(requests: map<RequestId, Request>, now: int)
    ensures Expired(requests, {}, now) == requests
  {
  }

  lemma ExpiredOne(requests: map<RequestId, Request>, ids: set<RequestId>, r: RequestId, now: int)
    requires r in requests && r !in ids
    ensures r in Expired(requests, ids, now) && Expired(requests, ids, now)[r] == requests[r]
    ensures Expired(requests, ids, now)[r := FailedRow(requests[r], "Signing timed out", now)] == Expired(requests, ids + {r}, now)
  {
  }

  lemma OpenRequestsAreRows(db: Db, documents: map<string, DocumentSign>, name: string)
    ensures HasOpenRequest(db.(documents := documents), name) == HasOpenRequest(db, name)
  {
  }

  class Server {
    var committed: Db
    var staged: Db
    var cache: map<SessionId, Session>
    var nextSession: SessionId
    var now: int
    const settings: Settings

    /** Between two calls nothing is staged. */
    ghost predicate Idle()
      reads this
    {
      staged == committed
    }

    ghost function Seen(): (w: World)
      reads this
    {
      World(committed, cache, nextSession, now, settings)
    }

    constructor (settings: Settings, now: int)
      ensures Idle()
      ensures Seen() == World(Db(map[], 0, map[], [], [], map[], None), map[], 0, now, settings)
    {
      this.settings := settings;
      this.now := now;
      committed := Db(map[], 0, map[], [], [], map[], None);
      staged := Db(map[], 0, map[], [], [], map[], None);
      cache := map[];
      nextSession := 0;
    }

    // ---------- database primitives ----------

    method Commit()
      modifies `committed
      ensures committed == staged
    {
      committed := staged;
    }

    method Rollback()
      modifies `staged
      ensures staged == committed
    {
      staged := committed;
    }

    /** `frappe.db.set_value` on a request: no transition check. */
    method SetRow(r: RequestId, row: Request)
      modifies `staged
      ensures staged == old(staged).(requests := old(staged).requests[r := row])
    {
      staged := staged.(requests := staged.requests[r := row]);
    }

    method SetDocumentStatus(doctype: string, docname: string, status: Status)
      modifies `staged
      ensures staged == old(staged).(documents := WithDocumentStatus(old(staged).documents, doctype, docname, status))
    {
      if doctype == DOCUMENT_SIGN && docname in staged.documents {
        staged := staged.(documents := staged.documents[docname := staged.documents[docname].(status := status)]);
      }
    }

    method LogEvent(r: RequestId, kind: EventKind)
      modifies `staged
      ensures staged == old(staged).(events := old(staged).events + [Event(r, kind, now)])
      ensures |staged.events| == |old(staged).events| + 1 && staged.events[|old(staged).events|] == Event(r, kind, now)
      ensures forall i :: 0 <= i < |old(staged).events| ==> staged.events[i] == old(staged).events[i]
    {
      staged := staged.(events := staged.events + [Event(r, kind, now)]);
    }

    /** `doc.save`: refused by the transition table, or written. */
    method Save(r: RequestId, row: Request) returns (saved: bool)
      requires r in staged.requests
      modifies `staged
      ensures saved <==> Allowed(old(staged).requests[r].status, row.status)
      ensures saved <==> old(staged).requests[r].status == row.status
                         || (old(staged).requests[r].status, row.status)
                            in {(Pending, InProgress), (Pending, Cancelled), (InProgress, Signed), (InProgress, Failed), (Failed, Pending)}
      ensures staged == if saved then old(staged).(requests := old(staged).requests[r := row]) else old(staged)
    {
      var before := staged.requests[r].status;
      if before == row.status {
        saved := true;
      } else {
        match before
        case Pending => saved := row.status == InProgress || row.status == Cancelled;
        case InProgress => saved := row.status == Signed || row.status == Failed;
        case Failed => saved := row.status == Pending;
        case _ => saved := false;
      }
      if saved {
        staged := staged.(requests := staged.requests[r := row]);
      }
    }

    // ---------- endpoints ----------

    method CheckSigner(c: InitiateCall) returns (error: Option<Error>)
      requires Idle()
      ensures error == SignerCheck(Seen(), c)
      ensures error.None? <==>
                && c.cert != [] && c.found.Some? && c.found.value in staged.requests
                && (var row := staged.requests[c.found.value];
                    && Matches(row, c.doctype, c.docname, Pending)
                    && (row.expectedSigner == "" || row.expectedSigner == c.user || c.mayWrite)
                    && row.profile in staged.profiles
                    && (var profile := staged.profiles[row.profile];
                        && profile.active
                        && ((c.user != "" && c.user in profile.allowedUsers) || forall u :: u in profile.allowedUsers ==> u == "")
                        && (profile.notAfterDay.Some? ==> now / SECONDS_PER_DAY <= profile.notAfterDay.value)))
                && (settings.enforceLocation ==> c.located)
    {
      if c.cert == [] { return Some(CertMissing); }
      if c.found.None? || c.found.value !in staged.requests
         || !Matches(staged.requests[c.found.value], c.doctype, c.docname, Pending) {
        return Some(NoPendingRequest);
      }
      var row := staged.requests[c.found.value];
      if row.expectedSigner != "" && row.expectedSigner != c.user {
        if !c.mayWrite { return Some(NotAuthorised); }
      }
      if row.profile !in staged.profiles { return Some(ProfileMissing); }
      var profile := staged.profiles[row.profile];
      if !profile.active { return Some(ProfileInactive); }
      var allowed := NamedUsers(profile);
      assert forall u :: u in allowed <==> u in profile.allowedUsers && u != "";
      if allowed != {} && c.user !in allowed {
        ghost var other :| other in allowed;
        return Some(NotAllowed);
      }
      if profile.notAfterDay.Some? && profile.notAfterDay.value < now / SECONDS_PER_DAY { return Some(CertExpired); }
      if settings.enforceLocation && !c.located { return Some(LocationRequired); }
      return None;
    }

    method Initiate(c: InitiateCall) returns (reply: Reply)
      requires Idle()
      modifies this
      ensures Idle()
      ensures Seen() == InitiateEffect(old(Seen()), c).world
      ensures reply == InitiateEffect(old(Seen()), c).reply
    {
      ghost var w := Seen();
      hide SignerCheck, FinalizeEffect;
      var refused := CheckSigner(c);
      if refused.Some? { return Throw(refused.value); }
      var r := c.found.value;
      if c.doctype == DOCUMENT_SIGN {
        if c.docname !in staged.documents || c.upload.None? { return Throw(BadUpload); }
        if staged.documents[c.docname].sigWidth == 0.0 || staged.documents[c.docname].sigHeight == 0.0 { return Throw(NoPlacement); }
        SetDocumentStatus(c.doctype, c.docname, InProgress);
      }
      SetRow(r, staged.requests[r].(status := InProgress, modified := now));
      if !Registered(staged.profiles[staged.requests[r].profile], c.cert) {
        Rollback();
        return Throw(FingerprintMismatch);
      }
      if c.fault.BeforeSessionStored? {
        Rollback();
        return Throw(Crash);
      }
      var attrs := SignedAttrs(now, PdfDigest(Algorithm(settings), c.prepared));
      var sid := nextSession;
      nextSession := nextSession + 1;
      cache := cache[sid := Session(r, c.doctype, c.docname, c.prepared, attrs, c.cert, now + SESSION_TTL)];
      if c.fault.AfterSessionStored? {
        Rollback();
        return Throw(Crash);
      }
      Issue(r, attrs, c);
      assert committed.requests == InitiateDb(w, c).requests;
      assert committed.documents == InitiateDb(w, c).documents;
      assert committed == InitiateDb(w, c);
      return Issued(r, sid, AttrsDigest(attrs), Algorithm(settings), now);
    }

    /** The statements of `initiate` behind `prepare_pdf_for_signing`, and the commit at its return. */
    method Issue(r: RequestId, attrs: SignedAttrs, c: InitiateCall)
      requires r in staged.requests
      modifies `staged, `committed
      ensures Idle()
      ensures committed == old(staged).(
                requests := old(staged).requests[r := old(staged).requests[r].(hashToSign := Some(AttrsDigest(attrs)))],
                events := old(staged).events + ((if c.located then [Event(r, SignerLocationCaptured, now)] else [])
                                                + [Event(r, HashComputed, now), Event(r, AgentCalled, now)]),
                secret := if old(staged).secret.Some? then old(staged).secret else Some(c.freshSecret))
    {
      SetRow(r, staged.requests[r].(hashToSign := Some(AttrsDigest(attrs))));
      LogIssued(r, c.located);
      EnsureSecret(c.freshSecret);
      Commit();
    }

    method LogIssued(r: RequestId, located: bool)
      modifies `staged
      ensures staged == old(staged).(events := old(staged).events
                + ((if located then [Event(r, SignerLocationCaptured, now)] else [])
                   + [Event(r, HashComputed, now), Event(r, AgentCalled, now)]))
    {
      if located { LogEvent(r, SignerLocationCaptured); }
      LogEvent(r, HashComputed);
      LogEvent(r, AgentCalled);
    }

    /** `get_or_create_hmac_secret`: the first call creates the secret and commits at once. */
    method EnsureSecret(newSecret: string)
      modifies `staged, `committed
      ensures staged == old(staged).(secret := if old(staged).secret.Some? then old(staged).secret else Some(newSecret))
      ensures committed == if old(staged).secret.Some? then old(committed) else staged
    {
      if staged.secret.None? {
        staged := staged.(secret := Some(newSecret));
        Commit();
      }
    }

    method Finalize(c: FinalizeCall) returns (reply: Reply)
      requires Idle()
      modifies this
      ensures Idle()
      ensures Seen() == FinalizeEffect(old(Seen()), c).world
      ensures reply == FinalizeEffect(old(Seen()), c).reply
    {
      ghost var w := Seen();
      if c.session !in cache || now >= cache[c.session].expires { return Throw(SessionGone); }
      var s := cache[c.session];
      var r := s.request;
      if c.fault.BadCert? { return Throw(Crash); }
      LogEvent(r, SignatureReturned);
      LogEvent(r, CertPresented);
      if r !in staged.requests {
        Rollback();
        return Throw(RequestMissing);
      }
      var row := staged.requests[r];
      if Mismatch(staged, row, c.cert) {
        SetRow(r, FailedRow(row, "Certificate fingerprint mismatch", now));
        LogEvent(r, RequestFailed);
        Commit();
        assert committed.events == MismatchDb(w, r).events;
        return Throw(FingerprintMismatch);
      }
      cache := cache - {c.session};
      AssembledThenDecided(w, c);
      var error := Assemble(c, s, r);
      if error.None? {
        Commit();
        return Finalized(|committed.files| - 1);
      }
      SetRow(r, FailedRow(staged.requests[r], FailureReason(c), now));
      SetDocumentStatus(row.doctype, row.docname, Failed);
      LogEvent(r, RequestFailed);
      Commit();
      return Throw(error.value);
    }

    /** The `try` block of `finalize`; `error` is the exception that leaves it. */
    method Assemble(c: FinalizeCall, s: Session, r: RequestId) returns (error: Option<Error>)
      requires r in staged.requests && !c.fault.BadCert?
      modifies `staged
      ensures error == if Succeeds(c) then None else Some(FinalizeError(c))
      ensures staged == AssembledDb(old(staged), c, s, r, now)
    {
      if c.fault.AssemblyFails? { return Some(Crash); }
      var cms := BuildCms(s, c.signature, c.chain);
      LogEvent(r, PdfVerified(c.verification.valid));
      if !c.verification.valid && c.verification.signatures == 0 {
        SetRow(r, FailedRow(staged.requests[r], "Signed PDF verification failed", now));
        LogEvent(r, RequestFailed);
        return Some(VerificationFailed);
      }
      if c.fault.SaveFails? { return Some(Crash); }
      error := SaveSigned(c, s, r, cms);
    }

    /** The `try` block from `save_signed_pdf` on. */
    method SaveSigned(c: FinalizeCall, s: Session, r: RequestId, cms: Cms) returns (error: Option<Error>)
      requires r in staged.requests && SavesFile(c) && cms == BuildCms(s, c.signature, c.chain)
      modifies `staged
      ensures error == if c.fault.NoFault? then None else Some(Crash)
      ensures staged == SavedDb(old(staged), c, s, r, now)
    {
      var existing := CountAttached(s.doctype, s.docname);
      var file := |staged.files|;
      staged := staged.(files := staged.files
                          + [SignedFile(s.doctype, s.docname, existing + 1, SignedPdf(s.preparedPdf, cms), c.session)]);
      if c.fault.RowFails? { return Some(Crash); }
      SetRow(r, SignedRow(staged.requests[r], c, s, file, now));
      if c.fault.MirrorFails? { return Some(Crash); }
      if s.doctype == DOCUMENT_SIGN && s.docname in staged.documents {
        staged := staged.(documents := staged.documents[
          s.docname := staged.documents[s.docname].(status := Signed, signedFile := Some(file))]);
      }
      if c.fault.EventFails? { return Some(Crash); }
      LogEvent(r, RequestSigned);
      if c.fault.TimelineFails? { return Some(Crash); }
      return None;
    }

    /** The query that counts the earlier signed files of a document. */
    method CountAttached(doctype: string, docname: string) returns (n: nat)
      ensures n == AttachedTo(staged.files, doctype, docname)
    {
      n := 0;
      for i := 0 to |staged.files|
        invariant n == AttachedTo(staged.files[..i], doctype, docname)
      {
        assert staged.files[..i + 1][..i] == staged.files[..i];
        if staged.files[i].doctype == doctype && staged.files[i].docname == docname {
          n := n + 1;
        }
      }
      assert staged.files[..|staged.files|] == staged.files;
    }

    /** One iteration of the poll: a request In Progress for five minutes goes back to Pending,
        without touching `modified`. */
    method RecoverIfStale(r: RequestId, doctype: string, docname: string)
      requires r in staged.requests
      modifies `staged
      ensures staged == if StaleFor(old(staged).requests[r], doctype, docname, now)
                        then RecoverRow(old(staged), r, doctype, docname) else old(staged)
    {
      var row := staged.requests[r];
      if row.doctype == doctype && row.docname == docname && row.status == InProgress && now - row.modified >= STALE_IN_PROGRESS {
        SetRow(r, row.(status := Pending));
        SetDocumentStatus(doctype, docname, Pending);
      }
    }

    method RequestsOf(doctype: string, docname: string) returns (rows: set<RequestId>)
      requires Idle()
      ensures rows == set r | r in staged.requests && staged.requests[r].doctype == doctype && staged.requests[r].docname == docname
      ensures StaleIds(Seen(), doctype, docname) <= rows
    {
      rows := set r | r in staged.requests && staged.requests[r].doctype == doctype && staged.requests[r].docname == docname;
    }

    method GetSigningStatus(doctype: string, docname: string) returns (reply: Reply)
      requires Idle()
      modifies `staged, `committed
      ensures Idle() && reply == Done
      ensures Seen() == StatusEffect(old(Seen()), doctype, docname).world
    {
      hide Polled, Recovered, RecoverRow, WithDocumentStatus, StatusEffect, StaleFor;
      ghost var w := Seen();
      var todo := RequestsOf(doctype, docname);
      ghost var hit: set<RequestId> := {};
      PolledNone(w.db, doctype, docname);
      while todo != {}
        invariant todo !! hit && hit <= StaleIds(w, doctype, docname) <= todo + hit && todo <= w.db.requests.Keys
        invariant staged == Polled(w.db, hit, doctype, docname)
        modifies `staged
        decreases |todo|
      {
        var r :| r in todo;
        todo := todo - {r};
        PolledOne(w.db, hit, r, doctype, docname);
        RecoverIfStale(r, doctype, docname);
        if r in StaleIds(w, doctype, docname) {
          hit := hit + {r};
        }
      }
      assert hit == StaleIds(w, doctype, docname);
      PolledAll(w, doctype, docname);
      Commit();
      return Done;
    }

    /** The tail shared by `retry`, `cancel` and `abort_in_progress`: save, mirror, log. */
    method SaveAndMirror(r: RequestId, row: Request, kind: EventKind) returns (reply: Reply)
      requires Idle() && r in staged.requests
      modifies `staged, `committed
      ensures Idle()
      ensures Seen() == GuardedSave(old(Seen()), r, row, kind).world
      ensures reply == GuardedSave(old(Seen()), r, row, kind).reply
    {
      var saved := Save(r, row);
      if !saved {
        Rollback();
        return Throw(TransitionRejected);
      }
      SetDocumentStatus(row.doctype, row.docname, row.status);
      LogEvent(r, kind);
      Commit();
      return Done;
    }

    method Retry(r: RequestId) returns (reply: Reply)
      requires Idle()
      modifies `staged, `committed
      ensures Idle()
      ensures Seen() == RetryEffect(old(Seen()), r).world && reply == RetryEffect(old(Seen()), r).reply
    {
      if r !in staged.requests { return Throw(RequestMissing); }
      var row := staged.requests[r];
      if row.status != Failed { return Throw(WrongStatus); }
      reply := SaveAndMirror(r, row.(status := Pending, failureReason := "", modified := now), RequestRetried);
    }

    method Cancel(r: RequestId) returns (reply: Reply)
      requires Idle()
      modifies `staged, `committed
      ensures Idle()
      ensures Seen() == CancelEffect(old(Seen()), r).world && reply == CancelEffect(old(Seen()), r).reply
    {
      if r !in staged.requests { return Throw(RequestMissing); }
      var row := staged.requests[r];
      if row.status != Pending && row.status != Failed { return Throw(WrongStatus); }
      reply := SaveAndMirror(r, row.(status := Cancelled, cancelledOn := Some(now), modified := now), RequestCancelled);
    }

    method AbortInProgress(r: RequestId) returns (reply: Reply)
      requires Idle()
      modifies `staged, `committed
      ensures Idle()
      ensures Seen() == AbortEffect(old(Seen()), r).world && reply == AbortEffect(old(Seen()), r).reply
    {
      if r !in staged.requests { return Throw(RequestMissing); }
      var row := staged.requests[r];
      if row.status != InProgress { return Done; }
      reply := SaveAndMirror(r, row.(status := Pending, failureReason := "Client-side abort", modified := now), RequestAborted);
    }

    /** `create_signing_request` and the events that follow it. */
    method CreateForRule(c: RuleCall) returns (reply: Reply)
      requires Idle()
      requires c.found.Some? <==> RuleHasRequest(staged, c.doctype, c.docname, c.rule)
      modifies `staged, `committed
      ensures Idle() && reply == Done
      ensures Seen() == RuleEffect(old(Seen()), c).world
    {
      var r;
      if c.found.Some? {
        r := c.found.value;
      } else {
        r := staged.nextRequest;
        staged := staged.(nextRequest := r + 1);
        SetRow(r, NewRequest(c.doctype, c.docname, c.rule, c.profile, c.signer, now));
        LogEvent(r, RequestCreated);
      }
      LogEvent(r, RuleEvaluated);
      if c.hasTemplate { LogEvent(r, TemplateSelected); }
      Commit();
      assert committed.events == RuleEffect(old(Seen()), c).world.db.events;
      return Done;
    }

    /** `_create_signing_request` of a Document Sign record. */
    method CreateSigningRequest(name: string, profile: string, user: string)
      requires name in staged.documents
      modifies `staged
      ensures staged ==
              if HasOpenRequest(old(staged), name) then old(staged)
              else old(staged).(
                requests := old(staged).requests[old(staged).nextRequest := NewRequest(DOCUMENT_SIGN, name, "", profile, user, now)],
                nextRequest := old(staged).nextRequest + 1,
                documents := old(staged).documents[name := old(staged).documents[name].(
                               signingRequest := Some(old(staged).nextRequest), status := Pending)])
    {
      hide HasOpenRequest, NewRequest;
      if HasOpenRequest(staged, name) { return; }
      var r := staged.nextRequest;
      staged := staged.(nextRequest := r + 1);
      SetRow(r, NewRequest(DOCUMENT_SIGN, name, "", profile, user, now));
      staged := staged.(documents := staged.documents[name := staged.documents[name].(signingRequest := Some(r))]);
      SetDocumentStatus(DOCUMENT_SIGN, name, Pending);
    }

    /** Saving a Document Sign record, with its `validate` and `on_update`. */
    method SaveDocumentSign(c: SaveCall) returns (reply: Reply)
      requires Idle()
      modifies `staged, `committed
      ensures Idle()
      ensures Seen() == SaveEffect(old(Seen()), c).world && reply == SaveEffect(old(Seen()), c).reply
    {
      hide HasOpenRequest, NewRequest;
      var d := if c.name in staged.documents
               then staged.documents[c.name].(uploadedPdf := c.uploadedPdf, profile := c.profile,
                                              sigWidth := c.sigWidth, sigHeight := c.sigHeight)
               else DocumentSign(c.uploadedPdf, c.profile, c.sigWidth, c.sigHeight, Draft, None, None);
      if c.profile in staged.profiles && !staged.profiles[c.profile].active {
        Rollback();
        return Throw(ProfileInactive);
      }
      OpenRequestsAreRows(staged, staged.documents[c.name := d], c.name);
      staged := staged.(documents := staged.documents[c.name := d]);
      if d.status == Draft && d.uploadedPdf != "" && d.profile != "" && d.sigWidth != 0.0 && d.sigHeight != 0.0 {
        CreateSigningRequest(c.name, d.profile, c.user);
      }
      Commit();
      return Done;
    }

    /** Saving an edited audit event, or deleting one (`edited` is None): `before_save` raises for a
        document that is not new, `on_trash` always, and the transaction is rolled back. */
    method AlterEvent(index: nat, edited: Option<Event>) returns (reply: Reply)
      requires Idle()
      modifies `staged
      ensures Idle() && Seen() == old(Seen()) && reply == EffectOf(Seen(), Records.AlterEvent(index, edited)).reply
    {
      if index >= |staged.events| { return Throw(EventMissing); }
      Rollback();
      return Throw(AppendOnly);
    }

    // ---------- scheduled jobs ----------

    method TimedOutRows() returns (stale: set<RequestId>)
      requires Idle()
      ensures stale == TimedOutIds(Seen())
    {
      var timeout := if settings.timeoutSeconds == 0 then DEFAULT_TIMEOUT else settings.timeoutSeconds;
      var cutoff := now - timeout;
      stale := set r | r in staged.requests && staged.requests[r].status == InProgress && staged.requests[r].modified < cutoff;
    }

    /** Hourly: requests In Progress for longer than the timeout become Failed. */
    method ExpireStale()
      requires Idle()
      modifies `staged, `committed
      ensures Idle() && Seen() == CleanupEffect(old(Seen())).world
    {
      hide Expired, FailedRow, TimedOut;
      ghost var w := Seen();
      var stale := TimedOutRows();
      var todo := stale;
      ghost var done: set<RequestId> := {};
      ExpiredNone(w.db.requests, now);
      while todo != {}
        invariant todo <= stale && done == stale - todo
        invariant staged == w.db.(requests := Expired(w.db.requests, done, now))
        modifies `staged
        decreases |todo|
      {
        var r :| r in todo;
        ExpiredOne(w.db.requests, done, r, now);
        SetRow(r, FailedRow(staged.requests[r], "Signing timed out", now));
        done := done + {r};
        todo := todo - {r};
      }
      assert done == stale;
      if stale != {} { Commit(); }
    }

    /** Daily: finished requests created before the cutoff are deleted; audit events stay. */
    method PurgeOld(cutoff: int)
      requires Idle()
      modifies `staged, `committed
      ensures Idle() && Seen() == PurgeEffect(old(Seen()), cutoff).world
    {
      ghost var w := Seen();
      var expired := set r | r in staged.requests && Purgeable(staged.requests[r], cutoff);
      assert expired == PurgeIds(w.db.requests, cutoff);
      var todo := expired;
      while todo != {}
        invariant todo <= expired
        invariant staged == w.db.(requests := w.db.requests - (expired - todo))
        modifies `staged
        decreases |todo|
      {
        var r :| r in todo;
        staged := staged.(requests := staged.requests - {r});
        assert w.db.requests - (expired - todo) - {r} == w.db.requests - (expired - (todo - {r}));
        todo := todo - {r};
      }
      assert expired - todo == expired;
      if expired != {} { Commit(); }
    }
  }
}
