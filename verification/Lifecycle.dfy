/** What each endpoint and job does, stated as one function from the world before the call to
    the world after it. `SigningServer` carries the calls out step by step, with a staged and a
    committed database, and is proved to have exactly these effects. */
module Lifecycle {
  import opened Wrappers
  import opened Records

  // ---------- queries ----------

  predicate Matches(row: Request, doctype: string, docname: string, status: Status) {
    row.doctype == doctype && row.docname == docname && row.status == status
  }

  predicate Live(w: World, sid: SessionId) {
    sid in w.cache && w.now < w.cache[sid].expires
  }

  /** Some live session would let `finalize` write to request `r`. */
  ghost predicate HasLiveSession(w: World, r: RequestId) {
    exists sid :: Live(w, sid) && w.cache[sid].request == r
  }

  /** `finalize` compares in lower case, and only when both fingerprints are there. */
  predicate Mismatch(db: Db, row: Request, cert: Option<Bytes>) {
    cert.Some? && row.profile in db.profiles && db.profiles[row.profile].fingerprint.Some?
    && db.profiles[row.profile].fingerprint.value.digest != Some(CertDigest(cert.value))
  }

  /** `initiate` compares the text as registered with the lower-case hex of the token's certificate. */
  predicate Registered(profile: Profile, cert: Bytes) {
    profile.fingerprint.Some? ==> profile.fingerprint.value == FingerprintText(Some(CertDigest(cert)), true)
  }

  function NamedUsers(profile: Profile): (users: set<string>) {
    set u | u in profile.allowedUsers && u != ""
  }

  // ---------- initiate ----------

  /** The first check on certificate, request, signer, profile and location that fails. */
  function SignerCheck(w: World, c: InitiateCall): (e: Option<Error>) {
    if c.cert == [] then Some(CertMissing)
    else if c.found.None? || c.found.value !in w.db.requests
            || !Matches(w.db.requests[c.found.value], c.doctype, c.docname, Pending) then Some(NoPendingRequest)
    else
      var row := w.db.requests[c.found.value];
      if row.expectedSigner != "" && row.expectedSigner != c.user && !c.mayWrite then Some(NotAuthorised)
      else if row.profile !in w.db.profiles then Some(ProfileMissing)
      else
        var profile := w.db.profiles[row.profile];
        if !profile.active then Some(ProfileInactive)
        else if NamedUsers(profile) != {} && c.user !in NamedUsers(profile) then Some(NotAllowed)
        else if profile.notAfterDay.Some? && profile.notAfterDay.value < w.now / SECONDS_PER_DAY then Some(CertExpired)
        else if w.settings.enforceLocation && !c.located then Some(LocationRequired)
        else None
  }

  /** For a Document Sign record: the upload must be a PDF and the box must have been placed. */
  function PlacementCheck(db: Db, c: InitiateCall): (e: Option<Error>) {
    if c.doctype != DOCUMENT_SIGN then None
    else if c.docname !in db.documents || c.upload.None? then Some(BadUpload)
    else if db.documents[c.docname].sigWidth == 0.0 || db.documents[c.docname].sigHeight == 0.0 then Some(NoPlacement)
    else None
  }

  /** The check, if any, at which `initiate` stops, in the order in which it makes them. */
  function InitiateCheck(w: World, c: InitiateCall): (e: Option<Error>) {
    if SignerCheck(w, c).Some? then SignerCheck(w, c)
    else if PlacementCheck(w.db, c).Some? then PlacementCheck(w.db, c)
    else if !Registered(w.db.profiles[w.db.requests[c.found.value].profile], c.cert) then Some(FingerprintMismatch)
    else None
  }

  function Algorithm(settings: Settings): (a: string) {
    if settings.hashAlgorithm == "" then "sha256" else settings.hashAlgorithm
  }

  function AttrsFor(w: World, c: InitiateCall): (attrs: SignedAttrs) {
    SignedAttrs(w.now, PdfDigest(Algorithm(w.settings), c.prepared))
  }

  function Minted(w: World, c: InitiateCall): (s: Session)
    requires c.found.Some?
  {
    Session(c.found.value, c.doctype, c.docname, c.prepared, AttrsFor(w, c), c.cert, w.now + SESSION_TTL)
  }

  function WithDocumentStatus(documents: map<string, DocumentSign>, doctype: string, docname: string, status: Status)
    : (documents': map<string, DocumentSign>)
  {
    if doctype == DOCUMENT_SIGN && docname in documents
    then documents[docname := documents[docname].(status := status)]
    else documents
  }

  function InitiateEvents(w: World, c: InitiateCall): (es: seq<Event>)
    requires c.found.Some?
  {
    var r := c.found.value;
    (if c.located then [Event(r, SignerLocationCaptured, w.now)] else [])
    + [Event(r, HashComputed, w.now), Event(r, AgentCalled, w.now)]
  }

  function InitiateDb(w: World, c: InitiateCall): (db: Db)
    requires InitiateCheck(w, c).None?
  {
    var r := c.found.value;
    var row := w.db.requests[r].(status := InProgress, hashToSign := Some(AttrsDigest(AttrsFor(w, c))), modified := w.now);
    w.db.(requests := w.db.requests[r := row],
          documents := WithDocumentStatus(w.db.documents, c.doctype, c.docname, InProgress),
          events := w.db.events + InitiateEvents(w, c),
          secret := if w.db.secret.Some? then w.db.secret else Some(c.freshSecret))
  }

  function InitiateEffect(w: World, c: InitiateCall): (e: Effect) {
    match InitiateCheck(w, c)
    case Some(error) => Effect(w, Throw(error))
    case None =>
      if c.fault.BeforeSessionStored? then Effect(w, Throw(Crash))
      else
        var stored := w.(cache := w.cache[w.nextSession := Minted(w, c)], nextSession := w.nextSession + 1);
        if c.fault.AfterSessionStored? then Effect(stored, Throw(Crash))
        else Effect(stored.(db := InitiateDb(w, c)),
                    Issued(c.found.value, w.nextSession, AttrsDigest(AttrsFor(w, c)), Algorithm(w.settings), w.now))
  }

  // ---------- finalize ----------

  function BuildCms(s: Session, signature: Bytes, chain: seq<Bytes>): (cms: Cms) {
    Cms(s.cert, chain, s.attrs, signature)
  }

  function AttachedTo(files: seq<SignedFile>, doctype: string, docname: string): (n: nat) {
    if files == [] then 0
    else AttachedTo(files[..|files| - 1], doctype, docname)
         + (if files[|files| - 1].doctype == doctype && files[|files| - 1].docname == docname then 1 else 0)
  }

  function NewFile(w: World, c: FinalizeCall): (f: SignedFile)
    requires c.session in w.cache
  {
    var s := w.cache[c.session];
    SignedFile(s.doctype, s.docname, AttachedTo(w.db.files, s.doctype, s.docname) + 1,
               SignedPdf(s.preparedPdf, BuildCms(s, c.signature, c.chain)), c.session)
  }

  predicate Verified(v: Verification) {
    v.valid || v.signatures > 0
  }

  /** How far the `try` block gets before an exception: the signed PDF is saved, the row is set to
      Signed, the Document Sign record follows, the event is logged. */
  predicate SavesFile(c: FinalizeCall) {
    Verified(c.verification) && !c.fault.BadCert? && !c.fault.AssemblyFails? && !c.fault.SaveFails?
  }

  predicate SignsRow(c: FinalizeCall) {
    SavesFile(c) && !c.fault.RowFails?
  }

  predicate MirrorsSigned(c: FinalizeCall) {
    SignsRow(c) && !c.fault.MirrorFails?
  }

  predicate LogsSigned(c: FinalizeCall) {
    MirrorsSigned(c) && !c.fault.EventFails?
  }

  predicate Succeeds(c: FinalizeCall) {
    c.fault.NoFault? && Verified(c.verification)
  }

  function FailedRow(row: Request, reason: string, now: int): (row': Request) {
    row.(status := Failed, failureReason := reason, modified := now)
  }

  function SignedRow(row: Request, c: FinalizeCall, s: Session, file: nat, now: int): (row': Request) {
    row.(status := Signed, actualSigner := Some(c.user), signedOn := Some(now), signatureBytes := Some(c.signature),
         fingerprint := Some(CertDigest(s.cert)), signedFile := Some(file), modified := now)
  }

  function FinalizeEvents(c: FinalizeCall, r: RequestId, now: int): (es: seq<Event>) {
    [Event(r, SignatureReturned, now), Event(r, CertPresented, now)]
    + (if c.fault.AssemblyFails? then [] else [Event(r, PdfVerified(c.verification.valid), now)])
    + (if c.fault.AssemblyFails? || Verified(c.verification) then [] else [Event(r, RequestFailed, now)])
    + (if LogsSigned(c) then [Event(r, RequestSigned, now)] else [])
    + (if Succeeds(c) then [] else [Event(r, RequestFailed, now)])
  }

  /** The row after a `finalize` that got past the fingerprint check. */
  function FinalizedRow(w: World, c: FinalizeCall): (row: Request)
    requires c.session in w.cache && w.cache[c.session].request in w.db.requests
  {
    var s := w.cache[c.session];
    var row := w.db.requests[s.request];
    var evidence := if SignsRow(c) then SignedRow(row, c, s, |w.db.files|, w.now) else row;
    if Succeeds(c) then evidence else FailedRow(evidence, FailureReason(c), w.now)
  }

  function FailureReason(c: FinalizeCall): (reason: string) {
    match c.fault
    case AssemblyFails => "assembly"
    case _ =>
      if !Verified(c.verification) then "Signed PDF verification failed. The signature may be invalid."
      else
        match c.fault
        case SaveFails => "save"
        case RowFails => "row"
        case MirrorFails => "mirror"
        case EventFails => "event"
        case _ => "timeline"
  }

  function FinalizedDocuments(w: World, c: FinalizeCall): (documents: map<string, DocumentSign>)
    requires c.session in w.cache && w.cache[c.session].request in w.db.requests
  {
    var s := w.cache[c.session];
    var row := w.db.requests[s.request];
    var mirrored :=
      if MirrorsSigned(c) && s.doctype == DOCUMENT_SIGN && s.docname in w.db.documents
      then w.db.documents[s.docname := w.db.documents[s.docname].(status := Signed, signedFile := Some(|w.db.files|))]
      else w.db.documents;
    if Succeeds(c) then mirrored else WithDocumentStatus(mirrored, row.doctype, row.docname, Failed)
  }

  function FinalizeDb(w: World, c: FinalizeCall): (db: Db)
    requires c.session in w.cache && w.cache[c.session].request in w.db.requests
  {
    var r := w.cache[c.session].request;
    w.db.(requests := w.db.requests[r := FinalizedRow(w, c)],
          documents := FinalizedDocuments(w, c),
          files := if SavesFile(c) then w.db.files + [NewFile(w, c)] else w.db.files,
          events := w.db.events + FinalizeEvents(c, r, w.now))
  }

  function MismatchDb(w: World, r: RequestId): (db: Db)
    requires r in w.db.requests
  {
    w.db.(requests := w.db.requests[r := FailedRow(w.db.requests[r], "Certificate fingerprint mismatch", w.now)],
          events := w.db.events + [Event(r, SignatureReturned, w.now), Event(r, CertPresented, w.now),
                                   Event(r, RequestFailed, w.now)])
  }

  function FinalizeError(c: FinalizeCall): (e: Error) {
    if !c.fault.AssemblyFails? && !Verified(c.verification) then VerificationFailed else Crash
  }

  /** The call reaches the fingerprint comparison: a live session for a stored request. */
  predicate Reaches(w: World, c: FinalizeCall) {
    Live(w, c.session) && !c.fault.BadCert? && w.cache[c.session].request in w.db.requests
  }

  function FinalizeEffect(w: World, c: FinalizeCall): (e: Effect) {
    if !Live(w, c.session) then Effect(w, Throw(SessionGone))
    else if c.fault.BadCert? then Effect(w, Throw(Crash))
    else if w.cache[c.session].request !in w.db.requests then Effect(w, Throw(RequestMissing))
    else
      var r := w.cache[c.session].request;
      if Mismatch(w.db, w.db.requests[r], c.cert)
      then Effect(w.(db := MismatchDb(w, r)), Throw(FingerprintMismatch))
      else Effect(w.(db := FinalizeDb(w, c), cache := w.cache - {c.session}),
                  if Succeeds(c) then Finalized(|w.db.files|) else Throw(FinalizeError(c)))
  }

  // ---------- status poll, retry, cancel, abort ----------

  predicate StaleFor(row: Request, doctype: string, docname: string, now: int) {
    Matches(row, doctype, docname, InProgress) && now - row.modified >= STALE_IN_PROGRESS
  }

  function StaleIds(w: World, doctype: string, docname: string): (ids: set<RequestId>) {
    set r | r in w.db.requests && StaleFor(w.db.requests[r], doctype, docname, w.now)
  }

  function Recovered(requests: map<RequestId, Request>, ids: set<RequestId>): (requests': map<RequestId, Request>) {
    map r | r in requests :: if r in ids then requests[r].(status := Pending) else requests[r]
  }

  function StatusEffect(w: World, doctype: string, docname: string): (e: Effect) {
    var ids := StaleIds(w, doctype, docname);
    Effect(w.(db := w.db.(requests := Recovered(w.db.requests, ids),
                          documents := if ids == {} then w.db.documents
                                       else WithDocumentStatus(w.db.documents, doctype, docname, Pending))), Done)
  }

  /** The transition table that guards `save`; writes with `set_value` go around it. */
  predicate Allowed(from: Status, to: Status) {
    from == to
    || (from == Pending && (to == InProgress || to == Cancelled))
    || (from == InProgress && (to == Signed || to == Failed))
    || (from == Failed && to == Pending)
  }

  /** A guarded `save` of row `r`, mirrored on the Document Sign record and logged. */
  function GuardedSave(w: World, r: RequestId, row: Request, kind: EventKind): (e: Effect)
    requires r in w.db.requests
  {
    if !Allowed(w.db.requests[r].status, row.status) then Effect(w, Throw(TransitionRejected))
    else Effect(w.(db := w.db.(requests := w.db.requests[r := row],
                               documents := WithDocumentStatus(w.db.documents, row.doctype, row.docname, row.status),
                               events := w.db.events + [Event(r, kind, w.now)])), Done)
  }

  function RetryEffect(w: World, r: RequestId): (e: Effect) {
    if r !in w.db.requests then Effect(w, Throw(RequestMissing))
    else if w.db.requests[r].status != Failed then Effect(w, Throw(WrongStatus))
    else GuardedSave(w, r, w.db.requests[r].(status := Pending, failureReason := "", modified := w.now), RequestRetried)
  }

  function CancelEffect(w: World, r: RequestId): (e: Effect) {
    if r !in w.db.requests then Effect(w, Throw(RequestMissing))
    else if w.db.requests[r].status != Pending && w.db.requests[r].status != Failed then Effect(w, Throw(WrongStatus))
    else GuardedSave(w, r, w.db.requests[r].(status := Cancelled, cancelledOn := Some(w.now), modified := w.now), RequestCancelled)
  }

  function AbortEffect(w: World, r: RequestId): (e: Effect) {
    if r !in w.db.requests then Effect(w, Throw(RequestMissing))
    else if w.db.requests[r].status != InProgress then Effect(w, Done)
    else GuardedSave(w, r, w.db.requests[r].(status := Pending, failureReason := "Client-side abort", modified := w.now), RequestAborted)
  }

  // ---------- creation ----------

  function NewRequest(doctype: string, docname: string, rule: string, profile: string, signer: string, now: int): (row: Request) {
    Request(doctype, docname, rule, profile, signer, Pending, "", None, None, None, None, None, now, None, None, now)
  }

  predicate RuleHasRequest(db: Db, doctype: string, docname: string, rule: string) {
    exists r :: r in db.requests && db.requests[r].doctype == doctype && db.requests[r].docname == docname
                && db.requests[r].rule == rule
  }

  function RuleEvents(c: RuleCall, r: RequestId, now: int): (es: seq<Event>) {
    [Event(r, RuleEvaluated, now)] + (if c.hasTemplate then [Event(r, TemplateSelected, now)] else [])
  }

  function RuleEffect(w: World, c: RuleCall): (e: Effect) {
    if RuleHasRequest(w.db, c.doctype, c.docname, c.rule) then
      if c.found.Some?
      then Effect(w.(db := w.db.(events := w.db.events + RuleEvents(c, c.found.value, w.now))), Done)
      else Effect(w, Done)
    else
      var r := w.db.nextRequest;
      Effect(w.(db := w.db.(
                  requests := w.db.requests[r := NewRequest(c.doctype, c.docname, c.rule, c.profile, c.signer, w.now)],
                  nextRequest := r + 1,
                  events := w.db.events + [Event(r, RequestCreated, w.now)] + RuleEvents(c, r, w.now))), Done)
  }

  predicate HasOpenRequest(db: Db, name: string) {
    exists r :: r in db.requests && db.requests[r].doctype == DOCUMENT_SIGN && db.requests[r].docname == name
                && (db.requests[r].status == Pending || db.requests[r].status == InProgress)
  }

  function SavedFields(w: World, c: SaveCall): (d: DocumentSign) {
    if c.name in w.db.documents
    then w.db.documents[c.name].(uploadedPdf := c.uploadedPdf, profile := c.profile, sigWidth := c.sigWidth, sigHeight := c.sigHeight)
    else DocumentSign(c.uploadedPdf, c.profile, c.sigWidth, c.sigHeight, Draft, None, None)
  }

  predicate Complete(d: DocumentSign) {
    d.uploadedPdf != "" && d.profile != "" && d.sigWidth != 0.0 && d.sigHeight != 0.0
  }

  function SaveEffect(w: World, c: SaveCall): (e: Effect) {
    if c.profile in w.db.profiles && !w.db.profiles[c.profile].active then Effect(w, Throw(ProfileInactive))
    else
      var d := SavedFields(w, c);
      if d.status != Draft || !Complete(d) || HasOpenRequest(w.db, c.name)
      then Effect(w.(db := w.db.(documents := w.db.documents[c.name := d])), Done)
      else
        var r := w.db.nextRequest;
        Effect(w.(db := w.db.(
                    requests := w.db.requests[r := NewRequest(DOCUMENT_SIGN, c.name, "", c.profile, c.user, w.now)],
                    nextRequest := r + 1,
                    documents := w.db.documents[c.name := d.(signingRequest := Some(r), status := Pending)])), Done)
  }

  // ---------- scheduled jobs ----------

  function Timeout(settings: Settings): (seconds: int) {
    if settings.timeoutSeconds == 0 then DEFAULT_TIMEOUT else settings.timeoutSeconds
  }

  predicate TimedOut(row: Request, w: World) {
    row.status == InProgress && row.modified < w.now - Timeout(w.settings)
  }

  function Expired(requests: map<RequestId, Request>, ids: set<RequestId>, now: int): (requests': map<RequestId, Request>) {
    map r | r in requests :: if r in ids then FailedRow(requests[r], "Signing timed out", now) else requests[r]
  }

  function TimedOutIds(w: World): (ids: set<RequestId>) {
    set r | r in w.db.requests && TimedOut(w.db.requests[r], w)
  }

  function CleanupEffect(w: World): (e: Effect) {
    Effect(w.(db := w.db.(requests := Expired(w.db.requests, TimedOutIds(w), w.now))), Done)
  }

  predicate Purgeable(row: Request, cutoff: int) {
    (row.status == Signed || row.status == Failed || row.status == Cancelled) && row.createdOn < cutoff
  }

  function PurgeIds(requests: map<RequestId, Request>, cutoff: int): (ids: set<RequestId>) {
    set r | r in requests && Purgeable(requests[r], cutoff)
  }

  function PurgeEffect(w: World, cutoff: int): (e: Effect) {
    Effect(w.(db := w.db.(requests := w.db.requests - PurgeIds(w.db.requests, cutoff))), Done)
  }

  // ---------- one step, and runs ----------

  function EffectOf(w: World, c: Call): (e: Effect) {
    match c
    case Initiate(i) => InitiateEffect(w, i)
    case Finalize(f) => FinalizeEffect(w, f)
    case GetStatus(doctype, docname) => StatusEffect(w, doctype, docname)
    case Retry(r) => RetryEffect(w, r)
    case Cancel(r) => CancelEffect(w, r)
    case Abort(r) => AbortEffect(w, r)
    case RuleMatched(rule) => RuleEffect(w, rule)
    case SaveDocument(save) => SaveEffect(w, save)
    case Cleanup => CleanupEffect(w)
    case Purge(cutoff) => PurgeEffect(w, cutoff)
    case Tick(seconds) => Effect(w.(now := w.now + seconds), Done)
    case Evict(sid) => Effect(w.(cache := w.cache - {sid}), Done)
    case AlterEvent(index, _) => Effect(w, Throw(if index < |w.db.events| then AppendOnly else EventMissing))
    case EditProfile(name, profile) => Effect(w.(db := w.db.(profiles := w.db.profiles[name := profile])), Done)
    case SecretSet(secret) => Effect(w.(db := w.db.(secret := secret)), Done)
  }

  function Apply(w: World, c: Call): (w': World) {
    EffectOf(w, c).world
  }

  function Run(w: World, calls: seq<Call>): (w': World)
    decreases |calls|
  {
    if calls == [] then w else Run(Apply(w, calls[0]), calls[1..])
  }

  lemma {:induction false} RunAppend(w: World, first: seq<Call>, second: seq<Call>)
    ensures Run(w, first + second) == Run(Run(w, first), second)
    decreases |first|
  {
    if first == [] {
      assert first + second == second;
    } else {
      assert (first + second)[1..] == first[1..] + second;
      RunAppend(Apply(w, first[0]), first[1..], second);
    }
  }
}
