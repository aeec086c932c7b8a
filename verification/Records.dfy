/** The rows, the cached sessions and the requests that the signing endpoints work on. */
module Records {
  import opened Wrappers

  type RequestId = nat
  type SessionId = nat

  const DOCUMENT_SIGN := "DSC Document Sign"
  const SESSION_TTL := 600
  const STALE_IN_PROGRESS := 300
  const DEFAULT_TIMEOUT := 180
  const SECONDS_PER_DAY := 86400

  /** `Draft` is a status of Document Sign records only. */
  datatype Status = Draft | Pending | InProgress | Signed | Failed | Cancelled

  /** SHA-256 and the digest of a prepared PDF, as ideal (injective) functions: a digest is
      a term that remembers what was hashed. */
  datatype Digest =
    | CertDigest(cert: Bytes)
    | AttrsDigest(attrs: SignedAttrs)
    | PdfDigest(algorithm: string, pdf: Bytes)

  /** The CMS SignedAttrs: signing time and the message digest of the prepared PDF. */
  datatype SignedAttrs = SignedAttrs(signingTime: int, messageDigest: Digest)

  datatype Cms = Cms(signer: Bytes, chain: seq<Bytes>, attrs: SignedAttrs, signature: Bytes)

  datatype SignedPdf = SignedPdf(prepared: Bytes, cms: Cms)

  /** A registered fingerprint: the digest that the text spells when letter case is ignored, if it
      spells one, and whether it is in lower case. */
  datatype FingerprintText = FingerprintText(digest: Option<Digest>, lowerCase: bool)

  datatype Profile = Profile(
    active: bool, allowedUsers: seq<string>, notAfterDay: Option<int>, fingerprint: Option<FingerprintText>)

  datatype Request = Request(
    doctype: string, docname: string, rule: string, profile: string, expectedSigner: string,
    status: Status, failureReason: string, hashToSign: Option<Digest>,
    actualSigner: Option<string>, signatureBytes: Option<Bytes>, fingerprint: Option<Digest>,
    signedFile: Option<nat>, createdOn: int, signedOn: Option<int>, cancelledOn: Option<int>, modified: int)

  datatype DocumentSign = DocumentSign(
    uploadedPdf: string, profile: string, sigWidth: real, sigHeight: real,
    status: Status, signingRequest: Option<RequestId>, signedFile: Option<nat>)

  /** A saved PDF `<docname>_signed_v<version>.pdf`. `origin` is the session whose `finalize`
      saved it: the model's own record, no column of the File table. */
  datatype SignedFile = SignedFile(
    doctype: string, docname: string, version: nat, content: SignedPdf, origin: SessionId)

  datatype EventKind =
    | RequestCreated | RuleEvaluated | TemplateSelected
    | SignerLocationCaptured | HashComputed | AgentCalled
    | SignatureReturned | CertPresented | PdfVerified(valid: bool)
    | RequestSigned | RequestFailed | RequestRetried | RequestCancelled | RequestAborted

  datatype Event = Event(request: RequestId, kind: EventKind, at: int)

  datatype Session = Session(
    request: RequestId, doctype: string, docname: string, preparedPdf: Bytes,
    attrs: SignedAttrs, cert: Bytes, expires: int)

  datatype Db = Db(
    requests: map<RequestId, Request>, nextRequest: RequestId,
    documents: map<string, DocumentSign>, files: seq<SignedFile>, events: seq<Event>,
    profiles: map<string, Profile>, secret: Option<string>)

  datatype Settings = Settings(enforceLocation: bool, hashAlgorithm: string, timeoutSeconds: int)

  /** The committed database, and beside it the session cache, which no rollback touches.
      Session identifiers are uuid4 values: they never repeat. */
  datatype World = World(
    db: Db, cache: map<SessionId, Session>, nextSession: SessionId, now: int, settings: Settings)

  datatype Error =
    | CertMissing | NoPendingRequest | NotAuthorised | ProfileMissing | ProfileInactive | NotAllowed
    | CertExpired | LocationRequired | BadUpload | NoPlacement | FingerprintMismatch
    | SessionGone | RequestMissing | WrongStatus | TransitionRejected | VerificationFailed | Crash
    | EventMissing | AppendOnly

  /** Where an exception outside the endpoint's own checks strikes `initiate`. */
  datatype InitiateFault = Smooth | BeforeSessionStored | AfterSessionStored

  /** Arguments of `initiate`, and what the outside world answers during the call: the pending
      row that the query returns, the bytes of the upload, the PDF that pyHanko prepares. */
  datatype InitiateCall = InitiateCall(
    doctype: string, docname: string, user: string, mayWrite: bool, cert: Bytes, located: bool,
    found: Option<RequestId>, upload: Option<Bytes>, prepared: Bytes, freshSecret: string,
    fault: InitiateFault)

  /** Where an exception strikes `finalize`; `BadCert` is an undecodable certificate argument. The
      others name the statement of the `try` block that is the first not to happen: building the
      PDF, saving it, setting the row to Signed, the Document Sign record, the event, the timeline
      entry. */
  datatype FinalizeFault =
    | NoFault | BadCert | AssemblyFails | SaveFails | RowFails | MirrorFails | EventFails | TimelineFails

  datatype Verification = Verification(valid: bool, signatures: nat)

  datatype FinalizeCall = FinalizeCall(
    session: SessionId, user: string, signature: Bytes, cert: Option<Bytes>, chain: seq<Bytes>,
    verification: Verification, fault: FinalizeFault)

  /** A rule that matched a document event; `found` is what the query for an existing request of
      this document and rule returns. */
  datatype RuleCall = RuleCall(
    doctype: string, docname: string, rule: string, profile: string, signer: string, hasTemplate: bool,
    found: Option<RequestId>)

  datatype SaveCall = SaveCall(
    name: string, uploadedPdf: string, profile: string, sigWidth: real, sigHeight: real, user: string)

  /** One atomic step of the system: an endpoint call, a scheduled job, or the environment.
      `SecretSet` is what pairing leaves as the HMAC secret, or an administrator who clears it. */
  datatype Call =
    | Initiate(i: InitiateCall)
    | Finalize(f: FinalizeCall)
    | GetStatus(doctype: string, docname: string)
    | Retry(request: RequestId)
    | Cancel(request: RequestId)
    | Abort(request: RequestId)
    | RuleMatched(rule: RuleCall)
    | SaveDocument(save: SaveCall)
    | Cleanup
    | Purge(cutoff: int)
    | Tick(seconds: nat)
    | Evict(session: SessionId)
    | EditProfile(name: string, profile: Profile)
    | SecretSet(secret: Option<string>)
    | AlterEvent(index: nat, edited: Option<Event>)

  datatype Reply =
    | Issued(request: RequestId, session: SessionId, hash: Digest, algorithm: string, timestamp: int)
    | Finalized(file: nat)
    | Done
    | Throw(error: Error)

  datatype Effect = Effect(world: World, reply: Reply)
}
