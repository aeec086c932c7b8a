# A verified model of the DSC signing system

The system signs documents with a hardware token in a protocol of three parties: a Frappe server
that owns the signing requests, a browser that only relays messages, and a Go bridge on the
signer's machine that talks to the token. This project models the logic of server and bridge in
Dafny and proves what holds over every run of it. `dafny verify dfyconfig.toml` checks everything.

## How it is laid out

| files | what they hold |
|---|---|
| `Records`, `Lifecycle` | the rows, the session cache and the clock, and the effect of each endpoint, job and environment step as one function from world to world |
| `SigningServer` | the endpoints and jobs as they run: a staged and a committed database, rollback on a throw, commits in mid-call, loops over rows; each is proved to have the effect that `Lifecycle` states |
| `Endpoints` | what each of them answers and leaves, said of its arguments and the stored rows alone: exactly when it succeeds, which error each failing check gives, the whole new row, record, trail and cache |
| `Transitions`, `Freeze`, `Evidence`, `Binding`, `Mirror`, `Stuckness` | theorems over all runs: which status moves are committed, when a finished request is final, what evidence is durable, what a session binds, how a Document Sign record follows its request, how long a request can be stuck |
| `Protocol`, `Deployment` | server and bridges together: what a Signed request and a granted signature say about the `initiate` behind them; one server whose endpoints and handshakes interleave over one HMAC secret |
| `RuleEngine`, `Values` | the rules engine on top of that server: which rule a document event selects, and one request per document and rule |
| `Template` | versioned signature templates and their freeze |
| `Authenticity`, `Bridge`, `Pairing`, `Keystore` | the bridge: the gate in front of the token, the PIN cache against tokens that lock, the pairing handshake over a lossy network, the store of paired sites |
| `Der`, `Ocsp` | the hand-written DER printer, a strict parser that undoes it, OCSP requests and the DigestInfo constant |
| `Placement`, `Anchor` | the signature box: dragged in pixels and stored in points, or found by a marker printed into the document |
| `Text`, `Wrappers` | printing, joining and cutting of strings; options and octets |

Code of the system that changes state step by step is imperative here too (`Server`, `Keystore`,
`PINCache`, `Handlers`, `PairingServer`, `Controller`, `Viewer`, the loops of the rules engine, of
`asn1Wrap` and of the anchor scan). Each method is proved equal to a function of the old state, and
the theorems are about runs of those functions.

## How it models

- SHA-256 and HMAC are ideal: a digest is a term that remembers what was hashed. Random values
  (sessions, codes, tokens, nonces, request names) never repeat.
- An endpoint call is one atomic step. The session cache is outside the transaction: a rollback
  does not undo it. Database writes inside the `except` block of `finalize` succeed.
- Where an exception outside the endpoint's own checks can strike, the call carries a fault
  argument that says where; what the outside world answers (the row a query returns, the uploaded
  bytes, the prepared PDF, the verifier's verdict) is an argument too.
- `origin` of a saved file, `code` of a registration, `stamps` of a bridge, `clears` and `births` of
  the server are the model's own records, read by theorems and by no modelled code.
- DSC Settings stay constant during a run, the HMAC secret aside: pairing and `initiate` create it,
  an administrator clears it. Keychain and disk of a bridge fail and recover during a run.
- A token answers a rejected PIN with any return value; which of them keep the login budget is a
  theorem. `flt` answers a float, NaN and the infinities included, or raises.
- Sizes and positions are real numbers; `Placement` rounds to hundredths and `Anchor` to six
  significant digits as the code does, floating-point error is not modelled.

## Where the code and its documentation disagree

The model follows the code.

- `docs/concepts.md` draws In Progress to Cancelled, and Failed to Pending as the only way out of
  Failed. The guarded table has no In Progress to Cancelled and no In Progress to Pending, so
  `abort_in_progress` and cancelling a Failed request raise and commit nothing
  (`Transitions.AbortNeverCommits`, `Transitions.CancelOnlyFromPending`), while `finalize`, whose
  writes go around the table, moves a request of any status to Signed or Failed
  (`Transitions.MovesAreExactlyTheListed`).
- The cleanup job says it resets requests to Pending; it sets them to Failed.
- "Terminal" statuses are terminal only once no session for the request is live
  (`Freeze.FinalExactlyWithoutLiveSession`).
- Signed does not mean that the verifier accepted the PDF: an embedded signature is enough
  (`Evidence.SignedDespiteVerdict`).
- The recorded signer is whoever called `finalize`, about whom nothing is checked; the checked user
  is the one who called `initiate`. The two are the same exactly if one user made both calls
  (`Protocol.SignedMeansAuthorised`, `Protocol.AnyUserMayFinalize`).
- `initiate` compares fingerprints with case, `finalize` without
  (`Evidence.FingerprintComparisonsDiffer`). The code itself only registers lower case
  (`e_sign/api/agent.py:210`) and the form field is read-only, so the difference shows only for a
  fingerprint written from outside. A text that is no digest is refused by both.
- A signed PDF can be stored that no request names: the file is saved before the row is written, and
  the `except` block commits both (`Protocol.UnnamedFileExactlyWhen`).
- `initiate` looks for the rule's print format, but its query does not fetch the rule: that branch
  never runs and is not modelled.
- The replay protection is the 60-second window alone: a nonce is required and covered by the tag
  but not remembered (`Authenticity.AcceptedExactlyWhen`).
- `equals` on text compares the numbers that `flt` gives, so two different words can be equal, and
  a text that `flt` reads as NaN does not equal itself (`RuleEngine.EqualsOnTextExactlyWhen`).
- `dsc_bridge/pincache.go:45-47` promises that a bad PIN is not reused. A token that rejects it with
  a return value other than the four that the error mapping knows is tried again from the cache
  until it locks (`Bridge.BudgetHoldsExactlyFor`, `Bridge.OnePinLocksOthers`).
- A bridge whose keychain comes and goes can read a secret older than the one its last pairing
  stored (`Pairing.TwoChangesExactlyWhen`).
- A box of 40 pixels can be a little narrower when its page is shown again, because it was stored in
  hundredths of a point (`Placement.FortyPixelsStayExactlyWhen`).
- A serial number of zero prints an INTEGER without contents octets, and a negative one loses its
  sign (`Ocsp.SerialRoundTrip`). The issuer key hash covers the whole SubjectPublicKeyInfo, where
  section 4.1.1 of RFC 6960 hashes only the key bits; the model takes both hashes as given.
- After a first edit of a template in use, later edits fail until its version number is raised,
  because the roll-back does not restore that field and the next version's name is taken
  (`Template.SecondForkFails`).

## Model

| member | source | states |
|---|---|---|
| SigningServer.Server.CheckSigner | e_sign/api/signing.py:55-131 | the first failing check on certificate, pending row, expected signer, profile, allow-list, expiry and location, in the order of the code; none fails exactly when all of them hold |
| SigningServer.Server.Initiate | e_sign/api/signing.py:46-318 | a throw leaves the database as it was, a return commits In Progress, hash, events and secret and leaves one new session for 600 s; the cache keeps a session even if a later statement throws |
| SigningServer.Server.EnsureSecret | e_sign/digital_signature/doctype/dsc_settings/dsc_settings.py:13-36 | the first call creates the secret and commits whatever is staged, later calls change nothing |
| SigningServer.Server.Save | e_sign/digital_signature/doctype/dsc_signing_request/dsc_signing_request.py:13-34 | a guarded save writes the row exactly when the transition table allows the move |
| SigningServer.Server.LogEvent | e_sign/digital_signature/audit.py:14-41 | the trail is one event longer, that event is its last, those before and everything else are unchanged |
| SigningServer.Server.Finalize | e_sign/api/signing.py:322-532 | session gone, bad certificate and missing request change nothing; a fingerprint mismatch commits Failed; every other attempt spends the session and commits Signed with file and evidence, or Failed |
| SigningServer.Server.Assemble | e_sign/api/signing.py:407-474 | what the try block has staged, and which exception leaves it, for each place where it can break off |
| SigningServer.Server.SaveSigned | e_sign/digital_signature/signing_engine.py:383-411 | from the saved file on: the file stays staged whether or not row, Document Sign record, event and timeline follow |
| SigningServer.AssembledThenDecided | e_sign/api/signing.py:407-532 | two events, the try block and on an exception the except block make up the closed form of a decided `finalize` |
| SigningServer.Server.CountAttached | e_sign/digital_signature/signing_engine.py:361-371 | the count that numbers the next file is the number of earlier signed files of that document |
| SigningServer.Server.RecoverIfStale | e_sign/api/signing.py:565-578 | a row goes back to Pending, and its Document Sign record with it, exactly after 300 s In Progress, without touching `modified` |
| SigningServer.Server.GetSigningStatus | e_sign/api/signing.py:544-578 | the loop recovers exactly the stale rows of the document, in whatever order |
| SigningServer.Server.SaveAndMirror | e_sign/api/signing.py:634-643 | a guarded save with mirror and event, or a rollback of everything |
| SigningServer.Server.Retry | e_sign/api/signing.py:625-645 | Failed requests go back to Pending, others are refused |
| SigningServer.Server.Cancel | e_sign/api/signing.py:649-675 | Pending requests are cancelled; Failed ones pass the endpoint's check and are refused by the table |
| SigningServer.Server.AbortInProgress | e_sign/api/signing.py:679-703 | an In Progress request is refused by the table, any other status is answered without a change |
| SigningServer.Server.CreateForRule | e_sign/digital_signature/rule_engine.py:213-278 | a request and its events are created exactly when the query finds none for document and rule |
| SigningServer.Server.CreateSigningRequest | e_sign/digital_signature/doctype/dsc_document_sign/dsc_document_sign.py:47-76 | a request is created and named exactly when the record has no open one |
| SigningServer.Server.SaveDocumentSign | e_sign/digital_signature/doctype/dsc_document_sign/dsc_document_sign.py:23-45 | saving a complete Draft without an open request creates its request and names it; an inactive profile refuses the save |
| SigningServer.Server.AlterEvent | e_sign/digital_signature/doctype/dsc_audit_event/dsc_audit_event.py:33-38 | saving an edited audit event or deleting one always raises and changes nothing |
| SigningServer.Server.TimedOutRows | e_sign/digital_signature/cleanup.py:15-27 | the query selects exactly the In Progress rows older than the timeout |
| SigningServer.Server.ExpireStale | e_sign/digital_signature/cleanup.py:12-43 | exactly those rows become Failed; no Document Sign record is written |
| SigningServer.Server.PurgeOld | e_sign/digital_signature/retention.py:12-39 | exactly the finished rows created before the cutoff disappear; events and files stay |
| Endpoints.InitiateSucceedsExactlyWhen | e_sign/api/signing.py:55-318 | a session is issued if and only if certificate, pending row, expected signer, profile, allow-list, expiry, fingerprint, location, upload and placed box are all in order and nothing outside raises |
| Endpoints.InitiateAnswers | e_sign/api/signing.py:55-229 | the first failing of the eleven checks decides, with its own error |
| Endpoints.InitiateLeaves | e_sign/api/signing.py:204-318 | row, record, trail, secret, cache and reply of an issued session, field by field |
| Endpoints.ThrowingInitiateLeaves | e_sign/api/signing.py:204-248 | a throw changes nothing, but for the session of a call that had passed all checks and stored it |
| Endpoints.FinalizeAnswers | e_sign/api/signing.py:344-532 | the first failing of session, certificate, request, fingerprint, assembly, verification and the later statements decides the error; with none it returns the next file |
| Endpoints.RefusedFinalizeLeaves | e_sign/api/signing.py:344-375 | no session, an unreadable certificate or a missing request change nothing |
| Endpoints.SessionSpentExactlyByAttempt | e_sign/digital_signature/signing_engine.py:61-70 | after a `finalize` its session is gone exactly if the call got past the fingerprint comparison, whatever became of it then, and no other session goes |
| Endpoints.SpentSessionIsRefused | e_sign/digital_signature/signing_engine.py:288-290 | after an attempt, failed or not, and after any later run, every `finalize` with its session is refused and changes nothing |
| Endpoints.AtMostOneAttemptPerSession | e_sign/api/signing.py:344-348 | over every run a session is attempted at most once |
| Endpoints.MismatchLeaves | e_sign/api/signing.py:381-398 | the failed row and three events, and nothing else |
| Endpoints.AttemptLeavesFile | e_sign/digital_signature/signing_engine.py:383-404 | the file of an attempt, exactly if the PDF was saved: the prepared PDF with certificate and attributes of the session and the returned chain and signature |
| Endpoints.AttemptLeavesRow | e_sign/api/signing.py:443-514 | the row is Signed exactly if nothing broke off and a signature is seen, else Failed with a reason; the evidence exactly if it was written |
| Endpoints.AttemptLeavesRecord | e_sign/api/signing.py:456-518 | status and signed file of the Document Sign record, no other record |
| Endpoints.AttemptLeavesTrail | e_sign/api/signing.py:361-522 | the events of an attempt, one by one |
| Endpoints.RetryExactlyWhen | e_sign/api/signing.py:625-645 | succeeds exactly on Failed requests, with the whole effect, and the error otherwise |
| Endpoints.CancelExactlyWhen | e_sign/api/signing.py:649-675 | the same for Pending requests; Failed ones are refused by the table, others by the endpoint |
| Endpoints.AbortAnswers | e_sign/api/signing.py:679-703 | changes nothing; refused by the table exactly for In Progress |
| Endpoints.PollRecoversExactly | e_sign/api/signing.py:563-578 | exactly the document's requests In Progress for 300 s go back to Pending, only their status changes, and the record with them |
| Endpoints.RuleAsksExactlyOnce | e_sign/digital_signature/rule_engine.py:213-278 | a new Pending row with the rule's fields under an unused name, and the events, exactly if document and rule have no request |
| Endpoints.SaveAsksExactlyWhen | e_sign/digital_signature/doctype/dsc_document_sign/dsc_document_sign.py:23-76 | refused exactly for an inactive profile; a request exactly for a complete Draft without an open one |
| Endpoints.CleanupFailsExactly | e_sign/digital_signature/cleanup.py:12-43 | exactly the requests In Progress for longer than the timeout, 180 s by default, become Failed |
| Endpoints.PurgeDeletesExactly | e_sign/digital_signature/retention.py:12-39 | exactly the Signed, Failed and Cancelled requests created before the cutoff go, whole rows and everything else stay |
| Evidence.EveryStateIsSound | e_sign/api/signing.py:322-532 | names are used up, sessions agree with their request and Signed rows carry evidence, after every run |
| Evidence.SignedRequestsHaveEvidence | e_sign/api/signing.py:436-467 | in every reachable committed state a Signed request has its file, made with its signature bytes and certificate, a signer, a date and a "Request Signed" event |
| Evidence.FinalizeAlwaysDecides | e_sign/api/signing.py:381-532 | every `finalize` past the session check commits: Signed exactly when it returns, Failed exactly when it throws, with the event that says so |
| Protocol.EveryFileHasItsAttempt | e_sign/api/signing.py:436-452 | over every run each saved file was saved by one `finalize` of its session, which left the request Signed and naming the file, or Failed |
| Protocol.UnnamedFileExactlyWhen | e_sign/digital_signature/signing_engine.py:405-411 | in a reachable state an attempt leaves a file that no request names exactly when the verified PDF was saved and the exception struck before the row was written |
| Evidence.InitiateIsAllOrNothing | e_sign/api/signing.py:204-248 | a throwing `initiate` leaves all rows and events unchanged; a returning one moves one Pending request and puts one session in the cache |
| Evidence.SessionsAreAuthorised | e_sign/api/signing.py:91-131 | whoever gets a session is an allowed signer with an active profile and the registered certificate |
| Evidence.FingerprintComparisonsDiffer | e_sign/api/signing.py:223-229 | `initiate` accepts a certificate exactly when `finalize` would and the registered text, whoever wrote it and whether or not it is a digest, is in lower case |
| Evidence.SignedDespiteVerdict | e_sign/api/signing.py:417-434 | an attempt signs exactly when nothing breaks and the verifier is content or sees at least one signature |
| Evidence.TrailsGrow | e_sign/digital_signature/doctype/dsc_audit_event/dsc_audit_event.py:33-38 | no call, attempts to edit or delete an event included, removes or changes an audit event or a saved file |
| Transitions.ChangesBelongToTheirCall | e_sign/api/signing.py:563-578 | each committed status change belongs to its endpoint, with the ages and the live session it needs |
| Transitions.AbortNeverCommits | e_sign/api/signing.py:679-703 | `abort_in_progress` changes nothing in any state |
| Transitions.CancelOnlyFromPending | e_sign/api/signing.py:649-675 | `cancel` has an effect exactly on Pending requests |
| Transitions.MovesAreExactlyTheListed | e_sign/digital_signature/doctype/dsc_signing_request/dsc_signing_request.py:21-27 | a committed move between two statuses occurs in some reachable state if and only if it is one of the listed ones, whatever table and diagram say |
| Freeze.FrozenForever | e_sign/digital_signature/signing_engine.py:45-70 | a finished request without a live session keeps its whole row in every later state |
| Freeze.FinishedFor600SecondsIsForever | e_sign/api/signing.py:77-89 | in every run from a fresh installation, staying finished for 600 s makes the row permanent, because sessions are minted from Pending only and for 600 s |
| Freeze.SessionsStayBounded | e_sign/digital_signature/signing_engine.py:53-58 | no cached session ever expires later than 600 s from now |
| Freeze.FinalExactlyWithoutLiveSession | e_sign/api/signing.py:443-452 | no sequence of calls can change a finished request's status if and only if no session for it is live |
| Stuckness.ModifiedIsEntryTime | e_sign/api/signing.py:571-577 | `modified` of an In Progress row is the time it became In Progress: nothing refreshes it |
| Stuckness.NeverStuckForLong | e_sign/digital_signature/cleanup.py:12-36 | with a cleanup at least every 3600 s no request stays In Progress longer than the timeout plus 3600 s |
| Binding.IssuedHashIsWhatGetsSaved | e_sign/digital_signature/signing_engine.py:231-250 | over any run between, a saved file of an issued session holds the PDF, the certificate and the attributes fixed at prepare, and these hash to what the token was asked to sign |
| Binding.ResentCertificateIsIgnored | e_sign/digital_signature/signing_engine.py:294-298 | two calls that differ in the re-sent certificate and both pass leave the same world |
| Binding.AtMostOneFilePerSession | e_sign/digital_signature/signing_engine.py:288-290 | different files come from different sessions in every reachable state |
| Binding.SessionsAreSingleUse | e_sign/digital_signature/signing_engine.py:61-70 | a session that saved a file is gone from the cache, and files are numbered by the count before them, after every run |
| Binding.SignedFilesNumberOneToN | e_sign/digital_signature/signing_engine.py:357-371 | the versions of a document's signed files are exactly 1 to n in every reachable state |
| Binding.VersionsAreUnique | e_sign/digital_signature/signing_engine.py:361-371 | no version of a document is given twice, and later files have higher ones |
| Protocol.SignedMeansAuthorised | e_sign/api/signing.py:77-131 | for every Signed request of every reachable state some call of the run was an `initiate` for it while Pending that passed every check on signer, profile, expiry, certificate and location, and a later call within 600 s signed it; its file holds exactly the PDF, certificate and attributes of the first, and the recorded signer is the first's exactly if one user made both |
| Protocol.AnyUserMayFinalize | e_sign/api/signing.py:443-452 | the same `finalize` by another user has the same reply and leaves the same world but for the signer recorded on the row |
| Protocol.AcceptedMeansAuthorised | dsc_bridge/handlers.go:247-293 | with an ideal MAC, a hash the bridge accepts is that of the attributes which such an `initiate` fixed within 60 s of the bridge's clock and issued under the secret that the bridge reads, and every PDF its session led to carries exactly them |
| Deployment.PairedBridgeSignsAuthorised | dsc_bridge/handlers.go:137-157 | the same for a bridge paired with the very server that issues, after any run in which endpoints and handshakes interleave, messages are lost, keychain and disk fail and the secret is cleared |
| Deployment.IssuedIsAcceptedExactlyWhen | e_sign/api/signing.py:274-301 | what the server issued under a secret it still has passes at a paired bridge, its keychain changed at most once, if and only if the secret was not cleared since the last pairing that stored one there, the minute is open and the algorithm supported |
| Deployment.AlwaysOneServer | e_sign/digital_signature/doctype/dsc_settings/dsc_settings.py:13-36 | after every such run the secret under which endpoints issue is the one that pairing hands out |
| Deployment.RunsSideBySide | e_sign/api/agent.py:75-136 | every such run is a run of the endpoints beside a run of the handshakes, so that what holds over each holds over both |
| Protocol.AlwaysTraced | e_sign/digital_signature/signing_engine.py:234-250 | every cached session and every file a request names goes back to one `initiate` of the run for that request |
| Mirror.AlwaysMirrored | e_sign/digital_signature/doctype/dsc_document_sign/dsc_document_sign.py:37-76 | record and request point at each other and agree unless the request has Failed, after every run without a rule on Document Sign |
| Mirror.OneRequestEver | e_sign/digital_signature/doctype/dsc_document_sign/dsc_document_sign.py:47-76 | two requests seen for one record at any two times of a run are the same |
| Mirror.StatusesAgreeUnlessFailed | e_sign/api/signing.py:515-518 | in every reachable state the statuses are equal or the request is Failed |
| Mirror.SigningRequestIsFixed | e_sign/digital_signature/doctype/dsc_document_sign/dsc_document_sign.py:73-76 | a record never names another request, even after a purge |
| Mirror.MirrorBreaksExactlyWhen | e_sign/digital_signature/cleanup.py:29-36 | one call takes a record out of step exactly when it is the timeout job on that request or a fingerprint mismatch |
| Mirror.MirrorIsRestored | e_sign/api/signing.py:456-460 | every retry, decided `finalize` or stale recovery leaves record and request in step, whatever went before |
| Mirror.DocumentRuleBreaksUniqueness | e_sign/digital_signature/rule_engine.py:223-230 | a rule on Document Sign gives a record with a request a second one |
| RuleEngine.OrderedExactlyWithoutNaN | e_sign/digital_signature/rule_engine.py:180-210 | for any coercion exactly one of equals, greater_than and less_than holds if no NaN is compared, and none otherwise |
| RuleEngine.NumbersCompare | e_sign/digital_signature/rule_engine.py:184-194 | on numbers greater_than, less_than and equals are the order and equality of the numbers |
| RuleEngine.FloatsCompare | e_sign/digital_signature/rule_engine.py:184-194 | the same with both infinities and NaN |
| RuleEngine.TextsCompare | e_sign/digital_signature/rule_engine.py:198-208 | where one side does not coerce, the first differing character or the shorter text decides |
| RuleEngine.OthersMean | e_sign/digital_signature/rule_engine.py:144-177 | is_set, is_not_set and contains by what they look for; an unknown operator never holds |
| RuleEngine.OperatorsNegate | e_sign/digital_signature/rule_engine.py:144-168 | negative operators negate the positive ones, NaN or not |
| RuleEngine.NothingEqualsNaN | e_sign/digital_signature/rule_engine.py:150-160 | a condition "equals nan" holds for nothing that coerces, the text "nan" included |
| RuleEngine.EqualsOnTextExactlyWhen | e_sign/digital_signature/rule_engine.py:180-210 | equals on texts holds exactly for equal texts that are not read as NaN and for texts that coerce to one number |
| RuleEngine.InFindsListedItems | e_sign/digital_signature/rule_engine.py:162-168 | `in` finds exactly the items of the comma list, whatever blanks surround them |
| RuleEngine.StripTakesBlanks | e_sign/digital_signature/rule_engine.py:163 | stripping takes exactly the blanks at both ends |
| RuleEngine.EvaluateConditions | e_sign/digital_signature/rule_engine.py:123-135 | the loop answers whether all conditions hold |
| RuleEngine.SelectedHasLeastPriority | e_sign/digital_signature/rule_engine.py:106-120 | the selected rule is an eligible enabled rule of the table with the least priority number; none is selected exactly when none is eligible |
| RuleEngine.EligibleExactlyIfApplies | e_sign/digital_signature/rule_engine.py:65-83 | a rule is eligible exactly if its company, on workflow actions its state, and all its conditions fit the document |
| RuleEngine.FirstIsSelected | e_sign/digital_signature/rule_engine.py:64-103 | where the loop stops is the head of the filtered list |
| RuleEngine.ResolveSigner | e_sign/digital_signature/rule_engine.py:319-342 | the current user if listed, else the first listed one, else nobody |
| RuleEngine.EvaluateRules | e_sign/digital_signature/rule_engine.py:48-103 | the loop leaves the server in the world that the head of the filtered, priority-ordered list leads to |
| RuleEngine.OnEvent | e_sign/digital_signature/rule_engine.py:13-45 | submit and update evaluate once; a change evaluates on_change and then, if the workflow state is set and moved, on_workflow_action |
| RuleEngine.EvaluationAsks | e_sign/digital_signature/rule_engine.py:48-103 | an evaluation asks for at most one request, for an applicable rule of the trigger with the least priority number, exactly if document and rule had none; signer and template event are the rule's |
| RuleEngine.EventAsksForItsTriggers | e_sign/digital_signature/rule_engine.py:13-45 | each request that a document event adds is one of a rule of its own trigger; on_workflow_action only if the state is set and this save changed it |
| RuleEngine.EventServesItsTriggers | e_sign/digital_signature/rule_engine.py:13-45 | and where a rule of such a trigger applies, one of the least priority number has its request afterwards |
| RuleEngine.AtMostOneRequestPerRule | e_sign/digital_signature/rule_engine.py:213-230 | after every run of document events and calls there is at most one request per document and rule |
| RuleEngine.RepeatedEventAddsNothing | e_sign/digital_signature/rule_engine.py:213-230 | repeating an event adds no request, whatever events and calls came between, a purge aside |
| RuleEngine.RequestKeeps | e_sign/digital_signature/retention.py:23-32 | only the purge removes a request, and no call changes its document or rule |
| Template.Controller.VersionedFieldsChanged | e_sign/digital_signature/doctype/dsc_signature_template/dsc_signature_template.py:80-93 | the comparison reports a change exactly when some versioned field differs beyond empty values, or the rows differ |
| Template.Controller.CopyFields | e_sign/digital_signature/doctype/dsc_signature_template/dsc_signature_template.py:61-62 | after the loop the listed fields are the source's and the others untouched |
| Template.Controller.ForkNewVersion | e_sign/digital_signature/doctype/dsc_signature_template/dsc_signature_template.py:95-112 | name, version and contents of the next version, or a duplicate name |
| Template.Controller.SaveTemplate | e_sign/digital_signature/doctype/dsc_signature_template/dsc_signature_template.py:35-70 | what a save stores, forks or refuses |
| Template.FrozenWhileReferenced | e_sign/digital_signature/doctype/dsc_signature_template/dsc_signature_template.py:35-78 | while some request refers to a template no run of inserts and saves changes document type, print format, any of the thirteen stamp columns, up to empty values, or any placed field |
| Template.FrozenExactlyIfSameStamp | e_sign/digital_signature/doctype/dsc_signature_template/dsc_signature_template.py:80-93 | the controller's comparison finds no change exactly if these fifteen columns and the seven attributes of each row are alike |
| Template.SavedAsItIs | e_sign/digital_signature/doctype/dsc_signature_template/dsc_signature_template.py:35-53 | a save is stored as it is exactly if no request refers to the template or the stamp stays the same; an insert takes exactly a free name |
| Template.EditForksOrFails | e_sign/digital_signature/doctype/dsc_signature_template/dsc_signature_template.py:48-70 | an edit fails whole exactly when the next version's name is taken; otherwise the next version holds exactly the edit, the original exactly what it held, inactive, and no other template changes |
| Template.SecondForkFails | e_sign/digital_signature/doctype/dsc_signature_template/dsc_signature_template.py:97-111 | after a fork every later edit fails while the original's version number stays |
| Template.ForkNamesDiffer | e_sign/digital_signature/doctype/dsc_signature_template/dsc_signature_template.py:97-98 | two next-version names of a template are equal exactly for equal versions |
| Authenticity.PayloadInjective | e_sign/api/signing.py:294-300 | the payload determines all five fields as soon as one side's fields are free of bars |
| Authenticity.PayloadsCollideWithBars | dsc_bridge/handlers.go:387-393 | without that it does not |
| Authenticity.AcceptedIsIssued | dsc_bridge/handlers.go:264-293 | with an ideal MAC every request accepted for a site with a stored secret is a message the server issued, within 60 s of the bridge's clock |
| Authenticity.AcceptedExactlyWhen | dsc_bridge/server.go:60-85 | a request passes exactly from a paired origin, with its own site token if one is sent, a supported algorithm and, if the site has a secret, the tag of this message under it, a nonce and a time within 60 s |
| Authenticity.PayloadReads | e_sign/api/signing.py:294-300 | the text under the tag: five fields in order, bars between |
| Bridge.ForgetsExactlyOnWrongPin | dsc_bridge/errors.go:95-123 | the error mapping drops a cached PIN exactly for the return values of a rejected PIN |
| Bridge.PINCache.Get | dsc_bridge/pincache.go:25-33 | the entry of a nonempty fingerprint |
| Bridge.PINCache.Set | dsc_bridge/pincache.go:36-43 | a nonempty PIN is stored under a nonempty fingerprint, other entries stay |
| Bridge.PINCache.Forget | dsc_bridge/pincache.go:48-55 | exactly this entry is gone |
| Bridge.Handlers.SignHash | dsc_bridge/pkcs11_handler.go:250-334 | at most one login, with the PIN given, rejected exactly for a locked token or another PIN, with whatever return value the token uses |
| Bridge.Handlers.HandleSign | dsc_bridge/handlers.go:247-345 | answer, cache, tokens and logins for each way through the handler |
| Bridge.SignOutcome | dsc_bridge/handlers.go:320-344 | a request makes no login; or a rejected one, after which the entry is gone exactly for the four return values of a wrong PIN; or an accepted one, after which at most this PIN is remembered |
| Bridge.SignsExactlyWhen | dsc_bridge/handlers.go:247-345 | a signature is returned exactly if the gate, a plugged token for the certificate, hex digits, a PIN at hand that the token takes and no error come together |
| Bridge.AnswerToEachError | dsc_bridge/errors.go:95-123 | code and HTTP status for every return value in front of a token: incorrect PIN, locked PIN, cancelled, absent token, mechanism, handle, anything else |
| Bridge.RefusedBeforeToken | dsc_bridge/handlers.go:253-328 | which refusal a request gets that reaches no token, with its status; nothing changes |
| Bridge.ReachedLeaves | dsc_bridge/handlers.go:330-344 | retries, logins and cache after a request that reached a token: the PIN is remembered exactly after a signature and forgotten exactly after the four return values |
| Bridge.LoginNeverGetsEmptyPin | dsc_bridge/handlers.go:315-328 | no run hands an empty PIN to the login |
| Bridge.RejectionsWithinBudget | dsc_bridge/handlers.go:330-344 | over any run and any changes of PINs, with tokens that reject PINs with those return values, rejected logins number at most the requests that carried a PIN |
| Bridge.BudgetHoldsExactlyFor | dsc_bridge/errors.go:105-122 | that bound holds over all runs for a token's return value if and only if it is one of the four |
| Bridge.FewExplicitPinsNeverLock | dsc_bridge/pincache.go:45-55 | with such tokens fewer PIN-carrying requests than retries never lock a token, however often it is unplugged and plugged in again |
| Bridge.OnePinLocksOthers | dsc_bridge/handlers.go:331-337 | with any other return value one carried PIN locks a token of any number of retries |
| Keystore.Keystore.AddSite | dsc_bridge/keystore.go:74-92 | where token and metadata end up for each availability of keychain and disk |
| Keystore.Keystore.SetHMACSecret | dsc_bridge/keystore.go:142-152 | where the secret ends up |
| Keystore.Keystore.RemoveSite | dsc_bridge/keystore.go:192-210 | index, keychain and file entries of the site go as far as each can be written |
| Keystore.Keystore.Token | dsc_bridge/keystore.go:107-128 | keychain before file, for paired sites only |
| Keystore.Keystore.HMACSecret | dsc_bridge/keystore.go:156-169 | the same for the secret |
| Keystore.AddedIsRead | dsc_bridge/keystore.go:74-92 | a pairing succeeds exactly if the disk works, and its token is then what is read |
| Keystore.SecretIsRead | dsc_bridge/keystore.go:142-169 | a secret is stored exactly if keychain or disk works, and is then what is read |
| Keystore.RemovedIsGone | dsc_bridge/keystore.go:192-210 | after a removal nothing is read, and each place that works has lost both entries |
| Keystore.ReadFrom | dsc_bridge/keystore.go:107-169 | a keychain that works and knows the entry decides, else the file, for paired sites only |
| Keystore.AgreesWithTable | dsc_bridge/keystore.go:74-169 | with a working disk and a keychain always there, never there or gained on the way, every run of operations reads like a plain table of sites |
| Keystore.NeverSuperseded | dsc_bridge/keystore.go:104-169 | with at most one change of the keychain, the disk failing as it likes, no read returns a superseded value; if the keychain was gained, sites must not be removed while the disk fails |
| Keystore.SupersededAfterTwoSwitches | dsc_bridge/keystore.go:79-84 | two changes bring an old token back, from either start |
| Keystore.CurrentExactlyUpToOneSwitch | dsc_bridge/keystore.go:74-169 | reads of all runs with at most n changes and written removals are free of superseded values if and only if n is at most one, from either start |
| Keystore.FailedRemovalComesBack | dsc_bridge/keystore.go:192-210 | otherwise one change is enough: a site removed while the disk fails is back after a restart with a superseded token |
| Keystore.SitesAreIsolated | dsc_bridge/keystore.go:146-151 | an operation on one site changes no answer about another |
| Keystore.PrefixedSiteOverwritesSecret | dsc_bridge/keystore.go:19-21 | a site named with the secret prefix replaces another site's secret, so the proviso is needed |
| Pairing.PairingServer.GeneratePairingCode | e_sign/api/agent.py:31-71 | a fresh code for this user and 600 s, other codes stay |
| Pairing.PairingServer.GetOrCreateSecret | e_sign/digital_signature/doctype/dsc_settings/dsc_settings.py:13-36 | the stored secret, created and committed first if there is none |
| Pairing.PairingServer.ValidatePairingCode | e_sign/api/agent.py:75-136 | code spent, registration committed, then token and secret handed out; what remains of each for every place to break off |
| Pairing.HandlePair | dsc_bridge/handlers.go:103-157 | answers of the bridge and what it has stored for each of them |
| Pairing.HeldTokensVerify | e_sign/api/agent.py:140-160 | whatever messages were lost and whatever keychain and disk did, a site token that a bridge reads is found by `verify_site_token` |
| Pairing.TokenVerifiesForOneAgent | e_sign/api/agent.py:140-160 | over every run a site token is found for one agent only |
| Pairing.CodeYieldsAtMostOneRegistration | e_sign/api/agent.py:86-115 | over any run each code yields at most one registration |
| Pairing.CodeWorksExactlyInTime | e_sign/api/agent.py:86-136 | an expired or unknown code changes nothing; any other is spent and registers its user, the agent and the token handed out |
| Pairing.RegistrationsFollowTheirCode | e_sign/api/agent.py:61-115 | over every run each registration comes from a pairing less than 600 s after the request for its code, in the name of the user who asked and for the agent that showed it |
| Pairing.HeldSecretIsServersExactlyWhen | dsc_bridge/handlers.go:137-157 | after any run, keychain and disk failing as they like, a secret that a bridge reads is one the server created, and is the server's now if and only if that was not cleared since |
| Pairing.HeldSecretIsServers | dsc_bridge/keystore.go:142-169 | with at most one change of the keychain it is what the last storing pairing delivered, so it is the server's if and only if the server's was not cleared since that pairing |
| Pairing.TwoChangesExactlyWhen | dsc_bridge/keystore.go:146-167 | two changes bring the first secret back, which is the server's if and only if nothing was cleared between the two pairings |
| Pairing.FailedRemovalUncovers | dsc_bridge/keystore.go:199-209 | one change is enough to read an old secret if a site was removed while the disk failed |
| Der.Asn1Wrap | dsc_bridge/aia.go:214-232 | the loop's output is tag, length octets and the joined contents |
| Der.Asn1Integer | dsc_bridge/aia.go:202-208 | a zero octet in front of a magnitude with the high bit set |
| Der.ParseWrap | dsc_bridge/aia.go:214-232 | the parser recovers tag, body and rest of every body below 65536 octets |
| Der.WrapParsesExactlyBelowLimit | dsc_bridge/aia.go:220-229 | the round trip holds exactly below 65536 octets: from there the length octets wrap around |
| Der.LengthIsMinimal | dsc_bridge/aia.go:220-229 | lengths the strict parser accepts are printed the same way (sections 8.1.3 and 10.1 of ITU-T X.690) |
| Der.WrapParse | dsc_bridge/aia.go:214-232 | every element the strict parser accepts is the printer's output for it |
| Der.EncodingsArePrefixFree | dsc_bridge/aia.go:214-232 | equal concatenations begin with equal elements |
| Der.ParseAllWrapAll | dsc_bridge/aia.go:190-200 | a series of elements parses back to its items |
| Der.NestedSequenceRoundTrip | dsc_bridge/aia.go:190-200 | a sequence parses back to its items exactly while its body stays below 65536 octets |
| Ocsp.SerialRoundTrip | dsc_bridge/aia.go:164-171 | the serial number is a minimal INTEGER of the same value exactly if it is positive, of its absolute value if it is negative (section 8.3 of ITU-T X.690) |
| Ocsp.BuildOCSPRequest | dsc_bridge/aia.go:146-186 | the composed builders print the nested OCSPRequest |
| Ocsp.OcspRequestRoundTrip | dsc_bridge/aia.go:146-186 | the request parses back to its two hashes and its serial number exactly for positive serial numbers that print in at most 65460 octets (section 4.1.1 of RFC 6960) |
| Ocsp.PrefixMakesDigestInfoExactlyFor32 | dsc_bridge/pkcs11_handler.go:350-356 | constant and hash make the DigestInfo that the builders would print exactly for 32-octet hashes (section 9.2 of RFC 8017) |
| Ocsp.DataByKey | dsc_bridge/pkcs11_handler.go:292-305 | RSA keys sign the constant and the hash, EC keys the hash alone, each with its mechanism, other keys nothing; the data determine the hash |
| Placement.Viewer.PositionBoxFromDoc | e_sign/digital_signature/doctype/dsc_document_sign/dsc_document_sign.js:202-222 | the box that is drawn for stored or unset fields |
| Placement.Viewer.CommitBox | e_sign/digital_signature/doctype/dsc_document_sign/dsc_document_sign.js:224-239 | what is stored for a box, faithful to it when it is on the page |
| Placement.Viewer.OnMouseMove | e_sign/digital_signature/doctype/dsc_document_sign/dsc_document_sign.js:260-274 | move and resize with their clamps: a move keeps the size, a resize the position and 40 x 20 |
| Placement.Viewer.OnMouseUp | e_sign/digital_signature/doctype/dsc_document_sign/dsc_document_sign.js:276-281 | a release commits, a click outside does nothing |
| Placement.Viewer.RenderPage | e_sign/digital_signature/doctype/dsc_document_sign/dsc_document_sign.js:284-295 | turning the page draws and commits there |
| Placement.DragFollowsMouse | e_sign/digital_signature/doctype/dsc_document_sign/dsc_document_sign.js:244-274 | whatever way the mouse took, the box has moved, or by the handle grown, exactly as far as the mouse in all, or to the nearest place or size that the page and 40 x 20 allow |
| Placement.DrawnWhere | e_sign/digital_signature/doctype/dsc_document_sign/dsc_document_sign.js:202-222 | a placement of this page is drawn where it was stored, any other box 24 pixels from the lower right corner, 200 x 80 points if unset |
| Placement.PositionedOnPageExactlyIfItFits | e_sign/digital_signature/doctype/dsc_document_sign/dsc_document_sign.js:219-221 | drawing puts the box on the page, at least 40 x 20, exactly when its size fits |
| Placement.BoxStaysOnPage | e_sign/digital_signature/doctype/dsc_document_sign/dsc_document_sign.js:260-281 | every run of moves and resizes keeps the box on its page and at least 40 x 20 |
| Placement.BoxStaysNearPage | e_sign/digital_signature/doctype/dsc_document_sign/dsc_document_sign.js:284-295 | every run of moves, resizes and turns, to pages that are no smaller or that the stored size fits up to half a hundredth of a point, keeps it so up to half a hundredth of a point |
| Placement.PositionedNearPageExactlyIfItNearlyFits | e_sign/digital_signature/doctype/dsc_document_sign/dsc_document_sign.js:202-222 | that condition on a turn is exact: on a page of 40 x 20 pixels or more drawing keeps the box near the page if and only if the stored size nearly fits |
| Placement.FortyPixelsStayExactlyWhen | e_sign/digital_signature/doctype/dsc_document_sign/dsc_document_sign.js:205-206 | a box of 40 pixels keeps them when its page is shown again exactly if storing does not round its width down |
| Placement.FortyPixelsAtSevenTenths | e_sign/digital_signature/doctype/dsc_document_sign/dsc_document_sign.js:176 | at scale 0.7 they are stored as 57.14 pt and drawn as 39.998 |
| Placement.CommitIsFaithful | e_sign/digital_signature/doctype/dsc_document_sign/dsc_document_sign.js:233-238 | each stored field is within 0.005 pt of the box, and the rectangle within 0.01 pt of the page |
| Placement.StoredPlacementIsFaithful | e_sign/digital_signature/doctype/dsc_document_sign/dsc_document_sign.js:176-239 | the same for whatever such a run, turns included, stores last |
| Placement.RedrawDoesNotDrift | e_sign/digital_signature/doctype/dsc_document_sign/dsc_document_sign.js:202-239 | after one redraw at any scale, a redraw at any other scale stores the same placement, for placed and unplaced boxes |
| Placement.CommitThenRedrawSettles | e_sign/digital_signature/doctype/dsc_document_sign/dsc_document_sign.js:224-239 | the same from a committed box of any page and scale |
| Placement.RedrawKeepsPlacementOnPage | e_sign/digital_signature/doctype/dsc_document_sign/dsc_document_sign.js:210-220 | a placement on the page is stored again unchanged at once |
| Anchor.FixedReadsBack | e_sign/digital_signature/signature_anchor.py:43 | a number printed in fixed notation matches the number pattern and reads back as its printed value |
| Anchor.RecoveredIsClose | e_sign/digital_signature/signature_anchor.py:43 | that value is within five millionths of the size |
| Anchor.SixDigitsAreExact | e_sign/digital_signature/signature_anchor.py:43 | and equal to it if six digits are enough |
| Anchor.FormatIsNumberExactlyWhen | e_sign/digital_signature/signature_anchor.py:27-43 | the printed size matches the number pattern exactly if it prints without sign and exponent |
| Anchor.MatchesExactlyMarkers | e_sign/digital_signature/signature_anchor.py:27 | the matcher accepts exactly the texts that begin with a marker for two numbers |
| Anchor.MarkerReads | e_sign/digital_signature/signature_anchor.py:43 | the text of a marker |
| Anchor.SearchBehind | e_sign/digital_signature/signature_anchor.py:80 | what the search finds in any text and a marker behind it is what it finds in that text and two signs, if anything, and else what it finds from the marker on |
| Anchor.MarkerRoundTrip | e_sign/digital_signature/signature_anchor.py:27-53 | behind a text in which two more signs complete no marker the search finds the printed sizes if and only if both print without sign and exponent; behind any other text it finds what it finds without the marker |
| Anchor.DanglingHeadCaptures | e_sign/digital_signature/signature_anchor.py:80-84 | a head with two sizes right before the marker is found instead: no marker stands before, but the signs complete one |
| Anchor.LocateSignatureAnchor | e_sign/digital_signature/signature_anchor.py:64-98 | the scan returns position and sizes of the first line with a match, and None exactly if there is none before the end or an exception |
| Anchor.BoxHasPrintedSize | e_sign/digital_signature/signing_engine.py:128-136 | the box of a located marker has the printed width and height below the line's top left corner |
| Anchor.DefaultSizeComesBack | e_sign/digital_signature/signature_anchor.py:37-41 | sizes that are no numbers come back as exactly 200 by 80 |
| Text.JoinInjective | dsc_bridge/handlers.go:387-393 | joining is injective on lists of equal length if one of them has no separator in its fields |
| Text.JoinDeterminesExactly | dsc_bridge/handlers.go:387-393 | a list of fields is determined by their number and the joined text if and only if it has at most one field or no separator in any |
| Text.SplitJoin | e_sign/digital_signature/rule_engine.py:163 | splitting undoes joining of fields without the separator |
| Text.PrintIntInjective | dsc_bridge/handlers.go:391 | different timestamps print differently |

## Left out

- pyHanko, asn1crypto, pdfminer and X.509: the prepared PDF, its digest, the verdict on a signed PDF and the text lines of a page are arguments; a CMS is a record of certificate, chain, attributes and signature.
- Concurrency inside one call: the read and the delete of a cached session are one step, so two `finalize` calls never see the same session.
- Frappe itself: permissions, `flt`, `str`, field defaults and type casts on insert, link checks and the mail and cache servers; the rules engine takes `flt` and `str` as parameters, list-valued fields are not modelled.
- Developer hooks, notifications, ToDos, timeline comments and geocoding, except that they can raise where that matters.
- The labels that `get_signing_status` computes after its recovery loop: a case distinction on the statuses.
- Direct form edits of a request, deletion of files or registrations, and reuse of a request's name after a purge: outside the endpoints.
- The client address, coordinates, file names and failure texts stored on a row: the model keeps whether a location was given, the version number and a tag for the kind of failure.
- The hash on an audit event: it covers one row, and no modelled code reads it.
- The alternatives of the signature box without placement and without anchor, and the visible stamp: one branch each.
- The calendar arithmetic that turns the retention years into a cutoff time, which is an argument.
- Bootstrap endpoints, CORS headers, certificate and token enumeration, AIA and OCSP fetches, TLS, tray, installers and the other form scripts.
- Renaming of templates: a template's name is its key and does not change on save.
- Anchor.MarkerRoundTrip: the number pattern of the source also admits decimal digits outside ASCII; the printer never prints them.
- RuleEngine.RepeatedEventAddsNothing: the site's rules do not change between the two events.
