/** Which status changes of a request are ever committed. Two write paths compete: `save` is
    guarded by a transition table, `set_value` is not, so neither the table nor the documented
    diagram gives the answer. */
module Transitions {
  import opened Wrappers
  import opened Records
  import opened Lifecycle
  import opened Evidence

  ghost predicate Reachable(w: World) {
    exists w0, calls :: Initial(w0) && Run(w0, calls) == w
  }

  lemma ReachableStep(w: World, c: Call)
    requires Reachable(w)
    ensures Reachable(Apply(w, c))
  {
    var w0, calls :| Initial(w0) && Run(w0, calls) == w;
    RunAppend(w0, calls, [c]);
    assert [c][1..] == [] && Run(Apply(w, c), []) == Apply(w, c);
    assert Run(w0, calls + [c]) == Apply(w, c);
  }

  lemma ReachableIsSound(w: World)
    requires Reachable(w)
    ensures Sound(w) && NoDraftRequest(w)
  {
    var w0, calls :| Initial(w0) && Run(w0, calls) == w;
    EveryStateIsSound(w0, calls);
    DraftNeverAppears(w0, calls);
  }

  ghost predicate NoDraftRequest(w: World) {
    forall r :: r in w.db.requests ==> w.db.requests[r].status != Draft
  }

  lemma NoDraftStep(w: World, c: Call)
    requires NoDraftRequest(w)
    ensures NoDraftRequest(Apply(w, c))
  {
    hide InitiateEvents, Minted, AttrsFor, WithDocumentStatus, StaleFor, TimedOut, Purgeable, HasOpenRequest, Complete,
         RuleEvents, RuleHasRequest, Allowed, FinalizedDocuments, FinalizeEvents, NewFile, FailureReason, FinalizeError, Mismatch;
  }

  lemma {:induction false} DraftNeverAppears(w: World, calls: seq<Call>)
    requires NoDraftRequest(w)
    ensures NoDraftRequest(Run(w, calls))
    decreases |calls|
  {
    if calls != [] {
      NoDraftStep(w, calls[0]);
      DraftNeverAppears(Apply(w, calls[0]), calls[1..]);
    }
  }

  /** The committed moves. Only the last two lines need a live session, and they start anywhere. */
  predicate Listed(from: Status, to: Status) {
    || (from == Pending && to == InProgress)
    || (from == InProgress && to == Pending)
    || (from == Failed && to == Pending)
    || (from == Pending && to == Cancelled)
    || (from != Draft && to == Signed)
    || (from != Draft && to == Failed)
  }

  predicate ListedFor(c: Call, from: Status, to: Status) {
    match c
    case Initiate(_) => from == Pending && to == InProgress
    case GetStatus(_, _) => from == InProgress && to == Pending
    case Cleanup => from == InProgress && to == Failed
    case Retry(_) => from == Failed && to == Pending
    case Cancel(_) => from == Pending && to == Cancelled
    case Finalize(_) => to == Signed || to == Failed
    case _ => false
  }

  predicate MovesIn(w: World, c: Call, r: RequestId, from: Status, to: Status) {
    r in w.db.requests && r in Apply(w, c).db.requests
    && w.db.requests[r].status == from && Apply(w, c).db.requests[r].status == to
  }

  /** Every committed change belongs to its endpoint; a poll recovers after 300 s, the job fails
      after the timeout, and `finalize` writes only to the request of a live session. */
  lemma ChangesBelongToTheirCall(w: World, c: Call, r: RequestId, from: Status, to: Status)
    requires Named(w) && MovesIn(w, c, r, from, to) && from != to
    ensures ListedFor(c, from, to)
    ensures c.Finalize? ==> Live(w, c.f.session) && w.cache[c.f.session].request == r
    ensures c.Initiate? ==> c.i.found == Some(r)
    ensures c.Retry? || c.Cancel? ==> c.request == r
    ensures c.GetStatus? ==> w.now - w.db.requests[r].modified >= STALE_IN_PROGRESS
    ensures c.Cleanup? ==> w.now - w.db.requests[r].modified > Timeout(w.settings)
  {
    hide InitiateEvents, Minted, AttrsFor, WithDocumentStatus, HasOpenRequest, Complete, RuleEvents, RuleHasRequest,
         FinalizedDocuments, FinalizeEvents, NewFile, FailureReason, FinalizeError, Mismatch;
  }

  /** `abort_in_progress` never commits anything: the table has no way from In Progress to Pending. */
  lemma AbortNeverCommits(w: World, r: RequestId)
    ensures Apply(w, Abort(r)) == w
    ensures EffectOf(w, Abort(r)).reply == Done <==> r in w.db.requests && w.db.requests[r].status != InProgress
  {
  }

  /** `cancel` admits Failed requests and then the table rejects them: it takes effect exactly on
      Pending requests. */
  lemma CancelOnlyFromPending(w: World, r: RequestId)
    ensures Apply(w, Cancel(r)) != w <==> r in w.db.requests && w.db.requests[r].status == Pending
  {
    if r in w.db.requests && w.db.requests[r].status == Pending {
      assert Apply(w, Cancel(r)).db.requests[r].status == Cancelled;
    }
  }

  // ---------- every listed move happens ----------

  ghost predicate Happens(from: Status, to: Status) {
    exists w, c, r :: Reachable(w) && MovesIn(w, c, r, from, to)
  }

  const P := Profile(true, [], None, None)

  function OpenFor(r: RequestId): (c: Call) {
    Initiate(InitiateCall("ToDo", "T1", "u", false, [1], true, Some(r), None, [], "k", Smooth))
  }

  function Close(sid: SessionId, good: bool): (c: Call) {
    Finalize(FinalizeCall(sid, "u", [7], Some([1]), [], Verification(good, if good then 1 else 0), NoFault))
  }

  /** Request 0 has the given status, and session 0 for it is live. */
  predicate Staged(w: World, status: Status) {
    && 0 in w.db.requests && Matches(w.db.requests[0], "ToDo", "T1", status)
    && w.db.requests[0].expectedSigner == "" && w.db.requests[0].profile == "p"
    && "p" in w.db.profiles && w.db.profiles["p"] == P
    && Live(w, 0) && w.cache[0].request == 0
  }

  lemma OpenStaged(w: World)
    requires 0 in w.db.requests && Matches(w.db.requests[0], "ToDo", "T1", Pending)
    requires w.db.requests[0].expectedSigner == "" && w.db.requests[0].profile == "p"
    requires "p" in w.db.profiles && w.db.profiles["p"] == P
    ensures InitiateCheck(w, OpenFor(0).i).None?
    ensures MovesIn(w, OpenFor(0), 0, Pending, InProgress)
    ensures Apply(w, OpenFor(0)).db == InitiateDb(w, OpenFor(0).i)
    ensures Apply(w, OpenFor(0)).cache == w.cache[w.nextSession := Minted(w, OpenFor(0).i)]
  {
    assert NamedUsers(P) == {};
  }

  const FRESH := World(Db(map[], 0, map[], [], [], map[], None), map[], 0, 0, Settings(true, "sha256", 180))
  const WITH_PROFILE := FRESH.(db := FRESH.db.(profiles := map["p" := P]))

  lemma ProfileAdded()
    ensures Reachable(WITH_PROFILE)
  {
    assert Initial(FRESH) && Run(FRESH, []) == FRESH;
    ReachableStep(FRESH, EditProfile("p", P));
    assert Apply(FRESH, EditProfile("p", P)) == WITH_PROFILE;
  }

  function CreateFirst(): (c: Call) {
    RuleMatched(RuleCall("ToDo", "T1", "rule", "p", "", false, None))
  }

  lemma RequestCreatedFirst(w: World)
    requires w.db.requests == map[] && w.db.nextRequest == 0
    ensures Apply(w, CreateFirst()).db.requests == map[0 := NewRequest("ToDo", "T1", "rule", "p", "", w.now)]
    ensures Apply(w, CreateFirst()).db.profiles == w.db.profiles && Apply(w, CreateFirst()).nextSession == w.nextSession
    ensures Apply(w, CreateFirst()).now == w.now && Apply(w, CreateFirst()).settings == w.settings
  {
  }

  /** Request 0 just moved to In Progress, at time 0, with session 0. */
  lemma StageInProgress() returns (w: World)
    ensures Reachable(w) && Staged(w, InProgress)
    ensures w.now == 0 && w.settings.timeoutSeconds == 180 && w.cache[0].expires == 600 && w.db.requests[0].modified == 0
    ensures Happens(Pending, InProgress)
  {
    ProfileAdded();
    RequestCreatedFirst(WITH_PROFILE);
    var w2 := Apply(WITH_PROFILE, CreateFirst());
    ReachableStep(WITH_PROFILE, CreateFirst());
    OpenStaged(w2);
    w := Apply(w2, OpenFor(0));
    ReachableStep(w2, OpenFor(0));
    OpenedIsStaged(w2);
  }

  lemma OpenedIsStaged(w: World)
    requires w.db.requests == map[0 := NewRequest("ToDo", "T1", "rule", "p", "", 0)] && w.nextSession == 0 && w.now == 0
    requires "p" in w.db.profiles && w.db.profiles["p"] == P
    ensures var w' := Apply(w, OpenFor(0));
            Staged(w', InProgress) && w'.now == 0 && w'.settings == w.settings && w'.cache[0].expires == 600
            && w'.db.requests[0].modified == 0
  {
    OpenStaged(w);
  }

  lemma PollRecovers(w: World)
    requires Staged(w, InProgress) && w.now - w.db.requests[0].modified >= STALE_IN_PROGRESS
    ensures Staged(Apply(w, GetStatus("ToDo", "T1")), Pending)
  {
    assert 0 in StaleIds(w, "ToDo", "T1");
  }

  lemma StagePending() returns (w: World)
    ensures Reachable(w) && Staged(w, Pending)
    ensures Happens(InProgress, Pending)
  {
    var w1 := StageInProgress();
    var w2 := Apply(w1, Tick(300));
    ReachableStep(w1, Tick(300));
    PollRecovers(w2);
    w := Apply(w2, GetStatus("ToDo", "T1"));
    ReachableStep(w2, GetStatus("ToDo", "T1"));
    assert MovesIn(w2, GetStatus("ToDo", "T1"), 0, InProgress, Pending);
  }

  lemma CleanupFails(w: World)
    requires Staged(w, InProgress) && TimedOut(w.db.requests[0], w)
    ensures Staged(Apply(w, Cleanup), Failed)
  {
  }

  lemma StageFailed() returns (w: World)
    ensures Reachable(w) && Staged(w, Failed)
    ensures Happens(InProgress, Failed)
  {
    var w1 := StageInProgress();
    var w2 := Apply(w1, Tick(181));
    ReachableStep(w1, Tick(181));
    CleanupFails(w2);
    w := Apply(w2, Cleanup);
    ReachableStep(w2, Cleanup);
    assert MovesIn(w2, Cleanup, 0, InProgress, Failed);
  }

  lemma CancelCancels(w: World)
    requires Staged(w, Pending)
    ensures Staged(Apply(w, Cancel(0)), Cancelled)
  {
  }

  lemma StageCancelled() returns (w: World)
    ensures Reachable(w) && Staged(w, Cancelled)
    ensures Happens(Pending, Cancelled)
  {
    var w1 := StagePending();
    CancelCancels(w1);
    w := Apply(w1, Cancel(0));
    ReachableStep(w1, Cancel(0));
    assert MovesIn(w1, Cancel(0), 0, Pending, Cancelled);
  }

  lemma CloseSucceeds(w: World, sid: SessionId, status: Status, good: bool)
    requires Staged(w, status) && Live(w, sid) && w.cache[sid].request == 0
    ensures MovesIn(w, Close(sid, good), 0, status, if good then Signed else Failed)
    ensures good && sid != 0 ==> Staged(Apply(w, Close(sid, good)), Signed)
  {
  }

  lemma StageSigned() returns (w: World)
    ensures Reachable(w) && Staged(w, Signed)
  {
    var w1 := StagePending();
    ReachableIsSound(w1);
    OpenStaged(w1);
    var w2 := Apply(w1, OpenFor(0));
    ReachableStep(w1, OpenFor(0));
    CloseSucceeds(w2, w1.nextSession, InProgress, true);
    w := Apply(w2, Close(w1.nextSession, true));
    ReachableStep(w2, Close(w1.nextSession, true));
  }

  lemma Stage(status: Status) returns (w: World)
    requires status != Draft
    ensures Reachable(w) && Staged(w, status)
  {
    match status
    case Pending => w := StagePending();
    case InProgress => w := StageInProgress();
    case Failed => w := StageFailed();
    case Cancelled => w := StageCancelled();
    case Signed => w := StageSigned();
  }

  lemma RetryHappens()
    ensures Happens(Failed, Pending)
  {
    var w := StageFailed();
    assert MovesIn(w, Retry(0), 0, Failed, Pending);
  }

  /** The committed status moves, over all runs, are exactly the listed ones. */
  lemma MovesAreExactlyTheListed(from: Status, to: Status)
    requires from != to
    ensures Happens(from, to) <==> Listed(from, to)
  {
    if Happens(from, to) {
      var w, c, r :| Reachable(w) && MovesIn(w, c, r, from, to);
      ReachableIsSound(w);
      ChangesBelongToTheirCall(w, c, r, from, to);
    }
    if Listed(from, to) {
      EveryListedMoveHappens(from, to);
    }
  }

  lemma EveryListedMoveHappens(from: Status, to: Status)
    requires from != to && Listed(from, to)
    ensures Happens(from, to)
  {
    if to == Signed || to == Failed {
      var w := Stage(from);
      CloseSucceeds(w, 0, from, to == Signed);
    } else if to == InProgress {
      var w := StageInProgress();
    } else if to == Cancelled {
      var w := StageCancelled();
    } else if from == Failed {
      RetryHappens();
    } else {
      var w := StagePending();
    }
  }
}
