/** How long a request can stay In Progress. Nothing refreshes `modified` between the `initiate`
    that sets In Progress and the call that leaves it, so the hourly job sees its true age. */
module Stuckness {
  import opened Wrappers
  import opened Records
  import opened Lifecycle

  const PERIOD := 3600

  /** Between cleanups never more than an hour passes, along the whole run. `last` is the time of
      the last cleanup before it. */
  predicate Punctual(w: World, calls: seq<Call>, last: int)
    decreases |calls|
  {
    w.now - last <= PERIOD
    && (calls != [] ==> Punctual(Apply(w, calls[0]), calls[1..], if calls[0].Cleanup? then w.now else last))
  }

  function LastCleanup(w: World, calls: seq<Call>, last: int): (t: int)
    decreases |calls|
  {
    if calls == [] then last
    else LastCleanup(Apply(w, calls[0]), calls[1..], if calls[0].Cleanup? then w.now else last)
  }

  function Grace(settings: Settings): (seconds: int) {
    if Timeout(settings) < 0 then 0 else Timeout(settings)
  }

  predicate InProgressAt(w: World, r: RequestId) {
    r in w.db.requests && w.db.requests[r].status == InProgress
  }

  /** `modified` of an In Progress row is the time it became In Progress. */
  lemma ModifiedIsEntryTime(w: World, c: Call, r: RequestId)
    requires InProgressAt(Apply(w, c), r)
    ensures Apply(w, c).db.requests[r].modified
            == if InProgressAt(w, r) then w.db.requests[r].modified else w.now
  {
    hide InitiateEvents, Minted, AttrsFor, WithDocumentStatus, StaleFor, TimedOut, Purgeable, HasOpenRequest, Complete, RuleEvents,
         RuleHasRequest, FinalizedDocuments, FinalizeEvents, NewFile, FailureReason, FinalizeError, Mismatch;
  }

  /** Each In Progress row was young enough to survive the last cleanup. */
  ghost predicate Young(w: World, last: int) {
    last <= w.now && forall r :: InProgressAt(w, r) ==> w.db.requests[r].modified >= last - Grace(w.settings)
  }

  lemma YoungStep(w: World, c: Call, last: int)
    requires Young(w, last)
    ensures Young(Apply(w, c), if c.Cleanup? then w.now else last)
  {
    forall r | InProgressAt(Apply(w, c), r)
      ensures Apply(w, c).db.requests[r].modified >= (if c.Cleanup? then w.now else last) - Grace(w.settings)
    {
      ModifiedIsEntryTime(w, c, r);
    }
  }

  lemma {:induction false} StaysYoung(w: World, calls: seq<Call>, last: int)
    requires Young(w, last) && Punctual(w, calls, last)
    ensures Young(Run(w, calls), LastCleanup(w, calls, last))
    ensures Run(w, calls).now - LastCleanup(w, calls, last) <= PERIOD
    ensures Run(w, calls).settings == w.settings
    decreases |calls|
  {
    if calls != [] {
      YoungStep(w, calls[0], last);
      StaysYoung(Apply(w, calls[0]), calls[1..], if calls[0].Cleanup? then w.now else last);
    }
  }

  predicate StaysInProgress(w: World, calls: seq<Call>, r: RequestId)
    decreases |calls|
  {
    InProgressAt(w, r) && (calls != [] ==> StaysInProgress(Apply(w, calls[0]), calls[1..], r))
  }

  lemma {:induction false} ModifiedIsKept(w: World, calls: seq<Call>, r: RequestId)
    requires StaysInProgress(w, calls, r)
    ensures InProgressAt(Run(w, calls), r)
    ensures Run(w, calls).db.requests[r].modified == w.db.requests[r].modified
    decreases |calls|
  {
    if calls != [] {
      ModifiedIsEntryTime(w, calls[0], r);
      ModifiedIsKept(Apply(w, calls[0]), calls[1..], r);
    }
  }

  /** Bounded stuckness: with a punctual cleanup no request stays In Progress for longer than the
      signing timeout plus one period, counted from the call that made it so. */
  lemma NeverStuckForLong(w: World, before: seq<Call>, start: Call, during: seq<Call>, last: int, r: RequestId)
    requires w.db.requests == map[] && last == w.now
    requires Punctual(w, before + [start] + during, last)
    requires var w1 := Run(w, before); !InProgressAt(w1, r) && StaysInProgress(Apply(w1, start), during, r)
    ensures Run(w, before + [start] + during).now - Run(w, before).now <= Grace(w.settings) + PERIOD
  {
    var w1 := Run(w, before);
    var w2 := Apply(w1, start);
    StaysYoung(w, before + [start] + during, last);
    RunAppend(w, before + [start], during);
    RunAppend(w, before, [start]);
    assert [start][1..] == [] && Run(w2, []) == w2;
    ModifiedIsEntryTime(w1, start, r);
    ModifiedIsKept(w2, during, r);
    assert InProgressAt(Run(w, before + [start] + during), r);
  }
}
