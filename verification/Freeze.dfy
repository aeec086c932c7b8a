/** When a finished request is final. "Signed" and "Cancelled" have no way out in the transition
    table, but `finalize` writes the status without reading it: what protects a finished request
    is that no session for it is live, and nothing else. */
module Freeze {
  import opened Wrappers
  import opened Records
  import opened Lifecycle
  import opened Evidence

  predicate Finished(w: World, r: RequestId) {
    r in w.db.requests && (w.db.requests[r].status == Signed || w.db.requests[r].status == Cancelled)
  }

  /** Nothing can reach row `r` any more: it is stored as `row` (or purged), its name is used up,
      and no live session points at it. */
  ghost predicate Frozen(w: World, r: RequestId, row: Request) {
    && (row.status == Signed || row.status == Cancelled)
    && (r in w.db.requests ==> w.db.requests[r] == row)
    && r < w.db.nextRequest
    && !HasLiveSession(w, r)
  }

  lemma FrozenStep(w: World, c: Call, r: RequestId, row: Request)
    requires Frozen(w, r, row)
    ensures Frozen(Apply(w, c), r, row)
  {
    var w' := Apply(w, c);
    forall sid | Live(w', sid)
      ensures w'.cache[sid].request != r
    {
      CacheAfter(w, c, sid);
      if sid in w.cache && w'.cache[sid] == w.cache[sid] {
        assert w.now <= w'.now;
        assert Live(w, sid);
      }
    }
    FrozenRow(w, c, r, row);
  }

  lemma FrozenRow(w: World, c: Call, r: RequestId, row: Request)
    requires Frozen(w, r, row)
    ensures r in Apply(w, c).db.requests ==> Apply(w, c).db.requests[r] == row
    ensures r < Apply(w, c).db.nextRequest
  {
    if c.Finalize? {
      FinalizeWritesOneRow(w, c.f, r);
    }
  }

  /** A finished request without a live session keeps its whole row in every later state. */
  lemma {:induction false} FrozenForever(w: World, calls: seq<Call>, r: RequestId, row: Request)
    requires Frozen(w, r, row)
    ensures Frozen(Run(w, calls), r, row)
    decreases |calls|
  {
    if calls != [] {
      FrozenStep(w, calls[0], r, row);
      FrozenForever(Apply(w, calls[0]), calls[1..], r, row);
    }
  }

  /** Sessions are minted for 600 s, so the cache never holds one that expires later than that. */
  ghost predicate BoundedSessions(w: World) {
    forall sid :: sid in w.cache ==> w.cache[sid].expires <= w.now + SESSION_TTL
  }

  /** `r` is finished in `w` and after each call. */
  predicate StaysFinished(w: World, calls: seq<Call>, r: RequestId)
    decreases |calls|
  {
    Finished(w, r) && (calls != [] ==> StaysFinished(Apply(w, calls[0]), calls[1..], r))
  }

  ghost predicate SessionsExpireBy(w: World, r: RequestId, deadline: int) {
    forall sid :: sid in w.cache && w.cache[sid].request == r ==> w.cache[sid].expires <= deadline
  }

  lemma NoSessionForFinished(w: World, c: Call, r: RequestId, deadline: int)
    requires Finished(w, r) && SessionsExpireBy(w, r, deadline)
    ensures SessionsExpireBy(Apply(w, c), r, deadline)
  {
  }

  /** While `r` stays finished no session is minted for it: those left are the old ones. */
  lemma {:induction false} NoNewSessions(w: World, calls: seq<Call>, r: RequestId, deadline: int)
    requires StaysFinished(w, calls, r)
    requires SessionsExpireBy(w, r, deadline)
    ensures SessionsExpireBy(Run(w, calls), r, deadline)
    decreases |calls|
  {
    if calls != [] {
      NoSessionForFinished(w, calls[0], r, deadline);
      NoNewSessions(Apply(w, calls[0]), calls[1..], r, deadline);
    }
  }

  lemma {:induction false} StaysFinishedAtEnd(w: World, calls: seq<Call>, r: RequestId)
    requires StaysFinished(w, calls, r)
    ensures Finished(Run(w, calls), r)
    decreases |calls|
  {
    if calls != [] {
      StaysFinishedAtEnd(Apply(w, calls[0]), calls[1..], r);
    }
  }

  lemma {:induction false} SessionsStayBounded(w: World, calls: seq<Call>)
    requires BoundedSessions(w)
    ensures BoundedSessions(Run(w, calls))
    decreases |calls|
  {
    if calls != [] {
      SessionsStayBounded(Apply(w, calls[0]), calls[1..]);
    }
  }

  /** In every run from a fresh installation, staying finished for 600 s makes it permanent:
      whatever follows, the row never changes. */
  lemma FinishedFor600SecondsIsForever(w0: World, before: seq<Call>, during: seq<Call>, after: seq<Call>, r: RequestId)
    requires Initial(w0) && StaysFinished(Run(w0, before), during, r)
    requires Run(w0, before + during).now >= Run(w0, before).now + SESSION_TTL
    ensures r in Run(w0, before + during).db.requests
    ensures var end := Run(w0, before + during + after);
            r in end.db.requests ==> end.db.requests[r] == Run(w0, before + during).db.requests[r]
  {
    hide Apply, Named, Agreed;
    var w := Run(w0, before);
    var w1 := Run(w, during);
    RunAppend(w0, before, during);
    RunAppend(w0, before + during, after);
    SessionsStayBounded(w0, before);
    EveryStateIsSound(w0, before + during);
    StaysFinishedAtEnd(w, during, r);
    NamesAreUsedUp(w1, r);
    NoNewSessions(w, during, r, w.now + SESSION_TTL);
    FrozenForever(w1, after, r, w1.db.requests[r]);
  }

  lemma NamesAreUsedUp(w: World, r: RequestId)
    requires Named(w) && r in w.db.requests
    ensures r < w.db.nextRequest
  {
  }

  /** The `finalize` that a garbled signature leads to. */
  function FailingFinalize(sid: SessionId): (c: Call) {
    Finalize(FinalizeCall(sid, "", [], None, [], Verification(false, 0), AssemblyFails))
  }

  /** After `calls`, request `r` has the status it had before, unless it was purged. */
  predicate StatusKept(w: World, calls: seq<Call>, r: RequestId)
    requires r in w.db.requests
  {
    r in Run(w, calls).db.requests ==> Run(w, calls).db.requests[r].status == w.db.requests[r].status
  }

  /** Exactly when a finished request is final: no sequence of calls can move it to another status
      if and only if no session for it is live. */
  lemma FinalExactlyWithoutLiveSession(w: World, r: RequestId)
    requires Finished(w, r) && r < w.db.nextRequest
    ensures (forall calls :: StatusKept(w, calls, r)) <==> !HasLiveSession(w, r)
  {
    if HasLiveSession(w, r) {
      var sid :| Live(w, sid) && w.cache[sid].request == r;
      var calls := [FailingFinalize(sid)];
      assert calls[1..] == [];
      var w1 := Apply(w, calls[0]);
      assert Run(w1, []) == w1;
      assert Run(w, calls) == w1;
      assert !Mismatch(w.db, w.db.requests[r], None);
      assert w1.db.requests[r].status == Failed;
      assert !StatusKept(w, calls, r);
    } else {
      forall calls
        ensures StatusKept(w, calls, r)
      {
        FrozenForever(w, calls, r, w.db.requests[r]);
      }
    }
  }
}
