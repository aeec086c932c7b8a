/** A Document Sign record mirrors the status of its signing request. The endpoints write both
    rows, the timeout job and the fingerprint check write only the request. */
module Mirror {
  import opened Wrappers
  import opened Records
  import opened Lifecycle
  import opened Evidence

  /** No rule targets the Document Sign doctype itself. */
  predicate NoDocumentRule(calls: seq<Call>) {
    forall i :: 0 <= i < |calls| ==> !(calls[i].RuleMatched? && calls[i].rule.doctype == DOCUMENT_SIGN)
  }

  predicate IsFor(w: World, r: RequestId, name: string) {
    r in w.db.requests && w.db.requests[r].doctype == DOCUMENT_SIGN && w.db.requests[r].docname == name
  }

  predicate InStep(w: World, r: RequestId)
    requires r in w.db.requests
  {
    var row := w.db.requests[r];
    row.docname in w.db.documents && w.db.documents[row.docname].status == row.status
  }

  /** Each request of a record is the one the record names; the two statuses agree unless the
      request has Failed. */
  ghost predicate RequestsMirrored(w: World) {
    forall r, name :: IsFor(w, r, name) ==>
      name in w.db.documents && w.db.documents[name].signingRequest == Some(r)
      && (w.db.requests[r].status == Failed || InStep(w, r)) && w.db.requests[r].status != Draft
  }

  /** A record is a Draft until it has a request. */
  ghost predicate DraftsUnnamed(w: World) {
    forall name :: name in w.db.documents ==>
      (w.db.documents[name].status == Draft <==> w.db.documents[name].signingRequest.None?)
  }

  ghost predicate Consistent(w: World) {
    Named(w) && Agreed(w) && RequestsMirrored(w) && DraftsUnnamed(w)
  }

  lemma DraftsStep(w: World, c: Call)
    requires DraftsUnnamed(w) && RequestsMirrored(w) && Agreed(w)
    ensures DraftsUnnamed(Apply(w, c))
  {
    match c
    case Finalize(f) => DraftsFinalize(w, f);
    case GetStatus(doctype, docname) =>
      if stale :| stale in StaleIds(w, doctype, docname) {
        assert doctype == DOCUMENT_SIGN ==> IsFor(w, stale, docname);
      }
    case Initiate(i) =>
      assert i.doctype == DOCUMENT_SIGN && InitiateCheck(w, i).None? ==> IsFor(w, i.found.value, i.docname);
    case Retry(_) => DraftsGuarded(w, c);
    case Cancel(_) => DraftsGuarded(w, c);
    case Abort(_) => DraftsGuarded(w, c);
    case SaveDocument(save) => DraftsSave(w, save);
    case _ =>
  }

  lemma DraftsSave(w: World, c: SaveCall)
    requires DraftsUnnamed(w)
    ensures DraftsUnnamed(Apply(w, SaveDocument(c)))
  {
  }

  lemma DraftsGuarded(w: World, c: Call)
    requires DraftsUnnamed(w) && RequestsMirrored(w)
    requires c.Retry? || c.Cancel? || c.Abort?
    ensures DraftsUnnamed(Apply(w, c))
  {
    var r := c.request;
    assert r in w.db.requests && w.db.requests[r].doctype == DOCUMENT_SIGN ==> IsFor(w, r, w.db.requests[r].docname);
  }

  lemma DraftsFinalize(w: World, f: FinalizeCall)
    requires DraftsUnnamed(w) && RequestsMirrored(w) && Agreed(w)
    ensures DraftsUnnamed(Apply(w, Finalize(f)))
  {
    if Reaches(w, f) && !Mismatch(w.db, w.db.requests[w.cache[f.session].request], f.cert) {
      var row := w.db.requests[w.cache[f.session].request];
      assert row.doctype == DOCUMENT_SIGN ==> IsFor(w, w.cache[f.session].request, row.docname);
      FinalizedDocumentsAre(w, f);
      assert Apply(w, Finalize(f)).db.documents == FinalizedDocuments(w, f);
    }
  }

  /** What a decided `finalize` does to the records: the one of the request gets its status. */
  lemma FinalizedDocumentsAre(w: World, f: FinalizeCall)
    requires Agreed(w) && Reaches(w, f)
    ensures var row := w.db.requests[w.cache[f.session].request];
            var documents := FinalizedDocuments(w, f);
            && documents.Keys == w.db.documents.Keys
            && forall name :: name in documents ==>
                 && documents[name].signingRequest == w.db.documents[name].signingRequest
                 && documents[name].status == if row.doctype == DOCUMENT_SIGN && row.docname == name
                                              then FinalizedRow(w, f).status else w.db.documents[name].status
  {
  }

  lemma MirrorStep(w: World, c: Call)
    requires Consistent(w) && !(c.RuleMatched? && c.rule.doctype == DOCUMENT_SIGN)
    ensures RequestsMirrored(Apply(w, c))
  {
    var w' := Apply(w, c);
    forall r, name | IsFor(w', r, name)
      ensures name in w'.db.documents && w'.db.documents[name].signingRequest == Some(r)
      ensures w'.db.requests[r].status == Failed || InStep(w', r)
      ensures w'.db.requests[r].status != Draft
    {
      if r in w.db.requests {
        RequestAfter(w, c, r);
        assert IsFor(w, r, name);
        MirrorOld(w, c, r, name);
      } else {
        MirrorNew(w, c, r, name);
      }
    }
  }

  lemma MirrorNew(w: World, c: Call, r: RequestId, name: string)
    requires !(c.RuleMatched? && c.rule.doctype == DOCUMENT_SIGN)
    requires IsFor(Apply(w, c), r, name) && r !in w.db.requests
    ensures var w' := Apply(w, c);
            name in w'.db.documents && w'.db.documents[name].signingRequest == Some(r)
            && w'.db.requests[r].status == Pending && InStep(w', r)
  {
    hide Minted, InitiateEvents, StaleFor, TimedOut, Purgeable, Complete, RuleEvents, Allowed, HasOpenRequest, WithDocumentStatus;
    if c.Finalize? {
      FinalizeWritesOneRow(w, c.f, r);
      hide Apply;
    }
  }

  /** The pair after a call, for a request that was there before. */
  lemma MirrorOld(w: World, c: Call, r: RequestId, name: string)
    requires Consistent(w) && IsFor(w, r, name) && IsFor(Apply(w, c), r, name)
    ensures var w' := Apply(w, c);
            name in w'.db.documents && w'.db.documents[name].signingRequest == Some(r)
            && (w'.db.requests[r].status == Failed || InStep(w', r)) && w'.db.requests[r].status != Draft
    ensures InStep(w, r) && !InStep(Apply(w, c), r) ==> WritesOneSide(w, c, r)
    ensures InStep(w, r) && WritesOneSide(w, c, r) ==> !InStep(Apply(w, c), r)
  {
    assert Pair(w, r, name);
    hide RequestsMirrored, DraftsUnnamed, Named, Agreed, Reaches, Mismatch, Purgeable;
    match c
    case Finalize(f) => OldFinalize(w, f, r, name); hide Apply;
    case GetStatus(doctype, docname) => OldStatus(w, doctype, docname, r, name); hide Apply;
    case SaveDocument(save) => OldSave(w, save, r, name); hide Apply;
    case Initiate(i) => OldInitiate(w, i, r, name); hide Apply;
    case Retry(r') => OldGuarded(w, c, r, name); hide Apply;
    case Cancel(r') => OldGuarded(w, c, r, name); hide Apply;
    case Abort(r') => OldGuarded(w, c, r, name); hide Apply;
    case RuleMatched(rule) =>
    case Cleanup =>
    case Purge(_) =>
    case Tick(_) =>
    case Evict(_) =>
    case EditProfile(_, _) =>
    case SecretSet(_) =>
    case AlterEvent(_, _) =>
  }

  /** The request and its record after a call are still a mirrored pair. */
  predicate Pair(w: World, r: RequestId, name: string) {
    IsFor(w, r, name) && name in w.db.documents && w.db.documents[name].signingRequest == Some(r)
    && (w.db.requests[r].status == Failed || InStep(w, r)) && w.db.requests[r].status != Draft
  }

  lemma OldInitiate(w: World, i: InitiateCall, r: RequestId, name: string)
    requires Consistent(w) && IsFor(w, r, name)
    ensures Pair(Apply(w, Initiate(i)), r, name) && (InStep(w, r) ==> InStep(Apply(w, Initiate(i)), r))
  {
    assert Pair(w, r, name);
    if InitiateCheck(w, i).None? && i.doctype == DOCUMENT_SIGN {
      assert IsFor(w, i.found.value, i.docname);
    }
  }

  lemma OldFinalize(w: World, f: FinalizeCall, r: RequestId, name: string)
    requires Consistent(w) && IsFor(w, r, name)
    ensures Pair(Apply(w, Finalize(f)), r, name)
    ensures InStep(w, r) ==> (InStep(Apply(w, Finalize(f)), r) <==> !WritesOneSide(w, Finalize(f), r))
  {
    hide FinalizedDocuments, FinalizeEvents, NewFile, FailureReason, FinalizeError, WithDocumentStatus;
    assert Pair(w, r, name);
    if Reaches(w, f) && !Mismatch(w.db, w.db.requests[w.cache[f.session].request], f.cert) {
      FinalizedDocumentsAre(w, f);
      var w' := Apply(w, Finalize(f));
      assert w'.db == FinalizeDb(w, f);
      var r' := w.cache[f.session].request;
      var row := w.db.requests[r'];
      assert row.doctype == DOCUMENT_SIGN ==> IsFor(w, r', row.docname);
    }
  }

  lemma OldStatus(w: World, doctype: string, docname: string, r: RequestId, name: string)
    requires Consistent(w) && IsFor(w, r, name)
    ensures Pair(Apply(w, GetStatus(doctype, docname)), r, name)
    ensures InStep(w, r) ==> InStep(Apply(w, GetStatus(doctype, docname)), r)
  {
    assert Pair(w, r, name);
    if doctype == DOCUMENT_SIGN && name == docname {
      if stale :| stale in StaleIds(w, doctype, docname) {
        assert IsFor(w, stale, name);
      }
    }
  }

  lemma OldSave(w: World, c: SaveCall, r: RequestId, name: string)
    requires Consistent(w) && IsFor(w, r, name)
    ensures Pair(Apply(w, SaveDocument(c)), r, name)
    ensures InStep(w, r) ==> InStep(Apply(w, SaveDocument(c)), r)
  {
    assert Pair(w, r, name);
    assert w.db.documents[name].status != Draft;
  }

  lemma OldGuarded(w: World, c: Call, r: RequestId, name: string)
    requires Consistent(w) && IsFor(w, r, name) && (c.Retry? || c.Cancel? || c.Abort?)
    ensures Pair(Apply(w, c), r, name) && (InStep(w, r) ==> InStep(Apply(w, c), r))
  {
    assert Pair(w, r, name);
    var r' := c.request;
    if r' in w.db.requests && w.db.requests[r'].doctype == DOCUMENT_SIGN {
      assert IsFor(w, r', w.db.requests[r'].docname);
    }
  }

  lemma {:induction false} AlwaysMirrored(w: World, calls: seq<Call>)
    requires Consistent(w) && NoDocumentRule(calls)
    ensures Consistent(Run(w, calls))
    decreases |calls|
  {
    if calls != [] {
      NamedStep(w, calls[0]);
      AgreedStep(w, calls[0]);
      MirrorStep(w, calls[0]);
      DraftsStep(w, calls[0]);
      AlwaysMirrored(Apply(w, calls[0]), calls[1..]);
    }
  }

  /** Once a record names its request it names it for good, purged or not. */
  lemma {:induction false} SigningRequestIsFixed(w: World, calls: seq<Call>, name: string, r: RequestId)
    requires Consistent(w) && NoDocumentRule(calls)
    requires name in w.db.documents && w.db.documents[name].signingRequest == Some(r)
    ensures var w' := Run(w, calls); name in w'.db.documents && w'.db.documents[name].signingRequest == Some(r)
    decreases |calls|
  {
    if calls != [] {
      assert w.db.documents[name].status != Draft;
      SigningRequestKept(w, calls[0], name);
      NamedStep(w, calls[0]);
      AgreedStep(w, calls[0]);
      MirrorStep(w, calls[0]);
      DraftsStep(w, calls[0]);
      SigningRequestIsFixed(Apply(w, calls[0]), calls[1..], name, r);
    }
  }

  lemma SigningRequestKept(w: World, c: Call, name: string)
    requires Agreed(w) && name in w.db.documents && w.db.documents[name].status != Draft
    ensures name in Apply(w, c).db.documents
            && Apply(w, c).db.documents[name].signingRequest == w.db.documents[name].signingRequest
  {
    if c.Finalize? {
      if Reaches(w, c.f) {
        FinalizedDocumentsAre(w, c.f);
      }
    }
  }

  /** With no rule on Document Sign records, each record has at most one request ever. */
  lemma OneRequestEver(w: World, earlier: seq<Call>, later: seq<Call>, name: string, r1: RequestId, r2: RequestId)
    requires Initial(w) && NoDocumentRule(earlier) && NoDocumentRule(later)
    requires IsFor(Run(w, earlier), r1, name) && IsFor(Run(w, earlier + later), r2, name)
    ensures r1 == r2
  {
    AlwaysMirrored(w, earlier);
    var w1 := Run(w, earlier);
    RunAppend(w, earlier, later);
    AlwaysMirrored(w1, later);
    SigningRequestIsFixed(w1, later, name, r1);
  }

  /** In every reachable state the statuses agree unless the request has Failed. */
  lemma StatusesAgreeUnlessFailed(w: World, calls: seq<Call>, r: RequestId)
    requires Initial(w) && NoDocumentRule(calls)
    requires r in Run(w, calls).db.requests && Run(w, calls).db.requests[r].doctype == DOCUMENT_SIGN
    ensures Run(w, calls).db.requests[r].status == Failed || InStep(Run(w, calls), r)
  {
    AlwaysMirrored(w, calls);
    assert IsFor(Run(w, calls), r, Run(w, calls).db.requests[r].docname);
  }

  /** The calls that write the request without its record: the timeout job, and `finalize` on a
      fingerprint mismatch (unless the request had Failed already). */
  predicate WritesOneSide(w: World, c: Call, r: RequestId)
    requires r in w.db.requests
  {
    || (c.Cleanup? && TimedOut(w.db.requests[r], w))
    || (c.Finalize? && Reaches(w, c.f) && w.cache[c.f.session].request == r
        && Mismatch(w.db, w.db.requests[r], c.f.cert) && w.db.requests[r].status != Failed)
  }

  /** Exactly those calls take a record out of step. */
  lemma MirrorBreaksExactlyWhen(w: World, c: Call, r: RequestId)
    requires Consistent(w)
    requires r in w.db.requests && w.db.requests[r].doctype == DOCUMENT_SIGN && InStep(w, r)
    requires r in Apply(w, c).db.requests
    ensures !InStep(Apply(w, c), r) <==> WritesOneSide(w, c, r)
  {
    var name := w.db.requests[r].docname;
    assert IsFor(w, r, name);
    RequestAfter(w, c, r);
    MirrorOld(w, c, r, name);
  }

  /** Every retry, every `finalize` that gets past the fingerprint check and every recovery of a
      stale request leaves record and request in step, whatever went before. */
  lemma MirrorIsRestored(w: World, c: Call, r: RequestId)
    requires Consistent(w) && r in w.db.requests && w.db.requests[r].doctype == DOCUMENT_SIGN
    requires (c.Retry? && c.request == r && EffectOf(w, c).reply.Done?)
             || (c.Finalize? && Reaches(w, c.f) && w.cache[c.f.session].request == r && !Mismatch(w.db, w.db.requests[r], c.f.cert))
             || (c.GetStatus? && r in StaleIds(w, c.doctype, c.docname))
    ensures r in Apply(w, c).db.requests && InStep(Apply(w, c), r)
  {
    hide FinalizeEvents, NewFile, FailureReason, FinalizeError, InitiateEffect, RuleEffect, SaveEffect, CleanupEffect, PurgeEffect;
    assert IsFor(w, r, w.db.requests[r].docname);
  }

  /** With a rule on Document Sign the record can have two requests: the rule's and its own are
      both Pending after a save, and only one of them is named. */
  lemma DocumentRuleBreaksUniqueness(w: World, c: RuleCall)
    requires Consistent(w) && c.doctype == DOCUMENT_SIGN && c.docname in w.db.documents
    requires w.db.documents[c.docname].signingRequest.Some? && c.rule != ""
    requires var r := w.db.documents[c.docname].signingRequest.value; IsFor(w, r, c.docname) && w.db.requests[r].rule == ""
    requires forall r :: IsFor(w, r, c.docname) ==> w.db.requests[r].rule != c.rule
    ensures var w' := Apply(w, RuleMatched(c));
            exists r1, r2 :: r1 != r2 && IsFor(w', r1, c.docname) && IsFor(w', r2, c.docname)
  {
    var w' := Apply(w, RuleMatched(c));
    var r1 := w.db.documents[c.docname].signingRequest.value;
    forall r | r in w.db.requests && w.db.requests[r].doctype == c.doctype && w.db.requests[r].docname == c.docname
      ensures w.db.requests[r].rule != c.rule
    {
      assert IsFor(w, r, c.docname);
    }
    assert IsFor(w', r1, c.docname) && IsFor(w', w.db.nextRequest, c.docname);
  }
}
