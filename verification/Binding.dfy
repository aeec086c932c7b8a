/** A session binds what the token signs to what is saved: the CMS carries the attributes and the
    certificate fixed when the session was stored, a session saves at most one PDF, and the signed
    files of a document are numbered 1, 2, 3 and so on. */
module Binding {
  import opened Wrappers
  import opened Records
  import opened Lifecycle
  import opened Evidence

  predicate MadeFrom(file: SignedFile, s: Session) {
    && file.doctype == s.doctype && file.docname == s.docname
    && file.content.prepared == s.preparedPdf
    && file.content.cms.attrs == s.attrs && file.content.cms.signer == s.cert
  }

  /** Session `sid` was stored as `s`, and whatever it saved was made from `s`. */
  ghost predicate BoundTo(w: World, sid: SessionId, s: Session) {
    && sid < w.nextSession
    && (sid in w.cache ==> w.cache[sid] == s)
    && forall i :: 0 <= i < |w.db.files| && w.db.files[i].origin == sid ==> MadeFrom(w.db.files[i], s)
  }

  /** A session that saved a file is spent, and files come from different sessions. */
  ghost predicate SingleUse(w: World) {
    && (forall i :: 0 <= i < |w.db.files| ==> w.db.files[i].origin !in w.cache && w.db.files[i].origin < w.nextSession)
    && (forall i, j :: 0 <= i < j < |w.db.files| ==> w.db.files[i].origin != w.db.files[j].origin)
  }

  ghost predicate Numbered(files: seq<SignedFile>) {
    forall i :: 0 <= i < |files| ==> files[i].version == AttachedTo(files[..i], files[i].doctype, files[i].docname) + 1
  }

  lemma BoundStep(w: World, c: Call, sid: SessionId, s: Session)
    requires BoundTo(w, sid, s)
    ensures BoundTo(Apply(w, c), sid, s)
  {
    FilesAfter(w, c);
  }

  lemma {:induction false} StaysBound(w: World, calls: seq<Call>, sid: SessionId, s: Session)
    requires BoundTo(w, sid, s)
    ensures BoundTo(Run(w, calls), sid, s)
    decreases |calls|
  {
    if calls != [] {
      BoundStep(w, calls[0], sid, s);
      StaysBound(Apply(w, calls[0]), calls[1..], sid, s);
    }
  }

  lemma SingleUseStep(w: World, c: Call)
    requires SingleUse(w) && Named(w)
    ensures SingleUse(Apply(w, c))
  {
    var w' := Apply(w, c);
    FilesAfter(w, c);
    CountersGrow(w, c);
    forall i | 0 <= i < |w'.db.files|
      ensures w'.db.files[i].origin !in w'.cache
    {
      if w'.db.files[i].origin in w'.cache {
        CacheAfter(w, c, w'.db.files[i].origin);
      }
    }
  }

  lemma NumberedStep(w: World, c: Call)
    requires Numbered(w.db.files)
    ensures Numbered(Apply(w, c).db.files)
  {
    FilesAfter(w, c);
    var files := Apply(w, c).db.files;
    if files != w.db.files {
      assert files[..|w.db.files|] == w.db.files;
      assert forall i :: 0 <= i < |w.db.files| ==> files[..i] == w.db.files[..i];
    }
  }

  lemma {:induction false} SessionsAreSingleUse(w: World, calls: seq<Call>)
    requires Named(w) && SingleUse(w) && Numbered(w.db.files)
    ensures SingleUse(Run(w, calls)) && Numbered(Run(w, calls).db.files)
    decreases |calls|
  {
    if calls != [] {
      NamedStep(w, calls[0]);
      SingleUseStep(w, calls[0]);
      NumberedStep(w, calls[0]);
      SessionsAreSingleUse(Apply(w, calls[0]), calls[1..]);
    }
  }

  /** From `initiate` to the saved PDF, over any run in between: every file that the issued session
      leads to belongs to the document asked for and holds the PDF prepared then; its CMS names the
      certificate given then, and its attributes hash to the value the token was asked to sign and
      contain the digest of that PDF. */
  lemma IssuedHashIsWhatGetsSaved(w: World, i: InitiateCall, later: seq<Call>, k: nat)
    requires Named(w) && EffectOf(w, Initiate(i)).reply.Issued?
    requires var end := Run(Apply(w, Initiate(i)), later);
             k < |end.db.files| && end.db.files[k].origin == EffectOf(w, Initiate(i)).reply.session
    ensures var reply := EffectOf(w, Initiate(i)).reply;
            var file := Run(Apply(w, Initiate(i)), later).db.files[k];
            && file.doctype == i.doctype && file.docname == i.docname && file.content.prepared == i.prepared
            && file.content.cms.signer == i.cert
            && AttrsDigest(file.content.cms.attrs) == reply.hash
            && file.content.cms.attrs.messageDigest == PdfDigest(reply.algorithm, file.content.prepared)
  {
    var w1 := Apply(w, Initiate(i));
    var sid := EffectOf(w, Initiate(i)).reply.session;
    assert w1.cache[sid] == Minted(w, i) && w1.db.files == w.db.files;
    StaysBound(w1, later, sid, Minted(w, i));
  }

  /** The certificate sent to `finalize` decides only whether the fingerprints match: two calls
      that differ in it and both pass leave the same world. */
  lemma ResentCertificateIsIgnored(w: World, f: FinalizeCall, cert: Option<Bytes>)
    requires Reaches(w, f)
    requires var row := w.db.requests[w.cache[f.session].request]; !Mismatch(w.db, row, f.cert) && !Mismatch(w.db, row, cert)
    ensures Apply(w, Finalize(f)) == Apply(w, Finalize(f.(cert := cert)))
  {
    hide Mismatch, BuildCms, AttachedTo;
    var g := f.(cert := cert);
    assert FinalizeEvents(f, w.cache[f.session].request, w.now) == FinalizeEvents(g, w.cache[f.session].request, w.now);
    assert SavesFile(f) == SavesFile(g) && NewFile(w, f) == NewFile(w, g);
    assert FinalizedRow(w, f) == FinalizedRow(w, g);
    assert FinalizedDocuments(w, f) == FinalizedDocuments(w, g);
  }

  /** In every reachable state two different files come from different sessions. */
  lemma AtMostOneFilePerSession(w: World, calls: seq<Call>, i: nat, j: nat)
    requires Initial(w) && i < |Run(w, calls).db.files| && j < |Run(w, calls).db.files|
    requires Run(w, calls).db.files[i].origin == Run(w, calls).db.files[j].origin
    ensures i == j
  {
    SessionsAreSingleUse(w, calls);
  }

  predicate IsVersion(file: SignedFile, doctype: string, docname: string, v: nat) {
    file.doctype == doctype && file.docname == docname && file.version == v
  }

  ghost predicate HasVersion(files: seq<SignedFile>, doctype: string, docname: string, v: nat) {
    exists i :: 0 <= i < |files| && IsVersion(files[i], doctype, docname, v)
  }

  lemma HasVersionSplit(files: seq<SignedFile>, doctype: string, docname: string, v: nat)
    requires files != []
    ensures HasVersion(files, doctype, docname, v)
            <==> HasVersion(files[..|files| - 1], doctype, docname, v) || IsVersion(files[|files| - 1], doctype, docname, v)
  {
    var init := files[..|files| - 1];
    if i :| 0 <= i < |init| && IsVersion(init[i], doctype, docname, v) {
      assert IsVersion(files[i], doctype, docname, v);
    }
    if i :| 0 <= i < |files| && IsVersion(files[i], doctype, docname, v) {
      assert i < |init| ==> IsVersion(init[i], doctype, docname, v);
    }
  }

  /** The versions of a document among `files` are exactly 1 .. n, n being their number. */
  lemma {:induction false} VersionsAreConsecutive(files: seq<SignedFile>, doctype: string, docname: string, v: nat)
    requires Numbered(files)
    ensures HasVersion(files, doctype, docname, v) <==> 1 <= v <= AttachedTo(files, doctype, docname)
  {
    if files != [] {
      var init := files[..|files| - 1];
      assert forall i :: 0 <= i < |init| ==> init[..i] == files[..i];
      VersionsAreConsecutive(init, doctype, docname, v);
      HasVersionSplit(files, doctype, docname, v);
    }
  }

  /** No version is given twice. */
  lemma VersionsAreUnique(files: seq<SignedFile>, i: nat, j: nat)
    requires Numbered(files) && i < j < |files|
    requires files[i].doctype == files[j].doctype && files[i].docname == files[j].docname
    ensures files[i].version < files[j].version
  {
    CountGrows(files, i, j, files[i].doctype, files[i].docname);
  }

  lemma {:induction false} CountGrows(files: seq<SignedFile>, i: nat, j: nat, doctype: string, docname: string)
    requires i < j <= |files| && files[i].doctype == doctype && files[i].docname == docname
    ensures AttachedTo(files[..i], doctype, docname) < AttachedTo(files[..j], doctype, docname)
    decreases j
  {
    assert files[..j][..j - 1] == files[..j - 1];
    if j > i + 1 {
      CountGrows(files, i, j - 1, doctype, docname);
    }
  }

  /** Without deletions a document's signed files number exactly 1 .. n in every reachable state. */
  lemma SignedFilesNumberOneToN(w: World, calls: seq<Call>, doctype: string, docname: string, v: nat)
    requires Initial(w)
    ensures var files := Run(w, calls).db.files;
            HasVersion(files, doctype, docname, v) <==> 1 <= v <= AttachedTo(files, doctype, docname)
  {
    SessionsAreSingleUse(w, calls);
    VersionsAreConsecutive(Run(w, calls).db.files, doctype, docname, v);
  }
}
