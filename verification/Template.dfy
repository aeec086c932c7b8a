/** Signature templates: a save of a template that requests refer to must not change what was
    signed, so the edits go to a new version and the original is put back and deactivated. */
module Template {
  import opened Text
  import opened Values

  // ---------- templates, compared as the controller compares them ----------

  predicate SameValue(a: Value, b: Value) {
    PyEqual(OrEmpty(a), OrEmpty(b))
  }

  const VERSIONED: seq<string> := [
    "target_doctype", "print_format",
    "stamp_show_signer_name", "stamp_show_designation", "stamp_show_digitally_signed_by", "stamp_show_timestamp",
    "stamp_timestamp_format", "stamp_show_reason", "stamp_show_location", "stamp_show_dn_cn",
    "stamp_include_signature_image", "stamp_include_seal_image", "stamp_font_family", "stamp_font_size", "stamp_border"]

  datatype Row = Row(
    fieldName: Value, pageNumber: Value, x: Value, y: Value, width: Value, height: Value, assignedProfile: Value)

  /** `values` holds the columns by name; version 0 is the unset version. */
  datatype Template = Template(version: int, active: bool, values: map<string, Value>, rows: seq<Row>)

  predicate SameFields(a: Template, b: Template) {
    forall i :: 0 <= i < |VERSIONED| ==> SameValue(Get(a.values, VERSIONED[i]), Get(b.values, VERSIONED[i]))
  }

  predicate SameRow(a: Row, b: Row) {
    && PyEqual(a.fieldName, b.fieldName) && PyEqual(a.pageNumber, b.pageNumber) && PyEqual(a.x, b.x) && PyEqual(a.y, b.y)
    && PyEqual(a.width, b.width) && PyEqual(a.height, b.height) && PyEqual(a.assignedProfile, b.assignedProfile)
  }

  predicate SameRows(a: seq<Row>, b: seq<Row>) {
    |a| == |b| && forall i :: 0 <= i < |a| ==> SameRow(a[i], b[i])
  }

  /** Nothing that is versioned differs, up to empty values and the type of a number. */
  predicate Frozen(a: Template, b: Template) {
    SameFields(a, b) && SameRows(a.rows, b.rows)
  }

  lemma FrozenReflexive(t: Template)
    ensures Frozen(t, t)
  {
  }

  lemma SameValueTransitive(a: Value, b: Value, c: Value)
    requires SameValue(a, b) && SameValue(b, c)
    ensures SameValue(a, c)
  {
  }

  lemma FrozenTransitive(a: Template, b: Template, c: Template)
    requires Frozen(a, b) && Frozen(b, c)
    ensures Frozen(a, c)
  {
    forall i | 0 <= i < |VERSIONED|
      ensures SameValue(Get(a.values, VERSIONED[i]), Get(c.values, VERSIONED[i]))
    {
      SameValueTransitive(Get(a.values, VERSIONED[i]), Get(b.values, VERSIONED[i]), Get(c.values, VERSIONED[i]));
    }
    forall i | 0 <= i < |a.rows|
      ensures SameRow(a.rows[i], c.rows[i])
    {
      assert SameRow(a.rows[i], b.rows[i]) && SameRow(b.rows[i], c.rows[i]);
    }
  }

  /** Two values that count as the same stored value: equal, equal as numbers, or both unset. */
  predicate Alike(a: Value, b: Value) {
    || a == b || (a.Int? && b.Real? && a.n as real == b.r) || (a.Real? && b.Int? && b.n as real == a.r)
    || (a in {Null, Str(""), Int(0), Real(0.0)} && b in {Null, Str(""), Int(0), Real(0.0)})
  }

  /** The same for the columns of a row, where unset values are told apart. */
  predicate AlikeInRow(a: Value, b: Value) {
    a == b || (a.Int? && b.Real? && a.n as real == b.r) || (a.Real? && b.Int? && b.n as real == a.r)
  }

  predicate AlikeRows(a: Row, b: Row) {
    && AlikeInRow(a.fieldName, b.fieldName) && AlikeInRow(a.pageNumber, b.pageNumber)
    && AlikeInRow(a.x, b.x) && AlikeInRow(a.y, b.y) && AlikeInRow(a.width, b.width) && AlikeInRow(a.height, b.height)
    && AlikeInRow(a.assignedProfile, b.assignedProfile)
  }

  /** The columns that decide what a signature shows: document type, print format, the stamp. */
  const SHOWN: set<string> := {
    "target_doctype", "print_format", "stamp_show_signer_name", "stamp_show_designation", "stamp_show_digitally_signed_by",
    "stamp_show_timestamp", "stamp_timestamp_format", "stamp_show_reason", "stamp_show_location", "stamp_show_dn_cn",
    "stamp_include_signature_image", "stamp_include_seal_image", "stamp_font_family", "stamp_font_size", "stamp_border"}

  predicate SameShown(a: map<string, Value>, b: map<string, Value>) {
    forall f :: f in SHOWN ==> Alike(Get(a, f), Get(b, f))
  }

  /** What a signature shows is the same for both, every placed field included. */
  predicate SameStamp(a: Template, b: Template) {
    SameShown(a.values, b.values) && |a.rows| == |b.rows| && forall i :: 0 <= i < |a.rows| ==> AlikeRows(a.rows[i], b.rows[i])
  }

  lemma ShownIsVersioned(f: string)
    ensures f in SHOWN <==> f in VERSIONED
  {
  }

  lemma SameFieldsMeans(a: Template, b: Template)
    ensures SameFields(a, b) <==> SameShown(a.values, b.values)
  {
    hide SHOWN, VERSIONED, Get;
    if SameFields(a, b) {
      forall f | f in SHOWN
        ensures Alike(Get(a.values, f), Get(b.values, f))
      {
        ShownIsVersioned(f);
        var i :| 0 <= i < |VERSIONED| && VERSIONED[i] == f;
        assert SameValue(Get(a.values, VERSIONED[i]), Get(b.values, VERSIONED[i]));
      }
    }
    if SameShown(a.values, b.values) {
      forall i | 0 <= i < |VERSIONED|
        ensures SameValue(Get(a.values, VERSIONED[i]), Get(b.values, VERSIONED[i]))
      {
        ShownIsVersioned(VERSIONED[i]);
        assert Alike(Get(a.values, VERSIONED[i]), Get(b.values, VERSIONED[i]));
      }
    }
  }

  lemma SameRowsMeans(a: seq<Row>, b: seq<Row>)
    ensures SameRows(a, b) <==> |a| == |b| && forall i :: 0 <= i < |a| ==> AlikeRows(a[i], b[i])
  {
    assert forall x, y :: SameRow(x, y) <==> AlikeRows(x, y);
  }

  /** The comparison of the controller is that one. */
  lemma FrozenExactlyIfSameStamp(a: Template, b: Template)
    ensures Frozen(a, b) <==> SameStamp(a, b)
  {
    SameFieldsMeans(a, b);
    SameRowsMeans(a.rows, b.rows);
    hide SameFields, SameShown, SameRow, AlikeRows;
  }

  // ---------- the effect of a save ----------

  function OrOne(version: int): (v: int) {
    if version == 0 then 1 else version
  }

  /** The unset version of a new document becomes 1. */
  function Inserted(t: Template): (t': Template) {
    t.(version := OrOne(t.version))
  }

  function ForkName(name: string, version: int): (n: string) {
    name + " v" + PrintInt(OrOne(version) + 1)
  }

  function CopiedFields(fields: seq<string>, values: map<string, Value>, from: map<string, Value>): (r: map<string, Value>) {
    map f | f in values.Keys + (set g | g in fields) :: if f in fields then Get(from, f) else values[f]
  }

  lemma CopiedNone(values: map<string, Value>, from: map<string, Value>)
    ensures CopiedFields([], values, from) == values
  {
  }

  lemma CopiedSnoc(fields: seq<string>, f: string, values: map<string, Value>, from: map<string, Value>)
    ensures CopiedFields(fields + [f], values, from) == CopiedFields(fields, values, from)[f := Get(from, f)]
  {
    hide Get;
  }

  function Copied(values: map<string, Value>, from: map<string, Value>): (r: map<string, Value>) {
    CopiedFields(VERSIONED, values, from)
  }

  function Fork(previous: Template, edit: Template): (t: Template) {
    Template(OrOne(previous.version) + 1, true, Copied(map[], edit.values), edit.rows)
  }

  function Reverted(previous: Template, edit: Template): (t: Template) {
    edit.(values := Copied(edit.values, previous.values), rows := previous.rows, active := false)
  }

  /** The stored templates and the names that some signing request refers to. */
  datatype Store = Store(templates: map<string, Template>, referenced: set<string>)

  datatype Outcome = Saved | Forked(name: string) | DuplicateName | NotFound

  function InsertEffect(s: Store, name: string, t: Template): (e: (Store, Outcome)) {
    if name in s.templates then (s, DuplicateName)
    else (s.(templates := s.templates[name := Inserted(t)]), Saved)
  }

  /** A failed insert of the fork fails the save, and the transaction is rolled back. */
  function SaveEffect(s: Store, name: string, edit: Template): (e: (Store, Outcome)) {
    if name !in s.templates then (s, NotFound)
    else
      var previous := s.templates[name];
      if name !in s.referenced || Frozen(previous, edit) then (s.(templates := s.templates[name := edit]), Saved)
      else
        var fork := ForkName(name, previous.version);
        var (s', outcome) := InsertEffect(s, fork, Fork(previous, edit));
        if outcome != Saved then (s, outcome)
        else (s'.(templates := s'.templates[name := Reverted(previous, edit)]), Forked(fork))
  }

  datatype Step =
    | Insert(name: string, template: Template)
    | Save(name: string, template: Template)
    | Refer(name: string)
    | Unrefer(name: string)

  function Apply(s: Store, step: Step): (s': Store) {
    match step
    case Insert(name, t) => InsertEffect(s, name, t).0
    case Save(name, t) => SaveEffect(s, name, t).0
    case Refer(name) => s.(referenced := s.referenced + {name})
    case Unrefer(name) => s.(referenced := s.referenced - {name})
  }

  function Run(s: Store, steps: seq<Step>): (s': Store)
    decreases |steps|
  {
    if steps == [] then s else Run(Apply(s, steps[0]), steps[1..])
  }

  // ---------- the controller ----------

  class Controller {
    var templates: map<string, Template>
    var referenced: set<string>

    ghost function Contents(): (s: Store)
      reads this
    {
      Store(templates, referenced)
    }

    /** `_versioned_fields_changed`. */
    static method VersionedFieldsChanged(self: Template, previous: Template) returns (changed: bool)
      ensures changed <==> !Frozen(previous, self)
    {
      for i := 0 to |VERSIONED|
        invariant forall k :: 0 <= k < i ==> SameValue(Get(previous.values, VERSIONED[k]), Get(self.values, VERSIONED[k]))
      {
        if !PyEqual(OrEmpty(Get(self.values, VERSIONED[i])), OrEmpty(Get(previous.values, VERSIONED[i]))) {
          return true;
        }
      }
      if |previous.rows| != |self.rows| { return true; }
      for i := 0 to |previous.rows|
        invariant forall k :: 0 <= k < i ==> SameRow(previous.rows[k], self.rows[k])
      {
        if !SameRow(previous.rows[i], self.rows[i]) { return true; }
      }
      return false;
    }

    /** `for field in fields: doc.set(field, from.get(field))`. */
    static method CopyFields(fields: seq<string>, values: map<string, Value>, from: map<string, Value>)
      returns (r: map<string, Value>)
      ensures r == CopiedFields(fields, values, from)
    {
      CopiedNone(values, from);
      hide CopiedFields, Get;
      r := values;
      for i := 0 to |fields|
        invariant r == CopiedFields(fields[..i], values, from)
      {
        CopiedSnoc(fields[..i], fields[i], values, from);
        r := r[fields[i] := Get(from, fields[i])];
        assert fields[..i + 1] == fields[..i] + [fields[i]];
      }
      assert fields[..|fields|] == fields;
    }

    static method CopyRows(rows: seq<Row>) returns (r: seq<Row>)
      ensures r == rows
    {
      r := [];
      for i := 0 to |rows|
        invariant r == rows[..i]
      {
        r := r + [rows[i]];
      }
    }

    method InsertTemplate(name: string, t: Template) returns (o: Outcome)
      modifies `templates
      ensures (Contents(), o) == InsertEffect(old(Contents()), name, t)
    {
      if name in templates { return DuplicateName; }
      var doc := t;
      if doc.version == 0 { doc := doc.(version := 1); }
      templates := templates[name := doc];
      return Saved;
    }

    /** `_fork_new_version`. */
    method ForkNewVersion(name: string, self: Template, previous: Template) returns (fork: string, o: Outcome)
      modifies `templates
      ensures fork == ForkName(name, previous.version)
      ensures (Contents(), o) == InsertEffect(old(Contents()), fork, Fork(previous, self))
    {
      var version := (if previous.version == 0 then 1 else previous.version) + 1;
      fork := name + " v" + PrintInt(version);
      var values := CopyFields(VERSIONED, map[], self.values);
      var rows := CopyRows(self.rows);
      o := InsertTemplate(fork, Template(version, true, values, rows));
    }

    /** `before_save` of an existing template, then the write. */
    method SaveTemplate(name: string, edit: Template) returns (o: Outcome)
      modifies `templates
      ensures (Contents(), o) == SaveEffect(old(Contents()), name, edit)
    {
      if name !in templates { return NotFound; }
      var self, previous := edit, templates[name];
      o := Saved;
      if name in referenced {
        var changed := VersionedFieldsChanged(self, previous);
        if changed {
          var fork;
          fork, o := ForkNewVersion(name, self, previous);
          if o != Saved { return; }
          var values := CopyFields(VERSIONED, self.values, previous.values);
          var rows := CopyRows(previous.rows);
          self := self.(values := values, rows := rows, active := false);
          o := Forked(fork);
        }
      }
      templates := templates[name := self];
    }
  }

  // ---------- the freeze ----------

  lemma CopiedIsExact(values: map<string, Value>, from: map<string, Value>, i: nat)
    requires i < |VERSIONED|
    ensures Get(Copied(values, from), VERSIONED[i]) == Get(from, VERSIONED[i])
  {
    assert VERSIONED[i] in Copied(values, from);
  }

  /** Putting the original back restores every versioned field and row exactly. */
  lemma RevertedIsFrozen(previous: Template, edit: Template)
    ensures Frozen(previous, Reverted(previous, edit))
    ensures forall i :: 0 <= i < |VERSIONED| ==>
              Get(Reverted(previous, edit).values, VERSIONED[i]) == Get(previous.values, VERSIONED[i])
  {
    forall i | 0 <= i < |VERSIONED|
      ensures Get(Reverted(previous, edit).values, VERSIONED[i]) == Get(previous.values, VERSIONED[i])
    {
      CopiedIsExact(edit.values, previous.values, i);
    }
  }

  lemma FrozenStep(s: Store, name: string, step: Step)
    requires name in s.templates && name in s.referenced && step != Unrefer(name)
    ensures name in Apply(s, step).templates && name in Apply(s, step).referenced
    ensures Frozen(s.templates[name], Apply(s, step).templates[name])
  {
    hide Frozen, Fork, Reverted;
    FrozenReflexive(s.templates[name]);
    if step.Save? && step.name == name {
      RevertedIsFrozen(s.templates[name], step.template);
    }
  }

  lemma {:induction false} StaysFrozen(s: Store, name: string, steps: seq<Step>)
    requires name in s.templates && name in s.referenced && Unrefer(name) !in steps
    ensures name in Run(s, steps).templates && name in Run(s, steps).referenced
    ensures Frozen(s.templates[name], Run(s, steps).templates[name])
    decreases |steps|
  {
    if steps != [] {
      var s' := Apply(s, steps[0]);
      FrozenStep(s, name, steps[0]);
      StaysFrozen(s', name, steps[1..]);
      FrozenTransitive(s.templates[name], s'.templates[name], Run(s, steps).templates[name]);
    }
  }

  /** While some request refers to a template, no run of inserts and saves, of this template or
      others, changes anything that a signature shows. */
  lemma FrozenWhileReferenced(s: Store, name: string, steps: seq<Step>)
    requires name in s.templates && name in s.referenced && Unrefer(name) !in steps
    ensures name in Run(s, steps).templates && SameStamp(s.templates[name], Run(s, steps).templates[name])
  {
    StaysFrozen(s, name, steps);
    FrozenExactlyIfSameStamp(s.templates[name], Run(s, steps).templates[name]);
  }

  // ---------- what happens to the edit ----------

  /** The template holds the versioned fields and rows of the edit, exactly. */
  predicate Holds(t: Template, edit: Template) {
    t.rows == edit.rows
    && forall i :: 0 <= i < |VERSIONED| ==> Get(t.values, VERSIONED[i]) == Get(edit.values, VERSIONED[i])
  }

  lemma ForkNameIsNew(name: string, version: int)
    ensures ForkName(name, version) != name
  {
    assert |ForkName(name, version)| > |name|;
  }

  lemma ForkNamesDiffer(name: string, v: int, w: int)
    ensures ForkName(name, v) == ForkName(name, w) <==> OrOne(v) == OrOne(w)
  {
    var a, b := PrintInt(OrOne(v) + 1), PrintInt(OrOne(w) + 1);
    if ForkName(name, v) == ForkName(name, w) {
      assert ForkName(name, v)[|name| + 2..] == a && ForkName(name, w)[|name| + 2..] == b;
      PrintIntInjective(OrOne(v) + 1, OrOne(w) + 1);
    }
  }

  /** A save is stored exactly as it is if no request refers to the template or the stamp stays the
      same; no other template changes. An insert takes a free name, and an unset version becomes 1. */
  lemma SavedAsItIs(s: Store, name: string, edit: Template)
    ensures SaveEffect(s, name, edit).1 == NotFound <==> name !in s.templates
    ensures name !in s.templates ==> SaveEffect(s, name, edit).0 == s
    ensures name in s.templates ==>
              (SaveEffect(s, name, edit).1 == Saved <==> name !in s.referenced || SameStamp(s.templates[name], edit))
    ensures SaveEffect(s, name, edit).1 == Saved ==> SaveEffect(s, name, edit).0 == s.(templates := s.templates[name := edit])
    ensures InsertEffect(s, name, edit)
         == if name in s.templates then (s, DuplicateName)
            else (s.(templates := s.templates[name := edit.(version := if edit.version != 0 then edit.version else 1)]), Saved)
  {
    if name in s.templates { FrozenExactlyIfSameStamp(s.templates[name], edit); }
    hide Frozen, SameStamp, Fork, Reverted;
  }

  /** An edit of a referenced template fails and changes nothing exactly when the name of the next
      version is taken; otherwise the next version holds exactly the edit and is active, the
      original keeps exactly its versioned fields and rows and is inactive, and no other template
      is touched. (After version -1 the next version is stored as 1.) */
  lemma EditForksOrFails(s: Store, name: string, edit: Template)
    requires name in s.templates && name in s.referenced && !SameStamp(s.templates[name], edit)
    ensures var previous := s.templates[name];
            var fork := name + " v" + PrintInt(if previous.version == 0 then 2 else previous.version + 1);
            var (s', o) := SaveEffect(s, name, edit);
            if fork in s.templates then o == DuplicateName && s' == s
            else
              && o == Forked(fork) && s'.templates.Keys == s.templates.Keys + {fork} && s'.referenced == s.referenced
              && Holds(s'.templates[fork], edit) && s'.templates[fork].active
              && s'.templates[fork].version == (if previous.version == -1 then 1 else if previous.version == 0 then 2 else previous.version + 1)
              && Holds(s'.templates[name], previous) && !s'.templates[name].active && s'.templates[name].version == edit.version
              && (forall f :: f !in SHOWN ==>
                    Get(s'.templates[fork].values, f) == Null && Get(s'.templates[name].values, f) == Get(edit.values, f))
              && forall n :: n in s.templates && n != name ==> s'.templates[n] == s.templates[n]
  {
    hide *;
    var previous := s.templates[name];
    FrozenExactlyIfSameStamp(previous, edit);
    ForkNameReads(name, previous.version);
    ForkNameIsNew(name, previous.version);
    EditForks(s, name, edit);
    ForkHolds(previous, edit);
    RevertedHolds(previous, edit);
    OthersAreLeft(previous, edit);
  }

  lemma EditForks(s: Store, name: string, edit: Template)
    requires name in s.templates && name in s.referenced && !Frozen(s.templates[name], edit)
    ensures var previous := s.templates[name];
            var fork := ForkName(name, previous.version);
            SaveEffect(s, name, edit) ==
            if fork in s.templates then (s, DuplicateName)
            else (s.(templates := s.templates[fork := Inserted(Fork(previous, edit))][name := Reverted(previous, edit)]), Forked(fork))
  {
    hide Frozen, Inserted, Fork, Reverted, ForkName;
  }

  lemma ForkNameReads(name: string, version: int)
    ensures ForkName(name, version) == name + " v" + PrintInt(if version == 0 then 2 else version + 1)
  {
  }

  lemma ForkHolds(previous: Template, edit: Template)
    ensures var fork := Inserted(Fork(previous, edit));
            Holds(fork, edit) && fork.active && fork.version == if previous.version == -1 then 1 else if previous.version == 0 then 2 else previous.version + 1
  {
    forall i | 0 <= i < |VERSIONED|
      ensures Get(Fork(previous, edit).values, VERSIONED[i]) == Get(edit.values, VERSIONED[i])
    {
      CopiedIsExact(map[], edit.values, i);
    }
  }

  /** Columns that are not versioned stay with the original as edited. */
  lemma OthersAreLeft(previous: Template, edit: Template)
    ensures Reverted(previous, edit).version == edit.version
    ensures forall f :: f !in SHOWN ==>
              Get(Inserted(Fork(previous, edit)).values, f) == Null && Get(Reverted(previous, edit).values, f) == Get(edit.values, f)
  {
    forall f | f !in SHOWN
      ensures Get(Inserted(Fork(previous, edit)).values, f) == Null && Get(Reverted(previous, edit).values, f) == Get(edit.values, f)
    {
      ShownIsVersioned(f);
      hide VERSIONED, SHOWN;
    }
  }

  lemma RevertedHolds(previous: Template, edit: Template)
    ensures Holds(Reverted(previous, edit), previous) && !Reverted(previous, edit).active
  {
    RevertedIsFrozen(previous, edit);
  }

  lemma {:induction false} TemplatesStay(s: Store, name: string, steps: seq<Step>)
    requires name in s.templates
    ensures name in Run(s, steps).templates
    decreases |steps|
  {
    if steps != [] {
      TemplatesStay(Apply(s, steps[0]), name, steps[1..]);
    }
  }

  /** Once an edit has forked, a later edit of the original fails as long as its version number,
      which the rollback of the original does not restore, is the one it had. */
  lemma SecondForkFails(s: Store, name: string, first: Template, steps: seq<Step>, second: Template)
    requires name in s.templates && name in s.referenced && !Frozen(s.templates[name], first)
    requires ForkName(name, s.templates[name].version) !in s.templates && Unrefer(name) !in steps
    ensures var s' := Run(SaveEffect(s, name, first).0, steps);
            && name in s'.templates
            && (!Frozen(s'.templates[name], second) && OrOne(s'.templates[name].version) == OrOne(s.templates[name].version)
                ==> SaveEffect(s', name, second) == (s', DuplicateName))
  {
    var s1 := SaveEffect(s, name, first).0;
    var version := s.templates[name].version;
    FrozenStep(s, name, Save(name, first));
    StaysFrozen(s1, name, steps);
    TemplatesStay(s1, ForkName(name, version), steps);
    ForkNamesDiffer(name, version, Run(s1, steps).templates[name].version);
  }
}
