/** The rules engine: a document event picks the first eligible rule of a priority-ordered list
    and asks for a signing request, once per document and rule. */
module RuleEngine {
  import opened Wrappers
  import opened Text
  import opened Values
  import opened Records
  import opened Lifecycle
  import opened Evidence
  import opened SigningServer

  // ---------- conditions ----------

  /** A Python float; the order of the finite ones is that of the numbers they stand for. */
  datatype Float = Finite(x: real) | PosInf | NegInf | NaN

  /** What the conditions use of Python and Frappe: `flt`, `None` standing for a raised ValueError
      or TypeError, and `str` of the values that are not strings. */
  datatype Coercions = Coercions(flt: Value -> Option<Float>, str: Value -> string)

  function Shown(py: Coercions, v: Value): (s: string) {
    match v case Str(s) => s case _ => py.str(v)
  }

  datatype Operator = IsSet | IsNotSet | Equals | NotEquals | GreaterThan | LessThan | In | NotIn | Contains | Unknown(name: string)

  datatype Condition = Condition(field: string, operator: Operator, value: string)

  datatype Comparison = Eq | Ne | Gt | Lt

  /** `s < t` on Python strings: by code point, a proper prefix first. */
  predicate TextLess(s: string, t: string) {
    t != "" && (s == "" || s[0] < t[0] || (s[0] == t[0] && TextLess(s[1..], t[1..])))
  }

  /** `<` and `==` on floats: nothing is below, above or equal to NaN, itself included. */
  predicate FloatLess(a: Float, b: Float) {
    match (a, b)
    case (Finite(x), Finite(y)) => x < y
    case (NegInf, Finite(_)) => true
    case (NegInf, PosInf) => true
    case (Finite(_), PosInf) => true
    case _ => false
  }

  predicate FloatEqual(a: Float, b: Float) {
    a == b && a != NaN
  }

  function CompareNumbers(a: Float, b: Float, op: Comparison): (holds: bool) {
    match op case Eq => FloatEqual(a, b) case Ne => !FloatEqual(a, b) case Gt => FloatLess(b, a) case Lt => FloatLess(a, b)
  }

  function CompareTexts(a: string, b: string, op: Comparison): (holds: bool) {
    match op case Eq => a == b case Ne => a != b case Gt => TextLess(b, a) case Lt => TextLess(a, b)
  }

  /** `_coerce_and_compare`. */
  function Compare(py: Coercions, v: Value, target: string, op: Comparison): (holds: bool) {
    var a, b := py.flt(v), py.flt(Str(target));
    if a.Some? && b.Some? then CompareNumbers(a.value, b.value, op)
    else CompareTexts(Shown(py, OrEmpty(v)), target, op)
  }

  /** What `str.strip` removes, up to U+FFFF. */
  predicate IsSpace(c: char) {
    '\t' <= c <= '\r' || '\U{1C}' <= c <= ' ' || c == '\U{85}' || c == '\U{A0}' || c == '\U{1680}'
    || '\U{2000}' <= c <= '\U{200A}' || c == '\U{2028}' || c == '\U{2029}' || c == '\U{202F}' || c == '\U{205F}' || c == '\U{3000}'
  }

  function Strip(s: string): (t: string)
    ensures t == "" || (!IsSpace(t[0]) && !IsSpace(t[|t| - 1]))
    decreases |s|
  {
    if s == "" then ""
    else if IsSpace(s[0]) then Strip(s[1..])
    else if IsSpace(s[|s| - 1]) then Strip(s[..|s| - 1])
    else s
  }

  function Stripped(items: seq<string>): (r: seq<string>)
    ensures |r| == |items| && forall i :: 0 <= i < |r| ==> r[i] == Strip(items[i])
  {
    seq(|items|, i requires 0 <= i < |items| => Strip(items[i]))
  }

  predicate HasPart(s: string, part: string) {
    exists i :: 0 <= i <= |s| && part <= s[i..]
  }

  /** `_check_condition`. */
  function Check(py: Coercions, operator: Operator, v: Value, target: string): (holds: bool) {
    match operator
    case IsSet => !Falsy(v)
    case IsNotSet => Falsy(v)
    case Equals => Compare(py, v, target, Eq)
    case NotEquals => Compare(py, v, target, Ne)
    case GreaterThan => Compare(py, v, target, Gt)
    case LessThan => Compare(py, v, target, Lt)
    case In => Shown(py, v) in Stripped(Split(target, ','))
    case NotIn => Shown(py, v) !in Stripped(Split(target, ','))
    case Contains => HasPart(Shown(py, OrEmpty(v)), target)
    case Unknown(_) => false
  }

  lemma {:induction false} TextTrichotomy(s: string, t: string)
    ensures s == t ==> !TextLess(s, t) && !TextLess(t, s)
    ensures s != t ==> TextLess(s, t) != TextLess(t, s)
  {
    if s != "" && t != "" && s[0] == t[0] {
      TextTrichotomy(s[1..], t[1..]);
      assert s == [s[0]] + s[1..] && t == [t[0]] + t[1..];
    }
  }

  // ---------- what each operator means ----------

  /** Two finite numbers are compared as numbers. */
  lemma NumbersCompare(py: Coercions, v: Value, target: string, x: real, y: real)
    requires py.flt(v) == Some(Finite(x)) && py.flt(Str(target)) == Some(Finite(y))
    ensures Check(py, GreaterThan, v, target) <==> x > y
    ensures Check(py, LessThan, v, target) <==> x < y
    ensures Check(py, Equals, v, target) <==> x == y
  {
  }

  /** `low` is below `high`: different, neither is NaN, and an infinity is where it should be or both
      are numbers in order. */
  predicate Below(low: Float, high: Float) {
    low != high && low != NaN && high != NaN && (low == NegInf || high == PosInf || (low.Finite? && high.Finite? && low.x < high.x))
  }

  /** The same with the infinities and NaN: two floats coerced from field and target. */
  lemma FloatsCompare(py: Coercions, v: Value, target: string, a: Float, b: Float)
    requires py.flt(v) == Some(a) && py.flt(Str(target)) == Some(b)
    ensures Check(py, GreaterThan, v, target) <==> Below(b, a)
    ensures Check(py, LessThan, v, target) <==> Below(a, b)
    ensures Check(py, Equals, v, target) <==> a == b && a != NaN
  {
  }

  /** The two texts agree before place `k`, and there `s` ends or has the smaller character. */
  predicate DiffersAt(s: string, t: string, k: nat) {
    k <= |s| && k < |t| && (forall i :: 0 <= i < k ==> s[i] == t[i]) && (k == |s| || s[k] < t[k])
  }

  /** `s` comes before `t`: the first difference decides. */
  ghost predicate ComesBefore(s: string, t: string) {
    exists k: nat :: DiffersAt(s, t, k)
  }

  lemma DiffersBehindHead(c: char, s: string, t: string, k: nat)
    ensures DiffersAt([c] + s, [c] + t, k + 1) <==> DiffersAt(s, t, k)
    ensures !DiffersAt([c] + s, [c] + t, 0)
  {
    var s', t' := [c] + s, [c] + t;
    assert forall i :: 0 <= i < |s| ==> s'[i + 1] == s[i];
    assert forall i :: 0 <= i < |t| ==> t'[i + 1] == t[i];
    if DiffersAt(s', t', k + 1) {
      forall i | 0 <= i < k
        ensures s[i] == t[i]
      {
        assert s'[i + 1] == t'[i + 1];
      }
    }
  }

  lemma SameHead(c: char, s: string, t: string)
    ensures ComesBefore([c] + s, [c] + t) <==> ComesBefore(s, t)
  {
    hide DiffersAt;
    if k: nat :| DiffersAt(s, t, k) {
      DiffersBehindHead(c, s, t, k);
    }
    if k: nat :| DiffersAt([c] + s, [c] + t, k) {
      DiffersBehindHead(c, s, t, if k == 0 then 0 else k - 1);
    }
  }

  lemma LargerHead(s: string, t: string)
    requires s != "" && t != "" && s[0] > t[0]
    ensures !ComesBefore(s, t)
  {
  }

  lemma {:induction false} TextLessExactlyWhen(s: string, t: string)
    ensures TextLess(s, t) <==> ComesBefore(s, t)
  {
    if s == "" || t == "" {
      assert DiffersAt(s, t, 0) <==> t != "";
    } else {
      assert s == [s[0]] + s[1..] && t == [t[0]] + t[1..];
      if s[0] == t[0] {
        TextLessExactlyWhen(s[1..], t[1..]);
        SameHead(s[0], s[1..], t[1..]);
        hide ComesBefore;
      } else if s[0] < t[0] {
        assert DiffersAt(s, t, 0);
      } else {
        LargerHead(s, t);
      }
    }
  }

  /** The text of a field in a comparison: empty for anything unset, zero included. */
  predicate ReadsAs(py: Coercions, v: Value, text: string) {
    text == if v in {Null, Int(0), Real(0.0)} then "" else if v.Str? then v.s else py.str(v)
  }

  /** Where one of the two does not coerce, texts are compared, character by character. */
  lemma TextsCompare(py: Coercions, v: Value, target: string, text: string)
    requires (py.flt(v).None? || py.flt(Str(target)).None?) && ReadsAs(py, v, text)
    ensures Check(py, GreaterThan, v, target) <==> ComesBefore(target, text)
    ensures Check(py, LessThan, v, target) <==> ComesBefore(text, target)
    ensures Check(py, Equals, v, target) <==> text == target
  {
    TextLessExactlyWhen(text, target);
    TextLessExactlyWhen(target, text);
    hide TextLess, ComesBefore;
  }

  lemma HasPartMeans(text: string, part: string)
    ensures HasPart(text, part) <==> exists before, after :: text == before + part + after
  {
    if before, after :| text == before + part + after {
      assert text[|before|..] == part + after;
    }
    if i :| 0 <= i <= |text| && part <= text[i..] {
      assert text == text[..i] + part + text[i + |part|..];
    }
  }

  /** `is_set`, `is_not_set`, `contains` and any other operator. */
  lemma OthersMean(py: Coercions, v: Value, target: string, text: string, name: string)
    requires ReadsAs(py, v, text)
    ensures Check(py, IsSet, v, target) <==> v !in {Null, Int(0), Real(0.0), Str("")}
    ensures Check(py, IsNotSet, v, target) <==> v in {Null, Int(0), Real(0.0), Str("")}
    ensures Check(py, Contains, v, target) <==> exists before, after :: text == before + target + after
    ensures !Check(py, Unknown(name), v, target)
  {
    HasPartMeans(text, target);
    assert text == Shown(py, OrEmpty(v));
    hide HasPart, Shown, OrEmpty;
  }

  lemma {:induction false} StripFront(a: string, t: string)
    requires forall c :: c in a ==> IsSpace(c)
    ensures Strip(a + t) == Strip(t)
  {
    hide IsSpace;
    if a == "" {
      assert a + t == t;
    } else {
      assert (a + t)[0] == a[0] && (a + t)[1..] == a[1..] + t;
      StripFront(a[1..], t);
    }
  }

  lemma {:induction false} StripBack(s: string, b: string)
    requires s != "" && !IsSpace(s[0]) && !IsSpace(s[|s| - 1]) && forall c :: c in b ==> IsSpace(c)
    ensures Strip(s + b) == s
  {
    hide IsSpace;
    if b == "" {
      assert s + b == s;
    } else {
      var text := s + b;
      assert text[0] == s[0] && text[|text| - 1] == b[|b| - 1] && text[..|text| - 1] == s + b[..|b| - 1];
      StripBack(s, b[..|b| - 1]);
    }
  }

  /** Stripping takes exactly the blanks at both ends. */
  lemma StripTakesBlanks(a: string, s: string, b: string)
    requires (forall c :: c in a ==> IsSpace(c)) && (forall c :: c in b ==> IsSpace(c))
    requires s == "" || (!IsSpace(s[0]) && !IsSpace(s[|s| - 1]))
    ensures Strip(a + s + b) == s
  {
    hide IsSpace;
    assert a + s + b == a + (s + b);
    StripFront(a, s + b);
    if s == "" {
      assert s + b == b && b + "" == b;
      StripFront(b, "");
    } else {
      StripBack(s, b);
    }
  }

  /** Both sides coerce, and one of them to NaN: every ordered comparison is false then. */
  predicate ComparesNaN(py: Coercions, v: Value, target: string) {
    var a, b := py.flt(v), py.flt(Str(target));
    a.Some? && b.Some? && (a.value == NaN || b.value == NaN)
  }

  function Holding(py: Coercions, v: Value, target: string): (n: nat) {
    (if Check(py, Equals, v, target) then 1 else 0) + (if Check(py, GreaterThan, v, target) then 1 else 0)
    + (if Check(py, LessThan, v, target) then 1 else 0)
  }

  /** For any coercion, exactly one of `equals`, `greater_than` and `less_than` holds if and only if
      no NaN is compared, and none of them otherwise. */
  lemma OrderedExactlyWithoutNaN(py: Coercions, v: Value, target: string)
    ensures Holding(py, v, target) == if ComparesNaN(py, v, target) then 0 else 1
  {
    TextTrichotomy(Shown(py, OrEmpty(v)), target);
  }

  /** Each negative operator is the negation of its positive one, NaN or not. */
  lemma OperatorsNegate(py: Coercions, v: Value, target: string)
    ensures Check(py, NotEquals, v, target) == !Check(py, Equals, v, target)
    ensures Check(py, NotIn, v, target) == !Check(py, In, v, target)
    ensures Check(py, IsNotSet, v, target) == !Check(py, IsSet, v, target)
  {
  }

  /** `equals` on text is equality of the texts with two exceptions: two different texts are equal
      if `flt` gives both the same number, and a text that `flt` reads as NaN does not equal
      itself. */
  lemma EqualsOnTextExactlyWhen(py: Coercions, text: string, target: string)
    ensures Check(py, Equals, Str(text), target)
        <==> (text == target && py.flt(Str(text)) != Some(NaN))
             || (py.flt(Str(text)).Some? && py.flt(Str(text)) == py.flt(Str(target)) && py.flt(Str(text)) != Some(NaN))
  {
  }

  /** So a condition "equals nan" holds for no field, not even for the text "nan". */
  lemma NothingEqualsNaN(py: Coercions, v: Value)
    requires py.flt(Str("nan")) == Some(NaN) && py.flt(v).Some?
    ensures Holding(py, v, "nan") == 0 && Check(py, NotEquals, v, "nan")
  {
    OrderedExactlyWithoutNaN(py, v, "nan");
  }

  lemma InStripped(items: seq<string>, text: string)
    ensures text in Stripped(items) <==> exists i :: 0 <= i < |items| && Strip(items[i]) == text
  {
    hide Strip;
    var stripped := Stripped(items);
    if text in stripped {
      var i :| 0 <= i < |stripped| && stripped[i] == text;
      assert Strip(items[i]) == text;
    }
    forall i | 0 <= i < |items| && Strip(items[i]) == text
      ensures text in stripped
    {
      assert stripped[i] == text;
    }
  }

  /** Some item of the list, without the blanks around it, is this text. */
  ghost predicate Lists(padded: seq<string>, text: string) {
    exists i :: 0 <= i < |padded| && Strip(padded[i]) == text
  }

  /** `in` finds exactly the listed items, whatever blanks surround them in the list. */
  lemma InFindsListedItems(py: Coercions, v: Value, padded: seq<string>)
    requires padded != [] && forall p :: p in padded ==> Free(p, ',')
    ensures Check(py, In, v, Join(padded, ',')) <==> Lists(padded, if v.Str? then v.s else py.str(v))
  {
    var text := if v.Str? then v.s else py.str(v);
    assert Shown(py, v) == text;
    hide Strip, Join, Split, Stripped, Shown, Compare, HasPart;
    SplitJoin(padded, ',');
    InStripped(padded, text);
  }

  // ---------- rules and documents ----------

  const ON_SUBMIT := "on_submit"
  const ON_UPDATE := "on_update"
  const ON_CHANGE := "on_change"
  const ON_WORKFLOW_ACTION := "on_workflow_action"

  datatype Rule = Rule(
    name: string, priority: int, enabled: bool, targetDoctype: string, trigger: string, workflowState: string,
    company: string, conditions: seq<Condition>, profile: string, signatureTemplate: string)

  datatype Doc = Doc(doctype: string, name: string, fields: map<string, Value>)

  predicate AllHold(py: Coercions, conditions: seq<Condition>, doc: Doc) {
    forall i :: 0 <= i < |conditions| ==>
      Check(py, conditions[i].operator, Get(doc.fields, conditions[i].field), conditions[i].value)
  }

  predicate Eligible(py: Coercions, rule: Rule, doc: Doc, trigger: string) {
    && (rule.company == "" || PyEqual(Str(rule.company), Get(doc.fields, "company")))
    && (trigger == ON_WORKFLOW_ACTION ==>
          rule.workflowState == "" || PyEqual(Str(rule.workflowState), Get(doc.fields, "workflow_state")))
    && AllHold(py, rule.conditions, doc)
  }

  /** A rule applies to a document event: company, state and all conditions fit what the document says. */
  predicate Applies(py: Coercions, rule: Rule, doc: Doc, trigger: string) {
    && (rule.company == "" || ("company" in doc.fields && doc.fields["company"] == Str(rule.company)))
    && (trigger == "on_workflow_action" && rule.workflowState != "" ==>
          "workflow_state" in doc.fields && doc.fields["workflow_state"] == Str(rule.workflowState))
    && forall c :: c in rule.conditions ==>
         Check(py, c.operator, if c.field in doc.fields then doc.fields[c.field] else Null, c.value)
  }

  lemma EligibleExactlyIfApplies(py: Coercions, rule: Rule, doc: Doc, trigger: string)
    ensures Eligible(py, rule, doc, trigger) <==> Applies(py, rule, doc, trigger)
  {
    hide Check;
    forall c | c in rule.conditions && AllHold(py, rule.conditions, doc)
      ensures Check(py, c.operator, Get(doc.fields, c.field), c.value)
    {
      var i :| 0 <= i < |rule.conditions| && rule.conditions[i] == c;
    }
  }

  function Filtered(py: Coercions, rules: seq<Rule>, doc: Doc, trigger: string): (eligible: seq<Rule>) {
    if rules == [] then []
    else (if Eligible(py, rules[0], doc, trigger) then [rules[0]] else []) + Filtered(py, rules[1..], doc, trigger)
  }

  /** The head of the filtered list. */
  function Selected(py: Coercions, rules: seq<Rule>, doc: Doc, trigger: string): (rule: Option<Rule>) {
    var eligible := Filtered(py, rules, doc, trigger);
    if eligible == [] then None else Some(eligible[0])
  }

  /** What the query for enabled rules, ordered by priority, may answer. */
  ghost predicate QueryAnswer(table: set<Rule>, doctype: string, trigger: string, rules: seq<Rule>) {
    && (forall r :: r in rules <==> r in table && r.enabled && r.targetDoctype == doctype && r.trigger == trigger)
    && (forall i, j :: 0 <= i < j < |rules| ==> rules[i].priority <= rules[j].priority)
  }

  lemma {:induction false} FilteredIs(py: Coercions, rules: seq<Rule>, doc: Doc, trigger: string)
    ensures forall r :: r in Filtered(py, rules, doc, trigger) <==> r in rules && Eligible(py, r, doc, trigger)
  {
    hide Eligible;
    if rules != [] {
      FilteredIs(py, rules[1..], doc, trigger);
      assert rules == [rules[0]] + rules[1..];
    }
  }

  /** The loop's stop: the first eligible rule is the head of the filtered list. */
  lemma {:induction false} FirstIsSelected(py: Coercions, rules: seq<Rule>, doc: Doc, trigger: string, i: nat)
    requires i <= |rules| && forall k :: 0 <= k < i ==> !Eligible(py, rules[k], doc, trigger)
    ensures i < |rules| && Eligible(py, rules[i], doc, trigger) ==> Selected(py, rules, doc, trigger) == Some(rules[i])
    ensures i == |rules| ==> Selected(py, rules, doc, trigger) == None
  {
    hide Eligible;
    if i > 0 {
      FirstIsSelected(py, rules[1..], doc, trigger, i - 1);
    }
  }

  lemma {:induction false} SelectedIsFirst(py: Coercions, rules: seq<Rule>, doc: Doc, trigger: string) returns (i: nat)
    requires Selected(py, rules, doc, trigger).Some?
    ensures i < |rules| && rules[i] == Selected(py, rules, doc, trigger).value && Eligible(py, rules[i], doc, trigger)
    ensures forall k :: 0 <= k < i ==> !Eligible(py, rules[k], doc, trigger)
  {
    hide Eligible;
    if Eligible(py, rules[0], doc, trigger) {
      i := 0;
    } else {
      i := SelectedIsFirst(py, rules[1..], doc, trigger);
      i := i + 1;
    }
  }

  /** A rule of the table that is enabled for this doctype and trigger and applies to the document. */
  ghost predicate Candidate(py: Coercions, table: set<Rule>, r: Rule, doc: Doc, trigger: string) {
    r in table && r.enabled && r.targetDoctype == doc.doctype && r.trigger == trigger && Applies(py, r, doc, trigger)
  }

  /** The selected rule is an applicable enabled rule of the table with the least priority number;
      none is selected exactly when no such rule applies. */
  lemma SelectedHasLeastPriority(py: Coercions, table: set<Rule>, rules: seq<Rule>, doc: Doc, trigger: string)
    requires QueryAnswer(table, doc.doctype, trigger, rules)
    ensures match Selected(py, rules, doc, trigger)
            case None => forall r :: !Candidate(py, table, r, doc, trigger)
            case Some(rule) => Candidate(py, table, rule, doc, trigger)
                               && forall r :: Candidate(py, table, r, doc, trigger) ==> rule.priority <= r.priority
  {
    FilteredIs(py, rules, doc, trigger);
    forall r
      ensures r in Filtered(py, rules, doc, trigger) <==> Candidate(py, table, r, doc, trigger)
    {
      EligibleExactlyIfApplies(py, r, doc, trigger);
    }
    hide Eligible, Applies;
    if Selected(py, rules, doc, trigger).Some? {
      var i := SelectedIsFirst(py, rules, doc, trigger);
      forall r | r in rules && Eligible(py, r, doc, trigger)
        ensures rules[i].priority <= r.priority
      {
        var j :| 0 <= j < |rules| && rules[j] == r;
      }
    }
  }

  // ---------- events ----------

  /** What a site answers while events are handled: the rules query for doctype and trigger, the
      query for an existing request, the users of a profile in order, and the coercions. */
  datatype Site = Site(
    py: Coercions,
    rules: (string, string) -> seq<Rule>,
    existing: (Db, string, string, string) -> Option<RequestId>,
    users: string -> seq<string>)

  predicate IsRequestOf(db: Db, r: RequestId, doctype: string, docname: string, rule: string) {
    r in db.requests && db.requests[r].doctype == doctype && db.requests[r].docname == docname && db.requests[r].rule == rule
  }

  ghost predicate Truthful(site: Site) {
    forall db, doctype, docname, rule :: site.existing(db, doctype, docname, rule).Some? <==> RuleHasRequest(db, doctype, docname, rule)
  }

  function Signer(users: seq<string>, current: string): (user: string) {
    if users == [] then "" else if current in users then current else users[0]
  }

  function CallFor(site: Site, db: Db, doc: Doc, rule: Rule, user: string): (c: RuleCall) {
    RuleCall(doc.doctype, doc.name, rule.name, rule.profile, Signer(site.users(rule.profile), user), rule.signatureTemplate != "",
             site.existing(db, doc.doctype, doc.name, rule.name))
  }

  /** `_evaluate_rules`. */
  function Evaluated(site: Site, w: World, doc: Doc, trigger: string, user: string): (w': World) {
    match Selected(site.py, site.rules(doc.doctype, trigger), doc, trigger)
    case None => w
    case Some(rule) => Apply(w, RuleMatched(CallFor(site, w.db, doc, rule, user)))
  }

  datatype DocEvent = Submit | UpdateAfterSubmit | Change(before: Option<map<string, Value>>)

  /** The workflow state is set and this save changed it. */
  predicate WorkflowMoved(doc: Doc, before: Option<map<string, Value>>) {
    var state := Get(doc.fields, "workflow_state");
    !Falsy(state) && !(before.Some? && PyEqual(Get(before.value, "workflow_state"), state))
  }

  function Handled(site: Site, w: World, doc: Doc, event: DocEvent, user: string): (w': World) {
    match event
    case Submit => Evaluated(site, w, doc, ON_SUBMIT, user)
    case UpdateAfterSubmit => Evaluated(site, w, doc, ON_UPDATE, user)
    case Change(before) =>
      var w1 := Evaluated(site, w, doc, ON_CHANGE, user);
      if WorkflowMoved(doc, before) then Evaluated(site, w1, doc, ON_WORKFLOW_ACTION, user) else w1
  }

  // ---------- the hooks as they run ----------

  /** `evaluate_conditions`. */
  method EvaluateConditions(py: Coercions, rule: Rule, doc: Doc) returns (matched: bool)
    ensures matched <==> AllHold(py, rule.conditions, doc)
    ensures matched <==> forall c :: c in rule.conditions ==> Check(py, c.operator, Get(doc.fields, c.field), c.value)
  {
    if rule.conditions == [] { return true; }
    for i := 0 to |rule.conditions|
      invariant forall k :: 0 <= k < i ==>
                  Check(py, rule.conditions[k].operator, Get(doc.fields, rule.conditions[k].field), rule.conditions[k].value)
    {
      var condition := rule.conditions[i];
      if !Check(py, condition.operator, Get(doc.fields, condition.field), condition.value) { return false; }
    }
    return true;
  }

  /** `_resolve_signer_user`: the current user if listed, else the first one. */
  method ResolveSigner(users: seq<string>, current: string) returns (user: string)
    ensures user == Signer(users, current)
    ensures if current in users then user == current else user == (users + [""])[0]
  {
    if users == [] { return ""; }
    for i := 0 to |users|
      invariant current !in users[..i]
    {
      if users[i] == current { return current; }
    }
    return users[0];
  }

  method EvaluateRules(server: Server, site: Site, doc: Doc, trigger: string, user: string)
    requires server.Idle() && Truthful(site)
    modifies server`staged, server`committed
    ensures server.Idle()
    ensures server.Seen() == Evaluated(site, old(server.Seen()), doc, trigger, user)
  {
    var rules := site.rules(doc.doctype, trigger);
    hide AllHold, PyEqual, RuleEffect, RuleHasRequest, Selected;
    for i := 0 to |rules|
      invariant forall k :: 0 <= k < i ==> !Eligible(site.py, rules[k], doc, trigger)
      invariant server.staged == old(server.staged) && server.committed == old(server.committed)
    {
      var rule := rules[i];
      if rule.company != "" && !PyEqual(Str(rule.company), Get(doc.fields, "company")) { continue; }
      if trigger == ON_WORKFLOW_ACTION {
        if rule.workflowState != "" && !PyEqual(Str(rule.workflowState), Get(doc.fields, "workflow_state")) { continue; }
      }
      var matched := EvaluateConditions(site.py, rule, doc);
      if matched {
        FirstIsSelected(site.py, rules, doc, trigger, i);
        var signer := ResolveSigner(site.users(rule.profile), user);
        var found := site.existing(server.staged, doc.doctype, doc.name, rule.name);
        var _ := server.CreateForRule(RuleCall(doc.doctype, doc.name, rule.name, rule.profile, signer,
                                               rule.signatureTemplate != "", found));
        return;
      }
    }
    FirstIsSelected(site.py, rules, doc, trigger, |rules|);
  }

  method OnEvent(server: Server, site: Site, doc: Doc, event: DocEvent, user: string)
    requires server.Idle() && Truthful(site)
    modifies server`staged, server`committed
    ensures server.Idle() && server.Seen() == Handled(site, old(server.Seen()), doc, event, user)
  {
    match event
    case Submit => EvaluateRules(server, site, doc, ON_SUBMIT, user);
    case UpdateAfterSubmit => EvaluateRules(server, site, doc, ON_UPDATE, user);
    case Change(before) =>
      EvaluateRules(server, site, doc, ON_CHANGE, user);
      var state := Get(doc.fields, "workflow_state");
      if Falsy(state) { return; }
      if before.Some? && PyEqual(Get(before.value, "workflow_state"), state) { return; }
      EvaluateRules(server, site, doc, ON_WORKFLOW_ACTION, user);
  }

  // ---------- which requests an event asks for ----------

  /** The site answers its rules queries from this table. */
  ghost predicate AnswersFrom(site: Site, table: set<Rule>) {
    forall doctype, trigger :: QueryAnswer(table, doctype, trigger, site.rules(doctype, trigger))
  }

  /** The event evaluates the rules of this trigger: `on_workflow_action` only with a workflow state
      that this save changed. */
  predicate Triggers(event: DocEvent, doc: Doc, trigger: string) {
    match event
    case Submit => trigger == "on_submit"
    case UpdateAfterSubmit => trigger == "on_update"
    case Change(before) =>
      || trigger == "on_change"
      || (trigger == "on_workflow_action" && !Falsy(Get(doc.fields, "workflow_state"))
          && (before.None? || !PyEqual(Get(before.value, "workflow_state"), Get(doc.fields, "workflow_state"))))
  }

  /** The one difference in the requests is the new one, which asks for what `rule` says about this
      document. */
  predicate AskedBy(w: World, w': World, rule: Rule, doc: Doc, users: seq<string>, user: string) {
    var r := w.db.nextRequest;
    && r !in w.db.requests && r in w'.db.requests && w'.db.requests == w.db.requests[r := w'.db.requests[r]]
    && var row := w'.db.requests[r];
       && row.doctype == doc.doctype && row.docname == doc.name && row.rule == rule.name && row.profile == rule.profile
       && row.status == Pending && row.expectedSigner == (if user in users then user else (users + [""])[0])
  }

  /** An evaluation asks for at most one request: the one of an applicable rule of the trigger with
      the least priority number, and exactly if document and rule had none. */
  lemma EvaluationAsks(site: Site, table: set<Rule>, w: World, doc: Doc, trigger: string, user: string) returns (choice: Option<Rule>)
    requires Named(w) && AnswersFrom(site, table) && Truthful(site)
    ensures var w' := Evaluated(site, w, doc, trigger, user);
            match choice
            case None => w' == w && forall r :: !Candidate(site.py, table, r, doc, trigger)
            case Some(rule) =>
              && Candidate(site.py, table, rule, doc, trigger)
              && (forall r :: Candidate(site.py, table, r, doc, trigger) ==> rule.priority <= r.priority)
              && if exists r :: IsRequestOf(w.db, r, doc.doctype, doc.name, rule.name) then w'.db.requests == w.db.requests
                 else AskedBy(w, w', rule, doc, site.users(rule.profile), user)
    ensures var w' := Evaluated(site, w, doc, trigger, user);
            choice.Some? ==> w'.db.events != []
                             && (w'.db.events[|w'.db.events| - 1].kind == TemplateSelected <==> choice.value.signatureTemplate != "")
  {
    var rules := site.rules(doc.doctype, trigger);
    SelectedHasLeastPriority(site.py, table, rules, doc, trigger);
    choice := Selected(site.py, rules, doc, trigger);
    hide Selected, Candidate, QueryAnswer;
    if choice.Some? {
      RuleCallAsks(w, CallFor(site, w.db, doc, choice.value, user));
      RuleCallLogs(w, CallFor(site, w.db, doc, choice.value, user));
    }
  }

  /** The trail of a matched rule ends with its template, if it has one. */
  lemma RuleCallLogs(w: World, c: RuleCall)
    requires c.found.Some? <==> RuleHasRequest(w.db, c.doctype, c.docname, c.rule)
    ensures var events := Apply(w, RuleMatched(c)).db.events;
            events != [] && (events[|events| - 1].kind == TemplateSelected <==> c.hasTemplate)
  {
    hide RuleHasRequest, NewRequest;
  }

  lemma RuleCallAsks(w: World, c: RuleCall)
    requires Named(w)
    ensures var w' := Apply(w, RuleMatched(c));
            var r := w.db.nextRequest;
            if exists q :: IsRequestOf(w.db, q, c.doctype, c.docname, c.rule) then w'.db.requests == w.db.requests
            else r !in w.db.requests
                 && w'.db.requests == w.db.requests[r := NewRequest(c.doctype, c.docname, c.rule, c.profile, c.signer, w.now)]
  {
    if RuleHasRequest(w.db, c.doctype, c.docname, c.rule) {
      var q :| q in w.db.requests && w.db.requests[q].doctype == c.doctype && w.db.requests[q].docname == c.docname
               && w.db.requests[q].rule == c.rule;
      assert IsRequestOf(w.db, q, c.doctype, c.docname, c.rule);
    }
    hide RuleHasRequest, RuleEvents, NewRequest;
  }

  /** A document event asks only for rules of its own triggers: each new request is one of an enabled
      rule of this doctype and such a trigger that applies to the document. */
  lemma EventAsksForItsTriggers(site: Site, table: set<Rule>, w: World, doc: Doc, event: DocEvent, user: string, r: RequestId)
    returns (rule: Rule)
    requires Named(w) && AnswersFrom(site, table) && Truthful(site)
    requires r !in w.db.requests && r in Handled(site, w, doc, event, user).db.requests
    ensures Triggers(event, doc, rule.trigger) && Candidate(site.py, table, rule, doc, rule.trigger)
    ensures IsRequestOf(Handled(site, w, doc, event, user).db, r, doc.doctype, doc.name, rule.name)
  {
    hide Evaluated, Applies, AnswersFrom, Truthful, Named, Selected;
    var choice;
    match event {
      case Submit => choice := EvaluationAsks(site, table, w, doc, "on_submit", user);
      case UpdateAfterSubmit => choice := EvaluationAsks(site, table, w, doc, "on_update", user);
      case Change(before) =>
        choice := EvaluationAsks(site, table, w, doc, "on_change", user);
        var w1 := Evaluated(site, w, doc, "on_change", user);
        if WorkflowMoved(doc, before) {
          NamedEvaluation(site, w, doc, "on_change", user);
          var second := EvaluationAsks(site, table, w1, doc, "on_workflow_action", user);
          if r !in w1.db.requests { choice := second; }
        }
    }
    rule := choice.value;
  }

  lemma NamedEvaluation(site: Site, w: World, doc: Doc, trigger: string, user: string)
    requires Named(w)
    ensures Named(Evaluated(site, w, doc, trigger, user))
  {
    var calls := EvaluationIsRun(site, w, doc, trigger, user);
    NamedRun(w, calls);
  }

  /** And it asks for all of them: where some rule of one of its triggers applies, one with the least
      priority number has its request afterwards. */
  lemma EventServesItsTriggers(site: Site, table: set<Rule>, w: World, doc: Doc, event: DocEvent, user: string, trigger: string, some: Rule)
    returns (rule: Rule)
    requires Named(w) && AnswersFrom(site, table) && Triggers(event, doc, trigger) && Candidate(site.py, table, some, doc, trigger)
    ensures Candidate(site.py, table, rule, doc, trigger) && rule.priority <= some.priority
    ensures RuleHasRequest(Handled(site, w, doc, event, user).db, doc.doctype, doc.name, rule.name)
  {
    var rules := site.rules(doc.doctype, trigger);
    SelectedHasLeastPriority(site.py, table, rules, doc, trigger);
    EventServes(site, w, doc, event, user);
    rule := Selected(site.py, rules, doc, trigger).value;
    hide Named, Handled, Selected, Candidate, RuleHasRequest, AnswersFrom;
  }

  // ---------- one request per document and rule ----------

  ghost predicate SameRule(db: Db, r1: RequestId, r2: RequestId) {
    r1 in db.requests && r2 in db.requests && db.requests[r1].rule != ""
    && IsRequestOf(db, r2, db.requests[r1].doctype, db.requests[r1].docname, db.requests[r1].rule)
  }

  ghost predicate OnePerRule(db: Db) {
    forall r1, r2 :: SameRule(db, r1, r2) ==> r1 == r2
  }

  lemma FinalizeKeepsRule(w: World, f: FinalizeCall, r: RequestId)
    requires r in w.db.requests
    ensures r in Apply(w, Finalize(f)).db.requests
         && IsRequestOf(Apply(w, Finalize(f)).db, r, w.db.requests[r].doctype, w.db.requests[r].docname, w.db.requests[r].rule)
  {
    hide FinalizedDocuments, FinalizeEvents, NewFile, FailureReason, FinalizeError;
  }

  /** The row is there, for the same document and rule. */
  ghost predicate Kept(w: World, w': World, r: RequestId)
    requires r in w.db.requests
  {
    IsRequestOf(w'.db, r, w.db.requests[r].doctype, w.db.requests[r].docname, w.db.requests[r].rule)
  }

  lemma InitiateKeeps(w: World, i: InitiateCall, r: RequestId)
    requires r in w.db.requests
    ensures Kept(w, Apply(w, Initiate(i)), r)
  {
    hide InitiateEvents, Minted, AttrsFor, WithDocumentStatus;
  }

  lemma PollAndJobsKeep(w: World, c: Call, r: RequestId)
    requires r in w.db.requests && (c.GetStatus? || c.Cleanup? || c.Purge?)
    ensures r in Apply(w, c).db.requests ==> Kept(w, Apply(w, c), r)
    ensures !c.Purge? ==> r in Apply(w, c).db.requests
  {
    hide WithDocumentStatus, StaleFor, TimedOut, Purgeable;
  }

  lemma GuardedKeeps(w: World, c: Call, r: RequestId)
    requires r in w.db.requests && (c.Retry? || c.Cancel? || c.Abort?)
    ensures Kept(w, Apply(w, c), r)
  {
    hide WithDocumentStatus, Allowed;
  }

  lemma CreationKeeps(w: World, c: Call, r: RequestId)
    requires Named(w) && r in w.db.requests && (c.RuleMatched? || c.SaveDocument?)
    ensures Kept(w, Apply(w, c), r)
  {
    hide HasOpenRequest, Complete, RuleEvents, RuleHasRequest, SavedFields;
  }

  /** Only a purge removes a request, and no call changes its document or its rule. */
  lemma RequestKeeps(w: World, c: Call, r: RequestId)
    requires Named(w) && r in w.db.requests
    ensures !c.Purge? ==> r in Apply(w, c).db.requests
    ensures r !in Apply(w, c).db.requests
            || IsRequestOf(Apply(w, c).db, r, w.db.requests[r].doctype, w.db.requests[r].docname, w.db.requests[r].rule)
  {
    match c
    case Initiate(i) => InitiateKeeps(w, i, r); hide Apply;
    case Finalize(f) => FinalizeKeepsRule(w, f, r); hide Apply;
    case GetStatus(_, _) => PollAndJobsKeep(w, c, r); hide Apply;
    case Cleanup => PollAndJobsKeep(w, c, r); hide Apply;
    case Purge(_) => PollAndJobsKeep(w, c, r); hide Apply;
    case Retry(_) => GuardedKeeps(w, c, r); hide Apply;
    case Cancel(_) => GuardedKeeps(w, c, r); hide Apply;
    case Abort(_) => GuardedKeeps(w, c, r); hide Apply;
    case RuleMatched(_) => CreationKeeps(w, c, r); hide Apply;
    case SaveDocument(_) => CreationKeeps(w, c, r); hide Apply;
    case Tick(_) =>
    case Evict(_) =>
    case EditProfile(_, _) =>
    case SecretSet(_) =>
    case AlterEvent(_, _) =>
  }

  lemma NewRequestOfRule(w: World, c: Call, r1: RequestId, r2: RequestId)
    requires Named(w) && r1 in w.db.requests && r2 !in w.db.requests
    requires r1 in Apply(w, c).db.requests && r2 in Apply(w, c).db.requests && Apply(w, c).db.requests[r2].rule != ""
    ensures !IsRequestOf(w.db, r1, Apply(w, c).db.requests[r2].doctype, Apply(w, c).db.requests[r2].docname,
                         Apply(w, c).db.requests[r2].rule)
  {
    hide FinalizedDocuments, FinalizeEvents, NewFile, FailureReason, FinalizeError, InitiateEvents, Minted, AttrsFor,
         WithDocumentStatus, StaleFor, TimedOut, Purgeable, HasOpenRequest, Complete, RuleEvents, Allowed;
  }

  lemma OnePerRuleStep(w: World, c: Call)
    requires Named(w) && OnePerRule(w.db)
    ensures OnePerRule(Apply(w, c).db)
  {
    var db' := Apply(w, c).db;
    forall r1, r2 | SameRule(db', r1, r2)
      ensures r1 == r2
    {
      hide Apply;
      RequestAfter(w, c, r1);
      RequestAfter(w, c, r2);
      if r1 in w.db.requests { RequestKeeps(w, c, r1); }
      if r2 in w.db.requests { RequestKeeps(w, c, r2); }
      if r1 in w.db.requests && r2 in w.db.requests { assert SameRule(w.db, r1, r2); }
      if r1 in w.db.requests && r2 !in w.db.requests { NewRequestOfRule(w, c, r1, r2); }
      if r2 in w.db.requests && r1 !in w.db.requests { NewRequestOfRule(w, c, r2, r1); }
    }
  }

  lemma {:induction false} OnePerRuleRun(w: World, calls: seq<Call>)
    requires Named(w) && OnePerRule(w.db)
    ensures OnePerRule(Run(w, calls).db)
    decreases |calls|
  {
    hide Apply, Named, OnePerRule;
    if calls != [] {
      NamedStep(w, calls[0]);
      OnePerRuleStep(w, calls[0]);
      OnePerRuleRun(Apply(w, calls[0]), calls[1..]);
    }
  }

  // ---------- runs of events and calls ----------

  datatype Step = DocumentEvent(doc: Doc, event: DocEvent, user: string) | EndpointCall(call: Call)

  function After(site: Site, w: World, step: Step): (w': World) {
    match step
    case DocumentEvent(doc, event, user) => Handled(site, w, doc, event, user)
    case EndpointCall(call) => Apply(w, call)
  }

  function RunSite(site: Site, w: World, steps: seq<Step>): (w': World)
    decreases |steps|
  {
    if steps == [] then w else RunSite(site, After(site, w, steps[0]), steps[1..])
  }

  /** An event is at most two rule calls. */
  lemma EventIsRun(site: Site, w: World, doc: Doc, event: DocEvent, user: string) returns (calls: seq<Call>)
    ensures Handled(site, w, doc, event, user) == Run(w, calls) && |calls| <= 2 && forall c :: c in calls ==> c.RuleMatched?
  {
    hide Apply, Selected;
    match event
    case Submit => calls := EvaluationIsRun(site, w, doc, ON_SUBMIT, user);
    case UpdateAfterSubmit => calls := EvaluationIsRun(site, w, doc, ON_UPDATE, user);
    case Change(before) =>
      calls := EvaluationIsRun(site, w, doc, ON_CHANGE, user);
      if WorkflowMoved(doc, before) {
        var more := EvaluationIsRun(site, Run(w, calls), doc, ON_WORKFLOW_ACTION, user);
        RunAppend(w, calls, more);
        calls := calls + more;
      }
  }

  lemma EvaluationIsRun(site: Site, w: World, doc: Doc, trigger: string, user: string) returns (calls: seq<Call>)
    ensures Evaluated(site, w, doc, trigger, user) == Run(w, calls) && |calls| <= 1 && forall c :: c in calls ==> c.RuleMatched?
  {
    hide Apply, Selected;
    match Selected(site.py, site.rules(doc.doctype, trigger), doc, trigger)
    case None => calls := [];
    case Some(rule) =>
      calls := [RuleMatched(CallFor(site, w.db, doc, rule, user))];
      assert calls[1..] == [];
  }

  lemma {:induction false} NamedRun(w: World, calls: seq<Call>)
    requires Named(w)
    ensures Named(Run(w, calls))
    decreases |calls|
  {
    hide Apply, Named;
    if calls != [] {
      NamedStep(w, calls[0]);
      NamedRun(Apply(w, calls[0]), calls[1..]);
    }
  }

  /** The calls that a run of steps amounts to. */
  lemma {:induction false} StepsAreRun(site: Site, w: World, steps: seq<Step>) returns (calls: seq<Call>)
    ensures RunSite(site, w, steps) == Run(w, calls)
    ensures (forall i :: 0 <= i < |steps| ==> !(steps[i].EndpointCall? && steps[i].call.Purge?)) ==> forall c :: c in calls ==> !c.Purge?
    decreases |steps|
  {
    hide Apply, Handled;
    if steps == [] {
      calls := [];
    } else {
      var first;
      match steps[0] {
        case DocumentEvent(doc, event, user) => first := EventIsRun(site, w, doc, event, user);
        case EndpointCall(call) => first := [call]; assert first[1..] == [];
      }
      var rest := StepsAreRun(site, Run(w, first), steps[1..]);
      RunAppend(w, first, rest);
      calls := first + rest;
    }
  }

  /** Over every run of document events and calls from a fresh installation there is at most one
      request per document and rule. */
  lemma AtMostOneRequestPerRule(site: Site, w: World, steps: seq<Step>)
    requires Initial(w)
    ensures OnePerRule(RunSite(site, w, steps).db)
  {
    var calls := StepsAreRun(site, w, steps);
    OnePerRuleRun(w, calls);
  }

  lemma {:induction false} RequestOfRuleStays(w: World, calls: seq<Call>, doctype: string, docname: string, rule: string)
    requires Named(w) && RuleHasRequest(w.db, doctype, docname, rule) && forall c :: c in calls ==> !c.Purge?
    ensures RuleHasRequest(Run(w, calls).db, doctype, docname, rule)
    decreases |calls|
  {
    hide Apply, Named;
    if calls != [] {
      var r :| r in w.db.requests && w.db.requests[r].doctype == doctype && w.db.requests[r].docname == docname
               && w.db.requests[r].rule == rule;
      RequestKeeps(w, calls[0], r);
      assert IsRequestOf(Apply(w, calls[0]).db, r, doctype, docname, rule);
      NamedStep(w, calls[0]);
      RequestOfRuleStays(Apply(w, calls[0]), calls[1..], doctype, docname, rule);
    }
  }

  /** The rule that an evaluation selects, if any, has its request already. */
  ghost predicate Served(site: Site, db: Db, doc: Doc, trigger: string) {
    var rule := Selected(site.py, site.rules(doc.doctype, trigger), doc, trigger);
    rule.Some? ==> RuleHasRequest(db, doc.doctype, doc.name, rule.value.name)
  }

  lemma EvaluationServes(site: Site, w: World, doc: Doc, trigger: string, user: string)
    ensures Served(site, Evaluated(site, w, doc, trigger, user).db, doc, trigger)
    ensures Served(site, w.db, doc, trigger) ==> Evaluated(site, w, doc, trigger, user).db.requests == w.db.requests
  {
    hide Selected;
    var rule := Selected(site.py, site.rules(doc.doctype, trigger), doc, trigger);
    if rule.Some? && !RuleHasRequest(w.db, doc.doctype, doc.name, rule.value.name) {
      var w' := Evaluated(site, w, doc, trigger, user);
      assert IsRequestOf(w'.db, w.db.nextRequest, doc.doctype, doc.name, rule.value.name);
    }
  }

  lemma ServedStays(site: Site, w: World, calls: seq<Call>, doc: Doc, trigger: string)
    requires Named(w) && Served(site, w.db, doc, trigger) && forall c :: c in calls ==> !c.Purge?
    ensures Served(site, Run(w, calls).db, doc, trigger)
  {
    hide Named, Selected, RuleHasRequest, Run;
    var rule := Selected(site.py, site.rules(doc.doctype, trigger), doc, trigger);
    if rule.Some? {
      RequestOfRuleStays(w, calls, doc.doctype, doc.name, rule.value.name);
    }
  }

  /** Every evaluation that the event makes finds its rule served. */
  ghost predicate EventServed(site: Site, db: Db, doc: Doc, event: DocEvent) {
    match event
    case Submit => Served(site, db, doc, ON_SUBMIT)
    case UpdateAfterSubmit => Served(site, db, doc, ON_UPDATE)
    case Change(before) => Served(site, db, doc, ON_CHANGE) && (WorkflowMoved(doc, before) ==> Served(site, db, doc, ON_WORKFLOW_ACTION))
  }

  lemma EventServes(site: Site, w: World, doc: Doc, event: DocEvent, user: string)
    requires Named(w)
    ensures EventServed(site, Handled(site, w, doc, event, user).db, doc, event)
  {
    hide Named, Served, Evaluated, WorkflowMoved;
    match event
    case Submit => EvaluationServes(site, w, doc, ON_SUBMIT, user);
    case UpdateAfterSubmit => EvaluationServes(site, w, doc, ON_UPDATE, user);
    case Change(before) =>
      EvaluationServes(site, w, doc, ON_CHANGE, user);
      var calls := EvaluationIsRun(site, w, doc, ON_CHANGE, user);
      NamedRun(w, calls);
      var w1 := Evaluated(site, w, doc, ON_CHANGE, user);
      EvaluationServes(site, w1, doc, ON_WORKFLOW_ACTION, user);
      var more := EvaluationIsRun(site, w1, doc, ON_WORKFLOW_ACTION, user);
      ServedStays(site, w1, more, doc, ON_CHANGE);
  }

  lemma ServedAddsNothing(site: Site, w: World, doc: Doc, event: DocEvent, user: string)
    requires EventServed(site, w.db, doc, event)
    ensures Handled(site, w, doc, event, user).db.requests == w.db.requests
  {
    hide Evaluated, WorkflowMoved, Selected;
    match event
    case Submit => EvaluationServes(site, w, doc, ON_SUBMIT, user);
    case UpdateAfterSubmit => EvaluationServes(site, w, doc, ON_UPDATE, user);
    case Change(before) =>
      EvaluationServes(site, w, doc, ON_CHANGE, user);
      EvaluationServes(site, Evaluated(site, w, doc, ON_CHANGE, user), doc, ON_WORKFLOW_ACTION, user);
  }

  /** Repeating a document event adds no request, whatever other events and calls came in between
      (a purge aside), and whoever repeats it. */
  lemma RepeatedEventAddsNothing(site: Site, w: World, doc: Doc, event: DocEvent, user: string, steps: seq<Step>, again: string)
    requires Named(w) && forall i :: 0 <= i < |steps| ==> !(steps[i].EndpointCall? && steps[i].call.Purge?)
    ensures var w' := RunSite(site, Handled(site, w, doc, event, user), steps);
            Handled(site, w', doc, event, again).db.requests == w'.db.requests
  {
    hide Named, Served, Handled, WorkflowMoved, RunSite;
    var w1 := Handled(site, w, doc, event, user);
    EventServes(site, w, doc, event, user);
    var made := EventIsRun(site, w, doc, event, user);
    NamedRun(w, made);
    var calls := StepsAreRun(site, w1, steps);
    match event {
      case Submit => ServedStays(site, w1, calls, doc, ON_SUBMIT);
      case UpdateAfterSubmit => ServedStays(site, w1, calls, doc, ON_UPDATE);
      case Change(before) =>
        ServedStays(site, w1, calls, doc, ON_CHANGE);
        if WorkflowMoved(doc, before) { ServedStays(site, w1, calls, doc, ON_WORKFLOW_ACTION); }
    }
    ServedAddsNothing(site, Run(w1, calls), doc, event, again);
  }
}
