/** The sign handler of the bridge with its PIN cache, in front of tokens that lock after too many
    wrong PINs. */
module Bridge {
  import opened Wrappers
  import opened Authenticity

  // ---------- errors ----------

  datatype Ckr =
    | PinIncorrectRv | PinLockedRv | PinInvalidRv | PinLenRangeRv | FunctionCanceled
    | TokenNotPresent | TokenNotRecognized | DeviceRemoved | MechanismInvalid | MechanismParamInvalid
    | KeyHandleInvalid | ObjectHandleInvalid | OtherRv(value: nat)

  /** An error of the signing call: a PKCS#11 return value, wrapped or not, or something else. */
  datatype SignError = Pkcs11(rv: Ckr) | NotPkcs11

  datatype Code =
    | TokenNotFound | CertNotFound | PinCancelled | PinIncorrect | PinLocked | PinRequired
    | UnsupportedAlgorithm | InternalError | Unauthorized

  function MapPkcs11Error(err: SignError): (r: (Code, nat)) {
    match err
    case NotPkcs11 => (InternalError, 500)
    case Pkcs11(rv) =>
      match rv
      case PinIncorrectRv => (PinIncorrect, 401)
      case PinLockedRv => (PinLocked, 403)
      case PinInvalidRv => (PinIncorrect, 401)
      case PinLenRangeRv => (PinIncorrect, 401)
      case FunctionCanceled => (PinCancelled, 400)
      case TokenNotPresent => (TokenNotFound, 404)
      case TokenNotRecognized => (TokenNotFound, 404)
      case DeviceRemoved => (TokenNotFound, 404)
      case MechanismInvalid => (UnsupportedAlgorithm, 400)
      case MechanismParamInvalid => (UnsupportedAlgorithm, 400)
      case KeyHandleInvalid => (CertNotFound, 404)
      case ObjectHandleInvalid => (CertNotFound, 404)
      case OtherRv(_) => (InternalError, 500)
  }

  /** The return values with which a token rejects a PIN. */
  predicate WrongPinRv(rv: Ckr) {
    rv == PinIncorrectRv || rv == PinLockedRv || rv == PinInvalidRv || rv == PinLenRangeRv
  }

  /** A cached PIN is dropped exactly on those: no rejection is taken for another error. */
  lemma ForgetsExactlyOnWrongPin(err: SignError)
    ensures MapPkcs11Error(err).0 in {PinIncorrect, PinLocked} <==> err.Pkcs11? && WrongPinRv(err.rv)
  {
  }

  // ---------- PIN cache ----------

  class PINCache {
    var pins: map<string, string>

    constructor ()
      ensures pins == map[]
    {
      pins := map[];
    }

    method Get(fingerprint: string) returns (pin: Option<string>)
      ensures pin == Cached(pins, fingerprint)
    {
      if fingerprint == "" { return None; }
      if fingerprint in pins { return Some(pins[fingerprint]); }
      return None;
    }

    method Set(fingerprint: string, pin: string)
      modifies this
      ensures pins == Remembered(old(pins), fingerprint, pin)
      ensures fingerprint != "" && pin != "" ==> fingerprint in pins && pins[fingerprint] == pin
      ensures forall f :: f != fingerprint ==> (f in pins <==> f in old(pins)) && (f in pins ==> pins[f] == old(pins)[f])
    {
      if fingerprint == "" || pin == "" { return; }
      pins := pins[fingerprint := pin];
    }

    method Forget(fingerprint: string)
      modifies this
      ensures pins == Forgotten(old(pins), fingerprint)
      ensures fingerprint != "" ==> fingerprint !in pins
      ensures forall f :: f != fingerprint ==> (f in pins <==> f in old(pins)) && (f in pins ==> pins[f] == old(pins)[f])
    {
      if fingerprint == "" { return; }
      pins := pins - {fingerprint};
    }
  }

  function Cached(pins: map<string, string>, fingerprint: string): (pin: Option<string>) {
    if fingerprint != "" && fingerprint in pins then Some(pins[fingerprint]) else None
  }

  function Remembered(pins: map<string, string>, fingerprint: string, pin: string): (pins': map<string, string>) {
    if fingerprint == "" || pin == "" then pins else pins[fingerprint := pin]
  }

  function Forgotten(pins: map<string, string>, fingerprint: string): (pins': map<string, string>) {
    if fingerprint == "" then pins else pins - {fingerprint}
  }

  // ---------- tokens ----------

  /** A token counts the wrong PINs in a row: `retries` are left of `limit`. It keeps the count while
      it is unplugged. */
  datatype Token = Token(pin: string, retries: nat, limit: nat, plugged: bool)

  /** Login: `complaint` is the return value, whatever it is, with which this token rejects a wrong
      PIN or any PIN once it is locked. */
  function Login(t: Token, pin: string, complaint: Ckr): (r: (Token, Option<Ckr>)) {
    if t.retries == 0 then (t, Some(complaint))
    else if pin == t.pin then (t.(retries := t.limit), None)
    else (t.(retries := t.retries - 1), Some(complaint))
  }

  datatype Attempt = Attempt(slot: nat, pin: string, rejected: bool)

  /** What goes wrong around the login, as far as the handler can see it. */
  datatype SignFault = NoFault | BeforeLogin(before: SignError) | AfterLogin(after: SignError)

  datatype SignCall = SignCall(
    site: SiteView, origin: string, siteToken: string, request: SignRequest, now: int,
    complaint: Ckr, fault: SignFault)

  /** Cache, tokens by number, plugged in or not, the token of each certificate fingerprint, and every
      `C_Login` made so far. */
  datatype State = State(
    pins: map<string, string>, tokens: map<nat, Token>, certificates: map<string, nat>, attempts: seq<Attempt>)

  /** A signature by the token in `slot`, or an error code with its HTTP status. */
  datatype Answer = Signature(slot: nat) | Refused(code: Code, status: nat)

  predicate IsHexDigit(c: char) {
    '0' <= c <= '9' || 'a' <= c <= 'f' || 'A' <= c <= 'F'
  }

  predicate IsHex(s: string) {
    |s| % 2 == 0 && forall i :: 0 <= i < |s| ==> IsHexDigit(s[i])
  }

  function GateAnswer(c: SignCall): (refusal: Option<Answer>) {
    if !OriginAdmitted(c.site, c.origin, c.siteToken) then Some(Refused(Unauthorized, 403))
    else if !AlgorithmSupported(c.request.message.algorithm) then Some(Refused(UnsupportedAlgorithm, 400))
    else if !HmacAdmitted(c.site, c.origin, c.request, c.now) then Some(Refused(Unauthorized, 403))
    else None
  }

  predicate Plugged(tokens: map<nat, Token>, slot: nat) {
    slot in tokens && tokens[slot].plugged
  }

  /** `DetectTokens` finds one. */
  predicate SomePlugged(tokens: map<nat, Token>) {
    exists slot :: slot in tokens && tokens[slot].plugged
  }

  function SlotOf(s: State, fingerprint: string): (slot: Option<nat>) {
    if fingerprint in s.certificates && Plugged(s.tokens, s.certificates[fingerprint]) then Some(s.certificates[fingerprint]) else None
  }

  function PinFor(s: State, r: SignRequest): (pin: Option<string>) {
    if r.pin != "" then Some(r.pin) else Cached(s.pins, r.expectedFingerprint)
  }

  /** `SignHash`: open a session, log in, sign. */
  function SignHashEffect(s: State, slot: nat, pin: string, c: SignCall): (r: (State, Option<SignError>))
    requires slot in s.tokens
  {
    if c.fault.BeforeLogin? then (s, Some(c.fault.before))
    else
      var (token, rv) := Login(s.tokens[slot], pin, c.complaint);
      var s1 := s.(tokens := s.tokens[slot := token], attempts := s.attempts + [Attempt(slot, pin, rv.Some?)]);
      if rv.Some? then (s1, Some(Pkcs11(rv.value)))
      else if c.fault.AfterLogin? then (s1, Some(c.fault.after))
      else (s1, None)
  }

  function SignEffect(s: State, c: SignCall): (r: (State, Answer)) {
    var fp := c.request.expectedFingerprint;
    if GateAnswer(c).Some? then (s, GateAnswer(c).value)
    else if SlotOf(s, fp).None? then (s, Refused(if SomePlugged(s.tokens) then CertNotFound else TokenNotFound, 404))
    else if !IsHex(c.request.message.hash) then (s, Refused(InternalError, 400))
    else if PinFor(s, c.request).None? then (s, Refused(PinRequired, 401))
    else
      var slot, pin := SlotOf(s, fp).value, PinFor(s, c.request).value;
      var (s1, err) := SignHashEffect(s, slot, pin, c);
      match err
      case Some(e) =>
        var (code, status) := MapPkcs11Error(e);
        (if code == PinIncorrect || code == PinLocked then s1.(pins := Forgotten(s1.pins, fp)) else s1, Refused(code, status))
      case None => (s1.(pins := Remembered(s1.pins, fp, pin)), Signature(slot))
  }

  class Handlers {
    const pins: PINCache
    var tokens: map<nat, Token>
    var certificates: map<string, nat>
    var attempts: seq<Attempt>

    constructor (tokens: map<nat, Token>, certificates: map<string, nat>)
      ensures fresh(pins) && Seen() == State(map[], tokens, certificates, [])
    {
      this.pins := new PINCache();
      this.tokens := tokens;
      this.certificates := certificates;
      this.attempts := [];
    }

    ghost function Seen(): (s: State)
      reads this, pins
    {
      State(pins.pins, tokens, certificates, attempts)
    }

    method SignHash(slot: nat, pin: string, c: SignCall) returns (err: Option<SignError>)
      requires slot in tokens
      modifies this
      ensures (Seen(), err) == SignHashEffect(old(Seen()), slot, pin, c)
      ensures attempts == old(attempts)
              || attempts == old(attempts) + [Attempt(slot, pin, old(tokens[slot].retries == 0 || pin != tokens[slot].pin))]
    {
      if c.fault.BeforeLogin? { return Some(c.fault.before); }
      var (token, rv) := Login(tokens[slot], pin, c.complaint);
      tokens := tokens[slot := token];
      attempts := attempts + [Attempt(slot, pin, rv.Some?)];
      if rv.Some? { return Some(Pkcs11(rv.value)); }
      if c.fault.AfterLogin? { return Some(c.fault.after); }
      return None;
    }

    method HandleSign(c: SignCall) returns (answer: Answer)
      modifies this, pins
      ensures (Seen(), answer) == SignEffect(old(Seen()), c)
      ensures |attempts| <= |old(attempts)| + 1
      ensures answer.Signature? ==> attempts != old(attempts) && !attempts[|attempts| - 1].rejected
      ensures answer == Refused(PinRequired, 401) ==> c.request.pin == "" && Seen() == old(Seen())
    {
      if !OriginAdmitted(c.site, c.origin, c.siteToken) { return Refused(Unauthorized, 403); }
      if !AlgorithmSupported(c.request.message.algorithm) { return Refused(UnsupportedAlgorithm, 400); }
      if !HmacAdmitted(c.site, c.origin, c.request, c.now) { return Refused(Unauthorized, 403); }
      var fp := c.request.expectedFingerprint;
      if fp !in certificates || !Plugged(tokens, certificates[fp]) {
        return Refused(if SomePlugged(tokens) then CertNotFound else TokenNotFound, 404);
      }
      var slot := certificates[fp];
      if !IsHex(c.request.message.hash) { return Refused(InternalError, 400); }
      var pin := c.request.pin;
      if pin == "" {
        var cached := pins.Get(fp);
        if cached.None? { return Refused(PinRequired, 401); }
        pin := cached.value;
      }
      var err := SignHash(slot, pin, c);
      if err.Some? {
        var (code, status) := MapPkcs11Error(err.value);
        if code == PinIncorrect || code == PinLocked {
          pins.Forget(fp);
        }
        return Refused(code, status);
      }
      pins.Set(fp, pin);
      return Signature(slot);
    }
  }

  // ---------- which request gets which answer ----------

  /** The PIN for a request: its own, else the one remembered for its certificate. */
  predicate HasPin(s: State, r: SignRequest, pin: string) {
    if r.pin != "" then pin == r.pin
    else r.expectedFingerprint != "" && r.expectedFingerprint in s.pins && pin == s.pins[r.expectedFingerprint]
  }

  predicate InSlot(s: State, fingerprint: string, slot: nat) {
    fingerprint in s.certificates && s.certificates[fingerprint] == slot && slot in s.tokens && s.tokens[slot].plugged
  }

  /** The request gets as far as the token in `slot`, with this PIN. */
  predicate Reaches(s: State, c: SignCall, slot: nat, pin: string) {
    && Accepted(c.site, c.origin, c.siteToken, c.request, c.now)
    && InSlot(s, c.request.expectedFingerprint, slot) && HasPin(s, c.request, pin)
    && |c.request.message.hash| % 2 == 0
    && forall i :: 0 <= i < |c.request.message.hash| ==> c.request.message.hash[i] in "0123456789abcdefABCDEF"
  }

  /** The token takes the PIN: it is not locked, and the PIN is its own. */
  predicate Takes(s: State, slot: nat, pin: string)
    requires slot in s.tokens
  {
    s.tokens[slot].retries > 0 && s.tokens[slot].pin == pin
  }

  /** What goes wrong in front of the token: the token's own complaint about the PIN, or an error
      before or after the login. */
  predicate FailsWith(s: State, c: SignCall, slot: nat, pin: string, e: SignError)
    requires slot in s.tokens
  {
    || c.fault == BeforeLogin(e)
    || (!c.fault.BeforeLogin? && !Takes(s, slot, pin) && e == Pkcs11(c.complaint))
    || (Takes(s, slot, pin) && c.fault == AfterLogin(e))
  }

  lemma HexDigits(s: string)
    ensures IsHex(s) <==> |s| % 2 == 0 && forall i :: 0 <= i < |s| ==> s[i] in "0123456789abcdefABCDEF"
  {
    forall i | 0 <= i < |s|
      ensures IsHexDigit(s[i]) <==> s[i] in "0123456789abcdefABCDEF"
    {
      HexDigit(s[i]);
    }
  }

  lemma HexDigit(c: char)
    ensures IsHexDigit(c) <==> c in "0123456789abcdefABCDEF"
  {
    var digits := "0123456789abcdefABCDEF";
    if '0' <= c <= '9' { assert digits[c as int - '0' as int] == c; }
    if 'a' <= c <= 'f' { assert digits[10 + (c as int - 'a' as int)] == c; }
    if 'A' <= c <= 'F' { assert digits[16 + (c as int - 'A' as int)] == c; }
  }

  /** What the handler does with a request that gets as far as a token. */
  lemma ReachedToken(s: State, c: SignCall, slot: nat, pin: string)
    requires Reaches(s, c, slot, pin)
    ensures SignEffect(s, c).1 == var (s1, err) := SignHashEffect(s, slot, pin, c);
              if err.None? then Signature(slot) else Refused(MapPkcs11Error(err.value).0, MapPkcs11Error(err.value).1)
    ensures SlotOf(s, c.request.expectedFingerprint) == Some(slot) && PinFor(s, c.request) == Some(pin) && GateAnswer(c).None?
    ensures IsHex(c.request.message.hash)
  {
    HexDigits(c.request.message.hash);
    hide IsHex, MapPkcs11Error, HmacAdmitted, OriginAdmitted, AlgorithmSupported, SignHashEffect, Remembered, Forgotten;
  }

  /** The answer for each error in front of the token, and its HTTP status: an incorrect PIN, a locked
      one and everything else are told apart. */
  lemma AnswerToEachError(s: State, c: SignCall, slot: nat, pin: string, e: SignError)
    requires Reaches(s, c, slot, pin) && FailsWith(s, c, slot, pin, e)
    ensures var answer := SignEffect(s, c).1;
            && answer.Refused?
            && (answer.code == PinIncorrect <==> e in {Pkcs11(PinIncorrectRv), Pkcs11(PinInvalidRv), Pkcs11(PinLenRangeRv)})
            && (answer.code == PinLocked <==> e == Pkcs11(PinLockedRv))
            && (answer.code == PinCancelled <==> e == Pkcs11(FunctionCanceled))
            && (answer.code == TokenNotFound <==> e in {Pkcs11(TokenNotPresent), Pkcs11(TokenNotRecognized), Pkcs11(DeviceRemoved)})
            && (answer.code == UnsupportedAlgorithm <==> e in {Pkcs11(MechanismInvalid), Pkcs11(MechanismParamInvalid)})
            && (answer.code == CertNotFound <==> e in {Pkcs11(KeyHandleInvalid), Pkcs11(ObjectHandleInvalid)})
            && (answer.code == InternalError <==> e.NotPkcs11? || e.rv.OtherRv?)
            && answer.status == (if answer.code == PinIncorrect then 401 else if answer.code == PinLocked then 403
                                 else if answer.code in {TokenNotFound, CertNotFound} then 404
                                 else if answer.code == InternalError then 500 else 400)
  {
    ReachedToken(s, c, slot, pin);
    hide SignEffect, IsHex, Accepted;
    assert SignHashEffect(s, slot, pin, c).1 == Some(e);
  }

  /** Exactly when a signature is returned, and by which token. */
  lemma SignsExactlyWhen(s: State, c: SignCall, slot: nat)
    ensures SignEffect(s, c).1 == Signature(slot) <==>
            exists pin :: Reaches(s, c, slot, pin) && Takes(s, slot, pin) && c.fault == NoFault
  {
    var (s', answer) := SignEffect(s, c);
    HexDigits(c.request.message.hash);
    hide IsHex, MapPkcs11Error, HmacAdmitted, OriginAdmitted, AlgorithmSupported, Remembered, Forgotten, SomePlugged;
    if answer == Signature(slot) {
      var pin := PinFor(s, c.request).value;
      assert Reaches(s, c, slot, pin) && Takes(s, slot, pin);
    }
  }

  /** The refusals in front of the token, in order; none of them touches cache or tokens. */
  lemma RefusedBeforeToken(s: State, c: SignCall)
    requires forall slot, pin :: !Reaches(s, c, slot, pin)
    ensures var fp := c.request.expectedFingerprint;
            SignEffect(s, c) ==
            (s, if !OriginAdmitted(c.site, c.origin, c.siteToken) then Refused(Unauthorized, 403)
                else if c.request.message.algorithm !in {"", "sha256"} then Refused(UnsupportedAlgorithm, 400)
                else if !HmacAdmitted(c.site, c.origin, c.request, c.now) then Refused(Unauthorized, 403)
                else if forall slot :: !InSlot(s, fp, slot) then
                  Refused(if exists slot :: slot in s.tokens && s.tokens[slot].plugged then CertNotFound else TokenNotFound, 404)
                else if exists pin :: HasPin(s, c.request, pin) then Refused(InternalError, 400)
                else if IsHex(c.request.message.hash) then Refused(PinRequired, 401)
                else Refused(InternalError, 400))
  {
    HexDigits(c.request.message.hash);
    hide IsHex, MapPkcs11Error, HmacAdmitted, OriginAdmitted, Remembered, Forgotten, SignHashEffect;
    var fp := c.request.expectedFingerprint;
    if SlotOf(s, fp).Some? { assert InSlot(s, fp, SlotOf(s, fp).value); }
    if PinFor(s, c.request).Some? { assert HasPin(s, c.request, PinFor(s, c.request).value); }
    if SlotOf(s, fp).Some? && PinFor(s, c.request).Some? { assert !Reaches(s, c, SlotOf(s, fp).value, PinFor(s, c.request).value); }
  }

  /** What a request that reaches a token leaves. The token counts wrong PINs down to zero, where it
      is locked, and starts over with the right one. The PIN is remembered exactly after a
      signature, and forgotten exactly after an error that tells of a wrong or locked PIN. */
  lemma ReachedLeaves(s: State, c: SignCall, slot: nat, pin: string)
    requires Reaches(s, c, slot, pin)
    ensures var s' := SignEffect(s, c).0;
            var fp := c.request.expectedFingerprint;
            var token := s.tokens[slot];
            && s'.certificates == s.certificates
            && s'.tokens == (if c.fault.BeforeLogin? then s.tokens
                             else s.tokens[slot := token.(retries := if Takes(s, slot, pin) then token.limit
                                                                     else if token.retries == 0 then 0 else token.retries - 1)])
            && s'.attempts == (if c.fault.BeforeLogin? then s.attempts
                               else s.attempts + [Attempt(slot, pin, !Takes(s, slot, pin))])
            && (SignEffect(s, c).1.Signature? ==> s'.pins == if fp == "" || pin == "" then s.pins else s.pins[fp := pin])
            && (forall e :: FailsWith(s, c, slot, pin, e) ==>
                  s'.pins == if fp != "" && e in {Pkcs11(PinIncorrectRv), Pkcs11(PinInvalidRv), Pkcs11(PinLenRangeRv), Pkcs11(PinLockedRv)}
                             then s.pins - {fp} else s.pins)
  {
    ReachedToken(s, c, slot, pin);
    hide IsHex, Accepted, GateAnswer, Reaches;
  }

  // ---------- runs ----------

  datatype Op =
    | Sign(call: SignCall)
    | ChangePin(slot: nat, pin: string)
    | Plug(slot: nat, token: Token, fingerprint: string)
    | Unplug(slot: nat)
    | Restart

  function Step(s: State, op: Op): (s': State) {
    match op
    case Sign(c) => SignEffect(s, c).0
    case ChangePin(slot, pin) => if slot in s.tokens then s.(tokens := s.tokens[slot := s.tokens[slot].(pin := pin)]) else s
    case Plug(slot, token, fp) =>
      var plugged := (if slot in s.tokens then s.tokens[slot] else token).(plugged := true);
      s.(tokens := s.tokens[slot := plugged], certificates := s.certificates[fp := slot])
    case Unplug(slot) => if slot in s.tokens then s.(tokens := s.tokens[slot := s.tokens[slot].(plugged := false)]) else s
    case Restart => s.(pins := map[])
  }

  function Run(s: State, ops: seq<Op>): (s': State) {
    if ops == [] then s else Step(Run(s, ops[..|ops| - 1]), ops[|ops| - 1])
  }

  function Rejected(attempts: seq<Attempt>): (n: nat) {
    if attempts == [] then 0
    else Rejected(attempts[..|attempts| - 1]) + (if attempts[|attempts| - 1].rejected then 1 else 0)
  }

  predicate CarriesPin(op: Op) {
    op.Sign? && op.call.request.pin != ""
  }

  function Explicit(ops: seq<Op>): (n: nat) {
    if ops == [] then 0 else Explicit(ops[..|ops| - 1]) + (if CarriesPin(ops[|ops| - 1]) then 1 else 0)
  }

  ghost predicate NoEmptyPin(s: State) {
    && (forall fp :: fp in s.pins ==> s.pins[fp] != "")
    && (forall i :: 0 <= i < |s.attempts| ==> s.attempts[i].pin != "")
  }

  lemma NoEmptyPinStep(s: State, op: Op)
    requires NoEmptyPin(s)
    ensures NoEmptyPin(Step(s, op))
  {
    hide GateAnswer, IsHex, MapPkcs11Error;
  }

  /** No run hands an empty PIN to `C_Login`. */
  lemma {:induction false} LoginNeverGetsEmptyPin(s: State, ops: seq<Op>)
    requires NoEmptyPin(s)
    ensures NoEmptyPin(Run(s, ops))
  {
    if ops != [] {
      LoginNeverGetsEmptyPin(s, ops[..|ops| - 1]);
      NoEmptyPinStep(Run(s, ops[..|ops| - 1]), ops[|ops| - 1]);
    }
  }

  lemma RejectedSnoc(attempts: seq<Attempt>, a: Attempt)
    ensures Rejected(attempts + [a]) == Rejected(attempts) + (if a.rejected then 1 else 0)
  {
    assert (attempts + [a])[..|attempts|] == attempts;
  }

  lemma CacheSize(pins: map<string, string>, fp: string, pin: string)
    ensures |Remembered(pins, fp, pin)| <= |pins| + 1
    ensures fp in pins ==> |Remembered(pins, fp, pin)| == |pins|
    ensures |Forgotten(pins, fp)| <= |pins|
    ensures fp != "" && fp in pins ==> |Forgotten(pins, fp)| == |pins| - 1
  {
    assert pins[fp := pin].Keys == pins.Keys + {fp};
    assert (pins - {fp}).Keys == pins.Keys - {fp};
    assert |pins[fp := pin].Keys| == |pins[fp := pin]| && |(pins - {fp}).Keys| == |pins - {fp}| && |pins.Keys| == |pins|;
  }

  /** What a sign request can do: no login; a rejected login, after which the entry is gone exactly
      if the error mapping takes the token's return value for a wrong PIN; or an accepted one,
      after which at most this PIN is remembered. */
  lemma SignOutcome(s: State, c: SignCall)
    ensures var s' := SignEffect(s, c).0;
            var fp := c.request.expectedFingerprint;
            var pin := PinFor(s, c.request);
            || (s'.attempts == s.attempts && s'.tokens == s.tokens && s'.pins in {s.pins, Forgotten(s.pins, fp)})
            || (pin.Some? && SlotOf(s, fp).Some?
                && (var slot := SlotOf(s, fp).value;
                    && s'.tokens == s.tokens[slot := Login(s.tokens[slot], pin.value, c.complaint).0]
                    && (|| (s'.attempts == s.attempts + [Attempt(slot, pin.value, true)]
                            && s'.pins == if WrongPinRv(c.complaint) then Forgotten(s.pins, fp) else s.pins)
                        || (s'.attempts == s.attempts + [Attempt(slot, pin.value, false)]
                            && Login(s.tokens[slot], pin.value, c.complaint).1.None?
                            && s'.pins in {s.pins, Forgotten(s.pins, fp), Remembered(s.pins, fp, pin.value)}))))
  {
    hide GateAnswer, IsHex, Forgotten, Remembered, Cached, SomePlugged;
  }

  /** Every token of the run rejects a PIN with one of the return values of a wrong PIN. */
  predicate Plainspoken(ops: seq<Op>) {
    forall i :: 0 <= i < |ops| && ops[i].Sign? ==> WrongPinRv(ops[i].call.complaint)
  }

  /** Each rejected login is paid for by a PIN that a request carried: its own, or the one that put
      the entry in the cache, and that entry is gone afterwards. */
  lemma SignBudget(s: State, c: SignCall)
    requires WrongPinRv(c.complaint)
    ensures Rejected(SignEffect(s, c).0.attempts) + |SignEffect(s, c).0.pins|
            <= Rejected(s.attempts) + |s.pins| + (if c.request.pin != "" then 1 else 0)
  {
    hide SignEffect;
    SignOutcome(s, c);
    var fp := c.request.expectedFingerprint;
    var pin := PinFor(s, c.request);
    CacheSize(s.pins, fp, if pin.Some? then pin.value else "");
    var s' := SignEffect(s, c).0;
    if s'.attempts != s.attempts {
      RejectedSnoc(s.attempts, s'.attempts[|s.attempts|]);
    }
  }

  lemma BudgetStep(s: State, op: Op)
    requires op.Sign? ==> WrongPinRv(op.call.complaint)
    ensures Rejected(Step(s, op).attempts) + |Step(s, op).pins|
            <= Rejected(s.attempts) + |s.pins| + (if CarriesPin(op) then 1 else 0)
  {
    if op.Sign? {
      SignBudget(s, op.call);
      hide SignEffect;
    }
  }

  /** The failed-login budget: over any run from an empty cache, whatever happens to the tokens'
      PINs, logins rejected for a wrong PIN number at most the requests that carried one, provided
      the tokens say so with a return value that the error mapping knows. */
  lemma {:induction false} RejectionsWithinBudget(s: State, ops: seq<Op>)
    requires s.pins == map[] && s.attempts == [] && Plainspoken(ops)
    ensures Rejected(Run(s, ops).attempts) + |Run(s, ops).pins| <= Explicit(ops)
  {
    if ops != [] {
      RejectionsWithinBudget(s, ops[..|ops| - 1]);
      BudgetStep(Run(s, ops[..|ops| - 1]), ops[|ops| - 1]);
    }
  }

  // ---------- tokens that reject a PIN with another return value ----------

  const PAIRED := SiteView(true, None, None)

  /** A request from a paired site without secret, for the certificate "f", in front of a token
      that rejects PINs with `complaint`. */
  function Plea(pin: string, complaint: Ckr): (c: SignCall) {
    SignCall(PAIRED, "o", "", SignRequest(Message("", "", "", 0, ""), "f", Absent, pin), 0, complaint, NoFault)
  }

  function Inserted(limit: nat): (s: State) {
    State(map[], map[0 := Token("old", limit, limit, true)], map["f" := 0], [])
  }

  /** Sign once with the right PIN, change the PIN elsewhere, then sign `n` times from the cache. */
  function Stubborn(complaint: Ckr, n: nat): (ops: seq<Op>) {
    if n == 0 then [Sign(Plea("old", complaint)), ChangePin(0, "new")] else Stubborn(complaint, n - 1) + [Sign(Plea("", complaint))]
  }

  lemma PleaPasses(pin: string, complaint: Ckr)
    ensures GateAnswer(Plea(pin, complaint)) == None && IsHex("")
  {
  }

  function Stuck(complaint: Ckr, retries: nat, limit: nat, attempts: seq<Attempt>): (s: State) {
    State(map["f" := "old"], map[0 := Token("new", retries, limit, true)], map["f" := 0], attempts)
  }

  lemma FirstPlea(complaint: Ckr, limit: nat)
    requires 0 < limit
    ensures Step(Step(Inserted(limit), Sign(Plea("old", complaint))), ChangePin(0, "new"))
         == Stuck(complaint, limit, limit, [Attempt(0, "old", false)])
  {
    PleaPasses("old", complaint);
    hide GateAnswer, IsHex, MapPkcs11Error;
  }

  lemma RejectedPlea(complaint: Ckr, retries: nat, limit: nat, attempts: seq<Attempt>)
    requires !WrongPinRv(complaint)
    ensures Step(Stuck(complaint, retries, limit, attempts), Sign(Plea("", complaint)))
         == Stuck(complaint, if retries == 0 then 0 else retries - 1, limit, attempts + [Attempt(0, "old", true)])
  {
    PleaPasses("", complaint);
    hide GateAnswer, IsHex;
  }

  lemma {:induction false} StubbornRun(complaint: Ckr, limit: nat, n: nat) returns (attempts: seq<Attempt>)
    requires !WrongPinRv(complaint) && 0 < limit
    ensures Run(Inserted(limit), Stubborn(complaint, n))
         == Stuck(complaint, if n <= limit then limit - n else 0, limit, attempts)
    ensures Rejected(attempts) == n
  {
    hide Step, Stuck, Plea, Inserted;
    var ops := Stubborn(complaint, n);
    if n == 0 {
      FirstPlea(complaint, limit);
      attempts := [Attempt(0, "old", false)];
      assert attempts[..0] == [];
      assert ops[..1] == [ops[0]] && ops[..1][..0] == [];
      assert Run(Inserted(limit), ops[..1]) == Step(Inserted(limit), ops[0]);
    } else {
      var before := StubbornRun(complaint, limit, n - 1);
      assert ops[..|ops| - 1] == Stubborn(complaint, n - 1);
      RejectedPlea(complaint, if n - 1 <= limit then limit - (n - 1) else 0, limit, before);
      attempts := before + [Attempt(0, "old", true)];
      RejectedSnoc(before, Attempt(0, "old", true));
    }
  }

  lemma ExplicitSnoc(ops: seq<Op>, op: Op)
    ensures Explicit(ops + [op]) == Explicit(ops) + (if CarriesPin(op) then 1 else 0)
  {
    assert (ops + [op])[..|ops|] == ops;
  }

  lemma ReportSnoc(ops: seq<Op>, op: Op, complaint: Ckr)
    requires AllReport(ops, complaint) && (op.Sign? ==> op.call.complaint == complaint)
    ensures AllReport(ops + [op], complaint)
  {
  }

  lemma StubbornStart(complaint: Ckr)
    ensures Explicit(Stubborn(complaint, 0)) == 1 && AllReport(Stubborn(complaint, 0), complaint)
  {
    var first, second := Sign(Plea("old", complaint)), ChangePin(0, "new");
    assert Stubborn(complaint, 0) == [] + [first] + [second];
    assert Explicit([]) == 0;
    hide Explicit;
    ExplicitSnoc([], first);
    ExplicitSnoc([] + [first], second);
  }

  lemma {:induction false} StubbornOps(complaint: Ckr, n: nat)
    ensures Explicit(Stubborn(complaint, n)) == 1 && AllReport(Stubborn(complaint, n), complaint)
  {
    if n == 0 {
      StubbornStart(complaint);
    } else {
      StubbornOps(complaint, n - 1);
      var before, last := Stubborn(complaint, n - 1), Sign(Plea("", complaint));
      assert Stubborn(complaint, n) == before + [last];
      assert !CarriesPin(last) && last.call.complaint == complaint;
      hide Stubborn, Explicit, AllReport, Plea;
      ExplicitSnoc(before, last);
      ReportSnoc(before, last, complaint);
    }
  }

  ghost predicate AllReport(ops: seq<Op>, complaint: Ckr) {
    forall i :: 0 <= i < |ops| && ops[i].Sign? ==> ops[i].call.complaint == complaint
  }

  /** The budget holds for tokens that reject PINs with `complaint` if and only if that is one of
      the four return values of a wrong PIN: with any other, one PIN carried by a request is
      rejected from the cache any number of times, once the token's PIN has changed. */
  lemma BudgetHoldsExactlyFor(complaint: Ckr)
    ensures WrongPinRv(complaint) <==>
            forall s: State, ops :: s.pins == map[] && s.attempts == [] && AllReport(ops, complaint) ==>
              Rejected(Run(s, ops).attempts) <= Explicit(ops)
  {
    if WrongPinRv(complaint) {
      forall s: State, ops | s.pins == map[] && s.attempts == [] && AllReport(ops, complaint)
        ensures Rejected(Run(s, ops).attempts) <= Explicit(ops)
      {
        RejectionsWithinBudget(s, ops);
      }
    } else {
      var attempts := StubbornRun(complaint, 3, 2);
      StubbornOps(complaint, 2);
      var s, ops := Inserted(3), Stubborn(complaint, 2);
      assert Rejected(Run(s, ops).attempts) == 2;
    }
  }

  predicate Usable(s: State, slot: nat, limit: nat) {
    slot in s.tokens && s.tokens[slot].retries <= s.tokens[slot].limit == limit
  }

  lemma SignRetries(s: State, c: SignCall, slot: nat, limit: nat)
    requires Usable(s, slot, limit)
    ensures var s' := SignEffect(s, c).0;
            Usable(s', slot, limit) && s'.tokens[slot].retries + Rejected(s'.attempts) >= s.tokens[slot].retries + Rejected(s.attempts)
  {
    hide SignEffect, PinFor, Forgotten, Remembered;
    SignOutcome(s, c);
    var s' := SignEffect(s, c).0;
    if s'.attempts != s.attempts {
      RejectedSnoc(s.attempts, s'.attempts[|s.attempts|]);
      hide Rejected;
    }
  }

  lemma RetriesStep(s: State, op: Op, slot: nat, limit: nat)
    requires Usable(s, slot, limit)
    ensures Usable(Step(s, op), slot, limit)
    ensures Step(s, op).tokens[slot].retries + Rejected(Step(s, op).attempts)
            >= s.tokens[slot].retries + Rejected(s.attempts)
  {
    hide SignEffect, Rejected;
    if op.Sign? {
      SignRetries(s, op.call, slot, limit);
    }
  }

  lemma {:induction false} RetriesDropByRejections(s: State, ops: seq<Op>, slot: nat)
    requires s.attempts == [] && slot in s.tokens && Usable(s, slot, s.tokens[slot].limit)
    ensures Usable(Run(s, ops), slot, s.tokens[slot].limit)
    ensures Run(s, ops).tokens[slot].retries + Rejected(Run(s, ops).attempts) >= s.tokens[slot].retries
  {
    if ops != [] {
      RetriesDropByRejections(s, ops[..|ops| - 1], slot);
      RetriesStep(Run(s, ops[..|ops| - 1]), ops[|ops| - 1], slot, s.tokens[slot].limit);
    }
  }

  /** So the cache alone locks no plain-spoken token, plugged out and in as it may be: fewer
      PIN-carrying requests than retries leave it usable. */
  lemma FewExplicitPinsNeverLock(s: State, ops: seq<Op>, slot: nat)
    requires s.pins == map[] && s.attempts == []
    requires slot in s.tokens && s.tokens[slot].retries <= s.tokens[slot].limit
    requires Explicit(ops) < s.tokens[slot].retries && Plainspoken(ops)
    ensures slot in Run(s, ops).tokens && Run(s, ops).tokens[slot].retries > 0
  {
    RejectionsWithinBudget(s, ops);
    RetriesDropByRejections(s, ops, slot);
  }

  /** One PIN locks a token of any number of retries if it reports anything else. */
  lemma OnePinLocksOthers(complaint: Ckr, limit: nat)
    requires !WrongPinRv(complaint) && 0 < limit
    ensures var ops := Stubborn(complaint, limit);
            && AllReport(ops, complaint) && Explicit(ops) == 1
            && 0 in Run(Inserted(limit), ops).tokens && Run(Inserted(limit), ops).tokens[0].retries == 0
  {
    var attempts := StubbornRun(complaint, limit, limit);
    StubbornOps(complaint, limit);
  }
}
