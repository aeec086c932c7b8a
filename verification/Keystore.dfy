/** The bridge's store of paired sites: metadata in a JSON file, secrets in the OS keychain with a
    file as fallback. Seen from outside it should be one table per site. */
module Keystore {
  import opened Wrappers

  const HMAC_PREFIX := "hmac:"

  datatype Meta = Meta(pairedOn: string, registration: string)

  /** Everything the store can read: the index in memory and on disk, keychain and token file, and
      whether keychain and disk work at the moment. */
  datatype Store = Store(
    sites: map<string, Meta>, savedSites: map<string, Meta>,
    keychain: map<string, string>, tokenFile: map<string, string>,
    keychainUp: bool, diskUp: bool)

  function HmacKey(url: string): (key: string) {
    HMAC_PREFIX + url
  }

  // ---------- effects ----------

  /** Writing a secret: the keychain if it works, else the token file; false if both fail. */
  function Put(s: Store, key: string, value: string): (r: (Store, bool)) {
    if s.keychainUp then (s.(keychain := s.keychain[key := value]), true)
    else if s.diskUp then (s.(tokenFile := s.tokenFile[key := value]), true)
    else (s, false)
  }

  /** Reading a secret: a keychain that works and has the key decides, else the token file. */
  function Get(s: Store, key: string): (v: Option<string>) {
    if s.keychainUp && key in s.keychain then Some(s.keychain[key])
    else if key in s.tokenFile then Some(s.tokenFile[key])
    else None
  }

  function Delete(s: Store, key: string): (s': Store) {
    s.(keychain := if s.keychainUp then s.keychain - {key} else s.keychain,
       tokenFile := if s.diskUp then s.tokenFile - {key} else s.tokenFile)
  }

  function SaveIndex(s: Store): (r: (Store, bool)) {
    if s.diskUp then (s.(savedSites := s.sites), true) else (s, false)
  }

  function AddSiteEffect(s: Store, url: string, token: string, meta: Meta): (r: (Store, bool)) {
    var (s1, stored) := if token == "" then (s, true) else Put(s, url, token);
    if !stored then (s1, false) else SaveIndex(s1.(sites := s1.sites[url := meta]))
  }

  function SetSecretEffect(s: Store, url: string, secret: string): (r: (Store, bool)) {
    if secret == "" then (s, true) else Put(s, HmacKey(url), secret)
  }

  function RemoveSiteEffect(s: Store, url: string): (r: (Store, bool)) {
    SaveIndex(Delete(Delete(s.(sites := s.sites - {url}), url), HmacKey(url)))
  }

  /** `Token`: None stands for an error. */
  function TokenOf(s: Store, url: string): (v: Option<string>) {
    if url in s.sites then Get(s, url) else None
  }

  /** `HMACSecret`: an error for an unpaired site and the empty string for a site without secret
      are both None. */
  function SecretOf(s: Store, url: string): (v: Option<string>) {
    if url in s.sites then Get(s, HmacKey(url)) else None
  }

  // ---------- the class ----------

  class Keystore {
    var sites: map<string, Meta>
    var savedSites: map<string, Meta>
    var keychain: map<string, string>
    var tokenFile: map<string, string>
    var keychainUp: bool
    var diskUp: bool

    ghost function Seen(): (s: Store)
      reads this
    {
      Store(sites, savedSites, keychain, tokenFile, keychainUp, diskUp)
    }

    method KeyringSet(key: string, value: string) returns (ok: bool)
      modifies `keychain
      ensures ok == keychainUp
      ensures keychain == if ok then old(keychain)[key := value] else old(keychain)
    {
      ok := keychainUp;
      if ok { keychain := keychain[key := value]; }
    }

    method SetTokenFile(key: string, value: string) returns (ok: bool)
      modifies `tokenFile
      ensures ok == diskUp
      ensures tokenFile == if ok then old(tokenFile)[key := value] else old(tokenFile)
    {
      ok := diskUp;
      if ok { tokenFile := tokenFile[key := value]; }
    }

    method Save() returns (ok: bool)
      modifies `savedSites
      ensures ok == diskUp && savedSites == if ok then sites else old(savedSites)
    {
      ok := diskUp;
      if ok { savedSites := sites; }
    }

    method AddSite(url: string, token: string, meta: Meta) returns (ok: bool)
      modifies this
      ensures (Seen(), ok) == AddSiteEffect(old(Seen()), url, token, meta)
    {
      if token != "" {
        var inKeychain := KeyringSet(url, token);
        if !inKeychain {
          var inFile := SetTokenFile(url, token);
          if !inFile { return false; }
        }
      }
      sites := sites[url := meta];
      ok := Save();
    }

    method SetHMACSecret(url: string, secret: string) returns (ok: bool)
      modifies this
      ensures (Seen(), ok) == SetSecretEffect(old(Seen()), url, secret)
    {
      if secret == "" { return true; }
      ok := KeyringSet(HmacKey(url), secret);
      if !ok {
        ok := SetTokenFile(HmacKey(url), secret);
      }
    }

    method RemoveSite(url: string) returns (ok: bool)
      modifies this
      ensures (Seen(), ok) == RemoveSiteEffect(old(Seen()), url)
    {
      sites := sites - {url};
      if keychainUp {
        keychain := keychain - {url};
        keychain := keychain - {HmacKey(url)};
      }
      DeleteFromFile(url);
      DeleteFromFile(HmacKey(url));
      ok := Save();
    }

    method DeleteFromFile(key: string)
      modifies `tokenFile
      ensures tokenFile == if diskUp then old(tokenFile) - {key} else old(tokenFile)
    {
      if key in tokenFile && diskUp {
        tokenFile := tokenFile - {key};
      }
    }

    method Token(url: string) returns (v: Option<string>)
      ensures v == TokenOf(Seen(), url)
      ensures url !in sites ==> v == None
      ensures url in sites && keychainUp && url in keychain ==> v == Some(keychain[url])
      ensures v.Some? ==> (url in keychain && keychain[url] == v.value) || (url in tokenFile && tokenFile[url] == v.value)
    {
      if url !in sites { return None; }
      if keychainUp && url in keychain { return Some(keychain[url]); }
      if url in tokenFile { return Some(tokenFile[url]); }
      return None;
    }

    method HMACSecret(url: string) returns (v: Option<string>)
      ensures v == SecretOf(Seen(), url)
      ensures url !in sites ==> v == None
      ensures v.Some? ==> var key := HmacKey(url);
                (key in keychain && keychain[key] == v.value) || (key in tokenFile && tokenFile[key] == v.value)
    {
      if url !in sites { return None; }
      var key := HmacKey(url);
      if keychainUp && key in keychain { return Some(keychain[key]); }
      if key in tokenFile { return Some(tokenFile[key]); }
      return None;
    }
  }

  // ---------- runs, against a plain table ----------

  datatype Op =
    | Add(url: string, token: string, meta: Meta)
    | SetSecret(url: string, secret: string)
    | Remove(url: string)
    | Reload
    | SwitchKeychain
    | SwitchDisk

  function Step(s: Store, op: Op): (s': Store) {
    match op
    case Add(url, token, meta) => AddSiteEffect(s, url, token, meta).0
    case SetSecret(url, secret) => SetSecretEffect(s, url, secret).0
    case Remove(url) => RemoveSiteEffect(s, url).0
    case Reload => s.(sites := s.savedSites)
    case SwitchKeychain => s.(keychainUp := !s.keychainUp)
    case SwitchDisk => s.(diskUp := !s.diskUp)
  }

  function Run(s: Store, ops: seq<Op>): (s': Store) {
    if ops == [] then s else Step(Run(s, ops[..|ops| - 1]), ops[|ops| - 1])
  }

  /** The plain table: one map for the metadata, one for the tokens, one for the secrets. */
  datatype Table = Table(sites: map<string, Meta>, tokens: map<string, string>, secrets: map<string, string>)

  const EMPTY := Table(map[], map[], map[])

  function Target(op: Op): (url: Option<string>) {
    match op
    case Add(url, _, _) => Some(url)
    case SetSecret(url, _) => Some(url)
    case Remove(url) => Some(url)
    case _ => None
  }

  /** The operation finds a place to write: token or secret are stored, a removal is complete. */
  predicate Writes(s: Store, op: Op) {
    match op
    case Add(_, token, _) => token == "" || s.keychainUp || s.diskUp
    case SetSecret(_, _) => s.keychainUp || s.diskUp
    case Remove(_) => s.diskUp
    case _ => true
  }

  function TableStep(t: Table, op: Op): (t': Table) {
    match op
    case Add(url, token, meta) =>
      t.(sites := t.sites[url := meta], tokens := if token == "" then t.tokens else t.tokens[url := token])
    case SetSecret(url, secret) => if secret == "" then t else t.(secrets := t.secrets[url := secret])
    case Remove(url) => Table(t.sites - {url}, t.tokens - {url}, t.secrets - {url})
    case _ => t
  }

  /** The table after a run of the store: operations that fail leave it alone. */
  function TableRun(s: Store, ops: seq<Op>): (t': Table) {
    if ops == [] then EMPTY
    else
      var init, last := ops[..|ops| - 1], ops[|ops| - 1];
      if Writes(Run(s, init), last) then TableStep(TableRun(s, init), last) else TableRun(s, init)
  }

  /** Keys of the keychain are site URLs and prefixed site URLs; the two kinds stay apart as long
      as no site URL has the prefix. */
  predicate Plain(url: string) {
    !(HMAC_PREFIX <= url)
  }

  predicate PlainOp(op: Op) {
    match op
    case Add(url, _, _) => Plain(url)
    case SetSecret(url, _) => Plain(url)
    case Remove(url) => Plain(url)
    case _ => true
  }

  predicate PlainOps(ops: seq<Op>) {
    forall i :: 0 <= i < |ops| ==> PlainOp(ops[i])
  }

  function Cost(op: Op): (n: nat) {
    if op.SwitchKeychain? then 1 else 0
  }

  function Switches(ops: seq<Op>): (n: nat) {
    if ops == [] then 0 else Switches(ops[..|ops| - 1]) + Cost(ops[|ops| - 1])
  }

  predicate Fresh(s: Store) {
    s.sites == map[] && s.savedSites == map[] && s.keychain == map[] && s.tokenFile == map[]
  }

  lemma KeysApart(u: string, v: string)
    ensures Plain(u) ==> u != HmacKey(v)
    ensures HmacKey(u) == HmacKey(v) ==> u == v
  {
    assert HMAC_PREFIX <= HmacKey(v);
    assert HmacKey(u)[|HMAC_PREFIX|..] == u && HmacKey(v)[|HMAC_PREFIX|..] == v;
  }

  function Lookup(m: map<string, string>, key: string): (v: Option<string>) {
    if key in m then Some(m[key]) else None
  }

  predicate SameAt(s: Store, s': Store, key: string) {
    Lookup(s.keychain, key) == Lookup(s'.keychain, key) && Lookup(s.tokenFile, key) == Lookup(s'.tokenFile, key)
  }

  lemma PutElsewhere(s: Store, k: string, value: string, key: string)
    requires k != key
    ensures SameAt(s, Put(s, k, value).0, key)
  {
  }

  lemma DeletedElsewhere(s: Store, k: string, k': string, key: string)
    requires k != key && k' != key
    ensures SameAt(s, Delete(Delete(s, k), k'), key)
  {
  }

  lemma OtherSiteUntouched(s: Store, op: Op, url: string)
    requires Plain(url) && PlainOp(op) && Target(op).Some? && Target(op) != Some(url)
    ensures SameAt(s, Step(s, op), url) && SameAt(s, Step(s, op), HmacKey(url))
  {
    var v := Target(op).value;
    KeysApart(url, v);
    KeysApart(v, url);
    match op
    case Add(_, token, _) => PutElsewhere(s, v, token, url); PutElsewhere(s, v, token, HmacKey(url));
    case SetSecret(_, secret) => PutElsewhere(s, HmacKey(v), secret, url); PutElsewhere(s, HmacKey(v), secret, HmacKey(url));
    case Remove(_) =>
      var s0 := s.(sites := s.sites - {v});
      DeletedElsewhere(s0, v, HmacKey(v), url);
      DeletedElsewhere(s0, v, HmacKey(v), HmacKey(url));
  }

  // ---------- what one operation leaves ----------

  /** A pairing succeeds exactly if the disk works, and then its token is read. */
  lemma AddedIsRead(s: Store, url: string, token: string, meta: Meta)
    ensures var (s', ok) := AddSiteEffect(s, url, token, meta);
            && (ok <==> s.diskUp)
            && (ok ==> s'.sites == s.sites[url := meta] && s'.savedSites == s'.sites)
            && (ok && token != "" ==> TokenOf(s', url) == Some(token))
            && (!ok && token != "" && !s.keychainUp ==> s' == s)
            && (token == "" || s.keychainUp ==> s'.sites == s.sites[url := meta])
  {
  }

  /** A secret is stored exactly if keychain or disk works, and then it is read. */
  lemma SecretIsRead(s: Store, url: string, secret: string)
    ensures var (s', ok) := SetSecretEffect(s, url, secret);
            && (ok <==> secret == "" || s.keychainUp || s.diskUp)
            && (ok && secret != "" && url in s.sites ==> SecretOf(s', url) == Some(secret))
            && (!ok || secret == "" ==> s' == s)
  {
    hide HmacKey;
  }

  /** A removal succeeds exactly if the disk works. The site is gone from memory in any case, from the
      saved index and the token file if the disk works, and from the keychain if that does. */
  lemma RemovedIsGone(s: Store, url: string)
    ensures var (s', ok) := RemoveSiteEffect(s, url);
            && (ok <==> s.diskUp) && s'.sites == s.sites - {url}
            && TokenOf(s', url).None? && SecretOf(s', url).None?
            && s'.savedSites == (if s.diskUp then s'.sites else s.savedSites)
            && s'.tokenFile == (if s.diskUp then s.tokenFile - {url, HMAC_PREFIX + url} else s.tokenFile)
            && s'.keychain == (if s.keychainUp then s.keychain - {url, HMAC_PREFIX + url} else s.keychain)
  {
    assert s.tokenFile - {url} - {HMAC_PREFIX + url} == s.tokenFile - {url, HMAC_PREFIX + url};
    assert s.keychain - {url} - {HMAC_PREFIX + url} == s.keychain - {url, HMAC_PREFIX + url};
  }

  /** Which place a read answers from: the keychain if it works and knows the entry, else the file. */
  lemma ReadFrom(s: Store, url: string)
    ensures TokenOf(s, url) == if url !in s.sites then None
                               else if s.keychainUp && url in s.keychain then Some(s.keychain[url])
                               else if url in s.tokenFile then Some(s.tokenFile[url]) else None
    ensures SecretOf(s, url) == if url !in s.sites then None
                                else if s.keychainUp && HMAC_PREFIX + url in s.keychain then Some(s.keychain[HMAC_PREFIX + url])
                                else if HMAC_PREFIX + url in s.tokenFile then Some(s.tokenFile[HMAC_PREFIX + url]) else None
  {
  }

  // ---------- what one change of availability leaves of an entry ----------

  /** How the store has fared: its start, the changes of the keychain, and whether the disk has
      always worked. */
  datatype History = History(startedUp: bool, switches: nat, steady: bool)

  predicate Follows(h: History, s: Store) {
    h.switches <= 1 && s.keychainUp == (h.startedUp == (h.switches == 0)) && (h.steady ==> s.diskUp)
  }

  predicate Holds(m: map<string, string>, key: string, current: Option<string>) {
    key in m ==> current == Some(m[key])
  }

  /** What a place may return is current: the place in use, with nothing in the other; the file alone
      after the keychain was lost; the keychain, once gained, and the file where it has no entry.
      With a disk that always worked, and a keychain not lost, what is current is found. */
  predicate EntryRelated(s: Store, key: string, current: Option<string>, h: History) {
    && (if h.switches == 0 then
          if h.startedUp then Holds(s.keychain, key, current) && key !in s.tokenFile
          else Holds(s.tokenFile, key, current) && key !in s.keychain
        else if h.startedUp then Holds(s.tokenFile, key, current)
        else Holds(s.keychain, key, current) && (key !in s.keychain ==> Holds(s.tokenFile, key, current)))
    && (h.steady && !(h.startedUp && h.switches == 1) && current.Some? ==> Get(s, key) == current)
  }

  predicate SiteRelated(s: Store, t: Table, url: string, h: History) {
    EntryRelated(s, url, Lookup(t.tokens, url), h) && EntryRelated(s, HmacKey(url), Lookup(t.secrets, url), h)
  }

  /** With a disk that always worked the index is the table's. */
  predicate Indexed(s: Store, t: Table, h: History) {
    h.steady ==> s.sites == t.sites && s.savedSites == t.sites
  }

  lemma EntryPut(s: Store, key: string, value: string, current: Option<string>, h: History)
    requires Follows(h, s) && (s.keychainUp || s.diskUp) && EntryRelated(s, key, current, h)
    ensures EntryRelated(Put(s, key, value).0, key, Some(value), h)
  {
  }

  lemma EntrySame(s: Store, s': Store, key: string, current: Option<string>, h: History)
    requires SameAt(s, s', key) && s.keychainUp == s'.keychainUp && EntryRelated(s, key, current, h)
    ensures EntryRelated(s', key, current, h)
  {
  }

  lemma EntryDeleted(s: Store, key: string, current: Option<string>, h: History)
    requires Follows(h, s) && EntryRelated(s, key, current, h)
    requires s.diskUp || h.startedUp || h.switches == 0
    ensures EntryRelated(Delete(s, key), key, if s.diskUp then None else current, h)
  {
  }

  lemma EntrySwitched(s: Store, key: string, current: Option<string>, h: History)
    requires Follows(h, s) && h.switches == 0 && EntryRelated(s, key, current, h)
    ensures EntryRelated(s.(keychainUp := !s.keychainUp), key, current, h.(switches := 1))
  {
  }

  lemma EntryUnsteady(s: Store, key: string, current: Option<string>, h: History)
    requires EntryRelated(s, key, current, h)
    ensures EntryRelated(s.(diskUp := !s.diskUp), key, current, h.(steady := false))
  {
  }

  lemma OwnSiteRemoved(s: Store, t: Table, h: History, url: string)
    requires Follows(h, s) && url != HmacKey(url) && SiteRelated(s, t, url, h)
    requires s.diskUp || h.startedUp || h.switches == 0
    ensures SiteRelated(Step(s, Remove(url)), if s.diskUp then TableStep(t, Remove(url)) else t, url, h)
  {
    hide EntryRelated, HmacKey;
    var s', hmac := Step(s, Remove(url)), HmacKey(url);
    var s0 := s.(sites := s.sites - {url});
    var s1 := Delete(s0, url);
    var token, secret := Lookup(t.tokens, url), Lookup(t.secrets, url);
    EntrySame(s, s0, url, token, h);
    EntryDeleted(s0, url, token, h);
    EntrySame(s1, s', url, if s.diskUp then None else token, h);
    EntrySame(s, s1, hmac, secret, h);
    EntryDeleted(s1, hmac, secret, h);
    EntrySame(Delete(s1, hmac), s', hmac, if s.diskUp then None else secret, h);
  }

  lemma OwnSiteAdded(s: Store, t: Table, h: History, url: string, token: string, meta: Meta)
    requires Follows(h, s) && url != HmacKey(url) && SiteRelated(s, t, url, h)
    ensures var op := Add(url, token, meta); SiteRelated(Step(s, op), if Writes(s, op) then TableStep(t, op) else t, url, h)
  {
    hide EntryRelated, HmacKey;
    var s', hmac := Step(s, Add(url, token, meta)), HmacKey(url);
    if token != "" && (s.keychainUp || s.diskUp) {
      EntryPut(s, url, token, Lookup(t.tokens, url), h);
      EntrySame(Put(s, url, token).0, s', url, Some(token), h);
    } else {
      EntrySame(s, s', url, Lookup(t.tokens, url), h);
    }
    EntrySame(s, s', hmac, Lookup(t.secrets, url), h);
  }

  lemma OwnSiteSecretSet(s: Store, t: Table, h: History, url: string, secret: string)
    requires Follows(h, s) && url != HmacKey(url) && SiteRelated(s, t, url, h)
    ensures var op := SetSecret(url, secret); SiteRelated(Step(s, op), if Writes(s, op) then TableStep(t, op) else t, url, h)
  {
    hide EntryRelated, HmacKey;
    var s', hmac := Step(s, SetSecret(url, secret)), HmacKey(url);
    EntrySame(s, s', url, Lookup(t.tokens, url), h);
    if secret != "" && (s.keychainUp || s.diskUp) {
      EntryPut(s, hmac, secret, Lookup(t.secrets, url), h);
    } else {
      EntrySame(s, s', hmac, Lookup(t.secrets, url), h);
    }
  }

  lemma OwnSiteStep(s: Store, t: Table, h: History, op: Op, url: string)
    requires Follows(h, s) && Plain(url) && Target(op) == Some(url) && SiteRelated(s, t, url, h)
    requires op.Remove? ==> s.diskUp || h.startedUp || h.switches == 0
    ensures SiteRelated(Step(s, op), if Writes(s, op) then TableStep(t, op) else t, url, h)
  {
    hide Step, TableStep, SiteRelated, HmacKey;
    KeysApart(url, url);
    match op
    case Add(_, token, meta) => OwnSiteAdded(s, t, h, url, token, meta);
    case SetSecret(_, secret) => OwnSiteSecretSet(s, t, h, url, secret);
    case Remove(_) => OwnSiteRemoved(s, t, h, url);
  }

  function After(h: History, op: Op): (h': History) {
    h.(switches := h.switches + Cost(op), steady := h.steady && !op.SwitchDisk?)
  }

  lemma SiteStep(s: Store, t: Table, h: History, op: Op, url: string)
    requires Follows(h, s) && Plain(url) && PlainOp(op) && SiteRelated(s, t, url, h) && h.switches + Cost(op) <= 1
    requires op.Remove? ==> s.diskUp || h.startedUp || h.switches == 0
    ensures SiteRelated(Step(s, op), if Writes(s, op) then TableStep(t, op) else t, url, After(h, op))
  {
    hide EntryRelated, HmacKey;
    var hmac := HmacKey(url);
    match op
    case SwitchKeychain =>
      EntrySwitched(s, url, Lookup(t.tokens, url), h);
      EntrySwitched(s, hmac, Lookup(t.secrets, url), h);
    case SwitchDisk =>
      EntryUnsteady(s, url, Lookup(t.tokens, url), h);
      EntryUnsteady(s, hmac, Lookup(t.secrets, url), h);
    case Reload =>
      EntrySame(s, Step(s, op), url, Lookup(t.tokens, url), h);
      EntrySame(s, Step(s, op), hmac, Lookup(t.secrets, url), h);
    case _ =>
      hide SiteRelated;
      if Target(op) == Some(url) {
        OwnSiteStep(s, t, h, op, url);
      } else {
        OtherSiteStep(s, t, h, op, url);
      }
  }

  lemma OtherSiteStep(s: Store, t: Table, h: History, op: Op, url: string)
    requires Plain(url) && PlainOp(op) && Target(op).Some? && Target(op) != Some(url) && SiteRelated(s, t, url, h)
    ensures SiteRelated(Step(s, op), if Writes(s, op) then TableStep(t, op) else t, url, h)
  {
    OtherSiteUntouched(s, op, url);
    hide EntryRelated, HmacKey, SameAt;
    EntrySame(s, Step(s, op), url, Lookup(t.tokens, url), h);
    EntrySame(s, Step(s, op), HmacKey(url), Lookup(t.secrets, url), h);
  }

  lemma IndexStep(s: Store, t: Table, h: History, op: Op)
    requires Follows(h, s) && Indexed(s, t, h) && h.switches + Cost(op) <= 1
    ensures Follows(After(h, op), Step(s, op))
    ensures Indexed(Step(s, op), if Writes(s, op) then TableStep(t, op) else t, After(h, op))
  {
    hide HmacKey;
  }

  // ---------- runs ----------

  /** Sites are removed only while the disk works. */
  predicate RemovalsWritten(s: Store, ops: seq<Op>) {
    forall k :: 0 <= k < |ops| && ops[k].Remove? ==> Run(s, ops[..k]).diskUp
  }

  function HistoryOf(s: Store, ops: seq<Op>): (h: History) {
    History(s.keychainUp, Switches(ops), s.diskUp && SwitchDisk !in ops)
  }

  lemma HistoryGrows(s: Store, ops: seq<Op>)
    requires ops != []
    ensures HistoryOf(s, ops) == After(HistoryOf(s, ops[..|ops| - 1]), ops[|ops| - 1])
  {
    assert ops == ops[..|ops| - 1] + [ops[|ops| - 1]];
  }

  lemma {:induction false} RelatedRun(s: Store, ops: seq<Op>, url: string)
    requires Fresh(s) && PlainOps(ops) && Plain(url) && Switches(ops) <= 1
    requires s.keychainUp || Switches(ops) == 0 || RemovalsWritten(s, ops)
    ensures var h := HistoryOf(s, ops);
            Follows(h, Run(s, ops)) && Indexed(Run(s, ops), TableRun(s, ops), h) && SiteRelated(Run(s, ops), TableRun(s, ops), url, h)
  {
    if ops != [] {
      var init, last := ops[..|ops| - 1], ops[|ops| - 1];
      assert PlainOp(last);
      assert forall k :: 0 <= k < |init| ==> init[..k] == ops[..k];
      RelatedRun(s, init, url);
      HistoryGrows(s, ops);
      var h := HistoryOf(s, init);
      hide SiteRelated, Indexed, Step, TableStep, HmacKey, HistoryOf, PlainOp, After;
      SiteStep(Run(s, init), TableRun(s, init), h, last, url);
      IndexStep(Run(s, init), TableRun(s, init), h, last);
    }
  }

  function TableToken(t: Table, url: string): (v: Option<string>) {
    if url in t.sites then Lookup(t.tokens, url) else None
  }

  function TableSecret(t: Table, url: string): (v: Option<string>) {
    if url in t.sites then Lookup(t.secrets, url) else None
  }

  /** With a working disk and the keychain always there or never there, or gained on the way, the
      store answers every read like the plain table. */
  lemma AgreesWithTable(s: Store, ops: seq<Op>, url: string)
    requires Fresh(s) && PlainOps(ops) && Plain(url) && s.diskUp && SwitchDisk !in ops
    requires Switches(ops) == 0 || (Switches(ops) == 1 && !s.keychainUp)
    ensures Run(s, ops).sites == TableRun(s, ops).sites
    ensures TokenOf(Run(s, ops), url) == TableToken(TableRun(s, ops), url)
    ensures SecretOf(Run(s, ops), url) == TableSecret(TableRun(s, ops), url)
  {
    DiskStaysUp(s, ops);
    RelatedRun(s, ops, url);
    hide Run, TableRun, HmacKey;
  }

  lemma {:induction false} DiskStaysUp(s: Store, ops: seq<Op>)
    requires s.diskUp && SwitchDisk !in ops
    ensures Run(s, ops).diskUp && RemovalsWritten(s, ops)
  {
    if ops != [] {
      var init := ops[..|ops| - 1];
      DiskStaysUp(s, init);
      assert forall k :: 0 <= k < |init| ==> init[..k] == ops[..k];
      assert ops[|ops| - 1] != SwitchDisk;
    }
  }

  /** What reads of a site return is the last value stored and not removed since, or nothing. */
  predicate Current(s: Store, t: Table, url: string) {
    TokenOf(s, url) in {None, Lookup(t.tokens, url)} && SecretOf(s, url) in {None, Lookup(t.secrets, url)}
  }

  /** With at most one change of the keychain, whatever the disk does, no read returns a superseded
      value: what it returns is current, though it may return nothing. With a keychain gained on the
      way, sites must not be removed while the disk fails. */
  lemma NeverSuperseded(s: Store, ops: seq<Op>, url: string)
    requires Fresh(s) && PlainOps(ops) && Plain(url) && Switches(ops) <= 1
    requires s.keychainUp || Switches(ops) == 0 || RemovalsWritten(s, ops)
    ensures Current(Run(s, ops), TableRun(s, ops), url)
  {
    RelatedRun(s, ops, url);
    hide Run, TableRun, HmacKey;
  }

  lemma EmptyRun(s: Store)
    ensures Run(s, []) == s && TableRun(s, []) == EMPTY && Switches([]) == 0
  {
  }

  lemma RunSnoc(s: Store, ops: seq<Op>, op: Op)
    ensures Run(s, ops + [op]) == Step(Run(s, ops), op)
    ensures TableRun(s, ops + [op]) == if Writes(Run(s, ops), op) then TableStep(TableRun(s, ops), op) else TableRun(s, ops)
    ensures Switches(ops + [op]) == Switches(ops) + Cost(op)
  {
    hide Step, TableStep, Writes, Cost;
    assert (ops + [op])[..|ops + [op]| - 1] == ops;
  }

  function TwoSwitches(url: string, first: string, second: string, meta: Meta): (ops: seq<Op>) {
    [] + [Add(url, first, meta)] + [SwitchKeychain] + [Add(url, second, meta)] + [SwitchKeychain]
  }

  /** Two changes are enough to bring an old value back, from either start: a token replaced while
      the first place was away returns when that place does. */
  lemma SupersededAfterTwoSwitches(s: Store, url: string, first: string, second: string, meta: Meta)
    requires Fresh(s) && s.diskUp && first != "" && second != ""
    ensures var ops := TwoSwitches(url, first, second, meta);
            TokenOf(Run(s, ops), url) == Some(first) && Lookup(TableRun(s, ops).tokens, url) == Some(second) && Switches(ops) == 2
  {
    hide Run, TableRun, Switches, HmacKey;
    var a, b := Add(url, first, meta), Add(url, second, meta);
    EmptyRun(s);
    RunSnoc(s, [], a);
    RunSnoc(s, [] + [a], SwitchKeychain);
    RunSnoc(s, [] + [a] + [SwitchKeychain], b);
    RunSnoc(s, [] + [a] + [SwitchKeychain] + [b], SwitchKeychain);
  }

  lemma TwoSwitchesAreFine(s: Store, meta: Meta)
    ensures var ops := TwoSwitches("u", "1", "2", meta); PlainOps(ops) && RemovalsWritten(s, ops) && Plain("u")
  {
  }

  /** Reads are free of superseded values in all runs with at most `n` changes of the keychain if and
      only if `n` is at most one, whether the store starts with the keychain or without it. */
  lemma CurrentExactlyUpToOneSwitch(s: Store, n: nat)
    requires Fresh(s) && s.diskUp
    ensures n <= 1 <==> forall ops, url :: PlainOps(ops) && Plain(url) && Switches(ops) <= n && RemovalsWritten(s, ops) ==>
                          Current(Run(s, ops), TableRun(s, ops), url)
  {
    hide Run, TableRun, Switches, HmacKey, TwoSwitches, RemovalsWritten, PlainOps;
    if n <= 1 {
      forall ops, url | PlainOps(ops) && Plain(url) && Switches(ops) <= n && RemovalsWritten(s, ops)
        ensures Current(Run(s, ops), TableRun(s, ops), url)
      {
        NeverSuperseded(s, ops, url);
      }
    } else {
      var ops := TwoSwitches("u", "1", "2", Meta("", ""));
      SupersededAfterTwoSwitches(s, "u", "1", "2", Meta("", ""));
      TwoSwitchesAreFine(s, Meta("", ""));
      assert !Current(Run(s, ops), TableRun(s, ops), "u");
    }
  }

  /** Why the proviso on removals: a site added in the file and, the keychain gained, added again is
      back after a removal that the disk did not take and a restart, with the first token. */
  function FailedRemoval(url: string, first: string, second: string, meta: Meta): (ops: seq<Op>) {
    [] + [Add(url, first, meta)] + [SwitchKeychain] + [Add(url, second, meta)] + [SwitchDisk] + [Remove(url)] + [Reload]
  }

  lemma FailedRemovalComesBack(s: Store, url: string, first: string, second: string, meta: Meta)
    requires Fresh(s) && s.diskUp && !s.keychainUp && first != "" && second != "" && Plain(url)
    ensures var ops := FailedRemoval(url, first, second, meta);
            TokenOf(Run(s, ops), url) == Some(first) && Lookup(TableRun(s, ops).tokens, url) == Some(second) && Switches(ops) == 1
  {
    KeysApart(url, url);
    hide Run, TableRun, Switches, HmacKey;
    var a, b := Add(url, first, meta), Add(url, second, meta);
    EmptyRun(s);
    RunSnoc(s, [], a);
    RunSnoc(s, [] + [a], SwitchKeychain);
    RunSnoc(s, [] + [a] + [SwitchKeychain], b);
    RunSnoc(s, [] + [a] + [SwitchKeychain] + [b], SwitchDisk);
    RunSnoc(s, [] + [a] + [SwitchKeychain] + [b] + [SwitchDisk], Remove(url));
    RunSnoc(s, [] + [a] + [SwitchKeychain] + [b] + [SwitchDisk] + [Remove(url)], Reload);
  }

  /** An operation on one site changes no answer about another, in any state of keychain and disk. */
  lemma SitesAreIsolated(s: Store, op: Op, url: string)
    requires PlainOp(op) && Plain(url) && Target(op).Some? && Target(op) != Some(url)
    ensures TokenOf(Step(s, op), url) == TokenOf(s, url) && SecretOf(Step(s, op), url) == SecretOf(s, url)
  {
    OtherSiteUntouched(s, op, url);
    hide HmacKey;
    assert Step(s, op).keychainUp == s.keychainUp;
    assert url in Step(s, op).sites <==> url in s.sites;
    SameReads(s, Step(s, op), url);
    SameReads(s, Step(s, op), HmacKey(url));
  }

  lemma SameReads(s: Store, s': Store, key: string)
    requires SameAt(s, s', key) && s'.keychainUp == s.keychainUp
    ensures Get(s', key) == Get(s, key)
  {
  }

  /** The proviso on names is needed too: pairing the site named like another site's secret replaces
      that secret. */
  lemma PrefixedSiteOverwritesSecret(s: Store, url: string, token: string, meta: Meta)
    requires url in s.sites && token != "" && s.keychainUp
    ensures SecretOf(Step(s, Add(HmacKey(url), token, meta)), url) == Some(token)
  {
  }
}
