/**
  User tokens: encrypted in parts into account data, cached in memory, deleted by tombstone,
  with a fallback to keys of an older naming. Strings are sequences of UTF-16 code units.
 */
module TokenStore {
  import opened Common

  const MAX_TOKEN_PART_SIZE: nat := 128

  type Unit = u: int | 0 <= u < 0x1_0000

  type Text = seq<Unit>

  // ---------------------------------------------------------------- UTF-16 through UTF-8

  predicate High(u: Unit) { 0xD800 <= u < 0xDC00 }

  predicate Low(u: Unit) { 0xDC00 <= u < 0xE000 }

  /** Every surrogate is half of a pair. */
  predicate WellFormed(t: Text) {
    if t == [] then true
    else if High(t[0]) then |t| > 1 && Low(t[1]) && WellFormed(t[2..])
    else !Low(t[0]) && WellFormed(t[1..])
  }

  /** What a string becomes as a UTF-8 buffer and back: a lone surrogate turns into U+FFFD. */
  function Recode(t: Text): Text {
    if t == [] then []
    else if High(t[0]) && |t| > 1 && Low(t[1]) then t[..2] + Recode(t[2..])
    else [if High(t[0]) || Low(t[0]) then 0xFFFD else t[0]] + Recode(t[1..])
  }

  lemma {:induction false} RecodeIsIdentityIff(t: Text)
    ensures |Recode(t)| == |t|
    ensures Recode(t) == t <==> WellFormed(t)
  {
    if t == [] {
    } else if High(t[0]) && |t| > 1 && Low(t[1]) {
      RecodeIsIdentityIff(t[2..]);
      assert t == t[..2] + t[2..];
    } else {
      RecodeIsIdentityIff(t[1..]);
      assert t == [t[0]] + t[1..];
    }
  }

  // ---------------------------------------------------------------- encryption in parts

  /** A ciphertext: what it decrypts to, or one that does not decrypt with this key. */
  datatype Cipher = Encrypted(plain: Text) | Undecryptable

  /** publicEncrypt of Buffer.from(part), privateDecrypt read back as UTF-8. */
  function Encrypt(part: Text): Cipher { Encrypted(Recode(part)) }

  /** The parts a token is cut into. */
  function Parts(token: Text): seq<Text> {
    if token == [] then []
    else if |token| <= MAX_TOKEN_PART_SIZE then [token]
    else [token[..MAX_TOKEN_PART_SIZE]] + Parts(token[MAX_TOKEN_PART_SIZE..])
  }

  function EncryptAll(parts: seq<Text>): seq<Cipher> {
    seq(|parts|, i requires 0 <= i < |parts| => Encrypt(parts[i]))
  }

  function DecryptAll(ciphers: seq<Cipher>): Option<Text> {
    if ciphers == [] then Some([])
    else if ciphers[0].Undecryptable? || DecryptAll(ciphers[1..]).None? then None
    else Some(ciphers[0].plain + DecryptAll(ciphers[1..]).value)
  }

  function Concat(parts: seq<Text>): Text {
    if parts == [] then [] else parts[0] + Concat(parts[1..])
  }

  /** Storing cuts a token into non-empty parts of at most 128 units that join to the token. */
  lemma {:induction false} PartsJoin(token: Text)
    ensures Concat(Parts(token)) == token
    ensures forall i :: 0 <= i < |Parts(token)| ==> 0 < |Parts(token)[i]| <= MAX_TOKEN_PART_SIZE
  {
    if |token| > MAX_TOKEN_PART_SIZE {
      PartsJoin(token[MAX_TOKEN_PART_SIZE..]);
      assert token == token[..MAX_TOKEN_PART_SIZE] + token[MAX_TOKEN_PART_SIZE..];
    } else if token != [] {
      assert Parts(token)[1..] == [];
    }
  }

  /** The storing loop: slice off a part, encrypt it, go on with the rest. */
  method CutAndEncrypt(token: Text) returns (tokenParts: seq<Cipher>)
    ensures tokenParts == EncryptAll(Parts(token))
  {
    tokenParts := [];
    var tokenSource := token;
    ghost var done: seq<Text> := [];
    while |tokenSource| > 0
      invariant done + Parts(tokenSource) == Parts(token)
      invariant tokenParts == EncryptAll(done)
      decreases |tokenSource|
    {
      var cut := if |tokenSource| < MAX_TOKEN_PART_SIZE then |tokenSource| else MAX_TOKEN_PART_SIZE;
      var part := tokenSource[..cut];
      assert Parts(tokenSource) == [part] + Parts(tokenSource[cut..]) by {
        if cut == |tokenSource| {
          assert part == tokenSource && tokenSource[cut..] == [];
        }
      }
      tokenSource := tokenSource[cut..];
      tokenParts := tokenParts + [Encrypt(part)];
      done := done + [part];
    }
    assert done == Parts(token);
  }

  /** What a stored token decrypts to. */
  function Readback(token: Text): Text {
    if token == [] then []
    else if |token| <= MAX_TOKEN_PART_SIZE then Recode(token)
    else Recode(token[..MAX_TOKEN_PART_SIZE]) + Readback(token[MAX_TOKEN_PART_SIZE..])
  }

  lemma FirstPartDecrypts(part: Text, parts: seq<Text>, rest: Text)
    requires DecryptAll(EncryptAll(parts)) == Some(rest)
    ensures DecryptAll(EncryptAll([part] + parts)) == Some(Recode(part) + rest)
  {
    var ciphers := EncryptAll([part] + parts);
    assert ciphers[0] == Encrypted(Recode(part)) && ciphers[1..] == EncryptAll(parts);
  }

  lemma {:induction false} StoredDecrypts(token: Text)
    ensures DecryptAll(EncryptAll(Parts(token))) == Some(Readback(token))
  {
    if token == [] {
    } else if |token| <= MAX_TOKEN_PART_SIZE {
      FirstPartDecrypts(token, [], []);
      assert [token] + [] == [token] && Recode(token) + [] == Recode(token);
    } else {
      StoredDecrypts(token[MAX_TOKEN_PART_SIZE..]);
      FirstPartDecrypts(token[..MAX_TOKEN_PART_SIZE], Parts(token[MAX_TOKEN_PART_SIZE..]), Readback(token[MAX_TOKEN_PART_SIZE..]));
    }
  }

  /** No cut between two parts falls inside a surrogate pair. */
  predicate NoPairSplit(token: Text) {
    |token| > MAX_TOKEN_PART_SIZE ==>
      && !(High(token[MAX_TOKEN_PART_SIZE - 1]) && Low(token[MAX_TOKEN_PART_SIZE]))
      && NoPairSplit(token[MAX_TOKEN_PART_SIZE..])
  }

  lemma {:induction false} WellFormedSplits(t: Text, n: nat)
    requires 0 < n < |t| && !(High(t[n - 1]) && Low(t[n]))
    ensures WellFormed(t) <==> WellFormed(t[..n]) && WellFormed(t[n..])
  {
    if High(t[0]) && Low(t[1]) {
      if n == 2 {
        assert t[..2][2..] == [];
      } else if n > 2 {
        WellFormedSplits(t[2..], n - 2);
        assert t[2..][..n - 2] == t[..n][2..] && t[2..][n - 2..] == t[n..];
      }
    } else if n > 1 {
      WellFormedSplits(t[1..], n - 1);
      assert t[1..][..n - 1] == t[..n][1..] && t[1..][n - 1..] == t[n..];
    } else {
      assert t[..1][1..] == [];
    }
  }

  lemma {:induction false} SplitPairBreaks(t: Text)
    requires t != [] && High(t[|t| - 1])
    ensures !WellFormed(t)
  {
    if |t| > 1 {
      if High(t[0]) {
        if |t| > 2 {
          SplitPairBreaks(t[2..]);
        }
      } else {
        SplitPairBreaks(t[1..]);
      }
    }
  }

  /** A stored token is read back unchanged iff it is well-formed and no pair is split. */
  lemma {:induction false} ReadbackIsIdentityIff(token: Text)
    ensures |Readback(token)| == |token|
    ensures Readback(token) == token <==> WellFormed(token) && NoPairSplit(token)
  {
    if |token| <= MAX_TOKEN_PART_SIZE {
      RecodeIsIdentityIff(token);
    } else {
      var part, rest := token[..MAX_TOKEN_PART_SIZE], token[MAX_TOKEN_PART_SIZE..];
      RecodeIsIdentityIff(part);
      ReadbackIsIdentityIff(rest);
      assert token == part + rest;
      assert Readback(token)[..MAX_TOKEN_PART_SIZE] == Recode(part);
      assert Readback(token)[MAX_TOKEN_PART_SIZE..] == Readback(rest);
      if High(token[MAX_TOKEN_PART_SIZE - 1]) && Low(token[MAX_TOKEN_PART_SIZE]) {
        SplitPairBreaks(part);
      } else {
        WellFormedSplits(token, MAX_TOKEN_PART_SIZE);
      }
    }
  }

  /** Plain text without surrogates, as real tokens are, always survives. */
  lemma {:induction false} PlainTextSurvives(token: Text)
    requires forall i :: 0 <= i < |token| ==> token[i] < 0xD800
    ensures WellFormed(token) && NoPairSplit(token)
    decreases |token|
  {
    if token != [] {
      PlainTextSurvives(token[1..]);
      if |token| > MAX_TOKEN_PART_SIZE {
        PlainTextSurvives(token[MAX_TOKEN_PART_SIZE..]);
      }
    }
  }

  // ---------------------------------------------------------------- the store

  datatype TokenType = GitHub | GitLab | Jira

  /** Account data of one key. A legacy entry may hold one ciphertext instead of a list. */
  datatype Data = Stored(encrypted: seq<Cipher>) | Deleted

  datatype Error = Forbidden | MissingInstance | StorageFailed

  /** The account data key; an instance of the empty string counts as missing. */
  datatype Key = Key(tokenType: TokenType, legacy: bool, instance: string, user: string)

  /** tokenKey: jira has no legacy key, and only gitlab keys name the instance. */
  function TokenKey(t: TokenType, user: string, legacy: bool, instance: Option<string>): Result<Key, Error> {
    match t
    case GitHub => Ok(Key(GitHub, legacy, "", user))
    case Jira => Ok(Key(Jira, false, "", user))
    case GitLab =>
      if instance.None? || instance.value == "" then Err(MissingInstance)
      else Ok(Key(GitLab, legacy, instance.value, user))
  }

  datatype State = State(accountData: map<Key, Data>, cache: map<Key, Text>)

  /** Whose token: the arguments every operation takes. */
  datatype Owner = Owner(tokenType: TokenType, user: string, instance: Option<string>)

  /** `works` is whether account data can be written; reads work. Restart loses the cache. */
  datatype Op =
    | Store(owner: Owner, token: Text, permitted: bool, works: bool)
    | Clear(owner: Owner, works: bool)
    | Get(owner: Owner)
    | Restart

  /** What an operation gives back: nothing, whether a token was cleared, or a token or null. */
  datatype Outcome = Done | Cleared(was: bool) | Token(token: Option<Text>) | Threw(error: Error)

  function CurrentKey(o: Owner): Result<Key, Error> { TokenKey(o.tokenType, o.user, false, o.instance) }

  function LegacyKey(k: Key): Key { if k.tokenType.Jira? then k else k.(legacy := true) }

  /** The account data getUserToken decides on: the current key's, else the legacy key's. */
  function Effective(accountData: map<Key, Data>, k: Key): Option<Data> {
    if k in accountData then Some(accountData[k])
    else if LegacyKey(k) in accountData then Some(accountData[LegacyKey(k)])
    else None
  }

  function ReadToken(accountData: map<Key, Data>, k: Key): Option<Text> {
    var d := Effective(accountData, k);
    if d.None? || d.value.Deleted? then None else DecryptAll(d.value.encrypted)
  }

  function Apply(s: State, op: Op): (State, Outcome) {
    match op
    case Store(o, token, permitted, works) =>
      var k := CurrentKey(o);
      if !permitted then (s, Threw(Forbidden))
      else if k.Err? then (s, Threw(k.error))
      else if !works then (s, Threw(StorageFailed))
      else (State(s.accountData[k.value := Stored(EncryptAll(Parts(token)))], s.cache[k.value := token]), Done)
    case Clear(o, works) =>
      var k := CurrentKey(o);
      if k.Err? then (s, Threw(k.error))
      else if k.value !in s.accountData || s.accountData[k.value].Deleted? then (s, Cleared(false))
      else if !works then (s, Threw(StorageFailed))
      else (State(s.accountData[k.value := Deleted], s.cache - {k.value}), Cleared(true))
    case Get(o) =>
      var k := CurrentKey(o);
      if k.Err? then (s, Threw(k.error))
      else if k.value in s.cache && s.cache[k.value] != [] then (s, Token(Some(s.cache[k.value])))
      else
        var token := ReadToken(s.accountData, k.value);
        (if token.Some? then s.(cache := s.cache[k.value := token.value]) else s, Token(token))
    case Restart => (s.(cache := map[]), Done)
  }

  class AccountStore {
    var accountData: map<Key, Data>
    var userTokens: map<Key, Text>

    ghost function View(): State
      reads this
    {
      State(accountData, userTokens)
    }

    constructor (accountData: map<Key, Data>)
      ensures View() == State(accountData, map[])
    {
      this.accountData, userTokens := accountData, map[];
    }

    method StoreUserToken(o: Owner, token: Text, permitted: bool, works: bool) returns (r: Outcome)
      modifies this
      ensures (View(), r) == Apply(old(View()), Store(o, token, permitted, works))
    {
      if !permitted {
        return Threw(Forbidden);
      }
      var key := CurrentKey(o);
      if key.Err? {
        return Threw(key.error);
      }
      var tokenParts := CutAndEncrypt(token);
      if !works {
        return Threw(StorageFailed);
      }
      accountData := accountData[key.value := Stored(tokenParts)];
      userTokens := userTokens[key.value := token];
      return Done;
    }

    method ClearUserToken(o: Owner, works: bool) returns (r: Outcome)
      modifies this
      ensures (View(), r) == Apply(old(View()), Clear(o, works))
    {
      var key := CurrentKey(o);
      if key.Err? {
        return Threw(key.error);
      }
      if key.value !in accountData || accountData[key.value].Deleted? {
        return Cleared(false);
      }
      if !works {
        return Threw(StorageFailed);
      }
      accountData := accountData[key.value := Deleted];
      userTokens := userTokens - {key.value};
      return Cleared(true);
    }

    method GetUserToken(o: Owner) returns (r: Outcome)
      modifies this
      ensures (View(), r) == Apply(old(View()), Get(o))
    {
      var key := CurrentKey(o);
      if key.Err? {
        return Threw(key.error);
      }
      if key.value in userTokens && userTokens[key.value] != [] {
        return Token(Some(userTokens[key.value]));
      }
      var obj: Option<Data> := None;
      if key.value in accountData {
        obj := Some(accountData[key.value]);
      } else if LegacyKey(key.value) in accountData {
        obj := Some(accountData[LegacyKey(key.value)]);
      }
      if obj.None? || obj.value.Deleted? {
        return Token(None);
      }
      var token := DecryptAll(obj.value.encrypted);
      if token.Some? {
        userTokens := userTokens[key.value := token.value];
      }
      return Token(token);
    }
  }

  // ---------------------------------------------------------------- the abstract map

  /** What is known of one current key: a tombstone, or the token stored since the last restart,
      if any, and what outlives a restart. */
  datatype Slot = Held(live: Option<Text>, durable: Option<Text>) | Tombstone

  /** The store as a map from keys to tokens, above the legacy data, which never changes. */
  datatype Abstract = Abstract(slots: map<Key, Slot>, legacy: map<Key, Option<Text>>)

  predicate Live(slot: Slot) { slot.Held? && slot.live.Some? && slot.live.value != [] }

  function Lookup(a: Abstract, k: Key): Option<Text> {
    if k in a.slots then
      if Live(a.slots[k]) then a.slots[k].live else if a.slots[k].Held? then a.slots[k].durable else None
    else if LegacyKey(k) in a.legacy then a.legacy[LegacyKey(k)]
    else None
  }

  function Restarted(slots: map<Key, Slot>): map<Key, Slot> {
    map k | k in slots :: if slots[k].Held? then slots[k].(live := None) else Tombstone
  }

  function AbstractApply(a: Abstract, op: Op): (Abstract, Outcome) {
    match op
    case Store(o, token, permitted, works) =>
      var k := CurrentKey(o);
      if !permitted then (a, Threw(Forbidden))
      else if k.Err? then (a, Threw(k.error))
      else if !works then (a, Threw(StorageFailed))
      else (a.(slots := a.slots[k.value := Held(Some(token), Some(Readback(token)))]), Done)
    case Clear(o, works) =>
      var k := CurrentKey(o);
      if k.Err? then (a, Threw(k.error))
      else if k.value !in a.slots || a.slots[k.value].Tombstone? then (a, Cleared(false))
      else if !works then (a, Threw(StorageFailed))
      else (a.(slots := a.slots[k.value := Tombstone]), Cleared(true))
    case Get(o) =>
      var k := CurrentKey(o);
      if k.Err? then (a, Threw(k.error)) else (a, Token(Lookup(a, k.value)))
    case Restart => (a.(slots := Restarted(a.slots)), Done)
  }

  function SlotOf(d: Data): Slot {
    if d.Deleted? then Tombstone else Held(None, DecryptAll(d.encrypted))
  }

  /** The abstract map of account data right after a restart. */
  function Abstraction(accountData: map<Key, Data>): Abstract {
    Abstract(map k | k in accountData && !k.legacy :: SlotOf(accountData[k]),
             map k | k in accountData && k.legacy :: (if accountData[k].Deleted? then None else DecryptAll(accountData[k].encrypted)))
  }

  /** The account data is that of the map, and the cache agrees with the map. */
  ghost predicate Represents(s: State, a: Abstract) {
    && a.(slots := Restarted(a.slots)) == Abstraction(s.accountData)
    && CacheMatches(s.cache, a)
  }

  lemma LookupReads(s: State, a: Abstract, k: Key)
    requires Represents(s, a) && !k.legacy && !(k in s.cache && s.cache[k] != [])
    ensures Lookup(a, k) == ReadToken(s.accountData, k)
  {
    assert k in Restarted(a.slots) <==> k in a.slots;
    assert k in a.slots ==> Restarted(a.slots)[k] == SlotOf(s.accountData[k]);
  }

  lemma AbstractionUpdate(accountData: map<Key, Data>, k: Key, d: Data)
    requires !k.legacy
    ensures var a := Abstraction(accountData);
            Abstraction(accountData[k := d]) == a.(slots := a.slots[k := SlotOf(d)])
  {
    var a, a' := Abstraction(accountData), Abstraction(accountData[k := d]);
    assert a'.slots == a.slots[k := SlotOf(d)];
    assert a'.legacy == a.legacy;
  }

  /** Nothing but what is cached for `k` changes. */
  predicate SameBut(cache: map<Key, Text>, cache': map<Key, Text>, k: Key) {
    && (forall x :: x in cache' && x != k ==> x in cache && cache'[x] == cache[x])
    && (forall x :: x in cache && x != k ==> x in cache' && cache'[x] == cache[x])
  }

  lemma RestartedUpdate(slots: map<Key, Slot>, k: Key, slot: Slot)
    ensures Restarted(slots[k := slot])
            == Restarted(slots)[k := if slot.Held? then slot.(live := None) else Tombstone]
  {
  }

  /** A live token is cached, and whatever non-empty token is cached is what the map holds. */
  ghost predicate CacheMatches(cache: map<Key, Text>, a: Abstract) {
    && (forall k :: k in a.slots && Live(a.slots[k]) ==> k in cache && cache[k] == a.slots[k].live.value)
    && (forall k :: k in cache ==> !k.legacy)
    && (forall k :: k in cache && cache[k] != [] ==> Lookup(a, k) == Some(cache[k]))
  }

  lemma CacheFollows(cache: map<Key, Text>, cache': map<Key, Text>, a: Abstract, k: Key, slot: Slot)
    requires CacheMatches(cache, a) && !k.legacy && SameBut(cache, cache', k)
    requires k in cache' <==> slot.Held?
    requires slot.Held? ==> slot.live == Some(cache'[k])
    ensures CacheMatches(cache', a.(slots := a.slots[k := slot]))
  {
  }

  /** Writing one current key writes its slot. */
  lemma WriteRepresents(s: State, a: Abstract, k: Key, d: Data, slot: Slot, cache: map<Key, Text>)
    requires Represents(s, a) && !k.legacy && SameBut(s.cache, cache, k)
    requires SlotOf(d) == if slot.Held? then slot.(live := None) else slot
    requires k in cache <==> slot.Held?
    requires slot.Held? ==> slot.live == Some(cache[k])
    ensures Represents(State(s.accountData[k := d], cache), a.(slots := a.slots[k := slot]))
  {
    var a' := a.(slots := a.slots[k := slot]);
    AbstractionUpdate(s.accountData, k, d);
    RestartedUpdate(a.slots, k, slot);
    CacheFollows(s.cache, cache, a, k, slot);
  }

  ghost predicate Refines(s: State, a: Abstract, op: Op) {
    && Represents(Apply(s, op).0, AbstractApply(a, op).0)
    && Apply(s, op).1 == AbstractApply(a, op).1
  }

  lemma StoreRefines(s: State, a: Abstract, op: Op)
    requires Represents(s, a) && op.Store?
    ensures Refines(s, a, op)
  {
    var k := CurrentKey(op.owner);
    if k.Ok? && op.permitted && op.works {
      StoredDecrypts(op.token);
      var cache := s.cache[k.value := op.token];
      WriteRepresents(s, a, k.value, Stored(EncryptAll(Parts(op.token))), Held(Some(op.token), Some(Readback(op.token))), cache);
    }
  }

  lemma ClearRefines(s: State, a: Abstract, op: Op)
    requires Represents(s, a) && op.Clear?
    ensures Refines(s, a, op)
  {
    var k := CurrentKey(op.owner);
    if k.Ok? {
      assert k.value in Restarted(a.slots) <==> k.value in s.accountData;
      assert k.value in a.slots ==> Restarted(a.slots)[k.value] == SlotOf(s.accountData[k.value]);
      WriteRepresents(s, a, k.value, Deleted, Tombstone, s.cache - {k.value});
    }
  }

  /** One operation, on any token, returns what the abstract map returns and keeps to it. */
  lemma RefinesStep(s: State, a: Abstract, op: Op)
    requires Represents(s, a)
    ensures Refines(s, a, op)
  {
    match op
    case Store(_, _, _, _) => StoreRefines(s, a, op);
    case Clear(_, _) => ClearRefines(s, a, op);
    case Get(o) =>
      if CurrentKey(o).Ok? {
        var k := CurrentKey(o).value;
        if !(k in s.cache && s.cache[k] != []) {
          LookupReads(s, a, k);
        }
      }
    case Restart =>
      assert Restarted(Restarted(a.slots)) == Restarted(a.slots);
  }

  function Run(s: State, ops: seq<Op>): (State, seq<Outcome>)
    decreases ops
  {
    if ops == [] then (s, [])
    else
      var (s', r) := Apply(s, ops[0]);
      var (s'', rs) := Run(s', ops[1..]);
      (s'', [r] + rs)
  }

  function AbstractRun(a: Abstract, ops: seq<Op>): (Abstract, seq<Outcome>)
    decreases ops
  {
    if ops == [] then (a, [])
    else
      var (a', r) := AbstractApply(a, ops[0]);
      var (a'', rs) := AbstractRun(a', ops[1..]);
      (a'', [r] + rs)
  }

  lemma {:induction false} RunRefines(s: State, a: Abstract, ops: seq<Op>)
    requires Represents(s, a)
    ensures Run(s, ops).1 == AbstractRun(a, ops).1
    decreases ops
  {
    if ops != [] {
      RefinesStep(s, a, ops[0]);
      RunRefines(Apply(s, ops[0]).0, AbstractApply(a, ops[0]).0, ops[1..]);
    }
  }

  /** Any sequence of operations on any tokens, with failures and restarts, over any account
      data, returns exactly what the abstract map returns. */
  lemma StoreRefinesMap(accountData: map<Key, Data>, ops: seq<Op>)
    ensures Run(State(accountData, map[]), ops).1 == AbstractRun(Abstraction(accountData), ops).1
  {
    var a := Abstraction(accountData);
    assert Restarted(a.slots) == a.slots;
    RunRefines(State(accountData, map[]), a, ops);
  }

  /** Tokens that survive being stored. */
  predicate Survives(op: Op) {
    op.Store? ==> WellFormed(op.token) && NoPairSplit(op.token)
  }

  /** No live token differs from what outlives a restart. */
  ghost predicate Steady(a: Abstract) {
    forall k :: k in a.slots && Live(a.slots[k]) ==> a.slots[k].live == a.slots[k].durable
  }

  lemma RestartKeepsLookup(a: Abstract, k: Key)
    requires Steady(a)
    ensures Lookup(AbstractApply(a, Restart).0, k) == Lookup(a, k)
  {
  }

  /** If every stored token survives, restarts make no difference to any lookup, whatever was
      done before. */
  lemma {:induction false} RestartsAreInvisible(a: Abstract, ops: seq<Op>, k: Key)
    requires Steady(a) && forall i :: 0 <= i < |ops| ==> Survives(ops[i])
    ensures Steady(AbstractRun(a, ops).0)
    ensures Lookup(AbstractApply(AbstractRun(a, ops).0, Restart).0, k) == Lookup(AbstractRun(a, ops).0, k)
    decreases ops
  {
    if ops == [] {
      RestartKeepsLookup(a, k);
    } else {
      if ops[0].Store? {
        ReadbackIsIdentityIff(ops[0].token);
      }
      RestartsAreInvisible(AbstractApply(a, ops[0]).0, ops[1..], k);
    }
  }

  lemma AbstractCons(a: Abstract, op: Op, rest: seq<Op>)
    ensures AbstractRun(a, [op] + rest).1 == [AbstractApply(a, op).1] + AbstractRun(AbstractApply(a, op).0, rest).1
  {
    assert ([op] + rest)[1..] == rest;
  }

  /** A store, a get, a restart and another get. */
  function StoreThenRestart(o: Owner, token: Text): seq<Op> {
    [Store(o, token, true, true)] + ([Get(o)] + ([Restart] + ([Get(o)] + [])))
  }

  /** What the gets return before and after the restart: the same iff the token survives being
      stored. */
  lemma RestartShowsIff(accountData: map<Key, Data>, o: Owner, token: Text)
    requires CurrentKey(o).Ok?
    ensures Run(State(accountData, map[]), StoreThenRestart(o, token)).1
            == [Done, Token(Some(token)), Done, Token(Some(Readback(token)))]
    ensures Readback(token) == token <==> WellFormed(token) && NoPairSplit(token)
  {
    var a := Abstraction(accountData);
    var a1 := AbstractApply(a, Store(o, token, true, true)).0;
    var a2 := AbstractApply(a1, Restart).0;
    StoreRefinesMap(accountData, StoreThenRestart(o, token));
    ReadbackIsIdentityIff(token);
    AbstractCons(a, Store(o, token, true, true), [Get(o)] + ([Restart] + ([Get(o)] + [])));
    AbstractCons(a1, Get(o), [Restart] + ([Get(o)] + []));
    AbstractCons(a1, Restart, [Get(o)] + []);
    AbstractCons(a2, Get(o), []);
  }

  /** A token whose emoji straddles the first cut: 127 plain units, then a surrogate pair. */
  function StraddlingToken(): Text { seq(127, _ => 97) + [0xD83D, 0xDE00] }

  /** It reads back as itself until the next restart, and changed from then on. */
  lemma StraddlingTokenChanges(o: Owner)
    requires CurrentKey(o).Ok?
    ensures var t := StraddlingToken();
            exists t': Text :: t' != t &&
              Run(State(map[], map[]), StoreThenRestart(o, t)).1 == [Done, Token(Some(t)), Done, Token(Some(t'))]
  {
    var t := StraddlingToken();
    RestartShowsIff(map[], o, t);
    assert t[127] == 0xD83D && t[128] == 0xDE00;
    assert Readback(t) != t;
  }

  // ---------------------------------------------------------------- the key strings

  function Prefix(t: TokenType, legacy: bool): string {
    match t
    case GitHub => if legacy then "gk.bridgeas.matrix-github.password-store:" else "gk.bridgeas.github.password-store:"
    case GitLab =>
      if legacy then "gk.bridgeas.matrix-github.gitlab.password-store:" else "gk.bridgeas.gitlab.password-store:"
    case Jira => "gk.bridgeas.jira.password-store:"
  }

  function KeyString(k: Key): string { Prefix(k.tokenType, k.legacy) + (k.instance + k.user) }

  /** Does a server begin at k: is the first ':' there, and no '@' after it? */
  predicate ServerFrom(user: string, k: nat) {
    k < |user| && user[k] == ':' && ':' !in user[..k] && '@' !in user[k..]
  }

  /** A full Matrix user id, as far as keys are concerned: '@', a localpart, ':' and a server. */
  ghost predicate UserId(user: string) {
    user != "" && user[0] == '@' && exists k: nat :: ServerFrom(user, k)
  }

  /** Keys as tokenKey makes them. */
  ghost predicate Made(k: Key) {
    && (k.tokenType.Jira? ==> !k.legacy)
    && (!k.tokenType.GitLab? ==> k.instance == "")
    && UserId(k.user)
  }

  /** The URL `j` continues `i` with an '@' and no ':' after it. */
  predicate Extends(i: string, j: string) { i + "@" <= j && ':' !in j[|i|..] }

  /** One instance URL extends the other so. */
  predicate Clash(i: string, j: string) { Extends(i, j) || Extends(j, i) }

  /** The characters that tell the prefixes apart. */
  lemma PrefixMarks(t: TokenType, legacy: bool)
    ensures var p := Prefix(t, legacy);
            && |p| > 26
            && match t
               case Jira => p[12] == 'j'
               case GitHub => if legacy then p[12] == 'm' && p[26] == 'p' else p[12] == 'g' && p[15] == 'h'
               case GitLab => if legacy then p[12] == 'm' && p[26] == 'g' else p[12] == 'g' && p[15] == 'l'
  {
  }

  lemma PrefixesDiffer(t: TokenType, l: bool, a: string, t': TokenType, l': bool, b: string)
    requires Prefix(t, l) + a == Prefix(t', l') + b
    requires (t.Jira? ==> !l) && (t'.Jira? ==> !l')
    ensures t == t' && l == l'
  {
    var p, p' := Prefix(t, l), Prefix(t', l');
    PrefixMarks(t, l);
    PrefixMarks(t', l');
    assert (p + a)[12] == p[12] && (p' + b)[12] == p'[12];
    assert (p + a)[15] == p[15] && (p' + b)[15] == p'[15];
    assert (p + a)[26] == p[26] && (p' + b)[26] == p'[26];
  }

  /** An '@' inside a user id stands before its first ':'. */
  lemma NoColonBetween(u: string, n: nat)
    requires UserId(u) && n < |u| && u[n] == '@'
    ensures ':' !in u[..n]
  {
    var k: nat :| ServerFrom(u, k);
    assert forall l :: k <= l < |u| ==> u[l] == u[k..][l - k];
    assert forall l :: 0 <= l < n ==> u[..n][l] == u[..k][l];
  }

  lemma UserTellsInstance(i: string, u: string, j: string, v: string)
    requires i + u == j + v && |i| <= |j|
    requires UserId(u) && UserId(v)
    ensures (i == j && u == v) || Extends(i, j)
  {
    assert i == (i + u)[..|i|] == (j + v)[..|i|] == j[..|i|];
    assert (i + u)[|i|] == '@';
    assert u == (i + u)[|i|..] && v == (j + v)[|j|..];
    if |i| < |j| {
      assert (j + v)[|i|] == j[|i|];
      assert (i + u)[|j|] == u[|j| - |i|] && (j + v)[|j|] == v[0];
      NoColonBetween(u, |j| - |i|);
      assert u[..|j| - |i|] == (i + u)[|i|..|j|] == (j + v)[|i|..|j|] == j[|i|..];
    }
  }

  /** Different owners never share a key, so one user's token is never another's, unless two
      instances clash. */
  lemma KeysAreDistinct(k: Key, k': Key)
    requires Made(k) && Made(k') && !Clash(k.instance, k'.instance) && KeyString(k) == KeyString(k')
    ensures k == k'
  {
    PrefixesDiffer(k.tokenType, k.legacy, k.instance + k.user, k'.tokenType, k'.legacy, k'.instance + k'.user);
    var p := Prefix(k.tokenType, k.legacy);
    assert KeyString(k)[|p|..] == k.instance + k.user && KeyString(k')[|p|..] == k'.instance + k'.user;
    if |k.instance| <= |k'.instance| {
      UserTellsInstance(k.instance, k.user, k'.instance, k'.user);
    } else {
      UserTellsInstance(k'.instance, k'.user, k.instance, k.user);
    }
  }

  ghost predicate Collide(i: string, u: string, j: string, v: string) {
    UserId(u) && UserId(v) && KeyString(Key(GitLab, false, i, u)) == KeyString(Key(GitLab, false, j, v))
  }

  /** A user of the longer instance shares the key of the user named after what it adds. */
  lemma SharedKey(i: string, more: string, v: string)
    requires more != "" && more[0] == '@' && ':' !in more && UserId(v)
    ensures Clash(i, i + more) && Collide(i, more + v, i + more, v)
  {
    var k: nat :| ServerFrom(v, k);
    var u := more + v;
    assert u[..|more| + k] == more + v[..k] && u[|more| + k..] == v[k..];
    assert ServerFrom(u, |more| + k);
    assert (i + more)[|i|..] == more && i + "@" <= i + more;
    assert i + u == (i + more) + v;
  }

  lemma ExtensionIsExact(i: string, j: string)
    requires Extends(i, j)
    ensures j == i + j[|i|..] && j[|i|] == '@'
  {
    assert (i + "@")[|i|] == '@' && i == (i + "@")[..|i|];
  }

  /** Two gitlab instances can give two users one key iff their URLs clash, which the
      configuration alone tells. */
  lemma InstancesCollideIff(i: string, j: string)
    requires i != j
    ensures Clash(i, j) <==> exists u, v :: Collide(i, u, j, v)
  {
    var bob := "@b:h";
    assert ServerFrom(bob, 2);
    if Extends(i, j) {
      ExtensionIsExact(i, j);
      SharedKey(i, j[|i|..], bob);
    } else if Extends(j, i) {
      ExtensionIsExact(j, i);
      SharedKey(j, i[|j|..], bob);
      assert Collide(i, bob, j, i[|j|..] + bob);
    } else {
      forall u, v ensures !Collide(i, u, j, v) {
        if Collide(i, u, j, v) {
          KeysAreDistinct(Key(GitLab, false, i, u), Key(GitLab, false, j, v));
        }
      }
    }
  }

  /** Such a pair: one URL names the user "gitlab" on example.org, the other a host "gitlab". */
  lemma KeysCanCollide()
    ensures var host, more, alice := "https://gitlab", "@example.org", "@alice:matrix.org";
            Clash(host, host + more) && Collide(host, more + alice, host + more, alice)
  {
    assert ServerFrom("@alice:matrix.org", 6);
    SharedKey("https://gitlab", "@example.org", "@alice:matrix.org");
  }

  /** A ':' after the '@', as before a port, keeps the keys apart. */
  lemma PortKeepsApart(i: string, more: string, u: string, v: string)
    requires more != "" && ':' in more
    ensures !Collide(i, u, i + more, v)
  {
    assert (i + more)[|i|..] == more;
    assert !Clash(i, i + more);
    if Collide(i, u, i + more, v) {
      KeysAreDistinct(Key(GitLab, false, i, u), Key(GitLab, false, i + more, v));
    }
  }
}
