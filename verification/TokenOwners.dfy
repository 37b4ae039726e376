/**
  Whose token an operation touches: an owner is a kind of token, a user and, for gitlab, an
  instance, and no owner's operations show in another's.
 */
module TokenOwners {
  import opened Common
  import opened TokenStore

  predicate SameOwner(o: Owner, o': Owner) {
    o.tokenType == o'.tokenType && o.user == o'.user && (o.tokenType.GitLab? ==> o.instance == o'.instance)
  }

  /** Every owner has a key, except that a gitlab one must name an instance; and two owners have
      the same key iff they are the same. */
  lemma KeysAreOwners(o: Owner, o': Owner)
    ensures CurrentKey(o).Err? <==> o.tokenType.GitLab? && (o.instance.None? || o.instance == Some(""))
    ensures CurrentKey(o).Ok? && CurrentKey(o').Ok? ==> (CurrentKey(o) == CurrentKey(o') <==> SameOwner(o, o'))
  {
  }

  // ---------------------------------------------------------------- independence

  /** Does the operation store or clear a token of somebody else? */
  predicate Foreign(op: Op, o: Owner) {
    (op.Store? || op.Clear?) && !SameOwner(op.owner, o)
  }

  function Without(ops: seq<Op>, o: Owner): seq<Op> {
    if ops == [] then []
    else (if Foreign(ops[0], o) then [] else [ops[0]]) + Without(ops[1..], o)
  }

  predicate SameAt<V(==)>(m: map<Key, V>, m': map<Key, V>, k: Key) {
    (k in m <==> k in m') && (k in m ==> m[k] == m'[k])
  }

  /** The states agree on all that matters to the owner's gets. */
  predicate AgreeFor(s: State, s': State, o: Owner) {
    CurrentKey(o).Ok? ==>
      var k := CurrentKey(o).value;
      SameAt(s.accountData, s'.accountData, k) && SameAt(s.accountData, s'.accountData, LegacyKey(k))
      && SameAt(s.cache, s'.cache, k)
  }

  lemma ForeignChangesNothing(s: State, s': State, op: Op, o: Owner)
    requires AgreeFor(s, s', o) && Foreign(op, o)
    ensures AgreeFor(Apply(s, op).0, s', o)
  {
    KeysAreOwners(op.owner, o);
  }

  lemma StepAgrees(s: State, s': State, op: Op, o: Owner)
    requires AgreeFor(s, s', o)
    ensures AgreeFor(Apply(s, op).0, Apply(s', op).0, o)
  {
    if !op.Restart? {
      KeysAreOwners(op.owner, o);
    }
  }

  lemma GetsAgree(s: State, s': State, o: Owner)
    requires AgreeFor(s, s', o)
    ensures Apply(s, Get(o)).1 == Apply(s', Get(o)).1
  {
  }

  lemma {:induction false} RunsAgree(s: State, s': State, ops: seq<Op>, o: Owner)
    requires AgreeFor(s, s', o)
    ensures AgreeFor(Run(s, ops).0, Run(s', Without(ops, o)).0, o)
    decreases ops
  {
    if ops != [] {
      var rest := Without(ops[1..], o);
      if Foreign(ops[0], o) {
        assert Without(ops, o) == rest;
        ForeignChangesNothing(s, s', ops[0], o);
        RunsAgree(Apply(s, ops[0]).0, s', ops[1..], o);
      } else {
        assert Without(ops, o) == [ops[0]] + rest && ([ops[0]] + rest)[1..] == rest;
        StepAgrees(s, s', ops[0], o);
        RunsAgree(Apply(s, ops[0]).0, Apply(s', ops[0]).0, ops[1..], o);
      }
    }
  }

  /** Whatever is done to other owners' tokens, a get returns what it would have returned
      without it. */
  lemma OthersNeverShow(accountData: map<Key, Data>, ops: seq<Op>, o: Owner)
    ensures var s := State(accountData, map[]);
            Apply(Run(s, ops).0, Get(o)).1 == Apply(Run(s, Without(ops, o)).0, Get(o)).1
  {
    var s := State(accountData, map[]);
    RunsAgree(s, s, ops, o);
    GetsAgree(Run(s, ops).0, Run(s, Without(ops, o)).0, o);
  }

  // ---------------------------------------------------------------- stored, cleared, legacy

  /** Without current data, a get finds what the older naming of the same kind, instance and user
      holds; jira has no older naming. */
  lemma LegacyIsFound(accountData: map<Key, Data>, o: Owner, ciphers: seq<Cipher>)
    requires CurrentKey(o).Ok? && CurrentKey(o).value !in accountData
    requires var legacy := CurrentKey(o).value.(legacy := true);
             legacy in accountData && accountData[legacy] == Stored(ciphers)
    ensures Apply(State(accountData, map[]), Get(o)).1
            == Token(if o.tokenType.Jira? then None else DecryptAll(ciphers))
  {
  }

  /** A successful clear reports whether there was current data, and hides legacy data too. */
  lemma ClearHides(s: State, o: Owner)
    requires CurrentKey(o).Ok?
    ensures var k := CurrentKey(o).value;
            var (s', r) := Apply(s, Clear(o, true));
            && (r == Cleared(true) <==> k in s.accountData && s.accountData[k].Stored?)
            && (r == Cleared(true) ==> Apply(s', Get(o)).1 == Token(None))
            && (r != Cleared(true) ==> r == Cleared(false) && s' == s)
  {
  }

  /** A store works iff it is permitted, names an instance if one is needed, and the data can be
      written; then a get returns the token. */
  lemma StoreShows(s: State, o: Owner, token: Text, permitted: bool, works: bool)
    ensures var (s', r) := Apply(s, Store(o, token, permitted, works));
            && (r == Done <==> permitted && CurrentKey(o).Ok? && works)
            && (r == Done ==> Apply(s', Get(o)).1 == Token(Some(token)))
            && (r != Done ==> s' == s && r == Threw(if !permitted then Forbidden
                                                    else if CurrentKey(o).Err? then MissingInstance
                                                    else StorageFailed))
  {
    StoredDecrypts(token);
    ReadbackIsIdentityIff(token);
  }

  /** The account data types, as they are written. */
  lemma KeyStringsAre(user: string, instance: string)
    ensures KeyString(Key(GitHub, false, "", user)) == "gk.bridgeas.github.password-store:" + user
    ensures KeyString(Key(GitHub, true, "", user)) == "gk.bridgeas.matrix-github.password-store:" + user
    ensures KeyString(Key(Jira, false, "", user)) == "gk.bridgeas.jira.password-store:" + user
    ensures KeyString(Key(GitLab, false, instance, user)) == "gk.bridgeas.gitlab.password-store:" + instance + user
    ensures KeyString(Key(GitLab, true, instance, user))
            == "gk.bridgeas.matrix-github.gitlab.password-store:" + instance + user
  {
    assert "" + user == user;
    var a, b := "gk.bridgeas.gitlab.password-store:", "gk.bridgeas.matrix-github.gitlab.password-store:";
    assert a + instance + user == a + (instance + user) && b + instance + user == b + (instance + user);
  }

  /** Re-encoding changes nothing but lone surrogates, which it replaces by U+FFFD. */
  lemma {:induction false} RecodeReplaces(t: Text)
    ensures |Recode(t)| == |t| && WellFormed(Recode(t))
    ensures forall i :: 0 <= i < |t| ==> Recode(t)[i] == t[i] || (Recode(t)[i] == 0xFFFD && 0xD800 <= t[i] < 0xE000)
  {
    if t != [] {
      if High(t[0]) && |t| > 1 && Low(t[1]) {
        RecodeReplaces(t[2..]);
        assert Recode(t)[2..] == Recode(t[2..]);
      } else {
        RecodeReplaces(t[1..]);
        assert Recode(t)[1..] == Recode(t[1..]);
      }
    }
  }
}
