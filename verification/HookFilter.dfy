/**
  Turning an old list of ignored hooks into a list of enabled ones. A set is a sequence of
  distinct elements in insertion order, as the original's sets iterate.
 */
module HookFilter {
  // ---------------------------------------------------------------- specification

  /** Does ignoring `ignored` turn the hook off? It does for itself and for its children. */
  predicate Drops(ignored: string, hook: string) {
    hook == ignored || ignored + "." <= hook
  }

  /** Are all the names of an event missing from the enabled ones? */
  predicate Skips(enabledHooks: seq<string>, hookNames: seq<string>) {
    forall name :: name in hookNames ==> name !in enabledHooks
  }

  predicate Ignored(ignoredHooks: seq<string>, hook: string) {
    exists g :: g in ignoredHooks && Drops(g, hook)
  }

  /** The distinct elements, in order of first occurrence. */
  function Distinct(hooks: seq<string>): seq<string> {
    if hooks == [] then []
    else
      var d, last := Distinct(hooks[..|hooks| - 1]), hooks[|hooks| - 1];
      if last in d then d else d + [last]
  }

  function Keep(hooks: seq<string>, ignoredHooks: seq<string>): seq<string> {
    if hooks == [] then []
    else (if Ignored(ignoredHooks, hooks[0]) then [] else [hooks[0]]) + Keep(hooks[1..], ignoredHooks)
  }

  // ---------------------------------------------------------------- the functions

  /** Set.delete. */
  function Delete(hooks: seq<string>, hook: string): seq<string> {
    if hooks == [] then []
    else if hooks[0] == hook then hooks[1..]
    else [hooks[0]] + Delete(hooks[1..], hook)
  }

  predicate AllDistinct(hooks: seq<string>) {
    forall i, j :: 0 <= i < j < |hooks| ==> hooks[i] != hooks[j]
  }

  method ConvertIgnoredHooksToEnabledHooks(explicitlyEnabledHooks: seq<string>, ignoredHooks: seq<string>, defaultHooks: seq<string>)
    returns (resultHookSet: seq<string>)
    ensures resultHookSet == Keep(Distinct(explicitlyEnabledHooks + defaultHooks), ignoredHooks)
  {
    resultHookSet := Distinct(explicitlyEnabledHooks + defaultHooks);
    ghost var all := resultHookSet;
    DistinctIsDistinct(explicitlyEnabledHooks + defaultHooks);
    KeepWithoutIgnored(all);
    for i := 0 to |ignoredHooks|
      invariant resultHookSet == Keep(all, ignoredHooks[..i])
    {
      assert ignoredHooks[..i + 1] == ignoredHooks[..i] + [ignoredHooks[i]];
      KeepIsDistinct(all, ignoredHooks[..i]);
      KeepTwice(all, ignoredHooks[..i], ignoredHooks[i]);
      resultHookSet := RemoveHookAndChildren(resultHookSet, ignoredHooks[i]);
    }
    assert ignoredHooks[..|ignoredHooks|] == ignoredHooks;
  }

  /** One turn of the outer loop: delete the hook, then its children while iterating. */
  method RemoveHookAndChildren(hooks: seq<string>, ignored: string) returns (r: seq<string>)
    requires AllDistinct(hooks)
    ensures r == Keep(hooks, [ignored])
  {
    r := Delete(hooks, ignored);
    DeleteThenKeep(hooks, ignored);
    assert r[0..] == r;
    var i := 0;
    while i < |r|
      invariant 0 <= i <= |r|
      invariant Scanned(r, i, ignored) == Keep(hooks, [ignored])
      invariant ignored !in r
      decreases |r| - i
    {
      ScanStep(r, i, ignored);
      if ignored + "." <= r[i] {
        r := r[..i] + r[i + 1..];
      } else {
        i := i + 1;
      }
    }
    assert Scanned(r, i, ignored) == r + [];
  }

  /** What the scan returns once it stands at `i`. */
  ghost function Scanned(r: seq<string>, i: nat, ignored: string): seq<string>
    requires i <= |r|
  {
    r[..i] + Keep(r[i..], [ignored])
  }

  lemma ScanStep(r: seq<string>, i: nat, ignored: string)
    requires i < |r|
    ensures Drops(ignored, r[i]) ==> Scanned(r[..i] + r[i + 1..], i, ignored) == Scanned(r, i, ignored)
    ensures !Drops(ignored, r[i]) ==> Scanned(r, i + 1, ignored) == Scanned(r, i, ignored)
  {
    assert ignored in [ignored];
    assert Ignored([ignored], r[i]) <==> Drops(ignored, r[i]);
    var rest := Keep(r[i + 1..], [ignored]);
    assert r[i..][0] == r[i] && r[i..][1..] == r[i + 1..];
    if Drops(ignored, r[i]) {
      assert [] + rest == rest;
      var after := r[..i] + r[i + 1..];
      assert after[..i] == r[..i] && after[i..] == r[i + 1..];
    } else {
      assert r[..i + 1] == r[..i] + [r[i]];
      assert r[..i] + ([r[i]] + rest) == r[..i + 1] + rest;
    }
  }

  class Filter {
    var enabledHooks: seq<string>

    constructor (enabledHooks: seq<string>)
      ensures this.enabledHooks == enabledHooks
    {
      this.enabledHooks := enabledHooks;
    }

    /** True if all of the names are missing. */
    method ShouldSkip(hookNames: seq<string>) returns (skip: bool)
      ensures skip <==> Skips(enabledHooks, hookNames)
    {
      for i := 0 to |hookNames|
        invariant forall name :: name in hookNames[..i] ==> name !in enabledHooks
      {
        if hookNames[i] in enabledHooks {
          return false;
        }
      }
      assert hookNames[..|hookNames|] == hookNames;
      return true;
    }
  }

  // ---------------------------------------------------------------- lemmas

  lemma {:induction false} KeepWithoutIgnored(hooks: seq<string>)
    ensures Keep(hooks, []) == hooks
  {
    if hooks != [] {
      KeepWithoutIgnored(hooks[1..]);
    }
  }

  lemma {:induction false} KeepMember(hooks: seq<string>, ignoredHooks: seq<string>)
    ensures forall h :: h in Keep(hooks, ignoredHooks) <==> h in hooks && !Ignored(ignoredHooks, h)
  {
    if hooks != [] {
      KeepMember(hooks[1..], ignoredHooks);
    }
  }

  lemma {:induction false} KeepIsDistinct(hooks: seq<string>, ignoredHooks: seq<string>)
    requires AllDistinct(hooks)
    ensures AllDistinct(Keep(hooks, ignoredHooks))
  {
    if hooks != [] {
      KeepIsDistinct(hooks[1..], ignoredHooks);
      KeepMember(hooks[1..], ignoredHooks);
    }
  }

  lemma {:induction false} KeepTwice(hooks: seq<string>, a: seq<string>, g: string)
    ensures Keep(Keep(hooks, a), [g]) == Keep(hooks, a + [g])
  {
    if hooks != [] {
      var h, rest := hooks[0], Keep(hooks[1..], a);
      KeepTwice(hooks[1..], a, g);
      assert Ignored(a + [g], h) <==> Ignored(a, h) || Drops(g, h) by {
        assert g in a + [g] && g in [g];
      }
      assert Ignored([g], h) <==> Drops(g, h) by {
        assert g in [g];
      }
      if !Ignored(a, h) {
        assert ([h] + rest)[1..] == rest;
      } else {
        assert [] + rest == rest;
      }
    }
  }

  lemma {:induction false} DistinctIsDistinct(hooks: seq<string>)
    ensures AllDistinct(Distinct(hooks))
    ensures forall h :: h in Distinct(hooks) <==> h in hooks
  {
    if hooks != [] {
      DistinctIsDistinct(hooks[..|hooks| - 1]);
      assert hooks == hooks[..|hooks| - 1] + [hooks[|hooks| - 1]];
    }
  }

  lemma {:induction false} DeleteThenKeep(hooks: seq<string>, ignored: string)
    requires AllDistinct(hooks)
    ensures Keep(Delete(hooks, ignored), [ignored]) == Keep(hooks, [ignored])
    ensures ignored !in Delete(hooks, ignored)
    ensures forall h :: h in Delete(hooks, ignored) ==> h in hooks
  {
    if hooks != [] {
      assert Drops(ignored, ignored) && ignored in [ignored];
      if hooks[0] != ignored {
        DeleteThenKeep(hooks[1..], ignored);
        assert Delete(hooks, ignored)[1..] == Delete(hooks[1..], ignored);
      }
    }
  }

  function FirstIndex(hooks: seq<string>, h: string): nat {
    if hooks == [] || hooks[0] == h then 0 else 1 + FirstIndex(hooks[1..], h)
  }

  lemma {:induction false} FirstIndexIn(hooks: seq<string>, more: seq<string>, h: string)
    ensures h in hooks ==> FirstIndex(hooks, h) < |hooks| && FirstIndex(hooks + more, h) == FirstIndex(hooks, h)
    ensures h !in hooks ==> FirstIndex(hooks + more, h) == |hooks| + FirstIndex(more, h)
  {
    if hooks == [] {
      assert hooks + more == more;
    } else {
      assert (hooks + more)[1..] == hooks[1..] + more;
      FirstIndexIn(hooks[1..], more, h);
    }
  }

  /** The elements stand in the order of their first occurrence in `source`. */
  predicate InOrderOf(source: seq<string>, r: seq<string>) {
    forall i, j :: 0 <= i < j < |r| ==> FirstIndex(source, r[i]) < FirstIndex(source, r[j])
  }

  lemma {:induction false} DistinctInOrder(hooks: seq<string>)
    ensures InOrderOf(hooks, Distinct(hooks))
  {
    if hooks != [] {
      var n := |hooks| - 1;
      DistinctInOrder(hooks[..n]);
      DistinctIsDistinct(hooks[..n]);
      assert hooks == hooks[..n] + [hooks[n]];
      forall h ensures h in hooks[..n] ==> FirstIndex(hooks, h) == FirstIndex(hooks[..n], h) < n
               ensures h !in hooks[..n] ==> FirstIndex(hooks, h) >= n
      {
        FirstIndexIn(hooks[..n], [hooks[n]], h);
      }
      var d := Distinct(hooks[..n]);
      assert forall i :: 0 <= i < |d| ==> d[i] in hooks[..n];
    }
  }

  lemma {:induction false} KeepInOrder(source: seq<string>, hooks: seq<string>, ignoredHooks: seq<string>)
    requires InOrderOf(source, hooks)
    ensures InOrderOf(source, Keep(hooks, ignoredHooks))
  {
    if hooks != [] {
      assert forall i :: 0 <= i < |hooks[1..]| ==> hooks[1..][i] == hooks[i + 1];
      KeepInOrder(source, hooks[1..], ignoredHooks);
      KeepMember(hooks[1..], ignoredHooks);
      var r := Keep(hooks[1..], ignoredHooks);
      forall i | 0 <= i < |r| ensures FirstIndex(source, hooks[0]) < FirstIndex(source, r[i]) {
        assert r[i] in hooks[1..];
        var j :| 0 <= j < |hooks[1..]| && hooks[1..][j] == r[i];
        assert hooks[j + 1] == r[i];
      }
    }
  }

  /** The result is the enabled and default hooks that no ignored one turns off, each once, in
      order of first occurrence; a filter with it skips an event exactly if every name that is
      enabled or default is ignored. */
  lemma MigrationIsExact(enabled: seq<string>, ignoredHooks: seq<string>, defaults: seq<string>, names: seq<string>)
    ensures var r := Keep(Distinct(enabled + defaults), ignoredHooks);
            && (forall h :: h in r <==>
                  && (h in enabled || h in defaults)
                  && forall g :: g in ignoredHooks ==> h != g && !(g + "." <= h))
            && InOrderOf(enabled + defaults, r)
            && (Skips(r, names) <==>
                forall n :: n in names && (n in enabled || n in defaults) ==> Ignored(ignoredHooks, n))
  {
    DistinctIsDistinct(enabled + defaults);
    KeepMember(Distinct(enabled + defaults), ignoredHooks);
    DistinctInOrder(enabled + defaults);
    KeepInOrder(enabled + defaults, Distinct(enabled + defaults), ignoredHooks);
  }

  /** The order, and repetition, of the ignored list makes no difference. */
  lemma {:induction false} IgnoredOrderIsIrrelevant(hooks: seq<string>, a: seq<string>, b: seq<string>)
    requires forall g :: g in a <==> g in b
    ensures Keep(hooks, a) == Keep(hooks, b)
  {
    if hooks != [] {
      IgnoredOrderIsIrrelevant(hooks[1..], a, b);
      assert Ignored(a, hooks[0]) <==> Ignored(b, hooks[0]);
    }
  }
}
