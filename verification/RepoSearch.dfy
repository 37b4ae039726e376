/**
  Listing the repositories an installation can reach: page after page is fetched and filtered
  by an earlier search, until the pages, the total count or the result limit end it.
 */
module RepoSearch {
  import opened Common

  const MAX_RETURNED_TARGETS: nat := 10

  /** A page of the installation's repositories, by full name. */
  datatype Page = Page(repositories: seq<string>, totalCount: nat)

  /** The search done first: what it counted, and the first names it gave. */
  datatype Search = Search(totalCount: nat, names: seq<string>)

  // ---------------------------------------------------------------- specification

  /** The repositories of the first k pages. */
  function Joined(pages: nat -> Page, k: nat): seq<string> {
    if k == 0 then [] else Joined(pages, k - 1) + pages(k - 1).repositories
  }

  function Wanted(repos: seq<string>, names: Option<seq<string>>): seq<string> {
    if repos == [] then []
    else
      Wanted(repos[..|repos| - 1], names)
      + if names.None? || repos[|repos| - 1] in names.value then [repos[|repos| - 1]] else []
  }

  function Limit(names: Option<seq<string>>): nat {
    if names.Some? then |names.value| else MAX_RETURNED_TARGETS
  }

  /** Is there nothing on the page after the first k? */
  predicate Exhausted(pages: nat -> Page, k: nat) { pages(k).repositories == [] }

  /** Do the first k pages bring in all that the last of them counts? */
  predicate Counted(pages: nat -> Page, k: nat) {
    0 < k && |Joined(pages, k)| >= pages(k - 1).totalCount
  }

  /** Do the first k pages hold enough wanted repositories? */
  predicate Enough(pages: nat -> Page, k: nat, names: Option<seq<string>>) {
    0 < k && |Wanted(Joined(pages, k), names)| >= Limit(names)
  }

  predicate Stops(pages: nat -> Page, k: nat, names: Option<seq<string>>) {
    Exhausted(pages, k) || Counted(pages, k) || Enough(pages, k, names)
  }

  // ---------------------------------------------------------------- the method

  /** `pages` answers every request, the first being number 0. Nothing makes it run out, but no
      answer counts more than `most`, and that ends the loop. `k` is how many pages were taken:
      the first number at which the loop stops. */
  method SearchInstallationForRepos(search: Option<Search>, pages: nat -> Page, ghost most: nat)
    returns (foundRepos: seq<string>, k: nat)
    requires forall i: nat :: pages(i).totalCount <= most
    ensures search.Some? && search.value.totalCount == 0 ==> foundRepos == [] && k == 0
    ensures var names := if search.Some? then Some(search.value.names) else None;
            !(search.Some? && search.value.totalCount == 0) ==>
              && foundRepos == Wanted(Joined(pages, k), names)
              && Stops(pages, k, names) && forall j: nat :: j < k ==> !Stops(pages, j, names)
    ensures k <= most + 1
  {
    var searchRepos: Option<seq<string>> := None;
    foundRepos, k := [], 0;
    if search.Some? {
      if search.value.totalCount == 0 {
        return;
      }
      searchRepos := Some(search.value.names);
    }
    var installationsCount, totalCount, page := 0, 0, 1;
    var again := true;
    while again
      invariant page == k + 1
      invariant k <= installationsCount == |Joined(pages, k)|
      invariant foundRepos == Wanted(Joined(pages, k), searchRepos)
      invariant k > 0 ==> totalCount == pages(k - 1).totalCount
      invariant again == !(Counted(pages, k) || Enough(pages, k, searchRepos))
      invariant k > 0 && again ==> installationsCount < totalCount
      invariant k <= most + 1
      invariant NotBefore(pages, k, searchRepos)
      decreases if k == 0 then most + 1 else most - installationsCount, again
    {
      var data := pages(page - 1);
      if |data.repositories| == 0 {
        break;
      }
      OnePageMore(pages, k, searchRepos);
      NotBeforeNext(pages, k, searchRepos);
      page := page + 1;
      k := k + 1;
      installationsCount := installationsCount + |data.repositories|;
      totalCount := data.totalCount;
      foundRepos := foundRepos + Wanted(data.repositories, searchRepos);
      var limit := if searchRepos.Some? then |searchRepos.value| else MAX_RETURNED_TARGETS;
      again := installationsCount < totalCount && |foundRepos| < limit;
    }
  }

  lemma OnePageMore(pages: nat -> Page, k: nat, names: Option<seq<string>>)
    ensures |Joined(pages, k + 1)| == |Joined(pages, k)| + |pages(k).repositories|
    ensures Wanted(Joined(pages, k + 1), names) == Wanted(Joined(pages, k), names) + Wanted(pages(k).repositories, names)
  {
    WantedJoined(Joined(pages, k), pages(k).repositories, names);
  }

  /** No number of pages below k stops the loop. */
  ghost predicate NotBefore(pages: nat -> Page, k: nat, names: Option<seq<string>>) {
    forall j: nat :: j < k ==> !Stops(pages, j, names)
  }

  lemma NotBeforeNext(pages: nat -> Page, k: nat, names: Option<seq<string>>)
    requires NotBefore(pages, k, names)
    requires !Exhausted(pages, k) && !Counted(pages, k) && !Enough(pages, k, names)
    ensures NotBefore(pages, k + 1, names)
  {
  }

  lemma {:induction false} WantedJoined(a: seq<string>, b: seq<string>, names: Option<seq<string>>)
    ensures Wanted(a + b, names) == Wanted(a, names) + Wanted(b, names)
  {
    if b == [] {
      assert a + b == a;
    } else {
      assert (a + b)[..|a + b| - 1] == a + b[..|b| - 1];
      WantedJoined(a, b[..|b| - 1], names);
    }
  }

  predicate IsWanted(repo: string, names: Option<seq<string>>) {
    match names case Some(n) => repo in n case None => true
  }

  /** `picked` lists in increasing order exactly the positions of wanted repositories. */
  ghost predicate PicksWanted(picked: seq<nat>, repos: seq<string>, names: Option<seq<string>>) {
    && (forall i, j :: 0 <= i < j < |picked| ==> picked[i] < picked[j])
    && (forall k :: 0 <= k < |picked| ==> picked[k] < |repos|)
    && (forall i :: i in picked <==> 0 <= i < |repos| && IsWanted(repos[i], names))
  }

  /** What is wanted: in order, every repository, or those that the search named. */
  lemma {:induction false} WantedAre(repos: seq<string>, names: Option<seq<string>>) returns (picked: seq<nat>)
    ensures PicksWanted(picked, repos, names)
    ensures Wanted(repos, names) == At(repos, picked)
  {
    if repos == [] {
      return [];
    }
    var last := |repos| - 1;
    picked := WantedAre(repos[..last], names);
    AtOneMore(repos, picked);
    PicksOneMore(picked, repos, names);
    if IsWanted(repos[last], names) {
      picked := picked + [last];
    }
  }

  lemma PicksOneMore(picked: seq<nat>, repos: seq<string>, names: Option<seq<string>>)
    requires repos != [] && PicksWanted(picked, repos[..|repos| - 1], names)
    ensures PicksWanted(if IsWanted(repos[|repos| - 1], names) then picked + [|repos| - 1] else picked, repos, names)
  {
    var last := |repos| - 1;
    var more := if IsWanted(repos[last], names) then picked + [last] else picked;
    forall i: nat ensures i in more <==> i in picked || (i == last && IsWanted(repos[last], names)) {
    }
    assert forall i :: 0 <= i < last ==> repos[..last][i] == repos[i];
  }

  /** Without a search the loop goes on until ten repositories are found, or all are read. */
  lemma LimitIs(pages: nat -> Page, k: nat, names: Option<seq<string>>)
    ensures Stops(pages, k, names) <==>
              || pages(k).repositories == []
              || (k > 0 && |Joined(pages, k)| >= pages(k - 1).totalCount)
              || (k > 0 && |Wanted(Joined(pages, k), names)| >= match names case Some(n) => |n| case None => 10)
  {
  }

  // ---------------------------------------------------------------- with a correct count

  /** A fixed collection of `total` repositories on `last` pages: none of those is empty, those
      after are, and each answer counts everything. */
  predicate Serves(pages: nat -> Page, k: nat, last: nat, total: nat) {
    (k < last <==> pages(k).repositories != []) && pages(k).totalCount == total
  }

  ghost predicate Consistent(pages: nat -> Page, last: nat) {
    forall k: nat :: Serves(pages, k, last, |Joined(pages, last)|)
  }

  lemma {:induction false} JoinedGrows(pages: nat -> Page, last: nat, k: nat, n: nat)
    requires Consistent(pages, last) && k < n <= last
    ensures |Joined(pages, k)| < |Joined(pages, n)|
  {
    assert Serves(pages, n - 1, last, |Joined(pages, last)|);
    if k < n - 1 {
      JoinedGrows(pages, last, k, n - 1);
    }
  }

  /** With a correct total count the loop ends early only by the result limit; else it has read
      exactly the pages there are, and misses no wanted repository. */
  lemma StopsOnlyWhenDone(pages: nat -> Page, last: nat, k: nat, names: Option<seq<string>>)
    requires Consistent(pages, last)
    requires Stops(pages, k, names) && forall j: nat :: j < k ==> !Stops(pages, j, names)
    ensures Enough(pages, k, names) || k == last
    ensures !Enough(pages, k, names) ==> Wanted(Joined(pages, k), names) == Wanted(Joined(pages, last), names)
  {
    assert Serves(pages, last, last, |Joined(pages, last)|);
    assert Stops(pages, last, names);
    if k < last {
      assert Serves(pages, k, last, |Joined(pages, last)|);
      assert k > 0 ==> Serves(pages, k - 1, last, |Joined(pages, last)|);
      JoinedGrows(pages, last, k, last);
    }
  }

  /** The result, whatever ends the loop, is a prefix of the wanted repositories of any number
      of pages. */
  lemma {:induction false} FoundIsWantedPrefix(pages: nat -> Page, k: nat, n: nat, names: Option<seq<string>>)
    requires k <= n
    ensures Wanted(Joined(pages, k), names) <= Wanted(Joined(pages, n), names)
  {
    if k < n {
      FoundIsWantedPrefix(pages, k, n - 1, names);
      WantedJoined(Joined(pages, n - 1), pages(n - 1).repositories, names);
    }
  }
}
