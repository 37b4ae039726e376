/**
  What holds over any number of polls: what is emitted and how often, how long a guid is
  remembered, when a feed counts as failing, and when a conditional fetch can hide entries.
 */
module FeedHistory {
  import opened Common
  import opened FeedPoll

  function Exec(s: State, run: seq<Poll>): State {
    if run == [] then s else Apply(Exec(s, run[..|run| - 1]), run[|run| - 1])
  }

  // ---------------------------------------------------------------- one poll

  predicate New(item: Item, seen: seq<string>) {
    item.hashId.Some? && item.hashId.value != "" && "md5:" + item.hashId.value !in seen
  }

  /** `picked` lists in increasing order exactly the positions whose items are new. */
  ghost predicate PicksNew(picked: seq<nat>, items: seq<Item>, seen: seq<string>) {
    && (forall i, j :: 0 <= i < j < |picked| ==> picked[i] < picked[j])
    && (forall i :: 0 <= i < |picked| ==> picked[i] < |items|)
    && (forall i :: i in picked <==> 0 <= i < |items| && New(items[i], seen))
  }

  lemma {:induction false} UnseenPicksNew(items: seq<Item>, seen: seq<string>) returns (picked: seq<nat>)
    ensures PicksNew(picked, items, seen) && Unseen(items, seen) == At(items, picked)
  {
    if items == [] {
      return [];
    }
    var last := |items| - 1;
    picked := UnseenPicksNew(items[..last], seen);
    UnseenAppend(items[..last], items[last], seen);
    assert items == items[..last] + [items[last]];
    var more := if New(items[last], seen) then picked + [last] else picked;
    assert At(items, more) == At(items[..last], picked) + if New(items[last], seen) then [items[last]] else [];
    PicksOneMore(picked, items, seen, more);
    picked := more;
  }

  lemma PicksOneMore(picked: seq<nat>, items: seq<Item>, seen: seq<string>, more: seq<nat>)
    requires items != [] && PicksNew(picked, items[..|items| - 1], seen)
    requires more == if New(items[|items| - 1], seen) then picked + [|items| - 1] else picked
    ensures PicksNew(more, items, seen)
  {
    forall i: nat ensures i in more <==> i in picked || (i == |items| - 1 && New(items[i], seen)) {
    }
  }

  lemma {:induction false} UnseenAppend(items: seq<Item>, item: Item, seen: seq<string>)
    ensures Unseen(items + [item], seen) == Unseen(items, seen) + (if New(item, seen) then [item] else [])
  {
    if items == [] {
      assert items + [item] == [item];
    } else {
      UnseenAppend(items[1..], item, seen);
      assert (items + [item])[1..] == items[1..] + [item];
    }
  }

  /** A successful poll of a known feed emits exactly the items that have a hash storage does
      not hold, in feed order, then reports success; a first sync emits nothing. */
  lemma EmissionIsExact(s: State, p: Poll) returns (picked: seq<nat>)
    requires Succeeds(s, p) && p.fetch.feed.Some?
    ensures p.url in s.feedGuids ==>
              && PicksNew(picked, p.fetch.feed.value, s.feedGuids[p.url])
              && Apply(s, p).pushed
                 == s.pushed
                    + seq(|picked|, i requires 0 <= i < |picked| => FeedEntry(p.url, p.fetch.feed.value[picked[i]]))
                    + [FeedSuccess(p.url)]
    ensures p.url !in s.feedGuids ==> Apply(s, p).pushed == s.pushed + [FeedSuccess(p.url)]
  {
    var items := p.fetch.feed.value;
    picked := UnseenPicksNew(items, Stored(s, p.url));
    AllChecksPass(items, Stored(s, p.url), None);
    if p.url in s.feedGuids {
      if p.fault.AtCheck? {
        AllChecksPass(items, Stored(s, p.url), Checks(p.fault));
      }
      assert Entries(p.url, At(items, picked))
             == seq(|picked|, i requires 0 <= i < |picked| => FeedEntry(p.url, items[picked[i]]));
    } else {
      assert Entries(p.url, []) == [] && s.pushed + [] == s.pushed;
    }
  }

  predicate HasHash(item: Item) { item.hashId.Some? && item.hashId.value != "" }

  /** `picked` lists in increasing order exactly the positions of items with a hash. */
  ghost predicate PicksHashed(picked: seq<nat>, items: seq<Item>) {
    && (forall i, j :: 0 <= i < j < |picked| ==> picked[i] < picked[j])
    && (forall k :: 0 <= k < |picked| ==> picked[k] < |items|)
    && (forall i :: i in picked <==> 0 <= i < |items| && HasHash(items[i]))
  }

  function Prefixed(items: seq<Item>): seq<string>
    requires forall i :: 0 <= i < |items| ==> HasHash(items[i])
  {
    seq(|items|, i requires 0 <= i < |items| && HasHash(items[i]) => "md5:" + items[i].hashId.value)
  }

  lemma PrefixedOneMore(items: seq<Item>, item: Item)
    requires HasHash(item) && forall i :: 0 <= i < |items| ==> HasHash(items[i])
    ensures Prefixed(items + [item]) == Prefixed(items) + ["md5:" + item.hashId.value]
  {
  }

  lemma HashesSnoc(items: seq<Item>)
    requires items != []
    ensures var last := items[|items| - 1];
            Hashes(items) == Hashes(items[..|items| - 1]) + if HasHash(last) then ["md5:" + last.hashId.value] else []
  {
    HashesAppend(items[..|items| - 1], items[|items| - 1]);
    assert items == items[..|items| - 1] + [items[|items| - 1]];
  }

  /** The guids of a page: one for each item with a non-empty hash, in feed order. */
  lemma {:induction false} HashesAre(items: seq<Item>) returns (picked: seq<nat>)
    ensures PicksHashed(picked, items)
    ensures forall i :: 0 <= i < |picked| ==> HasHash(At(items, picked)[i])
    ensures Hashes(items) == Prefixed(At(items, picked))
  {
    if items == [] {
      return [];
    }
    var last := |items| - 1;
    picked := HashesAre(items[..last]);
    HashesSnoc(items);
    AtOneMore(items, picked);
    HashedOneMore(picked, items);
    if HasHash(items[last]) {
      PrefixedOneMore(At(items, picked), items[last]);
      picked := picked + [last];
    }
  }

  lemma HashedOneMore(picked: seq<nat>, items: seq<Item>)
    requires items != [] && PicksHashed(picked, items[..|items| - 1])
    ensures PicksHashed(if HasHash(items[|items| - 1]) then picked + [|items| - 1] else picked, items)
  {
    var last := |items| - 1;
    var more := if HasHash(items[last]) then picked + [last] else picked;
    forall i: nat ensures i in more <==> i in picked || (i == last && HasHash(items[last])) {
    }
    assert forall i :: 0 <= i < last ==> items[..last][i] == items[i];
  }

  lemma {:induction false} HashesAppend(items: seq<Item>, item: Item)
    ensures Hashes(items + [item]) == Hashes(items) + (if Truthy(item.hashId) then [Guid(item.hashId.value)] else [])
  {
    if items == [] {
      assert items + [item] == [item];
    } else {
      HashesAppend(items[1..], item);
      assert (items + [item])[1..] == items[1..] + [item];
    }
  }

  /** Different hashes have different guids. */
  lemma GuidsDiffer(h: string, h': string)
    requires Guid(h) == Guid(h')
    ensures h == h'
  {
    assert h == Guid(h)[4..] && h' == Guid(h')[4..];
  }

  lemma {:induction false} SomethingUnseen(items: seq<Item>, seen: seq<string>)
    ensures Unseen(items, seen) != [] <==> exists guid :: guid in Hashes(items) && guid !in seen
  {
    if items != [] {
      var first := if Truthy(items[0].hashId) then [Guid(items[0].hashId.value)] else [];
      assert Hashes(items) == first + Hashes(items[1..]);
      SomethingUnseen(items[1..], seen);
      if Truthy(items[0].hashId) && first[0] !in seen {
        assert first[0] in Hashes(items);
      }
    }
  }

  /** A poll reports failure iff the fetch failed or a storage call it came to threw: the lookup
      of the feed, check k of a known feed whose page has more than k guids, or storing when there
      was something to store. */
  lemma OutcomeIff(s: State, p: Poll)
    ensures var after := Apply(s, p);
            var items := if p.fetch.Fetched? && p.fetch.feed.Some? then p.fetch.feed.value else [];
            var failed :=
              || p.fetch.Failed?
              || p.fault.AtLookup?
              || (p.fault.AtCheck? && p.url in s.feedGuids && p.fault.k < |Hashes(items)|)
              || (p.fault.AtStore? && Hashes(items) != []
                  && (p.url !in s.feedGuids || exists g :: g in Hashes(items) && g !in s.feedGuids[p.url]));
            && after.pushed != []
            && after.pushed[|after.pushed| - 1] == (if failed then FeedError(p.url) else FeedSuccess(p.url))
            && (failed ==> after.feedGuids == s.feedGuids)
            && (!failed ==> after.failingHttp == s.failingHttp - {p.url} && after.failingParsing == s.failingParsing - {p.url})
            && (failed && p.fetch.Failed? && p.fetch.dueToHttp ==>
                  after.failingHttp == s.failingHttp + {p.url} && after.failingParsing == s.failingParsing)
            && (failed && !(p.fetch.Failed? && p.fetch.dueToHttp) ==>
                  after.failingHttp == s.failingHttp && after.failingParsing == s.failingParsing + {p.url})
  {
    if p.fetch.Fetched? && p.fetch.feed.Some? {
      SomethingUnseen(p.fetch.feed.value, Stored(s, p.url));
    }
  }

  /** An answer 304 is a success that emits and stores nothing. */
  lemma NotModifiedSucceeds(s: State, p: Poll)
    requires p.fetch.Fetched? && p.fetch.feed.None? && !p.fault.AtLookup?
    ensures Apply(s, p).pushed == s.pushed + [FeedSuccess(p.url)]
    ensures Apply(s, p).feedGuids == s.feedGuids
    ensures p.url !in Apply(s, p).failingHttp && p.url !in Apply(s, p).failingParsing
  {
    assert Entries(p.url, []) == [] && s.pushed + [] == s.pushed;
  }

  /** What is stored after a successful poll with something to store: the page's guids in front
      of the old ones, cut to the newest ten thousand. */
  lemma StoredList(s: State, p: Poll)
    requires Succeeds(s, p) && p.fetch.feed.Some? && Hashes(p.fetch.feed.value) != []
    requires p.url !in s.feedGuids || exists g :: g in Hashes(p.fetch.feed.value) && g !in s.feedGuids[p.url]
    ensures var all := Hashes(p.fetch.feed.value) + if p.url in s.feedGuids then s.feedGuids[p.url] else [];
            Apply(s, p).feedGuids == s.feedGuids[p.url := if |all| > 10_000 then all[..10_000] else all]
  {
    SomethingUnseen(p.fetch.feed.value, Stored(s, p.url));
  }

  /** Every poll ends with exactly one outcome, after entries only. */
  lemma OneOutcome(s: State, p: Poll)
    ensures var after := Apply(s, p).pushed[|s.pushed|..];
            && s.pushed <= Apply(s, p).pushed
            && after != []
            && after[|after| - 1] == (if Succeeds(s, p) then FeedSuccess(p.url) else FeedError(p.url))
            && forall i :: 0 <= i < |after| - 1 ==> after[i].FeedEntry? && after[i].url == p.url
  {
    var outcome := if Succeeds(s, p) then FeedSuccess(p.url) else FeedError(p.url);
    var entries := Entries(p.url, Emission(s, p));
    assert Apply(s, p).pushed == s.pushed + (entries + [outcome]);
    assert Apply(s, p).pushed[|s.pushed|..] == entries + [outcome];
  }

  // ---------------------------------------------------------------- failing feeds

  predicate Failing(s: State, url: string) { url in s.failingHttp || url in s.failingParsing }

  /** Did the last poll of `url` in the run fail? Before any, whatever held at the start. */
  predicate LastPollFailed(s: State, run: seq<Poll>, url: string) {
    if run == [] then Failing(s, url)
    else
      var before := run[..|run| - 1];
      if run[|run| - 1].url == url then !Succeeds(Exec(s, before), run[|run| - 1])
      else LastPollFailed(s, before, url)
  }

  /** On every run, a feed counts as failing iff its last completed poll failed. */
  lemma {:induction false} FailingIffLastFailed(s: State, run: seq<Poll>, url: string)
    ensures Failing(Exec(s, run), url) <==> LastPollFailed(s, run, url)
  {
    if run != [] {
      FailingIffLastFailed(s, run[..|run| - 1], url);
    }
  }

  /** The i-th poll of the run is of `url` and succeeds. */
  predicate SucceedsAt(s: State, run: seq<Poll>, url: string, i: nat) {
    i < |run| && run[i].url == url && Succeeds(Exec(s, run[..i]), run[i])
  }

  /** The i-th poll of the run is of `url` and fails, by HTTP or otherwise. */
  predicate FailsAt(s: State, run: seq<Poll>, url: string, http: bool, i: nat) {
    && i < |run| && run[i].url == url && !Succeeds(Exec(s, run[..i]), run[i])
    && (run[i].fetch.Failed? && run[i].fetch.dueToHttp) == http
  }

  ghost predicate NoSuccessFrom(s: State, run: seq<Poll>, url: string, i: nat) {
    forall j: nat :: i <= j ==> !SucceedsAt(s, run, url, j)
  }

  /** Some poll of `url` fails in this way and none after it succeeds; or the feed was failing so
      from the start and none succeeds at all. */
  ghost predicate FailedSince(s: State, run: seq<Poll>, url: string, http: bool) {
    || (exists i: nat :: FailsAt(s, run, url, http, i) && NoSuccessFrom(s, run, url, i))
    || ((if http then url in s.failingHttp else url in s.failingParsing) && NoSuccessFrom(s, run, url, 0))
  }

  lemma PrefixOutcomes(s: State, before: seq<Poll>, p: Poll, url: string, http: bool)
    ensures forall i: nat :: SucceedsAt(s, before + [p], url, i)
              <==> SucceedsAt(s, before, url, i) || (i == |before| && p.url == url && Succeeds(Exec(s, before), p))
    ensures forall i: nat :: FailsAt(s, before + [p], url, http, i)
              <==> FailsAt(s, before, url, http, i)
                   || (i == |before| && p.url == url && !Succeeds(Exec(s, before), p)
                       && (p.fetch.Failed? && p.fetch.dueToHttp) == http)
  {
    var run := before + [p];
    assert run[..|before|] == before;
    forall i: nat | i < |before| ensures run[..i] == before[..i] && run[i] == before[i] {
    }
  }

  lemma FailedSinceStep(s: State, before: seq<Poll>, p: Poll, url: string, http: bool)
    ensures FailedSince(s, before + [p], url, http) <==>
              if p.url != url then FailedSince(s, before, url, http)
              else !Succeeds(Exec(s, before), p)
                   && ((p.fetch.Failed? && p.fetch.dueToHttp) == http || FailedSince(s, before, url, http))
  {
    var run := before + [p];
    PrefixOutcomes(s, before, p, url, http);
    if p.url == url && Succeeds(Exec(s, before), p) {
      assert SucceedsAt(s, run, url, |before|);
    } else {
      assert forall i: nat :: NoSuccessFrom(s, run, url, i) <==> NoSuccessFrom(s, before, url, i);
      if p.url == url && (p.fetch.Failed? && p.fetch.dueToHttp) == http {
        assert FailsAt(s, run, url, http, |before|) && NoSuccessFrom(s, run, url, |before|);
      }
    }
  }

  /** On every run each failing set holds the feeds with a failure of its kind and no success
      since, so a feed can be in both. */
  lemma {:induction false} FailingKinds(s: State, run: seq<Poll>, url: string)
    ensures url in Exec(s, run).failingHttp <==> FailedSince(s, run, url, true)
    ensures url in Exec(s, run).failingParsing <==> FailedSince(s, run, url, false)
  {
    if run != [] {
      var before, p := run[..|run| - 1], run[|run| - 1];
      FailingKinds(s, before, url);
      assert run == before + [p];
      FailedSinceStep(s, before, p, url, true);
      FailedSinceStep(s, before, p, url, false);
    }
  }

  // ---------------------------------------------------------------- cache headers

  /** The newest response to `url` that had a header worth caching, as an index of the run. */
  predicate LastHeader(run: seq<Poll>, url: string, i: nat) {
    && i < |run| && run[i].url == url && HasHeader(run[i].fetch)
    && forall j :: i < j < |run| && run[j].url == url ==> !HasHeader(run[j].fetch)
  }

  lemma CacheStep(s: State, p: Poll, url: string)
    ensures var cached := Apply(s, p).cacheTimes;
            if p.url == url && HasHeader(p.fetch) then
              url in cached && cached[url] == if NonEmpty(p.fetch.etag) then ByEtag(p.fetch.etag.value)
                                              else ByDate(p.fetch.lastModified.value)
            else (url in cached <==> url in s.cacheTimes) && (url in cached ==> cached[url] == s.cacheTimes[url])
  {
  }

  /** What is sent with the next fetch comes from the newest response that had a header, the
      etag if it had one, whatever became of that poll; without one nothing changes. */
  lemma {:induction false} CacheIsLastHeader(s: State, run: seq<Poll>, url: string, i: nat)
    ensures var cached := Exec(s, run).cacheTimes;
            && (LastHeader(run, url, i) ==>
                  && url in cached
                  && cached[url] == if NonEmpty(run[i].fetch.etag) then ByEtag(run[i].fetch.etag.value)
                                    else ByDate(run[i].fetch.lastModified.value))
            && ((forall j :: 0 <= j < |run| && run[j].url == url ==> !HasHeader(run[j].fetch)) ==>
                  && (url in cached <==> url in s.cacheTimes)
                  && (url in cached ==> cached[url] == s.cacheTimes[url]))
  {
    if run != [] {
      var before, p := run[..|run| - 1], run[|run| - 1];
      CacheIsLastHeader(s, before, url, i);
      CacheStep(Exec(s, before), p, url);
      assert forall l :: 0 <= l < |before| ==> run[l] == before[l];
    }
  }

  // ---------------------------------------------------------------- what storage remembers

  lemma {:induction false} SeenIsNotEmitted(items: seq<Item>, seen: seq<string>, checks: Option<nat>, guid: string)
    requires guid in seen
    ensures Count(EmittedFrom(items, seen, checks), guid) == 0
  {
    if items != [] {
      var rest := EmittedFrom(items[1..], seen, if Truthy(items[0].hashId) then Less(checks) else checks);
      SeenIsNotEmitted(items[1..], seen, if Truthy(items[0].hashId) then Less(checks) else checks, guid);
      assert [items[0]] + rest == [items[0]] + rest && ([items[0]] + rest)[1..] == rest;
      assert [] + rest == rest;
    }
  }

  /** How many of the items carry the guid. */
  function Count(items: seq<Item>, guid: string): nat {
    if items == [] then 0
    else (if Truthy(items[0].hashId) && Guid(items[0].hashId.value) == guid then 1 else 0) + Count(items[1..], guid)
  }

  /** Everything a poll with a page pushed is in storage afterwards, if the page has at most
      MAX_FEED_ITEMS guids. */
  lemma PageIsStored(s: State, p: Poll, guid: string)
    requires Succeeds(s, p) && p.fetch.feed.Some? && |Hashes(p.fetch.feed.value)| <= MAX_FEED_ITEMS
    requires guid in Hashes(p.fetch.feed.value)
    ensures guid in Stored(Apply(s, p), p.url)
  {
    var guids := Hashes(p.fetch.feed.value);
    if WantsToStore(s, p) {
      var all := guids + Stored(s, p.url);
      var i :| 0 <= i < |guids| && guids[i] == guid;
      assert Take(all, MAX_FEED_ITEMS)[i] == guid;
    } else {
      NothingUnseen(p.fetch.feed.value, Stored(s, p.url), guid);
    }
  }

  lemma {:induction false} NothingUnseen(items: seq<Item>, seen: seq<string>, guid: string)
    requires Unseen(items, seen) == [] && guid in Hashes(items)
    ensures guid in seen
  {
    var first := if Truthy(items[0].hashId) then [Guid(items[0].hashId.value)] else [];
    assert Hashes(items) == first + Hashes(items[1..]);
    if guid !in first {
      NothingUnseen(items[1..], seen, guid);
    }
  }

  /** A known feed stays known; a successful poll makes a feed known iff its page has a guid. */
  lemma KnownAfter(s: State, p: Poll)
    ensures p.url in s.feedGuids ==> p.url in Apply(s, p).feedGuids
    ensures Succeeds(s, p) && p.url !in s.feedGuids ==>
              (p.url in Apply(s, p).feedGuids <==> p.fetch.feed.Some? && Hashes(p.fetch.feed.value) != [])
  {
    if Stores(s, p) {
      assert p.url in Apply(s, p).feedGuids;
    }
  }

  /** Storing `guids` moves a stored guid back by their number; it leaves the list only when
      that puts at least MAX_FEED_ITEMS guids in front of it. */
  lemma StoringShifts(known: seq<string>, guids: seq<string>, i: nat)
    requires i < |known| <= MAX_FEED_ITEMS
    ensures var list := Take(guids + known, MAX_FEED_ITEMS);
            && (i + |guids| < MAX_FEED_ITEMS ==> i + |guids| < |list| && list[i + |guids|] == known[i])
            && (i + |guids| >= MAX_FEED_ITEMS ==> known[i] in list ==> known[i] in guids + known[..i])
  {
    var all, list := guids + known, Take(guids + known, MAX_FEED_ITEMS);
    if i + |guids| >= MAX_FEED_ITEMS && known[i] in list {
      var j :| 0 <= j < |list| && list[j] == known[i];
      assert all[j] == (guids + known[..i])[j];
    }
  }

  /** The guids that polls of `url` put in front of its list during the run. */
  function Fronted(s: State, run: seq<Poll>, url: string): nat {
    if run == [] then 0
    else
      var before, p := run[..|run| - 1], run[|run| - 1];
      Fronted(s, before, url)
      + if p.url == url && Stores(Exec(s, before), p) then |Hashes(p.fetch.feed.value)| else 0
  }

  /** How often the run emits an item with this guid for this feed. */
  function Emitted(s: State, run: seq<Poll>, url: string, guid: string): nat {
    if run == [] then 0
    else
      var before, p := run[..|run| - 1], run[|run| - 1];
      Emitted(s, before, url, guid) + if p.url == url then Count(Emission(Exec(s, before), p), guid) else 0
  }

  /** Position `i` of the feed's list still holds the guid, moved back by what was put in front. */
  lemma {:induction false} Remembered(s: State, run: seq<Poll>, url: string, i: nat)
    requires url in s.feedGuids && i < |s.feedGuids[url]|
    requires i + Fronted(s, run, url) < MAX_FEED_ITEMS
    ensures var m := Exec(s, run);
            && url in m.feedGuids
            && i + Fronted(s, run, url) < |m.feedGuids[url]|
            && m.feedGuids[url][i + Fronted(s, run, url)] == s.feedGuids[url][i]
  {
    if run != [] {
      Remembered(s, run[..|run| - 1], url, i);
    }
  }

  /** A stored guid is not emitted again, whatever fetches and storage failures come, until
      MAX_FEED_ITEMS guids stand in front of it. */
  lemma {:induction false} NotEmittedWhileRemembered(s: State, run: seq<Poll>, url: string, i: nat)
    requires url in s.feedGuids && i < |s.feedGuids[url]|
    requires i + Fronted(s, run, url) < MAX_FEED_ITEMS
    ensures Emitted(s, run, url, s.feedGuids[url][i]) == 0
  {
    if run != [] {
      var before, p := run[..|run| - 1], run[|run| - 1];
      NotEmittedWhileRemembered(s, before, url, i);
      Remembered(s, before, url, i);
      if p.url == url && p.fetch.Fetched? && p.fetch.feed.Some? {
        SeenIsNotEmitted(p.fetch.feed.value, Stored(Exec(s, before), url), Checks(p.fault), s.feedGuids[url][i]);
      }
    }
  }

  /** If the poll is of `url` and gets a page, the page lists the item once, among at most
      MAX_FEED_ITEMS. Whether storage works, and what polls of other feeds do, is free. */
  predicate Lists(p: Poll, url: string, guid: string) {
    p.url == url && p.fetch.Fetched? && p.fetch.feed.Some? ==>
      && |Hashes(p.fetch.feed.value)| <= MAX_FEED_ITEMS
      && Count(p.fetch.feed.value, guid) == 1
  }

  /** How many polls of the run emit the item and then fail, so that it is not stored. */
  function Unrecorded(s: State, run: seq<Poll>, url: string, guid: string): nat {
    if run == [] then 0
    else
      var before, p := run[..|run| - 1], run[|run| - 1];
      var m := Exec(s, before);
      Unrecorded(s, before, url, guid)
      + if p.url == url && !Succeeds(m, p) && Count(Emission(m, p), guid) > 0 then 1 else 0
  }

  lemma {:induction false} CountedIsHash(items: seq<Item>, guid: string)
    ensures Count(items, guid) > 0 ==> guid in Hashes(items)
  {
    if items != [] {
      CountedIsHash(items[1..], guid);
    }
  }

  lemma {:induction false} EmittedAtMostListed(items: seq<Item>, seen: seq<string>, checks: Option<nat>, guid: string)
    ensures Count(EmittedFrom(items, seen, checks), guid) <= Count(items, guid)
  {
    if items != [] {
      var rest := EmittedFrom(items[1..], seen, if Truthy(items[0].hashId) then Less(checks) else checks);
      EmittedAtMostListed(items[1..], seen, if Truthy(items[0].hashId) then Less(checks) else checks, guid);
      assert ([items[0]] + rest)[1..] == rest && [] + rest == rest;
    }
  }

  /** While a feed lists an item, it is emitted at most once more often than polls fail after
      emitting it, whatever else fails; and never once it is stored. */
  lemma {:induction false} AtMostOnce(s: State, run: seq<Poll>, url: string, guid: string)
    requires forall i :: 0 <= i < |run| ==> Lists(run[i], url, guid)
    ensures var n, extra := Emitted(s, run, url, guid), Unrecorded(s, run, url, guid);
            && extra <= n <= extra + 1
            && (n == extra + 1 ==> guid in Stored(Exec(s, run), url))
            && (guid in Stored(s, url) ==> guid in Stored(Exec(s, run), url) && n == 0)
  {
    if run != [] {
      var before, p := run[..|run| - 1], run[|run| - 1];
      AtMostOnce(s, before, url, guid);
      if p.url == url {
        OnePollOnce(Exec(s, before), p, url, guid);
      }
    }
  }

  lemma OnePollOnce(s: State, p: Poll, url: string, guid: string)
    requires Lists(p, url, guid) && p.url == url
    ensures var n := Count(Emission(s, p), guid);
            && n <= 1
            && (n == 1 && Succeeds(s, p) ==> guid in Stored(Apply(s, p), url))
            && (guid in Stored(s, url) ==> n == 0 && guid in Stored(Apply(s, p), url))
  {
    if p.fetch.Fetched? && p.fetch.feed.Some? {
      var items := p.fetch.feed.value;
      EmittedAtMostListed(items, Stored(s, url), Checks(p.fault), guid);
      CountedIsHash(items, guid);
      if Succeeds(s, p) {
        PageIsStored(s, p, guid);
      }
      if guid in Stored(s, url) {
        SeenIsNotEmitted(items, Stored(s, url), Checks(p.fault), guid);
      }
    }
  }

  // ---------------------------------------------------------------- conditional fetches

  predicate NonEmpty(header: Option<string>) { header.Some? && header.value != "" }

  predicate HasHeader(fetch: Fetch) { fetch.Fetched? && (NonEmpty(fetch.etag) || NonEmpty(fetch.lastModified)) }

  /** An item is lost to a poll of a known feed: a header is cached, so that the server may
      answer 304 from now on, but the item is neither emitted nor stored. */
  predicate LosesGuid(s: State, p: Poll, guid: string) {
    && p.url in s.feedGuids && HasHeader(p.fetch) && p.fetch.feed.Some?
    && guid in Hashes(p.fetch.feed.value) && guid !in Stored(s, p.url)
    && guid !in Hashes(Emission(s, p)) && guid !in Stored(Apply(s, p), p.url)
  }

  ghost predicate Loses(s: State, p: Poll) { exists guid :: LosesGuid(s, p, guid) }

  lemma HashesCons(item: Item, rest: seq<Item>)
    ensures Hashes([item] + rest) == if Truthy(item.hashId) then [Guid(item.hashId.value)] + Hashes(rest) else Hashes(rest)
  {
    assert ([item] + rest)[1..] == rest;
    assert [] + Hashes(rest) == Hashes(rest);
  }

  /** The guids of the items that a poll emits are the unstored ones of those it checks. */
  lemma {:induction false} EmittedHashes(items: seq<Item>, seen: seq<string>, checks: Option<nat>, guid: string)
    ensures var h := Hashes(items);
            var checked := if checks.Some? then Take(h, checks.value) else h;
            guid in Hashes(EmittedFrom(items, seen, checks)) <==> guid in checked && guid !in seen
  {
    if items != [] {
      var item, rest := items[0], items[1..];
      assert items == [item] + rest;
      HashesCons(item, rest);
      if !Truthy(item.hashId) {
        EmittedHashes(rest, seen, checks, guid);
      } else if checks != Some(0) {
        var emitted := EmittedFrom(rest, seen, Less(checks));
        EmittedHashes(rest, seen, Less(checks), guid);
        HashesCons(item, emitted);
        assert [] + emitted == emitted;
        if checks.Some? {
          assert Take(Hashes(items), checks.value) == [Guid(item.hashId.value)] + Take(Hashes(rest), checks.value - 1);
        }
      }
    }
  }

  /** A poll loses an item iff its feed is known, the response had a header worth caching, and
      storage threw on an unstored guid: at the lookup of the feed, or at a check no later than
      the guid's first. */
  lemma LosesIff(s: State, p: Poll)
    ensures Loses(s, p) <==>
              && p.url in s.feedGuids && HasHeader(p.fetch) && p.fetch.feed.Some?
              && var h := Hashes(p.fetch.feed.value);
              && (p.fault.AtLookup? || p.fault.AtCheck?)
              && exists guid :: guid in h && guid !in Stored(s, p.url)
                                && guid !in (if p.fault.AtCheck? then Take(h, p.fault.k) else [])
  {
    if p.url in s.feedGuids && HasHeader(p.fetch) && p.fetch.feed.Some? {
      forall guid ensures LosesGuid(s, p, guid) <==>
          var h := Hashes(p.fetch.feed.value);
          && (p.fault.AtLookup? || p.fault.AtCheck?) && guid in h && guid !in Stored(s, p.url)
          && guid !in (if p.fault.AtCheck? then Take(h, p.fault.k) else [])
      {
        LosesGuidIff(s, p, guid);
      }
    }
  }

  lemma LosesGuidIff(s: State, p: Poll, guid: string)
    requires p.url in s.feedGuids && HasHeader(p.fetch) && p.fetch.feed.Some?
    ensures LosesGuid(s, p, guid) <==>
              var h := Hashes(p.fetch.feed.value);
              && (p.fault.AtLookup? || p.fault.AtCheck?) && guid in h && guid !in Stored(s, p.url)
              && guid !in (if p.fault.AtCheck? then Take(h, p.fault.k) else [])
  {
    var h := Hashes(p.fetch.feed.value);
    EmittedHashes(p.fetch.feed.value, Stored(s, p.url), Checks(p.fault), guid);
    if p.fault.AtCheck? && guid in h && guid !in Take(h, p.fault.k) {
      assert p.fault.k < |h|;
    }
  }

  /** What a poll has lost stays neither emitted nor stored for as long as fetches fail or are
      answered 304. */
  lemma {:induction false} LostUntilNextPage(s: State, p: Poll, guid: string, run: seq<Poll>)
    requires LosesGuid(s, p, guid)
    requires forall i :: 0 <= i < |run| && run[i].url == p.url ==> run[i].fetch.Failed? || run[i].fetch.feed.None?
    ensures Emitted(s, [p] + run, p.url, guid) == 0
    ensures guid !in Stored(Exec(s, [p] + run), p.url)
  {
    var all := [p] + run;
    if run == [] {
      assert all == [p] && [p][..0] == [];
      NotCounted(Emission(s, p), guid);
    } else {
      assert all[..|all| - 1] == [p] + run[..|run| - 1];
      LostUntilNextPage(s, p, guid, run[..|run| - 1]);
    }
  }

  lemma {:induction false} NotCounted(items: seq<Item>, guid: string)
    requires guid !in Hashes(items)
    ensures Count(items, guid) == 0
  {
    if items != [] {
      NotCounted(items[1..], guid);
    }
  }

  /** If only storing throws, nothing is lost, but what was emitted is emitted again by the next
      poll with that page; a first sync leaves the feed unknown. */
  lemma FailedStoreRepeats(s: State, p: Poll, again: Poll)
    requires p.fault.AtStore? && WantsToStore(s, p)
    requires again.url == p.url && again.fetch.Fetched? && again.fetch.feed == p.fetch.feed && again.fault.NoFault?
    ensures Apply(s, p).feedGuids == s.feedGuids && FeedError(p.url) == Apply(s, p).pushed[|Apply(s, p).pushed| - 1]
    ensures p.url in s.feedGuids ==>
              && Emission(s, p) == Emission(Apply(s, p), again) == Unseen(p.fetch.feed.value, Stored(s, p.url))
              && Emission(s, p) != []
    ensures p.url !in s.feedGuids ==> Emission(s, p) == Emission(Apply(s, p), again) == []
  {
    AllChecksPass(p.fetch.feed.value, Stored(s, p.url), None);
  }

  lemma ExecOne(s: State, p: Poll)
    ensures Exec(s, [p]) == Apply(s, p)
  {
    assert [p][..0] == [];
  }

  function Start(): State { State(map[], map[], {}, {}, []) }

  /** From the start: a first sync, a poll whose lookup throws after the etag is cached, and a
      304. The item is never emitted and never stored. */
  lemma LosingHappens()
    ensures var known, item := Item(Some("0"), "old"), Item(Some("1"), "new");
            var first := Poll("u", Fetched(None, None, Some([known])), NoFault);
            var lost := Poll("u", Fetched(Some("tag"), None, Some([item, known])), AtLookup);
            var quiet := Poll("u", Fetched(None, None, None), NoFault);
            var s := Exec(Start(), [first]);
            && LosesGuid(s, lost, Guid("1"))
            && Exec(s, [lost]).cacheTimes == map["u" := ByEtag("tag")]
            && Emitted(s, [lost] + [quiet], "u", Guid("1")) == 0
            && Guid("1") !in Stored(Exec(s, [lost] + [quiet]), "u")
  {
    var known, item := Item(Some("0"), "old"), Item(Some("1"), "new");
    var first := Poll("u", Fetched(None, None, Some([known])), NoFault);
    var lost := Poll("u", Fetched(Some("tag"), None, Some([item, known])), AtLookup);
    var quiet := Poll("u", Fetched(None, None, None), NoFault);
    assert [known][1..] == [] && Hashes([known]) == [Guid("0")];
    assert [item, known][1..] == [known] && Hashes([item, known])[0] == Guid("1");
    ExecOne(Start(), first);
    var s := Apply(Start(), first);
    ExecOne(s, lost);
    assert [Guid("0")] + [] == [Guid("0")];
    assert s.feedGuids["u"] == [Guid("0")];
    assert Guid("1")[4] != Guid("0")[4];
    LostUntilNextPage(s, lost, Guid("1"), [quiet]);
  }

  /** A feed whose first page is empty is synced initially twice: the item of its second page is
      new but not emitted. */
  lemma SyncsTwice()
    ensures var item := Item(Some("1"), "new");
            var empty := Poll("u", Fetched(None, None, Some([])), NoFault);
            var page := Poll("u", Fetched(None, None, Some([item])), NoFault);
            var s := Exec(Start(), [empty]);
            && Succeeds(Start(), empty) && "u" !in s.feedGuids
            && Succeeds(s, page) && New(item, Stored(s, "u")) && Emission(s, page) == []
            && Apply(s, page).feedGuids == map["u" := [Guid("1")]]
  {
    var item := Item(Some("1"), "new");
    var empty := Poll("u", Fetched(None, None, Some([])), NoFault);
    assert [item][1..] == [];
    assert Hashes([item]) == [Guid("1")];
    ExecOne(Start(), empty);
  }
}
