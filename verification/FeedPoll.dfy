/**
  One poll of a feed: fetch, compare with the guids in storage, emit what is new, store the
  page's guids, report success or failure. A poll runs without another poll of the same URL.
 */
module FeedPoll {
  import opened Common

  const MAX_FEED_ITEMS: nat := 10_000

  datatype Item = Item(hashId: Option<string>, content: string)

  /** What readFeed returns or throws; `feed` is None for a 304. */
  datatype Fetch =
    | Failed(dueToHttp: bool)
    | Fetched(etag: Option<string>, lastModified: Option<string>, feed: Option<seq<Item>>)

  datatype CacheTime = ByEtag(etag: string) | ByDate(lastModified: string)

  /** What is pushed to the message queue. */
  datatype Message = FeedEntry(url: string, item: Item) | FeedSuccess(url: string) | FeedError(url: string)

  datatype State = State(
    cacheTimes: map<string, CacheTime>,
    feedGuids: map<string, seq<string>>,
    failingHttp: set<string>,
    failingParsing: set<string>,
    pushed: seq<Message>)

  /** Which storage call throws, if the poll gets that far: hasSeenFeed, the k-th
      hasSeenFeedGuid counting from 0, or storeFeedGuids. */
  datatype Fault = NoFault | AtLookup | AtCheck(k: nat) | AtStore

  datatype Poll = Poll(url: string, fetch: Fetch, fault: Fault)

  // ---------------------------------------------------------------- specification

  predicate Truthy(s: Option<string>) { s.Some? && s.value != "" }

  function Guid(hashId: string): string { "md5:" + hashId }

  /** The guids of the items that have a hash, in feed order. */
  function Hashes(items: seq<Item>): seq<string> {
    if items == [] then []
    else (if Truthy(items[0].hashId) then [Guid(items[0].hashId.value)] else []) + Hashes(items[1..])
  }

  /** The items with a hash that storage does not know, in feed order. */
  function Unseen(items: seq<Item>, seen: seq<string>): seq<Item> {
    if items == [] then []
    else (if Truthy(items[0].hashId) && Guid(items[0].hashId.value) !in seen then [items[0]] else [])
         + Unseen(items[1..], seen)
  }

  /** What the loop over the items emits if only `checks` storage checks succeed. */
  function EmittedFrom(items: seq<Item>, seen: seq<string>, checks: Option<nat>): seq<Item> {
    if items == [] then []
    else if !Truthy(items[0].hashId) then EmittedFrom(items[1..], seen, checks)
    else if checks == Some(0) then []
    else (if Guid(items[0].hashId.value) !in seen then [items[0]] else []) + EmittedFrom(items[1..], seen, Less(checks))
  }

  function Less(checks: Option<nat>): Option<nat> {
    if checks.Some? && checks.value > 0 then Some(checks.value - 1) else checks
  }

  function Entries(url: string, items: seq<Item>): seq<Message> {
    seq(|items|, i requires 0 <= i < |items| => FeedEntry(url, items[i]))
  }

  function Take<T>(s: seq<T>, n: nat): seq<T> { if |s| <= n then s else s[..n] }

  function Stored(s: State, url: string): seq<string> {
    if url in s.feedGuids then s.feedGuids[url] else []
  }

  function Checks(fault: Fault): Option<nat> {
    if fault.AtCheck? then Some(fault.k) else None
  }

  /** The items a poll emits: those checked before a check throws. */
  function Emission(s: State, p: Poll): seq<Item> {
    if p.fetch.Failed? || p.fetch.feed.None? || p.url !in s.feedGuids || p.fault.AtLookup? then []
    else
      EmittedFrom(p.fetch.feed.value, Stored(s, p.url), Checks(p.fault))
  }

  /** Does the poll, unless a check throws, come to store the page's guids? */
  predicate WantsToStore(s: State, p: Poll) {
    && p.fetch.Fetched? && p.fetch.feed.Some? && Hashes(p.fetch.feed.value) != []
    && (p.url !in s.feedGuids || Unseen(p.fetch.feed.value, Stored(s, p.url)) != [])
  }

  predicate CheckThrows(s: State, p: Poll) {
    && p.fetch.Fetched? && p.fetch.feed.Some? && p.url in s.feedGuids
    && p.fault.AtCheck? && p.fault.k < |Hashes(p.fetch.feed.value)|
  }

  predicate Succeeds(s: State, p: Poll) {
    && p.fetch.Fetched? && !p.fault.AtLookup? && !CheckThrows(s, p)
    && !(p.fault.AtStore? && WantsToStore(s, p))
  }

  predicate Stores(s: State, p: Poll) { Succeeds(s, p) && WantsToStore(s, p) }

  function CacheAfter(s: State, p: Poll): map<string, CacheTime> {
    if p.fetch.Failed? then s.cacheTimes
    else if Truthy(p.fetch.etag) then s.cacheTimes[p.url := ByEtag(p.fetch.etag.value)]
    else if Truthy(p.fetch.lastModified) then s.cacheTimes[p.url := ByDate(p.fetch.lastModified.value)]
    else s.cacheTimes
  }

  function Apply(s: State, p: Poll): State {
    var ok := Succeeds(s, p);
    var http := p.fetch.Failed? && p.fetch.dueToHttp;
    State(
      CacheAfter(s, p),
      if Stores(s, p) then
        s.feedGuids[p.url := Take(Hashes(p.fetch.feed.value) + Stored(s, p.url), MAX_FEED_ITEMS)]
      else s.feedGuids,
      if ok then s.failingHttp - {p.url} else if http then s.failingHttp + {p.url} else s.failingHttp,
      if ok then s.failingParsing - {p.url} else if http then s.failingParsing else s.failingParsing + {p.url},
      s.pushed + Entries(p.url, Emission(s, p)) + [if ok then FeedSuccess(p.url) else FeedError(p.url)])
  }

  lemma {:induction false} AllChecksPass(items: seq<Item>, seen: seq<string>, checks: Option<nat>)
    requires checks.None? || checks.value >= |Hashes(items)|
    ensures EmittedFrom(items, seen, checks) == Unseen(items, seen)
  {
    if items != [] {
      AllChecksPass(items[1..], seen, if Truthy(items[0].hashId) then Less(checks) else checks);
    }
  }

  lemma HashesFrom(items: seq<Item>, i: nat, before: seq<string>)
    requires i < |items|
    ensures var hash := items[i].hashId;
            before + Hashes(items[i..])
            == (if Truthy(hash) then before + [Guid(hash.value)] else before) + Hashes(items[i + 1..])
  {
    assert items[i..][1..] == items[i + 1..];
  }

  lemma EmittedStep(items: seq<Item>, i: nat, seen: seq<string>, left: Option<nat>, before: seq<Item>)
    requires i < |items|
    ensures var item := items[i];
            var all := before + EmittedFrom(items[i..], seen, left);
            if !Truthy(item.hashId) then all == before + EmittedFrom(items[i + 1..], seen, left)
            else if left == Some(0) then all == before
            else all == (if Guid(item.hashId.value) in seen then before else before + [item])
                        + EmittedFrom(items[i + 1..], seen, Less(left))
  {
    assert items[i..][1..] == items[i + 1..];
  }

  lemma EntriesAppend(url: string, pushed: seq<Message>, items: seq<Item>, item: Item)
    ensures pushed + Entries(url, items + [item]) == pushed + Entries(url, items) + [FeedEntry(url, item)]
  {
    assert Entries(url, items + [item]) == Entries(url, items) + [FeedEntry(url, item)];
  }

  // ---------------------------------------------------------------- the objects

  /** The in-memory storage provider. */
  class Storage {
    var feedGuids: map<string, seq<string>>

    constructor ()
      ensures feedGuids == map[]
    {
      feedGuids := map[];
    }

    /** Puts the guids in front of the list and pops what exceeds MAX_FEED_ITEMS. */
    method StoreFeedGuids(url: string, guids: seq<string>)
      modifies this`feedGuids
      ensures feedGuids == old(feedGuids)[url := Take(guids + (if url in old(feedGuids) then old(feedGuids)[url] else []),
                                                      MAX_FEED_ITEMS)]
    {
      ghost var full := guids + (if url in feedGuids then feedGuids[url] else []);
      var list := guids + (if url in feedGuids then feedGuids[url] else []);
      while |list| > MAX_FEED_ITEMS
        invariant |list| <= |full| && list == full[..|list|]
        invariant |list| == |full| || |list| >= MAX_FEED_ITEMS
      {
        list := list[..|list| - 1];
      }
      feedGuids := feedGuids[url := list];
    }
  }

  class Poller {
    const storage: Storage
    var cacheTimes: map<string, CacheTime>
    var feedsFailingHttp: set<string>
    var feedsFailingParsing: set<string>
    /** Everything pushed to the message queue, oldest first. */
    var pushed: seq<Message>

    ghost function View(): State
      reads this, storage
    {
      State(cacheTimes, storage.feedGuids, feedsFailingHttp, feedsFailingParsing, pushed)
    }

    constructor ()
      ensures View() == State(map[], map[], {}, {}, []) && fresh(storage)
    {
      storage := new Storage();
      cacheTimes, feedsFailingHttp, feedsFailingParsing, pushed := map[], {}, {}, [];
    }

    method CacheTimes(p: Poll)
      requires p.fetch.Fetched?
      modifies this`cacheTimes
      ensures cacheTimes == old(CacheAfter(View(), p))
    {
      if Truthy(p.fetch.etag) {
        cacheTimes := cacheTimes[p.url := ByEtag(p.fetch.etag.value)];
      } else if Truthy(p.fetch.lastModified) {
        cacheTimes := cacheTimes[p.url := ByDate(p.fetch.lastModified.value)];
      }
    }

    /** The loop over a page's items. `stored` is None on an initial sync, `checks` the number
        of storage checks that succeed; false means that a check threw. */
    method EmitNew(url: string, items: seq<Item>, stored: Option<seq<string>>, checks: Option<nat>)
      returns (ok: bool, newGuids: seq<string>, seenEntriesChanged: bool)
      modifies this`pushed
      ensures stored.None? ==> pushed == old(pushed)
      ensures stored.Some? ==> pushed == old(pushed) + Entries(url, EmittedFrom(items, stored.value, checks))
      ensures ok <==> stored.None? || checks.None? || checks.value >= |Hashes(items)|
      ensures ok ==> newGuids == Hashes(items)
      ensures ok ==> seenEntriesChanged == (stored.None? || EmittedFrom(items, stored.value, checks) != [])
    {
      newGuids, seenEntriesChanged, ok := [], stored.None?, true;
      ghost var emitted: seq<Item> := [];
      var left := checks;
      assert Entries(url, emitted) == [] && pushed + [] == pushed;
      for i := 0 to |items|
        invariant newGuids + Hashes(items[i..]) == Hashes(items)
        invariant stored.None? ==> pushed == old(pushed)
        invariant stored.Some? ==>
                    && pushed == old(pushed) + Entries(url, emitted)
                    && emitted + EmittedFrom(items[i..], stored.value, left) == EmittedFrom(items, stored.value, checks)
                    && (left.Some? <==> checks.Some?)
                    && (left.Some? ==> left.value == checks.value - |newGuids|)
        invariant seenEntriesChanged == (stored.None? || emitted != [])
      {
        var item := items[i];
        HashesFrom(items, i, newGuids);
        if stored.Some? {
          EmittedStep(items, i, stored.value, left, emitted);
        }
        if Truthy(item.hashId) {
          if stored.Some? && left == Some(0) {
            ok := false;
            return;
          }
          newGuids := newGuids + [Guid(item.hashId.value)];
          if stored.Some? {
            left := Less(left);
            if Guid(item.hashId.value) !in stored.value {
              seenEntriesChanged := true;
              EntriesAppend(url, old(pushed), emitted, item);
              pushed := pushed + [FeedEntry(url, item)];
              emitted := emitted + [item];
            }
          }
        }
      }
    }

    /** The `try` block of pollFeed up to the success message; false means that it threw. */
    method TryPoll(p: Poll) returns (ok: bool, seenEntriesChanged: bool)
      requires p.fetch.Fetched?
      modifies this`cacheTimes, this`pushed, storage
      ensures ok <==> old(Succeeds(View(), p))
      ensures cacheTimes == old(CacheAfter(View(), p))
      ensures storage.feedGuids == old(Apply(View(), p)).feedGuids
      ensures pushed == old(pushed) + Entries(p.url, old(Emission(View(), p)))
      ensures ok ==> seenEntriesChanged == old(p.url !in View().feedGuids || Emission(View(), p) != [])
    {
      CacheTimes(p);
      seenEntriesChanged := false;
      assert Entries(p.url, []) == [] && pushed + [] == pushed;
      if p.fault.AtLookup? {
        return false, false;
      }
      if p.fetch.feed.None? {
        return true, p.url !in storage.feedGuids;
      }
      var newGuids: seq<string>;
      var stored := if p.url in storage.feedGuids then Some(storage.feedGuids[p.url]) else None;
      ok, newGuids, seenEntriesChanged := EmitNew(p.url, p.fetch.feed.value, stored, Checks(p.fault));
      if ok && stored.Some? {
        AllChecksPass(p.fetch.feed.value, stored.value, Checks(p.fault));
      }
      if ok && seenEntriesChanged && |newGuids| > 0 {
        ok := !p.fault.AtStore?;
        if ok {
          storage.StoreFeedGuids(p.url, newGuids);
        }
      }
    }

    /** pollFeed, for a fetch and a storage that behave as `p` says. */
    method PollFeed(p: Poll) returns (seenEntriesChanged: bool)
      modifies this, storage
      ensures View() == Apply(old(View()), p)
      ensures old(Succeeds(View(), p)) ==>
                seenEntriesChanged == old(p.url !in View().feedGuids || Emission(View(), p) != [])
    {
      var ok := false;
      seenEntriesChanged := false;
      assert Entries(p.url, []) == [] && pushed + [] == pushed;
      if p.fetch.Fetched? {
        ok, seenEntriesChanged := TryPoll(p);
      }
      if ok {
        pushed := pushed + [FeedSuccess(p.url)];
        feedsFailingHttp := feedsFailingHttp - {p.url};
        feedsFailingParsing := feedsFailingParsing - {p.url};
      } else {
        if p.fetch.Failed? && p.fetch.dueToHttp {
          feedsFailingHttp := feedsFailingHttp + {p.url};
        } else {
          feedsFailingParsing := feedsFailingParsing + {p.url};
        }
        pushed := pushed + [FeedError(p.url)];
      }
    }
  }
}
