/**
  The feed reader and the connection manager as objects that update their fields in place.
  Every method is one atomic step and is proved equal to FeedQueue's step function.
 */
module FeedReader {
  import opened Common
  import opened FeedQueue

  // ---------------------------------------------------------------- shuffling

  method Swap(a: array<Url>, i: nat, j: nat)
    requires i < a.Length && j < a.Length
    modifies a
    ensures multiset(a[..]) == old(multiset(a[..]))
  {
    a[i], a[j] := a[j], a[i];
  }

  /** The Fisher-Yates shuffle, over any choice of random indices. */
  method Shuffle(a: array<Url>)
    modifies a
    ensures multiset(a[..]) == old(multiset(a[..]))
  {
    var i := a.Length - 1;
    while i > 0
      invariant multiset(a[..]) == old(multiset(a[..]))
      invariant i < a.Length
    {
      var j: nat :| j <= i;
      Swap(a, i, j);
      i := i - 1;
    }
  }

  method Shuffled(urls: seq<Url>) returns (r: seq<Url>)
    ensures multiset(r) == multiset(urls)
  {
    var a := new Url[|urls|](i requires 0 <= i < |urls| => urls[i]);
    assert a[..] == urls;
    Shuffle(a);
    r := a[..];
  }

  // ---------------------------------------------------------------- the reader

  class Reader {
    var connections: seq<Connection>
    var observedFeedUrls: set<Url>
    var feedQueue: seq<Url>
    /** One entry per worker: its async frame or its timer. */
    var workers: seq<Worker>
    const pollInterval: real
    /** What Date.now() returns. */
    var now: real

    constructor (tracked: seq<Connection>, pollInterval: real, pollConcurrency: nat, start: real)
      ensures connections == Feeds(tracked)
      ensures observedFeedUrls == Urls(connections) && multiset(feedQueue) == multiset(observedFeedUrls)
      ensures workers == seq(pollConcurrency, _ => Sleeping(start))
      ensures this.pollInterval == pollInterval && now == start
    {
      this.pollInterval := pollInterval;
      now := start;
      connections := Feeds(tracked);
      observedFeedUrls, feedQueue := {}, [];
      workers := seq(pollConcurrency, _ => Sleeping(start));
      new;
      CalculateFeedUrls();
    }

    /** Collects the distinct parseable URLs and replaces the queue with a shuffle of them. */
    method CalculateFeedUrls()
      modifies this`observedFeedUrls, this`feedQueue
      ensures observedFeedUrls == Urls(connections)
      ensures multiset(feedQueue) == multiset(observedFeedUrls)
    {
      var normalizedUrls: seq<Url> := [];
      var seen: set<Url> := {};
      for i := 0 to |connections|
        invariant seen == Urls(connections[..i])
        invariant multiset(normalizedUrls) == multiset(seen)
      {
        var conn := connections[i];
        assert connections[..i + 1] == connections[..i] + [conn];
        UrlsAppend(connections[..i], conn);
        if conn.kind.Feed? && conn.kind.url.Some? && conn.kind.url.value !in seen {
          normalizedUrls := normalizedUrls + [conn.kind.url.value];
          seen := seen + {conn.kind.url.value};
        }
      }
      assert connections[..|connections|] == connections;
      observedFeedUrls := seen;
      feedQueue := Shuffled(normalizedUrls);
    }

    /** Listener for 'new-connection'. */
    method OnNewConnection(c: Connection)
      modifies this`connections, this`observedFeedUrls, this`feedQueue
      ensures c.kind.Feed? ==>
                && connections == old(connections) + [c]
                && observedFeedUrls == Urls(connections) && multiset(feedQueue) == multiset(observedFeedUrls)
      ensures !c.kind.Feed? ==>
                unchanged(`connections) && unchanged(`observedFeedUrls) && unchanged(`feedQueue)
    {
      if c.kind.Feed? {
        connections := connections + [c];
        CalculateFeedUrls();
      }
    }

    /** Listener for 'connection-removed'. */
    method OnConnectionRemoved(removed: Connection)
      modifies this`connections, this`observedFeedUrls, this`feedQueue
      ensures removed.kind.Feed? ==>
                && connections == WithoutId(old(connections), removed.id)
                && observedFeedUrls == Urls(connections) && multiset(feedQueue) == multiset(observedFeedUrls)
      ensures !removed.kind.Feed? ==>
                unchanged(`connections) && unchanged(`observedFeedUrls) && unchanged(`feedQueue)
    {
      if removed.kind.Feed? {
        connections := WithoutId(connections, removed.id);
        CalculateFeedUrls();
      }
    }
  }

  // ---------------------------------------------------------------- the manager

  /** Why a purge removed nothing. */
  datatype PurgeError = NotFound | NoRemoveHandler | HandlerFailed | AlreadyGone

  /** The manager together with the reader that listens to it. */
  class Manager {
    var connections: seq<Connection>
    /** The purgeConnection calls suspended at `await connection.onRemove?.()`. */
    var pending: seq<Connection>
    /** The 'connection-removed' events emitted, oldest first. */
    var removed: seq<Connection>
    const reader: Reader

    ghost function View(): State
      reads this, reader
    {
      State(connections, pending, removed, reader.connections, reader.observedFeedUrls, reader.feedQueue,
            reader.workers, reader.pollInterval, reader.now)
    }

    /** A manager that was pushed `batch` before the reader came to listen. */
    constructor (batch: seq<Connection>, pollInterval: real, pollConcurrency: nat, start: real)
      requires pollInterval >= 0.0
      ensures Init(View()) && connections == Accepted([], batch)
      ensures |View().workers| == pollConcurrency && View().interval == pollInterval
      ensures fresh(reader)
    {
      var accepted := Accepted([], batch);
      connections, pending, removed := accepted, [], [];
      reader := new Reader(accepted, pollInterval, pollConcurrency, start);
    }

    /** How far a push that started in `before` and has added `added` has got. */
    ghost predicate Pushing(before: State, added: seq<Connection>)
      reads this, reader
    {
      var now := View();
      && now == before.(conns := before.conns + added, mirror := before.mirror + Feeds(added),
                        observed := now.observed, queue := now.queue)
      && if Feeds(added) == [] then now.observed == before.observed && now.queue == before.queue
         else now.observed == Urls(now.mirror) && multiset(now.queue) == multiset(now.observed)
    }

    /** Adds one connection and emits 'new-connection'. */
    method Add(connection: Connection, ghost before: State, ghost added: seq<Connection>)
      requires Pushing(before, added)
      modifies this`connections, reader
      ensures Pushing(before, added + [connection])
      ensures connections == old(connections) + [connection]
    {
      connections := connections + [connection];
      reader.OnNewConnection(connection);
      FeedsAppend(added, connection);
      assert before.conns + (added + [connection]) == before.conns + added + [connection];
    }

    /** Adds connections one by one, telling the reader of each; stops at the first known id. */
    method Push(batch: seq<Connection>)
      modifies this, reader
      ensures Enabled(old(View()), Event.Push(batch, reader.feedQueue))
      ensures View() == Apply(old(View()), Event.Push(batch, reader.feedQueue))
    {
      ghost var before := View();
      ghost var added: seq<Connection> := [];
      assert before.conns + added == before.conns && before.mirror + Feeds(added) == before.mirror;
      var i := 0;
      while i < |batch|
        invariant 0 <= i <= |batch|
        invariant Pushing(before, added)
        invariant Accepted(before.conns, batch) == added + Accepted(connections, batch[i..])
      {
        if HasId(connections, batch[i].id) {
          assert Accepted(before.conns, batch) == added;
          return;
        }
        ghost var rest := Accepted(connections + [batch[i]], batch[i + 1..]);
        assert batch[i..][1..] == batch[i + 1..];
        assert added + ([batch[i]] + rest) == added + [batch[i]] + rest;
        Add(batch[i], before, added);
        added := added + [batch[i]];
        i := i + 1;
      }
      assert Accepted(before.conns, batch) == added;
    }

    /** purgeConnection up to its await. */
    method BeginPurge(roomId: string, connectionId: string, requireNoRemoveHandler: bool)
      returns (r: Result<Connection, PurgeError>)
      modifies this`pending
      ensures View() == Apply(old(View()), PurgeFind(roomId, connectionId, requireNoRemoveHandler))
      ensures r.Ok? ==> r.value in connections && r.value.id == connectionId && r.value.room == roomId
      ensures r == Err(NotFound) <==> forall c :: c in connections ==> c.id != connectionId || c.room != roomId
      ensures r.Err? ==> unchanged(this)
    {
      FindFinds(connections, roomId, connectionId);
      var found := Find(connections, roomId, connectionId);
      if found.None? {
        return Err(NotFound);
      }
      if requireNoRemoveHandler && !found.value.removable {
        return Err(NoRemoveHandler);
      }
      pending := pending + [found.value];
      return Ok(found.value);
    }

    /** purgeConnection from its await on, `handlerOk` being whether onRemove resolved. */
    method FinishPurge(call: nat, handlerOk: bool) returns (r: Result<Connection, PurgeError>)
      requires call < |pending|
      modifies this, reader
      ensures Enabled(old(View()), PurgeFinish(call, handlerOk, reader.feedQueue))
      ensures View() == Apply(old(View()), PurgeFinish(call, handlerOk, reader.feedQueue))
      ensures r == if !handlerOk then Err(HandlerFailed)
                   else if old(pending[call]) !in old(connections) then Err(AlreadyGone)
                   else Ok(old(pending[call]))
    {
      var connection := pending[call];
      pending := pending[..call] + pending[call + 1..];
      if !handlerOk {
        return Err(HandlerFailed);
      }
      if connection !in connections {
        return Err(AlreadyGone);
      }
      connections := WithoutObject(connections, connection);
      removed := removed + [connection];
      reader.OnConnectionRemoved(connection);
      return Ok(connection);
    }

    /** Forgets a room's connections without telling the reader. */
    method RemoveConnectionsForRoom(roomId: string)
      modifies this`connections
      ensures View() == Apply(old(View()), RemoveRoom(roomId))
    {
      connections := WithoutRoom(connections, roomId);
    }

    // -------------------------------------------------------------- the workers

    method Advance(dt: real)
      requires dt >= 0.0
      modifies reader`now
      ensures View() == Apply(old(View()), Tick(dt))
    {
      reader.now := reader.now + dt;
    }

    /** pollFeeds up to the await of pollFeed, or to the timer if the queue is empty. */
    method PollFeeds(workerId: nat)
      requires Enabled(View(), Wake(workerId))
      modifies reader
      ensures View() == Apply(old(View()), Wake(workerId))
    {
      var rest := if reader.feedQueue == [] then [] else reader.feedQueue[1..];
      if reader.feedQueue == [] {
        var sleepFor := SleepingIntervalNow();
        reader.workers := reader.workers[workerId := Sleeping(reader.now + sleepFor)];
      } else {
        var url := reader.feedQueue[0];
        reader.feedQueue := rest;
        reader.workers := reader.workers[workerId := Polling(url, reader.now)];
      }
    }

    /** The `finally` of pollFeed: the URL goes back whatever happened to the poll. */
    method FinishPoll(workerId: nat)
      requires Enabled(View(), Requeue(workerId))
      modifies reader
      ensures View() == Apply(old(View()), Requeue(workerId))
    {
      var w := reader.workers[workerId];
      reader.feedQueue := reader.feedQueue + [w.url];
      reader.workers := reader.workers[workerId := Finishing(w.started)];
    }

    /** The rest of pollFeeds: sleep for what is left of the interval. */
    method SetTimer(workerId: nat)
      requires Enabled(View(), Rest(workerId))
      modifies reader
      ensures View() == Apply(old(View()), Rest(workerId))
      ensures reader.workers[workerId].Sleeping?
      ensures var queued := if reader.feedQueue == [] then 1 else |reader.feedQueue|;
              var due := old(reader.workers[workerId].started)
                         + reader.pollInterval / queued as real * |reader.workers| as real;
              reader.workers[workerId].wakeAt == if due < reader.now then reader.now else due
    {
      var elapsed := reader.now - reader.workers[workerId].started;
      var interval := SleepingIntervalNow();
      var sleepFor := if interval - elapsed < 0.0 then 0.0 else interval - elapsed;
      reader.workers := reader.workers[workerId := Sleeping(reader.now + sleepFor)];
    }

    method SleepingIntervalNow() returns (r: real)
      ensures r == SleepingInterval(View())
    {
      var parts := if |reader.feedQueue| == 0 then 1 else |reader.feedQueue|;
      r := (reader.pollInterval / parts as real) * |reader.workers| as real;
    }
  }

  lemma UrlsAppend(conns: seq<Connection>, c: Connection)
    ensures Urls(conns + [c]) == Urls(conns) + if c.kind.Feed? && c.kind.url.Some? then {c.kind.url.value} else {}
  {
    assert forall d :: d in conns + [c] <==> d in conns || d == c;
  }

  lemma {:induction false} FeedsAppend(conns: seq<Connection>, c: Connection)
    ensures Feeds(conns + [c]) == Feeds(conns) + (if c.kind.Feed? then [c] else [])
  {
    if conns == [] {
      assert conns + [c] == [c];
    } else {
      FeedsAppend(conns[1..], c);
      assert (conns + [c])[1..] == conns[1..] + [c];
    }
  }
}
