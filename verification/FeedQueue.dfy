/**
  The feed reader's queue and the connection manager that feeds it, as one timed state
  machine: N workers pop URLs, poll them and put them back, while connections come and go.
  Each event is one stretch of code between two awaits. Classes over the same state are in
  FeedReader.dfy.
 */
module FeedQueue {
  import opened Common

  /** A URL as normalizeUrl returns it: never the empty string. */
  type Url = s: string | s != "" witness "u"

  /** What a connection is to the reader. `url` is None where normalizeUrl throws. */
  datatype Kind = Feed(url: Option<Url>) | Other

  /** `obj` is the identity of the object: two objects may share a connection id. */
  datatype Connection = Connection(obj: nat, id: string, room: string, kind: Kind, removable: bool)

  /** Where a worker's pollFeeds call stands: behind its timer, waiting for a poll, or
      past the poll's `finally` but not yet asleep. */
  datatype Worker =
    | Sleeping(wakeAt: real)
    | Polling(url: Url, started: real)
    | Finishing(started: real)

  /** `pending` holds the connections whose purge awaits onRemove, `removed` those announced by
      'connection-removed', oldest first. */
  datatype State = State(
    conns: seq<Connection>,
    pending: seq<Connection>,
    removed: seq<Connection>,
    mirror: seq<Connection>,
    observed: set<Url>,
    queue: seq<Url>,
    workers: seq<Worker>,
    interval: real,
    now: real)

  /** `order` is the queue the shuffle leaves, if the step shuffles. */
  datatype Event =
    | Push(batch: seq<Connection>, order: seq<Url>)
    | PurgeFind(room: string, id: string, requireHandler: bool)
    | PurgeFinish(index: nat, handlerOk: bool, order: seq<Url>)
    | RemoveRoom(room: string)
    | Wake(w: nat)
    | Requeue(w: nat)
    | Rest(w: nat)
    | Tick(dt: real)

  // ---------------------------------------------------------------- the step function

  predicate HasId(conns: seq<Connection>, id: string) {
    exists c :: c in conns && c.id == id
  }

  /** The part of a pushed batch that is added: everything before the first known id. */
  function Accepted(conns: seq<Connection>, batch: seq<Connection>): seq<Connection>
    decreases batch
  {
    if batch == [] || HasId(conns, batch[0].id) then []
    else [batch[0]] + Accepted(conns + [batch[0]], batch[1..])
  }

  function Feeds(conns: seq<Connection>): seq<Connection> {
    if conns == [] then []
    else (if conns[0].kind.Feed? then [conns[0]] else []) + Feeds(conns[1..])
  }

  function Urls(conns: seq<Connection>): set<Url> {
    set c | c in conns && c.kind.Feed? && c.kind.url.Some? :: c.kind.url.value
  }

  function WithoutId(conns: seq<Connection>, id: string): seq<Connection> {
    if conns == [] then []
    else (if conns[0].id != id then [conns[0]] else []) + WithoutId(conns[1..], id)
  }

  function WithoutRoom(conns: seq<Connection>, room: string): seq<Connection> {
    if conns == [] then []
    else (if conns[0].room != room then [conns[0]] else []) + WithoutRoom(conns[1..], room)
  }

  function WithoutObject(conns: seq<Connection>, c: Connection): seq<Connection> {
    if conns == [] then []
    else if conns[0] == c then conns[1..]
    else [conns[0]] + WithoutObject(conns[1..], c)
  }

  function Find(conns: seq<Connection>, room: string, id: string): Option<Connection> {
    if conns == [] then None
    else if conns[0].id == id && conns[0].room == room then Some(conns[0])
    else Find(conns[1..], room, id)
  }

  function Share(interval: real, parts: nat, workers: nat): real
    requires parts > 0
  {
    interval / parts as real * workers as real
  }

  /** sleepingInterval: the poll interval shared out over the queue, times the workers. */
  function SleepingInterval(s: State): real {
    Share(s.interval, if |s.queue| == 0 then 1 else |s.queue|, |s.workers|)
  }

  function Max(a: real, b: real): real { if a < b then b else a }

  function Rebuild(s: State, mirror: seq<Connection>, order: seq<Url>): State {
    s.(mirror := mirror, observed := Urls(mirror), queue := order)
  }

  predicate Purged(s: State, e: Event) {
    e.PurgeFinish? && e.index < |s.pending| && e.handlerOk && s.pending[e.index] in s.conns
  }

  /** The mirror after the listeners ran. */
  function MirrorAfter(s: State, e: Event): seq<Connection> {
    if e.Push? then s.mirror + Feeds(Accepted(s.conns, e.batch))
    else if Purged(s, e) && s.pending[e.index].kind.Feed? then WithoutId(s.mirror, s.pending[e.index].id)
    else s.mirror
  }

  /** Does this step run calculateFeedUrls? */
  predicate Rebuilds(s: State, e: Event) {
    || (e.Push? && Feeds(Accepted(s.conns, e.batch)) != [])
    || (Purged(s, e) && s.pending[e.index].kind.Feed?)
  }

  ghost predicate Enabled(s: State, e: Event) {
    && (Rebuilds(s, e) ==> multiset(e.order) == multiset(Urls(MirrorAfter(s, e))))
    && match e
       case PurgeFinish(i, _, _) => i < |s.pending|
       case Wake(w) => w < |s.workers| && s.workers[w].Sleeping? && s.workers[w].wakeAt <= s.now
       case Requeue(w) => w < |s.workers| && s.workers[w].Polling?
       case Rest(w) => w < |s.workers| && s.workers[w].Finishing?
       case Tick(dt) => dt >= 0.0
       case _ => true
  }

  function Apply(s: State, e: Event): State {
    match e
    case Push(batch, order) =>
      var s' := s.(conns := s.conns + Accepted(s.conns, batch));
      if Rebuilds(s, e) then Rebuild(s', MirrorAfter(s, e), order) else s'
    case PurgeFind(room, id, requireHandler) =>
      var c := Find(s.conns, room, id);
      if c.Some? && (c.value.removable || !requireHandler) then s.(pending := s.pending + [c.value]) else s
    case PurgeFinish(i, _, order) =>
      if i >= |s.pending| then s
      else
        var s' := s.(pending := s.pending[..i] + s.pending[i + 1..]);
        if !Purged(s, e) then s'
        else
          var s'' := s'.(conns := WithoutObject(s.conns, s.pending[i]), removed := s.removed + [s.pending[i]]);
          if Rebuilds(s, e) then Rebuild(s'', MirrorAfter(s, e), order) else s''
    case RemoveRoom(room) => s.(conns := WithoutRoom(s.conns, room))
    case Wake(w) =>
      if w >= |s.workers| then s
      else if s.queue == [] then s.(workers := s.workers[w := Sleeping(s.now + SleepingInterval(s))])
      else s.(queue := s.queue[1..], workers := s.workers[w := Polling(s.queue[0], s.now)])
    case Requeue(w) =>
      if w < |s.workers| && s.workers[w].Polling? then
        s.(queue := s.queue + [s.workers[w].url], workers := s.workers[w := Finishing(s.workers[w].started)])
      else s
    case Rest(w) =>
      if w < |s.workers| && s.workers[w].Finishing? then
        var elapsed := s.now - s.workers[w].started;
        s.(workers := s.workers[w := Sleeping(s.now + Max(SleepingInterval(s) - elapsed, 0.0))])
      else s
    case Tick(dt) => s.(now := s.now + dt)
  }

  /** The reader as its constructor leaves it, over a manager that was pushed `batch`. */
  ghost predicate Init(s: State) {
    && (exists batch :: s.conns == Accepted([], batch))
    && s.pending == [] && s.removed == []
    && s.mirror == Feeds(s.conns)
    && s.observed == Urls(s.mirror)
    && multiset(s.queue) == multiset(s.observed)
    && s.interval >= 0.0
    && forall i :: 0 <= i < |s.workers| ==> s.workers[i] == Sleeping(s.now)
  }

  // ---------------------------------------------------------------- runs

  function Exec(s: State, run: seq<Event>): State {
    if run == [] then s else Apply(Exec(s, run[..|run| - 1]), run[|run| - 1])
  }

  ghost predicate Valid(s: State, run: seq<Event>) {
    run == [] ||
    var before := run[..|run| - 1];
    Valid(s, before) && Enabled(Exec(s, before), run[|run| - 1])
  }

  lemma ExecSnoc(s: State, run: seq<Event>, e: Event)
    ensures Exec(s, run + [e]) == Apply(Exec(s, run), e)
    ensures Valid(s, run + [e]) <==> Valid(s, run) && Enabled(Exec(s, run), e)
  {
    assert (run + [e])[..|run|] == run;
  }

  /** The URLs being polled, with multiplicity. */
  function InFlight(workers: seq<Worker>): multiset<Url> {
    if workers == [] then multiset{} else Held(workers[0]) + InFlight(workers[1..])
  }

  function Held(w: Worker): multiset<Url> {
    if w.Polling? then multiset{w.url} else multiset{}
  }

  lemma {:induction false} InFlightCount(workers: seq<Worker>, i: nat, w: Worker, u: Url)
    requires i < |workers|
    ensures InFlight(workers[i := w])[u] + Held(workers[i])[u] == InFlight(workers)[u] + Held(w)[u]
  {
    var after, rest := workers[i := w], workers[1..];
    assert InFlight(after)[u] == Held(after[0])[u] + InFlight(after[1..])[u];
    assert InFlight(workers)[u] == Held(workers[0])[u] + InFlight(rest)[u];
    if i == 0 {
      assert after[1..] == rest;
    } else {
      assert after[1..] == rest[i - 1 := w];
      InFlightCount(rest, i - 1, w, u);
    }
  }

  lemma {:induction false} InFlightSize(workers: seq<Worker>)
    ensures |InFlight(workers)| <= |workers|
  {
    if workers != [] {
      InFlightSize(workers[1..]);
    }
  }

  // ---------------------------------------------------------------- coverage

  ghost predicate DistinctIds(conns: seq<Connection>) {
    forall i, j :: 0 <= i < j < |conns| ==> conns[i].id != conns[j].id
  }

  /** Every parseable feed the manager holds is queued or being polled. */
  ghost predicate Covered(s: State) {
    forall c :: c in s.conns && c.kind.Feed? && c.kind.url.Some? ==>
      c.kind.url.value in s.queue || c.kind.url.value in InFlight(s.workers)
  }

  ghost predicate Inv(s: State) {
    && DistinctIds(s.conns)
    && (forall c :: c in s.conns && c.kind.Feed? ==> c in s.mirror)
    && (forall c :: c in s.mirror ==> c.kind.Feed?)
    && s.observed == Urls(s.mirror)
    && forall u :: u in s.observed ==> u in s.queue || u in InFlight(s.workers)
  }

  lemma {:induction false} AcceptedDistinct(conns: seq<Connection>, batch: seq<Connection>)
    requires DistinctIds(conns)
    ensures DistinctIds(conns + Accepted(conns, batch))
    decreases batch
  {
    if batch == [] || HasId(conns, batch[0].id) {
      assert conns + Accepted(conns, batch) == conns;
    } else {
      AcceptedDistinct(conns + [batch[0]], batch[1..]);
      assert conns + Accepted(conns, batch) == conns + [batch[0]] + Accepted(conns + [batch[0]], batch[1..]);
    }
  }

  /** What is accepted of a batch is all of it up to the first connection whose id is held already
      or came earlier in the batch. */
  lemma {:induction false} AcceptedIs(conns: seq<Connection>, batch: seq<Connection>) returns (n: nat)
    ensures n <= |batch| && Accepted(conns, batch) == batch[..n]
    ensures forall i :: 0 <= i < n ==>
              && (forall c :: c in conns ==> c.id != batch[i].id)
              && forall j :: 0 <= j < i ==> batch[j].id != batch[i].id
    ensures n < |batch| ==>
              || (exists c :: c in conns && c.id == batch[n].id)
              || exists j :: 0 <= j < n && batch[j].id == batch[n].id
    decreases batch
  {
    if batch == [] || HasId(conns, batch[0].id) {
      return 0;
    }
    var first, rest := batch[0], batch[1..];
    var m := AcceptedIs(conns + [first], rest);
    n := m + 1;
    assert batch[..n] == [first] + rest[..m];
    assert forall c :: c in conns + [first] <==> c in conns || c == first;
    forall i | 0 <= i < n
      ensures forall c :: c in conns ==> c.id != batch[i].id
      ensures forall j :: 0 <= j < i ==> batch[j].id != batch[i].id
    {
      if i > 0 {
        assert batch[i] == rest[i - 1];
        assert forall j :: 0 < j < i ==> batch[j] == rest[j - 1];
      }
    }
    if n < |batch| {
      assert batch[n] == rest[m];
      if j :| 0 <= j < m && rest[j].id == rest[m].id {
        assert batch[j + 1] == rest[j];
      }
    }
  }

  lemma {:induction false} FeedsMember(conns: seq<Connection>)
    ensures forall c :: c in Feeds(conns) <==> c in conns && c.kind.Feed?
  {
    if conns != [] {
      FeedsMember(conns[1..]);
    }
  }

  lemma {:induction false} WithoutIdMember(conns: seq<Connection>, id: string)
    ensures forall c :: c in WithoutId(conns, id) <==> c in conns && c.id != id
  {
    if conns != [] {
      WithoutIdMember(conns[1..], id);
    }
  }

  lemma {:induction false} WithoutRoomMember(conns: seq<Connection>, room: string)
    ensures forall c :: c in WithoutRoom(conns, room) <==> c in conns && c.room != room
    ensures DistinctIds(conns) ==> DistinctIds(WithoutRoom(conns, room))
  {
    if conns != [] {
      WithoutRoomMember(conns[1..], room);
    }
  }

  lemma {:induction false} WithoutObjectSplits(conns: seq<Connection>, c: Connection) returns (i: nat)
    requires c in conns
    ensures i < |conns| && conns[i] == c
    ensures WithoutObject(conns, c) == conns[..i] + conns[i + 1..]
  {
    if conns[0] == c {
      return 0;
    }
    var rest := conns[1..];
    var j := WithoutObjectSplits(rest, c);
    i := j + 1;
    assert conns[..i] == [conns[0]] + rest[..j] && conns[i + 1..] == rest[j + 1..];
  }

  lemma WithoutObjectDistinct(conns: seq<Connection>, c: Connection)
    requires DistinctIds(conns) && c in conns
    ensures DistinctIds(WithoutObject(conns, c))
  {
    var i := WithoutObjectSplits(conns, c);
  }

  lemma WithoutObjectTakesOne(conns: seq<Connection>, c: Connection)
    requires c in conns
    ensures multiset(WithoutObject(conns, c)) == multiset(conns) - multiset{c}
  {
    var i := WithoutObjectSplits(conns, c);
    assert conns == conns[..i] + [c] + conns[i + 1..];
  }

  lemma {:induction false} WithoutObjectHas(conns: seq<Connection>, c: Connection, d: Connection)
    requires DistinctIds(conns) && c in conns
    ensures d in WithoutObject(conns, c) <==> d in conns && d.id != c.id
  {
    var rest := conns[1..];
    assert conns == [conns[0]] + rest;
    assert forall x :: x in rest ==> x.id != conns[0].id;
    if conns[0] != c {
      WithoutObjectHas(rest, c, d);
    }
  }

  lemma WithoutObjectMember(conns: seq<Connection>, c: Connection)
    requires DistinctIds(conns) && c in conns
    ensures DistinctIds(WithoutObject(conns, c))
    ensures forall d :: d in WithoutObject(conns, c) <==> d in conns && d.id != c.id
  {
    WithoutObjectDistinct(conns, c);
    forall d ensures d in WithoutObject(conns, c) <==> d in conns && d.id != c.id {
      WithoutObjectHas(conns, c, d);
    }
  }

  lemma InvInit(s: State)
    requires Init(s)
    ensures Inv(s)
  {
    var batch :| s.conns == Accepted([], batch);
    AcceptedDistinct([], batch);
    assert [] + s.conns == s.conns;
    FeedsMember(s.conns);
    forall u | u in s.observed ensures u in s.queue {
      assert u in multiset(s.queue);
    }
  }

  lemma RebuiltQueue(order: seq<Url>, observed: set<Url>)
    requires multiset(order) == multiset(observed)
    ensures forall u :: u in observed ==> u in order
  {
    forall u | u in observed ensures u in order {
      assert u in multiset(order);
    }
  }

  lemma InvPush(s: State, e: Event)
    requires Inv(s) && Enabled(s, e) && e.Push?
    ensures Inv(Apply(s, e))
  {
    AcceptedDistinct(s.conns, e.batch);
    FeedsMember(Accepted(s.conns, e.batch));
    if Rebuilds(s, e) {
      RebuiltQueue(e.order, Urls(MirrorAfter(s, e)));
    }
  }

  lemma InvPurge(s: State, e: Event)
    requires Inv(s) && Enabled(s, e) && e.PurgeFinish?
    ensures Inv(Apply(s, e))
  {
    if Purged(s, e) {
      WithoutObjectMember(s.conns, s.pending[e.index]);
      WithoutIdMember(s.mirror, s.pending[e.index].id);
      if Rebuilds(s, e) {
        RebuiltQueue(e.order, Urls(MirrorAfter(s, e)));
      }
    }
  }

  lemma InvWorker(s: State, e: Event)
    requires Inv(s) && Enabled(s, e) && (e.Wake? || e.Requeue? || e.Rest?)
    ensures Inv(Apply(s, e))
  {
    var s' := Apply(s, e);
    var w' := s'.workers[e.w];
    assert s'.workers == s.workers[e.w := w'];
    forall u | u in s.observed ensures u in s'.queue || u in InFlight(s'.workers) {
      assert u in s.queue || u in InFlight(s.workers);
      InFlightCount(s.workers, e.w, w', u);
    }
  }

  lemma InvStep(s: State, e: Event)
    requires Inv(s) && Enabled(s, e)
    ensures Inv(Apply(s, e))
  {
    if e.Push? {
      InvPush(s, e);
    } else if e.PurgeFinish? {
      InvPurge(s, e);
    } else if e.RemoveRoom? {
      WithoutRoomMember(s.conns, e.room);
    } else if e.Wake? || e.Requeue? || e.Rest? {
      InvWorker(s, e);
    }
  }

  lemma {:induction false} InvRun(s: State, run: seq<Event>)
    requires Inv(s) && Valid(s, run)
    ensures Inv(Exec(s, run))
  {
    if run != [] {
      InvRun(s, run[..|run| - 1]);
      InvStep(Exec(s, run[..|run| - 1]), run[|run| - 1]);
    }
  }

  /** No live feed is ever lost, and connection ids stay pairwise distinct. */
  lemma Coverage(s: State, run: seq<Event>)
    requires Init(s) && Valid(s, run)
    ensures Covered(Exec(s, run))
    ensures DistinctIds(Exec(s, run).conns)
  {
    InvInit(s);
    InvRun(s, run);
  }

  // ---------------------------------------------------------------- purging

  /** Every suspended purge holds an object that an earlier lookup by room and id found. */
  ghost predicate WasFound(s: State, run: seq<Event>, c: Connection) {
    exists j :: 0 <= j < |run| && run[j].PurgeFind? && run[j].room == c.room && run[j].id == c.id
                && c in Exec(s, run[..j]).conns
  }

  lemma {:induction false} FindFinds(conns: seq<Connection>, room: string, id: string)
    ensures var r := Find(conns, room, id);
            && (r.Some? ==> r.value in conns && r.value.id == id && r.value.room == room)
            && (r.None? <==> forall c :: c in conns ==> c.id != id || c.room != room)
  {
    if conns != [] {
      FindFinds(conns[1..], room, id);
    }
  }

  lemma {:induction false} PendingWasFound(s: State, run: seq<Event>, c: Connection)
    requires Init(s) && Valid(s, run) && c in Exec(s, run).pending
    ensures WasFound(s, run, c)
  {
    if run != [] {
      var before := run[..|run| - 1];
      var m, e := Exec(s, before), run[|run| - 1];
      if c in m.pending {
        PendingWasFound(s, before, c);
        var j :| 0 <= j < |before| && before[j].PurgeFind? && before[j].room == c.room && before[j].id == c.id
                 && c in Exec(s, before[..j]).conns;
        assert run[j] == before[j] && run[..j] == before[..j];
      } else {
        FindFinds(m.conns, e.room, e.id);
        assert run[..|before|] == before;
      }
    }
  }

  /** A purge suspends iff a connection has the id and the room, and the first such can be removed
      or need not be; it then holds that one, and changes nothing else. */
  lemma PurgeSuspendsIff(s: State, room: string, id: string, requireHandler: bool)
    ensures var s' := Apply(s, PurgeFind(room, id, requireHandler));
            && s' == s.(pending := s'.pending)
            && (s'.pending == s.pending
                || exists i: nat :: FoundFirst(s.conns, room, id, i) && s'.pending == s.pending + [s.conns[i]])
            && (s'.pending != s.pending <==>
                  exists i: nat :: FoundFirst(s.conns, room, id, i) && (s.conns[i].removable || !requireHandler))
  {
    if Find(s.conns, room, id).Some? {
      var i := FindIsFirst(s.conns, room, id);
      assert s.pending + [s.conns[i]] != s.pending by {
        assert |s.pending + [s.conns[i]]| == |s.pending| + 1;
      }
      forall j: nat | FoundFirst(s.conns, room, id, j) ensures j == i {
      }
    } else {
      FindFinds(s.conns, room, id);
      forall j: nat ensures !FoundFirst(s.conns, room, id, j) {
        assert j < |s.conns| ==> s.conns[j] in s.conns;
      }
    }
  }

  predicate FoundFirst(conns: seq<Connection>, room: string, id: string, i: nat) {
    && i < |conns| && conns[i].id == id && conns[i].room == room
    && forall j :: 0 <= j < i ==> conns[j].id != id || conns[j].room != room
  }

  lemma {:induction false} FindIsFirst(conns: seq<Connection>, room: string, id: string) returns (i: nat)
    requires Find(conns, room, id).Some?
    ensures FoundFirst(conns, room, id, i) && Find(conns, room, id).value == conns[i]
  {
    if conns[0].id == id && conns[0].room == room {
      return 0;
    }
    var j := FindIsFirst(conns[1..], room, id);
    i := j + 1;
    assert forall l :: 0 < l <= i ==> conns[l] == conns[1..][l - 1];
  }

  /** A purge resumed in any reachable state takes exactly the object it found out of the
      manager, announces it, and makes the reader forget its id if it is a feed; or it changes
      no connection, mirror or queue and announces nothing. */
  lemma PurgeIsExact(s: State, run: seq<Event>, e: Event)
    requires Init(s) && Valid(s, run) && e.PurgeFinish? && Enabled(Exec(s, run), e)
    ensures var m := Exec(s, run);
            var m' := Apply(m, e);
            var c := m.pending[e.index];
            && WasFound(s, run, c)
            && (e.handlerOk && c in m.conns ==>
                  && (exists i :: TakenOut(m.conns, m'.conns, i, c))
                  && c !in m'.conns
                  && m'.removed == m.removed + [c]
                  && (forall d :: d in m'.mirror <==> d in m.mirror && !(c.kind.Feed? && d.id == c.id)))
            && (!e.handlerOk || c !in m.conns ==> m' == m.(pending := m'.pending))
  {
    InvInit(s);
    InvRun(s, run);
    var m := Exec(s, run);
    var c := m.pending[e.index];
    PendingWasFound(s, run, c);
    if e.handlerOk && c in m.conns {
      var i := WithoutObjectSplits(m.conns, c);
      assert TakenOut(m.conns, Apply(m, e).conns, i, c);
      WithoutObjectMember(m.conns, c);
      WithoutIdMember(m.mirror, c.id);
    }
  }

  /** The i-th element is `c`, and `after` is the rest in the same order. */
  predicate TakenOut(before: seq<Connection>, after: seq<Connection>, i: nat, c: Connection) {
    i < |before| && before[i] == c && after == before[..i] + before[i + 1..]
  }
}
