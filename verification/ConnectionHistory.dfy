/**
  What becomes of connections over a run of the feed machine: every one ever accepted is held,
  was announced as removed, or went with its room unannounced, and which feeds the reader
  therefore goes on polling for nobody.
 */
module ConnectionHistory {
  import opened Common
  import opened FeedQueue

  // ---------------------------------------------------------------- conservation

  /** The connections a step adds, announces as removed, and drops without a word. */
  function Added(s: State, e: Event): seq<Connection> {
    if e.Push? then Accepted(s.conns, e.batch) else []
  }

  function Announced(s: State, e: Event): seq<Connection> {
    if Purged(s, e) then [s.pending[e.index]] else []
  }

  function Dropped(s: State, e: Event): seq<Connection> {
    if e.RemoveRoom? then OfRoom(s.conns, e.room) else []
  }

  function OfRoom(conns: seq<Connection>, room: string): seq<Connection> {
    if conns == [] then []
    else (if conns[0].room == room then [conns[0]] else []) + OfRoom(conns[1..], room)
  }

  function AllAdded(s: State, run: seq<Event>): seq<Connection> {
    if run == [] then []
    else AllAdded(s, run[..|run| - 1]) + Added(Exec(s, run[..|run| - 1]), run[|run| - 1])
  }

  function AllDropped(s: State, run: seq<Event>): seq<Connection> {
    if run == [] then []
    else AllDropped(s, run[..|run| - 1]) + Dropped(Exec(s, run[..|run| - 1]), run[|run| - 1])
  }

  /** How many purges of the run found their object still there and a handler that agreed. */
  function SuccessfulPurges(s: State, run: seq<Event>): nat {
    if run == [] then 0
    else SuccessfulPurges(s, run[..|run| - 1]) + if Purged(Exec(s, run[..|run| - 1]), run[|run| - 1]) then 1 else 0
  }

  lemma {:induction false} RoomSplits(conns: seq<Connection>, room: string)
    ensures multiset(conns) == multiset(WithoutRoom(conns, room)) + multiset(OfRoom(conns, room))
  {
    if conns != [] {
      assert conns == [conns[0]] + conns[1..];
      RoomSplits(conns[1..], room);
    }
  }

  ghost predicate Accounts(s: State, e: Event) {
    multiset(s.conns) + multiset(Added(s, e))
    == multiset(Apply(s, e).conns) + multiset(Announced(s, e)) + multiset(Dropped(s, e))
  }

  lemma PushAccounts(s: State, e: Event)
    requires Enabled(s, e) && e.Push?
    ensures Accounts(s, e)
  {
    assert Announced(s, e) == [] && Dropped(s, e) == [];
    assert Apply(s, e).conns == s.conns + Added(s, e);
  }

  lemma PurgeAccounts(s: State, e: Event)
    requires Enabled(s, e) && Purged(s, e)
    ensures Accounts(s, e)
  {
    var c := s.pending[e.index];
    WithoutObjectTakesOne(s.conns, c);
    assert Added(s, e) == [] && Announced(s, e) == [c] && Dropped(s, e) == [];
    assert Apply(s, e).conns == WithoutObject(s.conns, c);
    assert multiset(s.conns) == multiset(s.conns) - multiset{c} + multiset{c};
  }

  lemma RoomAccounts(s: State, e: Event)
    requires Enabled(s, e) && e.RemoveRoom?
    ensures Accounts(s, e)
  {
    RoomSplits(s.conns, e.room);
    assert Added(s, e) == [] && Announced(s, e) == [];
  }

  lemma StepAccounts(s: State, e: Event)
    requires Enabled(s, e)
    ensures Accounts(s, e)
    ensures Apply(s, e).removed == s.removed + Announced(s, e)
  {
    if e.Push? {
      PushAccounts(s, e);
    } else if Purged(s, e) {
      PurgeAccounts(s, e);
    } else if e.RemoveRoom? {
      RoomAccounts(s, e);
    } else {
      assert Added(s, e) == [] && Announced(s, e) == [] && Dropped(s, e) == [];
      assert Apply(s, e).conns == s.conns;
    }
  }

  lemma Carry(i: multiset<Connection>, a: multiset<Connection>, c: multiset<Connection>, r: multiset<Connection>,
              d: multiset<Connection>, a': multiset<Connection>, c': multiset<Connection>, r': multiset<Connection>, d': multiset<Connection>)
    requires i + a == c + r + d && c + a' == c' + r' + d'
    ensures i + (a + a') == c' + (r + r') + (d + d')
  {
    assert i + (a + a') == (i + a) + a' == (c + a') + r + d;
    assert (c' + r' + d') + r + d == c' + (r + r') + (d + d');
  }

  /** On every run, 'connection-removed' is emitted once for each successful purge, and what was
      there at first or accepted since is held, announced as removed, or dropped with a room. */
  lemma {:induction false} ConnectionsAreConserved(s: State, run: seq<Event>)
    requires Init(s) && Valid(s, run)
    ensures var m := Exec(s, run);
            && |m.removed| == SuccessfulPurges(s, run)
            && multiset(s.conns) + multiset(AllAdded(s, run))
               == multiset(m.conns) + multiset(m.removed) + multiset(AllDropped(s, run))
  {
    if run != [] {
      var before, e := run[..|run| - 1], run[|run| - 1];
      var m := Exec(s, before);
      ConnectionsAreConserved(s, before);
      StepAccounts(m, e);
      Carry(multiset(s.conns), multiset(AllAdded(s, before)), multiset(m.conns), multiset(m.removed),
            multiset(AllDropped(s, before)), multiset(Added(m, e)), multiset(Apply(m, e).conns),
            multiset(Announced(m, e)), multiset(Dropped(m, e)));
    }
  }

  // ---------------------------------------------------------------- feeds nobody wants

  /** The reader tracks a connection that the manager no longer holds. */
  predicate Stray(s: State, c: Connection) { c in s.mirror && c !in s.conns }

  /** The step adds `c`, or purges a feed with its id. */
  predicate Touches(s: State, e: Event, c: Connection) {
    || c in Added(s, e)
    || (Purged(s, e) && s.pending[e.index].kind.Feed? && s.pending[e.index].id == c.id)
  }

  /** The j-th step drops the feed `c` with its room, and no later one touches it. */
  ghost predicate DroppedAt(s: State, run: seq<Event>, c: Connection, j: nat) {
    && j < |run| && c.kind.Feed? && run[j] == RemoveRoom(c.room) && c in Exec(s, run[..j]).conns
    && forall l :: j < l < |run| ==> !Touches(Exec(s, run[..l]), run[l], c)
  }

  ghost predicate WasDropped(s: State, run: seq<Event>, c: Connection) {
    exists j: nat :: DroppedAt(s, run, c, j)
  }

  lemma StrayPurge(s: State, e: Event, c: Connection)
    requires Inv(s) && Enabled(s, e) && Purged(s, e)
    ensures Stray(Apply(s, e), c) <==> Stray(s, c) && !Touches(s, e, c)
  {
    var p := s.pending[e.index];
    WithoutObjectMember(s.conns, p);
    WithoutIdMember(s.mirror, p.id);
    assert Added(s, e) == [];
    if c in s.conns && c.id == p.id {
      assert c == p;
    }
  }

  lemma StrayStep(s: State, e: Event, c: Connection)
    requires Inv(s) && Enabled(s, e)
    ensures Stray(Apply(s, e), c) <==>
              || (Stray(s, c) && !Touches(s, e, c))
              || (c.kind.Feed? && c in s.conns && e == RemoveRoom(c.room))
  {
    if e.Push? {
      FeedsMember(Accepted(s.conns, e.batch));
    } else if Purged(s, e) {
      StrayPurge(s, e, c);
    } else if e.RemoveRoom? {
      WithoutRoomMember(s.conns, e.room);
    }
  }

  lemma DroppedStep(s: State, before: seq<Event>, e: Event, c: Connection)
    ensures WasDropped(s, before + [e], c) <==>
              || (WasDropped(s, before, c) && !Touches(Exec(s, before), e, c))
              || (c.kind.Feed? && c in Exec(s, before).conns && e == RemoveRoom(c.room))
  {
    var run := before + [e];
    assert run[..|before|] == before;
    forall i | 0 <= i < |before| ensures run[..i] == before[..i] && run[i] == before[i] {
    }
    if j: nat :| DroppedAt(s, before, c, j) && !Touches(Exec(s, before), e, c) {
      assert DroppedAt(s, run, c, j);
    }
    if c.kind.Feed? && c in Exec(s, before).conns && e == RemoveRoom(c.room) {
      assert DroppedAt(s, run, c, |before|);
    }
    if j: nat :| DroppedAt(s, run, c, j) && j < |before| {
      assert !Touches(Exec(s, run[..|before|]), run[|before|], c);
      assert DroppedAt(s, before, c, j);
    }
  }

  /** On every run, the reader tracks a connection the manager lacks iff it is a feed that went
      with its room and was neither added again nor purged by id since. */
  lemma {:induction false} StrayIff(s: State, run: seq<Event>, c: Connection)
    requires Init(s) && Valid(s, run)
    ensures Stray(Exec(s, run), c) <==> WasDropped(s, run, c)
  {
    if run == [] {
      FeedsMember(s.conns);
    } else {
      var before, e := run[..|run| - 1], run[|run| - 1];
      InvInit(s);
      InvRun(s, before);
      StrayIff(s, before, c);
      StrayStep(Exec(s, before), e, c);
      assert run == before + [e];
      DroppedStep(s, before, e, c);
    }
  }

  /** An observed URL is wanted by no connection of the manager iff it is the URL of a feed that
      went with its room, and no connection held has it. */
  lemma OrphanedIff(s: State, run: seq<Event>, u: Url)
    requires Init(s) && Valid(s, run)
    ensures var m := Exec(s, run);
            u in m.observed && u !in Urls(m.conns) <==>
              && u !in Urls(m.conns)
              && exists c: Connection :: c.kind == Feed(Some(u)) && WasDropped(s, run, c)
  {
    InvInit(s);
    InvRun(s, run);
    var m := Exec(s, run);
    if u in m.observed && u !in Urls(m.conns) {
      var c :| c in m.mirror && c.kind == Feed(Some(u));
      StrayIff(s, run, c);
    }
    if c: Connection :| c.kind == Feed(Some(u)) && WasDropped(s, run, c) {
      StrayIff(s, run, c);
    }
  }

  function OneFeed(): Connection { Connection(0, "c", "!r:h", Feed(Some("u")), true) }

  function OneFeedOneWorker(interval: real, now: real): State {
    State([OneFeed()], [], [], [OneFeed()], {"u"}, ["u"], [Sleeping(now)], interval, now)
  }

  lemma OneFeedStarts(interval: real, now: real)
    requires interval >= 0.0
    ensures Init(OneFeedOneWorker(interval, now))
  {
    var c := OneFeed();
    assert [c][1..] == [];
    assert Accepted([], [c]) == [c] && Feeds([c]) == [c];
    assert Urls([c]) == {"u"};
  }

  /** A room's removal makes no difference to the next turn of a worker. */
  lemma RemovalThenWake(s: State, room: string, w: nat)
    requires Enabled(s, Wake(w)) && s.queue != []
    ensures var run := [] + [RemoveRoom(room)] + [Wake(w)];
            && Valid(s, run)
            && Exec(s, run) == Apply(s, Wake(w)).(conns := WithoutRoom(s.conns, room))
  {
    var e := RemoveRoom(room);
    ExecSnoc(s, [], e);
    ExecSnoc(s, [] + [e], Wake(w));
    assert Exec(s, [] + [e]) == s.(conns := WithoutRoom(s.conns, room));
  }

  /** One feed, its room removed, and a worker's turn: the feed is polled for nobody. */
  lemma RemovedRoomIsStillPolled(interval: real, now: real)
    requires interval >= 0.0
    ensures var s := OneFeedOneWorker(interval, now);
            var run := [] + [RemoveRoom("!r:h")] + [Wake(0)];
            && Init(s) && Valid(s, run)
            && Exec(s, run).conns == [] && Exec(s, run).workers == [Polling("u", now)]
  {
    OneFeedStarts(interval, now);
    RemovalThenWake(OneFeedOneWorker(interval, now), "!r:h", 0);
    assert WithoutRoom([OneFeed()], "!r:h") == WithoutRoom([], "!r:h");
  }
}
