/**
  When one worker keeps the configured interval: exactly for the feeds that circulate at most
  once. A feed that circulates twice can always be brought round too soon, and a rebuild during
  a poll of a feed that stays observed is how it comes to circulate twice.
 */
module FeedDoubled {
  import opened Common
  import opened FeedQueue
  import opened FeedSchedule
  import opened FeedRate
  import H = ConnectionHistory

  // ---------------------------------------------------------------- continuations

  ghost predicate Free(s: State, run: seq<Event>) {
    Valid(s, run) && RebuildFree(s, run)
  }

  /** One step of a run without rebuild. */
  ghost predicate Step(s: State, e: Event, s': State) {
    Enabled(s, e) && !Rebuilds(s, e) && Apply(s, e) == s'
  }

  lemma Snoc(s: State, run: seq<Event>, e: Event, s': State)
    requires Free(s, run) && Step(Exec(s, run), e, s')
    ensures Free(s, run + [e]) && Exec(s, run + [e]) == s'
    ensures Started(s, run + [e]) == Started(s, run) + Pops(Exec(s, run), e)
  {
    assert (run + [e])[..|run|] == run;
  }

  lemma Unsnoc(s: State, run: seq<Event>, e: Event)
    requires Free(s, run + [e])
    ensures Free(s, run) && Step(Exec(s, run), e, Exec(s, run + [e]))
  {
    assert (run + [e])[..|run|] == run;
  }

  lemma {:induction false} Joined(s: State, a: seq<Event>, b: seq<Event>)
    requires Free(s, a) && Free(Exec(s, a), b)
    ensures Free(s, a + b) && Exec(s, a + b) == Exec(Exec(s, a), b)
  {
    if b == [] {
      assert a + b == a;
    } else {
      var front, e := b[..|b| - 1], b[|b| - 1];
      assert b == front + [e] && a + b == (a + front) + [e];
      Unsnoc(Exec(s, a), front, e);
      Joined(s, a, front);
      Snoc(s, a + front, e, Exec(Exec(s, a), b));
    }
  }

  lemma First(s: State, e: Event, rest: seq<Event>)
    requires Enabled(s, e) && !Rebuilds(s, e) && Free(Apply(s, e), rest)
    ensures Free(s, [e] + rest) && Exec(s, [e] + rest) == Exec(Apply(s, e), rest)
  {
    Snoc(s, [], e, Apply(s, e));
    assert [] + [e] == [e];
    Joined(s, [e], rest);
  }

  // ---------------------------------------------------------------- turns of one worker

  /** The only worker is behind a timer that is due. */
  ghost predicate Settled(s: State) {
    |s.workers| == 1 && s.workers[0].Sleeping? && s.workers[0].wakeAt <= s.now
  }

  /** Whatever the worker is doing, it can end that and its sleep. */
  lemma Settle(s: State) returns (run: seq<Event>)
    requires |s.workers| == 1
    ensures Free(s, run) && Settled(Exec(s, run))
    decreases if s.workers[0].Polling? then 2 else if s.workers[0].Finishing? then 1 else 0
  {
    var e := if s.workers[0].Polling? then Requeue(0)
             else if s.workers[0].Finishing? then Rest(0)
             else Tick(Max(s.workers[0].wakeAt - s.now, 0.0));
    var rest: seq<Event> := [];
    if !e.Tick? {
      rest := Settle(Apply(s, e));
    }
    First(s, e, rest);
    run := [e] + rest;
  }

  /** The state after a turn: the head went to the end, and the interval's share is over. */
  function Turned(s: State, d: real): State
    requires s.queue != []
  {
    s.(queue := s.queue[1..] + [s.queue[0]], workers := [Sleeping(s.now + d)], now := s.now + d)
  }

  /** Interval / Q. */
  function Pause(s: State): real
    requires s.queue != []
  {
    Share(s.interval, |s.queue|, 1)
  }

  lemma PauseIsNoLoss(s: State)
    requires s.queue != [] && s.interval >= 0.0
    ensures Pause(s) >= 0.0
    ensures Span(|s.queue|, Pause(s)) == s.interval
    ensures s.interval > 0.0 ==> Pause(s) > 0.0
  {
    ShareShrinks(s.interval, |s.queue|, |s.queue|, 1);
    TurnTimesFeeds(s.interval, |s.queue|, 1);
    assert Span(1, s.interval) == Span(0, s.interval) + s.interval;
    if Pause(s) == 0.0 {
      SpanIsProduct(|s.queue|, 0.0);
    }
  }

  /** A poll that takes no time, and the sleep after it. */
  function TurnEvents(d: real): seq<Event> {
    [Wake(0)] + [Requeue(0)] + [Rest(0)] + [Tick(d)]
  }

  lemma TurnSteps(s: State, d: real)
    requires Settled(s) && s.queue != [] && s.interval >= 0.0 && d == Pause(s)
    ensures var polling := s.(queue := s.queue[1..], workers := [Polling(s.queue[0], s.now)]);
            var finishing := s.(queue := s.queue[1..] + [s.queue[0]], workers := [Finishing(s.now)]);
            && Step(s, Wake(0), polling) && Pops(s, Wake(0)) == [s.queue[0]]
            && Step(polling, Requeue(0), finishing)
            && Step(finishing, Rest(0), finishing.(workers := [Sleeping(s.now + d)]))
            && Step(finishing.(workers := [Sleeping(s.now + d)]), Tick(d), Turned(s, d))
  {
    PauseIsNoLoss(s);
  }

  lemma OneTurn(s: State, run: seq<Event>, d: real)
    requires Free(s, run) && var m := Exec(s, run); Settled(m) && m.queue != [] && m.interval >= 0.0 && d == Pause(m)
    ensures var m, run' := Exec(s, run), run + [Wake(0)] + [Requeue(0)] + [Rest(0)] + [Tick(d)];
            && Free(s, run') && Exec(s, run') == Turned(m, d) && Settled(Turned(m, d))
            && Started(s, run') == Started(s, run) + [m.queue[0]]
  {
    var m := Exec(s, run);
    TurnSteps(m, d);
    var finishing := m.(queue := m.queue[1..] + [m.queue[0]], workers := [Finishing(m.now)]);
    Snoc(s, run, Wake(0), m.(queue := m.queue[1..], workers := [Polling(m.queue[0], m.now)]));
    Snoc(s, run + [Wake(0)], Requeue(0), finishing);
    Snoc(s, run + [Wake(0)] + [Requeue(0)], Rest(0), finishing.(workers := [Sleeping(m.now + d)]));
    Snoc(s, run + [Wake(0)] + [Requeue(0)] + [Rest(0)], Tick(d), Turned(m, d));
  }

  function Turns(k: nat, d: real): seq<Event> {
    if k == 0 then [] else Turns(k - 1, d) + [Wake(0)] + [Requeue(0)] + [Rest(0)] + [Tick(d)]
  }

  lemma {:induction false} TurnsBegin(k: nat, d: real)
    requires k > 0
    ensures |Turns(k, d)| >= 4 && Turns(k, d)[0] == Wake(0)
  {
    if k > 1 {
      TurnsBegin(k - 1, d);
    }
  }

  function Rotated<T>(queue: seq<T>, k: nat): seq<T>
    requires k <= |queue|
  {
    queue[k..] + queue[..k]
  }

  lemma RotatedOnce<T>(queue: seq<T>, k: nat)
    requires 0 < k <= |queue|
    ensures Rotated(queue, k - 1) != [] && Rotated(queue, k - 1)[0] == queue[k - 1]
    ensures Rotated(queue, k) == Rotated(queue, k - 1)[1..] + [queue[k - 1]]
    ensures queue[..k] == queue[..k - 1] + [queue[k - 1]]
    ensures |Rotated(queue, k - 1)| == |queue|
  {
    var head, before, after := queue[k - 1], queue[..k - 1], queue[k..];
    assert queue[k - 1..] == [head] + after;
    assert Rotated(queue, k - 1) == [head] + (after + before);
    assert queue[..k] == before + [head];
    assert after + (before + [head]) == (after + before) + [head];
  }

  lemma TurnedRotates(s: State, m: State, k: nat, d: real)
    requires 0 < k <= |s.queue| && m.queue == Rotated(s.queue, k - 1) && m.interval == s.interval
    requires m.now == s.now + Span(k - 1, d) && d == Pause(s)
    ensures m.queue != [] && m.queue[0] == s.queue[k - 1] && Pause(m) == d
    ensures Turned(m, d).queue == Rotated(s.queue, k) && Turned(m, d).now == s.now + Span(k, d)
    ensures s.queue[..k] == s.queue[..k - 1] + [m.queue[0]]
  {
    RotatedOnce(s.queue, k);
  }

  /** k turns move the first k URLs to the end, start just those, and take k pauses. */
  lemma {:induction false} Rotate(s: State, k: nat, d: real)
    requires Settled(s) && s.queue != [] && s.interval >= 0.0 && d == Pause(s) && k <= |s.queue|
    ensures Free(s, Turns(k, d))
    ensures var m := Exec(s, Turns(k, d));
            Settled(m) && m.queue == Rotated(s.queue, k) && m.interval == s.interval && m.now == s.now + Span(k, d)
    ensures Started(s, Turns(k, d)) == s.queue[..k]
  {
    if k == 0 {
      assert Rotated(s.queue, 0) == s.queue;
    } else {
      Rotate(s, k - 1, d);
      TurnedRotates(s, Exec(s, Turns(k - 1, d)), k, d);
      OneTurn(s, Turns(k - 1, d), d);
    }
  }

  // ---------------------------------------------------------------- too soon

  /** After `before` the run starts `u` twice, less than the interval apart. */
  ghost predicate TooSoon(s: State, before: seq<Event>, run: seq<Event>, u: Url) {
    && Free(s, before)
    && var m := Exec(s, before);
    && Free(m, run) && BetweenStarts(m, run, u)
    && Exec(m, run).now - m.now < m.interval
  }

  /** Neighbouring occurrences of `u`. */
  predicate Neighbours<T(==)>(queue: seq<T>, u: T, i: nat, j: nat) {
    i < j < |queue| && queue[i] == u == queue[j] && forall l :: i < l < j ==> queue[l] != u
  }

  lemma NeighboursRotate<T>(queue: seq<T>, u: T, i: nat, j: nat)
    requires Neighbours(queue, u, i, j)
    ensures Neighbours(Rotated(queue, i), u, 0, j - i)
  {
    forall l | 0 <= l <= j - i ensures Rotated(queue, i)[l] == queue[i + l] {
    }
  }

  lemma {:induction false} FirstOf<T>(queue: seq<T>, u: T) returns (i: nat)
    requires u in queue
    ensures i < |queue| && queue[i] == u && u !in queue[..i]
  {
    if queue[0] == u {
      return 0;
    }
    var j := FirstOf(queue[1..], u);
    i := j + 1;
    assert queue[..i] == [queue[0]] + queue[1..][..j];
  }

  lemma RepeatedHasNeighbours<T>(queue: seq<T>, u: T) returns (i: nat, j: nat)
    requires multiset(queue)[u] >= 2
    ensures Neighbours(queue, u, i, j)
  {
    i := FirstOf(queue, u);
    var front, rest := queue[..i], queue[i + 1..];
    assert queue == front + [u] + rest;
    assert multiset(queue)[u] == multiset(front)[u] + 1 + multiset(rest)[u];
    var l := FirstOf(rest, u);
    j := i + 1 + l;
    forall x | i < x < j ensures queue[x] != u {
      assert queue[x] == rest[x - i - 1] == rest[..l][x - i - 1];
    }
  }

  lemma {:induction false} SpanGrows(k: nat, n: nat, d: real)
    requires k < n && d > 0.0
    ensures Span(k, d) < Span(n, d)
  {
    if k < n - 1 {
      SpanGrows(k, n - 1, d);
    }
  }

  lemma ShortOfTheInterval(s: State, j: nat)
    requires s.interval > 0.0 && j < |s.queue|
    ensures Span(j, Pause(s)) < s.interval
  {
    PauseIsNoLoss(s);
    SpanGrows(j, |s.queue|, Pause(s));
  }

  lemma WakeTakesTheHead(m: State, m': State, u: Url)
    requires Settled(m) && m.queue != [] && m.queue[0] == u
    requires m' == m.(queue := m.queue[1..], workers := [Polling(u, m.now)])
    ensures Step(m, Wake(0), m') && Pops(m, Wake(0)) == [u]
  {
    assert m.workers[0 := Polling(u, m.now)] == [Polling(u, m.now)];
  }

  lemma ClosesTheRound(s: State, u: Url, turns: seq<Event>, e: Event)
    requires turns != [] && Pops(s, turns[0]) == [u] && NotAgain(Started(s, turns), u)
    requires Pops(Exec(s, turns), e) == [u]
    ensures BetweenStarts(s, turns + [e], u)
  {
    var run := turns + [e];
    assert run[..|run| - 1] == turns && run[0] == turns[0] && run[|run| - 1] == e;
  }

  /** A run that starts the URLs ahead of the next `u`, and then `u`. */
  lemma ThenTheHead(s: State, u: Url, turns: seq<Event>)
    requires Free(s, turns) && turns != [] && Pops(s, turns[0]) == [u] && NotAgain(Started(s, turns), u)
    requires var m := Exec(s, turns); Settled(m) && m.queue != [] && m.queue[0] == u && m.now - s.now < s.interval
    ensures var run := turns + [Wake(0)];
            Free(s, run) && BetweenStarts(s, run, u) && Exec(s, run).now - s.now < s.interval
  {
    var m := Exec(s, turns);
    var m' := m.(queue := m.queue[1..], workers := [Polling(u, m.now)]);
    WakeTakesTheHead(m, m', u);
    Snoc(s, turns, Wake(0), m');
    ClosesTheRound(s, u, turns, Wake(0));
  }

  /** From a settled state whose queue begins with `u` and has it again j places further on. */
  lemma HeadComesAgain(s: State, u: Url, j: nat)
    requires Settled(s) && s.interval > 0.0 && Neighbours(s.queue, u, 0, j)
    ensures var run := Turns(j, Pause(s)) + [Wake(0)];
            Free(s, run) && BetweenStarts(s, run, u) && Exec(s, run).now - s.now < s.interval
  {
    Rotate(s, j, Pause(s));
    TurnsBegin(j, Pause(s));
    ShortOfTheInterval(s, j);
    assert Rotated(s.queue, j)[0] == s.queue[j];
    ThenTheHead(s, u, Turns(j, Pause(s)));
  }

  lemma SettledQueue(m: State, u: Url)
    requires Settled(m)
    ensures Copies(m, u) == multiset(m.queue)[u]
  {
    assert InFlight(m.workers) == Held(m.workers[0]) + InFlight(m.workers[1..]);
  }

  lemma SettledComesTooSoon(m: State, u: Url) returns (before: seq<Event>, run: seq<Event>)
    requires Settled(m) && m.interval > 0.0 && Copies(m, u) >= 2
    ensures TooSoon(m, before, run, u)
  {
    SettledQueue(m, u);
    var i, j := RepeatedHasNeighbours(m.queue, u);
    NeighboursRotate(m.queue, u, i, j);
    before := Turns(i, Pause(m));
    Rotate(m, i, Pause(m));
    var head := Exec(m, before);
    HeadComesAgain(head, u, j - i);
    run := Turns(j - i, Pause(head)) + [Wake(0)];
  }

  /** A feed that circulates twice can be brought round too soon from any state. */
  lemma RepeatedComesTooSoon(s: State, u: Url) returns (before: seq<Event>, run: seq<Event>)
    requires |s.workers| == 1 && s.interval > 0.0 && Copies(s, u) >= 2
    ensures TooSoon(s, before, run, u)
  {
    var settle := Settle(s);
    KeepsCirculating(s, settle);
    var turns: seq<Event>;
    turns, run := SettledComesTooSoon(Exec(s, settle), u);
    Joined(s, settle, turns);
    before := settle + turns;
  }

  /** One worker keeps the interval between any two starts of a feed, in every continuation
      without rebuild, iff the feed circulates at most once (or there is no interval to keep). */
  lemma IntervalIsKeptIff(s: State, u: Url)
    requires |s.workers| == 1 && s.interval >= 0.0
    ensures (forall before, run :: !TooSoon(s, before, run, u)) <==> Copies(s, u) <= 1 || s.interval == 0.0
  {
    if Copies(s, u) >= 2 && s.interval > 0.0 {
      var before, run := RepeatedComesTooSoon(s, u);
    } else {
      forall before, run ensures !TooSoon(s, before, run, u) {
        if Free(s, before) && Free(Exec(s, before), run) && BetweenStarts(Exec(s, before), run, u) {
          KeepsCirculating(s, before);
          KeepsCirculating(Exec(s, before), run);
          if Copies(s, u) <= 1 {
            OneWorkerKeepsTheInterval(Exec(s, before), run, u);
          }
        }
      }
    }
  }

  /** So, from the start on: a feed can come too soon iff it was being polled at the last rebuild
      and is still observed (with one worker it cannot have been polled twice). */
  lemma DoubledByRebuildIff(s: State, run: seq<Event>, u: Url)
    requires Init(s) && Valid(s, run) && |s.workers| == 1 && s.interval > 0.0
    ensures (exists before, more :: TooSoon(Exec(s, run), before, more, u))
            <==> u in Carried(s, run) && u in Exec(s, run).observed
  {
    var m := Exec(s, run);
    Conservation(s, run);
    CopiesAre(s, run, u);
    FixedFrame(s, run);
    AtMostAll(Carried(s, run), u);
    IntervalIsKeptIff(m, u);
  }

  lemma {:induction false} FixedFrame(s: State, run: seq<Event>)
    requires Valid(s, run)
    ensures Exec(s, run).interval == s.interval
  {
    if run != [] {
      FixedFrame(s, run[..|run| - 1]);
      StepFrame(Exec(s, run[..|run| - 1]), run[|run| - 1]);
    }
  }

  lemma AtMostAll(m: multiset<Url>, u: Url)
    ensures m[u] <= |m|
  {
    var rest := m[u := 0];
    assert m == rest + multiset{}[u := m[u]];
    assert |multiset{}[u := m[u]]| == m[u];
  }

  // ---------------------------------------------------------------- how it comes about

  function Second(): Connection { Connection(1, "d", "!r:h", Feed(Some("v")), true) }

  function Begin(): State { H.OneFeedOneWorker(3.0, 0.0) }

  /** Two feeds, one worker, and an interval of three. */
  function TwoFeeds(queue: seq<Url>, w: Worker): State {
    var conns := [H.OneFeed(), Second()];
    State(conns, [], [], conns, {"u", "v"}, queue, [w], 3.0, 0.0)
  }

  /** The one feed is being polled when a second one is added. */
  function AddedDuringPoll(): seq<Event> { [] + [Wake(0)] + [Push([Second()], ["u", "v"])] }

  lemma PushRebuilds(s: State)
    requires s == Begin().(queue := [], workers := [Polling("u", 0.0)])
    ensures var e := Push([Second()], ["u", "v"]);
            Enabled(s, e) && Rebuilds(s, e) && Apply(s, e) == TwoFeeds(["u", "v"], Polling("u", 0.0))
  {
    var d := Second();
    assert [d][1..] == [];
    assert !HasId(s.conns, "d");
    assert Accepted(s.conns, [d]) == [d] && Feeds([d]) == [d];
    assert [H.OneFeed()] + [d] == [H.OneFeed(), d];
    assert Urls([H.OneFeed(), d]) == {"u", "v"};
    assert multiset(["u", "v"]) == multiset({"u", "v"});
  }

  lemma AddedState()
    ensures Valid(Begin(), AddedDuringPoll())
    ensures Exec(Begin(), AddedDuringPoll()) == TwoFeeds(["u", "v"], Polling("u", 0.0))
  {
    var s := Begin();
    ExecSnoc(s, [], Wake(0));
    PushRebuilds(Exec(s, [] + [Wake(0)]));
    ExecSnoc(s, [] + [Wake(0)], Push([Second()], ["u", "v"]));
  }

  /** A run from the start after which the first feed circulates twice and can come too soon. */
  lemma AddingDuringPollDoubles()
    ensures Init(Begin()) && Valid(Begin(), AddedDuringPoll())
    ensures Copies(Exec(Begin(), AddedDuringPoll()), "u") == 2
    ensures exists before, run :: TooSoon(Exec(Begin(), AddedDuringPoll()), before, run, "u")
  {
    var m := Exec(Begin(), AddedDuringPoll());
    H.OneFeedStarts(3.0, 0.0);
    AddedState();
    assert m.queue == ["u"] + ["v"];
    assert m.workers[1..] == [] && InFlight(m.workers) == Held(m.workers[0]) + InFlight([]);
    var before, run := RepeatedComesTooSoon(m, "u");
  }
}
