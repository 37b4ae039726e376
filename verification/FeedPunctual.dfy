/**
  Exactly when a worker is due again: the bounds of FeedRate from the other side. With punctual
  timers a single worker's turns follow each other exactly.
 */
module FeedPunctual {
  import opened FeedQueue
  import opened FeedSchedule
  import opened FeedRate

  /** `d` is the interval divided by the queue's length, or by one if it is empty, for each of
      the workers. */
  predicate IsShare(d: real, interval: real, queued: nat, workers: nat) {
    d * (if queued == 0 then 1.0 else queued as real) == interval * workers as real
  }

  function Later(a: real, b: real): real { if a < b then b else a }

  lemma ShareIs(interval: real, parts: nat, workers: nat)
    requires parts > 0
    ensures Share(interval, parts, workers) * parts as real == interval * workers as real
  {
    var q, p, n := interval / parts as real, parts as real, workers as real;
    Quotient(interval, p);
    assert q * n * p == q * p * n;
  }

  /** A worker that started a poll at `t` and rests now is due exactly at the later of now and
      one share of the interval after `t`; nothing else changes. */
  lemma DueExactly(s: State, w: nat, t: real, d: real)
    requires w < |s.workers| && s.workers[w] == Finishing(t)
    requires IsShare(d, s.interval, |s.queue|, |s.workers|)
    ensures Enabled(s, Rest(w))
    ensures Apply(s, Rest(w)) == s.(workers := s.workers[w := Sleeping(Later(s.now, t + d))])
  {
    OnlyShare(s, d);
  }

  /** A worker that finds the queue empty sleeps exactly the whole interval for each worker. */
  lemma IdleExactly(s: State, w: nat)
    requires Enabled(s, Wake(w)) && s.queue == []
    ensures Apply(s, Wake(w)) == s.(workers := s.workers[w := Sleeping(s.now + s.interval * |s.workers| as real)])
  {
    ShareIs(s.interval, 1, |s.workers|);
  }

  lemma OnlyShare(s: State, d: real)
    requires IsShare(d, s.interval, |s.queue|, |s.workers|)
    ensures d == SleepingInterval(s)
  {
    var parts := if |s.queue| == 0 then 1 else |s.queue|;
    ShareIs(s.interval, parts, |s.workers|);
    SameFactor(d, SleepingInterval(s), parts as real);
  }

  lemma SameFactor(a: real, b: real, c: real)
    requires c > 0.0 && a * c == b * c
    ensures a == b
  {
    if a < b {
      ProductGrowsStrictly(a, b, c);
    } else if b < a {
      ProductGrowsStrictly(b, a, c);
    }
  }

  // ---------------------------------------------------------------- one worker on time

  /** No time passes while the worker's timer is due. */
  predicate OnTime(s: State, e: Event) {
    e.Tick? && |s.workers| == 1 && s.workers[0].Sleeping? ==> s.now + e.dt <= s.workers[0].wakeAt
  }

  predicate Punctual(s: State, run: seq<Event>) {
    run == [] ||
    (Punctual(s, run[..|run| - 1]) && OnTime(Exec(s, run[..|run| - 1]), run[|run| - 1]))
  }

  /** When the worker last came to the end of a poll and rested. */
  function RestedAt(s: State, run: seq<Event>): real {
    if run == [] then s.now
    else if run[|run| - 1] == Rest(0) then Exec(s, run[..|run| - 1]).now
    else RestedAt(s, run[..|run| - 1])
  }

  /** Where the worker is in the turn that the run begins: once it rests, it is due at the later
      of then and `d` after the run's beginning. */
  ghost predicate InTurn(s: State, run: seq<Event>, d: real) {
    var m := Exec(s, run);
    && |m.workers| == 1
    && match m.workers[0]
       case Polling(_, t) => t == s.now
       case Finishing(t) => t == s.now
       case Sleeping(wakeAt) => m.now <= wakeAt && Rest(0) in run && wakeAt == Later(RestedAt(s, run), s.now + d)
  }

  /** `d` is interval / Q: Q times `d`, end to end, make up the interval. */
  predicate Paces(d: real, interval: real, urls: nat) {
    urls > 0 && d >= 0.0 && Span(urls, d) == interval
  }

  ghost predicate IsPace(s: State, d: real) { Paces(d, s.interval, Circulating(s)) }

  lemma PacedInterval(m: State, d: real)
    requires |m.workers| == 1 && m.workers[0].Finishing? && IsPace(m, d)
    ensures SleepingInterval(m) == d
  {
    assert InFlight(m.workers) == Held(m.workers[0]) + InFlight(m.workers[1..]);
    assert |m.queue| == Circulating(m);
    SpanIsProduct(|m.queue|, d);
    OnlyShare(m, d);
  }

  lemma RestedSnoc(s: State, run: seq<Event>, e: Event)
    ensures RestedAt(s, run + [e]) == if e == Rest(0) then Exec(s, run).now else RestedAt(s, run)
  {
    assert (run + [e])[..|run|] == run;
  }

  ghost predicate RestsFor(m: State, d: real) {
    |m.workers| == 1 && m.workers[0].Finishing? ==> SleepingInterval(m) == d
  }

  /** Whenever along the run the worker can rest, the interval computed is `d`. */
  ghost predicate AlwaysRestsFor(s: State, run: seq<Event>, d: real) {
    run == [] || (AlwaysRestsFor(s, run[..|run| - 1], d) && RestsFor(Exec(s, run[..|run| - 1]), d))
  }

  lemma PacedRest(s: State, run: seq<Event>, d: real)
    requires Valid(s, run) && RebuildFree(s, run) && IsPace(s, d)
    ensures RestsFor(Exec(s, run), d)
  {
    PaceIsKept(s, run, d);
    var m := Exec(s, run);
    if |m.workers| == 1 && m.workers[0].Finishing? {
      PacedInterval(m, d);
    }
  }

  lemma {:induction false} PaceRests(s: State, run: seq<Event>, d: real)
    requires Valid(s, run) && RebuildFree(s, run) && IsPace(s, d)
    ensures AlwaysRestsFor(s, run, d)
  {
    if run != [] {
      PaceRests(s, run[..|run| - 1], d);
      PacedRest(s, run[..|run| - 1], d);
    }
  }

  lemma RestStep(s: State, run: seq<Event>, d: real)
    requires InTurn(s, run, d) && RestsFor(Exec(s, run), d) && Enabled(Exec(s, run), Rest(0))
    ensures InTurn(s, run + [Rest(0)], d)
  {
    ExecSnoc(s, run, Rest(0));
    RestedSnoc(s, run, Rest(0));
  }

  lemma OtherStep(s: State, run: seq<Event>, e: Event, d: real)
    requires InTurn(s, run, d) && Enabled(Exec(s, run), e) && !Rebuilds(Exec(s, run), e)
    requires OnTime(Exec(s, run), e) && !e.Wake? && !e.Rest?
    ensures InTurn(s, run + [e], d)
  {
    var m := Exec(s, run);
    ExecSnoc(s, run, e);
    RestedSnoc(s, run, e);
  }

  lemma TurnStep(s: State, run: seq<Event>, e: Event, d: real)
    requires InTurn(s, run, d) && RestsFor(Exec(s, run), d) && e != Wake(0)
    requires Enabled(Exec(s, run), e) && !Rebuilds(Exec(s, run), e) && OnTime(Exec(s, run), e)
    ensures InTurn(s, run + [e], d)
  {
    if e.Rest? {
      RestStep(s, run, d);
    } else {
      OtherStep(s, run, e, d);
    }
  }

  lemma BeginsTurn(s: State, d: real)
    requires |s.workers| == 1 && s.queue != [] && Enabled(s, Wake(0))
    ensures InTurn(s, [Wake(0)], d)
  {
    ExecSnoc(s, [], Wake(0));
    assert [] + [Wake(0)] == [Wake(0)];
    assert s.workers[0 := Polling(s.queue[0], s.now)] == [Polling(s.queue[0], s.now)];
  }

  lemma PaceIsKept(s: State, run: seq<Event>, d: real)
    requires Valid(s, run) && RebuildFree(s, run) && IsPace(s, d)
    ensures IsPace(Exec(s, run), d)
  {
    KeepsCirculating(s, run);
  }

  lemma {:induction false} TurnPhase(s: State, run: seq<Event>, d: real)
    requires Valid(s, run) && RebuildFree(s, run) && Punctual(s, run)
    requires |s.workers| == 1 && s.queue != [] && AlwaysRestsFor(s, run, d)
    requires run != [] && run[0] == Wake(0) && WakesBy(run, 0) == 1
    ensures InTurn(s, run, d)
  {
    var before, e := run[..|run| - 1], run[|run| - 1];
    assert run == before + [e];
    if before == [] {
      assert run == [Wake(0)] && before == [];
      BeginsTurn(s, d);
    } else {
      StillOnce(run);
      TurnPhase(s, before, d);
      TurnStep(s, before, e, d);
    }
  }

  /** A run with one wake of worker 0, at its beginning, has none at its end. */
  lemma {:induction false} StillOnce(run: seq<Event>)
    requires |run| > 1 && run[0] == Wake(0) && WakesBy(run, 0) == 1
    ensures run[..|run| - 1][0] == Wake(0) && WakesBy(run[..|run| - 1], 0) == 1
    ensures run[|run| - 1] != Wake(0)
  {
    var before := run[..|run| - 1];
    FirstCounts(before);
  }

  lemma {:induction false} FirstCounts(run: seq<Event>)
    requires run != [] && run[0] == Wake(0)
    ensures WakesBy(run, 0) >= 1
  {
    if |run| > 1 {
      FirstCounts(run[..|run| - 1]);
    }
  }

  /** With one worker, Q circulating URLs, no rebuild and punctual timers, one poll starts exactly
      the longer of interval / Q and the duration of the poll before it after that one started. */
  lemma TurnsAreExact(s: State, run: seq<Event>, d: real)
    requires |s.workers| == 1 && s.queue != [] && IsPace(s, d)
    requires run != [] && run[0] == Wake(0) && WakesBy(run, 0) == 1
    requires Valid(s, run + [Wake(0)]) && RebuildFree(s, run) && Punctual(s, run)
    ensures Rest(0) in run
    ensures Exec(s, run + [Wake(0)]).now - s.now == Later(d, RestedAt(s, run) - s.now)
  {
    ExecSnoc(s, run, Wake(0));
    PaceRests(s, run, d);
    TurnEnds(s, run, d);
  }

  lemma TurnEnds(s: State, run: seq<Event>, d: real)
    requires |s.workers| == 1 && s.queue != [] && AlwaysRestsFor(s, run, d)
    requires run != [] && run[0] == Wake(0) && WakesBy(run, 0) == 1
    requires Valid(s, run) && RebuildFree(s, run) && Punctual(s, run) && Enabled(Exec(s, run), Wake(0))
    ensures Rest(0) in run
    ensures Exec(s, run + [Wake(0)]).now - s.now == Later(d, RestedAt(s, run) - s.now)
  {
    ExecSnoc(s, run, Wake(0));
    TurnPhase(s, run, d);
    WakesInTime(Exec(s, run));
    TurnIsOver(s, run, d, Exec(s, run));
  }

  lemma TurnIsOver(s: State, run: seq<Event>, d: real, m: State)
    requires m == Exec(s, run) && InTurn(s, run, d)
    requires m.workers[0].Sleeping? && m.workers[0].wakeAt <= m.now
    ensures Rest(0) in run && m.now - s.now == Later(d, RestedAt(s, run) - s.now)
  {
    LaterShifts(m.now, RestedAt(s, run), s.now, d);
  }

  lemma LaterShifts(now: real, rested: real, began: real, d: real)
    requires now == Later(rested, began + d)
    ensures now - began == Later(d, rested - began)
  {
  }

  lemma WakesInTime(m: State)
    requires |m.workers| == 1 && Enabled(m, Wake(0))
    ensures m.workers[0].Sleeping? && m.workers[0].wakeAt <= m.now && Apply(m, Wake(0)).now == m.now
  {
  }

  /** The only feed of a single worker is polled exactly every interval, or as often as its polls
      allow if they take longer. */
  lemma OnlyFeedIsExact(s: State, run: seq<Event>, u: Url)
    requires |s.workers| == 1 && s.queue == [u] && s.workers[0].Sleeping? && s.interval >= 0.0
    requires run != [] && run[0] == Wake(0) && WakesBy(run, 0) == 1
    requires Valid(s, run + [Wake(0)]) && RebuildFree(s, run) && Punctual(s, run)
    ensures Pops(s, run[0]) == [u] && Pops(Exec(s, run), Wake(0)) == [u]
    ensures Exec(s, run + [Wake(0)]).now - s.now == Later(s.interval, RestedAt(s, run) - s.now)
  {
    OneSleeper(s);
    assert Span(1, s.interval) == Span(0, s.interval) + s.interval;
    TurnsAreExact(s, run, s.interval);
    ExecSnoc(s, run, Wake(0));
    KeepsCirculating(s, run);
    OnlyOneQueued(s, Exec(s, run), u);
  }

  lemma OnlyOneQueued(s: State, m: State, u: Url)
    requires |s.workers| == 1 && s.workers[0].Sleeping? && s.queue == [u]
    requires |m.workers| == 1 && Enabled(m, Wake(0))
    requires Circulating(m) == Circulating(s) && Copies(m, u) == Copies(s, u)
    ensures m.queue == [u]
  {
    OneSleeper(s);
    OneSleeper(m);
    assert multiset([u])[u] == 1 && u in multiset(m.queue);
  }

  lemma OneSleeper(s: State)
    requires |s.workers| == 1 && s.workers[0].Sleeping?
    ensures InFlight(s.workers) == multiset{} && Circulating(s) == |s.queue|
  {
    assert InFlight(s.workers) == Held(s.workers[0]) + InFlight(s.workers[1..]);
  }
}
