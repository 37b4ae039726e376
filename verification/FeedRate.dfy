/**
  How often a feed can be polled. N workers share one queue and each sleeps
  max(interval/|queue| * N - elapsed, 0) after a poll. With Q URLs circulating between queue and
  workers, repeated ones included, the bounds below follow for every interleaving of the workers
  and for every feed that circulates once.
 */
module FeedRate {
  import opened FeedQueue
  import opened FeedSchedule

  // ---------------------------------------------------------------- one worker

  /** interval * N / Q, the least time between two turns of one worker. */
  function Turn(s: State): real
    requires Circulating(s) > 0
  {
    Share(s.interval, Circulating(s), |s.workers|)
  }

  /** How often worker `w` starts a turn, with or without finding a URL. */
  function WakesBy(run: seq<Event>, w: nat): nat {
    if run == [] then 0
    else WakesBy(run[..|run| - 1], w) + (if run[|run| - 1] == Wake(w) then 1 else 0)
  }

  lemma {:induction false} KeepsCirculating(s: State, run: seq<Event>)
    requires Valid(s, run) && RebuildFree(s, run)
    ensures var m := Exec(s, run);
            && Circulating(m) == Circulating(s) && (forall u: Url :: Copies(m, u) == Copies(s, u))
            && |m.workers| == |s.workers| && m.interval == s.interval && m.now >= s.now
  {
    if run != [] {
      var before := run[..|run| - 1];
      KeepsCirculating(s, before);
      StepCirculates(Exec(s, before), run[|run| - 1]);
      StepFrame(Exec(s, before), run[|run| - 1]);
    }
  }

  lemma ProductGrows(a: real, b: real, c: real)
    requires c >= 0.0 && a <= b
    ensures a * c <= b * c
  {
  }

  lemma ProductGrowsStrictly(a: real, b: real, c: real)
    requires c > 0.0 && a < b
    ensures a * c < b * c
  {
  }

  lemma SmallerQuotient(x: real, b: real, y: real, c: real)
    requires x * b == y * c && y >= 0.0 && 0.0 < b <= c
    ensures y <= x
  {
    ProductGrows(b, c, y);
    if x < y {
      ProductGrowsStrictly(x, y, b);
    }
  }

  lemma Quotient(a: real, b: real)
    requires b > 0.0
    ensures a / b * b == a
    ensures a >= 0.0 ==> a / b >= 0.0
  {
  }

  lemma ShareShrinks(interval: real, parts: nat, more: nat, workers: nat)
    requires interval >= 0.0 && 0 < parts <= more
    ensures Share(interval, parts, workers) >= Share(interval, more, workers) >= 0.0
  {
    Quotient(interval, parts as real);
    Quotient(interval, more as real);
    SmallerQuotient(interval / parts as real, parts as real, interval / more as real, more as real);
    ProductGrows(interval / more as real, interval / parts as real, workers as real);
    ProductGrows(0.0, interval / more as real, workers as real);
  }

  /** However many of the URLs are in flight, the sleep computed is no shorter than a turn. */
  lemma IntervalIsATurn(s: State)
    requires Circulating(s) > 0 && s.interval >= 0.0
    ensures SleepingInterval(s) >= Turn(s) >= 0.0
  {
    ShareShrinks(s.interval, if |s.queue| == 0 then 1 else |s.queue|, Circulating(s), |s.workers|);
  }

  /** k turns of length d, end to end. */
  function Span(k: nat, d: real): real {
    if k == 0 then 0.0 else Span(k - 1, d) + d
  }

  lemma {:induction false} SpanIsProduct(k: nat, d: real)
    ensures Span(k, d) == k as real * d
  {
    if k > 0 {
      SpanIsProduct(k - 1, d);
      assert k as real * d == (k - 1) as real * d + d;
    }
  }

  lemma {:induction false} SpanAdds(j: nat, k: nat, d: real)
    ensures Span(j + k, d) == Span(j, d) + Span(k, d)
  {
    if k > 0 {
      SpanAdds(j, k - 1, d);
    }
  }

  /** Worker `w` has started `k` turns since `t`, each at least `d` after the one before. */
  ghost predicate Paced(s: State, w: nat, t: real, k: nat, d: real) {
    k == 0 || (
      && w < |s.workers|
      && s.now >= t + Span(k - 1, d)
      && match s.workers[w]
         case Sleeping(wakeAt) => wakeAt >= t + Span(k, d)
         case Polling(_, started) => started >= t + Span(k - 1, d)
         case Finishing(started) => started >= t + Span(k - 1, d))
  }

  lemma PacedStep(s: State, e: Event, w: nat, t: real, k: nat, d: real)
    requires Enabled(s, e) && !Rebuilds(s, e)
    requires t <= s.now && 0.0 <= d <= SleepingInterval(s) && Paced(s, w, t, k, d)
    ensures Paced(Apply(s, e), w, t, if e == Wake(w) then k + 1 else k, d)
  {
  }

  /** Every sleep computed along the run is at least `d`. */
  ghost predicate SleepsAtLeast(s: State, run: seq<Event>, d: real) {
    run == [] ||
    var before := run[..|run| - 1];
    SleepsAtLeast(s, before, d) && 0.0 <= d <= SleepingInterval(Exec(s, before)) && s.now <= Exec(s, before).now
  }

  lemma {:induction false} SleepsATurn(s: State, run: seq<Event>)
    requires Valid(s, run) && RebuildFree(s, run) && Circulating(s) > 0 && s.interval >= 0.0
    ensures SleepsAtLeast(s, run, Turn(s)) && Turn(s) >= 0.0
  {
    if run == [] {
      IntervalIsATurn(s);
    } else {
      var before := run[..|run| - 1];
      SleepsATurn(s, before);
      KeepsCirculating(s, before);
      IntervalIsATurn(Exec(s, before));
    }
  }

  lemma {:induction false} PacedRun(s: State, run: seq<Event>, w: nat, d: real)
    requires Valid(s, run) && RebuildFree(s, run) && SleepsAtLeast(s, run, d)
    ensures Paced(Exec(s, run), w, s.now, WakesBy(run, w), d)
  {
    if run != [] {
      var before := run[..|run| - 1];
      PacedRun(s, before, w, d);
      PacedStep(Exec(s, before), run[|run| - 1], w, s.now, WakesBy(before, w), d);
    }
  }

  /** A worker that starts k turns takes at least k - 1 times interval * N / Q for them. */
  lemma WorkerCycle(s: State, run: seq<Event>, w: nat, k: nat)
    requires Valid(s, run) && RebuildFree(s, run) && Circulating(s) > 0 && s.interval >= 0.0
    requires 0 < k == WakesBy(run, w)
    ensures Exec(s, run).now >= s.now + Span(k - 1, Turn(s))
  {
    SleepsATurn(s, run);
    PacedRun(s, run, w, Turn(s));
  }

  // ---------------------------------------------------------------- all workers together

  function TotalWakes(run: seq<Event>, n: nat): nat {
    if n == 0 then 0 else TotalWakes(run, n - 1) + WakesBy(run, n - 1)
  }

  lemma {:induction false} TotalWakesStep(run: seq<Event>, n: nat)
    requires run != []
    ensures var e := run[|run| - 1];
            TotalWakes(run, n) == TotalWakes(run[..|run| - 1], n) + (if e.Wake? && e.w < n then 1 else 0)
  {
    if n > 0 {
      TotalWakesStep(run, n - 1);
    }
  }

  lemma {:induction false} StartsAreWakes(s: State, run: seq<Event>)
    requires Valid(s, run)
    ensures |Started(s, run)| <= TotalWakes(run, |s.workers|)
    ensures |Exec(s, run).workers| == |s.workers|
  {
    if run != [] {
      var before := run[..|run| - 1];
      StartsAreWakes(s, before);
      TotalWakesStep(run, |s.workers|);
      StepFrame(Exec(s, before), run[|run| - 1]);
    }
  }

  lemma TurnsTakeTime(s: State, run: seq<Event>, w: nat, d: real, t: real)
    requires Valid(s, run) && RebuildFree(s, run) && SleepsAtLeast(s, run, d)
    requires d >= 0.0 && 0.0 <= t == Exec(s, run).now - s.now
    ensures Span(WakesBy(run, w), d) <= t + d
  {
    PacedRun(s, run, w, d);
  }

  lemma {:induction false} WakesTakeTime(s: State, run: seq<Event>, n: nat, d: real, t: real)
    requires Valid(s, run) && RebuildFree(s, run) && SleepsAtLeast(s, run, d)
    requires d >= 0.0 && 0.0 <= t == Exec(s, run).now - s.now
    ensures Span(TotalWakes(run, n), d) <= Span(n, t + d)
  {
    if n > 0 {
      WakesTakeTime(s, run, n - 1, d, t);
      TurnsTakeTime(s, run, n - 1, d, t);
      SpanAdds(TotalWakes(run, n - 1), WakesBy(run, n - 1), d);
    }
  }

  // ---------------------------------------------------------------- one feed

  /** `u` is in flight, or stands behind at least `ahead` URLs. */
  ghost predicate Underway(m: State, u: Url, ahead: int) {
    u in InFlight(m.workers) || exists p :: 0 <= p < |m.queue| && m.queue[p] == u && p >= ahead
  }

  /** While `u` is on its way round, what stands ahead of it has still to start. */
  ghost predicate OnItsWay(s: State, run: seq<Event>, u: Url) {
    Underway(Exec(s, run), u, Circulating(s) - |s.workers| + 1 - |Started(s, run)|)
  }

  /** After its first poll the run does not start `u`. */
  ghost predicate NotAgain(started: seq<Url>, u: Url) {
    forall i :: 1 <= i < |started| ==> started[i] != u
  }

  lemma Departs(s: State, e: Event, u: Url)
    requires Enabled(s, e) && Pops(s, e) == [u]
    ensures Started(s, [e]) == [u] && Exec(s, [e]) == Apply(s, e)
    ensures u in InFlight(Apply(s, e).workers)
  {
    assert [e][..0] == [];
    InFlightCount(s.workers, e.w, Polling(u, s.now), u);
    assert Held(Polling(u, s.now))[u] == 1;
  }

  lemma {:induction false} Travels(s: State, run: seq<Event>, u: Url)
    requires Valid(s, run) && RebuildFree(s, run)
    requires run != [] && Pops(s, run[0]) == [u] && NotAgain(Started(s, run), u)
    ensures Started(s, run) != []
    ensures OnItsWay(s, run, u)
  {
    var before := run[..|run| - 1];
    var e := run[|run| - 1];
    assert run == before + [e];
    if before == [] {
      Departs(s, e, u);
    } else {
      assert before[0] == run[0];
      PrefixNotAgain(s, before, e, u);
      Travels(s, before, u);
      KeepsCirculating(s, before);
      InFlightSize(Exec(s, before).workers);
      LaterPop(s, before, e, u);
      TravelStep(s, before, e, u);
    }
  }

  lemma PrefixNotAgain(s: State, before: seq<Event>, e: Event, u: Url)
    requires NotAgain(Started(s, before + [e]), u)
    ensures NotAgain(Started(s, before), u)
  {
    assert (before + [e])[..|before|] == before;
    var st, st' := Started(s, before), Started(s, before + [e]);
    assert forall i :: 0 <= i < |st| ==> st[i] == st'[i];
  }

  lemma LaterPop(s: State, before: seq<Event>, e: Event, u: Url)
    requires Started(s, before) != [] && NotAgain(Started(s, before + [e]), u)
    ensures Pops(Exec(s, before), e) != [u]
  {
    assert (before + [e])[..|before|] == before;
    var st, st' := Started(s, before), Started(s, before + [e]);
    assert st' == st + Pops(Exec(s, before), e);
    if Pops(Exec(s, before), e) != [] {
      assert st'[|st|] == Pops(Exec(s, before), e)[0];
    }
  }

  lemma TravelStep(s: State, before: seq<Event>, e: Event, u: Url)
    requires var m := Exec(s, before);
             && Enabled(m, e) && !Rebuilds(m, e) && OnItsWay(s, before, u)
             && |m.queue| >= Circulating(s) - |s.workers| && Pops(m, e) != [u] && Started(s, before) != []
    ensures OnItsWay(s, before + [e], u)
  {
    assert (before + [e])[..|before|] == before;
    UnderwayStep(Exec(s, before), e, u, Circulating(s) - |s.workers| + 1 - |Started(s, before)|);
  }

  lemma UnderwayStep(m: State, e: Event, u: Url, ahead: int)
    requires Enabled(m, e) && !Rebuilds(m, e) && Underway(m, u, ahead)
    requires |m.queue| >= ahead && Pops(m, e) != [u]
    ensures Underway(Apply(m, e), u, ahead - |Pops(m, e)|)
  {
    if u in InFlight(m.workers) {
      FlightStep(m, e, u);
      if Apply(m, e).queue == m.queue + [u] {
        assert Apply(m, e).queue[|m.queue|] == u;
      }
    } else {
      var m' := Apply(m, e);
      QueueStep(m, e);
      var p :| 0 <= p < |m.queue| && m.queue[p] == u && p >= ahead;
      assert (m.queue + Puts(m, e))[p] == u;
      assert m'.queue[p - |Pops(m, e)|] == u;
    }
  }

  /** A URL in flight stays there or goes to the end of the queue. */
  lemma FlightStep(m: State, e: Event, u: Url)
    requires Enabled(m, e) && !Rebuilds(m, e) && u in InFlight(m.workers)
    ensures u in InFlight(Apply(m, e).workers) || Apply(m, e).queue == m.queue + [u]
  {
    var m' := Apply(m, e);
    if e.Wake? || e.Requeue? || e.Rest? {
      InFlightCount(m.workers, e.w, m'.workers[e.w], u);
      assert m'.workers == m.workers[e.w := m'.workers[e.w]];
      if Held(m.workers[e.w])[u] > 0 {
        assert m.workers[e.w] == Polling(u, m.workers[e.w].started);
        assert Apply(m, e).queue == m.queue + [u];
      }
    } else {
      assert m'.workers == m.workers;
    }
  }

  /** The run begins and ends with the start of a poll of `u`, and has no other. */
  ghost predicate BetweenStarts(s: State, run: seq<Event>, u: Url) {
    && |run| >= 2
    && Pops(s, run[0]) == [u]
    && Pops(Exec(s, run[..|run| - 1]), run[|run| - 1]) == [u]
    && NotAgain(Started(s, run[..|run| - 1]), u)
  }

  /** Between two starts of a feed that circulates once at least Q - N + 2 polls start, both
      included. */
  lemma StartsBetween(s: State, run: seq<Event>, u: Url)
    requires Valid(s, run) && RebuildFree(s, run) && Copies(s, u) <= 1 && BetweenStarts(s, run, u)
    ensures |Started(s, run)| >= Circulating(s) - |s.workers| + 2
  {
    var before := run[..|run| - 1];
    assert before[0] == run[0];
    Travels(s, before, u);
    KeepsCirculating(s, before);
    HeadIsAlone(Exec(s, before), u);
  }

  lemma HeadIsAlone(m: State, u: Url)
    requires Copies(m, u) <= 1 && m.queue != [] && m.queue[0] == u
    ensures u !in InFlight(m.workers)
    ensures forall p :: 0 <= p < |m.queue| && m.queue[p] == u ==> p == 0
  {
    assert m.queue == [u] + m.queue[1..];
    assert multiset(m.queue)[u] == 1 + multiset(m.queue[1..])[u];
    assert u !in m.queue[1..];
    assert forall p :: 0 < p < |m.queue| ==> m.queue[p] in m.queue[1..];
  }

  /** A time of at least interval * (Q - 2N + 2) / Q. */
  ghost predicate SpacedOut(t: real, interval: real, q: real, n: real) {
    q * t >= (q - 2.0 * n + 2.0) * interval
  }

  /** With Q URLs circulating, N workers and no rebuild, two consecutive starts of a feed that
      circulates once lie at least interval * (Q - 2N + 2) / Q apart, whatever the others do. */
  lemma RateBound(s: State, run: seq<Event>, u: Url)
    requires Valid(s, run) && RebuildFree(s, run) && Copies(s, u) <= 1 && s.interval >= 0.0
    requires BetweenStarts(s, run, u)
    ensures SpacedOut(Exec(s, run).now - s.now, s.interval, Circulating(s) as real, |s.workers| as real)
  {
    EnoughWakes(s, run, u);
    KeepsCirculating(s, run);
    var d := Pace(s, run);
    var t := Exec(s, run).now - s.now;
    WakesTakeTime(s, run, |s.workers|, d, t);
    WakesToTime(s.interval, TotalWakes(run, |s.workers|), t, Circulating(s), |s.workers|, d);
  }

  /** A turn, known only by its sum over the feeds. */
  lemma Pace(s: State, run: seq<Event>) returns (d: real)
    requires Valid(s, run) && RebuildFree(s, run) && Circulating(s) > 0 && s.interval >= 0.0
    ensures SleepsAtLeast(s, run, d) && d >= 0.0
    ensures Span(Circulating(s), d) == Span(|s.workers|, s.interval)
  {
    SleepsATurn(s, run);
    d := Turn(s);
    TurnTimesFeeds(s.interval, Circulating(s), |s.workers|);
  }

  lemma TurnTimesFeeds(interval: real, feeds: nat, workers: nat)
    requires feeds > 0
    ensures Span(feeds, Share(interval, feeds, workers)) == Span(workers, interval)
  {
    var x, f, n := interval / feeds as real, feeds as real, workers as real;
    SpanIsProduct(feeds, Share(interval, feeds, workers));
    SpanIsProduct(workers, interval);
    Quotient(interval, f);
    assert x * n * f == x * f * n;
  }

  /** A single worker keeps the configured interval for a feed that circulates once. */
  lemma OneWorkerKeepsTheInterval(s: State, run: seq<Event>, u: Url)
    requires Valid(s, run) && RebuildFree(s, run) && Copies(s, u) <= 1 && s.interval >= 0.0
    requires BetweenStarts(s, run, u) && |s.workers| == 1
    ensures Exec(s, run).now - s.now >= s.interval
  {
    RateBound(s, run, u);
    EnoughWakes(s, run, u);
    WholeInterval(Exec(s, run).now - s.now, s.interval, Circulating(s) as real, |s.workers| as real);
  }

  lemma WholeInterval(t: real, interval: real, q: real, n: real)
    requires q > 0.0 && n == 1.0 && SpacedOut(t, interval, q, n)
    ensures t >= interval
  {
    assert q - 2.0 * n + 2.0 == q;
    if t < interval {
      ProductGrowsStrictly(t, interval, q);
    }
  }

  lemma EnoughWakes(s: State, run: seq<Event>, u: Url)
    requires Valid(s, run) && RebuildFree(s, run) && Copies(s, u) <= 1 && BetweenStarts(s, run, u)
    ensures Circulating(s) > 0 && s.workers != []
    ensures TotalWakes(run, |s.workers|) >= Circulating(s) - |s.workers| + 2
  {
    StartsBetween(s, run, u);
    StartsAreWakes(s, run);
  }

  lemma WakesToTime(p: real, m: nat, t: real, q: nat, n: nat, d: real)
    requires p >= 0.0 && q > 0 && n > 0 && m >= q - n + 2
    requires Span(q, d) == Span(n, p) && Span(m, d) <= Span(n, t + d)
    ensures SpacedOut(t, p, q as real, n as real)
  {
    SpanIsProduct(q, d);
    SpanIsProduct(n, p);
    SpanIsProduct(m, d);
    SpanIsProduct(n, t + d);
    ProductsToTime(d, p, q as real, n as real, m as real, t);
  }

  lemma ProductsToTime(d: real, p: real, q: real, n: real, m: real, t: real)
    requires p >= 0.0 && q > 0.0 && n > 0.0 && m >= q - n + 2.0
    requires q * d == n * p && m * d <= n * (t + d)
    ensures SpacedOut(t, p, q, n)
  {
    Scale(d, p, q, n, m, t);
    Weaken(q * t, m - n, q - 2.0 * n + 2.0, p);
  }

  lemma Weaken(x: real, a: real, b: real, p: real)
    requires x >= a * p && a >= b && p >= 0.0
    ensures x >= b * p
  {
    ProductGrows(b, a, p);
  }

  lemma Scale(d: real, p: real, q: real, n: real, m: real, t: real)
    requires q > 0.0 && n > 0.0 && q * d == n * p
    requires m * d <= n * (t + d)
    ensures q * t >= (m - n) * p
  {
    ProductGrows(m * d, n * (t + d), q);
    assert m * d * q == m * (q * d) && n * (t + d) * q == n * (t * q) + n * (q * d);
    assert m * (n * p) == m * p * n && n * (t * q) + n * (n * p) == (t * q + n * p) * n;
    if t * q + n * p < m * p {
      ProductGrowsStrictly(t * q + n * p, m * p, n);
    }
  }

  /** In particular, the bound holds with the observed feeds for Q as long as each circulates
      exactly once. */
  lemma BalancedRate(s: State, run: seq<Event>, u: Url)
    requires Valid(s, run) && RebuildFree(s, run) && Balanced(s) && s.interval >= 0.0
    requires BetweenStarts(s, run, u)
    ensures SpacedOut(Exec(s, run).now - s.now, s.interval, |s.observed| as real, |s.workers| as real)
  {
    var all := multiset(s.queue) + InFlight(s.workers);
    assert |all| == Circulating(s) && |all| == |multiset(s.observed)|;
    assert all[u] == Copies(s, u) && multiset(s.observed)[u] <= 1;
    RateBound(s, run, u);
  }
}
