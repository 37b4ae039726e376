/**
  What the feed queue conserves and how fair it is: exact accounting of every URL on every run,
  and first-in first-out rotation between rebuilds.
 */
module FeedSchedule {
  import opened FeedQueue

  // ---------------------------------------------------------------- conservation

  /** The URLs in flight when the queue was last rebuilt: each will be queued once more than
      the rebuilt queue knows. */
  function Carried(s: State, run: seq<Event>): multiset<Url> {
    if run == [] then multiset{}
    else
      var before := run[..|run| - 1];
      if Rebuilds(Exec(s, before), run[|run| - 1]) then InFlight(Exec(s, before).workers)
      else Carried(s, before)
  }

  /** Queue and flight together hold each observed URL once. */
  ghost predicate Balanced(s: State) {
    multiset(s.queue) + InFlight(s.workers) == multiset(s.observed)
  }

  /** How often `u` is queued or in flight. */
  ghost function Copies(s: State, u: Url): nat {
    multiset(s.queue)[u] + InFlight(s.workers)[u]
  }

  lemma WhatIsHeld(s: State, e: Event)
    requires Enabled(s, e) && (e.Wake? || e.Requeue? || e.Rest?)
    ensures multiset(Puts(s, e)) == Held(s.workers[e.w])
    ensures multiset(Pops(s, e)) == Held(Apply(s, e).workers[e.w])
    ensures Apply(s, e).workers == s.workers[e.w := Apply(s, e).workers[e.w]]
  {
    if e.Wake? {
      assert Puts(s, e) == [];
      if s.queue != [] {
        assert Apply(s, e).workers[e.w] == Polling(s.queue[0], s.now);
      }
    } else if e.Requeue? {
      assert Puts(s, e) == [s.workers[e.w].url] && Pops(s, e) == [];
    } else {
      assert Puts(s, e) == [] && Pops(s, e) == [];
    }
  }

  lemma QueueCounts(s: State, e: Event, u: Url)
    requires Enabled(s, e) && !Rebuilds(s, e)
    ensures multiset(s.queue)[u] + multiset(Puts(s, e))[u] == multiset(Pops(s, e))[u] + multiset(Apply(s, e).queue)[u]
  {
    QueueStep(s, e);
    assert multiset(s.queue + Puts(s, e))[u] == multiset(Pops(s, e) + Apply(s, e).queue)[u];
  }

  lemma WorkerKeepsCopies(s: State, e: Event, u: Url)
    requires Enabled(s, e) && (e.Wake? || e.Requeue? || e.Rest?)
    ensures Copies(Apply(s, e), u) == Copies(s, u)
  {
    WhatIsHeld(s, e);
    QueueCounts(s, e, u);
    InFlightCount(s.workers, e.w, Apply(s, e).workers[e.w], u);
  }

  /** A worker's step only moves one URL between queue and flight. */
  lemma WorkerStep(s: State, e: Event)
    requires Enabled(s, e) && (e.Wake? || e.Requeue? || e.Rest?)
    ensures multiset(Apply(s, e).queue) + InFlight(Apply(s, e).workers) == multiset(s.queue) + InFlight(s.workers)
  {
    forall u: Url
      ensures (multiset(Apply(s, e).queue) + InFlight(Apply(s, e).workers))[u] == (multiset(s.queue) + InFlight(s.workers))[u]
    {
      WorkerKeepsCopies(s, e, u);
    }
  }

  /** A step that does not rebuild keeps the URLs of queue and flight together; one that does
      leaves the flight alone. */
  lemma StepConserves(s: State, e: Event)
    requires Enabled(s, e)
    ensures !Rebuilds(s, e) ==>
              && Apply(s, e).observed == s.observed
              && multiset(Apply(s, e).queue) + InFlight(Apply(s, e).workers) == multiset(s.queue) + InFlight(s.workers)
    ensures Rebuilds(s, e) ==> Apply(s, e).workers == s.workers && multiset(Apply(s, e).queue) == multiset(Apply(s, e).observed)
  {
    if e.Wake? || e.Requeue? || e.Rest? {
      WorkerStep(s, e);
    }
  }

  /** How many URLs are queued or in flight, repeated ones included. */
  function Circulating(s: State): nat {
    |s.queue| + |InFlight(s.workers)|
  }

  lemma StepCirculates(s: State, e: Event)
    requires Enabled(s, e) && !Rebuilds(s, e)
    ensures Circulating(Apply(s, e)) == Circulating(s)
    ensures forall u: Url :: Copies(Apply(s, e), u) == Copies(s, u)
  {
    StepConserves(s, e);
    var all, all' := multiset(s.queue) + InFlight(s.workers), multiset(Apply(s, e).queue) + InFlight(Apply(s, e).workers);
    assert |all| == Circulating(s) && |all'| == Circulating(Apply(s, e));
    forall u: Url ensures Copies(Apply(s, e), u) == Copies(s, u) {
      assert all[u] == Copies(s, u) && all'[u] == Copies(Apply(s, e), u);
    }
  }

  /** Configuration is fixed and time does not run back. */
  lemma StepFrame(s: State, e: Event)
    requires Enabled(s, e)
    ensures |Apply(s, e).workers| == |s.workers|
    ensures Apply(s, e).interval == s.interval
    ensures s.now <= Apply(s, e).now
  {
  }

  /** On every run: queue + flight = observed + what was in flight at the last rebuild. */
  lemma {:induction false} Conservation(s: State, run: seq<Event>)
    requires Init(s) && Valid(s, run)
    ensures var s' := Exec(s, run);
            && multiset(s'.queue) + InFlight(s'.workers) == multiset(s'.observed) + Carried(s, run)
            && |s'.workers| == |s.workers|
            && |Carried(s, run)| <= |s.workers|
  {
    if run == [] {
      AllAsleep(s.workers);
    } else {
      var before := run[..|run| - 1];
      Conservation(s, before);
      StepConserves(Exec(s, before), run[|run| - 1]);
      StepFrame(Exec(s, before), run[|run| - 1]);
      InFlightSize(Exec(s, before).workers);
    }
  }

  lemma {:induction false} AllAsleep(workers: seq<Worker>)
    requires forall i :: 0 <= i < |workers| ==> workers[i].Sleeping?
    ensures InFlight(workers) == multiset{}
  {
    if workers != [] {
      AllAsleep(workers[1..]);
    }
  }

  /** At no point are there more URLs queued or in flight than observed feeds plus workers. */
  lemma QueueBound(s: State, run: seq<Event>)
    requires Init(s) && Valid(s, run)
    ensures var s' := Exec(s, run);
            |s'.queue| + |InFlight(s'.workers)| <= |s'.observed| + |s.workers|
  {
    Conservation(s, run);
    var s' := Exec(s, run);
    assert |multiset(s'.queue) + InFlight(s'.workers)| == |multiset(s'.observed) + Carried(s, run)|;
  }

  /** On every run a URL circulates once if it is observed, and once more for each poll of it that
      was in flight at the last rebuild. */
  lemma CopiesAre(s: State, run: seq<Event>, u: Url)
    requires Init(s) && Valid(s, run)
    ensures Copies(Exec(s, run), u) == (if u in Exec(s, run).observed then 1 else 0) + Carried(s, run)[u]
  {
    Conservation(s, run);
    var m := Exec(s, run);
    assert (multiset(m.queue) + InFlight(m.workers))[u] == (multiset(m.observed) + Carried(s, run))[u];
  }

  /** So two polls of one URL can only run at once if one was in flight at the last rebuild and
      the URL is still observed, or two were; and never if rebuilds find nothing in flight. */
  lemma OnePollAtATime(s: State, run: seq<Event>, u: Url)
    requires Init(s) && Valid(s, run)
    ensures InFlight(Exec(s, run).workers)[u] <= (if u in Exec(s, run).observed then 1 else 0) + Carried(s, run)[u]
    ensures QuietRebuilds(s, run) ==> InFlight(Exec(s, run).workers)[u] <= 1
  {
    CopiesAre(s, run, u);
    if QuietRebuilds(s, run) {
      QuietRunsStayBalanced(s, run);
    }
  }

  /** Each observed URL is queued or in flight exactly once iff nothing was in flight at the last
      rebuild. */
  lemma BalancedIff(s: State, run: seq<Event>)
    requires Init(s) && Valid(s, run)
    ensures Balanced(Exec(s, run)) <==> Carried(s, run) == multiset{}
  {
    Conservation(s, run);
    var all, carried := multiset(Exec(s, run).observed), Carried(s, run);
    assert all + multiset{} == all;
    if all + carried == all {
      assert |all + carried| == |all| + |carried|;
      assert carried == multiset{};
    }
  }

  /** Every rebuild in the run happens while nothing is being polled. */
  ghost predicate QuietRebuilds(s: State, run: seq<Event>) {
    forall i :: 0 <= i < |run| && Rebuilds(Exec(s, run[..i]), run[i]) ==>
      InFlight(Exec(s, run[..i]).workers) == multiset{}
  }

  /** If no rebuild happens while a poll is in flight, queue plus flight is a permutation of
      the observed URLs. */
  lemma {:induction false} QuietRunsStayBalanced(s: State, run: seq<Event>)
    requires Init(s) && Valid(s, run) && QuietRebuilds(s, run)
    ensures Carried(s, run) == multiset{}
    ensures Balanced(Exec(s, run))
  {
    Conservation(s, run);
    if run != [] {
      var before := run[..|run| - 1];
      forall i | 0 <= i < |before| ensures before[..i] == run[..i] && before[i] == run[i] {
      }
      QuietRunsStayBalanced(s, before);
    }
  }

  // ---------------------------------------------------------------- rotation

  ghost predicate RebuildFree(s: State, run: seq<Event>) {
    run == [] ||
    var before := run[..|run| - 1];
    RebuildFree(s, before) && !Rebuilds(Exec(s, before), run[|run| - 1])
  }

  /** The URLs whose polls start in the run, in order. */
  function Started(s: State, run: seq<Event>): seq<Url> {
    if run == [] then []
    else
      var before := run[..|run| - 1];
      Started(s, before) + Pops(Exec(s, before), run[|run| - 1])
  }

  function Pops(s: State, e: Event): seq<Url> {
    if e.Wake? && e.w < |s.workers| && s.queue != [] then [s.queue[0]] else []
  }

  /** The URLs put back in the run, in order. */
  function Requeued(s: State, run: seq<Event>): seq<Url> {
    if run == [] then []
    else
      var before := run[..|run| - 1];
      Requeued(s, before) + Puts(Exec(s, before), run[|run| - 1])
  }

  function Puts(s: State, e: Event): seq<Url> {
    if e.Requeue? && e.w < |s.workers| && s.workers[e.w].Polling? then [s.workers[e.w].url] else []
  }

  lemma QueueStep(s: State, e: Event)
    requires Enabled(s, e) && !Rebuilds(s, e)
    ensures s.queue + Puts(s, e) == Pops(s, e) + Apply(s, e).queue
  {
    if e.Wake? && s.queue != [] {
      assert s.queue == [s.queue[0]] + s.queue[1..];
    }
  }

  /** Between rebuilds the queue is first-in first-out. */
  lemma {:induction false} FirstInFirstOut(s: State, run: seq<Event>)
    requires Valid(s, run) && RebuildFree(s, run)
    ensures s.queue + Requeued(s, run) == Started(s, run) + Exec(s, run).queue
  {
    if run != [] {
      var before := run[..|run| - 1];
      var e := run[|run| - 1];
      FirstInFirstOut(s, before);
      var m := Exec(s, before);
      QueueStep(m, e);
      Reassociate(s.queue, Requeued(s, before), Started(s, before), m.queue, Puts(m, e), Pops(m, e), Apply(m, e).queue);
    }
  }

  lemma Reassociate(q: seq<Url>, r: seq<Url>, st: seq<Url>, m: seq<Url>, puts: seq<Url>, pops: seq<Url>, q': seq<Url>)
    requires q + r == st + m
    requires m + puts == pops + q'
    ensures q + (r + puts) == st + pops + q'
  {
    assert q + (r + puts) == q + r + puts;
    assert st + m + puts == st + (m + puts);
    assert st + (pops + q') == st + pops + q';
  }

  /** From the moment `u` is put back behind `ahead` until it starts again, every URL ahead
      of it starts exactly once, in queue order, and nothing else does. */
  lemma RotationIsFair(s: State, run: seq<Event>, ahead: seq<Url>, u: Url)
    requires Valid(s, run) && RebuildFree(s, run)
    requires s.queue == ahead + [u] && u !in ahead
    requires var st := Started(s, run); st != [] && st[|st| - 1] == u && forall i :: 0 <= i < |st| - 1 ==> st[i] != u
    ensures Started(s, run) == ahead + [u]
  {
    FirstInFirstOut(s, run);
    var st := Started(s, run);
    var line := ahead + [u] + Requeued(s, run);
    assert line == st + Exec(s, run).queue;
    assert line[|st| - 1] == u && line[|ahead|] == u;
    assert |ahead| < |st| ==> st[|ahead|] == line[|ahead|];
    assert |st| == |ahead| + 1;
    assert st == line[..|st|];
    assert line[..|ahead| + 1] == ahead + [u];
  }
}
