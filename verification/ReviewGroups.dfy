/**
  The debouncer against its specification: the reviews of one key, in order of arrival, are
  cut into groups at long gaps, and each group becomes one message.
 */
module ReviewGroups {
  import opened Common
  import opened ReviewDebounce

  datatype Arrival = Arrival(at: real, review: Review)

  // ---------------------------------------------------------------- the message of a group

  function Sum(g: seq<Arrival>): nat {
    if g == [] then 0 else Sum(g[..|g| - 1]) + g[|g| - 1].review.commentCount
  }

  /** All notes in order, or None if no review has any. */
  function Notes(g: seq<Arrival>): Option<seq<string>> {
    if g == [] then None else Join(Notes(g[..|g| - 1]), g[|g| - 1].review.commentNotes)
  }

  function Discussions(g: seq<Arrival>): seq<string> {
    if g == [] then [] else Discussions(g[..|g| - 1]) + Discussion(g[|g| - 1].review)
  }

  /** Summed counts, all notes and discussions, the first author, and the last approval,
      merge request and project. */
  function Summary(k: Key, g: seq<Arrival>): Message
    requires g != []
  {
    var last := g[|g| - 1].review;
    Message(k, g[0].review.user.name, last.mergeRequest, last.project, Sum(g), Notes(g), last.approved, Discussions(g))
  }

  // ---------------------------------------------------------------- groups of a run

  /** The reviews of `k` in the run, with their times. */
  function Arrivals(s: State, run: seq<Event>, k: Key): seq<Arrival> {
    if run == [] then []
    else
      var before, e := run[..|run| - 1], run[|run| - 1];
      Arrivals(s, before, k) + Arriving(Exec(s, before), e, k)
  }

  function Arriving(s: State, e: Event, k: Key): seq<Arrival> {
    if e.Reviewed? && KeyOf(e.review) == k then [Arrival(s.now, e.review)] else []
  }

  datatype Groups = Groups(closed: seq<seq<Arrival>>, open: seq<Arrival>)

  predicate Cuts(s: State, e: Event, k: Key) {
    e.Fire? && e.timer in s.timers && s.timers[e.timer].key == k
  }

  /** The groups the run has made of `k`'s reviews: a firing timer of `k` closes the open one. */
  function GroupsOf(s: State, run: seq<Event>, k: Key): Groups {
    if run == [] then Groups([], [])
    else
      var before, e := run[..|run| - 1], run[|run| - 1];
      Regrouped(Exec(s, before), e, k, GroupsOf(s, before, k))
  }

  function Flatten(gs: seq<seq<Arrival>>): seq<Arrival> {
    if gs == [] then [] else Flatten(gs[..|gs| - 1]) + gs[|gs| - 1]
  }

  lemma FlattenAppend(gs: seq<seq<Arrival>>, g: seq<Arrival>)
    ensures Flatten(gs + [g]) == Flatten(gs) + g
  {
    assert (gs + [g])[..|gs|] == gs;
  }

  /** Nothing is lost, duplicated or reordered: the groups joined are the arrivals. */
  lemma {:induction false} GroupsCoverArrivals(s: State, run: seq<Event>, k: Key)
    ensures Flatten(GroupsOf(s, run, k).closed) + GroupsOf(s, run, k).open == Arrivals(s, run, k)
  {
    if run != [] {
      var before, e := run[..|run| - 1], run[|run| - 1];
      GroupsCoverArrivals(s, before, k);
      RegroupCovers(Exec(s, before), e, k, GroupsOf(s, before, k), Arrivals(s, before, k));
    }
  }

  lemma RegroupCovers(s: State, e: Event, k: Key, g: Groups, arrivals: seq<Arrival>)
    requires Flatten(g.closed) + g.open == arrivals
    ensures var g' := Regrouped(s, e, k, g); Flatten(g'.closed) + g'.open == arrivals + Arriving(s, e, k)
  {
    if Cuts(s, e, k) {
      FlattenAppend(g.closed, g.open);
    } else if e.Reviewed? && KeyOf(e.review) == k {
      assert Flatten(g.closed) + (g.open + Arriving(s, e, k)) == Flatten(g.closed) + g.open + Arriving(s, e, k);
    }
  }

  // ---------------------------------------------------------------- refinement

  function RenderedFor(msgs: seq<Message>, k: Key): seq<Message> {
    if msgs == [] then []
    else RenderedFor(msgs[..|msgs| - 1], k) + if msgs[|msgs| - 1].key == k then [msgs[|msgs| - 1]] else []
  }

  function Summaries(k: Key, gs: seq<seq<Arrival>>): seq<Message>
    requires forall i :: 0 <= i < |gs| ==> gs[i] != []
  {
    seq(|gs|, i requires 0 <= i < |gs| => Summary(k, gs[i]))
  }

  /** The pending burst of `k` is the open group, and its timer is due one debounce period
      after the group's last review. */
  predicate Tracks(s: State, k: Key, open: seq<Arrival>) {
    if open == [] then k !in s.pending
    else
      && k in s.pending && s.pending[k].timeout in s.timers
      && var b := s.pending[k];
         var t := s.timers[b.timeout];
      && Render(k, b, t) == Summary(k, open)
      && t.due == open[|open| - 1].at + s.debounceMs
      && open[|open| - 1].at <= s.now
  }

  lemma SummaryStarts(k: Key, a: Arrival, b: Burst, t: Timer)
    requires b == First(a.review, b.timeout) && k == KeyOf(a.review)
    requires t.mergeRequest == a.review.mergeRequest && t.project == a.review.project
    ensures Render(k, b, t) == Summary(k, [a])
  {
    var none: seq<string> := [];
    assert [a][..0] == [];
    assert Sum([a]) == a.review.commentCount;
    assert a.review.commentNotes.Some? ==> none + a.review.commentNotes.value == a.review.commentNotes.value;
    assert Notes([a]) == Join(None, a.review.commentNotes) == a.review.commentNotes;
    assert Discussions([a]) == none + Discussion(a.review) == Discussion(a.review);
  }

  lemma SummaryExtends(k: Key, open: seq<Arrival>, a: Arrival, b: Burst, t: Timer, t': Timer)
    requires open != [] && Render(k, b, t) == Summary(k, open)
    requires t'.mergeRequest == a.review.mergeRequest && t'.project == a.review.project
    ensures forall id: nat :: Render(k, Merge(b, a.review, id), t') == Summary(k, open + [a])
  {
    assert (open + [a])[..|open|] == open;
  }

  lemma ReviewTracked(s: State, r: Review, open: seq<Arrival>)
    requires TimersMatch(s) && Tracks(s, KeyOf(r), open)
    ensures Tracks(Apply(s, Reviewed(r)), KeyOf(r), open + [Arrival(s.now, r)])
  {
    var k, a := KeyOf(r), Arrival(s.now, r);
    var t' := Timer(s.now + s.debounceMs, k, r.mergeRequest, r.project);
    if open == [] {
      SummaryStarts(k, a, First(r, s.nextTimer), t');
      assert open + [a] == [a];
    } else {
      SummaryExtends(k, open, a, s.pending[k], s.timers[s.pending[k].timeout], t');
    }
  }

  lemma OthersTracked(s: State, e: Event, k: Key, open: seq<Arrival>)
    requires TimersMatch(s) && Enabled(s, e) && Tracks(s, k, open)
    requires !Cuts(s, e, k) && !(e.Reviewed? && KeyOf(e.review) == k)
    ensures Tracks(Apply(s, e), k, open)
    ensures RenderedFor(Apply(s, e).rendered, k) == RenderedFor(s.rendered, k)
  {
    if e.Fire? {
      assert Apply(s, e).rendered[..|s.rendered|] == s.rendered;
    }
  }

  lemma CutTracked(s: State, e: Event, k: Key, open: seq<Arrival>)
    requires TimersMatch(s) && Enabled(s, e) && Tracks(s, k, open) && Cuts(s, e, k)
    ensures open != [] && Tracks(Apply(s, e), k, [])
    ensures Apply(s, e).rendered == s.rendered + [Summary(k, open)]
    ensures s.now - open[|open| - 1].at >= s.debounceMs
  {
  }

  /** What one step does to the groups. */
  function Regrouped(s: State, e: Event, k: Key, g: Groups): Groups {
    if Cuts(s, e, k) then Groups(g.closed + [g.open], [])
    else if e.Reviewed? && KeyOf(e.review) == k then g.(open := g.open + [Arrival(s.now, e.review)])
    else g
  }

  /** The messages rendered for `k` are the summaries of the closed groups, in order, and
      what is pending summarises the open one. */
  predicate Refines(s: State, k: Key, g: Groups) {
    && (forall i :: 0 <= i < |g.closed| ==> g.closed[i] != [])
    && RenderedFor(s.rendered, k) == Summaries(k, g.closed)
    && Tracks(s, k, g.open)
  }

  lemma StepRefines(s: State, e: Event, k: Key, g: Groups)
    requires TimersMatch(s) && Enabled(s, e) && Refines(s, k, g)
    ensures Refines(Apply(s, e), k, Regrouped(s, e, k, g))
  {
    if Cuts(s, e, k) {
      CutTracked(s, e, k, g.open);
      var rendered := Apply(s, e).rendered;
      assert rendered[..|rendered| - 1] == s.rendered;
      assert Summaries(k, g.closed + [g.open]) == Summaries(k, g.closed) + [Summary(k, g.open)];
    } else if e.Reviewed? && KeyOf(e.review) == k {
      ReviewTracked(s, e.review, g.open);
    } else {
      OthersTracked(s, e, k, g.open);
    }
  }

  /** On every run, and for every key whatever the other keys do, the debouncer refines the
      grouping of its reviews. */
  lemma {:induction false} DebounceRefinesGroups(s: State, run: seq<Event>, k: Key)
    requires Init(s) && Valid(s, run)
    ensures Refines(Exec(s, run), k, GroupsOf(s, run, k))
  {
    if run != [] {
      var before := run[..|run| - 1];
      DebounceRefinesGroups(s, before, k);
      TimersAlwaysMatch(s, before);
      StepRefines(Exec(s, before), run[|run| - 1], k, GroupsOf(s, before, k));
    }
  }

  // ---------------------------------------------------------------- where the cuts fall

  predicate TicksOnTime(s: State, e: Event) {
    e.Tick? ==> forall t :: t in s.timers ==> s.now + e.dt <= s.timers[t].due
  }

  /** No timer is ever left waiting past the time it is due. */
  predicate Punctual(s: State, run: seq<Event>) {
    run == [] ||
    (Punctual(s, run[..|run| - 1]) && TicksOnTime(Exec(s, run[..|run| - 1]), run[|run| - 1]))
  }

  /** Consecutive groups lie at least `d` apart. */
  predicate CutsAreLong(gs: seq<seq<Arrival>>, d: real) {
    forall i :: 0 < i < |gs| && gs[i - 1] != [] && gs[i] != [] ==> gs[i][0].at - gs[i - 1][|gs[i - 1]| - 1].at >= d
  }

  /** Within a group, consecutive reviews lie at most `d` apart. */
  predicate GapsAreShort(g: seq<Arrival>, d: real) {
    forall i :: 0 < i < |g| ==> g[i].at - g[i - 1].at <= d
  }

  /** All groups, the open one last if there is one. */
  function AllGroups(g: Groups): seq<seq<Arrival>> {
    g.closed + if g.open == [] then [] else [g.open]
  }

  /** The last closed group ended at least one debounce period ago. */
  predicate ClosedLongAgo(g: Groups, now: real, d: real) {
    g.closed != [] ==>
      var last := g.closed[|g.closed| - 1];
      last != [] && now - last[|last| - 1].at >= d
  }

  lemma ArrivalKeepsCuts(g: Groups, a: Arrival, d: real)
    requires CutsAreLong(AllGroups(g), d) && ClosedLongAgo(g, a.at, d)
    ensures CutsAreLong(AllGroups(g.(open := g.open + [a])), d)
  {
    var all, all' := AllGroups(g), AllGroups(g.(open := g.open + [a]));
    assert forall i :: 0 <= i < |g.closed| ==> all[i] == all'[i] == g.closed[i];
    if g.open != [] {
      assert all[|g.closed|] == g.open && all'[|g.closed|][0] == g.open[0];
    }
  }

  lemma StepKeepsCuts(s: State, e: Event, k: Key, g: Groups)
    requires TimersMatch(s) && Enabled(s, e) && Tracks(s, k, g.open)
    requires CutsAreLong(AllGroups(g), s.debounceMs) && ClosedLongAgo(g, s.now, s.debounceMs)
    ensures CutsAreLong(AllGroups(Regrouped(s, e, k, g)), s.debounceMs)
    ensures ClosedLongAgo(Regrouped(s, e, k, g), Apply(s, e).now, s.debounceMs)
  {
    if Cuts(s, e, k) {
      CutTracked(s, e, k, g.open);
      assert AllGroups(Regrouped(s, e, k, g)) == AllGroups(g);
    } else if e.Reviewed? && KeyOf(e.review) == k {
      ArrivalKeepsCuts(g, Arrival(s.now, e.review), s.debounceMs);
    }
  }

  /** No cut falls at a gap shorter than the debounce period. */
  lemma {:induction false} NoShortCut(s: State, run: seq<Event>, k: Key)
    requires Init(s) && Valid(s, run)
    ensures CutsAreLong(AllGroups(GroupsOf(s, run, k)), s.debounceMs)
    ensures ClosedLongAgo(GroupsOf(s, run, k), Exec(s, run).now, s.debounceMs)
  {
    if run != [] {
      var before := run[..|run| - 1];
      NoShortCut(s, before, k);
      DebounceRefinesGroups(s, before, k);
      TimersAlwaysMatch(s, before);
      StepKeepsCuts(Exec(s, before), run[|run| - 1], k, GroupsOf(s, before, k));
    }
  }

  lemma OnTime(s: State, e: Event)
    requires Enabled(s, e) && TicksOnTime(s, e) && s.debounceMs >= 0.0
    requires forall t :: t in s.timers ==> s.now <= s.timers[t].due
    ensures forall t :: t in Apply(s, e).timers ==> Apply(s, e).now <= Apply(s, e).timers[t].due
  {
  }

  lemma {:induction false} AlwaysOnTime(s: State, run: seq<Event>)
    requires Init(s) && Valid(s, run) && Punctual(s, run) && s.debounceMs >= 0.0
    ensures var m := Exec(s, run); forall t :: t in m.timers ==> m.now <= m.timers[t].due
  {
    if run != [] {
      AlwaysOnTime(s, run[..|run| - 1]);
      TimersAlwaysMatch(s, run[..|run| - 1]);
      OnTime(Exec(s, run[..|run| - 1]), run[|run| - 1]);
    }
  }

  lemma StepKeepsGapsShort(s: State, e: Event, k: Key, g: Groups)
    requires Tracks(s, k, g.open) && forall t :: t in s.timers ==> s.now <= s.timers[t].due
    requires forall i :: 0 <= i < |g.closed| ==> GapsAreShort(g.closed[i], s.debounceMs)
    requires GapsAreShort(g.open, s.debounceMs)
    ensures var g' := Regrouped(s, e, k, g);
            && (forall i :: 0 <= i < |g'.closed| ==> GapsAreShort(g'.closed[i], s.debounceMs))
            && GapsAreShort(g'.open, s.debounceMs)
  {
  }

  /** With punctual timers every gap longer than the debounce period is a cut. */
  lemma {:induction false} LongGapsCut(s: State, run: seq<Event>, k: Key)
    requires Init(s) && Valid(s, run) && Punctual(s, run) && s.debounceMs >= 0.0
    ensures var g := GroupsOf(s, run, k);
            && (forall i :: 0 <= i < |g.closed| ==> GapsAreShort(g.closed[i], s.debounceMs))
            && GapsAreShort(g.open, s.debounceMs)
  {
    if run != [] {
      var before := run[..|run| - 1];
      LongGapsCut(s, before, k);
      DebounceRefinesGroups(s, before, k);
      TimersAlwaysMatch(s, before);
      AlwaysOnTime(s, before);
      StepKeepsGapsShort(Exec(s, before), run[|run| - 1], k, GroupsOf(s, before, k));
    }
  }

  // ---------------------------------------------------------------- the reference grouping

  /** Cuts a sequence of reviews at every gap longer than `d`. */
  function GroupByGap(arrivals: seq<Arrival>, d: real): (gs: seq<seq<Arrival>>)
    ensures arrivals != [] ==> gs != [] && gs[|gs| - 1] != [] && gs[|gs| - 1][|gs[|gs| - 1]| - 1] == arrivals[|arrivals| - 1]
  {
    if arrivals == [] then []
    else
      var n := |arrivals| - 1;
      var gs := GroupByGap(arrivals[..n], d);
      if n == 0 || arrivals[n].at - arrivals[n - 1].at > d then gs + [[arrivals[n]]]
      else gs[..|gs| - 1] + [gs[|gs| - 1] + [arrivals[n]]]
  }

  /** No two consecutive reviews lie exactly `d` apart: the one case timers leave open. */
  predicate NoTies(arrivals: seq<Arrival>, d: real) {
    forall i :: 0 < i < |arrivals| ==> arrivals[i].at - arrivals[i - 1].at != d
  }

  lemma LastOfGroups(g: Groups, arrivals: seq<Arrival>)
    requires Flatten(g.closed) + g.open == arrivals && arrivals != []
    requires forall i :: 0 <= i < |g.closed| ==> g.closed[i] != []
    ensures g.open != [] ==> arrivals[|arrivals| - 1] == g.open[|g.open| - 1]
    ensures g.open == [] ==>
              && g.closed != []
              && var last := g.closed[|g.closed| - 1]; arrivals[|arrivals| - 1] == last[|last| - 1]
  {
  }

  lemma ReferenceJoins(arrivals: seq<Arrival>, a: Arrival, d: real)
    requires arrivals != [] && a.at - arrivals[|arrivals| - 1].at <= d
    ensures var gs := GroupByGap(arrivals, d);
            GroupByGap(arrivals + [a], d) == gs[..|gs| - 1] + [gs[|gs| - 1] + [a]]
  {
    var all := arrivals + [a];
    assert all[..|arrivals|] == arrivals;
    assert all[|arrivals|] == a && all[|arrivals| - 1] == arrivals[|arrivals| - 1];
  }

  lemma ReferenceCuts(arrivals: seq<Arrival>, a: Arrival, d: real)
    requires arrivals != [] ==> a.at - arrivals[|arrivals| - 1].at > d
    ensures GroupByGap(arrivals + [a], d) == GroupByGap(arrivals, d) + [[a]]
  {
    assert (arrivals + [a])[..|arrivals|] == arrivals;
  }

  /** One more review joins the open group or starts one, as the reference grouping does. */
  lemma ArrivalExtends(g: Groups, arrivals: seq<Arrival>, a: Arrival, d: real)
    requires AllGroups(g) == GroupByGap(arrivals, d) && Flatten(g.closed) + g.open == arrivals
    requires forall i :: 0 <= i < |g.closed| ==> g.closed[i] != []
    requires g.open != [] ==> a.at - g.open[|g.open| - 1].at <= d
    requires ClosedLongAgo(g, a.at, d) && NoTies(arrivals + [a], d)
    ensures AllGroups(g.(open := g.open + [a])) == GroupByGap(arrivals + [a], d)
  {
    var gs, all := AllGroups(g), arrivals + [a];
    if arrivals != [] {
      LastOfGroups(g, arrivals);
      assert all[|arrivals|] == a && all[|arrivals| - 1] == arrivals[|arrivals| - 1];
    }
    if g.open != [] {
      ReferenceJoins(arrivals, a, d);
      assert gs[..|gs| - 1] == g.closed && gs[|gs| - 1] == g.open;
    } else {
      ReferenceCuts(arrivals, a, d);
      assert gs == g.closed && g.open + [a] == [a];
    }
  }

  /** The groups of `k` in a state are the reference grouping of the arrivals so far. */
  predicate Follows(s: State, k: Key, g: Groups, arrivals: seq<Arrival>) {
    && Refines(s, k, g)
    && Flatten(g.closed) + g.open == arrivals
    && AllGroups(g) == GroupByGap(arrivals, s.debounceMs)
  }

  lemma StepFollows(s: State, e: Event, k: Key, g: Groups, arrivals: seq<Arrival>)
    requires TimersMatch(s) && Enabled(s, e) && Follows(s, k, g, arrivals)
    requires ClosedLongAgo(g, s.now, s.debounceMs) && NoTies(arrivals + Arriving(s, e, k), s.debounceMs)
    requires forall t :: t in s.timers ==> s.now <= s.timers[t].due
    ensures AllGroups(Regrouped(s, e, k, g)) == GroupByGap(arrivals + Arriving(s, e, k), s.debounceMs)
  {
    if e.Reviewed? && KeyOf(e.review) == k {
      ArrivalExtends(g, arrivals, Arrival(s.now, e.review), s.debounceMs);
    } else {
      assert AllGroups(Regrouped(s, e, k, g)) == AllGroups(g);
      assert arrivals + Arriving(s, e, k) == arrivals;
    }
  }

  lemma PrefixNoTies(arrivals: seq<Arrival>, more: seq<Arrival>, d: real)
    requires NoTies(arrivals + more, d)
    ensures NoTies(arrivals, d)
  {
    assert forall i :: 0 <= i < |arrivals| ==> (arrivals + more)[i] == arrivals[i];
  }

  /** With punctual timers and no ties, the debouncer's groups are exactly the reference
      grouping of the reviews' times, for every key whatever the other keys do. */
  lemma {:induction false} PunctualDebounceIsGroupByGap(s: State, run: seq<Event>, k: Key)
    requires Init(s) && Valid(s, run) && Punctual(s, run) && s.debounceMs >= 0.0
    requires NoTies(Arrivals(s, run, k), s.debounceMs)
    ensures AllGroups(GroupsOf(s, run, k)) == GroupByGap(Arrivals(s, run, k), s.debounceMs)
  {
    if run != [] {
      var before, e := run[..|run| - 1], run[|run| - 1];
      PrefixNoTies(Arrivals(s, before, k), Arriving(Exec(s, before), e, k), s.debounceMs);
      PunctualDebounceIsGroupByGap(s, before, k);
      FollowsAlong(s, before, k);
      StepFollows(Exec(s, before), e, k, GroupsOf(s, before, k), Arrivals(s, before, k));
    }
  }

  lemma FollowsAlong(s: State, run: seq<Event>, k: Key)
    requires Init(s) && Valid(s, run) && Punctual(s, run) && s.debounceMs >= 0.0
    requires AllGroups(GroupsOf(s, run, k)) == GroupByGap(Arrivals(s, run, k), s.debounceMs)
    ensures var m := Exec(s, run);
            && TimersMatch(m) && m.debounceMs == s.debounceMs
            && Follows(m, k, GroupsOf(s, run, k), Arrivals(s, run, k))
            && ClosedLongAgo(GroupsOf(s, run, k), m.now, s.debounceMs)
            && forall t :: t in m.timers ==> m.now <= m.timers[t].due
  {
    DebounceRefinesGroups(s, run, k);
    TimersAlwaysMatch(s, run);
    NoShortCut(s, run, k);
    AlwaysOnTime(s, run);
    GroupsCoverArrivals(s, run, k);
  }
}
