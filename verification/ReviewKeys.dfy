/**
  Which reviews end up together in one message: those of one user on one merge request that
  follow each other soon enough, and no others; and what the message takes from them.
 */
module ReviewKeys {
  import opened Common
  import opened ReviewDebounce
  import G = ReviewGroups

  // ---------------------------------------------------------------- one user, one merge request

  predicate Agree(a: Review, b: Review) {
    a.mergeRequest.iid == b.mergeRequest.iid && a.user.username == b.user.username
  }

  /** All reviews are by one user on one merge request. */
  predicate AllAgree(g: seq<G.Arrival>) {
    forall i, j :: 0 <= i < |g| && 0 <= j < |g| ==> Agree(g[i].review, g[j].review)
  }

  predicate AllBy(g: seq<G.Arrival>, iid: nat, username: string) {
    forall i :: 0 <= i < |g| ==> g[i].review.mergeRequest.iid == iid && g[i].review.user.username == username
  }

  lemma {:induction false} GroupsAgree(s: State, run: seq<Event>, k: Key)
    ensures var g := G.GroupsOf(s, run, k);
            (forall i :: 0 <= i < |g.closed| ==> AllBy(g.closed[i], k.iid, k.username)) && AllBy(g.open, k.iid, k.username)
  {
    if run != [] {
      GroupsAgree(s, run[..|run| - 1], k);
    }
  }

  lemma {:induction false} RenderedHas(msgs: seq<Message>, j: nat) returns (i: nat)
    requires j < |msgs|
    ensures var own := G.RenderedFor(msgs, msgs[j].key); i < |own| && own[i] == msgs[j]
  {
    var front := msgs[..|msgs| - 1];
    if j == |front| {
      i := |G.RenderedFor(front, msgs[j].key)|;
    } else {
      i := RenderedHas(front, j);
    }
  }

  /** The i-th closed group of the key makes the message, and its reviews agree. */
  ghost predicate MadeOf(s: State, run: seq<Event>, m: Message, i: nat) {
    var groups := G.GroupsOf(s, run, m.key).closed;
    i < |groups| && groups[i] != [] && AllAgree(groups[i]) && m == G.Summary(m.key, groups[i])
  }

  /** On every run, the reviews that any one message sums up are all by one user on one merge
      request. */
  lemma MessagesAreOneUsers(s: State, run: seq<Event>, j: nat)
    requires Init(s) && Valid(s, run) && j < |Exec(s, run).rendered|
    ensures exists i: nat :: MadeOf(s, run, Exec(s, run).rendered[j], i)
  {
    var msgs := Exec(s, run).rendered;
    var k := msgs[j].key;
    G.DebounceRefinesGroups(s, run, k);
    GroupsAgree(s, run, k);
    var i := RenderedHas(msgs, j);
    assert MadeOf(s, run, msgs[j], i);
  }

  // ---------------------------------------------------------------- soon after each other

  predicate Ordered(open: seq<G.Arrival>, now: real) {
    && (forall i :: 0 <= i < |open| ==> open[i].at <= now)
    && forall i, j :: 0 <= i < j < |open| ==> open[i].at <= open[j].at
  }

  lemma OrderStep(s: State, e: Event, k: Key, g: G.Groups)
    requires Enabled(s, e) && Ordered(g.open, s.now)
    ensures Ordered(G.Regrouped(s, e, k, g).open, Apply(s, e).now)
  {
    assert s.now <= Apply(s, e).now;
  }

  lemma {:induction false} OpenIsOrdered(s: State, run: seq<Event>, k: Key)
    requires Valid(s, run)
    ensures Ordered(G.GroupsOf(s, run, k).open, Exec(s, run).now)
  {
    if run != [] {
      var before, e := run[..|run| - 1], run[|run| - 1];
      OpenIsOrdered(s, before, k);
      OrderStep(Exec(s, before), e, k, G.GroupsOf(s, before, k));
    }
  }

  lemma Snoc(s: State, run: seq<Event>, e: Event, k: Key)
    ensures Exec(s, run + [e]) == Apply(Exec(s, run), e)
    ensures Valid(s, run + [e]) <==> Valid(s, run) && Enabled(Exec(s, run), e)
    ensures G.GroupsOf(s, run + [e], k) == G.Regrouped(Exec(s, run), e, k, G.GroupsOf(s, run, k))
  {
    assert (run + [e])[..|run|] == run;
  }

  lemma NotCutYet(s: State, e: Event, k: Key, g: G.Groups, x: G.Arrival)
    requires TimersMatch(s) && Enabled(s, e) && G.Tracks(s, k, g.open)
    requires x in g.open && Ordered(g.open, s.now) && s.now - x.at < s.debounceMs
    ensures x in G.Regrouped(s, e, k, g).open
  {
    if G.Cuts(s, e, k) {
      G.CutTracked(s, e, k, g.open);
    }
  }

  lemma StaysOpenStep(s: State, run: seq<Event>, e: Event, k: Key, x: G.Arrival)
    requires Init(s) && Valid(s, run) && Enabled(Exec(s, run), e) && x in G.GroupsOf(s, run, k).open
    requires Exec(s, run).now - x.at < s.debounceMs
    ensures x in G.GroupsOf(s, run + [e], k).open
  {
    Snoc(s, run, e, k);
    OpenIsOrdered(s, run, k);
    G.DebounceRefinesGroups(s, run, k);
    TimersAlwaysMatch(s, run);
    NotCutYet(Exec(s, run), e, k, G.GroupsOf(s, run, k), x);
  }

  lemma TimeRunsOn(s: State, run: seq<Event>, e: Event)
    requires Valid(s, run + [e])
    ensures Valid(s, run) && Exec(s, run).now <= Exec(s, run + [e]).now
  {
    assert (run + [e])[..|run|] == run;
  }

  /** A review stays in the open group for as long as the debounce period has not passed. */
  lemma {:induction false} StaysOpen(s: State, run: seq<Event>, more: seq<Event>, k: Key, x: G.Arrival)
    requires Init(s) && Valid(s, run + more) && x in G.GroupsOf(s, run, k).open
    requires Exec(s, run + more).now - x.at < s.debounceMs
    ensures x in G.GroupsOf(s, run + more, k).open
  {
    if more == [] {
      assert run + more == run;
    } else {
      var front, e := more[..|more| - 1], more[|more| - 1];
      assert run + more == (run + front) + [e];
      TimeRunsOn(s, run + front, e);
      Snoc(s, run + front, e, k);
      StaysOpen(s, run, front, k, x);
      StaysOpenStep(s, run + front, e, k, x);
    }
  }

  ghost predicate Together(s: State, run: seq<Event>, k: Key, a: G.Arrival, b: G.Arrival) {
    var open := G.GroupsOf(s, run, k).open;
    a in open && open[|open| - 1] == b
  }

  lemma JoinsOpen(s: State, run: seq<Event>, r: Review, k: Key)
    requires k == KeyOf(r)
    ensures G.GroupsOf(s, run + [Reviewed(r)], k).open == G.GroupsOf(s, run, k).open + [G.Arrival(Exec(s, run).now, r)]
  {
    Snoc(s, run, Reviewed(r), k);
  }

  /** Two reviews by one user on one merge request less than the period apart are in one group,
      whatever happens between them. */
  lemma SoonIsTogether(s: State, before: seq<Event>, a: Review, mid: seq<Event>, b: Review)
    requires Init(s) && Agree(a, b)
    requires Valid(s, before + [Reviewed(a)] + mid)
    requires Exec(s, before + [Reviewed(a)] + mid).now - Exec(s, before).now < s.debounceMs
    ensures exists k :: Together(s, before + [Reviewed(a)] + mid + [Reviewed(b)], k,
                                 G.Arrival(Exec(s, before).now, a), G.Arrival(Exec(s, before + [Reviewed(a)] + mid).now, b))
  {
    var k, first := KeyOf(a), before + [Reviewed(a)];
    var x := G.Arrival(Exec(s, before).now, a);
    JoinsOpen(s, before, a, k);
    var open := G.GroupsOf(s, first, k).open;
    assert open[|open| - 1] == x;
    StaysOpen(s, first, mid, k, x);
    JoinsOpen(s, first + mid, b, k);
    assert Together(s, first + mid + [Reviewed(b)], k, x, G.Arrival(Exec(s, first + mid).now, b));
  }

  /** A review leaves the burst and the timer of every other user and merge request alone. */
  lemma OthersAreUntouched(s: State, r: Review, k: Key)
    requires TimersMatch(s) && (k.iid != r.mergeRequest.iid || k.username != r.user.username)
    ensures var s' := Apply(s, Reviewed(r));
            && (k in s'.pending <==> k in s.pending)
            && (k in s.pending ==>
                  && s'.pending[k] == s.pending[k]
                  && s.pending[k].timeout in s'.timers
                  && s'.timers[s.pending[k].timeout] == s.timers[s.pending[k].timeout])
  {
  }

  // ---------------------------------------------------------------- what a message takes over

  function AllNotes(g: seq<G.Arrival>): seq<string> {
    if g == [] then []
    else AllNotes(g[..|g| - 1]) + match g[|g| - 1].review.commentNotes
                                  case Some(notes) => notes
                                  case None => []
  }

  function AllDiscussions(g: seq<G.Arrival>): seq<string> {
    if g == [] then []
    else AllDiscussions(g[..|g| - 1]) + match g[|g| - 1].review.discussionId
                                        case Some(id) => if id == "" then [] else [id]
                                        case None => []
  }

  lemma {:induction false} NotesAndDiscussions(g: seq<G.Arrival>)
    ensures G.Notes(g).None? <==> forall i :: 0 <= i < |g| ==> g[i].review.commentNotes.None?
    ensures G.Notes(g).Some? ==> G.Notes(g).value == AllNotes(g)
    ensures G.Notes(g).None? ==> AllNotes(g) == []
    ensures G.Discussions(g) == AllDiscussions(g)
  {
    if g != [] {
      NotesAndDiscussions(g[..|g| - 1]);
    }
  }

  /** On every run the i-th message of a key quotes all notes of its group in order, none if there
      were none, and belongs to all its discussions in order. */
  lemma MessagesQuoteAll(s: State, run: seq<Event>, k: Key, i: nat)
    requires Init(s) && Valid(s, run) && i < |G.GroupsOf(s, run, k).closed|
    ensures var g := G.GroupsOf(s, run, k).closed[i];
            var own := G.RenderedFor(Exec(s, run).rendered, k);
            && i < |own|
            && (own[i].commentNotes.None? <==> forall j :: 0 <= j < |g| ==> g[j].review.commentNotes.None?)
            && (own[i].commentNotes.Some? ==> own[i].commentNotes.value == AllNotes(g))
            && own[i].discussions == AllDiscussions(g)
  {
    G.DebounceRefinesGroups(s, run, k);
    NotesAndDiscussions(G.GroupsOf(s, run, k).closed[i]);
  }
}
