/**
  The GitLab webhooks that feed the review debouncer: which of them a room lets through, what
  each contributes, and what a rendered message therefore says about the webhooks behind it.
 */
module ReviewCallers {
  import opened Common
  import opened ReviewDebounce
  import G = ReviewGroups
  import H = HookFilter

  /** A label title is never empty. */
  type Label = s: string | s != "" witness "bug"

  /** The room's configuration; an absent list counts as empty. */
  datatype Config = Config(
    enabledHooks: seq<string>,
    includingLabels: seq<Label>,
    excludingLabels: seq<Label>,
    includeCommentBody: bool)

  datatype MergeRequestEvent = MergeRequestEvent(
    user: User,
    mergeRequest: MergeRequest,
    project: Option<Project>,
    action: string,
    labels: seq<Label>)

  datatype NoteEvent = NoteEvent(
    user: User,
    mergeRequest: Option<MergeRequest>,
    project: Project,
    onMergeRequest: bool,
    note: string,
    discussionId: Option<string>)

  datatype Hook = Reviewed(review: MergeRequestEvent) | Individual(approval: MergeRequestEvent) | Commented(comment: NoteEvent)

  predicate Share(a: seq<Label>, b: seq<Label>) { exists l: Label :: l in a && l in b }

  /** An excluded label always keeps the event out; included ones are needed if there are any. */
  predicate MatchesLabelFilter(c: Config, labels: seq<Label>) {
    !Share(c.excludingLabels, labels) && (c.includingLabels != [] ==> Share(c.includingLabels, labels))
  }

  function ApprovalOf(e: MergeRequestEvent): Option<Review> {
    if e.project.None? then None
    else Some(Review(e.user, e.mergeRequest, e.project.value, 0, None, Some(e.action == "approved"), None, false))
  }

  /** Do the room's hook and label filters let the webhook through, and is it about a merge
      request? */
  predicate Passes(c: Config, h: Hook) {
    match h
    case Reviewed(e) =>
      && !H.Skips(c.enabledHooks, ["merge_request", "merge_request.review", "merge_request." + e.action])
      && MatchesLabelFilter(c, e.labels)
    case Individual(e) =>
      && !H.Skips(c.enabledHooks, ["merge_request", "merge_request.review.individual"])
      && MatchesLabelFilter(c, e.labels)
    case Commented(e) =>
      && !H.Skips(c.enabledHooks, ["merge_request", "merge_request.review"])
      && e.mergeRequest.Some? && e.onMergeRequest
  }

  /** What a webhook hands to the debouncer: nothing if it does not pass or its handler throws. */
  function Produces(c: Config, h: Hook): Option<Review> {
    if !Passes(c, h) then None
    else match h
      case Reviewed(e) => ApprovalOf(e)
      case Individual(e) => ApprovalOf(e)
      case Commented(e) =>
        Some(Review(e.user, e.mergeRequest.value, e.project, 1, if c.includeCommentBody then Some([e.note]) else None,
                    None, e.discussionId, H.Skips(c.enabledHooks, ["merge_request.review.comments"])))
  }

  /** No excluded label, and an included one if any are asked for. */
  lemma LabelFilterIff(c: Config, labels: seq<Label>)
    ensures MatchesLabelFilter(c, labels) <==>
              && (forall l: Label :: l in labels ==> l !in c.excludingLabels)
              && (c.includingLabels == [] || exists l: Label :: l in labels && l in c.includingLabels)
  {
  }

  /** Which hooks let which webhook through: any one of those named is enough. */
  lemma PassesIff(c: Config, h: Hook)
    ensures Passes(c, h) <==>
              match h
              case Reviewed(e) =>
                && ("merge_request" in c.enabledHooks || "merge_request.review" in c.enabledHooks
                    || "merge_request." + e.action in c.enabledHooks)
                && MatchesLabelFilter(c, e.labels)
              case Individual(e) =>
                && ("merge_request" in c.enabledHooks || "merge_request.review.individual" in c.enabledHooks)
                && MatchesLabelFilter(c, e.labels)
              case Commented(e) =>
                && ("merge_request" in c.enabledHooks || "merge_request.review" in c.enabledHooks)
                && e.mergeRequest.Some? && e.onMergeRequest
  {
    match h
    case Reviewed(e) =>
      var names := ["merge_request", "merge_request.review", "merge_request." + e.action];
      SkipsNone(c.enabledHooks, names);
      assert names[0] in names && names[1] in names && names[2] in names;
    case Individual(e) =>
      var names := ["merge_request", "merge_request.review.individual"];
      SkipsNone(c.enabledHooks, names);
      assert names[0] in names && names[1] in names;
    case Commented(e) =>
      var names := ["merge_request", "merge_request.review"];
      SkipsNone(c.enabledHooks, names);
      assert names[0] in names && names[1] in names;
  }

  lemma SkipsNone(enabledHooks: seq<string>, names: seq<string>)
    ensures H.Skips(enabledHooks, names) <==> forall i :: 0 <= i < |names| ==> names[i] !in enabledHooks
  {
    if forall i :: 0 <= i < |names| ==> names[i] !in enabledHooks {
      forall name | name in names ensures name !in enabledHooks {
        var i :| 0 <= i < |names| && names[i] == name;
      }
    } else {
      var i :| 0 <= i < |names| && names[i] in enabledHooks;
      assert names[i] in names;
    }
  }

  /** A comment that passes contributes itself and its text if the room wants that; an approval
      contributes only itself, and neither without a project. */
  lemma Contributes(c: Config, h: Hook, r: Review)
    ensures Produces(c, h) == Some(r) <==>
              Passes(c, h) &&
              match h
              case Commented(e) =>
                && r.user == e.user && Some(r.mergeRequest) == e.mergeRequest && r.project == e.project
                && r.commentCount == 1 && r.commentNotes == (if c.includeCommentBody then Some([e.note]) else None)
                && r.approved == None && r.discussionId == e.discussionId
                && (r.skip <==> "merge_request.review.comments" !in c.enabledHooks)
              case Reviewed(e) => Approves(e, r)
              case Individual(e) => Approves(e, r)
  {
    SkipsNone(c.enabledHooks, ["merge_request.review.comments"]);
  }

  predicate Approves(e: MergeRequestEvent, r: Review) {
    && r.user == e.user && r.mergeRequest == e.mergeRequest && e.project == Some(r.project)
    && r.commentCount == 0 && r.commentNotes == None && r.approved == Some(e.action == "approved")
    && r.discussionId == None && !r.skip
  }

  // ---------------------------------------------------------------- the object

  class Room {
    const config: Config
    const hookFilter: H.Filter
    const connection: Connection

    constructor (config: Config, connection: Connection)
      ensures this.config == config && this.connection == connection && Valid()
      ensures fresh(hookFilter)
    {
      this.config, this.connection := config, connection;
      hookFilter := new H.Filter(config.enabledHooks);
    }

    ghost predicate Valid()
      reads hookFilter
    {
      hookFilter.enabledHooks == config.enabledHooks
    }

    method LabelsMatch(labels: seq<Label>) returns (r: bool)
      ensures r <==> MatchesLabelFilter(config, labels)
    {
      if |config.excludingLabels| > 0 {
        var excluded := FindShared(config.excludingLabels, labels);
        if excluded {
          return false;
        }
      }
      if |config.includingLabels| > 0 {
        r := FindShared(config.includingLabels, labels);
        return;
      }
      return true;
    }

    method FindShared(wanted: seq<Label>, labels: seq<Label>) returns (r: bool)
      ensures r <==> Share(wanted, labels)
    {
      for i := 0 to |wanted|
        invariant forall l :: l in wanted[..i] ==> l !in labels
      {
        if wanted[i] in labels {
          return true;
        }
        assert wanted[..i + 1] == wanted[..i] + [wanted[i]];
      }
      assert wanted[..|wanted|] == wanted;
      return false;
    }

    /** The common end of both approval handlers; false if validateMREvent threw. */
    method Approve(e: MergeRequestEvent) returns (ok: bool)
      modifies connection
      ensures ok <==> e.project.Some?
      ensures match ApprovalOf(e)
              case Some(r) => connection.View() == Apply(old(connection.View()), Event.Reviewed(r))
              case None => connection.View() == old(connection.View())
    {
      if e.project.None? {
        return false;
      }
      connection.DebounceMergeRequestReview(
        Review(e.user, e.mergeRequest, e.project.value, 0, None, Some(e.action == "approved"), None, false));
      return true;
    }

    /** Returns false if the handler threw. */
    method OnMergeRequestReviewed(e: MergeRequestEvent) returns (ok: bool)
      requires Valid()
      modifies connection
      ensures match Produces(config, Hook.Reviewed(e))
              case Some(r) => connection.View() == Apply(old(connection.View()), Event.Reviewed(r))
              case None => connection.View() == old(connection.View())
      ensures ok <==> e.project.Some? || !Passes(config, Hook.Reviewed(e))
    {
      var skip := hookFilter.ShouldSkip(["merge_request", "merge_request.review", "merge_request." + e.action]);
      if !skip {
        skip := LabelsMatch(e.labels);
        skip := !skip;
      }
      if skip {
        return true;
      }
      ok := Approve(e);
    }

    /** Returns false if the handler threw. */
    method OnMergeRequestIndividualReview(e: MergeRequestEvent) returns (ok: bool)
      requires Valid()
      modifies connection
      ensures match Produces(config, Individual(e))
              case Some(r) => connection.View() == Apply(old(connection.View()), Event.Reviewed(r))
              case None => connection.View() == old(connection.View())
      ensures ok <==> e.project.Some? || !Passes(config, Individual(e))
    {
      var skip := hookFilter.ShouldSkip(["merge_request", "merge_request.review.individual"]);
      if !skip {
        skip := LabelsMatch(e.labels);
        skip := !skip;
      }
      if skip {
        return true;
      }
      ok := Approve(e);
    }

    method OnCommentCreated(e: NoteEvent)
      requires Valid()
      modifies connection
      ensures match Produces(config, Commented(e))
              case Some(r) => connection.View() == Apply(old(connection.View()), Event.Reviewed(r))
              case None => connection.View() == old(connection.View())
    {
      var skip := hookFilter.ShouldSkip(["merge_request", "merge_request.review"]);
      if skip {
        return;
      }
      if e.mergeRequest.None? || !e.onMergeRequest {
        return;
      }
      skip := hookFilter.ShouldSkip(["merge_request.review.comments"]);
      var notes := if config.includeCommentBody then Some([e.note]) else None;
      connection.DebounceMergeRequestReview(
        Review(e.user, e.mergeRequest.value, e.project, 1, notes, None, e.discussionId, skip));
    }
  }

  // ---------------------------------------------------------------- what a message says

  ghost predicate Made(c: Config, r: Review) { exists h :: Produces(c, h) == Some(r) }

  ghost predicate AllMade(c: Config, g: seq<G.Arrival>) {
    forall i :: 0 <= i < |g| ==> Made(c, g[i].review)
  }

  /** Every review of the run came from a webhook. */
  ghost predicate FromHooks(c: Config, run: seq<Event>) {
    forall i :: 0 <= i < |run| && run[i].Reviewed? ==> Made(c, run[i].review)
  }

  /** How many of the reviews are comments. */
  function Comments(g: seq<G.Arrival>): nat {
    if g == [] then 0
    else Comments(g[..|g| - 1]) + if g[|g| - 1].review.approved.None? then 1 else 0
  }

  lemma {:induction false} CommentsAreCounted(c: Config, g: seq<G.Arrival>)
    requires AllMade(c, g)
    ensures G.Sum(g) == Comments(g) && |G.Discussions(g)| <= Comments(g)
    ensures c.includeCommentBody && Comments(g) > 0 ==> G.Notes(g).Some? && |G.Notes(g).value| == Comments(g)
    ensures !c.includeCommentBody || Comments(g) == 0 ==> G.Notes(g).None?
  {
    if g != [] {
      CommentsAreCounted(c, g[..|g| - 1]);
      var r := g[|g| - 1].review;
      assert Made(c, r);
    }
  }

  lemma {:induction false} GroupsAreMade(c: Config, s: State, run: seq<Event>, k: Key)
    requires FromHooks(c, run)
    ensures var g := G.GroupsOf(s, run, k);
            (forall i :: 0 <= i < |g.closed| ==> AllMade(c, g.closed[i])) && AllMade(c, g.open)
  {
    if run != [] {
      GroupsAreMade(c, s, run[..|run| - 1], k);
    }
  }

  /** On every run fed by webhooks, the i-th message for a key counts exactly the comments of its
      group, quotes each of them or none, and shows an approval iff the group's last webhook was
      an approval: a comment that follows one hides it. */
  lemma MessagesTellTheHooks(c: Config, s: State, run: seq<Event>, k: Key, i: nat)
    requires Init(s) && Valid(s, run) && FromHooks(c, run)
    requires i < |G.GroupsOf(s, run, k).closed|
    ensures var g := G.GroupsOf(s, run, k).closed[i];
            var rendered := G.RenderedFor(Exec(s, run).rendered, k);
            && |rendered| == |G.GroupsOf(s, run, k).closed| && g != []
            && var m := rendered[i];
            && m.commentCount == Comments(g) && |m.discussions| <= Comments(g)
            && (m.commentNotes.Some? <==> c.includeCommentBody && Comments(g) > 0)
            && (m.commentNotes.Some? ==> |m.commentNotes.value| == Comments(g))
            && m.approved == g[|g| - 1].review.approved
            && (m.approved.None? <==> g[|g| - 1].review.commentCount == 1)
  {
    G.DebounceRefinesGroups(s, run, k);
    GroupsAreMade(c, s, run, k);
    var g := G.GroupsOf(s, run, k).closed[i];
    CommentsAreCounted(c, g);
    assert Made(c, g[|g| - 1].review);
  }

  /** `h` is a webhook that could have made the group's last review. */
  predicate LastHook(c: Config, g: seq<G.Arrival>, h: Hook) {
    g != [] && Produces(c, h) == Some(g[|g| - 1].review)
  }

  /** What the webhook says about approval: nothing if it is a comment. */
  function Shown(h: Hook): Option<bool> {
    match h
    case Reviewed(e) => Some(e.action == "approved")
    case Individual(e) => Some(e.action == "approved")
    case Commented(_) => None
  }

  /** On every run fed by webhooks, a message shows an approval iff the action of its group's last
      webhook is "approved", and shows a withdrawn one for any other action, an "approval" too. */
  lemma ApprovalIsShownIff(c: Config, s: State, run: seq<Event>, k: Key, i: nat)
    requires Init(s) && Valid(s, run) && FromHooks(c, run)
    requires i < |G.GroupsOf(s, run, k).closed|
    ensures i < |G.RenderedFor(Exec(s, run).rendered, k)|
    ensures exists h :: LastHook(c, G.GroupsOf(s, run, k).closed[i], h)
    ensures forall h :: LastHook(c, G.GroupsOf(s, run, k).closed[i], h) ==>
              G.RenderedFor(Exec(s, run).rendered, k)[i].approved == Shown(h)
  {
    MessagesTellTheHooks(c, s, run, k, i);
    GroupsAreMade(c, s, run, k);
    var g := G.GroupsOf(s, run, k).closed[i];
    LastHookExists(c, g);
    forall h | LastHook(c, g, h) ensures g[|g| - 1].review.approved == Shown(h) {
      HookShows(c, h);
    }
  }

  lemma LastHookExists(c: Config, g: seq<G.Arrival>)
    requires AllMade(c, g) && g != []
    ensures exists h :: LastHook(c, g, h)
  {
    assert Made(c, g[|g| - 1].review);
    var h :| Produces(c, h) == Some(g[|g| - 1].review);
    assert LastHook(c, g, h);
  }

  lemma HookShows(c: Config, h: Hook)
    requires Produces(c, h).Some?
    ensures Produces(c, h).value.approved == Shown(h)
  {
  }

  /** The webhook of one person's approval, in a room that asks for those. */
  function IndividualApproval(): MergeRequestEvent {
    MergeRequestEvent(User("Alice", "alice"), MergeRequest(1, "https://gitlab.example/p/1", "Fix"), Some(Project("p")), "approval", [])
  }

  function IndividualOnly(): Config { Config(["merge_request.review.individual"], [], [], false) }

  lemma IndividualApprovalPasses()
    ensures Passes(IndividualOnly(), Individual(IndividualApproval()))
  {
    var names := ["merge_request", "merge_request.review.individual"];
    assert names[1] in IndividualOnly().enabledHooks;
    assert names[1] in names;
  }

  /** A review, the debounce period, and its timer. */
  function LoneReview(s: State, r: Review): seq<Event> {
    [Event.Reviewed(r), Tick(s.debounceMs), Fire(s.nextTimer)]
  }

  lemma LoneReviewRenders(s: State, r: Review)
    requires Init(s) && s.debounceMs >= 0.0
    ensures Valid(s, LoneReview(s, r))
    ensures var msgs := Exec(s, LoneReview(s, r)).rendered; |msgs| == 1 && msgs[0].approved == r.approved
  {
    var run := LoneReview(s, r);
    var first, second := [run[0]], [run[0], run[1]];
    assert run[..2] == second && second[..1] == first && first[..0] == [];
    var s1 := Apply(s, run[0]);
    assert Exec(s, first) == s1 && Valid(s, first);
    assert Exec(s, second) == Apply(s1, run[1]) && Valid(s, second);
  }

  /** The action of such a webhook is "approval", not the word the handler compares with: alone
      in its burst it is announced as unapproved. */
  lemma IndividualApprovalShowsUnapproved(s: State)
    requires Init(s) && s.debounceMs >= 0.0
    ensures var r := Produces(IndividualOnly(), Individual(IndividualApproval()));
            && r.Some? && Valid(s, LoneReview(s, r.value))
            && var msgs := Exec(s, LoneReview(s, r.value)).rendered;
            && |msgs| == 1 && msgs[0].approved == Some(false)
  {
    var h := Individual(IndividualApproval());
    IndividualApprovalPasses();
    HookShows(IndividualOnly(), h);
    LoneReviewRenders(s, Produces(IndividualOnly(), h).value);
    assert "approval" != "approved";
  }

  // ---------------------------------------------------------------- the skip flag

  function Unskipped(r: Review): Review { r.(skip := false) }

  function UnskippedEvent(e: Event): Event {
    if e.Reviewed? then Event.Reviewed(Unskipped(e.review)) else e
  }

  function UnskippedRun(run: seq<Event>): seq<Event> {
    seq(|run|, i requires 0 <= i < |run| => UnskippedEvent(run[i]))
  }

  function UnskippedBursts(pending: map<Key, Burst>): map<Key, Burst> {
    map k | k in pending :: pending[k].(skip := false)
  }

  function UnskippedState(s: State): State { s.(pending := UnskippedBursts(s.pending)) }

  lemma UnskippedUpdate(pending: map<Key, Burst>, k: Key, b: Burst)
    ensures UnskippedBursts(pending[k := b]) == UnskippedBursts(pending)[k := b.(skip := false)]
    ensures UnskippedBursts(pending - {k}) == UnskippedBursts(pending) - {k}
  {
  }

  lemma UnskippedReview(s: State, r: Review)
    ensures Apply(UnskippedState(s), Event.Reviewed(Unskipped(r))) == UnskippedState(Apply(s, Event.Reviewed(r)))
  {
    var k := KeyOf(r);
    if k in s.pending {
      UnskippedUpdate(s.pending, k, Merge(s.pending[k], r, s.nextTimer));
      assert UnskippedBursts(s.pending)[k] == s.pending[k].(skip := false);
    } else {
      UnskippedUpdate(s.pending, k, First(r, s.nextTimer));
    }
  }

  lemma UnskippedStep(s: State, e: Event)
    ensures Apply(UnskippedState(s), UnskippedEvent(e)) == UnskippedState(Apply(s, e))
  {
    match e
    case Reviewed(r) => UnskippedReview(s, r);
    case Fire(t) =>
      if t in s.timers && s.timers[t].key in s.pending {
        UnskippedUpdate(s.pending, s.timers[t].key, s.pending[s.timers[t].key]);
      }
    case Tick(_) =>
  }

  /** Whether comments should be skipped makes no difference to what is rendered. */
  lemma {:induction false} SkipIsNeverRead(s: State, run: seq<Event>)
    requires Init(s)
    ensures Exec(s, UnskippedRun(run)) == UnskippedState(Exec(s, run))
    ensures Exec(s, UnskippedRun(run)).rendered == Exec(s, run).rendered
  {
    if run == [] {
      assert UnskippedState(s).pending == s.pending;
    } else {
      var before := run[..|run| - 1];
      SkipIsNeverRead(s, before);
      assert UnskippedRun(run)[..|run| - 1] == UnskippedRun(before);
      UnskippedStep(Exec(s, before), run[|run| - 1]);
    }
  }
}
