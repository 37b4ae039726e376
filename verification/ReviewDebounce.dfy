/**
  Debouncing of GitLab merge request reviews: reviews by one user on one merge request are
  gathered in a burst, each restarts the burst's timer, and the timer renders one message.
 */
module ReviewDebounce {
  import opened Common

  /** `${iid}/${username}`, which names the pair uniquely since an iid has no slash. */
  datatype Key = Key(iid: nat, username: string)

  datatype User = User(name: string, username: string)

  datatype MergeRequest = MergeRequest(iid: nat, url: string, title: string)

  datatype Project = Project(path: string)

  datatype Review = Review(
    user: User,
    mergeRequest: MergeRequest,
    project: Project,
    commentCount: nat,
    commentNotes: Option<seq<string>>,
    approved: Option<bool>,
    discussionId: Option<string>,
    skip: bool)

  /** An entry of debounceMRComments; `timeout` is the id of its timer. */
  datatype Burst = Burst(
    commentCount: nat,
    commentNotes: Option<seq<string>>,
    discussions: seq<string>,
    author: string,
    approved: Option<bool>,
    skip: bool,
    timeout: nat)

  /** A live timer and what its callback captured. */
  datatype Timer = Timer(due: real, key: Key, mergeRequest: MergeRequest, project: Project)

  /** What rendering reads; `skip` is not part of it. */
  datatype Message = Message(
    key: Key,
    author: string,
    mergeRequest: MergeRequest,
    project: Project,
    commentCount: nat,
    commentNotes: Option<seq<string>>,
    approved: Option<bool>,
    discussions: seq<string>)

  datatype State = State(
    pending: map<Key, Burst>,
    timers: map<nat, Timer>,
    nextTimer: nat,
    debounceMs: real,
    now: real,
    rendered: seq<Message>)

  datatype Event = Reviewed(review: Review) | Fire(timer: nat) | Tick(dt: real)

  function KeyOf(r: Review): Key { Key(r.mergeRequest.iid, r.user.username) }

  function Discussion(r: Review): seq<string> {
    if r.discussionId.Some? && r.discussionId.value != "" then [r.discussionId.value] else []
  }

  function Join(a: Option<seq<string>>, b: Option<seq<string>>): Option<seq<string>> {
    if b.None? then a else Some((if a.Some? then a.value else []) + b.value)
  }

  function Merge(b: Burst, r: Review, timeout: nat): Burst {
    Burst(b.commentCount + r.commentCount, Join(b.commentNotes, r.commentNotes), b.discussions + Discussion(r),
          b.author, r.approved, b.skip && r.skip, timeout)
  }

  function First(r: Review, timeout: nat): Burst {
    Burst(r.commentCount, r.commentNotes, Discussion(r), r.user.name, r.approved, r.skip, timeout)
  }

  function Render(k: Key, b: Burst, t: Timer): Message {
    Message(k, b.author, t.mergeRequest, t.project, b.commentCount, b.commentNotes, b.approved, b.discussions)
  }

  predicate Enabled(s: State, e: Event) {
    match e
    case Reviewed(_) => true
    case Fire(t) => t in s.timers && s.timers[t].due <= s.now
    case Tick(dt) => dt >= 0.0
  }

  function Apply(s: State, e: Event): State {
    match e
    case Reviewed(r) =>
      var k := KeyOf(r);
      var timers := if k in s.pending then s.timers - {s.pending[k].timeout} else s.timers;
      var burst := if k in s.pending then Merge(s.pending[k], r, s.nextTimer) else First(r, s.nextTimer);
      s.(pending := s.pending[k := burst],
         timers := timers[s.nextTimer := Timer(s.now + s.debounceMs, k, r.mergeRequest, r.project)],
         nextTimer := s.nextTimer + 1)
    case Fire(t) =>
      if t !in s.timers then s
      else
        var k := s.timers[t].key;
        var s' := s.(timers := s.timers - {t});
        if k !in s.pending then s'
        else s'.(pending := s.pending - {k}, rendered := s.rendered + [Render(k, s.pending[k], s.timers[t])])
    case Tick(dt) => s.(now := s.now + dt)
  }

  // ---------------------------------------------------------------- the object

  class Connection {
    var debounceMRComments: map<Key, Burst>
    var timers: map<nat, Timer>
    var nextTimer: nat
    const commentDebounceMs: real
    var now: real
    var rendered: seq<Message>

    ghost function View(): State
      reads this
    {
      State(debounceMRComments, timers, nextTimer, commentDebounceMs, now, rendered)
    }

    constructor (commentDebounceMs: real, start: real)
      ensures Init(View()) && View().debounceMs == commentDebounceMs && now == start
    {
      debounceMRComments, timers, nextTimer, rendered := map[], map[], 0, [];
      this.commentDebounceMs, now := commentDebounceMs, start;
    }

    method SetTimeout(key: Key, mergeRequest: MergeRequest, project: Project) returns (id: nat)
      modifies this`timers, this`nextTimer
      ensures id == old(nextTimer) && nextTimer == id + 1
      ensures timers == old(timers)[id := Timer(now + commentDebounceMs, key, mergeRequest, project)]
    {
      id := nextTimer;
      timers := timers[id := Timer(now + commentDebounceMs, key, mergeRequest, project)];
      nextTimer := nextTimer + 1;
    }

    method DebounceMergeRequestReview(r: Review)
      modifies this
      ensures View() == Apply(old(View()), Reviewed(r))
    {
      var uniqueId := KeyOf(r);
      if uniqueId in debounceMRComments {
        var existing := debounceMRComments[uniqueId];
        timers := timers - {existing.timeout};
        existing := existing.(approved := r.approved);
        if r.commentNotes.Some? {
          var notes := if existing.commentNotes.Some? then existing.commentNotes.value else [];
          existing := existing.(commentNotes := Some(notes + r.commentNotes.value));
        }
        existing := existing.(commentCount := existing.commentCount + r.commentCount);
        if !r.skip {
          existing := existing.(skip := false);
        }
        if r.discussionId.Some? && r.discussionId.value != "" {
          existing := existing.(discussions := existing.discussions + [r.discussionId.value]);
        }
        assert existing.discussions == debounceMRComments[uniqueId].discussions + Discussion(r);
        var timeout := SetTimeout(uniqueId, r.mergeRequest, r.project);
        existing := existing.(timeout := timeout);
        assert existing == Merge(old(debounceMRComments)[uniqueId], r, timeout);
        debounceMRComments := debounceMRComments[uniqueId := existing];
        return;
      }
      var timeout := SetTimeout(uniqueId, r.mergeRequest, r.project);
      debounceMRComments := debounceMRComments[uniqueId := First(r, timeout)];
    }

    /** The callback of timer `id`. */
    method RenderDebouncedMergeRequest(id: nat)
      requires id in timers
      modifies this
      ensures View() == Apply(old(View()), Fire(id))
    {
      var timer := timers[id];
      timers := timers - {id};
      if timer.key !in debounceMRComments {
        return;
      }
      var result := debounceMRComments[timer.key];
      debounceMRComments := debounceMRComments - {timer.key};
      rendered := rendered + [Render(timer.key, result, timer)];
    }

    method Advance(dt: real)
      modifies this`now
      ensures View() == Apply(old(View()), Tick(dt))
    {
      now := now + dt;
    }
  }

  // ---------------------------------------------------------------- runs and timers

  predicate Init(s: State) {
    s.pending == map[] && s.timers == map[] && s.rendered == []
  }

  function Exec(s: State, run: seq<Event>): State {
    if run == [] then s else Apply(Exec(s, run[..|run| - 1]), run[|run| - 1])
  }

  predicate Valid(s: State, run: seq<Event>) {
    run == [] ||
    (Valid(s, run[..|run| - 1]) && Enabled(Exec(s, run[..|run| - 1]), run[|run| - 1]))
  }

  /** Each pending key owns one live timer, and no other timer is live. */
  predicate TimersMatch(s: State) {
    && (forall k :: k in s.pending ==> s.pending[k].timeout in s.timers && s.timers[s.pending[k].timeout].key == k)
    && (forall t :: t in s.timers ==> s.timers[t].key in s.pending && s.pending[s.timers[t].key].timeout == t)
    && (forall t :: t in s.timers ==> t < s.nextTimer)
  }

  lemma TimersMatchStep(s: State, e: Event)
    requires TimersMatch(s) && Enabled(s, e)
    ensures TimersMatch(Apply(s, e))
  {
  }

  /** In every reachable state pending keys and live timers match one to one, so a timer that
      fires always finds its burst and renders exactly one message. */
  lemma {:induction false} TimersAlwaysMatch(s: State, run: seq<Event>)
    requires Init(s) && Valid(s, run)
    ensures var m := Exec(s, run);
            && TimersMatch(m) && m.debounceMs == s.debounceMs
            && forall t :: t in m.timers ==> |Apply(m, Fire(t)).rendered| == |m.rendered| + 1
  {
    if run != [] {
      TimersAlwaysMatch(s, run[..|run| - 1]);
      TimersMatchStep(Exec(s, run[..|run| - 1]), run[|run| - 1]);
    }
  }
}
