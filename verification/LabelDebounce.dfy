/**
  Debouncing of GitHub issue labels: labels added to an issue within a burst are collected,
  labels removed are taken out again, and when the timer fires one message is sent if a
  label the room asked for is left.
 */
module LabelDebounce {
  import opened Common

  const LABELED_DEBOUNCE_MS: real := 5000.0
  const CREATED_GRACE_PERIOD_MS: real := 6000.0

  /** A label name is never empty. */
  type Label = s: string | s != "" witness "bug"

  datatype Entry = Entry(labels: set<Label>, timeout: nat)

  /** `number` stands for the event data the callback captured. */
  datatype Timer = Timer(due: real, issue: nat, number: nat)

  datatype Message = Message(issue: nat, number: nat)

  datatype State = State(
    pending: map<nat, Entry>,
    timers: map<nat, Timer>,
    nextTimer: nat,
    includingLabels: set<Label>,
    now: real,
    sent: seq<Message>)

  /** `enabled` is whether the hook filter lets the event through. */
  datatype Event =
    | Labeled(issue: nat, name: Option<Label>, createdAt: real, enabled: bool, number: nat)
    | Unlabeled(issue: nat, name: Option<Label>)
    | Fire(timer: nat)
    | Tick(dt: real)

  /** The guards at the head of onIssueLabeled. */
  predicate Counts(s: State, e: Event) {
    && e.Labeled? && e.enabled && e.name.Some? && s.includingLabels != {}
    && s.now - e.createdAt >= CREATED_GRACE_PERIOD_MS
  }

  predicate Wanted(s: State, labels: set<Label>) { labels * s.includingLabels != {} }

  predicate Enabled(s: State, e: Event) {
    match e
    case Fire(t) => t in s.timers && s.timers[t].due <= s.now
    case Tick(dt) => dt >= 0.0
    case _ => true
  }

  function Apply(s: State, e: Event): State {
    match e
    case Labeled(issue, name, _, _, number) =>
      if !Counts(s, e) then s
      else
        var timer := Timer(s.now + LABELED_DEBOUNCE_MS, issue, number);
        var known := issue in s.pending;
        var labels := (if known then s.pending[issue].labels else {}) + {name.value};
        var timers := if known then s.timers - {s.pending[issue].timeout} else s.timers;
        s.(pending := s.pending[issue := Entry(labels, s.nextTimer)],
           timers := timers[s.nextTimer := timer],
           nextTimer := s.nextTimer + 1)
    case Unlabeled(issue, name) =>
      if issue in s.pending && name.Some? then
        s.(pending := s.pending[issue := s.pending[issue].(labels := s.pending[issue].labels - {name.value})])
      else s
    case Fire(t) =>
      if t !in s.timers then s
      else
        var timer := s.timers[t];
        var labels := if timer.issue in s.pending then s.pending[timer.issue].labels else {};
        s.(timers := s.timers - {t},
           pending := s.pending - {timer.issue},
           sent := if Wanted(s, labels) then s.sent + [Message(timer.issue, timer.number)] else s.sent)
    case Tick(dt) => s.(now := s.now + dt)
  }

  // ---------------------------------------------------------------- the object

  class Connection {
    var debounceOnIssueLabeled: map<nat, Entry>
    var timers: map<nat, Timer>
    var nextTimer: nat
    const includingLabels: set<Label>
    var now: real
    var sent: seq<Message>

    ghost function View(): State
      reads this
    {
      State(debounceOnIssueLabeled, timers, nextTimer, includingLabels, now, sent)
    }

    constructor (includingLabels: set<Label>, start: real)
      ensures Init(View()) && View().includingLabels == includingLabels && now == start
    {
      debounceOnIssueLabeled, timers, nextTimer, sent := map[], map[], 0, [];
      this.includingLabels, now := includingLabels, start;
    }

    method SetTimeout(issue: nat, number: nat) returns (id: nat)
      modifies this`timers, this`nextTimer
      ensures id == old(nextTimer) && nextTimer == id + 1
      ensures timers == old(timers)[id := Timer(now + LABELED_DEBOUNCE_MS, issue, number)]
    {
      id := nextTimer;
      timers := timers[id := Timer(now + LABELED_DEBOUNCE_MS, issue, number)];
      nextTimer := nextTimer + 1;
    }

    method OnIssueLabeled(issue: nat, name: Option<Label>, createdAt: real, enabled: bool, number: nat)
      modifies this
      ensures View() == Apply(old(View()), Labeled(issue, name, createdAt, enabled, number))
    {
      if !enabled || name.None? || includingLabels == {} {
        return;
      }
      if now - createdAt < CREATED_GRACE_PERIOD_MS {
        return;
      }
      if issue in debounceOnIssueLabeled {
        var existing := debounceOnIssueLabeled[issue];
        timers := timers - {existing.timeout};
        existing := existing.(labels := existing.labels + {name.value});
        var timeout := SetTimeout(issue, number);
        debounceOnIssueLabeled := debounceOnIssueLabeled[issue := existing.(timeout := timeout)];
      } else {
        var timeout := SetTimeout(issue, number);
        debounceOnIssueLabeled := debounceOnIssueLabeled[issue := Entry({name.value}, timeout)];
        assert {} + {name.value} == {name.value};
      }
    }

    method OnIssueUnlabeled(issue: nat, name: Option<Label>)
      modifies this`debounceOnIssueLabeled
      ensures View() == Apply(old(View()), Unlabeled(issue, name))
    {
      if issue in debounceOnIssueLabeled && name.Some? {
        var existing := debounceOnIssueLabeled[issue];
        debounceOnIssueLabeled :=
          debounceOnIssueLabeled[issue := existing.(labels := existing.labels - {name.value})];
      }
    }

    /** renderFn, run by timer `id`. */
    method RenderLabels(id: nat)
      requires id in timers
      modifies this
      ensures View() == Apply(old(View()), Fire(id))
    {
      var timer := timers[id];
      timers := timers - {id};
      var labels: set<Label> := {};
      if timer.issue in debounceOnIssueLabeled {
        labels := debounceOnIssueLabeled[timer.issue].labels;
      }
      debounceOnIssueLabeled := debounceOnIssueLabeled - {timer.issue};
      if labels * includingLabels == {} {
        return;
      }
      sent := sent + [Message(timer.issue, timer.number)];
    }
  }

  // ---------------------------------------------------------------- runs

  predicate Init(s: State) { s.pending == map[] && s.timers == map[] && s.sent == [] }

  function Exec(s: State, run: seq<Event>): State {
    if run == [] then s else Apply(Exec(s, run[..|run| - 1]), run[|run| - 1])
  }

  predicate Valid(s: State, run: seq<Event>) {
    run == [] ||
    (Valid(s, run[..|run| - 1]) && Enabled(Exec(s, run[..|run| - 1]), run[|run| - 1]))
  }

  /** Each pending issue owns one live timer, and no other timer is live. */
  predicate TimersMatch(s: State) {
    && (forall i :: i in s.pending ==> s.pending[i].timeout in s.timers && s.timers[s.pending[i].timeout].issue == i)
    && (forall t :: t in s.timers ==> s.timers[t].issue in s.pending && s.pending[s.timers[t].issue].timeout == t)
    && (forall t :: t in s.timers ==> t < s.nextTimer)
  }

  lemma TimersMatchStep(s: State, e: Event)
    requires TimersMatch(s) && Enabled(s, e)
    ensures TimersMatch(Apply(s, e))
  {
  }

  lemma {:induction false} TimersAlwaysMatch(s: State, run: seq<Event>)
    requires Init(s) && Valid(s, run)
    ensures TimersMatch(Exec(s, run)) && Exec(s, run).includingLabels == s.includingLabels
  {
    if run != [] {
      TimersAlwaysMatch(s, run[..|run| - 1]);
      TimersMatchStep(Exec(s, run[..|run| - 1]), run[|run| - 1]);
    }
  }

  /** A label counts iff the hook is enabled, it has a name, the room asks for labels at all, and
      the issue is at least six seconds old. It then joins the issue's labels and the issue's one
      timer is due in five seconds and sends this event; nothing else changes. */
  lemma LabeledIff(s: State, issue: nat, name: Option<Label>, createdAt: real, enabled: bool, number: nat)
    requires TimersMatch(s)
    ensures var s' := Apply(s, Labeled(issue, name, createdAt, enabled, number));
            if enabled && name.Some? && s.includingLabels != {} && s.now >= createdAt + 6000.0 then
              && issue in s'.pending
              && s'.pending[issue].labels == (if issue in s.pending then s.pending[issue].labels else {}) + {name.value}
              && s'.pending[issue].timeout in s'.timers
              && s'.timers[s'.pending[issue].timeout] == Timer(s.now + 5000.0, issue, number)
              && s'.pending - {issue} == s.pending - {issue}
              && (forall t :: t in s.timers && s.timers[t].issue != issue ==> t in s'.timers && s'.timers[t] == s.timers[t])
              && s'.sent == s.sent && s'.now == s.now
            else s' == s
  {
  }

  /** When a label of the issue last counted. */
  function LastCounted(s: State, run: seq<Event>, issue: nat): Option<real> {
    if run == [] then None
    else
      var before, e := run[..|run| - 1], run[|run| - 1];
      if e.Labeled? && e.issue == issue && Counts(Exec(s, before), e) then Some(Exec(s, before).now)
      else LastCounted(s, before, issue)
  }

  predicate DueAsCounted(s: State, run: seq<Event>, timer: Timer) {
    LastCounted(s, run, timer.issue) == Some(timer.due - 5000.0)
  }

  ghost predicate DueSinceLast(s: State, run: seq<Event>) {
    forall t :: t in Exec(s, run).timers ==> DueAsCounted(s, run, Exec(s, run).timers[t])
  }

  lemma LastCountedSnoc(s: State, run: seq<Event>, e: Event, issue: nat)
    ensures Exec(s, run + [e]) == Apply(Exec(s, run), e)
    ensures LastCounted(s, run + [e], issue)
            == if e.Labeled? && e.issue == issue && Counts(Exec(s, run), e) then Some(Exec(s, run).now)
               else LastCounted(s, run, issue)
  {
    assert (run + [e])[..|run|] == run;
  }

  /** The timer is due five seconds from now if the step counts a label of its issue, and else it
      was there before. */
  predicate StepGives(m: State, e: Event, t: nat, timer: Timer) {
    if e.Labeled? && e.issue == timer.issue && Counts(m, e) then timer.due == m.now + 5000.0
    else t in m.timers && m.timers[t] == timer
  }

  lemma TimerStep(m: State, e: Event, t: nat)
    requires TimersMatch(m) && Enabled(m, e) && t in Apply(m, e).timers
    ensures StepGives(m, e, t, Apply(m, e).timers[t])
  {
  }

  lemma TimerDue(s: State, run: seq<Event>, e: Event, m: State, t: nat, timer: Timer)
    requires m == Exec(s, run) && DueSinceLast(s, run) && StepGives(m, e, t, timer)
    ensures DueAsCounted(s, run + [e], timer)
  {
    LastCountedSnoc(s, run, e, timer.issue);
    if t in m.timers && m.timers[t] == timer {
      assert DueAsCounted(s, run, timer);
    }
  }

  lemma DueStep(s: State, run: seq<Event>, e: Event)
    requires DueSinceLast(s, run) && TimersMatch(Exec(s, run)) && Enabled(Exec(s, run), e)
    ensures DueSinceLast(s, run + [e])
  {
    LastCountedSnoc(s, run, e, 0);
    var m := Exec(s, run);
    var timers := Apply(m, e).timers;
    forall t | t in timers ensures DueAsCounted(s, run + [e], timers[t]) {
      TimerStep(m, e, t);
      TimerDue(s, run, e, m, t, timers[t]);
    }
  }

  /** On every run each live timer is due exactly five seconds after the last label of its issue
      that counted, and none fires before that. */
  lemma {:induction false} FiresAfterQuiet(s: State, run: seq<Event>)
    requires Init(s) && Valid(s, run)
    ensures var m := Exec(s, run);
            && DueSinceLast(s, run)
            && forall t :: t in m.timers && Enabled(m, Fire(t)) ==>
                 var last := LastCounted(s, run, m.timers[t].issue); last.Some? && m.now >= last.value + 5000.0
  {
    if run != [] {
      var before, e := run[..|run| - 1], run[|run| - 1];
      FiresAfterQuiet(s, before);
      TimersAlwaysMatch(s, before);
      assert run == before + [e];
      DueStep(s, before, e);
    }
  }

  // ---------------------------------------------------------------- what a burst collects

  datatype Op = Added(name: Label) | Removed(name: Label)

  /** One step's effect on an issue's burst: it begins with a counted add, a firing timer ends it. */
  function NextBurst(s: State, e: Event, issue: nat, ops: seq<Op>): seq<Op> {
    match e
    case Labeled(i, name, _, _, _) => if i == issue && Counts(s, e) then ops + [Added(name.value)] else ops
    case Unlabeled(i, name) => if i == issue && name.Some? && ops != [] then ops + [Removed(name.value)] else ops
    case Fire(t) => if t in s.timers && s.timers[t].issue == issue then [] else ops
    case Tick(_) => ops
  }

  /** The label operations of the issue's current burst. */
  function Burst(s: State, run: seq<Event>, issue: nat): seq<Op> {
    if run == [] then []
    else NextBurst(Exec(s, run[..|run| - 1]), run[|run| - 1], issue, Burst(s, run[..|run| - 1], issue))
  }

  /** Was the last operation on the label an add? */
  predicate LastAdded(ops: seq<Op>, name: Label) {
    ops != [] &&
    var last := ops[|ops| - 1];
    if last.name == name then last.Added? else LastAdded(ops[..|ops| - 1], name)
  }

  /** The issue is pending iff its burst has begun, and holds the labels last added. */
  ghost predicate Collects(s: State, issue: nat, ops: seq<Op>) {
    && (issue in s.pending <==> ops != [])
    && (issue in s.pending ==> forall l: Label :: l in s.pending[issue].labels <==> LastAdded(ops, l))
  }

  lemma AddCollects(s: State, e: Event, ops: seq<Op>)
    requires Counts(s, e) && Collects(s, e.issue, ops)
    ensures Collects(Apply(s, e), e.issue, ops + [Added(e.name.value)])
  {
    assert (ops + [Added(e.name.value)])[..|ops|] == ops;
  }

  lemma RemoveCollects(s: State, e: Event, ops: seq<Op>)
    requires e.Unlabeled? && e.name.Some? && ops != [] && Collects(s, e.issue, ops)
    ensures Collects(Apply(s, e), e.issue, ops + [Removed(e.name.value)])
  {
    assert (ops + [Removed(e.name.value)])[..|ops|] == ops;
  }

  lemma StepCollects(s: State, e: Event, issue: nat, ops: seq<Op>)
    requires Enabled(s, e) && Collects(s, issue, ops)
    ensures Collects(Apply(s, e), issue, NextBurst(s, e, issue, ops))
  {
    if e.Labeled? && e.issue == issue && Counts(s, e) {
      AddCollects(s, e, ops);
    } else if e.Unlabeled? && e.issue == issue && e.name.Some? && ops != [] {
      RemoveCollects(s, e, ops);
    }
  }

  /** On every run and for every issue: an issue is pending iff its burst has begun, and the
      labels held are exactly those whose last operation in the burst was an add. */
  lemma {:induction false} LabelsAreLastAdded(s: State, run: seq<Event>, issue: nat)
    requires Init(s) && Valid(s, run)
    ensures Collects(Exec(s, run), issue, Burst(s, run, issue))
  {
    if run != [] {
      var before := run[..|run| - 1];
      LabelsAreLastAdded(s, before, issue);
      StepCollects(Exec(s, before), run[|run| - 1], issue, Burst(s, before, issue));
    }
  }

  /** When a timer fires, the message goes out iff some label asked for was added last. */
  lemma SentIffWanted(s: State, run: seq<Event>, t: nat)
    requires Init(s) && Valid(s, run) && t in Exec(s, run).timers
    ensures var m := Exec(s, run);
            var ops := Burst(s, run, m.timers[t].issue);
            && ops != []
            && (if exists l: Label :: l in s.includingLabels && LastAdded(ops, l)
                then Apply(m, Fire(t)).sent == m.sent + [Message(m.timers[t].issue, m.timers[t].number)]
                else Apply(m, Fire(t)).sent == m.sent)
  {
    var m := Exec(s, run);
    var issue := m.timers[t].issue;
    TimersAlwaysMatch(s, run);
    LabelsAreLastAdded(s, run, issue);
    var labels := m.pending[issue].labels;
    if exists l: Label :: l in s.includingLabels && LastAdded(Burst(s, run, issue), l) {
      var l :| l in s.includingLabels && LastAdded(Burst(s, run, issue), l);
      assert l in labels * m.includingLabels;
    } else {
      assert labels * m.includingLabels == {};
    }
  }
}
