/**
  Which Matrix thread a GitLab discussion belongs to. Renders and persists interleave at
  their awaits; the map is an insertion-ordered list that never reaches its eviction size.
 */
module DiscussionThreads {
  import opened Common

  /** An entry of the map: a discussion and the promise of the event that opened its thread. */
  datatype Entry = Entry(discussionId: string, promise: nat)

  /** A discussion in a burst: bursts leave empty ids out. */
  type Discussion = d: string | d != "" witness "d"

  /** What a send resolved to; a failed one resolves to undefined. */
  datatype Outcome = Sent(eventId: string) | Failed

  datatype Serialized = Serialized(discussionId: string, eventId: string)

  /** A render waiting for the event of the first discussion that has a thread. */
  datatype Render = Render(discussions: seq<Discussion>, awaiting: Entry)

  /** A persist that has serialised the first `next` entries. */
  datatype Persist = Persist(next: nat, serialized: seq<Serialized>)

  /** A message handed to sendEvent, and the thread it was put in. */
  datatype Message = Message(discussions: seq<Discussion>, promise: nat, root: Option<string>)

  datatype State = State(
    entries: seq<Entry>,
    settled: map<nat, Outcome>,
    renders: map<nat, Render>,
    persists: map<nat, Persist>,
    nextId: nat,
    stored: seq<Serialized>,
    messages: seq<Message>)

  datatype Event =
    | BeginRender(discussions: seq<Discussion>)
    | ResumeRender(render: nat)
    | Settle(promise: nat, outcome: Outcome)
    | PersistEntry(persist: nat)
    | PersistDone(persist: nat)

  function Lookup(entries: seq<Entry>, id: string): Option<Entry> {
    if entries == [] then None
    else if entries[0].discussionId == id then Some(entries[0])
    else Lookup(entries[1..], id)
  }

  /** The entry of the first of the discussions that has one. */
  function FirstWithThread(entries: seq<Entry>, discussions: seq<Discussion>): Option<Entry> {
    if discussions == [] then None
    else if Lookup(entries, discussions[0]).Some? then Lookup(entries, discussions[0])
    else FirstWithThread(entries, discussions[1..])
  }

  /** Gives each discussion without an entry the promise. */
  function AddMissing(entries: seq<Entry>, discussions: seq<Discussion>, promise: nat): seq<Entry>
    decreases discussions
  {
    if discussions == [] then entries
    else if Lookup(entries, discussions[0]).Some? then AddMissing(entries, discussions[1..], promise)
    else AddMissing(entries + [Entry(discussions[0], promise)], discussions[1..], promise)
  }

  function EventOf(settled: map<nat, Outcome>, promise: nat): Option<string> {
    if promise in settled && settled[promise].Sent? && settled[promise].eventId != "" then Some(settled[promise].eventId)
    else None
  }

  /** The entries whose send succeeded, in map order. */
  function Kept(entries: seq<Entry>, settled: map<nat, Outcome>): seq<Serialized> {
    if entries == [] then []
    else
      var last := entries[|entries| - 1];
      Kept(entries[..|entries| - 1], settled)
      + match EventOf(settled, last.promise)
        case Some(ev) => [Serialized(last.discussionId, ev)]
        case None => []
  }

  /** From the send on: send, fill the map, start a persist. */
  function Send(s: State, discussions: seq<Discussion>, root: Option<string>): State {
    s.(entries := AddMissing(s.entries, discussions, s.nextId),
       messages := s.messages + [Message(discussions, s.nextId, root)],
       persists := s.persists[s.nextId := Persist(0, [])],
       nextId := s.nextId + 1)
  }

  predicate Enabled(s: State, e: Event) {
    match e
    case BeginRender(_) => true
    case ResumeRender(r) => r in s.renders && s.renders[r].awaiting.promise in s.settled
    case Settle(p, _) => p < s.nextId && p !in s.settled
    case PersistEntry(p) =>
      && p in s.persists && s.persists[p].next < |s.entries|
      && s.entries[s.persists[p].next].promise in s.settled
    case PersistDone(p) => p in s.persists && s.persists[p].next == |s.entries|
  }

  function Apply(s: State, e: Event): State {
    match e
    case BeginRender(discussions) =>
      var found := FirstWithThread(s.entries, discussions);
      if found.None? then Send(s, discussions, None)
      else s.(renders := s.renders[s.nextId := Render(discussions, found.value)], nextId := s.nextId + 1)
    case ResumeRender(r) =>
      if r !in s.renders then s
      else Send(s.(renders := s.renders - {r}), s.renders[r].discussions, EventOf(s.settled, s.renders[r].awaiting.promise))
    case Settle(p, outcome) => s.(settled := s.settled[p := outcome])
    case PersistEntry(p) =>
      if p !in s.persists || s.persists[p].next >= |s.entries| then s
      else
        var frame := s.persists[p];
        var entry := s.entries[frame.next];
        var kept := match EventOf(s.settled, entry.promise)
                    case Some(ev) => [Serialized(entry.discussionId, ev)]
                    case None => [];
        s.(persists := s.persists[p := Persist(frame.next + 1, frame.serialized + kept)])
    case PersistDone(p) =>
      if p !in s.persists then s
      else s.(stored := s.persists[p].serialized, persists := s.persists - {p})
  }

  // ---------------------------------------------------------------- the object

  class Threads {
    var discussionThreads: seq<Entry>
    var settled: map<nat, Outcome>
    var renders: map<nat, Render>
    var persists: map<nat, Persist>
    var nextId: nat
    var stored: seq<Serialized>
    var messages: seq<Message>

    ghost function View(): State
      reads this
    {
      State(discussionThreads, settled, renders, persists, nextId, stored, messages)
    }

    /** A connection whose map was restored from storage. */
    constructor (restored: seq<Serialized>)
      ensures View() == Restored(restored)
    {
      discussionThreads, settled, nextId := [], map[], 0;
      renders, persists, stored, messages := map[], map[], restored, [];
      new;
      SetDiscussionThreads(restored);
    }

    /** Sets one entry per serialised thread, replacing an entry that is there. */
    method SetDiscussionThreads(threads: seq<Serialized>)
      modifies this`discussionThreads, this`settled, this`nextId
      ensures discussionThreads == SetAll(old(discussionThreads), threads, old(nextId))
      ensures settled == old(settled) + Resolved(threads, old(nextId))
      ensures nextId == old(nextId) + |threads|
    {
      for i := 0 to |threads|
        invariant nextId == old(nextId) + i
        invariant SetAll(discussionThreads, threads[i..], nextId) == SetAll(old(discussionThreads), threads, old(nextId))
        invariant settled == old(settled) + Resolved(threads[..i], old(nextId))
      {
        SetAllStep(discussionThreads, threads, i, nextId);
        ResolvedStep(old(settled), threads, i, old(nextId));
        discussionThreads := SetEntry(discussionThreads, threads[i].discussionId, nextId);
        settled := settled[nextId := Sent(threads[i].eventId)];
        nextId := nextId + 1;
      }
      assert threads[..|threads|] == threads;
    }

    method SendMessage(discussions: seq<Discussion>, root: Option<string>)
      modifies this
      ensures View() == Send(old(View()), discussions, root)
    {
      var eventPromise := nextId;
      nextId := nextId + 1;
      messages := messages + [Message(discussions, eventPromise, root)];
      for i := 0 to |discussions|
        invariant AddMissing(discussionThreads, discussions[i..], eventPromise)
                  == AddMissing(old(discussionThreads), discussions, eventPromise)
        invariant messages == old(messages) + [Message(discussions, eventPromise, root)] && nextId == eventPromise + 1
        invariant View() == old(View()).(entries := discussionThreads, messages := messages, nextId := nextId)
      {
        assert discussions[i..][1..] == discussions[i + 1..];
        if Lookup(discussionThreads, discussions[i]).None? {
          discussionThreads := discussionThreads + [Entry(discussions[i], eventPromise)];
        }
      }
      assert discussions[|discussions|..] == [];
      persists := persists[eventPromise := Persist(0, [])];
    }

    /** renderDebouncedMergeRequest for a burst with these discussions, up to its await. */
    method RenderBurst(discussions: seq<Discussion>)
      modifies this
      ensures View() == Apply(old(View()), BeginRender(discussions))
    {
      var discussionWithThread := FirstWithThread(discussionThreads, discussions);
      if discussionWithThread.Some? {
        renders := renders[nextId := Render(discussions, discussionWithThread.value)];
        nextId := nextId + 1;
      } else {
        SendMessage(discussions, None);
      }
    }

    method Resume(render: nat)
      requires Enabled(View(), ResumeRender(render))
      modifies this
      ensures View() == Apply(old(View()), ResumeRender(render))
    {
      var frame := renders[render];
      renders := renders - {render};
      SendMessage(frame.discussions, EventOf(settled, frame.awaiting.promise));
    }

    /** One turn of persistDiscussionThreads' loop. */
    method SerializeNext(persist: nat)
      requires Enabled(View(), PersistEntry(persist))
      modifies this`persists
      ensures View() == Apply(old(View()), PersistEntry(persist))
    {
      var frame := persists[persist];
      var entry := discussionThreads[frame.next];
      var eventId := EventOf(settled, entry.promise);
      var serialized := frame.serialized;
      if eventId.Some? {
        serialized := serialized + [Serialized(entry.discussionId, eventId.value)];
      } else {
        assert serialized + [] == serialized;
      }
      persists := persists[persist := Persist(frame.next + 1, serialized)];
    }

    method StoreThreads(persist: nat)
      requires Enabled(View(), PersistDone(persist))
      modifies this`stored, this`persists
      ensures View() == Apply(old(View()), PersistDone(persist))
    {
      stored := persists[persist].serialized;
      persists := persists - {persist};
    }
  }

  /** Map.set: the key keeps its place if it is there, else goes to the end. */
  function SetEntry(entries: seq<Entry>, id: string, promise: nat): seq<Entry> {
    if entries == [] then [Entry(id, promise)]
    else if entries[0].discussionId == id then [Entry(id, promise)] + entries[1..]
    else [entries[0]] + SetEntry(entries[1..], id, promise)
  }

  function SetAll(entries: seq<Entry>, threads: seq<Serialized>, promise: nat): seq<Entry>
    decreases threads
  {
    if threads == [] then entries
    else SetAll(SetEntry(entries, threads[0].discussionId, promise), threads[1..], promise + 1)
  }

  function Resolved(threads: seq<Serialized>, promise: nat): map<nat, Outcome> {
    if threads == [] then map[]
    else
      var n := |threads| - 1;
      Resolved(threads[..n], promise)[promise + n := Sent(threads[n].eventId)]
  }

  function Restored(threads: seq<Serialized>): State {
    State(SetAll([], threads, 0), Resolved(threads, 0), map[], map[], |threads|, threads, [])
  }

  /** Setting an entry changes what is found for its discussion and for no other, and moves no
      entry. */
  lemma {:induction false} SetEntryFinds(entries: seq<Entry>, id: string, promise: nat, other: string)
    ensures var r := SetEntry(entries, id, promise);
            && Lookup(r, id) == Some(Entry(id, promise))
            && (other != id ==> Lookup(r, other) == Lookup(entries, other))
            && |entries| <= |r| <= |entries| + 1
            && forall i :: 0 <= i < |entries| ==> r[i].discussionId == entries[i].discussionId
  {
    if entries != [] && entries[0].discussionId != id {
      SetEntryFinds(entries[1..], id, promise, other);
      var rest := SetEntry(entries[1..], id, promise);
      assert SetEntry(entries, id, promise)[1..] == rest;
    }
  }

  lemma SetAllStep(entries: seq<Entry>, threads: seq<Serialized>, i: nat, promise: nat)
    requires i < |threads|
    ensures SetAll(entries, threads[i..], promise)
            == SetAll(SetEntry(entries, threads[i].discussionId, promise), threads[i + 1..], promise + 1)
  {
    assert threads[i..][1..] == threads[i + 1..];
  }

  lemma ResolvedStep(settled: map<nat, Outcome>, threads: seq<Serialized>, i: nat, promise: nat)
    requires i < |threads|
    ensures settled + Resolved(threads[..i + 1], promise)
            == (settled + Resolved(threads[..i], promise))[promise + i := Sent(threads[i].eventId)]
  {
    assert threads[..i + 1][..i] == threads[..i];
  }

  // ---------------------------------------------------------------- runs

  function Exec(s: State, run: seq<Event>): State {
    if run == [] then s else Apply(Exec(s, run[..|run| - 1]), run[|run| - 1])
  }

  predicate Valid(s: State, run: seq<Event>) {
    run == [] ||
    (Valid(s, run[..|run| - 1]) && Enabled(Exec(s, run[..|run| - 1]), run[|run| - 1]))
  }

  ghost predicate Has(entries: seq<Entry>, id: string) {
    exists i :: 0 <= i < |entries| && entries[i].discussionId == id
  }

  ghost predicate DistinctKeys(entries: seq<Entry>) {
    forall i, j :: 0 <= i < j < |entries| ==> entries[i].discussionId != entries[j].discussionId
  }

  lemma {:induction false} LookupFinds(entries: seq<Entry>, id: string)
    ensures Lookup(entries, id).Some? <==> Has(entries, id)
    ensures Lookup(entries, id).Some? ==> Lookup(entries, id).value in entries && Lookup(entries, id).value.discussionId == id
  {
    if entries != [] {
      LookupFinds(entries[1..], id);
      if entries[0].discussionId != id && Has(entries, id) {
        var i :| 0 <= i < |entries| && entries[i].discussionId == id;
        assert entries[1..][i - 1].discussionId == id;
      }
    }
  }

  /** Filling the map only appends, keeps keys distinct, and leaves no discussion out. */
  lemma {:induction false} AddMissingAppends(entries: seq<Entry>, discussions: seq<Discussion>, promise: nat)
    requires DistinctKeys(entries)
    ensures var r := AddMissing(entries, discussions, promise);
            && entries <= r && DistinctKeys(r)
            && (forall d :: d in discussions ==> Has(r, d))
            && (forall i :: |entries| <= i < |r| ==> r[i].promise == promise && r[i].discussionId in discussions)
    decreases discussions
  {
    if discussions != [] {
      LookupFinds(entries, discussions[0]);
      var entries' := if Lookup(entries, discussions[0]).Some? then entries else entries + [Entry(discussions[0], promise)];
      assert Has(entries', discussions[0]) by {
        if Lookup(entries, discussions[0]).None? {
          assert entries'[|entries|].discussionId == discussions[0];
        }
      }
      AddMissingAppends(entries', discussions[1..], promise);
      HasInPrefix(entries', AddMissing(entries', discussions[1..], promise), discussions[0]);
    }
  }

  lemma HasInPrefix(a: seq<Entry>, b: seq<Entry>, id: string)
    requires a <= b && Has(a, id)
    ensures Has(b, id)
  {
    var i :| 0 <= i < |a| && a[i].discussionId == id;
    assert b[i] == a[i];
  }

  /** The lookup finds the entry of the first discussion in the map, and nothing iff none is. */
  lemma {:induction false} FirstWithThreadIsFirst(entries: seq<Entry>, discussions: seq<Discussion>)
    ensures var r := FirstWithThread(entries, discussions);
            && (r.None? <==> forall d :: d in discussions ==> !Has(entries, d))
            && (r.Some? ==>
                  && r.value in entries
                  && exists k :: 0 <= k < |discussions| && discussions[k] == r.value.discussionId
                                 && forall j :: 0 <= j < k ==> !Has(entries, discussions[j]))
  {
    if discussions != [] {
      var first, rest := discussions[0], discussions[1..];
      LookupFinds(entries, first);
      FirstWithThreadIsFirst(entries, rest);
      if Lookup(entries, first).Some? {
        assert discussions[0] == Lookup(entries, first).value.discussionId;
      } else if FirstWithThread(entries, rest).Some? {
        var k :| 0 <= k < |rest| && rest[k] == FirstWithThread(entries, rest).value.discussionId
                 && forall j :: 0 <= j < k ==> !Has(entries, rest[j]);
        assert discussions[k + 1] == rest[k];
        assert forall j :: 0 < j < k + 1 ==> discussions[j] == rest[j - 1];
      }
    }
  }

  /** `root` is what the lookup of a burst, made when the map had its first n entries, led to: no
      thread if no discussion had one then, else the event of the first that had, if it is known. */
  ghost predicate LedTo(s: State, discussions: seq<Discussion>, root: Option<string>, n: nat) {
    n <= |s.entries| &&
    match FirstWithThread(s.entries[..n], discussions)
    case None => root.None?
    case Some(x) => x.promise in s.settled && root == EventOf(s.settled, x.promise)
  }

  /** The entry a suspended render waits for is what the lookup found when it began. */
  ghost predicate Awaiting(entries: seq<Entry>, r: Render, n: nat) {
    n <= |entries| && FirstWithThread(entries[..n], r.discussions) == Some(r.awaiting)
  }

  ghost predicate RendersAwait(entries: seq<Entry>, renders: map<nat, Render>) {
    forall r :: r in renders ==> exists n: nat :: Awaiting(entries, renders[r], n)
  }

  /** The map's keys are distinct, promises are issued in order, and each suspended render
      waits on the entry its lookup found. */
  ghost predicate WellFormed(s: State) {
    && DistinctKeys(s.entries)
    && (forall i :: 0 <= i < |s.entries| ==> s.entries[i].promise < s.nextId)
    && RendersAwait(s.entries, s.renders)
    && (forall p :: p in s.settled ==> p < s.nextId)
  }

  lemma RendersStillAwait(entries: seq<Entry>, entries': seq<Entry>, renders: map<nat, Render>)
    requires RendersAwait(entries, renders) && entries <= entries'
    ensures RendersAwait(entries', renders)
  {
    forall r | r in renders ensures exists n: nat :: Awaiting(entries', renders[r], n) {
      var n: nat :| Awaiting(entries, renders[r], n);
      assert entries'[..n] == entries[..n];
      assert Awaiting(entries', renders[r], n);
    }
  }

  lemma SendAppends(s: State, discussions: seq<Discussion>, root: Option<string>)
    requires WellFormed(s)
    ensures WellFormed(Send(s, discussions, root)) && s.entries <= Send(s, discussions, root).entries
    ensures forall d :: d in discussions ==> Has(Send(s, discussions, root).entries, d)
  {
    AddMissingAppends(s.entries, discussions, s.nextId);
    RendersStillAwait(s.entries, Send(s, discussions, root).entries, s.renders);
  }

  lemma BeginAppends(s: State, discussions: seq<Discussion>)
    requires WellFormed(s)
    ensures WellFormed(Apply(s, BeginRender(discussions))) && s.entries <= Apply(s, BeginRender(discussions)).entries
  {
    var found := FirstWithThread(s.entries, discussions);
    if found.None? {
      SendAppends(s, discussions, None);
    } else {
      assert s.entries[..|s.entries|] == s.entries;
      assert Awaiting(s.entries, Render(discussions, found.value), |s.entries|);
    }
  }

  lemma ResumeAppends(s: State, r: nat)
    requires WellFormed(s) && r in s.renders
    ensures WellFormed(Apply(s, ResumeRender(r))) && s.entries <= Apply(s, ResumeRender(r)).entries
  {
    var s' := s.(renders := s.renders - {r});
    assert WellFormed(s');
    SendAppends(s', s.renders[r].discussions, EventOf(s.settled, s.renders[r].awaiting.promise));
  }

  lemma SettledStays(s: State, e: Event)
    requires Enabled(s, e)
    ensures forall p :: p in s.settled ==> p in Apply(s, e).settled && Apply(s, e).settled[p] == s.settled[p]
  {
  }

  /** One step only appends to the map and never changes what a promise settled to. */
  lemma StepAppends(s: State, e: Event)
    requires WellFormed(s) && Enabled(s, e)
    ensures WellFormed(Apply(s, e)) && s.entries <= Apply(s, e).entries
    ensures forall p :: p in s.settled ==> p in Apply(s, e).settled && Apply(s, e).settled[p] == s.settled[p]
  {
    SettledStays(s, e);
    match e
    case BeginRender(discussions) => BeginAppends(s, discussions);
    case ResumeRender(r) => ResumeAppends(s, r);
    case _ =>
  }

  /** On every run an entry, once written, is never replaced, moved or removed. */
  lemma {:induction false} WriteOnce(s: State, run: seq<Event>)
    requires WellFormed(s) && Valid(s, run)
    ensures WellFormed(Exec(s, run)) && s.entries <= Exec(s, run).entries
    ensures forall p :: p in s.settled ==> p in Exec(s, run).settled && Exec(s, run).settled[p] == s.settled[p]
  {
    if run != [] {
      WriteOnce(s, run[..|run| - 1]);
      StepAppends(Exec(s, run[..|run| - 1]), run[|run| - 1]);
    }
  }

  // ---------------------------------------------------------------- messages

  /** Every message sent left an entry for each discussion of its burst, and is in the thread
      that its lookup led to. */
  ghost predicate Threaded(s: State, m: Message) {
    && (forall d :: d in m.discussions ==> Has(s.entries, d))
    && exists n: nat :: LedTo(s, m.discussions, m.root, n)
  }

  ghost predicate AllThreaded(s: State) {
    forall m :: m in s.messages ==> Threaded(s, m)
  }

  lemma LedToIsStable(s: State, s': State, discussions: seq<Discussion>, root: Option<string>, n: nat)
    requires LedTo(s, discussions, root, n) && s.entries <= s'.entries
    requires forall p :: p in s.settled ==> p in s'.settled && s'.settled[p] == s.settled[p]
    ensures LedTo(s', discussions, root, n)
  {
    assert s'.entries[..n] == s.entries[..n];
  }

  lemma ThreadedIsStable(s: State, s': State, m: Message)
    requires Threaded(s, m) && s.entries <= s'.entries
    requires forall p :: p in s.settled ==> p in s'.settled && s'.settled[p] == s.settled[p]
    ensures Threaded(s', m)
  {
    var n: nat :| LedTo(s, m.discussions, m.root, n);
    LedToIsStable(s, s', m.discussions, m.root, n);
    forall d | d in m.discussions ensures Has(s'.entries, d) {
      HasInPrefix(s.entries, s'.entries, d);
    }
  }

  lemma SendIsThreaded(s: State, discussions: seq<Discussion>, root: Option<string>, n: nat)
    requires WellFormed(s) && LedTo(s, discussions, root, n)
    ensures Threaded(Send(s, discussions, root), Message(discussions, s.nextId, root))
  {
    SendAppends(s, discussions, root);
    LedToIsStable(s, Send(s, discussions, root), discussions, root, n);
  }

  /** The one message a step can send, if any, is threaded. */
  lemma NewIsThreaded(s: State, e: Event, m: Message)
    requires WellFormed(s) && Enabled(s, e) && m in Apply(s, e).messages && m !in s.messages
    ensures Threaded(Apply(s, e), m)
  {
    if e.BeginRender? {
      assert s.entries[..|s.entries|] == s.entries;
      SendIsThreaded(s, e.discussions, None, |s.entries|);
    } else {
      var frame := s.renders[e.render];
      var s' := s.(renders := s.renders - {e.render});
      var n: nat :| Awaiting(s.entries, frame, n);
      assert LedTo(s', frame.discussions, EventOf(s.settled, frame.awaiting.promise), n);
      SendIsThreaded(s', frame.discussions, EventOf(s.settled, frame.awaiting.promise), n);
    }
  }

  lemma ThreadedStep(s: State, e: Event)
    requires WellFormed(s) && AllThreaded(s) && Enabled(s, e)
    ensures AllThreaded(Apply(s, e))
  {
    StepAppends(s, e);
    forall m | m in Apply(s, e).messages ensures Threaded(Apply(s, e), m) {
      if m in s.messages {
        ThreadedIsStable(s, Apply(s, e), m);
      } else {
        NewIsThreaded(s, e, m);
      }
    }
  }

  /** On every run each message is in the thread of the first discussion of its burst that had
      one when its render began, if that thread's event became known, and else in none. */
  lemma {:induction false} MessagesAreThreaded(s: State, run: seq<Event>)
    requires WellFormed(s) && s.messages == [] && Valid(s, run)
    ensures AllThreaded(Exec(s, run))
  {
    if run != [] {
      var before := run[..|run| - 1];
      MessagesAreThreaded(s, before);
      WriteOnce(s, before);
      ThreadedStep(Exec(s, before), run[|run| - 1]);
    }
  }

  // ---------------------------------------------------------------- every burst is sent

  /** A render sends its burst at once if no discussion has a thread, else when it resumes, and
      starts a persist with every message. */
  lemma RenderSends(s: State, discussions: seq<Discussion>, r: nat)
    ensures FirstWithThread(s.entries, discussions).None? ==>
              var s' := Apply(s, BeginRender(discussions));
              && s'.messages == s.messages + [Message(discussions, s.nextId, None)] && s'.renders == s.renders
              && s.nextId in s'.persists && s'.persists[s.nextId] == Persist(0, [])
    ensures r in s.renders ==>
              var s' := Apply(s, ResumeRender(r));
              && |s'.messages| == |s.messages| + 1 && s'.messages[..|s.messages|] == s.messages
              && s'.messages[|s.messages|].discussions == s.renders[r].discussions
              && s'.renders == s.renders - {r}
              && s.nextId in s'.persists && s'.persists[s.nextId] == Persist(0, [])
  {
  }

  function Begun(run: seq<Event>): nat {
    if run == [] then 0
    else Begun(run[..|run| - 1]) + if run[|run| - 1].BeginRender? then 1 else 0
  }

  ghost predicate RendersIssued(s: State) {
    forall r :: r in s.renders ==> r < s.nextId
  }

  lemma SizeWith<V>(m: map<nat, V>, k: nat, v: V)
    requires k !in m
    ensures |m[k := v]| == |m| + 1
  {
    assert m[k := v].Keys == m.Keys + {k};
  }

  lemma SizeWithout<V>(m: map<nat, V>, k: nat)
    requires k in m
    ensures |m - {k}| == |m| - 1
  {
    assert (m - {k}).Keys == m.Keys - {k};
  }

  lemma BeginStep(s: State, discussions: seq<Discussion>)
    requires RendersIssued(s)
    ensures var s' := Apply(s, BeginRender(discussions));
            RendersIssued(s') && |s'.messages| + |s'.renders| == |s.messages| + |s.renders| + 1
  {
    var found := FirstWithThread(s.entries, discussions);
    if found.Some? {
      SizeWith(s.renders, s.nextId, Render(discussions, found.value));
    }
  }

  lemma ResumeStep(s: State, r: nat)
    requires RendersIssued(s) && r in s.renders
    ensures var s' := Apply(s, ResumeRender(r));
            RendersIssued(s') && |s'.messages| + |s'.renders| == |s.messages| + |s.renders|
  {
    SizeWithout(s.renders, r);
    RenderSends(s, [], r);
  }

  lemma RenderStep(s: State, e: Event)
    requires RendersIssued(s) && Enabled(s, e)
    ensures RendersIssued(Apply(s, e))
    ensures |Apply(s, e).messages| + |Apply(s, e).renders|
            == |s.messages| + |s.renders| + if e.BeginRender? then 1 else 0
  {
    match e
    case BeginRender(discussions) => BeginStep(s, discussions);
    case ResumeRender(r) => ResumeStep(s, r);
    case _ =>
  }

  /** On every run each burst that began to render was sent once, or still waits for the event of
      its thread. */
  lemma {:induction false} EveryBurstIsSent(s: State, run: seq<Event>)
    requires Valid(s, run) && s.messages == [] && s.renders == map[]
    ensures |Exec(s, run).messages| + |Exec(s, run).renders| == Begun(run)
    ensures RendersIssued(Exec(s, run))
  {
    if run != [] {
      EveryBurstIsSent(s, run[..|run| - 1]);
      RenderStep(Exec(s, run[..|run| - 1]), run[|run| - 1]);
    }
  }

  // ---------------------------------------------------------------- persisting

  ghost predicate AllSettled(entries: seq<Entry>, settled: map<nat, Outcome>) {
    forall i :: 0 <= i < |entries| ==> entries[i].promise in settled
  }

  /** What is written so far, by a persist or to storage, is what the first n entries keep. */
  ghost predicate Covers(s: State, written: seq<Serialized>, n: nat) {
    n <= |s.entries| && AllSettled(s.entries[..n], s.settled) && written == Kept(s.entries[..n], s.settled)
  }

  /** Storage lags behind the map only while a persist is on its way. */
  ghost predicate Persisting(s: State) {
    && PersistsCover(s)
    && (exists n: nat :: Covers(s, s.stored, n) && (n == |s.entries| || s.persists != map[]))
  }

  lemma {:induction false} KeptIsStable(entries: seq<Entry>, settled: map<nat, Outcome>, settled': map<nat, Outcome>)
    requires AllSettled(entries, settled)
    requires forall p :: p in settled ==> p in settled' && settled'[p] == settled[p]
    ensures AllSettled(entries, settled') && Kept(entries, settled') == Kept(entries, settled)
  {
    if entries != [] {
      KeptIsStable(entries[..|entries| - 1], settled, settled');
    }
  }

  predicate SendKnown(e: Entry, settled: map<nat, Outcome>) {
    e.promise in settled && settled[e.promise].Sent? && settled[e.promise].eventId != ""
  }

  /** `picked` lists in increasing order exactly the entries whose send gave a non-empty event id. */
  ghost predicate PicksKnown(picked: seq<nat>, entries: seq<Entry>, settled: map<nat, Outcome>) {
    && (forall i, j :: 0 <= i < j < |picked| ==> picked[i] < picked[j])
    && (forall k :: 0 <= k < |picked| ==> picked[k] < |entries|)
    && (forall i :: i in picked <==> 0 <= i < |entries| && SendKnown(entries[i], settled))
  }

  /** The discussions of the entries with the events they were sent as. */
  function AsThreads(entries: seq<Entry>, settled: map<nat, Outcome>): seq<Serialized>
    requires forall i :: 0 <= i < |entries| ==> SendKnown(entries[i], settled)
  {
    seq(|entries|, i requires 0 <= i < |entries| && SendKnown(entries[i], settled) =>
      Serialized(entries[i].discussionId, settled[entries[i].promise].eventId))
  }

  lemma ThreadsOneMore(entries: seq<Entry>, e: Entry, settled: map<nat, Outcome>)
    requires SendKnown(e, settled) && forall i :: 0 <= i < |entries| ==> SendKnown(entries[i], settled)
    ensures AsThreads(entries + [e], settled)
            == AsThreads(entries, settled) + [Serialized(e.discussionId, settled[e.promise].eventId)]
  {
  }

  /** What is kept is, in map order, one thread for each entry whose send gave a non-empty event
      id. */
  lemma {:induction false} KeptExactly(entries: seq<Entry>, settled: map<nat, Outcome>) returns (picked: seq<nat>)
    ensures PicksKnown(picked, entries, settled)
    ensures forall i :: 0 <= i < |picked| ==> SendKnown(At(entries, picked)[i], settled)
    ensures Kept(entries, settled) == AsThreads(At(entries, picked), settled)
  {
    if entries == [] {
      return [];
    }
    var last := |entries| - 1;
    picked := KeptExactly(entries[..last], settled);
    AtOneMore(entries, picked);
    PicksOneMore(picked, entries, settled);
    if SendKnown(entries[last], settled) {
      ThreadsOneMore(At(entries, picked), entries[last], settled);
      picked := picked + [last];
    }
  }

  lemma PicksOneMore(picked: seq<nat>, entries: seq<Entry>, settled: map<nat, Outcome>)
    requires entries != [] && PicksKnown(picked, entries[..|entries| - 1], settled)
    ensures PicksKnown(if SendKnown(entries[|entries| - 1], settled) then picked + [|entries| - 1] else picked, entries, settled)
  {
    var last := |entries| - 1;
    var more := if SendKnown(entries[last], settled) then picked + [last] else picked;
    forall i: nat ensures i in more <==> i in picked || (i == last && SendKnown(entries[last], settled)) {
    }
    assert forall i :: 0 <= i < last ==> entries[..last][i] == entries[i];
  }

  lemma CoversIsStable(s: State, s': State, written: seq<Serialized>, n: nat)
    requires Covers(s, written, n) && s.entries <= s'.entries
    requires forall p :: p in s.settled ==> p in s'.settled && s'.settled[p] == s.settled[p]
    ensures Covers(s', written, n)
  {
    assert s'.entries[..n] == s.entries[..n];
    KeptIsStable(s.entries[..n], s.settled, s'.settled);
  }

  lemma EntryExtends(s: State, p: nat)
    requires Enabled(s, PersistEntry(p)) && Covers(s, s.persists[p].serialized, s.persists[p].next)
    ensures var frame := Apply(s, PersistEntry(p)).persists[p];
            Covers(Apply(s, PersistEntry(p)), frame.serialized, frame.next)
  {
    var n := s.persists[p].next;
    assert s.entries[..n + 1] == s.entries[..n] + [s.entries[n]];
    assert s.entries[..n + 1][..n] == s.entries[..n];
  }

  ghost predicate PersistsCover(s: State) {
    forall p :: p in s.persists ==> p < s.nextId && Covers(s, s.persists[p].serialized, s.persists[p].next)
  }

  lemma PersistsCoverStep(s: State, e: Event)
    requires WellFormed(s) && PersistsCover(s) && Enabled(s, e)
    ensures PersistsCover(Apply(s, e))
  {
    var s' := Apply(s, e);
    StepAppends(s, e);
    forall p | p in s'.persists ensures p < s'.nextId && Covers(s', s'.persists[p].serialized, s'.persists[p].next) {
      if e == PersistEntry(p) {
        EntryExtends(s, p);
      } else if p in s.persists && p != s.nextId {
        CoversIsStable(s, s', s.persists[p].serialized, s.persists[p].next);
      } else {
        assert s'.persists[p] == Persist(0, []) && s'.entries[..0] == [];
      }
    }
  }

  lemma PersistingStep(s: State, e: Event)
    requires WellFormed(s) && Persisting(s) && Enabled(s, e)
    ensures Persisting(Apply(s, e))
  {
    var s' := Apply(s, e);
    PersistsCoverStep(s, e);
    StepAppends(s, e);
    if e.PersistDone? {
      CoversIsStable(s, s', s.persists[e.persist].serialized, |s.entries|);
      assert Covers(s', s'.stored, |s'.entries|);
    } else {
      var n: nat :| Covers(s, s.stored, n) && (n == |s.entries| || s.persists != map[]);
      CoversIsStable(s, s', s.stored, n);
      StillOnItsWay(s, e);
    }
  }

  lemma StillOnItsWay(s: State, e: Event)
    requires Enabled(s, e) && !e.PersistDone?
    ensures Apply(s, e).entries == s.entries || s.nextId in Apply(s, e).persists
    ensures forall p :: p in s.persists ==> p in Apply(s, e).persists
    ensures Apply(s, e).stored == s.stored
  {
  }

  lemma {:induction false} AlwaysPersisting(s: State, run: seq<Event>)
    requires WellFormed(s) && Persisting(s) && Valid(s, run)
    ensures Persisting(Exec(s, run))
  {
    if run != [] {
      AlwaysPersisting(s, run[..|run| - 1]);
      WriteOnce(s, run[..|run| - 1]);
      PersistingStep(Exec(s, run[..|run| - 1]), run[|run| - 1]);
    }
  }

  // ---------------------------------------------------------------- restoring

  ghost predicate DistinctIds(threads: seq<Serialized>) {
    && (forall i, j :: 0 <= i < j < |threads| ==> threads[i].discussionId != threads[j].discussionId)
    && (forall i :: 0 <= i < |threads| ==> threads[i].eventId != "")
  }

  lemma {:induction false} SetNewEntry(entries: seq<Entry>, id: string, promise: nat)
    requires !Has(entries, id)
    ensures SetEntry(entries, id, promise) == entries + [Entry(id, promise)]
  {
    if entries != [] {
      assert entries[0].discussionId != id;
      assert forall i :: 0 <= i < |entries[1..]| ==> entries[1..][i] == entries[i + 1];
      SetNewEntry(entries[1..], id, promise);
    }
  }

  lemma {:induction false} SetAllNew(entries: seq<Entry>, threads: seq<Serialized>, promise: nat)
    requires DistinctIds(threads) && forall i :: 0 <= i < |threads| ==> !Has(entries, threads[i].discussionId)
    ensures SetAll(entries, threads, promise)
            == entries + seq(|threads|, i requires 0 <= i < |threads| => Entry(threads[i].discussionId, promise + i))
    decreases threads
  {
    if threads != [] {
      SetNewEntry(entries, threads[0].discussionId, promise);
      SetAllNew(entries + [Entry(threads[0].discussionId, promise)], threads[1..], promise + 1);
    }
  }

  lemma {:induction false} KeptPointwise(entries: seq<Entry>, settled: map<nat, Outcome>, threads: seq<Serialized>)
    requires |entries| == |threads|
    requires forall i :: 0 <= i < |threads| ==>
               entries[i].discussionId == threads[i].discussionId
               && EventOf(settled, entries[i].promise) == Some(threads[i].eventId)
    ensures Kept(entries, settled) == threads
  {
    if entries != [] {
      var n := |entries| - 1;
      KeptPointwise(entries[..n], settled, threads[..n]);
      assert threads == threads[..n] + [threads[n]];
    }
  }

  lemma {:induction false} ResolvedAt(threads: seq<Serialized>, promise: nat)
    ensures forall p :: p in Resolved(threads, promise) <==> promise <= p < promise + |threads|
    ensures forall i :: 0 <= i < |threads| ==> Resolved(threads, promise)[promise + i] == Sent(threads[i].eventId)
  {
    if threads != [] {
      ResolvedAt(threads[..|threads| - 1], promise);
    }
  }

  lemma RestoredWellFormed(threads: seq<Serialized>, r: State)
    requires DistinctIds(threads) && r == Restored(threads)
    ensures WellFormed(r)
  {
    RestoredEntries(threads);
  }

  lemma WholeMapCovers(s: State, threads: seq<Serialized>)
    requires Kept(s.entries, s.settled) == threads && AllSettled(s.entries, s.settled)
    ensures Covers(s, threads, |s.entries|)
  {
    assert s.entries[..|s.entries|] == s.entries;
  }

  /** A map restored from distinct threads keeps exactly those, and is well formed. */
  lemma RestoreIsExact(threads: seq<Serialized>)
    requires DistinctIds(threads)
    ensures var r := Restored(threads);
            && Kept(r.entries, r.settled) == threads
            && WellFormed(r) && Persisting(r)
  {
    var r := Restored(threads);
    RestoredWellFormed(threads, r);
    RestoredKeeps(threads, r);
    WholeMapCovers(r, threads);
  }

  lemma RestoredKeeps(threads: seq<Serialized>, r: State)
    requires DistinctIds(threads) && r == Restored(threads)
    ensures Kept(r.entries, r.settled) == threads && AllSettled(r.entries, r.settled)
  {
    RestoredEntries(threads);
    KeptPointwise(r.entries, r.settled, threads);
  }

  lemma RestoredEntries(threads: seq<Serialized>)
    requires DistinctIds(threads)
    ensures var r := Restored(threads);
            && |r.entries| == |threads|
            && (forall i :: 0 <= i < |threads| ==>
                  && r.entries[i] == Entry(threads[i].discussionId, i)
                  && EventOf(r.settled, i) == Some(threads[i].eventId))
            && forall p :: p in r.settled <==> 0 <= p < |threads|
  {
    SetAllNew([], threads, 0);
    ResolvedAt(threads, 0);
  }

  lemma {:induction false} KeptIsDistinct(entries: seq<Entry>, settled: map<nat, Outcome>)
    requires DistinctKeys(entries)
    ensures DistinctIds(Kept(entries, settled))
    ensures forall i :: 0 <= i < |Kept(entries, settled)| ==> Has(entries, Kept(entries, settled)[i].discussionId)
  {
    if entries != [] {
      var n := |entries| - 1;
      KeptIsDistinct(entries[..n], settled);
      var kept := Kept(entries[..n], settled);
      assert forall i :: 0 <= i < |kept| ==> Kept(entries, settled)[i] == kept[i];
      forall i | 0 <= i < |kept| ensures Has(entries, kept[i].discussionId) && kept[i].discussionId != entries[n].discussionId {
        var j :| 0 <= j < |entries[..n]| && entries[..n][j].discussionId == kept[i].discussionId;
        assert entries[j].discussionId == kept[i].discussionId;
      }
      assert entries[n].discussionId == entries[n].discussionId && Has(entries, entries[n].discussionId);
    }
  }

  /** Once no persist is on its way, storing and restoring gives the same map restricted to
      the sends that succeeded, in the same order. */
  lemma PersistThenRestore(s: State, run: seq<Event>)
    requires WellFormed(s) && Persisting(s) && Valid(s, run)
    requires Exec(s, run).persists == map[]
    ensures var m := Exec(s, run);
            var r := Restored(m.stored);
            Kept(r.entries, r.settled) == Kept(m.entries, m.settled) == m.stored
  {
    AlwaysPersisting(s, run);
    WriteOnce(s, run);
    var m := Exec(s, run);
    assert m.entries[..|m.entries|] == m.entries;
    KeptIsDistinct(m.entries, m.settled);
    RestoreIsExact(m.stored);
  }
}
