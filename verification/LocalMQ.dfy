/**
  The in-process message queue's request and response: pushWait registers a listener and a
  timer and returns a promise, which the first matching response or the timer settles.
 */
module LocalMQ {
  datatype Promise<+T> = Pending | Resolved(data: T) | Rejected

  /** A listener on `response.<event>` for one message id. */
  datatype Listener = Listener(event: string, id: nat)

  datatype State<+T> = State(
    listeners: seq<Listener>,
    timers: set<nat>,
    promises: map<nat, Promise<T>>,
    nextId: nat)

  /** pushWait, a push of `response.<event>`, and the timer of a request. */
  datatype Event<+T> =
    | Request(event: string)
    | Respond(event: string, id: nat, data: T)
    | Expire(id: nat)

  function Settle<T>(promises: map<nat, Promise<T>>, id: nat, outcome: Promise<T>): map<nat, Promise<T>> {
    if id in promises && promises[id].Pending? then promises[id := outcome] else promises
  }

  function Remove(listeners: seq<Listener>, l: Listener): seq<Listener> {
    if listeners == [] then []
    else if listeners[0] == l then listeners[1..]
    else [listeners[0]] + Remove(listeners[1..], l)
  }

  predicate Enabled<T>(s: State<T>, e: Event<T>) {
    e.Expire? ==> e.id in s.timers
  }

  function Apply<T>(s: State<T>, e: Event<T>): State<T> {
    match e
    case Request(event) =>
      State(s.listeners + [Listener(event, s.nextId)], s.timers + {s.nextId},
            s.promises[s.nextId := Pending], s.nextId + 1)
    case Respond(event, id, data) =>
      if Listener(event, id) !in s.listeners then s
      else s.(listeners := Remove(s.listeners, Listener(event, id)), timers := s.timers - {id},
              promises := Settle(s.promises, id, Resolved(data)))
    case Expire(id) =>
      s.(timers := s.timers - {id}, promises := Settle(s.promises, id, Rejected))
  }

  // ---------------------------------------------------------------- the object

  class Queue<T(!new)> {
    var listeners: seq<Listener>
    var timers: set<nat>
    var promises: map<nat, Promise<T>>
    var nextId: nat

    ghost function View(): State<T>
      reads this
    {
      State(listeners, timers, promises, nextId)
    }

    constructor ()
      ensures View() == State([], {}, map[], 0)
    {
      listeners, timers, promises, nextId := [], {}, map[], 0;
    }

    /** pushWait up to the emit: timer and listener are in place before any handler runs. */
    method PushWait(event: string) returns (messageId: nat)
      modifies this
      ensures messageId == old(nextId)
      ensures View() == Apply(old(View()), Request(event))
    {
      messageId := nextId;
      nextId := nextId + 1;
      promises := promises[messageId := Pending];
      timers := timers + {messageId};
      listeners := listeners + [Listener(event, messageId)];
    }

    /** Emits a response to the listeners registered when the emit begins. */
    method PushResponse(event: string, messageId: nat, data: T)
      requires WellFormed(View())
      modifies this
      ensures View() == Apply(old(View()), Respond(event, messageId, data))
    {
      var called := listeners;
      ghost var s := View();
      for i := 0 to |called|
        invariant View() == if Listener(event, messageId) in called[..i] then Apply(s, Respond(event, messageId, data)) else s
      {
        if called[i].event == event && called[i].id == messageId {
          assert called[..i + 1][i] == Listener(event, messageId);
          timers := timers - {messageId};
          listeners := Remove(listeners, called[i]);
          if messageId in promises && promises[messageId].Pending? {
            promises := promises[messageId := Resolved(data)];
          }
        } else {
          assert called[..i + 1] == called[..i] + [called[i]];
        }
      }
      assert called[..|called|] == called;
    }

    /** The timeout of a request. */
    method OnTimeout(messageId: nat)
      requires messageId in timers
      modifies this
      ensures View() == Apply(old(View()), Expire(messageId))
    {
      timers := timers - {messageId};
      if messageId in promises && promises[messageId].Pending? {
        promises := promises[messageId := Rejected];
      }
    }
  }

  // ---------------------------------------------------------------- invariants

  predicate DistinctListeners(listeners: seq<Listener>) {
    forall i, j :: 0 <= i < j < |listeners| ==> listeners[i].id != listeners[j].id
  }

  ghost predicate Listening(listeners: seq<Listener>, id: nat) {
    exists i :: 0 <= i < |listeners| && listeners[i].id == id
  }

  /** A request is pending exactly while its timer lives, and then it has its one listener. */
  ghost predicate WellFormed<T(!new)>(s: State<T>) {
    && DistinctListeners(s.listeners)
    && (forall i :: 0 <= i < |s.listeners| ==> s.listeners[i].id in s.promises)
    && (forall id :: id in s.promises ==> id < s.nextId)
    && (forall id :: id in s.timers <==> id in s.promises && s.promises[id].Pending?)
    && (forall id :: id in s.timers ==> Listening(s.listeners, id))
  }

  lemma {:induction false} RemoveMember(listeners: seq<Listener>, l: Listener)
    requires DistinctListeners(listeners) && l in listeners
    ensures DistinctListeners(Remove(listeners, l))
    ensures forall m :: m in Remove(listeners, l) <==> m in listeners && m.id != l.id
  {
    if listeners[0] != l {
      RemoveMember(listeners[1..], l);
    }
  }

  lemma RespondKeeps<T(!new)>(s: State<T>, e: Event<T>)
    requires WellFormed(s) && e.Respond? && Listener(e.event, e.id) in s.listeners
    ensures WellFormed(Apply(s, e))
  {
    var s' := Apply(s, e);
    RemoveMember(s.listeners, Listener(e.event, e.id));
    forall id | id in s'.timers ensures Listening(s'.listeners, id) {
      var i :| 0 <= i < |s.listeners| && s.listeners[i].id == id;
      assert s.listeners[i] in s'.listeners;
    }
    forall i | 0 <= i < |s'.listeners| ensures s'.listeners[i].id in s'.promises {
      assert s'.listeners[i] in s.listeners;
    }
  }

  lemma StepKeeps<T(!new)>(s: State<T>, e: Event<T>)
    requires WellFormed(s) && Enabled(s, e)
    ensures WellFormed(Apply(s, e))
  {
    if e.Respond? && Listener(e.event, e.id) in s.listeners {
      RespondKeeps(s, e);
    } else if e.Request? {
      var s' := Apply(s, e);
      forall id | id in s'.timers ensures Listening(s'.listeners, id) {
        if id in s.timers {
          var i :| 0 <= i < |s.listeners| && s.listeners[i].id == id;
          assert s'.listeners[i].id == id;
        } else {
          assert s'.listeners[|s.listeners|].id == id;
        }
      }
    }
  }

  function Exec<T>(s: State<T>, run: seq<Event<T>>): State<T> {
    if run == [] then s else Apply(Exec(s, run[..|run| - 1]), run[|run| - 1])
  }

  predicate Valid<T>(s: State<T>, run: seq<Event<T>>) {
    run == [] ||
    (Valid(s, run[..|run| - 1]) && Enabled(Exec(s, run[..|run| - 1]), run[|run| - 1]))
  }

  /** The first response to the request, or its timeout, whichever the run has first. */
  function FirstAnswer<T>(run: seq<Event<T>>, event: string, id: nat): Promise<T> {
    if run == [] then Pending
    else if run[0].Respond? && run[0].event == event && run[0].id == id then Resolved(run[0].data)
    else if run[0] == Expire(id) then Rejected
    else FirstAnswer(run[1..], event, id)
  }

  lemma {:induction false} FirstAnswerExtends<T>(run: seq<Event<T>>, e: Event<T>, event: string, id: nat)
    ensures var before := FirstAnswer(run, event, id);
            FirstAnswer(run + [e], event, id) == if before.Pending? then FirstAnswer([e], event, id) else before
  {
    if run == [] {
      assert run + [e] == [e];
    } else {
      assert (run + [e])[1..] == run[1..] + [e];
      FirstAnswerExtends(run[1..], e, event, id);
    }
  }

  /** Is the request with this id one for this event, and still as well listened to as it can be? */
  ghost predicate Awaits<T(!new)>(s: State<T>, event: string, id: nat) {
    && id in s.promises
    && (s.promises[id].Pending? ==> Listener(event, id) in s.listeners)
    && (forall l :: l in s.listeners && l.id == id ==> l.event == event)
  }

  lemma AwaitsStep<T(!new)>(s: State<T>, e: Event<T>, event: string, id: nat)
    requires WellFormed(s) && Enabled(s, e) && Awaits(s, event, id)
    ensures Awaits(Apply(s, e), event, id)
    ensures var p, p' := s.promises[id], Apply(s, e).promises[id];
            p' == if p.Pending? then FirstAnswer([e], event, id) else p
  {
    if e.Respond? && Listener(e.event, e.id) in s.listeners {
      RemoveMember(s.listeners, Listener(e.event, e.id));
    }
  }

  /** On every run, interleaved with any other requests, a request settles once: its promise
      is at all times what the first answer to it made of it. */
  lemma {:induction false} FirstAnswerWins<T(!new)>(s: State<T>, run: seq<Event<T>>, event: string)
    requires WellFormed(s)
    requires Valid(Apply(s, Request(event)), run)
    ensures var m := Exec(Apply(s, Request(event)), run);
            && WellFormed(m) && Awaits(m, event, s.nextId)
            && m.promises[s.nextId] == FirstAnswer(run, event, s.nextId)
  {
    var s0, id := Apply(s, Request(event)), s.nextId;
    if run == [] {
      StepKeeps(s, Request(event));
      RequestAwaits(s, event);
    } else {
      var before, e := run[..|run| - 1], run[|run| - 1];
      FirstAnswerWins(s, before, event);
      StepKeeps(Exec(s0, before), e);
      AwaitsStep(Exec(s0, before), e, event, id);
      assert run == before + [e];
      FirstAnswerExtends(before, e, event, id);
    }
  }

  /** A timeout leaves the listener behind; a late response finds it, takes it away, and changes
      no promise. */
  lemma LateResponse<T(!new)>(s: State<T>, event: string, id: nat, data: T)
    requires WellFormed(s) && id in s.timers && Awaits(s, event, id)
    ensures var s' := Apply(s, Expire(id));
            && Listener(event, id) in s'.listeners && s'.promises == s.promises[id := Rejected]
            && var s'' := Apply(s', Respond(event, id, data));
            && s''.promises == s'.promises
            && forall l :: l in s''.listeners <==> l in s.listeners && l.id != id
  {
    RemoveMember(s.listeners, Listener(event, id));
  }

  lemma RequestAwaits<T(!new)>(s: State<T>, event: string)
    requires WellFormed(s)
    ensures Awaits(Apply(s, Request(event)), event, s.nextId)
  {
    var s' := Apply(s, Request(event));
    assert s'.listeners[|s.listeners|] == Listener(event, s.nextId);
    assert forall i :: 0 <= i < |s.listeners| ==> s.listeners[i].id < s.nextId;
  }
}
