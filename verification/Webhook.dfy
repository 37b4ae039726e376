/**
  Answering a webhook: the router waits on the queue, the bridge's handler calls every
  matching connection at once and may push several responses, and the router turns the one
  that counts into an HTTP answer. Covers generic webhooks and bridge auth.
 */
module Webhook {
  import opened Common
  import MQ = LocalMQ

  /** How the handler treats a connection: answer once it has run, answer at once and run it
      then, or leave it alone. */
  datatype Mode = Waits | Detached | Ignored

  datatype Response = Response(
    body: string,
    contentType: Option<string>,
    statusCode: Option<nat>,
    unauthorized: Option<bool>)

  /** What a connection's handler did. */
  datatype Reply = Returned(successful: bool, response: Option<Response>) | Threw

  /** The responses a handler pushes: {notFound: true}, {}, what the first connection
      returned, and {successful: false}. */
  datatype Answer =
    | NotFound
    | Accepted
    | Completed(successful: bool, response: Option<Response>)
    | GaveUp

  /** The modes of generic webhook connections: only the first one answers. */
  function GenericModes(waitForComplete: bool, waits: seq<bool>): seq<Mode> {
    seq(|waits|, i requires 0 <= i < |waits| => if waitForComplete || waits[i] then Waits else Detached)
  }

  /** The modes of bridge auth connections: all but the first are left alone. */
  function AuthModes(connections: nat): seq<Mode> {
    seq(connections, i => if i == 0 then Waits else Ignored)
  }

  /** The handler call for one request; `replies` has what each connection has done so far. */
  datatype State = State(
    mq: MQ.State<Answer>,
    event: string,
    id: nat,
    modes: seq<Mode>,
    replies: seq<Option<Reply>>,
    didPush: bool,
    finished: bool,
    answers: seq<Answer>)

  datatype Event =
    | Reply(index: nat, reply: Reply)
    | Finish
    | Timeout
    | Foreign(e: MQ.Event<Answer>)

  function Push(s: State, a: Answer): State {
    s.(mq := MQ.Apply(s.mq, MQ.Respond(s.event, s.id, a)), answers := s.answers + [a])
  }

  /** pushWait and the handler up to its first awaits. */
  function Begin(mq: MQ.State<Answer>, event: string, modes: seq<Mode>): State {
    var s := State(MQ.Apply(mq, MQ.Request(event)), event, mq.nextId, modes,
                   seq(|modes|, i requires 0 <= i < |modes| => if modes[i].Ignored? then Some(Returned(true, None)) else None),
                   false, false, []);
    if modes == [] then Push(s, NotFound)
    else if modes[0].Detached? then Push(s, Accepted)
    else s
  }

  ghost predicate Enabled(s: State, e: Event) {
    match e
    case Reply(i, _) => i < |s.replies| && s.replies[i].None?
    case Finish => !s.finished && forall i :: 0 <= i < |s.replies| ==> s.replies[i].Some?
    case Timeout => s.id in s.mq.timers
    case Foreign(m) =>
      && MQ.Enabled(s.mq, m)
      && !(m.Respond? && m.event == s.event && m.id == s.id) && m != MQ.Expire(s.id)
  }

  function Apply(s: State, e: Event): State {
    match e
    case Reply(i, reply) =>
      if i >= |s.replies| then s
      else
        var s' := s.(replies := s.replies[i := Some(reply)]);
        if i != 0 || reply.Threw? then s'
        else
          var s'' := if s.modes != [] && s.modes[0].Waits? then Push(s', Completed(reply.successful, reply.response)) else s';
          s''.(didPush := true)
    case Finish =>
      var s' := s.(finished := true);
      if s.didPush then s' else Push(s', GaveUp)
    case Timeout => s.(mq := MQ.Apply(s.mq, MQ.Expire(s.id)))
    case Foreign(m) => s.(mq := MQ.Apply(s.mq, m))
  }

  function Exec(s: State, run: seq<Event>): State {
    if run == [] then s else Apply(Exec(s, run[..|run| - 1]), run[|run| - 1])
  }

  ghost predicate Valid(s: State, run: seq<Event>) {
    run == [] ||
    (Valid(s, run[..|run| - 1]) && Enabled(Exec(s, run[..|run| - 1]), run[|run| - 1]))
  }

  // ---------------------------------------------------------------- the object

  class Handler {
    const queue: MQ.Queue<Answer>
    const event: string
    var id: nat
    const modes: seq<Mode>
    var replies: seq<Option<Reply>>
    var didPush: bool
    var finished: bool
    var answers: seq<Answer>

    ghost function View(): State
      reads this, queue
    {
      State(queue.View(), event, id, modes, replies, didPush, finished, answers)
    }

    constructor (queue: MQ.Queue<Answer>, event: string, modes: seq<Mode>)
      requires MQ.WellFormed(queue.View())
      modifies queue
      ensures View() == Begin(old(queue.View()), event, modes) && this.queue == queue
    {
      this.queue, this.event, this.modes := queue, event, modes;
      replies := seq(|modes|, i requires 0 <= i < |modes| =>
        if modes[i].Ignored? then Some(Returned(true, None)) else None);
      didPush, finished, answers := false, false, [];
      id := 0;
      new;
      ghost var before := queue.View();
      id := queue.PushWait(event);
      MQ.StepKeeps(before, MQ.Request(event));
      if |modes| == 0 {
        PushAnswer(NotFound);
      } else if modes[0].Detached? {
        PushAnswer(Accepted);
      }
    }

    method PushAnswer(a: Answer)
      requires MQ.WellFormed(queue.View())
      modifies this`answers, queue
      ensures View() == Push(old(View()), a)
    {
      queue.PushResponse(event, id, a);
      answers := answers + [a];
    }

    /** The handler of connection `index` has returned or thrown. */
    method OnReply(index: nat, reply: Reply)
      requires index < |replies| && MQ.WellFormed(queue.View())
      modifies this`replies, this`didPush, this`answers, queue
      ensures View() == Apply(old(View()), Event.Reply(index, reply))
    {
      replies := replies[index := Some(reply)];
      if index != 0 || reply.Threw? {
        return;
      }
      if |modes| != 0 && modes[0].Waits? {
        PushAnswer(Completed(reply.successful, reply.response));
      }
      didPush := true;
    }

    /** After Promise.all. */
    method OnAllDone()
      requires MQ.WellFormed(queue.View())
      modifies this`finished, this`answers, queue
      ensures View() == Apply(old(View()), Finish)
    {
      finished := true;
      if !didPush {
        PushAnswer(GaveUp);
      }
    }
  }

  // ---------------------------------------------------------------- which answer counts

  /** The answer the first connection alone calls for. */
  function Expected(modes: seq<Mode>, first: Option<Reply>): Option<Answer> {
    if modes == [] then Some(NotFound)
    else if modes[0].Detached? then Some(Accepted)
    else match first
      case None => None
      case Some(Returned(successful, response)) => Some(Completed(successful, response))
      case Some(Threw) => Some(GaveUp)
  }

  function FirstReply(s: State): Option<Reply> {
    if s.replies == [] then None else s.replies[0]
  }

  /** The first connection is not left alone: true of both handlers. */
  predicate FirstAnswers(modes: seq<Mode>) { modes != [] ==> !modes[0].Ignored? }

  /** In both handlers the first connection is the one that answers: a generic webhook's waits if
      it or the configuration says so; a bridge auth's always does, and no other is called. */
  lemma HandlersAnswer(waitForComplete: bool, waits: seq<bool>, connections: nat)
    ensures |GenericModes(waitForComplete, waits)| == |waits| && |AuthModes(connections)| == connections
    ensures forall i :: 0 <= i < |waits| ==>
              GenericModes(waitForComplete, waits)[i] == if waitForComplete || waits[i] then Waits else Detached
    ensures forall i :: 0 <= i < connections ==> AuthModes(connections)[i] == if i == 0 then Waits else Ignored
    ensures FirstAnswers(GenericModes(waitForComplete, waits)) && FirstAnswers(AuthModes(connections))
  {
  }

  /** The request's promise is pending, timed out, or holds what the first connection calls for;
      once an answer was pushed it is no longer pending, and every answer follows the first. */
  ghost predicate Sound(s: State) {
    && MQ.WellFormed(s.mq) && MQ.Awaits(s.mq, s.event, s.id)
    && |s.replies| == |s.modes| && FirstAnswers(s.modes)
    && (s.answers != [] ==> Some(s.answers[0]) == Expected(s.modes, FirstReply(s)))
    && (s.mq.promises[s.id].Pending? <==> s.id in s.mq.timers)
    && (s.mq.promises[s.id].Pending? ==> s.answers == [])
    && (s.mq.promises[s.id].Resolved? ==> s.answers != [] && s.mq.promises[s.id].data == s.answers[0])
    && (s.didPush ==> s.answers != [])
    && (s.answers == [] ==> s.modes != [] && s.modes[0].Waits?)
    && (s.answers != [] && s.modes != [] && s.modes[0].Waits? ==> FirstReply(s).Some?)
    && (s.answers == [] && FirstReply(s).Some? ==> FirstReply(s).value.Threw?)
    && (s.finished ==> s.answers != [])
    && (FirstReply(s).Some? && FirstReply(s).value.Threw? ==> !s.didPush)
    && (FirstReply(s).None? ==> !s.didPush)
  }

  lemma PushSettles(s: State, a: Answer)
    requires MQ.WellFormed(s.mq) && MQ.Awaits(s.mq, s.event, s.id)
    ensures var s' := Push(s, a);
            && MQ.WellFormed(s'.mq) && MQ.Awaits(s'.mq, s.event, s.id)
            && s'.mq.promises[s.id] == if s.mq.promises[s.id].Pending? then MQ.Resolved(a) else s.mq.promises[s.id]
  {
    MQ.StepKeeps(s.mq, MQ.Respond(s.event, s.id, a));
    MQ.AwaitsStep(s.mq, MQ.Respond(s.event, s.id, a), s.event, s.id);
  }

  lemma SoundBegin(mq: MQ.State<Answer>, event: string, modes: seq<Mode>)
    requires MQ.WellFormed(mq) && FirstAnswers(modes)
    ensures Sound(Begin(mq, event, modes))
    ensures modes == [] || modes[0].Detached? ==> Begin(mq, event, modes).mq.promises[mq.nextId].Resolved?
  {
    MQ.StepKeeps(mq, MQ.Request(event));
    MQ.RequestAwaits(mq, event);
    var s := Begin(mq, event, modes).(mq := MQ.Apply(mq, MQ.Request(event)), answers := []);
    PushSettles(s, NotFound);
    PushSettles(s, Accepted);
  }

  lemma SoundReply(s: State, e: Event)
    requires Sound(s) && Enabled(s, e) && e.Reply?
    ensures Sound(Apply(s, e))
  {
    if e.index == 0 && e.reply.Returned? {
      PushSettles(s.(replies := s.replies[0 := Some(e.reply)]), Completed(e.reply.successful, e.reply.response));
    }
  }

  lemma SoundStep(s: State, e: Event)
    requires Sound(s) && Enabled(s, e)
    ensures Sound(Apply(s, e))
    ensures !s.mq.promises[s.id].Pending? ==> Apply(s, e).mq.promises[s.id] == s.mq.promises[s.id]
    ensures Apply(s, e).id == s.id && Apply(s, e).modes == s.modes
    ensures Apply(s, e).mq.promises[s.id].Rejected? && s.mq.promises[s.id].Pending? ==> e.Timeout?
  {
    match e
    case Reply(i, reply) =>
      SoundReply(s, e);
      if i == 0 && reply.Returned? {
        PushSettles(s.(replies := s.replies[0 := Some(reply)]), Completed(reply.successful, reply.response));
      }
    case Finish =>
      PushSettles(s.(finished := true), GaveUp);
    case Timeout =>
      MQ.StepKeeps(s.mq, MQ.Expire(s.id));
      MQ.AwaitsStep(s.mq, MQ.Expire(s.id), s.event, s.id);
    case Foreign(m) =>
      MQ.StepKeeps(s.mq, m);
      MQ.AwaitsStep(s.mq, m, s.event, s.id);
  }

  lemma {:induction false} SoundRun(s: State, run: seq<Event>)
    requires Sound(s) && Valid(s, run)
    ensures Sound(Exec(s, run)) && Exec(s, run).id == s.id && Exec(s, run).modes == s.modes
    ensures !s.mq.promises[s.id].Pending? ==> Exec(s, run).mq.promises[s.id] == s.mq.promises[s.id]
    ensures Exec(s, run).mq.promises[s.id].Rejected? && s.mq.promises[s.id].Pending? ==> Timeout in run
  {
    if run != [] {
      SoundRun(s, run[..|run| - 1]);
      SoundStep(Exec(s, run[..|run| - 1]), run[|run| - 1]);
    }
  }

  /** On every interleaving of connections, duplicate responses, other requests and the
      timeout: the request resolves only to the answer its first connection calls for, is
      settled once the handler has finished, and can only fail by its own timeout. */
  lemma OneAnswer(mq: MQ.State<Answer>, event: string, modes: seq<Mode>, run: seq<Event>)
    requires MQ.WellFormed(mq) && FirstAnswers(modes) && Valid(Begin(mq, event, modes), run)
    ensures var m := Exec(Begin(mq, event, modes), run);
            && mq.nextId in m.mq.promises
            && var p := m.mq.promises[mq.nextId];
            && (p.Resolved? ==> Expected(modes, FirstReply(m)) == Some(p.data))
            && (m.finished ==> !p.Pending?)
            && (p.Rejected? ==> Timeout in run && modes != [] && modes[0].Waits?)
  {
    SoundBegin(mq, event, modes);
    SoundRun(Begin(mq, event, modes), run);
  }

  /** Once settled, nothing that follows changes the outcome. */
  lemma SettledForGood(mq: MQ.State<Answer>, event: string, modes: seq<Mode>, run: seq<Event>, more: seq<Event>)
    requires MQ.WellFormed(mq) && FirstAnswers(modes)
    requires Valid(Begin(mq, event, modes), run) && Valid(Exec(Begin(mq, event, modes), run), more)
    requires mq.nextId in Exec(Begin(mq, event, modes), run).mq.promises
    requires !Exec(Begin(mq, event, modes), run).mq.promises[mq.nextId].Pending?
    ensures var m := Exec(Begin(mq, event, modes), run);
            && mq.nextId in Exec(m, more).mq.promises
            && Exec(m, more).mq.promises[mq.nextId] == m.mq.promises[mq.nextId]
  {
    SoundBegin(mq, event, modes);
    SoundRun(Begin(mq, event, modes), run);
    SoundRun(Exec(Begin(mq, event, modes), run), more);
  }

  // ---------------------------------------------------------------- the HTTP answer

  datatype Body = OkTrue | Error(message: string) | Text(text: string) | Whole(response: Response)

  /** The HTTP answer, or the request handed on with next(). */
  datatype Http = Http(status: nat, contentType: Option<string>, body: Body) | Next

  function Truthy(s: Option<string>): Option<string> {
    if s.Some? && s.value != "" then s else None
  }

  /** The generic router's then and catch callbacks. */
  method GenericOnSettled(p: MQ.Promise<Answer>, deprecatedPath: bool) returns (res: Http)
    requires !p.Pending?
    ensures p.Rejected? ==> res == Http(500, None, Error("Failed to handle webhook"))
    ensures p == MQ.Resolved(NotFound) ==> res == if deprecatedPath then Next else Http(404, None, Error("Webhook not found"))
    ensures p == MQ.Resolved(Accepted) ==> res == Http(202, None, OkTrue)
    ensures p.Resolved? && (p.data == GaveUp || (p.data.Completed? && !p.data.successful)) ==>
              res == Http(500, None, Error("Failed to process webhook"))
    ensures p.Resolved? && p.data.Completed? && p.data.successful ==>
              res == match p.data.response
                     case None => Http(200, None, OkTrue)
                     case Some(r) => Http(if r.statusCode.Some? then r.statusCode.value else 200,
                                       if r.contentType == Some("") then None else r.contentType, Text(r.body))
  {
    if p.Rejected? {
      return Http(500, None, Error("Failed to handle webhook"));
    }
    var response := p.data;
    if response.NotFound? {
      if deprecatedPath {
        return Next;
      }
      return Http(404, None, Error("Webhook not found"));
    }
    var successful := if response.Completed? then Some(response.successful) else if response.GaveUp? then Some(false) else None;
    if successful == Some(true) {
      var contentType, status, body := None, 200, OkTrue;
      if response.response.Some? {
        body := Text(response.response.value.body);
        if Truthy(response.response.value.contentType).Some? {
          contentType := response.response.value.contentType;
        }
        if response.response.value.statusCode.Some? {
          status := response.response.value.statusCode.value;
        }
      }
      return Http(status, contentType, body);
    } else if successful == Some(false) {
      return Http(500, None, Error("Failed to process webhook"));
    }
    return Http(202, None, OkTrue);
  }

  /** Does the bridge auth answer read as unauthorized? Not known means it does. */
  predicate Unauthorized(a: Answer) {
    a.Completed? && (a.response.None? || a.response.value.unauthorized.None? || a.response.value.unauthorized.value)
  }

  /** The bridge auth router's then and catch callbacks. */
  method AuthOnSettled(p: MQ.Promise<Answer>) returns (res: Http)
    requires !p.Pending?
    ensures p.Rejected? ==> res == Http(500, None, Error("Failed to handle bridge auth"))
    ensures p == MQ.Resolved(NotFound) ==> res == Http(404, None, Error("Auth not found"))
    ensures p == MQ.Resolved(GaveUp) || p == MQ.Resolved(Accepted) ==>
              res == Http(500, None, Error("Failed to process webhook"))
    ensures p.Resolved? && p.data.Completed? && p.data.successful && p.data.response.Some? ==>
              var r := p.data.response.value;
              res == Http(200, if r.contentType == Some("") then None else r.contentType,
                          if r.body != "" then Text(r.body) else Whole(r.(unauthorized := None)))
    ensures p.Resolved? && p.data.Completed? && p.data.response.None? ==> res == Http(401, None, Error(""))
    ensures p.Resolved? && p.data.Completed? && !p.data.successful && p.data.response.Some? ==>
              var r := p.data.response.value;
              res == if r.unauthorized == Some(false) then Http(500, None, Error("Failed to process webhook"))
                     else Http(401, if r.contentType == Some("") then None else r.contentType, Error(r.body))
  {
    if p.Rejected? {
      return Http(500, None, Error("Failed to handle bridge auth"));
    }
    var response := p.data;
    if response.Completed? && response.successful && response.response.Some? {
      var r := response.response.value.(unauthorized := None);
      return Http(200, Truthy(r.contentType), if r.body != "" then Text(r.body) else Whole(r));
    } else if Unauthorized(response) {
      var contentType, body := None, "";
      if response.response.Some? {
        contentType := Truthy(response.response.value.contentType);
        body := response.response.value.body;
      }
      return Http(401, contentType, Error(body));
    } else if response.NotFound? {
      return Http(404, None, Error("Auth not found"));
    }
    return Http(500, None, Error("Failed to process webhook"));
  }

  /** What a generic webhook request is answered with when its handler runs to the end before
      the timeout, whatever else is going on. */
  lemma FinishedWithoutTimeout(mq: MQ.State<Answer>, event: string, waitForComplete: bool, waits: seq<bool>, run: seq<Event>)
    requires var modes := GenericModes(waitForComplete, waits);
             MQ.WellFormed(mq) && Valid(Begin(mq, event, modes), run)
    requires Timeout !in run && Exec(Begin(mq, event, GenericModes(waitForComplete, waits)), run).finished
    ensures var m := Exec(Begin(mq, event, GenericModes(waitForComplete, waits)), run);
            && mq.nextId in m.mq.promises && m.mq.promises[mq.nextId].Resolved?
            && var a := m.mq.promises[mq.nextId].data;
            && (a == NotFound <==> waits == [])
            && (a == Accepted <==> waits != [] && !waitForComplete && !waits[0])
            && (waits != [] && (waitForComplete || waits[0]) ==>
                  && FirstReply(m).Some?
                  && a == match FirstReply(m).value
                          case Returned(successful, response) => Completed(successful, response)
                          case Threw => GaveUp)
  {
    var modes := GenericModes(waitForComplete, waits);
    OneAnswer(mq, event, modes, run);
    SoundBegin(mq, event, modes);
    SoundRun(Begin(mq, event, modes), run);
  }

  /** What a bridge auth request is answered with when its handler runs to the end before the
      timeout: only the first connection matters, and it is always waited for. */
  lemma AuthFinishedWithoutTimeout(mq: MQ.State<Answer>, event: string, connections: nat, run: seq<Event>)
    requires MQ.WellFormed(mq) && Valid(Begin(mq, event, AuthModes(connections)), run)
    requires Timeout !in run && Exec(Begin(mq, event, AuthModes(connections)), run).finished
    ensures var m := Exec(Begin(mq, event, AuthModes(connections)), run);
            && mq.nextId in m.mq.promises && m.mq.promises[mq.nextId].Resolved?
            && var a := m.mq.promises[mq.nextId].data;
            && (a == NotFound <==> connections == 0)
            && (connections > 0 ==>
                  && FirstReply(m).Some?
                  && a == match FirstReply(m).value
                          case Returned(successful, response) => Completed(successful, response)
                          case Threw => GaveUp)
  {
    var modes := AuthModes(connections);
    OneAnswer(mq, event, modes, run);
    SoundBegin(mq, event, modes);
    SoundRun(Begin(mq, event, modes), run);
  }

  // ---------------------------------------------------------------- every answer pushed

  /** The answers pushed so far, the one that counts first. */
  function Pushed(modes: seq<Mode>, first: Option<Reply>, finished: bool): seq<Answer> {
    if modes == [] then [NotFound] + if finished then [GaveUp] else []
    else if modes[0].Detached? then [Accepted] + if finished && first == Some(Threw) then [GaveUp] else []
    else match first
      case None => []
      case Some(Returned(successful, response)) => [Completed(successful, response)]
      case Some(Threw) => if finished then [GaveUp] else []
  }

  ghost predicate Counts(s: State) {
    && |s.replies| == |s.modes| && FirstAnswers(s.modes)
    && s.answers == Pushed(s.modes, FirstReply(s), s.finished)
    && (s.didPush <==> FirstReply(s).Some? && FirstReply(s).value.Returned?)
    && (s.finished ==> forall i :: 0 <= i < |s.replies| ==> s.replies[i].Some?)
  }

  lemma CountsStep(s: State, e: Event)
    requires Counts(s) && Enabled(s, e)
    ensures Counts(Apply(s, e))
  {
  }

  /** On every run the handler pushes exactly these answers: a second one when no connection
      matches, or when a connection that was not waited for throws; else one. */
  lemma {:induction false} AnswersAre(mq: MQ.State<Answer>, event: string, modes: seq<Mode>, run: seq<Event>)
    requires FirstAnswers(modes) && Valid(Begin(mq, event, modes), run)
    ensures var m := Exec(Begin(mq, event, modes), run);
            && Counts(m) && m.modes == modes
            && m.answers == Pushed(modes, FirstReply(m), m.finished)
  {
    if run != [] {
      var before := run[..|run| - 1];
      AnswersAre(mq, event, modes, before);
      CountsStep(Exec(Begin(mq, event, modes), before), run[|run| - 1]);
    }
  }
}
