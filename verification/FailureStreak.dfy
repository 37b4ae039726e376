/**
  Telling a room about a failing feed: one notice for each streak of failures, and a short
  history of outcomes. Events are handled one at a time.
 */
module FailureStreak {
  const MAX_LAST_RESULT_ITEMS: nat := 5

  datatype Result = Result(ok: bool, timestamp: int)

  /** `silent` is shouldErrorBeSilent, `sends` whether a notice can be sent. */
  datatype Event = Success(at: int) | Failure(at: int, silent: bool, sends: bool)

  datatype State = State(hasError: bool, lastResults: seq<Result>, notices: nat)

  predicate IsOk(e: Event) { e.Success? }

  /** unshift, then splice(MAX_LAST_RESULT_ITEMS - 1, 1). */
  function Record(lastResults: seq<Result>, r: Result): seq<Result> {
    var longer := [r] + lastResults;
    var at := MAX_LAST_RESULT_ITEMS - 1;
    if |longer| > at then longer[..at] + longer[at + 1..] else longer
  }

  function Apply(s: State, e: Event, notifyOnFailure: bool): State {
    match e
    case Success(at) => s.(hasError := false, lastResults := Record(s.lastResults, Result(true, at)))
    case Failure(at, silent, sends) =>
      var results := Record(s.lastResults, Result(false, at));
      var s' := s.(lastResults := results);
      var wasLastResultSuccessful := results == [] || results[0].ok;
      if (wasLastResultSuccessful && silent) || !notifyOnFailure || s.hasError || !sends then s'
      else s'.(hasError := true, notices := s.notices + 1)
  }

  class FeedConnection {
    var hasError: bool
    var lastResults: seq<Result>
    var notices: nat
    const notifyOnFailure: bool

    function View(): State
      reads this
    {
      State(hasError, lastResults, notices)
    }

    constructor (notifyOnFailure: bool)
      ensures View() == State(false, [], 0) && this.notifyOnFailure == notifyOnFailure
    {
      hasError, lastResults, notices := false, [], 0;
      this.notifyOnFailure := notifyOnFailure;
    }

    method Remember(r: Result)
      modifies this`lastResults
      ensures lastResults == Record(old(lastResults), r)
    {
      lastResults := [r] + lastResults;
      if |lastResults| > MAX_LAST_RESULT_ITEMS - 1 {
        lastResults := lastResults[..MAX_LAST_RESULT_ITEMS - 1] + lastResults[MAX_LAST_RESULT_ITEMS..];
      }
    }

    method HandleFeedSuccess(at: int)
      modifies this
      ensures View() == Apply(old(View()), Success(at), notifyOnFailure)
    {
      hasError := false;
      Remember(Result(true, at));
    }

    /** Returns false if sending the notice threw: it is sent only if none stands already. */
    method HandleFeedError(at: int, shouldErrorBeSilent: bool, sends: bool) returns (ok: bool)
      modifies this
      ensures View() == Apply(old(View()), Failure(at, shouldErrorBeSilent, sends), notifyOnFailure)
      ensures ok <==> sends || !notifyOnFailure || old(hasError)
    {
      Remember(Result(false, at));
      var wasLastResultSuccessful := |lastResults| == 0 || lastResults[0].ok;
      if wasLastResultSuccessful && shouldErrorBeSilent {
        return true;
      }
      if !notifyOnFailure {
        return true;
      }
      if !hasError {
        if !sends {
          return false;
        }
        notices := notices + 1;
        hasError := true;
      }
      return true;
    }
  }

  // ---------------------------------------------------------------- runs

  function Exec(run: seq<Event>, notifyOnFailure: bool): State {
    if run == [] then State(false, [], 0)
    else Apply(Exec(run[..|run| - 1], notifyOnFailure), run[|run| - 1], notifyOnFailure)
  }

  /** How many streaks of failures the run has: failures right after a success or at the start. */
  function Streaks(run: seq<Event>): nat {
    if run == [] then 0
    else
      var n := |run| - 1;
      Streaks(run[..n]) + if run[n].Failure? && (n == 0 || run[n - 1].Success?) then 1 else 0
  }

  /** Has the streak the run ends with, if any, a failure whose notice can be sent? */
  predicate Heard(run: seq<Event>) {
    run != [] && run[|run| - 1].Failure? && (run[|run| - 1].sends || Heard(run[..|run| - 1]))
  }

  /** How many streaks have such a failure. */
  function HeardStreaks(run: seq<Event>): nat {
    if run == [] then 0
    else
      var n := |run| - 1;
      HeardStreaks(run[..n]) + if Heard(run) && !Heard(run[..n]) then 1 else 0
  }

  /** On every run there is one notice for each streak that could be heard, and none at all
      without notifyOnFailure; whether an error could be silent never matters. */
  lemma {:induction false} OneNoticePerStreak(run: seq<Event>, notifyOnFailure: bool)
    ensures var s := Exec(run, notifyOnFailure);
            && s.notices == (if notifyOnFailure then HeardStreaks(run) else 0)
            && s.hasError == (notifyOnFailure && Heard(run))
  {
    if run != [] {
      OneNoticePerStreak(run[..|run| - 1], notifyOnFailure);
    }
  }

  /** If every notice can be sent, every streak is heard. */
  lemma {:induction false} AllStreaksHeard(run: seq<Event>)
    requires forall i :: 0 <= i < |run| && run[i].Failure? ==> run[i].sends
    ensures HeardStreaks(run) == Streaks(run)
    ensures Heard(run) <==> run != [] && run[|run| - 1].Failure?
  {
    if run != [] {
      AllStreaksHeard(run[..|run| - 1]);
    }
  }

  /** With notices on and sends succeeding, notices equal streaks of failures. */
  lemma {:induction false} NoticesAreStreaks(run: seq<Event>)
    requires forall i :: 0 <= i < |run| && run[i].Failure? ==> run[i].sends
    ensures Exec(run, true).notices == Streaks(run)
  {
    OneNoticePerStreak(run, true);
    AllStreaksHeard(run);
  }

  /** The silence meant for a first temporary error, one after a success or at the start, does
      not happen: it goes unannounced only if notices are off or the notice cannot be sent. */
  lemma SilentErrorStaysSilentIff(run: seq<Event>, at: int, sends: bool, notifyOnFailure: bool)
    requires run != [] ==> run[|run| - 1].Success?
    ensures var next := Exec(run + [Failure(at, true, sends)], notifyOnFailure);
            next.notices == Exec(run, notifyOnFailure).notices <==> !notifyOnFailure || !sends
  {
    assert (run + [Failure(at, true, sends)])[..|run|] == run;
    OneNoticePerStreak(run, notifyOnFailure);
  }

  lemma FirstSilentErrorIsAnnounced(at: int)
    ensures Exec([Failure(at, true, true)], true).notices == 1
  {
    SilentErrorStaysSilentIff([], at, true, true);
    OneNoticePerStreak([Failure(at, true, true)], true);
  }

  /** The newest outcomes of the run, newest first. */
  function Newest(run: seq<Event>, n: nat): seq<Result> {
    if n == 0 || run == [] then []
    else [Result(IsOk(run[|run| - 1]), run[|run| - 1].at)] + Newest(run[..|run| - 1], n - 1)
  }

  /** One outcome less is the same list without its oldest entry, if it is full. */
  lemma {:induction false} NewestShorter(run: seq<Event>, n: nat)
    requires n > 0
    ensures |Newest(run, n)| == if |run| < n then |run| else n
    ensures Newest(run, n - 1) == if |run| < n then Newest(run, n) else Newest(run, n)[..n - 1]
  {
    if n > 1 && run != [] {
      NewestShorter(run[..|run| - 1], n - 1);
    }
  }

  /** The history holds the newest four outcomes, or all if there are fewer, newest first. */
  lemma {:induction false} HistoryIsNewestFour(run: seq<Event>, notifyOnFailure: bool)
    ensures Exec(run, notifyOnFailure).lastResults == Newest(run, 4)
  {
    if run != [] {
      HistoryIsNewestFour(run[..|run| - 1], notifyOnFailure);
      NewestShorter(run[..|run| - 1], MAX_LAST_RESULT_ITEMS - 1);
    }
  }
}
