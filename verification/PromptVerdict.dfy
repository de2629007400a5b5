/** What a request for access must be answered, told from the channels' own answers (apps/cli/src/access-prompt.ts). */
module PromptVerdict {
  import opened Options
  import opened AccessPrompt

  // ---------------------------------------------------------------------------
  // The verdict, read off the events
  // ---------------------------------------------------------------------------

  predicate Stopped(es: seq<Event>) {
    AbortRuns in es
  }

  /** What an event decides, if it does. A machine with no terminal decides nothing, and a parked question that is not
    * taken up has run out. */
  function Decision(e: Event): Option<Result> {
    match e
    case InAppSettles(answer) => if answer.None? then None else Some(if answer.value then Approved else Refused)
    case OfferSettles(offered) => if offered.None? then None else Some(if offered.value then Approved else Refused)
    case PromptSettles(result) => if result.NoTty? then None else Some(result)
    case ParkSettles(approved) => Some(if approved then Approved else TimedOut)
    case _ => None
  }

  /** Whether an event is the last word of its channel; the machine's own goes on from an offer nobody took to the prompt,
    * and from a prompt that could not ask to parking the question, unless the race was stopped. */
  predicate LastWord(c: Config, stopped: bool, e: Event) {
    match e
    case InAppSettles(_) => true
    case OfferSettles(offered) => offered.Some? || stopped
    case PromptSettles(result) => !result.NoTty? || !c.canPark || stopped
    case ParkSettles(_) => true
    case LocalThrows => true
    case AbortRuns => false
  }

  /** The first decision. */
  function Decided(es: seq<Event>): Option<Result> {
    if es == [] then None
    else if Decided(es[..|es| - 1]).Some? then Decided(es[..|es| - 1])
    else Decision(es[|es| - 1])
  }

  function LastWords(c: Config, es: seq<Event>): nat {
    if es == [] then 0 else LastWords(c, es[..|es| - 1]) + if LastWord(c, Stopped(es[..|es| - 1]), es[|es| - 1]) then 1 else 0
  }

  function Answered(c: Config, es: seq<Event>): Option<Result> {
    if Decided(es).Some? then Decided(es) else if LastWords(c, es) == 2 then Some(NoTty) else None
  }

  predicate Agrees(c: Config, es: seq<Event>, s: State) {
    && FirstDecision(s.log) == Decided(es) && Ends(s.log) == LastWords(c, es) && (s.aborted <==> Stopped(es))
  }

  lemma {:induction false} LastEnabled(c: Config, s: State, es: seq<Event>)
    requires AllEnabled(c, s, es) && es != []
    ensures AllEnabled(c, s, es[..|es| - 1]) && Enabled(c, Exec(c, s, es[..|es| - 1]), es[|es| - 1])
    ensures Exec(c, s, es) == Step(c, Exec(c, s, es[..|es| - 1]), es[|es| - 1])
    decreases |es|
  {
    hide Step, Enabled;
    if |es| > 1 {
      assert es[..|es| - 1][1..] == es[1..][..|es| - 2];
      LastEnabled(c, Step(c, s, es[0]), es[1..]);
    }
  }

  lemma LogSays(log: seq<Entry>, e: Entry)
    ensures FirstDecision(log + [e]) == if FirstDecision(log).Some? then FirstDecision(log) else Decides(e)
    ensures Ends(log + [e]) == Ends(log) + if IsEnd(e) then 1 else 0
  {
    assert (log + [e])[..|log|] == log;
  }

  /** An answer adds at most the resolution, which decides nothing and ends nothing. */
  lemma AnswerIsQuiet(s: State, result: Result)
    ensures var t := Answer(s, result);
            FirstDecision(t.log) == FirstDecision(s.log) && Ends(t.log) == Ends(s.log) && t.aborted == s.aborted
  {
    LogSays(s.log, Resolved(result));
    hide FirstDecision, Ends;
  }

  lemma AbstainIsQuiet(s: State)
    ensures var t := Abstain(s);
            FirstDecision(t.log) == FirstDecision(s.log) && Ends(t.log) == Ends(s.log) && t.aborted == s.aborted
  {
    AnswerIsQuiet(s.(open := s.open - 1), if s.held.Some? then s.held.value else NoTty);
    hide FirstDecision, Ends, Answer;
  }

  lemma LocalSays(s: State, outcome: Option<Result>)
    ensures var t := LocalSettled(s, outcome);
            var d := if outcome.Some? && !outcome.value.NoTty? then outcome else None;
            && FirstDecision(t.log) == (if FirstDecision(s.log).Some? then FirstDecision(s.log) else d)
            && Ends(t.log) == Ends(s.log) + 1 && t.aborted == s.aborted
  {
    var u := Note(s.(local := Done), LocalSaid(outcome));
    LogSays(s.log, LocalSaid(outcome));
    AbstainIsQuiet(u);
    if outcome.Some? {
      AnswerIsQuiet(u, outcome.value);
      AbstainIsQuiet(u.(held := outcome));
    }
    hide FirstDecision, Ends, Answer, Abstain;
  }

  lemma StepSays(c: Config, s: State, e: Event)
    requires Enabled(c, s, e)
    ensures var t := Step(c, s, e);
            && FirstDecision(t.log) == (if FirstDecision(s.log).Some? then FirstDecision(s.log) else Decision(e))
            && Ends(t.log) == Ends(s.log) + (if LastWord(c, s.aborted, e) then 1 else 0) && (t.aborted <==> s.aborted || e.AbortRuns?)
  {
    hide FirstDecision, Ends, Answer, Abstain, LocalSettled;
    match e
    case InAppSettles(answer) =>
      var u := Note(s.(inAppDone := true), InAppSaid(answer));
      LogSays(s.log, InAppSaid(answer));
      AbstainIsQuiet(u);
      if answer.Some? { AnswerIsQuiet(u, if answer.value then Approved else Refused); }
    case OfferSettles(offered) =>
      var u := Note(s, OfferSaid(offered));
      LogSays(s.log, OfferSaid(offered));
      LogSays(u.log, Prompted);
      LocalSays(u, Some(NoTty));
      if offered.Some? { LocalSays(u, Some(if offered.value then Approved else Refused)); }
    case PromptSettles(result) =>
      var u := Note(s, PromptSaid(result));
      LogSays(s.log, PromptSaid(result));
      LogSays(u.log, ParkedIt);
      LocalSays(u, Some(result));
    case ParkSettles(approved) =>
      LogSays(s.log, ParkSaid(approved));
      LocalSays(Note(s, ParkSaid(approved)), Some(if approved then Approved else TimedOut));
    case LocalThrows => LocalSays(s, None);
    case AbortRuns => LogSays(s.log, Aborted);
  }

  lemma {:induction false} RunsAgree(c: Config, es: seq<Event>)
    requires AllEnabled(c, START, es)
    ensures Agrees(c, es, Exec(c, START, es))
    decreases |es|
  {
    if es != [] {
      LastEnabled(c, START, es);
      RunsAgree(c, es[..|es| - 1]);
      StepSays(c, Exec(c, START, es[..|es| - 1]), es[|es| - 1]);
      assert es == es[..|es| - 1] + [es[|es| - 1]];
      hide Exec, Step, Enabled, AllEnabled, FirstDecision, Ends;
    }
  }

  /** Main result: over every order of settlement the request is answered with the first channel answer that decides it; if
    * none does, with "could not ask", and only once both channels have had their last word; otherwise not yet. */
  lemma AnswerIsTheFirstDecision(c: Config, es: seq<Event>)
    requires AllEnabled(c, START, es)
    ensures Exec(c, START, es).settled == Answered(c, es)
  {
    RunsAgree(c, es);
    NothingSaidYet();
    RunsKeepInv(c, START, es);
    hide Exec, AllEnabled, FirstDecision, Ends, Decided, LastWords, Resolutions, AnyYes, AskedAfterAbort;
  }

  lemma NothingSaidYet()
    ensures Inv(START)
  {
  }

  /** So it is approved only if a person said yes somewhere, before anybody said no. */
  lemma {:induction false} ApprovedOnlyByAYes(es: seq<Event>)
    requires Decided(es) == Some(Approved)
    ensures InAppSettles(Some(true)) in es || OfferSettles(Some(true)) in es || PromptSettles(Approved) in es || ParkSettles(true) in es
  {
    if Decided(es[..|es| - 1]).Some? { ApprovedOnlyByAYes(es[..|es| - 1]); }
    assert forall e | e in es[..|es| - 1] :: e in es;
    assert es[|es| - 1] in es;
  }

  /** The chain's questions: the prompt after an offer nobody took, parking after a prompt that could not ask, and neither
    * once the race was stopped. */
  lemma ChainGoesOn(c: Config, s: State, e: Event)
    requires Enabled(c, s, e)
    ensures var t := Step(c, s, e);
            && (e.OfferSettles? ==> t.local == if e.offered.None? && !s.aborted then AwaitPrompt else Done)
            && (e.PromptSettles? ==> t.local == if e.result.NoTty? && c.canPark && !s.aborted then AwaitPark else Done)
            && (e.ParkSettles? || e.LocalThrows? ==> t.local == Done)
            && (e.InAppSettles? ==> t.inAppDone && t.local == s.local)
  {
  }
}
