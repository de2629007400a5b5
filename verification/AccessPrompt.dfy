/** Asking two channels at once whether a device may come in (apps/cli/src/access-prompt.ts).

  The in-app channel answers or abstains. The machine's own channel is a chain of up to three questions.
  Both run to the end whatever happens; the race takes the first answer that decides.
 */
module AccessPrompt {
  import opened Options

  datatype Result = Approved | Refused | TimedOut | NoTty

  /** A channel of the chain that throws ends the chain with no result. */
  datatype Entry =
    | InAppSaid(answer: Option<bool>)
    | OfferSaid(offered: Option<bool>)
    | Prompted
    | PromptSaid(result: Result)
    | ParkedIt
    | ParkSaid(approved: bool)
    | LocalSaid(outcome: Option<Result>)
    | Resolved(result: Result)
    | Aborted

  datatype Phase = AwaitOffer | AwaitPrompt | AwaitPark | Done

  datatype Config = Config(hasAsk: bool, hasOffer: bool, canPark: bool)

  datatype State = State(settled: Option<Result>, open: int, held: Option<Result>, inAppDone: bool, local: Phase, aborted: bool, log: seq<Entry>)

  const START := State(None, 2, None, false, AwaitOffer, false, [])

  function Note(s: State, e: Entry): State {
    s.(log := s.log + [e])
  }

  function Answer(s: State, result: Result): State {
    if s.settled.Some? then s else Note(s.(settled := Some(result)), Resolved(result))
  }

  function Abstain(s: State): State {
    var t := s.(open := s.open - 1);
    if t.open == 0 && t.settled.None? then Answer(t, if t.held.Some? then t.held.value else NoTty) else t
  }

  function InAppSettled(s: State, answer: Option<bool>): State {
    var t := Note(s.(inAppDone := true), InAppSaid(answer));
    match answer
    case Some(yes) => Answer(t, if yes then Approved else Refused)
    case None => Abstain(t)
  }

  /** The chain is over: with a result, or by throwing. */
  function LocalSettled(s: State, outcome: Option<Result>): State {
    var t := Note(s.(local := Done), LocalSaid(outcome));
    match outcome
    case None => Abstain(t)
    case Some(result) => if result != NoTty then Answer(t, result) else Abstain(t.(held := Some(result)))
  }

  function OfferSettled(s: State, offered: Option<bool>): State {
    var t := Note(s, OfferSaid(offered));
    match offered
    case Some(yes) => LocalSettled(t, Some(if yes then Approved else Refused))
    case None => if t.aborted then LocalSettled(t, Some(NoTty)) else Note(t.(local := AwaitPrompt), Prompted)
  }

  function PromptSettled(c: Config, s: State, result: Result): State {
    var t := Note(s, PromptSaid(result));
    if result != NoTty || !c.canPark || t.aborted then LocalSettled(t, Some(result)) else Note(t.(local := AwaitPark), ParkedIt)
  }

  function ParkSettled(s: State, approved: bool): State {
    LocalSettled(Note(s, ParkSaid(approved)), Some(if approved then Approved else TimedOut))
  }

  datatype Event =
    | InAppSettles(answer: Option<bool>)
    | OfferSettles(offered: Option<bool>)
    | PromptSettles(result: Result)
    | ParkSettles(approved: bool)
    | LocalThrows
    | AbortRuns

  predicate Enabled(c: Config, s: State, e: Event) {
    match e
    case InAppSettles(answer) => !s.inAppDone && (c.hasAsk || answer.None?)
    case OfferSettles(offered) => s.local.AwaitOffer? && (c.hasOffer || offered.None?)
    case PromptSettles(_) => s.local.AwaitPrompt?
    case ParkSettles(_) => s.local.AwaitPark?
    case LocalThrows => !s.local.Done?
    case AbortRuns => s.settled.Some? && !s.aborted
  }

  function Step(c: Config, s: State, e: Event): State
    requires Enabled(c, s, e)
  {
    match e
    case InAppSettles(answer) => InAppSettled(s, answer)
    case OfferSettles(offered) => OfferSettled(s, offered)
    case PromptSettles(result) => PromptSettled(c, s, result)
    case ParkSettles(approved) => ParkSettled(s, approved)
    case LocalThrows => LocalSettled(s, None)
    case AbortRuns => Note(s.(aborted := true), Aborted)
  }

  // ---------------------------------------------------------------------------
  // What the answer should be, read off the log
  // ---------------------------------------------------------------------------

  /** The answer an entry gives, if it decides. "Could not ask" decides nothing. */
  function Decides(e: Entry): Option<Result> {
    match e
    case InAppSaid(Some(yes)) => Some(if yes then Approved else Refused)
    case LocalSaid(Some(result)) => if result == NoTty then None else Some(result)
    case _ => None
  }

  function FirstDecision(log: seq<Entry>): Option<Result> {
    if log == [] then None
    else
      var before := FirstDecision(log[..|log| - 1]);
      if before.Some? then before else Decides(log[|log| - 1])
  }

  predicate IsEnd(e: Entry) {
    e.InAppSaid? || e.LocalSaid?
  }

  /** How many channels have settled. */
  function Ends(log: seq<Entry>): nat {
    if log == [] then 0 else Ends(log[..|log| - 1]) + if IsEnd(log[|log| - 1]) then 1 else 0
  }

  function Resolutions(log: seq<Entry>): nat {
    if log == [] then 0 else Resolutions(log[..|log| - 1]) + if log[|log| - 1].Resolved? then 1 else 0
  }

  function Verdict(log: seq<Entry>): Option<Result> {
    if FirstDecision(log).Some? then FirstDecision(log) else if Ends(log) == 2 then Some(NoTty) else None
  }

  /** Somebody said yes. */
  predicate SaidYes(e: Entry) {
    e == InAppSaid(Some(true)) || e == OfferSaid(Some(true)) || e == PromptSaid(Approved) || e == ParkSaid(true)
  }

  predicate AnyYes(log: seq<Entry>) {
    exists i | 0 <= i < |log| :: SaidYes(log[i])
  }

  /** A question was put after the losing channel was told to stop. */
  predicate AskedAfterAbort(log: seq<Entry>) {
    exists i, j | 0 <= i < j < |log| :: log[i].Aborted? && (log[j].Prompted? || log[j].ParkedIt?)
  }

  predicate Inv(s: State) {
    && s.settled == Verdict(s.log)
    && Ends(s.log) == (if s.inAppDone then 1 else 0) + (if s.local.Done? then 1 else 0)
    && (s.settled.None? ==> s.open == 2 - Ends(s.log))
    && (s.held.Some? ==> s.held == Some(NoTty))
    && Resolutions(s.log) == (if s.settled.Some? then 1 else 0)
    && (FirstDecision(s.log) == Some(Approved) ==> AnyYes(s.log))
    && (s.aborted <==> Aborted in s.log)
    && !AskedAfterAbort(s.log)
  }

  lemma Grows(log: seq<Entry>, e: Entry)
    ensures FirstDecision(log + [e]) == if FirstDecision(log).Some? then FirstDecision(log) else Decides(e)
    ensures Ends(log + [e]) == Ends(log) + if IsEnd(e) then 1 else 0
    ensures Resolutions(log + [e]) == Resolutions(log) + if e.Resolved? then 1 else 0
    ensures Aborted in log + [e] <==> Aborted in log || e == Aborted
  {
    assert (log + [e])[..|log + [e]| - 1] == log;
  }

  lemma YesGrows(log: seq<Entry>, e: Entry)
    ensures AnyYes(log + [e]) <==> AnyYes(log) || SaidYes(e)
  {
    var more := log + [e];
    assert more[|log|] == e;
    if AnyYes(log) {
      var i :| 0 <= i < |log| && SaidYes(log[i]);
      assert more[i] == log[i];
    }
  }

  lemma AskingGrows(log: seq<Entry>, e: Entry)
    requires !AskedAfterAbort(log) && (e.Prompted? || e.ParkedIt? ==> Aborted !in log)
    ensures !AskedAfterAbort(log + [e])
  {
    var more := log + [e];
    forall i, j | 0 <= i < j < |more| && more[i].Aborted? ensures !(more[j].Prompted? || more[j].ParkedIt?) {
      assert more[i] == log[i];
      assert log[i] in log;
      if j < |log| { assert more[j] == log[j]; }
    }
  }

  /** A note that neither decides, ends, resolves nor aborts. */
  lemma AsideKeepsInv(s: State, e: Entry, local: Phase)
    requires Inv(s) && !IsEnd(e) && !e.Resolved? && !e.Aborted? && (e.Prompted? || e.ParkedIt? ==> !s.aborted)
    requires !s.local.Done? && !local.Done?
    ensures Inv(Note(s.(local := local), e)) && (SaidYes(e) ==> AnyYes(Note(s, e).log))
  {
    hide FirstDecision, Ends, Resolutions, AnyYes, AskedAfterAbort, SaidYes;
    assert Decides(e).None? && (s.aborted <==> Aborted in s.log);
    Grows(s.log, e);
    YesGrows(s.log, e);
    AskingGrows(s.log, e);
  }

  /** Between a channel's entry and its effect: one more end than the counter has seen, and a decision perhaps not yet taken. */
  predicate Ended(s: State, e: Entry) {
    && s.log != [] && s.log[|s.log| - 1] == e && IsEnd(e)
    && var log := s.log[..|s.log| - 1];
    && s.settled == Verdict(log)
    && Ends(s.log) == (if s.inAppDone then 1 else 0) + (if s.local.Done? then 1 else 0)
    && (s.settled.None? ==> s.open == 2 - Ends(log))
    && (s.held.Some? ==> s.held == Some(NoTty))
    && Resolutions(s.log) == (if s.settled.Some? then 1 else 0)
    && (FirstDecision(s.log) == Some(Approved) ==> AnyYes(s.log))
    && (s.aborted <==> Aborted in s.log)
    && !AskedAfterAbort(s.log)
  }

  lemma EndHolds(s: State, e: Entry, t: State)
    requires Inv(s) && IsEnd(e) && t == Note(s.(inAppDone := t.inAppDone, local := t.local), e)
    requires e.InAppSaid? ==> !s.inAppDone && t.inAppDone && t.local == s.local
    requires e.LocalSaid? ==> !s.local.Done? && t.local.Done? && t.inAppDone == s.inAppDone
    requires Decides(e) == Some(Approved) ==> AnyYes(s.log) || SaidYes(e)
    ensures Ended(t, e)
  {
    Grows(s.log, e);
    YesGrows(s.log, e);
    AskingGrows(s.log, e);
    assert t.log[..|t.log| - 1] == s.log;
    hide FirstDecision, Ends, Resolutions, AnyYes, AskedAfterAbort;
  }

  lemma AnswerKeepsInv(s: State, e: Entry)
    requires Ended(s, e) && Decides(e).Some?
    ensures Inv(Answer(s, Decides(e).value))
  {
    hide FirstDecision, Ends, Resolutions, AnyYes, AskedAfterAbort, SaidYes;
    assert Decides(Resolved(Decides(e).value)).None?;
    var log := s.log[..|s.log| - 1];
    assert log + [e] == s.log;
    Grows(log, e);
    Grows(s.log, Resolved(Decides(e).value));
    YesGrows(s.log, Resolved(Decides(e).value));
    AskingGrows(s.log, Resolved(Decides(e).value));
    hide FirstDecision, Ends, Resolutions, AnyYes, AskedAfterAbort;
  }

  lemma AbstainKeepsInv(s: State, e: Entry)
    requires Ended(s, e) && Decides(e).None?
    ensures Inv(Abstain(s))
  {
    hide FirstDecision, Ends, Resolutions, AnyYes, AskedAfterAbort, SaidYes;
    assert Decides(Resolved(NoTty)).None?;
    var log := s.log[..|s.log| - 1];
    assert log + [e] == s.log;
    Grows(log, e);
    Grows(s.log, Resolved(NoTty));
    YesGrows(s.log, Resolved(NoTty));
    AskingGrows(s.log, Resolved(NoTty));
    hide FirstDecision, Ends, Resolutions, AnyYes, AskedAfterAbort;
  }

  lemma LocalSettledKeepsInv(s: State, outcome: Option<Result>)
    requires Inv(s) && !s.local.Done? && (outcome == Some(Approved) ==> AnyYes(s.log))
    ensures Inv(LocalSettled(s, outcome))
  {
    var e := LocalSaid(outcome);
    var t := Note(s.(local := Done), e);
    EndHolds(s, e, t);
    assert outcome == Some(NoTty) ==> Ended(t.(held := Some(NoTty)), e);
    hide Inv, Ended, AnyYes, Answer, Abstain;
    if Decides(e).Some? { AnswerKeepsInv(t, e); } else { AbstainKeepsInv(if outcome.Some? then t.(held := outcome) else t, e); }
  }

  lemma OfferKeepsInv(s: State, offered: Option<bool>)
    requires Inv(s) && s.local.AwaitOffer?
    ensures Inv(OfferSettled(s, offered))
  {
    hide LocalSettled, Inv, AnyYes;
    AsideKeepsInv(s, OfferSaid(offered), s.local);
    var t := Note(s, OfferSaid(offered));
    if offered.Some? { LocalSettledKeepsInv(t, Some(if offered.value then Approved else Refused)); }
    else if t.aborted { LocalSettledKeepsInv(t, Some(NoTty)); }
    else { AsideKeepsInv(t, Prompted, AwaitPrompt); }
  }

  lemma PromptKeepsInv(c: Config, s: State, result: Result)
    requires Inv(s) && s.local.AwaitPrompt?
    ensures Inv(PromptSettled(c, s, result))
  {
    hide LocalSettled, Inv, AnyYes;
    AsideKeepsInv(s, PromptSaid(result), s.local);
    var t := Note(s, PromptSaid(result));
    if result != NoTty || !c.canPark || t.aborted { LocalSettledKeepsInv(t, Some(result)); } else { AsideKeepsInv(t, ParkedIt, AwaitPark); }
  }

  lemma ParkKeepsInv(s: State, approved: bool)
    requires Inv(s) && s.local.AwaitPark?
    ensures Inv(ParkSettled(s, approved))
  {
    hide LocalSettled, Inv, AnyYes;
    AsideKeepsInv(s, ParkSaid(approved), s.local);
    LocalSettledKeepsInv(Note(s, ParkSaid(approved)), Some(if approved then Approved else TimedOut));
  }

  lemma AbortKeepsInv(s: State)
    requires Inv(s)
    ensures Inv(Note(s.(aborted := true), Aborted))
  {
    hide FirstDecision, Ends, Resolutions, AnyYes, AskedAfterAbort, SaidYes;
    assert Decides(Aborted).None?;
    Grows(s.log, Aborted);
    YesGrows(s.log, Aborted);
    AskingGrows(s.log, Aborted);
  }

  lemma StepKeepsInv(c: Config, s: State, e: Event)
    requires Inv(s) && Enabled(c, s, e)
    ensures Inv(Step(c, s, e))
  {
    hide Inv, InAppSettled, OfferSettled, PromptSettled, ParkSettled, LocalSettled, Note;
    match e
    case InAppSettles(answer) => InAppKeepsInv(s, answer);
    case OfferSettles(offered) => OfferKeepsInv(s, offered);
    case PromptSettles(result) => PromptKeepsInv(c, s, result);
    case ParkSettles(approved) => ParkKeepsInv(s, approved);
    case LocalThrows => LocalSettledKeepsInv(s, None);
    case AbortRuns => AbortKeepsInv(s);
  }

  lemma InAppKeepsInv(s: State, answer: Option<bool>)
    requires Inv(s) && !s.inAppDone
    ensures Inv(InAppSettled(s, answer))
  {
    hide Inv, Ended, Answer, Abstain, AnyYes;
    var e := InAppSaid(answer);
    var t := Note(s.(inAppDone := true), e);
    EndHolds(s, e, t);
    if answer.Some? { AnswerKeepsInv(t, e); } else { AbstainKeepsInv(t, e); }
  }

  predicate AllEnabled(c: Config, s: State, es: seq<Event>)
    decreases |es|
  {
    es == [] || (Enabled(c, s, es[0]) && AllEnabled(c, Step(c, s, es[0]), es[1..]))
  }

  function Exec(c: Config, s: State, es: seq<Event>): State
    requires AllEnabled(c, s, es)
    decreases |es|
  {
    if es == [] then s else Exec(c, Step(c, s, es[0]), es[1..])
  }

  lemma {:induction false} RunsKeepInv(c: Config, s: State, es: seq<Event>)
    requires Inv(s) && AllEnabled(c, s, es)
    ensures Inv(Exec(c, s, es))
    decreases |es|
  {
    hide Inv, Step, Enabled;
    if es != [] {
      StepKeepsInv(c, s, es[0]);
      RunsKeepInv(c, Step(c, s, es[0]), es[1..]);
    }
  }

  /** Main result: for every order in which the channels settle, the request is resolved at most once, with the
    * first answer that decided, or with "could not ask" exactly when both settled and neither decided; it is
    * always resolved by then. It is approved only if somebody said yes, and once the loser was told to stop,
    * nobody is asked anything more. */
  lemma FirstDecisionWins(c: Config, es: seq<Event>)
    requires AllEnabled(c, START, es)
    ensures var s := Exec(c, START, es);
            && s.settled == Verdict(s.log) && Resolutions(s.log) <= 1
            && (s.settled == Some(NoTty) <==> FirstDecision(s.log).None? && Ends(s.log) == 2)
            && (s.inAppDone && s.local.Done? ==> s.settled.Some?)
            && (s.settled == Some(Approved) ==> AnyYes(s.log))
            && !AskedAfterAbort(s.log)
  {
    assert Inv(START);
    RunsKeepInv(c, START, es);
    hide Exec;
    NoTtyNeverDecides(Exec(c, START, es).log);
  }

  lemma {:induction false} NoTtyNeverDecides(log: seq<Entry>)
    ensures FirstDecision(log) != Some(NoTty)
  {
    if log != [] { NoTtyNeverDecides(log[..|log| - 1]); }
  }

  /** The race as it is written: one closure's three variables. */
  class Race {
    const config: Config
    var settled: Option<Result>
    var open: int
    var held: Option<Result>
    var inAppDone: bool
    var local: Phase
    var aborted: bool
    var log: seq<Entry>

    ghost function View(): State
      reads this
    {
      State(settled, open, held, inAppDone, local, aborted, log)
    }

    constructor (config: Config)
      ensures this.config == config && View() == START
    {
      this.config := config;
      settled, open, held, inAppDone, local, aborted, log := None, 2, None, false, AwaitOffer, false, [];
    }

    method Resolve(result: Result)
      modifies this
      ensures View() == Answer(old(View()), result)
    {
      if settled.Some? { return; }
      settled := Some(result);
      log := log + [Resolved(result)];
    }

    method Pass()
      modifies this
      ensures View() == Abstain(old(View()))
    {
      open := open - 1;
      if open == 0 && settled.None? { Resolve(if held.Some? then held.value else NoTty); }
    }

    method OnInApp(answer: Option<bool>)
      modifies this
      ensures View() == InAppSettled(old(View()), answer)
    {
      inAppDone, log := true, log + [InAppSaid(answer)];
      if answer == Some(true) { Resolve(Approved); }
      else if answer == Some(false) { Resolve(Refused); }
      else { Pass(); }
    }

    method OnLocal(outcome: Option<Result>)
      modifies this
      ensures View() == LocalSettled(old(View()), outcome)
    {
      local, log := Done, log + [LocalSaid(outcome)];
      if outcome.None? { Pass(); }
      else if outcome.value != NoTty { Resolve(outcome.value); }
      else {
        held := outcome;
        Pass();
      }
    }

    method OnOffer(offered: Option<bool>)
      modifies this
      ensures View() == OfferSettled(old(View()), offered)
    {
      hide LocalSettled;
      log := log + [OfferSaid(offered)];
      if offered.Some? { OnLocal(Some(if offered.value then Approved else Refused)); return; }
      if aborted { OnLocal(Some(NoTty)); return; }
      local, log := AwaitPrompt, log + [Prompted];
    }

    method OnPrompt(result: Result)
      modifies this
      ensures View() == PromptSettled(config, old(View()), result)
    {
      hide LocalSettled;
      log := log + [PromptSaid(result)];
      if result != NoTty { OnLocal(Some(result)); return; }
      if !config.canPark || aborted { OnLocal(Some(result)); return; }
      local, log := AwaitPark, log + [ParkedIt];
    }

    method OnPark(approved: bool)
      modifies this
      ensures View() == ParkSettled(old(View()), approved)
    {
      hide LocalSettled;
      log := log + [ParkSaid(approved)];
      OnLocal(Some(if approved then Approved else TimedOut));
    }
  }
}
