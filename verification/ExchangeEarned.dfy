/** What an exchange's callbacks must do: whom it may pair with, told from the events alone. */
module ExchangeEarned {
  import opened Options
  import opened Exchange

  // ---------------------------------------------------------------------------
  // One callback at a time
  // ---------------------------------------------------------------------------

  lemma RuleOutLog(c: Config, s: State, peer: PeerId)
    ensures var t := RuleOut(c, s, peer);
            && t.attempts == s.attempts - {peer} && t.tasks == s.tasks && t.nextTask == s.nextTask
            && (t.log == s.log || t.log == s.log + [Settled(NoMatch)])
            && (t.settled == s.settled || t.settled == Some(NoMatch))
  {
  }

  /** A tag decides: a good one is remembered and awaits the gate or the seal, a bad one costs the peer its attempt. */
  lemma TagDecides(c: Config, s: State, peer: PeerId, tag: Tag)
    requires peer in s.attempts
    ensures var attempt := s.attempts[peer];
            var t := Step(c, s, PeerConfirm(peer, tag));
            if c.verifies(attempt.keys, tag) then
              t == s.(log := s.log + [Verified(peer, attempt.keys)] + (if c.side.ClaimSide? then [SentConfirm(peer, attempt.keys)] else []),
                      tasks := s.tasks[s.nextTask := if c.gated then AwaitAdmit(peer, attempt) else AwaitSeal(peer, attempt)],
                      nextTask := s.nextTask + 1)
            else
              && t.attempts == s.attempts - {peer} && t.tasks == s.tasks
              && (t.log == s.log + [SentClose(peer, "confirmation failed")]
                  || t.log == s.log + [SentClose(peer, "confirmation failed"), Settled(NoMatch)])
  {
    hide RuleOut;
    RuleOutLog(c, Note(s, SentClose(peer, "confirmation failed")), peer);
    assert [SentClose(peer, "confirmation failed")] + [Settled(NoMatch)] == [SentClose(peer, "confirmation failed"), Settled(NoMatch)];
    assert s.log + [SentClose(peer, "confirmation failed")] + [Settled(NoMatch)]
        == s.log + ([SentClose(peer, "confirmation failed")] + [Settled(NoMatch)]);
  }

  /** A share from a new peer becomes an attempt under the keys derived for it, answered at once by the mailbox side only. */
  lemma ShareBecomesAttempt(c: Config, s: State, peer: PeerId, attempt: Attempt)
    requires peer !in s.attempts && (c.maxPeers.Some? ==> s.seen < c.maxPeers.value)
    ensures var t := Step(c, s, PeerShare(peer, Kept(attempt)));
            && t.attempts == s.attempts[peer := attempt] && t.settled == s.settled && t.tasks == s.tasks && !t.grace
            && t.log == s.log + [Derives(peer)]
                 + if c.side.MailboxSide? then [SentShare(peer, attempt.ownShare), SentConfirm(peer, attempt.keys)] else []
  {
  }

  /** A share over the cap ends the run; one that cannot be used is closed; one from a peer being tried is ignored. */
  lemma ShareRefused(c: Config, s: State, peer: PeerId, derived: Derived)
    requires s.settled.None?
    ensures var t := Step(c, s, PeerShare(peer, derived));
            && (peer in s.attempts ==> t == s)
            && (peer !in s.attempts && c.maxPeers.Some? && s.seen >= c.maxPeers.value ==>
                  t.settled == Some(TooManyPeers) && t.log == s.log + [Settled(TooManyPeers)] && t.attempts == s.attempts)
            && (peer !in s.attempts && (c.maxPeers.Some? ==> s.seen < c.maxPeers.value) && derived.Rejected? ==>
                  |t.log| >= |s.log| + 2 && t.log[..|s.log| + 2] == s.log + [Derives(peer), SentClose(peer, derived.reason)]
                  && t.attempts == s.attempts)
  {
    var t := Step(c, s, PeerShare(peer, derived));
    if peer !in s.attempts && (c.maxPeers.Some? ==> s.seen < c.maxPeers.value) && derived.Rejected? {
      assert s.attempts - {peer} == s.attempts;
    }
  }

  /** What ends an open run, and how. */
  function EndOf(e: Event): Option<Ending> {
    match e
    case PeerFailed(about, reason) => if about.None? then Some(BrokerFailed(reason)) else None
    case SocketClosed => Some(Lost)
    case TimerFires => Some(TimedOut)
    case GraceFires => Some(NoMatch)
    case Abort => Some(Aborted)
    case SealSettles(_, sealed) => if sealed then None else Some(SealFailed)
    case _ => None
  }

  lemma EndingsEnd(c: Config, s: State, e: Event)
    requires Enabled(s, e) && s.settled.None? && EndOf(e).Some?
    ensures Step(c, s, e).settled == EndOf(e) && Step(c, s, e).log == s.log + [Settled(EndOf(e).value)]
  {
  }

  /** The broker says a peer failed: its attempt goes, and with nobody left the run ends at the cap and waits otherwise. */
  lemma FailureRulesOut(c: Config, s: State, peer: PeerId, reason: string)
    requires s.settled.None? && Balanced(s) && peer in s.attempts
    ensures var t := Step(c, s, PeerFailed(Some(peer), reason));
            && t.attempts == s.attempts - {peer} && Balanced(t)
            && (t.settled.Some? <==> s.attempts == map[peer := s.attempts[peer]] && s.seen > 0 && c.maxPeers.Some? && s.seen >= c.maxPeers.value)
            && (t.settled.Some? ==> t.settled == Some(NoMatch))
            && (t.grace <==> s.grace || (s.attempts == map[peer := s.attempts[peer]] && s.seen > 0 && t.settled.None?))
  {
    DeleteCounts(s.attempts, peer);
    assert |s.attempts - {peer}| == 0 <==> s.attempts == map[peer := s.attempts[peer]] by {
      if |s.attempts - {peer}| == 0 {
        assert s.attempts - {peer} == map[];
        assert forall p | p in s.attempts :: p == peer || p in s.attempts - {peer};
      } else {
        assert s.attempts == map[peer := s.attempts[peer]] ==> s.attempts - {peer} == map[];
      }
    }
  }

  /** The machine's answer: a yes goes on to the seal, a no costs the peer its attempt, and neither matters once settled. */
  lemma GateDecides(c: Config, s: State, task: nat, allowed: bool)
    requires task in s.tasks && s.tasks[task].AwaitAdmit?
    ensures var w := s.tasks[task];
            var t := Step(c, s, AdmitSettles(task, allowed));
            && (s.settled.Some? ==> t == s.(tasks := s.tasks - {task}))
            && (s.settled.None? && allowed ==>
                  t == s.(tasks := s.tasks[task := AwaitSeal(w.peer, w.attempt)], log := s.log + [Admitted(w.peer, w.attempt.keys)]))
            && (s.settled.None? && !allowed ==>
                  && t.attempts == s.attempts - {w.peer} && t.tasks == s.tasks - {task}
                  && s.log + [SentClose(w.peer, "refused at the machine")] <= t.log
                  && (t.settled.Some? ==> t.settled == Some(NoMatch)))
  {
    assert (s.tasks - {task})[task := AwaitSeal(s.tasks[task].peer, s.tasks[task].attempt)]
        == s.tasks[task := AwaitSeal(s.tasks[task].peer, s.tasks[task].attempt)];
  }

  /** A sealed descriptor goes out and settles an open run on that peer's keys and name. */
  lemma SealPairs(c: Config, s: State, task: nat)
    requires s.settled.None? && task in s.tasks && s.tasks[task].AwaitSeal?
    ensures var w := s.tasks[task];
            var ending := Paired(w.attempt.keys, if w.attempt.peerAd == "" then "browser" else w.attempt.peerAd);
            var t := Step(c, s, SealSettles(task, true));
            t.settled == Some(ending) && t.log == s.log + [SentEstablish(w.peer, w.attempt.keys), Settled(ending)]
  {
  }

  /** Main result: an open run does pair with a live peer whose tag verifies, once the gate says yes and the
    * descriptor is sealed. */
  lemma GoodTagPairs(c: Config, s: State, peer: PeerId, tag: Tag)
    requires s.settled.None? && peer in s.attempts && c.verifies(s.attempts[peer].keys, tag)
    ensures var n := s.nextTask;
            var es := [PeerConfirm(peer, tag)] + (if c.gated then [AdmitSettles(n, true)] else []) + [SealSettles(n, true)];
            && AllEnabled(c, s, es)
            && var t := Exec(c, s, es);
               t.settled.Some? && t.settled.value.Paired? && t.settled.value.keys == s.attempts[peer].keys
               && SentEstablish(peer, s.attempts[peer].keys) in t.log
  {
    var n := s.nextTask;
    var s1 := Step(c, s, PeerConfirm(peer, tag));
    TagDecides(c, s, peer, tag);
    var s2 := if c.gated then Step(c, s1, AdmitSettles(n, true)) else s1;
    if c.gated { GateDecides(c, s1, n, true); }
    assert s2.settled.None? && n in s2.tasks && s2.tasks[n] == AwaitSeal(peer, s.attempts[peer]);
    hide Step;
    var s3 := Step(c, s2, SealSettles(n, true));
    SealPairs(c, s2, n);
    assert s3.log[|s2.log|] == SentEstablish(peer, s.attempts[peer].keys);
    Prepend(c, s2, SealSettles(n, true), []);
    if c.gated {
      Prepend(c, s1, AdmitSettles(n, true), [SealSettles(n, true)]);
      Prepend(c, s, PeerConfirm(peer, tag), [AdmitSettles(n, true), SealSettles(n, true)]);
      assert [PeerConfirm(peer, tag)] + [AdmitSettles(n, true)] + [SealSettles(n, true)]
          == [PeerConfirm(peer, tag)] + ([AdmitSettles(n, true)] + [SealSettles(n, true)]);
      assert [AdmitSettles(n, true), SealSettles(n, true)] == [AdmitSettles(n, true)] + [SealSettles(n, true)];
    } else {
      Prepend(c, s, PeerConfirm(peer, tag), [SealSettles(n, true)]);
      assert [PeerConfirm(peer, tag)] + [] + [SealSettles(n, true)] == [PeerConfirm(peer, tag)] + [SealSettles(n, true)];
    }
  }

  // ---------------------------------------------------------------------------
  // Whole runs, told from their events
  // ---------------------------------------------------------------------------

  /** The state before the `i`th event. */
  function Before(c: Config, es: seq<Event>, i: nat): State
    requires AllEnabled(c, START, es) && i <= |es|
  {
    PrefixEnabled(c, START, es, i);
    Exec(c, START, es[..i])
  }

  /** Event `i` carries a tag that verifies under the keys its peer was being tried with, and its handler is task `n`. */
  predicate GoodTag(c: Config, es: seq<Event>, i: nat, peer: PeerId, keys: Keys, n: nat)
    requires AllEnabled(c, START, es)
  {
    && i < |es| && es[i].PeerConfirm? && es[i].peer == peer && c.verifies(keys, es[i].tag)
    && peer in Before(c, es, i).attempts && Before(c, es, i).attempts[peer].keys == keys && Before(c, es, i).nextTask == n
  }

  predicate SaysYes(es: seq<Event>, j: nat, n: nat) {
    j < |es| && es[j] == AdmitSettles(n, true)
  }

  predicate Seals(es: seq<Event>, l: nat, n: nat) {
    l < |es| && es[l] == SealSettles(n, true)
  }

  /** A good tag and, when `asked`, a yes to that very handler after it. */
  ghost predicate Earned(c: Config, es: seq<Event>, peer: PeerId, keys: Keys, n: nat, asked: bool)
    requires AllEnabled(c, START, es)
  {
    exists i: nat :: GoodTag(c, es, i, peer, keys, n) && (asked ==> exists j: nat :: i < j && SaysYes(es, j, n))
  }

  ghost predicate TaskEarned(c: Config, es: seq<Event>, n: nat, t: Task)
    requires AllEnabled(c, START, es)
  {
    Earned(c, es, t.peer, t.attempt.keys, n, t.AwaitSeal? && c.gated)
  }

  /** A good tag, then a yes when there is a gate, then the seal, all of one handler. */
  ghost predicate EstablishEarned(c: Config, es: seq<Event>, peer: PeerId, keys: Keys)
    requires AllEnabled(c, START, es)
  {
    exists i: nat, l: nat, n: nat :: i < l && GoodTag(c, es, i, peer, keys, n) && Seals(es, l, n)
      && (c.gated ==> exists j: nat :: i < j < l && SaysYes(es, j, n))
  }

  ghost predicate Told(c: Config, es: seq<Event>)
    requires AllEnabled(c, START, es)
  {
    var s := Exec(c, START, es);
    && (forall n | n in s.tasks :: TaskEarned(c, es, n, s.tasks[n]))
    && (forall k | 0 <= k < |s.log| && s.log[k].SentEstablish? :: EstablishEarned(c, es, s.log[k].peer, s.log[k].keys))
    && (forall k | 0 <= k < |s.log| && s.log[k].SentConfirm? && c.side.ClaimSide? :: ConfirmEarned(c, es, s.log[k].peer, s.log[k].keys))
  }

  ghost predicate ConfirmEarned(c: Config, es: seq<Event>, peer: PeerId, keys: Keys)
    requires AllEnabled(c, START, es)
  {
    exists i: nat, n: nat :: GoodTag(c, es, i, peer, keys, n)
  }

  lemma {:induction false} ExecSnoc(c: Config, s: State, es: seq<Event>, e: Event)
    requires AllEnabled(c, s, es) && Enabled(Exec(c, s, es), e)
    ensures AllEnabled(c, s, es + [e]) && Exec(c, s, es + [e]) == Step(c, Exec(c, s, es), e)
    decreases |es|
  {
    hide Step, Enabled;
    if es == [] {
      assert es + [e] == [e] && [e][1..] == [];
    } else {
      assert (es + [e])[1..] == es[1..] + [e];
      ExecSnoc(c, Step(c, s, es[0]), es[1..], e);
    }
  }

  lemma {:induction false} LastEnabled(c: Config, s: State, es: seq<Event>)
    requires AllEnabled(c, s, es) && es != []
    ensures AllEnabled(c, s, es[..|es| - 1]) && Enabled(Exec(c, s, es[..|es| - 1]), es[|es| - 1])
    decreases |es|
  {
    hide Step, Enabled;
    if |es| > 1 {
      assert es[..|es| - 1][1..] == es[1..][..|es| - 2];
      LastEnabled(c, Step(c, s, es[0]), es[1..]);
    }
  }

  /** What was good stays good as the run goes on. */
  lemma GoodTagStays(c: Config, es: seq<Event>, e: Event, i: nat, peer: PeerId, keys: Keys, n: nat)
    requires AllEnabled(c, START, es) && AllEnabled(c, START, es + [e])
    ensures GoodTag(c, es, i, peer, keys, n) ==> GoodTag(c, es + [e], i, peer, keys, n)
  {
    hide Exec, AllEnabled;
    if i < |es| { assert (es + [e])[..i] == es[..i] && (es + [e])[i] == es[i]; }
  }

  lemma EarnedStays(c: Config, es: seq<Event>, e: Event, peer: PeerId, keys: Keys, n: nat, asked: bool)
    requires AllEnabled(c, START, es) && AllEnabled(c, START, es + [e]) && Earned(c, es, peer, keys, n, asked)
    ensures Earned(c, es + [e], peer, keys, n, asked)
  {
    hide GoodTag, AllEnabled;
    var i: nat :| GoodTag(c, es, i, peer, keys, n) && (asked ==> exists j: nat :: i < j && SaysYes(es, j, n));
    GoodTagStays(c, es, e, i, peer, keys, n);
    if asked {
      var j: nat :| i < j && SaysYes(es, j, n);
      assert SaysYes(es + [e], j, n);
    }
  }

  lemma EstablishStays(c: Config, es: seq<Event>, e: Event, peer: PeerId, keys: Keys)
    requires AllEnabled(c, START, es) && AllEnabled(c, START, es + [e]) && EstablishEarned(c, es, peer, keys)
    ensures EstablishEarned(c, es + [e], peer, keys)
  {
    hide GoodTag, AllEnabled;
    var i: nat, l: nat, n: nat :| i < l && GoodTag(c, es, i, peer, keys, n) && Seals(es, l, n)
      && (c.gated ==> exists j: nat :: i < j < l && SaysYes(es, j, n));
    GoodTagStays(c, es, e, i, peer, keys, n);
    assert Seals(es + [e], l, n);
    if c.gated {
      var j: nat :| i < j < l && SaysYes(es, j, n);
      assert SaysYes(es + [e], j, n);
    }
  }

  lemma ConfirmStays(c: Config, es: seq<Event>, e: Event, peer: PeerId, keys: Keys)
    requires AllEnabled(c, START, es) && AllEnabled(c, START, es + [e]) && ConfirmEarned(c, es, peer, keys)
    ensures ConfirmEarned(c, es + [e], peer, keys)
  {
    hide GoodTag, AllEnabled;
    var i: nat, n: nat :| GoodTag(c, es, i, peer, keys, n);
    GoodTagStays(c, es, e, i, peer, keys, n);
  }

  /** How a handler came to wait: a tag that verified, or a yes to one that waited for it. */
  lemma WhereTasksComeFrom(c: Config, s: State, e: Event, n: nat)
    requires Enabled(s, e) && n in Step(c, s, e).tasks
    ensures var t := Step(c, s, e);
            || (n in s.tasks && t.tasks[n] == s.tasks[n])
            || (e.PeerConfirm? && n == s.nextTask && e.peer in s.attempts && c.verifies(s.attempts[e.peer].keys, e.tag)
                && t.tasks[n] == if c.gated then AwaitAdmit(e.peer, s.attempts[e.peer]) else AwaitSeal(e.peer, s.attempts[e.peer]))
            || (e == AdmitSettles(n, true) && n in s.tasks && s.tasks[n].AwaitAdmit? && t.tasks[n] == AwaitSeal(s.tasks[n].peer, s.tasks[n].attempt))
  {
  }

  /** What a step may add to the log of establishes and of a claimant's confirms. */
  predicate EntryFrom(c: Config, s: State, e: Event, x: Entry)
    requires Enabled(s, e)
  {
    && (x.SentEstablish? ==> e.SealSettles? && e.sealed && x == SentEstablish(s.tasks[e.task].peer, s.tasks[e.task].attempt.keys))
    && (x.SentConfirm? && c.side.ClaimSide? ==>
          e.PeerConfirm? && e.peer in s.attempts && c.verifies(s.attempts[e.peer].keys, e.tag) && x == SentConfirm(e.peer, s.attempts[e.peer].keys))
  }

  predicate Adds(c: Config, s: State, e: Event, t: State)
    requires Enabled(s, e)
  {
    s.log <= t.log && forall k | |s.log| <= k < |t.log| :: EntryFrom(c, s, e, t.log[k])
  }

  lemma ShareAdds(c: Config, s: State, peer: PeerId, derived: Derived)
    ensures Adds(c, s, PeerShare(peer, derived), HandlePeerShare(c, s, peer, derived))
  {
    hide RuleOut;
    if derived.Rejected? {
      RuleOutLog(c, Note(Note(s.(grace := false, seen := s.seen + 1, outstanding := s.outstanding + 1), Derives(peer)), SentClose(peer, derived.reason)), peer);
    }
  }

  lemma ConfirmAdds(c: Config, s: State, peer: PeerId, tag: Tag)
    ensures Adds(c, s, PeerConfirm(peer, tag), HandlePeerConfirm(c, s, peer, tag))
  {
    hide RuleOut;
    RuleOutLog(c, Note(s, SentClose(peer, "confirmation failed")), peer);
  }

  lemma AdmitAdds(c: Config, s: State, task: nat, allowed: bool)
    requires task in s.tasks && s.tasks[task].AwaitAdmit?
    ensures Adds(c, s, AdmitSettles(task, allowed), AdmitSettled(c, s, task, allowed))
  {
    hide RuleOut;
    RuleOutLog(c, Note(s.(tasks := s.tasks - {task}), SentClose(s.tasks[task].peer, "refused at the machine")), s.tasks[task].peer);
  }

  lemma StepAdds(c: Config, s: State, e: Event)
    requires Enabled(s, e)
    ensures Adds(c, s, e, Step(c, s, e))
  {
    hide RuleOut, HandlePeerShare, HandlePeerConfirm, AdmitSettled;
    match e
    case PeerShare(peer, derived) => ShareAdds(c, s, peer, derived); hide Adds;
    case PeerConfirm(peer, tag) => ConfirmAdds(c, s, peer, tag); hide Adds;
    case AdmitSettles(task, allowed) => AdmitAdds(c, s, task, allowed); hide Adds;
    case PeerFailed(about, reason) => if about.Some? { RuleOutLog(c, s, about.value); }
    case _ =>
  }

  lemma TasksStayEarned(c: Config, es: seq<Event>, e: Event, n: nat)
    requires AllEnabled(c, START, es) && Told(c, es) && Enabled(Exec(c, START, es), e) && AllEnabled(c, START, es + [e])
    requires Exec(c, START, es + [e]) == Step(c, Exec(c, START, es), e) && n in Exec(c, START, es + [e]).tasks
    ensures TaskEarned(c, es + [e], n, Exec(c, START, es + [e]).tasks[n])
  {
    var s := Exec(c, START, es);
    var t := Exec(c, START, es + [e]);
    hide Step, AllEnabled, Enabled;
    assert n in s.tasks ==> TaskEarned(c, es, n, s.tasks[n]);
    WhereTasksComeFrom(c, s, e, n);
    if n in s.tasks && t.tasks[n] == s.tasks[n] {
      EarnedStays(c, es, e, t.tasks[n].peer, t.tasks[n].attempt.keys, n, t.tasks[n].AwaitSeal? && c.gated);
    } else if e.PeerConfirm? {
      assert (es + [e])[..|es|] == es && (es + [e])[|es|] == e;
      hide Exec, Told;
      assert GoodTag(c, es + [e], |es|, e.peer, s.attempts[e.peer].keys, n);
    } else {
      YesEarns(c, es, e, s.tasks[n].peer, s.tasks[n].attempt.keys, n);
    }
  }

  lemma YesEarns(c: Config, es: seq<Event>, e: Event, peer: PeerId, keys: Keys, n: nat)
    requires AllEnabled(c, START, es) && AllEnabled(c, START, es + [e]) && e == AdmitSettles(n, true) && Earned(c, es, peer, keys, n, false)
    ensures Earned(c, es + [e], peer, keys, n, true)
  {
    var i: nat :| GoodTag(c, es, i, peer, keys, n);
    assert i < |es|;
    hide GoodTag, AllEnabled;
    GoodTagStays(c, es, e, i, peer, keys, n);
    assert SaysYes(es + [e], |es|, n);
  }

  lemma SealEarns(c: Config, es: seq<Event>, e: Event, peer: PeerId, keys: Keys, n: nat)
    requires AllEnabled(c, START, es) && AllEnabled(c, START, es + [e]) && e == SealSettles(n, true) && Earned(c, es, peer, keys, n, c.gated)
    ensures EstablishEarned(c, es + [e], peer, keys)
  {
    var i: nat :| GoodTag(c, es, i, peer, keys, n) && (c.gated ==> exists j: nat :: i < j && SaysYes(es, j, n));
    assert i < |es|;
    hide GoodTag, AllEnabled;
    GoodTagStays(c, es, e, i, peer, keys, n);
    assert Seals(es + [e], |es|, n);
    if c.gated {
      var j: nat :| i < j && SaysYes(es, j, n);
      assert SaysYes(es + [e], j, n) && j < |es|;
    }
  }

  lemma EntriesStayEarned(c: Config, es: seq<Event>, e: Event, k: nat)
    requires AllEnabled(c, START, es) && Told(c, es) && Enabled(Exec(c, START, es), e) && AllEnabled(c, START, es + [e])
    requires Exec(c, START, es + [e]) == Step(c, Exec(c, START, es), e) && k < |Exec(c, START, es + [e]).log|
    ensures var x := Exec(c, START, es + [e]).log[k];
            && (x.SentEstablish? ==> EstablishEarned(c, es + [e], x.peer, x.keys))
            && (x.SentConfirm? && c.side.ClaimSide? ==> ConfirmEarned(c, es + [e], x.peer, x.keys))
  {
    var s := Exec(c, START, es);
    var t := Exec(c, START, es + [e]);
    StepAdds(c, s, e);
    var x := t.log[k];
    assert k >= |s.log| ==> EntryFrom(c, s, e, x);
    if k < |s.log| {
      assert x == s.log[k];
      hide Step, AllEnabled, Enabled, Exec;
      if x.SentEstablish? { EstablishStays(c, es, e, x.peer, x.keys); }
      if x.SentConfirm? && c.side.ClaimSide? { ConfirmStays(c, es, e, x.peer, x.keys); }
    } else if x.SentEstablish? {
      assert TaskEarned(c, es, e.task, s.tasks[e.task]);
      hide Step, AllEnabled, Exec, Told;
      SealEarns(c, es, e, x.peer, x.keys, e.task);
    } else if x.SentConfirm? && c.side.ClaimSide? {
      assert (es + [e])[..|es|] == es && (es + [e])[|es|] == e;
      hide Step, AllEnabled, Enabled, Exec, Told;
      assert GoodTag(c, es + [e], |es|, x.peer, x.keys, s.nextTask);
    }
  }

  lemma {:induction false} RunsAreEarned(c: Config, es: seq<Event>)
    requires AllEnabled(c, START, es)
    ensures Told(c, es)
    decreases |es|
  {
    if es != [] {
      var before, e := es[..|es| - 1], es[|es| - 1];
      LastEnabled(c, START, es);
      RunsAreEarned(c, before);
      ExecSnoc(c, START, before, e);
      assert before + [e] == es;
      hide Exec, Step, AllEnabled, Enabled, TaskEarned, EstablishEarned, ConfirmEarned;
      var s := Exec(c, START, es);
      forall n | n in s.tasks ensures TaskEarned(c, es, n, s.tasks[n]) { TasksStayEarned(c, before, e, n); }
      forall k | 0 <= k < |s.log|
        ensures (s.log[k].SentEstablish? ==> EstablishEarned(c, es, s.log[k].peer, s.log[k].keys))
             && (s.log[k].SentConfirm? && c.side.ClaimSide? ==> ConfirmEarned(c, es, s.log[k].peer, s.log[k].keys))
      {
        EntriesStayEarned(c, before, e, k);
      }
    }
  }

  /** Main result: over every interleaving, an establish is sent to a peer only if that peer's own message carried a
    * tag that verifies under the keys it was being tried with and, with a gate, a later yes answered that very
    * handler, before that handler's descriptor was sealed. A run that ends paired ends on such keys. */
  lemma EstablishNeedsAGoodTag(c: Config, es: seq<Event>, peer: PeerId, keys: Keys)
    requires AllEnabled(c, START, es)
    ensures SentEstablish(peer, keys) in Exec(c, START, es).log ==> EstablishEarned(c, es, peer, keys)
    ensures c.side.ClaimSide? && SentConfirm(peer, keys) in Exec(c, START, es).log ==> ConfirmEarned(c, es, peer, keys)
  {
    RunsAreEarned(c, es);
    hide Exec, EstablishEarned, ConfirmEarned, AllEnabled;
    var log := Exec(c, START, es).log;
    if SentEstablish(peer, keys) in log {
      var k :| 0 <= k < |log| && log[k] == SentEstablish(peer, keys);
    }
    if c.side.ClaimSide? && SentConfirm(peer, keys) in log {
      var k :| 0 <= k < |log| && log[k] == SentConfirm(peer, keys);
    }
  }

  lemma {:induction false} RunsLogTheirEnding(c: Config, s: State, es: seq<Event>)
    requires AllEnabled(c, s, es) && (s.settled.Some? ==> Settled(s.settled.value) in s.log)
    ensures var t := Exec(c, s, es); t.settled.Some? ==> Settled(t.settled.value) in t.log
    decreases |es|
  {
    if es != [] {
      EndingIsLogged(c, s, es[0]);
      hide Step, Enabled;
      RunsLogTheirEnding(c, Step(c, s, es[0]), es[1..]);
    }
  }

  lemma EndingIsLogged(c: Config, s: State, e: Event)
    requires Enabled(s, e) && (s.settled.Some? ==> Settled(s.settled.value) in s.log)
    ensures var t := Step(c, s, e); t.settled.Some? ==> Settled(t.settled.value) in t.log
  {
    var t := Step(c, s, e);
    if s.settled.Some? {
      StepStaysSettled(c, s, e);
      StepAdds(c, s, e);
      hide Step, Enabled;
      var k :| 0 <= k < |s.log| && s.log[k] == Settled(s.settled.value);
      assert t.log[k] == s.log[k];
    } else if t.settled.Some? {
      SettlingIsLast(c, s, e);
      hide Step, Enabled;
    }
  }

  predicate EndsLogged(t: State) {
    t.settled.Some? ==> t.log != [] && t.log[|t.log| - 1] == Settled(t.settled.value)
  }

  lemma RuleOutEndsLogged(c: Config, s: State, peer: PeerId)
    requires s.settled.None?
    ensures EndsLogged(RuleOut(c, s, peer))
  {
  }

  lemma SettlingIsLast(c: Config, s: State, e: Event)
    requires Enabled(s, e) && s.settled.None?
    ensures EndsLogged(Step(c, s, e))
  {
    hide RuleOut;
    match e
    case PeerShare(peer, derived) =>
      if derived.Rejected? {
        RuleOutEndsLogged(c, Note(Note(s.(grace := false, seen := s.seen + 1, outstanding := s.outstanding + 1), Derives(peer)), SentClose(peer, derived.reason)), peer);
      }
    case PeerConfirm(peer, tag) => RuleOutEndsLogged(c, Note(s, SentClose(peer, "confirmation failed")), peer);
    case AdmitSettles(task, allowed) =>
      RuleOutEndsLogged(c, Note(s.(tasks := s.tasks - {task}), SentClose(s.tasks[task].peer, "refused at the machine")), s.tasks[task].peer);
    case PeerFailed(about, reason) => if about.Some? { RuleOutEndsLogged(c, s, about.value); }
    case _ =>
  }

  lemma NothingYet(c: Config)
    ensures Inv(c, START)
  {
  }

  /** Main result: a run that ends paired ends on the keys of a peer whose tag verified, as above. */
  lemma PairedNeedsAGoodTag(c: Config, es: seq<Event>) returns (peer: PeerId)
    requires AllEnabled(c, START, es) && Exec(c, START, es).settled.Some? && Exec(c, START, es).settled.value.Paired?
    ensures EstablishEarned(c, es, peer, Exec(c, START, es).settled.value.keys)
  {
    hide EstablishEarned, AllEnabled, Over, DeriveCount, TasksOk, EstablishedOk, CountOk, Exec;
    var s := Exec(c, START, es);
    RunsLogTheirEnding(c, START, es);
    NothingYet(c);
    RunsKeepInv(c, START, es);
    var k :| 0 <= k < |s.log| && s.log[k] == Settled(s.settled.value);
    assert EntryOk(c, s.log[..k], s.log[k]);
    peer := s.log[k - 1].peer;
    assert s.log[k - 1] == SentEstablish(peer, s.settled.value.keys);
    EstablishNeedsAGoodTag(c, es, peer, s.settled.value.keys);
  }
}
