/** The CLI's half of a pairing exchange (apps/cli/src/pairing-exchange.ts).

  Callbacks and the code after each `await` are the steps; `admit` and `seal` are
  tasks that settle in any order, any time later. The log records, in order, what
  the run derived, verified, was told by its gate, sent, and finally settled on.
 */
module Exchange {
  import opened Options

  type PeerId = string
  type Keys = string
  type Tag = string

  datatype Side = ClaimSide | MailboxSide

  datatype Attempt = Attempt(ownShare: string, keys: Keys, peerAd: string)

  /** What `derive` makes of one peer's share. */
  datatype Derived = Kept(attempt: Attempt) | Rejected(reason: string)

  datatype Ending =
    | Paired(keys: Keys, peerLabel: string)
    | NoMatch
    | TimedOut
    | Lost
    | TooManyPeers
    | BrokerFailed(reason: string)
    | SealFailed
    | Aborted

  datatype Entry =
    | Derives(peer: PeerId)
    | Verified(peer: PeerId, keys: Keys)
    | Admitted(peer: PeerId, keys: Keys)
    | SentShare(peer: PeerId, share: string)
    | SentConfirm(peer: PeerId, keys: Keys)
    | SentClose(peer: PeerId, reason: string)
    | SentEstablish(peer: PeerId, keys: Keys)
    | Settled(ending: Ending)

  /** A confirmed peer's handler, suspended at one of its two awaits. */
  datatype Task = AwaitAdmit(peer: PeerId, attempt: Attempt) | AwaitSeal(peer: PeerId, attempt: Attempt)

  /** `gated` says whether `admit` is installed; `verifies` is the tag check under a key schedule. */
  datatype Config = Config(side: Side, maxPeers: Option<nat>, gated: bool, verifies: (Keys, Tag) -> bool)

  datatype State = State(settled: Option<Ending>, attempts: map<PeerId, Attempt>, outstanding: int, seen: nat,
                         grace: bool, tasks: map<nat, Task>, nextTask: nat, log: seq<Entry>)

  const START := State(None, map[], 0, 0, false, map[], 0, [])

  datatype Event =
    | PeerShare(peer: PeerId, derived: Derived)
    | PeerConfirm(peer: PeerId, tag: Tag)
    | PeerFailed(about: Option<PeerId>, reason: string)
    | SocketClosed
    | TimerFires
    | GraceFires
    | Abort
    | AdmitSettles(task: nat, allowed: bool)
    | SealSettles(task: nat, sealed: bool)

  // ---------------------------------------------------------------------------
  // The handlers
  // ---------------------------------------------------------------------------

  function Note(s: State, e: Entry): State {
    s.(log := s.log + [e])
  }

  function Finish(s: State, ending: Ending): State {
    if s.settled.Some? then s else Note(s.(settled := Some(ending)), Settled(ending))
  }

  /** This peer cannot be the one. */
  function RuleOut(c: Config, s: State, peer: PeerId): State {
    var t := s.(attempts := s.attempts - {peer}, outstanding := s.outstanding - 1);
    if t.seen == 0 || t.outstanding > 0 then t
    else if c.maxPeers.Some? && t.seen >= c.maxPeers.value then Finish(t, NoMatch)
    else t.(grace := true)
  }

  function GiveUpOn(c: Config, s: State, peer: PeerId, reason: string): State {
    RuleOut(c, Note(s, SentClose(peer, reason)), peer)
  }

  function HandlePeerShare(c: Config, s: State, peer: PeerId, derived: Derived): State {
    if peer in s.attempts then s
    else
      var t := s.(grace := false, seen := s.seen + 1);
      if c.maxPeers.Some? && t.seen > c.maxPeers.value then Finish(t, TooManyPeers)
      else
        var u := Note(t.(outstanding := t.outstanding + 1), Derives(peer));
        match derived
        case Rejected(reason) => GiveUpOn(c, u, peer, reason)
        case Kept(attempt) =>
          var v := u.(attempts := u.attempts[peer := attempt]);
          if c.side.MailboxSide? then Note(Note(v, SentShare(peer, attempt.ownShare)), SentConfirm(peer, attempt.keys))
          else v
  }

  function Suspend(s: State, task: Task): State {
    s.(tasks := s.tasks[s.nextTask := task], nextTask := s.nextTask + 1)
  }

  function HandlePeerConfirm(c: Config, s: State, peer: PeerId, tag: Tag): State {
    if peer !in s.attempts then s
    else
      var attempt := s.attempts[peer];
      if !c.verifies(attempt.keys, tag) then GiveUpOn(c, s, peer, "confirmation failed")
      else
        var t := Note(s, Verified(peer, attempt.keys));
        var u := if c.side.ClaimSide? then Note(t, SentConfirm(peer, attempt.keys)) else t;
        Suspend(u, if c.gated then AwaitAdmit(peer, attempt) else AwaitSeal(peer, attempt))
  }

  function AdmitSettled(c: Config, s: State, task: nat, allowed: bool): State
    requires task in s.tasks && s.tasks[task].AwaitAdmit?
  {
    var waiting := s.tasks[task];
    var t := s.(tasks := s.tasks - {task});
    if t.settled.Some? then t
    else if !allowed then GiveUpOn(c, t, waiting.peer, "refused at the machine")
    else
      var u := Note(t, Admitted(waiting.peer, waiting.attempt.keys));
      u.(tasks := u.tasks[task := AwaitSeal(waiting.peer, waiting.attempt)])
  }

  function Label(peerAd: string): string {
    if peerAd == "" then "browser" else peerAd
  }

  function SealSettled(s: State, task: nat, sealed: bool): State
    requires task in s.tasks && s.tasks[task].AwaitSeal?
  {
    var waiting := s.tasks[task];
    var t := s.(tasks := s.tasks - {task});
    if !sealed then Finish(t, SealFailed)
    else if t.settled.Some? then t
    else Finish(Note(t, SentEstablish(waiting.peer, waiting.attempt.keys)), Paired(waiting.attempt.keys, Label(waiting.attempt.peerAd)))
  }

  /** Which callbacks can fire: a task settles once, at the await it is at, and a cleared grace timer never fires. */
  predicate Enabled(s: State, e: Event) {
    match e
    case AdmitSettles(task, _) => task in s.tasks && s.tasks[task].AwaitAdmit?
    case SealSettles(task, _) => task in s.tasks && s.tasks[task].AwaitSeal?
    case GraceFires => s.grace && s.settled.None?
    case _ => true
  }

  function Step(c: Config, s: State, e: Event): State
    requires Enabled(s, e)
  {
    match e
    case PeerShare(peer, derived) => HandlePeerShare(c, s, peer, derived)
    case PeerConfirm(peer, tag) => HandlePeerConfirm(c, s, peer, tag)
    case PeerFailed(about, reason) => if about.Some? then RuleOut(c, s, about.value) else Finish(s, BrokerFailed(reason))
    case SocketClosed => Finish(s, Lost)
    case TimerFires => Finish(s, TimedOut)
    case GraceFires => Finish(s, NoMatch)
    case Abort => Finish(s, Aborted)
    case AdmitSettles(task, allowed) => AdmitSettled(c, s, task, allowed)
    case SealSettles(task, sealed) => SealSettled(s, task, sealed)
  }

  // ---------------------------------------------------------------------------
  // What the log must never show
  // ---------------------------------------------------------------------------

  predicate Over(log: seq<Entry>) {
    exists i | 0 <= i < |log| :: log[i].Settled?
  }

  function DeriveCount(log: seq<Entry>): nat {
    if log == [] then 0 else DeriveCount(log[..|log| - 1]) + if log[|log| - 1].Derives? then 1 else 0
  }

  /** May this entry follow these? */
  predicate EntryOk(c: Config, before: seq<Entry>, e: Entry) {
    match e
    case Settled(ending) => !Over(before) && (ending.Paired? ==> before != [] && before[|before| - 1].SentEstablish? && before[|before| - 1].keys == ending.keys)
    case SentEstablish(peer, keys) => !Over(before) && Verified(peer, keys) in before && (c.gated ==> Admitted(peer, keys) in before)
    case SentConfirm(peer, keys) => c.side.ClaimSide? ==> Verified(peer, keys) in before
    case Derives(_) => c.maxPeers.Some? ==> DeriveCount(before) < c.maxPeers.value
    case _ => true
  }

  predicate LogOk(c: Config, log: seq<Entry>) {
    forall i | 0 <= i < |log| :: EntryOk(c, log[..i], log[i])
  }

  predicate TaskOk(c: Config, log: seq<Entry>, t: Task) {
    Verified(t.peer, t.attempt.keys) in log && (t.AwaitSeal? && c.gated ==> Admitted(t.peer, t.attempt.keys) in log)
  }

  predicate TasksOk(c: Config, log: seq<Entry>, tasks: map<nat, Task>, nextTask: nat) {
    forall n | n in tasks :: TaskOk(c, log, tasks[n]) && n < nextTask
  }

  /** `seen` counts past the cap; derivations stop at it. */
  predicate CountOk(c: Config, log: seq<Entry>, seen: nat) {
    DeriveCount(log) <= seen && (c.maxPeers.Some? ==> DeriveCount(log) <= c.maxPeers.value)
  }

  /** The very next thing after an establish is the run settling on that peer's keys. */
  predicate EstablishedOk(log: seq<Entry>) {
    forall i | 0 <= i < |log| && log[i].SentEstablish? ::
      i + 1 < |log| && log[i + 1].Settled? && log[i + 1].ending.Paired? && log[i + 1].ending.keys == log[i].keys
  }

  predicate Inv(c: Config, s: State) {
    && LogOk(c, s.log)
    && (s.settled.Some? <==> Over(s.log))
    && CountOk(c, s.log, s.seen)
    && EstablishedOk(s.log)
    && TasksOk(c, s.log, s.tasks, s.nextTask)
  }

  lemma LogGrows(c: Config, log: seq<Entry>, e: Entry)
    requires LogOk(c, log) && EntryOk(c, log, e)
    ensures LogOk(c, log + [e])
  {
    var next := log + [e];
    hide EntryOk;
    forall i | 0 <= i < |next| ensures EntryOk(c, next[..i], next[i]) {
      if i == |log| { assert next[..i] == log; } else { assert EntryOk(c, log[..i], log[i]) && next[..i] == log[..i]; }
    }
  }

  lemma OverGrows(log: seq<Entry>, e: Entry)
    ensures Over(log + [e]) <==> Over(log) || e.Settled?
  {
    var next := log + [e];
    if Over(log) {
      var i :| 0 <= i < |log| && log[i].Settled?;
      assert next[i].Settled?;
    }
    if e.Settled? { assert next[|log|].Settled?; }
  }

  lemma CountGrows(c: Config, log: seq<Entry>, e: Entry)
    ensures DeriveCount(log + [e]) == DeriveCount(log) + if e.Derives? then 1 else 0
  {
    var next := log + [e];
    assert next[..|next| - 1] == log;
  }

  lemma TasksOutliveEntry(c: Config, log: seq<Entry>, e: Entry, tasks: map<nat, Task>, nextTask: nat)
    requires TasksOk(c, log, tasks, nextTask)
    ensures TasksOk(c, log + [e], tasks, nextTask)
  {
    forall n | n in tasks ensures TaskOk(c, log + [e], tasks[n]) { assert TaskOk(c, log, tasks[n]); }
  }

  /** Appending one allowed entry that is neither an ending nor an establish keeps the invariant. */
  lemma NoteKeepsInv(c: Config, s: State, e: Entry)
    requires Inv(c, s) && EntryOk(c, s.log, e) && !e.Settled? && !e.SentEstablish? && !e.Derives?
    ensures Inv(c, Note(s, e))
  {
    hide LogOk, EntryOk, Over, DeriveCount, TasksOk, EstablishedOk;
    LogGrows(c, s.log, e);
    OverGrows(s.log, e);
    CountGrows(c, s.log, e);
    EstablishedStays(s.log, e);
    TasksOutliveEntry(c, s.log, e, s.tasks, s.nextTask);
  }

  lemma FinishKeepsInv(c: Config, s: State, ending: Ending)
    requires Inv(c, s) && !ending.Paired?
    ensures Inv(c, Finish(s, ending))
  {
    if s.settled.None? {
      var e := Settled(ending);
      assert EntryOk(c, s.log, e);
      hide LogOk, EntryOk, Over, DeriveCount, TasksOk, EstablishedOk;
      LogGrows(c, s.log, e);
      OverGrows(s.log, e);
      CountGrows(c, s.log, e);
      EstablishedStays(s.log, e);
      TasksOutliveEntry(c, s.log, e, s.tasks, s.nextTask);
    }
  }

  /** The invariant does not read the live attempts, the counter or the grace timer. */
  lemma SameLogKeepsInv(c: Config, s: State, t: State)
    requires Inv(c, s) && t.log == s.log && t.settled == s.settled && t.seen >= s.seen
    requires TasksOk(c, s.log, t.tasks, t.nextTask)
    ensures Inv(c, t)
  {
    hide LogOk, Over, DeriveCount, TasksOk, EstablishedOk;
  }

  lemma TasksOfInv(c: Config, s: State)
    requires Inv(c, s)
    ensures TasksOk(c, s.log, s.tasks, s.nextTask)
  {
    hide LogOk, Over, CountOk, TasksOk, EstablishedOk;
  }

  lemma RuleOutKeepsInv(c: Config, s: State, peer: PeerId)
    requires Inv(c, s)
    ensures Inv(c, RuleOut(c, s, peer))
  {
    hide Inv, TasksOk, Finish;
    TasksOfInv(c, s);
    var t := s.(attempts := s.attempts - {peer}, outstanding := s.outstanding - 1);
    SameLogKeepsInv(c, s, t);
    if t.seen == 0 || t.outstanding > 0 {
    } else if c.maxPeers.Some? && t.seen >= c.maxPeers.value {
      FinishKeepsInv(c, t, NoMatch);
    } else {
      SameLogKeepsInv(c, s, t.(grace := true));
    }
  }

  lemma GiveUpOnKeepsInv(c: Config, s: State, peer: PeerId, reason: string)
    requires Inv(c, s)
    ensures Inv(c, GiveUpOn(c, s, peer, reason))
  {
    var e := SentClose(peer, reason);
    assert EntryOk(c, s.log, e);
    hide Inv, RuleOut, EntryOk;
    NoteKeepsInv(c, s, e);
    RuleOutKeepsInv(c, Note(s, e), peer);
  }

  lemma HandlePeerShareKeepsInv(c: Config, s: State, peer: PeerId, derived: Derived)
    requires Inv(c, s)
    ensures Inv(c, HandlePeerShare(c, s, peer, derived))
  {
    hide Inv, Finish, GiveUpOn, Note;
    if peer !in s.attempts {
      var t := s.(grace := false, seen := s.seen + 1);
      if c.maxPeers.Some? && t.seen > c.maxPeers.value {
        CancelGraceKeepsInv(c, s);
        FinishKeepsInv(c, t, TooManyPeers);
      } else {
        DeriveKeepsInv(c, s, peer);
        var u := Note(t.(outstanding := t.outstanding + 1), Derives(peer));
        match derived
        case Rejected(reason) => GiveUpOnKeepsInv(c, u, peer, reason);
        case Kept(attempt) => AdmitAttemptKeepsInv(c, u, peer, attempt);
      }
    }
  }

  lemma CancelGraceKeepsInv(c: Config, s: State)
    requires Inv(c, s)
    ensures Inv(c, s.(grace := false, seen := s.seen + 1))
  {
    assert TasksOk(c, s.log, s.tasks, s.nextTask);
    hide Inv, TasksOk;
    SameLogKeepsInv(c, s, s.(grace := false, seen := s.seen + 1));
  }

  /** What appending a derivation does to the log's part of the invariant. */
  lemma DeriveGrows(c: Config, log: seq<Entry>, seen: nat, peer: PeerId)
    requires LogOk(c, log) && CountOk(c, log, seen) && EstablishedOk(log) && (c.maxPeers.Some? ==> seen < c.maxPeers.value)
    ensures LogOk(c, log + [Derives(peer)]) && CountOk(c, log + [Derives(peer)], seen + 1) && EstablishedOk(log + [Derives(peer)])
  {
    var e := Derives(peer);
    assert EntryOk(c, log, e);
    hide LogOk, EntryOk, DeriveCount;
    LogGrows(c, log, e);
    CountGrows(c, log, e);
    EstablishedStays(log, e);
    hide EstablishedOk;
  }

  lemma EstablishedStays(log: seq<Entry>, e: Entry)
    requires EstablishedOk(log) && !e.SentEstablish?
    ensures EstablishedOk(log + [e])
  {
    var next := log + [e];
    forall i | 0 <= i < |next| && next[i].SentEstablish?
      ensures i + 1 < |next| && next[i + 1].Settled? && next[i + 1].ending.Paired? && next[i + 1].ending.keys == next[i].keys
    {
      assert next[i] == log[i] && next[i + 1] == log[i + 1];
    }
  }

  lemma DeriveKeepsInv(c: Config, s: State, peer: PeerId)
    requires Inv(c, s) && (c.maxPeers.Some? ==> s.seen < c.maxPeers.value)
    ensures Inv(c, Note(s.(grace := false, seen := s.seen + 1, outstanding := s.outstanding + 1), Derives(peer)))
  {
    hide LogOk, EntryOk, Over, DeriveCount, TasksOk, CountOk, EstablishedOk;
    var e := Derives(peer);
    DeriveGrows(c, s.log, s.seen, peer);
    OverGrows(s.log, e);
    TasksOutliveEntry(c, s.log, e, s.tasks, s.nextTask);
  }

  lemma AdmitAttemptKeepsInv(c: Config, u: State, peer: PeerId, attempt: Attempt)
    requires Inv(c, u)
    ensures var v := u.(attempts := u.attempts[peer := attempt]);
            && Inv(c, v)
            && (c.side.MailboxSide? ==> Inv(c, Note(Note(v, SentShare(peer, attempt.ownShare)), SentConfirm(peer, attempt.keys))))
  {
    var v := u.(attempts := u.attempts[peer := attempt]);
    assert TasksOk(c, u.log, u.tasks, u.nextTask);
    assert EntryOk(c, v.log, SentShare(peer, attempt.ownShare));
    var w := Note(v, SentShare(peer, attempt.ownShare));
    assert c.side.MailboxSide? ==> EntryOk(c, w.log, SentConfirm(peer, attempt.keys));
    hide Inv, TasksOk, EntryOk;
    SameLogKeepsInv(c, u, v);
    NoteKeepsInv(c, v, SentShare(peer, attempt.ownShare));
    if c.side.MailboxSide? { NoteKeepsInv(c, w, SentConfirm(peer, attempt.keys)); }
  }

  /** A verified peer's log entries: the tag checked out, and a claimant answers only now. */
  function Confirmed(c: Config, s: State, peer: PeerId, keys: Keys): State {
    var t := Note(s, Verified(peer, keys));
    if c.side.ClaimSide? then Note(t, SentConfirm(peer, keys)) else t
  }

  lemma ConfirmedKeepsInv(c: Config, s: State, peer: PeerId, keys: Keys)
    requires Inv(c, s)
    ensures Inv(c, Confirmed(c, s, peer, keys)) && Verified(peer, keys) in Confirmed(c, s, peer, keys).log
  {
    var t := Note(s, Verified(peer, keys));
    assert EntryOk(c, s.log, Verified(peer, keys));
    assert t.log[|s.log|] == Verified(peer, keys);
    assert EntryOk(c, t.log, SentConfirm(peer, keys));
    hide Inv, EntryOk;
    NoteKeepsInv(c, s, Verified(peer, keys));
    NoteKeepsInv(c, t, SentConfirm(peer, keys));
    assert Note(t, SentConfirm(peer, keys)).log[|s.log|] == Verified(peer, keys);
  }

  lemma SuspendKeepsInv(c: Config, s: State, task: Task)
    requires Inv(c, s) && TaskOk(c, s.log, task)
    ensures Inv(c, Suspend(s, task))
  {
    hide LogOk, Over, DeriveCount, EstablishedOk, TaskOk;
    assert TasksOk(c, s.log, Suspend(s, task).tasks, s.nextTask + 1);
  }

  lemma HandlePeerConfirmKeepsInv(c: Config, s: State, peer: PeerId, tag: Tag)
    requires Inv(c, s)
    ensures Inv(c, HandlePeerConfirm(c, s, peer, tag))
  {
    if peer in s.attempts {
      var attempt := s.attempts[peer];
      var task := if c.gated then AwaitAdmit(peer, attempt) else AwaitSeal(peer, attempt);
      hide Inv, GiveUpOn, Suspend, Note;
      if !c.verifies(attempt.keys, tag) {
        GiveUpOnKeepsInv(c, s, peer, "confirmation failed");
      } else {
        ConfirmedKeepsInv(c, s, peer, attempt.keys);
        SuspendKeepsInv(c, Confirmed(c, s, peer, attempt.keys), task);
      }
    }
  }

  lemma DropTaskKeepsInv(c: Config, s: State, task: nat)
    requires Inv(c, s)
    ensures Inv(c, s.(tasks := s.tasks - {task}))
  {
    assert TasksOk(c, s.log, s.tasks - {task}, s.nextTask);
    hide Inv, TasksOk;
    SameLogKeepsInv(c, s, s.(tasks := s.tasks - {task}));
  }

  lemma AdmittedKeepsInv(c: Config, t: State, task: nat, peer: PeerId, attempt: Attempt)
    requires Inv(c, t) && Verified(peer, attempt.keys) in t.log && task < t.nextTask
    ensures var u := Note(t, Admitted(peer, attempt.keys));
            Inv(c, u.(tasks := u.tasks[task := AwaitSeal(peer, attempt)]))
  {
    var e := Admitted(peer, attempt.keys);
    var u := Note(t, e);
    var next := AwaitSeal(peer, attempt);
    assert u.log[|t.log|] == e;
    AdmittedTasks(c, t.log, t.tasks, t.nextTask, task, next, e);
    assert EntryOk(c, t.log, e);
    hide Inv, EntryOk, TasksOk;
    NoteKeepsInv(c, t, e);
    SameLogKeepsInv(c, u, u.(tasks := u.tasks[task := next]));
  }

  lemma AdmittedTasks(c: Config, log: seq<Entry>, tasks: map<nat, Task>, nextTask: nat, task: nat, next: Task, e: Entry)
    requires TasksOk(c, log, tasks, nextTask) && task < nextTask && next.AwaitSeal?
    requires Verified(next.peer, next.attempt.keys) in log && e == Admitted(next.peer, next.attempt.keys)
    ensures TasksOk(c, log + [e], tasks[task := next], nextTask)
  {
    assert (log + [e])[|log|] == e;
    assert TaskOk(c, log + [e], next);
    TasksOutliveEntry(c, log, e, tasks, nextTask);
    hide TaskOk;
  }

  lemma AdmitSettledKeepsInv(c: Config, s: State, task: nat, allowed: bool)
    requires Inv(c, s) && task in s.tasks && s.tasks[task].AwaitAdmit?
    ensures Inv(c, AdmitSettled(c, s, task, allowed))
  {
    var waiting := s.tasks[task];
    var t := s.(tasks := s.tasks - {task});
    assert TaskOk(c, s.log, waiting) && task < s.nextTask;
    hide Inv, GiveUpOn;
    DropTaskKeepsInv(c, s, task);
    if t.settled.None? {
      GiveUpOnKeepsInv(c, t, waiting.peer, "refused at the machine");
      AdmittedKeepsInv(c, t, task, waiting.peer, waiting.attempt);
    }
  }

  lemma EstablishedGrows(log: seq<Entry>, e: Entry, f: Entry)
    requires EstablishedOk(log) && e.SentEstablish? && f.Settled? && f.ending.Paired? && f.ending.keys == e.keys
    ensures EstablishedOk(log + [e] + [f])
  {
    var next := log + [e] + [f];
    forall i | 0 <= i < |next| && next[i].SentEstablish?
      ensures i + 1 < |next| && next[i + 1].Settled? && next[i + 1].ending.Paired? && next[i + 1].ending.keys == next[i].keys
    {
      if i < |log| { assert next[i] == log[i] && next[i + 1] == log[i + 1]; }
    }
  }

  lemma EstablishKeepsInv(c: Config, t: State, peer: PeerId, attempt: Attempt)
    requires Inv(c, t) && t.settled.None? && Verified(peer, attempt.keys) in t.log && (c.gated ==> Admitted(peer, attempt.keys) in t.log)
    ensures Inv(c, Finish(Note(t, SentEstablish(peer, attempt.keys)), Paired(attempt.keys, Label(attempt.peerAd))))
  {
    var e := SentEstablish(peer, attempt.keys);
    var f := Settled(Paired(attempt.keys, Label(attempt.peerAd)));
    OverGrows(t.log, e);
    assert EntryOk(c, t.log, e) && EntryOk(c, t.log + [e], f);
    EstablishedGrows(t.log, e, f);
    hide LogOk, Over, DeriveCount, EntryOk, EstablishedOk, TasksOk;
    LogGrows(c, t.log, e);
    LogGrows(c, t.log + [e], f);
    OverGrows(t.log + [e], f);
    CountGrows(c, t.log, e);
    CountGrows(c, t.log + [e], f);
    TasksOutliveEntry(c, t.log, e, t.tasks, t.nextTask);
    TasksOutliveEntry(c, t.log + [e], f, t.tasks, t.nextTask);
  }

  lemma SealSettledKeepsInv(c: Config, s: State, task: nat, sealed: bool)
    requires Inv(c, s) && task in s.tasks && s.tasks[task].AwaitSeal?
    ensures Inv(c, SealSettled(s, task, sealed))
  {
    assert TaskOk(c, s.log, s.tasks[task]);
    hide Inv;
    DropTaskKeepsInv(c, s, task);
    var t := s.(tasks := s.tasks - {task});
    FinishKeepsInv(c, t, SealFailed);
    if sealed && t.settled.None? {
      EstablishKeepsInv(c, t, s.tasks[task].peer, s.tasks[task].attempt);
    }
  }

  lemma StepKeepsInv(c: Config, s: State, e: Event)
    requires Inv(c, s) && Enabled(s, e)
    ensures Inv(c, Step(c, s, e))
  {
    hide Inv, Finish, RuleOut, HandlePeerShare, HandlePeerConfirm, AdmitSettled, SealSettled;
    match e
    case PeerShare(peer, derived) => HandlePeerShareKeepsInv(c, s, peer, derived);
    case PeerConfirm(peer, tag) => HandlePeerConfirmKeepsInv(c, s, peer, tag);
    case PeerFailed(about, reason) =>
      if about.Some? { RuleOutKeepsInv(c, s, about.value); } else { FinishKeepsInv(c, s, BrokerFailed(reason)); }
    case SocketClosed => FinishKeepsInv(c, s, Lost);
    case TimerFires => FinishKeepsInv(c, s, TimedOut);
    case GraceFires => FinishKeepsInv(c, s, NoMatch);
    case Abort => FinishKeepsInv(c, s, Aborted);
    case AdmitSettles(task, allowed) => AdmitSettledKeepsInv(c, s, task, allowed);
    case SealSettles(task, sealed) => SealSettledKeepsInv(c, s, task, sealed);
  }

  // ---------------------------------------------------------------------------
  // Whole runs
  // ---------------------------------------------------------------------------

  predicate AllEnabled(c: Config, s: State, es: seq<Event>)
    decreases |es|
  {
    es == [] || (Enabled(s, es[0]) && AllEnabled(c, Step(c, s, es[0]), es[1..]))
  }

  function Exec(c: Config, s: State, es: seq<Event>): State
    requires AllEnabled(c, s, es)
    decreases |es|
  {
    if es == [] then s else Exec(c, Step(c, s, es[0]), es[1..])
  }

  lemma {:induction false} RunsKeepInv(c: Config, s: State, es: seq<Event>)
    requires Inv(c, s) && AllEnabled(c, s, es)
    ensures Inv(c, Exec(c, s, es))
    decreases |es|
  {
    hide Inv, Step;
    if es != [] {
      StepKeepsInv(c, s, es[0]);
      RunsKeepInv(c, Step(c, s, es[0]), es[1..]);
    }
  }

  /** Main result: over every interleaving of messages, awaits and timers, the run settles at most once
    * and exactly when it says so, sends at most one establish, and settles on those keys at once. */
  lemma SettlesOnce(c: Config, es: seq<Event>, i: nat, j: nat)
    requires AllEnabled(c, START, es)
    ensures var log := Exec(c, START, es).log;
            && (Exec(c, START, es).settled.Some? <==> Over(log))
            && (i < j < |log| && log[i].Settled? ==> !log[j].Settled? && !log[j].SentEstablish?)
            && (i < j < |log| && log[i].SentEstablish? ==> !log[j].SentEstablish?)
            && (i < |log| && log[i].SentEstablish? ==> i + 1 < |log| && log[i + 1].Settled? && log[i + 1].ending.Paired? && log[i + 1].ending.keys == log[i].keys)
  {
    RunsKeepInv(c, START, es);
    var log := Exec(c, START, es).log;
    hide Exec;
    if i < j < |log| {
      assert EntryOk(c, log[..j], log[j]);
      if log[i].Settled? {
        assert log[..j][i].Settled?;
      } else if log[i].SentEstablish? && i + 1 < j {
        assert log[..j][i + 1].Settled?;
      }
    }
  }

  /** Main result: an establish goes only to a peer whose tag verified earlier under the very keys it
    * carries and, when a gate is installed, whom the gate had said yes to; a claimant never confirms
    * a peer it has not verified; and `derive` runs at most `maxPeers` times. */
  lemma NothingBeforeItsProof(c: Config, es: seq<Event>, i: nat)
    requires AllEnabled(c, START, es) && i < |Exec(c, START, es).log|
    ensures var log := Exec(c, START, es).log;
            && (log[i].SentEstablish? ==> Verified(log[i].peer, log[i].keys) in log[..i] && (c.gated ==> Admitted(log[i].peer, log[i].keys) in log[..i]))
            && (log[i].SentConfirm? && c.side.ClaimSide? ==> Verified(log[i].peer, log[i].keys) in log[..i])
            && (c.maxPeers.Some? ==> DeriveCount(log) <= c.maxPeers.value)
  {
    RunsKeepInv(c, START, es);
    var log := Exec(c, START, es).log;
    hide Exec;
    assert EntryOk(c, log[..i], log[i]);
  }

  // ---------------------------------------------------------------------------
  // The counter of live candidates
  // ---------------------------------------------------------------------------

  predicate Balanced(s: State) {
    s.outstanding == |s.attempts|
  }

  /** The step rules out a peer that is not being tried: a broker failure naming it, or a refusal at the
    * machine for a peer that was already ruled out while the question was open. */
  predicate RulesOutStranger(s: State, e: Event)
    requires Enabled(s, e)
  {
    match e
    case PeerFailed(about, _) => about.Some? && about.value !in s.attempts
    case AdmitSettles(task, allowed) => s.settled.None? && !allowed && s.tasks[task].peer !in s.attempts
    case _ => false
  }

  lemma DeleteCounts<K, V>(m: map<K, V>, k: K)
    ensures |m - {k}| == |m| - if k in m then 1 else 0
  {
    if k in m {
      assert m.Keys == (m - {k}).Keys + {k};
      assert |m.Keys| == |m| && |(m - {k}).Keys| == |m - {k}|;
    } else {
      assert m - {k} == m;
    }
  }

  lemma RuleOutDrops(c: Config, s: State, peer: PeerId)
    ensures RuleOut(c, s, peer).attempts == s.attempts - {peer} && RuleOut(c, s, peer).outstanding == s.outstanding - 1
  {
  }

  lemma RuleOutCounts(c: Config, s: State, peer: PeerId)
    ensures RuleOut(c, s, peer).attempts == s.attempts - {peer} && RuleOut(c, s, peer).outstanding == s.outstanding - 1
    ensures |RuleOut(c, s, peer).attempts| == |s.attempts| - if peer in s.attempts then 1 else 0
  {
    hide RuleOut;
    RuleOutDrops(c, s, peer);
    DeleteCounts(s.attempts, peer);
  }

  lemma GiveUpOnCounts(c: Config, s: State, peer: PeerId, reason: string)
    ensures GiveUpOn(c, s, peer, reason).outstanding == s.outstanding - 1
    ensures |GiveUpOn(c, s, peer, reason).attempts| == |s.attempts| - if peer in s.attempts then 1 else 0
  {
    RuleOutCounts(c, Note(s, SentClose(peer, reason)), peer);
    hide RuleOut;
  }

  lemma ShareKeepsCount(c: Config, s: State, peer: PeerId, derived: Derived)
    requires Balanced(s)
    ensures Balanced(HandlePeerShare(c, s, peer, derived))
  {
    if derived.Rejected? {
      GiveUpOnCounts(c, Note(s.(grace := false, seen := s.seen + 1, outstanding := s.outstanding + 1), Derives(peer)), peer, derived.reason);
    }
    hide GiveUpOn;
  }

  lemma ConfirmKeepsCount(c: Config, s: State, peer: PeerId, tag: Tag)
    requires Balanced(s)
    ensures Balanced(HandlePeerConfirm(c, s, peer, tag))
  {
    GiveUpOnCounts(c, s, peer, "confirmation failed");
    hide GiveUpOn;
  }

  lemma RefusalCounts(c: Config, s: State, task: nat, allowed: bool)
    requires Balanced(s) && task in s.tasks && s.tasks[task].AwaitAdmit?
    ensures Balanced(AdmitSettled(c, s, task, allowed)) <==> !RulesOutStranger(s, AdmitSettles(task, allowed))
  {
    GiveUpOnCounts(c, s.(tasks := s.tasks - {task}), s.tasks[task].peer, "refused at the machine");
    hide GiveUpOn;
  }

  /** Main result: `outstanding` goes on counting the live attempts exactly as long as no step rules out
    * a peer that is not among them. `ruleOut` does not check, so the condition is the caller's. */
  lemma CounterIsExactUnless(c: Config, s: State, e: Event)
    requires Enabled(s, e) && Balanced(s)
    ensures Balanced(Step(c, s, e)) <==> !RulesOutStranger(s, e)
  {
    hide RuleOut, HandlePeerShare, HandlePeerConfirm, AdmitSettled, SealSettled, Finish, Balanced;
    match e
    case PeerShare(peer, derived) => ShareKeepsCount(c, s, peer, derived);
    case PeerConfirm(peer, tag) => ConfirmKeepsCount(c, s, peer, tag);
    case PeerFailed(about, reason) => FailureCounts(c, s, about, reason);
    case AdmitSettles(task, allowed) => RefusalCounts(c, s, task, allowed);
    case SealSettles(task, sealed) => SealKeepsCount(s, task, sealed);
    case SocketClosed => FinishKeepsCount(s, Lost);
    case TimerFires => FinishKeepsCount(s, TimedOut);
    case GraceFires => FinishKeepsCount(s, NoMatch);
    case Abort => FinishKeepsCount(s, Aborted);
  }

  lemma FinishKeepsCount(s: State, ending: Ending)
    ensures Balanced(Finish(s, ending)) <==> Balanced(s)
  {
  }

  lemma SealKeepsCount(s: State, task: nat, sealed: bool)
    requires Balanced(s) && task in s.tasks && s.tasks[task].AwaitSeal?
    ensures Balanced(SealSettled(s, task, sealed))
  {
  }

  lemma FailureCounts(c: Config, s: State, about: Option<PeerId>, reason: string)
    requires Balanced(s)
    ensures Balanced(if about.Some? then RuleOut(c, s, about.value) else Finish(s, BrokerFailed(reason)))
      <==> !(about.Some? && about.value !in s.attempts)
  {
    if about.Some? { RuleOutCounts(c, s, about.value); }
    hide RuleOut;
  }

  /** Every peer that answered has been ruled out, and at least one did. */
  predicate NoneLeft(s: State) {
    s.attempts == map[] && s.seen > 0
  }

  /** While the run is open the grace timer is armed exactly when nobody is left to try. */
  predicate GraceOk(s: State) {
    s.settled.None? ==> (s.grace <==> NoneLeft(s))
  }

  predicate EndOk(s: State) {
    GraceOk(s) && (s.settled == Some(NoMatch) ==> NoneLeft(s))
  }

  lemma RuleOutGrace(c: Config, s: State, peer: PeerId)
    requires s.outstanding == |s.attempts| + (if peer in s.attempts then 0 else 1) && s.settled.None?
    requires s.grace ==> NoneLeft(s)
    ensures EndOk(RuleOut(c, s, peer))
  {
    var t := s.(attempts := s.attempts - {peer}, outstanding := s.outstanding - 1);
    DeleteCounts(s.attempts, peer);
    assert t.outstanding == |t.attempts|;
    assert |t.attempts| == 0 <==> t.attempts == map[];
  }

  lemma ShareKeepsGrace(c: Config, s: State, peer: PeerId, derived: Derived)
    requires Balanced(s) && GraceOk(s) && s.settled.None?
    ensures EndOk(HandlePeerShare(c, s, peer, derived))
  {
    if peer !in s.attempts {
      var u := Note(s.(grace := false, seen := s.seen + 1, outstanding := s.outstanding + 1), Derives(peer));
      match derived
      case Rejected(reason) => RuleOutGrace(c, Note(u, SentClose(peer, reason)), peer);
      case Kept(attempt) => assert peer in u.attempts[peer := attempt];
    }
    hide RuleOut;
  }

  lemma GraceStep(c: Config, s: State, e: Event)
    requires Enabled(s, e) && Balanced(s) && GraceOk(s) && s.settled.None? && !RulesOutStranger(s, e)
    ensures EndOk(Step(c, s, e))
  {
    hide RuleOut, HandlePeerShare;
    match e
    case PeerShare(peer, derived) => ShareKeepsGrace(c, s, peer, derived);
    case PeerConfirm(peer, tag) =>
      if peer in s.attempts { RuleOutGrace(c, Note(s, SentClose(peer, "confirmation failed")), peer); }
    case PeerFailed(about, _) => if about.Some? { RuleOutGrace(c, s, about.value); }
    case AdmitSettles(task, allowed) =>
      if !allowed {
        RuleOutGrace(c, Note(s.(tasks := s.tasks - {task}), SentClose(s.tasks[task].peer, "refused at the machine")), s.tasks[task].peer);
      }
    case _ =>
  }

  lemma StepStaysSettled(c: Config, s: State, e: Event)
    requires Enabled(s, e) && s.settled.Some?
    ensures Step(c, s, e).settled == s.settled
  {
  }

  predicate NoStrangers(c: Config, s: State, es: seq<Event>)
    requires AllEnabled(c, s, es)
    decreases |es|
  {
    es == [] || (!RulesOutStranger(s, es[0]) && NoStrangers(c, Step(c, s, es[0]), es[1..]))
  }

  lemma {:induction false} RunsKeepCount(c: Config, s: State, es: seq<Event>)
    requires AllEnabled(c, s, es) && NoStrangers(c, s, es) && Balanced(s) && GraceOk(s)
    ensures Balanced(Exec(c, s, es)) && GraceOk(Exec(c, s, es))
    decreases |es|
  {
    hide Step, Balanced, RulesOutStranger, NoneLeft;
    if es != [] {
      CounterIsExactUnless(c, s, es[0]);
      if s.settled.Some? { StepStaysSettled(c, s, es[0]); } else { GraceStep(c, s, es[0]); }
      RunsKeepCount(c, Step(c, s, es[0]), es[1..]);
    }
  }

  /** The counter is exact after the first `k` events. */
  predicate ExactAfter(c: Config, s: State, es: seq<Event>, k: nat)
    requires k <= |es| && AllEnabled(c, s, es)
  {
    PrefixEnabled(c, s, es, k);
    Balanced(Exec(c, s, es[..k]))
  }

  lemma {:induction false} PrefixEnabled(c: Config, s: State, es: seq<Event>, k: nat)
    requires k <= |es| && AllEnabled(c, s, es)
    ensures AllEnabled(c, s, es[..k])
    decreases k
  {
    hide Step, Enabled;
    if k > 0 {
      PrefixEnabled(c, Step(c, s, es[0]), es[1..], k - 1);
      assert es[..k][1..] == es[1..][..k - 1];
    }
  }

  lemma ExactLater(c: Config, s: State, es: seq<Event>, k: nat)
    requires 0 < k <= |es| && AllEnabled(c, s, es)
    ensures ExactAfter(c, s, es, k) <==> ExactAfter(c, Step(c, s, es[0]), es[1..], k - 1)
  {
    hide Step, Enabled, Balanced;
    PrefixEnabled(c, s, es, k);
    assert es[..k][0] == es[0] && es[..k][1..] == es[1..][..k - 1];
  }

  /** Main result, over whole runs: the counter is exact after every event if and only if no event ever rules
    * out a peer that is not among the live attempts. */
  lemma {:induction false} CounterIsExactThroughoutIff(c: Config, s: State, es: seq<Event>)
    requires AllEnabled(c, s, es) && Balanced(s)
    ensures (forall k | 0 <= k <= |es| :: ExactAfter(c, s, es, k)) <==> NoStrangers(c, s, es)
    decreases |es|
  {
    hide Step, Enabled, Balanced, RulesOutStranger;
    assert es[..0] == [] && ExactAfter(c, s, es, 0);
    if es != [] {
      CounterIsExactUnless(c, s, es[0]);
      var t, rest := Step(c, s, es[0]), es[1..];
      assert rest[..0] == [] && ExactAfter(c, t, rest, 0) == Balanced(t);
      forall k | 0 < k <= |es| ensures ExactAfter(c, s, es, k) <==> ExactAfter(c, t, rest, k - 1) { ExactLater(c, s, es, k); }
      hide ExactAfter;
      assert forall k | 0 <= k <= |rest| :: ExactAfter(c, t, rest, k) <==> ExactAfter(c, s, es, k + 1);
      if Balanced(t) { CounterIsExactThroughoutIff(c, t, rest); }
    }
  }

  /** Main result: in a run that never rules out a stranger, `outstanding` is the number of live attempts
    * throughout, the grace timer is armed exactly while somebody answered and nobody is left, and the step
    * that settles on "no match" leaves nobody: a straggler that arrived in the grace window prevents it. */
  lemma NoMatchMeansNobodyLeft(c: Config, es: seq<Event>, e: Event)
    requires AllEnabled(c, START, es) && NoStrangers(c, START, es)
    requires Enabled(Exec(c, START, es), e) && !RulesOutStranger(Exec(c, START, es), e)
    ensures Balanced(Exec(c, START, es)) && GraceOk(Exec(c, START, es))
    ensures Exec(c, START, es).settled.None? && Step(c, Exec(c, START, es), e).settled == Some(NoMatch)
            ==> NoneLeft(Step(c, Exec(c, START, es), e))
  {
    RunsKeepCount(c, START, es);
    hide Exec, Step, Balanced, RulesOutStranger, NoneLeft;
    if Exec(c, START, es).settled.None? { GraceStep(c, Exec(c, START, es), e); }
  }

  /** Why the condition cannot go: one peer reported failed twice ends a run whose other peer is still live. */
  lemma DuplicateFailureLosesLivePeer(c: Config, a: PeerId, b: PeerId, x: Attempt, y: Attempt)
    requires a != b && c.side.ClaimSide? && (c.maxPeers.Some? ==> c.maxPeers.value >= 3)
    ensures var es := [PeerShare(a, Kept(x)), PeerShare(b, Kept(y)), PeerFailed(Some(a), ""), PeerFailed(Some(a), ""), GraceFires];
            && AllEnabled(c, START, es)
            && Exec(c, START, es).settled == Some(NoMatch) && b in Exec(c, START, es).attempts
  {
    var s1 := Step(c, START, PeerShare(a, Kept(x)));
    var s2 := Step(c, s1, PeerShare(b, Kept(y)));
    var s3 := Step(c, s2, PeerFailed(Some(a), ""));
    var s4 := Step(c, s3, PeerFailed(Some(a), ""));
    var s5 := Finish(s4, NoMatch);
    assert s4.grace && s4.settled.None? && b in s4.attempts;
    hide HandlePeerShare, RuleOut, Finish;
    Prepend(c, s4, GraceFires, []);
    Prepend(c, s3, PeerFailed(Some(a), ""), [GraceFires]);
    Prepend(c, s2, PeerFailed(Some(a), ""), [PeerFailed(Some(a), ""), GraceFires]);
    Prepend(c, s1, PeerShare(b, Kept(y)), [PeerFailed(Some(a), ""), PeerFailed(Some(a), ""), GraceFires]);
    Prepend(c, START, PeerShare(a, Kept(x)), [PeerShare(b, Kept(y)), PeerFailed(Some(a), ""), PeerFailed(Some(a), ""), GraceFires]);
  }

  lemma Prepend(c: Config, s: State, e: Event, rest: seq<Event>)
    requires Enabled(s, e) && AllEnabled(c, Step(c, s, e), rest)
    ensures AllEnabled(c, s, [e] + rest) && Exec(c, s, [e] + rest) == Exec(c, Step(c, s, e), rest)
  {
    hide Step, Enabled;
    assert ([e] + rest)[1..] == rest;
  }

  /** One confirm and one failure per peer are not enough either: a failure that arrives while the machine is
    * still being asked, then a refusal, takes the same peer off the counter twice. */
  lemma RefusalAfterFailureCountsTwice(c: Config, a: PeerId, x: Attempt, tag: Tag)
    requires c.gated && c.side.ClaimSide? && c.verifies(x.keys, tag) && (c.maxPeers.Some? ==> c.maxPeers.value >= 2)
    ensures var s1 := Step(c, START, PeerShare(a, Kept(x)));
            var s2 := Step(c, s1, PeerConfirm(a, tag));
            var s3 := Step(c, s2, PeerFailed(Some(a), ""));
            && Enabled(s3, AdmitSettles(0, false))
            && Step(c, s3, AdmitSettles(0, false)).attempts == map[] && Step(c, s3, AdmitSettles(0, false)).outstanding == -1
  {
  }
}

/** `runExchange` as it is written: one closure whose variables its callbacks update in place.
  Every method is proved to make exactly the step of module Exchange that bears its name. */
module ExchangeObjects {
  import opened Options
  import opened Exchange

  class Run {
    const config: Config
    var settled: Option<Ending>
    var attempts: map<PeerId, Attempt>
    var outstanding: int
    var seen: nat
    var grace: bool
    var tasks: map<nat, Task>
    var nextTask: nat
    var log: seq<Entry>

    ghost function View(): State
      reads this
    {
      State(settled, attempts, outstanding, seen, grace, tasks, nextTask, log)
    }

    constructor (config: Config)
      ensures this.config == config && View() == START
    {
      this.config := config;
      settled, attempts, outstanding, seen := None, map[], 0, 0;
      grace, tasks, nextTask, log := false, map[], 0, [];
    }

    method Send(e: Entry)
      modifies this
      ensures View() == Note(old(View()), e)
    {
      log := log + [e];
    }

    method FinishWith(ending: Ending)
      modifies this
      ensures View() == Finish(old(View()), ending)
    {
      if settled.Some? { return; }
      settled := Some(ending);
      Send(Settled(ending));
    }

    method RuleOutPeer(peer: PeerId)
      modifies this
      ensures View() == RuleOut(config, old(View()), peer)
    {
      attempts := attempts - {peer};
      outstanding := outstanding - 1;
      if seen == 0 || outstanding > 0 { return; }
      if config.maxPeers.Some? && seen >= config.maxPeers.value {
        FinishWith(NoMatch);
        return;
      }
      if grace { return; }
      grace := true;
    }

    method GiveUp(peer: PeerId, reason: string)
      modifies this
      ensures View() == GiveUpOn(config, old(View()), peer, reason)
    {
      Send(SentClose(peer, reason));
      RuleOutPeer(peer);
    }

    method OnPeerShare(peer: PeerId, derived: Derived)
      modifies this
      ensures View() == HandlePeerShare(config, old(View()), peer, derived)
    {
      if peer in attempts { return; }
      if grace { grace := false; }
      seen := seen + 1;
      if config.maxPeers.Some? && seen > config.maxPeers.value {
        FinishWith(TooManyPeers);
        return;
      }
      outstanding := outstanding + 1;
      Send(Derives(peer));
      if derived.Rejected? {
        GiveUp(peer, derived.reason);
        return;
      }
      var attempt := derived.attempt;
      attempts := attempts[peer := attempt];
      if config.side.MailboxSide? {
        Send(SentShare(peer, attempt.ownShare));
        Send(SentConfirm(peer, attempt.keys));
      }
    }

    /** Runs up to the first await: the gate's when there is one, otherwise `seal`'s. */
    method OnPeerConfirm(peer: PeerId, tag: Tag)
      modifies this
      ensures View() == HandlePeerConfirm(config, old(View()), peer, tag)
    {
      if peer !in attempts { return; }
      var attempt := attempts[peer];
      if !config.verifies(attempt.keys, tag) {
        GiveUp(peer, "confirmation failed");
        return;
      }
      Send(Verified(peer, attempt.keys));
      if config.side.ClaimSide? { Send(SentConfirm(peer, attempt.keys)); }
      var task := if config.gated then AwaitAdmit(peer, attempt) else AwaitSeal(peer, attempt);
      tasks, nextTask := tasks[nextTask := task], nextTask + 1;
    }

    /** The gate's promise settled; a gate that threw has answered no. */
    method OnAdmitSettled(task: nat, allowed: bool)
      requires task in tasks && tasks[task].AwaitAdmit?
      modifies this
      ensures View() == AdmitSettled(config, old(View()), task, allowed)
    {
      var waiting := tasks[task];
      tasks := tasks - {task};
      if settled.Some? { return; }
      if !allowed {
        GiveUp(waiting.peer, "refused at the machine");
        return;
      }
      Send(Admitted(waiting.peer, waiting.attempt.keys));
      tasks := tasks[task := AwaitSeal(waiting.peer, waiting.attempt)];
    }

    method OnSealSettled(task: nat, sealed: bool)
      requires task in tasks && tasks[task].AwaitSeal?
      modifies this
      ensures View() == SealSettled(old(View()), task, sealed)
    {
      var waiting := tasks[task];
      tasks := tasks - {task};
      if !sealed {
        FinishWith(SealFailed);
        return;
      }
      if settled.Some? { return; }
      Send(SentEstablish(waiting.peer, waiting.attempt.keys));
      FinishWith(Paired(waiting.attempt.keys, Label(waiting.attempt.peerAd)));
    }

    /** One callback firing is one step of the machine, so every run of this object is a run of it. */
    method Fire(e: Event)
      requires Enabled(View(), e)
      modifies this
      ensures View() == Step(config, old(View()), e)
    {
      match e
      case PeerShare(peer, derived) => OnPeerShare(peer, derived);
      case PeerConfirm(peer, tag) => OnPeerConfirm(peer, tag);
      case PeerFailed(about, reason) =>
        if about.Some? { RuleOutPeer(about.value); } else { FinishWith(BrokerFailed(reason)); }
      case SocketClosed => FinishWith(Lost);
      case TimerFires => FinishWith(TimedOut);
      case GraceFires => FinishWith(NoMatch);
      case Abort => FinishWith(Aborted);
      case AdmitSettles(task, allowed) => OnAdmitSettled(task, allowed);
      case SealSettles(task, sealed) => OnSealSettled(task, sealed);
    }
  }
}
