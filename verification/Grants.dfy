/** Grants and the message gate (apps/relay/src/grant.ts, apps/relay/src/policy.ts). */
module Grants {
  import opened Options

  datatype FileAccess = NoFiles | ReadFiles | WriteFiles

  datatype PinnedSession = PinnedSession(id: string, name: string)

  /** `Unknown` stands for a discriminator this build does not know. */
  datatype Scope = All | Sessions(sessions: seq<PinnedSession>) | Recordings(recordings: seq<string>) | Unknown

  datatype Grant = Grant(scope: Scope, readOnly: bool, files: FileAccess, expiresAt: Option<int>, revokedAt: Option<int>, tmuxServerPid: Option<int>)

  predicate IsActive(g: Grant, now: int) {
    g.revokedAt.None? && (g.expiresAt.None? || g.expiresAt.value > now)
  }

  datatype Session = Session(id: Option<string>, name: string)

  predicate HasId(sessions: seq<PinnedSession>, id: string) {
    exists i | 0 <= i < |sessions| :: sessions[i].id == id
  }

  predicate HasName(sessions: seq<PinnedSession>, name: string) {
    exists i | 0 <= i < |sessions| :: sessions[i].name == name
  }

  /** By id; by name only when the ids provably belong to another tmux server. An empty id is no id. */
  predicate AllowsSession(g: Grant, s: Session, serverPid: Option<int>) {
    match g.scope
    case All => true
    case Sessions(sessions) =>
      || (s.id.Some? && s.id.value != "" && HasId(sessions, s.id.value))
      || (g.tmuxServerPid.Some? && serverPid.Some? && g.tmuxServerPid != serverPid && HasName(sessions, s.name))
    case _ => false
  }

  predicate AllowsRecording(g: Grant, id: string) {
    match g.scope
    case All => true
    case Recordings(recordings) => id in recordings
    case _ => false
  }

  // ---------------------------------------------------------------------------
  // Narrowing
  // ---------------------------------------------------------------------------

  function MinNullable(a: Option<int>, b: Option<int>): Option<int> {
    if a.None? then b else if b.None? then a else if a.value < b.value then a else b
  }

  function KeepIds(sessions: seq<PinnedSession>, others: seq<PinnedSession>): seq<PinnedSession> {
    if sessions == [] then []
    else (if HasId(others, sessions[0].id) then [sessions[0]] else []) + KeepIds(sessions[1..], others)
  }

  function KeepCommon(ids: seq<string>, others: seq<string>): seq<string> {
    if ids == [] then [] else (if ids[0] in others then [ids[0]] else []) + KeepCommon(ids[1..], others)
  }

  function MeetScope(a: Scope, b: Scope): Scope {
    if a.All? then b
    else if b.All? then a
    else if a.Sessions? && b.Sessions? then Sessions(KeepIds(a.sessions, b.sessions))
    else if a.Recordings? && b.Recordings? then Recordings(KeepCommon(a.recordings, b.recordings))
    else if a.Sessions? then Sessions([])
    else Recordings([])
  }

  function MeetFiles(a: FileAccess, b: FileAccess): FileAccess {
    if a.NoFiles? || b.NoFiles? then NoFiles else if a.ReadFiles? || b.ReadFiles? then ReadFiles else WriteFiles
  }

  /** Everything not mentioned is `a`'s own, the pinned server among it. */
  function Narrower(a: Grant, b: Grant): Grant {
    a.(scope := MeetScope(a.scope, b.scope), files := MeetFiles(a.files, b.files), readOnly := a.readOnly || b.readOnly,
       expiresAt := MinNullable(a.expiresAt, b.expiresAt), revokedAt := MinNullable(a.revokedAt, b.revokedAt))
  }

  lemma {:induction false} KeepIdsFacts(sessions: seq<PinnedSession>, others: seq<PinnedSession>)
    ensures forall s :: s in KeepIds(sessions, others) <==> s in sessions && HasId(others, s.id)
  {
    if sessions != [] { KeepIdsFacts(sessions[1..], others); }
  }

  lemma {:induction false} KeepCommonFacts(ids: seq<string>, others: seq<string>)
    ensures forall id :: id in KeepCommon(ids, others) <==> id in ids && id in others
  {
    if ids != [] { KeepCommonFacts(ids[1..], others); }
  }

  // ---------------------------------------------------------------------------
  // The policy table
  // ---------------------------------------------------------------------------

  datatype MsgType =
    | Auth | Ping
    | SessionList | SessionCreate | SessionAttach | SessionDetach | SessionKill | SessionRename | SessionWindows
    | TerminalInput | TerminalResize
    | CommandSend | CommandInterrupt | CommandEof | CommandClear | CommandSuspend
    | FileList | FileRead | FileStat | FileWatch | FileUnwatch | FileWrite | FileCreate | FileMkdir | FileDelete | FileRename | FileUpload
    | PaneList | PaneSplit | PaneSelect | PaneZoom | PaneStep | PaneResize | PaneKill | PaneSwap | PaneCapture
    | WindowList | WindowCreate | WindowSelect | WindowStep | WindowKill | WindowRename | WindowLayout | LayoutRotate
    | TmuxPrefix | TmuxCopyMode | TmuxScroll | TmuxScrollTo | TmuxScrollState | TmuxExitCopyMode
    | RecordingStart | RecordingStop | RecordingDelete | RecordingList | RecordingFetch
    | DeviceApprove

  datatype SessionArg = NoArg | Name | OldName

  datatype Policy = Policy(write: bool, files: FileAccess, paneId: bool, windowId: bool, sessionArg: SessionArg, fullScopeOnly: bool, recordingTarget: bool)

  const OPEN := Policy(false, NoFiles, false, false, NoArg, false, false)

  const RECORDINGS_GRANT_ALLOWED: set<MsgType> := {Ping, RecordingList, RecordingFetch}

  function PolicyOf(t: MsgType): Policy {
    match t
    case SessionCreate | DeviceApprove => OPEN.(write := true, fullScopeOnly := true)
    case SessionAttach | SessionWindows => OPEN.(sessionArg := Name)
    case SessionKill => OPEN.(write := true, sessionArg := Name)
    case SessionRename => OPEN.(write := true, fullScopeOnly := true, sessionArg := OldName)
    case FileList | FileRead | FileStat | FileWatch => OPEN.(files := ReadFiles)
    case FileWrite | FileCreate | FileMkdir | FileDelete | FileRename | FileUpload => OPEN.(files := WriteFiles)
    case PaneSelect | PaneResize | PaneKill | PaneSwap => OPEN.(write := true, paneId := true)
    case PaneCapture => OPEN.(paneId := true)
    case WindowSelect | WindowKill | WindowRename => OPEN.(write := true, windowId := true)
    case RecordingStart => OPEN.(write := true, recordingTarget := true)
    case TerminalInput | CommandSend | CommandInterrupt | CommandEof | CommandClear | CommandSuspend
      | PaneSplit | PaneZoom | PaneStep | WindowCreate | WindowStep | WindowLayout | LayoutRotate
      | TmuxPrefix | RecordingStop | RecordingDelete => OPEN.(write := true)
    case _ => OPEN
  }

  // ---------------------------------------------------------------------------
  // The gate
  // ---------------------------------------------------------------------------

  datatype Target = Target(session: Option<string>, paneId: Option<string>)

  /** Only fields that hold a string are there. */
  datatype Message = Message(kind: MsgType, name: Option<string>, oldName: Option<string>, id: Option<string>, target: Option<Target>)

  /** What tmux answers; `None` is a call that failed. */
  datatype Tmux = Tmux(sessions: Option<seq<Session>>, panes: string -> Option<seq<string>>, windows: string -> Option<seq<string>>)

  datatype Context = Context(grant: Grant, attached: Option<string>, serverPid: Option<int>)

  datatype Code = AccessDenied | ReadOnly | SessionNotFound | NotAttached | PaneNotFound | WindowNotFound | InvalidMessage

  datatype Verdict = Permit | Deny(code: Code)

  /** The first listed session of that name. */
  function FindSession(sessions: seq<Session>, name: string): Option<Session> {
    if sessions == [] then None else if sessions[0].name == name then Some(sessions[0]) else FindSession(sessions[1..], name)
  }

  predicate SessionInScope(ctx: Context, tmux: Tmux, name: string) {
    || ctx.grant.scope.All?
    || (tmux.sessions.Some? && FindSession(tmux.sessions.value, name).Some?
        && AllowsSession(ctx.grant, FindSession(tmux.sessions.value, name).value, ctx.serverPid))
  }

  predicate Belongs(listing: string -> Option<seq<string>>, session: string, id: string) {
    listing(session).Some? && id in listing(session).value
  }

  predicate Nowhere(session: Option<string>) {
    session.None? || session.value == ""
  }

  function CheckTarget(ctx: Context, tmux: Tmux, target: Target): Verdict {
    if target.session.Some? && !SessionInScope(ctx, tmux, target.session.value) then Deny(SessionNotFound)
    else if target.paneId.None? || ctx.grant.scope.All? then Permit
    else
      var session := if target.session.Some? then target.session else ctx.attached;
      if Nowhere(session) then Deny(NotAttached)
      else if !Belongs(tmux.panes, session.value, target.paneId.value) then Deny(PaneNotFound)
      else Permit
  }

  function CheckSession(ctx: Context, tmux: Tmux, name: Option<string>): Verdict {
    if name.Some? && !SessionInScope(ctx, tmux, name.value) then Deny(SessionNotFound) else Permit
  }

  function CheckId(ctx: Context, tmux: Tmux, id: Option<string>, pane: bool): Verdict {
    if id.None? then Deny(InvalidMessage)
    else if Nowhere(ctx.attached) then Deny(NotAttached)
    else if !Belongs(if pane then tmux.panes else tmux.windows, ctx.attached.value, id.value) then Deny(if pane then PaneNotFound else WindowNotFound)
    else Permit
  }

  predicate Enough(held: FileAccess, needed: FileAccess) {
    match needed
    case NoFiles => true
    case ReadFiles => !held.NoFiles?
    case WriteFiles => held.WriteFiles?
  }

  function SessionNamed(msg: Message, arg: SessionArg): Option<string> {
    match arg
    case NoArg => None
    case Name => msg.name
    case OldName => msg.oldName
  }

  /** The checks in the order the gate makes them; the first refusal is the answer. */
  function Enforce(ctx: Context, msg: Message, tmux: Tmux, now: int): Verdict {
    var p := PolicyOf(msg.kind);
    var g := ctx.grant;
    if !IsActive(g, now) then Deny(AccessDenied)
    else if g.scope.Recordings? && msg.kind !in RECORDINGS_GRANT_ALLOWED then Deny(AccessDenied)
    else if p.write && g.readOnly then Deny(ReadOnly)
    else if p.fullScopeOnly && !g.scope.All? then Deny(AccessDenied)
    else if !Enough(g.files, p.files) then Deny(AccessDenied)
    else
      var target := if p.recordingTarget && msg.target.Some? then CheckTarget(ctx, tmux, msg.target.value) else Permit;
      if target.Deny? then target
      else
        var session := CheckSession(ctx, tmux, SessionNamed(msg, p.sessionArg));
        if session.Deny? then session
        else if p.paneId || p.windowId then CheckId(ctx, tmux, msg.id, p.paneId)
        else Permit
  }

  predicate Permits(g: Grant, attached: Option<string>, serverPid: Option<int>, msg: Message, tmux: Tmux, now: int) {
    Enforce(Context(g, attached, serverPid), msg, tmux, now).Permit?
  }

  // ---------------------------------------------------------------------------
  // Below a
  // ---------------------------------------------------------------------------

  lemma HasSubset(some: seq<PinnedSession>, all: seq<PinnedSession>, id: string, name: string)
    requires forall s | s in some :: s in all
    ensures HasId(some, id) ==> HasId(all, id)
    ensures HasName(some, name) ==> HasName(all, name)
  {
    if HasId(some, id) {
      var i :| 0 <= i < |some| && some[i].id == id;
      assert some[i] in all;
    }
    if HasName(some, name) {
      var i :| 0 <= i < |some| && some[i].name == name;
      assert some[i] in all;
    }
  }

  lemma SessionsBelowA(a: Grant, b: Grant, s: Session, serverPid: Option<int>)
    ensures AllowsSession(Narrower(a, b), s, serverPid) ==> AllowsSession(a, s, serverPid)
  {
    if a.scope.Sessions? && b.scope.Sessions? {
      KeepIdsFacts(a.scope.sessions, b.scope.sessions);
      HasSubset(KeepIds(a.scope.sessions, b.scope.sessions), a.scope.sessions, if s.id.Some? then s.id.value else "", s.name);
    }
    hide HasId, HasName, KeepIds;
  }

  lemma RecordingsBelowBoth(a: Grant, b: Grant, id: string)
    ensures AllowsRecording(Narrower(a, b), id) ==> AllowsRecording(a, id) && AllowsRecording(b, id)
  {
    if a.scope.Recordings? && b.scope.Recordings? { KeepCommonFacts(a.scope.recordings, b.scope.recordings); }
    hide KeepIds, KeepCommon;
  }

  /** What permission follows from, one grant under another. */
  ghost predicate Below(n: Grant, a: Grant, serverPid: Option<int>, now: int) {
    && (IsActive(n, now) ==> IsActive(a, now))
    && (a.readOnly ==> n.readOnly)
    && (forall need :: Enough(n.files, need) ==> Enough(a.files, need))
    && (n.scope.All? ==> a.scope.All?)
    && (a.scope.Recordings? ==> n.scope.Recordings?)
    && (forall s: Session :: AllowsSession(n, s, serverPid) ==> AllowsSession(a, s, serverPid))
  }

  lemma EnforceIsMonotone(n: Grant, a: Grant, attached: Option<string>, serverPid: Option<int>, msg: Message, tmux: Tmux, now: int)
    requires Below(n, a, serverPid, now) && Permits(n, attached, serverPid, msg, tmux, now)
    ensures Permits(a, attached, serverPid, msg, tmux, now)
  {
    var cn, ca := Context(n, attached, serverPid), Context(a, attached, serverPid);
    forall name ensures SessionInScope(cn, tmux, name) ==> SessionInScope(ca, tmux, name) {
      if tmux.sessions.Some? && FindSession(tmux.sessions.value, name).Some? {
        assert AllowsSession(n, FindSession(tmux.sessions.value, name).value, serverPid) ==> AllowsSession(a, FindSession(tmux.sessions.value, name).value, serverPid);
      }
    }
    assert Enough(n.files, PolicyOf(msg.kind).files) ==> Enough(a.files, PolicyOf(msg.kind).files);
    hide AllowsSession, SessionInScope, IsActive, Enough;
  }

  lemma NarrowerIsBelowA(a: Grant, b: Grant, serverPid: Option<int>, now: int)
    ensures Below(Narrower(a, b), a, serverPid, now)
  {
    forall s: Session ensures AllowsSession(Narrower(a, b), s, serverPid) ==> AllowsSession(a, s, serverPid) { SessionsBelowA(a, b, s, serverPid); }
    hide AllowsSession, KeepIds, KeepCommon;
  }

  /** Main result: whatever the message, the attached session and tmux's answers, what the gate permits under
    * `narrower(a, b)` it permits under `a`. */
  lemma NarrowerPermitsNoMoreThanA(a: Grant, b: Grant, attached: Option<string>, serverPid: Option<int>, msg: Message, tmux: Tmux, now: int)
    ensures Permits(Narrower(a, b), attached, serverPid, msg, tmux, now) ==> Permits(a, attached, serverPid, msg, tmux, now)
  {
    NarrowerIsBelowA(a, b, serverPid, now);
    hide Permits, Narrower, Below;
    if Permits(Narrower(a, b), attached, serverPid, msg, tmux, now) {
      EnforceIsMonotone(Narrower(a, b), a, attached, serverPid, msg, tmux, now);
    }
  }

  /** A recordings grant gets nothing off its allow-list, and never a session. */
  lemma RecordingsGrantIsConfined(g: Grant, attached: Option<string>, serverPid: Option<int>, msg: Message, tmux: Tmux, now: int, s: Session)
    requires g.scope.Recordings?
    ensures Permits(g, attached, serverPid, msg, tmux, now) <==> IsActive(g, now) && msg.kind in RECORDINGS_GRANT_ALLOWED
    ensures !AllowsSession(g, s, serverPid)
  {
  }

  /** A grant narrowed by one after another. */
  function NarrowAll(g: Grant, bs: seq<Grant>): Grant
    decreases |bs|
  {
    if bs == [] then g else NarrowAll(Narrower(g, bs[0]), bs[1..])
  }

  /** Main result: narrowing a grant any number of times, by anything, never gets it a message it had not. */
  lemma {:induction false} NarrowingNeverWidens(g: Grant, bs: seq<Grant>, attached: Option<string>, serverPid: Option<int>, msg: Message, tmux: Tmux, now: int)
    ensures Permits(NarrowAll(g, bs), attached, serverPid, msg, tmux, now) ==> Permits(g, attached, serverPid, msg, tmux, now)
    decreases |bs|
  {
    hide Permits, Narrower;
    if bs != [] {
      NarrowingNeverWidens(Narrower(g, bs[0]), bs[1..], attached, serverPid, msg, tmux, now);
      NarrowerPermitsNoMoreThanA(g, bs[0], attached, serverPid, msg, tmux, now);
    }
  }

  lemma {:induction false} NarrowAllRecordings(g: Grant, bs: seq<Grant>, id: string)
    ensures AllowsRecording(NarrowAll(g, bs), id) ==> AllowsRecording(g, id) && forall b | b in bs :: AllowsRecording(b, id)
    decreases |bs|
  {
    if bs != [] {
      RecordingsBelowBoth(g, bs[0], id);
      hide AllowsRecording, Narrower;
      NarrowAllRecordings(Narrower(g, bs[0]), bs[1..], id);
      assert bs == [bs[0]] + bs[1..];
    }
  }

  /** Main result: a share of recordings, however it is narrowed further, gets no message off the allow-list,
    * nothing once it has ended, and no recording that any of the grants does not name. */
  lemma RecordingsShareStaysConfined(g: Grant, bs: seq<Grant>, attached: Option<string>, serverPid: Option<int>, msg: Message, tmux: Tmux, now: int, id: string)
    requires g.scope.Recordings?
    ensures Permits(NarrowAll(g, bs), attached, serverPid, msg, tmux, now) ==> IsActive(g, now) && msg.kind in RECORDINGS_GRANT_ALLOWED
    ensures AllowsRecording(NarrowAll(g, bs), id) ==> id in g.scope.recordings && forall b | b in bs :: AllowsRecording(b, id)
  {
    NarrowingNeverWidens(g, bs, attached, serverPid, msg, tmux, now);
    RecordingsGrantIsConfined(g, attached, serverPid, msg, tmux, now, Session(None, ""));
    NarrowAllRecordings(g, bs, id);
    hide NarrowAll, Permits;
  }

  // ---------------------------------------------------------------------------
  // Below b, except for names and kinds
  // ---------------------------------------------------------------------------

  /** A share of sessions narrowed by a share of recordings comes out a share of no sessions, which the
    * recordings allow-list does not hold back. */
  predicate KindsAgree(a: Grant, b: Grant) {
    b.scope.Recordings? ==> !a.scope.Sessions?
  }

  /** The name fallback uses `a`'s pinned server and `a`'s names. It can only agree with `b` when it is never
    * taken, when nothing is left to name, or when both were pinned to one server and `b` has the names too. */
  predicate NamesAgree(a: Grant, b: Grant) {
    var n := Narrower(a, b);
    b.scope.Sessions? && n.scope.Sessions? ==>
      || n.scope.sessions == []
      || a.tmuxServerPid.None?
      || (a.tmuxServerPid == b.tmuxServerPid && forall s | s in n.scope.sessions :: HasName(b.scope.sessions, s.name))
  }

  lemma SessionsBelowB(a: Grant, b: Grant, s: Session, serverPid: Option<int>)
    requires NamesAgree(a, b)
    ensures AllowsSession(Narrower(a, b), s, serverPid) ==> AllowsSession(b, s, serverPid)
  {
    var n := Narrower(a, b);
    if b.scope.Sessions? && n.scope.Sessions? && AllowsSession(n, s, serverPid) {
      var kept, others := n.scope.sessions, b.scope.sessions;
      if a.scope.Sessions? { KeepIdsFacts(a.scope.sessions, b.scope.sessions); }
      assert a.scope.All? ==> kept == others;
      hide KeepIds;
      if s.id.Some? && s.id.value != "" && HasId(kept, s.id.value) {
        var i :| 0 <= i < |kept| && kept[i].id == s.id.value;
        assert kept[i] in kept;
        if a.scope.All? { assert others[i].id == s.id.value; }
        assert HasId(others, s.id.value);
      } else {
        assert HasName(kept, s.name);
        var i :| 0 <= i < |kept| && kept[i].name == s.name;
        assert kept[i] in kept;
      }
    }
    hide KeepIds, KeepCommon, HasId, HasName;
  }

  lemma NarrowerIsBelowB(a: Grant, b: Grant, serverPid: Option<int>, now: int)
    requires NamesAgree(a, b) && KindsAgree(a, b)
    ensures Below(Narrower(a, b), b, serverPid, now)
  {
    forall s: Session ensures AllowsSession(Narrower(a, b), s, serverPid) ==> AllowsSession(b, s, serverPid) { SessionsBelowB(a, b, s, serverPid); }
    hide AllowsSession, KeepIds, KeepCommon, NamesAgree;
  }

  const NOTHING := Message(SessionDetach, None, None, None, None)

  function Attach(name: string): Message {
    Message(SessionAttach, Some(name), None, None, None)
  }

  /** A tmux with one session, which carries no id. */
  function OneSession(name: string): Tmux {
    Tmux(Some([Session(None, name)]), s => None, s => None)
  }

  lemma AttachDecides(g: Grant, serverPid: Option<int>, name: string, now: int)
    requires IsActive(g, now) && g.scope.Sessions?
    ensures Permits(g, None, serverPid, Attach(name), OneSession(name), now) <==> AllowsSession(g, Session(None, name), serverPid)
  {
    assert FindSession([Session(None, name)], name) == Some(Session(None, name));
    hide AllowsSession, IsActive;
  }

  /** A name the meet lets in under a server `b` would not. */
  lemma NamesDisagree(a: Grant, b: Grant) returns (name: string, serverPid: Option<int>)
    requires !NamesAgree(a, b)
    ensures AllowsSession(Narrower(a, b), Session(None, name), serverPid) && !AllowsSession(b, Session(None, name), serverPid)
    ensures Narrower(a, b).scope.Sessions? && b.scope.Sessions?
  {
    var n := Narrower(a, b);
    var kept := n.scope.sessions;
    hide KeepIds;
    var pid := a.tmuxServerPid.value;
    if a.tmuxServerPid != b.tmuxServerPid {
      name := kept[0].name;
      serverPid := if b.tmuxServerPid.Some? then b.tmuxServerPid else Some(pid + 1);
      assert HasName(kept, name);
    } else {
      var s :| s in kept && !HasName(b.scope.sessions, s.name);
      name := s.name;
      serverPid := Some(pid + 1);
      var i :| 0 <= i < |kept| && kept[i] == s;
      assert kept[i].name == name;
      assert HasName(kept, name);
    }
  }

  /** Main result: the gate never permits more under `narrower(a, b)` than under `b` exactly when the kinds and
    * the names agree. Otherwise a message and a tmux are named for which it does. */
  lemma NarrowerPermitsNoMoreThanBIff(a: Grant, b: Grant, now: int)
    requires IsActive(Narrower(a, b), now)
    ensures (forall attached, serverPid, msg, tmux ::
               Permits(Narrower(a, b), attached, serverPid, msg, tmux, now) ==> Permits(b, attached, serverPid, msg, tmux, now))
            <==> KindsAgree(a, b) && NamesAgree(a, b)
  {
    var n := Narrower(a, b);
    if KindsAgree(a, b) && NamesAgree(a, b) {
      forall attached, serverPid, msg, tmux | Permits(n, attached, serverPid, msg, tmux, now) ensures Permits(b, attached, serverPid, msg, tmux, now) {
        hide Permits, Below, Narrower, NamesAgree, KindsAgree;
        NarrowerIsBelowB(a, b, serverPid, now);
        EnforceIsMonotone(n, b, attached, serverPid, msg, tmux, now);
      }
    } else if !KindsAgree(a, b) {
      DetachSlipsThrough(a, b, now);
    } else {
      var name, serverPid := NamesDisagree(a, b);
      assert IsActive(b, now);
      hide Permits, Narrower, NamesAgree, AllowsSession;
      AttachDecides(n, serverPid, name, now);
      AttachDecides(b, serverPid, name, now);
      assert !(Permits(n, None, serverPid, Attach(name), OneSession(name), now) ==> Permits(b, None, serverPid, Attach(name), OneSession(name), now));
    }
  }

  lemma DetachSlipsThrough(a: Grant, b: Grant, now: int)
    requires IsActive(Narrower(a, b), now) && !KindsAgree(a, b)
    ensures Permits(Narrower(a, b), None, None, NOTHING, OneSession(""), now) && !Permits(b, None, None, NOTHING, OneSession(""), now)
  {
    hide KeepIds, KeepCommon;
  }
}
