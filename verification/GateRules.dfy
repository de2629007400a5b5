/** What the message gate must answer, told message by message (apps/relay/src/policy.ts, apps/relay/src/grant.ts). */
module GateRules {
  import opened Options
  import opened Grants

  // ---------------------------------------------------------------------------
  // The rules, type by type
  // ---------------------------------------------------------------------------

  /** What changes the machine, its sessions, its panes or its recordings. */
  predicate Writes(t: MsgType) {
    match t
    case SessionCreate | SessionKill | SessionRename | TerminalInput | CommandSend | CommandInterrupt |
      CommandEof | CommandClear | CommandSuspend | PaneSplit | PaneSelect | PaneZoom | PaneStep |
      PaneResize | PaneKill | PaneSwap | WindowCreate | WindowSelect | WindowStep | WindowKill |
      WindowRename | WindowLayout | LayoutRotate | TmuxPrefix | RecordingStart | RecordingStop |
      RecordingDelete | DeviceApprove => true
    case _ => false
  }

  predicate FullOnly(t: MsgType) {
    match t
    case SessionCreate | SessionRename | DeviceApprove => true
    case _ => false
  }

  predicate ReadsFiles(t: MsgType) {
    match t
    case FileList | FileRead | FileStat | FileWatch => true
    case _ => false
  }

  predicate WritesFiles(t: MsgType) {
    match t
    case FileWrite | FileCreate | FileMkdir | FileDelete | FileRename | FileUpload => true
    case _ => false
  }

  predicate NamesASession(t: MsgType) {
    match t
    case SessionAttach | SessionWindows | SessionKill => true
    case _ => false
  }

  predicate NamesAPane(t: MsgType) {
    match t
    case PaneSelect | PaneResize | PaneKill | PaneSwap | PaneCapture => true
    case _ => false
  }

  predicate NamesAWindow(t: MsgType) {
    match t
    case WindowSelect | WindowKill | WindowRename => true
    case _ => false
  }

  predicate ForRecordings(t: MsgType) {
    match t
    case Ping | RecordingList | RecordingFetch => true
    case _ => false
  }

  /** The grant reaches the session by its id or, on another tmux server than it was pinned to, by its name. */
  predicate Reaches(g: Grant, s: Session, serverPid: Option<int>) {
    || g.scope.All?
    || (g.scope.Sessions? && s.id.Some? && s.id.value != "" && exists p | p in g.scope.sessions :: p.id == s.id.value)
    || (g.scope.Sessions? && g.tmuxServerPid.Some? && serverPid.Some? && g.tmuxServerPid.value != serverPid.value
        && exists p | p in g.scope.sessions :: p.name == s.name)
  }

  /** The session of this name that tmux lists first is within reach; everything is within a full grant's. */
  predicate NameInReach(g: Grant, name: string, serverPid: Option<int>, tmux: Tmux) {
    || g.scope.All?
    || (tmux.sessions.Some? && exists i | 0 <= i < |tmux.sessions.value| ::
          && tmux.sessions.value[i].name == name && Reaches(g, tmux.sessions.value[i], serverPid)
          && forall j | 0 <= j < i :: tmux.sessions.value[j].name != name)
  }

  /** A session is named, and tmux lists this pane, or window, in it. */
  predicate In(listing: string -> Option<seq<string>>, session: Option<string>, id: string) {
    session.Some? && session.value != "" && listing(session.value).Some? && id in listing(session.value).value
  }

  /** A recording's target: its session within reach, and its pane in that session or in the one attached. */
  predicate TargetInReach(g: Grant, attached: Option<string>, serverPid: Option<int>, target: Target, tmux: Tmux) {
    && (target.session.Some? ==> NameInReach(g, target.session.value, serverPid, tmux))
    && (target.paneId.Some? && !g.scope.All? ==> In(tmux.panes, if target.session.Some? then target.session else attached, target.paneId.value))
  }

  /** Everything that must hold of a message for it to go through. */
  predicate Meets(g: Grant, attached: Option<string>, serverPid: Option<int>, msg: Message, tmux: Tmux, now: int) {
    && g.revokedAt.None? && (g.expiresAt.Some? ==> now < g.expiresAt.value)
    && (g.scope.Recordings? ==> ForRecordings(msg.kind))
    && (Writes(msg.kind) ==> !g.readOnly)
    && (FullOnly(msg.kind) ==> g.scope.All?)
    && (ReadsFiles(msg.kind) ==> g.files.ReadFiles? || g.files.WriteFiles?)
    && (WritesFiles(msg.kind) ==> g.files.WriteFiles?)
    && (msg.kind == RecordingStart && msg.target.Some? ==> TargetInReach(g, attached, serverPid, msg.target.value, tmux))
    && (NamesASession(msg.kind) && msg.name.Some? ==> NameInReach(g, msg.name.value, serverPid, tmux))
    && (msg.kind == SessionRename && msg.oldName.Some? ==> NameInReach(g, msg.oldName.value, serverPid, tmux))
    && (NamesAPane(msg.kind) ==> msg.id.Some? && In(tmux.panes, attached, msg.id.value))
    && (NamesAWindow(msg.kind) ==> msg.id.Some? && In(tmux.windows, attached, msg.id.value))
  }

  // ---------------------------------------------------------------------------
  // The gate answers by them
  // ---------------------------------------------------------------------------

  lemma ReachIsAllowed(g: Grant, s: Session, serverPid: Option<int>)
    ensures Reaches(g, s, serverPid) <==> AllowsSession(g, s, serverPid)
  {
    if g.scope.Sessions? {
      var all := g.scope.sessions;
      if s.id.Some? {
        assert HasId(all, s.id.value) <==> exists p | p in all :: p.id == s.id.value by {
          if p :| p in all && p.id == s.id.value { var i :| 0 <= i < |all| && all[i] == p; }
          if HasId(all, s.id.value) { var i :| 0 <= i < |all| && all[i].id == s.id.value; assert all[i] in all; }
        }
      }
      assert HasName(all, s.name) <==> exists p | p in all :: p.name == s.name by {
        if p :| p in all && p.name == s.name { var i :| 0 <= i < |all| && all[i] == p; }
        if HasName(all, s.name) { var i :| 0 <= i < |all| && all[i].name == s.name; assert all[i] in all; }
      }
    }
  }

  lemma {:induction false} FoundIsFirst(sessions: seq<Session>, name: string)
    ensures FindSession(sessions, name).Some? <==> exists i | 0 <= i < |sessions| :: sessions[i].name == name
    ensures forall i | 0 <= i < |sessions| && sessions[i].name == name && (forall j | 0 <= j < i :: sessions[j].name != name) ::
              FindSession(sessions, name) == Some(sessions[i])
    ensures FindSession(sessions, name).Some? ==> exists i | 0 <= i < |sessions| ::
              sessions[i] == FindSession(sessions, name).value && sessions[i].name == name && forall j | 0 <= j < i :: sessions[j].name != name
  {
    if sessions == [] {
    } else if sessions[0].name == name {
      assert sessions[0] == FindSession(sessions, name).value;
    } else {
      var rest := sessions[1..];
      FoundIsFirst(rest, name);
      assert forall i | 0 <= i < |rest| :: rest[i] == sessions[i + 1];
      forall i | 0 <= i < |sessions| && sessions[i].name == name && (forall j | 0 <= j < i :: sessions[j].name != name)
        ensures FindSession(sessions, name) == Some(sessions[i])
      {
        assert rest[i - 1].name == name && forall j | 0 <= j < i - 1 :: rest[j].name != name by {
          forall j | 0 <= j < i - 1 ensures rest[j].name != name { assert rest[j] == sessions[j + 1]; }
        }
      }
      if FindSession(sessions, name).Some? {
        var i :| 0 <= i < |rest| && rest[i] == FindSession(rest, name).value && rest[i].name == name && forall j | 0 <= j < i :: rest[j].name != name;
        assert sessions[i + 1] == rest[i];
        forall j | 0 <= j < i + 1 ensures sessions[j].name != name { if j > 0 { assert sessions[j] == rest[j - 1]; } }
      }
    }
  }

  lemma ReachByName(ctx: Context, tmux: Tmux, name: string)
    ensures NameInReach(ctx.grant, name, ctx.serverPid, tmux) <==> SessionInScope(ctx, tmux, name)
  {
    if !ctx.grant.scope.All? && tmux.sessions.Some? {
      var all := tmux.sessions.value;
      FoundIsFirst(all, name);
      hide FindSession, Reaches, AllowsSession;
      if FindSession(all, name).Some? { ReachIsAllowed(ctx.grant, FindSession(all, name).value, ctx.serverPid); }
      if NameInReach(ctx.grant, name, ctx.serverPid, tmux) {
        var i :| 0 <= i < |all| && all[i].name == name && Reaches(ctx.grant, all[i], ctx.serverPid) && forall j | 0 <= j < i :: all[j].name != name;
        assert FindSession(all, name) == Some(all[i]);
      }
    }
  }

  lemma TargetIsChecked(ctx: Context, tmux: Tmux, target: Target)
    ensures CheckTarget(ctx, tmux, target).Permit? <==> TargetInReach(ctx.grant, ctx.attached, ctx.serverPid, target, tmux)
  {
    if target.session.Some? { ReachByName(ctx, tmux, target.session.value); }
    hide NameInReach, SessionInScope;
  }

  lemma WriteColumn(t: MsgType)
    ensures PolicyOf(t).write <==> Writes(t)
  {
  }

  lemma ScopeColumn(t: MsgType)
    ensures (PolicyOf(t).fullScopeOnly <==> FullOnly(t)) && (PolicyOf(t).recordingTarget <==> t == RecordingStart)
  {
  }

  lemma FileColumn(t: MsgType)
    ensures (PolicyOf(t).files.ReadFiles? <==> ReadsFiles(t)) && (PolicyOf(t).files.WriteFiles? <==> WritesFiles(t))
  {
  }

  lemma SessionColumn(t: MsgType)
    ensures (PolicyOf(t).sessionArg.Name? <==> NamesASession(t)) && (PolicyOf(t).sessionArg.OldName? <==> t == SessionRename)
  {
  }

  lemma TargetColumns(t: MsgType)
    ensures (PolicyOf(t).paneId <==> NamesAPane(t)) && (PolicyOf(t).windowId <==> NamesAWindow(t))
  {
  }

  lemma RecordingsList(t: MsgType)
    ensures (t in RECORDINGS_GRANT_ALLOWED <==> ForRecordings(t)) && (ForRecordings(t) ==> !Writes(t) && !FullOnly(t))
  {
  }

  /** The table, column by column, is these sets. */
  lemma TableIsTheRules(t: MsgType)
    ensures var p := PolicyOf(t);
            && (p.write <==> Writes(t)) && (p.fullScopeOnly <==> FullOnly(t))
            && (p.files.ReadFiles? <==> ReadsFiles(t)) && (p.files.WriteFiles? <==> WritesFiles(t))
            && (p.recordingTarget <==> t == RecordingStart)
            && (p.sessionArg.Name? <==> NamesASession(t)) && (p.sessionArg.OldName? <==> t == SessionRename)
            && (p.paneId <==> NamesAPane(t)) && (p.windowId <==> NamesAWindow(t))
            && (t in RECORDINGS_GRANT_ALLOWED <==> ForRecordings(t))
  {
    hide PolicyOf, Writes, FullOnly, ReadsFiles, WritesFiles, NamesASession, NamesAPane, NamesAWindow, ForRecordings;
    WriteColumn(t);
    ScopeColumn(t);
    FileColumn(t);
    SessionColumn(t);
    TargetColumns(t);
    RecordingsList(t);
  }

  lemma IdIsChecked(ctx: Context, tmux: Tmux, id: Option<string>, pane: bool)
    ensures CheckId(ctx, tmux, id, pane).Permit? <==> id.Some? && In(if pane then tmux.panes else tmux.windows, ctx.attached, id.value)
  {
  }

  /** Main result: the gate permits exactly the messages that meet the rules. */
  lemma GateIsExact(g: Grant, attached: Option<string>, serverPid: Option<int>, msg: Message, tmux: Tmux, now: int)
    ensures Permits(g, attached, serverPid, msg, tmux, now) <==> Meets(g, attached, serverPid, msg, tmux, now)
  {
    hide PolicyOf, Writes, FullOnly, ReadsFiles, WritesFiles, NamesASession, NamesAPane, NamesAWindow, ForRecordings, In, CheckId,
      NameInReach, SessionInScope, TargetInReach, CheckTarget;
    var ctx := Context(g, attached, serverPid);
    TableIsTheRules(msg.kind);
    if msg.target.Some? { TargetIsChecked(ctx, tmux, msg.target.value); }
    if msg.name.Some? { ReachByName(ctx, tmux, msg.name.value); }
    if msg.oldName.Some? { ReachByName(ctx, tmux, msg.oldName.value); }
    IdIsChecked(ctx, tmux, msg.id, NamesAPane(msg.kind));
    PaneOrWindow(msg.kind);
  }

  lemma PaneOrWindow(t: MsgType)
    ensures NamesAPane(t) ==> !NamesAWindow(t)
  {
  }

  /** Main result: a name out of a share's reach is answered just as a name tmux does not list, so the answers tell
    * a holder nothing about which sessions there are. */
  lemma HiddenLooksMissing(g: Grant, attached: Option<string>, serverPid: Option<int>, msg: Message, tmux: Tmux, now: int, hidden: string, missing: string)
    requires NamesASession(msg.kind) && !NameInReach(g, hidden, serverPid, tmux)
    requires tmux.sessions.Some? && forall i | 0 <= i < |tmux.sessions.value| :: tmux.sessions.value[i].name != missing
    ensures var ctx := Context(g, attached, serverPid);
            Enforce(ctx, msg.(name := Some(hidden)), tmux, now) == Enforce(ctx, msg.(name := Some(missing)), tmux, now)
  {
    var ctx := Context(g, attached, serverPid);
    ReachByName(ctx, tmux, hidden);
    ReachByName(ctx, tmux, missing);
    assert !g.scope.All? ==> !NameInReach(g, missing, serverPid, tmux);
    hide NameInReach, SessionInScope;
  }

  /** Which refusal is given first: an ended share, a message not for recordings, a read-only share, a share too small. */
  lemma FirstRefusal(g: Grant, attached: Option<string>, serverPid: Option<int>, msg: Message, tmux: Tmux, now: int)
    ensures var v := Enforce(Context(g, attached, serverPid), msg, tmux, now);
            var active := g.revokedAt.None? && (g.expiresAt.Some? ==> now < g.expiresAt.value);
            && (!active || (g.scope.Recordings? && !ForRecordings(msg.kind)) ==> v == Deny(AccessDenied))
            && (active && !g.scope.Recordings? && Writes(msg.kind) && g.readOnly <==> v == Deny(ReadOnly))
            && (active && !g.scope.Recordings? && !g.readOnly && FullOnly(msg.kind) && !g.scope.All? ==> v == Deny(AccessDenied))
  {
    TableIsTheRules(msg.kind);
    RecordingsList(msg.kind);
    hide PolicyOf, Writes, FullOnly, ReadsFiles, WritesFiles, NamesASession, NamesAPane, NamesAWindow, ForRecordings, SessionInScope, CheckTarget, CheckId;
    if msg.target.Some? { TargetSaysNoReadOnly(Context(g, attached, serverPid), tmux, msg.target.value); }
    IdSaysNoReadOnly(Context(g, attached, serverPid), tmux, msg.id, PolicyOf(msg.kind).paneId);
  }

  lemma TargetSaysNoReadOnly(ctx: Context, tmux: Tmux, target: Target)
    ensures CheckTarget(ctx, tmux, target) != Deny(ReadOnly)
  {
    hide SessionInScope;
  }

  lemma IdSaysNoReadOnly(ctx: Context, tmux: Tmux, id: Option<string>, pane: bool)
    ensures CheckId(ctx, tmux, id, pane) != Deny(ReadOnly)
  {
  }

  // ---------------------------------------------------------------------------
  // Narrowing takes no more than it must
  // ---------------------------------------------------------------------------

  /** By id alone, leaving out the name fallback. */
  predicate ReachesById(g: Grant, id: string) {
    g.scope.All? || (g.scope.Sessions? && exists p | p in g.scope.sessions :: p.id == id)
  }

  /** Main result: what two grants both give, their meet gives: on time, writing, files, recordings and session ids it
    * is exactly the conjunction. */
  lemma MeetIsExact(a: Grant, b: Grant, now: int, need: FileAccess, id: string)
    ensures var n := Narrower(a, b);
            && (IsActive(n, now) <==> IsActive(a, now) && IsActive(b, now))
            && (!n.readOnly <==> !a.readOnly && !b.readOnly)
            && (Enough(n.files, need) <==> Enough(a.files, need) && Enough(b.files, need))
            && (AllowsRecording(n, id) <==> AllowsRecording(a, id) && AllowsRecording(b, id))
            && (ReachesById(n, id) <==> ReachesById(a, id) && ReachesById(b, id))
            && (n.scope.All? <==> a.scope.All? && b.scope.All?)
  {
    if a.scope.Sessions? && b.scope.Sessions? { MeetOfSessions(a, b, id); }
    if a.scope.Recordings? && b.scope.Recordings? { KeepCommonFacts(a.scope.recordings, b.scope.recordings); }
    hide KeepIds, KeepCommon;
  }

  lemma MeetOfSessions(a: Grant, b: Grant, id: string)
    requires a.scope.Sessions? && b.scope.Sessions?
    ensures ReachesById(Narrower(a, b), id) <==> ReachesById(a, id) && ReachesById(b, id)
  {
    var mine, theirs := a.scope.sessions, b.scope.sessions;
    KeepIdsFacts(mine, theirs);
    hide KeepIds;
    if ReachesById(a, id) && ReachesById(b, id) {
      var p :| p in mine && p.id == id;
      var q :| q in theirs && q.id == id;
      var i :| 0 <= i < |theirs| && theirs[i] == q;
      assert HasId(theirs, p.id);
      assert p in KeepIds(mine, theirs);
    }
    if ReachesById(Narrower(a, b), id) {
      var p :| p in KeepIds(mine, theirs) && p.id == id;
      var i :| 0 <= i < |theirs| && theirs[i].id == p.id;
      assert theirs[i] in theirs;
    }
  }
}
