/** What a log says of one workspace, told by the positions of its events alone: which
    session is active, which events count, and the state and kind they leave. */
module AgentMeaning {
  import opened Options
  import opened Agents

  // ----- The active session -----

  /** The position of the last start, or 0 if there is none. */
  function SinceStart(events: seq<Event>): (from: nat)
    ensures from <= |events|
    ensures from < |events| && from > 0 ==> events[from].name == "SessionStart"
    ensures forall i | from < i < |events| :: events[i].name != "SessionStart"
  {
    if events == [] then 0
    else if events[|events| - 1].name == "SessionStart" then |events| - 1
    else SinceStart(events[..|events| - 1])
  }

  /** The session named by the first event from `from` on that names one. */
  function FirstNamed(events: seq<Event>, from: nat): (named: Option<string>)
    requires from <= |events|
    ensures match named
      case None => forall i | from <= i < |events| :: events[i].sessionId.None?
      case Some(s) => exists i | from <= i < |events| ::
        events[i].sessionId == Some(s) && forall j | from <= j < i :: events[j].sessionId.None?
    decreases |events| - from
  {
    if from == |events| then None
    else if events[from].sessionId.Some? then events[from].sessionId
    else FirstNamed(events, from + 1)
  }

  function ActiveSession(events: seq<Event>): Option<string> {
    FirstNamed(events, SinceStart(events))
  }

  lemma {:induction false} FirstNamedSnoc(events: seq<Event>, last: Event, from: nat)
    requires from <= |events|
    ensures FirstNamed(events + [last], from)
         == if FirstNamed(events, from).Some? then FirstNamed(events, from) else last.sessionId
    decreases |events| - from
  {
    if from < |events| {
      FirstNamedSnoc(events, last, from + 1);
    } else {
      assert (events + [last])[from] == last;
      assert last.sessionId.None? ==> FirstNamed(events + [last], from + 1) == None;
    }
  }

  lemma ActiveSessionSnoc(events: seq<Event>, last: Event)
    ensures ActiveSession(events + [last])
         == if last.name == "SessionStart" || ActiveSession(events).None? then last.sessionId else ActiveSession(events)
  {
    var grown := events + [last];
    assert grown[..|events|] == events && grown[|events|] == last;
    if last.name == "SessionStart" {
      assert SinceStart(grown) == |events|;
      assert last.sessionId.None? ==> FirstNamed(grown, |grown|) == None;
    } else {
      assert SinceStart(grown) == SinceStart(events);
      FirstNamedSnoc(events, last, SinceStart(events));
    }
  }

  // ----- The events that count -----

  /** While some session is active, only a start, that session's own events and legacy
      ones with neither a version nor a session count; before, every event does. */
  predicate Counts(active: Option<string>, ev: Event) {
    || ev.name == "SessionStart"
    || active.None?
    || ev.sessionId == active
    || (ev.sessionId.None? && ev.version.None?)
  }

  function Counted(events: seq<Event>): seq<Event> {
    if events == [] then []
    else
      var front, last := events[..|events| - 1], events[|events| - 1];
      Counted(front) + (if Counts(ActiveSession(front), last) then [last] else [])
  }

  function FoldAll(events: seq<Event>): Agent {
    if events == [] then DEFAULT_AGENT else FoldAgent(FoldAll(events[..|events| - 1]), events[|events| - 1])
  }

  lemma StaleIffNotCounted(active: Option<string>, ev: Event)
    ensures IsStale(active, ev) <==> !Counts(active, ev)
  {
  }

  /** The session a workspace follows, and the agent it shows, from its events alone: the
      session is the first one named since its last start, and the agent is folded from
      exactly the events that counted when they came. */
  lemma {:induction false} SessionFoldMeaning(events: seq<Event>)
    ensures SessionFold(UNTRACKED, events) == TrackedAgent(FoldAll(Counted(events)), ActiveSession(events))
  {
    if events == [] {
      assert ActiveSession([]) == None;
    } else {
      var front, last := events[..|events| - 1], events[|events| - 1];
      assert events == front + [last] && [last][1..] == [];
      SessionFoldMeaning(front);
      SessionFoldAppend(UNTRACKED, front, [last]);
      ActiveSessionSnoc(front, last);
      StaleIffNotCounted(ActiveSession(front), last);
      var before := SessionFold(UNTRACKED, front);
      assert SessionFold(UNTRACKED, events) == SessionFold(before, [last]) == RootStep(before, last);
      if Counts(ActiveSession(front), last) {
        assert Counted(events) == Counted(front) + [last];
        assert (Counted(front) + [last])[..|Counted(front)|] == Counted(front);
        assert FoldAll(Counted(events)) == FoldAgent(FoldAll(Counted(front)), last);
      } else {
        assert Counted(events) == Counted(front) + [] == Counted(front);
      }
      hide ActiveSession, FoldAgent, IsStale, Counts, SessionFold, Counted, FoldAll;
    }
  }

  /** The same for a workspace of any log. */
  lemma WorkspaceMeaning(canon: string -> string, log: seq<Event>, key: string)
    ensures var own := EventsAt(canon, key, RootPart(map[], log));
      TrackedAt(Replay(canon, log), key) == TrackedAgent(FoldAll(Counted(own)), ActiveSession(own))
  {
    WorkspaceProjection(canon, log, key);
    SessionFoldMeaning(EventsAt(canon, key, RootPart(map[], log)));
  }

  // ----- The state and the kind they leave -----

  /** The state set by the last event that sets one, after which attention that was asked
      for is given by the next tool result. */
  function StateLeft(events: seq<Event>): AgentState {
    if events == [] then Absent
    else
      match ChangeOf(events[|events| - 1])
      case Sets(state) => state
      case Keeps => StateLeft(events[..|events| - 1])
      case Resumes =>
        var before := StateLeft(events[..|events| - 1]);
        if before == NeedsAttention then Working else before
  }

  predicate SetsState(ev: Event) {
    ChangeOf(ev).Sets?
  }

  lemma {:induction false} FoldAllState(events: seq<Event>)
    ensures FoldAll(events).state == StateLeft(events)
  {
    if events != [] {
      var front, last := events[..|events| - 1], events[|events| - 1];
      FoldAllState(front);
      TransitionIsChange(FoldAll(front).state, last);
      hide Transition, ChangeOf, RetagsKind, EventKind;
    }
  }

  /** By position: the last event that sets a state decides it, and a request for
      attention stands until a tool result comes after it. */
  lemma {:induction false} StateMeaning(events: seq<Event>, k: nat)
    requires k < |events| && SetsState(events[k])
    requires forall i | k < i < |events| :: !SetsState(events[i])
    ensures FoldAll(events).state
         == if ChangeOf(events[k]).state == NeedsAttention && exists i | k < i < |events| :: ChangeOf(events[i]).Resumes?
            then Working else ChangeOf(events[k]).state
  {
    FoldAllState(events);
    StateLeftMeaning(events, k);
  }

  lemma {:induction false} StateLeftMeaning(events: seq<Event>, k: nat)
    requires k < |events| && SetsState(events[k])
    requires forall i | k < i < |events| :: !SetsState(events[i])
    ensures StateLeft(events)
         == if ChangeOf(events[k]).state == NeedsAttention && exists i | k < i < |events| :: ChangeOf(events[i]).Resumes?
            then Working else ChangeOf(events[k]).state
    decreases |events|
  {
    hide ChangeOf;
    var front, last := events[..|events| - 1], events[|events| - 1];
    if k < |front| {
      assert forall i | 0 <= i < |front| :: front[i] == events[i];
      StateLeftMeaning(front, k);
      assert !SetsState(last);
      assert (exists i | k < i < |events| :: ChangeOf(events[i]).Resumes?)
        <==> ChangeOf(last).Resumes? || exists i | k < i < |front| :: ChangeOf(front[i]).Resumes?;
    }
  }

  /** Nothing is known of an agent until an event sets a state. */
  lemma {:induction false} UnsetIsAbsent(events: seq<Event>)
    requires forall i | 0 <= i < |events| :: !SetsState(events[i])
    ensures FoldAll(events).state == Absent
  {
    if events != [] {
      var front, last := events[..|events| - 1], events[|events| - 1];
      UnsetIsAbsent(front);
      TransitionIsChange(FoldAll(front).state, last);
      assert !SetsState(last);
      hide ChangeOf, Transition;
    }
  }

  predicate LiesUnder(ev: Event, part: string) {
    ev.agentKind.None? && ev.transcriptPath.Some? && Contains(ev.transcriptPath.value, part)
  }

  predicate Names(ev: Event, kind: AgentKind) {
    match kind
    case OpenCode => ev.agentKind == Some("opencode")
    case Claude => ev.agentKind == Some("claude") || LiesUnder(ev, "/.claude/")
    case Codex => ev.agentKind == Some("codex") || (LiesUnder(ev, "/.codex/") && !LiesUnder(ev, "/.claude/"))
    case Unknown => false
  }

  /** The kind an event speaks of: by a name it knows, else by where its transcript lies. */
  predicate Kinds(ev: Event, kind: AgentKind) {
    Names(ev, kind) || (kind == Unknown && !Names(ev, OpenCode) && !Names(ev, Claude) && !Names(ev, Codex))
  }

  predicate SetsKind(ev: Event) {
    !Kinds(ev, Unknown) || (ev.name == "SessionStart" && ev.version.Some?)
  }

  lemma KindsMeaning(ev: Event, kind: AgentKind)
    ensures Kinds(ev, kind) <==> EventKind(ev) == kind
    ensures SetsKind(ev) <==> RetagsKind(ev)
  {
    assert |"claude"| == 6 && |"codex"| == 5 && |"opencode"| == 8;
    hide Contains;
    assert EventKind(ev) != Unknown <==> Names(ev, OpenCode) || Names(ev, Claude) || Names(ev, Codex);
  }

  /** The kind is the last one set, or unknown. */
  lemma {:induction false} KindMeaning(events: seq<Event>, k: nat)
    requires k <= |events| && (k < |events| ==> SetsKind(events[k]))
    requires forall i | 0 <= i < |events| && (k == |events| || i > k) :: !SetsKind(events[i])
    ensures if k == |events| then FoldAll(events).kind == Unknown else Kinds(events[k], FoldAll(events).kind)
    decreases |events|
  {
    if events != [] {
      var front, last := events[..|events| - 1], events[|events| - 1];
      KindsMeaning(last, FoldAll(events).kind);
      hide Kinds, SetsKind, EventKind, RetagsKind, Transition;
      if k < |events| - 1 {
        KindMeaning(front, k);
      } else if k == |events| {
        KindMeaning(front, |front|);
      }
    }
  }

  // ----- A child's agent -----

  /** A child's own events: those of its session from the first that names a parent on. */
  function ChildEvents(log: seq<Event>, s: string): seq<Event> {
    if log == [] then []
    else
      var front, last := log[..|log| - 1], log[|log| - 1];
      ChildEvents(front, s)
      + (if SessionOf(last) == Some(s) && (ParentOf(last).Some? || EverChild(front, s)) then [last] else [])
  }

  lemma ReplaySnoc(canon: string -> string, front: seq<Event>, last: Event)
    ensures Replay(canon, front + [last]) == Apply(canon, Replay(canon, front), last)
  {
    ContinueAppend(canon, EMPTY_FOLD, front, [last]);
    assert [last][1..] == [];
  }

  /** A child's agent is folded from all of them, in order: no record of a child is ever
      taken for stale. */
  lemma {:induction false} ChildMeaning(canon: string -> string, log: seq<Event>, s: string)
    ensures var children := Replay(canon, log).children;
      if s in children then children[s].agent == FoldAll(ChildEvents(log, s)) else ChildEvents(log, s) == []
  {
    if log == [] {
      assert Replay(canon, log) == EMPTY_FOLD;
    } else {
      var front, last := log[..|log| - 1], log[|log| - 1];
      assert log == front + [last];
      ChildMeaning(canon, front, s);
      ReplaySnoc(canon, front, last);
      ChildIffParentNamed(canon, EMPTY_FOLD, front, s);
      var before := Replay(canon, front);
      ApplyAtChild(canon, before, last, s);
      FoldAllSnoc(ChildEvents(front, s), last);
      hide Replay, EverChild, FoldAgent, Apply, FoldAll;
      assert ChildEvents(front, s) + [] == ChildEvents(front, s);
    }
  }

  lemma FoldAllSnoc(events: seq<Event>, last: Event)
    ensures FoldAll(events + [last]) == FoldAgent(FoldAll(events), last)
    ensures FoldAll([]) == DEFAULT_AGENT
  {
    assert (events + [last])[..|events|] == events;
  }

  lemma ApplyAtChild(canon: string -> string, st: Fold, ev: Event, s: string)
    ensures var before, after := st.children, Apply(canon, st, ev).children;
      if SessionOf(ev) == Some(s) && RoutesToChild(before, ev) then
        s in after && after[s].agent == FoldAgent(if s in before then before[s].agent else DEFAULT_AGENT, ev)
      else (s in after <==> s in before) && (s in after ==> after[s] == before[s])
  {
    hide FoldAgent;
  }
}
