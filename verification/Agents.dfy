/** The agent lifecycle fold of src/agent.rs.

    An append-only log of hook events is folded into two axes: one agent per
    workspace, and one record per child session. `Fold` and the functions over it
    are the specification; `AgentLog.dfy` holds the class that updates the maps in
    place. Canonicalisation of a path is a fixed function, given as `canon`. */
module Agents {
  import opened Options

  datatype AgentState = Absent | Working | Waiting | NeedsAttention | QuotaBlocked | Ended

  datatype AgentKind = Unknown | Claude | Codex | OpenCode

  datatype Agent = Agent(state: AgentState, kind: AgentKind)

  const DEFAULT_AGENT := Agent(Absent, Unknown)

  datatype Event = Event(
    name: string,
    cwd: string,
    transcriptPath: Option<string>,
    version: Option<nat>,
    agentKind: Option<string>,
    sessionId: Option<string>,
    parentId: Option<string>,
    notificationType: Option<string>,
    error: Option<string>)

  datatype TrackedAgent = TrackedAgent(agent: Agent, sessionId: Option<string>)

  const UNTRACKED := TrackedAgent(DEFAULT_AGENT, None)

  datatype ChildSession = ChildSession(sessionId: string, parentId: string, agent: Agent)

  type Children = map<string, ChildSession>

  datatype Fold = Fold(states: map<string, TrackedAgent>, children: Children)

  const EMPTY_FOLD := Fold(map[], map[])

  // ----- One event -----

  predicate Contains(s: string, part: string) {
    exists i | 0 <= i <= |s| :: part <= s[i..]
  }

  function KindFromName(name: string): AgentKind {
    if name == "claude" then Claude
    else if name == "codex" then Codex
    else if name == "opencode" then OpenCode
    else Unknown
  }

  function KindFromTranscriptPath(path: string): AgentKind {
    if Contains(path, "/.claude/") then Claude
    else if Contains(path, "/.codex/") then Codex
    else Unknown
  }

  function EventKind(ev: Event): AgentKind {
    match ev.agentKind
    case Some(name) => KindFromName(name)
    case None =>
      match ev.transcriptPath
      case Some(path) => KindFromTranscriptPath(path)
      case None => Unknown
  }

  predicate IsStart(ev: Event) {
    ev.name == "SessionStart"
  }

  /** A versioned start always sets the kind, and so does an event naming one. */
  predicate RetagsKind(ev: Event) {
    (IsStart(ev) && ev.version.Some?) || EventKind(ev) != Unknown
  }

  function Transition(current: AgentState, ev: Event): AgentState {
    if ev.name == "Notification" then NotificationTransition(current, ev.notificationType)
    else if ev.name == "StopFailure" then StopFailureTransition(ev.error)
    else TransitionByName(current, ev.name)
  }

  function NotificationTransition(current: AgentState, notificationType: Option<string>): AgentState {
    if notificationType == Some("agent_needs_input") then NeedsAttention else current
  }

  function StopFailureTransition(error: Option<string>): AgentState {
    if error == Some("rate_limit") || error == Some("billing_error") then QuotaBlocked else Waiting
  }

  function TransitionByName(current: AgentState, name: string): AgentState {
    if name == "SessionStart" then Waiting
    else if name == "UserPromptSubmit" then Working
    else if name == "Stop" || name == "StopFailure" then Waiting
    else if name == "Interrupt" then Waiting
    else if name == "PermissionRequest" then NeedsAttention
    else if name == "SessionEnd" then Ended
    else if (name == "PostToolUse" || name == "PostToolUseFailure") && current == NeedsAttention then Working
    else current
  }

  function FoldAgent(agent: Agent, ev: Event): Agent {
    Agent(Transition(agent.state, ev), if RetagsKind(ev) then EventKind(ev) else agent.kind)
  }

  /** The session an event is about; an empty identity is no identity. */
  function SessionOf(ev: Event): Option<string> {
    if ev.sessionId.Some? && ev.sessionId.value != "" then ev.sessionId else None
  }

  function ParentOf(ev: Event): Option<string> {
    if ev.parentId.Some? && ev.parentId.value != "" then ev.parentId else None
  }

  predicate RoutesToChild(children: Children, ev: Event) {
    SessionOf(ev).Some? && (ParentOf(ev).Some? || SessionOf(ev).value in children)
  }

  function ChildStep(children: Children, ev: Event): Children
    requires RoutesToChild(children, ev)
  {
    var session := SessionOf(ev).value;
    var known := session in children;
    var parent := if ParentOf(ev).Some? then ParentOf(ev).value else children[session].parentId;
    var agent := if known then children[session].agent else DEFAULT_AGENT;
    children[session := ChildSession(session, parent, FoldAgent(agent, ev))]
  }

  /** A delayed record of a session that is not the active one. */
  predicate IsStale(active: Option<string>, ev: Event) {
    && active.Some?
    && !IsStart(ev)
    && (if ev.sessionId.Some? then ev.sessionId != active else ev.version.Some?)
  }

  function NextSession(active: Option<string>, ev: Event): Option<string> {
    if IsStart(ev) || active.None? then ev.sessionId else active
  }

  /** One workspace's agent advanced by one event of its own. */
  function RootStep(tracked: TrackedAgent, ev: Event): TrackedAgent {
    if IsStale(tracked.sessionId, ev) then tracked
    else TrackedAgent(FoldAgent(tracked.agent, ev), NextSession(tracked.sessionId, ev))
  }

  function TrackedAt(st: Fold, key: string): TrackedAgent {
    if key in st.states then st.states[key] else UNTRACKED
  }

  function Apply(canon: string -> string, st: Fold, ev: Event): Fold {
    if RoutesToChild(st.children, ev) then st.(children := ChildStep(st.children, ev))
    else
      var key := canon(ev.cwd);
      st.(states := st.states[key := RootStep(TrackedAt(st, key), ev)])
  }

  /** The fold of a log onto a state reached earlier. */
  function Continue(canon: string -> string, st: Fold, log: seq<Event>): Fold
    decreases |log|
  {
    if log == [] then st else Continue(canon, Apply(canon, st, log[0]), log[1..])
  }

  function Replay(canon: string -> string, log: seq<Event>): Fold {
    Continue(canon, EMPTY_FOLD, log)
  }

  lemma {:induction false} ContinueAppend(canon: string -> string, st: Fold, a: seq<Event>, b: seq<Event>)
    ensures Continue(canon, st, a + b) == Continue(canon, Continue(canon, st, a), b)
    decreases |a|
  {
    if a == [] {
      assert a + b == b;
    } else {
      assert (a + b)[1..] == a[1..] + b;
      ContinueAppend(canon, Apply(canon, st, a[0]), a[1..], b);
    }
  }

  // ----- Non-interference of the two axes -----

  /** The child-routed events of a log, where routing depends on the child map as
      it evolves over the log. */
  function ChildPart(children: Children, log: seq<Event>): seq<Event>
    decreases |log|
  {
    if log == [] then []
    else if RoutesToChild(children, log[0]) then
      [log[0]] + ChildPart(ChildStep(children, log[0]), log[1..])
    else ChildPart(children, log[1..])
  }

  /** The events of a log that reach a workspace's agent. */
  function RootPart(children: Children, log: seq<Event>): seq<Event>
    decreases |log|
  {
    if log == [] then []
    else if RoutesToChild(children, log[0]) then RootPart(ChildStep(children, log[0]), log[1..])
    else [log[0]] + RootPart(children, log[1..])
  }

  /** The workspace map is the one replayed without any child-routed event. */
  lemma {:induction false} WorkspacesIgnoreChildren(
    canon: string -> string, st: Fold, alone: Fold, log: seq<Event>)
    requires alone.children == map[] && alone.states == st.states
    ensures Continue(canon, alone, RootPart(st.children, log)).states == Continue(canon, st, log).states
    ensures Continue(canon, alone, RootPart(st.children, log)).children == map[]
    decreases |log|
  {
    if log != [] {
      var ev := log[0];
      var next := Apply(canon, st, ev);
      if RoutesToChild(st.children, ev) {
        WorkspacesIgnoreChildren(canon, next, alone, log[1..]);
      } else {
        var kept := RootPart(st.children, log);
        assert kept[0] == ev && kept[1..] == RootPart(st.children, log[1..]);
        WorkspacesIgnoreChildren(canon, next, Apply(canon, alone, ev), log[1..]);
      }
    }
  }

  /** The child map is the one replayed from the child-routed events alone. */
  lemma {:induction false} ChildrenIgnoreWorkspaces(
    canon: string -> string, st: Fold, alone: Fold, log: seq<Event>)
    requires alone.children == st.children
    ensures Continue(canon, alone, ChildPart(st.children, log)).children == Continue(canon, st, log).children
    ensures Continue(canon, alone, ChildPart(st.children, log)).states == alone.states
    decreases |log|
  {
    if log != [] {
      var ev := log[0];
      var next := Apply(canon, st, ev);
      if RoutesToChild(st.children, ev) {
        var kept := ChildPart(st.children, log);
        assert kept[0] == ev && kept[1..] == ChildPart(next.children, log[1..]);
        ChildrenIgnoreWorkspaces(canon, next, Apply(canon, alone, ev), log[1..]);
      } else {
        ChildrenIgnoreWorkspaces(canon, next, alone, log[1..]);
      }
    }
  }

  /** Neither axis influences the other: each is the replay of its own events. */
  lemma AxesDoNotInterfere(canon: string -> string, log: seq<Event>)
    ensures Replay(canon, log)
         == Fold(Replay(canon, RootPart(map[], log)).states, Replay(canon, ChildPart(map[], log)).children)
    ensures Replay(canon, RootPart(map[], log)).children == map[]
    ensures Replay(canon, ChildPart(map[], log)).states == map[]
  {
    WorkspacesIgnoreChildren(canon, EMPTY_FOLD, EMPTY_FOLD, log);
    ChildrenIgnoreWorkspaces(canon, EMPTY_FOLD, EMPTY_FOLD, log);
  }

  // ----- Projection onto one workspace -----

  function EventsAt(canon: string -> string, key: string, events: seq<Event>): seq<Event> {
    if events == [] then []
    else (if canon(events[0].cwd) == key then [events[0]] else []) + EventsAt(canon, key, events[1..])
  }

  /** The simple fold of one workspace's own events. */
  function SessionFold(tracked: TrackedAgent, events: seq<Event>): TrackedAgent
    decreases |events|
  {
    if events == [] then tracked else SessionFold(RootStep(tracked, events[0]), events[1..])
  }

  lemma {:induction false} SessionFoldAppend(tracked: TrackedAgent, a: seq<Event>, b: seq<Event>)
    ensures SessionFold(tracked, a + b) == SessionFold(SessionFold(tracked, a), b)
    decreases |a|
  {
    if a == [] {
      assert a + b == b;
    } else {
      assert (a + b)[1..] == a[1..] + b;
      SessionFoldAppend(RootStep(tracked, a[0]), a[1..], b);
    }
  }

  lemma {:induction false} ProjectionFrom(canon: string -> string, st: Fold, log: seq<Event>, key: string)
    ensures TrackedAt(Continue(canon, st, log), key)
         == SessionFold(TrackedAt(st, key), EventsAt(canon, key, RootPart(st.children, log)))
    decreases |log|
  {
    if log != [] {
      var ev := log[0];
      var next := Apply(canon, st, ev);
      ProjectionFrom(canon, next, log[1..], key);
      if !RoutesToChild(st.children, ev) {
        var kept := RootPart(st.children, log);
        assert kept[0] == ev && kept[1..] == RootPart(st.children, log[1..]);
        if canon(ev.cwd) == key {
          var own := EventsAt(canon, key, kept);
          assert own[0] == ev && own[1..] == EventsAt(canon, key, kept[1..]);
        } else {
          assert EventsAt(canon, key, kept) == EventsAt(canon, key, kept[1..]);
        }
      }
    }
  }

  /** Each workspace's agent is the single-session fold over only its own
      root-routed events. */
  lemma WorkspaceProjection(canon: string -> string, log: seq<Event>, key: string)
    ensures TrackedAt(Replay(canon, log), key)
         == SessionFold(UNTRACKED, EventsAt(canon, key, RootPart(map[], log)))
  {
    ProjectionFrom(canon, EMPTY_FOLD, log, key);
  }

  // ----- Commutation -----

  /** Swapping two events cannot change what either is routed to. */
  predicate RoutingIsIndependent(children: Children, a: Event, b: Event) {
    || SessionOf(a).None?
    || SessionOf(a) != SessionOf(b)
    || (!RoutesToChild(children, a) && !RoutesToChild(children, b))
  }

  lemma RoutingIsKept(canon: string -> string, st: Fold, a: Event, b: Event)
    requires RoutingIsIndependent(st.children, a, b)
    ensures RoutesToChild(Apply(canon, st, a).children, b) == RoutesToChild(st.children, b)
    ensures RoutesToChild(st.children, b) && RoutesToChild(st.children, a) ==> SessionOf(a) != SessionOf(b)
  {
  }

  /** Events of different workspaces commute whenever their routing does. */
  lemma IndependentEventsCommute(canon: string -> string, st: Fold, a: Event, b: Event)
    requires canon(a.cwd) != canon(b.cwd)
    requires RoutingIsIndependent(st.children, a, b)
    ensures Apply(canon, Apply(canon, st, a), b) == Apply(canon, Apply(canon, st, b), a)
  {
    RoutingIsKept(canon, st, a, b);
    RoutingIsKept(canon, st, b, a);
    if RoutesToChild(st.children, a) && RoutesToChild(st.children, b) {
      ChildStepsCommute(st.children, a, b);
    } else if !RoutesToChild(st.children, a) && !RoutesToChild(st.children, b) {
      RootStepsCommute(canon, st, a, b);
    } else if RoutesToChild(st.children, a) {
      ChildStepIgnoresStates(st.children, a, b);
    } else {
      ChildStepIgnoresStates(st.children, b, a);
    }
  }

  lemma ChildStepsCommute(children: Children, a: Event, b: Event)
    requires RoutesToChild(children, a) && RoutesToChild(children, b) && SessionOf(a) != SessionOf(b)
    ensures RoutesToChild(ChildStep(children, a), b) && RoutesToChild(ChildStep(children, b), a)
    ensures ChildStep(ChildStep(children, a), b) == ChildStep(ChildStep(children, b), a)
  {
    assert SessionOf(a).value != SessionOf(b).value;
    var forA, forB := ChildStep(children, a)[SessionOf(a).value], ChildStep(children, b)[SessionOf(b).value];
    assert ChildStep(ChildStep(children, a), b)
        == children[SessionOf(a).value := forA][SessionOf(b).value := forB]
        == children[SessionOf(b).value := forB][SessionOf(a).value := forA]
        == ChildStep(ChildStep(children, b), a);
  }

  lemma RootStepsCommute(canon: string -> string, st: Fold, a: Event, b: Event)
    requires canon(a.cwd) != canon(b.cwd)
    requires !RoutesToChild(st.children, a) && !RoutesToChild(st.children, b)
    ensures Apply(canon, Apply(canon, st, a), b) == Apply(canon, Apply(canon, st, b), a)
  {
    var x, y := canon(a.cwd), canon(b.cwd);
    var atX, atY := RootStep(TrackedAt(st, x), a), RootStep(TrackedAt(st, y), b);
    assert st.states[x := atX][y := atY] == st.states[y := atY][x := atX];
  }

  lemma ChildStepIgnoresStates(children: Children, a: Event, b: Event)
    requires RoutesToChild(children, a) && RoutingIsIndependent(children, a, b)
    ensures RoutesToChild(ChildStep(children, a), b) == RoutesToChild(children, b)
  {
  }

  /** What an event does to the state it finds. */
  datatype Change = Sets(state: AgentState) | Resumes | Keeps

  function ChangeOf(ev: Event): Change {
    if ev.name == "Notification" then
      if ev.notificationType == Some("agent_needs_input") then Sets(NeedsAttention) else Keeps
    else if ev.name == "StopFailure" then Sets(StopFailureTransition(ev.error))
    else if ev.name == "SessionStart" || ev.name == "Stop" || ev.name == "Interrupt" then Sets(Waiting)
    else if ev.name == "UserPromptSubmit" then Sets(Working)
    else if ev.name == "PermissionRequest" then Sets(NeedsAttention)
    else if ev.name == "SessionEnd" then Sets(Ended)
    else if ev.name == "PostToolUse" || ev.name == "PostToolUseFailure" then Resumes
    else Keeps
  }

  function Changed(current: AgentState, change: Change): AgentState {
    match change
    case Sets(state) => state
    case Resumes => if current == NeedsAttention then Working else current
    case Keeps => current
  }

  lemma TransitionIsChange(current: AgentState, ev: Event)
    ensures Transition(current, ev) == Changed(current, ChangeOf(ev))
  {
  }

  /** Neither sets a state the other would overwrite or resume, nor a kind the other
      would overwrite. */
  predicate OrdersAgree(a: Event, b: Event) {
    && (RetagsKind(a) && RetagsKind(b) ==> EventKind(a) == EventKind(b))
    && (match (ChangeOf(a), ChangeOf(b))
        case (Sets(x), Sets(y)) => x == y
        case (Sets(x), Resumes) => x != NeedsAttention
        case (Resumes, Sets(y)) => y != NeedsAttention
        case _ => true)
  }

  /** Whatever agent two events find, folding them either way round gives one agent
      exactly when the events themselves allow it. */
  lemma FoldOrdersAgreeIff(agent: Agent, a: Event, b: Event)
    ensures FoldAgent(FoldAgent(agent, a), b) == FoldAgent(FoldAgent(agent, b), a) <==> OrdersAgree(a, b)
  {
    TransitionIsChange(agent.state, a);
    TransitionIsChange(agent.state, b);
    TransitionIsChange(Transition(agent.state, a), b);
    TransitionIsChange(Transition(agent.state, b), a);
    hide Transition, ChangeOf, RetagsKind, EventKind;
  }

  /** Two records of one child session that may come either way round. */
  predicate SameChildEitherWay(children: Children, a: Event, b: Event) {
    && RoutesToChild(children, a) && RoutesToChild(children, b)
    && OrdersAgree(a, b)
    && (ParentOf(a).Some? && ParentOf(b).Some? ==> ParentOf(a) == ParentOf(b))
  }

  /** `maker` makes a child of the session that `other` is about, and `other` changes
      nothing, neither before it, in its own workspace's entry, nor after it, in the
      child's. */
  predicate IdleEitherWay(canon: string -> string, st: Fold, maker: Event, other: Event) {
    && RoutesToChild(st.children, maker) && !RoutesToChild(st.children, other)
    && canon(other.cwd) in st.states
    && RootStep(st.states[canon(other.cwd)], other) == st.states[canon(other.cwd)]
    && FoldAgent(FoldAgent(DEFAULT_AGENT, maker), other) == FoldAgent(DEFAULT_AGENT, maker)
  }

  /** Exactly when events of different workspaces commute: one cannot decide where the
      other goes, or both go to one child that takes them either way round, or the one
      that could go either way does nothing either way. */
  lemma DifferentWorkspacesCommuteIff(canon: string -> string, st: Fold, a: Event, b: Event)
    requires canon(a.cwd) != canon(b.cwd)
    ensures Apply(canon, Apply(canon, st, a), b) == Apply(canon, Apply(canon, st, b), a)
       <==> || RoutingIsIndependent(st.children, a, b)
            || SameChildEitherWay(st.children, a, b)
            || IdleEitherWay(canon, st, a, b)
            || IdleEitherWay(canon, st, b, a)
  {
    if RoutingIsIndependent(st.children, a, b) {
      IndependentEventsCommute(canon, st, a, b);
    } else if RoutesToChild(st.children, a) && RoutesToChild(st.children, b) {
      SharedChildCommutesIff(canon, st, a, b);
    } else if RoutesToChild(st.children, a) {
      MakerCommutesIff(canon, st, a, b);
    } else {
      MakerCommutesIff(canon, st, b, a);
    }
    hide Apply, OrdersAgree, RootStep, FoldAgent;
  }

  lemma SharedChildCommutesIff(canon: string -> string, st: Fold, a: Event, b: Event)
    requires SessionOf(a).Some? && SessionOf(a) == SessionOf(b)
    requires RoutesToChild(st.children, a) && RoutesToChild(st.children, b)
    ensures Apply(canon, Apply(canon, st, a), b) == Apply(canon, Apply(canon, st, b), a)
       <==> SameChildEitherWay(st.children, a, b)
  {
    var s := SessionOf(a).value;
    var ab, ba := ChildStep(ChildStep(st.children, a), b), ChildStep(ChildStep(st.children, b), a);
    FoldOrdersAgreeIff(if s in st.children then st.children[s].agent else DEFAULT_AGENT, a, b);
    hide FoldAgent, OrdersAgree;
    assert ab == st.children[s := ab[s]] && ba == st.children[s := ba[s]];
    assert ab == ba <==> ab[s] == ba[s];
  }

  lemma MakerCommutesIff(canon: string -> string, st: Fold, maker: Event, other: Event)
    requires canon(maker.cwd) != canon(other.cwd)
    requires SessionOf(maker).Some? && SessionOf(maker) == SessionOf(other)
    requires RoutesToChild(st.children, maker) && !RoutesToChild(st.children, other)
    ensures Apply(canon, Apply(canon, st, maker), other) == Apply(canon, Apply(canon, st, other), maker)
       <==> IdleEitherWay(canon, st, maker, other)
  {
    var s, key := SessionOf(maker).value, canon(other.cwd);
    var first := ChildStep(st.children, maker);
    var after := ChildStep(first, other);
    var moved := st.states[key := RootStep(TrackedAt(st, key), other)];
    hide FoldAgent, RootStep;
    assert Apply(canon, Apply(canon, st, maker), other) == Fold(st.states, after);
    assert Apply(canon, Apply(canon, st, other), maker) == Fold(moved, first);
    assert after == first[s := after[s]];
    assert after == first <==> after[s] == first[s];
    assert moved == st.states <==> key in st.states && moved[key] == st.states[key];
  }

  /** The event that names a parent and a later record of the same session from another
      directory do not commute. */
  lemma SharedSessionNeedNotCommute(a: Event, b: Event)
    requires a == Event("SessionStart", "/a", None, Some(1), None, Some("s"), Some("p"), None, None)
    requires b == Event("SessionEnd", "/b", None, Some(1), None, Some("s"), None, None, None)
    ensures var same := (path: string) => path;
            && same(a.cwd) != same(b.cwd)
            && Apply(same, Apply(same, EMPTY_FOLD, a), b) != Apply(same, Apply(same, EMPTY_FOLD, b), a)
  {
    var same := (path: string) => path;
    assert a.cwd[1] != b.cwd[1];
    assert "/b" !in Apply(same, Apply(same, EMPTY_FOLD, a), b).states;
    assert "/b" in Apply(same, EMPTY_FOLD, b).states;
    assert "/b" in Apply(same, Apply(same, EMPTY_FOLD, b), a).states;
  }

  // ----- Suffix dependence -----

  predicate SameSession(a: TrackedAgent, b: TrackedAgent) {
    a.agent.state == b.agent.state && a.sessionId == b.sessionId
  }

  lemma StartForgetsThePast(a: TrackedAgent, b: TrackedAgent, start: Event)
    requires IsStart(start)
    ensures SameSession(RootStep(a, start), RootStep(b, start))
    ensures RootStep(a, start).agent.state == Waiting
  {
    assert "SessionStart"[0] != "Notification"[0];
    assert |"StopFailure"| != |"SessionStart"|;
  }

  lemma {:induction false} SameSessionIsKept(a: TrackedAgent, b: TrackedAgent, suffix: seq<Event>)
    requires SameSession(a, b)
    ensures SameSession(SessionFold(a, suffix), SessionFold(b, suffix))
    decreases |suffix|
  {
    if suffix != [] {
      SameSessionIsKept(RootStep(a, suffix[0]), RootStep(b, suffix[0]), suffix[1..]);
    }
  }

  /** The kind set by the last accepted event that sets one. */
  function LastKind(active: Option<string>, events: seq<Event>): Option<AgentKind>
    decreases |events|
  {
    if events == [] then None
    else if IsStale(active, events[0]) then LastKind(active, events[1..])
    else
      var later := LastKind(NextSession(active, events[0]), events[1..]);
      if later.Some? then later
      else if RetagsKind(events[0]) then Some(EventKind(events[0]))
      else None
  }

  lemma {:induction false} KindIsTheLastOneSet(tracked: TrackedAgent, events: seq<Event>)
    ensures SessionFold(tracked, events).agent.kind
         == match LastKind(tracked.sessionId, events) case Some(kind) => kind case None => tracked.agent.kind
    decreases |events|
  {
    if events != [] {
      KindIsTheLastOneSet(RootStep(tracked, events[0]), events[1..]);
    }
  }

  /** After a start, what came before it no longer matters to the state and the
      active session, which depend only on the suffix from the last start. The
      kind does too exactly when that suffix sets one; otherwise the kind from
      before the start is kept. */
  lemma SuffixDecides(past: seq<Event>, other: seq<Event>, start: Event, suffix: seq<Event>)
    requires IsStart(start)
    ensures var recent := [start] + suffix;
            var x, y := SessionFold(UNTRACKED, past + recent), SessionFold(UNTRACKED, other + recent);
            && SameSession(x, y)
            && (LastKind(None, recent).Some? ==> x == y)
            && (LastKind(None, recent).None? ==>
                  && x.agent.kind == SessionFold(UNTRACKED, past).agent.kind
                  && y.agent.kind == SessionFold(UNTRACKED, other).agent.kind)
  {
    var recent := [start] + suffix;
    var a, b := SessionFold(UNTRACKED, past), SessionFold(UNTRACKED, other);
    SessionFoldAppend(UNTRACKED, past, recent);
    SessionFoldAppend(UNTRACKED, other, recent);
    assert recent[1..] == suffix;
    StartForgetsThePast(a, b, start);
    SameSessionIsKept(RootStep(a, start), RootStep(b, start), suffix);
    assert LastKind(a.sessionId, recent) == LastKind(None, recent) == LastKind(b.sessionId, recent);
    KindIsTheLastOneSet(a, recent);
    KindIsTheLastOneSet(b, recent);
  }

  /** The kind alone can outlive a start: an unversioned start that names no kind
      keeps the one its predecessor had. */
  lemma KindCanOutliveAStart(start: Event, earlier: Event)
    requires start == Event("SessionStart", "/a", None, None, None, Some("t"), None, None, None)
    requires earlier == Event("Stop", "/a", None, None, Some("codex"), Some("s"), None, None, None)
    ensures SessionFold(UNTRACKED, [earlier] + [start]).agent.kind == Codex
    ensures SessionFold(UNTRACKED, [] + [start]).agent.kind == Unknown
  {
    assert |"codex"| != |"claude"|;
    assert ([earlier] + [start])[1..] == [start] && [start][1..] == [];
    assert |"Stop"| != |"SessionStart"|;
    assert [] + [start] == [start];
    var middle := RootStep(UNTRACKED, earlier);
    assert middle.agent.kind == Codex;
    assert !RetagsKind(start);
    assert SessionFold(UNTRACKED, [earlier, start]) == SessionFold(middle, [start]) == RootStep(middle, start);
  }

  // ----- The session guard -----

  /** Events that may change the agent of a workspace whose active session is
      `active`: that session's own, or a legacy record that carries neither a
      version nor a session. */
  predicate Speaks(active: string, ev: Event) {
    ev.sessionId == Some(active) || (ev.sessionId.None? && ev.version.None?)
  }

  function Spoken(active: string, events: seq<Event>): seq<Event> {
    if events == [] then []
    else (if Speaks(active, events[0]) then [events[0]] else []) + Spoken(active, events[1..])
  }

  /** Until its next start, a workspace with an active session keeps that session,
      and its agent is the fold of exactly the events that session may speak. */
  lemma {:induction false} SessionGuard(tracked: TrackedAgent, active: string, events: seq<Event>)
    requires tracked.sessionId == Some(active)
    requires forall i | 0 <= i < |events| :: !IsStart(events[i])
    ensures SessionFold(tracked, events).sessionId == Some(active)
    ensures SessionFold(tracked, events) == SessionFold(tracked, Spoken(active, events))
    decreases |events|
  {
    if events != [] {
      var ev := events[0];
      var next := RootStep(tracked, ev);
      SessionGuard(next, active, events[1..]);
      assert IsStale(tracked.sessionId, ev) <==> !Speaks(active, ev);
      if Speaks(active, ev) {
        var kept := Spoken(active, events);
        assert kept[0] == ev && kept[1..] == Spoken(active, events[1..]);
      } else {
        assert Spoken(active, events) == Spoken(active, events[1..]);
      }
    }
  }

  /** The guard over a whole log: from the moment workspace `key` has an active
      session until its own next start, only what that session may speak counts. */
  lemma ActiveSessionGuard(canon: string -> string, log: seq<Event>, later: seq<Event>, key: string, active: string)
    requires TrackedAt(Replay(canon, log), key).sessionId == Some(active)
    requires forall ev | ev in EventsAt(canon, key, RootPart(Replay(canon, log).children, later)) :: !IsStart(ev)
    ensures var own := EventsAt(canon, key, RootPart(Replay(canon, log).children, later));
            && TrackedAt(Replay(canon, log + later), key)
               == SessionFold(TrackedAt(Replay(canon, log), key), Spoken(active, own))
            && TrackedAt(Replay(canon, log + later), key).sessionId == Some(active)
  {
    var st := Replay(canon, log);
    var own := EventsAt(canon, key, RootPart(st.children, later));
    ContinueAppend(canon, EMPTY_FOLD, log, later);
    ProjectionFrom(canon, st, later, key);
    assert forall i | 0 <= i < |own| :: own[i] in own;
    SessionGuard(TrackedAt(st, key), active, own);
  }

  // ----- Sessions on both axes -----

  /** The log mentions session `s`, and the first mention does not name a parent. */
  predicate StartsAsRoot(log: seq<Event>, s: string) {
    exists i | 0 <= i < |log| ::
      && SessionOf(log[i]) == Some(s) && ParentOf(log[i]).None?
      && forall j | 0 <= j < i :: SessionOf(log[j]) != Some(s)
  }

  predicate EverChild(log: seq<Event>, s: string) {
    exists i | 0 <= i < |log| :: SessionOf(log[i]) == Some(s) && ParentOf(log[i]).Some?
  }

  /** Some record of session `s` reaches a workspace's agent. */
  predicate ReachesRoot(children: Children, log: seq<Event>, s: string) {
    exists ev | ev in RootPart(children, log) :: SessionOf(ev) == Some(s)
  }

  lemma {:induction false} ChildIffParentNamed(canon: string -> string, st: Fold, log: seq<Event>, s: string)
    ensures s in Continue(canon, st, log).children <==> s in st.children || EverChild(log, s)
    decreases |log|
  {
    if log != [] {
      var ev := log[0];
      var next := Apply(canon, st, ev);
      ChildIffParentNamed(canon, next, log[1..], s);
      assert s in next.children <==> s in st.children || (SessionOf(ev) == Some(s) && ParentOf(ev).Some?);
      if i :| 0 <= i < |log| && SessionOf(log[i]) == Some(s) && ParentOf(log[i]).Some? {
        assert i == 0 || log[1..][i - 1] == log[i];
      }
      if i :| 0 <= i < |log[1..]| && SessionOf(log[1..][i]) == Some(s) && ParentOf(log[1..][i]).Some? {
        assert log[i + 1] == log[1..][i];
      }
    }
  }

  lemma {:induction false} RootIffFirstMentionUnparented(children: Children, log: seq<Event>, s: string)
    ensures ReachesRoot(children, log, s) <==> s !in children && StartsAsRoot(log, s)
    decreases |log|
  {
    if log != [] {
      var ev, rest := log[0], log[1..];
      if RoutesToChild(children, ev) {
        var next := ChildStep(children, ev);
        RootIffFirstMentionUnparented(next, rest, s);
        if s !in children {
          if SessionOf(ev) == Some(s) {
            assert s in next;
            assert !StartsAsRoot(log, s);
          } else {
            StartsAsRootSkips(log, s);
          }
        }
      } else {
        RootIffFirstMentionUnparented(children, rest, s);
        assert RootPart(children, log) == [ev] + RootPart(children, rest);
        if SessionOf(ev) == Some(s) {
          assert ev in RootPart(children, log);
          assert log[0] == ev && StartsAsRoot(log, s);
        } else {
          StartsAsRootSkips(log, s);
          assert ReachesRoot(children, log, s) <==> ReachesRoot(children, rest, s);
        }
      }
    }
  }

  lemma StartsAsRootSkips(log: seq<Event>, s: string)
    requires log != [] && SessionOf(log[0]) != Some(s)
    ensures StartsAsRoot(log, s) <==> StartsAsRoot(log[1..], s)
  {
    if StartsAsRoot(log, s) {
      var i :| 0 <= i < |log| && SessionOf(log[i]) == Some(s) && ParentOf(log[i]).None?
        && forall j | 0 <= j < i :: SessionOf(log[j]) != Some(s);
      assert log[1..][i - 1] == log[i];
      assert forall j | 0 <= j < i - 1 :: log[1..][j] == log[j + 1];
    }
    if StartsAsRoot(log[1..], s) {
      var i :| 0 <= i < |log[1..]| && SessionOf(log[1..][i]) == Some(s) && ParentOf(log[1..][i]).None?
        && forall j | 0 <= j < i :: SessionOf(log[1..][j]) != Some(s);
      assert log[i + 1] == log[1..][i];
      assert forall j | 0 < j < i + 1 :: log[j] == log[1..][j - 1];
    }
  }

  /** A session ends up on both axes exactly when its first record names no parent
      and some record of it does. */
  lemma BothAxesIff(canon: string -> string, log: seq<Event>, s: string)
    ensures (ReachesRoot(map[], log, s) && s in Replay(canon, log).children)
            <==> (StartsAsRoot(log, s) && EverChild(log, s))
  {
    RootIffFirstMentionUnparented(map[], log, s);
    ChildIffParentNamed(canon, EMPTY_FOLD, log, s);
  }

  /** A session whose first record names no parent and whose second does ends up as its
      workspace's active session and as a child. */
  lemma SessionCanBeOnBothAxes(canon: string -> string, log: seq<Event>, first: Event, second: Event)
    requires first == Event("SessionStart", "/a", None, Some(1), None, Some("s"), None, None, None)
    requires second == first.(parentId := Some("p"))
    requires log == [first, second]
    ensures ReachesRoot(map[], log, "s")
    ensures "s" in Replay(canon, log).children
    ensures TrackedAt(Replay(canon, log), canon("/a")).sessionId == Some("s")
  {
    assert log[0] == first && log[1..] == [second] && [second][1..] == [];
    assert !RoutesToChild(map[], first) && RootPart(map[], log)[0] == first;
    var once := Apply(canon, EMPTY_FOLD, first);
    var twice := Apply(canon, once, second);
    assert Continue(canon, once, [second]) == Continue(canon, twice, []) == twice;
    assert Replay(canon, log) == Continue(canon, once, [second]);
  }

  lemma {:induction false} ActiveSessionSpoke(tracked: TrackedAgent, events: seq<Event>)
    requires tracked.sessionId.None?
    ensures var active := SessionFold(tracked, events).sessionId;
            active.None? || exists ev | ev in events :: ev.sessionId == active
  {
    if events != [] {
      var front, last := events[..|events| - 1], events[|events| - 1];
      assert events == front + [last];
      SessionFoldAppend(tracked, front, [last]);
      var before := SessionFold(tracked, front);
      assert [last][1..] == [];
      assert SessionFold(before, [last]) == RootStep(before, last);
      ActiveSessionSpoke(tracked, front);
      if before.sessionId.Some? {
        var ev :| ev in front && ev.sessionId == before.sessionId;
        assert ev in events;
      }
      assert last in events;
    }
  }

  lemma {:induction false} EventsAtAreFromLog(canon: string -> string, key: string, events: seq<Event>, ev: Event)
    requires ev in EventsAt(canon, key, events)
    ensures ev in events && canon(ev.cwd) == key
  {
    if ev != events[0] || canon(events[0].cwd) != key {
      EventsAtAreFromLog(canon, key, events[1..], ev);
    }
  }

  /** If every child session names its parent on its first record, no workspace's
      active session is ever a child: not now, and not later in the log. */
  lemma ActiveSessionIsNeverAChild(canon: string -> string, log: seq<Event>, later: seq<Event>, key: string)
    requires forall s :: EverChild(log + later, s) ==> !StartsAsRoot(log + later, s)
    ensures var active := TrackedAt(Replay(canon, log), key).sessionId;
            active.Some? ==> active.value !in Replay(canon, log + later).children
  {
    var active := TrackedAt(Replay(canon, log), key).sessionId;
    if active.Some? {
      var s := active.value;
      WorkspaceProjection(canon, log, key);
      var own := EventsAt(canon, key, RootPart(map[], log));
      ActiveSessionSpoke(UNTRACKED, own);
      var ev :| ev in own && ev.sessionId == active;
      EventsAtAreFromLog(canon, key, RootPart(map[], log), ev);
      ChildIffParentNamed(canon, EMPTY_FOLD, log + later, s);
      if s == "" {
        assert !EverChild(log + later, s);
      } else {
        assert SessionOf(ev) == Some(s);
        RootIffFirstMentionUnparented(map[], log, s);
        assert StartsAsRoot(log, s);
        StartsAsRootExtends(log, later, s);
      }
    }
  }

  lemma StartsAsRootExtends(log: seq<Event>, later: seq<Event>, s: string)
    requires StartsAsRoot(log, s)
    ensures StartsAsRoot(log + later, s)
  {
    var i :| 0 <= i < |log| && SessionOf(log[i]) == Some(s) && ParentOf(log[i]).None?
      && forall j | 0 <= j < i :: SessionOf(log[j]) != Some(s);
    assert (log + later)[i] == log[i];
    assert forall j | 0 <= j < i :: (log + later)[j] == log[j];
  }

  // ----- Children by parent -----

  /** The parent named by the latest record of session `s` that names one. */
  function LatestParent(log: seq<Event>, s: string): Option<string> {
    if log == [] then None
    else
      var last := log[|log| - 1];
      if SessionOf(last) == Some(s) && ParentOf(last).Some? then ParentOf(last)
      else LatestParent(log[..|log| - 1], s)
  }

  /** The tracked children are the sessions that ever named a parent, each filed
      under its own id with the latest parent it named. */
  lemma {:induction false} ChildrenAreFiledByLatestParent(canon: string -> string, log: seq<Event>, s: string)
    ensures var children := Replay(canon, log).children;
            && (s in children <==> LatestParent(log, s).Some?)
            && (s in children ==> children[s].sessionId == s && Some(children[s].parentId) == LatestParent(log, s))
  {
    if log != [] {
      var front, last := log[..|log| - 1], log[|log| - 1];
      assert log == front + [last];
      ContinueAppend(canon, EMPTY_FOLD, front, [last]);
      var before := Replay(canon, front);
      assert [last][1..] == [];
      assert Replay(canon, log) == Apply(canon, before, last);
      ChildrenAreFiledByLatestParent(canon, front, s);
    }
  }
}
