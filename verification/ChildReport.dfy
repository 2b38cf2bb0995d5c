/** `jjfx children` (src/children.rs): the fold's children of one session merged
    with the sessions an external service reports for it. */
module ChildReport {
  import opened Options
  import opened Agents
  import AgentLog
  import Text

  /** One session as the service reports it. */
  datatype Session = Session(id: string, title: Option<string>, directory: Option<string>)

  datatype Child = Child(sessionId: string, agent: Agent, title: Option<string>, directory: Option<string>)

  datatype Source = FromService | FromLog

  /** The last report about session `id`, whose title and directory a row shows. */
  function LastReport(sessions: seq<Session>, id: string): (r: Option<Session>)
    ensures r.Some? <==> exists session | session in sessions :: session.id == id
    ensures r.Some? ==> r.value in sessions && r.value.id == id
  {
    if sessions == [] then None
    else
      var front, last := sessions[..|sessions| - 1], sessions[|sessions| - 1];
      assert sessions == front + [last];
      if last.id == id then Some(last) else LastReport(front, id)
  }

  /** The session is one the fold files under this parent. */
  predicate TrackedUnder(children: Children, parent: string, id: string) {
    id in children && children[id].parentId == parent
  }

  /** The row a session gets: the fold's state if the fold files it under this
      parent and the default otherwise, with the latest reported metadata. */
  function RowFor(children: Children, parent: string, sessions: seq<Session>, id: string): Child {
    var report := LastReport(sessions, id);
    Child(
      id,
      if TrackedUnder(children, parent, id) then children[id].agent else DEFAULT_AGENT,
      if report.Some? then report.value.title else None,
      if report.Some? then report.value.directory else None)
  }

  /** The rows keyed by session: one for each session filed or reported. */
  ghost predicate Merges(rows: map<string, Child>, children: Children, parent: string, sessions: seq<Session>) {
    && (forall id :: id in rows <==> TrackedUnder(children, parent, id) || LastReport(sessions, id).Some?)
    && (forall id | id in rows :: rows[id] == RowFor(children, parent, sessions, id))
  }

  method FoldRows(parent: string, states: AgentLog.AgentStates) returns (rows: map<string, Child>)
    requires states.Valid()
    ensures Merges(rows, states.children, parent, [])
  {
    ghost var folded := states.children;
    var list := states.ChildrenOf(parent);
    rows := map[];
    for i := 0 to |list|
      invariant forall id :: id in rows <==> exists j | 0 <= j < i :: list[j].sessionId == id
      invariant forall id | id in rows ::
        TrackedUnder(folded, parent, id) && rows[id] == RowFor(folded, parent, [], id)
    {
      var child := list[i];
      assert child in list;
      assert child in folded.Values;
      rows := rows[child.sessionId := Child(child.sessionId, child.agent, None, None)];
    }
    forall id | TrackedUnder(folded, parent, id)
      ensures id in rows
    {
      assert folded[id] in folded.Values;
      assert folded[id] in list;
    }
  }

  method Enrich(child: Child, session: Session) returns (enriched: Child)
    ensures enriched == Child(child.sessionId, child.agent, session.title, session.directory)
  {
    enriched := child.(title := session.title);
    enriched := enriched.(directory := session.directory);
  }

  lemma MergeOne(rows: map<string, Child>, children: Children, parent: string, sessions: seq<Session>, next: Session)
    requires Merges(rows, children, parent, sessions)
    ensures var row := if next.id in rows then rows[next.id] else Child(next.id, DEFAULT_AGENT, None, None);
            Merges(
              rows[next.id := Child(row.sessionId, row.agent, next.title, next.directory)],
              children, parent, sessions + [next])
  {
    ReportSnoc(sessions, next);
    hide LastReport;
  }

  lemma ReportSnoc(sessions: seq<Session>, next: Session)
    ensures forall id ::
      LastReport(sessions + [next], id) == if next.id == id then Some(next) else LastReport(sessions, id)
  {
    var grown := sessions + [next];
    assert grown[..|grown| - 1] == sessions;
  }

  method EnrichAll(rows: map<string, Child>, sessions: seq<Session>, ghost children: Children, ghost parent: string)
    returns (merged: map<string, Child>)
    requires Merges(rows, children, parent, [])
    ensures Merges(merged, children, parent, sessions)
  {
    merged := rows;
    for i := 0 to |sessions|
      invariant Merges(merged, children, parent, sessions[..i])
    {
      var session := sessions[i];
      MergeOne(merged, children, parent, sessions[..i], session);
      assert sessions[..i + 1] == sessions[..i] + [session];
      var row := if session.id in merged then merged[session.id]
                 else Child(session.id, DEFAULT_AGENT, None, None);
      row := Enrich(row, session);
      merged := merged[session.id := row];
    }
    assert sessions[..|sessions|] == sessions;
  }

  method InOrder(rows: map<string, Child>) returns (list: seq<Child>)
    requires forall id | id in rows :: rows[id].sessionId == id
    ensures forall i, j | 0 <= i < j < |list| :: Text.Before(list[i].sessionId, list[j].sessionId)
    ensures forall row :: row in list <==> row.sessionId in rows && row == rows[row.sessionId]
  {
    var ids := Text.SortedKeys(rows.Keys);
    list := [];
    for i := 0 to |ids|
      invariant |list| == i
      invariant forall j | 0 <= j < |ids| :: ids[j] in ids
      invariant forall j | 0 <= j < i :: list[j] == rows[ids[j]] && list[j].sessionId == ids[j]
    {
      list := list + [rows[ids[i]]];
    }
    forall row: Child | row.sessionId in rows && row == rows[row.sessionId]
      ensures row in list
    {
      assert row.sessionId in ids;
      var j :| 0 <= j < |ids| && ids[j] == row.sessionId;
      assert list[j] == row;
    }
  }

  /** The children of `parent`: strictly sorted, with one row for each session the
      fold files under it or the service reports. */
  method Collect(parent: string, states: AgentLog.AgentStates, answer: Option<seq<Session>>)
    returns (list: seq<Child>, source: Source)
    requires states.Valid()
    ensures source == if answer.Some? then FromService else FromLog
    ensures forall i, j | 0 <= i < j < |list| :: Text.Before(list[i].sessionId, list[j].sessionId)
    ensures var sessions := if answer.Some? then answer.value else [];
            forall row :: row in list <==>
              && (TrackedUnder(states.children, parent, row.sessionId) || LastReport(sessions, row.sessionId).Some?)
              && row == RowFor(states.children, parent, sessions, row.sessionId)
  {
    var rows := FoldRows(parent, states);
    source := FromLog;
    if answer.Some? {
      rows := EnrichAll(rows, answer.value, states.children, parent);
      source := FromService;
    }
    list := InOrder(rows);
  }

  /** A row shows the state the log gives a session exactly when this parent is the
      latest one the session named; a session the fold files under another parent
      is listed as absent, like one the log never saw. */
  lemma RowFollowsLatestParent(
    canon: string -> string, log: seq<Event>, parent: string, sessions: seq<Session>, id: string)
    ensures var children := Replay(canon, log).children;
            && (LatestParent(log, id).Some? ==> id in children)
            && RowFor(children, parent, sessions, id).agent
               == if LatestParent(log, id) == Some(parent) then children[id].agent else DEFAULT_AGENT
  {
    ChildrenAreFiledByLatestParent(canon, log, id);
  }

  /** A session filed under "p" and then under "q", reported by the service as a child
      of "p": the row shows it absent although the fold knows it waits. */
  lemma ReportedChildCanShowAbsent(
    canon: string -> string, log: seq<Event>, first: Event, second: Event, sessions: seq<Session>)
    requires first == Event("SessionStart", "/a", None, Some(1), None, Some("s"), Some("p"), None, None)
    requires second == first.(parentId := Some("q"))
    requires log == [first, second] && sessions == [Session("s", None, None)]
    ensures LastReport(sessions, "s").Some?
    ensures "s" in Replay(canon, log).children && Replay(canon, log).children["s"].agent.state == Waiting
    ensures RowFor(Replay(canon, log).children, "p", sessions, "s").agent == DEFAULT_AGENT
  {
    assert log[0] == first && log[1..] == [second] && [second][1..] == [];
    var once := Apply(canon, EMPTY_FOLD, first);
    var twice := Apply(canon, once, second);
    assert Continue(canon, once, [second]) == Continue(canon, twice, []) == twice;
    assert Replay(canon, log) == Continue(canon, once, [second]);
    assert twice.children["s"].parentId == "q" && "p"[0] != "q"[0];
    assert sessions[0].id == "s";
  }

  /** When the service does not answer, what `Collect` promises leaves one list:
      the fold's own, in its order, with no metadata. */
  lemma {:induction false} LogReportIsTheFoldsList(
    children: Children, parent: string, list: seq<ChildSession>, rows: seq<Child>)
    requires forall s | s in children :: children[s].sessionId == s
    requires AgentLog.ListsChildrenOf(list, children, parent)
    requires forall i, j | 0 <= i < j < |rows| :: Text.Before(rows[i].sessionId, rows[j].sessionId)
    requires forall row :: row in rows <==>
      TrackedUnder(children, parent, row.sessionId) && row == RowFor(children, parent, [], row.sessionId)
    ensures |rows| == |list|
    ensures forall i | 0 <= i < |rows| :: rows[i] == Child(list[i].sessionId, list[i].agent, None, None)
  {
    var ids := seq(|list|, i requires 0 <= i < |list| => list[i].sessionId);
    var names := seq(|rows|, i requires 0 <= i < |rows| => rows[i].sessionId);
    forall k
      ensures k in ids <==> k in names
    {
      if k in ids {
        var i :| 0 <= i < |ids| && ids[i] == k;
        assert list[i] in list && list[i] in children.Values;
        assert RowFor(children, parent, [], k) in rows;
        var j :| 0 <= j < |rows| && rows[j] == RowFor(children, parent, [], k);
        assert names[j] == k;
      }
      if k in names {
        var j :| 0 <= j < |names| && names[j] == k;
        assert rows[j] in rows;
        assert children[k] in children.Values && children[k] in list;
        var i :| 0 <= i < |list| && list[i] == children[k];
        assert ids[i] == k;
      }
    }
    Text.SortedListsAgree(ids, names);
    forall i | 0 <= i < |rows|
      ensures rows[i] == Child(list[i].sessionId, list[i].agent, None, None)
    {
      assert rows[i] in rows && list[i] in list && list[i] in children.Values;
      assert names[i] == ids[i];
    }
  }
}
