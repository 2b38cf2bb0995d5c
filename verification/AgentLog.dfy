/** `AgentStates` of src/agent.rs: the maps updated in place, one event at a time,
    proved to hold exactly the fold of `Agents`. */
module AgentLog {
  import opened Options
  import opened Agents
  import Text

  /** The sessions of `parent`, listed once each in strict session order. */
  ghost predicate ListsChildrenOf(list: seq<ChildSession>, children: Children, parent: string) {
    && (forall i, j | 0 <= i < j < |list| :: Text.Before(list[i].sessionId, list[j].sessionId))
    && (forall child :: child in list <==> child in children.Values && child.parentId == parent)
  }

  /** Every child is filed under its own session id. */
  ghost predicate FiledById(children: Children) {
    forall s | s in children :: children[s].sessionId == s
  }

  lemma {:induction false} ReplayFilesById(canon: string -> string, log: seq<Event>)
    ensures FiledById(Replay(canon, log).children)
  {
    forall s | s in Replay(canon, log).children
      ensures Replay(canon, log).children[s].sessionId == s
    {
      ChildrenAreFiledByLatestParent(canon, log, s);
    }
  }

  /** The lists of all parents partition the tracked children by the latest parent
      each named: a session stands in `parent`'s list exactly when `parent` is the
      latest it named, and in no other. */
  lemma ListsPartitionChildren(
    canon: string -> string, log: seq<Event>, s: string, parent: string, list: seq<ChildSession>)
    requires ListsChildrenOf(list, Replay(canon, log).children, parent)
    ensures (exists child | child in list :: child.sessionId == s) <==> LatestParent(log, s) == Some(parent)
  {
    var children := Replay(canon, log).children;
    ReplayFilesById(canon, log);
    ChildrenAreFiledByLatestParent(canon, log, s);
    if child :| child in list && child.sessionId == s {
      var t :| t in children && children[t] == child;
      assert t == s;
    }
    if LatestParent(log, s) == Some(parent) {
      assert children[s] in children.Values;
      assert children[s] in list;
    }
  }

  class AgentStates {
    const canon: string -> string
    var states: map<string, TrackedAgent>
    var children: Children
    /** Workspace path to join key, memoised. */
    var keys: map<string, string>

    ghost predicate Valid()
      reads this
    {
      && (forall path | path in keys :: keys[path] == canon(path))
      && FiledById(children)
    }

    ghost function Model(): Fold
      reads this
    {
      Fold(states, children)
    }

    constructor (canon: string -> string)
      ensures Valid() && this.canon == canon && Model() == EMPTY_FOLD
    {
      this.canon := canon;
      states, children, keys := map[], map[], map[];
    }

    static method FromLog(canon: string -> string, events: seq<Event>) returns (folded: AgentStates)
      ensures fresh(folded) && folded.Valid() && folded.canon == canon
      ensures folded.Model() == Replay(canon, events)
    {
      folded := new AgentStates(canon);
      for i := 0 to |events|
        invariant folded.Valid() && folded.canon == canon && fresh(folded)
        invariant folded.Model() == Replay(canon, events[..i])
      {
        ContinueAppend(canon, EMPTY_FOLD, events[..i], [events[i]]);
        assert events[..i + 1] == events[..i] + [events[i]];
        assert [events[i]][1..] == [];
        folded.Apply(events[i]);
      }
      assert events[..|events|] == events;
    }

    method Track(path: string)
      requires Valid()
      modifies this`keys
      ensures Valid() && keys == old(keys)[path := canon(path)]
    {
      keys := keys[path := canon(path)];
    }

    method Apply(ev: Event)
      requires Valid()
      modifies this`states, this`children
      ensures Valid() && Model() == Agents.Apply(canon, old(Model()), ev)
    {
      var belongsToChild := ApplyToChild(ev);
      if belongsToChild {
        return;
      }
      var key := canon(ev.cwd);
      if key !in states {
        states := states[key := UNTRACKED];
      }
      var entry := states[key];
      if ev.name == "SessionStart" {
        entry := entry.(sessionId := ev.sessionId);
      } else {
        if entry.sessionId.Some? && ev.sessionId.Some? && entry.sessionId != ev.sessionId {
          return;
        }
        if entry.sessionId.Some? && ev.sessionId.None? && ev.version.Some? {
          return;
        }
        if entry.sessionId.None? && ev.sessionId.Some? {
          entry := entry.(sessionId := ev.sessionId);
        }
      }
      states := states[key := entry.(agent := FoldAgent(entry.agent, ev))];
    }

    method ApplyToChild(ev: Event) returns (done: bool)
      requires Valid()
      modifies this`children
      ensures Valid()
      ensures done == RoutesToChild(old(children), ev)
      ensures children == if done then ChildStep(old(children), ev) else old(children)
    {
      var session := SessionOf(ev);
      if session.None? {
        return false;
      }
      var parent := ParentOf(ev);
      if parent.Some? {
        if session.value in children {
          var child := children[session.value];
          if child.parentId != parent.value {
            child := child.(parentId := parent.value);
          }
          children := children[session.value := child.(agent := FoldAgent(child.agent, ev))];
        } else {
          var child := ChildSession(session.value, parent.value, DEFAULT_AGENT);
          children := children[session.value := child.(agent := FoldAgent(child.agent, ev))];
        }
        return true;
      }
      if session.value in children {
        var child := children[session.value];
        children := children[session.value := child.(agent := FoldAgent(child.agent, ev))];
        return true;
      }
      return false;
    }

    /** The child sessions of one parent, in session order. */
    method ChildrenOf(parent: string) returns (list: seq<ChildSession>)
      requires Valid()
      ensures ListsChildrenOf(list, children, parent)
    {
      var ids := Text.SortedKeys(set s | s in children && children[s].parentId == parent);
      list := [];
      for i := 0 to |ids|
        invariant |list| == i
        invariant forall j | 0 <= j < i :: ids[j] in children && list[j] == children[ids[j]]
        invariant forall j | 0 <= j < |ids| :: ids[j] in ids
      {
        list := list + [children[ids[i]]];
      }
      forall child
        ensures child in list <==> child in children.Values && child.parentId == parent
      {
        if child in children.Values && child.parentId == parent {
          var s :| s in children && children[s] == child;
          assert s in ids;
          var j :| 0 <= j < |ids| && ids[j] == s;
          assert list[j] == child;
        }
        if child in list {
          var j :| 0 <= j < |list| && list[j] == child;
          assert ids[j] in ids && ids[j] in children;
        }
      }
    }

    /** Looking up a workspace does not depend on which paths were tracked. */
    method AgentFor(path: string) returns (agent: Agent)
      requires Valid()
      ensures agent == TrackedAt(Model(), canon(path)).agent
    {
      var key := if path in keys then keys[path] else canon(path);
      agent := if key in states then states[key].agent else DEFAULT_AGENT;
    }
  }
}
