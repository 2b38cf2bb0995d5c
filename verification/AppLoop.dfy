/** The loop of src/lib.rs around the App: a drained batch is folded whole, and only
    then is the quit flag looked at. */
module AppLoop {
  import opened Options
  import opened App
  import opened AppSteps
  import opened AppIdentities
  import opened AppRuns

  // ----- Batches -----

  function WithoutReloads(batch: seq<Msg>): seq<Msg> {
    if batch == [] then []
    else WithoutReloads(batch[..|batch| - 1]) + (if batch[|batch| - 1].Reload? then [] else [batch[|batch| - 1]])
  }

  /** The order a batch is folded in: its reloads become one, at the end. */
  function FoldOrder(batch: seq<Msg>): seq<Msg> {
    WithoutReloads(batch) + (if Msg.Reload in batch then [Msg.Reload] else [])
  }

  lemma NoMessages()
    ensures WithoutReloads([]) == []
  {
  }

  lemma WithoutReloadsSnoc(batch: seq<Msg>, msg: Msg)
    ensures WithoutReloads(batch + [msg]) == if msg.Reload? then WithoutReloads(batch) else WithoutReloads(batch) + [msg]
  {
    assert (batch + [msg])[..|batch|] == batch;
  }

  function FoldAll(batches: seq<seq<Msg>>): seq<Msg> {
    if batches == [] then [] else FoldAll(batches[..|batches| - 1]) + FoldOrder(batches[|batches| - 1])
  }

  lemma {:induction false} RunAppend(s: System, a: seq<Msg>, b: seq<Msg>)
    ensures Run(s, a + b) == Run(Run(s, a), b)
    ensures Admissible(s, a + b) <==> Admissible(s, a) && Admissible(Run(s, a), b)
    decreases |b|
  {
    hide Deliver, Enabled;
    if b == [] {
      assert a + b == a;
    } else {
      var front, last := b[..|b| - 1], b[|b| - 1];
      assert (a + b)[..|a + b| - 1] == a + front && (a + b)[|a + b| - 1] == last;
      RunAppend(s, a, front);
    }
  }

  // ----- The quit flag -----

  /** The message that sets the flag: a quit key with no deletion pending, or the answer
      of a deletion that succeeded while a quit waited for it. */
  predicate Ends(s: AppState, msg: Msg) {
    match s.core.pendingDeletion
    case None => AsksToQuit(s, msg)
    case Some(pending) => s.core.quitAfterDeletion && IsAnswerTo(msg, pending) && msg.failure.None?
  }

  /** The flag is set by such a message and by no other, and never taken back. */
  lemma FlagSetIff(s: AppState, msg: Msg)
    requires QueueMoves(s.core.lifts) && !Busy(s.core, DEFAULT_WORKSPACE)
    ensures Handle(s, msg).core.shouldQuit <==> s.core.shouldQuit || Ends(s, msg)
  {
    hide Handle, Acts, KeepsTimers, LogPlain, LogAimless, LiftSummary, RestoreWorkspace;
    HandleSteps(s, msg);
    var t := Handle(s, msg);
    if Acts(s, t) {
      ActsLeave(s, t);
    }
  }

  // ----- A deletion confirmed -----

  /** A `y` in the confirmation of a listed workspace, with no deletion pending. */
  predicate Confirms(s: AppState, msg: Msg) {
    && msg.KeyPress? && IsYes(msg.key)
    && s.core.mode.ConfirmDelete?
    && s.core.pendingDeletion.None?
    && Lists(s.core.store, s.core.mode.name)
  }

  /** The deletion a message starts. */
  function Started(s: AppState, msg: Msg): Option<PendingDeletion> {
    if Confirms(s, msg)
    then Some(PendingDeletion(NextOperation(s.core.operations.next), Find(s.core.store, s.core.mode.name).value))
    else None
  }

  lemma ConfirmStarts(s: AppState, key: Key, view: View)
    requires s.core.mode.ConfirmDelete? && s.core.pendingDeletion.None?
    ensures var msg, t := KeyPress(key, view), OnKey(s, key, view);
      t.core.pendingDeletion == Started(s, msg)
  {
    hide Find, NextOperation;
  }

  lemma HelpStartsNothing(s: AppState, key: Key, view: View)
    requires s.core.mode.Help?
    ensures OnKey(s, key, view).core.pendingDeletion == s.core.pendingDeletion
  {
  }

  /** A deletion starts by such a message and by no other. */
  lemma DeletionStartsIff(s: AppState, msg: Msg)
    requires QueueMoves(s.core.lifts) && !Busy(s.core, DEFAULT_WORKSPACE)
    requires s.core.pendingDeletion.None?
    ensures Handle(s, msg).core.pendingDeletion == Started(s, msg)
  {
    HandleSteps(s, msg);
    var t := Handle(s, msg);
    hide OnKey, KeyPool, KeepsTimers, LogPlain, LogAimless, LogClear, LiftSummary, CountLift, ModeKept;
    hide OnForge, OnLifted, OnStoreReloaded, OnSetupCompleted, OnDeletionCompleted, ApplyUpdates, SetStatus, PinStatus;
    if msg.KeyPress? && s.core.mode.ConfirmDelete? {
      ConfirmStarts(s, msg.key, msg.view);
    } else if msg.KeyPress? && s.core.mode.Help? {
      HelpStartsNothing(s, msg.key, msg.view);
    } else if msg.OtherInput? {
      PoolStartsNothing(s, msg.view.pool);
    } else {
      hide Handle, Find;
    }
  }

  lemma PoolStartsNothing(s: AppState, step: PoolStep)
    ensures KeyPool(s, step).core.pendingDeletion == s.core.pendingDeletion
  {
  }

  // ----- Quitting with a deletion running -----

  predicate Unanswered(msgs: seq<Msg>, pending: PendingDeletion) {
    forall i | 0 <= i < |msgs| :: !IsAnswerTo(msgs[i], pending)
  }

  /** The message at `k` is folded after the flag was set, starts a deletion, and that
      deletion's answer is not among the messages behind it. */
  predicate ConfirmedAfterQuit(s: System, msgs: seq<Msg>, k: nat) {
    && k < |msgs|
    && var u := Run(s, msgs[..k]).app;
       && u.core.shouldQuit
       && Started(u, msgs[k]).Some? && Unanswered(msgs[k + 1..], Started(u, msgs[k]).value)
  }

  /** What one more message changes. */
  lemma AnswerEndsDeletion(s: AppState, msg: Msg)
    requires s.core.pendingDeletion.Some? && IsAnswerTo(msg, s.core.pendingDeletion.value)
    ensures Handle(s, msg).core.pendingDeletion.None?
  {
    DeletionCompletedSteps(s, msg.operation, msg.workspace, msg.failure, msg.reloaded);
    hide OnDeletionCompleted, KeepsTimers, LogPlain, LogAimless, RestoreWorkspace;
  }

  lemma DeliverAfter(s: System, msg: Msg)
    requires Inv(s)
    ensures var u, t := s.app.core, Deliver(s, msg).app.core;
      && (u.shouldQuit ==> t.shouldQuit)
      && (t.shouldQuit && !u.shouldQuit ==> t.pendingDeletion.None?)
      && (u.pendingDeletion.None? ==> t.pendingDeletion == Started(s.app, msg))
      && (u.pendingDeletion.Some? ==>
            t.pendingDeletion == if IsAnswerTo(msg, u.pendingDeletion.value) then None else u.pendingDeletion)
  {
    CalmAndSound(s);
    FlagSetIff(s.app, msg);
    hide Inv, OnKey, Ends;
    if s.app.core.pendingDeletion.None? {
      DeletionStartsIff(s.app, msg);
    } else if IsAnswerTo(msg, s.app.core.pendingDeletion.value) {
      AnswerEndsDeletion(s.app, msg);
    } else {
      PendingUntilAnswered(s.app, msg);
    }
    if !s.app.core.shouldQuit && Handle(s.app, msg).core.shouldQuit {
      QuitsWithNothingPending(s.app, msg);
    }
    hide Handle, Started, OnDeletionCompleted;
  }

  /** One message more or less behind the confirmation. */
  lemma ConfirmedFront(s: System, front: seq<Msg>, last: Msg, k: nat)
    requires k < |front|
    ensures (front + [last])[..k] == front[..k]
    ensures ConfirmedAfterQuit(s, front + [last], k)
       <==> ConfirmedAfterQuit(s, front, k) && !IsAnswerTo(last, Started(Run(s, front[..k]).app, front[k]).value)
  {
    hide Run, Started, Unanswered;
    var started := Started(Run(s, front[..k]).app, front[k]);
    assert (front + [last])[k + 1..] == front[k + 1..] + [last];
    if started.Some? {
      UnansweredSnoc(front[k + 1..], last, started.value);
    }
  }

  lemma ConfirmedLast(s: System, front: seq<Msg>, last: Msg)
    ensures ConfirmedAfterQuit(s, front + [last], |front|)
       <==> Run(s, front).app.core.shouldQuit && Started(Run(s, front).app, last).Some?
    ensures Started(Run(s, front).app, last).Some? ==> Run(s, front).app.core.pendingDeletion.None?
  {
    hide Run;
    assert (front + [last])[..|front|] == front && (front + [last])[|front| + 1..] == [];
  }

  lemma {:induction false} ConfirmedStays(s: System, msgs: seq<Msg>, k: nat)
    requires Inv(s) && Admissible(s, msgs) && ConfirmedAfterQuit(s, msgs, k)
    ensures var t := Run(s, msgs).app.core;
      t.shouldQuit && t.pendingDeletion == Started(Run(s, msgs[..k]).app, msgs[k])
    ensures Started(Run(s, msgs[..k]).app, msgs[k]).Some?
    decreases |msgs|
  {
    var front, last := msgs[..|msgs| - 1], msgs[|msgs| - 1];
    assert msgs == front + [last];
    assert k <= |front|;
    hide Inv, Enabled, Deliver, Handle, Started, ConfirmedAfterQuit;
    RunsKeepInv(s, front);
    DeliverAfter(Run(s, front), last);
    if k < |front| {
      ConfirmedFront(s, front, last, k);
      ConfirmedStays(s, front, k);
    } else {
      ConfirmedLast(s, front, last);
      assert msgs[..k] == front;
    }
  }

  lemma UnansweredSnoc(msgs: seq<Msg>, msg: Msg, pending: PendingDeletion)
    ensures Unanswered(msgs + [msg], pending) <==> Unanswered(msgs, pending) && !IsAnswerTo(msg, pending)
  {
    if Unanswered(msgs + [msg], pending) {
      assert (msgs + [msg])[|msgs|] == msg;
      assert forall i | 0 <= i < |msgs| :: msgs[i] == (msgs + [msg])[i];
    }
  }

  lemma {:induction false} LeftDeleting(s: System, msgs: seq<Msg>) returns (k: nat)
    requires Inv(s) && Admissible(s, msgs) && !s.app.core.shouldQuit
    requires Run(s, msgs).app.core.shouldQuit && Run(s, msgs).app.core.pendingDeletion.Some?
    ensures ConfirmedAfterQuit(s, msgs, k)
    decreases |msgs|
  {
    hide Inv, Enabled, Deliver, Started, Handle, ConfirmedAfterQuit;
    var front, last := msgs[..|msgs| - 1], msgs[|msgs| - 1];
    var u := Run(s, front);
    assert msgs == front + [last];
    RunsKeepInv(s, front);
    DeliverAfter(u, last);
    if u.app.core.pendingDeletion.Some? {
      k := LeftDeleting(s, front);
      ConfirmedStays(s, front, k);
      ConfirmedWithin(s, front, k);
      ConfirmedFront(s, front, last, k);
    } else {
      k := |front|;
      ConfirmedLast(s, front, last);
    }
  }

  lemma ConfirmedWithin(s: System, msgs: seq<Msg>, k: nat)
    requires ConfirmedAfterQuit(s, msgs, k)
    ensures k < |msgs|
  {
  }

  /** Folding messages while no quit is set ends with the flag set and a deletion still
      pending exactly when one of them, folded after the quit, confirmed the deletion of
      a listed workspace and its answer is not among the rest. */
  lemma QuitLeavesDeletionIff(s: System, msgs: seq<Msg>)
    requires Inv(s) && Admissible(s, msgs) && !s.app.core.shouldQuit
    ensures var t := Run(s, msgs).app.core;
      t.shouldQuit && t.pendingDeletion.Some? <==> exists k :: ConfirmedAfterQuit(s, msgs, k)
  {
    var t := Run(s, msgs).app.core;
    if t.shouldQuit && t.pendingDeletion.Some? {
      var k := LeftDeleting(s, msgs);
    }
    if k :| ConfirmedAfterQuit(s, msgs, k) {
      ConfirmedStays(s, msgs, k);
    }
    hide Inv, Run, Admissible, ConfirmedAfterQuit;
  }

  /** `q`, `d` and `y` on one row, drained in one batch: the program ends with the
      deletion it has just asked for still running. */
  lemma QuitDeleteConfirm(store: Store, w: Workspace)
    requires Lists(store, DEFAULT_WORKSPACE) && Find(store, w.name) == Some(w) && w.name != DEFAULT_WORKSPACE
    ensures var s, view := Boot(store, false), At(w.name);
            var batch := [KeyPress(Char('q'), view), KeyPress(Char('d'), view), KeyPress(Char('y'), view)];
            var t := Run(s, FoldOrder(batch)).app.core;
      && Admissible(s, FoldOrder(batch))
      && t.shouldQuit && t.pendingDeletion.Some? && t.pendingDeletion.value.workspace.name == w.name
  {
    var s, view := Boot(store, false), At(w.name);
    var q, d, y := KeyPress(Char('q'), view), KeyPress(Char('d'), view), KeyPress(Char('y'), view);
    BootIsCalm(store);
    PressQuitDelete(s.app, w);
    hide *;
    ThreeInOrder(q, d, y);
    EmptyRun(s);
    RunTwo(s, [], q, d);
    RunSnoc(s, [] + [q] + [d], y);
    KeysAreEnabled(Run(s, [] + [q] + [d]), y);
    DeliverKey(s, q);
    DeliverKey(Deliver(s, q), d);
    DeliverKey(Run(s, [] + [q] + [d]), y);
    assert [] + [q] + [d] + [y] == [q, d, y];
  }

  lemma BootIsCalm(store: Store)
    requires Lists(store, DEFAULT_WORKSPACE)
    ensures var s := Boot(store, false).app;
      && QueueMoves(s.core.lifts) && !Busy(s.core, DEFAULT_WORKSPACE)
      && s.core.mode.Normal? && s.core.pendingDeletion.None? && s.core.pendingWorkspace.None? && s.core.store == store
  {
  }

  lemma PressQuitDelete(s: AppState, w: Workspace)
    requires QueueMoves(s.core.lifts) && !Busy(s.core, DEFAULT_WORKSPACE)
    requires s.core.mode.Normal? && s.core.pendingDeletion.None? && s.core.pendingWorkspace.None?
    requires Find(s.core.store, w.name) == Some(w) && w.name != DEFAULT_WORKSPACE
    ensures var view := At(w.name);
            var t := Handle(Handle(Handle(s, KeyPress(Char('q'), view)), KeyPress(Char('d'), view)), KeyPress(Char('y'), view));
      t.core.shouldQuit && IsDeleting(t.core, w.name)
  {
    var view := At(w.name);
    var d, y := KeyPress(Char('d'), view), KeyPress(Char('y'), view);
    var quitting := Handle(s, KeyPress(Char('q'), view));
    assert quitting.core == s.core.(shouldQuit := true) by {
      hide Find;
    }
    hide Handle, Find;
    PressDelete(quitting, w);
    FlagSetIff(quitting, d);
    DeleteKeepsCalm(quitting, d);
    FlagSetIff(Handle(quitting, d), y);
  }

  lemma DeleteKeepsCalm(s: AppState, msg: Msg)
    requires msg.KeyPress? && msg.key == Char('d') && s.core.mode.Normal?
    requires QueueMoves(s.core.lifts) && !Busy(s.core, DEFAULT_WORKSPACE)
    ensures var t := Handle(s, msg); QueueMoves(t.core.lifts) && !Busy(t.core, DEFAULT_WORKSPACE)
  {
    BeginDeleteSelectedSteps(s, msg.view);
    hide BeginDeleteSelected, KeepsTimers, LogPlain, LogClear;
  }

  lemma ThreeInOrder(q: Msg, d: Msg, y: Msg)
    requires q.KeyPress? && d.KeyPress? && y.KeyPress?
    ensures FoldOrder([q, d, y]) == [q, d, y]
  {
    var batch := [q, d, y];
    assert batch[..2] == [q, d] && [q, d][..1] == [q] && [q][..0] == [];
    assert WithoutReloads([q]) == [q];
    assert WithoutReloads([q, d]) == [q, d];
    assert WithoutReloads(batch) == [q, d, y];
  }

  // ----- Batch after batch -----

  lemma FoldsNothing(s: System, batches: seq<seq<Msg>>)
    requires Inv(s)
    ensures FoldAll(batches[..0]) == [] && Run(s, FoldAll(batches[..0])) == s
  {
  }

  lemma {:induction false} FoldAllPrefix(batches: seq<seq<Msg>>, n: nat) returns (rest: seq<Msg>)
    requires n <= |batches|
    ensures FoldAll(batches) == FoldAll(batches[..n]) + rest
    decreases |batches|
  {
    if n == |batches| {
      assert batches[..n] == batches;
      rest := [];
    } else {
      var front := batches[..|batches| - 1];
      assert front[..n] == batches[..n];
      var more := FoldAllPrefix(front, n);
      rest := more + FoldOrder(batches[|batches| - 1]);
    }
  }

  /** One more batch of an admissible run. */
  lemma FoldsOneMore(s: System, batches: seq<seq<Msg>>, n: nat)
    requires Inv(s) && Admissible(s, FoldAll(batches)) && n < |batches|
    ensures var u := Run(s, FoldAll(batches[..n]));
      && Inv(u) && Admissible(u, FoldOrder(batches[n]))
      && Run(s, FoldAll(batches[..n + 1])) == Run(u, FoldOrder(batches[n]))
      && Inv(Run(s, FoldAll(batches[..n + 1])))
  {
    hide Inv, Run, Admissible, FoldOrder;
    var rest := FoldAllPrefix(batches, n + 1);
    var done := FoldAll(batches[..n]);
    assert batches[..n + 1][..n] == batches[..n];
    assert FoldAll(batches[..n + 1]) == done + FoldOrder(batches[n]);
    RunAppend(s, FoldAll(batches[..n + 1]), rest);
    RunAppend(s, done, FoldOrder(batches[n]));
    RunsKeepInv(s, done);
    RunsKeepInv(s, FoldAll(batches[..n + 1]));
  }

  /** The program ends leaving a deletion running exactly when the last batch it folded
      confirmed one after the quit, and the answer was not in that batch. */
  lemma ProgramLeavesDeletionIff(s: System, batches: seq<seq<Msg>>, last: nat)
    requires Inv(s) && Admissible(s, FoldAll(batches)) && last < |batches|
    requires !Run(s, FoldAll(batches[..last])).app.core.shouldQuit
    ensures var u, t := Run(s, FoldAll(batches[..last])), Run(s, FoldAll(batches[..last + 1])).app.core;
      t.shouldQuit && t.pendingDeletion.Some? <==> exists k :: ConfirmedAfterQuit(u, FoldOrder(batches[last]), k)
  {
    hide Inv, Run, Admissible, FoldOrder, ConfirmedAfterQuit;
    FoldsOneMore(s, batches, last);
    QuitLeavesDeletionIff(Run(s, FoldAll(batches[..last])), FoldOrder(batches[last]));
  }
}
