/** Over every run: which lifts are accepted, what the log holds, and when a created
    workspace is opened. */
module AppRequests {
  import opened Options
  import opened App
  import opened AppSteps
  import opened AppExclusion
  import opened AppLifts
  import opened AppEffects
  import opened AppRuns

  // ----- Accepted lifts -----

  /** The job a message adds: the one it asks for, unless it is running or waiting. */
  function Accepts(s: AppState, msg: Msg): seq<LiftJob> {
    match Requested(s, msg)
    case Some(job) => if job in Outstanding(s.core.lifts) then [] else [job]
    case None => []
  }

  lemma EnqueueAccepts(s: AppState, job: LiftJob)
    ensures EnqueueLift(s, job).core.lifts.accepted
         == s.core.lifts.accepted + (if job in Outstanding(s.core.lifts) then [] else [job])
  {
    assert job in Outstanding(s.core.lifts) <==> s.core.lifts.inFlight == Some(job) || job in s.core.lifts.queue;
    assert s.core.lifts.accepted + [] == s.core.lifts.accepted;
    hide Outstanding;
  }

  lemma LiftKeyAccepts(s: AppState, view: View)
    requires s.core.mode.Normal?
    ensures LiftSelected(s, view).core.lifts.accepted == s.core.lifts.accepted + Accepts(s, KeyPress(Char('r'), view))
  {
    hide EnqueueLift, RefuseIfConfiguring, Outstanding, Find, Busy;
    assert s.core.lifts.accepted + [] == s.core.lifts.accepted;
    if view.cursor.Some? {
      RefusalAsks(s, view.cursor.value);
      EnqueueAccepts(s, LiftWorkspace(view.cursor.value));
    }
  }

  lemma LiftAllAccepts(s: AppState, view: View)
    requires s.core.mode.Normal?
    ensures LiftEverything(s).core.lifts.accepted == s.core.lifts.accepted + Accepts(s, KeyPress(Char('R'), view))
  {
    hide EnqueueLift, RefuseWhileConfiguring, Outstanding;
    assert s.core.lifts.accepted + [] == s.core.lifts.accepted;
    RefusalAsks(s, "");
    EnqueueAccepts(s, LiftAll);
  }

  predicate SameLifts(s: AppState, t: AppState) {
    t.core.lifts == s.core.lifts
  }

  lemma BrowseKeepsLifts(s: AppState, t: AppState)
    requires Browses(s, t)
    ensures SameLifts(s, t)
  {
  }

  lemma RowActionsKeepLifts(s: AppState, focus: bool, view: View)
    ensures SameLifts(s, OpenSelected(s, focus, view)) && SameLifts(s, OpenDetail(s, view))
    ensures SameLifts(s, ResolveSelected(s, view)) && SameLifts(s, BeginDeleteSelected(s, view))
  {
    hide Browses, SameLifts;
    OpenSelectedSteps(s, focus, view);
    BrowseKeepsLifts(s, OpenSelected(s, focus, view));
    OpenDetailSteps(s, view);
    BrowseKeepsLifts(s, OpenDetail(s, view));
    ResolveSelectedSteps(s, view);
    BrowseKeepsLifts(s, ResolveSelected(s, view));
    BeginDeleteSelectedSteps(s, view);
    BrowseKeepsLifts(s, BeginDeleteSelected(s, view));
    hide OpenSelected, OpenDetail, ResolveSelected, BeginDeleteSelected;
  }

  lemma GlobalActionsKeepLifts(s: AppState, view: View)
    requires !Busy(s.core, DEFAULT_WORKSPACE)
    ensures SameLifts(s, BeginNew(s)) && SameLifts(s, TidyAll(s)) && SameLifts(s, BeginTidy(s))
    ensures SameLifts(s, StartFetch(s)) && SameLifts(s, ToggleWorld(s)) && SameLifts(s, OpenGraph(s))
    ensures SameLifts(s, ForgeSelected(s, view)) && SameLifts(s, ForgeDefault(s, view)) && SameLifts(s, ForgeAll(s, view))
  {
    hide Browses, SameLifts;
    ConfiguringActionsStep(s);
    BrowseKeepsLifts(s, BeginNew(s));
    BrowseKeepsLifts(s, TidyAll(s));
    BrowseKeepsLifts(s, BeginTidy(s));
    PlainActionsStep(s);
    BrowseKeepsLifts(s, StartFetch(s));
    BrowseKeepsLifts(s, ToggleWorld(s));
    BrowseKeepsLifts(s, OpenGraph(s));
    ForgeActionsStep(s, view);
    BrowseKeepsLifts(s, ForgeSelected(s, view));
    BrowseKeepsLifts(s, ForgeDefault(s, view));
    BrowseKeepsLifts(s, ForgeAll(s, view));
    hide BeginNew, TidyAll, BeginTidy, StartFetch, ToggleWorld, OpenGraph, ForgeSelected, ForgeDefault, ForgeAll, Quits;
  }

  lemma OtherListKeysKeepLifts(s: AppState, key: Key, view: View)
    requires s.core.mode.Normal? && key != Char('r') && key != Char('R') && !Busy(s.core, DEFAULT_WORKSPACE)
    ensures SameLifts(s, KeyNormal(s, key, view))
  {
    hide OpenSelected, OpenDetail, BeginNew, TidyAll, BeginTidy, StartFetch, ToggleWorld, OpenGraph;
    hide BeginDeleteSelected, LiftSelected, LiftEverything, ForgeSelected, ForgeDefault, ForgeAll, ResolveSelected;
    RowActionsKeepLifts(s, true, view);
    RowActionsKeepLifts(s, false, view);
    GlobalActionsKeepLifts(s, view);
  }

  lemma NamingKeepsLifts(s: AppState, buffer: string, key: Key, view: View)
    ensures SameLifts(s, KeyNewWorkspace(s, buffer, key, view))
  {
    hide Find;
  }

  lemma ConfirmingKeepsLifts(s: AppState, name: string, key: Key)
    ensures SameLifts(s, KeyConfirmDelete(s, name, key)) && SameLifts(s, KeyConfirmTidy(s, key))
  {
    hide Find, NextOperation;
  }

  lemma PoolKeepsLifts(s: AppState, step: PoolStep)
    ensures SameLifts(s, KeyPool(s, step))
  {
  }

  lemma OtherModesKeepLifts(s: AppState, key: Key, view: View)
    requires !s.core.mode.Normal?
    ensures SameLifts(s, OnKey(s, key, view))
  {
    hide KeyNormal, KeyNewWorkspace, KeyConfirmDelete, KeyConfirmTidy, KeyPool;
    PoolKeepsLifts(s, view.pool);
    match s.core.mode
    case NewWorkspace(buffer) => NamingKeepsLifts(s, buffer, key, view);
    case ConfirmDelete(name) => ConfirmingKeepsLifts(s, name, key);
    case ConfirmTidy => ConfirmingKeepsLifts(s, "", key);
    case _ =>
  }

  /** A message adds to the accepted lifts exactly the job it asks for, if that job is
      neither running nor waiting, and otherwise nothing. */
  lemma AcceptsExactly(s: AppState, msg: Msg)
    requires QueueMoves(s.core.lifts) && !Busy(s.core, DEFAULT_WORKSPACE)
    ensures Handle(s, msg).core.lifts.accepted == s.core.lifts.accepted + Accepts(s, msg)
  {
    assert s.core.lifts.accepted + [] == s.core.lifts.accepted;
    hide OnKey, KeyPool, OnLifted, OnStoreReloaded, OnSetupCompleted, OnDeletionCompleted, OnForge, ApplyUpdates;
    hide SetStatus, PinStatus, Emit;
    match msg
    case KeyPress(key, view) => KeyAccepts(s, key, view);
    case OtherInput(view) => PoolKeepsLifts(s, view.pool);
    case _ => AnswersKeepAccepted(s, msg);
  }

  lemma AnswersKeepAccepted(s: AppState, msg: Msg)
    requires QueueMoves(s.core.lifts) && !Busy(s.core, DEFAULT_WORKSPACE)
    requires !msg.KeyPress? && !msg.OtherInput?
    ensures Handle(s, msg).core.lifts.accepted == s.core.lifts.accepted
  {
    hide Handle, KeyStep, KeepsTimers, LogPlain, LogAimless, LiftSummary, RestoreWorkspace;
    HandleSteps(s, msg);
  }

  lemma KeyAccepts(s: AppState, key: Key, view: View)
    requires !Busy(s.core, DEFAULT_WORKSPACE)
    ensures OnKey(s, key, view).core.lifts.accepted == s.core.lifts.accepted + Accepts(s, KeyPress(key, view))
  {
    hide KeyNewWorkspace, KeyConfirmDelete, KeyConfirmTidy, KeyPool, KeyHelp, Outstanding, Find;
    assert s.core.lifts.accepted + [] == s.core.lifts.accepted;
    if !s.core.mode.Normal? {
      OtherModesKeepLifts(s, key, view);
    } else if key == Char('r') {
      LiftKeyAccepts(s, view);
      hide LiftSelected;
    } else if key == Char('R') {
      LiftAllAccepts(s, view);
      hide LiftEverything;
    } else {
      OtherListKeysKeepLifts(s, key, view);
      hide KeyNormal;
    }
  }

  /** The jobs a run adds: those asked for, in order, less those outstanding when asked. */
  function AcceptedOver(s: System, msgs: seq<Msg>): seq<LiftJob> {
    if msgs == [] then []
    else
      var front := msgs[..|msgs| - 1];
      AcceptedOver(s, front) + Accepts(Run(s, front).app, msgs[|msgs| - 1])
  }

  /** Over every run the accepted lifts are those, so with the queue's conservation they
      are the lifts that finish, run and wait, in the order asked for. */
  lemma {:induction false} RunsAcceptExactly(s: System, msgs: seq<Msg>)
    requires Inv(s) && Admissible(s, msgs)
    ensures Run(s, msgs).app.core.lifts.accepted == s.app.core.lifts.accepted + AcceptedOver(s, msgs)
  {
    hide Inv, Enabled, Handle, Accepts, BatchAfter;
    if msgs == [] {
      assert s.app.core.lifts.accepted + [] == s.app.core.lifts.accepted;
    } else {
      var front, last := msgs[..|msgs| - 1], msgs[|msgs| - 1];
      RunsAcceptExactly(s, front);
      RunsKeepInv(s, front);
      CalmAndSound(Run(s, front));
      AcceptsExactly(Run(s, front).app, last);
    }
  }

  // ----- The log -----

  function AskedOver(s: System, msgs: seq<Msg>): seq<Effect> {
    if msgs == [] then []
    else
      var front := msgs[..|msgs| - 1];
      AskedOver(s, front) + Asked(Run(s, front).app, msgs[|msgs| - 1])
  }

  /** Timers aside, the log of every run is what its messages asked for, in order. */
  lemma {:induction false} LogIsWhatWasAsked(s: System, msgs: seq<Msg>)
    requires Inv(s) && Admissible(s, msgs)
    ensures Wanted(Run(s, msgs).app.log) == Wanted(s.app.log) + AskedOver(s, msgs)
  {
    hide Inv, Enabled, Handle, Asked, BatchAfter, Wanted;
    if msgs == [] {
      assert Wanted(s.app.log) + [] == Wanted(s.app.log);
    } else {
      var front, last := msgs[..|msgs| - 1], msgs[|msgs| - 1];
      LogIsWhatWasAsked(s, front);
      RunsKeepInv(s, front);
      CalmAndSound(Run(s, front));
      HandleAsks(Run(s, front).app, last);
    }
  }

  // ----- The answer of a setup -----

  /** What the answer of the pending setup leaves: nothing set up any more, the workspace
      awaiting its tab exactly when all went well, and otherwise its failure recorded, in
      those words shown, and no tab awaited for it. */
  lemma SetupAnswer(s: AppState, setup: PendingWorkspace, outcome: SetupResult)
    requires s.core.pendingWorkspace == Some(setup)
    ensures var t := OnSetupCompleted(s, setup, outcome);
      && t.core.pendingWorkspace.None?
      && t.core.pendingCreatedOpen
         == (if outcome.SetupDone? then Some((setup.name, setup.path)) else s.core.pendingCreatedOpen)
      && (RecordFailure(setup.name) in Asked(s, SetupCompleted(setup, outcome)) <==> !outcome.SetupDone?)
      && Wanted(t.log) == Wanted(s.log) + Asked(s, SetupCompleted(setup, outcome))
      && t.footer.status == match outcome
           case SetupDone => s.footer.status
           case SetupCreateFailed => Some(CreateFailed(setup.name))
           case SetupHookFailed => Some(HookFailed(setup.name))
  {
    SetupAsks(s, setup, outcome);
    hide Wanted;
  }

  /** What the answer of the pending deletion leaves: the store it brought, and its outcome
      shown. */
  lemma DeletionAnswer(s: AppState, failure: Option<string>, store: Option<Store>)
    requires s.core.pendingDeletion.Some?
    ensures var pending := s.core.pendingDeletion.value;
            var t := OnDeletionCompleted(s, pending.operation, pending.workspace, failure, store);
      && t.core.store == (if store.Some? then store.value else s.core.store)
      && t.footer.status
         == Some(if failure.None? then Deleted(pending.workspace.name) else DeletionFailed(failure.value))
  {
    var pending := s.core.pendingDeletion.value;
    DeletionCompletedSteps(s, pending.operation, pending.workspace, failure, store);
    hide RestoreWorkspace, RefreshGraphIfVisible, KeepsTimers;
  }

  // ----- Created workspaces -----

  /** Somewhere in the run the setup of this workspace, then pending, was answered as done. */
  predicate SetUpIn(s: System, msgs: seq<Msg>, name: string, path: string) {
    msgs != [] && (
      || SetUpIn(s, msgs[..|msgs| - 1], name, path)
      || SetsUpNow(Run(s, msgs[..|msgs| - 1]).app, msgs[|msgs| - 1], name, path))
  }

  predicate SetsUpNow(s: AppState, msg: Msg, name: string, path: string) {
    && msg.SetupCompleted? && msg.outcome.SetupDone?
    && s.core.pendingWorkspace == Some(msg.setup)
    && msg.setup.name == name && msg.setup.path == path
  }

  /** A workspace comes to await its tab by such an answer alone. */
  lemma AwaitsBySetup(s: AppState, msg: Msg, name: string, path: string)
    requires QueueMoves(s.core.lifts) && !Busy(s.core, DEFAULT_WORKSPACE)
    requires Handle(s, msg).core.pendingCreatedOpen == Some((name, path))
    ensures s.core.pendingCreatedOpen == Some((name, path)) || SetsUpNow(s, msg, name, path)
  {
    hide OnSetupCompleted, OnKey, OnLifted, OnStoreReloaded, OnDeletionCompleted, ApplyUpdates, OnForge, Busy, Asked, Wanted;
    if msg.SetupCompleted? && s.core.pendingWorkspace == Some(msg.setup) {
      SetupAnswer(s, msg.setup, msg.outcome);
    } else {
      hide Handle;
      OthersAwait(s, msg);
    }
  }

  lemma OthersAwait(s: AppState, msg: Msg)
    requires QueueMoves(s.core.lifts) && !Busy(s.core, DEFAULT_WORKSPACE)
    requires !(msg.SetupCompleted? && s.core.pendingWorkspace == Some(msg.setup))
    ensures Handle(s, msg).core.pendingCreatedOpen in {s.core.pendingCreatedOpen, None}
  {
    hide Handle, Acts, KeepsTimers, LogPlain, LogAimless, LiftSummary, CountLift, RestoreWorkspace;
    HandleSteps(s, msg);
    var t := Handle(s, msg);
    if Acts(s, t) {
      ActsAwait(s, t);
    }
  }

  lemma ActsAwait(s: AppState, t: AppState)
    requires Acts(s, t)
    ensures t.core.pendingCreatedOpen == s.core.pendingCreatedOpen
  {
    hide KeepsTimers, LogPlain, LogClear, ModeKept, NextOperation, Find, Clear;
  }

  /** A created workspace's tab is asked for only while it awaits it. */
  lemma OpensOnlyAwaited(s: AppState, msg: Msg, e: Effect)
    requires e in Asked(s, msg) && e.OpenWorkspace? && e.created
    ensures s.core.pendingCreatedOpen == Some((e.tab, e.path))
  {
    hide Find, RestoreWorkspace, Forgeable, Kept;
  }

  /** So over every run from the start, a created workspace's tab is opened only after its
      own setup was answered as done. */
  lemma {:induction false} CreatedOpensAreSetUp(store: Store, world: bool, msgs: seq<Msg>)
    requires Lists(store, DEFAULT_WORKSPACE) && Admissible(Boot(store, world), msgs)
    ensures var s := Boot(store, world);
            var t := Run(s, msgs).app;
      && (t.core.pendingCreatedOpen.Some? ==>
            SetUpIn(s, msgs, t.core.pendingCreatedOpen.value.0, t.core.pendingCreatedOpen.value.1))
      && (forall e | e in Wanted(t.log) && e.OpenWorkspace? && e.created :: SetUpIn(s, msgs, e.tab, e.path))
  {
    var s := Boot(store, world);
    BootsSafely(store, world);
    if msgs == [] {
      assert Wanted([]) == [];
    } else {
      var front, last := msgs[..|msgs| - 1], msgs[|msgs| - 1];
      CreatedOpensAreSetUp(store, world, front);
      RunsKeepInv(s, front);
      CalmAndSound(Run(s, front));
      var u, t := Run(s, front).app, Run(s, msgs).app;
      HandleAsks(u, last);
      hide Inv, Enabled, Handle, Asked, BatchAfter, Wanted, SetsUpNow;
      if t.core.pendingCreatedOpen.Some? {
        AwaitsBySetup(u, last, t.core.pendingCreatedOpen.value.0, t.core.pendingCreatedOpen.value.1);
      }
      forall e | e in Wanted(t.log) && e.OpenWorkspace? && e.created
        ensures SetUpIn(s, msgs, e.tab, e.path)
      {
        if e !in Wanted(u.log) {
          OpensOnlyAwaited(u, last, e);
        }
      }
    }
  }
}
