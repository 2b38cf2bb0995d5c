/** What each message asks of the runtime, told from the message and the state alone: the
    log of every run is what its messages asked for, in order, and nothing else but timers. */
module AppEffects {
  import opened Options
  import opened App
  import opened AppSteps
  import opened AppExclusion
  import opened AppLifts

  /** The effects asked for, status timers aside. */
  function Wanted(log: seq<Effect>): seq<Effect> {
    if log == [] then []
    else
      var last := log[|log| - 1];
      Wanted(log[..|log| - 1]) + (if last.ScheduleStatusExpiry? then [] else [last])
  }

  lemma WantedSnoc(log: seq<Effect>, effect: Effect)
    ensures Wanted(log + [effect]) == Wanted(log) + (if effect.ScheduleStatusExpiry? then [] else [effect])
  {
    assert (log + [effect])[..|log|] == log;
  }

  // ----- What a message asks for -----

  /** The row under the cursor, unless it is being set up or deleted. */
  function FreeRow(s: AppState, view: View): Option<Workspace> {
    match view.cursor
    case Some(name) => if Busy(s.core, name) then None else Find(s.core.store, name)
    case None => None
  }

  /** The lift a message asks for: `r` on a free row, `R` while nothing is being set up. */
  function Requested(s: AppState, msg: Msg): Option<LiftJob> {
    match msg
    case KeyPress(Char(c), view) =>
      if s.core.mode.Normal? && c == 'r' && FreeRow(s, view).Some? then Some(LiftWorkspace(FreeRow(s, view).value.name))
      else if s.core.mode.Normal? && c == 'R' && s.core.pendingWorkspace.None? then Some(LiftAll)
      else None
    case _ => None
  }

  /** The rows a forge goes to: those of known path that no forge runs on yet, in order. */
  function Forgeable(rows: seq<Workspace>, forging: set<string>): seq<Target> {
    if rows == [] then []
    else
      (if rows[0].path.Present? && rows[0].name !in forging then [Target(rows[0].name, rows[0].path.path)] else [])
      + Forgeable(rows[1..], forging)
  }

  function Forges(rows: seq<Workspace>, forging: set<string>): seq<Effect> {
    if Forgeable(rows, forging) == [] then [] else [StartForge(Forgeable(rows, forging))]
  }

  /** The rows that are not being deleted. */
  function Kept(core: Core, rows: seq<Workspace>): seq<Workspace> {
    if rows == [] then []
    else (if IsDeleting(core, rows[0].name) then [] else [rows[0]]) + Kept(core, rows[1..])
  }

  function StartsLift(s: AppState, job: Option<LiftJob>): seq<Effect> {
    if job.Some? && s.core.lifts.inFlight.None? then [Lift(job.value)] else []
  }

  function AskedInList(s: AppState, key: Key, view: View): seq<Effect> {
    var row := FreeRow(s, view);
    match key
    case Enter => Opens(row, true)
    case RightArrow => Shows(row)
    case Char(c) =>
      if c == 'o' then Opens(row, false)
      else if c == 'l' then Shows(row)
      else if c == 'C' then
        if row.Some? && view.conflicted && row.value.path.Present?
        then [ResolveWorkspace(row.value.name, row.value.path.path)] else []
      else if c == 'w' then if s.core.world then [] else [LoadGraph]
      else if c == 'W' then [LoadGraph]
      else if c == 'r' || c == 'R' then StartsLift(s, Requested(s, KeyPress(key, view)))
      else if c == 't' then if s.core.pendingWorkspace.None? then [Tidy(TidyWorkspaces)] else []
      else if c == 'u' then if s.core.fetching then [] else [Fetch]
      else if c == 'f' then if row.Some? then Forges([row.value], view.forging) else []
      else if c == 'F' then
        if s.core.pendingWorkspace.None? then Forges(Kept(s.core, s.core.store), view.forging) else []
      else if c == 'g' then
        match Find(s.core.store, DEFAULT_WORKSPACE)
        case Some(w) => Forges([w], view.forging)
        case None => []
      else []
    case _ => []
  }

  function Opens(row: Option<Workspace>, focus: bool): seq<Effect> {
    if row.Some? && row.value.path.Present? then [OpenWorkspace(row.value.name, row.value.path.path, focus, false)] else []
  }

  function Shows(row: Option<Workspace>): seq<Effect> {
    if row.Some? then [LoadDiff(row.value.name), LoadGraph] else []
  }

  function AskedByKey(s: AppState, key: Key, view: View): seq<Effect> {
    match s.core.mode
    case Normal => AskedInList(s, key, view)
    case NewWorkspace(name) =>
      if key == Enter && name != "" && s.core.pendingWorkspace.None? && !Lists(s.core.store, name)
      then [CreateWorkspace(PendingWorkspace(name, view.newPath, view.now))] else []
    case ConfirmDelete(name) =>
      if (key == Char('y') || key == Char('Y')) && s.core.pendingDeletion.None? && Lists(s.core.store, name)
      then [DeleteWorkspace(Find(s.core.store, name).value, NextOperation(s.core.operations.next))] else []
    case ConfirmTidy => if key == Char('y') || key == Char('Y') then [Tidy(Abandon)] else []
    case _ => []
  }

  /** A graph on screen is loaded anew. */
  function Graphs(core: Core): seq<Effect> {
    if core.mode.Graph? || core.mode.Detail? || core.world then [LoadGraph] else []
  }

  function Asked(s: AppState, msg: Msg): seq<Effect> {
    match msg
    case KeyPress(key, view) => AskedByKey(s, key, view)
    case Reload => [ReloadStore]
    case Fetched(_) => [ReloadStore]
    case Tidied(_, _) => [ReloadStore]
    case Lifted(_, _) => [ReloadStore] + (if s.core.lifts.queue == [] then [] else [Lift(s.core.lifts.queue[0])])
    case Forge(ForgeFinished(_)) => Graphs(s.core)
    case WorkspaceOpened(name, created, ok) => if created && !ok then [RecordFailure(name)] else []
    case SetupCompleted(setup, outcome) =>
      if s.core.pendingWorkspace != Some(setup) then []
      else (if outcome.SetupDone? then [] else [RecordFailure(setup.name)]) + [ReloadStore]
    case DeletionCompleted(operation, workspace, _, store) =>
      if s.core.pendingDeletion == Some(PendingDeletion(operation, workspace)) && store.Some? then Graphs(s.core) else []
    case StoreReloaded(store, isDir) => Graphs(s.core) + OpensCreated(s.core, store, isDir)
    case _ => []
  }

  /** The created workspace that awaited a reload, if it is listed where it was created and
      is a directory. */
  function OpensCreated(core: Core, store: Store, isDir: bool): seq<Effect> {
    match core.pendingCreatedOpen
    case Some((name, path)) =>
      var listed := if core.pendingDeletion.Some? then RestoreWorkspace(store, core.pendingDeletion.value.workspace) else store;
      if isDir && OpensAt(listed, name, path) then [OpenWorkspace(name, path, true, true)] else []
    case None => []
  }

  // ----- Primitives -----

  ghost predicate Calm() {
    && (forall s, status {:trigger SetStatus(s, status)} ::
          SetStatus(s, status).core == s.core && Wanted(SetStatus(s, status).log) == Wanted(s.log))
    && (forall s, status {:trigger PinStatus(s, status)} ::
          PinStatus(s, status).core == s.core && PinStatus(s, status).log == s.log)
    && (forall s {:trigger ClearStatus(s)} :: ClearStatus(s).core == s.core && ClearStatus(s).log == s.log)
    && (forall s, effect {:trigger Emit(s, effect)} ::
          && Emit(s, effect).core == s.core
          && Wanted(Emit(s, effect).log) == Wanted(s.log) + (if effect.ScheduleStatusExpiry? then [] else [effect]))
  }

  lemma PrimitivesAreCalm()
    ensures Calm()
  {
    forall s: AppState, status
      ensures SetStatus(s, status).core == s.core && Wanted(SetStatus(s, status).log) == Wanted(s.log)
    {
      WantedSnoc(s.log, ScheduleStatusExpiry(s.footer.generation + 1));
    }
    forall s: AppState, effect
      ensures Emit(s, effect).core == s.core
      ensures Wanted(Emit(s, effect).log) == Wanted(s.log) + (if effect.ScheduleStatusExpiry? then [] else [effect])
    {
      WantedSnoc(s.log, effect);
    }
  }

  /** The step asks for exactly `asked`. */
  predicate AsksFor(s: AppState, t: AppState, asked: seq<Effect>) {
    Wanted(t.log) == Wanted(s.log) + asked
  }

  // ----- The list's keys -----

  lemma RefusalAsks(s: AppState, name: string)
    ensures var (refused, after) := RefuseIfConfiguring(s, name);
      (refused <==> Busy(s.core, name)) && AsksFor(s, after, []) && after.core == s.core
    ensures var (refused, after) := RefuseWhileConfiguring(s);
      (refused <==> s.core.pendingWorkspace.Some?) && AsksFor(s, after, []) && after.core == s.core
  {
    PrimitivesAreCalm();
    hide SetStatus, Wanted;
  }

  lemma OpenAsks(s: AppState, focus: bool, view: View)
    ensures AsksFor(s, OpenSelected(s, focus, view), Opens(FreeRow(s, view), focus))
  {
    PrimitivesAreCalm();
    if view.cursor.Some? {
      RefusalAsks(ClearStatus(s), view.cursor.value);
    }
    hide SetStatus, ClearStatus, Emit, Wanted, RefuseIfConfiguring;
  }

  lemma ResolveAsks(s: AppState, view: View)
    ensures AsksFor(s, ResolveSelected(s, view), AskedInList(s, Char('C'), view))
  {
    PrimitivesAreCalm();
    if view.cursor.Some? {
      RefusalAsks(ClearStatus(s), view.cursor.value);
    }
    hide SetStatus, ClearStatus, Emit, Wanted, RefuseIfConfiguring;
  }

  lemma DetailAsks(s: AppState, view: View)
    ensures AsksFor(s, OpenDetail(s, view), Shows(FreeRow(s, view)))
  {
    hide Wanted, RefuseIfConfiguring, Find, Busy;
    var cleared := ClearStatus(s);
    if Selected(s, view).Some? {
      var name := Selected(s, view).value.name;
      RefusalAsks(cleared, name);
      var shown := InMode(cleared, Detail(name, view.filterFocused));
      WantedSnoc(shown.log, LoadDiff(name));
      WantedSnoc(Emit(shown, LoadDiff(name)).log, LoadGraph);
      assert Wanted(s.log) + [LoadDiff(name)] + [LoadGraph] == Wanted(s.log) + [LoadDiff(name), LoadGraph];
    }
  }

  lemma ConfirmingAsks(s: AppState, view: View)
    ensures AsksFor(s, BeginDeleteSelected(s, view), [])
    ensures AsksFor(s, BeginNew(s), []) && AsksFor(s, BeginTidy(s), [])
    ensures AsksFor(s, TidyAll(s), AskedInList(s, Char('t'), view))
  {
    PrimitivesAreCalm();
    RefusalAsks(s, "");
    if view.cursor.Some? {
      RefusalAsks(ClearStatus(s), view.cursor.value);
    }
    hide SetStatus, ClearStatus, Emit, Wanted, RefuseIfConfiguring, RefuseWhileConfiguring;
  }

  lemma PlainKeysAsk(s: AppState, view: View)
    ensures AsksFor(s, Quit(s), []) && AsksFor(s, InMode(s, Pool(OtherPool)), []) && AsksFor(s, s, [])
    ensures AsksFor(s, ToggleWorld(s), AskedInList(s, Char('w'), view))
    ensures AsksFor(s, OpenGraph(s), AskedInList(s, Char('W'), view))
    ensures AsksFor(s, StartFetch(s), AskedInList(s, Char('u'), view))
  {
    PrimitivesAreCalm();
    hide PinStatus, ClearStatus, Emit, Wanted;
  }

  lemma EnqueueAsks(s: AppState, job: LiftJob)
    requires QueueMoves(s.core.lifts)
    ensures AsksFor(s, EnqueueLift(s, job), StartsLift(s, Some(job)))
  {
    PrimitivesAreCalm();
    hide PinStatus, Emit, Wanted;
  }

  lemma LiftKeyAsks(s: AppState, view: View)
    requires s.core.mode.Normal? && QueueMoves(s.core.lifts)
    ensures AsksFor(s, LiftSelected(s, view), AskedInList(s, Char('r'), view))
  {
    hide EnqueueLift, Wanted, RefuseIfConfiguring, Find, Busy;
    assert Wanted(s.log) + [] == Wanted(s.log);
    if view.cursor.Some? {
      RefusalAsks(s, view.cursor.value);
      EnqueueAsks(s, LiftWorkspace(view.cursor.value));
    }
  }

  lemma LiftAllAsks(s: AppState, view: View)
    requires s.core.mode.Normal? && QueueMoves(s.core.lifts)
    ensures AsksFor(s, LiftEverything(s), AskedInList(s, Char('R'), view))
  {
    hide EnqueueLift, Wanted, RefuseWhileConfiguring;
    RefusalAsks(s, "");
    EnqueueAsks(s, LiftAll);
  }

  lemma {:induction false} ForgeableSnoc(rows: seq<Workspace>, last: Workspace, forging: set<string>)
    ensures Forgeable(rows + [last], forging)
         == Forgeable(rows, forging)
            + (if last.path.Present? && last.name !in forging then [Target(last.name, last.path.path)] else [])
  {
    if rows == [] {
      assert rows + [last] == [last] && [last][1..] == [];
    } else {
      assert (rows + [last])[1..] == rows[1..] + [last];
      ForgeableSnoc(rows[1..], last, forging);
    }
  }

  lemma {:induction false} TargetsAreForgeable(rows: seq<Workspace>, forging: set<string>)
    ensures ForgeTargets(rows, forging) == Forgeable(rows, forging)
  {
    if rows != [] {
      var front, last := rows[..|rows| - 1], rows[|rows| - 1];
      assert rows == front + [last];
      TargetsAreForgeable(front, forging);
      ForgeableSnoc(front, last, forging);
    }
  }

  lemma {:induction false} KeptSnoc(core: Core, rows: seq<Workspace>, last: Workspace)
    ensures Kept(core, rows + [last]) == Kept(core, rows) + (if IsDeleting(core, last.name) then [] else [last])
  {
    if rows == [] {
      assert rows + [last] == [last] && [last][1..] == [];
    } else {
      assert (rows + [last])[1..] == rows[1..] + [last];
      KeptSnoc(core, rows[1..], last);
    }
  }

  lemma {:induction false} WithoutIsKept(s: AppState, rows: seq<Workspace>)
    ensures Without(rows, DeletingName(s)) == Kept(s.core, rows)
  {
    if rows != [] {
      var front, last := rows[..|rows| - 1], rows[|rows| - 1];
      assert rows == front + [last];
      WithoutIsKept(s, front);
      KeptSnoc(s.core, front, last);
    }
  }

  lemma BeginForgeAsks(s: AppState, rows: seq<Workspace>, forging: set<string>)
    ensures AsksFor(s, BeginForge(s, rows, forging), Forges(rows, forging))
  {
    PrimitivesAreCalm();
    TargetsAreForgeable(rows, forging);
    hide SetStatus, ClearStatus, Emit, Wanted, ForgeTargets, Forgeable, SkippedNoPath;
  }

  lemma ForgeKeyAsks(s: AppState, view: View)
    ensures AsksFor(s, ForgeSelected(s, view), AskedInList(s, Char('f'), view))
  {
    hide BeginForge, Wanted, RefuseIfConfiguring, Forges, Find, Busy;
    assert Wanted(s.log) + [] == Wanted(s.log);
    if view.cursor.Some? {
      RefusalAsks(s, view.cursor.value);
      if Find(s.core.store, view.cursor.value).Some? {
        BeginForgeAsks(s, [Find(s.core.store, view.cursor.value).value], view.forging);
      }
    }
  }

  lemma ForgeAllAsks(s: AppState, view: View)
    ensures AsksFor(s, ForgeAll(s, view), AskedInList(s, Char('F'), view))
  {
    hide BeginForge, Wanted, RefuseWhileConfiguring, Forges, Kept, Without;
    RefusalAsks(s, "");
    WithoutIsKept(s, s.core.store);
    BeginForgeAsks(s, Kept(s.core, s.core.store), view.forging);
  }

  lemma ForgeDefaultAsks(s: AppState, view: View)
    ensures AsksFor(s, ForgeDefault(s, view), AskedInList(s, Char('g'), view))
  {
    hide BeginForge, Wanted, Forges, Find;
    assert Wanted(s.log) + [] == Wanted(s.log);
    if Find(s.core.store, DEFAULT_WORKSPACE).Some? {
      BeginForgeAsks(s, [Find(s.core.store, DEFAULT_WORKSPACE).value], view.forging);
    }
  }

  lemma KeyNormalAsks(s: AppState, key: Key, view: View)
    requires s.core.mode.Normal? && QueueMoves(s.core.lifts)
    ensures AsksFor(s, KeyNormal(s, key, view), AskedInList(s, key, view))
  {
    hide OpenSelected, OpenDetail, BeginNew, TidyAll, BeginTidy, StartFetch, ToggleWorld, OpenGraph, Quit, InMode;
    hide BeginDeleteSelected, LiftSelected, LiftEverything, ForgeSelected, ForgeDefault, ForgeAll, ResolveSelected;
    hide AsksFor;
    PlainKeysAsk(s, view);
    match key
    case Enter => OpenAsks(s, true, view);
    case RightArrow => DetailAsks(s, view);
    case Char(c) => CharAsks(s, c, view);
    case _ =>
  }

  lemma CharAsks(s: AppState, c: char, view: View)
    requires s.core.mode.Normal? && QueueMoves(s.core.lifts)
    ensures AsksFor(s, KeyNormal(s, Char(c), view), AskedInList(s, Char(c), view))
  {
    hide OpenSelected, OpenDetail, BeginNew, TidyAll, BeginTidy, StartFetch, ToggleWorld, OpenGraph, Quit, InMode;
    hide BeginDeleteSelected, LiftSelected, LiftEverything, ForgeSelected, ForgeDefault, ForgeAll, ResolveSelected;
    hide AsksFor, Opens, Shows, FreeRow, Forges, Kept, StartsLift, Requested, Find;
    PlainKeysAsk(s, view);
    match c
    case 'o' => OpenAsks(s, false, view);
    case 'l' => DetailAsks(s, view);
    case 'C' => ResolveAsks(s, view);
    case 'r' => LiftKeyAsks(s, view);
    case 'R' => LiftAllAsks(s, view);
    case 'f' => ForgeKeyAsks(s, view);
    case 'F' => ForgeAllAsks(s, view);
    case 'g' => ForgeDefaultAsks(s, view);
    case _ => ConfirmingAsks(s, view);
  }

  // ----- Every other key -----

  lemma CreateAsks(s: AppState, name: string, view: View)
    requires s.core.mode == NewWorkspace(name)
    ensures AsksFor(s, CreateNamed(InMode(s, Normal), name, view), AskedByKey(s, Enter, view))
  {
    PrimitivesAreCalm();
    hide SetStatus, PinStatus, Emit, Wanted, Find;
  }

  lemma DeleteAsks(s: AppState, name: string, view: View)
    requires s.core.mode == ConfirmDelete(name)
    ensures AsksFor(s, DeleteNamed(InMode(s, Normal), name), AskedByKey(s, Char('y'), view))
  {
    PrimitivesAreCalm();
    hide SetStatus, PinStatus, Emit, Wanted, Find, NextOperation;
  }

  lemma ModalKeysAsk(s: AppState, key: Key, view: View)
    ensures AsksFor(s, KeyPool(s, view.pool), []) && AsksFor(s, s, [])
    ensures forall mode: Mode :: AsksFor(s, InMode(s, mode), [])
    ensures s.core.mode.NewWorkspace? ==>
              AsksFor(s, KeyNewWorkspace(s, s.core.mode.buffer, key, view), AskedByKey(s, key, view))
    ensures s.core.mode.ConfirmDelete? ==>
              AsksFor(s, KeyConfirmDelete(s, s.core.mode.name, key), AskedByKey(s, key, view))
    ensures s.core.mode.ConfirmTidy? ==> AsksFor(s, KeyConfirmTidy(s, key), AskedByKey(s, key, view))
  {
    PrimitivesAreCalm();
    hide SetStatus, PinStatus, Emit, Wanted, CreateNamed, DeleteNamed;
    match s.core.mode
    case NewWorkspace(name) => CreateAsks(s, name, view);
    case ConfirmDelete(name) => DeleteAsks(s, name, view);
    case _ =>
  }

  lemma KeyAsks(s: AppState, key: Key, view: View)
    requires QueueMoves(s.core.lifts)
    ensures AsksFor(s, OnKey(s, key, view), AskedByKey(s, key, view))
  {
    hide KeyNormal, KeyNewWorkspace, KeyConfirmDelete, KeyConfirmTidy, KeyPool, AsksFor, InMode;
    ModalKeysAsk(s, key, view);
    if s.core.mode.Normal? {
      KeyNormalAsks(s, key, view);
    }
  }

  // ----- Completions -----

  lemma {:induction false} UpdatesAsk(s: AppState, updates: seq<PoolUpdate>)
    ensures AsksFor(s, ApplyUpdates(s, updates), [])
  {
    if updates != [] {
      UpdatesAsk(s, updates[..|updates| - 1]);
      PrimitivesAreCalm();
      hide SetStatus, Wanted;
    }
  }

  lemma LiftedAsks(s: AppState, job: LiftJob, result: LiftResult)
    ensures AsksFor(s, OnLifted(s, job, result), Asked(s, Lifted(job, result)))
  {
    PrimitivesAreCalm();
    hide SetStatus, PinStatus, Emit, Wanted, LiftSummary;
  }

  lemma SetupAsks(s: AppState, setup: PendingWorkspace, outcome: SetupResult)
    ensures AsksFor(s, OnSetupCompleted(s, setup, outcome), Asked(s, SetupCompleted(setup, outcome)))
  {
    PrimitivesAreCalm();
    hide SetStatus, Emit, Wanted;
  }

  lemma GraphAsks(s: AppState)
    ensures AsksFor(s, RefreshGraphIfVisible(s), Graphs(s.core)) && RefreshGraphIfVisible(s).core == s.core
  {
    PrimitivesAreCalm();
    hide Emit, Wanted;
  }

  lemma DeletionAsks(
    s: AppState, operation: nat, workspace: Workspace, failure: Option<string>, store: Option<Store>)
    ensures AsksFor(s, OnDeletionCompleted(s, operation, workspace, failure, store),
                    Asked(s, DeletionCompleted(operation, workspace, failure, store)))
  {
    hide SetStatus, Wanted, AfterStoreChanged, ReportDeletion;
    var settled := s.(core := s.core.(pendingDeletion := None));
    var changed := if store.Some? then AfterStoreChanged(WithStore(settled, store.value)) else settled;
    if store.Some? {
      ChangeAsks(settled, store.value);
    }
    OutcomeAsks(changed, workspace.name, failure);
    assert Wanted(s.log) + [] == Wanted(s.log);
  }

  lemma ChangeAsks(s: AppState, store: Store)
    requires s.core.pendingDeletion.None?
    ensures AsksFor(s, AfterStoreChanged(WithStore(s, store)), Graphs(s.core))
  {
    GraphAsks(WithStore(s, store));
    hide Wanted, RefreshGraphIfVisible;
  }

  lemma OutcomeAsks(s: AppState, name: string, failure: Option<string>)
    ensures AsksFor(s, ReportDeletion(s, name, failure), [])
  {
    PrimitivesAreCalm();
    hide Wanted, SetStatus;
  }

  lemma OpenCreatedAsks(s: AppState, isDir: bool)
    ensures AsksFor(s, OpenPendingCreated(s, isDir),
                    match s.core.pendingCreatedOpen
                    case Some((name, path)) =>
                      if isDir && OpensAt(s.core.store, name, path) then [OpenWorkspace(name, path, true, true)] else []
                    case None => [])
  {
    PrimitivesAreCalm();
    hide SetStatus, Emit, Wanted, Find;
  }

  lemma ReloadAsks(s: AppState, store: Store, isDir: bool)
    ensures AsksFor(s, OnStoreReloaded(s, store, isDir), Asked(s, StoreReloaded(store, isDir)))
  {
    GraphAsks(RestorePendingDeletion(WithStore(s, store)));
    OpenCreatedAsks(AfterStoreChanged(WithStore(s, store)), isDir);
    hide OpenPendingCreated, Wanted, RefreshGraphIfVisible, RestoreWorkspace, OpensAt;
  }

  lemma NoticeAsks(s: AppState, msg: Msg)
    requires IsNotice(msg)
    ensures AsksFor(s, Handle(s, msg), Asked(s, msg))
  {
    PrimitivesAreCalm();
    hide SetStatus, PinStatus, ClearStatus, Emit, Wanted, ApplyUpdates, RefreshGraphIfVisible;
    hide OnKey, OnLifted, OnStoreReloaded, OnSetupCompleted, OnDeletionCompleted;
    match msg
    case DispatchUpdates(updates) => UpdatesAsk(s, updates);
    case Forge(ForgeFinished(clean)) =>
      GraphAsks(if clean.Some? then SetStatus(s, ForgeReport(clean.value)) else s);
    case _ =>
  }

  /** Every message asks the runtime for exactly what it and the state call for. */
  lemma HandleAsks(s: AppState, msg: Msg)
    requires QueueMoves(s.core.lifts)
    ensures Wanted(Handle(s, msg).log) == Wanted(s.log) + Asked(s, msg)
  {
    hide OnKey, KeyPool, OnLifted, OnStoreReloaded, OnSetupCompleted, OnDeletionCompleted, Wanted;
    match msg
    case KeyPress(key, view) => KeyAsks(s, key, view);
    case OtherInput(view) => ModalKeysAsk(s, OtherKey, view);
    case Lifted(job, result) => LiftedAsks(s, job, result);
    case SetupCompleted(setup, outcome) => SetupAsks(s, setup, outcome);
    case DeletionCompleted(operation, workspace, failure, store) =>
      DeletionAsks(s, operation, workspace, failure, store);
    case StoreReloaded(store, isDir) => ReloadAsks(s, store, isDir);
    case _ => NoticeAsks(s, msg);
  }
}
