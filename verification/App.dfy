/** The TUI event loop of src/app.rs as a state machine: how `App::handle` folds one
    message into the state and which effects it asks the runtime for.

    The functions here are the specification; `AppShell.dfy` holds the class whose
    methods update the fields in place. What a fold reads from outside the modelled
    state (the row under the cursor, the clock, a Worker Pool view's own state) is
    part of the message. */
module App {
  import opened Options
  import Text

  // ----- Workspaces -----

  datatype WorkspacePath = Present(path: string) | Missing(path: string) | NotKnown

  datatype Workspace = Workspace(name: string, path: WorkspacePath)

  type Store = seq<Workspace>

  const DEFAULT_WORKSPACE := "default"

  function Find(store: Store, name: string): (r: Option<Workspace>)
    ensures r.Some? ==> r.value in store && r.value.name == name
  {
    if store == [] then None
    else if store[0].name == name then Some(store[0])
    else Find(store[1..], name)
  }

  predicate Lists(store: Store, name: string) {
    Find(store, name).Some?
  }

  /** The default workspace first, then by name. */
  predicate Precedes(a: string, b: string) {
    b != DEFAULT_WORKSPACE && (a == DEFAULT_WORKSPACE || Text.Before(a, b))
  }

  function InsertRow(row: Workspace, store: Store): Store {
    if store == [] || !Precedes(store[0].name, row.name) then [row] + store
    else [store[0]] + InsertRow(row, store[1..])
  }

  /** The stable sort the list is kept in. */
  function SortRows(store: Store): Store {
    if store == [] then [] else InsertRow(store[0], SortRows(store[1..]))
  }

  /** Keeps a pending deletion visible after the store was replaced. */
  function RestoreWorkspace(store: Store, workspace: Workspace): Store {
    if Lists(store, workspace.name) then store else SortRows(store + [workspace])
  }

  /** Restoring a workspace changes what no other name finds. */
  lemma RestoreFinds(store: Store, workspace: Workspace, name: string)
    ensures Find(RestoreWorkspace(store, workspace), name)
         == if Lists(store, name) || workspace.name != name then Find(store, name) else Some(workspace)
  {
    FindSnoc(store, workspace, name);
    FindSorted(store + [workspace], name);
    assert [workspace][1..] == [];
    hide SortRows;
  }

  lemma RestoreLists(store: Store, workspace: Workspace, name: string)
    ensures Lists(RestoreWorkspace(store, workspace), name) <==> Lists(store, name) || workspace.name == name
  {
    RestoreFinds(store, workspace, name);
  }

  lemma {:induction false} FindInserted(row: Workspace, store: Store, name: string)
    ensures Find(InsertRow(row, store), name) == if row.name == name then Some(row) else Find(store, name)
  {
    if store == [] || !Precedes(store[0].name, row.name) {
      assert ([row] + store)[1..] == store;
    } else {
      Text.BeforeTotal(store[0].name, row.name);
      assert InsertRow(row, store)[1..] == InsertRow(row, store[1..]);
      FindInserted(row, store[1..], name);
    }
  }

  predicate InOrder(store: Store) {
    forall i, j | 0 <= i < j < |store| :: !Precedes(store[j].name, store[i].name)
  }

  lemma PrecedesOrders(a: string, b: string, c: string)
    ensures !(Precedes(a, b) && Precedes(b, a))
    ensures !Precedes(b, a) && !Precedes(c, b) ==> !Precedes(c, a)
  {
    Text.BeforeTotal(a, b);
    Text.BeforeTotal(b, c);
    Text.BeforeTotal(a, c);
    if Text.Before(a, b) && Text.Before(b, c) {
      Text.BeforeTransitive(a, b, c);
    }
    hide Text.Before;
  }

  lemma {:induction false} InsertKeepsOrder(row: Workspace, store: Store)
    requires InOrder(store)
    ensures InOrder(InsertRow(row, store))
    ensures multiset(InsertRow(row, store)) == multiset(store) + multiset{row}
  {
    var inserted := InsertRow(row, store);
    hide Precedes;
    if store == [] || !Precedes(store[0].name, row.name) {
      forall j | 0 <= j < |store|
        ensures !Precedes(store[j].name, row.name)
      {
        if j > 0 {
          PrecedesOrders(row.name, store[0].name, store[j].name);
        }
      }
    } else {
      assert store == [store[0]] + store[1..];
      InsertKeepsOrder(row, store[1..]);
      PrecedesOrders(store[0].name, row.name, row.name);
      var tail := InsertRow(row, store[1..]);
      forall j | 0 <= j < |tail|
        ensures !Precedes(tail[j].name, store[0].name)
      {
        assert tail[j] in multiset(tail);
        assert tail[j] == row || tail[j] in store[1..];
      }
    }
  }

  /** The list is in order and holds the rows it was given. */
  lemma {:induction false} SortOrders(store: Store)
    ensures InOrder(SortRows(store)) && multiset(SortRows(store)) == multiset(store)
  {
    if store != [] {
      assert store == [store[0]] + store[1..];
      SortOrders(store[1..]);
      InsertKeepsOrder(store[0], SortRows(store[1..]));
    }
  }

  /** Sorting changes what no name finds, even where names repeat. */
  lemma {:induction false} FindSorted(store: Store, name: string)
    ensures Find(SortRows(store), name) == Find(store, name)
  {
    if store != [] {
      FindSorted(store[1..], name);
      FindInserted(store[0], SortRows(store[1..]), name);
    }
  }

  lemma {:induction false} FindSnoc(store: Store, workspace: Workspace, name: string)
    ensures Find(store + [workspace], name)
         == if Lists(store, name) then Find(store, name) else Find([workspace], name)
  {
    if store == [] {
      assert store + [workspace] == [workspace];
    } else {
      assert (store + [workspace])[1..] == store[1..] + [workspace];
      FindSnoc(store[1..], workspace, name);
    }
  }

  datatype PendingWorkspace = PendingWorkspace(name: string, path: string, startedAt: nat)

  datatype PendingDeletion = PendingDeletion(operation: nat, workspace: Workspace)

  // ----- Modes, effects and footer messages -----

  datatype PoolKind = SendInput | AliasInput | OtherPool

  /** `Pool` also stands for the Pool confirmations. */
  datatype Mode =
    | Normal
    | NewWorkspace(buffer: string)
    | ConfirmDelete(name: string)
    | ConfirmTidy
    | Pool(kind: PoolKind)
    | Help(previous: Mode)
    | Detail(workspace: string, filterFocused: bool)
    | Graph

  datatype LiftJob = LiftWorkspace(name: string) | LiftAll

  datatype LiftResult = Rebased | UpToDate | LiftError(error: string)

  datatype TidyKind = TidyWorkspaces | Abandon

  datatype Target = Target(name: string, path: string)

  datatype Effect =
    | ScheduleStatusExpiry(generation: nat)
    | LoadDiff(diffOf: string)
    | LoadGraph
    | CreateWorkspace(setup: PendingWorkspace)
    | DeleteWorkspace(deleted: Workspace, operation: nat)
    | OpenWorkspace(tab: string, path: string, focus: bool, created: bool)
    | ResolveWorkspace(resolved: string, path: string)
    | Fetch
    | ReloadStore
    | Lift(job: LiftJob)
    | Tidy(kind: TidyKind)
    | StartForge(targets: seq<Target>)
    | RecordFailure(about: string)

  datatype Status =
    | WaitingForDeletion
    | StillSettingUp(name: string)
    | BeingDeleted(name: string)
    | NoPath(name: string)
    | NoConflicts(name: string)
    | DefaultIsUndeletable
    | NameRequired
    | SetupAlreadyRunning
    | AlreadyExists(name: string)
    | SettingUp(name: string)
    | CreateFailed(name: string)
    | HookFailed(name: string)
    | Created(name: string)
    | Disappeared(name: string)
    | OpenFailed(name: string, afterCreate: bool)
    | Resolving(name: string, ok: bool)
    | DeletionAlreadyRunning
    | Deleting(name: string)
    | Deleted(name: string)
    | DeletionFailed(error: string)
    | AlreadyQueued(job: LiftJob)
    | Lifting(job: LiftJob, queued: nat, failed: nat)
    | LiftFailed(errors: seq<string>)
    | LiftedJob(job: LiftJob)
    | LiftedCount(count: nat)
    | NothingToLift(job: LiftJob)
    | Fetching
    | FetchEnded(ok: bool)
    | TidyEnded(kind: TidyKind, ok: bool)
    | NothingToForge
    | ForgeReport(text: string)
    | PoolReport(text: string)
    | InputDied

  // ----- State -----

  /** The serial lift queue. `accepted` is history: every job ever enqueued. */
  datatype Lifts = Lifts(
    queue: seq<LiftJob>, inFlight: Option<LiftJob>, done: nat, failures: seq<string>, accepted: seq<LiftJob>)

  /** The footer. `armed` is history: the message each armed generation showed. */
  datatype Footer = Footer(status: Option<Status>, generation: nat, armed: map<nat, Status>)

  /** A deletion asked of the runtime under the `index`-th identity allocated. */
  datatype Issue = Issue(index: nat, operation: nat, workspace: Workspace)

  /** Operation identities. `allocations` and `deletions` are history. */
  datatype Operations = Operations(next: nat, allocations: nat, deletions: seq<Issue>)

  /** The fields that decide what the App does next. */
  datatype Core = Core(
    store: Store,
    operations: Operations,
    fetching: bool,
    lifts: Lifts,
    pendingWorkspace: Option<PendingWorkspace>,
    pendingCreatedOpen: Option<(string, string)>,
    pendingDeletion: Option<PendingDeletion>,
    quitAfterDeletion: bool,
    mode: Mode,
    world: bool,
    shouldQuit: bool)

  /** The App: its core, its footer, and the log of every effect ever emitted, which
      is history. */
  datatype AppState = AppState(core: Core, footer: Footer, log: seq<Effect>)

  function Start(store: Store, world: bool): AppState {
    AppState(
      Core(store, Operations(0, 0, []), false, Lifts([], None, 0, [], []), None, None, None, false, Normal, world, false),
      Footer(None, 0, map[]), [])
  }

  // ----- Messages -----

  datatype Key = Char(c: char) | Enter | Esc | Backspace | RightArrow | OtherKey

  datatype Notice = Silent | Transient(status: Status) | Pinned(status: Status)

  /** What a key does in a Worker Pool view, or in the text buffers it opens: the
      mode it leaves, `None` for the list, an identity for the command it submits,
      and the footer. */
  datatype PoolStep = PoolStep(next: Option<PoolKind>, allocates: bool, notice: Notice)

  /** What a key press reads: the name under the cursor, whether that workspace is
      conflicted, which forges are active, the clock and the path a new workspace
      would get, whether the typed character is alphanumeric, and what the focused
      diff viewer or Pool view makes of the key. */
  datatype View = View(
    cursor: Option<string>, conflicted: bool, forging: set<string>, now: nat, newPath: string,
    alphanumeric: bool, detailExits: bool, filterFocused: bool, pool: PoolStep)

  datatype PoolUpdate = ShowStatus(status: Status) | RefreshPool | ShowPoolPreview | ClosePoolMode

  datatype ForgeUpdate = ForgeProgress(notice: Option<string>) | ForgeFinished(clean: Option<string>) | ForgeAborted(reason: string)

  datatype SetupResult = SetupDone | SetupCreateFailed | SetupHookFailed

  datatype Msg =
    | KeyPress(key: Key, view: View)
    | OtherInput(view: View)
    | InputFailed
    | Reload
    | DispatchUpdates(updates: seq<PoolUpdate>)
    | Forge(update: ForgeUpdate)
    | Fetched(fetchedOk: bool)
    | Lifted(job: LiftJob, result: LiftResult)
    | WorkspaceOpened(name: string, created: bool, openedOk: bool)
    | ResolveOpened(name: string, resolveOk: bool)
    | Tidied(kind: TidyKind, tidyOk: bool)
    | StoreReloaded(store: Store, isDir: bool)
    | SetupCompleted(setup: PendingWorkspace, outcome: SetupResult)
    | DeletionCompleted(operation: nat, workspace: Workspace, failure: Option<string>, reloaded: Option<Store>)
    | StatusExpired(generation: nat)
    | Ambient

  // ----- Primitives -----

  function Emit(s: AppState, effect: Effect): AppState {
    s.(log := s.log + [effect])
  }

  function InMode(s: AppState, mode: Mode): AppState {
    s.(core := s.core.(mode := mode))
  }

  function ClearStatus(s: AppState): AppState {
    s.(footer := s.footer.(status := None))
  }

  /** Show a message until it is replaced. */
  function PinStatus(s: AppState, status: Status): AppState {
    s.(footer := s.footer.(status := Some(status), generation := s.footer.generation + 1))
  }

  /** Show a message and arm its expiry. */
  function SetStatus(s: AppState, status: Status): AppState {
    var shown := PinStatus(s, status);
    var generation := shown.footer.generation;
    Emit(shown.(footer := shown.footer.(armed := shown.footer.armed[generation := status])),
         ScheduleStatusExpiry(generation))
  }

  const U64_LIMIT: nat := 0x1_0000_0000_0000_0000

  /** `wrapping_add(1).max(1)` on 64 bits. */
  function NextOperation(operation: nat): nat {
    var wrapped := (operation + 1) % U64_LIMIT;
    if wrapped == 0 then 1 else wrapped
  }

  function AllocateOperation(s: AppState): AppState {
    s.(core := s.core.(operations := s.core.operations.(
         next := NextOperation(s.core.operations.next), allocations := s.core.operations.allocations + 1)))
  }

  function RequestReload(s: AppState): AppState {
    Emit(s, ReloadStore)
  }

  function RefreshGraphIfVisible(s: AppState): AppState {
    if s.core.mode.Graph? || s.core.mode.Detail? || s.core.world then Emit(s, LoadGraph) else s
  }

  // ----- Lifts -----

  function WithLifts(s: AppState, lifts: Lifts): AppState {
    s.(core := s.core.(lifts := lifts))
  }

  function EnqueueLift(s: AppState, job: LiftJob): AppState {
    if s.core.lifts.inFlight == Some(job) || job in s.core.lifts.queue then PinStatus(s, AlreadyQueued(job))
    else
      var lifts := s.core.lifts;
      PumpLift(WithLifts(s, lifts.(queue := lifts.queue + [job], accepted := lifts.accepted + [job])))
  }

  function PumpLift(s: AppState): AppState {
    var lifts := s.core.lifts;
    RefreshLiftStatus(
      if lifts.inFlight.None? && lifts.queue != [] then
        Emit(WithLifts(s, lifts.(queue := lifts.queue[1..], inFlight := Some(lifts.queue[0]))), Lift(lifts.queue[0]))
      else s)
  }

  function RefreshLiftStatus(s: AppState): AppState {
    if s.core.lifts.inFlight.None? then s
    else PinStatus(s, Lifting(s.core.lifts.inFlight.value, |s.core.lifts.queue|, |s.core.lifts.failures|))
  }

  /** The completion's outcome counted, with nothing in flight. */
  function CountLift(lifts: Lifts, result: LiftResult): Lifts {
    match result
    case Rebased => lifts.(inFlight := None, done := lifts.done + 1)
    case UpToDate => lifts.(inFlight := None)
    case LiftError(error) => lifts.(inFlight := None, failures := lifts.failures + [error])
  }

  /** What the footer says once the queue has drained. */
  function LiftSummary(lifts: Lifts, job: LiftJob): Status {
    if lifts.failures != [] then LiftFailed(lifts.failures)
    else if lifts.done > 0 then
      if job.LiftAll? || lifts.done == 1 then LiftedJob(job) else LiftedCount(lifts.done)
    else NothingToLift(job)
  }

  function OnLifted(s: AppState, job: LiftJob, result: LiftResult): AppState {
    var counted := CountLift(s.core.lifts, result);
    var s := RequestReload(WithLifts(s, counted));
    if counted.queue == [] then WithLifts(SetStatus(s, LiftSummary(counted, job)), counted.(done := 0, failures := []))
    else PumpLift(s)
  }

  // ----- Refusals -----

  predicate IsDeleting(core: Core, name: string) {
    core.pendingDeletion.Some? && core.pendingDeletion.value.workspace.name == name
  }

  predicate IsConfiguring(core: Core, name: string) {
    core.pendingWorkspace.Some? && core.pendingWorkspace.value.name == name
  }

  /** `refuse_if_configuring`: whether the workspace is being deleted or set up, and
      the state after saying so. */
  function RefuseIfConfiguring(s: AppState, name: string): (bool, AppState) {
    if IsDeleting(s.core, name) then (true, SetStatus(s, BeingDeleted(name)))
    else if IsConfiguring(s.core, name) then (true, SetStatus(s, StillSettingUp(name)))
    else (false, s)
  }

  function RefuseWhileConfiguring(s: AppState): (bool, AppState) {
    if s.core.pendingWorkspace.Some? then (true, SetStatus(s, StillSettingUp(s.core.pendingWorkspace.value.name)))
    else (false, s)
  }

  function Selected(s: AppState, view: View): Option<Workspace> {
    if view.cursor.Some? then Find(s.core.store, view.cursor.value) else None
  }

  // ----- Normal-mode actions -----

  function OpenSelected(s: AppState, focus: bool, view: View): AppState {
    var s := ClearStatus(s);
    match Selected(s, view)
    case None => s
    case Some(w) =>
      var (refused, after) := RefuseIfConfiguring(s, w.name);
      if refused then after
      else if !w.path.Present? then SetStatus(s, NoPath(w.name))
      else Emit(s, OpenWorkspace(w.name, w.path.path, focus, false))
  }

  function ResolveSelected(s: AppState, view: View): AppState {
    var s := ClearStatus(s);
    match Selected(s, view)
    case None => s
    case Some(w) =>
      var (refused, after) := RefuseIfConfiguring(s, w.name);
      if refused then after
      else if !view.conflicted then SetStatus(s, NoConflicts(w.name))
      else if !w.path.Present? then SetStatus(s, NoPath(w.name))
      else Emit(s, ResolveWorkspace(w.name, w.path.path))
  }

  function OpenDetail(s: AppState, view: View): AppState {
    var s := ClearStatus(s);
    match Selected(s, view)
    case None => s
    case Some(w) =>
      var (refused, after) := RefuseIfConfiguring(s, w.name);
      if refused then after
      else Emit(Emit(InMode(s, Detail(w.name, view.filterFocused)), LoadDiff(w.name)), LoadGraph)
  }

  function BeginDeleteSelected(s: AppState, view: View): AppState {
    var s := ClearStatus(s);
    match Selected(s, view)
    case None => s
    case Some(w) =>
      if w.name == DEFAULT_WORKSPACE then SetStatus(s, DefaultIsUndeletable)
      else
        var (refused, after) := RefuseIfConfiguring(s, w.name);
        if refused then after else InMode(s, ConfirmDelete(w.name))
  }

  function LiftSelected(s: AppState, view: View): AppState {
    match Selected(s, view)
    case None => s
    case Some(w) =>
      var (refused, after) := RefuseIfConfiguring(s, w.name);
      if refused then after else EnqueueLift(s, LiftWorkspace(w.name))
  }

  function LiftEverything(s: AppState): AppState {
    var (refused, after) := RefuseWhileConfiguring(s);
    if refused then after else EnqueueLift(s, LiftAll)
  }

  function BeginNew(s: AppState): AppState {
    var (refused, after) := RefuseWhileConfiguring(s);
    if refused then after else InMode(ClearStatus(s), NewWorkspace(""))
  }

  function TidyAll(s: AppState): AppState {
    var (refused, after) := RefuseWhileConfiguring(s);
    if refused then after else Emit(s, Tidy(TidyWorkspaces))
  }

  function BeginTidy(s: AppState): AppState {
    var (refused, after) := RefuseWhileConfiguring(s);
    if refused then after else InMode(ClearStatus(s), ConfirmTidy)
  }

  function StartFetch(s: AppState): AppState {
    if s.core.fetching then s else Emit(PinStatus(s.(core := s.core.(fetching := true)), Fetching), Fetch)
  }

  function Quit(s: AppState): AppState {
    if s.core.pendingDeletion.Some? then PinStatus(s.(core := s.core.(quitAfterDeletion := true)), WaitingForDeletion)
    else s.(core := s.core.(shouldQuit := true))
  }

  function ToggleWorld(s: AppState): AppState {
    if s.core.world then s.(core := s.core.(world := false)) else Emit(s.(core := s.core.(world := true)), LoadGraph)
  }

  function OpenGraph(s: AppState): AppState {
    Emit(InMode(ClearStatus(s), Graph), LoadGraph)
  }

  // ----- Forge -----

  function ForgeTargets(workspaces: seq<Workspace>, forging: set<string>): seq<Target> {
    if workspaces == [] then []
    else
      var w := workspaces[|workspaces| - 1];
      ForgeTargets(workspaces[..|workspaces| - 1], forging)
      + (if w.name !in forging && w.path.Present? then [Target(w.name, w.path.path)] else [])
  }

  /** The last workspace skipped because its path is not known. */
  function SkippedNoPath(workspaces: seq<Workspace>, forging: set<string>): Option<string> {
    if workspaces == [] then None
    else
      var w := workspaces[|workspaces| - 1];
      if w.name !in forging && !w.path.Present? then Some(w.name)
      else SkippedNoPath(workspaces[..|workspaces| - 1], forging)
  }

  function BeginForge(s: AppState, workspaces: seq<Workspace>, forging: set<string>): AppState {
    var s := ClearStatus(s);
    var targets, skipped := ForgeTargets(workspaces, forging), SkippedNoPath(workspaces, forging);
    if targets != [] then Emit(s, StartForge(targets))
    else if skipped.Some? then SetStatus(s, NoPath(skipped.value))
    else SetStatus(s, NothingToForge)
  }

  function ForgeSelected(s: AppState, view: View): AppState {
    match Selected(s, view)
    case None => s
    case Some(w) =>
      var (refused, after) := RefuseIfConfiguring(s, w.name);
      if refused then after else BeginForge(s, [w], view.forging)
  }

  function ForgeDefault(s: AppState, view: View): AppState {
    match Find(s.core.store, DEFAULT_WORKSPACE)
    case None => s
    case Some(w) => BeginForge(s, [w], view.forging)
  }

  function Without(store: Store, name: Option<string>): seq<Workspace> {
    if store == [] then []
    else
      Without(store[..|store| - 1], name)
      + (if Some(store[|store| - 1].name) == name then [] else [store[|store| - 1]])
  }

  function DeletingName(s: AppState): Option<string> {
    if s.core.pendingDeletion.Some? then Some(s.core.pendingDeletion.value.workspace.name) else None
  }

  function ForgeAll(s: AppState, view: View): AppState {
    var (refused, after) := RefuseWhileConfiguring(s);
    if refused then after else BeginForge(s, Without(s.core.store, DeletingName(s)), view.forging)
  }

  function OnForge(s: AppState, update: ForgeUpdate): AppState {
    match update
    case ForgeProgress(notice) => if notice.Some? then SetStatus(s, ForgeReport(notice.value)) else s
    case ForgeFinished(clean) =>
      RefreshGraphIfVisible(if clean.Some? then SetStatus(s, ForgeReport(clean.value)) else s)
    case ForgeAborted(reason) => SetStatus(s, ForgeReport(reason))
  }

  // ----- Setup -----

  function CreateNamed(s: AppState, name: string, view: View): AppState {
    if name == "" then SetStatus(s, NameRequired)
    else if s.core.pendingWorkspace.Some? then SetStatus(s, SetupAlreadyRunning)
    else if Lists(s.core.store, name) then SetStatus(s, AlreadyExists(name))
    else
      var workspace := PendingWorkspace(name, view.newPath, view.now);
      Emit(PinStatus(s.(core := s.core.(pendingWorkspace := Some(workspace))), SettingUp(name)), CreateWorkspace(workspace))
  }

  function OnSetupCompleted(s: AppState, workspace: PendingWorkspace, outcome: SetupResult): AppState {
    if s.core.pendingWorkspace != Some(workspace) then s
    else
      var s := s.(core := s.core.(pendingWorkspace := None));
      match outcome
      case SetupDone => RequestReload(s.(core := s.core.(pendingCreatedOpen := Some((workspace.name, workspace.path)))))
      case SetupCreateFailed =>
        RequestReload(SetStatus(Emit(s, RecordFailure(workspace.name)), CreateFailed(workspace.name)))
      case SetupHookFailed =>
        RequestReload(SetStatus(Emit(s, RecordFailure(workspace.name)), HookFailed(workspace.name)))
  }

  function OpenPendingCreated(s: AppState, isDir: bool): AppState {
    match s.core.pendingCreatedOpen
    case None => s
    case Some((name, path)) =>
      var s := s.(core := s.core.(pendingCreatedOpen := None));
      var found := Find(s.core.store, name);
      if found.Some? && found.value.path == Present(path) && isDir
      then Emit(SetStatus(s, Created(name)), OpenWorkspace(name, path, true, true))
      else SetStatus(s, Disappeared(name))
  }

  // ----- Deletion -----

  function DeleteNamed(s: AppState, name: string): AppState {
    if s.core.pendingDeletion.Some? then SetStatus(s, DeletionAlreadyRunning)
    else
      match Find(s.core.store, name)
      case None => s
      case Some(workspace) =>
        var s := AllocateOperation(s);
        var operation := s.core.operations.next;
        var issue := Issue(s.core.operations.allocations, operation, workspace);
        var s := s.(core := s.core.(
          operations := s.core.operations.(deletions := s.core.operations.deletions + [issue]),
          pendingDeletion := Some(PendingDeletion(operation, workspace)),
          quitAfterDeletion := false));
        Emit(PinStatus(s, Deleting(name)), DeleteWorkspace(workspace, operation))
  }

  function OnDeletionCompleted(
    s: AppState, operation: nat, workspace: Workspace, failure: Option<string>, store: Option<Store>): AppState
  {
    if s.core.pendingDeletion != Some(PendingDeletion(operation, workspace)) then s
    else
      var s := s.(core := s.core.(pendingDeletion := None));
      ReportDeletion(
        if store.Some? then AfterStoreChanged(WithStore(s, store.value)) else s, workspace.name, failure)
  }

  /** A deletion that succeeded lets a waiting quit through; one that failed drops it. */
  function ReportDeletion(s: AppState, name: string, failure: Option<string>): AppState {
    match failure
    case None =>
      var s := SetStatus(s, Deleted(name));
      if s.core.quitAfterDeletion then s.(core := s.core.(shouldQuit := true)) else s
    case Some(error) => SetStatus(s.(core := s.core.(quitAfterDeletion := false)), DeletionFailed(error))
  }

  function WithStore(s: AppState, store: Store): AppState {
    s.(core := s.core.(store := store))
  }

  function RestorePendingDeletion(s: AppState): AppState {
    if s.core.pendingDeletion.Some?
    then WithStore(s, RestoreWorkspace(s.core.store, s.core.pendingDeletion.value.workspace)) else s
  }

  function AfterStoreChanged(s: AppState): AppState {
    RefreshGraphIfVisible(RestorePendingDeletion(s))
  }

  function OnStoreReloaded(s: AppState, store: Store, isDir: bool): AppState {
    OpenPendingCreated(AfterStoreChanged(WithStore(s, store)), isDir)
  }

  // ----- Keys -----

  function KeyNormal(s: AppState, key: Key, view: View): AppState {
    match key
    case Esc => Quit(s)
    case Enter => OpenSelected(s, true, view)
    case RightArrow => OpenDetail(s, view)
    case Char(c) =>
      if c == 'q' then Quit(s)
      else if c == 'n' then BeginNew(s)
      else if c == 'o' then OpenSelected(s, false, view)
      else if c == 'l' then OpenDetail(s, view)
      else if c == 'w' then ToggleWorld(s)
      else if c == 'W' then OpenGraph(s)
      else if c == 'd' then BeginDeleteSelected(s, view)
      else if c == 'r' then LiftSelected(s, view)
      else if c == 'R' then LiftEverything(s)
      else if c == 't' then TidyAll(s)
      else if c == 'T' then BeginTidy(s)
      else if c == 'u' then StartFetch(s)
      else if c == 'f' then ForgeSelected(s, view)
      else if c == 'F' then ForgeAll(s, view)
      else if c == 'g' then ForgeDefault(s, view)
      else if c == 'p' then InMode(s, Pool(OtherPool))
      else if c == 'C' then ResolveSelected(s, view)
      else s
    case _ => s
  }

  function KeyNewWorkspace(s: AppState, buffer: string, key: Key, view: View): AppState {
    match key
    case Esc => InMode(s, Normal)
    case Enter => CreateNamed(InMode(s, Normal), buffer, view)
    case Backspace => if buffer == "" then s else InMode(s, NewWorkspace(buffer[..|buffer| - 1]))
    case Char(c) =>
      if view.alphanumeric || c == '-' || c == '_' then InMode(s, NewWorkspace(buffer + [c])) else s
    case _ => s
  }

  predicate IsYes(key: Key) {
    key == Char('y') || key == Char('Y')
  }

  predicate IsNo(key: Key) {
    key == Char('n') || key == Char('N') || key == Esc
  }

  function KeyConfirmDelete(s: AppState, name: string, key: Key): AppState {
    if IsYes(key) then DeleteNamed(InMode(s, Normal), name)
    else if IsNo(key) then InMode(s, Normal)
    else s
  }

  function KeyConfirmTidy(s: AppState, key: Key): AppState {
    if IsYes(key) then Emit(InMode(s, Normal), Tidy(Abandon))
    else if IsNo(key) then InMode(s, Normal)
    else s
  }

  function KeyPool(s: AppState, step: PoolStep): AppState {
    var s := InMode(s, if step.next.Some? then Pool(step.next.value) else Normal);
    var s := if step.allocates then AllocateOperation(s) else s;
    match step.notice
    case Silent => s
    case Transient(status) => SetStatus(s, status)
    case Pinned(status) => PinStatus(s, status)
  }

  function KeyHelp(s: AppState, previous: Mode, key: Key): AppState {
    if key == Char('?') || key == Esc then InMode(s, previous) else s
  }

  function KeyDetail(s: AppState, workspace: string, view: View): AppState {
    InMode(s, if view.detailExits then Normal else Detail(workspace, view.filterFocused))
  }

  function KeyGraph(s: AppState, key: Key): AppState {
    if key == Esc || key == Char('q') || key == Char('W') then InMode(s, Normal) else s
  }

  /** A question mark goes into the focused text buffer instead of opening help. */
  predicate TakesQuestionMark(mode: Mode) {
    mode == Pool(AliasInput) || (mode.Detail? && mode.filterFocused)
  }

  function OnKey(s: AppState, key: Key, view: View): AppState {
    if s.core.mode == Pool(SendInput) then KeyPool(s, view.pool)
    else if key == Char('?') && !s.core.mode.Help? && !TakesQuestionMark(s.core.mode) then InMode(s, Help(s.core.mode))
    else
      match s.core.mode
      case Normal => KeyNormal(s, key, view)
      case NewWorkspace(buffer) => KeyNewWorkspace(s, buffer, key, view)
      case ConfirmDelete(name) => KeyConfirmDelete(s, name, key)
      case ConfirmTidy => KeyConfirmTidy(s, key)
      case Pool(_) => KeyPool(s, view.pool)
      case Help(previous) => KeyHelp(s, previous, key)
      case Detail(workspace, _) => KeyDetail(s, workspace, view)
      case Graph => KeyGraph(s, key)
  }

  // ----- The fold -----

  function ApplyUpdate(s: AppState, update: PoolUpdate): AppState {
    match update
    case ShowStatus(status) => SetStatus(s, status)
    case RefreshPool => s
    case ShowPoolPreview => InMode(s, Pool(OtherPool))
    case ClosePoolMode => InMode(s, Normal)
  }

  function ApplyUpdates(s: AppState, updates: seq<PoolUpdate>): AppState {
    if updates == [] then s
    else ApplyUpdate(ApplyUpdates(s, updates[..|updates| - 1]), updates[|updates| - 1])
  }

  function Expire(s: AppState, generation: nat): AppState {
    if generation == s.footer.generation then ClearStatus(s) else s
  }

  function Handle(s: AppState, msg: Msg): AppState {
    match msg
    case KeyPress(key, view) => OnKey(s, key, view)
    case OtherInput(view) => if s.core.mode == Pool(SendInput) then KeyPool(s, view.pool) else s
    case InputFailed => PinStatus(s, InputDied)
    case Reload => RequestReload(s)
    case DispatchUpdates(updates) => ApplyUpdates(s, updates)
    case Forge(update) => OnForge(s, update)
    case Fetched(ok) => RequestReload(SetStatus(s.(core := s.core.(fetching := false)), FetchEnded(ok)))
    case Lifted(job, result) => OnLifted(s, job, result)
    case WorkspaceOpened(name, created, ok) =>
      if ok then s
      else SetStatus(if created then Emit(s, RecordFailure(name)) else s, OpenFailed(name, created))
    case ResolveOpened(name, ok) => SetStatus(s, Resolving(name, ok))
    case Tidied(kind, ok) => RequestReload(SetStatus(s, TidyEnded(kind, ok)))
    case StoreReloaded(store, isDir) => OnStoreReloaded(s, store, isDir)
    case SetupCompleted(setup, outcome) => OnSetupCompleted(s, setup, outcome)
    case DeletionCompleted(operation, workspace, failure, store) =>
      OnDeletionCompleted(s, operation, workspace, failure, store)
    case StatusExpired(generation) => Expire(s, generation)
    case Ambient => s
  }
}
