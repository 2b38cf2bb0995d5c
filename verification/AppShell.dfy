/** The App of src/app.rs: one object whose methods update its fields in place. Each
    method is proved to take the state exactly where the function of the same name in
    the module App takes it, so what is proved of those functions holds of the object. */
module AppShell {
  import opened Options
  import opened Spec = App
  import opened AppRuns
  import opened AppLoop

  class App {
    var store: Store
    var nextOperation: nat
    var fetching: bool
    var liftQueue: seq<LiftJob>
    var liftInFlight: Option<LiftJob>
    var liftDone: nat
    var liftFailures: seq<string>
    var pendingWorkspace: Option<PendingWorkspace>
    var pendingCreatedOpen: Option<(string, string)>
    var pendingDeletion: Option<PendingDeletion>
    var quitAfterDeletion: bool
    var effects: seq<Effect>
    var mode: Mode
    var world: bool
    var status: Option<Status>
    var statusGen: nat
    var shouldQuit: bool

    ghost var accepted: seq<LiftJob>
    ghost var armed: map<nat, Status>
    ghost var allocations: nat
    ghost var deletions: seq<Issue>
    ghost var drained: seq<Effect>

    /** The state the specification speaks of; its log is every effect handed to the
        runtime followed by those not yet drained. */
    ghost function State(): AppState
      reads this
    {
      AppState(
        Core(store, Operations(nextOperation, allocations, deletions), fetching,
             Lifts(liftQueue, liftInFlight, liftDone, liftFailures, accepted),
             pendingWorkspace, pendingCreatedOpen, pendingDeletion, quitAfterDeletion, mode, world, shouldQuit),
        Footer(status, statusGen, armed),
        drained + effects)
    }

    constructor (store: Store, world: bool)
      ensures State() == Start(store, world) && effects == []
    {
      this.store, this.world, mode := store, world, Normal;
      nextOperation, allocations, deletions, fetching := 0, 0, [], false;
      liftQueue, liftInFlight, liftDone, liftFailures, accepted := [], None, 0, [], [];
      pendingWorkspace, pendingCreatedOpen, pendingDeletion := None, None, None;
      quitAfterDeletion, shouldQuit := false, false;
      status, statusGen, armed := None, 0, map[];
      effects, drained := [], [];
    }

    // ----- Primitives -----

    method Emit(effect: Effect)
      modifies `effects
      ensures State() == Spec.Emit(old(State()), effect) && drained == old(drained)
    {
      effects := effects + [effect];
      assert drained + effects == old(drained + effects) + [effect];
    }

    /** Everything emitted since the last drain, once. */
    method TakeEffects() returns (taken: seq<Effect>)
      modifies `effects, `drained
      ensures State() == old(State())
      ensures taken == old(effects) && effects == [] && drained == old(drained) + taken
    {
      taken := effects;
      drained := drained + effects;
      effects := [];
      assert drained + effects == old(drained + effects);
    }

    method PinStatus(message: Status)
      modifies `status, `statusGen
      ensures State() == Spec.PinStatus(old(State()), message) && drained == old(drained)
    {
      statusGen := statusGen + 1;
      status := Some(message);
    }

    method SetStatus(message: Status)
      modifies `status, `statusGen, `armed, `effects
      ensures State() == Spec.SetStatus(old(State()), message) && drained == old(drained)
    {
      PinStatus(message);
      armed := armed[statusGen := message];
      Emit(ScheduleStatusExpiry(statusGen));
    }

    method AllocateOperation() returns (operation: nat)
      modifies `nextOperation, `allocations
      ensures State() == Spec.AllocateOperation(old(State())) && drained == old(drained)
      ensures operation == nextOperation
    {
      nextOperation := (nextOperation + 1) % U64_LIMIT;
      if nextOperation < 1 {
        nextOperation := 1;
      }
      allocations := allocations + 1;
      operation := nextOperation;
    }

    method Reload()
      modifies `effects
      ensures State() == RequestReload(old(State())) && drained == old(drained)
    {
      Emit(ReloadStore);
    }

    method RefreshGraphIfVisible()
      modifies `effects
      ensures State() == Spec.RefreshGraphIfVisible(old(State())) && drained == old(drained)
    {
      if mode.Graph? || mode.Detail? || world {
        Emit(LoadGraph);
      }
    }

    // ----- Lifts -----

    method EnqueueLift(job: LiftJob)
      modifies this
      ensures State() == Spec.EnqueueLift(old(State()), job) && drained == old(drained)
    {
      if liftInFlight == Some(job) || job in liftQueue {
        PinStatus(AlreadyQueued(job));
        return;
      }
      liftQueue := liftQueue + [job];
      accepted := accepted + [job];
      PumpLift();
    }

    method PumpLift()
      modifies this
      ensures State() == Spec.PumpLift(old(State())) && drained == old(drained)
    {
      if liftInFlight.None? && liftQueue != [] {
        var job := liftQueue[0];
        liftQueue := liftQueue[1..];
        liftInFlight := Some(job);
        Emit(Lift(job));
      }
      RefreshLiftStatus();
    }

    method RefreshLiftStatus()
      modifies `status, `statusGen
      ensures State() == Spec.RefreshLiftStatus(old(State())) && drained == old(drained)
    {
      if liftInFlight.Some? {
        PinStatus(Lifting(liftInFlight.value, |liftQueue|, |liftFailures|));
      }
    }

    /** The first half of `OnLifted`: the outcome is counted. */
    method CountOutcome(result: LiftResult)
      modifies `liftInFlight, `liftDone, `liftFailures
      ensures State() == WithLifts(old(State()), CountLift(old(State()).core.lifts, result))
    {
      liftInFlight := None;
      match result {
        case Rebased => liftDone := liftDone + 1;
        case UpToDate =>
        case LiftError(error) => liftFailures := liftFailures + [error];
      }
    }

    /** What a drained queue reports. */
    method ReportLifts(job: LiftJob)
      modifies `status, `statusGen, `armed, `effects
      ensures State() == Spec.SetStatus(old(State()), LiftSummary(old(State()).core.lifts, job))
    {
      if liftFailures != [] {
        SetStatus(LiftFailed(liftFailures));
      } else if liftDone > 0 {
        SetStatus(if job.LiftAll? || liftDone == 1 then LiftedJob(job) else LiftedCount(liftDone));
      } else {
        SetStatus(NothingToLift(job));
      }
    }

    method OnLifted(job: LiftJob, result: LiftResult)
      modifies this
      ensures State() == Spec.OnLifted(old(State()), job, result) && drained == old(drained)
    {
      hide CountLift, LiftSummary, Spec.SetStatus, Spec.PumpLift;
      CountOutcome(result);
      Reload();
      if liftQueue == [] {
        ReportLifts(job);
        liftDone := 0;
        liftFailures := [];
      } else {
        PumpLift();
      }
    }

    // ----- Refusals -----

    method RefuseIfConfiguring(name: string) returns (refused: bool)
      modifies this
      ensures State() == Spec.RefuseIfConfiguring(old(State()), name).1 && drained == old(drained)
      ensures refused == Spec.RefuseIfConfiguring(old(State()), name).0
    {
      if pendingDeletion.Some? && pendingDeletion.value.workspace.name == name {
        SetStatus(BeingDeleted(name));
        return true;
      }
      refused := pendingWorkspace.Some? && pendingWorkspace.value.name == name;
      if refused {
        SetStatus(StillSettingUp(name));
      }
    }

    method RefuseWhileConfiguring() returns (refused: bool)
      modifies this
      ensures State() == Spec.RefuseWhileConfiguring(old(State())).1 && drained == old(drained)
      ensures refused == Spec.RefuseWhileConfiguring(old(State())).0
    {
      if pendingWorkspace.None? {
        return false;
      }
      SetStatus(StillSettingUp(pendingWorkspace.value.name));
      refused := true;
    }

    function SelectedWorkspace(view: View): (r: Option<Workspace>)
      reads this
      ensures r == Selected(State(), view)
    {
      if view.cursor.Some? then Find(store, view.cursor.value) else None
    }

    // ----- Normal-mode actions -----

    method OpenSelected(focus: bool, view: View)
      modifies this
      ensures State() == Spec.OpenSelected(old(State()), focus, view) && drained == old(drained)
    {
      status := None;
      var selected := SelectedWorkspace(view);
      if selected.None? {
        return;
      }
      var w := selected.value;
      var refused := RefuseIfConfiguring(w.name);
      if refused {
        return;
      }
      if !w.path.Present? {
        SetStatus(NoPath(w.name));
        return;
      }
      Emit(OpenWorkspace(w.name, w.path.path, focus, false));
    }

    method ResolveSelected(view: View)
      modifies this
      ensures State() == Spec.ResolveSelected(old(State()), view) && drained == old(drained)
    {
      status := None;
      var selected := SelectedWorkspace(view);
      if selected.None? {
        return;
      }
      var w := selected.value;
      var refused := RefuseIfConfiguring(w.name);
      if refused {
        return;
      }
      if !view.conflicted {
        SetStatus(NoConflicts(w.name));
        return;
      }
      if !w.path.Present? {
        SetStatus(NoPath(w.name));
        return;
      }
      Emit(ResolveWorkspace(w.name, w.path.path));
    }

    method OpenDetail(view: View)
      modifies this
      ensures State() == Spec.OpenDetail(old(State()), view) && drained == old(drained)
    {
      status := None;
      var selected := SelectedWorkspace(view);
      if selected.None? {
        return;
      }
      var w := selected.value;
      var refused := RefuseIfConfiguring(w.name);
      if refused {
        return;
      }
      mode := Detail(w.name, view.filterFocused);
      Emit(LoadDiff(w.name));
      Emit(LoadGraph);
    }

    method BeginDeleteSelected(view: View)
      modifies this
      ensures State() == Spec.BeginDeleteSelected(old(State()), view) && drained == old(drained)
    {
      status := None;
      var selected := SelectedWorkspace(view);
      if selected.None? {
        return;
      }
      var name := selected.value.name;
      if name == DEFAULT_WORKSPACE {
        SetStatus(DefaultIsUndeletable);
        return;
      }
      var refused := RefuseIfConfiguring(name);
      if refused {
        return;
      }
      mode := ConfirmDelete(name);
    }

    method LiftSelected(view: View)
      modifies this
      ensures State() == Spec.LiftSelected(old(State()), view) && drained == old(drained)
    {
      var selected := SelectedWorkspace(view);
      if selected.None? {
        return;
      }
      var refused := RefuseIfConfiguring(selected.value.name);
      if refused {
        return;
      }
      EnqueueLift(LiftWorkspace(selected.value.name));
    }

    method LiftEverything()
      modifies this
      ensures State() == Spec.LiftEverything(old(State())) && drained == old(drained)
    {
      var refused := RefuseWhileConfiguring();
      if refused {
        return;
      }
      EnqueueLift(LiftAll);
    }

    method BeginNew()
      modifies this
      ensures State() == Spec.BeginNew(old(State())) && drained == old(drained)
    {
      var refused := RefuseWhileConfiguring();
      if refused {
        return;
      }
      status := None;
      mode := NewWorkspace("");
    }

    method TidyAll()
      modifies this
      ensures State() == Spec.TidyAll(old(State())) && drained == old(drained)
    {
      var refused := RefuseWhileConfiguring();
      if refused {
        return;
      }
      Emit(Tidy(TidyWorkspaces));
    }

    method BeginTidy()
      modifies this
      ensures State() == Spec.BeginTidy(old(State())) && drained == old(drained)
    {
      var refused := RefuseWhileConfiguring();
      if refused {
        return;
      }
      status := None;
      mode := ConfirmTidy;
    }

    method StartFetch()
      modifies this
      ensures State() == Spec.StartFetch(old(State())) && drained == old(drained)
    {
      if fetching {
        return;
      }
      fetching := true;
      PinStatus(Fetching);
      Emit(Fetch);
    }

    method Quit()
      modifies this
      ensures State() == Spec.Quit(old(State())) && drained == old(drained)
    {
      if pendingDeletion.Some? {
        quitAfterDeletion := true;
        PinStatus(WaitingForDeletion);
      } else {
        shouldQuit := true;
      }
    }

    method ToggleWorld()
      modifies this
      ensures State() == Spec.ToggleWorld(old(State())) && drained == old(drained)
    {
      if world {
        world := false;
      } else {
        world := true;
        Emit(LoadGraph);
      }
    }

    method OpenGraph()
      modifies this
      ensures State() == Spec.OpenGraph(old(State())) && drained == old(drained)
    {
      status := None;
      mode := Graph;
      Emit(LoadGraph);
    }

    // ----- Forge -----

    method BeginForge(workspaces: seq<Workspace>, forging: set<string>)
      modifies this
      ensures State() == Spec.BeginForge(old(State()), workspaces, forging) && drained == old(drained)
    {
      status := None;
      var targets, skipped := [], None;
      for i := 0 to |workspaces|
        invariant targets == ForgeTargets(workspaces[..i], forging)
        invariant skipped == SkippedNoPath(workspaces[..i], forging)
      {
        var w := workspaces[i];
        assert workspaces[..i + 1][..i] == workspaces[..i];
        if w.name in forging {
          continue;
        }
        if w.path.Present? {
          targets := targets + [Target(w.name, w.path.path)];
        } else {
          skipped := Some(w.name);
        }
      }
      assert workspaces[..|workspaces|] == workspaces;
      if targets == [] {
        SetStatus(if skipped.Some? then NoPath(skipped.value) else NothingToForge);
        return;
      }
      Emit(StartForge(targets));
    }

    method ForgeSelected(view: View)
      modifies this
      ensures State() == Spec.ForgeSelected(old(State()), view) && drained == old(drained)
    {
      var selected := SelectedWorkspace(view);
      if selected.Some? {
        var refused := RefuseIfConfiguring(selected.value.name);
        if refused {
          return;
        }
        BeginForge([selected.value], view.forging);
      }
    }

    method ForgeDefault(view: View)
      modifies this
      ensures State() == Spec.ForgeDefault(old(State()), view) && drained == old(drained)
    {
      var found := Find(store, DEFAULT_WORKSPACE);
      if found.Some? {
        BeginForge([found.value], view.forging);
      }
    }

    method ForgeAll(view: View)
      modifies this
      ensures State() == Spec.ForgeAll(old(State()), view) && drained == old(drained)
    {
      var refused := RefuseWhileConfiguring();
      if refused {
        return;
      }
      var deleting := if pendingDeletion.Some? then Some(pendingDeletion.value.workspace.name) else None;
      BeginForge(Without(store, deleting), view.forging);
    }

    method OnForge(update: ForgeUpdate)
      modifies this
      ensures State() == Spec.OnForge(old(State()), update) && drained == old(drained)
    {
      match update
      case ForgeProgress(notice) =>
        if notice.Some? {
          SetStatus(ForgeReport(notice.value));
        }
      case ForgeFinished(clean) =>
        if clean.Some? {
          SetStatus(ForgeReport(clean.value));
        }
        RefreshGraphIfVisible();
      case ForgeAborted(reason) =>
        SetStatus(ForgeReport(reason));
    }

    // ----- Setup -----

    method CreateNamed(name: string, view: View)
      modifies this
      ensures State() == Spec.CreateNamed(old(State()), name, view) && drained == old(drained)
    {
      if name == "" {
        SetStatus(NameRequired);
        return;
      }
      if pendingWorkspace.Some? {
        SetStatus(SetupAlreadyRunning);
        return;
      }
      if Lists(store, name) {
        SetStatus(AlreadyExists(name));
        return;
      }
      var workspace := PendingWorkspace(name, view.newPath, view.now);
      pendingWorkspace := Some(workspace);
      PinStatus(SettingUp(name));
      Emit(CreateWorkspace(workspace));
    }

    method OnSetupCompleted(workspace: PendingWorkspace, outcome: SetupResult)
      modifies this
      ensures State() == Spec.OnSetupCompleted(old(State()), workspace, outcome) && drained == old(drained)
    {
      if pendingWorkspace != Some(workspace) {
        return;
      }
      pendingWorkspace := None;
      if !outcome.SetupDone? {
        Emit(RecordFailure(workspace.name));
        SetStatus(if outcome.SetupCreateFailed? then CreateFailed(workspace.name) else HookFailed(workspace.name));
        Reload();
        return;
      }
      pendingCreatedOpen := Some((workspace.name, workspace.path));
      Reload();
    }

    method OpenPendingCreated(isDir: bool)
      modifies this
      ensures State() == Spec.OpenPendingCreated(old(State()), isDir) && drained == old(drained)
    {
      if pendingCreatedOpen.None? {
        return;
      }
      var (name, path) := pendingCreatedOpen.value;
      pendingCreatedOpen := None;
      var found := Find(store, name);
      if !(found.Some? && found.value.path == Present(path) && isDir) {
        SetStatus(Disappeared(name));
        return;
      }
      SetStatus(Created(name));
      Emit(OpenWorkspace(name, path, true, true));
    }

    method OnWorkspaceOpened(name: string, created: bool, ok: bool)
      modifies this
      ensures State() == Handle(old(State()), WorkspaceOpened(name, created, ok)) && drained == old(drained)
    {
      if ok {
        return;
      }
      if created {
        Emit(RecordFailure(name));
      }
      SetStatus(OpenFailed(name, created));
    }

    // ----- Deletion -----

    method DeleteNamed(name: string)
      modifies this
      ensures State() == Spec.DeleteNamed(old(State()), name) && drained == old(drained)
    {
      if pendingDeletion.Some? {
        SetStatus(DeletionAlreadyRunning);
        return;
      }
      var found := Find(store, name);
      if found.None? {
        return;
      }
      BeginDeletion(found.value);
    }

    /** The workspace gets an identity and its deletion is asked for. */
    method BeginDeletion(workspace: Workspace)
      requires pendingDeletion.None? && Find(store, workspace.name) == Some(workspace)
      modifies this
      ensures State() == Spec.DeleteNamed(old(State()), workspace.name) && drained == old(drained)
    {
      hide Find, NextOperation, Spec.PinStatus, Spec.Emit;
      var operation := AllocateOperation();
      deletions := deletions + [Issue(allocations, operation, workspace)];
      pendingDeletion := Some(PendingDeletion(operation, workspace));
      quitAfterDeletion := false;
      PinStatus(Deleting(workspace.name));
      Emit(DeleteWorkspace(workspace, operation));
    }

    method OnDeletionCompleted(operation: nat, workspace: Workspace, failure: Option<string>, reloaded: Option<Store>)
      modifies this
      ensures State() == Spec.OnDeletionCompleted(old(State()), operation, workspace, failure, reloaded) && drained == old(drained)
    {
      if pendingDeletion != Some(PendingDeletion(operation, workspace)) {
        return;
      }
      hide Spec.AfterStoreChanged, Spec.ReportDeletion;
      pendingDeletion := None;
      if reloaded.Some? {
        AdoptStore(reloaded.value);
      }
      ReportDeletion(workspace.name, failure);
    }

    method AdoptStore(reloaded: Store)
      modifies this
      ensures State() == Spec.AfterStoreChanged(WithStore(old(State()), reloaded)) && drained == old(drained)
    {
      store := reloaded;
      AfterStoreChanged();
    }

    method ReportDeletion(name: string, failure: Option<string>)
      modifies this
      ensures State() == Spec.ReportDeletion(old(State()), name, failure) && drained == old(drained)
    {
      match failure
      case None =>
        SetStatus(Deleted(name));
        if quitAfterDeletion {
          shouldQuit := true;
        }
      case Some(error) =>
        quitAfterDeletion := false;
        SetStatus(DeletionFailed(error));
    }

    method AfterStoreChanged()
      modifies this
      ensures State() == Spec.AfterStoreChanged(old(State())) && drained == old(drained)
    {
      RestorePendingDeletion();
      RefreshGraphIfVisible();
    }

    method RestorePendingDeletion()
      modifies `store
      ensures State() == Spec.RestorePendingDeletion(old(State())) && drained == old(drained)
    {
      if pendingDeletion.Some? {
        store := RestoreWorkspace(store, pendingDeletion.value.workspace);
      }
    }

    method OnStoreReloaded(reloaded: Store, isDir: bool)
      modifies this
      ensures State() == Spec.OnStoreReloaded(old(State()), reloaded, isDir) && drained == old(drained)
    {
      AdoptStore(reloaded);
      OpenPendingCreated(isDir);
    }

    // ----- Keys -----

    method OnKeyNormal(key: Key, view: View)
      modifies this
      ensures State() == KeyNormal(old(State()), key, view) && drained == old(drained)
    {
      match key
      case Esc => Quit();
      case Enter => OpenSelected(true, view);
      case RightArrow => OpenDetail(view);
      case Char(c) =>
        match c {
          case 'q' => Quit();
          case 'n' => BeginNew();
          case 'o' => OpenSelected(false, view);
          case 'l' => OpenDetail(view);
          case 'w' => ToggleWorld();
          case 'W' => OpenGraph();
          case 'd' => BeginDeleteSelected(view);
          case 'r' => LiftSelected(view);
          case 'R' => LiftEverything();
          case 't' => TidyAll();
          case 'T' => BeginTidy();
          case 'u' => StartFetch();
          case 'f' => ForgeSelected(view);
          case 'F' => ForgeAll(view);
          case 'g' => ForgeDefault(view);
          case 'p' => mode := Pool(OtherPool);
          case 'C' => ResolveSelected(view);
          case _ =>
        }
      case _ =>
    }

    method OnKeyNewWorkspace(key: Key, view: View)
      requires mode.NewWorkspace?
      modifies this
      ensures State() == KeyNewWorkspace(old(State()), old(mode.buffer), key, view) && drained == old(drained)
    {
      var buffer := mode.buffer;
      match key
      case Esc => mode := Normal;
      case Enter =>
        mode := Normal;
        CreateNamed(buffer, view);
      case Backspace =>
        if buffer != "" {
          mode := NewWorkspace(buffer[..|buffer| - 1]);
        }
      case Char(c) =>
        if view.alphanumeric || c == '-' || c == '_' {
          mode := NewWorkspace(buffer + [c]);
        }
      case _ =>
    }

    method OnKeyConfirmDelete(key: Key)
      requires mode.ConfirmDelete?
      modifies this
      ensures State() == KeyConfirmDelete(old(State()), old(mode.name), key) && drained == old(drained)
    {
      if IsYes(key) {
        var name := mode.name;
        mode := Normal;
        DeleteNamed(name);
      } else if IsNo(key) {
        mode := Normal;
      }
    }

    method OnKeyConfirmTidy(key: Key)
      modifies this
      ensures State() == KeyConfirmTidy(old(State()), key) && drained == old(drained)
    {
      if IsYes(key) {
        mode := Normal;
        Emit(Tidy(Abandon));
      } else if IsNo(key) {
        mode := Normal;
      }
    }

    method OnKeyPool(step: PoolStep)
      modifies this
      ensures State() == KeyPool(old(State()), step) && drained == old(drained)
    {
      mode := if step.next.Some? then Pool(step.next.value) else Normal;
      if step.allocates {
        var _ := AllocateOperation();
      }
      match step.notice
      case Silent =>
      case Transient(message) => SetStatus(message);
      case Pinned(message) => PinStatus(message);
    }

    method OnKeyHelp(key: Key)
      requires mode.Help?
      modifies `mode
      ensures State() == KeyHelp(old(State()), old(mode.previous), key) && drained == old(drained)
    {
      if key == Char('?') || key == Esc {
        mode := mode.previous;
      }
    }

    method OnKey(key: Key, view: View)
      modifies this
      ensures State() == Spec.OnKey(old(State()), key, view) && drained == old(drained)
    {
      hide KeyNormal, KeyNewWorkspace, KeyConfirmDelete, KeyConfirmTidy, KeyPool, KeyHelp;
      if mode == Pool(SendInput) {
        OnKeyPool(view.pool);
        return;
      }
      if key == Char('?') && !mode.Help? && !TakesQuestionMark(mode) {
        mode := Help(mode);
        return;
      }
      match mode
      case Normal => OnKeyNormal(key, view);
      case NewWorkspace(_) => OnKeyNewWorkspace(key, view);
      case ConfirmDelete(_) => OnKeyConfirmDelete(key);
      case ConfirmTidy => OnKeyConfirmTidy(key);
      case Pool(_) => OnKeyPool(view.pool);
      case Help(_) => OnKeyHelp(key);
      case Detail(workspace, _) =>
        mode := if view.detailExits then Normal else Detail(workspace, view.filterFocused);
      case Graph =>
        if key == Esc || key == Char('q') || key == Char('W') {
          mode := Normal;
        }
    }

    // ----- The fold -----

    method OnWorkspaceDispatch(updates: seq<PoolUpdate>)
      modifies this
      ensures State() == ApplyUpdates(old(State()), updates) && drained == old(drained)
    {
      for i := 0 to |updates|
        invariant State() == ApplyUpdates(old(State()), updates[..i]) && drained == old(drained)
      {
        assert updates[..i + 1][..i] == updates[..i];
        match updates[i]
        case ShowStatus(message) => SetStatus(message);
        case RefreshPool =>
        case ShowPoolPreview => mode := Pool(OtherPool);
        case ClosePoolMode => mode := Normal;
      }
      assert updates[..|updates|] == updates;
    }

    method OnFetched(ok: bool)
      modifies this
      ensures State() == Handle(old(State()), Fetched(ok)) && drained == old(drained)
    {
      fetching := false;
      SetStatus(FetchEnded(ok));
      Reload();
    }

    method OnTidied(kind: TidyKind, ok: bool)
      modifies this
      ensures State() == Handle(old(State()), Tidied(kind, ok)) && drained == old(drained)
    {
      SetStatus(TidyEnded(kind, ok));
      Reload();
    }

    method ExpireStatus(generation: nat)
      modifies `status
      ensures State() == Expire(old(State()), generation)
    {
      if generation == statusGen {
        status := None;
      }
    }

    method Fold(msg: Msg)
      modifies this
      ensures State() == Handle(old(State()), msg) && drained == old(drained)
    {
      hide Spec.OnKey, KeyPool, ApplyUpdates, Spec.OnForge, Spec.OnLifted, Spec.OnStoreReloaded;
      hide Spec.OnSetupCompleted, Spec.OnDeletionCompleted, Spec.SetStatus, Spec.PinStatus;
      match msg {
        case KeyPress(key, view) => OnKey(key, view);
        case OtherInput(view) =>
          if mode == Pool(SendInput) {
            OnKeyPool(view.pool);
          }
        case InputFailed => PinStatus(InputDied);
        case Reload => Reload();
        case DispatchUpdates(updates) => OnWorkspaceDispatch(updates);
        case Forge(update) => OnForge(update);
        case Fetched(ok) => OnFetched(ok);
        case Lifted(job, result) => OnLifted(job, result);
        case WorkspaceOpened(name, created, ok) => OnWorkspaceOpened(name, created, ok);
        case ResolveOpened(name, ok) => SetStatus(Resolving(name, ok));
        case Tidied(kind, ok) => OnTidied(kind, ok);
        case StoreReloaded(reloaded, isDir) => OnStoreReloaded(reloaded, isDir);
        case SetupCompleted(workspace, outcome) => OnSetupCompleted(workspace, outcome);
        case DeletionCompleted(operation, workspace, failure, reloaded) =>
          OnDeletionCompleted(operation, workspace, failure, reloaded);
        case StatusExpired(generation) => ExpireStatus(generation);
        case Ambient =>
      }
    }

    /** Fold one message, and hand over exactly the effects asked for since the last
        drain. */
    method HandleMessage(msg: Msg) returns (asked: seq<Effect>)
      modifies this
      ensures State() == Handle(old(State()), msg)
      ensures effects == [] && State().log == old(drained) + asked
      ensures old(effects) == [] ==> State().log == old(State().log) + asked
    {
      Fold(msg);
      asked := TakeEffects();
    }

    // ----- The loop around it -----

    /** Fold a drained batch, its reloads collapsed into one. `before` is this App beside
        what the runtime has answered. */
    method FoldBatch(batch: seq<Msg>, ghost before: System) returns (asked: seq<Effect>)
      requires before.app == State() && effects == []
      modifies this
      ensures State() == Run(before, FoldOrder(batch)).app
      ensures effects == [] && State().log == old(State().log) + asked
    {
      hide Handle, WithoutReloads, Run;
      EmptyRun(before);
      NoMessages();
      var needsReload := false;
      asked := [];
      for i := 0 to |batch|
        invariant needsReload <==> Msg.Reload in batch[..i]
        invariant State() == Run(before, WithoutReloads(batch[..i])).app
        invariant effects == [] && State().log == old(State().log) + asked
      {
        WithoutReloadsSnoc(batch[..i], batch[i]);
        assert batch[..i + 1] == batch[..i] + [batch[i]];
        if batch[i].Reload? {
          needsReload := true;
        } else {
          RunSnoc(before, WithoutReloads(batch[..i]), batch[i]);
          var more := HandleMessage(batch[i]);
          asked := asked + more;
        }
      }
      assert batch[..|batch|] == batch;
      if needsReload {
        RunSnoc(before, WithoutReloads(batch), Msg.Reload);
        var more := HandleMessage(Msg.Reload);
        asked := asked + more;
      }
      assert WithoutReloads(batch) + [] == WithoutReloads(batch);
    }

    /** Fold batch after batch until the quit flag is found set behind one. */
    method EventLoop(batches: seq<seq<Msg>>, ghost before: System) returns (asked: seq<Effect>, folded: nat)
      requires before.app == State() && effects == [] && !shouldQuit
      requires Inv(before) && Admissible(before, FoldAll(batches))
      modifies this
      ensures folded <= |batches| && (folded < |batches| ==> shouldQuit)
      ensures State() == Run(before, FoldAll(batches[..folded])).app && Inv(Run(before, FoldAll(batches[..folded])))
      ensures State().log == old(State().log) + asked
      ensures forall n | 0 <= n < folded :: !Run(before, FoldAll(batches[..n])).app.core.shouldQuit
    {
      hide Inv, Admissible, FoldOrder, Run;
      asked, folded := [], 0;
      FoldsNothing(before, batches);
      while folded < |batches| && !shouldQuit
        invariant folded <= |batches| && effects == []
        invariant State() == Run(before, FoldAll(batches[..folded])).app && Inv(Run(before, FoldAll(batches[..folded])))
        invariant State().log == old(State().log) + asked
        invariant forall n | 0 <= n < folded :: !Run(before, FoldAll(batches[..n])).app.core.shouldQuit
      {
        FoldsOneMore(before, batches, folded);
        var more := FoldBatch(batches[folded], Run(before, FoldAll(batches[..folded])));
        asked := asked + more;
        folded := folded + 1;
      }
    }
  }
}
