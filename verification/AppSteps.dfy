/** What one message can do to the App, classified: every step of `App.Handle` falls
    under one of the few shapes below, from which the invariants follow. */
module AppSteps {
  import opened Options
  import opened App

  // ----- Footer and log -----

  /** Timers: no armed generation is ahead of the footer's, and while the current one
      is armed, what it shows is the message it was armed for. */
  predicate FooterOk(f: Footer) {
    && (forall g | g in f.armed :: 1 <= g <= f.generation)
    && (f.generation in f.armed && f.status.Some? ==> f.status.value == f.armed[f.generation])
  }

  /** The runtime was asked for a timer of this generation, the only way one can fire. */
  predicate Scheduled(log: seq<Effect>, generation: nat) {
    ScheduleStatusExpiry(generation) in log
  }

  /** The generations armed are those the runtime was asked to time. */
  predicate Timed(f: Footer, log: seq<Effect>) {
    && (forall generation | generation in f.armed :: Scheduled(log, generation))
    && (forall e | e in log && e.ScheduleStatusExpiry? :: e.generation in f.armed)
  }

  /** The footer moves on: generations grow, what was armed stays so, and the timers
      asked for keep to what is armed. */
  predicate KeepsTimers(f: Footer, before: seq<Effect>, g: Footer, after: seq<Effect>) {
    && (Timed(f, before) ==> Timed(g, after))
    && (FooterOk(f) ==>
          && FooterOk(g)
          && f.generation <= g.generation
          && (forall k | k in f.armed :: k in g.armed && g.armed[k] == f.armed[k])
          && (g.generation == f.generation ==> g.armed == f.armed && (g.status == f.status || g.status.None?)))
  }

  predicate FooterKept(s: AppState, t: AppState) {
    KeepsTimers(s.footer, s.log, t.footer, t.log)
  }

  predicate Busy(core: Core, name: string) {
    IsDeleting(core, name) || IsConfiguring(core, name)
  }

  /** The workspaces an effect is aimed at. */
  function Aims(effect: Effect): set<string> {
    match effect
    case LoadDiff(name) => {name}
    case CreateWorkspace(setup) => {setup.name}
    case DeleteWorkspace(workspace, _) => {workspace.name}
    case OpenWorkspace(name, _, _, _) => {name}
    case ResolveWorkspace(name, _) => {name}
    case Lift(LiftWorkspace(name)) => {name}
    case StartForge(targets) => set target | target in targets :: target.name
    case _ => {}
  }

  /** The effect is aimed at nothing that is being set up or deleted. */
  predicate Clear(core: Core, effect: Effect) {
    forall name | name in Aims(effect) :: !Busy(core, name)
  }

  predicate LogClear(core: Core, before: seq<Effect>, after: seq<Effect>) {
    before <= after && forall i | |before| <= i < |after| :: Clear(core, after[i])
  }

  /** Effects that start no lift, setup or deletion. */
  predicate Plain(effect: Effect) {
    !effect.Lift? && !effect.CreateWorkspace? && !effect.DeleteWorkspace?
  }

  predicate LogPlain(before: seq<Effect>, after: seq<Effect>) {
    before <= after && forall i | |before| <= i < |after| :: Plain(after[i])
  }

  /** Effects aimed at no workspace at all. */
  predicate LogAimless(before: seq<Effect>, after: seq<Effect>) {
    before <= after && forall i | |before| <= i < |after| :: Plain(after[i]) && Aims(after[i]) == {}
  }

  /** A step that keeps the core and emits only plain effects, none aimed at a busy
      workspace. */
  predicate Quiet(s: AppState, t: AppState) {
    t.core == s.core && FooterKept(s, t) && LogPlain(s.log, t.log) && LogClear(s.core, s.log, t.log)
  }

  lemma QuietChain(s: AppState, t: AppState, u: AppState)
    requires Quiet(s, t) && Quiet(t, u)
    ensures Quiet(s, u)
  {
  }

  lemma PrimitivesKeepFooter(s: AppState, status: Status, effect: Effect)
    ensures FooterKept(s, s) && FooterKept(s, ClearStatus(s))
    ensures FooterKept(s, PinStatus(s, status)) && FooterKept(s, SetStatus(s, status))
    ensures !effect.ScheduleStatusExpiry? ==> FooterKept(s, Emit(s, effect))
  {
    var g := s.footer.generation + 1;
    assert SetStatus(s, status).log == s.log + [ScheduleStatusExpiry(g)];
    assert ScheduleStatusExpiry(g) in s.log + [ScheduleStatusExpiry(g)];
    assert forall e | e in s.log :: e in s.log + [effect] && e in s.log + [ScheduleStatusExpiry(g)];
  }

  lemma FooterKeptChain(s: AppState, t: AppState, u: AppState)
    requires FooterKept(s, t) && FooterKept(t, u)
    ensures FooterKept(s, u)
  {
    hide Timed, FooterOk;
  }

  lemma PrimitivesAreQuiet(s: AppState, status: Status, effect: Effect)
    ensures Quiet(s, ClearStatus(s)) && Quiet(s, PinStatus(s, status)) && Quiet(s, SetStatus(s, status))
    ensures Plain(effect) && Clear(s.core, effect) && !effect.ScheduleStatusExpiry? ==> Quiet(s, Emit(s, effect))
    ensures Quiet(s, RefreshGraphIfVisible(s))
  {
    PrimitivesKeepFooter(s, status, effect);
    PrimitivesKeepFooter(s, status, LoadGraph);
    hide KeepsTimers;
  }

  // ----- Shapes of a key press -----

  function Base(mode: Mode): Mode {
    if mode.Help? then Base(mode.previous) else mode
  }

  /** A deletion awaiting confirmation, even under the help overlay, is one that was
      awaiting it before or of a workspace that may be deleted. */
  predicate ModeKept(core: Core, mode: Mode) {
    Base(mode).ConfirmDelete? ==>
      Base(mode) == Base(core.mode) || (Base(mode).name != DEFAULT_WORKSPACE && !Busy(core, Base(mode).name))
  }

  /** The footer and the log move on from `s` to `t`, and the log only by plain effects
      aimed at nothing busy. */
  predicate Reports(s: AppState, t: AppState) {
    FooterKept(s, t) && LogPlain(s.log, t.log) && LogClear(s.core, s.log, t.log)
  }

  predicate Browses(s: AppState, t: AppState) {
    && t.core == s.core.(mode := t.core.mode, world := t.core.world, fetching := t.core.fetching)
    && ModeKept(s.core, t.core.mode)
    && Reports(s, t)
  }

  predicate Quits(s: AppState, t: AppState) {
    && t.core == (if s.core.pendingDeletion.Some? then s.core.(quitAfterDeletion := true)
                  else s.core.(shouldQuit := true))
    && t.log == s.log && FooterKept(s, t)
  }

  function Allocated(operations: Operations): Operations {
    operations.(next := NextOperation(operations.next), allocations := operations.allocations + 1)
  }

  predicate Allocates(s: AppState, t: AppState) {
    && t.core == s.core.(mode := t.core.mode, operations := Allocated(s.core.operations))
    && (t.core.mode.Normal? || t.core.mode.Pool?)
    && Reports(s, t)
  }

  /** Nothing waits while nothing runs. */
  predicate QueueMoves(lifts: Lifts) {
    lifts.inFlight.None? ==> lifts.queue == [] && lifts.done == 0 && lifts.failures == []
  }

  predicate Enqueues(s: AppState, t: AppState, job: LiftJob) {
    var lifts := s.core.lifts;
    var idle := lifts.inFlight.None?;
    && lifts.inFlight != Some(job) && job !in lifts.queue
    && t.core == s.core.(lifts := lifts.(
         inFlight := if idle then Some(job) else lifts.inFlight,
         queue := if idle then [] else lifts.queue + [job],
         accepted := lifts.accepted + [job]))
    && t.log == s.log + (if idle then [Lift(job)] else [])
    && Clear(s.core, Lift(job))
    && FooterKept(s, t)
  }

  predicate EnqueuesOne(s: AppState, t: AppState) {
    t.core.lifts.accepted != [] && Enqueues(s, t, t.core.lifts.accepted[|t.core.lifts.accepted| - 1])
  }

  predicate Creates(s: AppState, t: AppState) {
    && s.core.pendingWorkspace.None? && t.core.pendingWorkspace.Some?
    && var setup := t.core.pendingWorkspace.value;
       && !Lists(s.core.store, setup.name)
       && t.core == s.core.(mode := Normal, pendingWorkspace := Some(setup))
       && t.log == s.log + [CreateWorkspace(setup)]
       && FooterKept(s, t)
  }

  predicate Deletes(s: AppState, t: AppState) {
    && s.core.pendingDeletion.None? && t.core.pendingDeletion.Some?
    && var pending := t.core.pendingDeletion.value;
       var issued := Allocated(s.core.operations);
       && Base(s.core.mode) == ConfirmDelete(pending.workspace.name)
       && Find(s.core.store, pending.workspace.name) == Some(pending.workspace)
       && pending.operation == issued.next
       && t.core == s.core.(
            mode := Normal, pendingDeletion := Some(pending), quitAfterDeletion := false,
            operations := issued.(
              deletions := issued.deletions + [Issue(issued.allocations, issued.next, pending.workspace)]))
       && t.log == s.log + [DeleteWorkspace(pending.workspace, pending.operation)]
       && FooterKept(s, t)
  }

  /** A key press that does not quit. */
  predicate Acts(s: AppState, t: AppState) {
    Browses(s, t) || Allocates(s, t) || EnqueuesOne(s, t) || Creates(s, t) || Deletes(s, t)
  }

  /** The only keys that can end the program. */
  predicate QuitPressed(s: AppState, key: Key) {
    s.core.mode.Normal? && (key == Char('q') || key == Esc)
  }

  predicate KeyStep(s: AppState, key: Key, t: AppState) {
    if QuitPressed(s, key) then Quits(s, t) else Acts(s, t)
  }

  // ----- Normal-mode actions fall under a shape -----

  lemma RefusalIsQuiet(s: AppState, name: string)
    ensures Quiet(s, RefuseIfConfiguring(s, name).1) && Quiet(s, RefuseWhileConfiguring(s).1)
    ensures !RefuseIfConfiguring(s, name).0 ==> RefuseIfConfiguring(s, name).1 == s && !Busy(s.core, name)
    ensures !RefuseWhileConfiguring(s).0 ==> RefuseWhileConfiguring(s).1 == s && s.core.pendingWorkspace.None?
  {
  }

  lemma BrowseAfterQuiet(s: AppState, u: AppState, mode: Mode)
    requires Quiet(s, u) && ModeKept(s.core, mode)
    ensures Browses(s, u) && Browses(s, InMode(u, mode))
  {
  }

  lemma QuietSteps(s: AppState, t: AppState)
    requires Quiet(s, t)
    ensures Browses(s, t) && Acts(s, t)
  {
  }

  /** What every action on the selected workspace starts with. */
  lemma SelectionIsQuiet(s: AppState, view: View)
    ensures var c := ClearStatus(s);
      && Quiet(s, c)
      && (forall status :: Quiet(s, SetStatus(c, status)))
      && (Selected(c, view).Some? ==>
            var name := Selected(c, view).value.name;
            var (refused, after) := RefuseIfConfiguring(c, name);
            Quiet(s, after) && (refused || !Busy(s.core, name)))
  {
    var c := ClearStatus(s);
    PrimitivesAreQuiet(s, NameRequired, LoadGraph);
    forall status ensures Quiet(s, SetStatus(c, status)) {
      PrimitivesAreQuiet(c, status, LoadGraph);
      QuietChain(s, c, SetStatus(c, status));
    }
    if Selected(c, view).Some? {
      var name := Selected(c, view).value.name;
      RefusalIsQuiet(c, name);
      QuietChain(s, c, RefuseIfConfiguring(c, name).1);
    }
    hide Quiet, SetStatus, Selected, RefuseIfConfiguring;
  }

  lemma EmitsQuietly(s: AppState, u: AppState, effect: Effect)
    requires Quiet(s, u) && Plain(effect) && Clear(s.core, effect) && !effect.ScheduleStatusExpiry?
    ensures Quiet(s, Emit(u, effect))
  {
  }

  lemma OpenSelectedSteps(s: AppState, focus: bool, view: View)
    ensures Browses(s, OpenSelected(s, focus, view))
  {
    var c, t := ClearStatus(s), OpenSelected(s, focus, view);
    SelectionIsQuiet(s, view);
    hide SetStatus, RefuseIfConfiguring, Quiet, Busy;
    if Selected(c, view).Some? {
      var w := Selected(c, view).value;
      if w.path.Present? && !Busy(s.core, w.name) {
        EmitsQuietly(s, c, OpenWorkspace(w.name, w.path.path, focus, false));
      }
    }
    assert Quiet(s, t);
    QuietSteps(s, t);
  }

  lemma ResolveSelectedSteps(s: AppState, view: View)
    ensures Browses(s, ResolveSelected(s, view))
  {
    var c, t := ClearStatus(s), ResolveSelected(s, view);
    SelectionIsQuiet(s, view);
    hide SetStatus, RefuseIfConfiguring, Quiet, Busy;
    if Selected(c, view).Some? {
      var w := Selected(c, view).value;
      if w.path.Present? && !Busy(s.core, w.name) {
        EmitsQuietly(s, c, ResolveWorkspace(w.name, w.path.path));
      }
    }
    assert Quiet(s, t);
    QuietSteps(s, t);
  }

  lemma OpenDetailSteps(s: AppState, view: View)
    ensures Browses(s, OpenDetail(s, view))
  {
    var c := ClearStatus(s);
    SelectionIsQuiet(s, view);
    if Selected(c, view).Some? {
      var w := Selected(c, view).value;
      var (refused, after) := RefuseIfConfiguring(c, w.name);
      hide SetStatus, RefuseIfConfiguring, Quiet, Busy, Browses;
      if refused {
        QuietSteps(s, after);
      } else {
        EmitsQuietly(s, c, LoadDiff(w.name));
        EmitsQuietly(s, Emit(c, LoadDiff(w.name)), LoadGraph);
        BrowseAfterQuiet(s, Emit(Emit(c, LoadDiff(w.name)), LoadGraph), Detail(w.name, view.filterFocused));
      }
    } else {
      QuietSteps(s, c);
    }
  }

  lemma BeginDeleteSelectedSteps(s: AppState, view: View)
    ensures Browses(s, BeginDeleteSelected(s, view))
  {
    var c := ClearStatus(s);
    SelectionIsQuiet(s, view);
    hide SetStatus, RefuseIfConfiguring, Quiet, Busy, Browses;
    if Selected(c, view).Some? {
      var name := Selected(c, view).value.name;
      var (refused, after) := RefuseIfConfiguring(c, name);
      if name == DEFAULT_WORKSPACE {
        QuietSteps(s, SetStatus(c, DefaultIsUndeletable));
      } else if refused {
        QuietSteps(s, after);
      } else {
        BrowseAfterQuiet(s, c, ConfirmDelete(name));
      }
    } else {
      QuietSteps(s, c);
    }
  }

  lemma EnqueueLiftSteps(s: AppState, job: LiftJob)
    requires QueueMoves(s.core.lifts) && Clear(s.core, Lift(job))
    ensures Acts(s, EnqueueLift(s, job))
  {
    var t := EnqueueLift(s, job);
    if s.core.lifts.inFlight == Some(job) || job in s.core.lifts.queue {
      assert Browses(s, t);
    } else {
      assert [job][1..] == [];
      assert Enqueues(s, t, job);
      assert t.core.lifts.accepted == s.core.lifts.accepted + [job];
    }
  }

  lemma LiftSelectedSteps(s: AppState, view: View)
    requires QueueMoves(s.core.lifts)
    ensures Acts(s, LiftSelected(s, view))
  {
    match Selected(s, view)
    case None => assert Browses(s, s);
    case Some(w) =>
      RefusalIsQuiet(s, w.name);
      var (refused, after) := RefuseIfConfiguring(s, w.name);
      hide RefuseIfConfiguring, EnqueueLift, Acts;
      if refused {
        QuietSteps(s, after);
      } else {
        EnqueueLiftSteps(s, LiftWorkspace(w.name));
      }
  }

  lemma LiftEverythingSteps(s: AppState)
    requires QueueMoves(s.core.lifts)
    ensures Acts(s, LiftEverything(s))
  {
    RefusalIsQuiet(s, "");
    var (refused, after) := RefuseWhileConfiguring(s);
    hide RefuseWhileConfiguring, EnqueueLift, Acts;
    if refused {
      QuietSteps(s, after);
    } else {
      EnqueueLiftSteps(s, LiftAll);
    }
  }

  lemma ConfiguringActionsStep(s: AppState)
    ensures Browses(s, BeginNew(s)) && Browses(s, TidyAll(s)) && Browses(s, BeginTidy(s))
  {
    RefusalIsQuiet(s, "");
    PrimitivesKeepFooter(s, NameRequired, Tidy(TidyWorkspaces));
    hide RefuseWhileConfiguring, KeepsTimers;
  }

  lemma PlainActionsStep(s: AppState)
    ensures Browses(s, StartFetch(s)) && Browses(s, ToggleWorld(s)) && Browses(s, OpenGraph(s))
    ensures Quits(s, Quit(s))
  {
    hide KeepsTimers;
    var fetching, cleared := PinStatus(s, Fetching), ClearStatus(s);
    PrimitivesKeepFooter(s, Fetching, LoadGraph);
    PrimitivesKeepFooter(s, WaitingForDeletion, LoadGraph);
    PrimitivesKeepFooter(fetching, Fetching, Fetch);
    PrimitivesKeepFooter(cleared, Fetching, LoadGraph);
    FooterKeptChain(s, fetching, Emit(fetching, Fetch));
    FooterKeptChain(s, cleared, Emit(cleared, LoadGraph));
  }

  lemma {:induction false} TargetsAreListed(workspaces: seq<Workspace>, forging: set<string>)
    ensures forall target | target in ForgeTargets(workspaces, forging) ::
      exists w | w in workspaces :: w.name == target.name
  {
    if workspaces != [] {
      var front, last := workspaces[..|workspaces| - 1], workspaces[|workspaces| - 1];
      assert workspaces == front + [last];
      TargetsAreListed(front, forging);
    }
  }

  lemma BeginForgeSteps(s: AppState, workspaces: seq<Workspace>, forging: set<string>)
    requires forall w | w in workspaces :: !Busy(s.core, w.name)
    ensures Quiet(s, BeginForge(s, workspaces, forging))
  {
    TargetsAreListed(workspaces, forging);
    hide ForgeTargets, SkippedNoPath;
    var e := StartForge(ForgeTargets(workspaces, forging));
    assert Clear(s.core, e);
  }

  lemma {:induction false} WithoutDrops(store: Store, name: Option<string>)
    ensures forall w | w in Without(store, name) :: w in store && Some(w.name) != name
  {
    if store != [] {
      var front, last := store[..|store| - 1], store[|store| - 1];
      assert store == front + [last];
      WithoutDrops(front, name);
    }
  }

  lemma ForgeActionsStep(s: AppState, view: View)
    requires !Busy(s.core, DEFAULT_WORKSPACE)
    ensures Browses(s, ForgeSelected(s, view)) && Browses(s, ForgeDefault(s, view)) && Browses(s, ForgeAll(s, view))
  {
    hide BeginForge;
    RefusalIsQuiet(s, "");
    if Selected(s, view).Some? {
      var w := Selected(s, view).value;
      RefusalIsQuiet(s, w.name);
      if !RefuseIfConfiguring(s, w.name).0 {
        BeginForgeSteps(s, [w], view.forging);
      }
    }
    if Find(s.core.store, DEFAULT_WORKSPACE).Some? {
      BeginForgeSteps(s, [Find(s.core.store, DEFAULT_WORKSPACE).value], view.forging);
    }
    if s.core.pendingWorkspace.None? {
      WithoutDrops(s.core.store, DeletingName(s));
      BeginForgeSteps(s, Without(s.core.store, DeletingName(s)), view.forging);
    }
    hide RefuseIfConfiguring, RefuseWhileConfiguring, Without;
  }

  // ----- Every key press falls under a shape -----

  lemma KeyNormalSteps(s: AppState, key: Key, view: View)
    requires s.core.mode.Normal? && QueueMoves(s.core.lifts) && !Busy(s.core, DEFAULT_WORKSPACE)
    ensures KeyStep(s, key, KeyNormal(s, key, view))
  {
    hide OpenSelected, OpenDetail, BeginNew, TidyAll, BeginTidy, StartFetch, ToggleWorld, OpenGraph, Quit;
    hide BeginDeleteSelected, LiftSelected, LiftEverything, ForgeSelected, ForgeDefault, ForgeAll, ResolveSelected;
    hide Browses, Quits, Allocates, EnqueuesOne, Creates, Deletes, InMode;
    OpenSelectedSteps(s, true, view);
    OpenSelectedSteps(s, false, view);
    OpenDetailSteps(s, view);
    ConfiguringActionsStep(s);
    PlainActionsStep(s);
    BeginDeleteSelectedSteps(s, view);
    LiftSelectedSteps(s, view);
    LiftEverythingSteps(s);
    ForgeActionsStep(s, view);
    ResolveSelectedSteps(s, view);
    QuietSteps(s, s);
    ModeChangeBrowses(s, Pool(OtherPool));
  }

  lemma CreateNamedSteps(s: AppState, name: string, view: View)
    ensures Acts(s, CreateNamed(InMode(s, Normal), name, view))
  {
    var n := InMode(s, Normal);
    var t := CreateNamed(n, name, view);
    hide Find;
    if name != "" && s.core.pendingWorkspace.None? && !Lists(s.core.store, name) {
      assert Creates(s, t);
    } else {
      assert Browses(s, t);
    }
  }

  lemma DeleteNamedSteps(s: AppState, name: string)
    requires Base(s.core.mode) == ConfirmDelete(name)
    ensures Acts(s, DeleteNamed(InMode(s, Normal), name))
  {
    var t := DeleteNamed(InMode(s, Normal), name);
    if s.core.pendingDeletion.None? && Find(s.core.store, name).Some? {
      assert Deletes(s, t);
    } else {
      assert Browses(s, t);
    }
  }

  lemma KeyPoolSteps(s: AppState, step: PoolStep)
    ensures Acts(s, KeyPool(s, step))
  {
    var t := KeyPool(s, step);
    if step.allocates {
      assert Allocates(s, t);
    } else {
      assert Browses(s, t);
    }
  }

  lemma ModeChangeBrowses(s: AppState, mode: Mode)
    requires ModeKept(s.core, mode)
    ensures Browses(s, InMode(s, mode)) && Acts(s, InMode(s, mode))
  {
    BrowseAfterQuiet(s, s, mode);
  }

  lemma KeySteps(s: AppState, key: Key, view: View)
    requires QueueMoves(s.core.lifts) && !Busy(s.core, DEFAULT_WORKSPACE)
    ensures KeyStep(s, key, OnKey(s, key, view))
  {
    QuietSteps(s, s);
    KeyPoolSteps(s, view.pool);
    ModeChangeBrowses(s, Help(s.core.mode));
    ModeChangeBrowses(s, Normal);
    if s.core.mode.Normal? {
      KeyNormalSteps(s, key, view);
    }
    ModalKeySteps(s, key, view);
    hide KeyNormal, KeyNewWorkspace, KeyConfirmDelete, KeyConfirmTidy, KeyPool, KeyHelp, KeyDetail, KeyGraph;
    hide Acts, InMode, Quits;
  }

  lemma ModalKeySteps(s: AppState, key: Key, view: View)
    ensures var mode := s.core.mode;
      && (mode.NewWorkspace? ==> Acts(s, KeyNewWorkspace(s, mode.buffer, key, view)))
      && (mode.ConfirmDelete? ==> Acts(s, KeyConfirmDelete(s, mode.name, key)))
      && (mode.ConfirmTidy? ==> Acts(s, KeyConfirmTidy(s, key)))
      && (mode.Help? ==> Acts(s, KeyHelp(s, mode.previous, key)))
      && (mode.Detail? ==> Acts(s, KeyDetail(s, mode.workspace, view)))
      && (mode.Graph? ==> Acts(s, KeyGraph(s, key)))
  {
    QuietSteps(s, s);
    ModeChangeBrowses(s, Normal);
    match s.core.mode
    case NewWorkspace(buffer) =>
      CreateNamedSteps(s, buffer, view);
      if buffer != "" {
        ModeChangeBrowses(s, NewWorkspace(buffer[..|buffer| - 1]));
      }
      if key.Char? {
        ModeChangeBrowses(s, NewWorkspace(buffer + [key.c]));
      }
      hide CreateNamed, Acts, InMode;
    case ConfirmDelete(name) =>
      DeleteNamedSteps(s, name);
      hide DeleteNamed, Acts, InMode;
    case ConfirmTidy =>
      PrimitivesAreQuiet(s, NameRequired, Tidy(Abandon));
      BrowseAfterQuiet(s, Emit(s, Tidy(Abandon)), Normal);
      assert InMode(Emit(s, Tidy(Abandon)), Normal) == Emit(InMode(s, Normal), Tidy(Abandon));
    case Help(previous) =>
      ModeChangeBrowses(s, previous);
    case Detail(workspace, _) =>
      ModeChangeBrowses(s, Detail(workspace, view.filterFocused));
    case _ =>
  }

  /** What no key but a quit touches. */
  lemma ActsLeave(s: AppState, t: AppState)
    requires Acts(s, t)
    ensures t.core.shouldQuit == s.core.shouldQuit
    ensures s.core.pendingDeletion.Some? ==>
              t.core.pendingDeletion == s.core.pendingDeletion && t.core.quitAfterDeletion == s.core.quitAfterDeletion
    ensures s.core.lifts.accepted <= t.core.lifts.accepted
    ensures FooterKept(s, t)
  {
    hide KeepsTimers, LogPlain, LogClear, ModeKept, NextOperation, Find, Clear;
  }

  // ----- Completions and watcher messages -----

  /** Messages that bear on neither the lifts, a setup, a deletion nor the store. */
  predicate IsNotice(msg: Msg) {
    || msg.InputFailed? || msg.Reload? || msg.DispatchUpdates? || msg.Forge? || msg.Fetched?
    || msg.WorkspaceOpened? || msg.ResolveOpened? || msg.Tidied? || msg.StatusExpired? || msg.Ambient?
  }

  predicate Notifies(s: AppState, t: AppState) {
    && t.core == s.core.(mode := t.core.mode, fetching := t.core.fetching)
    && (t.core.mode == s.core.mode || t.core.mode.Normal? || t.core.mode.Pool?)
    && FooterKept(s, t) && LogAimless(s.log, t.log)
  }

  lemma {:induction false} UpdatesNotify(s: AppState, updates: seq<PoolUpdate>)
    ensures Notifies(s, ApplyUpdates(s, updates))
  {
    if updates != [] {
      UpdatesNotify(s, updates[..|updates| - 1]);
    }
  }

  lemma NotifiesChain(s: AppState, t: AppState, u: AppState)
    requires Notifies(s, t) && Notifies(t, u)
    ensures Notifies(s, u)
  {
  }

  lemma PrimitivesNotify(s: AppState, status: Status, effect: Effect)
    ensures Notifies(s, s) && Notifies(s, ClearStatus(s))
    ensures Notifies(s, PinStatus(s, status)) && Notifies(s, SetStatus(s, status))
    ensures Plain(effect) && Aims(effect) == {} && !effect.ScheduleStatusExpiry? ==> Notifies(s, Emit(s, effect))
    ensures Notifies(s, RefreshGraphIfVisible(s))
  {
    PrimitivesKeepFooter(s, status, effect);
    PrimitivesKeepFooter(s, status, LoadGraph);
    hide KeepsTimers;
  }

  lemma ReportNotifies(s: AppState, status: Status, effect: Effect)
    requires Plain(effect) && Aims(effect) == {} && !effect.ScheduleStatusExpiry?
    ensures Notifies(s, Emit(SetStatus(s, status), effect))
    ensures Notifies(s, SetStatus(Emit(s, effect), status))
    ensures Notifies(s, RefreshGraphIfVisible(SetStatus(s, status)))
  {
    PrimitivesNotify(s, status, effect);
    var shown, emitted := SetStatus(s, status), Emit(s, effect);
    PrimitivesNotify(shown, status, effect);
    PrimitivesNotify(emitted, status, effect);
    NotifiesChain(s, shown, Emit(shown, effect));
    NotifiesChain(s, emitted, SetStatus(emitted, status));
    NotifiesChain(s, shown, RefreshGraphIfVisible(shown));
  }

  lemma ForgeNotifies(s: AppState, update: ForgeUpdate)
    ensures Notifies(s, OnForge(s, update))
  {
    var status := match update
      case ForgeProgress(notice) => if notice.Some? then ForgeReport(notice.value) else NothingToForge
      case ForgeFinished(clean) => if clean.Some? then ForgeReport(clean.value) else NothingToForge
      case ForgeAborted(reason) => ForgeReport(reason);
    PrimitivesNotify(s, status, LoadGraph);
    ReportNotifies(s, status, LoadGraph);
    hide Notifies, SetStatus, RefreshGraphIfVisible;
  }

  lemma FetchedNotifies(s: AppState, status: Status)
    ensures Notifies(s, RequestReload(SetStatus(s.(core := s.core.(fetching := false)), status)))
  {
    var ended := s.(core := s.core.(fetching := false));
    ReportNotifies(ended, status, ReloadStore);
    NotifiesChain(s, ended, RequestReload(SetStatus(ended, status)));
  }

  lemma OpenedNotifies(s: AppState, name: string, created: bool, ok: bool)
    ensures Notifies(s, Handle(s, WorkspaceOpened(name, created, ok)))
  {
    hide Notifies, SetStatus, Emit, OnKey, OnForge, OnLifted, OnStoreReloaded, OnSetupCompleted, OnDeletionCompleted;
    PrimitivesNotify(s, OpenFailed(name, created), LoadGraph);
    ReportNotifies(s, OpenFailed(name, created), RecordFailure(name));
  }

  lemma NoticeSteps(s: AppState, msg: Msg)
    requires IsNotice(msg)
    ensures Notifies(s, Handle(s, msg))
  {
    hide Notifies, ApplyUpdates, OnForge, SetStatus, PinStatus, ClearStatus, Emit;
    match msg
    case DispatchUpdates(updates) =>
      UpdatesNotify(s, updates);
    case Forge(update) =>
      ForgeNotifies(s, update);
    case Fetched(ok) =>
      FetchedNotifies(s, FetchEnded(ok));
    case WorkspaceOpened(name, created, ok) =>
      OpenedNotifies(s, name, created, ok);
    case ResolveOpened(name, ok) =>
      PrimitivesNotify(s, Resolving(name, ok), LoadGraph);
    case Tidied(kind, ok) =>
      ReportNotifies(s, TidyEnded(kind, ok), ReloadStore);
    case StatusExpired(generation) =>
      PrimitivesNotify(s, InputDied, LoadGraph);
    case _ =>
      PrimitivesNotify(s, InputDied, ReloadStore);
  }

  /** A lift settles: the next job starts, or the batch is over and summed up. */
  predicate Settles(s: AppState, t: AppState, job: LiftJob, result: LiftResult) {
    var counted := CountLift(s.core.lifts, result);
    && FooterKept(s, t)
    && if counted.queue == [] then
         && t.core == s.core.(lifts := counted.(done := 0, failures := []))
         && t.footer.status == Some(LiftSummary(counted, job))
         && t.log == s.log + [ReloadStore] + [ScheduleStatusExpiry(t.footer.generation)]
       else
         && t.core == s.core.(lifts := counted.(queue := counted.queue[1..], inFlight := Some(counted.queue[0])))
         && t.footer.status == Some(Lifting(counted.queue[0], |counted.queue| - 1, |counted.failures|))
         && t.log == s.log + [ReloadStore] + [Lift(counted.queue[0])]
  }

  lemma LiftedSteps(s: AppState, job: LiftJob, result: LiftResult)
    ensures Settles(s, OnLifted(s, job, result), job, result)
  {
  }

  /** The store is replaced, but a pending deletion's workspace stays listed. */
  predicate Reloads(s: AppState, t: AppState, store: Store) {
    && t.core == s.core.(store := t.core.store, pendingCreatedOpen := None)
    && t.core.store == (if s.core.pendingDeletion.Some?
                        then RestoreWorkspace(store, s.core.pendingDeletion.value.workspace) else store)
    && FooterKept(s, t) && LogPlain(s.log, t.log)
  }

  lemma OpenPendingCreatedSteps(s: AppState, isDir: bool)
    ensures var t := OpenPendingCreated(s, isDir);
      t.core == s.core.(pendingCreatedOpen := None) && FooterKept(s, t) && LogPlain(s.log, t.log)
  {
    hide Find;
  }

  lemma StoreReloadedSteps(s: AppState, store: Store, isDir: bool)
    ensures Reloads(s, OnStoreReloaded(s, store, isDir), store)
  {
    var restored := RestorePendingDeletion(WithStore(s, store));
    var changed := RefreshGraphIfVisible(restored);
    PrimitivesAreQuiet(restored, NameRequired, LoadGraph);
    OpenPendingCreatedSteps(changed, isDir);
    hide RestoreWorkspace, OpenPendingCreated, RefreshGraphIfVisible;
  }

  predicate SetsUp(s: AppState, t: AppState, setup: PendingWorkspace) {
    if s.core.pendingWorkspace != Some(setup) then t == s
    else
      && t.core == s.core.(pendingWorkspace := None, pendingCreatedOpen := t.core.pendingCreatedOpen)
      && FooterKept(s, t) && LogAimless(s.log, t.log)
  }

  lemma SetupCompletedSteps(s: AppState, setup: PendingWorkspace, outcome: SetupResult)
    ensures SetsUp(s, OnSetupCompleted(s, setup, outcome), setup)
  {
    hide KeepsTimers, LogAimless, SetStatus, Emit;
    var settled := s.(core := s.core.(pendingWorkspace := None));
    var opening := settled.(core := settled.core.(pendingCreatedOpen := Some((setup.name, setup.path))));
    ReportsReload(opening);
    FailsSetup(settled, CreateFailed(setup.name), setup.name);
    FailsSetup(settled, HookFailed(setup.name), setup.name);
  }

  function FailedSetup(s: AppState, status: Status, name: string): AppState {
    RequestReload(SetStatus(Emit(s, RecordFailure(name)), status))
  }

  lemma ReportsReload(s: AppState)
    ensures FooterKept(s, RequestReload(s)) && LogAimless(s.log, RequestReload(s).log)
    ensures RequestReload(s).core == s.core
  {
    PrimitivesKeepFooter(s, NameRequired, ReloadStore);
    hide KeepsTimers;
  }

  lemma FailsSetup(s: AppState, status: Status, name: string)
    ensures var t := FailedSetup(s, status, name);
      t.core == s.core && FooterKept(s, t) && LogAimless(s.log, t.log)
  {
    var recorded := Emit(s, RecordFailure(name));
    var shown := SetStatus(recorded, status);
    PrimitivesKeepFooter(s, status, RecordFailure(name));
    PrimitivesKeepFooter(recorded, status, ReloadStore);
    PrimitivesKeepFooter(shown, status, ReloadStore);
    FooterKeptChain(s, recorded, shown);
    FooterKeptChain(s, shown, RequestReload(shown));
    hide KeepsTimers;
  }

  predicate Removes(
    s: AppState, t: AppState, pending: PendingDeletion, failure: Option<string>, store: Option<Store>)
  {
    if s.core.pendingDeletion != Some(pending) then t == s
    else
      && t.core == s.core.(
           store := if store.Some? then store.value else s.core.store,
           pendingDeletion := None,
           quitAfterDeletion := s.core.quitAfterDeletion && failure.None?,
           shouldQuit := s.core.shouldQuit || (s.core.quitAfterDeletion && failure.None?))
      && FooterKept(s, t) && LogAimless(s.log, t.log)
  }

  lemma ReportsDeletion(s: AppState, name: string, failure: Option<string>)
    ensures var t := ReportDeletion(s, name, failure);
      && t.core == s.core.(
           quitAfterDeletion := s.core.quitAfterDeletion && failure.None?,
           shouldQuit := s.core.shouldQuit || (s.core.quitAfterDeletion && failure.None?))
      && FooterKept(s, t) && LogAimless(s.log, t.log)
  {
  }

  lemma StoreChangeNotifies(s: AppState, store: Store)
    requires s.core.pendingDeletion.None?
    ensures var t := AfterStoreChanged(WithStore(s, store));
      && t.core == s.core.(store := store)
      && FooterKept(s, t) && LogAimless(s.log, t.log)
  {
    var t := AfterStoreChanged(WithStore(s, store));
    assert t.log == s.log || t.log == s.log + [LoadGraph];
    hide RestoreWorkspace;
  }

  lemma DeletionCompletedSteps(
    s: AppState, operation: nat, workspace: Workspace, failure: Option<string>, store: Option<Store>)
    ensures Removes(s, OnDeletionCompleted(s, operation, workspace, failure, store),
                    PendingDeletion(operation, workspace), failure, store)
  {
    hide AfterStoreChanged, ReportDeletion, KeepsTimers, LogAimless;
    if s.core.pendingDeletion == Some(PendingDeletion(operation, workspace)) {
      var settled := s.(core := s.core.(pendingDeletion := None));
      var changed := if store.Some? then AfterStoreChanged(WithStore(settled, store.value)) else settled;
      if store.Some? {
        StoreChangeNotifies(settled, store.value);
      } else {
        NothingReports(settled);
      }
      ReportsDeletion(changed, workspace.name, failure);
      ReportsChain(s, changed, ReportDeletion(changed, workspace.name, failure));
    }
  }

  lemma NothingReports(s: AppState)
    ensures FooterKept(s, s) && LogAimless(s.log, s.log)
  {
  }

  lemma ReportsChain(s: AppState, t: AppState, u: AppState)
    requires FooterKept(s, t) && LogAimless(s.log, t.log)
    requires FooterKept(t, u) && LogAimless(t.log, u.log)
    ensures FooterKept(s, u) && LogAimless(s.log, u.log)
  {
  }

  /** What each kind of message does. */
  predicate MessageStep(s: AppState, msg: Msg, t: AppState) {
    match msg
    case KeyPress(key, _) => KeyStep(s, key, t)
    case OtherInput(_) => Acts(s, t)
    case Lifted(job, result) => Settles(s, t, job, result)
    case StoreReloaded(store, _) => Reloads(s, t, store)
    case SetupCompleted(setup, _) => SetsUp(s, t, setup)
    case DeletionCompleted(operation, workspace, failure, store) =>
      Removes(s, t, PendingDeletion(operation, workspace), failure, store)
    case _ => Notifies(s, t)
  }

  /** Every message takes the App by one of the steps above. */
  lemma HandleSteps(s: AppState, msg: Msg)
    requires QueueMoves(s.core.lifts) && !Busy(s.core, DEFAULT_WORKSPACE)
    ensures MessageStep(s, msg, Handle(s, msg))
  {
    hide OnKey, KeyPool, OnLifted, OnStoreReloaded, OnSetupCompleted, OnDeletionCompleted;
    hide Settles, Reloads, SetsUp, Removes, Notifies, Acts, KeyStep;
    match msg
    case KeyPress(key, view) => KeySteps(s, key, view);
    case OtherInput(view) =>
      KeyPoolSteps(s, view.pool);
      QuietSteps(s, s);
    case Lifted(job, result) => LiftedSteps(s, job, result);
    case StoreReloaded(store, isDir) => StoreReloadedSteps(s, store, isDir);
    case SetupCompleted(setup, outcome) => SetupCompletedSteps(s, setup, outcome);
    case DeletionCompleted(operation, workspace, failure, store) =>
      DeletionCompletedSteps(s, operation, workspace, failure, store);
    case _ => NoticeSteps(s, msg);
  }
}
