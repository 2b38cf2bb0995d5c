/** Setup and deletion exclude each other, across modal dialogs and store reloads, and
    no key press aims an effect at a workspace that is being set up or deleted. */
module AppExclusion {
  import opened Options
  import opened App
  import opened AppSteps

  /** The default workspace is listed and never busy. The workspace of a pending
      deletion stays listed and is not being set up. A deletion awaiting confirmation,
      even under the help overlay, is of a workspace that may be deleted. */
  predicate Exclusive(core: Core) {
    && Lists(core.store, DEFAULT_WORKSPACE)
    && !Busy(core, DEFAULT_WORKSPACE)
    && (core.pendingDeletion.Some? ==>
          var name := core.pendingDeletion.value.workspace.name;
          Lists(core.store, name) && !IsConfiguring(core, name))
    && (Base(core.mode).ConfirmDelete? ==>
          Base(core.mode).name != DEFAULT_WORKSPACE && !Busy(core, Base(core.mode).name))
  }

  /** Every store the runtime hands over lists the default workspace. */
  predicate ListsDefault(msg: Msg) {
    match msg
    case StoreReloaded(store, _) => Lists(store, DEFAULT_WORKSPACE)
    case DeletionCompleted(_, _, _, store) => store.Some? ==> Lists(store.value, DEFAULT_WORKSPACE)
    case _ => true
  }

  lemma ActsExclude(s: AppState, t: AppState)
    requires Exclusive(s.core) && Acts(s, t)
    ensures Exclusive(t.core)
  {
    hide LogPlain, LogClear, KeepsTimers;
  }

  lemma ReloadExcludes(s: AppState, t: AppState, store: Store)
    requires Exclusive(s.core) && Lists(store, DEFAULT_WORKSPACE) && Reloads(s, t, store)
    ensures Exclusive(t.core)
  {
    if s.core.pendingDeletion.Some? {
      var pending := s.core.pendingDeletion.value.workspace;
      RestoreLists(store, pending, DEFAULT_WORKSPACE);
      RestoreLists(store, pending, pending.name);
    }
    hide RestoreWorkspace, Find, LogPlain, KeepsTimers;
  }

  lemma NotifiesExcludes(s: AppState, t: AppState)
    requires Exclusive(s.core) && Notifies(s, t)
    ensures Exclusive(t.core)
  {
  }

  lemma SettlesExcludes(s: AppState, t: AppState, job: LiftJob, result: LiftResult)
    requires Exclusive(s.core) && Settles(s, t, job, result)
    ensures Exclusive(t.core)
  {
    hide LiftSummary, KeepsTimers, CountLift;
  }

  lemma SetsUpExcludes(s: AppState, t: AppState, setup: PendingWorkspace)
    requires Exclusive(s.core) && SetsUp(s, t, setup)
    ensures Exclusive(t.core)
  {
    hide KeepsTimers, LogAimless;
  }

  lemma RemovesExcludes(
    s: AppState, t: AppState, pending: PendingDeletion, failure: Option<string>, store: Option<Store>)
    requires Exclusive(s.core) && Removes(s, t, pending, failure, store)
    requires store.Some? ==> Lists(store.value, DEFAULT_WORKSPACE)
    ensures Exclusive(t.core)
  {
    hide KeepsTimers, LogAimless;
  }

  /** Whatever arrives, in whatever order, setup and deletion stay apart. */
  lemma HandleExcludes(s: AppState, msg: Msg)
    requires Exclusive(s.core) && QueueMoves(s.core.lifts) && ListsDefault(msg)
    ensures Exclusive(Handle(s, msg).core)
  {
    HandleSteps(s, msg);
    var t := Handle(s, msg);
    hide Handle, Acts, Quits, Reloads, Settles, SetsUp, Removes, Notifies, Exclusive;
    match msg
    case KeyPress(key, _) =>
      if QuitPressed(s, key) {
        QuitExcludes(s, t);
      } else {
        ActsExclude(s, t);
      }
    case OtherInput(_) => ActsExclude(s, t);
    case StoreReloaded(store, _) => ReloadExcludes(s, t, store);
    case Lifted(job, result) => SettlesExcludes(s, t, job, result);
    case SetupCompleted(setup, _) => SetsUpExcludes(s, t, setup);
    case DeletionCompleted(operation, workspace, failure, store) =>
      RemovesExcludes(s, t, PendingDeletion(operation, workspace), failure, store);
    case _ => NotifiesExcludes(s, t);
  }

  lemma QuitExcludes(s: AppState, t: AppState)
    requires Exclusive(s.core) && Quits(s, t)
    ensures Exclusive(t.core)
  {
  }

  lemma CreatesClear(s: AppState, t: AppState)
    requires Exclusive(s.core) && (Creates(s, t) || Deletes(s, t))
    ensures LogClear(s.core, s.log, t.log)
  {
  }

  /** No key press emits an effect aimed at a workspace that is being set up or deleted:
      not an open, a resolve, a diff, a named lift, a forge, a create or a delete. */
  lemma KeyPressAims(s: AppState, key: Key, view: View)
    requires Exclusive(s.core) && QueueMoves(s.core.lifts)
    ensures LogClear(s.core, s.log, OnKey(s, key, view).log)
  {
    KeySteps(s, key, view);
    var t := OnKey(s, key, view);
    hide OnKey;
    if Creates(s, t) || Deletes(s, t) {
      CreatesClear(s, t);
    }
  }

  // ----- The two steps that do not look -----

  /** A queued lift of a workspace that has since become busy, and a created workspace
      that has since become busy. */
  predicate Strays(s: AppState, msg: Msg) {
    match msg
    case Lifted(_, _) =>
      && s.core.lifts.queue != []
      && s.core.lifts.queue[0].LiftWorkspace?
      && Busy(s.core, s.core.lifts.queue[0].name)
    case StoreReloaded(store, isDir) =>
      && s.core.pendingCreatedOpen.Some?
      && var (name, path) := s.core.pendingCreatedOpen.value;
         && isDir && Busy(s.core, name)
         && OpensAt(AfterStoreChanged(WithStore(s, store)).core.store, name, path)
    case _ => false
  }

  predicate OpensAt(store: Store, name: string, path: string) {
    Find(store, name).Some? && Find(store, name).value.path == Present(path)
  }

  lemma LiftedClearIff(s: AppState, job: LiftJob, result: LiftResult)
    ensures LogClear(s.core, s.log, OnLifted(s, job, result).log) <==> !Strays(s, Lifted(job, result))
  {
    LiftedSteps(s, job, result);
    var t := OnLifted(s, job, result);
    hide OnLifted, KeepsTimers;
    var queue := CountLift(s.core.lifts, result).queue;
    assert queue == s.core.lifts.queue;
    if queue != [] {
      assert t.log[|s.log|] == ReloadStore && t.log[|s.log| + 1] == Lift(queue[0]);
      assert Aims(ReloadStore) == {};
    }
  }

  lemma ReloadedClearIff(s: AppState, store: Store, isDir: bool)
    ensures LogClear(s.core, s.log, OnStoreReloaded(s, store, isDir).log) <==> !Strays(s, StoreReloaded(store, isDir))
  {
    hide Find, RestoreWorkspace;
    var changed := AfterStoreChanged(WithStore(s, store));
    assert changed.log == s.log || changed.log == s.log + [LoadGraph];
    assert changed.core.pendingCreatedOpen == s.core.pendingCreatedOpen;
    assert LogAimless(s.log, changed.log);
    hide AfterStoreChanged;
    OpenedClearIff(s, changed, isDir);
  }

  lemma OpenedClearIff(s: AppState, changed: AppState, isDir: bool)
    requires LogAimless(s.log, changed.log)
    ensures LogClear(s.core, s.log, OpenPendingCreated(changed, isDir).log) <==>
              !(&& changed.core.pendingCreatedOpen.Some?
                && var (name, path) := changed.core.pendingCreatedOpen.value;
                   isDir && Busy(s.core, name) && OpensAt(changed.core.store, name, path))
  {
    hide Find;
    var t := OpenPendingCreated(changed, isDir);
    if changed.core.pendingCreatedOpen.Some? {
      var (name, path) := changed.core.pendingCreatedOpen.value;
      if isDir && OpensAt(changed.core.store, name, path) {
        var opening := OpenWorkspace(name, path, true, true);
        assert t.log == changed.log + [ScheduleStatusExpiry(changed.footer.generation + 1)] + [opening];
        assert t.log[|t.log| - 1] == opening && Aims(opening) == {name};
      } else {
        assert t.log == changed.log + [ScheduleStatusExpiry(changed.footer.generation + 1)];
      }
    }
  }

  /** Exactly when a message aims at a busy workspace. */
  lemma ClearIff(s: AppState, msg: Msg)
    requires Exclusive(s.core) && QueueMoves(s.core.lifts)
    ensures LogClear(s.core, s.log, Handle(s, msg).log) <==> !Strays(s, msg)
  {
    match msg
    case KeyPress(key, view) =>
      KeyPressAims(s, key, view);
      hide OnKey, LogClear;
    case OtherInput(view) =>
      QuietSteps(s, s);
      assert LogClear(s.core, s.log, KeyPool(s, view.pool).log);
    case Lifted(job, result) =>
      LiftedClearIff(s, job, result);
      hide OnLifted, LogClear, Strays;
    case StoreReloaded(store, isDir) =>
      ReloadedClearIff(s, store, isDir);
      hide OnStoreReloaded, LogClear, Strays;
    case _ =>
      HandleSteps(s, msg);
      hide Handle, KeepsTimers;
  }
}
