/** Where each key leads: the view the App is left in, told from the key, the view it was
    in and the rows alone. */
module AppModes {
  import opened Options
  import opened App
  import opened AppSteps
  import opened AppEffects

  function ListLeads(s: AppState, key: Key, view: View): Mode {
    var row := FreeRow(s, view);
    var settled := s.core.pendingWorkspace.None?;
    if (key == RightArrow || key == Char('l')) && row.Some? then Detail(row.value.name, view.filterFocused)
    else if key == Char('W') then Graph
    else if key == Char('d') && row.Some? && row.value.name != DEFAULT_WORKSPACE then ConfirmDelete(row.value.name)
    else if key == Char('n') && settled then NewWorkspace("")
    else if key == Char('T') && settled then ConfirmTidy
    else if key == Char('p') then Pool(OtherPool)
    else Normal
  }

  function Typed(buffer: string, key: Key, view: View): Mode {
    match key
    case Esc => Normal
    case Enter => Normal
    case Backspace => NewWorkspace(if buffer == "" then "" else buffer[..|buffer| - 1])
    case Char(c) => NewWorkspace(if view.alphanumeric || c == '-' || c == '_' then buffer + [c] else buffer)
    case _ => NewWorkspace(buffer)
  }

  predicate Answers(key: Key) {
    key == Char('y') || key == Char('Y') || key == Char('n') || key == Char('N') || key == Esc
  }

  function PoolLeads(step: PoolStep): Mode {
    if step.next.Some? then Pool(step.next.value) else Normal
  }

  /** A question mark opens help over any view but help itself, except where it is text. */
  predicate OpensHelp(mode: Mode, key: Key) {
    && key == Char('?') && !mode.Help?
    && mode != Pool(SendInput) && mode != Pool(AliasInput) && !(mode.Detail? && mode.filterFocused)
  }

  function Leads(s: AppState, key: Key, view: View): Mode {
    if OpensHelp(s.core.mode, key) then Help(s.core.mode)
    else
      match s.core.mode
      case Normal => ListLeads(s, key, view)
      case NewWorkspace(buffer) => Typed(buffer, key, view)
      case ConfirmDelete(_) => if Answers(key) then Normal else s.core.mode
      case ConfirmTidy => if Answers(key) then Normal else s.core.mode
      case Pool(_) => PoolLeads(view.pool)
      case Help(previous) => if key == Char('?') || key == Esc then previous else s.core.mode
      case Detail(workspace, _) => if view.detailExits then Normal else Detail(workspace, view.filterFocused)
      case Graph => if key == Esc || key == Char('q') || key == Char('W') then Normal else Graph
  }

  /** The step leaves this view, and neither the world pane nor the fetch flag moved. */
  predicate LeavesAt(s: AppState, t: AppState, mode: Mode) {
    t.core.mode == mode && t.core.world == s.core.world && t.core.fetching == s.core.fetching
  }

  lemma ReportsLeave(s: AppState, status: Status, effect: Effect)
    ensures SetStatus(s, status).core == s.core && PinStatus(s, status).core == s.core
    ensures ClearStatus(s).core == s.core && Emit(s, effect).core == s.core
  {
  }

  lemma RefusalLeaves(s: AppState, name: string)
    ensures RefuseIfConfiguring(s, name).1.core == s.core && (RefuseIfConfiguring(s, name).0 <==> Busy(s.core, name))
    ensures RefuseWhileConfiguring(s).1.core == s.core
    ensures RefuseWhileConfiguring(s).0 <==> s.core.pendingWorkspace.Some?
  {
  }

  lemma RowActionsLead(s: AppState, focus: bool, view: View)
    requires s.core.mode.Normal?
    ensures LeavesAt(s, OpenSelected(s, focus, view), Normal) && LeavesAt(s, ResolveSelected(s, view), Normal)
  {
    if view.cursor.Some? {
      RefusalLeaves(ClearStatus(s), view.cursor.value);
    }
    hide RefuseIfConfiguring, Find, Busy;
  }

  lemma RowActionsMove(s: AppState, view: View)
    requires s.core.mode.Normal?
    ensures LeavesAt(s, OpenDetail(s, view), ListLeads(s, RightArrow, view))
    ensures LeavesAt(s, BeginDeleteSelected(s, view), ListLeads(s, Char('d'), view))
  {
    DetailLeads(s, view);
    ConfirmationLeads(s, view);
    hide OpenDetail, BeginDeleteSelected, FreeRow;
  }

  lemma DetailLeads(s: AppState, view: View)
    requires s.core.mode.Normal?
    ensures var row := FreeRow(s, view);
      LeavesAt(s, OpenDetail(s, view), if row.Some? then Detail(row.value.name, view.filterFocused) else Normal)
  {
    hide RefuseIfConfiguring, Find, Busy;
    if view.cursor.Some? {
      RefusalLeaves(ClearStatus(s), view.cursor.value);
    }
  }

  lemma ConfirmationLeads(s: AppState, view: View)
    requires s.core.mode.Normal?
    ensures var row := FreeRow(s, view);
      LeavesAt(s, BeginDeleteSelected(s, view),
               if row.Some? && row.value.name != DEFAULT_WORKSPACE then ConfirmDelete(row.value.name) else Normal)
  {
    hide RefuseIfConfiguring, Find, Busy, SetStatus;
    if view.cursor.Some? {
      RefusalLeaves(ClearStatus(s), view.cursor.value);
    }
    ReportsLeave(ClearStatus(s), DefaultIsUndeletable, LoadGraph);
  }

  lemma EnqueueLeads(s: AppState, job: LiftJob)
    ensures LeavesAt(s, EnqueueLift(s, job), s.core.mode)
  {
  }

  lemma LiftActionsLead(s: AppState, view: View)
    requires s.core.mode.Normal?
    ensures LeavesAt(s, LiftSelected(s, view), Normal) && LeavesAt(s, LiftEverything(s), Normal)
  {
    hide RefuseIfConfiguring, RefuseWhileConfiguring, Find, EnqueueLift;
    if view.cursor.Some? {
      RefusalLeaves(s, view.cursor.value);
      EnqueueLeads(s, LiftWorkspace(view.cursor.value));
    }
    RefusalLeaves(s, "");
    EnqueueLeads(s, LiftAll);
  }

  lemma BeginForgeLeads(s: AppState, rows: seq<Workspace>, forging: set<string>)
    ensures BeginForge(s, rows, forging).core == s.core
  {
    hide ForgeTargets, SkippedNoPath;
  }

  lemma ForgeActionsLead(s: AppState, view: View)
    requires s.core.mode.Normal?
    ensures LeavesAt(s, ForgeSelected(s, view), Normal) && LeavesAt(s, ForgeDefault(s, view), Normal)
    ensures LeavesAt(s, ForgeAll(s, view), Normal)
  {
    RefusalLeaves(s, "");
    if view.cursor.Some? && Find(s.core.store, view.cursor.value).Some? {
      RefusalLeaves(s, view.cursor.value);
      BeginForgeLeads(s, [Find(s.core.store, view.cursor.value).value], view.forging);
    }
    if Find(s.core.store, DEFAULT_WORKSPACE).Some? {
      BeginForgeLeads(s, [Find(s.core.store, DEFAULT_WORKSPACE).value], view.forging);
    }
    BeginForgeLeads(s, Without(s.core.store, DeletingName(s)), view.forging);
    hide BeginForge, RefuseIfConfiguring, RefuseWhileConfiguring, Without;
  }

  lemma GlobalActionsLead(s: AppState, view: View)
    requires s.core.mode.Normal?
    ensures LeavesAt(s, BeginNew(s), ListLeads(s, Char('n'), view))
    ensures LeavesAt(s, BeginTidy(s), ListLeads(s, Char('T'), view))
    ensures LeavesAt(s, TidyAll(s), Normal) && LeavesAt(s, Quit(s), Normal) && LeavesAt(s, OpenGraph(s), Graph)
    ensures LeavesAt(s, InMode(s, Pool(OtherPool)), Pool(OtherPool)) && LeavesAt(s, s, Normal)
  {
    RefusalLeaves(s, "");
    hide RefuseWhileConfiguring, FreeRow;
  }

  /** In the list, `w` turns the world pane over and `u` sets the fetch flag. */
  lemma TogglesLead(s: AppState)
    requires s.core.mode.Normal?
    ensures var t := ToggleWorld(s).core; t == s.core.(world := !s.core.world)
    ensures var t := StartFetch(s).core; t == s.core.(fetching := true)
  {
  }

  predicate IsToggle(s: AppState, key: Key) {
    s.core.mode.Normal? && (key == Char('w') || key == Char('u'))
  }

  lemma KeyNormalLeads(s: AppState, key: Key, view: View)
    requires s.core.mode.Normal? && !IsToggle(s, key)
    ensures LeavesAt(s, KeyNormal(s, key, view), ListLeads(s, key, view))
  {
    hide OpenSelected, OpenDetail, BeginNew, TidyAll, BeginTidy, StartFetch, ToggleWorld, OpenGraph, Quit, InMode;
    hide BeginDeleteSelected, LiftSelected, LiftEverything, ForgeSelected, ForgeDefault, ForgeAll, ResolveSelected;
    hide LeavesAt, FreeRow;
    RowActionsLead(s, true, view);
    RowActionsLead(s, false, view);
    RowActionsMove(s, view);
    LiftActionsLead(s, view);
    ForgeActionsLead(s, view);
    GlobalActionsLead(s, view);
  }

  lemma TypedLeads(s: AppState, key: Key, view: View)
    requires s.core.mode.NewWorkspace?
    ensures LeavesAt(s, KeyNewWorkspace(s, s.core.mode.buffer, key, view), Typed(s.core.mode.buffer, key, view))
  {
    hide Find, Lists;
  }

  lemma DeletionAnswersLead(s: AppState, key: Key)
    requires s.core.mode.ConfirmDelete?
    ensures LeavesAt(s, KeyConfirmDelete(s, s.core.mode.name, key), if Answers(key) then Normal else s.core.mode)
  {
    hide Find, NextOperation, PinStatus, SetStatus, Emit;
    var normal := InMode(s, Normal);
    DeleteNamedLeads(normal, s.core.mode.name);
    hide DeleteNamed;
  }

  lemma DeleteNamedLeads(s: AppState, name: string)
    ensures LeavesAt(s, DeleteNamed(s, name), s.core.mode)
  {
    hide Find, NextOperation;
  }

  lemma TidyAnswersLead(s: AppState, key: Key)
    requires s.core.mode.ConfirmTidy?
    ensures LeavesAt(s, KeyConfirmTidy(s, key), if Answers(key) then Normal else s.core.mode)
  {
  }

  lemma PoolKeyLeads(s: AppState, step: PoolStep)
    ensures LeavesAt(s, KeyPool(s, step), PoolLeads(step))
  {
  }

  lemma DialogKeysLead(s: AppState, key: Key, view: View)
    requires s.core.mode.NewWorkspace? || s.core.mode.ConfirmDelete? || s.core.mode.ConfirmTidy? || s.core.mode.Pool?
    ensures LeavesAt(s, OnKey(s, key, view), Leads(s, key, view))
  {
    hide KeyNewWorkspace, KeyConfirmDelete, KeyConfirmTidy, KeyPool, Typed, PoolLeads, ListLeads, KeyNormal;
    match s.core.mode
    case NewWorkspace(_) => TypedLeads(s, key, view);
    case ConfirmDelete(_) => DeletionAnswersLead(s, key);
    case ConfirmTidy => TidyAnswersLead(s, key);
    case _ => PoolKeyLeads(s, view.pool);
  }

  lemma OverlayKeysLead(s: AppState, key: Key, view: View)
    requires s.core.mode.Help? || s.core.mode.Detail? || s.core.mode.Graph?
    ensures LeavesAt(s, OnKey(s, key, view), Leads(s, key, view))
  {
    hide KeyNewWorkspace, KeyConfirmDelete, KeyConfirmTidy, KeyPool, Typed, PoolLeads, ListLeads, KeyNormal;
  }

  /** Every key leads where the view, the row and the key say; beside that the list's `w`
      turns the world pane over, its `u` sets the fetch flag, and no key does either else. */
  lemma KeyLeads(s: AppState, key: Key, view: View)
    ensures var t := OnKey(s, key, view);
      && t.core.mode == Leads(s, key, view)
      && (t.core.world <==> s.core.world != (s.core.mode.Normal? && key == Char('w')))
      && (t.core.fetching <==> s.core.fetching || (s.core.mode.Normal? && key == Char('u')))
  {
    if !s.core.mode.Normal? {
      if s.core.mode.Help? || s.core.mode.Detail? || s.core.mode.Graph? {
        OverlayKeysLead(s, key, view);
      } else {
        DialogKeysLead(s, key, view);
      }
      hide OnKey, Leads;
    } else {
      if IsToggle(s, key) {
        TogglesLead(s);
      } else {
        KeyNormalLeads(s, key, view);
      }
      hide ToggleWorld, StartFetch, FreeRow;
      if !IsToggle(s, key) {
        hide KeyNormal, ListLeads;
      }
    }
  }
}
