/** What the footer says after the steps that choose between messages, told from what the
    step was asked and what came of it. */
module AppFooter {
  import opened Options
  import opened App
  import opened AppSteps
  import opened AppExclusion
  import opened AppLifts
  import opened AppEffects

  /** The running lift, how many wait behind it, and how many of its batch have failed. */
  function Progress(outstanding: seq<LiftJob>, failures: nat): Option<Status>
    requires outstanding != []
  {
    Some(Lifting(outstanding[0], |outstanding| - 1, failures))
  }

  /** A lift asked for twice is refused in those words; any other is shown with the queue it
      stands in. */
  lemma EnqueueSays(s: AppState, job: LiftJob)
    requires QueueMoves(s.core.lifts)
    ensures var t := EnqueueLift(s, job);
      if job in Outstanding(s.core.lifts) then t.footer.status == Some(AlreadyQueued(job))
      else
        && Outstanding(t.core.lifts) == Outstanding(s.core.lifts) + [job]
        && t.footer.status == Progress(Outstanding(s.core.lifts) + [job], |s.core.lifts.failures|)
  {
  }

  /** A completion with lifts waiting shows those, its own failure counted. */
  lemma CompletionSays(s: AppState, job: LiftJob, result: LiftResult)
    requires s.core.lifts.queue != []
    ensures OnLifted(s, job, result).footer.status
            == Progress(s.core.lifts.queue, |s.core.lifts.failures| + (if result.LiftError? then 1 else 0))
  {
  }

  /** The reload a created workspace awaited settles it: it says created exactly when it
      opens the workspace, and disappeared otherwise. */
  lemma ReloadSays(s: AppState, store: Store, isDir: bool)
    requires s.core.pendingCreatedOpen.Some?
    ensures var t := OnStoreReloaded(s, store, isDir);
            var name := s.core.pendingCreatedOpen.value.0;
      && t.core.pendingCreatedOpen.None?
      && t.footer.status == Some(if OpensCreated(s.core, store, isDir) != [] then Created(name) else Disappeared(name))
  {
    hide RestoreWorkspace, Find;
  }

  /** Whether this row is passed over by a forge for want of a path. */
  predicate LacksPath(row: Workspace, forging: set<string>) {
    !row.path.Present? && row.name !in forging
  }

  lemma {:induction false} SkippedIsTheLast(rows: seq<Workspace>, forging: set<string>)
    ensures var skipped := SkippedNoPath(rows, forging);
      if skipped.None? then forall i :: 0 <= i < |rows| ==> !LacksPath(rows[i], forging)
      else exists i :: 0 <= i < |rows| && IsLastLacking(rows, forging, i) && skipped.value == rows[i].name
  {
    if rows != [] {
      var last := |rows| - 1;
      if LacksPath(rows[last], forging) {
        assert IsLastLacking(rows, forging, last);
      } else {
        var front := rows[..last];
        SkippedIsTheLast(front, forging);
        if SkippedNoPath(front, forging).Some? {
          var i :| 0 <= i < last && IsLastLacking(front, forging, i) && SkippedNoPath(front, forging).value == front[i].name;
          assert forall j | i < j < last :: rows[j] == front[j];
          assert IsLastLacking(rows, forging, i);
        } else {
          assert forall i | 0 <= i < last :: rows[i] == front[i];
        }
      }
    }
  }

  predicate IsLastLacking(rows: seq<Workspace>, forging: set<string>, i: nat)
    requires i < |rows|
  {
    LacksPath(rows[i], forging) && forall j :: i < j < |rows| ==> !LacksPath(rows[j], forging)
  }

  /** A forge that starts clears the footer; one that cannot names the last row without a
      path, or says there is nothing to forge when no row lacks one. */
  lemma ForgeSays(s: AppState, rows: seq<Workspace>, forging: set<string>)
    ensures var status := BeginForge(s, rows, forging).footer.status;
      if Forges(rows, forging) != [] then status.None?
      else if forall i :: 0 <= i < |rows| ==> !LacksPath(rows[i], forging) then status == Some(NothingToForge)
      else exists i :: 0 <= i < |rows| && IsLastLacking(rows, forging, i) && status == Some(NoPath(rows[i].name))
  {
    TargetsAreForgeable(rows, forging);
    SkippedIsTheLast(rows, forging);
    hide ForgeTargets, Forgeable, SkippedNoPath;
  }

  /** What a key that acts on a row says: why the row is busy, why it cannot be done, or
      nothing when it is. */
  function RowSays(s: AppState, key: Key, view: View): Option<Status> {
    match Selected(s, view)
    case None => None
    case Some(row) =>
      if IsDeleting(s.core, row.name) then Some(BeingDeleted(row.name))
      else if IsConfiguring(s.core, row.name) then Some(StillSettingUp(row.name))
      else if key == Char('C') && !view.conflicted then Some(NoConflicts(row.name))
      else if key != Char('l') && !row.path.Present? then Some(NoPath(row.name))
      else None
  }

  /** A refusal says which of the two keeps the workspace busy, deletion before setup. */
  lemma RefusalSays(s: AppState, name: string)
    ensures var (refused, t) := RefuseIfConfiguring(s, name);
      && (refused <==> IsDeleting(s.core, name) || IsConfiguring(s.core, name))
      && (refused ==> t.footer.status == Some(if IsDeleting(s.core, name) then BeingDeleted(name) else StillSettingUp(name)))
      && (!refused ==> t == s)
  {
  }

  lemma OpenKeysSay(s: AppState, view: View)
    ensures OpenSelected(s, true, view).footer.status == RowSays(s, Enter, view)
    ensures OpenSelected(s, false, view).footer.status == RowSays(s, Char('o'), view)
  {
    hide Find, RefuseIfConfiguring;
    if view.cursor.Some? {
      RefusalSays(ClearStatus(s), view.cursor.value);
    }
  }

  lemma ResolveKeySays(s: AppState, view: View)
    ensures ResolveSelected(s, view).footer.status == RowSays(s, Char('C'), view)
  {
    hide Find, RefuseIfConfiguring;
    if view.cursor.Some? {
      RefusalSays(ClearStatus(s), view.cursor.value);
    }
  }

  lemma DetailKeySays(s: AppState, view: View)
    ensures OpenDetail(s, view).footer.status == RowSays(s, Char('l'), view)
  {
    hide Find, RefuseIfConfiguring;
    if view.cursor.Some? {
      RefusalSays(ClearStatus(s), view.cursor.value);
    }
  }
}
