/** Operation identities, quitting and status timers: what a late or repeated answer
    can and cannot do. */
module AppIdentities {
  import opened Options
  import opened App
  import opened AppSteps

  // ----- Operation identities -----

  const CYCLE: nat := U64_LIMIT - 1

  /** The identity of the `k`-th allocation; 0 before the first. */
  function Identity(k: nat): nat {
    if k == 0 then 0 else NextOperation(Identity(k - 1))
  }

  lemma {:induction false} IdentityIs(k: nat)
    requires k >= 1
    ensures Identity(k) == (k - 1) % CYCLE + 1
    ensures 1 <= Identity(k) <= CYCLE
  {
    if k == 1 {
      assert Identity(0) == 0;
    } else {
      IdentityIs(k - 1);
      CycleStep(k - 2, CYCLE);
    }
  }

  lemma CycleStep(n: nat, d: nat)
    requires d > 1
    ensures (n + 1) % d == if n % d + 1 == d then 0 else n % d + 1
  {
    if n % d + 1 == d {
      Remainder(n + 1, d, n / d + 1, 0);
    } else {
      Remainder(n + 1, d, n / d, n % d + 1);
    }
  }

  lemma MultipleIsFar(d: int, k: int)
    requires d > 0
    ensures k >= 1 ==> d * k >= d
    ensures k <= -1 ==> d * k <= -d
  {
  }

  lemma Remainder(n: int, d: int, q: int, r: int)
    requires 0 <= r < d && n == d * q + r
    ensures n % d == r
  {
    MultipleIsFar(d, q - n / d);
    assert d * (q - n / d) == n % d - r;
  }

  /** Two allocations share an identity exactly when a whole number of cycles of
      2^64 - 1 allocations lies between them. */
  lemma IdentitiesRepeatIff(i: nat, j: nat)
    requires 1 <= i <= j
    ensures Identity(i) == Identity(j) <==> (j - i) % CYCLE == 0
  {
    IdentityIs(i);
    IdentityIs(j);
    var qi, ri := (i - 1) / CYCLE, (i - 1) % CYCLE;
    var qj, rj := (j - 1) / CYCLE, (j - 1) % CYCLE;
    assert i - 1 == CYCLE * qi + ri && j - 1 == CYCLE * qj + rj;
    if ri == rj {
      Remainder(j - i, CYCLE, qj - qi, 0);
    } else if ri < rj {
      Remainder(j - i, CYCLE, qj - qi, rj - ri);
    } else {
      Remainder(j - i, CYCLE, qj - qi - 1, CYCLE + rj - ri);
    }
  }

  /** The deletions the runtime was asked for, in order. */
  function DeletionsOf(log: seq<Effect>): seq<(Workspace, nat)> {
    if log == [] then []
    else
      var last := log[|log| - 1];
      DeletionsOf(log[..|log| - 1]) + (if last.DeleteWorkspace? then [(last.deleted, last.operation)] else [])
  }

  function Pairs(issues: seq<Issue>): seq<(Workspace, nat)> {
    seq(|issues|, i requires 0 <= i < |issues| => (issues[i].workspace, issues[i].operation))
  }

  /** The counter stands at the last identity given out, every deletion asked of the
      runtime carries the identity allocated for it, and a pending deletion is the last
      one asked for. */
  predicate Identified(s: AppState) {
    var operations := s.core.operations;
    var issues := operations.deletions;
    && operations.next == Identity(operations.allocations)
    && DeletionsOf(s.log) == Pairs(issues)
    && (forall i | 0 <= i < |issues| ::
          1 <= issues[i].index <= operations.allocations && issues[i].operation == Identity(issues[i].index))
    && (forall i, j | 0 <= i < j < |issues| :: issues[i].index < issues[j].index)
    && (s.core.pendingDeletion.Some? ==>
          && issues != []
          && var last := issues[|issues| - 1];
             s.core.pendingDeletion.value == PendingDeletion(last.operation, last.workspace))
  }

  lemma {:induction false} PlainDeletesNothing(before: seq<Effect>, after: seq<Effect>)
    requires LogPlain(before, after)
    ensures DeletionsOf(after) == DeletionsOf(before)
    decreases |after|
  {
    if |before| < |after| {
      var front := after[..|after| - 1];
      assert before <= front;
      assert LogPlain(before, front);
      PlainDeletesNothing(before, front);
    } else {
      assert before == after;
    }
  }

  lemma DeletionsSnoc(log: seq<Effect>, effect: Effect)
    ensures DeletionsOf(log + [effect])
         == DeletionsOf(log) + (if effect.DeleteWorkspace? then [(effect.deleted, effect.operation)] else [])
  {
    assert (log + [effect])[..|log|] == log;
  }

  /** A step that asks for no deletion. */
  lemma PlainKeepsIdentities(s: AppState, t: AppState)
    requires Identified(s) && DeletionsOf(t.log) == DeletionsOf(s.log)
    requires t.core.operations == s.core.operations || t.core.operations == Allocated(s.core.operations)
    requires t.core.pendingDeletion == s.core.pendingDeletion || t.core.pendingDeletion.None?
    ensures Identified(t)
  {
    hide DeletionsOf, Pairs, NextOperation;
    assert Allocated(s.core.operations).next == Identity(s.core.operations.allocations + 1);
  }

  lemma DeletesIdentified(s: AppState, t: AppState)
    requires Identified(s) && Deletes(s, t)
    ensures Identified(t)
  {
    var pending := t.core.pendingDeletion.value;
    DeletionsSnoc(s.log, DeleteWorkspace(pending.workspace, pending.operation));
    hide DeletionsOf, NextOperation, KeepsTimers, Find;
    var issued := Allocated(s.core.operations);
    assert issued.next == Identity(issued.allocations);
    var issues := s.core.operations.deletions;
    assert Pairs(t.core.operations.deletions) == Pairs(issues) + [(pending.workspace, pending.operation)];
  }

  lemma ActsIdentified(s: AppState, t: AppState)
    requires Identified(s) && Acts(s, t)
    ensures Identified(t)
  {
    hide Identified, DeletionsOf, KeepsTimers, LogClear;
    if Deletes(s, t) {
      DeletesIdentified(s, t);
    } else {
      if EnqueuesOne(s, t) {
        var accepted := t.core.lifts.accepted;
        DeletionsSnoc(s.log, Lift(accepted[|accepted| - 1]));
        assert s.log + [] == s.log;
      } else if Creates(s, t) {
        DeletionsSnoc(s.log, CreateWorkspace(t.core.pendingWorkspace.value));
      } else {
        PlainDeletesNothing(s.log, t.log);
      }
      PlainKeepsIdentities(s, t);
    }
  }

  lemma SettlesIdentified(s: AppState, t: AppState, job: LiftJob, result: LiftResult)
    requires Identified(s) && Settles(s, t, job, result)
    ensures Identified(t)
  {
    var reloaded, last := s.log + [ReloadStore], t.log[|t.log| - 1];
    DeletionsSnoc(s.log, ReloadStore);
    DeletionsSnoc(reloaded, last);
    assert t.log == reloaded + [last];
    hide Identified, DeletionsOf, KeepsTimers, LiftSummary;
    PlainKeepsIdentities(s, t);
  }

  /** A step that emits nothing but plain effects and leaves the identities alone. */
  lemma PlainIdentified(s: AppState, t: AppState)
    requires Identified(s) && LogPlain(s.log, t.log) && t.core.operations == s.core.operations
    requires t.core.pendingDeletion == s.core.pendingDeletion || t.core.pendingDeletion.None?
    ensures Identified(t)
  {
    PlainDeletesNothing(s.log, t.log);
    PlainKeepsIdentities(s, t);
    hide Identified;
  }

  lemma HandleIdentifies(s: AppState, msg: Msg)
    requires Identified(s) && QueueMoves(s.core.lifts) && !Busy(s.core, DEFAULT_WORKSPACE)
    ensures Identified(Handle(s, msg))
  {
    hide Handle, Identified, Acts, Settles, KeepsTimers, DeletionsOf, Allocated, RestoreWorkspace;
    HandleSteps(s, msg);
    var t := Handle(s, msg);
    match msg
    case KeyPress(key, _) =>
      if QuitPressed(s, key) {
        PlainIdentified(s, t);
      } else {
        ActsIdentified(s, t);
      }
    case OtherInput(_) => ActsIdentified(s, t);
    case Lifted(job, result) => SettlesIdentified(s, t, job, result);
    case _ =>
      PlainIdentified(s, t);
  }

  /** The answer to the `i`-th deletion ever asked for, however late and however often
      it arrives, settles the pending deletion exactly when both are of one workspace
      and a whole number of identity cycles lies between them, and otherwise does
      nothing at all. */
  lemma AnswerSettlesIff(s: AppState, i: nat, failure: Option<string>, store: Option<Store>)
    requires Identified(s) && i < |s.core.operations.deletions|
    ensures var issues := s.core.operations.deletions;
            var last := issues[|issues| - 1];
            var t := OnDeletionCompleted(s, issues[i].operation, issues[i].workspace, failure, store);
      if && s.core.pendingDeletion.Some?
         && issues[i].workspace == last.workspace
         && (last.index - issues[i].index) % CYCLE == 0
      then t.core.pendingDeletion == None
      else t == s
  {
    var issues := s.core.operations.deletions;
    var issue, last := issues[i], issues[|issues| - 1];
    IdentitiesRepeatIff(issue.index, last.index);
    DeletionCompletedSteps(s, issue.operation, issue.workspace, failure, store);
    hide OnDeletionCompleted, KeepsTimers, Identity, CYCLE;
  }

  /** Unless 2^64 - 1 identities were allocated in between, only the pending deletion's
      own answer settles it. */
  lemma OnlyItsOwnAnswerSettles(s: AppState, i: nat, failure: Option<string>, store: Option<Store>)
    requires Identified(s) && i < |s.core.operations.deletions|
    requires s.core.operations.allocations - s.core.operations.deletions[i].index < CYCLE
    ensures var issues := s.core.operations.deletions;
            var t := OnDeletionCompleted(s, issues[i].operation, issues[i].workspace, failure, store);
      if s.core.pendingDeletion.Some? && i == |issues| - 1 then t.core.pendingDeletion == None else t == s
  {
    AnswerSettlesIff(s, i, failure, store);
    hide OnDeletionCompleted;
    var issues := s.core.operations.deletions;
    var gap := issues[|issues| - 1].index - issues[i].index;
    assert 0 <= gap < CYCLE;
    Remainder(gap, CYCLE, 0, gap);
  }

  // ----- Quitting -----

  predicate IsAnswerTo(msg: Msg, pending: PendingDeletion) {
    msg.DeletionCompleted? && msg.operation == pending.operation && msg.workspace == pending.workspace
  }

  /** A pending deletion lasts until its own answer. */
  lemma PendingUntilAnswered(s: AppState, msg: Msg)
    requires QueueMoves(s.core.lifts) && !Busy(s.core, DEFAULT_WORKSPACE)
    requires s.core.pendingDeletion.Some? && !IsAnswerTo(msg, s.core.pendingDeletion.value)
    ensures Handle(s, msg).core.pendingDeletion == s.core.pendingDeletion
  {
    HandleSteps(s, msg);
    var t := Handle(s, msg);
    hide Handle, Acts, KeepsTimers, LogPlain, LogAimless, LiftSummary, CountLift;
    if Acts(s, t) {
      ActsLeave(s, t);
    }
  }

  /** Whatever ends the program, no deletion is left pending. */
  lemma QuitsWithNothingPending(s: AppState, msg: Msg)
    requires QueueMoves(s.core.lifts) && !Busy(s.core, DEFAULT_WORKSPACE)
    requires !s.core.shouldQuit && Handle(s, msg).core.shouldQuit
    ensures Handle(s, msg).core.pendingDeletion.None?
  {
    HandleSteps(s, msg);
    var t := Handle(s, msg);
    hide Handle, Acts, KeepsTimers, LogPlain, LogAimless, LiftSummary, CountLift;
    if Acts(s, t) {
      ActsLeave(s, t);
    }
  }

  predicate AsksToQuit(s: AppState, msg: Msg) {
    msg.KeyPress? && QuitPressed(s, msg.key)
  }

  /** While a deletion is pending, a quit is remembered, and only remembered. */
  lemma QuitWaits(s: AppState, msg: Msg)
    requires QueueMoves(s.core.lifts) && !Busy(s.core, DEFAULT_WORKSPACE)
    requires s.core.pendingDeletion.Some? && !IsAnswerTo(msg, s.core.pendingDeletion.value)
    ensures var t := Handle(s, msg);
      && t.core.shouldQuit == s.core.shouldQuit
      && (t.core.quitAfterDeletion <==> s.core.quitAfterDeletion || AsksToQuit(s, msg))
  {
    HandleSteps(s, msg);
    var t := Handle(s, msg);
    hide Handle, Acts, KeepsTimers, LogPlain, LogAimless, LiftSummary, CountLift;
    if Acts(s, t) {
      ActsLeave(s, t);
    }
  }

  /** The pending deletion's answer ends the program exactly when a quit was asked for
      meanwhile and the deletion succeeded; a failed one drops the request. */
  lemma AnswerDecidesQuit(s: AppState, failure: Option<string>, store: Option<Store>)
    requires s.core.pendingDeletion.Some? && !s.core.shouldQuit
    ensures var pending := s.core.pendingDeletion.value;
            var t := OnDeletionCompleted(s, pending.operation, pending.workspace, failure, store);
      && (t.core.shouldQuit <==> s.core.quitAfterDeletion && failure.None?)
      && (failure.Some? ==> !t.core.quitAfterDeletion)
      && t.core.pendingDeletion.None?
  {
    var pending := s.core.pendingDeletion.value;
    DeletionCompletedSteps(s, pending.operation, pending.workspace, failure, store);
    hide OnDeletionCompleted, KeepsTimers;
  }

  // ----- Status timers -----

  /** A timer the runtime was asked for, whenever it fires, clears nothing but the very
      message it was armed for. */
  lemma ExpiryClearsItsOwnMessage(s: AppState, generation: nat)
    requires FooterOk(s.footer) && Timed(s.footer, s.log) && Scheduled(s.log, generation)
    ensures generation in s.footer.armed
    ensures var t := Expire(s, generation);
      || t == s
      || (s.footer.status == Some(s.footer.armed[generation]) && t == ClearStatus(s))
    ensures generation < s.footer.generation ==> Expire(s, generation) == s
  {
    assert ScheduleStatusExpiry(generation).generation == generation;
  }

  /** The message shown is one the runtime was asked for no timer for. */
  predicate Untimed(s: AppState) {
    !Scheduled(s.log, s.footer.generation)
  }

  function ExpireAll(s: AppState, generations: seq<nat>): AppState {
    if generations == [] then s
    else Expire(ExpireAll(s, generations[..|generations| - 1]), generations[|generations| - 1])
  }

  lemma PinnedIsUntimed(s: AppState, status: Status)
    requires FooterOk(s.footer) && Timed(s.footer, s.log)
    ensures Untimed(PinStatus(s, status))
  {
    if Scheduled(s.log, s.footer.generation + 1) {
      ExpiryClearsItsOwnMessage(s, s.footer.generation + 1);
    }
  }

  /** A pinned message survives every timer the runtime was ever asked for, in any order
      and any number of times. */
  lemma {:induction false} PinnedOutlivesTimers(s: AppState, status: Status, generations: seq<nat>)
    requires FooterOk(s.footer) && Timed(s.footer, s.log)
    requires forall i | 0 <= i < |generations| :: Scheduled(s.log, generations[i])
    ensures ExpireAll(PinStatus(s, status), generations) == PinStatus(s, status)
  {
    if generations != [] {
      PinnedIsUntimed(s, status);
      PinnedOutlivesTimers(s, status, generations[..|generations| - 1]);
    }
  }

  /** The message shown by `SetStatus` goes when its own timer fires, if nothing was
      shown since. */
  lemma TransientGoes(s: AppState, status: Status)
    requires FooterOk(s.footer) && Timed(s.footer, s.log)
    ensures var shown := SetStatus(s, status);
            var generation := shown.footer.generation;
      && !Scheduled(s.log, generation)
      && shown.log == s.log + [ScheduleStatusExpiry(generation)]
      && shown.footer.armed[generation] == status
      && Expire(shown, generation) == ClearStatus(shown)
  {
    PinnedIsUntimed(s, status);
  }

  lemma HandleKeepsFooter(s: AppState, msg: Msg)
    requires QueueMoves(s.core.lifts) && !Busy(s.core, DEFAULT_WORKSPACE)
    ensures FooterKept(s, Handle(s, msg))
  {
    HandleSteps(s, msg);
    var t := Handle(s, msg);
    hide Handle, Acts, KeepsTimers, LogPlain, LogAimless, LiftSummary, CountLift;
    NothingReports(s);
    if Acts(s, t) {
      ActsLeave(s, t);
    }
  }
}
