/** `wait` (src/cli.rs): the verdict over the target Workers, the polling loop with
    its deadline, and what a timeout names as pending. */
module Wait {
  import opened Options

  datatype WorkerStatus = Idle | Busy | Done | Failed

  datatype Worker = Worker(status: WorkerStatus, ticket: Option<string>)

  type Snapshot = map<string, Worker>

  datatype Condition = UntilDone | UntilFailed | UntilTerminal | UntilTicketResolved

  datatype Verdict = Satisfied | Unsatisfied | Pending

  predicate IsTerminal(worker: Worker) {
    worker.status.Done? || worker.status.Failed?
  }

  predicate Satisfies(condition: Condition, worker: Worker, resolved: string -> bool) {
    match condition
    case UntilDone => worker.status.Done?
    case UntilFailed => worker.status.Failed?
    case UntilTerminal => IsTerminal(worker)
    case UntilTicketResolved => worker.ticket.Some? && resolved(worker.ticket.value)
  }

  /** The target reached the condition. */
  predicate Reached(condition: Condition, snapshot: Snapshot, resolved: string -> bool, target: string) {
    target in snapshot && Satisfies(condition, snapshot[target], resolved)
  }

  /** The target can never reach the condition: it left its Pool, or ended otherwise. */
  predicate Lost(condition: Condition, snapshot: Snapshot, resolved: string -> bool, target: string) {
    target !in snapshot || (IsTerminal(snapshot[target]) && !Satisfies(condition, snapshot[target], resolved))
  }

  /** Satisfied if and only if every target reached the condition, unsatisfied if and
      only if some target is lost, whatever the order and repetition of targets. */
  method WaitVerdict(condition: Condition, targets: seq<string>, snapshot: Snapshot, resolved: string -> bool)
    returns (verdict: Verdict)
    ensures verdict == VerdictOf(condition, Distinct(targets), snapshot, resolved)
  {
    var pending := false;
    for i := 0 to |targets|
      invariant forall j | 0 <= j < i :: !Lost(condition, snapshot, resolved, targets[j])
      invariant pending <==> exists j | 0 <= j < i :: !Reached(condition, snapshot, resolved, targets[j])
    {
      var target := targets[i];
      assert target in Distinct(targets);
      if target !in snapshot {
        return Unsatisfied;
      }
      var worker := snapshot[target];
      if Satisfies(condition, worker, resolved) {
        continue;
      }
      if worker.status.Done? || worker.status.Failed? {
        return Unsatisfied;
      }
      pending := true;
    }
    verdict := if pending then Pending else Satisfied;
    if pending {
      var j :| 0 <= j < |targets| && !Reached(condition, snapshot, resolved, targets[j]);
      assert targets[j] in Distinct(targets);
    }
  }

  function Distinct(targets: seq<string>): set<string> {
    set t | t in targets
  }

  /** The verdict as a matter of which targets there are. */
  function VerdictOf(condition: Condition, targets: set<string>, snapshot: Snapshot, resolved: string -> bool): Verdict {
    if exists t | t in targets :: Lost(condition, snapshot, resolved, t) then Unsatisfied
    else if forall t | t in targets :: Reached(condition, snapshot, resolved, t) then Satisfied
    else Pending
  }

  /** No target is both reached and lost, so both verdicts are what they say. */
  lemma VerdictMeaning(condition: Condition, targets: set<string>, snapshot: Snapshot, resolved: string -> bool)
    ensures var verdict := VerdictOf(condition, targets, snapshot, resolved);
            && (verdict == Satisfied <==> forall t | t in targets :: Reached(condition, snapshot, resolved, t))
            && (verdict == Unsatisfied <==> exists t | t in targets :: Lost(condition, snapshot, resolved, t))
  {
    if t :| t in targets && Lost(condition, snapshot, resolved, t) {
      assert !Reached(condition, snapshot, resolved, t);
    }
  }

  /** What each condition waits for, and what a terminal wait can fail for: only a target
      that has left its Pool. */
  lemma ConditionMeaning(targets: set<string>, snapshot: Snapshot, resolved: string -> bool, worker: Worker)
    ensures Satisfies(UntilDone, worker, resolved) <==> worker.status == Done
    ensures Satisfies(UntilFailed, worker, resolved) <==> worker.status == Failed
    ensures Satisfies(UntilTerminal, worker, resolved)
       <==> Satisfies(UntilDone, worker, resolved) || Satisfies(UntilFailed, worker, resolved)
    ensures Satisfies(UntilTicketResolved, worker, resolved)
       <==> exists ticket :: worker.ticket == Some(ticket) && resolved(ticket)
    ensures VerdictOf(UntilTerminal, targets, snapshot, resolved) == Unsatisfied <==> exists t | t in targets :: t !in snapshot
    ensures VerdictOf(UntilDone, targets, snapshot, resolved) == Unsatisfied
       <==> exists t | t in targets :: t !in snapshot || snapshot[t].status == Failed
    ensures VerdictOf(UntilFailed, targets, snapshot, resolved) == Unsatisfied
       <==> exists t | t in targets :: t !in snapshot || snapshot[t].status == Done
  {
    VerdictMeaning(UntilTerminal, targets, snapshot, resolved);
    VerdictMeaning(UntilDone, targets, snapshot, resolved);
    VerdictMeaning(UntilFailed, targets, snapshot, resolved);
    assert forall t :: Lost(UntilTerminal, snapshot, resolved, t) <==> t !in snapshot;
    assert forall t :: Lost(UntilDone, snapshot, resolved, t) <==> t !in snapshot || snapshot[t].status == Failed;
    assert forall t :: Lost(UntilFailed, snapshot, resolved, t) <==> t !in snapshot || snapshot[t].status == Done;
    hide VerdictOf;
  }

  // ----- What a timeout names -----

  /** The target is not in a terminal state, as far as the snapshot knows. */
  predicate NotTerminal(snapshot: Snapshot, target: string) {
    target in snapshot ==> !IsTerminal(snapshot[target])
  }

  function PendingWorkers(targets: seq<string>, snapshot: Snapshot): seq<string> {
    if targets == [] then []
    else
      (if NotTerminal(snapshot, targets[0]) then [targets[0]] else []) + PendingWorkers(targets[1..], snapshot)
  }

  lemma {:induction false} PendingMembers(targets: seq<string>, snapshot: Snapshot, target: string)
    ensures target in PendingWorkers(targets, snapshot) <==> target in targets && NotTerminal(snapshot, target)
  {
    if targets != [] {
      assert targets == [targets[0]] + targets[1..];
      PendingMembers(targets[1..], snapshot, target);
    }
  }

  /** On a pending verdict the diagnostic names at least one Worker and every target
      that has not reached the condition. For done, failed and terminal it names
      those alone. */
  lemma TimeoutNamesPending(condition: Condition, targets: seq<string>, snapshot: Snapshot, resolved: string -> bool)
    requires VerdictOf(condition, Distinct(targets), snapshot, resolved) == Pending
    ensures PendingWorkers(targets, snapshot) != []
    ensures forall t | t in targets && !Reached(condition, snapshot, resolved, t) :: t in PendingWorkers(targets, snapshot)
    ensures condition != UntilTicketResolved ==>
      forall t :: t in PendingWorkers(targets, snapshot) <==> t in targets && !Reached(condition, snapshot, resolved, t)
  {
    forall t
      ensures t in PendingWorkers(targets, snapshot) <==> t in targets && NotTerminal(snapshot, t)
    {
      PendingMembers(targets, snapshot, t);
    }
    var all := Distinct(targets);
    assert forall t | t in targets :: t in all && !Lost(condition, snapshot, resolved, t);
    var t :| t in all && !Reached(condition, snapshot, resolved, t);
    assert t in PendingWorkers(targets, snapshot);
  }

  /** For any pending verdict, the diagnostic is exact if and only if no running
      target already reached the condition, which only a resolved Ticket can do. */
  lemma TimeoutIsExactIff(condition: Condition, targets: seq<string>, snapshot: Snapshot, resolved: string -> bool)
    requires VerdictOf(condition, Distinct(targets), snapshot, resolved) == Pending
    ensures (forall t :: t in PendingWorkers(targets, snapshot) <==> t in targets && !Reached(condition, snapshot, resolved, t))
            <==> forall t | t in targets && t in snapshot && !IsTerminal(snapshot[t]) ::
                   !(condition == UntilTicketResolved && snapshot[t].ticket.Some? && resolved(snapshot[t].ticket.value))
  {
    forall t
      ensures t in PendingWorkers(targets, snapshot) <==> t in targets && NotTerminal(snapshot, t)
    {
      PendingMembers(targets, snapshot, t);
    }
    var all := Distinct(targets);
    assert forall t | t in targets :: t in all && !Lost(condition, snapshot, resolved, t);
  }

  /** It can then name a Worker that is not what the wait is held up by. */
  lemma TimeoutCanNameAResolvedWorker(snapshot: Snapshot, targets: seq<string>)
    requires snapshot == map["a" := Worker(Busy, Some("t")), "b" := Worker(Busy, Some("u"))] && targets == ["a", "b"]
    ensures var resolved := (ticket: string) => ticket == "t";
            && VerdictOf(UntilTicketResolved, Distinct(targets), snapshot, resolved) == Pending
            && "a" in PendingWorkers(targets, snapshot)
            && Reached(UntilTicketResolved, snapshot, resolved, "a")
  {
    var resolved := (ticket: string) => ticket == "t";
    assert "a"[0] != "b"[0] && "t"[0] != "u"[0];
    assert targets[0] in targets && targets[1] in targets;
    assert !Reached(UntilTicketResolved, snapshot, resolved, "b");
    assert "b" in Distinct(targets);
    PendingMembers(targets, snapshot, "a");
  }

  /** On a pending verdict every target is non-terminal exactly when no target has
      reached the condition; for a Ticket's resolution, exactly when no finished
      target's Ticket is resolved. */
  lemma NoneIsTerminalIff(condition: Condition, targets: seq<string>, snapshot: Snapshot, resolved: string -> bool)
    requires VerdictOf(condition, Distinct(targets), snapshot, resolved) == Pending
    ensures condition != UntilTicketResolved ==>
      ((forall t | t in targets :: NotTerminal(snapshot, t))
       <==> forall t | t in targets :: !Reached(condition, snapshot, resolved, t))
    ensures condition == UntilTicketResolved ==>
      ((forall t | t in targets :: NotTerminal(snapshot, t))
       <==> forall t | t in targets && t in snapshot && IsTerminal(snapshot[t]) ::
              !(snapshot[t].ticket.Some? && resolved(snapshot[t].ticket.value)))
  {
    var all := Distinct(targets);
    assert forall t | t in targets :: t in all && !Lost(condition, snapshot, resolved, t);
  }

  /** A target that is done satisfies the wait for it, is terminal, and is left out. */
  lemma TimeoutCanSkipADoneTarget(snapshot: Snapshot, targets: seq<string>, resolved: string -> bool)
    requires snapshot == map["a" := Worker(Done, None), "b" := Worker(Busy, None)] && targets == ["a", "b"]
    ensures VerdictOf(UntilDone, Distinct(targets), snapshot, resolved) == Pending
    ensures "a" in targets && !NotTerminal(snapshot, "a")
    ensures PendingWorkers(targets, snapshot) == ["b"]
  {
    assert "a"[0] != "b"[0];
    assert targets[0] == "a" && targets[1] == "b";
    assert "b" in Distinct(targets) && !Reached(UntilDone, snapshot, resolved, "b");
    assert targets[1..] == ["b"] && ["b"][1..] == [];
    assert PendingWorkers([], snapshot) == [];
    assert PendingWorkers(["b"], snapshot) == ["b"] + [];
  }

  // ----- The loop -----

  datatype Outcome = Decided(verdict: Verdict) | TimedOut(pending: seq<string>)

  /** What the passes of one wait observe: the reconciled Pool, the resolution of
      Tickets and the clock, which does not stand still. */
  datatype World = World(snapshot: nat -> Snapshot, resolved: nat -> string -> bool, clock: nat -> nat)

  ghost predicate Advances(world: World) {
    forall pass: nat :: world.clock(pass) < world.clock(pass + 1)
  }

  function VerdictAt(condition: Condition, targets: seq<string>, world: World, pass: nat): Verdict {
    VerdictOf(condition, Distinct(targets), world.snapshot(pass), world.resolved(pass))
  }

  predicate Expired(deadline: Option<nat>, world: World, pass: nat) {
    deadline.Some? && deadline.value <= world.clock(pass)
  }

  /** The pass settles the wait. */
  predicate Settles(condition: Condition, targets: seq<string>, deadline: Option<nat>, world: World, pass: nat) {
    VerdictAt(condition, targets, world, pass) != Pending || Expired(deadline, world, pass)
  }

  lemma {:induction false} ClockGrows(world: World, pass: nat)
    requires Advances(world)
    ensures world.clock(pass) >= pass
  {
    if pass > 0 {
      ClockGrows(world, pass - 1);
      assert world.clock(pass - 1) < world.clock(pass - 1 + 1);
    }
  }

  /** With a timeout and an advancing clock, some pass settles the wait. */
  lemma DeadlineSettles(condition: Condition, targets: seq<string>, deadline: Option<nat>, world: World)
    requires Advances(world) && deadline.Some?
    ensures Settles(condition, targets, deadline, world, deadline.value)
  {
    ClockGrows(world, deadline.value);
  }

  /** The wait is decided by the first pass that settles it: by its verdict if that
      is not pending, even on the pass the deadline falls on, and by the timeout
      otherwise. It ends if there is a timeout or some pass has a verdict; `bound` is
      a pass that settles it. */
  method WaitLoop(
    condition: Condition, targets: seq<string>, deadline: Option<nat>, world: World, ghost bound: nat)
    returns (outcome: Outcome, pass: nat)
    requires Settles(condition, targets, deadline, world, bound)
    ensures Settles(condition, targets, deadline, world, pass)
    ensures forall earlier: nat | earlier < pass :: !Settles(condition, targets, deadline, world, earlier)
    ensures outcome == var verdict := VerdictAt(condition, targets, world, pass);
                       if verdict != Pending then Decided(verdict)
                       else TimedOut(PendingWorkers(targets, world.snapshot(pass)))
  {
    pass := 0;
    while true
      invariant pass <= bound
      invariant forall earlier: nat | earlier < pass :: !Settles(condition, targets, deadline, world, earlier)
      decreases bound - pass
    {
      var snapshot := world.snapshot(pass);
      var verdict := WaitVerdict(condition, targets, snapshot, world.resolved(pass));
      match verdict {
        case Satisfied => return Decided(Satisfied), pass;
        case Unsatisfied => return Decided(Unsatisfied), pass;
        case Pending =>
      }
      if deadline.Some? && world.clock(pass) >= deadline.value {
        return TimedOut(PendingWorkers(targets, snapshot)), pass;
      }
      pass := pass + 1;
    }
  }

  /** A wait with a timeout always ends, no later than the pass numbered as the
      deadline. */
  method WaitWithTimeout(condition: Condition, targets: seq<string>, deadline: nat, world: World)
    returns (outcome: Outcome, pass: nat)
    requires Advances(world)
    ensures pass <= deadline
    ensures forall earlier: nat | earlier < pass :: !Settles(condition, targets, Some(deadline), world, earlier)
    ensures outcome.TimedOut? ==>
      && world.clock(pass) >= deadline
      && VerdictAt(condition, targets, world, pass) == Pending
      && outcome.pending != []
    ensures outcome.Decided? ==> outcome.verdict == VerdictAt(condition, targets, world, pass) != Pending
  {
    DeadlineSettles(condition, targets, Some(deadline), world);
    outcome, pass := WaitLoop(condition, targets, Some(deadline), world, deadline);
    if outcome.TimedOut? {
      TimeoutNamesPending(condition, targets, world.snapshot(pass), world.resolved(pass));
    }
  }
}
