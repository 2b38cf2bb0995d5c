/** What the event loop keeps over every run: any interleaving of key presses and
    watcher messages with completions and timers that arrive late, out of order or more
    than once. */
module AppRuns {
  import opened Options
  import opened App
  import opened AppSteps
  import opened AppExclusion
  import opened AppLifts
  import opened AppIdentities

  /** The App beside what the runtime has answered: the lifts that finished, and the
      results since the lift queue was last idle. */
  datatype System = System(app: AppState, finished: seq<LiftJob>, batch: seq<LiftResult>)

  function Boot(store: Store, world: bool): System {
    System(Start(store, world), [], [])
  }

  /** All that is assumed of the runtime: every store lists the default workspace, and
      each lift asked for is answered at most once, with its own job. */
  predicate Enabled(s: System, msg: Msg) {
    ListsDefault(msg) && (msg.Lifted? ==> Answers(s.app.log, s.finished, msg.job))
  }

  function Deliver(s: System, msg: Msg): System {
    var app := Handle(s.app, msg);
    if msg.Lifted? then System(app, s.finished + [msg.job], BatchAfter(s.app.core.lifts, s.batch, msg.result))
    else s.(app := app)
  }

  function Run(s: System, msgs: seq<Msg>): System {
    if msgs == [] then s else Deliver(Run(s, msgs[..|msgs| - 1]), msgs[|msgs| - 1])
  }

  predicate Admissible(s: System, msgs: seq<Msg>) {
    msgs == [] || (
      && Admissible(s, msgs[..|msgs| - 1])
      && Enabled(Run(s, msgs[..|msgs| - 1]), msgs[|msgs| - 1]))
  }

  predicate Inv(s: System) {
    && Exclusive(s.app.core) && Serial(s.app, s.finished, s.batch) && Identified(s.app)
    && FooterOk(s.app.footer) && Timed(s.app.footer, s.app.log)
  }

  lemma BootsSafely(store: Store, world: bool)
    requires Lists(store, DEFAULT_WORKSPACE)
    ensures Inv(Boot(store, world))
  {
  }

  lemma CalmAndSound(s: System)
    requires Inv(s)
    ensures QueueMoves(s.app.core.lifts) && !Busy(s.app.core, DEFAULT_WORKSPACE)
  {
  }

  lemma DeliverStaysSerial(s: System, msg: Msg)
    requires Inv(s) && Enabled(s, msg)
    ensures var t := Deliver(s, msg); Serial(t.app, t.finished, t.batch)
  {
    CalmAndSound(s);
    hide Serial, Exclusive, Identified, FooterOk, OnLifted, OnKey, Answers;
    match msg
    case Lifted(job, result) =>
      LiftedSteps(s.app, job, result);
      SettlesSerially(s.app, OnLifted(s.app, job, result), s.finished, s.batch, job, result);
    case _ =>
      OthersStaySerial(s.app, msg, s.finished, s.batch);
      hide Handle;
  }

  lemma FooterStaysOk(s: AppState, msg: Msg)
    requires QueueMoves(s.core.lifts) && !Busy(s.core, DEFAULT_WORKSPACE) && FooterOk(s.footer) && Timed(s.footer, s.log)
    ensures FooterOk(Handle(s, msg).footer) && Timed(Handle(s, msg).footer, Handle(s, msg).log)
  {
    HandleKeepsFooter(s, msg);
    hide Handle;
  }

  lemma DeliverKeepsInv(s: System, msg: Msg)
    requires Inv(s) && Enabled(s, msg)
    ensures Inv(Deliver(s, msg))
  {
    hide Handle, Exclusive, Identified, Serial, FooterOk;
    CalmAndSound(s);
    HandleExcludes(s.app, msg);
    HandleIdentifies(s.app, msg);
    FooterStaysOk(s.app, msg);
    DeliverStaysSerial(s, msg);
  }

  /** The invariant holds at the end of every run, and with it, in every reachable
      state, everything proved of a state that satisfies it. */
  lemma {:induction false} RunsKeepInv(s: System, msgs: seq<Msg>)
    requires Inv(s) && Admissible(s, msgs)
    ensures Inv(Run(s, msgs))
  {
    hide Inv, Enabled, Deliver;
    if msgs != [] {
      RunsKeepInv(s, msgs[..|msgs| - 1]);
      DeliverKeepsInv(Run(s, msgs[..|msgs| - 1]), msgs[|msgs| - 1]);
    }
  }

  // ----- Setup and deletion -----

  /** In every reachable state nothing is being set up and deleted at once, and a
      message emits an effect aimed at a busy workspace exactly when it starts a queued
      lift, or opens a created workspace, that has become busy: never a key press. */
  lemma ReachableAims(store: Store, world: bool, msgs: seq<Msg>, msg: Msg)
    requires Lists(store, DEFAULT_WORKSPACE) && Admissible(Boot(store, world), msgs)
    ensures var s := Run(Boot(store, world), msgs).app;
      && (s.core.pendingDeletion.Some? && s.core.pendingWorkspace.Some? ==>
            s.core.pendingDeletion.value.workspace.name != s.core.pendingWorkspace.value.name)
      && (LogClear(s.core, s.log, Handle(s, msg).log) <==> !Strays(s, msg))
      && (msg.KeyPress? ==> LogClear(s.core, s.log, Handle(s, msg).log))
  {
    BootsSafely(store, world);
    RunsKeepInv(Boot(store, world), msgs);
    CalmAndSound(Run(Boot(store, world), msgs));
    ClearIff(Run(Boot(store, world), msgs).app, msg);
    hide Handle, LogClear, Run, Serial, Identified, FooterOk;
  }

  // ----- Lifts -----

  function Settled(msgs: seq<Msg>): nat {
    if msgs == [] then 0
    else Settled(msgs[..|msgs| - 1]) + (if msgs[|msgs| - 1].Lifted? then 1 else 0)
  }

  lemma {:induction false} RunFinishesWhatSettles(s: System, msgs: seq<Msg>)
    ensures |Run(s, msgs).finished| == |s.finished| + Settled(msgs)
    ensures s.finished <= Run(s, msgs).finished
  {
    hide Handle, BatchAfter;
    if msgs != [] {
      RunFinishesWhatSettles(s, msgs[..|msgs| - 1]);
    }
  }

  lemma HandleOnlyAccepts(s: AppState, msg: Msg)
    requires QueueMoves(s.core.lifts) && !Busy(s.core, DEFAULT_WORKSPACE)
    ensures s.core.lifts.accepted <= Handle(s, msg).core.lifts.accepted
  {
    hide Handle, Acts, KeepsTimers, LogPlain, LogAimless, LiftSummary, RestoreWorkspace;
    HandleSteps(s, msg);
    var t := Handle(s, msg);
    if Acts(s, t) {
      ActsLeave(s, t);
    }
  }

  lemma {:induction false} RunOnlyAccepts(s: System, msgs: seq<Msg>)
    requires Inv(s) && Admissible(s, msgs)
    ensures s.app.core.lifts.accepted <= Run(s, msgs).app.core.lifts.accepted
  {
    hide Handle, Inv, Enabled, BatchAfter;
    if msgs != [] {
      var front := msgs[..|msgs| - 1];
      RunOnlyAccepts(s, front);
      RunsKeepInv(s, front);
      CalmAndSound(Run(s, front));
      HandleOnlyAccepts(Run(s, front).app, msgs[|msgs| - 1]);
    }
  }

  /** Over every run, lifts finish in the order they were accepted: what finished, then
      what runs, then what waits, is what was accepted. So the work outstanding changes
      by what was accepted less what settled. */
  lemma LiftsAreConserved(s: System, msgs: seq<Msg>)
    requires Inv(s) && Admissible(s, msgs)
    ensures var t := Run(s, msgs);
            var before, after := s.app.core.lifts, t.app.core.lifts;
      && after.accepted == t.finished + Outstanding(after)
      && LiftsOf(t.app.log) == t.finished + Running(after)
      && Distinct(Outstanding(after)) && QueueMoves(after)
      && |Outstanding(after)| == |Outstanding(before)| + (|after.accepted| - |before.accepted|) - Settled(msgs)
  {
    RunsKeepInv(s, msgs);
    RunFinishesWhatSettles(s, msgs);
    hide Run, LiftsOf, Outstanding;
  }

  /** If nothing new is accepted, the queue is idle after as many completions as it had
      jobs in flight and waiting, and they finished in that order. */
  lemma QueueDrains(s: System, msgs: seq<Msg>)
    requires Inv(s) && Admissible(s, msgs)
    requires |Run(s, msgs).app.core.lifts.accepted| == |s.app.core.lifts.accepted|
    requires Settled(msgs) == |Outstanding(s.app.core.lifts)|
    ensures var t := Run(s, msgs);
      && t.app.core.lifts.inFlight.None? && t.app.core.lifts.queue == []
      && t.finished == s.finished + Outstanding(s.app.core.lifts)
  {
    LiftsAreConserved(s, msgs);
    RunOnlyAccepts(s, msgs);
    var t := Run(s, msgs);
    assert t.app.core.lifts.accepted == s.app.core.lifts.accepted;
    assert s.app.core.lifts.accepted == s.finished + Outstanding(s.app.core.lifts);
    hide Run, LiftsOf, Distinct;
    assert Outstanding(t.app.core.lifts) == [];
    assert |t.app.core.lifts.queue| == 0;
  }

  /** And it never waits for good: the answer of the job in flight may always come. */
  lemma JobInFlightMayFinish(s: System, result: LiftResult)
    requires Inv(s) && s.app.core.lifts.inFlight.Some?
    ensures Enabled(s, Lifted(s.app.core.lifts.inFlight.value, result))
  {
  }

  // ----- Quitting -----

  /** Some quit was asked for along the run. */
  predicate QuitAsked(s: System, msgs: seq<Msg>) {
    msgs != [] && (
      || QuitAsked(s, msgs[..|msgs| - 1])
      || AsksToQuit(Run(s, msgs[..|msgs| - 1]).app, msgs[|msgs| - 1]))
  }

  /** From a pending deletion on, through any run without its answer. */
  lemma {:induction false} QuitWaitsForTheDeletion(s: System, msgs: seq<Msg>)
    requires Inv(s) && Admissible(s, msgs)
    requires s.app.core.pendingDeletion.Some? && !s.app.core.shouldQuit
    requires forall i | 0 <= i < |msgs| :: !IsAnswerTo(msgs[i], s.app.core.pendingDeletion.value)
    ensures var t := Run(s, msgs).app.core;
      && t.pendingDeletion == s.app.core.pendingDeletion
      && !t.shouldQuit
      && (t.quitAfterDeletion <==> s.app.core.quitAfterDeletion || QuitAsked(s, msgs))
  {
    hide Handle, Inv, Enabled, BatchAfter;
    if msgs != [] {
      var front, last := msgs[..|msgs| - 1], msgs[|msgs| - 1];
      QuitWaitsForTheDeletion(s, front);
      RunsKeepInv(s, front);
      CalmAndSound(Run(s, front));
      PendingUntilAnswered(Run(s, front).app, last);
      QuitWaits(Run(s, front).app, last);
    }
  }

  /** A deletion just started, any run, then its answer: the program ends with that
      answer exactly when a quit was asked for meanwhile and the deletion succeeded. */
  lemma QuitTakesEffectIff(s: System, msgs: seq<Msg>, failure: Option<string>, store: Option<Store>)
    requires Inv(s) && Admissible(s, msgs)
    requires s.app.core.pendingDeletion.Some? && !s.app.core.shouldQuit && !s.app.core.quitAfterDeletion
    requires forall i | 0 <= i < |msgs| :: !IsAnswerTo(msgs[i], s.app.core.pendingDeletion.value)
    ensures var pending := s.app.core.pendingDeletion.value;
            var answer := DeletionCompleted(pending.operation, pending.workspace, failure, store);
            var t := Deliver(Run(s, msgs), answer);
      && t.app.core.pendingDeletion.None?
      && (t.app.core.shouldQuit <==> QuitAsked(s, msgs) && failure.None?)
  {
    hide Run, QuitAsked, OnDeletionCompleted, Admissible, Inv;
    QuitWaitsForTheDeletion(s, msgs);
    AnswerDecidesQuit(Run(s, msgs).app, failure, store);
  }

  // ----- Timers -----

  lemma {:induction false} RunKeepsFooter(s: System, msgs: seq<Msg>)
    requires Inv(s) && Admissible(s, msgs)
    ensures FooterKept(s.app, Run(s, msgs).app)
  {
    hide Handle, Inv, Enabled, BatchAfter;
    if msgs == [] {
      NothingReports(s.app);
    } else {
      var front, last := msgs[..|msgs| - 1], msgs[|msgs| - 1];
      RunKeepsFooter(s, front);
      RunsKeepInv(s, front);
      CalmAndSound(Run(s, front));
      HandleKeepsFooter(Run(s, front).app, last);
      FooterKeptChain(s.app, Run(s, front).app, Run(s, msgs).app);
    }
  }

  lemma InvTimers(s: System)
    requires Inv(s)
    ensures FooterOk(s.app.footer) && Timed(s.app.footer, s.app.log)
  {
  }

  /** A message pinned at `s` is never cleared by a timer, however many messages later:
      as long as nothing replaced it, every timer asked for by then fires in vain. */
  lemma PinnedUntilReplaced(s: System, msgs: seq<Msg>, generation: nat)
    requires Inv(s) && Admissible(s, msgs) && Untimed(s.app)
    requires Run(s, msgs).app.footer.generation == s.app.footer.generation
    requires Scheduled(Run(s, msgs).app.log, generation)
    ensures Handle(Run(s, msgs).app, StatusExpired(generation)) == Run(s, msgs).app
  {
    RunKeepsFooter(s, msgs);
    RunsKeepInv(s, msgs);
    InvTimers(s);
    InvTimers(Run(s, msgs));
    ExpiryClearsItsOwnMessage(Run(s, msgs).app, generation);
    hide Run;
  }

  // ----- Two runs that stray -----

  function At(name: string): View {
    View(Some(name), false, {}, 0, name, true, false, false, PoolStep(None, false, Silent))
  }

  lemma RunSnoc(s: System, msgs: seq<Msg>, msg: Msg)
    ensures Run(s, msgs + [msg]) == Deliver(Run(s, msgs), msg)
    ensures Admissible(s, msgs + [msg]) <==> Admissible(s, msgs) && Enabled(Run(s, msgs), msg)
  {
    assert (msgs + [msg])[..|msgs|] == msgs;
  }

  lemma RunTwo(s: System, msgs: seq<Msg>, m1: Msg, m2: Msg)
    requires Admissible(s, msgs) && (m1.KeyPress? || m1.SetupCompleted?) && (m2.KeyPress? || m2.SetupCompleted?)
    ensures Run(s, msgs + [m1] + [m2]) == Deliver(Deliver(Run(s, msgs), m1), m2)
    ensures Admissible(s, msgs + [m1] + [m2])
  {
    hide Handle, Run, Admissible;
    RunSnoc(s, msgs, m1);
    RunSnoc(s, msgs + [m1], m2);
  }

  /** `r` on a workspace that is not busy. */
  lemma PressLift(s: AppState, w: Workspace)
    requires s.core.mode.Normal? && Find(s.core.store, w.name) == Some(w) && !Busy(s.core, w.name)
    ensures Handle(s, KeyPress(Char('r'), At(w.name))) == EnqueueLift(s, LiftWorkspace(w.name))
  {
    hide Find, EnqueueLift;
  }

  /** `d` and then `y` on a workspace that is not busy. */
  lemma PressDelete(s: AppState, w: Workspace)
    requires s.core.mode.Normal? && Find(s.core.store, w.name) == Some(w) && !Busy(s.core, w.name)
    requires w.name != DEFAULT_WORKSPACE && s.core.pendingDeletion.None?
    ensures var t := Handle(Handle(s, KeyPress(Char('d'), At(w.name))), KeyPress(Char('y'), At(w.name)));
      && IsDeleting(t.core, w.name)
      && t.core.lifts == s.core.lifts && t.core.pendingCreatedOpen == s.core.pendingCreatedOpen
      && t.core.store == s.core.store
  {
    var asked := Handle(s, KeyPress(Char('d'), At(w.name)));
    assert asked == InMode(ClearStatus(s), ConfirmDelete(w.name)) by {
      hide Find, RefuseIfConfiguring;
      RefusalIsQuiet(ClearStatus(s), w.name);
    }
    hide Find, BeginDeleteSelected;
  }

  /** `n`, one character and Enter. */
  lemma PressCreate(s: AppState, name: char)
    requires s.core.mode.Normal? && s.core.pendingWorkspace.None? && !Lists(s.core.store, [name])
    requires name != '?'
    ensures var view := At([name]);
            var t := Handle(Handle(Handle(s, KeyPress(Char('n'), view)), KeyPress(Char(name), view)), KeyPress(Enter, view));
      t.core == s.core.(pendingWorkspace := Some(PendingWorkspace([name], [name], 0)))
  {
    var view := At([name]);
    var s1 := Handle(s, KeyPress(Char('n'), view));
    assert s1.core == s.core.(mode := NewWorkspace(""));
    var s2 := Handle(s1, KeyPress(Char(name), view));
    assert s2.core == s.core.(mode := NewWorkspace([name])) by {
      assert "" + [name] == [name];
      hide KeyNormal;
    }
    hide KeyNormal, Find;
  }

  /** From any idle state with two workspaces, `r` on one, `r` on the other, `d` and `y`
      on the other: its lift waits while it is being deleted. */
  lemma LiftLiftDelete(s: AppState, a: Workspace, b: Workspace)
    requires s.core.mode.Normal? && s.core.pendingDeletion.None? && s.core.pendingWorkspace.None?
    requires s.core.lifts.inFlight.None? && s.core.lifts.queue == []
    requires Find(s.core.store, a.name) == Some(a) && Find(s.core.store, b.name) == Some(b)
    requires a.name != b.name && b.name != DEFAULT_WORKSPACE
    ensures var r, r', d, y := KeyPress(Char('r'), At(a.name)), KeyPress(Char('r'), At(b.name)),
                               KeyPress(Char('d'), At(b.name)), KeyPress(Char('y'), At(b.name));
            var t := Handle(Handle(Handle(Handle(s, r), r'), d), y);
      && IsDeleting(t.core, b.name)
      && t.core.lifts.queue == [LiftWorkspace(b.name)]
      && t.core.lifts.inFlight == Some(LiftWorkspace(a.name))
  {
    hide Find, Handle;
    PressLift(s, a);
    var s1 := EnqueueLift(s, LiftWorkspace(a.name));
    PressLift(s1, b);
    PressDelete(EnqueueLift(s1, LiftWorkspace(b.name)), b);
  }

  /** `r` on "a", `r` on "b", `d` and `y` on "b", and then the first lift ends: "b" is
      lifted while it is being deleted. */
  lemma QueuedLiftCanStray()
    ensures exists store, msgs, msg ::
      && Lists(store, DEFAULT_WORKSPACE) && Admissible(Boot(store, false), msgs)
      && Enabled(Run(Boot(store, false), msgs), msg)
      && Strays(Run(Boot(store, false), msgs).app, msg) && msg.Lifted?
  {
    var a, b := Workspace("a", Present("a")), Workspace("b", Present("b"));
    var store := [Workspace(DEFAULT_WORKSPACE, NotKnown), a, b];
    FindsSecond(store[0], a, b);
    var s0 := Boot(store, false);
    LiftLiftDelete(s0.app, a, b);
    BootsSafely(store, false);
    hide *;
    var m1, m2 := KeyPress(Char('r'), At("a")), KeyPress(Char('r'), At("b"));
    var m3, m4 := KeyPress(Char('d'), At("b")), KeyPress(Char('y'), At("b"));
    var msgs := FourKeys(s0, m1, m2, m3, m4);
    RunsKeepInv(s0, msgs);
    JobInFlightMayFinish(Run(s0, msgs), UpToDate);
    WaitingLiftStrays(Run(s0, msgs).app, "b", LiftWorkspace("a"), UpToDate);
  }

  lemma FourKeys(s: System, m1: Msg, m2: Msg, m3: Msg, m4: Msg) returns (msgs: seq<Msg>)
    requires m1.KeyPress? && m2.KeyPress? && m3.KeyPress? && m4.KeyPress?
    ensures Admissible(s, msgs)
    ensures Run(s, msgs).app == Handle(Handle(Handle(Handle(s.app, m1), m2), m3), m4)
  {
    hide *;
    EmptyRun(s);
    RunTwo(s, [], m1, m2);
    RunTwo(s, [] + [m1] + [m2], m3, m4);
    msgs := [] + [m1] + [m2] + [m3] + [m4];
    DeliverKey(s, m1);
    DeliverKey(Deliver(s, m1), m2);
    DeliverKey(Deliver(Deliver(s, m1), m2), m3);
    DeliverKey(Deliver(Deliver(Deliver(s, m1), m2), m3), m4);
  }

  lemma FindsSecond(first: Workspace, a: Workspace, b: Workspace)
    requires first.name != a.name && first.name != b.name && a.name != b.name
    ensures Find([first, a, b], a.name) == Some(a) && Find([first, a, b], b.name) == Some(b)
  {
    assert [first, a, b][1..] == [a, b] && [a, b][1..] == [b];
    assert Find([b], b.name) == Some(b);
    assert Find([a, b], b.name) == Some(b);
  }

  lemma DeliverKey(s: System, msg: Msg)
    requires !msg.Lifted?
    ensures Deliver(s, msg).app == Handle(s.app, msg)
  {
    hide Handle;
  }

  lemma WaitingLiftStrays(s: AppState, name: string, job: LiftJob, result: LiftResult)
    requires IsDeleting(s.core, name) && s.core.lifts.queue == [LiftWorkspace(name)]
    ensures Strays(s, Lifted(job, result))
  {
  }

  lemma EmptyRun(s: System)
    ensures Run(s, []) == s && Admissible(s, [])
  {
  }

  /** The store comes to list the workspace being set up; its setup then succeeds. */
  lemma SetupEnds(s: AppState, store: Store, setup: PendingWorkspace)
    requires s.core.pendingWorkspace == Some(setup) && s.core.pendingCreatedOpen.None?
    requires s.core.pendingDeletion.None?
    ensures var t := Handle(Handle(s, StoreReloaded(store, false)), SetupCompleted(setup, SetupDone));
      t.core == s.core.(
        store := store, pendingWorkspace := None, pendingCreatedOpen := Some((setup.name, setup.path)))
  {
    StoreReloadedSteps(s, store, false);
    hide OnStoreReloaded, KeepsTimers, LogPlain;
  }

  /** `n`, `c` and Enter start the setup of "c"; the store comes to list it; its setup
      succeeds; `d` and `y` on "c" start its deletion; and then the reload that the
      setup asked for opens "c" while it is being deleted. */
  lemma CreatedWorkspaceCanStray()
    ensures exists store, msgs, msg ::
      && Lists(store, DEFAULT_WORKSPACE) && Admissible(Boot(store, false), msgs)
      && Enabled(Run(Boot(store, false), msgs), msg)
      && Strays(Run(Boot(store, false), msgs).app, msg) && msg.StoreReloaded?
  {
    var store, c := [Workspace(DEFAULT_WORKSPACE, NotKnown)], Workspace("c", Present("c"));
    var grown, view := store + [c], At("c");
    var setup := PendingWorkspace("c", "c", 0);
    assert store[1..] == [] && grown[1..] == [c];
    assert Find(store, "c") == None && Find([c], "c") == Some(c) && Find(grown, "c") == Some(c);
    assert Lists(grown, DEFAULT_WORKSPACE);
    var s0 := Boot(store, false);
    var m1, m2, m3 := KeyPress(Char('n'), view), KeyPress(Char('c'), view), KeyPress(Enter, view);
    var m4, m5 := StoreReloaded(grown, false), SetupCompleted(setup, SetupDone);
    var m6, m7 := KeyPress(Char('d'), view), KeyPress(Char('y'), view);
    CreateThenDelete(s0.app, grown, 'c', c);
    hide *;
    var msgs := SevenMessages(s0, m1, m2, m3, m4, m5, m6, m7);
    ReloadIsEnabled(Run(s0, msgs), grown, true);
    StraysOnReload(Run(s0, msgs).app, grown, c);
  }

  lemma SevenMessages(s: System, m1: Msg, m2: Msg, m3: Msg, m4: Msg, m5: Msg, m6: Msg, m7: Msg)
    returns (msgs: seq<Msg>)
    requires m1.KeyPress? && m2.KeyPress? && m3.KeyPress? && m5.SetupCompleted? && m6.KeyPress? && m7.KeyPress?
    requires m4.StoreReloaded? && Lists(m4.store, DEFAULT_WORKSPACE)
    ensures Admissible(s, msgs)
    ensures Run(s, msgs).app
         == Handle(Handle(Handle(Handle(Handle(Handle(Handle(s.app, m1), m2), m3), m4), m5), m6), m7)
  {
    hide *;
    EmptyRun(s);
    RunTwo(s, [], m1, m2);
    var two := [] + [m1] + [m2];
    RunSnoc(s, two, m3);
    KeysAreEnabled(Run(s, two), m3);
    RunSnoc(s, two + [m3], m4);
    ReloadIsEnabled(Run(s, two + [m3]), m4.store, m4.isDir);
    RunTwo(s, two + [m3] + [m4], m5, m6);
    RunSnoc(s, two + [m3] + [m4] + [m5] + [m6], m7);
    KeysAreEnabled(Run(s, two + [m3] + [m4] + [m5] + [m6]), m7);
    msgs := two + [m3] + [m4] + [m5] + [m6] + [m7];
    DeliverKey(s, m1);
    DeliverKey(Deliver(s, m1), m2);
    DeliverKey(Run(s, two), m3);
    DeliverKey(Run(s, two + [m3]), m4);
    DeliverKey(Run(s, two + [m3] + [m4]), m5);
    DeliverKey(Deliver(Run(s, two + [m3] + [m4]), m5), m6);
    DeliverKey(Run(s, two + [m3] + [m4] + [m5] + [m6]), m7);
  }

  lemma KeysAreEnabled(s: System, msg: Msg)
    requires msg.KeyPress?
    ensures Enabled(s, msg)
  {
  }

  lemma ReloadIsEnabled(s: System, store: Store, isDir: bool)
    requires Lists(store, DEFAULT_WORKSPACE)
    ensures Enabled(s, StoreReloaded(store, isDir))
  {
  }

  lemma CreateThenDelete(s: AppState, grown: Store, name: char, c: Workspace)
    requires s.core.mode.Normal? && s.core.pendingDeletion.None? && s.core.pendingWorkspace.None?
    requires s.core.pendingCreatedOpen.None?
    requires !Lists(s.core.store, [name]) && name != '?' && [name] != DEFAULT_WORKSPACE
    requires c == Workspace([name], Present([name])) && Find(grown, [name]) == Some(c)
    ensures var view := At([name]);
            var created := Handle(Handle(Handle(s, KeyPress(Char('n'), view)), KeyPress(Char(name), view)), KeyPress(Enter, view));
            var setup := PendingWorkspace([name], [name], 0);
            var ready := Handle(Handle(created, StoreReloaded(grown, false)), SetupCompleted(setup, SetupDone));
            var t := Handle(Handle(ready, KeyPress(Char('d'), view)), KeyPress(Char('y'), view));
      IsDeleting(t.core, [name]) && t.core.pendingCreatedOpen == Some(([name], [name]))
  {
    hide Handle, Find;
    var view := At([name]);
    PressCreate(s, name);
    var created := Handle(Handle(Handle(s, KeyPress(Char('n'), view)), KeyPress(Char(name), view)), KeyPress(Enter, view));
    var setup := PendingWorkspace([name], [name], 0);
    SetupEnds(created, grown, setup);
    PressDelete(Handle(Handle(created, StoreReloaded(grown, false)), SetupCompleted(setup, SetupDone)), c);
  }

  lemma StraysOnReload(s: AppState, store: Store, c: Workspace)
    requires IsDeleting(s.core, c.name) && Find(store, c.name) == Some(c) && c.path.Present?
    requires s.core.pendingCreatedOpen == Some((c.name, c.path.path))
    ensures Strays(s, StoreReloaded(store, true))
  {
    hide Find;
  }
}
