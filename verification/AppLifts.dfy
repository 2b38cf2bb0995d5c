/** The serial lift queue: jobs start one at a time, in the order they were accepted,
    and each exactly once, and a drained queue sums up exactly the batch that ran. */
module AppLifts {
  import opened Options
  import opened App
  import opened AppSteps

  /** The lifts the runtime was asked for, in order. */
  function LiftsOf(log: seq<Effect>): seq<LiftJob> {
    if log == [] then []
    else
      var last := log[|log| - 1];
      LiftsOf(log[..|log| - 1]) + (if last.Lift? then [last.job] else [])
  }

  lemma {:induction false} PlainStartsNoLift(before: seq<Effect>, after: seq<Effect>)
    requires LogPlain(before, after)
    ensures LiftsOf(after) == LiftsOf(before)
    decreases |after|
  {
    if |before| < |after| {
      var front := after[..|after| - 1];
      assert before <= front;
      assert LogPlain(before, front);
      PlainStartsNoLift(before, front);
    } else {
      assert before == after;
    }
  }

  lemma LiftsSnoc(log: seq<Effect>, effect: Effect)
    ensures LiftsOf(log + [effect]) == LiftsOf(log) + (if effect.Lift? then [effect.job] else [])
  {
    assert (log + [effect])[..|log|] == log;
  }

  function Running(lifts: Lifts): seq<LiftJob> {
    if lifts.inFlight.Some? then [lifts.inFlight.value] else []
  }

  /** The job in flight and the jobs behind it. */
  function Outstanding(lifts: Lifts): seq<LiftJob> {
    Running(lifts) + lifts.queue
  }

  predicate Distinct(jobs: seq<LiftJob>) {
    forall i, j | 0 <= i < j < |jobs| :: jobs[i] != jobs[j]
  }

  function Errors(results: seq<LiftResult>): seq<string> {
    if results == [] then []
    else
      var last := results[|results| - 1];
      Errors(results[..|results| - 1]) + (if last.LiftError? then [last.error] else [])
  }

  function Rebases(results: seq<LiftResult>): nat {
    if results == [] then 0
    else Rebases(results[..|results| - 1]) + (if results[|results| - 1].Rebased? then 1 else 0)
  }

  /** `finished` are the jobs answered so far, and `batch` the results since the queue
      was last idle. */
  predicate Serial(s: AppState, finished: seq<LiftJob>, batch: seq<LiftResult>) {
    var lifts := s.core.lifts;
    && QueueMoves(lifts)
    && (lifts.inFlight.None? ==> batch == [])
    && Distinct(Outstanding(lifts))
    && LiftsOf(s.log) == finished + Running(lifts)
    && lifts.accepted == finished + Outstanding(lifts)
    && lifts.failures == Errors(batch)
    && lifts.done == Rebases(batch)
  }

  /** The runtime answers each lift it was asked for at most once, with its own job. */
  predicate Answers(log: seq<Effect>, finished: seq<LiftJob>, job: LiftJob) {
    multiset(finished + [job]) <= multiset(LiftsOf(log))
  }

  /** So the only answer that can arrive is the one of the job in flight. */
  lemma AnswerIsInFlight(s: AppState, finished: seq<LiftJob>, batch: seq<LiftResult>, job: LiftJob)
    requires Serial(s, finished, batch) && Answers(s.log, finished, job)
    ensures s.core.lifts.inFlight == Some(job)
  {
    assert multiset(finished + [job]) == multiset(finished) + multiset{job};
    assert multiset(LiftsOf(s.log)) == multiset(finished) + multiset(Running(s.core.lifts));
    assert multiset(finished + [job])[job] == multiset(finished)[job] + 1;
    assert job in Running(s.core.lifts);
  }

  function BatchAfter(lifts: Lifts, batch: seq<LiftResult>, result: LiftResult): seq<LiftResult> {
    if lifts.queue == [] then [] else batch + [result]
  }

  lemma SettlesSerially(
    s: AppState, t: AppState, finished: seq<LiftJob>, batch: seq<LiftResult>, job: LiftJob, result: LiftResult)
    requires Serial(s, finished, batch) && Answers(s.log, finished, job)
    requires Settles(s, t, job, result)
    ensures Serial(t, finished + [job], BatchAfter(s.core.lifts, batch, result))
  {
    AnswerIsInFlight(s, finished, batch, job);
    SettlesInOrder(s, t, finished, job, result);
    SettlesCounted(s, t, batch, job, result);
    hide LiftsOf, Answers, Settles, Outstanding, Running, Distinct, Errors, Rebases;
  }

  lemma SettlesCounted(s: AppState, t: AppState, batch: seq<LiftResult>, job: LiftJob, result: LiftResult)
    requires Settles(s, t, job, result)
    requires s.core.lifts.failures == Errors(batch) && s.core.lifts.done == Rebases(batch)
    ensures var after := BatchAfter(s.core.lifts, batch, result);
      && QueueMoves(t.core.lifts)
      && (t.core.lifts.inFlight.None? ==> after == [])
      && t.core.lifts.failures == Errors(after) && t.core.lifts.done == Rebases(after)
  {
    hide KeepsTimers, LiftSummary;
    assert (batch + [result])[..|batch|] == batch;
    assert Errors([]) == [] && Rebases([]) == 0;
  }

  lemma SettlesInOrder(s: AppState, t: AppState, finished: seq<LiftJob>, job: LiftJob, result: LiftResult)
    requires s.core.lifts.inFlight == Some(job) && Settles(s, t, job, result)
    requires LiftsOf(s.log) == finished + [job] && s.core.lifts.accepted == finished + Outstanding(s.core.lifts)
    requires Distinct(Outstanding(s.core.lifts))
    ensures LiftsOf(t.log) == finished + [job] + Running(t.core.lifts)
    ensures t.core.lifts.accepted == finished + [job] + Outstanding(t.core.lifts)
    ensures Distinct(Outstanding(t.core.lifts))
  {
    hide LiftsOf, KeepsTimers, LiftSummary, Distinct, Clear;
    var queue := s.core.lifts.queue;
    var last := if queue == [] then ScheduleStatusExpiry(t.footer.generation) else Lift(queue[0]);
    ReloadThen(s.log, last);
    FrontOff(finished, job, queue);
    assert t.log == s.log + [ReloadStore] + [last];
    assert Outstanding(s.core.lifts) == [job] + queue;
    assert Outstanding(t.core.lifts) == queue;
    assert Running(t.core.lifts) == if queue == [] then [] else [queue[0]];
    hide Settles, Outstanding, Running;
    assert finished + [job] + [] == finished + [job];
  }

  lemma ReloadThen(log: seq<Effect>, effect: Effect)
    ensures LiftsOf(log + [ReloadStore] + [effect]) == LiftsOf(log) + (if effect.Lift? then [effect.job] else [])
  {
    LiftsSnoc(log, ReloadStore);
    LiftsSnoc(log + [ReloadStore], effect);
  }

  lemma FrontOff(finished: seq<LiftJob>, job: LiftJob, queue: seq<LiftJob>)
    ensures finished + ([job] + queue) == finished + [job] + queue
    ensures Distinct([job] + queue) ==> Distinct(queue)
  {
    assert forall i | 0 <= i < |queue| :: queue[i] == ([job] + queue)[i + 1];
  }

  /** What the footer says when the queue drains is decided by the batch that ended:
      failure, with every error in order, exactly when some job of it failed. */
  lemma DrainSumsUpTheBatch(
    s: AppState, finished: seq<LiftJob>, batch: seq<LiftResult>, job: LiftJob, result: LiftResult)
    requires Serial(s, finished, batch) && s.core.lifts.queue == []
    ensures var ended := batch + [result];
            var shown := OnLifted(s, job, result).footer.status;
      && shown.Some?
      && (shown.value.LiftFailed? <==> exists i | 0 <= i < |ended| :: ended[i].LiftError?)
      && (shown.value.LiftFailed? ==> shown.value.errors == Errors(ended))
      && (shown.value == NothingToLift(job) <==> forall i | 0 <= i < |ended| :: ended[i].UpToDate?)
      && (shown.value.LiftedJob? <==> Errors(ended) == [] && Rebases(ended) > 0 && (job.LiftAll? || Rebases(ended) == 1))
      && (shown.value.LiftedJob? ==> shown.value.job == job)
      && (shown.value.LiftedCount? <==> Errors(ended) == [] && Rebases(ended) > 1 && !job.LiftAll?)
      && (shown.value.LiftedCount? ==> shown.value.count == Rebases(ended))
  {
    var ended := batch + [result];
    assert ended[..|batch|] == batch;
    LiftedSteps(s, job, result);
    ErrorsEmptyIff(ended);
    hide OnLifted;
  }

  lemma {:induction false} ErrorsEmptyIff(results: seq<LiftResult>)
    ensures Errors(results) == [] <==> forall i | 0 <= i < |results| :: !results[i].LiftError?
    ensures Rebases(results) == 0 <==> forall i | 0 <= i < |results| :: !results[i].Rebased?
  {
    if results != [] {
      var front, last := results[..|results| - 1], results[|results| - 1];
      assert results == front + [last];
      ErrorsEmptyIff(front);
      assert forall i | 0 <= i < |front| :: front[i] == results[i];
    }
  }

  lemma PlainStaysSerial(s: AppState, t: AppState, finished: seq<LiftJob>, batch: seq<LiftResult>)
    requires Serial(s, finished, batch) && LogPlain(s.log, t.log) && t.core.lifts == s.core.lifts
    ensures Serial(t, finished, batch)
  {
    PlainStartsNoLift(s.log, t.log);
  }

  lemma EnqueuesSerially(s: AppState, t: AppState, finished: seq<LiftJob>, batch: seq<LiftResult>)
    requires Serial(s, finished, batch) && EnqueuesOne(s, t)
    ensures Serial(t, finished, batch)
  {
    hide LiftsOf, KeepsTimers, Errors, Rebases, Clear;
    var accepted, before := t.core.lifts.accepted, s.core.lifts;
    var job := accepted[|accepted| - 1];
    LiftsSnoc(s.log, Lift(job));
    assert s.log + [] == s.log;
    assert Outstanding(t.core.lifts) == Outstanding(before) + [job];
    assert finished + (Outstanding(before) + [job]) == finished + Outstanding(before) + [job];
    if before.inFlight.None? {
      assert LiftsOf(t.log) == finished + [] + [job];
    }
  }

  lemma ActsSerially(s: AppState, t: AppState, finished: seq<LiftJob>, batch: seq<LiftResult>)
    requires Serial(s, finished, batch) && Acts(s, t)
    ensures Serial(t, finished, batch)
  {
    if EnqueuesOne(s, t) {
      EnqueuesSerially(s, t, finished, batch);
    } else if Browses(s, t) || Allocates(s, t) {
      PlainStaysSerial(s, t, finished, batch);
    } else if Creates(s, t) {
      LiftsSnoc(s.log, CreateWorkspace(t.core.pendingWorkspace.value));
    } else {
      var pending := t.core.pendingDeletion.value;
      LiftsSnoc(s.log, DeleteWorkspace(pending.workspace, pending.operation));
    }
    hide LiftsOf, KeepsTimers, Distinct, Errors, Rebases;
  }

  /** Every message but a lift's completion. */
  lemma OthersStaySerial(s: AppState, msg: Msg, finished: seq<LiftJob>, batch: seq<LiftResult>)
    requires Serial(s, finished, batch) && !Busy(s.core, DEFAULT_WORKSPACE) && !msg.Lifted?
    ensures Serial(Handle(s, msg), finished, batch)
  {
    HandleSteps(s, msg);
    var t := Handle(s, msg);
    hide Handle, Serial, Acts, KeepsTimers;
    match msg
    case KeyPress(key, _) =>
      if QuitPressed(s, key) {
        PlainStaysSerial(s, t, finished, batch);
      } else {
        ActsSerially(s, t, finished, batch);
      }
    case OtherInput(_) => ActsSerially(s, t, finished, batch);
    case _ => PlainStaysSerial(s, t, finished, batch);
  }
}
