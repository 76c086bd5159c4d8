/**
 What every reachable world keeps about a single run: the fate of its task, the
 effects it has had so far, and what its event stream was like.
 */
module RunSafety {
  import opened Options
  import opened TaskLedger
  import opened Pipelines
  import opened EventLoop
  import opened DispatchProtocol

  predicate Unregistered(pc: PC) {
    pc.Gate? || pc.StartClock? || pc.CheckElapsed? || pc.Registering? || pc.Refused?
  }

  predicate Won(pc: PC) {
    pc.MarkingDone? || pc.Recording? || ((pc.Reporting? || pc.Finished?) && pc.error.None?)
  }

  predicate Lost(pc: PC) {
    pc.MarkingFailed? || ((pc.Reporting? || pc.Finished?) && pc.error.Some?)
  }

  /** The status a run's task may have, as long as it is stored. */
  predicate FateOk(pc: PC, t: Task) {
    && !t.external
    && (if Won(pc) then t.status.Completed?
        else if Lost(pc) then t.status.Failed? || t.status.Cancelled?
        else !Unregistered(pc) && (t.status.Running? || t.status.Cancelled?))
  }

  /** The reason a lost run has for losing. */
  function Blame(pc: PC): Option<Reason> {
    match pc
    case Failing(reason) => Some(reason)
    case MarkingFailed(reason) => Some(reason)
    case Reporting(error, _) => error
    case Finished(error, _) => error
    case _ => None
  }

  /** The stream and context that justify a reason. */
  predicate Justified(cfg: Config, r: Run, reason: Reason) {
    var c := Fold(cfg.maxTurns, r.events);
    match reason
    case StartFailed(m) => r.events == [] && !IsCallLimit(m)
    case CallLimit(m) => IsCallLimit(m) && (r.events == [] || c == Abort(reason))
    case TimedOut(n) => r.ctxDone && c == Continue(r.loop) && n == r.loop.turns
    case CancelledByUser => r.ctxDone && c == Continue(r.loop)
    case _ => c == Abort(reason)
  }

  predicate LoopOk(cfg: Config, r: Run) {
    if Blame(r.pc).Some? then Justified(cfg, r, Blame(r.pc).value)
    else
      && Fold(cfg.maxTurns, r.events) == Continue(r.loop)
      && (Unregistered(r.pc) || r.pc.Launched? || r.pc.Starting? ==> r.events == [])
      && (r.pc.AskStatus? ==> r.ctxDone)
  }

  function Mark(r: Run, id: string, marked: bool, completed: bool): seq<Effect> {
    if marked then [BacklogMarked(id, r.req.backlogItem, completed)] else []
  }

  function StageEffect(cfg: Config, r: Run, id: string): seq<Effect> {
    match Gated(cfg, r.req)
    case Some(pa) => [StageRecorded(id, r.sessionID, pa.pipeline, pa.stage)]
    case None => []
  }

  /** Exactly the effects a run has had when it stands at its current step. */
  function Trace(cfg: Config, r: Run, id: string): seq<Effect> {
    match r.pc
    case Recording(marked) => Mark(r, id, marked, true)
    case Reporting(error, marked) =>
      Mark(r, id, marked, error.None?) + (if error.None? then StageEffect(cfg, r, id) else [])
    case Finished(error, marked) =>
      Mark(r, id, marked, error.None?) + (if error.None? then StageEffect(cfg, r, id) else [])
      + [Reported(id, if error.None? then r.loop.result else "", error)]
    case _ => []
  }

  predicate MarkedOk(cfg: Config, r: Run) {
    (r.pc.Recording? || r.pc.Reporting? || r.pc.Finished?) && r.pc.marked ==> Linked(cfg, r.req)
  }

  /** Whether the stored task, if any, fits the step. */
  predicate TaskOk(pc: PC, id: string, tasks: Tasks) {
    (Unregistered(pc) ==> id !in tasks) && (id in tasks ==> FateOk(pc, tasks[id]))
  }

  ghost predicate RunConsistent(cfg: Config, w: World, id: string)
    requires id in w.runs
  {
    var r := w.runs[id];
    && id in w.used
    && TaskOk(r.pc, id, w.tasks)
    && LoopOk(cfg, r)
    && MarkedOk(cfg, r)
    && Of(w.log, id) == Trace(cfg, r, id)
  }

  ghost predicate RunInv(cfg: Config, w: World) {
    && w.tasks.Keys <= w.used
    && (forall e | e in w.log :: e.id in w.used)
    && (forall id | id in w.runs :: RunConsistent(cfg, w, id))
  }

  // ---------------------------------------------------------------------
  // A run's own steps
  // ---------------------------------------------------------------------

  lemma AdmissionKeepsRun(cfg: Config, w: World, id: string, r: Run, tasks: Tasks)
    requires AtGate(r.pc) && TaskOk(r.pc, id, tasks) && LoopOk(cfg, r) && MarkedOk(cfg, r)
    ensures var r' := AdmissionRun(cfg, w, r);
            TaskOk(r'.pc, id, tasks) && LoopOk(cfg, r') && MarkedOk(cfg, r') && Trace(cfg, r', id) == Trace(cfg, r, id)
  {}

  lemma TableKeepsTask(cfg: Config, id: string, r: Run, tasks: Tasks, now: int)
    requires InTable(r.pc) && TaskOk(r.pc, id, tasks)
    ensures TaskOk(TableNext(r.pc), id, Apply(tasks, TableOp(cfg, id, r), now))
  {
    match r.pc
    case Registering =>
    case Launched =>
    case Failing(_) =>
    case Completing =>
  }

  lemma TableKeepsLoop(cfg: Config, id: string, r: Run)
    requires InTable(r.pc) && LoopOk(cfg, r)
    ensures var r' := r.(pc := TableNext(r.pc));
            LoopOk(cfg, r') && MarkedOk(cfg, r') && Trace(cfg, r', id) == Trace(cfg, r, id)
  {}

  lemma EffectKeepsRun(cfg: Config, id: string, r: Run, found: bool, tasks: Tasks)
    requires InEffects(r.pc) && TaskOk(r.pc, id, tasks) && LoopOk(cfg, r) && MarkedOk(cfg, r)
    requires found ==> Linked(cfg, r.req)
    ensures var r' := r.(pc := EffectNext(r.pc, found));
            && TaskOk(r'.pc, id, tasks) && LoopOk(cfg, r') && MarkedOk(cfg, r')
            && Trace(cfg, r', id) == Trace(cfg, r, id) + NewEffects(cfg, id, r, found)
  {}

  lemma EffectExtendsOf(cfg: Config, id: string, r: Run, found: bool, log: seq<Effect>, other: string)
    requires InEffects(r.pc)
    ensures var added := NewEffects(cfg, id, r, found);
            Of(log + added, other) == Of(log, other) + if other == id then added else []
  {
    var added := NewEffects(cfg, id, r, found);
    if added == [] {
      assert log + added == log;
    } else {
      OfOneMore(log, added[0], other);
      assert added == [added[0]];
    }
  }

  lemma ControlKeepsRun(cfg: Config, id: string, r: Run, e: Event, c: Control, tasks: Tasks)
    requires r.pc.Looping? && TaskOk(r.pc, id, tasks)
    requires Fold(cfg.maxTurns, r.events + [e]) == c && (c.Abort? ==> LoopReason(c.reason))
    ensures var events := r.events + [e];
            var r' := if c.Continue? then r.(events := events, loop := c.loop)
                      else r.(events := events, pc := Failing(c.reason));
            TaskOk(r'.pc, id, tasks) && LoopOk(cfg, r') && MarkedOk(cfg, r') && Trace(cfg, r', id) == Trace(cfg, r, id)
  {}

  lemma EventKeepsRun(cfg: Config, id: string, r: Run, e: Event, tasks: Tasks)
    requires r.pc.Looping? && TaskOk(r.pc, id, tasks) && LoopOk(cfg, r)
    ensures var r' := LocalStep(cfg, r, false, NextEvent(e));
            TaskOk(r'.pc, id, tasks) && LoopOk(cfg, r') && MarkedOk(cfg, r') && Trace(cfg, r', id) == Trace(cfg, r, id)
  {
    FoldOneMore(cfg.maxTurns, r.events, e);
    HandleGivesLoopReasons(cfg.maxTurns, r.loop, e);
    ControlKeepsRun(cfg, id, r, e, Handle(cfg.maxTurns, r.loop, e), tasks);
  }

  lemma LocalKeepsRun(cfg: Config, id: string, r: Run, cancelled: bool, input: Input, tasks: Tasks)
    requires !AtGate(r.pc) && !InTable(r.pc) && !InEffects(r.pc)
    requires TaskOk(r.pc, id, tasks) && LoopOk(cfg, r) && MarkedOk(cfg, r)
    requires cancelled ==> id in tasks && tasks[id].status.Cancelled?
    ensures var r' := LocalStep(cfg, r, cancelled, input);
            TaskOk(r'.pc, id, tasks) && LoopOk(cfg, r') && MarkedOk(cfg, r') && Trace(cfg, r', id) == Trace(cfg, r, id)
  {
    if r.pc.Looping? && input.NextEvent? {
      EventKeepsRun(cfg, id, r, input.event, tasks);
    }
  }

  lemma TableStepKeepsRun(cfg: Config, w: World, id: string)
    requires id in w.runs && InTable(w.runs[id].pc) && RunConsistent(cfg, w, id)
    ensures RunConsistent(cfg, TableStep(cfg, w, id), id)
  {
    TableKeepsTask(cfg, id, w.runs[id], w.tasks, w.now);
    TableKeepsLoop(cfg, id, w.runs[id]);
  }

  lemma EffectStepKeepsRun(cfg: Config, w: World, id: string)
    requires id in w.runs && InEffects(w.runs[id].pc) && RunConsistent(cfg, w, id)
    ensures RunConsistent(cfg, EffectStep(cfg, w, id), id)
  {
    var r, found := w.runs[id], ItemFound(cfg, w, w.runs[id]);
    EffectKeepsRun(cfg, id, r, found, w.tasks);
    EffectExtendsOf(cfg, id, r, found, w.log, id);
  }

  lemma AdvanceKeepsRun(cfg: Config, w: World, id: string, input: Input)
    requires id in w.runs && RunConsistent(cfg, w, id)
    ensures var w' := AdvanceRun(cfg, w, id, input); id in w'.runs && RunConsistent(cfg, w', id)
  {
    var r := w.runs[id];
    if AtGate(r.pc) {
      AdmissionKeepsRun(cfg, w, id, r, w.tasks);
    } else if InTable(r.pc) {
      TableStepKeepsRun(cfg, w, id);
    } else if InEffects(r.pc) {
      EffectStepKeepsRun(cfg, w, id);
    } else {
      LocalKeepsRun(cfg, id, r, SeenCancelled(w, id), input, w.tasks);
    }
  }

  // ---------------------------------------------------------------------
  // Everybody else's steps
  // ---------------------------------------------------------------------

  /** All that a step may do to what concerns one run that does not take it. */
  ghost predicate Spares(w: World, w': World, id: string)
    requires id in w.runs
  {
    && id in w'.runs && w.used <= w'.used
    && w'.runs[id] in {w.runs[id], w.runs[id].(ctxDone := true)}
    && Of(w'.log, id) == Of(w.log, id)
    && (id in w'.tasks ==>
          && id in w.tasks && w'.tasks[id].external == w.tasks[id].external
          && (|| w'.tasks[id].status == w.tasks[id].status
              || (w.tasks[id].status.Running? && w'.tasks[id].status.Cancelled?)))
  }

  lemma SparedRunOk(cfg: Config, w: World, w': World, id: string)
    requires id in w.runs && RunConsistent(cfg, w, id) && Spares(w, w', id)
    ensures RunConsistent(cfg, w', id)
  {}

  /** An advance of one run leaves the others alone and keeps IDs within those used. */
  ghost predicate AdvanceLocal(w: World, w': World, id: string) {
    && w'.used == w.used && w.runs.Keys == w'.runs.Keys
    && (forall other | other in w.runs && other != id :: w'.runs[other] == w.runs[other])
    && (forall other | other != id :: other in w'.tasks <==> other in w.tasks)
    && (forall other | other in w.tasks && other != id :: w'.tasks[other] == w.tasks[other])
    && (forall other | other != id :: Of(w'.log, other) == Of(w.log, other))
    && (forall e | e in w'.log :: e in w.log || e.id == id)
  }

  lemma AdmissionIsLocal(cfg: Config, w: World, id: string)
    requires id in w.runs && AtGate(w.runs[id].pc)
    ensures AdvanceLocal(w, AdmissionStep(cfg, w, id), id)
  {}

  lemma TableIsLocal(cfg: Config, w: World, id: string)
    requires id in w.runs && InTable(w.runs[id].pc)
    ensures AdvanceLocal(w, TableStep(cfg, w, id), id)
  {
    ApplyIsLocal(w.tasks, TableOp(cfg, id, w.runs[id]), w.now);
  }

  lemma EffectIsLocal(cfg: Config, w: World, id: string)
    requires id in w.runs && InEffects(w.runs[id].pc)
    ensures AdvanceLocal(w, EffectStep(cfg, w, id), id)
  {
    var r, found := w.runs[id], ItemFound(cfg, w, w.runs[id]);
    forall other | other != id ensures Of(w.log + NewEffects(cfg, id, r, found), other) == Of(w.log, other) {
      EffectExtendsOf(cfg, id, r, found, w.log, other);
    }
  }

  lemma AdvanceIsLocal(cfg: Config, w: World, id: string, input: Input)
    requires id in w.runs
    ensures AdvanceLocal(w, AdvanceRun(cfg, w, id, input), id)
  {
    if AtGate(w.runs[id].pc) {
      AdmissionIsLocal(cfg, w, id);
    } else if InTable(w.runs[id].pc) {
      TableIsLocal(cfg, w, id);
    } else if InEffects(w.runs[id].pc) {
      EffectIsLocal(cfg, w, id);
    }
  }

  lemma OthersSpare(cfg: Config, w: World, step: Step, id: string)
    requires id in w.runs && id in w.used && (id in w.tasks ==> !w.tasks[id].external)
    requires !step.Advance? || step.id !in w.runs
    ensures Spares(w, Next(cfg, w, step), id)
  {
    match step
    case UserCancel(_) => OthersOpsSpare(w.tasks, Cancel(step.id), id, w.now);
    case Other(op) =>
      if OtherMay(w, op) {
        OthersOpsSpare(w.tasks, op, id, w.now);
      }
    case _ =>
  }

  /** An operation that is not a registration, completion or failure of this task. */
  lemma OthersOpsSpare(tasks: Tasks, op: Op, id: string, now: int)
    requires id in tasks ==> !tasks[id].external
    requires op.Targets() && !op.Cancel? ==> op.id != id
    ensures var after := Apply(tasks, op, now);
            id in after ==>
              && id in tasks && after[id].external == tasks[id].external
              && (after[id].status == tasks[id].status || (tasks[id].status.Running? && after[id].status.Cancelled?))
  {
    if op.Targets() {
      ApplyIsLocal(tasks, op, now);
    }
  }

  lemma NewRunOk(cfg: Config, w: World, step: Step, id: string)
    requires RunInv(cfg, w) && id !in w.runs && (!step.Advance? || step.id !in w.runs)
    requires id in Next(cfg, w, step).runs
    ensures RunConsistent(cfg, Next(cfg, w, step), id)
  {
    NoEffectYet(w.log, id);
  }

  lemma {:induction false} NoEffectYet(log: seq<Effect>, id: string)
    requires forall e | e in log :: e.id != id
    ensures Of(log, id) == []
    decreases |log|
  {
    if log != [] {
      NoEffectYet(log[..|log| - 1], id);
    }
  }

  lemma AdvanceKeepsRuns(cfg: Config, w: World, id: string, input: Input)
    requires RunInv(cfg, w) && id in w.runs
    ensures RunInv(cfg, AdvanceRun(cfg, w, id, input))
  {
    var w' := AdvanceRun(cfg, w, id, input);
    assert RunConsistent(cfg, w, id);
    AdvanceIsLocal(cfg, w, id, input);
    AdvanceKeepsRun(cfg, w, id, input);
    SparingRest(cfg, w, w', id);
  }

  lemma SparingRest(cfg: Config, w: World, w': World, id: string)
    requires RunInv(cfg, w) && id in w.runs && AdvanceLocal(w, w', id) && RunConsistent(cfg, w', id)
    ensures RunInv(cfg, w')
  {
    assert RunConsistent(cfg, w, id);
    forall other | other in w'.runs && other != id ensures RunConsistent(cfg, w', other) {
      assert RunConsistent(cfg, w, other);
      SparedRunOk(cfg, w, w', other);
    }
  }

  lemma OtherStepsKeepIDs(cfg: Config, w: World, step: Step)
    requires RunInv(cfg, w) && (!step.Advance? || step.id !in w.runs)
    ensures var w' := Next(cfg, w, step); w'.tasks.Keys <= w'.used && w'.log == w.log && w.used <= w'.used
  {
    match step
    case UserCancel(id) => ApplyKeys(w.tasks, Cancel(id), w.now);
    case Other(op) => ApplyKeys(w.tasks, op, w.now);
    case _ =>
  }

  lemma NextKeepsRuns(cfg: Config, w: World, step: Step)
    requires RunInv(cfg, w)
    ensures RunInv(cfg, Next(cfg, w, step))
  {
    if step.Advance? && step.id in w.runs {
      AdvanceKeepsRuns(cfg, w, step.id, step.input);
    } else {
      var w' := Next(cfg, w, step);
      OtherStepsKeepIDs(cfg, w, step);
      forall id | id in w'.runs ensures RunConsistent(cfg, w', id) {
        if id in w.runs {
          assert RunConsistent(cfg, w, id);
          OthersSpare(cfg, w, step, id);
          SparedRunOk(cfg, w, w', id);
        } else {
          NewRunOk(cfg, w, step, id);
        }
      }
    }
  }

  lemma {:induction false} RunsReachable(cfg: Config, steps: seq<Step>)
    ensures RunInv(cfg, Exec(cfg, steps))
    decreases |steps|
  {
    if steps != [] {
      RunsReachable(cfg, steps[..|steps| - 1]);
      NextKeepsRuns(cfg, Exec(cfg, steps[..|steps| - 1]), steps[|steps| - 1]);
    }
  }

  // ---------------------------------------------------------------------
  // Theorems
  // ---------------------------------------------------------------------

  function Reports(effects: seq<Effect>): nat {
    if effects == [] then 0 else Reports(effects[..|effects| - 1]) + if effects[|effects| - 1].Reported? then 1 else 0
  }

  /**
   Whatever the agent's stream does and however cancels and timeouts fall, a run
   has called the completion function once if it is finished and not before.
   */
  lemma {:induction false} CompletionIsCalledOnce(cfg: Config, steps: seq<Step>, id: string)
    ensures var w := Exec(cfg, steps);
            id in w.runs ==> Reports(Of(w.log, id)) == if w.runs[id].pc.Finished? then 1 else 0
  {
    RunsReachable(cfg, steps);
    var w := Exec(cfg, steps);
    if id in w.runs {
      assert RunConsistent(cfg, w, id);
      TraceReports(cfg, w.runs[id], id);
    }
  }

  lemma {:induction false} ReportsConcat(a: seq<Effect>, b: seq<Effect>)
    ensures Reports(a + b) == Reports(a) + Reports(b)
    decreases |b|
  {
    if b == [] {
      assert a + b == a;
    } else {
      assert (a + b)[..|a + b| - 1] == a + b[..|b| - 1];
      ReportsConcat(a, b[..|b| - 1]);
    }
  }

  lemma OneEffect(e: Effect)
    ensures Reports([e]) == if e.Reported? then 1 else 0
  {
    assert [e][..0] == [];
  }

  lemma MarksDoNotReport(cfg: Config, r: Run, id: string, marked: bool, ok: bool)
    ensures Reports(Mark(r, id, marked, ok)) == 0 && Reports(StageEffect(cfg, r, id)) == 0
  {
    if marked {
      OneEffect(BacklogMarked(id, r.req.backlogItem, ok));
    }
    if Gated(cfg, r.req).Some? {
      OneEffect(StageEffect(cfg, r, id)[0]);
    }
  }

  lemma ReportComesLast(marks: seq<Effect>, stages: seq<Effect>, report: Effect)
    requires Reports(marks) == 0 && Reports(stages) == 0 && report.Reported?
    ensures Reports(marks + stages) == 0 && Reports(marks + stages + [report]) == 1
  {
    ReportsConcat(marks, stages);
    ReportsConcat(marks + stages, [report]);
    OneEffect(report);
  }

  lemma TraceReports(cfg: Config, r: Run, id: string)
    ensures Reports(Trace(cfg, r, id)) == if r.pc.Finished? then 1 else 0
  {
    if r.pc.Recording? {
      MarksDoNotReport(cfg, r, id, r.pc.marked, true);
    } else if r.pc.Reporting? || r.pc.Finished? {
      var ok := r.pc.error.None?;
      var marks, stages := Mark(r, id, r.pc.marked, ok), if ok then StageEffect(cfg, r, id) else [];
      MarksDoNotReport(cfg, r, id, r.pc.marked, ok);
      ReportComesLast(marks, stages, Reported(id, if ok then r.loop.result else "", r.pc.error));
    }
  }

  // What the effects say, against the tables they are about

  /** Step k is the one in which the run marks its backlog item, as completed or as failed. */
  ghost predicate MarksAt(cfg: Config, steps: seq<Step>, id: string, k: nat, completed: bool) {
    && k < |steps| && steps[k].Advance? && steps[k].id == id
    && id in Exec(cfg, steps[..k]).runs
    && var pc := Exec(cfg, steps[..k]).runs[id].pc;
       if completed then pc.MarkingDone? else pc.MarkingFailed?
  }

  /** A linked item that exists gets its status; otherwise the backlog stays as it is. */
  ghost predicate MarkOutcome(cfg: Config, before: World, after: World, req: Request, completed: bool, marked: bool) {
    && marked == (req.backlogItem != "" && cfg.hasBacklog && req.backlogItem in before.backlog)
    && after.backlog == if marked
                        then before.backlog[req.backlogItem := if completed then "completed" else "failed"]
                        else before.backlog
  }

  ghost predicate MarkedOnce(cfg: Config, steps: seq<Step>, id: string, k: nat,
        req: Request, completed: bool, marked: bool)
  {
    && MarksAt(cfg, steps, id, k, completed)
    && MarkOutcome(cfg, Exec(cfg, steps[..k]), Exec(cfg, steps[..k + 1]), req, completed, marked)
  }

  predicate PastMark(pc: PC) { pc.Recording? || pc.Reporting? || pc.Finished? }

  lemma MarkedEarlier(cfg: Config, steps: seq<Step>, id: string, k: nat, req: Request, completed: bool, marked: bool)
    requires steps != [] && MarkedOnce(cfg, steps[..|steps| - 1], id, k, req, completed, marked)
    ensures MarkedOnce(cfg, steps, id, k, req, completed, marked)
  {
    assert steps[..|steps| - 1][..k] == steps[..k] && steps[..|steps| - 1][..k + 1] == steps[..k + 1];
  }

  lemma MarkStep(cfg: Config, w: World, id: string, input: Input)
    requires id in w.runs && (w.runs[id].pc.MarkingDone? || w.runs[id].pc.MarkingFailed?)
    ensures var w' := Next(cfg, w, Advance(id, input));
            && id in w'.runs && w'.runs[id].req == w.runs[id].req
            && PastMark(w'.runs[id].pc) && Won(w'.runs[id].pc) == w.runs[id].pc.MarkingDone?
            && MarkOutcome(cfg, w, w', w.runs[id].req, w.runs[id].pc.MarkingDone?, w'.runs[id].pc.marked)
  {
    assert AdvanceRun(cfg, w, id, input) == EffectStep(cfg, w, id);
  }

  /** Any other step leaves a run past its mark as it was marked, and takes no run there. */
  lemma OtherwiseMarkKept(cfg: Config, w: World, step: Step, id: string)
    requires RunInv(cfg, w) && id in Next(cfg, w, step).runs
    requires step.Advance? && step.id == id && id in w.runs ==>
               !w.runs[id].pc.MarkingDone? && !w.runs[id].pc.MarkingFailed?
    ensures var r' := Next(cfg, w, step).runs[id];
            PastMark(r'.pc) ==>
              && id in w.runs && w.runs[id].req == r'.req
              && PastMark(w.runs[id].pc) && w.runs[id].pc.marked == r'.pc.marked && Won(w.runs[id].pc) == Won(r'.pc)
  {
    if step.Advance? && step.id in w.runs {
      if step.id != id {
        AdvanceIsLocal(cfg, w, step.id, step.input);
      } else {
        OwnStepKeepsMark(cfg, w, id, step.input);
      }
    } else if id in w.runs {
      assert RunConsistent(cfg, w, id);
      OthersSpare(cfg, w, step, id);
    }
  }

  lemma OwnStepKeepsMark(cfg: Config, w: World, id: string, input: Input)
    requires id in w.runs && !w.runs[id].pc.MarkingDone? && !w.runs[id].pc.MarkingFailed?
    ensures var r, r' := w.runs[id], AdvanceRun(cfg, w, id, input).runs[id];
            PastMark(r'.pc) ==>
              r.req == r'.req && PastMark(r.pc) && r.pc.marked == r'.pc.marked && Won(r.pc) == Won(r'.pc)
  {
    var r := w.runs[id];
    if AtGate(r.pc) {
      assert AdvanceRun(cfg, w, id, input).runs[id] == AdmissionRun(cfg, w, r);
    } else if InTable(r.pc) {
      assert AdvanceRun(cfg, w, id, input).runs[id] == r.(pc := TableNext(r.pc));
    } else if InEffects(r.pc) {
      assert AdvanceRun(cfg, w, id, input).runs[id] == r.(pc := EffectNext(r.pc, ItemFound(cfg, w, r)));
    } else {
      LocalKeepsMark(cfg, r, SeenCancelled(w, id), input);
    }
  }

  lemma LocalKeepsMark(cfg: Config, r: Run, cancelled: bool, input: Input)
    requires !AtGate(r.pc) && !InTable(r.pc) && !InEffects(r.pc)
    ensures var r' := LocalStep(cfg, r, cancelled, input); PastMark(r'.pc) ==> r' == r
  {}

  /**
   A run past its mark has marked its backlog item at one step of its own: exactly
   if the item was linked and existed then, as completed for a success and as
   failed otherwise.
   */
  lemma {:induction false} ItemMarkedIffFound(cfg: Config, steps: seq<Step>, id: string) returns (k: nat)
    requires id in Exec(cfg, steps).runs && PastMark(Exec(cfg, steps).runs[id].pc)
    ensures var r := Exec(cfg, steps).runs[id]; MarkedOnce(cfg, steps, id, k, r.req, Won(r.pc), r.pc.marked)
    decreases |steps|
  {
    var n := |steps| - 1;
    var before, step := Exec(cfg, steps[..n]), steps[n];
    assert steps[..n + 1] == steps;
    if step.Advance? && step.id == id && id in before.runs
       && (before.runs[id].pc.MarkingDone? || before.runs[id].pc.MarkingFailed?) {
      MarkStep(cfg, before, id, step.input);
      k := n;
    } else {
      RunsReachable(cfg, steps[..n]);
      OtherwiseMarkKept(cfg, before, step, id);
      k := ItemMarkedIffFound(cfg, steps[..n], id);
      var r := before.runs[id];
      MarkedEarlier(cfg, steps, id, k, r.req, Won(r.pc), r.pc.marked);
    }
  }

  predicate RecordsStage(e: Effect, sessionID: string, pipeline: string, stage: int) {
    e.StageRecorded? && e.sessionID == sessionID && e.pipeline == pipeline && e.stage == stage
  }

  ghost predicate StageLogged(log: seq<Effect>, sessionID: string, pipeline: string, stage: int) {
    exists k | 0 <= k < |log| :: RecordsStage(log[k], sessionID, pipeline, stage)
  }

  lemma StageLoggedMore(log: seq<Effect>, more: seq<Effect>, sessionID: string, pipeline: string, stage: int)
    requires |more| <= 1
    ensures StageLogged(log + more, sessionID, pipeline, stage) <==>
              StageLogged(log, sessionID, pipeline, stage)
              || (more != [] && RecordsStage(more[0], sessionID, pipeline, stage))
  {
    if k :| 0 <= k < |log| && RecordsStage(log[k], sessionID, pipeline, stage) {
      assert (log + more)[k] == log[k];
    }
    if more != [] {
      assert (log + more)[|log|] == more[0];
    }
  }

  lemma OnlyEffectsLog(cfg: Config, w: World, step: Step)
    requires step.Advance? && step.id in w.runs ==> !InEffects(w.runs[step.id].pc)
    ensures Next(cfg, w, step).log == w.log && Next(cfg, w, step).progress == w.progress
  {
    if step.Advance? && step.id in w.runs {
      var id := step.id;
      if InTable(w.runs[id].pc) {
        assert AdvanceRun(cfg, w, id, step.input) == TableStep(cfg, w, id);
      } else if AtGate(w.runs[id].pc) {
        assert AdvanceRun(cfg, w, id, step.input) == AdmissionStep(cfg, w, id);
      }
    }
  }

  lemma EffectLogsStage(cfg: Config, w: World, id: string, sessionID: string, pipeline: string, stage: int)
    requires id in w.runs && InEffects(w.runs[id].pc)
    requires stage in Done(w.progress, sessionID, pipeline) <==> StageLogged(w.log, sessionID, pipeline, stage)
    ensures var w' := EffectStep(cfg, w, id);
            stage in Done(w'.progress, sessionID, pipeline) <==> StageLogged(w'.log, sessionID, pipeline, stage)
  {
    var r := w.runs[id];
    StageLoggedMore(w.log, NewEffects(cfg, id, r, ItemFound(cfg, w, r)), sessionID, pipeline, stage);
    if r.pc.Recording? && Gated(cfg, r.req).Some? {
      var pa := Gated(cfg, r.req).value;
      RecordedAddsOneStage(w.progress, r.sessionID, pa.pipeline, pa.stage);
    }
  }

  /** The progress table holds exactly the stages that some run has logged as recorded. */
  lemma {:induction false} ProgressIsTheStageLog(cfg: Config, steps: seq<Step>,
        sessionID: string, pipeline: string, stage: int)
    ensures var w := Exec(cfg, steps);
            stage in Done(w.progress, sessionID, pipeline) <==> StageLogged(w.log, sessionID, pipeline, stage)
    decreases |steps|
  {
    if steps != [] {
      var w, step := Exec(cfg, steps[..|steps| - 1]), steps[|steps| - 1];
      ProgressIsTheStageLog(cfg, steps[..|steps| - 1], sessionID, pipeline, stage);
      if step.Advance? && step.id in w.runs && InEffects(w.runs[step.id].pc) {
        EffectLogsStage(cfg, w, step.id, sessionID, pipeline, stage);
      } else {
        OnlyEffectsLog(cfg, w, step);
      }
    }
  }

  lemma {:induction false} OfIsPart(log: seq<Effect>, id: string)
    ensures forall e | e in Of(log, id) :: e in log
    decreases |log|
  {
    if log != [] {
      OfIsPart(log[..|log| - 1], id);
    }
  }

  /** A successful run of a pipeline stage finds its stage in the progress table. */
  lemma SuccessIsRecorded(cfg: Config, steps: seq<Step>, id: string)
    requires var w := Exec(cfg, steps);
             id in w.runs && w.runs[id].pc.Finished? && w.runs[id].pc.error.None? && Gated(cfg, w.runs[id].req).Some?
    ensures var w := Exec(cfg, steps);
            var pa := Gated(cfg, w.runs[id].req).value;
            pa.stage in Done(w.progress, w.runs[id].sessionID, pa.pipeline)
  {
    RunsReachable(cfg, steps);
    var w := Exec(cfg, steps);
    assert RunConsistent(cfg, w, id);
    var r, pa := w.runs[id], Gated(cfg, w.runs[id].req).value;
    var recorded := StageRecorded(id, r.sessionID, pa.pipeline, pa.stage);
    assert StageEffect(cfg, r, id) == [recorded];
    assert recorded in Trace(cfg, r, id);
    OfIsPart(w.log, id);
    var k :| 0 <= k < |w.log| && w.log[k] == recorded;
    assert RecordsStage(w.log[k], r.sessionID, pa.pipeline, pa.stage);
    ProgressIsTheStageLog(cfg, steps, r.sessionID, pa.pipeline, pa.stage);
  }

  /**
   At the end of a run, success is all or nothing: the reported error is nil
   exactly when the task, if still stored, is completed; exactly then the stage
   of a pipeline run was recorded; and the backlog item, if it was linked and
   existed when the run came to mark it, was marked completed in that case and
   failed in the other. The effects come in this order, the report last, and
   there are no others.
   */
  lemma {:induction false} FinishedRunsAreAllOrNothing(cfg: Config, steps: seq<Step>, id: string)
    ensures var w := Exec(cfg, steps);
            id in w.runs && w.runs[id].pc.Finished? ==>
              var r := w.runs[id];
              var ok := r.pc.error.None?;
              && (id in w.tasks ==> (w.tasks[id].status.Completed? <==> ok))
              && (id in w.tasks && !ok ==> w.tasks[id].status.Failed? || w.tasks[id].status.Cancelled?)
              && (exists k: nat :: MarkedOnce(cfg, steps, id, k, r.req, ok, r.pc.marked))
              && (ok && r.req.pipeline != "" && r.req.agentName in cfg.pipelineAgents
                  && cfg.pipelineAgents[r.req.agentName].pipeline == r.req.pipeline ==>
                    cfg.pipelineAgents[r.req.agentName].stage in Done(w.progress, r.sessionID, r.req.pipeline))
              && Of(w.log, id) == Mark(r, id, r.pc.marked, ok) + (if ok then StageEffect(cfg, r, id) else [])
                                  + [Reported(id, if ok then r.loop.result else "", r.pc.error)]
  {
    RunsReachable(cfg, steps);
    var w := Exec(cfg, steps);
    if id in w.runs && w.runs[id].pc.Finished? {
      assert RunConsistent(cfg, w, id);
      var k := ItemMarkedIffFound(cfg, steps, id);
      var req := w.runs[id].req;
      if w.runs[id].pc.error.None? && Gated(cfg, req).Some? {
        SuccessIsRecorded(cfg, steps, id);
      }
      GatedIff(cfg, req, if req.agentName in cfg.pipelineAgents then cfg.pipelineAgents[req.agentName].stage else 0);
    }
  }

  /**
   A run that reports success had a clean stream: fewer responses than the turn
   limit, no call-limit or overflow error, no veto, never three errors without
   an answer between them; and its result is the last non-empty text.
   */
  lemma SuccessMeansCleanStream(cfg: Config, steps: seq<Step>, id: string)
    ensures var w := Exec(cfg, steps);
            id in w.runs && Won(w.runs[id].pc) ==>
              var rs := Responses(w.runs[id].events);
              Clean(cfg.maxTurns, rs) && LastText(rs, w.runs[id].loop.result)
  {
    RunsReachable(cfg, steps);
    var w := Exec(cfg, steps);
    if id in w.runs && Won(w.runs[id].pc) {
      assert RunConsistent(cfg, w, id);
      ReachesEndIffClean(cfg.maxTurns, w.runs[id].events);
    }
  }

  /** A run that reports an error had that error coming. */
  lemma {:induction false} ErrorsAreJustified(cfg: Config, steps: seq<Step>, id: string)
    ensures var w := Exec(cfg, steps);
            id in w.runs && w.runs[id].pc.Finished? && w.runs[id].pc.error.Some? ==>
              Justified(cfg, w.runs[id], w.runs[id].pc.error.value)
  {
    RunsReachable(cfg, steps);
    var w := Exec(cfg, steps);
    if id in w.runs {
      assert RunConsistent(cfg, w, id);
    }
  }

  // ---------------------------------------------------------------------
  // Which cancels are honoured
  // ---------------------------------------------------------------------

  /** The run has yet to ask whether its context was cancelled. */
  predicate BeforeCheck(pc: PC) {
    pc.Launched? || pc.Starting? || pc.Looping? || pc.PostLoop?
  }

  predicate Losing(pc: PC) { pc.AskStatus? || pc.Failing? || Lost(pc) }

  predicate DoomedRun(r: Run) {
    Losing(r.pc) || (BeforeCheck(r.pc) && r.ctxDone)
  }

  /** A run that can only lose, and whose task is cancelled. */
  predicate Doomed(w: World, id: string) {
    && id in w.runs && id in w.used && DoomedRun(w.runs[id])
    && (id in w.tasks ==> w.tasks[id].status.Cancelled? && !w.tasks[id].external)
  }

  lemma DoomedLocal(cfg: Config, r: Run, cancelled: bool, input: Input)
    requires DoomedRun(r)
    ensures DoomedRun(LocalStep(cfg, r, cancelled, input))
  {}

  lemma DoomedTable(cfg: Config, w: World, id: string)
    requires Doomed(w, id) && InTable(w.runs[id].pc)
    ensures Doomed(TableStep(cfg, w, id), id)
  {}

  lemma DoomedEffects(cfg: Config, w: World, id: string)
    requires Doomed(w, id) && InEffects(w.runs[id].pc)
    ensures Doomed(EffectStep(cfg, w, id), id)
  {}

  lemma DoomedRunStaysDoomed(cfg: Config, w: World, id: string, input: Input)
    requires Doomed(w, id)
    ensures Doomed(AdvanceRun(cfg, w, id, input), id)
  {
    if InTable(w.runs[id].pc) {
      DoomedTable(cfg, w, id);
    } else if InEffects(w.runs[id].pc) {
      DoomedEffects(cfg, w, id);
    } else {
      DoomedLocal(cfg, w.runs[id], SeenCancelled(w, id), input);
    }
  }

  lemma NextKeepsDoomed(cfg: Config, w: World, step: Step, id: string)
    requires Doomed(w, id)
    ensures Doomed(Next(cfg, w, step), id)
  {
    if step.Advance? && step.id in w.runs {
      if step.id == id {
        DoomedRunStaysDoomed(cfg, w, id, step.input);
      } else {
        AdvanceIsLocal(cfg, w, step.id, step.input);
      }
    } else {
      OthersSpare(cfg, w, step, id);
    }
  }

  lemma {:induction false} DoomedForever(cfg: Config, steps: seq<Step>, more: seq<Step>, id: string)
    requires Doomed(Exec(cfg, steps), id)
    ensures Doomed(Exec(cfg, steps + more), id)
    decreases |more|
  {
    if more == [] {
      assert steps + more == steps;
    } else {
      DoomedForever(cfg, steps, more[..|more| - 1], id);
      assert (steps + more)[..|steps + more| - 1] == steps + more[..|more| - 1];
      NextKeepsDoomed(cfg, Exec(cfg, steps + more[..|more| - 1]), more[|more| - 1], id);
    }
  }

  /** The task of a dispatched run was cancelled, and the run has at most won since. */
  predicate NotFailed(w: World, id: string) {
    && id in w.runs && id in w.used && !Unregistered(w.runs[id].pc)
    && (id in w.tasks ==>
          && !w.tasks[id].external
          && (w.tasks[id].status.Cancelled? || (w.tasks[id].status.Completed? && Won(w.runs[id].pc))))
  }

  lemma TableNeverFails(cfg: Config, w: World, id: string)
    requires NotFailed(w, id) && InTable(w.runs[id].pc)
    ensures NotFailed(TableStep(cfg, w, id), id)
  {}

  lemma EffectNeverFails(cfg: Config, w: World, id: string)
    requires NotFailed(w, id) && InEffects(w.runs[id].pc)
    ensures NotFailed(EffectStep(cfg, w, id), id)
  {}

  lemma LocalNeverFails(cfg: Config, r: Run, cancelled: bool, input: Input)
    requires !AtGate(r.pc) && !InTable(r.pc) && !InEffects(r.pc) && !Unregistered(r.pc)
    ensures var r' := LocalStep(cfg, r, cancelled, input); !Unregistered(r'.pc) && (Won(r.pc) ==> Won(r'.pc))
  {}

  lemma OwnStepNeverFails(cfg: Config, w: World, id: string, input: Input)
    requires NotFailed(w, id)
    ensures NotFailed(AdvanceRun(cfg, w, id, input), id)
  {
    if InTable(w.runs[id].pc) {
      TableNeverFails(cfg, w, id);
    } else if InEffects(w.runs[id].pc) {
      EffectNeverFails(cfg, w, id);
    } else {
      LocalNeverFails(cfg, w.runs[id], SeenCancelled(w, id), input);
    }
  }

  lemma NextNeverFails(cfg: Config, w: World, step: Step, id: string)
    requires NotFailed(w, id)
    ensures NotFailed(Next(cfg, w, step), id)
  {
    if step.Advance? && step.id in w.runs {
      if step.id == id {
        OwnStepNeverFails(cfg, w, id, step.input);
      } else {
        AdvanceIsLocal(cfg, w, step.id, step.input);
      }
    } else {
      OthersSpare(cfg, w, step, id);
    }
  }

  /**
   A cancelled task of a dispatched run never becomes failed, under any
   interleaving: while stored it stays cancelled, or the run has won and it is
   completed.
   */
  lemma {:induction false} CancelledRunsNeverFail(cfg: Config, steps: seq<Step>, more: seq<Step>, id: string)
    requires var w := Exec(cfg, steps); id in w.runs && id in w.tasks && w.tasks[id].status.Cancelled?
    ensures var w := Exec(cfg, steps + more);
            && id in w.runs
            && (id in w.tasks ==>
                  w.tasks[id].status.Cancelled? || (w.tasks[id].status.Completed? && Won(w.runs[id].pc)))
  {
    RunsReachable(cfg, steps);
    assert RunConsistent(cfg, Exec(cfg, steps), id);
    NeverFailsAfter(cfg, steps, more, id);
  }

  lemma {:induction false} NeverFailsAfter(cfg: Config, steps: seq<Step>, more: seq<Step>, id: string)
    requires NotFailed(Exec(cfg, steps), id)
    ensures NotFailed(Exec(cfg, steps + more), id)
    decreases |more|
  {
    if more == [] {
      assert steps + more == steps;
    } else {
      NeverFailsAfter(cfg, steps, more[..|more| - 1], id);
      assert (steps + more)[..|steps + more| - 1] == steps + more[..|more| - 1];
      NextNeverFails(cfg, Exec(cfg, steps + more[..|more| - 1]), more[|more| - 1], id);
    }
  }

  /**
   A cancel of a running task that arrives after the run has published its
   cancel function and before it has looked at its context is final: the run
   never succeeds afterwards, and its task, while stored, stays cancelled.
   */
  lemma CancelBeforeTheCheckSticks(cfg: Config, steps: seq<Step>, more: seq<Step>, id: string)
    requires var w := Exec(cfg, steps);
             && id in w.runs && (w.runs[id].pc.Starting? || w.runs[id].pc.Looping? || w.runs[id].pc.PostLoop?)
             && id in w.tasks && w.tasks[id].status.Running? && w.tasks[id].cancellable
    ensures var w := Exec(cfg, steps + [UserCancel(id)] + more);
            && id in w.runs && !Won(w.runs[id].pc)
            && (id in w.tasks ==> w.tasks[id].status.Cancelled?)
  {
    var w := Exec(cfg, steps);
    RunsReachable(cfg, steps);
    assert RunConsistent(cfg, w, id);
    assert (steps + [UserCancel(id)])[..|steps|] == steps;
    assert Doomed(Next(cfg, w, UserCancel(id)), id);
    DoomedForever(cfg, steps + [UserCancel(id)], more, id);
  }

  /** A cancel the run does not get to see: it is past its check, or the cancel cannot reach its context. */
  predicate Unseen(w: World, id: string)
    requires id in w.runs && id in w.tasks
  {
    var r := w.runs[id];
    r.pc.Completing? || (BeforeCheck(r.pc) && !r.ctxDone && !w.tasks[id].cancellable)
  }

  ghost predicate WinsAfter(cfg: Config, steps: seq<Step>, more: seq<Step>, id: string) {
    id in Exec(cfg, steps + more).runs && Won(Exec(cfg, steps + more).runs[id].pc)
  }

  function StepsToWin(pc: PC): nat {
    match pc
    case Launched => 5
    case Starting => 4
    case Looping => 3
    case PostLoop => 2
    case Completing => 1
    case _ => 0
  }

  function WinningInput(pc: PC): Input {
    if pc.Starting? then RunOk else if pc.Looping? then Closed else Nothing
  }

  lemma OneStepToWin(cfg: Config, w: World, id: string)
    requires id in w.runs && StepsToWin(w.runs[id].pc) > 0 && (BeforeCheck(w.runs[id].pc) ==> !w.runs[id].ctxDone)
    ensures var w' := Next(cfg, w, Advance(id, WinningInput(w.runs[id].pc)));
            && id in w'.runs && w'.runs[id].ctxDone == w.runs[id].ctxDone
            && StepsToWin(w'.runs[id].pc) == StepsToWin(w.runs[id].pc) - 1
            && (w.runs[id].pc.Completing? ==> w'.runs[id].pc.MarkingDone?)
  {
    var pc, input := w.runs[id].pc, WinningInput(w.runs[id].pc);
    if InTable(pc) {
      assert AdvanceRun(cfg, w, id, input) == TableStep(cfg, w, id);
    }
  }

  lemma {:induction false} WinFrom(cfg: Config, steps: seq<Step>, id: string) returns (more: seq<Step>)
    requires var w := Exec(cfg, steps);
             id in w.runs && StepsToWin(w.runs[id].pc) > 0 && (BeforeCheck(w.runs[id].pc) ==> !w.runs[id].ctxDone)
    ensures WinsAfter(cfg, steps, more, id)
    decreases StepsToWin(Exec(cfg, steps).runs[id].pc)
  {
    var w := Exec(cfg, steps);
    var step := Advance(id, WinningInput(w.runs[id].pc));
    OneStepToWin(cfg, w, id);
    assert (steps + [step])[..|steps|] == steps;
    if w.runs[id].pc.Completing? {
      more := [step];
    } else {
      var rest := WinFrom(cfg, steps + [step], id);
      more := [step] + rest;
      assert steps + [step] + rest == steps + more;
    }
  }

  lemma CancelDooms(cfg: Config, w: World, id: string)
    requires id in w.runs && RunConsistent(cfg, w, id)
    requires id in w.tasks && w.tasks[id].status.Running? && !Unseen(w, id)
    ensures Doomed(Next(cfg, w, UserCancel(id)), id)
  {}

  lemma UnseenCancelLeavesRun(cfg: Config, w: World, id: string)
    requires id in w.runs && id in w.tasks && w.tasks[id].status.Running? && Unseen(w, id)
    ensures var w' := Next(cfg, w, UserCancel(id));
            && id in w'.tasks && w'.tasks[id].status.Cancelled?
            && id in w'.runs && w'.runs[id].pc == w.runs[id].pc && (BeforeCheck(w.runs[id].pc) ==> !w'.runs[id].ctxDone)
  {}

  /**
   A cancel that found the task running can still be overwritten by the run's
   success exactly when the run was already past its check, or had not reached
   it and the cancel could not touch its context, which is so until the run has
   published its cancel function.
   */
  lemma CancelIsOverwrittenIff(cfg: Config, steps: seq<Step>, id: string)
    requires var w := Exec(cfg, steps); id in w.runs && id in w.tasks && w.tasks[id].status.Running?
    ensures (exists more :: WinsAfter(cfg, steps + [UserCancel(id)], more, id)) <==> Unseen(Exec(cfg, steps), id)
  {
    var w, cancelled := Exec(cfg, steps), steps + [UserCancel(id)];
    RunsReachable(cfg, steps);
    assert RunConsistent(cfg, w, id);
    assert cancelled[..|steps|] == steps;
    if Unseen(w, id) {
      UnseenCancelLeavesRun(cfg, w, id);
      var more := WinFrom(cfg, cancelled, id);
    } else {
      CancelDooms(cfg, w, id);
      forall more ensures !WinsAfter(cfg, cancelled, more, id) {
        DoomedForever(cfg, cancelled, more, id);
      }
    }
  }
}
