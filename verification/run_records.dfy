/**
 The record of a dispatched run: whose task it is, where it belongs, and the
 result it hands over.
 */
module RunRecords {
  import opened Options
  import opened TaskLedger
  import opened Pipelines
  import opened DispatchProtocol
  import opened RunSafety

  /** The record carries the run's own request and, once completed, its result. */
  predicate RecordOk(cfg: Config, r: Run, t: Task) {
    var named := r.req.pipeline != "" && r.req.agentName in cfg.pipelineAgents
                 && cfg.pipelineAgents[r.req.agentName].pipeline == r.req.pipeline;
    && t.agentName == r.req.agentName && t.policy == r.req.policy && t.sessionID == r.sessionID
    && t.pipelineName == (if named then r.req.pipeline else "")
    && t.pipelineStage == (if named then cfg.pipelineAgents[r.req.agentName].stage else 0)
    && (t.status.Completed? ==> t.result == r.loop.result)
  }

  ghost predicate RecordsOk(cfg: Config, w: World) {
    forall id | id in w.runs && id in w.tasks :: RecordOk(cfg, w.runs[id], w.tasks[id])
  }

  lemma RegisterMakesRecord(cfg: Config, w: World, id: string)
    requires id in w.runs && w.runs[id].pc.Registering?
    ensures var w' := TableStep(cfg, w, id); id in w'.tasks && RecordOk(cfg, w'.runs[id], w'.tasks[id])
  {
    var req := w.runs[id].req;
    GatedIff(cfg, req, if req.agentName in cfg.pipelineAgents then cfg.pipelineAgents[req.agentName].stage else 0);
  }

  lemma TableKeepsRecord(cfg: Config, w: World, id: string)
    requires id in w.runs && InTable(w.runs[id].pc) && !w.runs[id].pc.Registering?
    requires id in w.tasks ==> RecordOk(cfg, w.runs[id], w.tasks[id])
    ensures var w' := TableStep(cfg, w, id); id in w'.tasks ==> RecordOk(cfg, w'.runs[id], w'.tasks[id])
  {}

  lemma LocalKeepsRecord(cfg: Config, r: Run, cancelled: bool, input: Input, t: Task)
    requires RecordOk(cfg, r, t) && FateOk(r.pc, t) && !AtGate(r.pc) && !InTable(r.pc) && !InEffects(r.pc)
    ensures RecordOk(cfg, LocalStep(cfg, r, cancelled, input), t)
  {}

  lemma EffectKeepsRecord(cfg: Config, w: World, id: string)
    requires id in w.runs && InEffects(w.runs[id].pc) && id in w.tasks && RecordOk(cfg, w.runs[id], w.tasks[id])
    ensures var w' := EffectStep(cfg, w, id); w'.tasks == w.tasks && RecordOk(cfg, w'.runs[id], w'.tasks[id])
  {}

  lemma OwnStepKeepsRecord(cfg: Config, w: World, id: string, input: Input)
    requires id in w.runs && TaskOk(w.runs[id].pc, id, w.tasks)
    requires id in w.tasks ==> RecordOk(cfg, w.runs[id], w.tasks[id])
    ensures var w' := AdvanceRun(cfg, w, id, input);
            id in w'.runs && (id in w'.tasks ==> RecordOk(cfg, w'.runs[id], w'.tasks[id]))
  {
    var pc := w.runs[id].pc;
    if AtGate(pc) {
      assert AdvanceRun(cfg, w, id, input).tasks == w.tasks && id !in w.tasks;
    } else if InTable(pc) {
      if pc.Registering? {
        RegisterMakesRecord(cfg, w, id);
      } else {
        TableKeepsRecord(cfg, w, id);
      }
    } else if InEffects(pc) {
      if id in w.tasks {
        EffectKeepsRecord(cfg, w, id);
      } else {
        assert AdvanceRun(cfg, w, id, input).tasks == w.tasks;
      }
    } else if id in w.tasks {
      LocalKeepsRecord(cfg, w.runs[id], SeenCancelled(w, id), input, w.tasks[id]);
    }
  }

  lemma OthersOpKeepsRecord(cfg: Config, r: Run, tasks: Tasks, op: Op, now: int, id: string)
    requires id in tasks && id in Apply(tasks, op, now) && !tasks[id].external && RecordOk(cfg, r, tasks[id])
    requires (op.Targets() && !op.Cancel? ==> op.id != id)
    ensures RecordOk(cfg, r, Apply(tasks, op, now)[id])
  {
    ApplyKeepsTask(tasks, op, now, id);
    if op.Targets() {
      ApplyIsLocal(tasks, op, now);
    }
  }

  lemma CancelLeavesRun(cfg: Config, w: World, other: string, id: string)
    requires id in w.runs
    ensures var w' := Next(cfg, w, UserCancel(other));
            && w'.tasks == Apply(w.tasks, Cancel(other), w.now)
            && id in w'.runs && w'.runs[id] == w.runs[id].(ctxDone := w'.runs[id].ctxDone)
  {}

  lemma CancelKeepsRecord(cfg: Config, w: World, other: string, id: string)
    requires id in w.runs && id in w.tasks && !w.tasks[id].external && RecordOk(cfg, w.runs[id], w.tasks[id])
    requires id in Next(cfg, w, UserCancel(other)).runs && id in Next(cfg, w, UserCancel(other)).tasks
    ensures RecordOk(cfg, Next(cfg, w, UserCancel(other)).runs[id], Next(cfg, w, UserCancel(other)).tasks[id])
  {
    CancelLeavesRun(cfg, w, other, id);
    OthersOpKeepsRecord(cfg, w.runs[id], w.tasks, Cancel(other), w.now, id);
  }

  lemma QuietKeepsRecord(cfg: Config, w: World, step: Step, id: string)
    requires !step.UserCancel? && !step.Other? && (!step.Advance? || step.id !in w.runs)
    requires id in w.runs && id in w.used && id in w.tasks && RecordOk(cfg, w.runs[id], w.tasks[id])
    ensures var w' := Next(cfg, w, step);
            id in w'.runs && (id in w'.tasks ==> RecordOk(cfg, w'.runs[id], w'.tasks[id]))
  {
    assert Next(cfg, w, step).tasks == w.tasks;
    assert Next(cfg, w, step).runs[id] in {w.runs[id], w.runs[id].(ctxDone := true)};
  }

  lemma OthersKeepRecord(cfg: Config, w: World, step: Step, id: string)
    requires RunInv(cfg, w) && (!step.Advance? || step.id !in w.runs)
    requires id in w.runs && id in w.tasks && RecordOk(cfg, w.runs[id], w.tasks[id])
    requires id in Next(cfg, w, step).runs && id in Next(cfg, w, step).tasks
    ensures RecordOk(cfg, Next(cfg, w, step).runs[id], Next(cfg, w, step).tasks[id])
  {
    assert RunConsistent(cfg, w, id);
    match step
    case UserCancel(other) => CancelKeepsRecord(cfg, w, other, id);
    case Other(op) =>
      if OtherMay(w, op) {
        OtherLeavesRun(cfg, w, op, id);
        OthersOpKeepsRecord(cfg, w.runs[id], w.tasks, op, w.now, id);
      }
    case _ => QuietKeepsRecord(cfg, w, step, id);
  }

  lemma OtherLeavesRun(cfg: Config, w: World, op: Op, id: string)
    requires id in w.runs && id in w.used && OtherMay(w, op)
    ensures Next(cfg, w, Other(op)).runs == w.runs && Next(cfg, w, Other(op)).tasks == Apply(w.tasks, op, w.now)
    ensures op.Targets() && !op.Cancel? ==> op.id != id
  {}

  /** No task is stored under the ID of a run that only now begins. */
  lemma NewRunHasNoRecord(cfg: Config, w: World, step: Step, id: string)
    requires RunInv(cfg, w) && id !in w.runs && id in Next(cfg, w, step).runs
    ensures id !in Next(cfg, w, step).tasks
  {
    if step.Advance? && step.id in w.runs {
      AdvanceIsLocal(cfg, w, step.id, step.input);
    }
  }

  lemma NextKeepsRecords(cfg: Config, w: World, step: Step)
    requires RunInv(cfg, w) && RecordsOk(cfg, w)
    ensures RecordsOk(cfg, Next(cfg, w, step))
  {
    var w' := Next(cfg, w, step);
    forall id | id in w'.runs && id in w'.tasks ensures RecordOk(cfg, w'.runs[id], w'.tasks[id]) {
      if id !in w.runs {
        NewRunHasNoRecord(cfg, w, step, id);
      } else {
        assert RunConsistent(cfg, w, id);
        if step.Advance? && step.id in w.runs {
          AdvanceIsLocal(cfg, w, step.id, step.input);
          OwnStepKeepsRecord(cfg, w, step.id, step.input) by { assert RunConsistent(cfg, w, step.id); }
        } else {
          OthersSpare(cfg, w, step, id);
          OthersKeepRecord(cfg, w, step, id);
        }
      }
    }
  }

  /**
   In every reachable world the stored task of a run carries the run's agent, policy
   and session, its pipeline and stage exactly if the index has the agent in the
   pipeline the request names, and, once completed, the run's result.
   */
  lemma {:induction false} RecordsFollowTheirRuns(cfg: Config, steps: seq<Step>, id: string)
    ensures var w := Exec(cfg, steps);
            id in w.runs && id in w.tasks ==> RecordOk(cfg, w.runs[id], w.tasks[id])
  {
    RecordsReachable(cfg, steps);
  }

  lemma {:induction false} RecordsReachable(cfg: Config, steps: seq<Step>)
    ensures RecordsOk(cfg, Exec(cfg, steps))
    decreases |steps|
  {
    if steps != [] {
      RecordsReachable(cfg, steps[..|steps| - 1]);
      RunsReachable(cfg, steps[..|steps| - 1]);
      NextKeepsRecords(cfg, Exec(cfg, steps[..|steps| - 1]), steps[|steps| - 1]);
    }
  }

  /**
   The result of a successful run is the one a collection hands out: while the task
   is stored it is completed with that result, and the next collection removes it
   exactly if its policy is to queue.
   */
  lemma {:induction false} SuccessIsCollected(cfg: Config, steps: seq<Step>, id: string)
    requires var w := Exec(cfg, steps); id in w.runs && Won(w.runs[id].pc) && id in w.tasks
    ensures var w := Exec(cfg, steps);
            && w.tasks[id].status == Completed && w.tasks[id].result == w.runs[id].loop.result
            && (id in Apply(w.tasks, QueuedResults, w.now) <==> w.runs[id].req.policy != Queue)
  {
    var w := Exec(cfg, steps);
    RunsReachable(cfg, steps);
    assert RunConsistent(cfg, w, id);
    RecordsFollowTheirRuns(cfg, steps, id);
    CollectInFields(w.tasks, w.now, id);
  }
}
