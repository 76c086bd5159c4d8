/**
 The dispatch call itself, against the real store: the loop over earlier stages,
 the pipeline clock, and the registration. DispatchProtocol takes the same
 accesses one at a time.
 */
module Dispatcher {
  import opened Options
  import opened TaskLedger
  import opened Pipelines
  import opened InFlight
  import opened DispatchProtocol

  datatype Response =
    | UnknownAgent
    | StageBlocked(stage: int)
    | PipelineExpired(elapsed: int)
    | Accepted(taskID: string)

  /** The first stage before `upTo` that is not complete. */
  ghost predicate FirstMissing(done: set<int>, upTo: int, stage: int) {
    1 <= stage < upTo && stage !in done && forall s | 1 <= s < stage :: s in done
  }

  class AsyncDispatcher {
    const cfg: Config
    const store: InFlightStore

    constructor (cfg: Config, store: InFlightStore)
      ensures this.cfg == cfg && this.store == store
    {
      this.cfg, this.store := cfg, store;
    }

    ghost function StartsAfter(sessionID: string, pa: PipelineAgent, now: int): StartTimes
      reads store
    {
      if pa.stage == 1 then WithStart(store.pipelineStartTimes, sessionID, pa.pipeline, now)
      else store.pipelineStartTimes
    }

    /** More than two hours have passed since the recorded start. */
    ghost predicate OverTime(sessionID: string, pipeline: string, now: int)
      reads store
    {
      var starts := store.pipelineStartTimes;
      sessionID in starts && pipeline in starts[sessionID] && now > starts[sessionID][pipeline] + 2 * 60 * 60
    }

    /** The stages before this one, then the clock: the refusal, if any. */
    method CheckPipeline(pa: PipelineAgent, sessionID: string, now: int) returns (refusal: Option<Response>)
      modifies store`pipelineStartTimes
      ensures refusal.Some? ==> refusal.value.StageBlocked? || refusal.value.PipelineExpired?
      ensures refusal.Some? && refusal.value.StageBlocked? ==>
                && FirstMissing(Done(store.pipelineProgress, sessionID, pa.pipeline), pa.stage, refusal.value.stage)
                && store.pipelineStartTimes == old(store.pipelineStartTimes)
      ensures !(refusal.Some? && refusal.value.StageBlocked?) ==>
                && (forall s | 1 <= s < pa.stage :: s in Done(store.pipelineProgress, sessionID, pa.pipeline))
                && store.pipelineStartTimes == old(StartsAfter(sessionID, pa, now))
                && (refusal.Some? <==> OverTime(sessionID, pa.pipeline, now))
    {
      if pa.stage > 1 {
        for stage := 1 to pa.stage
          modifies {}
          invariant forall s | 1 <= s < stage :: s in Done(store.pipelineProgress, sessionID, pa.pipeline)
        {
          var done := store.IsPipelineStageCompleted(sessionID, pa.pipeline, stage);
          if !done {
            return Some(StageBlocked(stage));
          }
        }
      }
      if pa.stage == 1 {
        store.RecordPipelineStart(sessionID, pa.pipeline, now);
      }
      var elapsed := store.PipelineElapsed(sessionID, pa.pipeline, now);
      OverTimeIff(store.pipelineStartTimes, sessionID, pa.pipeline, now, MAX_PIPELINE_DURATION);
      if elapsed > MAX_PIPELINE_DURATION {
        return Some(PipelineExpired(elapsed));
      }
      return None;
    }

    /** The request names a pipeline, and the index has its agent in that pipeline. */
    predicate Named(req: Request) {
      && req.pipeline != "" && req.agentName in cfg.pipelineAgents
      && cfg.pipelineAgents[req.agentName].pipeline == req.pipeline
    }

    /**
     `taskID` is the new UUID. A dispatch is refused for an unknown agent, then
     for the first incomplete earlier stage, then for an expired pipeline; only
     a stage-1 dispatch starts the clock, even one that is then refused; and
     exactly an accepted one registers a running task.
     */
    method Dispatch(req: Request, sessionID: string, taskID: string, now: int) returns (resp: Response)
      requires store.Valid()
      modifies store`tasks, store`pipelineStartTimes
      ensures store.Valid()
      ensures resp.UnknownAgent? <==> req.agentName !in cfg.agents
      ensures resp.StageBlocked? ==>
                && Named(req)
                && FirstMissing(Done(store.pipelineProgress, sessionID, req.pipeline),
                                cfg.pipelineAgents[req.agentName].stage, resp.stage)
      ensures resp.PipelineExpired? ==> Named(req) && OverTime(sessionID, req.pipeline, now)
      ensures req.agentName in cfg.agents && !Named(req) ==> resp.Accepted?
      ensures req.agentName in cfg.agents && Named(req) ==>
                (resp.Accepted? <==>
                   && (forall s | 1 <= s < cfg.pipelineAgents[req.agentName].stage ::
                         s in Done(store.pipelineProgress, sessionID, req.pipeline))
                   && !OverTime(sessionID, req.pipeline, now))
      ensures store.pipelineStartTimes ==
              if Named(req) && (resp.PipelineExpired? || resp.Accepted?)
              then old(StartsAfter(sessionID, cfg.pipelineAgents[req.agentName], now))
              else old(store.pipelineStartTimes)
      ensures resp.Accepted? ==>
                && taskID in store.tasks
                && var t := store.tasks[taskID];
                   && t.agentName == req.agentName && t.policy == req.policy && t.sessionID == sessionID
                   && t.status == Running && !t.external
                   && t.pipelineName == (if Named(req) then req.pipeline else "")
                   && t.pipelineStage == (if Named(req) then cfg.pipelineAgents[req.agentName].stage else 0)
      ensures store.View() ==
              if resp.Accepted? then Apply(old(store.View()), Registration(cfg, taskID, sessionID, req), now)
              else old(store.View())
      ensures resp.Accepted? ==> resp.taskID == taskID
    {
      if req.agentName !in cfg.agents {
        return UnknownAgent;
      }
      GatedIff(cfg, req, if Named(req) then cfg.pipelineAgents[req.agentName].stage else 0);
      if req.pipeline != "" {
        if req.agentName in cfg.pipelineAgents && cfg.pipelineAgents[req.agentName].pipeline == req.pipeline {
          var refusal := CheckPipeline(cfg.pipelineAgents[req.agentName], sessionID, now);
          if refusal.Some? {
            return refusal.value;
          }
        }
      }
      var pipelineName, pipelineStage := "", 0;
      if req.pipeline != "" {
        if req.agentName in cfg.pipelineAgents && cfg.pipelineAgents[req.agentName].pipeline == req.pipeline {
          pipelineName := cfg.pipelineAgents[req.agentName].pipeline;
          pipelineStage := cfg.pipelineAgents[req.agentName].stage;
        }
      }
      store.Register(taskID, req.agentName, req.policy, sessionID, pipelineName, pipelineStage, now);
      return Accepted(taskID);
    }
  }
}
