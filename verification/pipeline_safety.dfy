/**
 What every reachable world keeps about pipelines: stages complete in order, a
 run never outruns its gate, and admission respects one fixed start time.
 */
module PipelineSafety {
  import opened Options
  import opened Pipelines
  import opened DispatchProtocol

  /** Stage numbers are 1-based, as the index of the pipeline definitions makes them. */
  ghost predicate ValidConfig(cfg: Config) {
    forall a | a in cfg.pipelineAgents :: cfg.pipelineAgents[a].stage >= 1
  }

  ghost predicate InOrder(stages: set<int>) {
    DownwardClosed(stages) && forall s | s in stages :: s >= 1
  }

  ghost predicate AdmittedInTime(w: World, r: Run, pipeline: string) {
    && r.admittedAt.Some? && Started(w.starts, r.sessionID, pipeline).Some?
    && var start := Started(w.starts, r.sessionID, pipeline).value;
       start <= r.admittedAt.value <= start + 2 * 60 * 60 && r.admittedAt.value <= w.now
  }

  predicate PastGate(pc: PC) { !pc.Gate? && !pc.Refused? }

  predicate Admitted(pc: PC) { PastGate(pc) && !pc.StartClock? && !pc.CheckElapsed? }

  /** What a gated run relies on at its current step. */
  ghost predicate GateOk(cfg: Config, w: World, r: Run) {
    match Gated(cfg, r.req)
    case None => !r.pc.StartClock? && !r.pc.CheckElapsed?
    case Some(pa) =>
      var done := Done(w.progress, r.sessionID, pa.pipeline);
      && (r.pc.Gate? ==> 1 <= r.pc.stage <= pa.stage && Below(r.pc.stage, done))
      && (PastGate(r.pc) ==> Below(pa.stage, done))
      && (r.pc.CheckElapsed? ==> Started(w.starts, r.sessionID, pa.pipeline).Some?)
      && (Admitted(r.pc) ==> AdmittedInTime(w, r, pa.pipeline))
  }

  ghost predicate Below(stage: int, done: set<int>) {
    forall s | 1 <= s < stage :: s in done
  }

  ghost predicate TablesOk(w: World) {
    && (forall s, n :: InOrder(Done(w.progress, s, n)))
    && (forall s, n :: Done(w.progress, s, n) != {} ==> Started(w.starts, s, n).Some?)
    && (forall s, n :: Started(w.starts, s, n).Some? ==> Started(w.starts, s, n).value <= w.now)
  }

  ghost predicate GateInv(cfg: Config, w: World) {
    TablesOk(w) && forall id | id in w.runs :: GateOk(cfg, w, w.runs[id])
  }

  /** The tables only grow, a start time never changes, and the clock never runs back. */
  ghost predicate Grows(w: World, w': World) {
    && w.now <= w'.now
    && (forall s, n :: Done(w.progress, s, n) <= Done(w'.progress, s, n))
    && (forall s, n :: Started(w.starts, s, n).Some? ==> Started(w'.starts, s, n) == Started(w.starts, s, n))
  }

  // ---------------------------------------------------------------------
  // The part of a step that concerns pipelines
  // ---------------------------------------------------------------------

  ghost predicate SamePosition(r: Run, r': Run) {
    r'.sessionID == r.sessionID && r'.req == r.req && r'.pc == r.pc && r'.admittedAt == r.admittedAt
  }

  ghost predicate Moves(cfg: Config, w: World, r: Run, r': Run) {
    && r'.sessionID == r.sessionID && r'.req == r.req
    && (match Gated(cfg, r.req)
        case None => !r'.pc.StartClock? && !r'.pc.CheckElapsed?
        case Some(pa) =>
          match r.pc
          case Gate(k) =>
            r'.pc == if k >= pa.stage then StartClock
                     else if k in Done(w.progress, r.sessionID, pa.pipeline) then Gate(k + 1) else Refused
          case StartClock => r'.pc == CheckElapsed
          case CheckElapsed =>
            || r'.pc == Refused
            || (r'.pc == Registering && r'.admittedAt == Some(w.now)
                && Elapsed(w.starts, r.sessionID, pa.pipeline, w.now) <= MAX_PIPELINE_DURATION)
          case Refused => r'.pc == Refused
          case _ => Admitted(r'.pc) && r'.admittedAt == r.admittedAt)
  }

  ghost predicate Advances(cfg: Config, w: World, w': World, id: string)
    requires id in w.runs
  {
    var r := w.runs[id];
    && w'.now == w.now && w'.used == w.used && id in w'.runs && w'.runs == w.runs[id := w'.runs[id]]
    && Moves(cfg, w, r, w'.runs[id])
    && w'.progress == (if r.pc.Recording? && Gated(cfg, r.req).Some?
                       then var pa := Gated(cfg, r.req).value;
                            Recorded(w.progress, r.sessionID, pa.pipeline, pa.stage)
                       else w.progress)
    && w'.starts == (if r.pc.StartClock? && Gated(cfg, r.req).Some? && Gated(cfg, r.req).value.stage == 1
                     then WithStart(w.starts, r.sessionID, Gated(cfg, r.req).value.pipeline, w.now)
                     else w.starts)
  }

  lemma AdmissionAdvances(cfg: Config, w: World, id: string)
    requires id in w.runs && AtGate(w.runs[id].pc) && GateOk(cfg, w, w.runs[id])
    ensures Advances(cfg, w, AdmissionStep(cfg, w, id), id)
  {}

  lemma TableAdvances(cfg: Config, w: World, id: string)
    requires id in w.runs && InTable(w.runs[id].pc)
    ensures Advances(cfg, w, TableStep(cfg, w, id), id)
  {}

  lemma EffectAdvances(cfg: Config, w: World, id: string)
    requires id in w.runs && InEffects(w.runs[id].pc)
    ensures Advances(cfg, w, EffectStep(cfg, w, id), id)
  {}

  lemma LocalAdvances(cfg: Config, w: World, id: string, input: Input)
    requires id in w.runs && !AtGate(w.runs[id].pc) && !InTable(w.runs[id].pc) && !InEffects(w.runs[id].pc)
    ensures Advances(cfg, w, AdvanceRun(cfg, w, id, input), id)
  {}

  lemma AdvanceAdvances(cfg: Config, w: World, id: string, input: Input)
    requires id in w.runs && GateOk(cfg, w, w.runs[id])
    ensures Advances(cfg, w, AdvanceRun(cfg, w, id, input), id)
  {
    if AtGate(w.runs[id].pc) {
      AdmissionAdvances(cfg, w, id);
    } else if InTable(w.runs[id].pc) {
      TableAdvances(cfg, w, id);
    } else if InEffects(w.runs[id].pc) {
      EffectAdvances(cfg, w, id);
    } else {
      LocalAdvances(cfg, w, id, input);
    }
  }

  /** A step that no dispatch or run takes: the tables stay, positions stay, new dispatches start at the gate. */
  ghost predicate Stands(w: World, w': World) {
    && w.now <= w'.now && w'.progress == w.progress && w'.starts == w.starts
    && w.runs.Keys <= w'.runs.Keys <= w'.used
    && (forall id | id in w'.runs ::
          if id in w.runs then SamePosition(w.runs[id], w'.runs[id]) else w'.runs[id].pc == Gate(1))
  }

  lemma OthersStand(cfg: Config, w: World, step: Step)
    requires step.Advance? ==> step.id !in w.runs
    requires w.runs.Keys <= w.used
    ensures Stands(w, Next(cfg, w, step))
  {
    if !step.Dispatch? {
      OthersKeepPositions(cfg, w, step);
    }
  }

  lemma OthersKeepPositions(cfg: Config, w: World, step: Step)
    requires !step.Dispatch? && (step.Advance? ==> step.id !in w.runs)
    ensures var w' := Next(cfg, w, step);
            && w'.runs.Keys == w.runs.Keys && w.used <= w'.used
            && (forall id | id in w.runs :: SamePosition(w.runs[id], w'.runs[id]))
  {
    if step.Other? {
      assert Next(cfg, w, step).runs == w.runs;
    }
  }

  // ---------------------------------------------------------------------
  // Preservation
  // ---------------------------------------------------------------------

  lemma AdvanceGrows(cfg: Config, w: World, w': World, id: string)
    requires id in w.runs && Advances(cfg, w, w', id)
    ensures Grows(w, w')
  {
    var r := w.runs[id];
    if Gated(cfg, r.req).Some? {
      var pa := Gated(cfg, r.req).value;
      RecordedAddsOneStage(w.progress, r.sessionID, pa.pipeline, pa.stage);
      WithStartKeepsFirst(w.starts, r.sessionID, pa.pipeline, w.now);
    }
  }

  lemma GateOkGrows(cfg: Config, w: World, w': World, r: Run, r': Run)
    requires GateOk(cfg, w, r) && Grows(w, w') && SamePosition(r, r')
    ensures GateOk(cfg, w', r')
  {}

  lemma AdvanceKeepsTables(cfg: Config, w: World, w': World, id: string)
    requires ValidConfig(cfg) && TablesOk(w)
    requires id in w.runs && GateOk(cfg, w, w.runs[id]) && Advances(cfg, w, w', id)
    ensures TablesOk(w')
  {
    var r := w.runs[id];
    if Gated(cfg, r.req).Some? {
      var pa := Gated(cfg, r.req).value;
      RecordedAddsOneStage(w.progress, r.sessionID, pa.pipeline, pa.stage);
      WithStartKeepsFirst(w.starts, r.sessionID, pa.pipeline, w.now);
    }
  }

  lemma AdvanceKeepsGate(cfg: Config, w: World, w': World, id: string)
    requires ValidConfig(cfg) && TablesOk(w)
    requires id in w.runs && GateOk(cfg, w, w.runs[id]) && Advances(cfg, w, w', id)
    ensures GateOk(cfg, w', w'.runs[id])
  {
    var r := w.runs[id];
    AdvanceGrows(cfg, w, w', id);
    if Gated(cfg, r.req).Some? {
      var pa := Gated(cfg, r.req).value;
      WithStartKeepsFirst(w.starts, r.sessionID, pa.pipeline, w.now);
      if r.pc.StartClock? && pa.stage > 1 {
        assert 1 in Done(w.progress, r.sessionID, pa.pipeline);
      }
    }
  }

  lemma NextKeepsGate(cfg: Config, w: World, step: Step)
    requires ValidConfig(cfg) && GateInv(cfg, w) && w.runs.Keys <= w.used
    ensures var w' := Next(cfg, w, step); GateInv(cfg, w') && Grows(w, w') && w'.runs.Keys <= w'.used
  {
    if step.Advance? && step.id in w.runs {
      AdvanceAdvances(cfg, w, step.id, step.input);
      AdvanceKeepsInv(cfg, w, AdvanceRun(cfg, w, step.id, step.input), step.id);
    } else {
      OthersStand(cfg, w, step);
      StandKeepsInv(cfg, w, Next(cfg, w, step));
    }
  }

  lemma AdvanceKeepsInv(cfg: Config, w: World, w': World, id: string)
    requires ValidConfig(cfg) && GateInv(cfg, w)
    requires id in w.runs && Advances(cfg, w, w', id)
    ensures GateInv(cfg, w') && Grows(w, w')
  {
    assert GateOk(cfg, w, w.runs[id]);
    AdvanceGrows(cfg, w, w', id);
    AdvanceKeepsTables(cfg, w, w', id);
    AdvanceKeepsGate(cfg, w, w', id);
    forall other | other in w'.runs && other != id ensures GateOk(cfg, w', w'.runs[other]) {
      GateOkGrows(cfg, w, w', w.runs[other], w'.runs[other]);
    }
  }

  lemma StandKeepsInv(cfg: Config, w: World, w': World)
    requires ValidConfig(cfg) && GateInv(cfg, w) && Stands(w, w')
    ensures GateInv(cfg, w') && Grows(w, w')
  {
    forall id | id in w'.runs ensures GateOk(cfg, w', w'.runs[id]) {
      if id in w.runs {
        GateOkGrows(cfg, w, w', w.runs[id], w'.runs[id]);
      }
    }
  }

  lemma {:induction false} Reachable(cfg: Config, steps: seq<Step>)
    requires ValidConfig(cfg)
    ensures var w := Exec(cfg, steps); GateInv(cfg, w) && w.runs.Keys <= w.used
    decreases |steps|
  {
    if steps != [] {
      Reachable(cfg, steps[..|steps| - 1]);
      NextKeepsGate(cfg, Exec(cfg, steps[..|steps| - 1]), steps[|steps| - 1]);
    }
  }

  lemma {:induction false} LaterGrows(cfg: Config, steps: seq<Step>, more: seq<Step>)
    requires ValidConfig(cfg)
    ensures Grows(Exec(cfg, steps), Exec(cfg, steps + more))
    decreases |more|
  {
    if more == [] {
      assert steps + more == steps;
    } else {
      var init := more[..|more| - 1];
      LaterGrows(cfg, steps, init);
      assert (steps + more)[..|steps + more| - 1] == steps + init;
      Reachable(cfg, steps + init);
      NextKeepsGate(cfg, Exec(cfg, steps + init), more[|more| - 1]);
    }
  }

  /**
   Under any interleaving the completed stages of a session's pipeline are
   exactly 1 to k for some k.
   */
  lemma {:induction false} CompletedStagesFormAPrefix(cfg: Config, steps: seq<Step>,
        sessionID: string, pipeline: string)
    requires ValidConfig(cfg)
    ensures var done := Done(Exec(cfg, steps).progress, sessionID, pipeline); done == UpTo(|done|)
  {
    Reachable(cfg, steps);
    PrefixFromClosure(Done(Exec(cfg, steps).progress, sessionID, pipeline));
  }

  /** Every run of stage j, from its admission to its end, has stages 1 to j-1 behind it. */
  lemma InFlightStagesHavePredecessors(cfg: Config, steps: seq<Step>, id: string, j: int)
    requires ValidConfig(cfg)
    requires var w := Exec(cfg, steps);
             && id in w.runs && PastGate(w.runs[id].pc) && w.runs[id].req.pipeline != ""
             && var req := w.runs[id].req;
                req.agentName in cfg.pipelineAgents
                && cfg.pipelineAgents[req.agentName] == PipelineAgent(req.pipeline, j)
    ensures var r := Exec(cfg, steps).runs[id];
            forall s | 1 <= s < j :: s in Done(Exec(cfg, steps).progress, r.sessionID, r.req.pipeline)
  {
    Reachable(cfg, steps);
    var w := Exec(cfg, steps);
    assert GateOk(cfg, w, w.runs[id]);
    GatedIff(cfg, w.runs[id].req, j);
  }

  /**
   Every admitted run of a pipeline stage has a start time for its pipeline that
   was set by then, lies at most two hours before its admission, and is still
   the same after any further steps.
   */
  lemma AdmissionsRespectTheClock(cfg: Config, steps: seq<Step>, more: seq<Step>, id: string)
    requires ValidConfig(cfg)
    requires var w := Exec(cfg, steps);
             && id in w.runs && Admitted(w.runs[id].pc) && w.runs[id].req.pipeline != ""
             && var req := w.runs[id].req;
                req.agentName in cfg.pipelineAgents && cfg.pipelineAgents[req.agentName].pipeline == req.pipeline
    ensures var w, later := Exec(cfg, steps), Exec(cfg, steps + more);
            var r := w.runs[id];
            && AdmittedInTime(w, r, r.req.pipeline)
            && Started(later.starts, r.sessionID, r.req.pipeline) == Started(w.starts, r.sessionID, r.req.pipeline)
  {
    Reachable(cfg, steps);
    LaterGrows(cfg, steps, more);
    var w := Exec(cfg, steps);
    assert GateOk(cfg, w, w.runs[id]);
    GatedIff(cfg, w.runs[id].req, cfg.pipelineAgents[w.runs[id].req.agentName].stage);
  }

  /**
   What a dispatch of stage k does at its next step, apart from the moment it starts
   the clock: it is refused exactly for an earlier stage that is not complete, or
   for a start more than two hours ago, and otherwise goes on until it registers.
   */
  lemma GateDecides(cfg: Config, w: World, id: string, k: int)
    requires id in w.runs && AtGate(w.runs[id].pc) && w.runs[id].req.pipeline != ""
    requires var req := w.runs[id].req;
             req.agentName in cfg.pipelineAgents && cfg.pipelineAgents[req.agentName] == PipelineAgent(req.pipeline, k)
    ensures var r, w' := w.runs[id], AdvanceRun(cfg, w, id, Nothing);
            var start := Started(w.starts, r.sessionID, r.req.pipeline);
            && id in w'.runs
            && w'.runs[id].pc ==
               match r.pc {
                 case Gate(s) =>
                   if s >= k then StartClock
                   else if s in Done(w.progress, r.sessionID, r.req.pipeline) then Gate(s + 1) else Refused
                 case StartClock => CheckElapsed
                 case _ => if start.Some? && w.now - start.value > 2 * 60 * 60 then Refused else Registering
               }
            && Started(w'.starts, r.sessionID, r.req.pipeline) ==
               if r.pc.StartClock? && k == 1 && start.None? then Some(w.now) else start
  {
    GatedIff(cfg, w.runs[id].req, k);
    assert AdvanceRun(cfg, w, id, Nothing) == AdmissionStep(cfg, w, id);
  }

  /** Any other dispatch goes straight to its registration. */
  lemma UngatedGoesThrough(cfg: Config, w: World, id: string)
    requires id in w.runs && w.runs[id].pc.Gate?
    requires var req := w.runs[id].req;
             !(req.pipeline != "" && req.agentName in cfg.pipelineAgents
               && cfg.pipelineAgents[req.agentName].pipeline == req.pipeline)
    ensures var w' := AdvanceRun(cfg, w, id, Nothing);
            id in w'.runs && w'.runs[id].pc == Registering && w'.starts == w.starts
  {
    GatedIff(cfg, w.runs[id].req, 0);
    assert AdvanceRun(cfg, w, id, Nothing) == AdmissionStep(cfg, w, id);
  }

  /**
   Once two hours have passed since its start, a session's pipeline admits no
   dispatch ever again: nothing resets the start time.
   */
  lemma ExpiredPipelineStaysClosed(cfg: Config, steps: seq<Step>, more: seq<Step>, id: string, k: int)
    requires ValidConfig(cfg)
    requires var w, later := Exec(cfg, steps), Exec(cfg, steps + more);
             && id in later.runs && later.runs[id].req.pipeline != ""
             && (var req := later.runs[id].req;
                 req.agentName in cfg.pipelineAgents
                 && cfg.pipelineAgents[req.agentName] == PipelineAgent(req.pipeline, k))
             && var start := Started(w.starts, later.runs[id].sessionID, later.runs[id].req.pipeline);
                start.Some? && w.now > start.value + 2 * 60 * 60
    ensures var w, later := Exec(cfg, steps), Exec(cfg, steps + more);
            Admitted(later.runs[id].pc) ==> id in w.runs && Admitted(w.runs[id].pc)
  {
    var w, later := Exec(cfg, steps), Exec(cfg, steps + more);
    Reachable(cfg, steps + more);
    LaterGrows(cfg, steps, more);
    GatedIff(cfg, later.runs[id].req, k);
    assert GateOk(cfg, later, later.runs[id]);
    if Admitted(later.runs[id].pc) {
      AdmittedBefore(cfg, steps, more, id, later.runs[id].admittedAt.value);
    }
  }

  ghost predicate AdmittedAt(cfg: Config, w: World, id: string, at: int) {
    id in w.runs && Gated(cfg, w.runs[id].req).Some? && Admitted(w.runs[id].pc) && w.runs[id].admittedAt == Some(at)
  }

  lemma AdmittedNowOrBefore(cfg: Config, w: World, step: Step, id: string, at: int)
    requires ValidConfig(cfg) && GateInv(cfg, w) && w.runs.Keys <= w.used
    requires AdmittedAt(cfg, Next(cfg, w, step), id, at)
    ensures AdmittedAt(cfg, w, id, at) || at == w.now
  {
    if step.Advance? && step.id in w.runs {
      assert GateOk(cfg, w, w.runs[step.id]);
      AdvanceAdvances(cfg, w, step.id, step.input);
    } else {
      OthersStand(cfg, w, step);
    }
  }

  /** An admission carries the time it happened at, so one from before now has already happened. */
  lemma {:induction false} AdmittedBefore(cfg: Config, steps: seq<Step>, more: seq<Step>, id: string, at: int)
    requires ValidConfig(cfg)
    requires AdmittedAt(cfg, Exec(cfg, steps + more), id, at) && at < Exec(cfg, steps).now
    ensures AdmittedAt(cfg, Exec(cfg, steps), id, at)
    decreases |more|
  {
    if more == [] {
      assert steps + more == steps;
    } else {
      var init, last := more[..|more| - 1], more[|more| - 1];
      assert (steps + more)[..|steps + more| - 1] == steps + init;
      assert Exec(cfg, steps + more) == Next(cfg, Exec(cfg, steps + init), last);
      LaterGrows(cfg, steps, init);
      Reachable(cfg, steps + init);
      AdmittedNowOrBefore(cfg, Exec(cfg, steps + init), last, id, at);
      AdmittedBefore(cfg, steps, init, id, at);
    }
  }
}
