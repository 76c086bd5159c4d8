/**
 Which pipeline stages can be completed at all: exactly those that, together
 with every stage before them, the agent index assigns to some agent.
 */
module PipelineReach {
  import opened Options
  import opened TaskLedger
  import opened Pipelines
  import opened DispatchProtocol
  import opened PipelineSafety

  /** Some dispatchable agent is indexed at this stage of the pipeline. */
  ghost predicate HasAgent(cfg: Config, pipeline: string, stage: int) {
    exists a | a in cfg.agents && a in cfg.pipelineAgents :: cfg.pipelineAgents[a] == PipelineAgent(pipeline, stage)
  }

  // ---------------------------------------------------------------------
  // Only indexed stages are ever recorded
  // ---------------------------------------------------------------------

  ghost predicate AgentInv(cfg: Config, w: World) {
    && w.runs.Keys <= w.used
    && (forall id | id in w.runs :: w.runs[id].req.agentName in cfg.agents)
    && (forall s, n, j | j in Done(w.progress, s, n) :: n != "" && HasAgent(cfg, n, j))
  }

  lemma AdvanceKeepsAgents(cfg: Config, w: World, w': World, id: string)
    requires AgentInv(cfg, w) && id in w.runs && Advances(cfg, w, w', id)
    ensures AgentInv(cfg, w')
  {
    var r := w.runs[id];
    if Gated(cfg, r.req).Some? {
      var pa := Gated(cfg, r.req).value;
      RecordedAddsOneStage(w.progress, r.sessionID, pa.pipeline, pa.stage);
      assert HasAgent(cfg, pa.pipeline, pa.stage) by {
        assert r.req.agentName in cfg.agents;
        assert cfg.pipelineAgents[r.req.agentName] == PipelineAgent(pa.pipeline, pa.stage);
      }
    }
  }

  lemma OthersKeepAgents(cfg: Config, w: World, step: Step)
    requires AgentInv(cfg, w) && (step.Advance? ==> step.id !in w.runs)
    ensures AgentInv(cfg, Next(cfg, w, step))
  {
    OthersStand(cfg, w, step);
  }

  lemma {:induction false} AgentsReachable(cfg: Config, steps: seq<Step>)
    requires ValidConfig(cfg)
    ensures AgentInv(cfg, Exec(cfg, steps))
    decreases |steps|
  {
    if steps != [] {
      var w, step := Exec(cfg, steps[..|steps| - 1]), steps[|steps| - 1];
      AgentsReachable(cfg, steps[..|steps| - 1]);
      Reachable(cfg, steps[..|steps| - 1]);
      if step.Advance? && step.id in w.runs {
        assert GateOk(cfg, w, w.runs[step.id]);
        AdvanceAdvances(cfg, w, step.id, step.input);
        AdvanceKeepsAgents(cfg, w, AdvanceRun(cfg, w, step.id, step.input), step.id);
      } else {
        OthersKeepAgents(cfg, w, step);
      }
    }
  }

  // ---------------------------------------------------------------------
  // One dispatch running alone completes its stage
  // ---------------------------------------------------------------------

  function Play(cfg: Config, w: World, steps: seq<Step>): World {
    if steps == [] then w else Next(cfg, Play(cfg, w, steps[..|steps| - 1]), steps[|steps| - 1])
  }

  lemma {:induction false} PlayFollowsExec(cfg: Config, steps: seq<Step>, more: seq<Step>)
    ensures Exec(cfg, steps + more) == Play(cfg, Exec(cfg, steps), more)
    decreases |more|
  {
    if more == [] {
      assert steps + more == steps;
    } else {
      PlayFollowsExec(cfg, steps, more[..|more| - 1]);
      assert (steps + more)[..|steps + more| - 1] == steps + more[..|more| - 1];
    }
  }

  /** `w` is `w0` plus one run, in an undisturbed context, at the given step. */
  ghost predicate Solo(cfg: Config, w0: World, w: World, id: string, sessionID: string, req: Request, pc: PC) {
    && w.now == w0.now && w.progress == w0.progress && w.used == w0.used + {id}
    && id in w.runs && w.runs[id].sessionID == sessionID && w.runs[id].req == req
    && w.runs[id].pc == pc && !w.runs[id].ctxDone
    && AllStartedNow(w)
  }

  ghost predicate AllStartedNow(w: World) {
    forall s, n :: Started(w.starts, s, n).Some? ==> Started(w.starts, s, n).value == w.now
  }

  function SoloInput(pc: PC): Input {
    if pc.Starting? then RunOk else if pc.Looping? then Closed else Nothing
  }

  /** The step after `pc` of a run that meets no error. */
  function SoloNext(pc: PC, found: bool): PC
    requires pc.StartClock? || pc.CheckElapsed? || pc.Registering? || pc.Launched? || pc.Starting? || pc.Looping?
             || pc.PostLoop? || pc.Completing? || pc.MarkingDone?
  {
    match pc
    case StartClock => CheckElapsed
    case CheckElapsed => Registering
    case Registering => Launched
    case Launched => Starting
    case Starting => Looping
    case Looping => PostLoop
    case PostLoop => Completing
    case Completing => MarkingDone
    case MarkingDone => Recording(found)
  }

  lemma SoloClock(cfg: Config, w0: World, w: World, id: string, sessionID: string, req: Request)
    requires Gated(cfg, req).Some? && Solo(cfg, w0, w, id, sessionID, req, StartClock)
    ensures Solo(cfg, w0, Next(cfg, w, Advance(id, Nothing)), id, sessionID, req, CheckElapsed)
  {
    var pa := Gated(cfg, req).value;
    WithStartKeepsFirst(w.starts, sessionID, pa.pipeline, w.now);
    assert AdvanceRun(cfg, w, id, Nothing) == AdmissionStep(cfg, w, id);
  }

  lemma SoloTable(cfg: Config, w0: World, w: World, id: string, sessionID: string, req: Request, pc: PC)
    requires InTable(pc) && Solo(cfg, w0, w, id, sessionID, req, pc)
    ensures Solo(cfg, w0, Next(cfg, w, Advance(id, Nothing)), id, sessionID, req, TableNext(pc))
  {
    assert AdvanceRun(cfg, w, id, Nothing) == TableStep(cfg, w, id);
  }

  lemma SoloLocal(cfg: Config, w0: World, w: World, id: string, sessionID: string, req: Request, pc: PC)
    requires (pc.Starting? || pc.Looping? || pc.PostLoop?) && Solo(cfg, w0, w, id, sessionID, req, pc)
    ensures Solo(cfg, w0, Next(cfg, w, Advance(id, SoloInput(pc))), id, sessionID, req, SoloNext(pc, false))
  {
    var r, input := w.runs[id], SoloInput(pc);
    assert LocalStep(cfg, r, SeenCancelled(w, id), input) == r.(pc := SoloNext(pc, false));
    assert AdvanceRun(cfg, w, id, input) == At(w, id, r.(pc := SoloNext(pc, false)));
  }

  lemma SoloMark(cfg: Config, w0: World, w: World, id: string, sessionID: string, req: Request)
    requires Solo(cfg, w0, w, id, sessionID, req, MarkingDone)
    ensures Solo(cfg, w0, Next(cfg, w, Advance(id, Nothing)), id, sessionID, req,
                 Recording(ItemFound(cfg, w, w.runs[id])))
  {
    assert AdvanceRun(cfg, w, id, Nothing) == EffectStep(cfg, w, id);
  }

  lemma SoloElapsed(cfg: Config, w0: World, w: World, id: string, sessionID: string, req: Request)
    requires Gated(cfg, req).Some? && Solo(cfg, w0, w, id, sessionID, req, CheckElapsed)
    ensures Solo(cfg, w0, Next(cfg, w, Advance(id, Nothing)), id, sessionID, req, Registering)
  {
    var pa := Gated(cfg, req).value;
    assert Elapsed(w.starts, sessionID, pa.pipeline, w.now) == 0;
    assert AdvanceRun(cfg, w, id, Nothing) == AdmissionStep(cfg, w, id);
  }

  lemma SoloGate(cfg: Config, w0: World, w: World, id: string, sessionID: string, req: Request, k: int)
    requires Gated(cfg, req).Some? && Solo(cfg, w0, w, id, sessionID, req, Gate(k))
    requires k < Gated(cfg, req).value.stage ==> k in Done(w0.progress, sessionID, Gated(cfg, req).value.pipeline)
    ensures Solo(cfg, w0, Next(cfg, w, Advance(id, Nothing)), id, sessionID, req,
                 if k < Gated(cfg, req).value.stage then Gate(k + 1) else StartClock)
  {
    assert AdvanceRun(cfg, w, id, Nothing) == AdmissionStep(cfg, w, id);
  }

  /** One more step of the run that `steps` has brought to `pc`. */
  lemma Then(cfg: Config, w: World, steps: seq<Step>, step: Step)
    ensures Play(cfg, w, steps + [step]) == Next(cfg, Play(cfg, w, steps), step)
  {
    assert (steps + [step])[..|steps|] == steps;
  }

  lemma {:induction false} PassGate(cfg: Config, w0: World, steps: seq<Step>,
        id: string, sessionID: string, req: Request, k: int)
    returns (all: seq<Step>)
    requires Gated(cfg, req).Some? && k <= Gated(cfg, req).value.stage
    requires Solo(cfg, w0, Play(cfg, w0, steps), id, sessionID, req, Gate(k))
    requires forall j | k <= j < Gated(cfg, req).value.stage ::
               j in Done(w0.progress, sessionID, Gated(cfg, req).value.pipeline)
    ensures Solo(cfg, w0, Play(cfg, w0, all), id, sessionID, req, StartClock)
    decreases Gated(cfg, req).value.stage - k
  {
    all := steps + [Advance(id, Nothing)];
    Then(cfg, w0, steps, Advance(id, Nothing));
    SoloGate(cfg, w0, Play(cfg, w0, steps), id, sessionID, req, k);
    if k < Gated(cfg, req).value.stage {
      all := PassGate(cfg, w0, all, id, sessionID, req, k + 1);
    }
  }

  lemma Admit(cfg: Config, w0: World, steps: seq<Step>, id: string, sessionID: string, req: Request)
    returns (all: seq<Step>)
    requires Gated(cfg, req).Some?
    requires Solo(cfg, w0, Play(cfg, w0, steps), id, sessionID, req, StartClock)
    ensures Solo(cfg, w0, Play(cfg, w0, all), id, sessionID, req, Starting)
  {
    var a := Advance(id, Nothing);
    Then(cfg, w0, steps, a);
    SoloClock(cfg, w0, Play(cfg, w0, steps), id, sessionID, req);
    var s1 := steps + [a];
    Then(cfg, w0, s1, a);
    SoloElapsed(cfg, w0, Play(cfg, w0, s1), id, sessionID, req);
    var s2 := s1 + [a];
    Then(cfg, w0, s2, a);
    SoloTable(cfg, w0, Play(cfg, w0, s2), id, sessionID, req, Registering);
    var s3 := s2 + [a];
    Then(cfg, w0, s3, a);
    SoloTable(cfg, w0, Play(cfg, w0, s3), id, sessionID, req, Launched);
    all := s3 + [a];
  }

  lemma Succeed(cfg: Config, w0: World, steps: seq<Step>, id: string, sessionID: string, req: Request)
    returns (all: seq<Step>)
    requires Solo(cfg, w0, Play(cfg, w0, steps), id, sessionID, req, Starting)
    ensures Solo(cfg, w0, Play(cfg, w0, all), id, sessionID, req, MarkingDone)
  {
    var a := Advance(id, Nothing);
    Then(cfg, w0, steps, Advance(id, RunOk));
    SoloLocal(cfg, w0, Play(cfg, w0, steps), id, sessionID, req, Starting);
    var s1 := steps + [Advance(id, RunOk)];
    Then(cfg, w0, s1, Advance(id, Closed));
    SoloLocal(cfg, w0, Play(cfg, w0, s1), id, sessionID, req, Looping);
    var s2 := s1 + [Advance(id, Closed)];
    Then(cfg, w0, s2, a);
    SoloLocal(cfg, w0, Play(cfg, w0, s2), id, sessionID, req, PostLoop);
    var s3 := s2 + [a];
    Then(cfg, w0, s3, a);
    SoloTable(cfg, w0, Play(cfg, w0, s3), id, sessionID, req, Completing);
    all := s3 + [a];
  }

  lemma Record(cfg: Config, w0: World, w: World, id: string, sessionID: string, req: Request, marked: bool)
    requires Gated(cfg, req).Some? && Solo(cfg, w0, w, id, sessionID, req, Recording(marked))
    ensures var pa, w' := Gated(cfg, req).value, Next(cfg, w, Advance(id, Nothing));
            && w'.progress == Recorded(w0.progress, sessionID, pa.pipeline, pa.stage)
            && w'.now == w0.now && w'.used == w0.used + {id} && AllStartedNow(w')
  {
    assert AdvanceRun(cfg, w, id, Nothing) == EffectStep(cfg, w, id);
  }

  /** From a world in which every clock reads now, a gated dispatch can run to the recording of its stage. */
  lemma CompleteOne(cfg: Config, w0: World, id: string, sessionID: string, req: Request, pa: PipelineAgent)
    returns (steps: seq<Step>)
    requires AllStartedNow(w0) && id !in w0.used && req.agentName in cfg.agents
    requires Gated(cfg, req) == Some(pa) && pa.stage >= 1 && Below(pa.stage, Done(w0.progress, sessionID, pa.pipeline))
    ensures var w := Play(cfg, w0, steps);
            && w.progress == Recorded(w0.progress, sessionID, pa.pipeline, pa.stage)
            && AllStartedNow(w) && w.used == w0.used + {id}
  {
    var first := Dispatch(id, sessionID, req);
    Then(cfg, w0, [], first);
    assert [] + [first] == [first];
    steps := PassGate(cfg, w0, [first], id, sessionID, req, 1);
    steps := Admit(cfg, w0, steps, id, sessionID, req);
    steps := Succeed(cfg, w0, steps, id, sessionID, req);
    var w := Play(cfg, w0, steps);
    SoloMark(cfg, w0, w, id, sessionID, req);
    Then(cfg, w0, steps, Advance(id, Nothing));
    steps := steps + [Advance(id, Nothing)];
    Record(cfg, w0, Play(cfg, w0, steps), id, sessionID, req, ItemFound(cfg, w, w.runs[id]));
    Then(cfg, w0, steps, Advance(id, Nothing));
    steps := steps + [Advance(id, Nothing)];
  }

  /** Some ID is new. */
  lemma {:induction false} FreshLonger(used: set<string>, n: nat) returns (id: string)
    ensures id !in used && |id| >= n
    decreases used
  {
    var candidate := seq(n, _ => 'x');
    if candidate !in used {
      id := candidate;
    } else {
      id := FreshLonger(used - {candidate}, n + 1);
    }
  }

  lemma {:induction false} CompleteUpTo(cfg: Config, sessionID: string, pipeline: string, k: nat)
    returns (steps: seq<Step>)
    requires ValidConfig(cfg) && pipeline != "" && forall j | 1 <= j <= k :: HasAgent(cfg, pipeline, j)
    ensures var w := Exec(cfg, steps); UpTo(k) <= Done(w.progress, sessionID, pipeline) && AllStartedNow(w)
    decreases k
  {
    if k == 0 {
      steps := [];
    } else {
      var before := CompleteUpTo(cfg, sessionID, pipeline, k - 1);
      var w0 := Exec(cfg, before);
      assert HasAgent(cfg, pipeline, k);
      var a :| a in cfg.agents && a in cfg.pipelineAgents && cfg.pipelineAgents[a] == PipelineAgent(pipeline, k);
      var id := FreshLonger(w0.used, 0);
      var more := CompleteOne(cfg, w0, id, sessionID, Request(a, Auto, pipeline, ""), PipelineAgent(pipeline, k));
      PlayFollowsExec(cfg, before, more);
      RecordedAddsOneStage(w0.progress, sessionID, pipeline, k);
      steps := before + more;
    }
  }

  ghost predicate Completable(cfg: Config, sessionID: string, pipeline: string, stage: int) {
    exists steps: seq<Step> :: stage in Done(Exec(cfg, steps).progress, sessionID, pipeline)
  }

  /**
   A stage can be completed in some run of the system exactly when the pipeline has
   a name and the stage and every one before it have a dispatchable agent indexed
   at just that stage.
   */
  lemma CompletableIffIndexed(cfg: Config, sessionID: string, pipeline: string, stage: int)
    requires ValidConfig(cfg)
    ensures Completable(cfg, sessionID, pipeline, stage) <==>
              pipeline != "" && stage >= 1 && forall j | 1 <= j <= stage :: HasAgent(cfg, pipeline, j)
  {
    if Completable(cfg, sessionID, pipeline, stage) {
      var steps: seq<Step> :| stage in Done(Exec(cfg, steps).progress, sessionID, pipeline);
      AgentsReachable(cfg, steps);
      Reachable(cfg, steps);
      CompletedStagesFormAPrefix(cfg, steps, sessionID, pipeline);
      forall j | 1 <= j <= stage ensures HasAgent(cfg, pipeline, j) {
        assert j in Done(Exec(cfg, steps).progress, sessionID, pipeline);
      }
    }
    if pipeline != "" && stage >= 1 && forall j | 1 <= j <= stage :: HasAgent(cfg, pipeline, j) {
      var steps := CompleteUpTo(cfg, sessionID, pipeline, stage);
      assert stage in Done(Exec(cfg, steps).progress, sessionID, pipeline);
    }
  }

  // ---------------------------------------------------------------------
  // What that means for the pipeline definitions
  // ---------------------------------------------------------------------

  lemma {:induction false} SlotNames(pipelines: seq<Pipeline>, k: int)
    requires 0 <= k < |Slots(pipelines)|
    ensures exists i, j | 0 <= i < |pipelines| && 0 <= j < |pipelines[i].stages| ::
              Slots(pipelines)[k] == (pipelines[i].stages[j], PipelineAgent(pipelines[i].name, j + 1))
    decreases |pipelines|
  {
    var n := |pipelines| - 1;
    var init := Slots(pipelines[..n]);
    if k < |init| {
      SlotNames(pipelines[..n], k);
      var i, j :| 0 <= i < n && 0 <= j < |pipelines[..n][i].stages| &&
                  init[k] == (pipelines[..n][i].stages[j], PipelineAgent(pipelines[..n][i].name, j + 1));
      assert pipelines[..n][i] == pipelines[i];
      assert Slots(pipelines)[k] == (pipelines[i].stages[j], PipelineAgent(pipelines[i].name, j + 1));
    } else {
      var j := k - |init|;
      assert Slots(pipelines)[k] == (pipelines[n].stages[j], PipelineAgent(pipelines[n].name, j + 1));
    }
  }

  /** The index has the agent of the pipeline's stage at that very stage. */
  predicate StageIndexed(cfg: Config, p: Pipeline, stage: int) {
    && 1 <= stage <= |p.stages|
    && var a := p.stages[stage - 1];
       a in cfg.agents && a in cfg.pipelineAgents && cfg.pipelineAgents[a] == PipelineAgent(p.name, stage)
  }

  /** Some definition of that name has its stage indexed. */
  predicate NameIndexed(cfg: Config, pipelines: seq<Pipeline>, name: string, stage: int) {
    exists i | 0 <= i < |pipelines| :: pipelines[i].name == name && StageIndexed(cfg, pipelines[i], stage)
  }

  lemma AgentIsNamed(cfg: Config, pipelines: seq<Pipeline>, a: string)
    requires IndexOf(cfg.pipelineAgents, Slots(pipelines)) && a in cfg.agents && a in cfg.pipelineAgents
    ensures var pa := cfg.pipelineAgents[a]; NameIndexed(cfg, pipelines, pa.pipeline, pa.stage)
  {
    var pa := cfg.pipelineAgents[a];
    assert FirstSlot(Slots(pipelines), a, pa);
    var k :| 0 <= k < |Slots(pipelines)| && Slots(pipelines)[k] == (a, pa);
    SlotNames(pipelines, k);
    var i, j :| 0 <= i < |pipelines| && 0 <= j < |pipelines[i].stages| &&
                Slots(pipelines)[k] == (pipelines[i].stages[j], PipelineAgent(pipelines[i].name, j + 1));
    assert pipelines[i].stages[j] == a && pipelines[i].name == pa.pipeline && pa.stage == j + 1;
    assert StageIndexed(cfg, pipelines[i], pa.stage);
  }

  lemma IndexedIffHasAgent(cfg: Config, pipelines: seq<Pipeline>, name: string, stage: int)
    requires IndexOf(cfg.pipelineAgents, Slots(pipelines))
    ensures HasAgent(cfg, name, stage) <==> NameIndexed(cfg, pipelines, name, stage)
  {
    if HasAgent(cfg, name, stage) {
      var a :| a in cfg.agents && a in cfg.pipelineAgents && cfg.pipelineAgents[a] == PipelineAgent(name, stage);
      AgentIsNamed(cfg, pipelines, a);
    }
  }

  /**
   For any definitions: a stage under a name can be completed exactly when the name
   is not empty and, up to that stage, some definition of the name has its agent
   dispatchable and indexed at that very stage. An agent that an earlier slot, here
   or in another pipeline, already names blocks the pipeline at its later place.
   */
  lemma {:induction false} PipelineCompletable(cfg: Config, pipelines: seq<Pipeline>,
        name: string, stage: int, sessionID: string)
    requires IndexOf(cfg.pipelineAgents, Slots(pipelines))
    ensures Completable(cfg, sessionID, name, stage) <==>
              name != "" && stage >= 1 && forall j | 1 <= j <= stage :: NameIndexed(cfg, pipelines, name, j)
  {
    IndexIsUnique(cfg.pipelineAgents, cfg.pipelineAgents, pipelines);
    CompletableIffIndexed(cfg, sessionID, name, stage);
    forall j | 1 <= j <= stage ensures HasAgent(cfg, name, j) <==> NameIndexed(cfg, pipelines, name, j) {
      IndexedIffHasAgent(cfg, pipelines, name, j);
    }
  }
}
