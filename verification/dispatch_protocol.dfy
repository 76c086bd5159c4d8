/**
 Dispatch as a protocol. A dispatch call and the background run it starts form
 one small program whose every access to shared state is a separate step; any
 number of them interleave with user cancels, context timeouts, the reaper, the
 collection of queued results and all other users of the store.
 */
module DispatchProtocol {
  import opened Options
  import opened TaskLedger
  import opened Pipelines
  import opened EventLoop

  /** Two hours, in seconds. */
  const MAX_PIPELINE_DURATION := 7200

  datatype Config = Config(
    agents: set<string>,
    pipelineAgents: map<string, PipelineAgent>,
    maxTurns: int,
    hasBacklog: bool)

  /** An empty pipeline or backlog item means none was given. */
  datatype Request = Request(agentName: string, policy: Policy, pipeline: string, backlogItem: string)

  /** The stage a request is gated as, if the agent belongs to the pipeline it names. */
  function Gated(cfg: Config, req: Request): Option<PipelineAgent> {
    if req.pipeline != "" && req.agentName in cfg.pipelineAgents
       && cfg.pipelineAgents[req.agentName].pipeline == req.pipeline
    then Some(cfg.pipelineAgents[req.agentName])
    else None
  }

  /** Nothing else about the request matters: its pipeline, and where the index has its agent. */
  lemma GatedIff(cfg: Config, req: Request, stage: int)
    ensures Gated(cfg, req) == Some(PipelineAgent(req.pipeline, stage)) <==>
              req.pipeline != "" && req.agentName in cfg.pipelineAgents
              && cfg.pipelineAgents[req.agentName] == PipelineAgent(req.pipeline, stage)
    ensures Gated(cfg, req) == None <==>
              !(req.pipeline != "" && req.agentName in cfg.pipelineAgents
                && cfg.pipelineAgents[req.agentName].pipeline == req.pipeline)
  {}

  function Registration(cfg: Config, id: string, sessionID: string, req: Request): Op {
    match Gated(cfg, req)
    case Some(pa) => Register(id, req.agentName, req.policy, sessionID, pa.pipeline, pa.stage)
    case None => Register(id, req.agentName, req.policy, sessionID, "", 0)
  }

  predicate Linked(cfg: Config, req: Request) {
    req.backlogItem != "" && cfg.hasBacklog
  }

  /** Where a dispatch, or the run it started, stands: the next access it makes. */
  datatype PC =
    | Gate(stage: int)              // is this earlier stage complete?
    | StartClock                    // record the pipeline start, for stage 1
    | CheckElapsed                  // compare the pipeline's age with the limit
    | Registering
    | Refused
    | Launched                      // the run begins: publish the cancel function
    | Starting                      // call the agent
    | Looping                       // take the next event
    | PostLoop                      // was the context cancelled?
    | AskStatus                     // by the user?
    | Failing(reason: Reason)
    | MarkingFailed(reason: Reason)
    | Completing
    | MarkingDone
    | Recording(marked: bool)
    | Reporting(error: Option<Reason>, marked: bool)
    | Finished(error: Option<Reason>, marked: bool)

  datatype Run = Run(
    sessionID: string,
    req: Request,
    pc: PC,
    ctxDone: bool,
    loop: Loop,
    events: seq<Event>,
    admittedAt: Option<int>)

  /** What a run does to the world outside the task table, tagged with its task ID. */
  datatype Effect =
    | BacklogMarked(id: string, item: string, completed: bool)
    | StageRecorded(id: string, sessionID: string, pipeline: string, stage: int)
    | Reported(id: string, result: string, error: Option<Reason>)

  datatype World = World(
    now: int,
    tasks: Tasks,
    used: set<string>,
    progress: Progress,
    starts: StartTimes,
    backlog: map<string, string>,
    runs: map<string, Run>,
    log: seq<Effect>)

  /** What the agent library answers when a run calls it. */
  datatype Input = Nothing | RunError(message: string) | RunOk | NextEvent(event: Event) | Closed

  datatype Step =
    | Tick(elapsed: nat)
    | Dispatch(id: string, sessionID: string, req: Request)
    | Advance(id: string, input: Input)
    | CtxTimeout(id: string)
    | UserCancel(id: string)
    | Other(op: Op)
    | BacklogEdit(backlog: map<string, string>)

  const INITIAL := World(0, map[], {}, map[], map[], map[], map[], [])

  function Describe(reason: Reason): string {
    match reason
    case StartFailed(m) => m
    case CallLimit(m) => "CALL LIMIT REACHED: " + m
    case TurnLimit(_) => "aborted: exceeded turns without completing"
    case Overflow(m) => "context overflow: " + m
    case ErrorBreaker(m) => "aborted after consecutive errors: " + m
    case SupervisorAbort(m) => m
    case TimedOut(_) => "timed out"
    case CancelledByUser => "cancelled by user"
  }

  function At(w: World, id: string, r: Run): World {
    w.(runs := w.runs[id := r])
  }

  function Goto(w: World, id: string, pc: PC): World
    requires id in w.runs
  {
    At(w, id, w.runs[id].(pc := pc))
  }

  // The gate and the clock, up to admission or refusal

  predicate AtGate(pc: PC) { pc.Gate? || pc.StartClock? || pc.CheckElapsed? }

  function AdmissionRun(cfg: Config, w: World, r: Run): Run
    requires AtGate(r.pc)
  {
    match Gated(cfg, r.req)
    case None => if r.pc.Gate? then r.(pc := Registering) else r
    case Some(pa) =>
      match r.pc
      case Gate(stage) =>
        r.(pc := if stage >= pa.stage then StartClock
                 else if stage in Done(w.progress, r.sessionID, pa.pipeline) then Gate(stage + 1)
                 else Refused)
      case StartClock => r.(pc := CheckElapsed)
      case CheckElapsed =>
        if Elapsed(w.starts, r.sessionID, pa.pipeline, w.now) > MAX_PIPELINE_DURATION then r.(pc := Refused)
        else r.(pc := Registering, admittedAt := Some(w.now))
  }

  function AdmissionStep(cfg: Config, w: World, id: string): World
    requires id in w.runs && AtGate(w.runs[id].pc)
  {
    var r := w.runs[id];
    var starts := if r.pc.StartClock? && Gated(cfg, r.req).Some? && Gated(cfg, r.req).value.stage == 1
                  then WithStart(w.starts, r.sessionID, Gated(cfg, r.req).value.pipeline, w.now)
                  else w.starts;
    At(w.(starts := starts), id, AdmissionRun(cfg, w, r))
  }

  // Accesses to the task table

  predicate InTable(pc: PC) { pc.Registering? || pc.Launched? || pc.Failing? || pc.Completing? }

  function TableOp(cfg: Config, id: string, r: Run): Op
    requires InTable(r.pc)
  {
    match r.pc
    case Registering => Registration(cfg, id, r.sessionID, r.req)
    case Launched => SetCancelFunc(id)
    case Failing(reason) => Fail(id, Describe(reason))
    case Completing => Complete(id, r.loop.result)
  }

  function TableNext(pc: PC): PC
    requires InTable(pc)
  {
    match pc
    case Registering => Launched
    case Launched => Starting
    case Failing(reason) => MarkingFailed(reason)
    case Completing => MarkingDone
  }

  function TableStep(cfg: Config, w: World, id: string): World
    requires id in w.runs && InTable(w.runs[id].pc)
  {
    Goto(w.(tasks := Apply(w.tasks, TableOp(cfg, id, w.runs[id]), w.now)), id, TableNext(w.runs[id].pc))
  }

  // Effects outside the task table

  predicate InEffects(pc: PC) { pc.MarkingFailed? || pc.MarkingDone? || pc.Recording? || pc.Reporting? }

  /** Whether the backlog item of the run can be written: it is linked and exists. */
  predicate ItemFound(cfg: Config, w: World, r: Run) {
    Linked(cfg, r.req) && r.req.backlogItem in w.backlog
  }

  function EffectNext(pc: PC, found: bool): PC
    requires InEffects(pc)
  {
    match pc
    case MarkingFailed(reason) => Reporting(Some(reason), found)
    case MarkingDone => Recording(found)
    case Recording(marked) => Reporting(None, marked)
    case Reporting(error, marked) => Finished(error, marked)
  }

  function NewEffects(cfg: Config, id: string, r: Run, found: bool): seq<Effect>
    requires InEffects(r.pc)
  {
    match r.pc
    case MarkingFailed(_) => if found then [BacklogMarked(id, r.req.backlogItem, false)] else []
    case MarkingDone => if found then [BacklogMarked(id, r.req.backlogItem, true)] else []
    case Recording(_) => (
      match Gated(cfg, r.req)
      case Some(pa) => [StageRecorded(id, r.sessionID, pa.pipeline, pa.stage)]
      case None => [])
    case Reporting(error, _) => [Reported(id, if error.None? then r.loop.result else "", error)]
  }

  function EffectStep(cfg: Config, w: World, id: string): World
    requires id in w.runs && InEffects(w.runs[id].pc)
  {
    var r := w.runs[id];
    var found := ItemFound(cfg, w, r);
    Goto(w.(log := w.log + NewEffects(cfg, id, r, found),
            backlog := if found && r.pc.MarkingFailed? then w.backlog[r.req.backlogItem := "failed"]
                       else if found && r.pc.MarkingDone? then w.backlog[r.req.backlogItem := "completed"]
                       else w.backlog,
            progress := if r.pc.Recording? && Gated(cfg, r.req).Some?
                        then var pa := Gated(cfg, r.req).value;
                             Recorded(w.progress, r.sessionID, pa.pipeline, pa.stage)
                        else w.progress),
         id, EffectNext(r.pc, found))
  }

  // Steps that change nothing but the run itself

  function LocalStep(cfg: Config, r: Run, cancelled: bool, input: Input): Run {
    match r.pc
    case Starting => (
      match input
      case RunError(m) => r.(pc := Failing(if IsCallLimit(m) then CallLimit(m) else StartFailed(m)))
      case RunOk => r.(pc := Looping)
      case _ => r)
    case Looping => (
      match input
      case NextEvent(e) => (
        match Handle(cfg.maxTurns, r.loop, e)
        case Continue(l) => r.(events := r.events + [e], loop := l)
        case Abort(reason) => r.(events := r.events + [e], pc := Failing(reason)))
      case Closed => r.(pc := PostLoop)
      case _ => r)
    case PostLoop => r.(pc := if r.ctxDone then AskStatus else Completing)
    case AskStatus => r.(pc := if cancelled then MarkingFailed(CancelledByUser) else Failing(TimedOut(r.loop.turns)))
    case _ => r
  }

  /** Is the task stored and cancelled? */
  predicate SeenCancelled(w: World, id: string) {
    id in w.tasks && w.tasks[id].status.Cancelled?
  }

  /** One dispatch or run takes its next step; an input it is not waiting for changes nothing. */
  function AdvanceRun(cfg: Config, w: World, id: string, input: Input): World
    requires id in w.runs
  {
    var pc := w.runs[id].pc;
    if AtGate(pc) then AdmissionStep(cfg, w, id)
    else if InTable(pc) then TableStep(cfg, w, id)
    else if InEffects(pc) then EffectStep(cfg, w, id)
    else At(w, id, LocalStep(cfg, w.runs[id], SeenCancelled(w, id), input))
  }

  /**
   What other users of the store may do: register under a new ID, settle a task
   no run owns, reap, and collect queued results.
   */
  predicate OtherMay(w: World, op: Op) {
    match op
    case Register(id, _, _, _, _, _) => id !in w.used
    case RegisterExternal(id, _, _, _) => id !in w.used
    case RegisterApproval(id, _, _, _) => id !in w.used
    case SetCancelFunc(id) => id !in w.runs
    case Complete(id, _) => id !in w.runs
    case Fail(id, _) => id !in w.runs
    case Cancel(id) => id !in w.runs
    case Reap => true
    case QueuedResults => true
  }

  function Next(cfg: Config, w: World, step: Step): World {
    match step
    case Tick(d) => w.(now := w.now + d)
    case Dispatch(id, sessionID, req) =>
      if id in w.used || req.agentName !in cfg.agents then w else
        var r := Run(sessionID, req, Gate(1), false, FIRST, [], None);
        At(w.(used := w.used + {id}), id, r)
    case Advance(id, input) => if id in w.runs then AdvanceRun(cfg, w, id, input) else w
    case CtxTimeout(id) => if id in w.runs then At(w, id, w.runs[id].(ctxDone := true)) else w
    case UserCancel(id) =>
      var w' := w.(tasks := Apply(w.tasks, Cancel(id), w.now));
      if id in w.runs && id in w.tasks && w.tasks[id].status.Running? && w.tasks[id].cancellable
      then At(w', id, w.runs[id].(ctxDone := true))
      else w'
    case Other(op) =>
      if OtherMay(w, op)
      then w.(tasks := Apply(w.tasks, op, w.now), used := if op.Registers() then w.used + {op.id} else w.used)
      else w
    case BacklogEdit(b) => w.(backlog := b)
  }

  /** The world after any finite run of steps from an empty store. */
  function Exec(cfg: Config, steps: seq<Step>): World {
    if steps == [] then INITIAL else Next(cfg, Exec(cfg, steps[..|steps| - 1]), steps[|steps| - 1])
  }

  /** The effects of one run, in order. */
  function Of(log: seq<Effect>, id: string): seq<Effect> {
    if log == [] then [] else
      Of(log[..|log| - 1], id) + (if log[|log| - 1].id == id then [log[|log| - 1]] else [])
  }

  lemma OfOneMore(log: seq<Effect>, e: Effect, id: string)
    ensures Of(log + [e], id) == Of(log, id) + if e.id == id then [e] else []
  {
    assert (log + [e])[..|log|] == log;
  }
}
