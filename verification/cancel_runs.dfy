/**
 What a cancelled run reports, and concrete runs in which a cancel is overwritten
 or goes unreported.
 */
module CancelRuns {
  import opened Options
  import opened TaskLedger
  import opened EventLoop
  import opened DispatchProtocol
  import opened RunSafety

  // ---------------------------------------------------------------------
  // What a cancelled run reports
  // ---------------------------------------------------------------------

  lemma OwnStepKeepsBlame(cfg: Config, w: World, id: string, input: Input)
    requires id in w.runs && Blame(w.runs[id].pc).Some?
    ensures Blame(AdvanceRun(cfg, w, id, input).runs[id].pc) == Blame(w.runs[id].pc)
  {
    var r := w.runs[id];
    if InTable(r.pc) {
      assert AdvanceRun(cfg, w, id, input).runs[id] == r.(pc := TableNext(r.pc));
    } else if InEffects(r.pc) {
      assert AdvanceRun(cfg, w, id, input).runs[id] == r.(pc := EffectNext(r.pc, ItemFound(cfg, w, r)));
    } else {
      LocalKeepsBlame(cfg, r, SeenCancelled(w, id), input);
    }
  }

  lemma LocalKeepsBlame(cfg: Config, r: Run, cancelled: bool, input: Input)
    requires Blame(r.pc).Some?
    ensures LocalStep(cfg, r, cancelled, input) == r
  {}

  lemma NextKeepsBlame(cfg: Config, w: World, step: Step, id: string)
    requires RunInv(cfg, w) && id in w.runs && Blame(w.runs[id].pc).Some?
    ensures id in Next(cfg, w, step).runs && Blame(Next(cfg, w, step).runs[id].pc) == Blame(w.runs[id].pc)
  {
    assert RunConsistent(cfg, w, id);
    if step.Advance? && step.id in w.runs {
      if step.id == id {
        OwnStepKeepsBlame(cfg, w, id, step.input);
      } else {
        AdvanceIsLocal(cfg, w, step.id, step.input);
      }
    } else {
      OthersSpare(cfg, w, step, id);
    }
  }

  /** The reason a run has for losing is the one it will report. */
  lemma {:induction false} BlameIsReported(cfg: Config, steps: seq<Step>, more: seq<Step>, id: string)
    requires id in Exec(cfg, steps).runs && Blame(Exec(cfg, steps).runs[id].pc).Some?
    ensures var w := Exec(cfg, steps + more);
            id in w.runs && Blame(w.runs[id].pc) == Blame(Exec(cfg, steps).runs[id].pc)
    decreases |more|
  {
    if more == [] {
      assert steps + more == steps;
    } else {
      var init := more[..|more| - 1];
      BlameIsReported(cfg, steps, init, id);
      assert (steps + more)[..|steps + more| - 1] == steps + init;
      RunsReachable(cfg, steps + init);
      NextKeepsBlame(cfg, Exec(cfg, steps + init), more[|more| - 1], id);
    }
  }

  lemma AskingStep(cfg: Config, w: World, id: string, input: Input)
    requires id in w.runs && w.runs[id].pc.AskStatus?
    ensures var w' := Next(cfg, w, Advance(id, input));
            && id in w'.runs
            && Blame(w'.runs[id].pc) == Some(if SeenCancelled(w, id) then CancelledByUser
                                             else TimedOut(w.runs[id].loop.turns))
  {}

  lemma ExecThen(cfg: Config, steps: seq<Step>, step: Step)
    ensures Exec(cfg, steps + [step]) == Next(cfg, Exec(cfg, steps), step)
  {
    assert (steps + [step])[..|steps|] == steps;
  }

  /**
   A run whose task was cancelled and that asks about it reports the cancellation
   exactly when the task is still stored at that moment. A queue-policy task may
   have been collected by then, and the run reports a timeout instead.
   */
  lemma CancelReportedIff(cfg: Config, steps: seq<Step>, more: seq<Step>, id: string, input: Input, rest: seq<Step>)
    requires var w := Exec(cfg, steps); id in w.runs && id in w.tasks && w.tasks[id].status.Cancelled?
    requires var w := Exec(cfg, steps + more); id in w.runs && w.runs[id].pc.AskStatus?
    requires var w := Exec(cfg, steps + more + [Advance(id, input)] + rest); id in w.runs && w.runs[id].pc.Finished?
    ensures var asking, end := Exec(cfg, steps + more), Exec(cfg, steps + more + [Advance(id, input)] + rest);
            end.runs[id].pc.error == Some(if id in asking.tasks then CancelledByUser
                                          else TimedOut(asking.runs[id].loop.turns))
  {
    CancelledRunsNeverFail(cfg, steps, more, id);
    ExecThen(cfg, steps + more, Advance(id, input));
    AskingStep(cfg, Exec(cfg, steps + more), id, input);
    BlameIsReported(cfg, steps + more + [Advance(id, input)], rest, id);
  }

  // ---------------------------------------------------------------------
  // Concrete runs
  // ---------------------------------------------------------------------

  /** The run stands here, and its task, if stored, has this status and reachable context. */
  predicate Stands(w: World, id: string, r: Run, status: Option<Status>, cancellable: bool) {
    && id in w.runs && w.runs[id] == r
    && (id in w.tasks <==> status.Some?)
    && (id in w.tasks ==> w.tasks[id].status == status.value && w.tasks[id].cancellable == cancellable
                          && w.tasks[id].policy == r.req.policy)
  }

  function RunAt(agent: string, policy: Policy, pc: PC, ctxDone: bool): Run {
    DispatchProtocol.Run("session", Request(agent, policy, "", ""), pc, ctxDone, FIRST, [], None)
  }

  /** A dispatch up to the registration of its task. */
  function Launch(agent: string, policy: Policy, id: string): seq<Step> {
    [Dispatch(id, "session", Request(agent, policy, "", "")), Advance(id, Nothing), Advance(id, Nothing)]
  }

  lemma Launches(cfg: Config, agent: string, policy: Policy, id: string)
    requires agent in cfg.agents
    ensures Stands(Exec(cfg, Launch(agent, policy, id)), id, RunAt(agent, policy, Launched, false),
                   Some(Running), false)
  {
    var s := Launch(agent, policy, id);
    var s1, s2 := [s[0]], [s[0], s[1]];
    assert [] + [s[0]] == s1 && s1 + [s[1]] == s2 && s2 + [s[2]] == s;
    ExecThen(cfg, [], s[0]);
    assert Stands(Exec(cfg, s1), id, RunAt(agent, policy, Gate(1), false), None, false);
    ExecThen(cfg, s1, s[1]);
    assert Stands(Exec(cfg, s2), id, RunAt(agent, policy, Registering, false), None, false);
    ExecThen(cfg, s2, s[2]);
  }

  lemma LocalAdvance(cfg: Config, steps: seq<Step>, id: string, r: Run, status: Option<Status>, cancellable: bool,
        input: Input)
    requires Stands(Exec(cfg, steps), id, r, status, cancellable)
    requires !AtGate(r.pc) && !InTable(r.pc) && !InEffects(r.pc)
    ensures Stands(Exec(cfg, steps + [Advance(id, input)]), id,
                   LocalStep(cfg, r, status == Some(Cancelled), input), status, cancellable)
  {
    ExecThen(cfg, steps, Advance(id, input));
  }

  lemma Publish(cfg: Config, steps: seq<Step>, id: string, r: Run, status: Status)
    requires r.pc.Launched? && Stands(Exec(cfg, steps), id, r, Some(status), false)
    ensures Stands(Exec(cfg, steps + [Advance(id, Nothing)]), id, r.(pc := Starting), Some(status), true)
  {
    ExecThen(cfg, steps, Advance(id, Nothing));
  }

  lemma CancelRunning(cfg: Config, steps: seq<Step>, id: string, r: Run, cancellable: bool)
    requires Stands(Exec(cfg, steps), id, r, Some(Running), cancellable)
    ensures Stands(Exec(cfg, steps + [UserCancel(id)]), id, r.(ctxDone := r.ctxDone || cancellable),
                   Some(Cancelled), cancellable)
  {
    ExecThen(cfg, steps, UserCancel(id));
  }

  /** The steps of a cancelled run that then succeeds. */
  function WinAnyway(id: string): seq<Step> {
    [Advance(id, Nothing), Advance(id, RunOk), Advance(id, Closed), Advance(id, Nothing), Advance(id, Nothing)]
  }

  /** From its start over an empty stream to the check. */
  lemma RunsToCheck(cfg: Config, steps: seq<Step>, id: string, r: Run, status: Status)
    requires r.pc.Starting? && Stands(Exec(cfg, steps), id, r, Some(status), true)
    ensures Stands(Exec(cfg, steps + [Advance(id, RunOk)] + [Advance(id, Closed)]), id, r.(pc := PostLoop),
                   Some(status), true)
  {
    LocalAdvance(cfg, steps, id, r, Some(status), true, RunOk);
    LocalAdvance(cfg, steps + [Advance(id, RunOk)], id, r.(pc := Looping), Some(status), true, Closed);
  }

  /** Past the check nothing but completion is left. */
  lemma CompletesAnyway(cfg: Config, steps: seq<Step>, id: string, r: Run, status: Status)
    requires r.pc.PostLoop? && !r.ctxDone && Stands(Exec(cfg, steps), id, r, Some(status), true)
    ensures Stands(Exec(cfg, steps + [Advance(id, Nothing)] + [Advance(id, Nothing)]), id, r.(pc := MarkingDone),
                   Some(Completed), true)
  {
    var done := steps + [Advance(id, Nothing)];
    LocalAdvance(cfg, steps, id, r, Some(status), true, Nothing);
    CompleteStep(cfg, done, id, r.(pc := Completing), status);
  }

  lemma CompleteStep(cfg: Config, steps: seq<Step>, id: string, r: Run, status: Status)
    requires r.pc.Completing? && Stands(Exec(cfg, steps), id, r, Some(status), true)
    ensures Stands(Exec(cfg, steps + [Advance(id, Nothing)]), id, r.(pc := MarkingDone), Some(Completed), true)
  {
    ExecThen(cfg, steps, Advance(id, Nothing));
  }

  /**
   A run from the start whose task is cancelled before it published its cancel
   function: it never notices, and its success overwrites the cancellation.
   */
  lemma CancelIsOverwritten(cfg: Config, agent: string, policy: Policy, id: string)
    requires agent in cfg.agents
    ensures var cancelled := Launch(agent, policy, id) + [UserCancel(id)];
            && (var w := Exec(cfg, cancelled); id in w.tasks && w.tasks[id].status.Cancelled?)
            && (var w := Exec(cfg, cancelled + WinAnyway(id));
                id in w.runs && Won(w.runs[id].pc) && id in w.tasks && w.tasks[id].status.Completed?)
  {
    var r, a := RunAt(agent, policy, Launched, false), Advance(id, Nothing);
    var s0 := Launch(agent, policy, id) + [UserCancel(id)];
    Launches(cfg, agent, policy, id);
    CancelRunning(cfg, Launch(agent, policy, id), id, r, false);
    Publish(cfg, s0, id, r, Cancelled);
    var s1 := s0 + [a];
    RunsToCheck(cfg, s1, id, r.(pc := Starting), Cancelled);
    var s2 := s1 + [Advance(id, RunOk)] + [Advance(id, Closed)];
    CompletesAnyway(cfg, s2, id, r.(pc := PostLoop), Cancelled);
    assert s2 + [a] + [a] == s0 + WinAnyway(id);
  }

  /** The steps of a cancelled run whose task is collected just before it asks about it. */
  function CollectedFirst(id: string): seq<Step> {
    [Advance(id, Nothing), UserCancel(id), Advance(id, RunOk), Advance(id, Closed), Advance(id, Nothing),
     Other(QueuedResults), Advance(id, Nothing)]
  }

  lemma CollectedThenAsked(cfg: Config, steps: seq<Step>, id: string, r: Run)
    requires r.req.policy.Queue? && r.pc.AskStatus? && Stands(Exec(cfg, steps), id, r, Some(Cancelled), true)
    ensures Stands(Exec(cfg, steps + [Other(QueuedResults)] + [Advance(id, Nothing)]), id,
                   r.(pc := Failing(TimedOut(r.loop.turns))), None, true)
  {
    var collected := steps + [Other(QueuedResults)];
    ExecThen(cfg, steps, Other(QueuedResults));
    assert Stands(Exec(cfg, collected), id, r, None, true);
    LocalAdvance(cfg, collected, id, r, None, true, Nothing);
  }

  /** A run from the start that the user cancelled and that puts it down to a timeout. */
  lemma CancelGoesUnreported(cfg: Config, agent: string, id: string)
    requires agent in cfg.agents
    ensures var w := Exec(cfg, Launch(agent, Queue, id) + CollectedFirst(id));
            id in w.runs && w.runs[id].pc == Failing(TimedOut(0)) && id !in w.tasks
  {
    var r, a := RunAt(agent, Queue, Launched, false), Advance(id, Nothing);
    var s0 := Launch(agent, Queue, id);
    Launches(cfg, agent, Queue, id);
    Publish(cfg, s0, id, r, Running);
    var s1 := s0 + [a];
    CancelRunning(cfg, s1, id, r.(pc := Starting), true);
    var s2, cancelled := s1 + [UserCancel(id)], r.(pc := Starting, ctxDone := true);
    RunsToCheck(cfg, s2, id, cancelled, Cancelled);
    var s3 := s2 + [Advance(id, RunOk)] + [Advance(id, Closed)];
    LocalAdvance(cfg, s3, id, cancelled.(pc := PostLoop), Some(Cancelled), true, Nothing);
    var s4 := s3 + [a];
    CollectedThenAsked(cfg, s4, id, cancelled.(pc := AskStatus));
    assert s4 + [Other(QueuedResults)] + [a] == s0 + CollectedFirst(id);
  }
}
