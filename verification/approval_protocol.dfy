/**
 The decision protocol around a paused execution: the gate that registers and
 stores it, the waiter that blocks on its one-slot channel or times out, callers
 of SignalDecision, the reaper, and dashboard requests that check a task's
 status before they settle it. Every access to shared state is its own step.
 */
module ApprovalProtocol {
  import opened Options
  import opened TaskLedger

  /** Thirty minutes, in seconds: both the reaper's deadline and the waiter's. */
  const APPROVAL_TIMEOUT := 1800

  datatype PC =
    | Interrupted                 // register the approval task
    | Storing                     // store the execution
    | Waiting(since: int)         // block on the channel, the timeout or the context
    | Resuming(approved: bool)    // look the execution up and start it
    | Deleting(approved: bool)    // the gate removes the execution
    | Settling(approved: bool)    // the gate settles the task
    | Settled(approved: bool)
    | ExpiredDelete
    | ExpiredFail
    | TimedOut
    | Abandoned                   // the caller's context ended, or the resume failed

  /** A value in the channel, with its position among all that were accepted. */
  datatype Decision = Decision(approved: bool, position: nat)

  datatype Approval = Approval(
    pc: PC,
    slot: Option<Decision>,       // the channel's one buffered value
    accepted: seq<bool>,          // what SignalDecision accepted, in order
    taken: Option<nat>,           // the position of the value the waiter received
    overruled: bool,              // settled by a dashboard request after the gate or waiter had
    ended: bool)                  // the execution behind the gate has come to its end

  datatype World = World(
    now: int,
    tasks: Tasks,
    executions: set<string>,      // the execution store
    approvals: map<string, Approval>,
    signals: map<nat, string>,    // SignalDecision calls that found their execution
    checked: map<nat, string>)    // dashboard requests that found their task pending

  datatype Step =
    | Tick(elapsed: nat)
    | Pause(id: string)
    | Advance(id: string, session: string)
    | Receive(id: string)
    | ContextDone(id: string)
    | WaiterTimeout(id: string)
    | ResumeFails(id: string)
    | GateAgain(id: string)       // the approved execution comes to the gate with a later guarded call
    | ExecutionEnds(id: string)
    | SignalLookup(caller: nat, id: string)
    | SignalSend(caller: nat, approved: bool)
    | DashboardCheck(request: nat, id: string)
    | DashboardSettle(request: nat, approved: bool)
    | ReaperPass

  const INITIAL := World(0, map[], {}, map[], map[], map[])

  function Put(w: World, id: string, a: Approval): World {
    w.(approvals := w.approvals[id := a])
  }

  predicate Over(pc: PC) { pc.Settled? || pc.TimedOut? }

  /** The decision stays in the context of an approved execution, which may come to the gate again. */
  predicate MayRepeat(a: Approval) { a.pc == Settled(true) && !a.ended }

  // The gate's and the waiter's own next access

  function TaskOp(id: string, session: string, pc: PC): Option<Op> {
    match pc
    case Interrupted => Some(RegisterApproval(id, "skill", session, APPROVAL_TIMEOUT))
    case Settling(approved) => Some(if approved then Complete(id, "approved") else Fail(id, "rejected"))
    case ExpiredFail => Some(Fail(id, "timeout"))
    case _ => None
  }

  function TasksAfter(tasks: Tasks, op: Option<Op>, now: int): Tasks {
    if op.Some? then Apply(tasks, op.value, now) else tasks
  }

  function ExecutionsAfter(id: string, pc: PC, executions: set<string>): set<string> {
    if pc.Storing? then executions + {id}
    else if pc.Deleting? || pc.ExpiredDelete? then executions - {id}
    else executions
  }

  function PCAfter(pc: PC, now: int, stored: bool): PC {
    match pc
    case Interrupted => Storing
    case Storing => Waiting(now)
    case Resuming(approved) => if stored then Deleting(approved) else Abandoned
    case Deleting(approved) => Settling(approved)
    case Settling(approved) => Settled(approved)
    case ExpiredDelete => ExpiredFail
    case ExpiredFail => TimedOut
    case _ => pc
  }

  function AdvanceOne(w: World, id: string, session: string): World
    requires id in w.approvals
  {
    var a := w.approvals[id];
    Put(w.(tasks := TasksAfter(w.tasks, TaskOp(id, session, a.pc), w.now),
           executions := ExecutionsAfter(id, a.pc, w.executions)),
        id, a.(pc := PCAfter(a.pc, w.now, id in w.executions)))
  }

  function Next(w: World, step: Step): World {
    match step
    case Tick(d) => w.(now := w.now + d)
    case Pause(id) =>
      if id in w.approvals || id in w.tasks then w
      else Put(w, id, Approval(Interrupted, None, [], None, false, false))
    case Advance(id, session) => if id in w.approvals then AdvanceOne(w, id, session) else w
    case Receive(id) =>
      if id in w.approvals && w.approvals[id].pc.Waiting? && w.approvals[id].slot.Some?
      then
        var d := w.approvals[id].slot.value;
        Put(w, id, w.approvals[id].(pc := Resuming(d.approved), slot := None, taken := Some(d.position)))
      else w
    case ContextDone(id) =>
      if id in w.approvals && w.approvals[id].pc.Waiting? then Put(w, id, w.approvals[id].(pc := Abandoned)) else w
    case WaiterTimeout(id) =>
      if id in w.approvals && w.approvals[id].pc.Waiting? && w.now >= w.approvals[id].pc.since + APPROVAL_TIMEOUT
      then Put(w, id, w.approvals[id].(pc := ExpiredDelete))
      else w
    case ResumeFails(id) =>
      if id in w.approvals && w.approvals[id].pc.Resuming? then Put(w, id, w.approvals[id].(pc := Abandoned)) else w
    case GateAgain(id) =>
      if id in w.approvals && MayRepeat(w.approvals[id])
      then w.(tasks := Apply(w.tasks, Complete(id, "approved"), w.now), executions := w.executions - {id})
      else w
    case ExecutionEnds(id) =>
      if id in w.approvals && w.approvals[id].pc.Settled? then Put(w, id, w.approvals[id].(ended := true)) else w
    case SignalLookup(caller, id) =>
      if id in w.executions && caller !in w.signals then w.(signals := w.signals[caller := id]) else w
    case SignalSend(caller, approved) =>
      if caller in w.signals && w.signals[caller] in w.approvals then
        var id := w.signals[caller];
        var a := w.approvals[id];
        if a.slot.None?
        then Put(w, id, a.(slot := Some(Decision(approved, |a.accepted|)), accepted := a.accepted + [approved]))
        else w
      else w
    case DashboardCheck(request, id) =>
      if id in w.tasks && w.tasks[id].status.PendingApproval? && id in w.approvals && request !in w.checked
      then w.(checked := w.checked[request := id]) else w
    case DashboardSettle(request, approved) =>
      if request in w.checked && w.checked[request] in w.approvals then
        var id := w.checked[request];
        var op := if approved then Complete(id, "approved") else Fail(id, "rejected by user");
        Put(w.(tasks := Apply(w.tasks, op, w.now),
               checked := w.checked - {request}),
            id, w.approvals[id].(overruled := w.approvals[id].overruled || Over(w.approvals[id].pc)))
      else w
    case ReaperPass => w.(tasks := Apply(w.tasks, Reap, w.now))
  }

  function Exec(steps: seq<Step>): World {
    if steps == [] then INITIAL else Next(Exec(steps[..|steps| - 1]), steps[|steps| - 1])
  }

  // ---------------------------------------------------------------------
  // Invariant
  // ---------------------------------------------------------------------

  predicate HasDecision(pc: PC) { pc.Resuming? || pc.Deleting? || pc.Settling? || pc.Settled? }

  /** Between storing the execution and its removal. */
  predicate Stored(pc: PC) { pc.Waiting? || pc.Resuming? || pc.Deleting? || pc.ExpiredDelete? }

  predicate Removed(pc: PC) {
    pc.Settling? || pc.Settled? || pc.ExpiredFail? || pc.TimedOut? || pc.Interrupted? || pc.Storing?
  }

  /** The channel against what was accepted: at most two values ever, the waiter having the first. */
  predicate ChannelOk(a: Approval) {
    if HasDecision(a.pc) then
      && 1 <= |a.accepted| <= 2 && a.pc.approved == a.accepted[0] && a.taken == Some(0)
      && a.slot == (if |a.accepted| == 2 then Some(Decision(a.accepted[1], 1)) else None)
    else if a.pc.Abandoned? then
      |a.accepted| <= if a.slot.None? then 1 else 2
    else
      && |a.accepted| <= 1 && a.taken.None?
      && a.slot == (if |a.accepted| == 1 then Some(Decision(a.accepted[0], 0)) else None)
  }

  predicate TaskOk(id: string, a: Approval, tasks: Tasks) {
    && (a.pc.Interrupted? <==> id !in tasks)
    && (id in tasks ==>
          && tasks[id].external && tasks[id].policy.Auto?
          && !tasks[id].status.Cancelled? && !tasks[id].status.Running?)
    && (a.pc.Settled? && !a.overruled ==> (tasks[id].status.Completed? <==> a.pc.approved))
    && (a.pc.Settled? || a.pc.TimedOut? ==> !tasks[id].status.PendingApproval?)
    && (a.pc.TimedOut? && !a.overruled ==> tasks[id].status.Failed?)
  }

  predicate StoreOk(id: string, a: Approval, executions: set<string>) {
    && (Stored(a.pc) ==> id in executions)
    && (Removed(a.pc) ==> id !in executions)
    && (a.accepted != [] ==> !a.pc.Interrupted? && !a.pc.Storing?)
  }

  predicate ApprovalOk(w: World, id: string)
    requires id in w.approvals
  {
    var a := w.approvals[id];
    ChannelOk(a) && TaskOk(id, a, w.tasks) && StoreOk(id, a, w.executions)
  }

  ghost predicate Inv(w: World) {
    && (forall id | id in w.approvals :: ApprovalOk(w, id))
    && (forall c | c in w.signals ::
          && w.signals[c] in w.approvals
          && !w.approvals[w.signals[c]].pc.Interrupted? && !w.approvals[w.signals[c]].pc.Storing?)
    && (forall r | r in w.checked :: w.checked[r] in w.approvals && !w.approvals[w.checked[r]].pc.Interrupted?)
    && w.executions <= w.approvals.Keys && w.tasks.Keys <= w.approvals.Keys
  }

  predicate Announced(a: Approval) { !a.pc.Interrupted? && !a.pc.Storing? }

  /** A step about one approval. */
  ghost predicate Touches(w: World, w': World, id: string) {
    && id in w'.approvals && w'.approvals == w.approvals[id := w'.approvals[id]]
    && (forall o | o != id :: o in w'.tasks <==> o in w.tasks)
    && (forall o | o != id && o in w.tasks :: w'.tasks[o] == w.tasks[o])
    && (forall o | o != id :: o in w'.executions <==> o in w.executions)
    && w'.signals == w.signals && (forall r | r in w'.checked :: r in w.checked && w'.checked[r] == w.checked[r])
    && (id in w.approvals ==>
          && (Announced(w.approvals[id]) ==> Announced(w'.approvals[id]))
          && (!w.approvals[id].pc.Interrupted? ==> !w'.approvals[id].pc.Interrupted?))
  }

  lemma TouchKeeps(w: World, w': World, id: string)
    requires Inv(w) && Touches(w, w', id) && ApprovalOk(w', id)
    ensures Inv(w')
  {
    forall o | o in w'.approvals && o != id ensures ApprovalOk(w', o) {
      TouchSpares(w, w', id, o);
    }
  }

  lemma TouchSpares(w: World, w': World, id: string, other: string)
    requires Inv(w) && Touches(w, w', id) && other in w'.approvals && other != id
    ensures ApprovalOk(w', other)
  {
    assert ApprovalOk(w, other) && w'.approvals[other] == w.approvals[other];
  }

  lemma AdvanceKeepsApproval(w: World, id: string, session: string, a: Approval,
        tasks: Tasks, executions: set<string>, now: int)
    requires ChannelOk(a) && TaskOk(id, a, tasks) && StoreOk(id, a, executions)
    ensures var a' := a.(pc := PCAfter(a.pc, now, id in executions));
            var tasks' := TasksAfter(tasks, TaskOp(id, session, a.pc), now);
            && ChannelOk(a') && TaskOk(id, a', tasks')
            && StoreOk(id, a', ExecutionsAfter(id, a.pc, executions))
  {}

  lemma AdvanceTouches(w: World, id: string, session: string)
    requires id in w.approvals
    ensures Touches(w, AdvanceOne(w, id, session), id)
  {
    var op := TaskOp(id, session, w.approvals[id].pc);
    if op.Some? {
      ApplyIsLocal(w.tasks, op.value, w.now);
    }
  }

  lemma AdvanceKeeps(w: World, id: string, session: string)
    requires Inv(w) && id in w.approvals
    ensures Inv(AdvanceOne(w, id, session))
  {
    var w' := AdvanceOne(w, id, session);
    assert ApprovalOk(w, id);
    AdvanceTouches(w, id, session);
    AdvanceKeepsApproval(w, id, session, w.approvals[id], w.tasks, w.executions, w.now);
    TouchKeeps(w, w', id);
  }

  predicate WaiterStep(step: Step) {
    step.Receive? || step.ContextDone? || step.WaiterTimeout? || step.ResumeFails? || step.Pause?
    || step.ExecutionEnds?
  }

  lemma WaiterTouches(w: World, step: Step)
    requires WaiterStep(step) && Next(w, step) != w
    ensures Touches(w, Next(w, step), step.id)
  {}

  lemma WaiterKeepsApproval(w: World, step: Step)
    requires Inv(w) && WaiterStep(step) && Next(w, step) != w
    ensures step.id in Next(w, step).approvals && ApprovalOk(Next(w, step), step.id)
  {
    if step.Pause? {
      PauseKeepsApproval(w, step.id);
    } else {
      assert ApprovalOk(w, step.id);
    }
  }

  lemma PauseKeepsApproval(w: World, id: string)
    requires Inv(w) && id !in w.approvals && id !in w.tasks
    ensures id in Next(w, Pause(id)).approvals && ApprovalOk(Next(w, Pause(id)), id)
  {}

  lemma WaiterKeeps(w: World, step: Step)
    requires Inv(w) && WaiterStep(step)
    ensures Inv(Next(w, step))
  {
    if Next(w, step) != w {
      WaiterTouches(w, step);
      WaiterKeepsApproval(w, step);
      TouchKeeps(w, Next(w, step), step.id);
    }
  }

  lemma SendKeeps(w: World, caller: nat, approved: bool)
    requires Inv(w)
    ensures Inv(Next(w, SignalSend(caller, approved)))
  {
    var w' := Next(w, SignalSend(caller, approved));
    if w' != w {
      var id := w.signals[caller];
      assert ApprovalOk(w, id);
      TouchKeeps(w, w', id);
    }
  }

  lemma SettleTouches(w: World, request: nat, approved: bool)
    requires request in w.checked && w.checked[request] in w.approvals
    ensures Touches(w, Next(w, DashboardSettle(request, approved)), w.checked[request])
  {}

  lemma SettleKeepsApproval(w: World, request: nat, approved: bool)
    requires Inv(w) && request in w.checked && w.checked[request] in w.approvals
    ensures var w' := Next(w, DashboardSettle(request, approved));
            w.checked[request] in w'.approvals && ApprovalOk(w', w.checked[request])
  {
    assert ApprovalOk(w, w.checked[request]);
  }

  lemma SettleKeeps(w: World, request: nat, approved: bool)
    requires Inv(w)
    ensures Inv(Next(w, DashboardSettle(request, approved)))
  {
    if request in w.checked && w.checked[request] in w.approvals {
      SettleTouches(w, request, approved);
      SettleKeepsApproval(w, request, approved);
      TouchKeeps(w, Next(w, DashboardSettle(request, approved)), w.checked[request]);
    }
  }

  lemma GateAgainKeeps(w: World, id: string)
    requires Inv(w)
    ensures Inv(Next(w, GateAgain(id)))
  {
    if id in w.approvals && MayRepeat(w.approvals[id]) {
      assert ApprovalOk(w, id);
      ApplyIsLocal(w.tasks, Complete(id, "approved"), w.now);
      TouchKeeps(w, Next(w, GateAgain(id)), id);
    }
  }

  /** Lookups, the clock and the reaper change no approval. */
  lemma QuietKeeps(w: World, step: Step)
    requires Inv(w) && (step.SignalLookup? || step.DashboardCheck? || step.ReaperPass? || step.Tick?)
    ensures Inv(Next(w, step))
  {
    forall id | id in w.approvals ensures ApprovalOk(Next(w, step), id) { assert ApprovalOk(w, id); }
  }

  lemma NextKeeps(w: World, step: Step)
    requires Inv(w)
    ensures Inv(Next(w, step))
  {
    match step
    case Advance(id, session) => if id in w.approvals { AdvanceKeeps(w, id, session); }
    case GateAgain(id) => GateAgainKeeps(w, id);
    case SignalSend(caller, approved) => SendKeeps(w, caller, approved);
    case DashboardSettle(request, approved) => SettleKeeps(w, request, approved);
    case _ => if WaiterStep(step) { WaiterKeeps(w, step); } else { QuietKeeps(w, step); }
  }

  lemma {:induction false} Reachable(steps: seq<Step>)
    ensures Inv(Exec(steps))
    decreases |steps|
  {
    if steps != [] {
      Reachable(steps[..|steps| - 1]);
      NextKeeps(Exec(steps[..|steps| - 1]), steps[|steps| - 1]);
    }
  }

  // ---------------------------------------------------------------------
  // Theorems
  // ---------------------------------------------------------------------

  /**
   Whatever is signalled and however often, a waiter that acts on a decision
   acts on the first one SignalDecision accepted; no later signal changes it,
   and at most one later signal is accepted at all.
   */
  lemma FirstAcceptedDecisionCounts(steps: seq<Step>, id: string)
    ensures var w := Exec(steps);
            id in w.approvals && HasDecision(w.approvals[id].pc) ==>
              var a := w.approvals[id];
              a.taken == Some(0) && 1 <= |a.accepted| <= 2 && a.pc.approved == a.accepted[0]
  {
    Reachable(steps);
    if id in Exec(steps).approvals { assert ApprovalOk(Exec(steps), id); }
  }

  /**
   Once the gate has settled an approval or the waiter timed out, its execution
   is gone from the store and its task is no longer pending; unless a dashboard
   request settles it afterwards, the task is completed exactly when the acted-on
   decision was to approve.
   */
  lemma SettledApprovals(steps: seq<Step>, id: string)
    ensures var w := Exec(steps);
            id in w.approvals && Over(w.approvals[id].pc) ==>
              var a := w.approvals[id];
              && id !in w.executions && id in w.tasks && !w.tasks[id].status.Live()
              && (!a.overruled ==> (w.tasks[id].status.Completed? <==> a.pc.Settled? && a.pc.approved))
  {
    Reachable(steps);
    if id in Exec(steps).approvals { assert ApprovalOk(Exec(steps), id); }
  }

  /** Every accepted value was received or is still in the channel, the newest last. */
  ghost predicate Accounted(a: Approval) {
    && |a.accepted| == (if a.taken.Some? then 1 else 0) + (if a.slot.Some? then 1 else 0)
    && (a.taken.Some? ==> a.taken.value == 0)
    && (a.slot.Some? ==> a.slot.value == Decision(a.accepted[|a.accepted| - 1], |a.accepted| - 1))
  }

  lemma StepAccounts(w: World, step: Step, id: string)
    requires id in w.approvals && ChannelOk(w.approvals[id]) && Accounted(w.approvals[id])
    ensures id in Next(w, step).approvals && Accounted(Next(w, step).approvals[id])
  {}

  lemma NewAccounts(w: World, step: Step, id: string)
    requires id !in w.approvals
    ensures id in Next(w, step).approvals ==> Accounted(Next(w, step).approvals[id])
  {}

  lemma {:induction false} NothingIsLost(steps: seq<Step>, id: string)
    ensures id in Exec(steps).approvals ==> Accounted(Exec(steps).approvals[id])
    decreases |steps|
  {
    if steps != [] {
      var before := steps[..|steps| - 1];
      NothingIsLost(before, id);
      Reachable(before);
      if id in Exec(before).approvals {
        assert ApprovalOk(Exec(before), id);
        StepAccounts(Exec(before), steps[|steps| - 1], id);
      } else {
        NewAccounts(Exec(before), steps[|steps| - 1], id);
      }
    }
  }

  /**
   A signal that found its execution is accepted exactly when nothing was accepted
   before, or one value was and the waiter has received it; if not, nothing changes.
   */
  lemma SignalAcceptedIff(steps: seq<Step>, caller: nat, approved: bool)
    requires caller in Exec(steps).signals
    ensures var w, w', id := Exec(steps), Exec(steps + [SignalSend(caller, approved)]), Exec(steps).signals[caller];
            && id in w.approvals && id in w'.approvals
            && var a := w.approvals[id];
               if a.accepted == [] || (|a.accepted| == 1 && a.taken == Some(0))
               then w'.approvals[id].accepted == a.accepted + [approved]
               else w' == w
  {
    Reachable(steps);
    NothingIsLost(steps, Exec(steps).signals[caller]);
    ExecThen(steps, SignalSend(caller, approved));
  }

  // ---------------------------------------------------------------------
  // When a settlement stands
  // ---------------------------------------------------------------------

  ghost predicate Outstanding(w: World, id: string) {
    exists r :: r in w.checked && w.checked[r] == id
  }

  /** Settled or timed out, no dashboard request is about to write, and the gate would write nothing new. */
  ghost predicate Quiet(w: World, id: string) {
    && id in w.approvals && Over(w.approvals[id].pc) && !Outstanding(w, id)
    && id in w.tasks && !w.tasks[id].status.Live()
    && (MayRepeat(w.approvals[id]) ==> w.tasks[id].status.Completed?)
  }

  /** Nothing about this approval or its task differs. */
  ghost predicate Undisturbed(w: World, w': World, id: string) {
    && id in w.approvals && id in w'.approvals && w'.approvals[id].pc == w.approvals[id].pc
    && id in w.tasks && id in w'.tasks && w'.tasks[id].status == w.tasks[id].status
    && (MayRepeat(w'.approvals[id]) ==> MayRepeat(w.approvals[id]))
    && forall r | r in w'.checked && w'.checked[r] == id :: r in w.checked && w.checked[r] == id
  }

  lemma QuietAdvance(w: World, id: string, other: string, session: string)
    requires Quiet(w, id) && other in w.approvals
    ensures Undisturbed(w, AdvanceOne(w, other, session), id)
  {
    if other != id {
      AdvanceTouches(w, other, session);
    }
  }

  lemma QuietSettle(w: World, id: string, request: nat, approved: bool)
    requires Quiet(w, id)
    ensures Undisturbed(w, Next(w, DashboardSettle(request, approved)), id)
  {
    if request in w.checked {
      assert w.checked[request] != id;
    }
  }

  lemma QuietStep(w: World, step: Step, id: string)
    requires Quiet(w, id)
    ensures Quiet(Next(w, step), id) && Undisturbed(w, Next(w, step), id)
  {
    match step
    case Advance(other, session) =>
      if other in w.approvals {
        QuietAdvance(w, id, other, session);
      }
    case DashboardSettle(r, approved) => QuietSettle(w, id, r, approved);
    case _ => QuietOther(w, step, id);
  }

  lemma QuietOther(w: World, step: Step, id: string)
    requires Quiet(w, id) && !step.Advance? && !step.DashboardSettle?
    ensures Undisturbed(w, Next(w, step), id)
  {}

  lemma {:induction false} QuietForGood(steps: seq<Step>, more: seq<Step>, id: string)
    requires Quiet(Exec(steps), id)
    ensures var w, w' := Exec(steps), Exec(steps + more);
            && Quiet(w', id) && w'.tasks[id].status == w.tasks[id].status
            && w'.approvals[id].pc == w.approvals[id].pc
    decreases |more|
  {
    if more == [] {
      assert steps + more == steps;
    } else {
      var init := more[..|more| - 1];
      QuietForGood(steps, init, id);
      assert (steps + more)[..|steps + more| - 1] == steps + init;
      QuietStep(Exec(steps + init), more[|more| - 1], id);
    }
  }

  ghost predicate SameStatus(steps: seq<Step>, more: seq<Step>, id: string) {
    && id in Exec(steps).tasks && id in Exec(steps + more).tasks
    && Exec(steps + more).tasks[id].status == Exec(steps).tasks[id].status
  }

  /** An outstanding request can turn a settled task the other way. */
  lemma OutstandingCanOverrule(steps: seq<Step>, id: string) returns (step: Step)
    requires var w := Exec(steps); id in w.approvals && Over(w.approvals[id].pc) && Outstanding(w, id)
    ensures !SameStatus(steps, [step], id)
  {
    var w := Exec(steps);
    Reachable(steps);
    assert ApprovalOk(w, id);
    var r :| r in w.checked && w.checked[r] == id;
    step := DashboardSettle(r, !w.tasks[id].status.Completed?);
    SettleTurns(w, r, id);
    ExecThen(steps, step);
  }

  lemma SettleTurns(w: World, r: nat, id: string)
    requires r in w.checked && w.checked[r] == id && id in w.approvals
    requires id in w.tasks && (w.tasks[id].status.Completed? || w.tasks[id].status.Failed?)
    ensures var w' := Next(w, DashboardSettle(r, !w.tasks[id].status.Completed?));
            id in w'.tasks && w'.tasks[id].status != w.tasks[id].status
  {}

  /** A later pass of the gate completes a task that was overruled to failed. */
  lemma RepeatCompletes(steps: seq<Step>, id: string)
    requires var w := Exec(steps); id in w.approvals && MayRepeat(w.approvals[id]) && id in w.tasks
    ensures var w := Exec(steps + [GateAgain(id)]); id in w.tasks && w.tasks[id].status.Completed?
  {
    ExecThen(steps, GateAgain(id));
  }

  /** The gate may come by again and the task is not completed. */
  ghost predicate RepeatWouldChange(w: World, id: string) {
    id in w.approvals && MayRepeat(w.approvals[id]) && id in w.tasks && !w.tasks[id].status.Completed?
  }

  /**
   The status of a settled or timed-out approval's task stays as it is in every
   continuation exactly when no dashboard request that found the task pending has
   yet to write, and the task is completed if its approved execution still runs.
   */
  lemma SettledStatusStandsIff(steps: seq<Step>, id: string)
    requires var w := Exec(steps); id in w.approvals && Over(w.approvals[id].pc)
    ensures (forall more :: SameStatus(steps, more, id)) <==>
              !Outstanding(Exec(steps), id) && !RepeatWouldChange(Exec(steps), id)
  {
    SettledApprovals(steps, id);
    if Outstanding(Exec(steps), id) {
      var step := OutstandingCanOverrule(steps, id);
    } else if RepeatWouldChange(Exec(steps), id) {
      RepeatCompletes(steps, id);
      assert !SameStatus(steps, [GateAgain(id)], id);
    } else {
      forall more ensures SameStatus(steps, more, id) {
        QuietForGood(steps, more, id);
      }
    }
  }

  /** The task is completed exactly if the waiter acted on a decision to approve. */
  ghost predicate Agrees(steps: seq<Step>, id: string) {
    && id in Exec(steps).approvals && id in Exec(steps).tasks
    && var pc := Exec(steps).approvals[id].pc;
       Exec(steps).tasks[id].status.Completed? <==> pc.Settled? && pc.approved
  }

  /**
   The outcome of an approval that agrees with its decision now, as it does until it
   is overruled, agrees in every continuation exactly when no request is outstanding.
   */
  lemma DecisionStandsIff(steps: seq<Step>, id: string)
    requires var w := Exec(steps); id in w.approvals && Over(w.approvals[id].pc)
    ensures !Exec(steps).approvals[id].overruled ==> Agrees(steps, id)
    ensures Agrees(steps, id) ==> ((forall more :: Agrees(steps + more, id)) <==> !Outstanding(Exec(steps), id))
  {
    SettledApprovals(steps, id);
    if Agrees(steps, id) {
      if Outstanding(Exec(steps), id) {
        var step := OutstandingCanOverrule(steps, id);
        OverruledDisagrees(steps, id, step);
      } else {
        forall more ensures Agrees(steps + more, id) {
          QuietForGood(steps, more, id);
        }
      }
    }
  }

  /**
   An outcome that disagrees can come to agree again in some continuation exactly
   when a request is outstanding or the approved execution still runs.
   */
  lemma DecisionRestoredIff(steps: seq<Step>, id: string)
    requires var w := Exec(steps); id in w.approvals && Over(w.approvals[id].pc) && !Agrees(steps, id)
    ensures (exists more :: Agrees(steps + more, id)) <==>
              Outstanding(Exec(steps), id) || MayRepeat(Exec(steps).approvals[id])
  {
    SettledApprovals(steps, id);
    if Outstanding(Exec(steps), id) {
      var step := OutstandingCanOverrule(steps, id);
      OverruledAgrees(steps, id, step);
    } else if MayRepeat(Exec(steps).approvals[id]) {
      RepeatCompletes(steps, id);
      OverStep(Exec(steps), GateAgain(id), id);
      ExecThen(steps, GateAgain(id));
      assert Agrees(steps + [GateAgain(id)], id);
    } else {
      forall more ensures !Agrees(steps + more, id) {
        QuietForGood(steps, more, id);
      }
    }
  }

  lemma OverruledAgrees(steps: seq<Step>, id: string, step: Step)
    requires var w := Exec(steps); id in w.approvals && Over(w.approvals[id].pc) && !Agrees(steps, id)
    requires !SameStatus(steps, [step], id)
    ensures Agrees(steps + [step], id)
  {
    ExecThen(steps, step);
    Reachable(steps);
    Reachable(steps + [step]);
    assert ApprovalOk(Exec(steps), id);
    OverStep(Exec(steps), step, id);
    assert ApprovalOk(Exec(steps + [step]), id);
  }

  lemma OverruledDisagrees(steps: seq<Step>, id: string, step: Step)
    requires var w := Exec(steps); id in w.approvals && Over(w.approvals[id].pc)
    requires Agrees(steps, id) && !SameStatus(steps, [step], id)
    ensures !Agrees(steps + [step], id)
  {
    ExecThen(steps, step);
    Reachable(steps);
    Reachable(steps + [step]);
    assert ApprovalOk(Exec(steps), id);
    OverStep(Exec(steps), step, id);
    assert ApprovalOk(Exec(steps + [step]), id);
  }

  lemma OverStep(w: World, step: Step, id: string)
    requires id in w.approvals && Over(w.approvals[id].pc)
    ensures id in Next(w, step).approvals && Next(w, step).approvals[id].pc == w.approvals[id].pc
  {
    match step
    case Advance(other, session) =>
      if other in w.approvals {
        assert Next(w, step).approvals == AdvanceOne(w, other, session).approvals;
      }
    case _ =>
  }

  // ---------------------------------------------------------------------
  // Which requests overrule
  // ---------------------------------------------------------------------

  /** At step k the dashboard request found the task pending. */
  ghost predicate FoundPending(steps: seq<Step>, request: nat, id: string, k: int) {
    && 0 <= k < |steps| && steps[k] == DashboardCheck(request, id)
    && id in Exec(steps[..k]).tasks && Exec(steps[..k]).tasks[id].status.PendingApproval?
  }

  /** From that check on to the end of the steps the request has yet to write. */
  ghost predicate CheckedSince(steps: seq<Step>, request: nat, id: string, k: int) {
    && FoundPending(steps, request, id, k)
    && forall i | k < i <= |steps| :: AboutToWrite(Exec(steps[..i]), request, id)
  }

  predicate AboutToWrite(w: World, request: nat, id: string) {
    request in w.checked && w.checked[request] == id
  }

  lemma NewChecks(w: World, step: Step, r: nat)
    requires r in Next(w, step).checked
    ensures (r in w.checked && Next(w, step).checked[r] == w.checked[r])
            || (step == DashboardCheck(r, Next(w, step).checked[r])
                && Next(w, step).checked[r] in w.tasks && w.tasks[Next(w, step).checked[r]].status.PendingApproval?)
  {}

  lemma FoundPendingEarlier(steps: seq<Step>, r: nat, id: string, n: nat, k: int)
    requires n <= |steps| && FoundPending(steps[..n], r, id, k)
    ensures FoundPending(steps, r, id, k)
  {
    assert steps[..n][..k] == steps[..k];
  }

  lemma CheckedStill(steps: seq<Step>, r: nat, id: string, k: int)
    requires steps != [] && CheckedSince(steps[..|steps| - 1], r, id, k) && AboutToWrite(Exec(steps), r, id)
    ensures CheckedSince(steps, r, id, k)
  {
    var n := |steps| - 1;
    FoundPendingEarlier(steps, r, id, n, k);
    forall i | k < i <= |steps| ensures AboutToWrite(Exec(steps[..i]), r, id) {
      if i <= n {
        assert steps[..n][..i] == steps[..i];
      } else {
        assert steps[..i] == steps;
      }
    }
  }

  /** A request about to write found its task pending, and has been about to write ever since. */
  lemma {:induction false} CheckedWasPending(steps: seq<Step>, r: nat) returns (k: int)
    requires r in Exec(steps).checked
    ensures CheckedSince(steps, r, Exec(steps).checked[r], k)
    decreases |steps|
  {
    var n := |steps| - 1;
    var before, id := Exec(steps[..n]), Exec(steps).checked[r];
    assert steps[..n + 1] == steps;
    NewChecks(before, steps[n], r);
    if r in before.checked && before.checked[r] == id {
      k := CheckedWasPending(steps[..n], r);
      CheckedStill(steps, r, id, k);
    } else {
      k := n;
    }
  }

  /** The step at which the gate settled the approval or the waiter timed out. */
  ghost predicate SettledAt(steps: seq<Step>, id: string, m: int) {
    && 0 <= m < |steps|
    && !(id in Exec(steps[..m]).approvals && Over(Exec(steps[..m]).approvals[id].pc))
    && id in Exec(steps[..m + 1]).approvals && Over(Exec(steps[..m + 1]).approvals[id].pc)
  }

  lemma {:induction false} SettledBefore(steps: seq<Step>, id: string) returns (m: int)
    requires id in Exec(steps).approvals && Over(Exec(steps).approvals[id].pc)
    ensures SettledAt(steps, id, m)
    decreases |steps|
  {
    var n := |steps| - 1;
    assert steps[..n + 1] == steps;
    if id in Exec(steps[..n]).approvals && Over(Exec(steps[..n]).approvals[id].pc) {
      m := SettledBefore(steps[..n], id);
      assert steps[..n][..m] == steps[..m] && steps[..n][..m + 1] == steps[..m + 1];
    } else {
      m := n;
    }
  }

  lemma {:induction false} OverSince(steps: seq<Step>, id: string, m: int, i: int)
    requires SettledAt(steps, id, m) && m < i <= |steps|
    ensures id in Exec(steps[..i]).approvals && Over(Exec(steps[..i]).approvals[id].pc)
    decreases i
  {
    if i > m + 1 {
      OverSince(steps, id, m, i - 1);
      assert steps[..i][..i - 1] == steps[..i - 1];
      OverStep(Exec(steps[..i - 1]), steps[i - 1], id);
    }
  }

  /** A task is found pending only before its approval is settled. */
  lemma PendingBeforeSettled(steps: seq<Step>, r: nat, id: string, k: int, m: int)
    requires FoundPending(steps, r, id, k) && SettledAt(steps, id, m)
    ensures k < m
  {
    assert steps[..m + 1][..m] == steps[..m] && steps[..m + 1][m] == steps[m];
    assert Exec(steps[..m + 1]) == Next(Exec(steps[..m]), steps[m]);
    if m < k {
      OverSince(steps, id, m, k);
      SettledApprovals(steps[..k], id);
    }
  }

  ghost predicate OverruledIn(w: World, id: string) { id in w.approvals && w.approvals[id].overruled }

  /** Step j overrules the approval, by a request that checked at step k, before the settlement at step m. */
  ghost predicate OverruledBy(steps: seq<Step>, id: string, r: nat, k: int, m: int, j: int) {
    && 0 <= k < m < j < |steps|
    && CheckedSince(steps[..j], r, id, k) && SettledAt(steps[..j], id, m)
    && steps[j].DashboardSettle? && steps[j].request == r
    && !OverruledIn(Exec(steps[..j]), id) && OverruledIn(Exec(steps[..j + 1]), id)
  }

  lemma NewOverruled(w: World, step: Step, id: string)
    requires OverruledIn(Next(w, step), id) && !OverruledIn(w, id)
    ensures step.DashboardSettle? && step.request in w.checked && w.checked[step.request] == id
    ensures id in w.approvals && Over(w.approvals[id].pc)
  {}

  lemma {:induction false} FirstOverruled(steps: seq<Step>, id: string) returns (j: int)
    requires OverruledIn(Exec(steps), id)
    ensures 0 <= j < |steps| && !OverruledIn(Exec(steps[..j]), id) && OverruledIn(Exec(steps[..j + 1]), id)
    decreases |steps|
  {
    var n := |steps| - 1;
    assert steps[..n + 1] == steps;
    if OverruledIn(Exec(steps[..n]), id) {
      j := FirstOverruled(steps[..n], id);
      assert steps[..n][..j] == steps[..j] && steps[..n][..j + 1] == steps[..j + 1];
    } else {
      j := n;
    }
  }

  /**
   The request that overrules a settled approval had found the task pending before
   the settlement and had been about to write ever since: its check and its write
   are two steps, and the settlement falls between them.
   */
  lemma {:induction false} OverruledOnlyByAStaleCheck(steps: seq<Step>, id: string)
    requires OverruledIn(Exec(steps), id)
    ensures exists r, k, m, j :: OverruledBy(steps, id, r, k, m, j)
  {
    var j := FirstOverruled(steps, id);
    var before := steps[..j];
    assert steps[..j + 1][..j] == before;
    NewOverruled(Exec(before), steps[j], id);
    var r := steps[j].request;
    var k := CheckedWasPending(before, r);
    var m := SettledBefore(before, id);
    PendingBeforeSettled(before, r, id, k, m);
    assert OverruledBy(steps, id, r, k, m, j);
  }

  // ---------------------------------------------------------------------
  // What an accepted signal does not promise
  // ---------------------------------------------------------------------

  /**
   A decision that SignalDecision accepted while the waiter still waits is lost
   when the waiter's timeout fires first: the task fails whatever was decided.
   */
  lemma {:induction false} AcceptedDecisionCanBeLost(w: World, id: string, session: string)
    requires Inv(w) && id in w.approvals && w.approvals[id].pc.Waiting?
    requires w.approvals[id].slot.Some? && w.approvals[id].slot.value.approved
    requires w.now >= w.approvals[id].pc.since + APPROVAL_TIMEOUT
    ensures var w1 := Next(w, WaiterTimeout(id));
            var w2 := Next(w1, Advance(id, session));
            var w3 := Next(w2, Advance(id, session));
            && id in w3.approvals && w3.approvals[id].pc.TimedOut? && w3.approvals[id].accepted == [true]
            && id in w3.tasks && w3.tasks[id].status.Failed?
  {
    assert ApprovalOk(w, id);
    var w1 := Next(w, WaiterTimeout(id));
    assert w1.approvals[id].accepted == [true];
    ExpiryFails(w1, id, session);
  }

  lemma ExpiryFails(w: World, id: string, session: string)
    requires id in w.approvals && w.approvals[id].pc.ExpiredDelete?
    requires id in w.tasks && !w.tasks[id].status.Cancelled?
    ensures var w3 := AdvanceOne(AdvanceOne(w, id, session), id, session);
            && w3.approvals[id].pc.TimedOut? && w3.approvals[id].accepted == w.approvals[id].accepted
            && id in w3.tasks && w3.tasks[id].status.Failed?
  {
    var w2 := AdvanceOne(w, id, session);
    assert w2.approvals[id].pc.ExpiredFail? && w2.tasks == w.tasks;
    assert AdvanceOne(w2, id, session).tasks == Apply(w.tasks, Fail(id, "timeout"), w.now);
  }

  /** The waiter gave up: no decision can reach the gate any more. */
  predicate GaveUp(pc: PC) { pc.ExpiredDelete? || pc.ExpiredFail? || pc.TimedOut? || pc.Abandoned? }

  lemma GaveUpStep(w: World, step: Step, id: string)
    requires id in w.approvals && GaveUp(w.approvals[id].pc)
    ensures id in Next(w, step).approvals && GaveUp(Next(w, step).approvals[id].pc)
  {
    match step
    case Advance(other, session) =>
      if other in w.approvals {
        assert Next(w, step).approvals == AdvanceOne(w, other, session).approvals;
      }
    case _ =>
  }

  lemma {:induction false} GaveUpForGood(steps: seq<Step>, more: seq<Step>, id: string)
    requires id in Exec(steps).approvals && GaveUp(Exec(steps).approvals[id].pc)
    ensures id in Exec(steps + more).approvals && GaveUp(Exec(steps + more).approvals[id].pc)
    decreases |more|
  {
    if more == [] {
      assert steps + more == steps;
    } else {
      var init := more[..|more| - 1];
      GaveUpForGood(steps, init, id);
      assert (steps + more)[..|steps + more| - 1] == steps + init;
      GaveUpStep(Exec(steps + init), more[|more| - 1], id);
    }
  }

  /** The waiter has acted on the accepted decision of this position. */
  ghost predicate ActsOn(steps: seq<Step>, id: string, position: nat) {
    && id in Exec(steps).approvals && HasDecision(Exec(steps).approvals[id].pc)
    && Exec(steps).approvals[id].taken == Some(position)
  }

  lemma SignalAccepted(w: World, caller: nat, approved: bool, id: string)
    requires Inv(w) && caller in w.signals && w.signals[caller] == id && id in w.approvals && w.approvals[id].slot.None?
    ensures var w', a := Next(w, SignalSend(caller, approved)), w.approvals[id];
            && id in w'.approvals && w'.approvals[id].pc == a.pc && w'.approvals[id].accepted == a.accepted + [approved]
            && w'.approvals[id].slot == Some(Decision(approved, |a.accepted|))
            && (a.accepted == [] ==> a.pc.Waiting? || GaveUp(a.pc))
  {
    assert ApprovalOk(w, id);
  }

  lemma OnlyTheFirstCounts(steps: seq<Step>, id: string, position: nat)
    requires position > 0
    ensures !ActsOn(steps, id, position)
  {
    FirstAcceptedDecisionCounts(steps, id);
  }

  /**
   A decision that SignalDecision accepts may still be acted on exactly when the
   waiter is waiting at that moment. The code asks only whether the execution is
   stored and its channel has room, so it also accepts decisions that come too late.
   */
  lemma AcceptedDecisionMayCountIff(steps: seq<Step>, caller: nat, approved: bool, id: string)
    requires var w := Exec(steps);
             caller in w.signals && w.signals[caller] == id && id in w.approvals && w.approvals[id].slot.None?
    ensures var a, after := Exec(steps).approvals[id], steps + [SignalSend(caller, approved)];
            && id in Exec(after).approvals && Exec(after).approvals[id].accepted == a.accepted + [approved]
            && ((exists more :: ActsOn(after + more, id, |a.accepted|)) <==> a.pc.Waiting?)
  {
    var w, after := Exec(steps), steps + [SignalSend(caller, approved)];
    var a := w.approvals[id];
    Reachable(steps);
    ExecThen(steps, SignalSend(caller, approved));
    SignalAccepted(w, caller, approved, id);
    if a.pc.Waiting? {
      ExecThen(after, Receive(id));
      assert ActsOn(after + [Receive(id)], id, |a.accepted|);
    } else {
      forall more ensures !ActsOn(after + more, id, |a.accepted|) {
        if a.accepted == [] {
          GaveUpForGood(after, more, id);
        } else {
          OnlyTheFirstCounts(after + more, id, |a.accepted|);
        }
      }
    }
  }

  /** A world with one approval, at the given point. */
  ghost predicate Only(w: World, id: string, a: Approval, status: Option<Status>,
        stored: bool, looked: bool, found: bool)
  {
    && w.now == 0 && w.approvals == map[id := a]
    && w.executions == (if stored then {id} else {})
    && w.signals == (if looked then map[0 := id] else map[])
    && w.checked == (if found then map[0 := id] else map[])
    && (id in w.tasks <==> status.Some?) && (id in w.tasks ==> w.tasks[id].status == status.value)
  }

  function PauseToDecision(id: string, approved: bool): seq<Step> {
    [Pause(id), Advance(id, ""), Advance(id, ""), SignalLookup(0, id), SignalSend(0, approved)]
  }

  function StaleApproval(id: string): seq<Step> {
    [DashboardCheck(0, id), Receive(id), Advance(id, ""), Advance(id, ""), Advance(id, ""), DashboardSettle(0, true)]
  }

  function StaleRejection(id: string): seq<Step> {
    [DashboardCheck(0, id), Receive(id), Advance(id, ""), Advance(id, ""), Advance(id, ""), DashboardSettle(0, false)]
  }

  function TimeoutFirst(id: string): seq<Step> {
    [Tick(APPROVAL_TIMEOUT), WaiterTimeout(id), Advance(id, ""), Advance(id, "")]
  }

  lemma ExecThen(steps: seq<Step>, step: Step)
    ensures Exec(steps + [step]) == Next(Exec(steps), step)
  {
    assert (steps + [step])[..|steps|] == steps;
  }

  /** An approval nobody has decided yet. */
  function Undecided(pc: PC): Approval {
    Approval(pc, None, [], None, false, false)
  }

  /** An accepted decision in the channel of a waiting execution. */
  function Decided(approved: bool): Approval {
    Approval(Waiting(0), Some(Decision(approved, 0)), [approved], None, false, false)
  }

  lemma PauseArrives(id: string)
    ensures Only(Exec([Pause(id), Advance(id, ""), Advance(id, "")]), id, Undecided(Waiting(0)),
                 Some(PendingApproval), true, false, false)
  {
    var s := [Pause(id), Advance(id, ""), Advance(id, "")];
    var s1, s2 := [s[0]], [s[0], s[1]];
    assert [] + [s[0]] == s1 && s1 + [s[1]] == s2 && s2 + [s[2]] == s;
    ExecThen([], s[0]);
    assert Only(Exec(s1), id, Undecided(Interrupted), None, false, false, false);
    ExecThen(s1, s[1]);
    assert Only(Exec(s2), id, Undecided(Storing), Some(PendingApproval), false, false, false);
    ExecThen(s2, s[2]);
  }

  lemma DecisionArrives(id: string, approved: bool)
    ensures Only(Exec(PauseToDecision(id, approved)), id, Decided(approved), Some(PendingApproval), true, true, false)
  {
    PauseArrives(id);
    var s := PauseToDecision(id, approved);
    var s3, s4 := [s[0], s[1], s[2]], [s[0], s[1], s[2], s[3]];
    assert s3 + [s[3]] == s4 && s4 + [s[4]] == s;
    ExecThen(s3, s[3]);
    assert Only(Exec(s4), id, Undecided(Waiting(0)), Some(PendingApproval), true, true, false);
    ExecThen(s4, s[4]);
    assert Exec(s4).approvals[id].accepted + [approved] == [approved];
  }

  /** A run in which an approval is accepted, the timeout fires first, and the task fails. */
  lemma ApprovalLostToTimeout(id: string)
    ensures var w := Exec(PauseToDecision(id, true) + TimeoutFirst(id));
            && id in w.approvals && w.approvals[id].pc.TimedOut? && w.approvals[id].accepted == [true]
            && id in w.tasks && w.tasks[id].status.Failed?
  {
    DecisionArrives(id, true);
    var s, t := PauseToDecision(id, true), TimeoutFirst(id);
    var s1 := s + [t[0]];
    ExecThen(s, t[0]);
    var s2 := s1 + [t[1]];
    ExecThen(s1, t[1]);
    var s3 := s2 + [t[2]];
    ExecThen(s2, t[2]);
    ExecThen(s3, t[3]);
    assert s3 + [t[3]] == s + t;
    Reachable(s1);
    AcceptedDecisionCanBeLost(Exec(s1), id, "");
  }

  /** Decision, check and settlement, up to the write of the request that had checked. */
  lemma SettledBeforeTheWrite(id: string, approved: bool) returns (before: seq<Step>)
    ensures before == PauseToDecision(id, approved)
                      + [DashboardCheck(0, id), Receive(id), Advance(id, ""), Advance(id, ""), Advance(id, "")]
    ensures Only(Exec(before), id, Approval(Settled(approved), None, [approved], Some(0), false, false),
                 Some(if approved then Completed else Failed), false, true, true)
  {
    DecisionArrives(id, approved);
    var s, t := PauseToDecision(id, approved), StaleApproval(id);
    var s1 := s + [t[0]];
    ExecThen(s, t[0]);
    assert Only(Exec(s1), id, Decided(approved), Some(PendingApproval), true, true, true);
    var s2 := s1 + [t[1]];
    ExecThen(s1, t[1]);
    var after := Decided(approved).(pc := Resuming(approved), slot := None, taken := Some(0));
    assert Only(Exec(s2), id, after, Some(PendingApproval), true, true, true);
    before := SettleFrom(s2, id, approved);
    assert before == s + [t[0], t[1], t[2], t[3], t[4]];
  }

  lemma ResumingAdvances(w: World, id: string, a: Approval)
    requires a.pc.Resuming? && Only(w, id, a, Some(PendingApproval), true, true, true)
    ensures Only(AdvanceOne(w, id, ""), id, a.(pc := Deleting(a.pc.approved)), Some(PendingApproval), true, true, true)
  {}

  lemma DeletingAdvances(w: World, id: string, a: Approval)
    requires a.pc.Deleting? && Only(w, id, a, Some(PendingApproval), true, true, true)
    ensures Only(AdvanceOne(w, id, ""), id, a.(pc := Settling(a.pc.approved)), Some(PendingApproval), false, true, true)
  {}

  lemma SettlingAdvances(w: World, id: string, a: Approval)
    requires a.pc.Settling? && Only(w, id, a, Some(PendingApproval), false, true, true)
    ensures Only(AdvanceOne(w, id, ""), id, a.(pc := Settled(a.pc.approved)),
                 Some(if a.pc.approved then Completed else Failed), false, true, true)
  {}

  lemma SettleFrom(steps: seq<Step>, id: string, approved: bool) returns (all: seq<Step>)
    requires Only(Exec(steps), id, Approval(Resuming(approved), None, [approved], Some(0), false, false),
                  Some(PendingApproval), true, true, true)
    ensures all == steps + [Advance(id, "")] + [Advance(id, "")] + [Advance(id, "")]
    ensures Only(Exec(all), id, Approval(Settled(approved), None, [approved], Some(0), false, false),
                 Some(if approved then Completed else Failed), false, true, true)
  {
    var a, step := Approval(Resuming(approved), None, [approved], Some(0), false, false), Advance(id, "");
    var s3, s4 := steps + [step], steps + [step] + [step];
    all := s4 + [step];
    ExecThen(steps, step);
    ResumingAdvances(Exec(steps), id, a);
    ExecThen(s3, step);
    DeletingAdvances(Exec(s3), id, a.(pc := Deleting(approved)));
    ExecThen(s4, step);
    SettlingAdvances(Exec(s4), id, a.(pc := Settling(approved)));
  }

  /**
   A dashboard approval that looked at the task before the rejection took effect
   and writes after it leaves a rejected approval's task completed.
   */
  lemma StaleApprovalOverrules(id: string)
    ensures var w := Exec(PauseToDecision(id, false) + StaleApproval(id));
            id in w.approvals && w.approvals[id].pc == Settled(false) && id in w.tasks && w.tasks[id].status.Completed?
  {
    var before := SettledBeforeTheWrite(id, false);
    ExecThen(before, DashboardSettle(0, true));
    assert before + [DashboardSettle(0, true)] == PauseToDecision(id, false) + StaleApproval(id);
  }

  /**
   A dashboard rejection that looked before the approval took effect and writes
   after it leaves an approved task failed, and the next guarded call of the
   approved execution completes it again, with no request outstanding.
   */
  lemma StaleRejectionIsUndone(id: string)
    ensures var steps := PauseToDecision(id, true) + StaleRejection(id);
            && (var w := Exec(steps);
                id in w.approvals && w.approvals[id].pc == Settled(true) && id in w.tasks && w.tasks[id].status.Failed?
                && !Outstanding(w, id))
            && (var w := Exec(steps + [GateAgain(id)]); id in w.tasks && w.tasks[id].status.Completed?)
  {
    var before := SettledBeforeTheWrite(id, true);
    ExecThen(before, DashboardSettle(0, false));
    var steps := PauseToDecision(id, true) + StaleRejection(id);
    assert before + [DashboardSettle(0, false)] == steps;
    RepeatCompletes(steps, id);
  }

  // ---------------------------------------------------------------------
  // Half an hour to decide
  // ---------------------------------------------------------------------

  /** The waiter of this approval has given up waiting for a decision. */
  predicate Lapsed(pc: PC) { pc.ExpiredDelete? || pc.ExpiredFail? || pc.TimedOut? }

  /** After j steps, at that world's time, the execution had just been stored and its waiter begun to wait. */
  ghost predicate BeganToWait(steps: seq<Step>, j: nat, id: string) {
    && 0 < j <= |steps| && steps[j - 1].Advance? && steps[j - 1].id == id
    && var before, w := Exec(steps[..j - 1]), Exec(steps[..j]);
       && id in before.approvals && before.approvals[id].pc.Storing? && id in w.executions
       && id in w.approvals && w.approvals[id].pc == Waiting(w.now)
  }

  ghost predicate Waited(steps: seq<Step>, j: nat, id: string) {
    && BeganToWait(steps, j, id) && id in Exec(steps).approvals
    && var w, start := Exec(steps), Exec(steps[..j]).now;
       && (w.approvals[id].pc.Waiting? ==> w.approvals[id].pc.since == start)
       && (Lapsed(w.approvals[id].pc) ==> w.now >= start + 1800)
  }

  ghost predicate HasWaited(w: World, id: string) {
    id in w.approvals && (w.approvals[id].pc.Waiting? || Lapsed(w.approvals[id].pc))
  }

  /** The clock only goes forward, and a waiter gives up only when its time has come. */
  lemma GivesUpLate(w: World, step: Step, id: string)
    requires HasWaited(Next(w, step), id)
    requires !(step.Advance? && step.id == id && id in w.approvals && w.approvals[id].pc.Storing?)
    ensures HasWaited(w, id) && Next(w, step).now >= w.now
    ensures var pc, pc' := w.approvals[id].pc, Next(w, step).approvals[id].pc;
            && (pc'.Waiting? ==> pc' == pc)
            && (Lapsed(pc') ==> Lapsed(pc) || w.now >= pc.since + 1800)
  {}

  /**
   A waiter that gave up did so no earlier than thirty minutes after it began to
   wait, and one that still waits counts from that moment.
   */
  lemma {:induction false} TimeoutTakesHalfAnHour(steps: seq<Step>, id: string) returns (j: nat)
    requires HasWaited(Exec(steps), id)
    ensures Waited(steps, j, id)
    decreases |steps|
  {
    var n := |steps| - 1;
    var before, step := steps[..n], steps[n];
    if step.Advance? && step.id == id && id in Exec(before).approvals && Exec(before).approvals[id].pc.Storing? {
      j := n + 1;
      assert steps[..n + 1] == steps;
    } else {
      GivesUpLate(Exec(before), step, id);
      j := TimeoutTakesHalfAnHour(before, id);
      assert before[..j] == steps[..j] && before[..j - 1] == steps[..j - 1];
    }
  }

  /** A waiter may give up exactly from then on. */
  lemma MayGiveUpIff(steps: seq<Step>, id: string) returns (j: nat)
    requires id in Exec(steps).approvals && Exec(steps).approvals[id].pc.Waiting?
    ensures BeganToWait(steps, j, id)
    ensures Lapsed(Exec(steps + [WaiterTimeout(id)]).approvals[id].pc)
            <==> Exec(steps).now >= Exec(steps[..j]).now + 1800
  {
    j := TimeoutTakesHalfAnHour(steps, id);
    ExecThen(steps, WaiterTimeout(id));
  }

  /** A task keeps its deadline, and a new one has thirty minutes. */
  ghost predicate KeepsDeadline(w: World, w': World, id: string) {
    id in w'.tasks ==>
      if id in w.tasks then w'.tasks[id].timeoutAt == w.tasks[id].timeoutAt
      else w'.tasks[id].timeoutAt == Some(w'.now + 1800)
  }

  lemma AdvanceKeepsDeadline(w: World, other: string, session: string, id: string)
    requires other in w.approvals && ApprovalOk(w, other)
    ensures KeepsDeadline(w, AdvanceOne(w, other, session), id)
  {
    if other != id {
      AdvanceTouches(w, other, session);
    }
  }

  lemma SettleKeepsDeadline(w: World, request: nat, approved: bool, id: string)
    ensures KeepsDeadline(w, Next(w, DashboardSettle(request, approved)), id)
  {}

  lemma OtherKeepsDeadline(w: World, step: Step, id: string)
    requires !step.Advance? && !step.DashboardSettle?
    ensures KeepsDeadline(w, Next(w, step), id)
  {}

  lemma DeadlineStep(w: World, step: Step, id: string)
    requires Inv(w)
    ensures KeepsDeadline(w, Next(w, step), id)
  {
    match step
    case Advance(other, session) =>
      if other in w.approvals {
        AdvanceKeepsDeadline(w, other, session, id);
      }
    case DashboardSettle(r, approved) => SettleKeepsDeadline(w, r, approved, id);
    case _ => OtherKeepsDeadline(w, step, id);
  }

  /** After j steps the task had just been registered. */
  ghost predicate Appeared(steps: seq<Step>, j: nat, id: string) {
    0 < j <= |steps| && id !in Exec(steps[..j - 1]).tasks && id in Exec(steps[..j]).tasks
  }

  lemma AppearedBefore(steps: seq<Step>, j: nat, id: string)
    requires steps != [] && Appeared(steps[..|steps| - 1], j, id)
    ensures Appeared(steps, j, id) && steps[..|steps| - 1][..j] == steps[..j]
  {
    assert steps[..|steps| - 1][..j] == steps[..j] && steps[..|steps| - 1][..j - 1] == steps[..j - 1];
  }

  lemma DeadlinesKept(steps: seq<Step>, id: string)
    requires steps != []
    ensures KeepsDeadline(Exec(steps[..|steps| - 1]), Exec(steps), id)
  {
    Reachable(steps[..|steps| - 1]);
    DeadlineStep(Exec(steps[..|steps| - 1]), steps[|steps| - 1], id);
  }

  /** The reaper's deadline for the task is thirty minutes after the step that registered it. */
  lemma {:induction false} DeadlineIsHalfAnHour(steps: seq<Step>, id: string) returns (j: nat)
    requires id in Exec(steps).tasks
    ensures Appeared(steps, j, id) && Exec(steps).tasks[id].timeoutAt == Some(Exec(steps[..j]).now + 1800)
    decreases |steps|
  {
    var before := steps[..|steps| - 1];
    DeadlinesKept(steps, id);
    assert steps[..|steps|] == steps;
    if id in Exec(before).tasks {
      j := DeadlineIsHalfAnHour(before, id);
      AppearedBefore(steps, j, id);
    } else {
      j := |steps|;
    }
  }
}
