/**
 The task table of the in-flight store as a value, one atomic operation per
 lock-protected method, and what every run of such operations keeps.
 Times are integers; the caller supplies the clock reading of each operation.
 */
module TaskLedger {
  import opened Options

  datatype Status = Running | Completed | Failed | Cancelled | PendingApproval {
    /** The two states a task can still leave by being reaped. */
    predicate Live() { Running? || PendingApproval? }
  }

  datatype Policy = Auto | Queue

  datatype Task = Task(
    agentName: string,
    status: Status,
    result: string,
    error: string,
    policy: Policy,
    sessionID: string,
    external: bool,
    timeoutAt: Option<int>,
    doneAt: Option<int>,
    cancellable: bool,
    pipelineName: string,
    pipelineStage: int)

  type Tasks = map<string, Task>

  datatype Op =
    | Register(id: string, agentName: string, policy: Policy, sessionID: string, pipelineName: string, stage: int)
    | RegisterExternal(id: string, policy: Policy, sessionID: string, timeout: int)
    | RegisterApproval(id: string, skillName: string, sessionID: string, timeout: int)
    | SetCancelFunc(id: string)
    | Complete(id: string, result: string)
    | Fail(id: string, message: string)
    | Cancel(id: string)
    | Reap
    | QueuedResults
  {
    predicate Registers() { Register? || RegisterExternal? || RegisterApproval? }

    /** Concerns the one task it names. */
    predicate Targets() { !Reap? && !QueuedResults? }
  }

  function NewTask(op: Op, now: int): Task
    requires op.Registers()
  {
    match op
    case Register(_, agentName, policy, sessionID, pipelineName, stage) =>
      Task(agentName, Running, "", "", policy, sessionID, false, None, None, false, pipelineName, stage)
    case RegisterExternal(_, policy, sessionID, timeout) =>
      Task("external", Running, "", "", policy, sessionID, true, Some(now + timeout), None, false, "", 0)
    case RegisterApproval(_, skillName, sessionID, timeout) =>
      Task(skillName, PendingApproval, "", "", Auto, sessionID, true, Some(now + timeout), None, false, "", 0)
  }

  /** The reaper's test: external, still live, and strictly past its deadline. */
  predicate Expired(t: Task, now: int) {
    t.external && t.status.Live() && t.timeoutAt.Some? && now > t.timeoutAt.value
  }

  /** Finished work whose result waits for the next user turn. */
  predicate Collectable(t: Task) {
    t.policy == Queue && (t.status.Completed? || t.status.Failed? || t.status.Cancelled?)
  }

  function Completing(t: Task, result: string, now: int): Task {
    t.(status := Completed, result := result, doneAt := Some(now))
  }

  /** A failure never overwrites a cancellation. */
  function Failing(t: Task, message: string, now: int): Task {
    if t.status.Cancelled? then t else t.(status := Failed, error := message, doneAt := Some(now))
  }

  function Cancelling(t: Task, now: int): Task {
    if t.status.Running? then t.(status := Cancelled, error := "cancelled by user", doneAt := Some(now)) else t
  }

  function Reaping(t: Task, now: int): Task {
    if Expired(t, now)
    then t.(status := Failed, error := "timed out waiting for callback", doneAt := Some(now))
    else t
  }

  function Apply(ts: Tasks, op: Op, now: int): Tasks {
    match op
    case Register(id, _, _, _, _, _) => ts[id := NewTask(op, now)]
    case RegisterExternal(id, _, _, _) => ts[id := NewTask(op, now)]
    case RegisterApproval(id, _, _, _) => ts[id := NewTask(op, now)]
    case SetCancelFunc(id) => if id in ts then ts[id := ts[id].(cancellable := true)] else ts
    case Complete(id, result) => if id in ts then ts[id := Completing(ts[id], result, now)] else ts
    case Fail(id, message) => if id in ts then ts[id := Failing(ts[id], message, now)] else ts
    case Cancel(id) => if id in ts then ts[id := Cancelling(ts[id], now)] else ts
    case Reap => map id | id in ts :: Reaping(ts[id], now)
    case QueuedResults => map id | id in ts && !Collectable(ts[id]) :: ts[id]
  }

  lemma ApplyIsLocal(ts: Tasks, op: Op, now: int)
    requires op.Targets()
    ensures forall id | id != op.id :: id in Apply(ts, op, now) <==> id in ts
    ensures forall id | id != op.id && id in ts :: Apply(ts, op, now)[id] == ts[id]
  {}

  lemma ApplyKeys(ts: Tasks, op: Op, now: int)
    ensures Apply(ts, op, now).Keys <= ts.Keys + (if op.Registers() then {op.id} else {})
  {}

  lemma ReapPointwise(before: Tasks, after: Tasks, now: int)
    requires after.Keys == before.Keys
    requires forall id | id in before :: after[id] == Reaping(before[id], now)
    ensures after == Apply(before, Reap, now)
  {}

  lemma CollectPointwise(before: Tasks, after: Tasks, now: int)
    requires forall id :: id in after <==> id in before && !Collectable(before[id])
    requires forall id | id in after :: after[id] == before[id]
    ensures after == Apply(before, QueuedResults, now)
  {}

  /** The IDs one reaper pass reports. */
  function ExpiredIDs(ts: Tasks, now: int): set<string> {
    set id | id in ts && Expired(ts[id], now)
  }

  // ---------------------------------------------------------------------
  // Runs of operations
  // ---------------------------------------------------------------------

  /** The table, every ID ever registered, and every report the reaper made. */
  datatype Ledger = Ledger(tasks: Tasks, used: set<string>, reported: multiset<string>)

  datatype Timed = Timed(op: Op, now: int)

  const EMPTY := Ledger(map[], {}, multiset{})

  /** Registration draws a new UUID, so its ID was never used before. */
  predicate Allowed(l: Ledger, op: Op) {
    op.Registers() ==> op.id !in l.used
  }

  function Step(l: Ledger, op: Op, now: int): Ledger {
    Ledger(
      Apply(l.tasks, op, now),
      if op.Registers() then l.used + {op.id} else l.used,
      if op.Reap? then l.reported + multiset(ExpiredIDs(l.tasks, now)) else l.reported)
  }

  predicate AllowedRun(l: Ledger, ops: seq<Timed>)
    decreases |ops|
  {
    ops == [] || (Allowed(l, ops[0].op) && AllowedRun(Step(l, ops[0].op, ops[0].now), ops[1..]))
  }

  function Run(l: Ledger, ops: seq<Timed>): Ledger
    decreases |ops|
  {
    if ops == [] then l else Run(Step(l, ops[0].op, ops[0].now), ops[1..])
  }

  ghost predicate Sound(l: Ledger) {
    && l.tasks.Keys <= l.used
    && (forall id | id in l.tasks :: l.tasks[id].status.Live() <==> l.tasks[id].doneAt.None?)
    && (forall id | id in l.tasks && l.tasks[id].status.PendingApproval? :: l.tasks[id].external)
    && (forall id :: l.reported[id] <= 1)
    && (forall id | id in l.reported :: id in l.used && (id in l.tasks ==> !l.tasks[id].status.Live()))
  }

  /** The ID was handed out and its task is finished or already collected. */
  predicate Over(l: Ledger, id: string) {
    id in l.used && (id in l.tasks ==> !l.tasks[id].status.Live())
  }

  lemma OpKeepsTasks(l: Ledger, op: Op, now: int)
    requires Sound(l) && Allowed(l, op)
    ensures var ts := Apply(l.tasks, op, now);
            && (forall id | id in ts :: ts[id].status.Live() <==> ts[id].doneAt.None?)
            && (forall id | id in ts && ts[id].status.PendingApproval? :: ts[id].external)
            && (forall id | Over(l, id) && id in ts :: !ts[id].status.Live())
  {
    if op.Targets() {
      ApplyIsLocal(l.tasks, op, now);
    }
  }

  lemma ReapReportsNew(l: Ledger, now: int)
    requires Sound(l)
    ensures forall id :: Step(l, Reap, now).reported[id] <= 1
    ensures forall id | id in Step(l, Reap, now).reported :: id in l.reported || id in ExpiredIDs(l.tasks, now)
  {
    var expired := ExpiredIDs(l.tasks, now);
    forall id ensures multiset(expired)[id] == (if id in expired then 1 else 0) {}
  }

  lemma {:induction false} StepSound(l: Ledger, op: Op, now: int)
    requires Sound(l) && Allowed(l, op)
    ensures Sound(Step(l, op, now))
    ensures forall id | Over(l, id) :: Over(Step(l, op, now), id)
  {
    ApplyKeys(l.tasks, op, now);
    OpKeepsTasks(l, op, now);
    if op.Reap? {
      ReapReportsNew(l, now);
    }
    forall id | id in Step(l, op, now).reported ensures Over(Step(l, op, now), id) {
      assert id in l.reported ==> Over(l, id);
    }
  }

  /**
   In every reachable table a task has a completion time exactly when it is
   finished, and the reaper has reported each ID at most once.
   */
  lemma {:induction false} RunSound(l: Ledger, ops: seq<Timed>)
    requires Sound(l) && AllowedRun(l, ops)
    ensures Sound(Run(l, ops))
    decreases |ops|
  {
    if ops != [] {
      StepSound(l, ops[0].op, ops[0].now);
      RunSound(Step(l, ops[0].op, ops[0].now), ops[1..]);
    }
  }

  /** A task that stopped being running or pending is never live again. */
  lemma {:induction false} NeverLiveAgain(l: Ledger, ops: seq<Timed>, id: string)
    requires Sound(l) && AllowedRun(l, ops) && Over(l, id)
    ensures Over(Run(l, ops), id)
    decreases |ops|
  {
    if ops != [] {
      StepSound(l, ops[0].op, ops[0].now);
      NeverLiveAgain(Step(l, ops[0].op, ops[0].now), ops[1..], id);
    }
  }

  // ---------------------------------------------------------------------
  // Records, deadlines and results, field by field
  // ---------------------------------------------------------------------

  /** What each registration makes of its task. */
  lemma RegisteredAs(l: Ledger, op: Op, now: int)
    requires op.Registers()
    ensures var ts := Step(l, op, now).tasks;
            && op.id in ts && ts[op.id].doneAt.None? && !ts[op.id].cancellable
            && ts[op.id].sessionID == op.sessionID && ts[op.id].result == "" && ts[op.id].error == ""
            && (op.Register? ==>
                  && ts[op.id].status == Running && !ts[op.id].external && ts[op.id].timeoutAt == None
                  && ts[op.id].agentName == op.agentName && ts[op.id].policy == op.policy
                  && ts[op.id].pipelineName == op.pipelineName && ts[op.id].pipelineStage == op.stage)
            && (op.RegisterExternal? ==>
                  && ts[op.id].status == Running && ts[op.id].external && ts[op.id].policy == op.policy
                  && ts[op.id].timeoutAt == Some(now + op.timeout))
            && (op.RegisterApproval? ==>
                  && ts[op.id].status == PendingApproval && ts[op.id].external && ts[op.id].policy == Auto
                  && ts[op.id].agentName == op.skillName && ts[op.id].timeoutAt == Some(now + op.timeout))
  {}

  /** What no operation changes about a task it does not register anew. */
  ghost predicate SameTask(t: Task, t': Task) {
    && t'.agentName == t.agentName && t'.policy == t.policy && t'.sessionID == t.sessionID
    && t'.external == t.external && t'.timeoutAt == t.timeoutAt
    && t'.pipelineName == t.pipelineName && t'.pipelineStage == t.pipelineStage
  }

  lemma ApplyKeepsTask(ts: Tasks, op: Op, now: int, id: string)
    requires id in Apply(ts, op, now) && !(op.Registers() && op.id == id)
    ensures id in ts && SameTask(ts[id], Apply(ts, op, now)[id])
  {}

  lemma {:induction false} RunKeepsTask(l: Ledger, ops: seq<Timed>, id: string)
    requires Sound(l) && AllowedRun(l, ops) && id in l.tasks && id in Run(l, ops).tasks
    ensures SameTask(l.tasks[id], Run(l, ops).tasks[id])
    decreases |ops|
  {
    if ops != [] {
      var next, rest := Step(l, ops[0].op, ops[0].now), ops[1..];
      StepSound(l, ops[0].op, ops[0].now);
      if id !in next.tasks {
        StaysCollected(next, rest, id);
        assert false;
      } else {
        ApplyKeepsTask(l.tasks, ops[0].op, ops[0].now, id);
        RunKeepsTask(next, rest, id);
      }
    }
  }

  /** One pass of the reaper, in the fields of the records. */
  lemma ReapInFields(ts: Tasks, now: int, id: string)
    requires id in ts
    ensures var t := ts[id];
            var due := t.external && (t.status == Running || t.status == PendingApproval)
                       && t.timeoutAt.Some? && now > t.timeoutAt.value;
            && id in Apply(ts, Reap, now) && (id in ExpiredIDs(ts, now) <==> due)
            && var t' := Apply(ts, Reap, now)[id];
               if due then t' == t.(status := Failed, error := t'.error, doneAt := Some(now)) else t' == t
  {}

  /**
   The deadline of an external task or approval is its registration time and its
   timeout. After any run of operations a reaper pass up to the deadline leaves the
   task alone, and one past it fails and reports it exactly if it is still running
   or pending.
   */
  lemma {:induction false} ReaperKeepsDeadline(l: Ledger, op: Op, t0: int, ops: seq<Timed>, now: int)
    requires Sound(l) && Allowed(l, op) && (op.RegisterExternal? || op.RegisterApproval?)
    requires AllowedRun(Step(l, op, t0), ops) && op.id in Run(Step(l, op, t0), ops).tasks
    ensures var m := Run(Step(l, op, t0), ops).tasks;
            var t, t' := m[op.id], Apply(m, Reap, now)[op.id];
            var due := now > t0 + op.timeout && (t.status == Running || t.status == PendingApproval);
            && (op.id in ExpiredIDs(m, now) <==> due)
            && (if due then t'.status == Failed && t'.doneAt == Some(now) else t' == t)
  {
    StepSound(l, op, t0);
    RegisteredAs(l, op, t0);
    RunKeepsTask(Step(l, op, t0), ops, op.id);
    ReapInFields(Run(Step(l, op, t0), ops).tasks, now, op.id);
  }

  /** Collection, in the fields of the records: finished queue-policy tasks go, the others stay as they are. */
  lemma CollectInFields(ts: Tasks, now: int, id: string)
    requires id in ts
    ensures var t := ts[id];
            var due := t.policy == Queue && (t.status == Completed || t.status == Failed || t.status == Cancelled);
            && (Collectable(t) <==> due)
            && (id in Apply(ts, QueuedResults, now) <==> !due)
            && (!due ==> Apply(ts, QueuedResults, now)[id] == t)
  {}

  /** Completing, failing and cancelling, in the fields of the record. */
  lemma SettleInFields(ts: Tasks, id: string, text: string, now: int)
    requires id in ts
    ensures Apply(ts, Complete(id, text), now) ==
            ts[id := ts[id].(status := Completed, result := text, doneAt := Some(now))]
    ensures Apply(ts, Fail(id, text), now) ==
            if ts[id].status == Cancelled then ts
            else ts[id := ts[id].(status := Failed, error := text, doneAt := Some(now))]
    ensures Apply(ts, Cancel(id), now) ==
            if ts[id].status != Running then ts
            else ts[id := ts[id].(status := Cancelled, error := "cancelled by user", doneAt := Some(now))]
  {}

  lemma {:induction false} ResultStays(l: Ledger, ops: seq<Timed>, id: string)
    requires Sound(l) && AllowedRun(l, ops) && id in l.tasks && l.tasks[id].status.Completed?
    requires forall k | 0 <= k < |ops| :: !CompletesIt(ops[k], id) && !FailsIt(ops[k], id)
    ensures id in Run(l, ops).tasks ==>
              Run(l, ops).tasks[id].status.Completed? && Run(l, ops).tasks[id].result == l.tasks[id].result
    decreases |ops|
  {
    if ops != [] {
      var op, next, rest := ops[0].op, Step(l, ops[0].op, ops[0].now), ops[1..];
      StepSound(l, op, ops[0].now);
      if id !in next.tasks {
        StaysCollected(next, rest, id);
      } else {
        if op.Targets() {
          ApplyIsLocal(l.tasks, op, ops[0].now);
        }
        assert next.tasks[id].status.Completed? && next.tasks[id].result == l.tasks[id].result;
        forall k | 0 <= k < |rest| ensures !CompletesIt(rest[k], id) && !FailsIt(rest[k], id) {
          assert rest[k] == ops[k + 1];
        }
        ResultStays(next, rest, id);
      }
    }
  }

  /**
   The result a task was completed with is the one its record still carries when it
   is handed out, however much later, unless it was completed or failed again; and
   a queue-policy task is handed out by the next collection, any other never.
   */
  lemma {:induction false} ResultIsHandedOut(l: Ledger, id: string, result: string, t0: int, ops: seq<Timed>, now: int)
    requires Sound(l) && id in l.tasks && AllowedRun(Step(l, Complete(id, result), t0), ops)
    requires forall k | 0 <= k < |ops| :: !CompletesIt(ops[k], id) && !FailsIt(ops[k], id)
    requires id in Run(Step(l, Complete(id, result), t0), ops).tasks
    ensures var m := Run(Step(l, Complete(id, result), t0), ops).tasks;
            && m[id].status == Completed && m[id].result == result
            && (id in Apply(m, QueuedResults, now) <==> l.tasks[id].policy != Queue)
  {
    var done := Step(l, Complete(id, result), t0);
    StepSound(l, Complete(id, result), t0);
    SettleInFields(l.tasks, id, result, t0);
    ResultStays(done, ops, id);
    RunKeepsTask(done, ops, id);
    CollectInFields(Run(done, ops).tasks, now, id);
  }

  predicate CompletesIt(t: Timed, id: string) { t.op.Complete? && t.op.id == id }

  predicate FailsIt(t: Timed, id: string) { t.op.Fail? && t.op.id == id }

  ghost predicate Completes(ops: seq<Timed>, id: string) {
    exists k | 0 <= k < |ops| :: CompletesIt(ops[k], id)
  }

  lemma CompletesFirst(ops: seq<Timed>, id: string)
    requires ops != []
    ensures Completes(ops, id) <==> CompletesIt(ops[0], id) || Completes(ops[1..], id)
  {
    var rest := ops[1..];
    if k :| 0 <= k < |ops| && CompletesIt(ops[k], id) {
      assert k > 0 ==> CompletesIt(rest[k - 1], id);
    }
    if k :| 0 <= k < |rest| && CompletesIt(rest[k], id) {
      assert CompletesIt(ops[k + 1], id);
    }
  }

  /**
   A stored cancelled task is still cancelled at the end of a run exactly when
   nobody completed it in between: a later failure, reaper pass or second
   cancellation leaves it alone, but a completion overwrites it.
   */
  lemma {:induction false} CancelledUntilCompleted(l: Ledger, ops: seq<Timed>, id: string)
    requires Sound(l) && AllowedRun(l, ops)
    requires id in l.tasks && l.tasks[id].status.Cancelled?
    requires id in Run(l, ops).tasks
    ensures Run(l, ops).tasks[id].status.Cancelled? <==> !Completes(ops, id)
    decreases |ops|
  {
    if ops != [] {
      var next, rest := Step(l, ops[0].op, ops[0].now), ops[1..];
      StepSound(l, ops[0].op, ops[0].now);
      if id !in next.tasks {
        StaysCollected(next, rest, id);
        assert false;
      } else if ops[0].op.Complete? && ops[0].op.id == id {
        NeverCancelledAfterCompletion(next, rest, id);
      } else {
        CompletesFirst(ops, id);
        CancelledUntilCompleted(next, rest, id);
      }
    }
  }

  /** An ID that left the table does not come back. */
  lemma {:induction false} StaysCollected(l: Ledger, ops: seq<Timed>, id: string)
    requires Sound(l) && AllowedRun(l, ops) && id in l.used && id !in l.tasks
    ensures id !in Run(l, ops).tasks
    decreases |ops|
  {
    if ops != [] {
      StepSound(l, ops[0].op, ops[0].now);
      StaysCollected(Step(l, ops[0].op, ops[0].now), ops[1..], id);
    }
  }

  predicate Settled(t: Task) { t.status.Completed? || t.status.Failed? }

  lemma StepKeepsSettled(l: Ledger, op: Op, now: int, id: string)
    requires Sound(l) && Allowed(l, op) && id in l.tasks && Settled(l.tasks[id])
    ensures var next := Step(l, op, now); id in next.tasks ==> Settled(next.tasks[id])
  {}

  lemma {:induction false} NeverCancelledAfterCompletion(l: Ledger, ops: seq<Timed>, id: string)
    requires Sound(l) && AllowedRun(l, ops)
    requires id in l.tasks && Settled(l.tasks[id])
    ensures id in Run(l, ops).tasks ==> Settled(Run(l, ops).tasks[id])
    decreases |ops|
  {
    if ops != [] {
      var next := Step(l, ops[0].op, ops[0].now);
      StepSound(l, ops[0].op, ops[0].now);
      StepKeepsSettled(l, ops[0].op, ops[0].now, id);
      if id in next.tasks {
        NeverCancelledAfterCompletion(next, ops[1..], id);
      } else {
        StaysCollected(next, ops[1..], id);
      }
    }
  }

  /** The last word of the run on this task is a failure. */
  ghost predicate FailsLast(ops: seq<Timed>, id: string) {
    exists j | 0 <= j < |ops| :: FailsIt(ops[j], id) && forall k | j < k < |ops| :: !CompletesIt(ops[k], id)
  }

  /** A completion, then a failure, then no completion. */
  ghost predicate CompletedThenFailed(ops: seq<Timed>, id: string) {
    exists i | 0 <= i < |ops| :: CompletesIt(ops[i], id) && FailsLast(ops[i + 1..], id)
  }

  lemma FailsLastFirst(ops: seq<Timed>, id: string)
    requires ops != []
    ensures FailsLast(ops, id) <==> FailsLast(ops[1..], id) || (FailsIt(ops[0], id) && !Completes(ops[1..], id))
  {
    var rest := ops[1..];
    assert forall k | 0 <= k < |rest| :: rest[k] == ops[k + 1];
    if FailsLast(rest, id) {
      var j :| 0 <= j < |rest| && FailsIt(rest[j], id) && forall k | j < k < |rest| :: !CompletesIt(rest[k], id);
      assert FailsIt(ops[j + 1], id);
      assert forall k | j + 1 < k < |ops| :: ops[k] == rest[k - 1];
    }
    if j :| 0 <= j < |ops| && FailsIt(ops[j], id) && forall k | j < k < |ops| :: !CompletesIt(ops[k], id) {
      if j > 0 {
        assert FailsIt(rest[j - 1], id);
      } else {
        assert !Completes(rest, id);
      }
    }
    if FailsIt(ops[0], id) && !Completes(rest, id) {
      forall k | 0 < k < |ops| ensures !CompletesIt(ops[k], id) {
        assert ops[k] == rest[k - 1];
      }
    }
  }

  lemma CompletedThenFailedFirst(ops: seq<Timed>, id: string)
    requires ops != []
    ensures CompletedThenFailed(ops, id) <==>
              CompletedThenFailed(ops[1..], id) || (CompletesIt(ops[0], id) && FailsLast(ops[1..], id))
  {
    var rest := ops[1..];
    if i :| 0 <= i < |ops| && CompletesIt(ops[i], id) && FailsLast(ops[i + 1..], id) {
      if i > 0 {
        assert CompletesIt(rest[i - 1], id) && rest[i..] == ops[i + 1..];
      }
    }
    if i :| 0 <= i < |rest| && CompletesIt(rest[i], id) && FailsLast(rest[i + 1..], id) {
      assert CompletesIt(ops[i + 1], id) && ops[i + 2..] == rest[i + 1..];
    }
  }

  lemma {:induction false} SettledEndsFailedIff(l: Ledger, ops: seq<Timed>, id: string)
    requires Sound(l) && AllowedRun(l, ops)
    requires id in l.tasks && Settled(l.tasks[id])
    requires id in Run(l, ops).tasks
    ensures Run(l, ops).tasks[id].status.Failed? <==>
              FailsLast(ops, id) || (l.tasks[id].status.Failed? && !Completes(ops, id))
    decreases |ops|
  {
    if ops != [] {
      var next, rest := Step(l, ops[0].op, ops[0].now), ops[1..];
      StepSound(l, ops[0].op, ops[0].now);
      StepKeepsSettled(l, ops[0].op, ops[0].now, id);
      if id !in next.tasks {
        StaysCollected(next, rest, id);
        assert false;
      } else {
        SettledEndsFailedIff(next, rest, id);
        SettledStep(l, ops[0].op, ops[0].now, id);
        FailsLastFirst(ops, id);
        CompletesFirst(ops, id);
      }
    }
  }

  lemma SettledStep(l: Ledger, op: Op, now: int, id: string)
    requires Sound(l) && Allowed(l, op) && id in l.tasks && Settled(l.tasks[id]) && id in Step(l, op, now).tasks
    ensures Step(l, op, now).tasks[id].status.Failed? <==>
              FailsIt(Timed(op, now), id) || (l.tasks[id].status.Failed? && !CompletesIt(Timed(op, now), id))
  {
    if op.Targets() {
      ApplyIsLocal(l.tasks, op, now);
    }
  }

  lemma CancelledStep(l: Ledger, op: Op, now: int, id: string)
    requires Sound(l) && Allowed(l, op)
    requires id in l.tasks && l.tasks[id].status.Cancelled? && id in Step(l, op, now).tasks
    ensures var status := Step(l, op, now).tasks[id].status;
            if CompletesIt(Timed(op, now), id) then status.Completed? else status.Cancelled?
  {
    if op.Targets() {
      ApplyIsLocal(l.tasks, op, now);
    }
  }

  /**
   A stored cancelled task ends up failed exactly when somebody completed it, and
   somebody failed it after that, and nobody completed it again.
   */
  lemma {:induction false} CancelledEndsFailedIff(l: Ledger, ops: seq<Timed>, id: string)
    requires Sound(l) && AllowedRun(l, ops)
    requires id in l.tasks && l.tasks[id].status.Cancelled?
    requires id in Run(l, ops).tasks
    ensures Run(l, ops).tasks[id].status.Failed? <==> CompletedThenFailed(ops, id)
    decreases |ops|
  {
    if ops != [] {
      var next, rest := Step(l, ops[0].op, ops[0].now), ops[1..];
      StepSound(l, ops[0].op, ops[0].now);
      if id !in next.tasks {
        StaysCollected(next, rest, id);
        assert false;
      } else {
        CancelledStep(l, ops[0].op, ops[0].now, id);
        CompletedThenFailedFirst(ops, id);
        if CompletesIt(ops[0], id) {
          SettledEndsFailedIff(next, rest, id);
          CompletedThenFailedFails(rest, id);
        } else {
          CancelledEndsFailedIff(next, rest, id);
        }
      }
    }
  }

  lemma CompletedThenFailedFails(ops: seq<Timed>, id: string)
    ensures CompletedThenFailed(ops, id) ==> FailsLast(ops, id)
  {
    if i :| 0 <= i < |ops| && CompletesIt(ops[i], id) && FailsLast(ops[i + 1..], id) {
      var rest := ops[i + 1..];
      var j :| 0 <= j < |rest| && FailsIt(rest[j], id) && forall k | j < k < |rest| :: !CompletesIt(rest[k], id);
      assert FailsIt(ops[i + 1 + j], id);
      forall k | i + 1 + j < k < |ops| ensures !CompletesIt(ops[k], id) {
        assert ops[k] == rest[k - i - 1];
      }
    }
  }

  /** An external task, and what a user and two callbacks that found it running do to it. */
  function CallbacksAfterCancel(id: string): seq<Timed> {
    [Timed(RegisterExternal(id, Auto, "session", 60), 0), Timed(Cancel(id), 1),
     Timed(Complete(id, "done"), 2), Timed(Fail(id, "late"), 3)]
  }

  /**
   An external task can go from cancelled to failed: a callback checks that the
   task is running and writes later, so two callbacks that checked before the
   cancel may both write after it.
   */
  lemma CancelledCanEndFailed(id: string)
    ensures var ops := CallbacksAfterCancel(id);
            && AllowedRun(EMPTY, ops)
            && (var l := Run(EMPTY, ops[..1]); id in l.tasks && l.tasks[id].external && l.tasks[id].status.Running?)
            && (var l := Run(EMPTY, ops[..2]); id in l.tasks && l.tasks[id].status.Cancelled?)
            && (var l := Run(EMPTY, ops); id in l.tasks && l.tasks[id].status.Failed?)
  {
    var ops := CallbacksAfterCancel(id);
    var l1 := Step(EMPTY, ops[0].op, 0);
    var l2 := Step(l1, ops[1].op, 1);
    var l3 := Step(l2, ops[2].op, 2);
    var l4 := Step(l3, ops[3].op, 3);
    assert ops[1..][1..] == ops[2..] && ops[2..][1..] == ops[3..] && ops[3..][1..] == [];
    assert AllowedRun(l3, ops[3..]) && AllowedRun(l2, ops[2..]) && AllowedRun(l1, ops[1..]);
    assert Run(l3, ops[3..]) == l4 && Run(l2, ops[2..]) == l4 && Run(l1, ops[1..]) == l4;
    assert ops[..1][1..] == [] && Run(EMPTY, ops[..1]) == l1;
    assert ops[..2][1..] == [ops[1]] && [ops[1]][1..] == [];
    assert Run(l1, [ops[1]]) == l2 && Run(EMPTY, ops[..2]) == l2;
  }
}
