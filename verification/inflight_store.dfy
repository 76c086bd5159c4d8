/**
 The in-flight store as the mutable object it is: task records updated in place
 through a map of references, and nested progress maps created on first use.
 Every method is proved against the operation of TaskLedger or Pipelines that
 it performs; the theorems about runs are stated there.
 */
module InFlight {
  import opened Options
  import opened TaskLedger
  import opened Pipelines

  /** The context handle of a background run; cancelling it is sticky. */
  class CancelContext {
    var cancelled: bool

    constructor ()
      ensures !cancelled
    {
      cancelled := false;
    }
  }

  class TaskState {
    const id: string
    const agentName: string
    const policy: Policy
    const sessionID: string
    const external: bool
    const timeoutAt: Option<int>
    const pipelineName: string
    const pipelineStage: int
    var status: Status
    var result: string
    var error: string
    var doneAt: Option<int>
    var cancelFn: CancelContext?

    constructor (id: string, agentName: string, status: Status, policy: Policy, sessionID: string, external: bool,
                 timeoutAt: Option<int>, pipelineName: string, pipelineStage: int)
      ensures this.id == id
      ensures View() == Task(agentName, status, "", "", policy, sessionID, external, timeoutAt, None, false,
                             pipelineName, pipelineStage)
    {
      this.id, this.agentName, this.status, this.policy, this.sessionID := id, agentName, status, policy, sessionID;
      this.external, this.timeoutAt := external, timeoutAt;
      this.pipelineName, this.pipelineStage := pipelineName, pipelineStage;
      result, error, doneAt, cancelFn := "", "", None, null;
    }

    /** The reaper's treatment of one record. */
    method TimeOut(now: int) returns (failed: bool)
      modifies this
      ensures View() == Reaping(old(View()), now) && failed == Expired(old(View()), now)
      ensures failed <==> external && (old(status) == Running || old(status) == PendingApproval)
                          && timeoutAt.Some? && now > timeoutAt.value
      ensures if failed then status == Failed && doneAt == Some(now) else View() == old(View())
    {
      var live := status == Running || status == PendingApproval;
      failed := external && live && timeoutAt.Some? && now > timeoutAt.value;
      if failed {
        status := Failed;
        error := "timed out waiting for callback";
        doneAt := Some(now);
      }
    }

    ghost function View(): Task
      reads this
    {
      Task(agentName, status, result, error, policy, sessionID, external, timeoutAt, doneAt, cancelFn != null,
           pipelineName, pipelineStage)
    }
  }

  /** `out` lists the records that `records` holds under `ids`: all of them, each once. */
  ghost predicate Lists(records: map<string, TaskState>, out: seq<TaskState>, ids: set<string>)
    decreases |out|
  {
    if out == [] then ids == {} else
      var last := out[|out| - 1];
      && last.id in ids && last.id in records && records[last.id] == last
      && Lists(records, out[..|out| - 1], ids - {last.id})
  }

  lemma ListsOneMore(records: map<string, TaskState>, out: seq<TaskState>, ids: set<string>, id: string)
    requires Lists(records, out, ids) && id !in ids
    requires id in records && records[id].id == id
    ensures Lists(records, out + [records[id]], ids + {id})
  {
    assert (out + [records[id]])[..|out|] == out && ids + {id} - {id} == ids;
  }

  lemma VisitOne<T>(all: set<T>, pending: set<T>, x: T)
    requires x in pending
    ensures all - (pending - {x}) == if x in all then (all - pending) + {x} else all - pending
  {}

  class InFlightStore {
    var tasks: map<string, TaskState>
    var pipelineProgress: Progress
    var pipelineStartTimes: StartTimes

    /** Every record sits under its own ID, so no two IDs share one. */
    ghost predicate Valid()
      reads this`tasks
    {
      forall id | id in tasks :: tasks[id].id == id
    }

    ghost function View(): Tasks
      reads this`tasks, tasks.Values
    {
      map id | id in tasks :: tasks[id].View()
    }

    constructor ()
      ensures Valid() && View() == map[] && pipelineProgress == map[] && pipelineStartTimes == map[]
    {
      tasks, pipelineProgress, pipelineStartTimes := map[], map[], map[];
    }

    method Register(id: string, agentName: string, policy: Policy, sessionID: string,
                    pipelineName: string, pipelineStage: int, now: int)
      requires Valid()
      modifies this`tasks
      ensures Valid()
      ensures View() ==
              Apply(old(View()), Op.Register(id, agentName, policy, sessionID, pipelineName, pipelineStage), now)
      ensures id in tasks && tasks == old(tasks)[id := tasks[id]] && fresh(tasks[id])
      ensures var t := tasks[id];
              && t.status == Running && t.agentName == agentName && t.policy == policy && t.sessionID == sessionID
              && !t.external && t.timeoutAt == None && t.doneAt == None && t.cancelFn == null
              && t.pipelineName == pipelineName && t.pipelineStage == pipelineStage
    {
      var t := new TaskState(id, agentName, Running, policy, sessionID, false, None, pipelineName, pipelineStage);
      tasks := tasks[id := t];
    }

    method RegisterExternal(id: string, policy: Policy, sessionID: string, timeout: int, now: int)
      requires Valid()
      modifies this`tasks
      ensures Valid()
      ensures View() == Apply(old(View()), Op.RegisterExternal(id, policy, sessionID, timeout), now)
      ensures id in tasks && tasks == old(tasks)[id := tasks[id]] && fresh(tasks[id])
      ensures var t := tasks[id];
              && t.status == Running && t.policy == policy && t.sessionID == sessionID
              && t.external && t.timeoutAt == Some(now + timeout) && t.doneAt == None && t.cancelFn == null
    {
      var t := new TaskState(id, "external", Running, policy, sessionID, true, Some(now + timeout), "", 0);
      tasks := tasks[id := t];
    }

    method RegisterApproval(id: string, skillName: string, sessionID: string, timeout: int, now: int)
      requires Valid()
      modifies this`tasks
      ensures Valid()
      ensures View() == Apply(old(View()), Op.RegisterApproval(id, skillName, sessionID, timeout), now)
      ensures id in tasks && tasks == old(tasks)[id := tasks[id]] && fresh(tasks[id])
      ensures var t := tasks[id];
              && t.status == PendingApproval && t.agentName == skillName && t.policy == Auto && t.sessionID == sessionID
              && t.external && t.timeoutAt == Some(now + timeout) && t.doneAt == None && t.cancelFn == null
    {
      var t := new TaskState(id, skillName, PendingApproval, Auto, sessionID, true, Some(now + timeout), "", 0);
      tasks := tasks[id := t];
    }

    method SetCancelFunc(id: string, fn: CancelContext, now: int)
      requires Valid()
      modifies tasks.Values
      ensures Valid() && tasks == old(tasks)
      ensures View() == Apply(old(View()), Op.SetCancelFunc(id), now)
      ensures id in tasks ==> tasks[id].cancelFn == fn
    {
      if id in tasks {
        tasks[id].cancelFn := fn;
      }
    }

    method Complete(id: string, result: string, now: int)
      requires Valid()
      modifies tasks.Values
      ensures Valid() && tasks == old(tasks)
      ensures View() == Apply(old(View()), Op.Complete(id, result), now)
      ensures id in tasks ==>
                tasks[id].status == Completed && tasks[id].result == result && tasks[id].doneAt == Some(now)
    {
      if id in tasks {
        var t := tasks[id];
        t.status := Completed;
        t.result := result;
        t.doneAt := Some(now);
      }
    }

    method Fail(id: string, errMsg: string, now: int)
      requires Valid()
      modifies tasks.Values
      ensures Valid() && tasks == old(tasks)
      ensures View() == Apply(old(View()), Op.Fail(id, errMsg), now)
      ensures id in tasks ==>
                if old(tasks[id].status) == Cancelled then tasks[id].View() == old(tasks[id].View())
                else tasks[id].status == Failed && tasks[id].error == errMsg && tasks[id].doneAt == Some(now)
    {
      if id in tasks {
        var t := tasks[id];
        if t.status == Cancelled {
          return;
        }
        t.status := Failed;
        t.error := errMsg;
        t.doneAt := Some(now);
      }
    }

    /** Cancels a running task, and the context of its run once that is known. */
    method Cancel(id: string, now: int) returns (ok: bool)
      requires Valid()
      modifies tasks.Values
      modifies if id in tasks && tasks[id].cancelFn != null then {tasks[id].cancelFn} else {}
      ensures Valid() && tasks == old(tasks)
      ensures View() == Apply(old(View()), Op.Cancel(id), now)
      ensures ok == (id in tasks && old(tasks[id].status) == Running)
      ensures id in tasks ==>
                if ok then tasks[id].status == Cancelled && tasks[id].doneAt == Some(now)
                else tasks[id].View() == old(tasks[id].View())
      ensures id in tasks && tasks[id].cancelFn != null ==>
                tasks[id].cancelFn.cancelled == (ok || old(tasks[id].cancelFn.cancelled))
    {
      if id !in tasks || tasks[id].status != Running {
        return false;
      }
      var t := tasks[id];
      if t.cancelFn != null {
        t.cancelFn.cancelled := true;
      }
      t.status := Cancelled;
      t.error := "cancelled by user";
      t.doneAt := Some(now);
      return true;
    }

    /**
     One reaper pass: fails every expired external task, in whatever order the
     map is visited, and returns the records it failed, each once.
     */
    method ReapExpiredExternal(now: int) returns (expired: seq<TaskState>)
      requires Valid()
      modifies tasks.Values
      ensures Valid() && tasks == old(tasks)
      ensures View() == Apply(old(View()), Op.Reap, now)
      ensures Lists(tasks, expired, ExpiredIDs(old(View()), now))
      ensures Reaped(now)
    {
      ghost var before := View();
      ghost var due := ExpiredIDs(before, now);
      expired := [];
      var records, pending := tasks, tasks.Keys;
      assert due - pending == {};
      while pending != {}
        invariant pending <= records.Keys
        invariant forall id | id in records && id in pending :: records[id].View() == before[id]
        invariant forall id | id in records && id !in pending :: records[id].View() == Reaping(before[id], now)
        invariant Lists(records, expired, due - pending)
      {
        var id :| id in pending;
        VisitOne(due, pending, id);
        var t := records[id];
        label visit:
        var failed := t.TimeOut(now);
        forall other | other in records && other != id
          ensures records[other].View() == old@visit(records[other].View())
        {
          assert records[other].id != t.id;
        }
        if failed {
          ListsOneMore(records, expired, due - pending, id);
          expired := expired + [t];
        }
        pending := pending - {id};
      }
      assert due - pending == due;
      ReapPointwise(before, View(), now);
      ReapedInFields(now);
    }

    /** The effect of a pass on the table, in the fields of the records. */
    twostate lemma ReapedInFields(now: int)
      requires tasks == old(tasks) && View() == Apply(old(View()), Op.Reap, now)
      ensures Reaped(now)
    {
      var before := old(View());
      forall id | id in old(tasks) ensures tasks[id].View() == Apply(before, Op.Reap, now)[id] {
        ReapInFields(before, now, id);
      }
    }

    /** Failed are exactly the external, running or pending records past their deadline; the others are untouched. */
    twostate predicate Reaped(now: int)
      reads this, tasks.Values
    {
      && tasks == old(tasks)
      && forall id | id in tasks ::
           var t := tasks[id];
           var due := t.external && (old(t.status) == Running || old(t.status) == PendingApproval)
                      && t.timeoutAt.Some? && now > t.timeoutAt.value;
           && (id in ExpiredIDs(old(View()), now) <==> due)
           && (if due then t.status == Failed && t.doneAt == Some(now) else t.View() == old(t.View()))
    }

    /** Hands out the finished queue-policy tasks and removes them. */
    method QueuedResults(now: int) returns (out: seq<TaskState>)
      requires Valid()
      modifies this`tasks
      ensures Valid()
      ensures View() == Apply(old(View()), Op.QueuedResults, now)
      ensures Lists(old(tasks), out, set id | id in old(tasks) && Collectable(old(View())[id]))
      ensures forall id | id in old(tasks) ::
                var t := old(tasks)[id];
                var due := t.policy == Queue && (t.status == Completed || t.status == Failed || t.status == Cancelled);
                && (Collectable(old(View())[id]) <==> due)
                && (id in tasks <==> !due) && (!due ==> tasks[id] == t)
    {
      ghost var before := View();
      ghost var due := set id | id in tasks && Collectable(before[id]);
      out := [];
      var pending := tasks.Keys;
      assert due - pending == {};
      while pending != {}
        invariant pending <= tasks.Keys
        invariant forall id | id in tasks :: id in old(tasks) && tasks[id] == old(tasks)[id]
        invariant forall id | id in old(tasks) :: id in tasks <==> id !in due || id in pending
        invariant Lists(old(tasks), out, due - pending)
      {
        var id :| id in pending;
        VisitOne(due, pending, id);
        var t := tasks[id];
        assert id in due <==> Collectable(t.View());
        if t.policy == Queue && (t.status == Completed || t.status == Failed || t.status == Cancelled) {
          ListsOneMore(old(tasks), out, due - pending, id);
          out := out + [t];
          tasks := tasks - {id};
        }
        pending := pending - {id};
      }
      assert due - pending == due;
      CollectPointwise(before, View(), now);
    }

    method RecordPipelineStage(sessionID: string, pipelineName: string, stage: int)
      modifies this`pipelineProgress
      ensures pipelineProgress == Recorded(old(pipelineProgress), sessionID, pipelineName, stage)
    {
      if sessionID !in pipelineProgress {
        pipelineProgress := pipelineProgress[sessionID := map[]];
      }
      if pipelineName !in pipelineProgress[sessionID] {
        pipelineProgress := pipelineProgress[sessionID := pipelineProgress[sessionID][pipelineName := {}]];
      }
      ghost var before := old(pipelineProgress);
      ghost var was := if sessionID in before then before[sessionID] else map[];
      var session := pipelineProgress[sessionID];
      assert session == was[pipelineName := Done(before, sessionID, pipelineName)];
      pipelineProgress := pipelineProgress[sessionID := session[pipelineName := session[pipelineName] + {stage}]];
      assert pipelineProgress[sessionID] == Recorded(before, sessionID, pipelineName, stage)[sessionID];
    }

    method IsPipelineStageCompleted(sessionID: string, pipelineName: string, stage: int) returns (done: bool)
      ensures done == (stage in Done(pipelineProgress, sessionID, pipelineName))
    {
      if sessionID !in pipelineProgress {
        return false;
      }
      if pipelineName !in pipelineProgress[sessionID] {
        return false;
      }
      return stage in pipelineProgress[sessionID][pipelineName];
    }

    method RecordPipelineStart(sessionID: string, pipelineName: string, now: int)
      modifies this`pipelineStartTimes
      ensures pipelineStartTimes == WithStart(old(pipelineStartTimes), sessionID, pipelineName, now)
    {
      if sessionID !in pipelineStartTimes {
        pipelineStartTimes := pipelineStartTimes[sessionID := map[]];
      }
      if pipelineName !in pipelineStartTimes[sessionID] {
        pipelineStartTimes := pipelineStartTimes[sessionID := pipelineStartTimes[sessionID][pipelineName := now]];
      }
    }

    method PipelineElapsed(sessionID: string, pipelineName: string, now: int) returns (elapsed: int)
      ensures elapsed == Elapsed(pipelineStartTimes, sessionID, pipelineName, now)
    {
      if sessionID !in pipelineStartTimes {
        return 0;
      }
      if pipelineName !in pipelineStartTimes[sessionID] {
        return 0;
      }
      return now - pipelineStartTimes[sessionID][pipelineName];
    }
  }
}
