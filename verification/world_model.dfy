/**
 The session-scoped world model: the streak of errors in one tool category, the
 statuses of tests, build and tasks with their log of transitions, and the two
 questions asked of the recent calls. Timestamps, durations and error texts are not
 part of this model.
 */
module WorldModelling {
  import opened Text

  datatype ToolCall = ToolCall(tool: string, success: bool)
  datatype Transition = Transition(from: string, to: string, trigger: string)

  // ---------------------------------------------------------------------
  // Tool categories
  // ---------------------------------------------------------------------

  function Category(toolName: string): string {
    var lower := Lower(toolName);
    if "bash" <= lower || "exec" <= lower then "execution"
    else if "read" <= lower || "glob" <= lower || "grep" <= lower then "filesystem_read"
    else if "write" <= lower || "edit" <= lower then "filesystem_write"
    else if "browser" <= lower || "web" <= lower then "web"
    else if "dispatch" <= lower || "backlog" <= lower then "orchestration"
    else toolName
  }

  /** The prefixes, in lower case, that put tools into one category. */
  const GROUPS: seq<seq<string>> :=
    [["bash", "exec"], ["read", "glob", "grep"], ["write", "edit"], ["browser", "web"], ["dispatch", "backlog"]]

  predicate InGroup(g: nat, tool: string) {
    g < |GROUPS| && exists k | 0 <= k < |GROUPS[g]| :: GROUPS[g][k] <= Lower(tool)
  }

  predicate Ungrouped(tool: string) {
    forall g | 0 <= g < |GROUPS| :: !InGroup(g, tool)
  }

  /** The three names that belong to no group and are nevertheless taken for one of this group. */
  predicate PassesFor(tool: string, g: nat) {
    || (tool == "filesystem_read" && g == 1)
    || (tool == "filesystem_write" && g == 2)
    || (tool == "orchestration" && g == 4)
  }

  /** Two tools count as the same approach: both of one group, or the same name, or one of the three names. */
  ghost predicate SameApproach(a: string, b: string) {
    || a == b
    || (exists g :: InGroup(g, a) && InGroup(g, b))
    || (exists g :: (InGroup(g, a) && PassesFor(b, g)) || (PassesFor(a, g) && InGroup(g, b)))
  }

  lemma GroupsSpelledOut(tool: string)
    ensures InGroup(0, tool) <==> "bash" <= Lower(tool) || "exec" <= Lower(tool)
    ensures InGroup(1, tool) <==> "read" <= Lower(tool) || "glob" <= Lower(tool) || "grep" <= Lower(tool)
    ensures InGroup(2, tool) <==> "write" <= Lower(tool) || "edit" <= Lower(tool)
    ensures InGroup(3, tool) <==> "browser" <= Lower(tool) || "web" <= Lower(tool)
    ensures InGroup(4, tool) <==> "dispatch" <= Lower(tool) || "backlog" <= Lower(tool)
  {
    assert GROUPS[0][0] == "bash" && GROUPS[0][1] == "exec" && GROUPS[2][0] == "write" && GROUPS[2][1] == "edit";
    assert GROUPS[1][0] == "read" && GROUPS[1][1] == "glob" && GROUPS[1][2] == "grep";
    assert GROUPS[3][0] == "browser" && GROUPS[3][1] == "web";
    assert GROUPS[4][0] == "dispatch" && GROUPS[4][1] == "backlog";
  }

  function Label(g: nat): string
    requires g < 5
  {
    ["execution", "filesystem_read", "filesystem_write", "web", "orchestration"][g]
  }

  /** The letters that tell the prefixes apart. */
  lemma Letters(s: string)
    ensures "bash" <= s ==> s[0] == 'b' && s[1] == 'a' && s[2] == 's'
    ensures "exec" <= s ==> s[0] == 'e' && s[1] == 'x'
    ensures "read" <= s ==> s[0] == 'r'
    ensures "glob" <= s ==> s[0] == 'g'
    ensures "grep" <= s ==> s[0] == 'g'
    ensures "write" <= s ==> s[0] == 'w' && s[1] == 'r'
    ensures "edit" <= s ==> s[0] == 'e' && s[1] == 'd'
    ensures "browser" <= s ==> s[0] == 'b' && s[1] == 'r'
    ensures "web" <= s ==> s[0] == 'w' && s[1] == 'e'
    ensures "dispatch" <= s ==> s[0] == 'd'
    ensures "backlog" <= s ==> s[0] == 'b' && s[1] == 'a' && s[2] == 'c'
  {}

  /** No name begins with prefixes of two groups, so the order in which they are tried does not matter. */
  lemma GroupsExclude(tool: string, g: nat, h: nat)
    requires InGroup(g, tool) && InGroup(h, tool)
    ensures g == h
  {
    GroupsSpelledOut(tool);
    Letters(Lower(tool));
  }

  lemma CategoryOfGroup(tool: string, g: nat)
    requires InGroup(g, tool)
    ensures Category(tool) == Label(g)
  {
    GroupsSpelledOut(tool);
    Letters(Lower(tool));
  }

  lemma CategoryOfOther(tool: string)
    requires Ungrouped(tool)
    ensures Category(tool) == tool
  {
    GroupsSpelledOut(tool);
    assert !InGroup(0, tool) && !InGroup(1, tool) && !InGroup(2, tool) && !InGroup(3, tool) && !InGroup(4, tool);
  }

  lemma LabelsAreDistinct(g: nat, h: nat)
    requires g < 5 && h < 5 && Label(g) == Label(h)
    ensures g == h
  {
    assert Label(0)[0] == 'e' && |Label(1)| == 15 && |Label(2)| == 16 && Label(3)[0] == 'w' && Label(4)[0] == 'o';
    assert |Label(0)| == 9 && |Label(3)| == 3 && |Label(4)| == 13;
  }

  lemma ThreeAreUngrouped(tool: string, g: nat)
    requires PassesFor(tool, g)
    ensures Ungrouped(tool)
  {
    GroupsSpelledOut(tool);
    Letters(Lower(tool));
    assert Lower(tool)[0] == 'f' || Lower(tool)[0] == 'o';
  }

  /** An ungrouped name is a group's label exactly when it is one of the three. */
  lemma LabelPasses(tool: string, g: nat)
    requires g < 5
    ensures Ungrouped(tool) && tool == Label(g) <==> PassesFor(tool, g)
  {
    if PassesFor(tool, g) {
      ThreeAreUngrouped(tool, g);
    } else if tool == Label(0) {
      GroupsSpelledOut(tool);
      assert "exec" <= Lower(tool);
    } else if tool == Label(3) {
      GroupsSpelledOut(tool);
      assert "web" <= Lower(tool);
    }
  }

  lemma PassesUngrouped(tool: string, g: nat)
    requires PassesFor(tool, g)
    ensures Ungrouped(tool) && tool == Label(g) && Category(tool) == tool
  {
    LabelPasses(tool, g);
    CategoryOfOther(tool);
  }

  lemma TwoGroups(a: string, g: nat, b: string, h: nat)
    requires InGroup(g, a) && InGroup(h, b) && Category(a) == Category(b)
    ensures SameApproach(a, b)
  {
    CategoryOfGroup(a, g);
    CategoryOfGroup(b, h);
    LabelsAreDistinct(g, h);
  }

  lemma ApproachIsCategory(a: string, b: string)
    ensures SameApproach(a, b) ==> Category(a) == Category(b)
  {
    if SameApproach(a, b) && a != b {
      if g :| InGroup(g, a) && InGroup(g, b) {
        CategoryOfGroup(a, g);
        CategoryOfGroup(b, g);
      } else {
        var g :| (InGroup(g, a) && PassesFor(b, g)) || (PassesFor(a, g) && InGroup(g, b));
        var (named, grouped) := if InGroup(g, a) then (b, a) else (a, b);
        PassesUngrouped(named, g);
        CategoryOfGroup(grouped, g);
      }
    }
  }

  lemma GroupAndOther(a: string, g: nat, b: string)
    requires InGroup(g, a) && Ungrouped(b) && Category(a) == Category(b)
    ensures SameApproach(a, b) && SameApproach(b, a)
  {
    CategoryOfGroup(a, g);
    CategoryOfOther(b);
    LabelPasses(b, g);
  }

  /** Two tools are in one category exactly when they count as the same approach. */
  lemma {:induction false} SameCategoryIff(a: string, b: string)
    ensures Category(a) == Category(b) <==> SameApproach(a, b)
  {
    ApproachIsCategory(a, b);
    if Category(a) == Category(b) {
      if Ungrouped(a) && Ungrouped(b) {
        CategoryOfOther(a);
        CategoryOfOther(b);
      } else if Ungrouped(a) {
        var h :| 0 <= h < |GROUPS| && InGroup(h, b);
        GroupAndOther(b, h, a);
      } else {
        var g :| 0 <= g < |GROUPS| && InGroup(g, a);
        if Ungrouped(b) {
          GroupAndOther(a, g, b);
        } else {
          var h :| 0 <= h < |GROUPS| && InGroup(h, b);
          TwoGroups(a, g, b, h);
        }
      }
    }
  }

  // ---------------------------------------------------------------------
  // The model as a value
  // ---------------------------------------------------------------------

  const UNKNOWN := "unknown"
  const TEST_RUN := "test_run"
  const BUILD_RUN := "build_run"
  const TASK_PREFIX := "task:"

  datatype World = World(
    calls: seq<ToolCall>,
    errorStreak: nat,
    lastErrorTool: string,
    changes: seq<Transition>,
    testStatus: string,
    buildStatus: string,
    taskStatus: map<string, string>)

  const FRESH := World([], 0, "", [], UNKNOWN, UNKNOWN, map[])

  datatype Event =
    | ToolEnded(tool: string, success: bool)
    | TestsRan(status: string)
    | BuildRan(status: string)
    | TaskMoved(taskID: string, status: string)

  function Changed(changes: seq<Transition>, from: string, to: string, trigger: string): seq<Transition> {
    if from != to then changes + [Transition(from, to, trigger)] else changes
  }

  function TaskStatus(w: World, taskID: string): string {
    if taskID in w.taskStatus then w.taskStatus[taskID] else ""
  }

  function Next(w: World, e: Event): World {
    match e
    case ToolEnded(tool, success) =>
      var calls := w.calls + [ToolCall(tool, success)];
      if success then w.(calls := calls, errorStreak := 0)
      else if w.lastErrorTool == Category(tool) then w.(calls := calls, errorStreak := w.errorStreak + 1)
      else w.(calls := calls, errorStreak := 1, lastErrorTool := Category(tool))
    case TestsRan(status) =>
      w.(testStatus := status, changes := Changed(w.changes, w.testStatus, status, TEST_RUN))
    case BuildRan(status) =>
      w.(buildStatus := status, changes := Changed(w.changes, w.buildStatus, status, BUILD_RUN))
    case TaskMoved(id, status) =>
      w.(taskStatus := w.taskStatus[id := status],
         changes := Changed(w.changes, TaskStatus(w, id), status, TASK_PREFIX + id))
  }

  function Play(events: seq<Event>): World {
    if events == [] then FRESH else Next(Play(events[..|events| - 1]), events[|events| - 1])
  }

  // ---------------------------------------------------------------------
  // The error streak
  // ---------------------------------------------------------------------

  /** The last n calls all failed, in one category. */
  ghost predicate CategoryFails(calls: seq<ToolCall>, n: nat) {
    n <= |calls| && forall i | |calls| - n <= i < |calls| ::
      !calls[i].success && Category(calls[i].tool) == Category(calls[|calls| - 1].tool)
  }

  ghost predicate StreakInv(w: World) {
    && CategoryFails(w.calls, w.errorStreak)
    && !CategoryFails(w.calls, w.errorStreak + 1)
    && (w.errorStreak > 0 ==> w.lastErrorTool == Category(w.calls[|w.calls| - 1].tool))
  }

  lemma CategoryFailsShorter(calls: seq<ToolCall>, n: nat, m: nat)
    requires CategoryFails(calls, n) && m <= n
    ensures CategoryFails(calls, m)
  {}

  lemma CategoryFailsOneMore(calls: seq<ToolCall>, call: ToolCall, n: nat)
    ensures CategoryFails(calls + [call], n + 1) <==>
            && !call.success && CategoryFails(calls, n)
            && (n > 0 ==> Category(call.tool) == Category(calls[|calls| - 1].tool))
  {
    var more := calls + [call];
    assert more[|calls|] == call;
    assert forall i | 0 <= i < |calls| :: more[i] == calls[i];
    if CategoryFails(more, n + 1) && n > 0 {
      assert more[|calls| - 1] == calls[|calls| - 1];
    }
  }

  lemma StreakStep(w: World, e: Event)
    requires StreakInv(w)
    ensures StreakInv(Next(w, e))
  {
    if e.ToolEnded? {
      var call := ToolCall(e.tool, e.success);
      CategoryFailsOneMore(w.calls, call, 0);
      CategoryFailsOneMore(w.calls, call, 1);
      CategoryFailsOneMore(w.calls, call, w.errorStreak);
      CategoryFailsOneMore(w.calls, call, w.errorStreak + 1);
      if w.errorStreak > 0 {
        CategoryFailsShorter(w.calls, w.errorStreak, 1);
      }
    }
  }

  /** The last n calls all failed, with one approach. */
  ghost predicate FailingRun(calls: seq<ToolCall>, n: nat) {
    n <= |calls| && forall i | |calls| - n <= i < |calls| ::
      !calls[i].success && SameApproach(calls[i].tool, calls[|calls| - 1].tool)
  }

  lemma FailingRunIff(calls: seq<ToolCall>, n: nat)
    ensures FailingRun(calls, n) <==> CategoryFails(calls, n)
  {
    if n <= |calls| {
      forall i | |calls| - n <= i < |calls|
        ensures SameApproach(calls[i].tool, calls[|calls| - 1].tool)
                <==> Category(calls[i].tool) == Category(calls[|calls| - 1].tool)
      {
        SameCategoryIff(calls[i].tool, calls[|calls| - 1].tool);
      }
    }
  }

  lemma {:induction false} StreakHolds(events: seq<Event>)
    ensures StreakInv(Play(events))
    decreases |events|
  {
    if events != [] {
      StreakHolds(events[..|events| - 1]);
      StreakStep(Play(events[..|events| - 1]), events[|events| - 1]);
    }
  }

  /**
   After any events errorStreak is the length of the longest suffix of the call
   log that is all failures of one approach.
   */
  lemma {:induction false} StreakIsLongestFailingRun(events: seq<Event>)
    ensures forall n: nat :: FailingRun(Play(events).calls, n) <==> n <= Play(events).errorStreak
  {
    var w := Play(events);
    StreakHolds(events);
    forall n: nat ensures FailingRun(w.calls, n) <==> n <= w.errorStreak {
      FailingRunIff(w.calls, n);
      if CategoryFails(w.calls, n) && n > w.errorStreak {
        CategoryFailsShorter(w.calls, n, w.errorStreak + 1);
      }
    }
  }

  /** The last n calls all failed, with tools of group g, whichever they were. */
  ghost predicate FailingGroup(calls: seq<ToolCall>, g: nat, n: nat) {
    n <= |calls| && forall i | |calls| - n <= i < |calls| :: !calls[i].success && InGroup(g, calls[i].tool)
  }

  lemma GroupIsOneApproach(calls: seq<ToolCall>, g: nat, n: nat)
    requires FailingGroup(calls, g, n)
    ensures FailingRun(calls, n)
  {
    if n > 0 {
      forall i | |calls| - n <= i < |calls| ensures SameApproach(calls[i].tool, calls[|calls| - 1].tool) {
        assert InGroup(g, calls[i].tool) && InGroup(g, calls[|calls| - 1].tool);
      }
    }
  }

  /** Failures of different tools of a group add up, and one in another group than the call before starts afresh. */
  lemma {:induction false} GroupFailuresCount(events: seq<Event>, g: nat, h: nat, n: nat)
    ensures FailingGroup(Play(events).calls, g, n) ==> Play(events).errorStreak >= n
    ensures var calls, m := Play(events).calls, |Play(events).calls|;
            m > 1 && FailingGroup(calls, g, 1) && h != g && InGroup(h, calls[m - 2].tool) ==>
              Play(events).errorStreak == 1
  {
    var calls, m := Play(events).calls, |Play(events).calls|;
    StreakIsLongestFailingRun(events);
    if FailingGroup(calls, g, n) {
      GroupIsOneApproach(calls, g, n);
    }
    if m > 1 && FailingGroup(calls, g, 1) && h != g && InGroup(h, calls[m - 2].tool) {
      GroupIsOneApproach(calls, g, 1);
      OtherGroup(calls[m - 2].tool, h, calls[m - 1].tool, g);
      assert !FailingRun(calls, 2);
    }
  }

  lemma OtherGroup(a: string, g: nat, b: string, h: nat)
    requires InGroup(g, a) && InGroup(h, b) && g != h
    ensures !SameApproach(a, b)
  {
    CategoryOfGroup(a, g);
    CategoryOfGroup(b, h);
    ApproachIsCategory(a, b);
    if Label(g) == Label(h) {
      LabelsAreDistinct(g, h);
    }
  }

  // ---------------------------------------------------------------------
  // The log of transitions
  // ---------------------------------------------------------------------

  /**
   Where the logged transitions of a trigger lead from its initial value, if each
   starts where the one before it ended, and moves.
   */
  function Replay(changes: seq<Transition>, trigger: string, initial: string): (r: seq<string>)
    ensures |r| <= 1
  {
    if changes == [] then [initial] else
      var r, last := Replay(changes[..|changes| - 1], trigger, initial), changes[|changes| - 1];
      if last.trigger != trigger then r
      else if r == [last.from] && last.from != last.to then [last.to]
      else []
  }

  function Initial(trigger: string): string {
    if trigger == TEST_RUN || trigger == BUILD_RUN then UNKNOWN else ""
  }

  function Current(w: World, trigger: string): string {
    if trigger == TEST_RUN then w.testStatus
    else if trigger == BUILD_RUN then w.buildStatus
    else if TASK_PREFIX <= trigger then TaskStatus(w, trigger[|TASK_PREFIX|..])
    else ""
  }

  lemma ReplayOneMore(changes: seq<Transition>, from: string, to: string, cause: string,
        trigger: string, initial: string)
    requires |Replay(changes, trigger, initial)| == 1
    requires trigger == cause ==> Replay(changes, trigger, initial) == [from]
    ensures Replay(Changed(changes, from, to, cause), trigger, initial)
            == if trigger == cause then [to] else Replay(changes, trigger, initial)
  {
    if from != to {
      assert (changes + [Transition(from, to, cause)])[..|changes|] == changes;
    }
  }

  /** Triggers of tests, build and tasks never collide, and neither do those of two tasks. */
  lemma TriggersDiffer(id: string, other: string)
    ensures TASK_PREFIX + id != TEST_RUN && TASK_PREFIX + id != BUILD_RUN
    ensures TASK_PREFIX + id == TASK_PREFIX + other ==> id == other
    ensures TASK_PREFIX <= TASK_PREFIX + id && (TASK_PREFIX + id)[|TASK_PREFIX|..] == id
  {
    assert (TASK_PREFIX + id)[0] == 't' && (TASK_PREFIX + id)[1] == 'a';
    assert (TASK_PREFIX + id)[|TASK_PREFIX|..] == id;
    assert (TASK_PREFIX + other)[|TASK_PREFIX|..] == other;
  }

  lemma TaskTrigger(trigger: string, id: string)
    requires TASK_PREFIX <= trigger
    ensures trigger[|TASK_PREFIX|..] == id <==> trigger == TASK_PREFIX + id
  {
    assert trigger == TASK_PREFIX + trigger[|TASK_PREFIX|..];
    assert (TASK_PREFIX + id)[|TASK_PREFIX|..] == id;
  }

  lemma TaskCurrent(w: World, id: string, status: string, trigger: string)
    ensures Current(Next(w, TaskMoved(id, status)), trigger)
            == if trigger == TASK_PREFIX + id then status else Current(w, trigger)
    ensures Current(w, TASK_PREFIX + id) == TaskStatus(w, id)
  {
    TriggersDiffer(id, id);
    if TASK_PREFIX <= trigger {
      TaskTrigger(trigger, id);
    }
  }

  lemma TaskStep(w: World, id: string, status: string, trigger: string)
    requires Replay(w.changes, trigger, Initial(trigger)) == [Current(w, trigger)]
    ensures var w' := Next(w, TaskMoved(id, status));
            Replay(w'.changes, trigger, Initial(trigger)) == [Current(w', trigger)]
  {
    TaskCurrent(w, id, status, trigger);
    ReplayOneMore(w.changes, TaskStatus(w, id), status, TASK_PREFIX + id, trigger, Initial(trigger));
  }

  lemma StatusStep(w: World, e: Event, trigger: string)
    requires Replay(w.changes, trigger, Initial(trigger)) == [Current(w, trigger)]
    ensures Replay(Next(w, e).changes, trigger, Initial(trigger)) == [Current(Next(w, e), trigger)]
  {
    match e
    case ToolEnded(_, _) =>
    case TestsRan(status) =>
      ReplayOneMore(w.changes, w.testStatus, status, TEST_RUN, trigger, Initial(trigger));
    case BuildRan(status) =>
      assert BUILD_RUN[0] == 'b' && TEST_RUN[0] == 't';
      ReplayOneMore(w.changes, w.buildStatus, status, BUILD_RUN, trigger, Initial(trigger));
    case TaskMoved(id, status) => TaskStep(w, id, status, trigger);
  }

  /**
   Per trigger the log is a chain without standstill from the initial value, and
   replaying it gives the current status: tests, build and every task.
   */
  lemma {:induction false} LogReplaysToStatus(events: seq<Event>, trigger: string)
    ensures Replay(Play(events).changes, trigger, Initial(trigger)) == [Current(Play(events), trigger)]
    decreases |events|
  {
    if events != [] {
      LogReplaysToStatus(events[..|events| - 1], trigger);
      StatusStep(Play(events[..|events| - 1]), events[|events| - 1], trigger);
    }
  }

  // ---------------------------------------------------------------------
  // Questions about the recent calls
  // ---------------------------------------------------------------------

  function Failures(calls: seq<ToolCall>): nat {
    if calls == [] then 0 else Failures(calls[..|calls| - 1]) + (if calls[|calls| - 1].success then 0 else 1)
  }

  function Successes(calls: seq<ToolCall>): nat {
    if calls == [] then 0 else Successes(calls[..|calls| - 1]) + (if calls[|calls| - 1].success then 1 else 0)
  }

  function Latest(calls: seq<ToolCall>, n: nat): seq<ToolCall> {
    if |calls| <= n then calls else calls[|calls| - n..]
  }

  predicate ShouldPivot(w: World) {
    w.errorStreak >= 3 || (|w.calls| >= 5 && Failures(Latest(w.calls, 5)) >= 4)
  }

  predicate IsProgressingWell(w: World) {
    |w.calls| < 5 || Successes(Latest(w.calls, 5)) >= 3
  }

  lemma {:induction false} EachCallCounts(calls: seq<ToolCall>)
    ensures Failures(calls) + Successes(calls) == |calls|
    decreases |calls|
  {
    if calls != [] {
      EachCallCounts(calls[..|calls| - 1]);
    }
  }

  lemma {:induction false} FailuresConcat(a: seq<ToolCall>, b: seq<ToolCall>)
    ensures Failures(a + b) == Failures(a) + Failures(b)
    decreases |b|
  {
    if b == [] {
      assert a + b == a;
    } else {
      assert (a + b)[..|a + b| - 1] == a + b[..|b| - 1];
      FailuresConcat(a, b[..|b| - 1]);
    }
  }

  lemma FailuresFromTheBack(calls: seq<ToolCall>, i: nat)
    requires i < |calls|
    ensures Failures(calls[i..]) == Failures(calls[i + 1..]) + (if calls[i].success then 0 else 1)
  {
    assert calls[i..] == [calls[i]] + calls[i + 1..];
    FailuresConcat([calls[i]], calls[i + 1..]);
    assert [calls[i]][..0] == [];
  }

  lemma {:induction false} AllFailures(calls: seq<ToolCall>)
    requires forall i | 0 <= i < |calls| :: !calls[i].success
    ensures Failures(calls) == |calls|
    decreases |calls|
  {
    if calls != [] {
      AllFailures(calls[..|calls| - 1]);
    }
  }

  lemma SuccessesFromTheBack(calls: seq<ToolCall>, i: nat)
    requires i < |calls|
    ensures Successes(calls[i..]) == Successes(calls[i + 1..]) + (if calls[i].success then 1 else 0)
  {
    EachCallCounts(calls[i..]);
    EachCallCounts(calls[i + 1..]);
    FailuresFromTheBack(calls, i);
  }

  function Bit(b: bool): nat { if b then 1 else 0 }

  lemma FiveSuccesses(c: seq<ToolCall>)
    requires |c| == 5
    ensures Successes(c) ==
            Bit(c[0].success) + Bit(c[1].success) + Bit(c[2].success) + Bit(c[3].success) + Bit(c[4].success)
    ensures Failures(c) == 5 - Successes(c)
  {
    SuccessesFromTheBack(c, 0);
    SuccessesFromTheBack(c, 1);
    SuccessesFromTheBack(c, 2);
    SuccessesFromTheBack(c, 3);
    SuccessesFromTheBack(c, 4);
    assert c[0..] == c && c[5..] == [];
    EachCallCounts(c);
  }

  /** There are five calls, and no two of the last five succeeded. */
  ghost predicate FourOfFiveFailed(calls: seq<ToolCall>) {
    |calls| >= 5 && forall i, j | |calls| - 5 <= i < j < |calls| :: !calls[i].success || !calls[j].success
  }

  /** Three of the last five calls succeeded. */
  ghost predicate ThreeOfFiveSucceeded(calls: seq<ToolCall>) {
    |calls| >= 5 && exists i, j, k | |calls| - 5 <= i < j < k < |calls| ::
      calls[i].success && calls[j].success && calls[k].success
  }

  lemma PivotByIndex(w: World)
    ensures ShouldPivot(w) <==> w.errorStreak >= 3 || FourOfFiveFailed(w.calls)
    ensures IsProgressingWell(w) <==> |w.calls| < 5 || ThreeOfFiveSucceeded(w.calls)
  {
    if |w.calls| >= 5 {
      FiveSuccesses(Latest(w.calls, 5));
      FiveByIndex(w.calls, Latest(w.calls, 5));
    }
  }

  lemma FiveByIndex(calls: seq<ToolCall>, c: seq<ToolCall>)
    requires |calls| >= 5 && c == calls[|calls| - 5..]
    ensures var successes := Bit(c[0].success) + Bit(c[1].success) + Bit(c[2].success) + Bit(c[3].success)
                             + Bit(c[4].success);
            && (FourOfFiveFailed(calls) <==> successes <= 1)
            && (ThreeOfFiveSucceeded(calls) <==> successes >= 3)
  {
    var n := |calls| - 5;
    assert c[0] == calls[n] && c[1] == calls[n + 1] && c[2] == calls[n + 2] && c[3] == calls[n + 3]
           && c[4] == calls[n + 4];
  }

  /**
   When the agent is told to pivot, and when it is told that things go well, by the
   log of calls alone: three failures in a row with one approach, or four among the
   last five; fewer than five calls, or three successes among the last five.
   */
  lemma {:induction false} AdviceIff(events: seq<Event>)
    ensures var w := Play(events);
            && (ShouldPivot(w) <==> FailingRun(w.calls, 3) || FourOfFiveFailed(w.calls))
            && (IsProgressingWell(w) <==> |w.calls| < 5 || ThreeOfFiveSucceeded(w.calls))
  {
    var w := Play(events);
    PivotByIndex(w);
    StreakIsLongestFailingRun(events);
    assert FailingRun(w.calls, 3) <==> 3 <= w.errorStreak;
  }

  lemma Advised(w: World, events: seq<Event>) returns (pivot: bool, well: bool)
    requires w == Play(events)
    ensures pivot == ShouldPivot(w) == (FailingRun(w.calls, 3) || FourOfFiveFailed(w.calls))
    ensures well == IsProgressingWell(w) == (|w.calls| < 5 || ThreeOfFiveSucceeded(w.calls))
  {
    AdviceIff(events);
    pivot, well := ShouldPivot(w), IsProgressingWell(w);
  }

  /** With five calls or more, three failures in a row are among the last five. */
  lemma StreakShowsInWindow(w: World)
    requires StreakInv(w) && w.errorStreak >= 3 && |w.calls| >= 5
    ensures Failures(Latest(w.calls, 5)) >= 3
  {
    var recent := Latest(w.calls, 5);
    forall i | 0 <= i < 3 ensures !recent[2..][i].success {
      assert recent[2..][i] == w.calls[|w.calls| - 3 + i];
    }
    AllFailures(recent[2..]);
    FailuresConcat(recent[..2], recent[2..]);
    assert recent == recent[..2] + recent[2..];
  }

  /**
   Advice to pivot and the judgement that things go well contradict each other
   from the fifth call on, and only from then: a streak of three or four failures
   in the first four calls gets both.
   */
  lemma PivotExcludesProgressIff(events: seq<Event>)
    requires ShouldPivot(Play(events))
    ensures IsProgressingWell(Play(events)) <==> |Play(events).calls| < 5
  {
    var w := Play(events);
    StreakHolds(events);
    if |w.calls| >= 5 {
      EachCallCounts(Latest(w.calls, 5));
      if w.errorStreak >= 3 {
        StreakShowsInWindow(w);
      }
    }
  }

  lemma PlayThen(events: seq<Event>, e: Event)
    ensures Play(events + [e]) == Next(Play(events), e)
  {
    assert (events + [e])[..|events|] == events;
  }

  /** After three failing calls of one tool, whichever, the model advises to pivot and reports good progress. */
  lemma PivotDespiteProgress(tool: string)
    ensures var e := ToolEnded(tool, false);
            var w := Play([e] + [e] + [e]);
            |w.calls| == 3 && ShouldPivot(w) && IsProgressingWell(w)
  {
    var e := ToolEnded(tool, false);
    PlayThen([], e);
    assert [] + [e] == [e];
    PlayThen([e], e);
    PlayThen([e] + [e], e);
    assert Play([e]).errorStreak == 1 && Play([e]).lastErrorTool == Category(tool);
  }

  // ---------------------------------------------------------------------
  // The model itself
  // ---------------------------------------------------------------------

  class WorldModel {
    var toolCalls: seq<ToolCall>
    var errorStreak: nat
    var lastErrorTool: string
    var stateChanges: seq<Transition>
    var testStatus: string
    var buildStatus: string
    var taskStatus: map<string, string>
    ghost var events: seq<Event>

    function View(): World
      reads this
    {
      World(toolCalls, errorStreak, lastErrorTool, stateChanges, testStatus, buildStatus, taskStatus)
    }

    /** The state is what the events so far make of a fresh model. */
    ghost predicate Valid()
      reads this
    {
      View() == Play(events)
    }

    constructor ()
      ensures Valid() && events == [] && View() == FRESH
    {
      events := [];
      toolCalls, errorStreak, lastErrorTool, stateChanges := [], 0, "", [];
      testStatus, buildStatus, taskStatus := UNKNOWN, UNKNOWN, map[];
    }

    method RecordToolCallEnd(toolName: string, success: bool)
      requires Valid()
      modifies this`toolCalls, this`errorStreak, this`lastErrorTool, this`events
      ensures Valid() && events == old(events) + [ToolEnded(toolName, success)]
      ensures toolCalls == old(toolCalls) + [ToolCall(toolName, success)]
      ensures forall n: nat :: n <= errorStreak <==> FailingRun(toolCalls, n)
    {
      PlayThen(events, ToolEnded(toolName, success));
      StreakIsLongestFailingRun(events + [ToolEnded(toolName, success)]);
      events := events + [ToolEnded(toolName, success)];
      toolCalls := toolCalls + [ToolCall(toolName, success)];
      if !success {
        var toolCategory := Category(toolName);
        if lastErrorTool == toolCategory {
          errorStreak := errorStreak + 1;
        } else {
          errorStreak := 1;
          lastErrorTool := toolCategory;
        }
      } else {
        errorStreak := 0;
      }
    }

    method UpdateTestStatus(status: string)
      requires Valid()
      modifies this`testStatus, this`stateChanges, this`events
      ensures Valid() && events == old(events) + [TestsRan(status)]
      ensures testStatus == status
      ensures stateChanges == old(stateChanges) + (if old(testStatus) == status then []
                                                   else [Transition(old(testStatus), status, "test_run")])
    {
      PlayThen(events, TestsRan(status));
      events := events + [TestsRan(status)];
      var oldStatus := testStatus;
      testStatus := status;
      if oldStatus != status {
        stateChanges := stateChanges + [Transition(oldStatus, status, TEST_RUN)];
      }
    }

    method UpdateBuildStatus(status: string)
      requires Valid()
      modifies this`buildStatus, this`stateChanges, this`events
      ensures Valid() && events == old(events) + [BuildRan(status)]
      ensures buildStatus == status
      ensures stateChanges == old(stateChanges) + (if old(buildStatus) == status then []
                                                   else [Transition(old(buildStatus), status, "build_run")])
    {
      PlayThen(events, BuildRan(status));
      events := events + [BuildRan(status)];
      var oldStatus := buildStatus;
      buildStatus := status;
      if oldStatus != status {
        stateChanges := stateChanges + [Transition(oldStatus, status, BUILD_RUN)];
      }
    }

    method RecordTaskStatus(taskID: string, status: string)
      requires Valid()
      modifies this`taskStatus, this`stateChanges, this`events
      ensures Valid() && events == old(events) + [TaskMoved(taskID, status)]
      ensures taskStatus == old(taskStatus)[taskID := status]
      ensures var was := if taskID in old(taskStatus) then old(taskStatus)[taskID] else "";
              stateChanges == old(stateChanges) + (if was == status then []
                                                   else [Transition(was, status, "task:" + taskID)])
    {
      PlayThen(events, TaskMoved(taskID, status));
      events := events + [TaskMoved(taskID, status)];
      var oldStatus := if taskID in taskStatus then taskStatus[taskID] else "";
      taskStatus := taskStatus[taskID := status];
      if oldStatus != status {
        stateChanges := stateChanges + [Transition(oldStatus, status, TASK_PREFIX + taskID)];
      }
    }

    /** Counts backwards from the newest call. */
    method RecentFailures() returns (recentFailures: nat)
      requires |toolCalls| >= 5
      ensures recentFailures == Failures(Latest(toolCalls, 5))
    {
      recentFailures := 0;
      ghost var oldest := |toolCalls| - 5;
      var i := |toolCalls| - 1;
      while i >= 0 && i >= |toolCalls| - 5
        invariant oldest - 1 <= i < |toolCalls|
        invariant recentFailures == Failures(toolCalls[i + 1..])
      {
        FailuresFromTheBack(toolCalls, i);
        if !toolCalls[i].success {
          recentFailures := recentFailures + 1;
        }
        i := i - 1;
      }
      assert i + 1 == oldest && toolCalls[oldest..] == Latest(toolCalls, 5);
    }

    method AskPivot() returns (pivot: bool)
      requires Valid()
      ensures pivot <==> FailingRun(toolCalls, 3) || FourOfFiveFailed(toolCalls)
      ensures pivot == ShouldPivot(View())
    {
      ghost var advised, _ := Advised(View(), events);
      if errorStreak >= 3 {
        return true;
      }
      if |toolCalls| >= 5 {
        var recentFailures := RecentFailures();
        if recentFailures >= 4 {
          return true;
        }
      }
      return false;
    }

    method AskProgress() returns (well: bool)
      requires Valid()
      ensures well <==> |toolCalls| < 5 || ThreeOfFiveSucceeded(toolCalls)
      ensures well == IsProgressingWell(View())
    {
      ghost var _, progress := Advised(View(), events);
      if |toolCalls| < 5 {
        return true;
      }
      var recent := Latest(toolCalls, 5);
      var successes := 0;
      for i := 0 to |recent|
        invariant successes == Successes(recent[..i])
      {
        assert recent[..i + 1][..i] == recent[..i];
        if recent[i].success {
          successes := successes + 1;
        }
      }
      assert recent[..|recent|] == recent;
      return successes >= 3;
    }
  }
}
