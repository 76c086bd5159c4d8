/**
 The skill graph with its approval gate. The executor follows the declared
 edges; a model reply, a batch of tool results and a node error are inputs. A
 resumed execution restarts at the gate and carries the decision in its context
 until it ends.
 */
module SkillGraph {
  import opened Options

  datatype Role = System | User | Assistant | Tool

  datatype Call = Call(tool: string, arguments: string)

  datatype Message = Message(role: Role, content: string, toolCalls: seq<Call>)

  /** Where a call stands: the message of the conversation that makes it, and which of its calls it is. */
  datatype Place = Place(message: int, index: int)

  /** The calls of one message, run together. */
  datatype Batch = Batch(message: int, calls: seq<Call>)

  datatype Node = LlmPlan | CheckTools | ApprovalGate | ExecuteTools | LlmContinue

  datatype Status =
    | Active
    | Paused               // the gate interrupted and waits for a decision
    | Rejected             // the gate returned the rejection error
    | Broken               // some other node returned an error
    | Ended

  /**
   One execution of the graph. `executed` lists the batches of tool calls that
   execute_tools has run, `prompts` the places of the calls shown for approval.
   */
  datatype Execution = Execution(
    node: Node,
    status: Status,
    messages: seq<Message>,
    decision: Option<bool>,
    executed: seq<Batch>,
    prompts: seq<Place>)

  /** What a node appends: its answer if it is a model node, its results if it is the tools node. */
  datatype Input = Reply(answer: Message, results: seq<Message>) | NodeError

  function LastCalls(messages: seq<Message>): seq<Call> {
    if messages == [] then [] else messages[|messages| - 1].toolCalls
  }

  predicate HasGuarded(calls: seq<Call>, guarded: set<string>) {
    exists i | 0 <= i < |calls| :: calls[i].tool in guarded
  }

  function LastBatch(messages: seq<Message>): Batch {
    Batch(|messages| - 1, LastCalls(messages))
  }

  /** The first guarded call of a batch: the one the approval request shows. */
  function FirstGuarded(calls: seq<Call>, guarded: set<string>): (i: int)
    requires HasGuarded(calls, guarded)
    ensures 0 <= i < |calls| && calls[i].tool in guarded
    ensures forall j | 0 <= j < i :: calls[j].tool !in guarded
  {
    if calls[0].tool in guarded then 0 else
      assert exists i | 1 <= i < |calls| :: calls[i].tool in guarded && calls[1..][i - 1] == calls[i];
      1 + FirstGuarded(calls[1..], guarded)
  }

  function Start(message: string): Execution {
    Execution(LlmPlan, Active, [Message(User, message, [])], None, [], [])
  }

  /** Resuming restores the checkpointed messages and re-enters the gate with the decision. */
  function Resume(paused: Execution, approved: bool): Execution {
    Execution(ApprovalGate, Active, paused.messages, Some(approved), [], [])
  }

  /** One node of the graph, and the edge it leaves by. */
  function Step(e: Execution, input: Input, guarded: set<string>): Execution {
    if !e.status.Active? then e else
    match e.node
    case CheckTools =>
      e.(node := if HasGuarded(LastCalls(e.messages), guarded) then ApprovalGate else ExecuteTools)
    case ApprovalGate => (
      match e.decision
      case Some(approved) => if approved then e.(node := ExecuteTools) else e.(status := Rejected)
      case None =>
        e.(status := Paused,
           prompts := if HasGuarded(LastCalls(e.messages), guarded)
                      then e.prompts + [Place(|e.messages| - 1, FirstGuarded(LastCalls(e.messages), guarded))]
                      else e.prompts))
    case LlmPlan => (
      match input
      case NodeError => e.(status := Broken)
      case Reply(answer, _) => e.(messages := e.messages + [answer], node := CheckTools))
    case ExecuteTools =>
      var e' := e.(executed := e.executed + [LastBatch(e.messages)]);
      (match input
       case NodeError => e'.(status := Broken)
       case Reply(_, results) => e'.(messages := e.messages + results, node := LlmContinue))
    case LlmContinue => (
      match input
      case NodeError => e.(status := Broken)
      case Reply(answer, _) =>
        var e' := e.(messages := e.messages + [answer]);
        if LastCalls(e'.messages) != [] then e'.(node := CheckTools) else e'.(status := Ended))
  }

  function Execute(e: Execution, inputs: seq<Input>, guarded: set<string>): Execution {
    if inputs == [] then e else Step(Execute(e, inputs[..|inputs| - 1], guarded), inputs[|inputs| - 1], guarded)
  }

  ghost predicate RanNoGuarded(e: Execution, guarded: set<string>) {
    forall b, k | 0 <= b < |e.executed| && 0 <= k < |e.executed[b].calls| :: e.executed[b].calls[k].tool !in guarded
  }

  /** What the user was shown is one call: the first guarded one of the last message. */
  ghost predicate ShowsFirstGuarded(e: Execution, guarded: set<string>) {
    && |e.prompts| == 1 && 0 <= e.prompts[0].message == |e.messages| - 1
    && var calls, i := e.messages[|e.messages| - 1].toolCalls, e.prompts[0].index;
       && 0 <= i < |calls| && calls[i].tool in guarded
       && forall j | 0 <= j < i :: calls[j].tool !in guarded
  }

  ghost predicate Unapproved(e: Execution, guarded: set<string>) {
    && e.decision.None? && !e.status.Rejected?
    && RanNoGuarded(e, guarded)
    && (e.node.ExecuteTools? && e.status.Active? ==> !HasGuarded(LastCalls(e.messages), guarded))
    && (e.node.ApprovalGate? ==> HasGuarded(LastCalls(e.messages), guarded))
    && (e.status.Paused? ==> e.node.ApprovalGate? && ShowsFirstGuarded(e, guarded))
    && (!e.status.Paused? ==> e.prompts == [])
  }

  /**
   An execution without a decision never runs a guarded call, along any path of
   the graph and for any replies: it either finishes on unguarded calls alone or
   pauses with one approval request, for a guarded call of its last message.
   */
  lemma {:induction false} NoGuardedCallWithoutApproval(message: string, inputs: seq<Input>, guarded: set<string>)
    ensures Unapproved(Execute(Start(message), inputs, guarded), guarded)
    decreases |inputs|
  {
    if inputs != [] {
      NoGuardedCallWithoutApproval(message, inputs[..|inputs| - 1], guarded);
    }
  }

  /** A rejected execution stops in the gate: none of its calls run, guarded or not. */
  lemma {:induction false} RejectionRunsNothing(paused: Execution, inputs: seq<Input>, guarded: set<string>)
    ensures var e := Execute(Resume(paused, false), inputs, guarded);
            e.executed == [] && e.prompts == [] && e.messages == paused.messages
            && e.status == (if inputs == [] then Active else Rejected)
    decreases |inputs|
  {
    if inputs != [] {
      RejectionRunsNothing(paused, inputs[..|inputs| - 1], guarded);
    }
  }

  /**
   An approved execution first runs exactly the batch it was paused on, and
   neither pauses nor asks again: its decision covers every later guarded call.
   */
  lemma {:induction false} ApprovalRunsThePausedBatch(paused: Execution, inputs: seq<Input>, guarded: set<string>)
    ensures var e := Execute(Resume(paused, true), inputs, guarded);
            && !e.status.Paused? && !e.status.Rejected? && e.prompts == [] && e.decision == Some(true)
            && (if |inputs| <= 1 then e.executed == [] && e.messages == paused.messages && e.status.Active?
                                     && e.node == (if inputs == [] then ApprovalGate else ExecuteTools)
                else |e.executed| >= 1 && e.executed[0] == LastBatch(paused.messages))
    ensures paused.messages != [] ==>
              var last := |paused.messages| - 1;
              LastBatch(paused.messages) == Batch(last, paused.messages[last].toolCalls)
    decreases |inputs|
  {
    if inputs != [] {
      ApprovalRunsThePausedBatch(paused, inputs[..|inputs| - 1], guarded);
    }
  }

  // ---------------------------------------------------------------------
  // A whole invocation: an execution, and at most one resumption
  // ---------------------------------------------------------------------

  /** The first execution and, if it paused and a decision came, the resumed one. */
  datatype Invocation = Invocation(first: Execution, resumed: Option<Execution>)

  function Invoke(message: string, inputs: seq<Input>, decision: Option<bool>, more: seq<Input>,
        guarded: set<string>): Invocation
  {
    var first := Execute(Start(message), inputs, guarded);
    Invocation(first,
               if first.status.Paused? && decision.Some?
               then Some(Execute(Resume(first, decision.value), more, guarded)) else None)
  }

  ghost predicate RanGuarded(i: Invocation, guarded: set<string>) {
    || !RanNoGuarded(i.first, guarded)
    || (i.resumed.Some? && !RanNoGuarded(i.resumed.value, guarded))
  }

  /**
   Over a whole invocation a guarded call runs exactly when the first execution
   paused, the decision was to approve, and the resumed execution got past the
   gate and the tools node; and the user is asked at most once.
   */
  lemma GuardedCallsRunIffApproved(message: string, inputs: seq<Input>, decision: Option<bool>, more: seq<Input>,
        guarded: set<string>)
    ensures var i := Invoke(message, inputs, decision, more, guarded);
            RanGuarded(i, guarded) <==> i.first.status.Paused? && decision == Some(true) && |more| >= 2
    ensures var i := Invoke(message, inputs, decision, more, guarded);
            |i.first.prompts| + (if i.resumed.Some? then |i.resumed.value.prompts| else 0) <= 1
  {
    var i := Invoke(message, inputs, decision, more, guarded);
    NoGuardedCallWithoutApproval(message, inputs, guarded);
    if i.resumed.Some? {
      if decision.value {
        ApprovalRunsThePausedBatch(i.first, more, guarded);
        if |more| >= 2 {
          var k := FirstGuarded(LastCalls(i.first.messages), guarded);
          assert i.resumed.value.executed[0].calls[k].tool in guarded;
        }
      } else {
        RejectionRunsNothing(i.first, more, guarded);
      }
    }
  }

  // ---------------------------------------------------------------------
  // One approval, several calls
  // ---------------------------------------------------------------------

  function Ask(tool: string): Message {
    Message(Assistant, "", [Call(tool, "{}")])
  }

  /** Inputs of a resumed execution whose model asks for another tool after the approved batch. */
  function AskAgain(tool: string): seq<Input> {
    seq(6, _ => Reply(Ask(tool), []))
  }

  /**
   A guarded call that was never shown to the user runs, when the model makes it
   after the approved batch: the per-call promise of the documentation does not
   hold, only the per-execution one.
   */
  lemma LaterCallsRunUnasked(paused: Execution, tool: string, guarded: set<string>)
    requires tool in guarded
    ensures var e := Execute(Resume(paused, true), AskAgain(tool), guarded);
            e.executed == [LastBatch(paused.messages), Batch(|paused.messages|, [Call(tool, "{}")])] && e.prompts == []
  {
    var i := AskAgain(tool);
    var e0 := Resume(paused, true);
    assert i[..6] == i && i[..6][..5] == i[..5] && i[..5][..4] == i[..4] && i[..4][..3] == i[..3]
           && i[..3][..2] == i[..2] && i[..2][..1] == i[..1] && i[..1][..0] == [];
    var e1 := Step(e0, i[0], guarded);
    var e2 := Step(e1, i[1], guarded);
    var e3 := Step(e2, i[2], guarded);
    assert e2.messages == paused.messages && e3.messages == paused.messages + [Ask(tool)];
    assert HasGuarded([Call(tool, "{}")], guarded) by { assert [Call(tool, "{}")][0].tool in guarded; }
    var e4 := Step(e3, i[3], guarded);
    var e5 := Step(e4, i[4], guarded);
    var e6 := Step(e5, i[5], guarded);
    assert Execute(e0, i[..1], guarded) == e1;
    assert Execute(e0, i[..2], guarded) == e2;
    assert Execute(e0, i[..3], guarded) == e3;
    assert Execute(e0, i[..4], guarded) == e4;
    assert Execute(e0, i[..5], guarded) == e5;
    assert Execute(e0, i[..6], guarded) == e6;
  }

  // ---------------------------------------------------------------------
  // When every call was asked about
  // ---------------------------------------------------------------------

  lemma {:induction false} ExecuteFirst(e: Execution, inputs: seq<Input>, guarded: set<string>)
    requires inputs != []
    ensures Execute(e, inputs, guarded) == Execute(Step(e, inputs[0], guarded), inputs[1..], guarded)
    decreases |inputs|
  {
    var n := |inputs| - 1;
    if n == 0 {
      assert inputs[..0] == [] && inputs[1..] == [];
    } else {
      ExecuteFirst(e, inputs[..n], guarded);
      assert inputs[..n][1..] == inputs[1..][..n - 1];
    }
  }

  lemma {:induction false} StoppedStays(e: Execution, inputs: seq<Input>, guarded: set<string>)
    requires !e.status.Active?
    ensures Execute(e, inputs, guarded) == e
    decreases |inputs|
  {
    if inputs != [] {
      StoppedStays(e, inputs[..|inputs| - 1], guarded);
    }
  }

  /** What has run stays run, and whatever runs from here is of the last message or a later one. */
  ghost predicate Extends(e: Execution, e': Execution) {
    && e.messages <= e'.messages && e.executed <= e'.executed
    && forall b | |e.executed| <= b < |e'.executed| :: e'.executed[b].message >= |e.messages| - 1
  }

  lemma {:induction false} ExecuteExtends(e: Execution, inputs: seq<Input>, guarded: set<string>)
    ensures Extends(e, Execute(e, inputs, guarded))
    decreases |inputs|
  {
    if inputs != [] {
      ExecuteExtends(e, inputs[..|inputs| - 1], guarded);
    }
  }

  ghost predicate GuardedFrom(e: Execution, from: int, guarded: set<string>) {
    exists b, k | 0 <= from <= b < |e.executed| && 0 <= k < |e.executed[b].calls| ::
      e.executed[b].calls[k].tool in guarded
  }

  /**
   Read off the inputs from a model's answer on: some answer with a guarded call
   is reached, through answers with unguarded calls that all ran without error,
   and enough inputs follow it for its calls to run too.
   */
  predicate GuardedLater(inputs: seq<Input>, guarded: set<string>)
    decreases |inputs|
  {
    && inputs != [] && inputs[0].Reply? && inputs[0].answer.toolCalls != []
    && if HasGuarded(inputs[0].answer.toolCalls, guarded) then |inputs| >= 4
       else |inputs| >= 3 && inputs[2].Reply? && GuardedLater(inputs[3..], guarded)
  }

  /** Check and gate let a guarded batch of an approved execution through to the tools. */
  lemma GuardedBatchRuns(e: Execution, inputs: seq<Input>, guarded: set<string>)
    requires e.node.CheckTools? && e.status.Active? && e.decision == Some(true)
    requires HasGuarded(LastCalls(e.messages), guarded)
    ensures GuardedFrom(Execute(e, inputs, guarded), |e.executed|, guarded) <==> |inputs| >= 3
  {
    if inputs != [] {
      ExecuteFirst(e, inputs, guarded);
      var e1, in1 := Step(e, inputs[0], guarded), inputs[1..];
      if in1 != [] {
        ExecuteFirst(e1, in1, guarded);
        var e2, in2 := Step(e1, in1[0], guarded), in1[1..];
        if in2 != [] {
          ExecuteFirst(e2, in2, guarded);
          var e3 := Step(e2, in2[0], guarded);
          ExecuteExtends(e3, in2[1..], guarded);
          assert e3.executed[|e.executed|] == LastBatch(e.messages);
        }
      }
    }
  }

  lemma {:induction false} LaterBatches(e: Execution, inputs: seq<Input>, guarded: set<string>)
    requires e.node.LlmContinue? && e.status.Active? && e.decision == Some(true)
    ensures GuardedFrom(Execute(e, inputs, guarded), |e.executed|, guarded) <==> GuardedLater(inputs, guarded)
    decreases |inputs|
  {
    if inputs != [] {
      ExecuteFirst(e, inputs, guarded);
      var e1, in1 := Step(e, inputs[0], guarded), inputs[1..];
      if !e1.status.Active? {
        StoppedStays(e1, in1, guarded);
      } else {
        assert LastCalls(e1.messages) == inputs[0].answer.toolCalls;
        if HasGuarded(LastCalls(e1.messages), guarded) {
          GuardedBatchRuns(e1, in1, guarded);
        } else {
          UnguardedBatchRuns(e1, in1, guarded);
          if |in1| >= 2 && in1[1].Reply? {
            assert in1[2..] == inputs[3..];
            LaterBatches(AfterUnguarded(e1, in1, guarded), in1[2..], guarded);
          }
        }
      }
    }
  }

  function AfterUnguarded(e: Execution, inputs: seq<Input>, guarded: set<string>): Execution
    requires |inputs| >= 2
  {
    Step(Step(e, inputs[0], guarded), inputs[1], guarded)
  }

  lemma UnguardedBatchRuns(e: Execution, inputs: seq<Input>, guarded: set<string>)
    requires e.node.CheckTools? && e.status.Active? && e.decision == Some(true)
    requires !HasGuarded(LastCalls(e.messages), guarded)
    ensures |inputs| < 2 ==> !GuardedFrom(Execute(e, inputs, guarded), |e.executed|, guarded)
    ensures |inputs| >= 2 ==>
              var e2 := AfterUnguarded(e, inputs, guarded);
              && e2.decision == Some(true) && |e2.executed| == |e.executed| + 1
              && (if inputs[1].Reply? then e2.node.LlmContinue? && e2.status.Active? else e2.status.Broken?)
              && (GuardedFrom(Execute(e, inputs, guarded), |e.executed|, guarded)
                  <==> inputs[1].Reply? && GuardedFrom(Execute(e2, inputs[2..], guarded), |e2.executed|, guarded))
  {
    if inputs != [] {
      ExecuteFirst(e, inputs, guarded);
      var e1, in1 := Step(e, inputs[0], guarded), inputs[1..];
      if in1 != [] {
        ExecuteFirst(e1, in1, guarded);
        var e2 := Step(e1, in1[0], guarded);
        assert in1[1..] == inputs[2..] && e2 == AfterUnguarded(e, inputs, guarded);
        ExecuteExtends(e2, inputs[2..], guarded);
        assert e2.executed[|e.executed|] == LastBatch(e.messages);
        SkipUnguarded(e2, Execute(e2, inputs[2..], guarded), |e.executed|, guarded);
        if !e2.status.Active? {
          StoppedStays(e2, inputs[2..], guarded);
        }
      }
    }
  }

  lemma SkipUnguarded(e: Execution, e': Execution, from: int, guarded: set<string>)
    requires 0 <= from < |e.executed| && e.executed <= e'.executed && !HasGuarded(e.executed[from].calls, guarded)
    ensures GuardedFrom(e', from, guarded) <==> GuardedFrom(e', from + 1, guarded)
  {
    assert e'.executed[from] == e.executed[from];
  }

  /** Every guarded call that ran stands at a place the user was shown. */
  ghost predicate OnlyPromptedCalls(paused: Execution, e: Execution, guarded: set<string>) {
    forall b, k | 0 <= b < |e.executed| && 0 <= k < |e.executed[b].calls| ::
      e.executed[b].calls[k].tool in guarded ==> Place(e.executed[b].message, k) in paused.prompts
  }

  ghost predicate AtMostOneGuarded(calls: seq<Call>, guarded: set<string>) {
    forall j, k | 0 <= j < |calls| && 0 <= k < |calls| ::
      calls[j].tool in guarded && calls[k].tool in guarded ==> j == k
  }

  /** The executions after the approved batch, from the model's next answer on. */
  lemma ApprovedContinues(paused: Execution, more: seq<Input>, guarded: set<string>)
    requires |more| >= 2
    ensures var e := Execute(Resume(paused, true), more, guarded);
            && |e.executed| >= 1 && e.executed[0] == LastBatch(paused.messages)
            && (forall b | 1 <= b < |e.executed| :: e.executed[b].message >= |paused.messages|)
            && (GuardedFrom(e, 1, guarded) <==> more[1].Reply? && GuardedLater(more[2..], guarded))
  {
    var e0 := Resume(paused, true);
    ExecuteFirst(e0, more, guarded);
    var e1 := Step(e0, more[0], guarded);
    ExecuteFirst(e1, more[1..], guarded);
    var e2 := Step(e1, more[1], guarded);
    assert more[1..][1..] == more[2..];
    if more[1].Reply? {
      LaterBatches(e2, more[2..], guarded);
      LaterMessages(e2, more[2..], guarded);
    } else {
      StoppedStays(e2, more[2..], guarded);
    }
  }

  /** From a model node on, whatever runs is of a message still to come. */
  lemma LaterMessages(e: Execution, inputs: seq<Input>, guarded: set<string>)
    requires e.node.LlmContinue? && e.status.Active?
    ensures var e' := Execute(e, inputs, guarded);
            && e.executed <= e'.executed
            && forall b | |e.executed| <= b < |e'.executed| :: e'.executed[b].message >= |e.messages|
  {
    if inputs != [] {
      ExecuteFirst(e, inputs, guarded);
      var e1 := Step(e, inputs[0], guarded);
      ExecuteExtends(e1, inputs[1..], guarded);
      if !e1.status.Active? {
        StoppedStays(e1, inputs[1..], guarded);
      }
    }
  }

  /**
   Every guarded call an approved execution runs was itself shown to the user
   exactly when it runs nothing at all, or the paused message makes only one
   guarded call and the inputs let no later answer run another. Calls are told
   apart by their places, so two equal calls in one message are two.
   */
  lemma {:induction false} PerCallApprovalIff(message: string, inputs: seq<Input>, more: seq<Input>,
        guarded: set<string>)
    requires Execute(Start(message), inputs, guarded).status.Paused?
    ensures var paused := Execute(Start(message), inputs, guarded);
            var e := Execute(Resume(paused, true), more, guarded);
            OnlyPromptedCalls(paused, e, guarded) <==>
              || |more| < 2
              || (AtMostOneGuarded(LastCalls(paused.messages), guarded)
                  && !(more[1].Reply? && GuardedLater(more[2..], guarded)))
  {
    var paused := Execute(Start(message), inputs, guarded);
    var e := Execute(Resume(paused, true), more, guarded);
    NoGuardedCallWithoutApproval(message, inputs, guarded);
    if |more| < 2 {
      ApprovalRunsThePausedBatch(paused, more, guarded);
    } else {
      ApprovedContinues(paused, more, guarded);
      PromptedIff(paused, e, guarded);
    }
  }

  lemma PromptedIff(paused: Execution, e: Execution, guarded: set<string>)
    requires HasGuarded(LastCalls(paused.messages), guarded)
    requires ShowsFirstGuarded(paused, guarded)
    requires |e.executed| >= 1 && e.executed[0] == LastBatch(paused.messages)
    requires forall b | 1 <= b < |e.executed| :: e.executed[b].message >= |paused.messages|
    ensures OnlyPromptedCalls(paused, e, guarded) <==>
              AtMostOneGuarded(LastCalls(paused.messages), guarded) && !GuardedFrom(e, 1, guarded)
  {
    var calls, first := LastCalls(paused.messages), paused.prompts[0].index;
    assert paused.prompts == [Place(|paused.messages| - 1, first)];
    if OnlyPromptedCalls(paused, e, guarded) {
      forall j | 0 <= j < |calls| && calls[j].tool in guarded ensures j == first {
        assert e.executed[0].calls[j].tool in guarded;
      }
      forall b, k | 1 <= b < |e.executed| && 0 <= k < |e.executed[b].calls|
        ensures e.executed[b].calls[k].tool !in guarded
      {
        assert Place(e.executed[b].message, k) !in paused.prompts;
      }
    }
    if AtMostOneGuarded(calls, guarded) && !GuardedFrom(e, 1, guarded) {
      forall b, k | 0 <= b < |e.executed| && 0 <= k < |e.executed[b].calls| && e.executed[b].calls[k].tool in guarded
        ensures b == 0 && k == first
      {
        assert HasGuarded(e.executed[b].calls, guarded);
      }
    }
  }

  // ---------------------------------------------------------------------
  // What runs is what the messages say, once
  // ---------------------------------------------------------------------

  /**
   Every batch is the calls of the message it names, in the order of the
   conversation, and up to the tools node the last message has yet to run.
   */
  ghost predicate InOrder(e: Execution) {
    && e.messages != []
    && (forall b | 0 <= b < |e.executed| ::
          && 0 <= e.executed[b].message < |e.messages|
          && e.executed[b].calls == e.messages[e.executed[b].message].toolCalls)
    && (forall a, b | 0 <= a < b < |e.executed| :: e.executed[a].message < e.executed[b].message)
    && (!e.node.LlmContinue? && (e.status.Active? || e.status.Paused?) ==>
          forall b | 0 <= b < |e.executed| :: e.executed[b].message < |e.messages| - 1)
  }

  lemma MoreInOrder(e: Execution, e': Execution)
    requires InOrder(e) && e.messages <= e'.messages && e'.executed == e.executed
    requires e'.node.LlmContinue? || e'.status.Rejected? || e'.status.Broken? || e'.status.Ended?
             || |e'.messages| > |e.messages| || (!e.node.LlmContinue? && e.status.Active?)
    ensures InOrder(e')
  {}

  lemma BatchInOrder(e: Execution, e': Execution)
    requires InOrder(e) && e.node.ExecuteTools? && e.status.Active? && e.messages <= e'.messages
    requires e'.executed == e.executed + [LastBatch(e.messages)] && (e'.node.LlmContinue? || e'.status.Broken?)
    ensures InOrder(e')
  {
    assert LastBatch(e.messages) == Batch(|e.messages| - 1, e.messages[|e.messages| - 1].toolCalls);
  }

  lemma StepInOrder(e: Execution, input: Input, guarded: set<string>)
    requires InOrder(e)
    ensures InOrder(Step(e, input, guarded))
  {
    if e.status.Active? && e.node.ExecuteTools? {
      BatchInOrder(e, Step(e, input, guarded));
    } else if e.status.Active? {
      MoreInOrder(e, Step(e, input, guarded));
    }
  }

  lemma {:induction false} ExecuteInOrder(e: Execution, inputs: seq<Input>, guarded: set<string>)
    requires InOrder(e)
    ensures InOrder(Execute(e, inputs, guarded))
    decreases |inputs|
  {
    if inputs != [] {
      ExecuteInOrder(e, inputs[..|inputs| - 1], guarded);
      StepInOrder(Execute(e, inputs[..|inputs| - 1], guarded), inputs[|inputs| - 1], guarded);
    }
  }

  /**
   Over a whole invocation every batch that runs is the calls of one message, and
   none runs twice: the resumed execution goes on with the conversation of the paused
   one, from its last message, which the first had not run.
   */
  lemma {:induction false} EachBatchRunsOnce(message: string, inputs: seq<Input>, decision: Option<bool>,
        more: seq<Input>, guarded: set<string>)
    ensures var i := Invoke(message, inputs, decision, more, guarded);
            && InOrder(i.first) && i.first.messages[0] == Message(User, message, [])
            && (i.resumed.Some? ==>
                  && InOrder(i.resumed.value) && i.first.messages <= i.resumed.value.messages
                  && forall a, b | 0 <= a < |i.first.executed| && 0 <= b < |i.resumed.value.executed| ::
                       i.first.executed[a].message < i.resumed.value.executed[b].message)
  {
    var i := Invoke(message, inputs, decision, more, guarded);
    ExecuteInOrder(Start(message), inputs, guarded);
    ExecuteExtends(Start(message), inputs, guarded);
    if i.resumed.Some? {
      ExecuteInOrder(Resume(i.first, decision.value), more, guarded);
      ExecuteExtends(Resume(i.first, decision.value), more, guarded);
      NoGuardedCallWithoutApproval(message, inputs, guarded);
    }
  }
}
