/**
 The event loop of a dispatched run: which event streams end a run early, and
 what a stream that reaches its end must have looked like.
 */
module EventLoop {
  import opened Options
  import opened Text

  /**
   One event of the agent's stream. `Skipped` is a nil event or one without a
   response. Only the first choice of a response is looked at, so a response
   carries its content, or None when it has no choices. `verdict` is the
   supervisor's reason to abort, should it be asked about this response.
   */
  datatype Event =
    | Skipped
    | Response(error: Option<string>, choice: Option<string>, verdict: Option<string>)

  datatype Reason =
    | StartFailed(message: string)
    | CallLimit(message: string)
    | TurnLimit(turns: int)
    | Overflow(message: string)
    | ErrorBreaker(message: string)
    | SupervisorAbort(message: string)
    | TimedOut(turns: int)
    | CancelledByUser

  datatype Loop = Loop(result: string, turns: int, errors: int)

  datatype Control = Continue(loop: Loop) | Abort(reason: Reason)

  const MAX_CONSECUTIVE_ERRORS := 3
  const FIRST := Loop("", 0, 0)

  predicate OccursAt(s: string, sub: string, i: int) {
    0 <= i <= |s| - |sub| && s[i..i + |sub|] == sub
  }

  predicate Contains(s: string, sub: string) {
    exists i | 0 <= i <= |s| :: OccursAt(s, sub, i)
  }

  predicate IsCallLimit(message: string) {
    Contains(message, "max LLM calls") || Contains(message, "max tool iterations")
  }

  predicate IsTokenOverflow(message: string) {
    var m := Lower(message);
    || Contains(m, "token count exceeds")
    || Contains(m, "maximum number of tokens")
    || Contains(m, "context_length_exceeded")
    || Contains(m, "too many tokens")
  }

  /** What the loop body does with one event. */
  function Handle(maxTurns: int, l: Loop, e: Event): Control {
    if e.Skipped? then Continue(l)
    else if l.turns + 1 >= maxTurns then Abort(TurnLimit(maxTurns))
    else match e.error
      case Some(m) =>
        if IsCallLimit(m) then Abort(CallLimit(m))
        else if IsTokenOverflow(m) then Abort(Overflow(m))
        else if l.errors + 1 >= MAX_CONSECUTIVE_ERRORS then Abort(ErrorBreaker(m))
        else Continue(Loop(l.result, l.turns + 1, l.errors + 1))
      case None =>
        match e.choice
        case None => Continue(Loop(l.result, l.turns + 1, l.errors))
        case Some(text) =>
          if e.verdict.Some? then Abort(SupervisorAbort(e.verdict.value))
          else Continue(Loop(if text != "" then text else l.result, l.turns + 1, 0))
  }

  function Fold(maxTurns: int, events: seq<Event>): Control {
    if events == [] then Continue(FIRST) else
      var before := Fold(maxTurns, events[..|events| - 1]);
      if before.Abort? then before else Handle(maxTurns, before.loop, events[|events| - 1])
  }

  lemma FoldOneMore(maxTurns: int, events: seq<Event>, e: Event)
    ensures Fold(maxTurns, events + [e]) ==
            var before := Fold(maxTurns, events);
            if before.Abort? then before else Handle(maxTurns, before.loop, e)
  {
    assert (events + [e])[..|events|] == events;
  }

  /** A reason the loop itself gives; it names a call limit only for a message about one. */
  predicate LoopReason(reason: Reason) {
    match reason
    case CallLimit(m) => IsCallLimit(m)
    case StartFailed(_) => false
    case TimedOut(_) => false
    case CancelledByUser => false
    case _ => true
  }

  lemma HandleGivesLoopReasons(maxTurns: int, l: Loop, e: Event)
    ensures Handle(maxTurns, l, e).Abort? ==> LoopReason(Handle(maxTurns, l, e).reason)
  {}

  lemma {:induction false} AbortIsFinal(maxTurns: int, events: seq<Event>, more: seq<Event>)
    requires Fold(maxTurns, events).Abort?
    ensures Fold(maxTurns, events + more) == Fold(maxTurns, events)
    decreases |more|
  {
    if more == [] {
      assert events + more == events;
    } else {
      AbortIsFinal(maxTurns, events, more[..|more| - 1]);
      assert (events + more)[..|events + more| - 1] == events + more[..|more| - 1];
    }
  }

  /** The loop itself, with its counters, stopping at the first event that ends the run. */
  method Consume(events: seq<Event>, maxTurns: int) returns (c: Control)
    ensures c == Fold(maxTurns, events)
  {
    var result, turnCount, consecutiveErrors := "", 0, 0;
    for i := 0 to |events|
      invariant Fold(maxTurns, events[..i]) == Continue(Loop(result, turnCount, consecutiveErrors))
    {
      assert events[..i + 1][..i] == events[..i];
      assert events == events[..i + 1] + events[i + 1..];
      var evt := events[i];
      if evt.Skipped? {
        continue;
      }
      turnCount := turnCount + 1;
      if turnCount >= maxTurns {
        AbortIsFinal(maxTurns, events[..i + 1], events[i + 1..]);
        return Abort(TurnLimit(maxTurns));
      }
      if evt.error.Some? {
        var errMsg := evt.error.value;
        if IsCallLimit(errMsg) {
          AbortIsFinal(maxTurns, events[..i + 1], events[i + 1..]);
          return Abort(CallLimit(errMsg));
        }
        if IsTokenOverflow(errMsg) {
          AbortIsFinal(maxTurns, events[..i + 1], events[i + 1..]);
          return Abort(Overflow(errMsg));
        }
        consecutiveErrors := consecutiveErrors + 1;
        if consecutiveErrors >= MAX_CONSECUTIVE_ERRORS {
          AbortIsFinal(maxTurns, events[..i + 1], events[i + 1..]);
          return Abort(ErrorBreaker(errMsg));
        }
        continue;
      }
      if evt.choice.Some? {
        consecutiveErrors := 0;
        if evt.choice.value != "" {
          result := evt.choice.value;
        }
        if evt.verdict.Some? {
          AbortIsFinal(maxTurns, events[..i + 1], events[i + 1..]);
          return Abort(SupervisorAbort(evt.verdict.value));
        }
      }
    }
    assert events[..|events|] == events;
    return Continue(Loop(result, turnCount, consecutiveErrors));
  }

  // ---------------------------------------------------------------------
  // Which streams reach their end
  // ---------------------------------------------------------------------

  function Responses(events: seq<Event>): seq<Event> {
    if events == [] then [] else
      var init, last := Responses(events[..|events| - 1]), events[|events| - 1];
      if last.Skipped? then init else init + [last]
  }

  predicate IsError(e: Event) { e.Response? && e.error.Some? }

  /** A response that carries choices and no error: it clears the error count. */
  predicate IsAnswer(e: Event) { e.Response? && e.error.None? && e.choice.Some? }

  predicate IsText(e: Event) { IsAnswer(e) && e.choice.value != "" }

  /** Three errors and no answer anywhere between the first and the last of them. */
  ghost predicate ThreeErrors(rs: seq<Event>) {
    exists i, j, k | 0 <= i < j < k < |rs| ::
      IsError(rs[i]) && IsError(rs[j]) && IsError(rs[k]) && NoAnswerIn(rs, i, k)
  }

  ghost predicate NoAnswerIn(rs: seq<Event>, i: int, k: int)
    requires 0 <= i && k <= |rs|
  {
    forall m | i <= m < k :: !IsAnswer(rs[m])
  }

  predicate Benign(e: Event) {
    && (IsError(e) ==> !IsCallLimit(e.error.value) && !IsTokenOverflow(e.error.value))
    && (IsAnswer(e) ==> e.verdict.None?)
  }

  ghost predicate LastText(rs: seq<Event>, result: string) {
    || (exists k | 0 <= k < |rs| ::
          IsText(rs[k]) && result == rs[k].choice.value && forall m | k < m < |rs| :: !IsText(rs[m]))
    || (result == "" && forall m | 0 <= m < |rs| :: !IsText(rs[m]))
  }

  /** Everything about a stream that lets a run reach its end. */
  ghost predicate Clean(maxTurns: int, rs: seq<Event>) {
    && (|rs| < maxTurns || rs == [])
    && (forall k | 0 <= k < |rs| :: Benign(rs[k]))
    && !ThreeErrors(rs)
  }

  /** `n` errors since the last answer, witnessed at increasing positions. */
  ghost predicate ErrorsSinceAnswer(rs: seq<Event>, n: int) {
    && (n >= 1 <==> exists i | 0 <= i < |rs| :: IsError(rs[i]) && NoAnswerIn(rs, i, |rs|))
    && (n >= 2 <==> TwoPending(rs))
  }

  ghost predicate Tracks(rs: seq<Event>, l: Loop) {
    && l.turns == |rs| && 0 <= l.errors <= 2
    && ErrorsSinceAnswer(rs, l.errors)
    && LastText(rs, l.result)
  }

  lemma TripleExtends(rs: seq<Event>, e: Event)
    requires ThreeErrors(rs)
    ensures ThreeErrors(rs + [e])
  {
    var more := rs + [e];
    var i, j, k :| 0 <= i < j < k < |rs| && IsError(rs[i]) && IsError(rs[j]) && IsError(rs[k]) && NoAnswerIn(rs, i, k);
    assert NoAnswerIn(more, i, k) && IsError(more[i]) && IsError(more[j]) && IsError(more[k]);
  }

  lemma CleanPrefix(maxTurns: int, rs: seq<Event>, e: Event)
    requires Clean(maxTurns, rs + [e])
    ensures Clean(maxTurns, rs)
  {
    forall k | 0 <= k < |rs| ensures Benign(rs[k]) { assert (rs + [e])[k] == rs[k]; }
    if ThreeErrors(rs) { TripleExtends(rs, e); }
  }

  ghost predicate TwoPending(rs: seq<Event>) {
    exists i, j | 0 <= i < j < |rs| :: IsError(rs[i]) && IsError(rs[j]) && NoAnswerIn(rs, i, |rs|)
  }

  lemma TripleEnds(rs: seq<Event>, e: Event)
    ensures ThreeErrors(rs + [e]) <==> ThreeErrors(rs) || (TwoPending(rs) && IsError(e))
  {
    var more := rs + [e];
    if ThreeErrors(rs) {
      TripleExtends(rs, e);
    }
    if TwoPending(rs) && IsError(e) {
      var i, j :| 0 <= i < j < |rs| && IsError(rs[i]) && IsError(rs[j]) && NoAnswerIn(rs, i, |rs|);
      assert NoAnswerIn(more, i, |rs|) && IsError(more[i]) && IsError(more[j]) && IsError(more[|rs|]);
    }
    if i, j, k :| 0 <= i < j < k < |more| && IsError(more[i]) && IsError(more[j]) && IsError(more[k])
                  && NoAnswerIn(more, i, k)
    {
      assert NoAnswerIn(rs, i, k) by { forall m | i <= m < k ensures !IsAnswer(rs[m]) { assert more[m] == rs[m]; } }
      assert IsError(rs[i]) && IsError(rs[j]);
    }
  }

  lemma ErrorsExtend(rs: seq<Event>, n: int, e: Event)
    requires ErrorsSinceAnswer(rs, n) && 0 <= n <= 2 && e.Response? && (IsError(e) ==> n < 2)
    ensures ErrorsSinceAnswer(rs + [e], if IsError(e) then n + 1 else if IsAnswer(e) then 0 else n)
  {
    var more, last := rs + [e], |rs|;
    assert more[last] == e;
    if IsAnswer(e) {
      forall i | 0 <= i < |more| ensures !NoAnswerIn(more, i, |more|) { assert IsAnswer(more[last]); }
    } else {
      forall i | 0 <= i <= |rs| ensures NoAnswerIn(more, i, |more|) <==> NoAnswerIn(rs, i, |rs|) {
        assert forall m | i <= m < |rs| :: more[m] == rs[m];
      }
      assert forall i | 0 <= i < |rs| :: more[i] == rs[i];
      if IsError(e) {
        assert NoAnswerIn(rs, last, |rs|) && NoAnswerIn(more, last, |more|) && IsError(more[last]);
        if n >= 1 {
          var i :| 0 <= i < |rs| && IsError(rs[i]) && NoAnswerIn(rs, i, |rs|);
          assert IsError(more[i]) && NoAnswerIn(more, i, |more|);
        }
        if i, j :| 0 <= i < j < |more| && IsError(more[i]) && IsError(more[j]) && NoAnswerIn(more, i, |more|) {
          assert IsError(rs[i]) && NoAnswerIn(rs, i, |rs|);
        }
      } else {
        assert n >= 1 ==> exists i | 0 <= i < |more| :: IsError(more[i]) && NoAnswerIn(more, i, |more|) by {
          if n >= 1 {
            var i :| 0 <= i < |rs| && IsError(rs[i]) && NoAnswerIn(rs, i, |rs|);
            assert IsError(more[i]) && NoAnswerIn(more, i, |more|);
          }
        }
        assert n >= 2 ==> exists i, j | 0 <= i < j < |more| ::
            IsError(more[i]) && IsError(more[j]) && NoAnswerIn(more, i, |more|)
        by {
          if n >= 2 {
            var i, j :| 0 <= i < j < |rs| && IsError(rs[i]) && IsError(rs[j]) && NoAnswerIn(rs, i, |rs|);
            assert IsError(more[i]) && IsError(more[j]) && NoAnswerIn(more, i, |more|);
          }
        }
      }
    }
  }

  lemma TextExtend(rs: seq<Event>, result: string, e: Event)
    requires LastText(rs, result)
    ensures LastText(rs + [e], if IsText(e) then e.choice.value else result)
  {
    var more := rs + [e];
    if IsText(e) {
      assert IsText(more[|rs|]);
    } else if k :| 0 <= k < |rs| && IsText(rs[k]) && result == rs[k].choice.value
                   && forall m | k < m < |rs| :: !IsText(rs[m])
    {
      assert IsText(more[k]) && forall m | k < m < |more| :: !IsText(more[m]);
    }
  }

  /**
   The loop reaches the end of its stream exactly when the responses number
   fewer than the turn limit, none is a call-limit or overflow error, no answer
   was vetoed, and no three errors came without an answer between them. It then
   holds the last non-empty text of the stream.
   */
  lemma {:induction false} ReachesEndIffClean(maxTurns: int, events: seq<Event>)
    ensures Fold(maxTurns, events).Continue? <==> Clean(maxTurns, Responses(events))
    ensures Fold(maxTurns, events).Continue? ==> Tracks(Responses(events), Fold(maxTurns, events).loop)
    decreases |events|
  {
    if events != [] {
      var init, e := events[..|events| - 1], events[|events| - 1];
      var rs := Responses(init);
      ReachesEndIffClean(maxTurns, init);
      if e.Response? {
        if Fold(maxTurns, init).Abort? {
          if Clean(maxTurns, rs + [e]) { CleanPrefix(maxTurns, rs, e); }
        } else {
          OneMoreResponse(maxTurns, rs, Fold(maxTurns, init).loop, e);
        }
      }
    }
  }

  lemma OneMoreResponse(maxTurns: int, rs: seq<Event>, l: Loop, e: Event)
    requires Clean(maxTurns, rs) && Tracks(rs, l) && e.Response?
    ensures Handle(maxTurns, l, e).Continue? <==> Clean(maxTurns, rs + [e])
    ensures Handle(maxTurns, l, e).Continue? ==> Tracks(rs + [e], Handle(maxTurns, l, e).loop)
  {
    var more := rs + [e];
    TripleEnds(rs, e);
    assert (forall k | 0 <= k < |more| :: Benign(more[k])) <==> Benign(e) by {
      assert more[|rs|] == e;
      assert forall k | 0 <= k < |rs| :: more[k] == rs[k];
    }
    if Handle(maxTurns, l, e).Continue? {
      ErrorsExtend(rs, l.errors, e);
      TextExtend(rs, l.result, e);
    }
  }

  // ---------------------------------------------------------------------
  // Why the others do not
  // ---------------------------------------------------------------------

  /** The phrase stands somewhere in the message. */
  ghost predicate Within(message: string, phrase: string) {
    exists before, after :: message == before + phrase + after
  }

  lemma ContainsIff(message: string, phrase: string)
    ensures Contains(message, phrase) <==> Within(message, phrase)
  {
    if i :| 0 <= i <= |message| && OccursAt(message, phrase, i) {
      assert message == message[..i] + phrase + message[i + |phrase|..];
    }
    if before, after :| message == before + phrase + after {
      assert message[|before|..|before| + |phrase|] == phrase;
      assert OccursAt(message, phrase, |before|);
    }
  }

  ghost predicate TellsOfCallLimit(message: string) {
    Within(message, "max LLM calls") || Within(message, "max tool iterations")
  }

  ghost predicate TellsOfOverflow(message: string) {
    var m := Lower(message);
    || Within(m, "token count exceeds")
    || Within(m, "maximum number of tokens")
    || Within(m, "context_length_exceeded")
    || Within(m, "too many tokens")
  }

  lemma MessagesAreToldApart(message: string)
    ensures IsCallLimit(message) <==> TellsOfCallLimit(message)
    ensures IsTokenOverflow(message) <==> TellsOfOverflow(message)
  {
    ContainsIff(message, "max LLM calls");
    ContainsIff(message, "max tool iterations");
    var m := Lower(message);
    ContainsIff(m, "token count exceeds");
    ContainsIff(m, "maximum number of tokens");
    ContainsIff(m, "context_length_exceeded");
    ContainsIff(m, "too many tokens");
  }

  /** What entitles the loop to give this reason for a response, after a clean stream of responses. */
  ghost predicate Grounds(maxTurns: int, before: seq<Event>, e: Event, reason: Reason) {
    && e.Response?
    && (reason.TurnLimit? <==> |before| + 1 >= maxTurns)
    && match reason
       case TurnLimit(turns) => turns == maxTurns
       case CallLimit(m) => e.error == Some(m) && TellsOfCallLimit(m)
       case Overflow(m) => e.error == Some(m) && TellsOfOverflow(m) && !TellsOfCallLimit(m)
       case ErrorBreaker(m) =>
         e.error == Some(m) && !TellsOfOverflow(m) && !TellsOfCallLimit(m) && TwoPending(before)
       case SupervisorAbort(m) => e.error == None && e.choice != None && e.verdict == Some(m)
       case StartFailed(_) => false
       case TimedOut(_) => false
       case CancelledByUser => false
  }

  lemma HandleAbortsIff(maxTurns: int, before: seq<Event>, l: Loop, e: Event, reason: Reason)
    requires Tracks(before, l) && e.Response?
    ensures Handle(maxTurns, l, e) == Abort(reason) <==> Grounds(maxTurns, before, e, reason)
  {
    if e.error.Some? {
      MessagesAreToldApart(e.error.value);
    }
  }

  /** The loop stops at position p for this reason. */
  ghost predicate StopsAt(maxTurns: int, events: seq<Event>, p: nat, reason: Reason) {
    && p < |events|
    && Clean(maxTurns, Responses(events[..p]))
    && Grounds(maxTurns, Responses(events[..p]), events[p], reason)
  }

  lemma StopsThere(maxTurns: int, events: seq<Event>, p: nat, reason: Reason)
    requires StopsAt(maxTurns, events, p, reason)
    ensures Fold(maxTurns, events) == Abort(reason)
  {
    ReachesEndIffClean(maxTurns, events[..p]);
    HandleAbortsIff(maxTurns, Responses(events[..p]), Fold(maxTurns, events[..p]).loop, events[p], reason);
    FoldOneMore(maxTurns, events[..p], events[p]);
    AbortIsFinal(maxTurns, events[..p] + [events[p]], events[p + 1..]);
    assert events == events[..p] + [events[p]] + events[p + 1..];
  }

  lemma {:induction false} StopFound(maxTurns: int, events: seq<Event>, reason: Reason) returns (p: nat)
    requires Fold(maxTurns, events) == Abort(reason)
    ensures StopsAt(maxTurns, events, p, reason)
    decreases |events|
  {
    var n := |events| - 1;
    ReachesEndIffClean(maxTurns, events[..n]);
    if Fold(maxTurns, events[..n]).Abort? {
      p := StopFound(maxTurns, events[..n], reason);
      assert events[..n][..p] == events[..p];
    } else {
      p := n;
      HandleAbortsIff(maxTurns, Responses(events[..n]), Fold(maxTurns, events[..n]).loop, events[n], reason);
    }
  }

  /**
   A run is ended early for a reason exactly when some response, behind a stream
   that is clean so far, is grounds for it: the turn limit comes before everything
   else, a call limit before an overflow, and both before the third error without
   an answer; a supervisor is asked about answers only.
   */
  lemma {:induction false} AbortReasonIff(maxTurns: int, events: seq<Event>, reason: Reason)
    ensures Fold(maxTurns, events) == Abort(reason) <==> exists p: nat :: StopsAt(maxTurns, events, p, reason)
  {
    if Fold(maxTurns, events) == Abort(reason) {
      var p := StopFound(maxTurns, events, reason);
    }
    if p: nat :| StopsAt(maxTurns, events, p, reason) {
      StopsThere(maxTurns, events, p, reason);
    }
  }
}
