/** Conversation histories per session, trimmed to a number of messages behind a pinned system prompt. */
module SessionStore {
  import opened Options

  datatype ChatMessage = ChatMessage(role: string, content: string)

  const SYSTEM := "system"

  type Positive = n: nat | n >= 1 witness 1

  /** At most maxMsgs of a list: its newest, behind its head if that is pinned. */
  function Trimmed<T>(maxMsgs: Positive, list: seq<T>, pinHead: bool): seq<T> {
    if |list| <= maxMsgs then list
    else if pinHead then [list[0]] + list[|list| - (maxMsgs - 1)..]
    else list[|list| - maxMsgs..]
  }

  predicate SystemHead(msgs: seq<ChatMessage>) { msgs != [] && msgs[0].role == SYSTEM }

  function Trim(maxMsgs: Positive, msgs: seq<ChatMessage>): seq<ChatMessage> {
    Trimmed(maxMsgs, msgs, SystemHead(msgs))
  }

  /** The history after adding the messages one at a time, each addition followed by a trim. */
  function History(maxMsgs: Positive, added: seq<ChatMessage>): seq<ChatMessage> {
    if added == [] then [] else Trim(maxMsgs, History(maxMsgs, added[..|added| - 1]) + [added[|added| - 1]])
  }

  /** p is the position of the first system message, or the length if there is none. */
  ghost predicate IsFirstSystem(added: seq<ChatMessage>, p: nat) {
    && p <= |added| && (p < |added| ==> added[p].role == SYSTEM)
    && forall i | 0 <= i < p :: added[i].role != SYSTEM
  }

  function FirstSystem(added: seq<ChatMessage>): (p: nat)
    ensures IsFirstSystem(added, p)
  {
    if added == [] then 0
    else if added[0].role == SYSTEM then 0
    else 1 + FirstSystem(added[1..])
  }

  /** All of it while it fits; then the one at p once it has reached the head, and the newest of the rest. */
  function WindowFrom<T>(maxMsgs: Positive, list: seq<T>, p: nat): seq<T> {
    var k := |list|;
    if k <= maxMsgs then list
    else if p + maxMsgs < k then [list[p]] + list[k - (maxMsgs - 1)..]
    else list[k - maxMsgs..]
  }

  function Window(maxMsgs: Positive, added: seq<ChatMessage>): seq<ChatMessage> {
    WindowFrom(maxMsgs, added, FirstSystem(added))
  }

  lemma FirstSystemOneMore(added: seq<ChatMessage>, msg: ChatMessage, p: nat, p': nat)
    requires IsFirstSystem(added, p) && IsFirstSystem(added + [msg], p')
    ensures p' == if p < |added| || msg.role == SYSTEM then p else p + 1
  {
    var all := added + [msg];
    assert all[|added|] == msg && forall i | 0 <= i < |added| :: all[i] == added[i];
  }

  /** Trimming a list one too long. */
  lemma TrimOneOver<T>(maxMsgs: Positive, list: seq<T>, pinHead: bool)
    requires |list| == maxMsgs + 1
    ensures Trimmed(maxMsgs, list, pinHead) == if pinHead then [list[0]] + list[2..] else list[1..]
  {}

  /** A window, one more, trimmed: the head is pinned as soon as it is the first system message. */
  lemma WindowFromOneMore<T>(maxMsgs: Positive, list: seq<T>, x: T, p: nat, p': nat, pinHead: bool)
    requires p <= |list| && (if p < |list| then p' == p else p <= p' <= p + 1)
    requires |list| >= maxMsgs ==> (pinHead <==> p' + maxMsgs <= |list|)
    ensures Trimmed(maxMsgs, WindowFrom(maxMsgs, list, p) + [x], pinHead) == WindowFrom(maxMsgs, list + [x], p')
  {
    if |list| > maxMsgs && p + maxMsgs < |list| {
      TrimPinned(maxMsgs, list, list[p], x);
    } else if |list| >= maxMsgs {
      TrimMoving(maxMsgs, list, x, pinHead);
    }
  }

  lemma TrimPinned<T>(maxMsgs: Positive, list: seq<T>, head: T, x: T)
    requires |list| > maxMsgs
    ensures Trimmed(maxMsgs, [head] + list[|list| - (maxMsgs - 1)..] + [x], true)
            == [head] + (list + [x])[|list| + 1 - (maxMsgs - 1)..]
  {
    var rest := list[|list| - (maxMsgs - 1)..];
    TrimOneOver(maxMsgs, [head] + rest + [x], true);
    AppendSuffix(list, x, |list| - (maxMsgs - 1), 1);
    assert ([head] + rest + [x])[2..] == (rest + [x])[1..];
  }

  lemma TrimMoving<T>(maxMsgs: Positive, list: seq<T>, x: T, pinHead: bool)
    requires |list| >= maxMsgs
    ensures var from, all := |list| - maxMsgs, list + [x];
            Trimmed(maxMsgs, list[from..] + [x], pinHead)
            == if pinHead then [all[from]] + all[from + 2..] else all[from + 1..]
  {
    var from := |list| - maxMsgs;
    TrimOneOver(maxMsgs, list[from..] + [x], pinHead);
    AppendSuffix(list, x, from, 1);
    AppendSuffix(list, x, from, 2);
    assert (list[from..] + [x])[0] == (list + [x])[from];
  }

  /** A suffix, one more, then without its oldest d. */
  lemma AppendSuffix<T>(list: seq<T>, x: T, from: nat, d: nat)
    requires from <= |list| && d <= |list| - from + 1
    ensures (list[from..] + [x])[d..] == (list + [x])[from + d..]
  {}

  /** The head of a full window is a system message exactly when the first one has come that far. */
  lemma HeadIsPinnedIff(maxMsgs: Positive, added: seq<ChatMessage>, msg: ChatMessage)
    requires |added| >= maxMsgs
    ensures SystemHead(Window(maxMsgs, added) + [msg]) <==> FirstSystem(added + [msg]) + maxMsgs <= |added|
  {
    var p, from := FirstSystem(added), |added| - maxMsgs;
    FirstSystemOneMore(added, msg, p, FirstSystem(added + [msg]));
    var head := if |added| > maxMsgs && p + maxMsgs < |added| then p else from;
    assert (Window(maxMsgs, added) + [msg])[0] == added[head];
  }

  lemma WindowOneMore(maxMsgs: Positive, added: seq<ChatMessage>, msg: ChatMessage)
    ensures Trim(maxMsgs, Window(maxMsgs, added) + [msg]) == Window(maxMsgs, added + [msg])
  {
    var p, p' := FirstSystem(added), FirstSystem(added + [msg]);
    FirstSystemOneMore(added, msg, p, p');
    if |added| >= maxMsgs {
      HeadIsPinnedIff(maxMsgs, added, msg);
    }
    WindowFromOneMore(maxMsgs, added, msg, p, p', SystemHead(Window(maxMsgs, added) + [msg]));
  }

  /** The history in closed form: a window whose head is pinned from the moment a system message reaches it. */
  lemma {:induction false} HistoryIsAWindow(maxMsgs: Positive, added: seq<ChatMessage>)
    ensures History(maxMsgs, added) == Window(maxMsgs, added)
    decreases |added|
  {
    if added != [] {
      var before, last := added[..|added| - 1], added[|added| - 1];
      HistoryIsAWindow(maxMsgs, before);
      WindowOneMore(maxMsgs, before, last);
      assert before + [last] == added;
    }
  }

  /** A session that starts with a system message keeps it, followed by exactly the newest of the others. */
  lemma {:induction false} SystemPromptIsPinned(maxMsgs: Positive, added: seq<ChatMessage>)
    requires added != [] && added[0].role == "system"
    ensures var others := added[1..];
            var kept := if |others| <= maxMsgs - 1 then |others| else maxMsgs - 1;
            History(maxMsgs, added) == [added[0]] + others[|others| - kept..]
  {
    HistoryIsAWindow(maxMsgs, added);
    assert FirstSystem(added) == 0;
    var others := added[1..];
    if |added| <= maxMsgs {
      assert others[0..] == others && [added[0]] + others == added;
    } else {
      assert others[|others| - (maxMsgs - 1)..] == added[|added| - (maxMsgs - 1)..];
    }
  }

  /** Which of the added messages the entries of the history are: the same additions and trims, on positions. */
  function Origins(maxMsgs: Positive, added: seq<ChatMessage>): seq<nat> {
    if added == [] then [] else
      var before := added[..|added| - 1];
      Trimmed(maxMsgs, Origins(maxMsgs, before) + [|before|],
              SystemHead(History(maxMsgs, before) + [added[|before|]]))
  }

  function UpTo(k: nat): seq<nat> { seq(k, i => i) }

  lemma {:induction false} OriginsAreAWindow(maxMsgs: Positive, added: seq<ChatMessage>)
    ensures Origins(maxMsgs, added) == WindowFrom(maxMsgs, UpTo(|added|), FirstSystem(added))
    decreases |added|
  {
    if added != [] {
      var before, last := added[..|added| - 1], added[|added| - 1];
      var p, p' := FirstSystem(before), FirstSystem(added);
      assert before + [last] == added && UpTo(|before|) + [|before|] == UpTo(|added|);
      OriginsAreAWindow(maxMsgs, before);
      HistoryIsAWindow(maxMsgs, before);
      FirstSystemOneMore(before, last, p, p');
      if |before| >= maxMsgs {
        HeadIsPinnedIff(maxMsgs, before, last);
      }
      WindowFromOneMore(maxMsgs, UpTo(|before|), |before|, p, p', SystemHead(Window(maxMsgs, before) + [last]));
    } else {
      assert UpTo(0) == [];
    }
  }

  /** A window of positions is in order and picks out the window of the list. */
  ghost predicate PicksOut<T>(list: seq<T>, at: seq<nat>, picked: seq<T>) {
    && |at| == |picked|
    && (forall i | 0 <= i < |at| :: at[i] < |list| && picked[i] == list[at[i]])
    && (forall i, j | 0 <= i < j < |at| :: at[i] < at[j])
  }

  lemma SuffixPicks<T>(list: seq<T>, from: nat)
    requires from <= |list|
    ensures PicksOut(list, UpTo(|list|)[from..], list[from..])
  {}

  lemma PinnedPicks<T>(list: seq<T>, p: nat, from: nat)
    requires p < from <= |list|
    ensures PicksOut(list, [p] + UpTo(|list|)[from..], [list[p]] + list[from..])
  {
    var rest, kept := UpTo(|list|)[from..], list[from..];
    SuffixPicks(list, from);
    forall i | 0 <= i < |rest| + 1
      ensures ([p] + rest)[i] < |list| && ([list[p]] + kept)[i] == list[([p] + rest)[i]]
    {
      if i > 0 {
        assert ([p] + rest)[i] == rest[i - 1] && ([list[p]] + kept)[i] == kept[i - 1];
      }
    }
    assert forall i | 0 <= i < |rest| :: rest[i] == from + i;
  }

  lemma WindowPicks<T>(maxMsgs: Positive, list: seq<T>, p: nat)
    ensures PicksOut(list, WindowFrom(maxMsgs, UpTo(|list|), p), WindowFrom(maxMsgs, list, p))
  {
    var k, at, picked := |list|, WindowFrom(maxMsgs, UpTo(|list|), p), WindowFrom(maxMsgs, list, p);
    if k <= maxMsgs {
      SuffixPicks(list, 0);
      assert picked == list[0..] && at == UpTo(k)[0..];
    } else if p + maxMsgs < k {
      var from := k - (maxMsgs - 1);
      assert UpTo(k)[p] == p;
      assert picked == [list[p]] + list[from..] && at == [p] + UpTo(k)[from..];
      PinnedPicks(list, p, from);
    } else {
      var from := k - maxMsgs;
      assert picked == list[from..] && at == UpTo(k)[from..];
      SuffixPicks(list, from);
    }
  }

  /** The history is the added messages at its origins, in their order. */
  lemma {:induction false} OriginsGiveHistory(maxMsgs: Positive, added: seq<ChatMessage>)
    ensures PicksOut(added, Origins(maxMsgs, added), History(maxMsgs, added))
  {
    HistoryIsAWindow(maxMsgs, added);
    OriginsAreAWindow(maxMsgs, added);
    WindowPicks(maxMsgs, added, FirstSystem(added));
  }

  /**
   Once maxMsgs messages have followed a message it is kept exactly when it is the
   first system message, wherever that came: it need not have opened the session.
   */
  lemma PinnedIff(maxMsgs: Positive, added: seq<ChatMessage>, p: nat)
    requires p + maxMsgs < |added|
    ensures p in Origins(maxMsgs, added) <==> p == FirstSystem(added)
  {
    OriginsAreAWindow(maxMsgs, added);
    var k, first := |added|, FirstSystem(added);
    var pinned := if first + maxMsgs < k then [first] else [];
    var rest := UpTo(k)[k - (maxMsgs - |pinned|)..];
    assert WindowFrom(maxMsgs, UpTo(k), first) == pinned + rest;
    forall i | 0 <= i < |rest| ensures rest[i] > p {}
    assert p in pinned + rest <==> p in pinned;
  }

  // ---------------------------------------------------------------------
  // Many sessions
  // ---------------------------------------------------------------------

  datatype Call = Add(sessionID: string, msg: ChatMessage) | Clear(sessionID: string)

  function Next(maxMsgs: Positive, sessions: map<string, seq<ChatMessage>>, call: Call): map<string, seq<ChatMessage>> {
    match call
    case Add(id, msg) => sessions[id := Trim(maxMsgs, (if id in sessions then sessions[id] else []) + [msg])]
    case Clear(id) => sessions - {id}
  }

  function Play(maxMsgs: Positive, calls: seq<Call>): map<string, seq<ChatMessage>> {
    if calls == [] then map[] else Next(maxMsgs, Play(maxMsgs, calls[..|calls| - 1]), calls[|calls| - 1])
  }

  lemma PlayOneMore(maxMsgs: Positive, calls: seq<Call>, call: Call)
    ensures Play(maxMsgs, calls + [call]) == Next(maxMsgs, Play(maxMsgs, calls), call)
  {
    assert (calls + [call])[..|calls|] == calls;
  }

  /** The messages added to a session since it was last cleared. */
  function AddedTo(calls: seq<Call>, sessionID: string): seq<ChatMessage> {
    if calls == [] then [] else
      var before, call := AddedTo(calls[..|calls| - 1], sessionID), calls[|calls| - 1];
      if call.sessionID != sessionID then before
      else if call.Add? then before + [call.msg] else []
  }

  /** A session holds the window of what was added to it since its last clearing, whatever other sessions did. */
  lemma {:induction false} SessionsAreIndependent(maxMsgs: Positive, calls: seq<Call>, sessionID: string)
    ensures var sessions, added := Play(maxMsgs, calls), AddedTo(calls, sessionID);
            && (sessionID in sessions <==> added != [])
            && (sessionID in sessions ==> sessions[sessionID] == Window(maxMsgs, added))
    decreases |calls|
  {
    if calls != [] {
      var before, call := calls[..|calls| - 1], calls[|calls| - 1];
      SessionsAreIndependent(maxMsgs, before, sessionID);
      if call.Add? && call.sessionID == sessionID {
        WindowOneMore(maxMsgs, AddedTo(before, sessionID), call.msg);
      }
    }
  }

  class LocalSessionStore {
    var sessions: map<string, seq<ChatMessage>>
    const maxMsgs: Positive
    ghost var calls: seq<Call>

    /** The sessions are what the calls so far have made them. */
    ghost predicate Valid()
      reads this
    {
      sessions == Play(maxMsgs, calls)
    }

    constructor (maxMsgs: int)
      ensures Valid() && calls == []
      ensures this.maxMsgs as int == if maxMsgs <= 0 then 20 else maxMsgs
    {
      sessions, calls := map[], [];
      this.maxMsgs := if maxMsgs <= 0 then 20 else maxMsgs;
    }

    method AddMessage(sessionID: string, msg: ChatMessage)
      requires Valid()
      modifies this`sessions, this`calls
      ensures Valid() && calls == old(calls) + [Call.Add(sessionID, msg)]
      ensures sessions == Next(maxMsgs, old(sessions), Call.Add(sessionID, msg))
    {
      sessions := sessions[sessionID := (if sessionID in sessions then sessions[sessionID] else []) + [msg]];
      var msgs := sessions[sessionID];
      if |msgs| > maxMsgs {
        var trimmed := [];
        if |msgs| > 0 && msgs[0].role == SYSTEM {
          trimmed := trimmed + [msgs[0]];
          trimmed := trimmed + msgs[|msgs| - (maxMsgs - 1)..];
        } else {
          trimmed := msgs[|msgs| - maxMsgs..];
        }
        assert trimmed == Trim(maxMsgs, msgs);
        sessions := sessions[sessionID := trimmed];
      }
      PlayOneMore(maxMsgs, calls, Call.Add(sessionID, msg));
      calls := calls + [Call.Add(sessionID, msg)];
    }

    /** The window of what was added to the session since it was last cleared, or nothing if nothing was. */
    method GetHistory(sessionID: string) returns (result: Option<seq<ChatMessage>>)
      requires Valid()
      ensures var added := AddedTo(calls, sessionID);
              result == if added == [] then None else Some(Window(maxMsgs, added))
    {
      SessionsAreIndependent(maxMsgs, calls, sessionID);
      if sessionID in sessions {
        return Some(sessions[sessionID]);
      }
      return None;
    }

    method ClearSession(sessionID: string)
      requires Valid()
      modifies this`sessions, this`calls
      ensures Valid() && calls == old(calls) + [Call.Clear(sessionID)]
      ensures sessions == Next(maxMsgs, old(sessions), Call.Clear(sessionID))
    {
      sessions := sessions - {sessionID};
      PlayOneMore(maxMsgs, calls, Call.Clear(sessionID));
      calls := calls + [Call.Clear(sessionID)];
    }
  }
}
