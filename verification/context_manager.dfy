/**
 Context pruning: truncation of tool outputs, consolidation of the middle of a
 conversation and emergency pruning, composed at three thresholds. Text is a
 sequence of bytes, one char each. The progress summary of an emergency is some
 string the caller supplies.
 */
module ContextPruning {
  import opened Options

  datatype Role = System | User | Assistant | Tool
  datatype ToolCall = ToolCall(name: string, arguments: string)
  datatype Part = Part(text: Option<string>, image: bool)
  datatype Message = Message(role: Role, content: string, toolCalls: seq<ToolCall>, parts: seq<Part>)

  // ---------------------------------------------------------------------
  // Token estimates
  // ---------------------------------------------------------------------

  function EstimateTokens(content: string): nat { |content| / 3 }

  function CallTokens(calls: seq<ToolCall>): nat {
    if calls == [] then 0 else
      var c := calls[|calls| - 1];
      CallTokens(calls[..|calls| - 1]) + 10 + EstimateTokens(c.name) + EstimateTokens(c.arguments)
  }

  function PartTokens(parts: seq<Part>): nat {
    if parts == [] then 0 else
      var p := parts[|parts| - 1];
      PartTokens(parts[..|parts| - 1])
      + (if p.text.Some? then EstimateTokens(p.text.value) else 0)
      + (if p.image then 500 else 0)
  }

  function MessageTokens(m: Message): nat {
    4 + EstimateTokens(m.content) + CallTokens(m.toolCalls) + PartTokens(m.parts)
  }

  function Tokens(messages: seq<Message>): nat {
    if messages == [] then 0 else Tokens(messages[..|messages| - 1]) + MessageTokens(messages[|messages| - 1])
  }

  lemma {:induction false} TokensConcat(a: seq<Message>, b: seq<Message>)
    ensures Tokens(a + b) == Tokens(a) + Tokens(b)
    decreases |b|
  {
    if b == [] {
      assert a + b == a;
    } else {
      assert (a + b)[..|a + b| - 1] == a + b[..|b| - 1];
      TokensConcat(a, b[..|b| - 1]);
    }
  }

  lemma CallWeight(calls: seq<ToolCall>, call: ToolCall)
    ensures CallTokens(calls + [call]) == CallTokens(calls) + 10 + |call.name| / 3 + |call.arguments| / 3
  {
    assert (calls + [call])[..|calls|] == calls;
  }

  lemma PartWeight(parts: seq<Part>, part: Part)
    ensures PartTokens(parts + [part]) ==
            PartTokens(parts) + (if part.text == None then 0 else |part.text.value| / 3)
            + (if part.image then 500 else 0)
  {
    assert (parts + [part])[..|parts|] == parts;
  }

  /**
   What everything weighs: a message 4, three bytes of text 1 wherever they stand, a
   call 10 besides its name and its arguments, an image 500.
   */
  lemma TokenWeights(m: Message, call: ToolCall, part: Part, content: string)
    ensures MessageTokens(Message(m.role, content, [], [])) == 4 + |content| / 3
    ensures MessageTokens(m.(toolCalls := m.toolCalls + [call])) ==
            MessageTokens(m) + 10 + |call.name| / 3 + |call.arguments| / 3
    ensures MessageTokens(m.(parts := m.parts + [part])) ==
            MessageTokens(m) + (if part.text == None then 0 else |part.text.value| / 3)
            + (if part.image then 500 else 0)
  {
    CallWeight(m.toolCalls, call);
    PartWeight(m.parts, part);
  }

  method EstimateMessageTokens(msg: Message) returns (tokens: nat)
    ensures tokens == MessageTokens(msg)
  {
    tokens := 4 + EstimateTokens(msg.content);
    for i := 0 to |msg.toolCalls|
      invariant tokens == 4 + EstimateTokens(msg.content) + CallTokens(msg.toolCalls[..i])
    {
      assert msg.toolCalls[..i + 1][..i] == msg.toolCalls[..i];
      tokens := tokens + 10;
      tokens := tokens + EstimateTokens(msg.toolCalls[i].name);
      tokens := tokens + EstimateTokens(msg.toolCalls[i].arguments);
    }
    assert msg.toolCalls[..|msg.toolCalls|] == msg.toolCalls;
    for i := 0 to |msg.parts|
      invariant tokens == 4 + EstimateTokens(msg.content) + CallTokens(msg.toolCalls) + PartTokens(msg.parts[..i])
    {
      assert msg.parts[..i + 1][..i] == msg.parts[..i];
      if msg.parts[i].text.Some? {
        tokens := tokens + EstimateTokens(msg.parts[i].text.value);
      }
      if msg.parts[i].image {
        tokens := tokens + 500;
      }
    }
    assert msg.parts[..|msg.parts|] == msg.parts;
  }

  method EstimateMessagesTokens(messages: seq<Message>) returns (total: nat)
    ensures total == Tokens(messages)
  {
    total := 0;
    for i := 0 to |messages|
      invariant total == Tokens(messages[..i])
    {
      assert messages[..i + 1][..i] == messages[..i];
      var tokens := EstimateMessageTokens(messages[i]);
      total := total + tokens;
    }
    assert messages[..|messages|] == messages;
  }

  // ---------------------------------------------------------------------
  // Level 1: tool outputs
  // ---------------------------------------------------------------------

  const TRUNCATION_MARKER := "\n\n[... output truncated due to context limits ...]"

  function TruncateOne(limit: nat, m: Message): Message {
    if m.role.Tool? && |m.content| > limit then m.(content := m.content[..limit] + TRUNCATION_MARKER) else m
  }

  function Truncate(limit: nat, messages: seq<Message>): seq<Message> {
    seq(|messages|, i requires 0 <= i < |messages| => TruncateOne(limit, messages[i]))
  }

  /**
   Truncation touches nothing but the content of tool messages over the limit, is
   idempotent although its output is itself over the limit, and bounds every
   tool message by the limit plus the marker.
   */
  lemma TruncationIsIdempotent(limit: nat, messages: seq<Message>)
    ensures Truncate(limit, Truncate(limit, messages)) == Truncate(limit, messages)
    ensures forall m | m in Truncate(limit, messages) :: m.role.Tool? ==> |m.content| <= limit + |TRUNCATION_MARKER|
    ensures forall i | 0 <= i < |messages| ::
              var m, m' := messages[i], Truncate(limit, messages)[i];
              && m' == m.(content := m'.content)
              && (m' != m ==> m.role.Tool? && |m.content| > limit && m.content[..limit] <= m'.content)
  {
    forall i | 0 <= i < |messages|
      ensures TruncateOne(limit, TruncateOne(limit, messages[i])) == TruncateOne(limit, messages[i])
    {
      var m := messages[i];
      if m.role.Tool? && |m.content| > limit {
        assert (m.content[..limit] + TRUNCATION_MARKER)[..limit] == m.content[..limit];
      }
    }
  }

  /** No tool message is longer than this. */
  predicate ToolsWithin(bound: nat, messages: seq<Message>) {
    forall i | 0 <= i < |messages| :: messages[i].role.Tool? ==> |messages[i].content| <= bound
  }

  /** Truncation goes message by message and cuts exactly the tool messages over the limit. */
  lemma TruncationInPlace(limit: nat, messages: seq<Message>)
    ensures var out := Truncate(limit, messages);
            && |out| == |messages|
            && forall i | 0 <= i < |messages| ::
                 out[i] == if messages[i].role.Tool? && |messages[i].content| > limit
                           then messages[i].(content := messages[i].content[..limit] + TRUNCATION_MARKER)
                           else messages[i]
    ensures ToolsWithin(limit + |TRUNCATION_MARKER|, Truncate(limit, messages))
  {}

  /** Truncation makes a tool message shorter exactly when it is longer than the limit and the marker together. */
  lemma TruncationShrinksIff(limit: nat, m: Message)
    requires m.role.Tool?
    ensures |TruncateOne(limit, m).content| < |m.content| <==> |m.content| > limit + |TRUNCATION_MARKER|
    ensures |TruncateOne(limit, m).content| > |m.content| <==> limit < |m.content| < limit + |TRUNCATION_MARKER|
  {}

  // ---------------------------------------------------------------------
  // Level 2: consolidation
  // ---------------------------------------------------------------------

  function NonSystem(messages: seq<Message>): seq<Message> {
    if messages == [] then [] else
      var last := messages[|messages| - 1];
      NonSystem(messages[..|messages| - 1]) + (if last.role.System? then [] else [last])
  }

  function SystemOnes(messages: seq<Message>): seq<Message> {
    if messages == [] then [] else
      var last := messages[|messages| - 1];
      SystemOnes(messages[..|messages| - 1]) + (if last.role.System? then [last] else [])
  }

  /** The first system message, as a sequence of at most one. */
  function FirstSystem(messages: seq<Message>): seq<Message> {
    var s := SystemOnes(messages);
    if s == [] then [] else [s[0]]
  }

  /** `at` are the positions of all non-system messages, in order, and `ns` are the messages there. */
  ghost predicate Positions(messages: seq<Message>, at: seq<nat>, ns: seq<Message>) {
    && |at| == |ns|
    && (forall k | 0 <= k < |at| :: at[k] < |messages| && ns[k] == messages[at[k]])
    && (forall j, k | 0 <= j < k < |at| :: at[j] < at[k])
    && (forall i | 0 <= i < |messages| :: i in at <==> !messages[i].role.System?)
  }

  lemma PositionsOneMore(messages: seq<Message>, at: seq<nat>, ns: seq<Message>, m: Message)
    requires Positions(messages, at, ns)
    ensures m.role.System? ==> Positions(messages + [m], at, ns)
    ensures !m.role.System? ==> Positions(messages + [m], at + [|messages|], ns + [m])
  {
    assert |messages| !in at;
  }

  /** The non-system messages are those at the positions of all such messages, in order. */
  lemma {:induction false} NonSystemPositions(messages: seq<Message>) returns (at: seq<nat>)
    ensures Positions(messages, at, NonSystem(messages))
    decreases |messages|
  {
    if messages == [] {
      at := [];
    } else {
      var n := |messages| - 1;
      at := NonSystemPositions(messages[..n]);
      PositionsOneMore(messages[..n], at, NonSystem(messages[..n]), messages[n]);
      assert messages == messages[..n] + [messages[n]];
      assert NonSystem(messages[..n]) + [] == NonSystem(messages[..n]);
      if !messages[n].role.System? {
        at := at + [n];
      }
    }
  }

  /** What is kept of the system messages is the one that comes before every other, if there is one. */
  lemma {:induction false} FirstSystemIsFirst(messages: seq<Message>) returns (i: nat)
    ensures i <= |messages| && forall j | 0 <= j < i :: !messages[j].role.System?
    ensures i < |messages| ==> messages[i].role.System?
    ensures FirstSystem(messages) == if i < |messages| then [messages[i]] else []
    decreases |messages|
  {
    i := 0;
    if messages != [] {
      var n := |messages| - 1;
      i := FirstSystemIsFirst(messages[..n]);
      assert forall j | 0 <= j < i :: messages[j] == messages[..n][j];
      if i == n && !messages[n].role.System? {
        i := n + 1;
      }
    }
  }

  function Digit(d: int): char
    requires 0 <= d < 10
  {
    '0' + d as char
  }

  function Decimal(n: nat): string {
    if n < 10 then [Digit(n)] else Decimal(n / 10) + [Digit(n % 10)]
  }

  predicate IsDigit(c: char) { '0' <= c <= '9' }

  function DigitValue(c: char): nat
    requires IsDigit(c)
  {
    c as int - '0' as int
  }

  /** The number a string of digits denotes. */
  function Value(s: string): nat
    requires forall c | c in s :: IsDigit(c)
  {
    if s == [] then 0 else 10 * Value(s[..|s| - 1]) + DigitValue(s[|s| - 1])
  }

  lemma {:induction false} DecimalRoundTrip(n: nat)
    ensures forall c | c in Decimal(n) :: IsDigit(c)
    ensures Value(Decimal(n)) == n
  {
    if n >= 10 {
      DecimalRoundTrip(n / 10);
      assert Decimal(n)[..|Decimal(n)| - 1] == Decimal(n / 10);
    } else {
      assert Decimal(n)[..0] == [];
    }
  }

  /** The leading digits of a string. */
  function LeadingDigits(s: string): (digits: string)
    ensures forall c | c in digits :: IsDigit(c)
  {
    if s != [] && IsDigit(s[0]) then [s[0]] + LeadingDigits(s[1..]) else []
  }

  lemma {:induction false} LeadingDigitsOf(digits: string, rest: string)
    requires forall c | c in digits :: IsDigit(c)
    requires rest == [] || !IsDigit(rest[0])
    ensures LeadingDigits(digits + rest) == digits
    decreases |digits|
  {
    if digits == [] {
      assert digits + rest == rest;
    } else {
      assert (digits + rest)[1..] == digits[1..] + rest;
      LeadingDigitsOf(digits[1..], rest);
    }
  }

  const MARKER_PREFIX := "[Earlier conversation context removed to manage context size. "
  const MARKER_SUFFIX := " messages were consolidated.]\n"
  const REMINDER := "\n## REMINDER - Original Task:\n"
  const CONTINUE := "\n\nContinue working on this task."

  function MarkerContent(task: string, dropped: nat): string {
    MARKER_PREFIX + Decimal(dropped) + MARKER_SUFFIX + (if task == "" then "" else REMINDER + task + CONTINUE)
  }

  function ConsolidationMarker(task: string, dropped: nat): Message {
    Message(User, MarkerContent(task, dropped), [], [])
  }

  /** The number a consolidation marker announces. */
  function AnnouncedCount(content: string): nat
    requires MARKER_PREFIX <= content
  {
    Value(LeadingDigits(content[|MARKER_PREFIX|..]))
  }

  lemma MarkerAnnounces(task: string, dropped: nat)
    ensures var content := ConsolidationMarker(task, dropped).content;
            MARKER_PREFIX <= content && AnnouncedCount(content) == dropped
  {
    var content := ConsolidationMarker(task, dropped).content;
    var rest := MARKER_SUFFIX + (if task == "" then "" else REMINDER + task + CONTINUE);
    assert content == MARKER_PREFIX + (Decimal(dropped) + rest);
    assert content[|MARKER_PREFIX|..] == Decimal(dropped) + rest;
    DecimalRoundTrip(dropped);
    assert rest[0] == ' ';
    LeadingDigitsOf(Decimal(dropped), rest);
  }

  function Consolidate(task: string, messages: seq<Message>): seq<Message> {
    var ns := NonSystem(messages);
    if |messages| <= 4 || |ns| <= 10 then messages
    else FirstSystem(messages) + Ends(ns, ConsolidationMarker(task, |ns| - 10))
  }

  /** The first two and the last eight, with a marker between them. */
  function Ends(ns: seq<Message>, marker: Message): seq<Message>
    requires |ns| > 10
  {
    ns[..2] + [marker] + ns[|ns| - 8..]
  }

  lemma EndsAssemble(first: seq<Message>, ns: seq<Message>, marker: Message)
    requires |ns| > 10
    ensures first + ns[..2] + [marker] + ns[|ns| - 8..] == first + Ends(ns, marker)
  {}

  lemma {:induction false} NonSystemConcat(a: seq<Message>, b: seq<Message>)
    ensures NonSystem(a + b) == NonSystem(a) + NonSystem(b)
    ensures SystemOnes(a + b) == SystemOnes(a) + SystemOnes(b)
    decreases |b|
  {
    if b == [] {
      assert a + b == a;
    } else {
      assert (a + b)[..|a + b| - 1] == a + b[..|b| - 1];
      NonSystemConcat(a, b[..|b| - 1]);
    }
  }

  lemma {:induction false} NonSystemFixed(messages: seq<Message>)
    requires forall m | m in messages :: !m.role.System?
    ensures NonSystem(messages) == messages && SystemOnes(messages) == []
    decreases |messages|
  {
    if messages != [] {
      NonSystemFixed(messages[..|messages| - 1]);
      assert messages == messages[..|messages| - 1] + [messages[|messages| - 1]];
    }
  }

  lemma {:induction false} RolesSplit(messages: seq<Message>)
    ensures forall m | m in NonSystem(messages) :: !m.role.System?
    ensures forall m | m in SystemOnes(messages) :: m.role.System?
    ensures |NonSystem(messages)| + |SystemOnes(messages)| == |messages|
    ensures Tokens(NonSystem(messages)) + Tokens(SystemOnes(messages)) == Tokens(messages)
    decreases |messages|
  {
    if messages != [] {
      var init, last := messages[..|messages| - 1], messages[|messages| - 1];
      RolesSplit(init);
      TokensConcat(NonSystem(init), [last]);
      TokensConcat(SystemOnes(init), [last]);
      assert NonSystem(init) + [] == NonSystem(init) && SystemOnes(init) + [] == SystemOnes(init);
      assert Tokens([last]) == MessageTokens(last) by { assert [last][..0] == []; }
    }
  }

  predicate AllSystem(messages: seq<Message>) {
    forall i | 0 <= i < |messages| :: messages[i].role.System?
  }

  predicate NoSystem(messages: seq<Message>) {
    forall i | 0 <= i < |messages| :: !messages[i].role.System?
  }

  lemma {:induction false} AllSystemSplits(messages: seq<Message>)
    requires AllSystem(messages)
    ensures NonSystem(messages) == [] && SystemOnes(messages) == messages
    decreases |messages|
  {
    if messages != [] {
      AllSystemSplits(messages[..|messages| - 1]);
      assert messages == messages[..|messages| - 1] + [messages[|messages| - 1]];
    }
  }

  lemma PartsOf(first: seq<Message>, rest: seq<Message>)
    requires AllSystem(first) && NoSystem(rest)
    ensures NonSystem(first + rest) == rest && SystemOnes(first + rest) == first
  {
    NonSystemConcat(first, rest);
    NonSystemFixed(rest);
    AllSystemSplits(first);
  }

  lemma EndsHaveNoSystem(ns: seq<Message>, marker: Message)
    requires |ns| > 10 && NoSystem(ns) && marker.role.User?
    ensures NoSystem(Ends(ns, marker)) && |Ends(ns, marker)| == 11
  {}

  lemma FirstSystemFits(messages: seq<Message>)
    ensures AllSystem(FirstSystem(messages)) && NoSystem(NonSystem(messages))
    ensures |FirstSystem(messages)| <= 1 && FirstSystem(messages) <= SystemOnes(messages)
  {
    RolesSplit(messages);
    var s := SystemOnes(messages);
    if s != [] {
      assert s[0] in s;
    }
  }

  lemma TokensOfThree(a: seq<Message>, b: seq<Message>, c: seq<Message>)
    ensures Tokens(a + b + c) == Tokens(a) + Tokens(b) + Tokens(c)
  {
    TokensConcat(a + b, c);
    TokensConcat(a, b);
  }

  lemma TokensOfOne(m: Message)
    ensures Tokens([m]) == MessageTokens(m)
  {
    assert [m][..0] == [];
  }

  lemma MarkerForMiddle(head: seq<Message>, middle: seq<Message>, tail: seq<Message>, marker: Message)
    ensures Tokens(head + [marker] + tail) + Tokens(middle) == Tokens(head + middle + tail) + MessageTokens(marker)
  {
    TokensOfThree(head, middle, tail);
    TokensOfThree(head, [marker], tail);
    TokensOfOne(marker);
  }

  lemma EndsBalance(ns: seq<Message>, marker: Message)
    requires |ns| > 10
    ensures Tokens(Ends(ns, marker)) + Tokens(ns[2..|ns| - 8]) == Tokens(ns) + MessageTokens(marker)
  {
    assert ns == ns[..2] + ns[2..|ns| - 8] + ns[|ns| - 8..];
    MarkerForMiddle(ns[..2], ns[2..|ns| - 8], ns[|ns| - 8..], marker);
  }

  lemma ConsolidatedBalances(messages: seq<Message>, marker: Message)
    requires |NonSystem(messages)| > 10
    ensures var ns, first := NonSystem(messages), FirstSystem(messages);
            var out, middle, later := first + Ends(ns, marker), ns[2..|ns| - 8], SystemOnes(messages)[|first|..];
            && Tokens(out) + Tokens(middle) + Tokens(later) == Tokens(messages) + MessageTokens(marker)
            && |out| + |middle| + |later| == |messages| + 1
  {
    var ns, first, system := NonSystem(messages), FirstSystem(messages), SystemOnes(messages);
    RolesSplit(messages);
    EndsBalance(ns, marker);
    var later := system[|first|..];
    assert system == first + later;
    TokensConcat(first, Ends(ns, marker));
    TokensConcat(first, later);
  }

  /**
   With more than ten non-system messages, consolidation keeps the first system
   message in front and the others in their order, announces exactly how many
   non-system messages it dropped, and balances in tokens: what comes out plus
   what was dropped is what went in plus the marker. Dropped are the middle
   messages and every system message after the first.
   */
  lemma ConsolidationBalances(task: string, messages: seq<Message>)
    requires |NonSystem(messages)| > 10
    ensures var ns, out, first := NonSystem(messages), Consolidate(task, messages), FirstSystem(messages);
            var middle, later := ns[2..|ns| - 8], SystemOnes(messages)[|first|..];
            var marker := ConsolidationMarker(task, |ns| - 10);
            && NonSystem(out) == ns[..2] + [marker] + ns[|ns| - 8..]
            && out == first + NonSystem(out) && SystemOnes(out) == first
            && MARKER_PREFIX <= marker.content && AnnouncedCount(marker.content) == |middle|
            && Tokens(out) + Tokens(middle) + Tokens(later) == Tokens(messages) + MessageTokens(marker)
            && |out| + |middle| + |later| == |messages| + 1
  {
    var n := |NonSystem(messages)| - 10;
    var marker := ConsolidationMarker(task, n);
    RolesSplit(messages);
    FirstSystemFits(messages);
    EndsHaveNoSystem(NonSystem(messages), marker);
    PartsOf(FirstSystem(messages), Ends(NonSystem(messages), marker));
    ConsolidatedBalances(messages, marker);
    MarkerAnnounces(task, n);
  }

  /** The announced number is all that is missing exactly when there was at most one system message. */
  lemma MarkerCountsEverythingIff(task: string, messages: seq<Message>)
    requires |NonSystem(messages)| > 10
    ensures var out, n := Consolidate(task, messages), |NonSystem(messages)| - 10;
            |messages| - (|out| - 1) == n <==> |SystemOnes(messages)| <= 1
  {
    ConsolidationBalances(task, messages);
  }

  // ---------------------------------------------------------------------
  // Level 3: emergency pruning
  // ---------------------------------------------------------------------

  const EMERGENCY := "[CONTEXT EMERGENCY: Conversation condensed due to token limits]\n\n"
  const TASK_HEADING := "## ORIGINAL TASK (must complete):\n"
  const SUMMARY_HEADING := "## PROGRESS SUMMARY:\n"

  function EmergencyMessage(task: string, summary: string): Message {
    Message(User,
            EMERGENCY + (if task == "" then "" else TASK_HEADING + task + "\n\n")
            + (if summary == "" then "" else SUMMARY_HEADING + summary + "\n\n")
            + "Continue working on the task above.",
            [], [])
  }

  function LastN(n: nat, messages: seq<Message>): seq<Message> {
    if |messages| > n then messages[|messages| - n..] else messages
  }

  function EmergencyPrune(task: string, summary: string, messages: seq<Message>): seq<Message> {
    Condensed(FirstSystem(messages), EmergencyMessage(task, summary), NonSystem(messages))
  }

  function Condensed(first: seq<Message>, note: Message, ns: seq<Message>): seq<Message> {
    first + [note] + LastN(4, ns)
  }

  lemma CondensedShape(first: seq<Message>, note: Message, ns: seq<Message>)
    requires |first| <= 1
    ensures var out := Condensed(first, note, ns);
            && |out| <= 6 && note in out
            && Tokens(out) == Tokens(first) + MessageTokens(note) + Tokens(LastN(4, ns))
  {
    var out, last := Condensed(first, note, ns), LastN(4, ns);
    assert out[|first|] == note;
    TokensConcat(first + [note], last);
    TokensConcat(first, [note]);
    assert Tokens([note]) == MessageTokens(note) by { assert [note][..0] == []; }
  }

  lemma EndsKeepTheLast(ns: seq<Message>, marker: Message)
    requires |ns| > 10
    ensures LastN(4, Ends(ns, marker)) == LastN(4, ns)
  {}

  /** Consolidation keeps what an emergency keeps. */
  lemma ConsolidationKeepsEnds(task: string, messages: seq<Message>)
    ensures var out := Consolidate(task, messages);
            FirstSystem(out) == FirstSystem(messages) && LastN(4, NonSystem(out)) == LastN(4, NonSystem(messages))
  {
    var ns := NonSystem(messages);
    if |messages| > 4 && |ns| > 10 {
      var marker := ConsolidationMarker(task, |ns| - 10);
      FirstSystemFits(messages);
      EndsHaveNoSystem(ns, marker);
      PartsOf(FirstSystem(messages), Ends(ns, marker));
      EndsKeepTheLast(ns, marker);
    }
  }

  lemma {:induction false} TruncateParts(limit: nat, messages: seq<Message>)
    ensures SystemOnes(Truncate(limit, messages)) == SystemOnes(messages)
    ensures NonSystem(Truncate(limit, messages)) == Truncate(limit, NonSystem(messages))
    decreases |messages|
  {
    if messages != [] {
      var init, last := messages[..|messages| - 1], messages[|messages| - 1];
      TruncateParts(limit, init);
      assert Truncate(limit, messages)[..|messages| - 1] == Truncate(limit, init);
      assert Truncate(limit, NonSystem(init) + [last]) == Truncate(limit, NonSystem(init)) + [TruncateOne(limit, last)];
      assert NonSystem(init) + [] == NonSystem(init);
      assert Truncate(limit, NonSystem(init)) + [] == Truncate(limit, NonSystem(init));
    }
  }

  /**
   Level 3, through all three transformations: the first system message if there
   is one, one user message carrying the original task, and the last four
   non-system messages of the truncated input, so at most six messages.
   Consolidation in between makes no difference.
   */
  lemma {:induction false} EmergencyClosedForm(limit: nat, task: string, summary: string, messages: seq<Message>)
    ensures var out := EmergencyPrune(task, summary, Consolidate(task, Truncate(limit, messages)));
            && out == FirstSystem(messages) + [EmergencyMessage(task, summary)]
                      + LastN(4, Truncate(limit, NonSystem(messages)))
            && |out| <= 6 && EmergencyMessage(task, summary) in out
            && Tokens(out) == Tokens(FirstSystem(messages)) + MessageTokens(EmergencyMessage(task, summary))
                              + Tokens(LastN(4, Truncate(limit, NonSystem(messages))))
  {
    var cut := Truncate(limit, messages);
    TruncateParts(limit, messages);
    ConsolidationKeepsEnds(task, cut);
    CondensedShape(FirstSystem(messages), EmergencyMessage(task, summary), NonSystem(cut));
  }

  lemma TruncateTail(limit: nat, ns: seq<Message>, k: nat)
    requires k <= |ns|
    ensures Truncate(limit, ns)[k..] == Truncate(limit, ns[k..]) && Truncate(limit, ns)[..k] == Truncate(limit, ns[..k])
  {}

  lemma LastTruncated(limit: nat, ns: seq<Message>)
    ensures LastN(4, Truncate(limit, ns)) == Truncate(limit, if |ns| <= 4 then ns else ns[|ns| - 4..])
  {}

  /** Level 2, through both transformations, on the messages as they come in. */
  lemma {:induction false} ConsolidationClosedForm(limit: nat, task: string, messages: seq<Message>)
    ensures var ns, out := NonSystem(messages), Consolidate(task, Truncate(limit, messages));
            out == if |messages| <= 4 || |ns| <= 10 then Truncate(limit, messages)
                   else FirstSystem(messages) + Truncate(limit, ns[..2]) + [ConsolidationMarker(task, |ns| - 10)]
                        + Truncate(limit, ns[|ns| - 8..])
  {
    var ns := NonSystem(messages);
    TruncateParts(limit, messages);
    if |messages| > 4 && |ns| > 10 {
      TruncateTail(limit, ns, 2);
      TruncateTail(limit, ns, |ns| - 8);
      EndsAssemble(FirstSystem(messages), Truncate(limit, ns), ConsolidationMarker(task, |ns| - 10));
    }
  }

  lemma PartsWithin(bound: nat, first: seq<Message>, head: seq<Message>, note: Message, tail: seq<Message>)
    requires AllSystem(first) && ToolsWithin(bound, head) && note.role.User? && ToolsWithin(bound, tail)
    ensures ToolsWithin(bound, first + head + [note] + tail)
    ensures ToolsWithin(bound, first + [note] + tail)
  {}

  /** No level above 0 lets a tool message through that is longer than the limit and the marker together. */
  lemma {:induction false} ToolsAreBounded(limit: nat, task: string, summary: string, messages: seq<Message>)
    ensures var bound, two := limit + |TRUNCATION_MARKER|, Consolidate(task, Truncate(limit, messages));
            ToolsWithin(bound, Truncate(limit, messages)) && ToolsWithin(bound, two)
            && ToolsWithin(bound, EmergencyPrune(task, summary, two))
  {
    var ns, first := NonSystem(messages), FirstSystem(messages);
    FirstSystemFits(messages);
    TruncationInPlace(limit, messages);
    EmergencyClosedForm(limit, task, summary, messages);
    ConsolidationClosedForm(limit, task, messages);
    var bound, note := limit + |TRUNCATION_MARKER|, EmergencyMessage(task, summary);
    TruncationInPlace(limit, ns);
    PartsWithin(bound, first, [], note, LastN(4, Truncate(limit, ns)));
    if |ns| > 10 {
      TruncationInPlace(limit, ns[..2]);
      TruncationInPlace(limit, ns[|ns| - 8..]);
      PartsWithin(bound, first, Truncate(limit, ns[..2]), ConsolidationMarker(task, |ns| - 10),
                  Truncate(limit, ns[|ns| - 8..]));
    }
  }

  ghost predicate Mentions(text: string, part: string) {
    exists i | 0 <= i <= |text| :: i + |part| <= |text| && text[i..][..|part|] == part
  }

  lemma MiddleIsMentioned(before: string, part: string, after: string)
    ensures Mentions(before + part + after, part)
  {
    assert (before + part + after)[|before|..] == part + after;
    assert (part + after)[..|part|] == part;
  }

  lemma MentionedInside(a: string, b: string, part: string, c: string, d: string, e: string)
    ensures Mentions(a + (b + part + c) + d + e, part)
  {
    MiddleIsMentioned(a + b, part, c + d + e);
    assert a + (b + part + c) + d + e == (a + b) + part + (c + d + e);
  }

  lemma EmptyIsMentioned(text: string)
    ensures Mentions(text, "")
  {
    assert text[0..][..|""|] == "";
  }

  /** The original task survives levels 2 and 3, whatever messages were dropped. */
  lemma TaskIsPreserved(task: string, summary: string, dropped: nat)
    ensures Mentions(EmergencyMessage(task, summary).content, task)
    ensures Mentions(ConsolidationMarker(task, dropped).content, task)
  {
    if task == "" {
      EmptyIsMentioned(EmergencyMessage(task, summary).content);
      EmptyIsMentioned(ConsolidationMarker(task, dropped).content);
    } else {
      MentionedInside(EMERGENCY, TASK_HEADING, task, "\n\n",
                      if summary == "" then "" else SUMMARY_HEADING + summary + "\n\n",
                      "Continue working on the task above.");
      var before := MARKER_PREFIX + Decimal(dropped) + MARKER_SUFFIX;
      MentionedInside(before, REMINDER, task, CONTINUE, "", "");
      assert MarkerContent(task, dropped) + "" + "" == MarkerContent(task, dropped);
    }
  }

  // ---------------------------------------------------------------------
  // Thresholds
  // ---------------------------------------------------------------------

  /** Conversion to an integer truncates toward zero. */
  function Int(r: real): int {
    if r >= 0.0 then r.Floor else -((-r).Floor)
  }

  function Level(estimated: int, limit: int): int {
    if estimated < Int(limit as real * 0.6) then 0
    else if estimated < Int(limit as real * 0.75) then 1
    else if estimated < Int(limit as real * 0.9) then 2
    else 3
  }

  /** A count reaches a threshold exactly when it is less than one short of the real product, whatever its sign. */
  lemma ThresholdIff(estimated: int, r: real)
    requires estimated >= 0
    ensures estimated >= Int(r) <==> r < estimated as real + 1.0
  {}

  lemma IntIsMonotone(a: real, b: real)
    requires a <= b
    ensures Int(a) <= Int(b)
  {}

  /**
   The levels are three consecutive intervals of the estimate: each level and
   every higher one is reached exactly from its own threshold on.
   */
  lemma LevelsAreIntervals(estimated: int, limit: int)
    requires limit >= 0 || estimated >= 0
    ensures Level(estimated, limit) >= 1 <==> estimated >= Int(limit as real * 0.6)
    ensures Level(estimated, limit) >= 2 <==> estimated >= Int(limit as real * 0.75)
    ensures Level(estimated, limit) >= 3 <==> estimated >= Int(limit as real * 0.9)
  {
    if limit >= 0 {
      IntIsMonotone(limit as real * 0.6, limit as real * 0.75);
      IntIsMonotone(limit as real * 0.75, limit as real * 0.9);
    }
  }

  function Prune(level: int, limit: nat, task: string, summary: string, messages: seq<Message>): seq<Message> {
    if level <= 0 then messages
    else if level == 1 then Truncate(limit, messages)
    else if level == 2 then Consolidate(task, Truncate(limit, messages))
    else EmergencyPrune(task, summary, Consolidate(task, Truncate(limit, messages)))
  }

  /** Level 1: the same messages, with exactly the tool outputs over the limit cut. */
  ghost predicate CutInPlace(limit: nat, messages: seq<Message>, result: seq<Message>) {
    && |result| == |messages|
    && forall i | 0 <= i < |messages| ::
         result[i] == if messages[i].role.Tool? && |messages[i].content| > limit
                      then messages[i].(content := messages[i].content[..limit] + TRUNCATION_MARKER)
                      else messages[i]
  }

  /** Level 2: nothing more if there is little, else the first system message, two, the marker, and eight. */
  ghost predicate Shortened(limit: nat, task: string, messages: seq<Message>, result: seq<Message>) {
    var ns := NonSystem(messages);
    if |messages| <= 4 || |ns| <= 10 then CutInPlace(limit, messages, result)
    else result == FirstSystem(messages) + Truncate(limit, ns[..2]) + [ConsolidationMarker(task, |ns| - 10)]
                   + Truncate(limit, ns[|ns| - 8..])
  }

  /** Level 3: the first system message, a note, and the last four others. */
  ghost predicate Condenses(limit: nat, note: Message, messages: seq<Message>, result: seq<Message>) {
    var ns := NonSystem(messages);
    && |result| <= 6
    && result == FirstSystem(messages) + [note] + Truncate(limit, if |ns| <= 4 then ns else ns[|ns| - 4..])
  }

  /** What a caller may rely on, by the estimate alone: below 60% of the limit all is kept, and so on. */
  ghost predicate Promised(estimated: int, effective: int, limit: nat, task: string, summary: string,
                           messages: seq<Message>, result: seq<Message>)
  {
    var low, middle, high := Int(effective as real * 0.6), Int(effective as real * 0.75), Int(effective as real * 0.9);
    && (estimated < low ==> result == messages)
    && (estimated >= low ==> ToolsWithin(limit + |TRUNCATION_MARKER|, result))
    && (low <= estimated < middle ==> CutInPlace(limit, messages, result))
    && (middle <= estimated < high ==> Shortened(limit, task, messages, result))
    && (estimated >= high ==> Condenses(limit, EmergencyMessage(task, summary), messages, result))
  }

  lemma LevelTwoShortens(limit: nat, task: string, messages: seq<Message>)
    ensures Shortened(limit, task, messages, Consolidate(task, Truncate(limit, messages)))
  {
    TruncationInPlace(limit, messages);
    ConsolidationClosedForm(limit, task, messages);
  }

  lemma LevelThreeCondenses(limit: nat, task: string, summary: string, messages: seq<Message>)
    ensures Condenses(limit, EmergencyMessage(task, summary), messages,
                      EmergencyPrune(task, summary, Consolidate(task, Truncate(limit, messages))))
  {
    EmergencyClosedForm(limit, task, summary, messages);
    LastTruncated(limit, NonSystem(messages));
  }

  /** Pruning at the level of the estimate, whatever its definition composes, does what is promised. */
  lemma {:induction false} PruneKeepsPromise(estimated: int, effective: int, limit: nat, task: string, summary: string,
                                             messages: seq<Message>)
    requires effective >= 0 || estimated >= 0
    ensures Promised(estimated, effective, limit, task, summary, messages,
                     Prune(Level(estimated, effective), limit, task, summary, messages))
  {
    LevelsAreIntervals(estimated, effective);
    TruncationInPlace(limit, messages);
    ToolsAreBounded(limit, task, summary, messages);
    LevelTwoShortens(limit, task, messages);
    LevelThreeCondenses(limit, task, summary, messages);
  }

  // ---------------------------------------------------------------------
  // What pruning keeps
  // ---------------------------------------------------------------------

  ghost predicate SomeoneMentions(messages: seq<Message>, part: string) {
    exists i | 0 <= i < |messages| :: Mentions(messages[i].content, part)
  }

  lemma NoteIsCondensed(first: seq<Message>, note: Message, ns: seq<Message>, part: string)
    requires Mentions(note.content, part)
    ensures SomeoneMentions(Condensed(first, note, ns), part)
  {
    assert Condensed(first, note, ns)[|first|] == note;
  }

  lemma MarkerIsKept(first: seq<Message>, ns: seq<Message>, marker: Message, part: string)
    requires |ns| > 10 && Mentions(marker.content, part)
    ensures SomeoneMentions(first + Ends(ns, marker), part)
  {
    assert (first + Ends(ns, marker))[|first| + 2] == marker;
  }

  /** In an emergency, and whenever consolidation drops anything, some message of the result names the task. */
  lemma PruningKeepsTask(level: int, limit: nat, task: string, summary: string, messages: seq<Message>)
    requires level >= 3 || (level == 2 && Prune(level, limit, task, summary, messages) != Truncate(limit, messages))
    ensures SomeoneMentions(Prune(level, limit, task, summary, messages), task)
  {
    var cut := Truncate(limit, messages);
    if level >= 3 {
      var before := Consolidate(task, cut);
      TaskIsPreserved(task, summary, 0);
      NoteIsCondensed(FirstSystem(before), EmergencyMessage(task, summary), NonSystem(before), task);
    } else {
      var ns := NonSystem(cut);
      TaskIsPreserved(task, summary, |ns| - 10);
      MarkerIsKept(FirstSystem(cut), ns, ConsolidationMarker(task, |ns| - 10), task);
    }
  }

  /**
   How many tool results are still awaited after these messages, or None if a
   result came that no call awaited, or something else while one was awaited.
   */
  function Awaiting(messages: seq<Message>): Option<nat> {
    if messages == [] then Some(0) else
      var before, last := Awaiting(messages[..|messages| - 1]), messages[|messages| - 1];
      if before.None? then None
      else if before.value > 0 then (if last.role.Tool? then Some(before.value - 1) else None)
      else if last.role.Tool? then None
      else Some(if last.role.Assistant? then |last.toolCalls| else 0)
  }

  /** Every call has its result right behind it, and every result its call. */
  predicate Paired(messages: seq<Message>) { Awaiting(messages) == Some(0) }

  lemma AwaitingOneMore(messages: seq<Message>, m: Message)
    ensures Awaiting(messages + [m]) ==
            var before := Awaiting(messages);
            if before.None? then None
            else if before.value > 0 then (if m.role.Tool? then Some(before.value - 1) else None)
            else if m.role.Tool? then None
            else Some(if m.role.Assistant? then |m.toolCalls| else 0)
  {
    assert (messages + [m])[..|messages|] == messages;
  }

  lemma {:induction false} BrokenStays(a: seq<Message>, b: seq<Message>)
    requires Awaiting(a).None?
    ensures Awaiting(a + b).None?
    decreases |b|
  {
    if b == [] {
      assert a + b == a;
    } else {
      assert (a + b)[..|a + b| - 1] == a + b[..|b| - 1];
      BrokenStays(a, b[..|b| - 1]);
    }
  }

  lemma {:induction false} PairedThen(a: seq<Message>, b: seq<Message>)
    requires Paired(a)
    ensures Awaiting(a + b) == Awaiting(b)
    decreases |b|
  {
    if b == [] {
      assert a + b == a;
    } else {
      var init, last := b[..|b| - 1], b[|b| - 1];
      PairedThen(a, init);
      assert a + b == a + init + [last] && b == init + [last];
      AwaitingOneMore(a + init, last);
      AwaitingOneMore(init, last);
    }
  }

  /** Cutting paired messages in two leaves both parts paired exactly when no result stands right behind the cut. */
  lemma CutPaired(messages: seq<Message>, p: nat)
    requires Paired(messages) && p < |messages|
    ensures Paired(messages[..p]) <==> !messages[p].role.Tool?
    ensures Paired(messages[p..]) <==> !messages[p].role.Tool?
  {
    var head, tail, m := messages[..p], messages[p..], messages[p];
    assert messages == head + tail && tail == [m] + messages[p + 1..];
    assert messages == head + [m] + messages[p + 1..];
    if Awaiting(head).None? {
      BrokenStays(head, tail);
      assert false;
    }
    AwaitingOneMore(head, m);
    if Awaiting(head + [m]).None? {
      BrokenStays(head + [m], messages[p + 1..]);
      assert false;
    }
    if m.role.Tool? {
      AwaitingOneMore([], m);
      assert [] + [m] == [m];
      BrokenStays([m], messages[p + 1..]);
    } else {
      PairedThen(head, tail);
    }
  }

  lemma {:induction false} TruncationKeepsPairing(limit: nat, messages: seq<Message>)
    ensures Awaiting(Truncate(limit, messages)) == Awaiting(messages)
    decreases |messages|
  {
    if messages != [] {
      TruncationKeepsPairing(limit, messages[..|messages| - 1]);
      assert Truncate(limit, messages)[..|messages| - 1] == Truncate(limit, messages[..|messages| - 1]);
    }
  }

  /** A user message in front changes nothing, and one behind an awaited result breaks the pairing. */
  lemma NoteThenPaired(note: Message, messages: seq<Message>)
    requires note.role.User?
    ensures Awaiting([note] + messages) == Awaiting(messages)
  {
    AwaitingOneMore([], note);
    assert [] + [note] == [note];
    PairedThen([note], messages);
  }

  lemma EndsPairedIff(ns: seq<Message>, marker: Message)
    requires Paired(ns) && |ns| > 10 && marker.role.User?
    ensures Paired(Ends(ns, marker)) <==> !ns[2].role.Tool? && !ns[|ns| - 8].role.Tool?
  {
    var tail := ns[|ns| - 8..];
    CutPaired(ns, 2);
    CutPaired(ns, |ns| - 8);
    NoteThenPaired(marker, tail);
    assert Ends(ns, marker) == ns[..2] + ([marker] + tail) == ns[..2] + [marker] + tail;
    if Paired(ns[..2]) {
      PairedThen(ns[..2], [marker] + tail);
    } else {
      AwaitingOneMore(ns[..2], marker);
      BrokenStays(ns[..2] + [marker], tail);
    }
  }

  lemma LastPairedIff(ns: seq<Message>, note: Message)
    requires Paired(ns) && note.role.User?
    ensures Paired([note] + LastN(4, ns)) <==> |ns| <= 4 || !ns[|ns| - 4].role.Tool?
  {
    NoteThenPaired(note, LastN(4, ns));
    if |ns| > 4 {
      CutPaired(ns, |ns| - 4);
    }
  }

  /** Exactly when a pruning at this level would separate no call from its results. */
  predicate CutsClean(level: int, messages: seq<Message>) {
    var ns := NonSystem(messages);
    var n := |ns|;
    if level <= 1 then true
    else if level == 2 then |messages| <= 4 || n <= 10 || (!ns[2].role.Tool? && !ns[n - 8].role.Tool?)
    else n <= 4 || !ns[n - 4].role.Tool?
  }

  lemma TruncationKeepsCuts(level: int, limit: nat, messages: seq<Message>)
    ensures CutsClean(level, Truncate(limit, messages)) <==> CutsClean(level, messages)
  {
    TruncateParts(limit, messages);
  }

  lemma ConsolidationPairsIff(task: string, messages: seq<Message>)
    requires Paired(NonSystem(messages))
    ensures Paired(NonSystem(Consolidate(task, messages))) <==> CutsClean(2, messages)
  {
    var ns := NonSystem(messages);
    if |messages| > 4 && |ns| > 10 {
      var marker := ConsolidationMarker(task, |ns| - 10);
      FirstSystemFits(messages);
      EndsHaveNoSystem(ns, marker);
      PartsOf(FirstSystem(messages), Ends(ns, marker));
      EndsPairedIff(ns, marker);
    }
  }

  lemma EmergencyPairsIff(task: string, summary: string, messages: seq<Message>)
    requires Paired(NonSystem(messages))
    ensures Paired(NonSystem(EmergencyPrune(task, summary, Consolidate(task, messages)))) <==> CutsClean(3, messages)
  {
    FirstSystemFits(messages);
    ConsolidationKeepsEnds(task, messages);
    CondensedPairsIff(FirstSystem(messages), EmergencyMessage(task, summary), NonSystem(messages));
  }

  lemma CondensedPairsIff(first: seq<Message>, note: Message, ns: seq<Message>)
    requires AllSystem(first) && NoSystem(ns) && Paired(ns) && note.role.User?
    ensures Paired(NonSystem(Condensed(first, note, ns))) <==> |ns| <= 4 || !ns[|ns| - 4].role.Tool?
  {
    assert Condensed(first, note, ns) == first + ([note] + LastN(4, ns));
    PartsOf(first, [note] + LastN(4, ns));
    LastPairedIff(ns, note);
  }

  /**
   A conversation in which every call is followed by its results comes out of
   pruning like that exactly when no result stands first behind one of the cuts:
   behind the second message or at the head of the last eight for consolidation,
   at the head of the last four in an emergency. Truncation never separates any.
   */
  lemma PairingSurvivesIff(level: int, limit: nat, task: string, summary: string, messages: seq<Message>)
    requires Paired(NonSystem(messages))
    ensures Paired(NonSystem(Prune(level, limit, task, summary, messages))) <==> CutsClean(level, messages)
  {
    var cut := Truncate(limit, messages);
    TruncateParts(limit, messages);
    TruncationKeepsPairing(limit, NonSystem(messages));
    TruncationKeepsCuts(level, limit, messages);
    if level == 2 {
      ConsolidationPairsIff(task, cut);
    } else if level >= 3 {
      EmergencyPairsIff(task, summary, cut);
    }
  }

  // Conversations that fare badly

  function Say(role: Role, calls: seq<ToolCall>): Message { Message(role, "", calls, []) }

  /** A question, a call with its result, and n more messages of the user. */
  function CallThenTalk(n: nat): seq<Message> {
    [Say(User, []), Say(Assistant, [ToolCall("read", "")]), Say(Tool, [])] + seq(n, _ => Say(User, []))
  }

  lemma {:induction false} TalkIsPaired(messages: seq<Message>)
    requires forall i | 0 <= i < |messages| :: messages[i].role.User?
    ensures Paired(messages)
    decreases |messages|
  {
    if messages != [] {
      TalkIsPaired(messages[..|messages| - 1]);
    }
  }

  lemma CallThenTalkIsPaired(n: nat)
    ensures NonSystem(CallThenTalk(n)) == CallThenTalk(n) && Paired(CallThenTalk(n))
  {
    var q, call, result := Say(User, []), Say(Assistant, [ToolCall("read", "")]), Say(Tool, []);
    NonSystemFixed(CallThenTalk(n));
    CallIsPaired(q, call, result);
    TalkIsPaired(seq(n, _ => q));
    PairedThen([q, call, result], seq(n, _ => q));
  }

  lemma CallIsPaired(q: Message, call: Message, result: Message)
    requires q.role.User? && call.role.Assistant? && |call.toolCalls| == 1 && result.role.Tool?
    ensures Paired([q, call, result])
  {
    AwaitingOneMore([], q);
    AwaitingOneMore([q], call);
    AwaitingOneMore([q, call], result);
    assert [] + [q] == [q] && [q] + [call] == [q, call] && [q, call] + [result] == [q, call, result];
  }

  /** Both kinds of cut can fall between a call and its result. */
  lemma PruningCanSeparate(limit: nat, task: string, summary: string)
    ensures Paired(NonSystem(CallThenTalk(8))) && !Paired(NonSystem(Prune(2, limit, task, summary, CallThenTalk(8))))
    ensures Paired(NonSystem(CallThenTalk(3))) && !Paired(NonSystem(Prune(3, limit, task, summary, CallThenTalk(3))))
  {
    CallThenTalkIsPaired(8);
    CallThenTalkIsPaired(3);
    PairingSurvivesIff(2, limit, task, summary, CallThenTalk(8));
    PairingSurvivesIff(3, limit, task, summary, CallThenTalk(3));
  }

  /** With two system messages two messages go missing and the marker announces one. */
  lemma MarkerCanMiscount(task: string)
    ensures var messages := seq(2, _ => Say(System, [])) + seq(11, _ => Say(User, []));
            && |NonSystem(messages)| == 11 && |messages| - (|Consolidate(task, messages)| - 1) == 2
            && AnnouncedCount(ConsolidationMarker(task, |NonSystem(messages)| - 10).content) == 1
  {
    var system, talk := seq(2, _ => Say(System, [])), seq(11, _ => Say(User, []));
    PartsOf(system, talk);
    ConsolidationBalances(task, system + talk);
  }

  class ContextManager {
    const maxInputTokens: int
    const safetyMargin: real
    const toolOutputLimit: nat
    var enabled: bool
    var estimatedTokens: int
    var lastActualInput: int
    var originalTask: string
    var pruneCount: int

    constructor (maxInputTokens: int, safetyMargin: real, toolOutputLimit: int)
      ensures this.maxInputTokens == maxInputTokens && this.safetyMargin == safetyMargin
      ensures this.toolOutputLimit as int == if toolOutputLimit <= 0 then 8000 else toolOutputLimit
      ensures enabled && estimatedTokens == 0 && lastActualInput == 0 && originalTask == "" && pruneCount == 0
    {
      this.maxInputTokens, this.safetyMargin := maxInputTokens, safetyMargin;
      this.toolOutputLimit := if toolOutputLimit <= 0 then 8000 else toolOutputLimit;
      enabled, estimatedTokens, lastActualInput, originalTask, pruneCount := true, 0, 0, "", 0;
    }

    function EffectiveLimit(): int {
      Int(maxInputTokens as real * (1.0 - safetyMargin))
    }

    method RecordActualUsage(inputTokens: int)
      modifies this`lastActualInput, this`estimatedTokens
      ensures lastActualInput == inputTokens && estimatedTokens == inputTokens
    {
      lastActualInput := inputTokens;
      estimatedTokens := inputTokens;
    }

    method SetOriginalTask(task: string)
      modifies this`originalTask
      ensures originalTask == task
    {
      originalTask := task;
    }

    /** Warns exactly when a conversation of the recorded size would be pruned as an emergency. */
    method NeedsIntervention() returns (needed: bool)
      ensures needed <==> enabled && estimatedTokens >= Int(EffectiveLimit() as real * 0.9)
      ensures EffectiveLimit() >= 0 || estimatedTokens >= 0 ==>
                (needed <==> enabled && Level(estimatedTokens, EffectiveLimit()) == 3)
    {
      if EffectiveLimit() >= 0 || estimatedTokens >= 0 {
        LevelsAreIntervals(estimatedTokens, EffectiveLimit());
      }
      if !enabled {
        return false;
      }
      return estimatedTokens >= Int(EffectiveLimit() as real * 0.9);
    }

    method TruncateToolOutputs(messages: seq<Message>) returns (result: seq<Message>)
      ensures result == Truncate(toolOutputLimit, messages)
    {
      result := [];
      for i := 0 to |messages|
        invariant result == Truncate(toolOutputLimit, messages[..i])
      {
        var msg := messages[i];
        if msg.role == Tool && |msg.content| > toolOutputLimit {
          var truncated := msg.content[..toolOutputLimit];
          truncated := truncated + TRUNCATION_MARKER;
          msg := msg.(content := truncated);
        }
        result := result + [msg];
      }
      assert messages[..|messages|] == messages;
    }

    method SplitRoles(messages: seq<Message>) returns (systemMsg: Option<Message>, nonSystem: seq<Message>)
      ensures nonSystem == NonSystem(messages)
      ensures (if systemMsg.Some? then [systemMsg.value] else []) == FirstSystem(messages)
    {
      systemMsg, nonSystem := None, [];
      for i := 0 to |messages|
        invariant nonSystem == NonSystem(messages[..i])
        invariant (if systemMsg.Some? then [systemMsg.value] else []) == FirstSystem(messages[..i])
      {
        assert messages[..i + 1][..i] == messages[..i];
        if messages[i].role == System {
          if systemMsg.None? {
            systemMsg := Some(messages[i]);
          }
        } else {
          nonSystem := nonSystem + [messages[i]];
        }
      }
      assert messages[..|messages|] == messages;
    }

    method WriteMarker(droppedCount: nat) returns (content: string)
      ensures content == MarkerContent(originalTask, droppedCount)
    {
      content := MARKER_PREFIX + Decimal(droppedCount) + MARKER_SUFFIX;
      if originalTask != "" {
        content := content + (REMINDER + originalTask + CONTINUE);
      } else {
        assert content + "" == content;
      }
    }

    method ConsolidateMessages(messages: seq<Message>) returns (result: seq<Message>)
      ensures result == Consolidate(originalTask, messages)
    {
      if |messages| <= 4 {
        return messages;
      }
      var systemMsg, nonSystem := SplitRoles(messages);
      if |nonSystem| <= 10 {
        return messages;
      }
      var keepFirst, keepLast := 2, 8;
      result := [];
      if systemMsg.Some? {
        result := result + [systemMsg.value];
      }
      ghost var first := result;
      result := result + nonSystem[..keepFirst];
      var droppedCount := |nonSystem| - keepFirst - keepLast;
      if droppedCount > 0 {
        var markerContent := WriteMarker(droppedCount);
        var marker := Message(User, markerContent, [], []);
        result := result + [marker];
        EndsAssemble(first, nonSystem, marker);
      }
      result := result + nonSystem[|nonSystem| - keepLast..];
    }

    method EmergencyPruneMessages(messages: seq<Message>, summary: string) returns (result: seq<Message>)
      ensures result == EmergencyPrune(originalTask, summary, messages)
    {
      var systemMsg, nonSystem := SplitRoles(messages);
      result := [];
      if systemMsg.Some? {
        result := result + [systemMsg.value];
      }
      var contextMsg := EMERGENCY;
      contextMsg := contextMsg + (if originalTask != "" then TASK_HEADING + originalTask + "\n\n" else "");
      contextMsg := contextMsg + (if summary != "" then SUMMARY_HEADING + summary + "\n\n" else "");
      contextMsg := contextMsg + "Continue working on the task above.";
      result := result + [Message(User, contextMsg, [], [])];
      if |nonSystem| > 4 {
        result := result + nonSystem[|nonSystem| - 4..];
      } else {
        result := result + nonSystem;
      }
    }

    /**
     Prunes from 60% of the limit on, counts it once, and leaves the estimate of the
     unpruned input behind. Below 75% tool outputs are cut in place; below 90% the
     middle goes as well; from there on only the first system message, a note and the
     last four messages remain. `summary` is what an emergency would write about
     progress.
     */
    method CheckAndPrune(messages: seq<Message>, summary: string) returns (result: seq<Message>, pruned: bool)
      modifies this`estimatedTokens, this`pruneCount
      ensures !enabled ==>
                result == messages && !pruned
                && estimatedTokens == old(estimatedTokens) && pruneCount == old(pruneCount)
      ensures enabled ==>
                && estimatedTokens == Tokens(messages)
                && pruned == (estimatedTokens >= Int(EffectiveLimit() as real * 0.6))
                && pruneCount == old(pruneCount) + (if pruned then 1 else 0)
                && result == Prune(Level(estimatedTokens, EffectiveLimit()), toolOutputLimit, originalTask, summary,
                                   messages)
      ensures enabled ==>
                Promised(estimatedTokens, EffectiveLimit(), toolOutputLimit, originalTask, summary, messages, result)
    {
      if !enabled {
        return messages, false;
      }
      var estimated := EstimateMessagesTokens(messages);
      estimatedTokens := estimated;
      var limit := EffectiveLimit();
      LevelsAreIntervals(estimated, limit);
      PruneKeepsPromise(estimated, limit, toolOutputLimit, originalTask, summary, messages);
      if estimated < Int(limit as real * 0.6) {
        return messages, false;
      }
      pruneCount := pruneCount + 1;
      result := TruncateToolOutputs(messages);
      if estimated < Int(limit as real * 0.75) {
        return result, true;
      }
      result := ConsolidateMessages(result);
      if estimated < Int(limit as real * 0.9) {
        return result, true;
      }
      result := EmergencyPruneMessages(result, summary);
      return result, true;
    }
  }
}
