/**
 Splitting a long message into chunks a chat service accepts. Text is a sequence
 of bytes, one char each.
 */
module ChunkText {
  function LastNewline(s: string): (i: int)
    ensures -1 <= i < |s| && (i >= 0 ==> s[i] == '\n')
    ensures forall j | i < j < |s| :: s[j] != '\n'
  {
    if s == "" then -1 else if s[|s| - 1] == '\n' then |s| - 1 else LastNewline(s[..|s| - 1])
  }

  /** Where a text longer than maxLen is cut: after the last newline that fits, unless that one is the first byte. */
  function CutAt(text: string, maxLen: nat): (cut: nat)
    requires 1 <= maxLen < |text|
    ensures 1 <= cut <= maxLen
  {
    var idx := LastNewline(text[..maxLen]);
    if idx > 0 then idx + 1 else maxLen
  }

  function Chunks(text: string, maxLen: nat): seq<string>
    requires maxLen >= 1
  {
    if |text| <= maxLen then [text] else
      var cut := CutAt(text, maxLen);
      [text[..cut]] + Chunks(text[cut..], maxLen)
  }

  method SplitText(text: string, maxLen: nat) returns (chunks: seq<string>)
    requires maxLen >= 1
    ensures chunks == Chunks(text, maxLen)
  {
    if |text| <= maxLen {
      return [text];
    }
    chunks := [];
    var rest := text;
    while |rest| > 0
      invariant rest == [] ==> chunks == Chunks(text, maxLen)
      invariant rest != [] ==> chunks + Chunks(rest, maxLen) == Chunks(text, maxLen)
      decreases |rest|
    {
      if |rest| <= maxLen {
        chunks := chunks + [rest];
        break;
      }
      var cutAt := maxLen;
      var idx := LastNewline(rest[..maxLen]);
      if idx > 0 {
        cutAt := idx + 1;
      }
      assert Chunks(rest, maxLen) == [rest[..cutAt]] + Chunks(rest[cutAt..], maxLen);
      assert chunks + Chunks(rest, maxLen) == chunks + [rest[..cutAt]] + Chunks(rest[cutAt..], maxLen);
      chunks := chunks + [rest[..cutAt]];
      rest := rest[cutAt..];
    }
  }

  function Joined(chunks: seq<string>): string {
    if chunks == [] then "" else chunks[0] + Joined(chunks[1..])
  }

  lemma JoinedSplit(first: string, rest: seq<string>)
    ensures Joined([first] + rest) == first + Joined(rest)
  {
    assert ([first] + rest)[1..] == rest;
  }

  /** Nothing is lost: the chunks are the text. */
  lemma {:induction false} ChunksJoinToTheText(text: string, maxLen: nat)
    requires maxLen >= 1
    ensures Joined(Chunks(text, maxLen)) == text
    decreases |text|
  {
    if |text| <= maxLen {
      JoinedSplit(text, []);
      assert [text] + [] == [text] && text + "" == text;
    } else {
      var cut := CutAt(text, maxLen);
      ChunksJoinToTheText(text[cut..], maxLen);
      JoinedSplit(text[..cut], Chunks(text[cut..], maxLen));
      assert text[..cut] + text[cut..] == text;
    }
  }

  /** No chunk is too long, and only the empty text has an empty chunk. */
  lemma {:induction false} ChunksFit(text: string, maxLen: nat, i: nat)
    requires maxLen >= 1 && i < |Chunks(text, maxLen)|
    ensures |Chunks(text, maxLen)[i]| <= maxLen && (Chunks(text, maxLen)[i] == "" ==> text == "")
    decreases i
  {
    if i > 0 {
      ChunksFit(text[CutAt(text, maxLen)..], maxLen, i - 1);
    }
  }

  lemma FirstTwoExceed(text: string, maxLen: nat)
    requires 1 <= maxLen < |text|
    ensures var chunks := Chunks(text, maxLen); |chunks| >= 2 && |chunks[0]| + |chunks[1]| > maxLen
  {
    var cut := CutAt(text, maxLen);
    var rest := text[cut..];
    if |rest| > maxLen && cut < maxLen {
      var idx := LastNewline(rest[..maxLen]);
      if idx > 0 {
        assert rest[..maxLen][idx] == text[cut + idx] == '\n';
        assert cut + idx < maxLen ==> text[..maxLen][cut + idx] == '\n';
      }
    }
  }

  /** No two neighbours would have fitted into one chunk. */
  lemma {:induction false} NeighboursExceed(text: string, maxLen: nat, i: nat)
    requires maxLen >= 1 && i + 1 < |Chunks(text, maxLen)|
    ensures |Chunks(text, maxLen)[i]| + |Chunks(text, maxLen)[i + 1]| > maxLen
    decreases i
  {
    if i == 0 {
      FirstTwoExceed(text, maxLen);
    } else {
      NeighboursExceed(text[CutAt(text, maxLen)..], maxLen, i - 1);
    }
  }

  /** What is left behind the first two chunks. */
  function AfterTwo(text: string, maxLen: nat): (tail: string)
    requires maxLen >= 1 && |Chunks(text, maxLen)| >= 3
  {
    var rest := text[CutAt(text, maxLen)..];
    assert |Chunks(text, maxLen)| == 1 + |Chunks(rest, maxLen)|;
    rest[CutAt(rest, maxLen)..]
  }

  lemma AfterTwoIsShorter(text: string, maxLen: nat)
    requires maxLen >= 1 && |Chunks(text, maxLen)| >= 3
    ensures |Chunks(text, maxLen)| == |Chunks(AfterTwo(text, maxLen), maxLen)| + 2
    ensures |AfterTwo(text, maxLen)| + maxLen + 1 <= |text|
  {
    FirstTwoExceed(text, maxLen);
    var cut := CutAt(text, maxLen);
    var rest := text[cut..];
    assert Chunks(text, maxLen)[0] == text[..cut];
    assert Chunks(text, maxLen)[1] == Chunks(rest, maxLen)[0] == rest[..CutAt(rest, maxLen)];
  }

  /** So the number of chunks is within a factor of two of the least possible. */
  lemma {:induction false} FewChunks(text: string, maxLen: nat)
    requires maxLen >= 1
    ensures |Chunks(text, maxLen)| / 2 * (maxLen + 1) <= |text|
    decreases |text|
  {
    var k := |Chunks(text, maxLen)|;
    if k >= 3 {
      AfterTwoIsShorter(text, maxLen);
      FewChunks(AfterTwo(text, maxLen), maxLen);
      TwoMore(k - 2, maxLen + 1, |AfterTwo(text, maxLen)|, |text|);
    } else if k == 2 {
      assert k / 2 == 1 && |text| > maxLen;
    } else {
      assert k / 2 == 0;
    }
  }

  lemma TwoMore(k: nat, m: nat, shorter: nat, longer: nat)
    requires k / 2 * m <= shorter && shorter + m <= longer
    ensures (k + 2) / 2 * m <= longer
  {
    assert (k + 2) / 2 == k / 2 + 1;
    assert (k / 2 + 1) * m == k / 2 * m + m;
  }

  /**
   Every chunk but the last is a full one or ends at a newline, and the newline is
   the last that fits: none follows in the rest of the window.
   */
  lemma {:induction false} BreaksAreAtNewlines(text: string, maxLen: nat, i: nat)
    requires maxLen >= 1 && i + 1 < |Chunks(text, maxLen)|
    ensures var c, after := Chunks(text, maxLen)[i], Joined(Chunks(text, maxLen)[i + 1..]);
            if |c| < maxLen
            then |c| >= 2 && c[|c| - 1] == '\n' && forall j | 0 <= j < maxLen - |c| && j < |after| :: after[j] != '\n'
            else |c| == maxLen && (c[maxLen - 1] == '\n' || forall j | 0 < j < maxLen :: c[j] != '\n')
    decreases i
  {
    var cut := CutAt(text, maxLen);
    var chunks, rest := Chunks(text, maxLen), text[cut..];
    if i == 0 {
      ChunksJoinToTheText(rest, maxLen);
      assert chunks[1..] == Chunks(rest, maxLen);
      forall j | 0 <= j < maxLen - cut ensures rest[j] != '\n' {
        assert rest[j] == text[..maxLen][cut + j];
      }
      forall j | 0 <= j < cut ensures chunks[0][j] == text[..maxLen][j] {}
    } else {
      BreaksAreAtNewlines(rest, maxLen, i - 1);
      assert chunks[i + 1..] == Chunks(rest, maxLen)[i..];
    }
  }

  /** A byte inside a UTF-8 sequence, not at its start. */
  predicate Continuation(c: char) { 0x80 <= c as int < 0xC0 }

  /** Newlines are whole characters: no byte after one belongs to it. */
  predicate WholeNewlines(text: string) {
    forall j | 0 < j < |text| && text[j - 1] == '\n' :: !Continuation(text[j])
  }

  /**
   The limit counts bytes although it is documented in characters: for every limit
   there is a text whose one two-byte character is cut in two.
   */
  lemma CanSplitACharacter(maxLen: nat)
    requires maxLen >= 1
    ensures var plain := seq(maxLen - 1, _ => 'a');
            Chunks(plain + ['\U{C3}', '\U{A9}'], maxLen) == [plain + ['\U{C3}'], ['\U{A9}']] && Continuation('\U{A9}')
  {
    var plain := seq(maxLen - 1, _ => 'a');
    var text := plain + ['\U{C3}', '\U{A9}'];
    assert text[..maxLen] == plain + ['\U{C3}'] && text[maxLen..] == ['\U{A9}'];
    assert LastNewline(text[..maxLen]) == -1;
    assert CutAt(text, maxLen) == maxLen;
    assert Chunks(text[maxLen..], maxLen) == [text[maxLen..]];
  }

  /**
   The first boundary of a text cuts a character exactly when the window holds no
   newline to break at and the byte behind it continues a character.
   */
  lemma FirstBoundaryCutsIff(text: string, maxLen: nat)
    requires 1 <= maxLen < |text| && WholeNewlines(text)
    ensures Continuation(text[CutAt(text, maxLen)]) <==>
              LastNewline(text[..maxLen]) <= 0 && Continuation(text[maxLen])
  {
    var idx := LastNewline(text[..maxLen]);
    assert idx >= 0 ==> text[idx] == text[..maxLen][idx];
  }

  /** Where in their text a chunk starts: behind the chunks before it. */
  function StartOf(chunks: seq<string>, i: nat): nat
    requires i <= |chunks|
  {
    if i == 0 then 0 else StartOf(chunks, i - 1) + |chunks[i - 1]|
  }

  lemma ChunksStep(text: string, maxLen: nat)
    requires maxLen >= 1 && |Chunks(text, maxLen)| >= 2
    ensures |text| > maxLen
    ensures var cut := CutAt(text, maxLen);
            Chunks(text, maxLen)[0] == text[..cut] && Chunks(text, maxLen)[1..] == Chunks(text[cut..], maxLen)
  {}

  /** From chunk i on, which starts at `from`, these are the chunks of the text. */
  ghost predicate ChunksAt(text: string, maxLen: nat, chunks: seq<string>, i: nat, from: nat)
    requires maxLen >= 1
  {
    from <= |text| && i <= |chunks| && chunks[i..] == Chunks(text[from..], maxLen)
  }

  /** The chunks from any one on are the chunks of the text from its start on. */
  lemma {:induction false} ChunksFrom(text: string, maxLen: nat, chunks: seq<string>, i: nat)
    requires maxLen >= 1 && i < |chunks| && chunks == Chunks(text, maxLen)
    ensures ChunksAt(text, maxLen, chunks, i, StartOf(chunks, i))
  {
    assert text[0..] == text && chunks[0..] == chunks;
    ChunksFromStart(text, maxLen, chunks, i);
  }

  lemma {:induction false} ChunksFromStart(text: string, maxLen: nat, chunks: seq<string>, i: nat)
    requires maxLen >= 1 && i < |chunks| && ChunksAt(text, maxLen, chunks, 0, 0)
    ensures ChunksAt(text, maxLen, chunks, i, StartOf(chunks, i))
    decreases i
  {
    if i > 0 {
      ChunksFromStart(text, maxLen, chunks, i - 1);
      NextChunksAt(text, maxLen, chunks, i - 1, StartOf(chunks, i - 1));
    }
  }

  lemma NextChunksAt(text: string, maxLen: nat, chunks: seq<string>, i: nat, from: nat)
    requires maxLen >= 1 && i + 1 < |chunks| && ChunksAt(text, maxLen, chunks, i, from)
    ensures ChunksAt(text, maxLen, chunks, i + 1, from + |chunks[i]|)
  {
    NextChunksFrom(text, maxLen, chunks, i, from);
  }

  lemma NextChunksFrom(text: string, maxLen: nat, chunks: seq<string>, i: nat, from: nat)
    requires maxLen >= 1 && i + 1 < |chunks| && from <= |text| && chunks[i..] == Chunks(text[from..], maxLen)
    ensures from + maxLen < |text|
    ensures var to := from + CutAt(text[from..], maxLen);
            && from < to <= from + maxLen && chunks[i] == text[from..to] && |chunks[i]| == to - from
            && chunks[i + 1..] == Chunks(text[to..], maxLen)
  {
    var rest := text[from..];
    ChunksStep(rest, maxLen);
    var cut := CutAt(rest, maxLen);
    assert chunks[i] == chunks[i..][0] && chunks[i + 1..] == chunks[i..][1..];
    assert rest[..cut] == text[from..from + cut] && rest[cut..] == text[from + cut..];
  }

  /**
   The chunk c of the text runs from `from` to `to`, and is cut off in the middle of
   a character exactly when its window of the text holds no newline to break at and
   the byte behind the window continues a character. It is then a full chunk and
   does not end in a newline.
   */
  predicate CutsIff(text: string, maxLen: nat, c: string, from: nat, to: nat) {
    && from < to <= from + maxLen < |text| && c == text[from..to]
    && (Continuation(text[to]) <==>
          LastNewline(text[from..from + maxLen]) <= 0 && Continuation(text[from + maxLen]))
    && (Continuation(text[to]) ==> |c| == maxLen && c[maxLen - 1] != '\n')
  }

  lemma BoundaryAt(text: string, maxLen: nat, chunks: seq<string>, i: nat, from: nat)
    requires maxLen >= 1 && i + 1 < |chunks| && from <= |text| && chunks[i..] == Chunks(text[from..], maxLen)
    requires WholeNewlines(text)
    ensures CutsIff(text, maxLen, chunks[i], from, from + |chunks[i]|)
  {
    NextChunksFrom(text, maxLen, chunks, i, from);
    WindowCutsIff(text, maxLen, from);
    var to := from + |chunks[i]|;
    assert text[from..to][to - from - 1] == text[to - 1];
  }

  lemma StartOneMore(chunks: seq<string>, i: nat)
    requires i < |chunks|
    ensures StartOf(chunks, i + 1) == StartOf(chunks, i) + |chunks[i]|
  {}

  /** The same at every boundary of a text. */
  lemma BoundaryCutsIff(text: string, maxLen: nat, i: nat)
    requires maxLen >= 1 && i + 1 < |Chunks(text, maxLen)| && WholeNewlines(text)
    ensures var chunks := Chunks(text, maxLen);
            CutsIff(text, maxLen, chunks[i], StartOf(chunks, i), StartOf(chunks, i + 1))
  {
    var chunks := Chunks(text, maxLen);
    ChunksFrom(text, maxLen, chunks, i);
    BoundaryAt(text, maxLen, chunks, i, StartOf(chunks, i));
    StartOneMore(chunks, i);
  }

  lemma WindowCutsIff(text: string, maxLen: nat, from: nat)
    requires maxLen >= 1 && from + maxLen < |text| && WholeNewlines(text)
    ensures Continuation(text[from + CutAt(text[from..], maxLen)]) <==>
              LastNewline(text[from..from + maxLen]) <= 0 && Continuation(text[from + maxLen])
    ensures LastNewline(text[from..from + maxLen]) <= 0 ==> CutAt(text[from..], maxLen) == maxLen
  {
    var rest := text[from..];
    assert WholeNewlines(rest) by {
      forall j | 0 < j < |rest| && rest[j - 1] == '\n' ensures !Continuation(rest[j]) {
        assert text[from + j - 1] == '\n';
      }
    }
    FirstBoundaryCutsIff(rest, maxLen);
    assert rest[..maxLen] == text[from..from + maxLen];
  }

  /** So only a full chunk without a final newline cuts a character in two. */
  lemma SplitsOnlyAtFullChunks(text: string, maxLen: nat, i: nat)
    requires maxLen >= 1 && i + 1 < |Chunks(text, maxLen)| && WholeNewlines(text)
    requires var to := StartOf(Chunks(text, maxLen), i + 1); to < |text| && Continuation(text[to])
    ensures var c := Chunks(text, maxLen)[i]; |c| == maxLen && c[maxLen - 1] != '\n'
  {
    BoundaryCutsIff(text, maxLen, i);
  }
}
