/**
 The ring buffer of recent log entries. `E` stands for a pointer to an entry.
 Clients that follow the log live are not part of this model.
 */
module LogStreaming {
  const RING_BUFFER_SIZE: nat := 1000

  function Least(a: int, b: int): int { if a <= b then a else b }

  /** The slot of the i-th of the last n entries, reckoned from the write position. */
  lemma SlotFromPosition(total: nat, n: nat, i: nat)
    requires i < n <= Least(total, RING_BUFFER_SIZE)
    ensures var start := (total % RING_BUFFER_SIZE - n + RING_BUFFER_SIZE) % RING_BUFFER_SIZE;
            (start + i) % RING_BUFFER_SIZE == (total - n + i) % RING_BUFFER_SIZE
  {
    var q := total / RING_BUFFER_SIZE;
    assert total == q * RING_BUFFER_SIZE + total % RING_BUFFER_SIZE;
  }

  /** Among the last RING_BUFFER_SIZE entries no two share a slot. */
  lemma SlotsAreDistinct(a: nat, b: nat)
    requires a < b < a + RING_BUFFER_SIZE
    ensures a % RING_BUFFER_SIZE != b % RING_BUFFER_SIZE
  {}

  class LogStreamer<E(0)> {
    const buffer: array<E>
    var pos: nat
    var count: nat
    ghost var written: seq<E>

    /** Position and count follow from how much was written; the buffer holds the newest entries, each in its slot. */
    ghost predicate Valid()
      reads this, buffer
    {
      && buffer.Length == RING_BUFFER_SIZE
      && pos == |written| % RING_BUFFER_SIZE
      && count == Least(|written|, RING_BUFFER_SIZE)
      && forall k | |written| - count <= k < |written| :: buffer[k % RING_BUFFER_SIZE] == written[k]
    }

    constructor ()
      ensures Valid() && fresh(buffer) && written == []
    {
      buffer := new E[RING_BUFFER_SIZE];
      pos, count, written := 0, 0, [];
    }

    method Write(entry: E)
      requires Valid()
      modifies this, buffer
      ensures Valid() && written == old(written) + [entry]
    {
      buffer[pos] := entry;
      forall k | |written| - RING_BUFFER_SIZE < k < |written| && k >= 0 ensures k % RING_BUFFER_SIZE != pos {
        SlotsAreDistinct(k, |written|);
      }
      pos := (pos + 1) % RING_BUFFER_SIZE;
      if count < RING_BUFFER_SIZE {
        count := count + 1;
      }
      written := written + [entry];
    }

    /** Exactly the newest min(n, 1000, total) entries, oldest first. */
    method Recent(n: nat) returns (entries: seq<E>)
      requires Valid()
      ensures var m := Least(n, Least(|written|, 1000)); entries == written[|written| - m..]
    {
      var m := n;
      if m > count {
        m := count;
      }
      if m == 0 {
        return [];
      }
      var out := new E[m];
      var start := (pos - m + RING_BUFFER_SIZE) % RING_BUFFER_SIZE;
      for i := 0 to m
        modifies out
        invariant Valid()
        invariant forall j | 0 <= j < i :: out[j] == written[|written| - m + j]
      {
        SlotFromPosition(|written|, m, i);
        out[i] := buffer[(start + i) % RING_BUFFER_SIZE];
      }
      return out[..];
    }
  }
}
