/**
 The inbound sliding-window limiter, one for Telegram users and one for WhatsApp
 phone numbers, and the outbound spacing of messages per chat. `K` is the kind of
 key. Times are nanoseconds; the clock is a parameter and never runs backwards.
 */
module RateLimiting {
  import opened Options

  const SECOND := 1_000_000_000

  // ---------------------------------------------------------------------
  // Timestamps after a cutoff
  // ---------------------------------------------------------------------

  function After(stamps: seq<int>, cutoff: int): seq<int> {
    if stamps == [] then [] else
      var last := stamps[|stamps| - 1];
      After(stamps[..|stamps| - 1], cutoff) + (if last > cutoff then [last] else [])
  }

  lemma AfterOneMore(stamps: seq<int>, t: int, cutoff: int)
    ensures After(stamps + [t], cutoff) == After(stamps, cutoff) + (if t > cutoff then [t] else [])
  {
    assert (stamps + [t])[..|stamps|] == stamps;
  }

  /** The positions of the timestamps in the half-open interval (low, high]. */
  ghost function Between(stamps: seq<int>, low: int, high: int): set<nat> {
    set i: nat | i < |stamps| && low < stamps[i] <= high
  }

  /** The positions of the timestamps later than the cutoff. */
  ghost function Later(stamps: seq<int>, cutoff: int): set<nat> {
    set i: nat | i < |stamps| && stamps[i] > cutoff
  }

  /** Kept are exactly the later timestamps: as many as there are, and each as often as it stood there. */
  lemma {:induction false} AfterIsExact(stamps: seq<int>, cutoff: int)
    ensures |After(stamps, cutoff)| == |Later(stamps, cutoff)|
    ensures forall t :: multiset(After(stamps, cutoff))[t] == if t > cutoff then multiset(stamps)[t] else 0
    decreases |stamps|
  {
    if stamps != [] {
      var n := |stamps| - 1;
      AfterIsExact(stamps[..n], cutoff);
      assert Later(stamps, cutoff) == Later(stamps[..n], cutoff) + (if stamps[n] > cutoff then {n} else {});
      assert stamps == stamps[..n] + [stamps[n]];
    }
  }

  /** Pruning at an earlier cutoff does not show at a later one. */
  lemma {:induction false} AfterAfter(stamps: seq<int>, early: int, late: int)
    requires early <= late
    ensures After(After(stamps, early), late) == After(stamps, late)
    decreases |stamps|
  {
    if stamps != [] {
      var init, last := stamps[..|stamps| - 1], stamps[|stamps| - 1];
      AfterAfter(init, early, late);
      AfterOneMore(After(init, early), last, late);
      assert After(init, early) + [] == After(init, early) && After(init, late) + [] == After(init, late);
    }
  }

  lemma {:induction false} AfterIsMonotone(stamps: seq<int>, early: int, late: int)
    requires early <= late
    ensures |After(stamps, late)| <= |After(stamps, early)|
    decreases |stamps|
  {
    if stamps != [] {
      AfterIsMonotone(stamps[..|stamps| - 1], early, late);
    }
  }

  // ---------------------------------------------------------------------
  // The limiter and the naive count it must agree with
  // ---------------------------------------------------------------------

  datatype Limit = Limit(maxMsgs: int, window: int)

  datatype Call<K> = Allow(user: K, now: int) | Cleanup(now: int)

  predicate HasRoom(limit: Limit, held: seq<int>, now: int) {
    |After(held, now - limit.window)| < limit.maxMsgs
  }

  /** What a call leaves of the timestamps held for one user. */
  function Next<K(==)>(limit: Limit, held: seq<int>, user: K, call: Call<K>): seq<int> {
    match call
    case Allow(u, now) =>
      if u != user then held
      else if HasRoom(limit, held, now) then After(held, now - limit.window) + [now]
      else After(held, now - limit.window)
    case Cleanup(now) => After(held, now - limit.window * 2)
  }

  function Held<K(==)>(limit: Limit, calls: seq<Call<K>>, user: K): seq<int> {
    if calls == [] then [] else Next(limit, Held(limit, calls[..|calls| - 1], user), user, calls[|calls| - 1])
  }

  /** What the calls to `allow` answered, in order. */
  function Answers<K(==)>(limit: Limit, calls: seq<Call<K>>): seq<bool> {
    if calls == [] then [] else
      var before, call := calls[..|calls| - 1], calls[|calls| - 1];
      Answers(limit, before) + (if call.Allow? then [HasRoom(limit, Held(limit, before, call.user), call.now)] else [])
  }

  function NextAccepted<K(==)>(limit: Limit, accepted: seq<int>, user: K, call: Call<K>): seq<int> {
    if call.Allow? && call.user == user && HasRoom(limit, accepted, call.now) then accepted + [call.now] else accepted
  }

  /** Every message of the user a limiter that forgets nothing accepts. */
  function Accepted<K(==)>(limit: Limit, calls: seq<Call<K>>, user: K): seq<int> {
    if calls == [] then [] else
      NextAccepted(limit, Accepted(limit, calls[..|calls| - 1], user), user, calls[|calls| - 1])
  }

  /** The calls are in clock order, the last one no later than t. */
  predicate Ordered<K>(calls: seq<Call<K>>, t: int) {
    calls != [] ==>
      var last := calls[|calls| - 1];
      last.now <= t && Ordered(calls[..|calls| - 1], last.now)
  }

  lemma {:induction false} AcceptedInThePast<K>(limit: Limit, calls: seq<Call<K>>, user: K, t: int)
    requires Ordered(calls, t)
    ensures forall s | s in Accepted(limit, calls, user) :: s <= t
    decreases |calls|
  {
    if calls != [] {
      AcceptedInThePast(limit, calls[..|calls| - 1], user, calls[|calls| - 1].now);
    }
  }

  lemma AskedAgrees(held: seq<int>, accepted: seq<int>, now: int, own: int, cutoff: int)
    requires own <= cutoff && After(held, own) == After(accepted, own)
    ensures After(After(held, own), cutoff) == After(accepted, cutoff)
    ensures After(After(held, own) + [now], cutoff) == After(accepted + [now], cutoff)
  {
    AfterAfter(accepted, own, cutoff);
    AfterOneMore(After(held, own), now, cutoff);
    AfterOneMore(accepted, now, cutoff);
  }

  lemma StepAgrees<K>(limit: Limit, held: seq<int>, accepted: seq<int>, user: K, call: Call<K>, cutoff: int)
    requires limit.window >= 0 && call.now - limit.window <= cutoff
    requires After(held, cutoff) == After(accepted, cutoff)
    requires After(held, call.now - limit.window) == After(accepted, call.now - limit.window)
    ensures After(Next(limit, held, user, call), cutoff) == After(NextAccepted(limit, accepted, user, call), cutoff)
  {
    if call.Cleanup? {
      AfterAfter(held, call.now - limit.window * 2, cutoff);
    } else if call.user == user {
      var own := call.now - limit.window;
      AskedAgrees(held, accepted, call.now, own, cutoff);
    }
  }

  /**
   Above every cutoff a present or later call can ask about, the pruned
   timestamps are the full accepted history, with cleanups interleaved at will.
   */
  lemma {:induction false} PrunedAgreesWithHistory<K>(limit: Limit, calls: seq<Call<K>>, user: K, cutoff: int)
    requires limit.window >= 0 && Ordered(calls, cutoff + limit.window)
    ensures After(Held(limit, calls, user), cutoff) == After(Accepted(limit, calls, user), cutoff)
    decreases |calls|
  {
    if calls != [] {
      var before, call := calls[..|calls| - 1], calls[|calls| - 1];
      OrderedLater(before, call.now, cutoff + limit.window);
      PrunedAgreesWithHistory(limit, before, user, cutoff);
      PrunedAgreesWithHistory(limit, before, user, call.now - limit.window);
      StepAgrees(limit, Held(limit, before, user), Accepted(limit, before, user), user, call, cutoff);
    }
  }

  lemma OrderedLater<K>(calls: seq<Call<K>>, t: int, later: int)
    requires t <= later && Ordered(calls, t)
    ensures Ordered(calls, later)
  {}

  lemma RoomByCount(limit: Limit, held: seq<int>, accepted: seq<int>, now: int)
    requires After(held, now - limit.window) == After(accepted, now - limit.window)
    ensures HasRoom(limit, held, now) <==> |Later(accepted, now - limit.window)| < limit.maxMsgs
  {
    AfterIsExact(accepted, now - limit.window);
  }

  /**
   `allow` refuses exactly when maxMsgs accepted messages of the whole history lie
   after now - window.
   */
  lemma RefusesIffFull<K>(limit: Limit, calls: seq<Call<K>>, user: K, now: int)
    requires limit.window >= 0 && Ordered(calls, now)
    ensures HasRoom(limit, Held(limit, calls, user), now)
            <==> |Later(Accepted(limit, calls, user), now - limit.window)| < limit.maxMsgs
  {
    PrunedAgreesWithHistory(limit, calls, user, now - limit.window);
    RoomByCount(limit, Held(limit, calls, user), Accepted(limit, calls, user), now);
  }

  function UpTo(stamps: seq<int>, t: int): seq<int> {
    if stamps == [] then [] else
      var last := stamps[|stamps| - 1];
      UpTo(stamps[..|stamps| - 1], t) + (if last <= t then [last] else [])
  }

  lemma {:induction false} UpToAll(stamps: seq<int>, t: int)
    requires forall s | s in stamps :: s <= t
    ensures UpTo(stamps, t) == stamps
    decreases |stamps|
  {
    if stamps != [] {
      var init, last := stamps[..|stamps| - 1], stamps[|stamps| - 1];
      assert forall s | s in init :: s in stamps;
      UpToAll(init, t);
      assert last in stamps && stamps == init + [last];
    }
  }

  lemma UpToOneMore(stamps: seq<int>, s: int, t: int)
    ensures UpTo(stamps + [s], t) == UpTo(stamps, t) + (if s <= t then [s] else [])
  {
    assert (stamps + [s])[..|stamps|] == stamps;
  }

  function InWindow(limit: Limit, stamps: seq<int>, t: int): seq<int> {
    After(UpTo(stamps, t), t - limit.window)
  }

  lemma {:induction false} InWindowIsExact(limit: Limit, stamps: seq<int>, t: int)
    ensures |InWindow(limit, stamps, t)| == |Between(stamps, t - limit.window, t)|
    decreases |stamps|
  {
    if stamps != [] {
      var n, low := |stamps| - 1, t - limit.window;
      InWindowIsExact(limit, stamps[..n], t);
      assert Between(stamps, low, t) == Between(stamps[..n], low, t) + (if low < stamps[n] <= t then {n} else {});
      AfterOneMore(UpTo(stamps[..n], t), stamps[n], low);
      assert UpTo(stamps[..n], t) + [] == UpTo(stamps[..n], t);
    }
  }

  lemma AcceptingKeepsWindow(limit: Limit, accepted: seq<int>, now: int, t: int)
    requires limit.window >= 0 && HasRoom(limit, accepted, now)
    requires forall s | s in accepted :: s <= now
    requires |InWindow(limit, accepted, t)| <= limit.maxMsgs
    ensures |InWindow(limit, accepted + [now], t)| <= limit.maxMsgs
  {
    UpToOneMore(accepted, now, t);
    if now <= t {
      UpToAll(accepted, t);
      AfterOneMore(accepted, now, t - limit.window);
      AfterIsMonotone(accepted, now - limit.window, t - limit.window);
    } else {
      assert UpTo(accepted, t) + [] == UpTo(accepted, t);
    }
  }

  /** In no half-open window (t - window, t] are more than maxMsgs messages of one user accepted. */
  lemma NoWindowOverflows<K>(limit: Limit, calls: seq<Call<K>>, user: K, end: int, t: int)
    requires limit.maxMsgs >= 0 && limit.window >= 0 && Ordered(calls, end)
    ensures |Between(Accepted(limit, calls, user), t - limit.window, t)| <= limit.maxMsgs
  {
    WindowsStayWithin(limit, calls, user, end, t);
    InWindowIsExact(limit, Accepted(limit, calls, user), t);
  }

  lemma {:induction false} WindowsStayWithin<K>(limit: Limit, calls: seq<Call<K>>, user: K, end: int, t: int)
    requires limit.maxMsgs >= 0 && limit.window >= 0 && Ordered(calls, end)
    ensures |InWindow(limit, Accepted(limit, calls, user), t)| <= limit.maxMsgs
    decreases |calls|
  {
    if calls != [] {
      var before, call := calls[..|calls| - 1], calls[|calls| - 1];
      WindowsStayWithin(limit, before, user, call.now, t);
      AcceptedInThePast(limit, before, user, call.now);
      if call.Allow? && HasRoom(limit, Accepted(limit, before, user), call.now) {
        AcceptingKeepsWindow(limit, Accepted(limit, before, user), call.now, t);
      }
    }
  }

  function WithoutCleanups<K>(calls: seq<Call<K>>): seq<Call<K>> {
    if calls == [] then [] else
      var last := calls[|calls| - 1];
      WithoutCleanups(calls[..|calls| - 1]) + (if last.Allow? then [last] else [])
  }

  lemma {:induction false} WithoutCleanupsKeepsHistory<K>(limit: Limit, calls: seq<Call<K>>, user: K)
    ensures Accepted(limit, WithoutCleanups(calls), user) == Accepted(limit, calls, user)
    decreases |calls|
  {
    if calls != [] {
      var before, last := calls[..|calls| - 1], calls[|calls| - 1];
      WithoutCleanupsKeepsHistory(limit, before, user);
      assert (WithoutCleanups(before) + [last])[..|WithoutCleanups(before)|] == WithoutCleanups(before);
      assert WithoutCleanups(before) + [] == WithoutCleanups(before);
    }
  }

  lemma {:induction false} WithoutCleanupsIsOrdered<K>(calls: seq<Call<K>>, t: int)
    requires Ordered(calls, t)
    ensures Ordered(WithoutCleanups(calls), t)
    decreases |calls|
  {
    if calls != [] {
      var before, last := calls[..|calls| - 1], calls[|calls| - 1];
      var kept := WithoutCleanups(before);
      WithoutCleanupsIsOrdered(before, last.now);
      OrderedLater(kept, last.now, t);
      assert (kept + [last])[..|kept|] == kept && kept + [] == kept;
    }
  }

  lemma AnswersOneMore<K>(limit: Limit, calls: seq<Call<K>>, call: Call<K>)
    ensures Answers(limit, calls + [call]) ==
            Answers(limit, calls)
            + (if call.Allow? then [HasRoom(limit, Held(limit, calls, call.user), call.now)] else [])
  {
    assert (calls + [call])[..|calls|] == calls;
  }

  lemma SameAnswer<K>(limit: Limit, calls: seq<Call<K>>, user: K, now: int)
    requires limit.window >= 0 && Ordered(calls, now)
    ensures HasRoom(limit, Held(limit, calls, user), now)
            == HasRoom(limit, Held(limit, WithoutCleanups(calls), user), now)
  {
    WithoutCleanupsIsOrdered(calls, now);
    WithoutCleanupsKeepsHistory(limit, calls, user);
    RefusesIffFull(limit, calls, user, now);
    RefusesIffFull(limit, WithoutCleanups(calls), user, now);
  }

  /** Cleanup never changes a later answer: all answers are those of the run without the cleanups. */
  lemma {:induction false} CleanupIsInvisible<K>(limit: Limit, calls: seq<Call<K>>, end: int)
    requires limit.window >= 0 && Ordered(calls, end)
    ensures Answers(limit, calls) == Answers(limit, WithoutCleanups(calls))
    decreases |calls|
  {
    if calls != [] {
      var before, last := calls[..|calls| - 1], calls[|calls| - 1];
      assert calls == before + [last];
      CleanupIsInvisible(limit, before, last.now);
      AnswersOneMore(limit, before, last);
      if last.Allow? {
        SameAnswer(limit, before, last.user, last.now);
        AnswersOneMore(limit, WithoutCleanups(before), last);
      } else {
        assert WithoutCleanups(before) + [] == WithoutCleanups(before);
        assert Answers(limit, before) + [] == Answers(limit, before);
      }
    }
  }

  function StampsOf<K>(timestamps: map<K, seq<int>>, user: K): seq<int> {
    if user in timestamps then timestamps[user] else []
  }

  /** A cleanup with the users in `pending` still to come. */
  ghost function PartlyCleaned<K>(timestamps: map<K, seq<int>>, cutoff: int, pending: set<K>): map<K, seq<int>> {
    map u | u in timestamps && (u in pending || After(timestamps[u], cutoff) != []) ::
      if u in pending then timestamps[u] else After(timestamps[u], cutoff)
  }

  lemma CleanOneMore<K>(timestamps: map<K, seq<int>>, cutoff: int, pending: set<K>, user: K)
    requires user in pending && pending <= timestamps.Keys
    ensures var kept, now := After(timestamps[user], cutoff), PartlyCleaned(timestamps, cutoff, pending);
            && user in now && now[user] == timestamps[user]
            && PartlyCleaned(timestamps, cutoff, pending - {user})
               == if kept == [] then now - {user} else now[user := kept]
  {}

  lemma CleanedHolds<K>(timestamps: map<K, seq<int>>, cutoff: int, user: K)
    ensures var cleaned, kept := PartlyCleaned(timestamps, cutoff, {}), After(StampsOf(timestamps, user), cutoff);
            StampsOf(cleaned, user) == kept && (user in cleaned <==> kept != [])
  {}

  class UserRateLimiter<K(==, !new)> {
    var timestamps: map<K, seq<int>>
    const maxMsgs: int
    const window: int

    constructor (maxMsgs: int, windowSec: int)
      ensures timestamps == map[]
      ensures this.maxMsgs == if maxMsgs <= 0 then 10 else maxMsgs
      ensures this.window == if windowSec <= 0 then 60 * SECOND else windowSec * SECOND
    {
      timestamps := map[];
      this.maxMsgs := if maxMsgs <= 0 then 10 else maxMsgs;
      this.window := (if windowSec <= 0 then 60 else windowSec) * SECOND;
    }

    method Keep(stamps: seq<int>, cutoff: int) returns (recent: seq<int>)
      ensures recent == After(stamps, cutoff)
    {
      recent := [];
      for i := 0 to |stamps|
        invariant recent == After(stamps[..i], cutoff)
      {
        assert stamps[..i + 1][..i] == stamps[..i];
        if stamps[i] > cutoff {
          recent := recent + [stamps[i]];
        }
      }
      assert stamps[..|stamps|] == stamps;
    }

    function HeldFor(user: K): seq<int>
      reads this`timestamps
    {
      StampsOf(timestamps, user)
    }

    method Allow(user: K, now: int) returns (ok: bool)
      modifies this`timestamps
      ensures ok <==> |Later(old(HeldFor(user)), now - window)| < maxMsgs
      ensures forall u :: HeldFor(u) == Next(Limit(maxMsgs, window), old(HeldFor(u)), u, Call.Allow(user, now))
    {
      var cutoff := now - window;
      var recent := Keep(HeldFor(user), cutoff);
      AfterIsExact(HeldFor(user), cutoff);
      if |recent| >= maxMsgs {
        timestamps := timestamps[user := recent];
        return false;
      }
      timestamps := timestamps[user := recent + [now]];
      return true;
    }

    /** Also forgets the users with nothing left. */
    method Cleanup(now: int)
      modifies this`timestamps
      ensures forall u :: HeldFor(u) == Next(Limit(maxMsgs, window), old(HeldFor(u)), u, Call.Cleanup(now))
      ensures forall u :: u in timestamps <==> After(old(HeldFor(u)), now - window * 2) != []
    {
      var cutoff := now - window * 2;
      ghost var before := timestamps;
      var pending := timestamps.Keys;
      assert timestamps == PartlyCleaned(before, cutoff, pending);
      while pending != {}
        invariant pending <= before.Keys
        invariant timestamps == PartlyCleaned(before, cutoff, pending)
        decreases |pending|
      {
        var user :| user in pending;
        CleanOneMore(before, cutoff, pending, user);
        var kept := Keep(timestamps[user], cutoff);
        if |kept| == 0 {
          timestamps := timestamps - {user};
        } else {
          timestamps := timestamps[user := kept];
        }
        pending := pending - {user};
      }
      forall u: K ensures HeldFor(u) == After(old(HeldFor(u)), cutoff) && (u in timestamps <==> HeldFor(u) != []) {
        CleanedHolds(before, cutoff, u);
      }
    }
  }

  // ---------------------------------------------------------------------
  // Outbound spacing
  // ---------------------------------------------------------------------

  const MIN_DELAY := SECOND
  const FORGET_AFTER := 300 * SECOND

  /** A send that waits, called at `now` and sent at `sent`, or a sweep of the stale chats. */
  datatype Send<K> = Wait(chat: K, now: int, sent: int) | Sweep(now: int)

  function NextLast<K(==)>(last: Option<int>, chat: K, call: Send<K>): Option<int> {
    match call
    case Wait(c, _, sent) => if c == chat then Some(sent) else last
    case Sweep(now) => if last.Some? && last.value < now - FORGET_AFTER then None else last
  }

  function LastSent<K(==)>(calls: seq<Send<K>>, chat: K): Option<int> {
    if calls == [] then None else NextLast(LastSent(calls[..|calls| - 1], chat), chat, calls[|calls| - 1])
  }

  /** Sleeping may take longer than asked, never shorter. */
  predicate SleepsEnough(last: Option<int>, now: int, sent: int) {
    now <= sent && (last.Some? && now - last.value < MIN_DELAY ==> last.value + MIN_DELAY <= sent)
  }

  /** Calls one after the other under the limiter's lock, all done by t. */
  predicate Possible<K(==)>(calls: seq<Send<K>>, t: int) {
    calls != [] ==>
      var before, call := calls[..|calls| - 1], calls[|calls| - 1];
      && Possible(before, call.now)
      && (call.Wait? ==> SleepsEnough(LastSent(before, call.chat), call.now, call.sent))
      && (if call.Wait? then call.sent else call.now) <= t
  }

  function Sends<K(==)>(calls: seq<Send<K>>, chat: K): seq<int> {
    if calls == [] then [] else
      var before, call := Sends(calls[..|calls| - 1], chat), calls[|calls| - 1];
      if call.Wait? && call.chat == chat then before + [call.sent] else before
  }

  ghost predicate Spaced(sends: seq<int>) {
    forall i, j | 0 <= i < j < |sends| :: sends[i] + MIN_DELAY <= sends[j]
  }

  lemma SpacedOneMore(sends: seq<int>, sent: int)
    requires Spaced(sends) && (sends != [] ==> sends[|sends| - 1] + MIN_DELAY <= sent)
    ensures Spaced(sends + [sent])
  {
    forall i, j | 0 <= i < j < |sends| + 1 ensures (sends + [sent])[i] + MIN_DELAY <= (sends + [sent])[j] {
      if j == |sends| && i < |sends| - 1 {
        assert sends[i] + MIN_DELAY <= sends[|sends| - 1];
      }
    }
  }

  /**
   Two messages to one chat are never less than the minimum delay apart, in any run:
   a sweep forgets a chat only when its last message is long past.
   */
  lemma {:induction false} SendsAreSpaced<K>(calls: seq<Send<K>>, chat: K, t: int)
    requires Possible(calls, t)
    ensures Spaced(Sends(calls, chat))
    ensures var sends, last := Sends(calls, chat), LastSent(calls, chat);
            if last.Some? then sends != [] && last.value == sends[|sends| - 1] <= t
            else sends != [] ==> sends[|sends| - 1] < t - FORGET_AFTER
    decreases |calls|
  {
    if calls != [] {
      var before, call := calls[..|calls| - 1], calls[|calls| - 1];
      SendsAreSpaced(before, chat, call.now);
      if call.Wait? && call.chat == chat {
        SpacedOneMore(Sends(before, chat), call.sent);
      }
    }
  }

  class ChatRateLimiter<K(==, !new)> {
    var lastSent: map<K, int>

    constructor ()
      ensures forall chat :: LastFor(chat).None?
    {
      lastSent := map[];
    }

    function LastFor(chat: K): Option<int>
      reads this`lastSent
    {
      if chat in lastSent then Some(lastSent[chat]) else None
    }

    /** `overslept` is how much later than asked the clock is read again. */
    method Wait(chat: K, now: int, overslept: nat) returns (sent: int)
      modifies this`lastSent
      ensures SleepsEnough(old(LastFor(chat)), now, sent)
      ensures var last := old(LastFor(chat));
              var due := if last.Some? then last.value + 1_000_000_000 else now;
              sent == (if now < due then due else now) + overslept
      ensures forall c :: LastFor(c) == NextLast(old(LastFor(c)), c, Send.Wait(chat, now, sent))
    {
      sent := now;
      if chat in lastSent {
        var elapsed := now - lastSent[chat];
        if elapsed < MIN_DELAY {
          sent := sent + (MIN_DELAY - elapsed);
        }
      }
      sent := sent + overslept;
      lastSent := lastSent[chat := sent];
    }

    method Sweep(now: int)
      modifies this`lastSent
      ensures forall c :: LastFor(c) == NextLast(old(LastFor(c)), c, Send.Sweep(now))
    {
      var cutoff := now - FORGET_AFTER;
      var pending := lastSent.Keys;
      while pending != {}
        invariant pending <= old(lastSent).Keys
        invariant forall c :: LastFor(c) == if c in pending then old(LastFor(c))
                                            else NextLast(old(LastFor(c)), c, Send.Sweep(now))
        decreases |pending|
      {
        var id :| id in pending;
        assert LastFor(id) == old(LastFor(id)) == Some(lastSent[id]);
        if lastSent[id] < cutoff {
          lastSent := lastSent - {id};
        }
        pending := pending - {id};
      }
    }
  }
}
