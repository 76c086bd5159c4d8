/**
 Pipeline definitions, the per-session progress tables of the in-flight store,
 and the agent-to-stage index built from the definitions.
 */
module Pipelines {
  import opened Options

  // ---------------------------------------------------------------------
  // Progress and start times, keyed by session and then by pipeline
  // ---------------------------------------------------------------------

  type Progress = map<string, map<string, set<int>>>
  type StartTimes = map<string, map<string, int>>

  function Done(p: Progress, sessionID: string, pipeline: string): set<int> {
    if sessionID in p && pipeline in p[sessionID] then p[sessionID][pipeline] else {}
  }

  /** Recording creates the session and pipeline tables on first use. */
  function Recorded(p: Progress, sessionID: string, pipeline: string, stage: int): Progress {
    var session := if sessionID in p then p[sessionID] else map[];
    var stages := if pipeline in session then session[pipeline] else {};
    p[sessionID := session[pipeline := stages + {stage}]]
  }

  lemma RecordedAddsOneStage(p: Progress, sessionID: string, pipeline: string, stage: int)
    ensures forall s, n :: Done(Recorded(p, sessionID, pipeline, stage), s, n) ==
                           Done(p, s, n) + (if s == sessionID && n == pipeline then {stage} else {})
  {}

  function Started(t: StartTimes, sessionID: string, pipeline: string): Option<int> {
    if sessionID in t && pipeline in t[sessionID] then Some(t[sessionID][pipeline]) else None
  }

  /** A start time is written once; a retry keeps the first one. */
  function WithStart(t: StartTimes, sessionID: string, pipeline: string, now: int): StartTimes {
    var session := if sessionID in t then t[sessionID] else map[];
    t[sessionID := if pipeline in session then session else session[pipeline := now]]
  }

  lemma WithStartKeepsFirst(t: StartTimes, sessionID: string, pipeline: string, now: int)
    ensures forall s, n :: Started(WithStart(t, sessionID, pipeline, now), s, n) ==
                           if s == sessionID && n == pipeline && Started(t, s, n).None? then Some(now)
                           else Started(t, s, n)
  {}

  /** Zero for a pipeline that never started. */
  function Elapsed(t: StartTimes, sessionID: string, pipeline: string, now: int): int {
    match Started(t, sessionID, pipeline)
    case Some(start) => now - start
    case None => 0
  }

  /** A pipeline is over its time exactly if it has started and more than the limit has passed since. */
  lemma OverTimeIff(t: StartTimes, sessionID: string, pipeline: string, now: int, limit: nat)
    ensures Elapsed(t, sessionID, pipeline, now) > limit <==>
              sessionID in t && pipeline in t[sessionID] && now > t[sessionID][pipeline] + limit
  {}

  // ---------------------------------------------------------------------
  // Completed stages form a prefix
  // ---------------------------------------------------------------------

  ghost predicate DownwardClosed(stages: set<int>) {
    forall s, t | s in stages && 1 <= t <= s :: t in stages
  }

  /** The stages 1 to k. */
  function UpTo(k: nat): (stages: set<int>)
    ensures |stages| == k
    ensures forall i :: i in stages <==> 1 <= i <= k
  {
    if k == 0 then {} else UpTo(k - 1) + {k}
  }

  /** A downward-closed set of positive stages is exactly {1..k}, with k its size. */
  lemma {:induction false} PrefixFromClosure(stages: set<int>)
    requires DownwardClosed(stages) && forall s | s in stages :: s >= 1
    ensures stages == UpTo(|stages|)
  {
    if stages != {} {
      var top := Largest(stages);
      PrefixEndsAt(stages, top);
    }
  }

  lemma PrefixEndsAt(stages: set<int>, top: int)
    requires DownwardClosed(stages) && top in stages && top >= 1
    requires forall s | s in stages :: 1 <= s <= top
    ensures stages == UpTo(top)
  {}

  lemma {:induction false} Largest(stages: set<int>) returns (top: int)
    requires stages != {}
    ensures top in stages && forall s | s in stages :: s <= top
    decreases stages
  {
    var x := Pick(stages);
    if stages == {x} {
      top := x;
    } else {
      var other := Largest(stages - {x});
      top := if other < x then x else other;
      assert forall s | s in stages :: s == x || s in stages - {x};
    }
  }

  // ---------------------------------------------------------------------
  // Agent index
  // ---------------------------------------------------------------------

  datatype Pipeline = Pipeline(name: string, stages: seq<string>)

  datatype PipelineAgent = PipelineAgent(pipeline: string, stage: int)

  /** Every (agent, pipeline, 1-based stage) of the definitions, in order. */
  function Slots(pipelines: seq<Pipeline>): seq<(string, PipelineAgent)> {
    if pipelines == [] then [] else
      var last := pipelines[|pipelines| - 1];
      Slots(pipelines[..|pipelines| - 1]) + StageSlots(last, |last.stages|)
  }

  function StageSlots(p: Pipeline, n: nat): (slots: seq<(string, PipelineAgent)>)
    requires n <= |p.stages|
    ensures |slots| == n
    ensures forall i | 0 <= i < n :: slots[i] == (p.stages[i], PipelineAgent(p.name, i + 1))
  {
    if n == 0 then [] else StageSlots(p, n - 1) + [(p.stages[n - 1], PipelineAgent(p.name, n))]
  }

  ghost predicate FirstSlot(slots: seq<(string, PipelineAgent)>, agent: string, pa: PipelineAgent) {
    exists k | 0 <= k < |slots| ::
      slots[k] == (agent, pa) && forall i | 0 <= i < k :: slots[i].0 != agent
  }

  ghost predicate IndexOf(m: map<string, PipelineAgent>, slots: seq<(string, PipelineAgent)>) {
    && (forall a | a in m :: FirstSlot(slots, a, m[a]))
    && (forall i | 0 <= i < |slots| :: slots[i].0 in m)
  }

  lemma IndexExtends(m: map<string, PipelineAgent>, slots: seq<(string, PipelineAgent)>,
        agent: string, pa: PipelineAgent)
    requires IndexOf(m, slots)
    ensures IndexOf(if agent in m then m else m[agent := pa], slots + [(agent, pa)])
  {
    var more := slots + [(agent, pa)];
    var m' := if agent in m then m else m[agent := pa];
    forall a | a in m' ensures FirstSlot(more, a, m'[a]) {
      if a in m {
        var k :| 0 <= k < |slots| && slots[k] == (a, m[a]) && forall i | 0 <= i < k :: slots[i].0 != a;
        assert more[k] == (a, m[a]) && forall i | 0 <= i < k :: more[i].0 != a;
      } else {
        assert more[|slots|] == (a, pa) && forall i | 0 <= i < |slots| :: more[i].0 != a;
      }
    }
  }

  /**
   Indexes every agent by the first slot that names it, in definition order:
   a later slot of the same agent, in this or another pipeline, is ignored.
   */
  method AgentSet(pipelines: seq<Pipeline>) returns (m: map<string, PipelineAgent>)
    ensures IndexOf(m, Slots(pipelines))
  {
    m := map[];
    for p := 0 to |pipelines|
      invariant IndexOf(m, Slots(pipelines[..p]))
    {
      ghost var before := Slots(pipelines[..p]);
      var current := pipelines[p];
      assert before + StageSlots(current, 0) == before;
      for i := 0 to |current.stages|
        invariant IndexOf(m, before + StageSlots(current, i))
      {
        IndexExtends(m, before + StageSlots(current, i), current.stages[i], PipelineAgent(current.name, i + 1));
        assert before + StageSlots(current, i + 1) ==
               before + StageSlots(current, i) + [(current.stages[i], PipelineAgent(current.name, i + 1))];
        if current.stages[i] !in m {
          m := m[current.stages[i] := PipelineAgent(current.name, i + 1)];
        }
      }
      assert pipelines[..p + 1][..p] == pipelines[..p];
    }
    assert pipelines[..|pipelines|] == pipelines;
  }

  lemma {:induction false} SlotsArePositive(pipelines: seq<Pipeline>)
    ensures forall i | 0 <= i < |Slots(pipelines)| :: Slots(pipelines)[i].1.stage >= 1
  {
    if pipelines != [] {
      SlotsArePositive(pipelines[..|pipelines| - 1]);
    }
  }

  /** Two indexes of the same definitions are equal, and every indexed stage is at least 1. */
  lemma IndexIsUnique(m: map<string, PipelineAgent>, m': map<string, PipelineAgent>, pipelines: seq<Pipeline>)
    requires IndexOf(m, Slots(pipelines)) && IndexOf(m', Slots(pipelines))
    ensures m == m' && forall a | a in m :: m[a].stage >= 1
  {
    var slots := Slots(pipelines);
    SlotsArePositive(pipelines);
    forall a | a in m ensures a in m' && m[a] == m'[a] && m[a].stage >= 1 {
      var k :| 0 <= k < |slots| && slots[k] == (a, m[a]) && forall i | 0 <= i < k :: slots[i].0 != a;
      var k' :| 0 <= k' < |slots| && slots[k'] == (a, m'[a]) && forall i | 0 <= i < k' :: slots[i].0 != a;
      assert k == k';
    }
    forall a | a in m' ensures a in m {
      assert FirstSlot(slots, a, m'[a]);
    }
  }
}
