/**
 The in-memory checkpoint saver and its lineage index. Only the first save of an
 execution names its lineage; later ones name just their parent, and the saver
 resolves the lineage when it stores them.
 */
module Checkpoints {
  import opened Options

  datatype Checkpoint = Checkpoint(id: string, channelValues: map<string, string>)
  datatype Tuple = Tuple(checkpoint: Checkpoint, metadata: Option<string>)

  /** The keys of a request's config the saver looks at; an empty string is a missing key. */
  datatype Config = Config(lineageID: string, topCheckpointID: string, checkpointID: string)

  datatype PutRequest = PutRequest(
    config: Config,
    checkpoint: Checkpoint,
    metadata: Option<string>,
    pendingWrites: seq<string>)

  /** The top-level key if present, else the one under configurable. */
  function ParentID(c: Config): string {
    if c.topCheckpointID != "" then c.topCheckpointID else c.checkpointID
  }

  // ---------------------------------------------------------------------
  // The saver's maps as a value
  // ---------------------------------------------------------------------

  datatype Saver = Saver(
    checkpoints: map<string, Checkpoint>,
    byLineage: map<string, seq<string>>,
    lineageByCP: map<string, string>,
    writes: map<string, seq<string>>,
    metadata: map<string, string>,
    lastCheckpointID: string)

  const EMPTY := Saver(map[], map[], map[], map[], map[], "")

  function IDs(s: Saver, lineageID: string): seq<string> {
    if lineageID in s.byLineage then s.byLineage[lineageID] else []
  }

  /** The lineage a checkpoint is filed under, "" for none. */
  function Filed(s: Saver, id: string): string {
    if id in s.lineageByCP then s.lineageByCP[id] else ""
  }

  function Resolve(s: Saver, c: Config): string {
    if c.lineageID != "" then c.lineageID
    else if ParentID(c) != "" && ParentID(c) in s.lineageByCP then s.lineageByCP[ParentID(c)]
    else ""
  }

  /** Stores a request under the ID `id`; `full` also stores its pending writes. */
  function Stored(s: Saver, id: string, req: PutRequest, full: bool): Saver {
    var lineageID := Resolve(s, req.config);
    Saver(
      s.checkpoints[id := req.checkpoint.(id := id)],
      if lineageID != "" then s.byLineage[lineageID := IDs(s, lineageID) + [id]] else s.byLineage,
      if lineageID != "" then s.lineageByCP[id := lineageID] else s.lineageByCP,
      if full && req.pendingWrites != [] then s.writes[id := req.pendingWrites] else s.writes,
      if req.metadata.Some? then s.metadata[id := req.metadata.value] else s.metadata,
      id)
  }

  function Elements(ids: seq<string>): set<string> {
    set id | id in ids
  }

  function Erased(s: Saver, lineageID: string): Saver {
    var gone := Elements(IDs(s, lineageID));
    Saver(s.checkpoints - gone, s.byLineage - {lineageID}, s.lineageByCP - gone, s.writes - gone, s.metadata - gone,
          s.lastCheckpointID)
  }

  function TupleOf(s: Saver, id: string): Tuple
    requires id in s.checkpoints
  {
    Tuple(s.checkpoints[id], if id in s.metadata then Some(s.metadata[id]) else None)
  }

  /** The stored checkpoints among `ids`, in order. */
  function Tuples(s: Saver, ids: seq<string>): seq<Tuple> {
    if ids == [] then [] else
      Tuples(s, ids[..|ids| - 1]) + (if ids[|ids| - 1] in s.checkpoints then [TupleOf(s, ids[|ids| - 1])] else [])
  }

  function Latest(s: Saver, lineageID: string): Option<Checkpoint> {
    var ids := IDs(s, lineageID);
    if lineageID == "" || ids == [] then None
    else if ids[|ids| - 1] in s.checkpoints then Some(s.checkpoints[ids[|ids| - 1]]) else None
  }

  // ---------------------------------------------------------------------
  // The index is consistent
  // ---------------------------------------------------------------------

  ghost predicate Distinct(ids: seq<string>) {
    forall i, j | 0 <= i < j < |ids| :: ids[i] != ids[j]
  }

  /** byLineage and lineageByCP are inverse, without duplicates, over stored checkpoints. */
  ghost predicate Consistent(s: Saver) {
    && (forall l | l in s.byLineage :: l != "" && s.byLineage[l] != [] && Distinct(s.byLineage[l]))
    && (forall l, id :: id in IDs(s, l) <==> id in s.lineageByCP && s.lineageByCP[id] == l)
    && (forall id | id in s.lineageByCP :: s.lineageByCP[id] != "" && id in s.checkpoints)
    && s.metadata.Keys <= s.checkpoints.Keys
  }

  lemma AppendDistinct(ids: seq<string>, id: string)
    requires Distinct(ids)
    ensures Distinct(ids + [id]) <==> id !in ids
  {
    if id in ids {
      var k :| 0 <= k < |ids| && ids[k] == id;
      assert (ids + [id])[k] == (ids + [id])[|ids|];
    }
  }

  lemma UnfiledSaveKeepsIndex(s: Saver, id: string, req: PutRequest, full: bool)
    requires Consistent(s) && Resolve(s, req.config) == ""
    ensures Consistent(Stored(s, id, req, full))
  {
    var s' := Stored(s, id, req, full);
    forall m, x ensures x in IDs(s', m) <==> x in s'.lineageByCP && s'.lineageByCP[x] == m {
      assert IDs(s', m) == IDs(s, m);
    }
  }

  lemma NewSaveKeepsIndex(s: Saver, id: string, req: PutRequest, full: bool)
    requires Consistent(s) && Resolve(s, req.config) != "" && id !in s.lineageByCP
    ensures Consistent(Stored(s, id, req, full))
  {
    var l, s' := Resolve(s, req.config), Stored(s, id, req, full);
    AppendDistinct(IDs(s, l), id);
    assert id !in IDs(s, l);
    forall m, x ensures x in IDs(s', m) <==> x in s'.lineageByCP && s'.lineageByCP[x] == m {
      assert x in IDs(s', m) <==> x in IDs(s, m) || (m == l && x == id);
      assert x in IDs(s, m) <==> x in s.lineageByCP && s.lineageByCP[x] == m;
    }
  }

  lemma RepeatedSaveBreaksIndex(s: Saver, id: string, req: PutRequest, full: bool)
    requires Consistent(s) && Resolve(s, req.config) != "" && id in s.lineageByCP
    ensures !Consistent(Stored(s, id, req, full))
  {
    var l, s', was := Resolve(s, req.config), Stored(s, id, req, full), s.lineageByCP[id];
    assert id in IDs(s, was);
    if was == l {
      AppendDistinct(IDs(s, l), id);
      assert s'.byLineage[l] == IDs(s, l) + [id];
    } else {
      assert id in IDs(s', was) && s'.lineageByCP[id] == l;
    }
  }

  /**
   A save keeps the index consistent exactly when it files its checkpoint under
   no lineage or its ID was not filed before. A UUID never was; an ID the caller
   supplies again is listed twice, or under two lineages.
   */
  lemma SaveKeepsIndexIff(s: Saver, id: string, req: PutRequest, full: bool)
    requires Consistent(s)
    ensures Consistent(Stored(s, id, req, full)) <==> Resolve(s, req.config) == "" || id !in s.lineageByCP
  {
    if Resolve(s, req.config) == "" {
      UnfiledSaveKeepsIndex(s, id, req, full);
    } else if id !in s.lineageByCP {
      NewSaveKeepsIndex(s, id, req, full);
    } else {
      RepeatedSaveBreaksIndex(s, id, req, full);
    }
  }

  lemma EraseKeepsIndex(s: Saver, lineageID: string)
    requires Consistent(s)
    ensures Consistent(Erased(s, lineageID))
    ensures forall l | l != lineageID :: IDs(Erased(s, lineageID), l) == IDs(s, l)
    ensures forall id | Filed(s, id) != lineageID :: Filed(Erased(s, lineageID), id) == Filed(s, id)
    ensures forall id | id in s.checkpoints ::
              id in Erased(s, lineageID).checkpoints <==> lineageID == "" || Filed(s, id) != lineageID
  {
    var s', gone := Erased(s, lineageID), Elements(IDs(s, lineageID));
    forall l, id ensures id in IDs(s', l) <==> id in s'.lineageByCP && s'.lineageByCP[id] == l {
      assert IDs(s', l) == if l == lineageID then [] else IDs(s, l);
      assert id in IDs(s, l) <==> id in s.lineageByCP && s.lineageByCP[id] == l;
      assert id in gone <==> id in s.lineageByCP && s.lineageByCP[id] == lineageID;
    }
  }

  /** Deleting a lineage erases it and leaves every other Get and List answer as it was. */
  lemma DeleteLineageIsExact(s: Saver, lineageID: string)
    requires Consistent(s) && lineageID != ""
    ensures var s' := Erased(s, lineageID);
            && Latest(s', lineageID) == None && IDs(s', lineageID) == []
            && (forall l | l != lineageID ::
                  Latest(s', l) == Latest(s, l) && Tuples(s', IDs(s', l)) == Tuples(s, IDs(s, l)))
            && (forall id | Filed(s, id) != lineageID :: id in s'.checkpoints <==> id in s.checkpoints)
            && (forall id | Filed(s, id) != lineageID && id in s.checkpoints :: TupleOf(s', id) == TupleOf(s, id))
            && (forall id | Filed(s, id) != lineageID :: id in s'.writes <==> id in s.writes)
            && (forall id | Filed(s, id) != lineageID && id in s.writes :: s'.writes[id] == s.writes[id])
            && (forall id | Filed(s, id) == lineageID ::
                  id !in s'.checkpoints && id !in s'.writes && id !in s'.metadata)
  {
    var s' := Erased(s, lineageID);
    EraseKeepsIndex(s, lineageID);
    forall l | l != lineageID ensures Latest(s', l) == Latest(s, l) && Tuples(s', IDs(s', l)) == Tuples(s, IDs(s, l)) {
      forall id | id in IDs(s, l) ensures Filed(s, id) != lineageID {}
      SameTuples(s, s', IDs(s, l));
    }
  }

  lemma {:induction false} SameTuples(s: Saver, s': Saver, ids: seq<string>)
    requires forall id | id in ids ::
               && (id in s'.checkpoints <==> id in s.checkpoints)
               && (id in s.checkpoints ==> TupleOf(s', id) == TupleOf(s, id))
    ensures Tuples(s', ids) == Tuples(s, ids)
  {
    if ids != [] {
      SameTuples(s, s', ids[..|ids| - 1]);
    }
  }

  // ---------------------------------------------------------------------
  // Reference: a log of saves, with lineages found by following parents
  // ---------------------------------------------------------------------

  datatype Entry = Entry(id: string, named: string, parent: string, checkpoint: Checkpoint)

  function Last(log: seq<Entry>): Entry
    requires log != []
  {
    log[|log| - 1]
  }

  function Init(log: seq<Entry>): seq<Entry>
    requires log != []
  {
    log[..|log| - 1]
  }

  ghost predicate InLog(log: seq<Entry>, id: string) {
    exists k | 0 <= k < |log| :: log[k].id == id
  }

  /** Follow parents back, through earlier saves, to the one that named a lineage. */
  function LineageOf(log: seq<Entry>, id: string): string
    decreases |log|
  {
    if log == [] then ""
    else if Last(log).id != id then LineageOf(Init(log), id)
    else if Last(log).named != "" then Last(log).named
    else LineageOf(Init(log), Last(log).parent)
  }

  /** The saves of one lineage, oldest first. */
  function Members(log: seq<Entry>, lineageID: string): seq<string> {
    if log == [] then []
    else Members(Init(log), lineageID) + (if LineageOf(log, Last(log).id) == lineageID then [Last(log).id] else [])
  }

  /** The log without one lineage. */
  function Without(log: seq<Entry>, lineageID: string): seq<Entry> {
    if log == [] then []
    else Without(Init(log), lineageID) + (if LineageOf(log, Last(log).id) == lineageID then [] else [Last(log)])
  }

  ghost predicate FreshIDs(log: seq<Entry>) {
    && (forall k | 0 <= k < |log| :: log[k].id != "")
    && (forall i, j | 0 <= i < j < |log| :: log[i].id != log[j].id)
  }

  lemma {:induction false} UnloggedHasNoLineage(log: seq<Entry>, id: string)
    requires !InLog(log, id)
    ensures LineageOf(log, id) == ""
    decreases |log|
  {
    if log != [] {
      assert Last(log).id != id;
      assert forall k | 0 <= k < |Init(log)| :: Init(log)[k] == log[k];
      UnloggedHasNoLineage(Init(log), id);
    }
  }

  lemma {:induction false} WithoutIsPart(log: seq<Entry>, lineageID: string)
    ensures forall id :: InLog(Without(log, lineageID), id) ==> InLog(log, id)
    ensures FreshIDs(log) ==> FreshIDs(Without(log, lineageID))
    decreases |log|
  {
    if log != [] {
      var part := Without(Init(log), lineageID);
      WithoutIsPart(Init(log), lineageID);
      forall id | InLog(Without(log, lineageID), id) ensures InLog(log, id) {
        var k :| 0 <= k < |Without(log, lineageID)| && Without(log, lineageID)[k].id == id;
        if k < |part| {
          assert InLog(part, id);
          var j :| 0 <= j < |Init(log)| && Init(log)[j].id == id;
          assert log[j].id == id;
        } else {
          assert log[|log| - 1].id == id;
        }
      }
      if FreshIDs(log) {
        forall k | 0 <= k < |part| ensures part[k].id != Last(log).id {
          assert InLog(part, part[k].id);
          var j :| 0 <= j < |Init(log)| && Init(log)[j].id == part[k].id;
          assert log[j].id == part[k].id;
        }
      }
    }
  }

  lemma LineageOneMore(log: seq<Entry>, e: Entry, id: string)
    ensures LineageOf(log + [e], id) ==
            if e.id != id then LineageOf(log, id) else if e.named != "" then e.named else LineageOf(log, e.parent)
  {
    assert Init(log + [e]) == log && Last(log + [e]) == e;
  }

  lemma WithoutOneMore(log: seq<Entry>, e: Entry, lineageID: string)
    ensures Without(log + [e], lineageID) ==
            if LineageOf(log + [e], e.id) == lineageID then Without(log, lineageID) else Without(log, lineageID) + [e]
  {
    assert Init(log + [e]) == log && Last(log + [e]) == e;
    assert Without(log, lineageID) + [] == Without(log, lineageID);
  }

  /** Removing a lineage takes it from exactly its own saves; no other parent chain passes through it. */
  lemma {:induction false} WithoutLineage(log: seq<Entry>, lineageID: string, id: string)
    requires FreshIDs(log) && lineageID != ""
    ensures LineageOf(Without(log, lineageID), id) == if LineageOf(log, id) == lineageID then "" else LineageOf(log, id)
    decreases |log|
  {
    if log != [] {
      var rest, last := Init(log), Last(log);
      assert log == rest + [last];
      WithoutLineage(rest, lineageID, id);
      WithoutLineage(rest, lineageID, last.parent);
      WithoutOneMore(rest, last, lineageID);
      LineageOneMore(rest, last, id);
      LineageOneMore(rest, last, last.id);
      LineageOneMore(Without(rest, lineageID), last, id);
      if id == last.id && LineageOf(log, id) == lineageID {
        RemovedHasNoLineage(rest, lineageID, last);
      }
    }
  }

  lemma RemovedHasNoLineage(log: seq<Entry>, lineageID: string, e: Entry)
    requires FreshIDs(log + [e])
    ensures LineageOf(Without(log, lineageID), e.id) == ""
  {
    WithoutIsPart(log, lineageID);
    assert (log + [e])[|log|] == e && forall k | 0 <= k < |log| :: (log + [e])[k] == log[k];
    assert !InLog(log, e.id);
    UnloggedHasNoLineage(Without(log, lineageID), e.id);
  }

  lemma MembersOneMore(log: seq<Entry>, e: Entry, lineageID: string)
    ensures Members(log + [e], lineageID) ==
            if LineageOf(log + [e], e.id) == lineageID then Members(log, lineageID) + [e.id]
            else Members(log, lineageID)
  {
    assert Init(log + [e]) == log && Last(log + [e]) == e;
    assert Members(log, lineageID) + [] == Members(log, lineageID);
  }

  lemma {:induction false} WithoutMembers(log: seq<Entry>, lineageID: string, l: string)
    requires FreshIDs(log) && lineageID != "" && l != ""
    ensures Members(Without(log, lineageID), l) == if l == lineageID then [] else Members(log, l)
    decreases |log|
  {
    if log != [] {
      var rest, last := Init(log), Last(log);
      assert log == rest + [last];
      WithoutMembers(rest, lineageID, l);
      WithoutLineage(log, lineageID, last.id);
      WithoutOneMore(rest, last, lineageID);
      MembersOneMore(rest, last, l);
      MembersOneMore(Without(rest, lineageID), last, l);
    }
  }

  // ---------------------------------------------------------------------
  // Runs of saves and deletions
  // ---------------------------------------------------------------------

  datatype Op =
    | Save(id: string, req: PutRequest, full: bool)
    | PutWrites(checkpointID: string, writes: seq<string>)
    | DeleteLineage(lineageID: string)

  function AddWrites(s: Saver, id: string, writes: seq<string>): Saver {
    if id == "" then s else s.(writes := s.writes[id := (if id in s.writes then s.writes[id] else []) + writes])
  }

  function Apply(s: Saver, op: Op): Saver {
    match op
    case Save(id, req, full) => Stored(s, id, req, full)
    case PutWrites(id, writes) => AddWrites(s, id, writes)
    case DeleteLineage(l) => Erased(s, l)
  }

  function Exec(ops: seq<Op>): Saver {
    if ops == [] then EMPTY else Apply(Exec(ops[..|ops| - 1]), ops[|ops| - 1])
  }

  function Log(ops: seq<Op>): seq<Entry> {
    if ops == [] then [] else
      var log := Log(ops[..|ops| - 1]);
      match ops[|ops| - 1]
      case Save(id, req, _) => log + [NewEntry(id, req)]
      case PutWrites(_, _) => log
      case DeleteLineage(l) => if l == "" then log else Without(log, l)
  }

  /** Every save uses an ID that is not stored at the time. */
  ghost predicate FreshRun(ops: seq<Op>) {
    ops != [] ==>
      && FreshRun(ops[..|ops| - 1])
      && (ops[|ops| - 1].Save? ==> ops[|ops| - 1].id != "" && ops[|ops| - 1].id !in Exec(ops[..|ops| - 1]).checkpoints)
  }

  /** The saver stores what the log lists. */
  ghost predicate SameStore(s: Saver, log: seq<Entry>) {
    && (forall id :: id in s.checkpoints <==> InLog(log, id))
    && (forall k | 0 <= k < |log| :: log[k].id in s.checkpoints && s.checkpoints[log[k].id] == log[k].checkpoint)
  }

  /** The saver files what the log resolves. */
  ghost predicate SameIndex(s: Saver, log: seq<Entry>) {
    && (forall id :: Filed(s, id) == LineageOf(log, id))
    && (forall l | l != "" :: IDs(s, l) == Members(log, l))
  }

  ghost predicate Refines(s: Saver, log: seq<Entry>) {
    FreshIDs(log) && SameStore(s, log) && SameIndex(s, log)
  }

  function NewEntry(id: string, req: PutRequest): Entry {
    Entry(id, req.config.lineageID, ParentID(req.config), req.checkpoint.(id := id))
  }

  lemma SaveStores(s: Saver, log: seq<Entry>, id: string, req: PutRequest, full: bool)
    requires FreshIDs(log) && SameStore(s, log) && id != "" && id !in s.checkpoints
    ensures FreshIDs(log + [NewEntry(id, req)]) && SameStore(Stored(s, id, req, full), log + [NewEntry(id, req)])
  {
    var more := log + [NewEntry(id, req)];
    assert !InLog(log, id);
    forall x ensures InLog(more, x) <==> InLog(log, x) || x == id {
      if InLog(log, x) {
        var k :| 0 <= k < |log| && log[k].id == x;
        assert more[k].id == x;
      }
      assert more[|log|].id == id;
    }
  }

  lemma SaveResolves(s: Saver, log: seq<Entry>, id: string, req: PutRequest)
    requires FreshIDs(log) && SameIndex(s, log) && !InLog(log, id)
    ensures Resolve(s, req.config) == LineageOf(log + [NewEntry(id, req)], id)
    ensures Filed(s, id) == ""
  {
    LineageOneMore(log, NewEntry(id, req), id);
    UnloggedHasNoLineage(log, "");
    UnloggedHasNoLineage(log, id);
    assert Filed(s, ParentID(req.config)) == LineageOf(log, ParentID(req.config));
    assert Filed(s, id) == LineageOf(log, id);
  }

  lemma SaveFiles(s: Saver, log: seq<Entry>, id: string, req: PutRequest, full: bool)
    requires FreshIDs(log) && SameIndex(s, log) && id != "" && !InLog(log, id)
    ensures SameIndex(Stored(s, id, req, full), log + [NewEntry(id, req)])
  {
    var e, s' := NewEntry(id, req), Stored(s, id, req, full);
    SaveResolves(s, log, id, req);
    forall x ensures Filed(s', x) == LineageOf(log + [e], x) {
      LineageOneMore(log, e, x);
      assert Filed(s, x) == LineageOf(log, x);
    }
    forall l | l != "" ensures IDs(s', l) == Members(log + [e], l) {
      MembersOneMore(log, e, l);
      assert IDs(s, l) == Members(log, l);
    }
  }

  lemma EraseStores(s: Saver, log: seq<Entry>, lineageID: string)
    requires Consistent(s) && Refines(s, log) && lineageID != ""
    ensures SameStore(Erased(s, lineageID), Without(log, lineageID))
  {
    var s', part := Erased(s, lineageID), Without(log, lineageID);
    EraseKeepsIndex(s, lineageID);
    WithoutEntries(log, lineageID);
    forall k | 0 <= k < |part|
      ensures part[k].id in s'.checkpoints && s'.checkpoints[part[k].id] == part[k].checkpoint
    {
      assert part[k] in log && LineageOf(log, part[k].id) != lineageID;
      assert Filed(s, part[k].id) == LineageOf(log, part[k].id);
    }
    forall id | id in s'.checkpoints ensures InLog(part, id) {
      assert InLog(log, id) && Filed(s, id) == LineageOf(log, id);
      var k :| 0 <= k < |log| && log[k].id == id;
      assert log[k] in part;
    }
  }

  lemma EraseFiles(s: Saver, log: seq<Entry>, lineageID: string)
    requires Consistent(s) && Refines(s, log) && lineageID != ""
    ensures SameIndex(Erased(s, lineageID), Without(log, lineageID))
  {
    var s', part := Erased(s, lineageID), Without(log, lineageID);
    EraseKeepsIndex(s, lineageID);
    forall id ensures Filed(s', id) == LineageOf(part, id) {
      WithoutLineage(log, lineageID, id);
      assert Filed(s, id) == LineageOf(log, id);
      assert Filed(s, id) == lineageID ==> id in IDs(s, lineageID);
    }
    forall l | l != "" ensures IDs(s', l) == Members(part, l) {
      WithoutMembers(log, lineageID, l);
    }
  }

  lemma EraseRefines(s: Saver, log: seq<Entry>, lineageID: string)
    requires Consistent(s) && Refines(s, log)
    ensures Refines(Erased(s, lineageID), if lineageID == "" then log else Without(log, lineageID))
  {
    if lineageID == "" {
      assert "" !in s.byLineage;
      assert Erased(s, "") == s;
    } else {
      WithoutIsPart(log, lineageID);
      EraseStores(s, log, lineageID);
      EraseFiles(s, log, lineageID);
    }
  }

  lemma {:induction false} WithoutEntries(log: seq<Entry>, lineageID: string)
    requires FreshIDs(log)
    ensures forall e :: e in Without(log, lineageID) <==> e in log && LineageOf(log, e.id) != lineageID
    decreases |log|
  {
    if log != [] {
      WithoutEntries(Init(log), lineageID);
      assert log == Init(log) + [Last(log)];
      forall e | e in Init(log) ensures LineageOf(log, e.id) == LineageOf(Init(log), e.id) {
        var k :| 0 <= k < |Init(log)| && Init(log)[k] == e;
        assert log[k].id != log[|log| - 1].id;
      }
    }
  }

  /**
   Over any run of saves, writes and deletions in which IDs are fresh, the saver's
   index stays consistent and files every checkpoint under the lineage that
   following parents back finds, in the order of the saves.
   */
  lemma {:induction false} IndexRefinesParentChains(ops: seq<Op>)
    requires FreshRun(ops)
    ensures Consistent(Exec(ops)) && Refines(Exec(ops), Log(ops))
    decreases |ops|
  {
    if ops != [] {
      var s, log := Exec(ops[..|ops| - 1]), Log(ops[..|ops| - 1]);
      IndexRefinesParentChains(ops[..|ops| - 1]);
      match ops[|ops| - 1]
      case Save(id, req, full) =>
        SaveKeepsIndexIff(s, id, req, full);
        SaveStores(s, log, id, req, full);
        SaveFiles(s, log, id, req, full);
      case PutWrites(id, writes) =>
        WritesKeepRefinement(s, AddWrites(s, id, writes), log);
      case DeleteLineage(l) =>
        EraseKeepsIndex(s, l);
        EraseRefines(s, log, l);
    }
  }

  lemma WritesKeepRefinement(s: Saver, s': Saver, log: seq<Entry>)
    requires Consistent(s) && Refines(s, log) && s' == s.(writes := s'.writes)
    ensures Consistent(s') && Refines(s', log)
  {
    WritesKeepIndex(s, s');
    assert SameStore(s', log);
    assert SameIndex(s', log);
  }

  lemma WritesKeepIndex(s: Saver, s': Saver)
    requires Consistent(s) && s' == s.(writes := s'.writes)
    ensures Consistent(s')
    ensures forall l :: IDs(s', l) == IDs(s, l)
    ensures forall id :: Filed(s', id) == Filed(s, id)
  {
    assert forall l :: IDs(s', l) == IDs(s, l);
  }

  /** A log position holds the newest save of a lineage. */
  ghost predicate Newest(log: seq<Entry>, lineageID: string, k: int) {
    && 0 <= k < |log| && LineageOf(log, log[k].id) == lineageID
    && forall j | k < j < |log| :: LineageOf(log, log[j].id) != lineageID
  }

  lemma EarlierLineageStays(log: seq<Entry>, k: nat)
    requires FreshIDs(log) && k < |log| - 1
    ensures LineageOf(log, log[k].id) == LineageOf(Init(log), Init(log)[k].id)
  {
    assert log[k].id != log[|log| - 1].id;
  }

  lemma {:induction false} NoMembersNoSaves(log: seq<Entry>, lineageID: string, k: nat)
    requires FreshIDs(log) && Members(log, lineageID) == [] && k < |log|
    ensures LineageOf(log, log[k].id) != lineageID
    decreases |log|
  {
    if k < |log| - 1 {
      NoMembersNoSaves(Init(log), lineageID, k);
      EarlierLineageStays(log, k);
    }
  }

  lemma {:induction false} LastMemberIsNewest(log: seq<Entry>, lineageID: string) returns (k: nat)
    requires FreshIDs(log) && Members(log, lineageID) != []
    ensures Newest(log, lineageID, k) && log[k].id == Members(log, lineageID)[|Members(log, lineageID)| - 1]
    decreases |log|
  {
    var rest, n := Init(log), |log| - 1;
    if LineageOf(log, Last(log).id) == lineageID {
      k := n;
    } else {
      k := LastMemberIsNewest(rest, lineageID);
      EarlierLineageStays(log, k);
      forall j | k < j < |log| ensures LineageOf(log, log[j].id) != lineageID {
        if j < n {
          EarlierLineageStays(log, j);
        }
      }
    }
  }

  /** Get by lineage answers with the newest save of the tree, and with nothing when the tree is empty. */
  lemma GetReturnsTheNewest(ops: seq<Op>, lineageID: string)
    requires FreshRun(ops) && lineageID != ""
    ensures match Latest(Exec(ops), lineageID)
            case Some(cp) => exists k :: Newest(Log(ops), lineageID, k) && Log(ops)[k].checkpoint == cp
            case None => forall k | 0 <= k < |Log(ops)| :: LineageOf(Log(ops), Log(ops)[k].id) != lineageID
  {
    IndexRefinesParentChains(ops);
    LatestIsNewest(Exec(ops), Log(ops), lineageID);
  }

  lemma LatestIsNewest(s: Saver, log: seq<Entry>, lineageID: string)
    requires Refines(s, log) && lineageID != ""
    ensures match Latest(s, lineageID)
            case Some(cp) => exists k :: Newest(log, lineageID, k) && log[k].checkpoint == cp
            case None => forall k | 0 <= k < |log| :: LineageOf(log, log[k].id) != lineageID
  {
    assert IDs(s, lineageID) == Members(log, lineageID);
    if IDs(s, lineageID) == [] {
      forall k | 0 <= k < |log| ensures LineageOf(log, log[k].id) != lineageID {
        NoMembersNoSaves(log, lineageID, k);
      }
    } else {
      var k := LastMemberIsNewest(log, lineageID);
      assert Latest(s, lineageID) == Some(log[k].checkpoint);
    }
  }

  // ---------------------------------------------------------------------
  // What a save makes of its request
  // ---------------------------------------------------------------------

  /**
   The lineage a save resolves: the one it names; without one, that of the parent at
   the top level of its config, whatever else the config holds; without such a
   parent, that of the parent under configurable; else none.
   */
  lemma ResolveInFields(s: Saver, c: Config)
    ensures Resolve(s, c) ==
            if c.lineageID != "" then c.lineageID
            else if c.topCheckpointID != "" then
              (if c.topCheckpointID in s.lineageByCP then s.lineageByCP[c.topCheckpointID] else "")
            else if c.checkpointID != "" && c.checkpointID in s.lineageByCP then s.lineageByCP[c.checkpointID]
            else ""
  {}

  /** A save stores the checkpoint, its metadata and, if full, its writes under its ID, and touches no other. */
  lemma StoredInFields(s: Saver, id: string, req: PutRequest, full: bool)
    ensures var s' := Stored(s, id, req, full);
            && s'.lastCheckpointID == id
            && s'.checkpoints == s.checkpoints[id := Checkpoint(id, req.checkpoint.channelValues)]
            && (req.metadata == None ==> s'.metadata == s.metadata)
            && (req.metadata != None ==> s'.metadata == s.metadata[id := req.metadata.value])
            && (full && |req.pendingWrites| > 0 ==> s'.writes == s.writes[id := req.pendingWrites])
            && (!full || |req.pendingWrites| == 0 ==> s'.writes == s.writes)
  {}

  /**
   A checkpoint saved without a lineage is filed under the lineage its top-level
   parent is filed under, after any run; without such a parent under that of the
   configurable one; and a save that names a lineage is filed there.
   */
  lemma {:induction false} SaveInherits(ops: seq<Op>, id: string, req: PutRequest, full: bool)
    requires FreshRun(ops) && id != "" && id !in Exec(ops).checkpoints
    ensures var s, c := Exec(ops), req.config;
            Filed(Apply(s, Save(id, req, full)), id) ==
            if c.lineageID != "" then c.lineageID
            else if c.topCheckpointID != "" then
              (if c.topCheckpointID in s.lineageByCP then s.lineageByCP[c.topCheckpointID] else "")
            else if c.checkpointID in s.lineageByCP then s.lineageByCP[c.checkpointID]
            else ""
  {
    IndexRefinesParentChains(ops);
    var s, log := Exec(ops), Log(ops);
    ResolveInFields(s, req.config);
    assert !InLog(log, "");
    assert "" !in s.checkpoints;
    assert id !in s.lineageByCP;
  }

  /** A save under a lineage, then one that only names the first as its parent: the lineage's newest is the second. */
  lemma ChildIsFound(s: Saver, id: string, req: PutRequest, full: bool, child: string, next: PutRequest, nextFull: bool)
    requires req.config.lineageID != "" && id != "" && id != child
    requires next.config.lineageID == "" && next.config.topCheckpointID == id
    ensures var lineageID, s' := req.config.lineageID, Stored(Stored(s, id, req, full), child, next, nextFull);
            && lineageID in s'.byLineage && s'.byLineage[lineageID] == IDs(s, lineageID) + [id, child]
            && Latest(s', lineageID) == Some(Checkpoint(child, next.checkpoint.channelValues))
  {
    var lineageID, s1 := req.config.lineageID, Stored(s, id, req, full);
    assert IDs(s1, lineageID) == IDs(s, lineageID) + [id];
    assert IDs(s, lineageID) + [id] + [child] == IDs(s, lineageID) + [id, child];
  }

  /** Listed checkpoints that are all stored come out one for one, in order, with their metadata. */
  lemma {:induction false} TuplesInOrder(s: Saver, ids: seq<string>)
    requires forall i | 0 <= i < |ids| :: ids[i] in s.checkpoints
    ensures |Tuples(s, ids)| == |ids|
    ensures forall i | 0 <= i < |ids| ::
              var t := Tuples(s, ids)[i];
              && t.checkpoint == s.checkpoints[ids[i]]
              && t.metadata == (if ids[i] in s.metadata then Some(s.metadata[ids[i]]) else None)
    decreases |ids|
  {
    if ids != [] {
      var n := |ids| - 1;
      TuplesInOrder(s, ids[..n]);
      assert forall i | 0 <= i < n :: ids[..n][i] == ids[i];
    }
  }

  lemma ListedAreStored(s: Saver, lineageID: string)
    requires Consistent(s)
    ensures forall id :: id in IDs(s, lineageID) <==> id in s.lineageByCP && s.lineageByCP[id] == lineageID
    ensures forall i | 0 <= i < |IDs(s, lineageID)| :: IDs(s, lineageID)[i] in s.checkpoints
  {
    var ids := IDs(s, lineageID);
    forall i | 0 <= i < |ids| ensures ids[i] in s.checkpoints {
      assert ids[i] in IDs(s, lineageID);
    }
  }

  /** So List by lineage answers with every checkpoint filed there, oldest first. */
  lemma {:induction false} ListIsComplete(ops: seq<Op>, lineageID: string)
    requires FreshRun(ops) && lineageID != ""
    ensures var s := Exec(ops);
            var ids := IDs(s, lineageID);
            && (forall id :: id in ids <==> id in s.lineageByCP && s.lineageByCP[id] == lineageID)
            && (forall i | 0 <= i < |ids| :: ids[i] in s.checkpoints)
            && |Tuples(s, ids)| == |ids|
            && forall i | 0 <= i < |ids| :: Tuples(s, ids)[i].checkpoint == s.checkpoints[ids[i]]
  {
    IndexRefinesParentChains(ops);
    var s := Exec(ops);
    ListedAreStored(s, lineageID);
    TuplesInOrder(s, IDs(s, lineageID));
  }

  // ---------------------------------------------------------------------
  // The last checkpoint of all
  // ---------------------------------------------------------------------

  /** The save at step k was filed under this lineage. */
  predicate SavesTo(ops: seq<Op>, k: nat, lineageID: string)
    requires k < |ops|
  {
    ops[k].Save? && Resolve(Exec(ops[..k]), ops[k].req.config) == lineageID
  }

  lemma SaveIsFiled(ops: seq<Op>, m: nat)
    requires FreshRun(ops) && m + 1 == |ops| && ops[m].Save?
    ensures var s := Exec(ops);
            s.lastCheckpointID == ops[m].id && Filed(s, ops[m].id) == Resolve(Exec(ops[..m]), ops[m].req.config)
  {
    IndexRefinesParentChains(ops[..m]);
    assert ops[..m] == ops[..|ops| - 1];
  }

  /** Without another save the last checkpoint stays the last, in its lineage until that is deleted. */
  lemma {:induction false} LastStays(ops: seq<Op>, m: nat)
    requires FreshRun(ops) && m < |ops| && ops[m].Save? && forall j | m < j < |ops| :: !ops[j].Save?
    ensures var s, lineageID := Exec(ops), Resolve(Exec(ops[..m]), ops[m].req.config);
            && s.lastCheckpointID == ops[m].id
            && (Filed(s, ops[m].id) == lineageID || Filed(s, ops[m].id) == "")
            && ((forall j | m < j < |ops| :: ops[j] != DeleteLineage(lineageID)) ==> Filed(s, ops[m].id) == lineageID)
    decreases |ops|
  {
    var n := |ops| - 1;
    if n == m {
      SaveIsFiled(ops, m);
    } else {
      assert ops[..n][..m] == ops[..m];
      LastStays(ops[..n], m);
      LastStep(Exec(ops[..n]), ops[n], ops[m].id);
      IndexRefinesParentChains(ops[..n]);
      if ops[n].DeleteLineage? {
        EraseKeepsIndex(Exec(ops[..n]), ops[n].lineageID);
      }
    }
  }

  lemma LastStep(s: Saver, op: Op, id: string)
    requires !op.Save?
    ensures Apply(s, op).lastCheckpointID == s.lastCheckpointID
    ensures Filed(Apply(s, op), id) == Filed(s, id) || (op.DeleteLineage? && Filed(Apply(s, op), id) == "")
  {}

  lemma {:induction false} LastSave(ops: seq<Op>, k: nat) returns (m: nat)
    requires k < |ops| && ops[k].Save?
    ensures k <= m < |ops| && ops[m].Save? && forall j | m < j < |ops| :: !ops[j].Save?
    decreases |ops|
  {
    var n := |ops| - 1;
    if ops[n].Save? {
      m := n;
    } else {
      m := LastSave(ops[..n], k);
      assert forall j | m < j < n :: ops[j] == ops[..n][j];
    }
  }

  /**
   The saver keeps one last checkpoint for all sessions and skills. After an
   execution's own last save at step k it is still a checkpoint of that execution's
   lineage exactly when nobody has saved anything since.
   */
  lemma {:induction false} LastCheckpointIsOwnIff(ops: seq<Op>, k: nat, lineageID: string)
    requires FreshRun(ops) && lineageID != "" && k < |ops| && SavesTo(ops, k, lineageID)
    requires forall j | k < j < |ops| :: !SavesTo(ops, j, lineageID) && ops[j] != DeleteLineage(lineageID)
    ensures Filed(Exec(ops), Exec(ops).lastCheckpointID) == lineageID <==> forall j | k < j < |ops| :: !ops[j].Save?
  {
    var m := LastSave(ops, k);
    LastStays(ops, m);
    if m > k {
      assert !SavesTo(ops, m, lineageID);
    }
  }

  function Named(id: string, lineageID: string): Op {
    Save(id, PutRequest(Config(lineageID, "", ""), Checkpoint(id, map[]), None, []), false)
  }

  /** Two executions save in turn, and the first would capture the checkpoint of the second. */
  lemma LastCheckpointCanBeForeign()
    ensures var ops := [Named("c1", "first"), Named("c2", "second")];
            && FreshRun(ops) && SavesTo(ops, 0, "first")
            && Exec(ops).lastCheckpointID == "c2" && Filed(Exec(ops), "c2") == "second"
  {
    var ops := [Named("c1", "first"), Named("c2", "second")];
    assert ops[..1] == [Named("c1", "first")] && ops[..1][..0] == [] && ops[..0] == [];
    assert Exec(ops[..1]) == Stored(EMPTY, "c1", Named("c1", "first").req, false);
    assert FreshRun(ops[..1]);
  }

  // ---------------------------------------------------------------------
  // The saver object
  // ---------------------------------------------------------------------

  class InMemoryCheckpointSaver {
    var checkpoints: map<string, Checkpoint>
    var byLineage: map<string, seq<string>>
    var lineageByCP: map<string, string>
    var writes: map<string, seq<string>>
    var metadata: map<string, string>
    var lastCheckpointID: string

    ghost function View(): Saver
      reads this
    {
      Saver(checkpoints, byLineage, lineageByCP, writes, metadata, lastCheckpointID)
    }

    constructor ()
      ensures View() == EMPTY
    {
      checkpoints, byLineage, lineageByCP, writes, metadata, lastCheckpointID := map[], map[], map[], map[], map[], "";
    }

    /** `newID` is the UUID drawn when the checkpoint comes without an ID. */
    method Put(req: PutRequest, newID: string) returns (checkpointID: string)
      modifies this
      ensures checkpointID == if req.checkpoint.id == "" then newID else req.checkpoint.id
      ensures View() == Stored(old(View()), checkpointID, req, false)
      ensures var c, filed := req.config, old(lineageByCP);
              var parent := if c.topCheckpointID != "" then c.topCheckpointID else c.checkpointID;
              var lineageID := if c.lineageID != "" then c.lineageID
                               else if parent != "" && parent in filed then filed[parent] else "";
              lineageByCP == if lineageID != "" then filed[checkpointID := lineageID] else filed
    {
      checkpointID := if req.checkpoint.id == "" then newID else req.checkpoint.id;
      var lineageID := req.config.lineageID;
      if lineageID == "" {
        var parentID := ParentID(req.config);
        if parentID != "" && parentID in lineageByCP {
          lineageID := lineageByCP[parentID];
        }
      }
      checkpoints := checkpoints[checkpointID := req.checkpoint.(id := checkpointID)];
      if req.metadata.Some? {
        metadata := metadata[checkpointID := req.metadata.value];
      }
      if lineageID != "" {
        var ids := if lineageID in byLineage then byLineage[lineageID] else [];
        byLineage := byLineage[lineageID := ids + [checkpointID]];
        lineageByCP := lineageByCP[checkpointID := lineageID];
      }
      lastCheckpointID := checkpointID;
    }

    method PutFull(req: PutRequest, newID: string) returns (checkpointID: string)
      modifies this
      ensures checkpointID == if req.checkpoint.id == "" then newID else req.checkpoint.id
      ensures View() == Stored(old(View()), checkpointID, req, true)
    {
      checkpointID := if req.checkpoint.id == "" then newID else req.checkpoint.id;
      var lineageID := req.config.lineageID;
      if lineageID == "" {
        var parentID := ParentID(req.config);
        if parentID != "" && parentID in lineageByCP {
          lineageID := lineageByCP[parentID];
        }
      }
      checkpoints := checkpoints[checkpointID := req.checkpoint.(id := checkpointID)];
      if req.metadata.Some? {
        metadata := metadata[checkpointID := req.metadata.value];
      }
      if |req.pendingWrites| > 0 {
        writes := writes[checkpointID := req.pendingWrites];
      }
      if lineageID != "" {
        var ids := if lineageID in byLineage then byLineage[lineageID] else [];
        byLineage := byLineage[lineageID := ids + [checkpointID]];
        lineageByCP := lineageByCP[checkpointID := lineageID];
      }
      lastCheckpointID := checkpointID;
    }

    method PutWrites(config: Config, more: seq<string>)
      modifies this`writes
      ensures View() == AddWrites(old(View()), config.checkpointID, more)
      ensures config.checkpointID == "" ==> writes == old(writes)
      ensures config.checkpointID != "" ==>
                var id, before := config.checkpointID, old(writes);
                writes == before[id := (if id in before then before[id] else []) + more]
    {
      if config.checkpointID != "" {
        var id := config.checkpointID;
        writes := writes[id := (if id in writes then writes[id] else []) + more];
      }
    }

    method Get(config: Config) returns (cp: Option<Checkpoint>)
      ensures config.checkpointID != "" ==>
                cp == if config.checkpointID in checkpoints then Some(checkpoints[config.checkpointID]) else None
      ensures config.checkpointID == "" ==> cp == Latest(View(), config.lineageID)
    {
      if config.checkpointID != "" {
        return if config.checkpointID in checkpoints then Some(checkpoints[config.checkpointID]) else None;
      }
      if config.lineageID == "" {
        return None;
      }
      var ids := if config.lineageID in byLineage then byLineage[config.lineageID] else [];
      if |ids| == 0 {
        return None;
      }
      var latestID := ids[|ids| - 1];
      return if latestID in checkpoints then Some(checkpoints[latestID]) else None;
    }

    /** The checkpoints of a lineage in order; with no lineage, all of them in map order. */
    method List(config: Config) returns (result: seq<Tuple>)
      ensures config.lineageID != "" ==> result == Tuples(View(), IDs(View(), config.lineageID))
      ensures config.lineageID == "" ==>
                && |result| == |checkpoints|
                && forall id | id in checkpoints :: TupleOf(View(), id) in result
    {
      result := [];
      if config.lineageID != "" {
        var ids := if config.lineageID in byLineage then byLineage[config.lineageID] else [];
        for i := 0 to |ids|
          invariant result == Tuples(View(), ids[..i])
        {
          assert ids[..i + 1][..i] == ids[..i];
          if ids[i] in checkpoints {
            var stored := if ids[i] in metadata then Some(metadata[ids[i]]) else None;
            result := result + [Tuple(checkpoints[ids[i]], stored)];
          }
        }
        assert ids[..|ids|] == ids;
      } else {
        var pending := checkpoints.Keys;
        while pending != {}
          invariant pending <= checkpoints.Keys
          invariant |result| + |pending| == |checkpoints|
          invariant forall id | id in checkpoints && id !in pending :: TupleOf(View(), id) in result
        {
          var id :| id in pending;
          result := result + [Tuple(checkpoints[id], if id in metadata then Some(metadata[id]) else None)];
          pending := pending - {id};
        }
      }
    }

    method DeleteLineage(lineageID: string)
      modifies this
      ensures View() == Erased(old(View()), lineageID)
    {
      var ids := if lineageID in byLineage then byLineage[lineageID] else [];
      ghost var before := View();
      for i := 0 to |ids|
        invariant byLineage == before.byLineage && lastCheckpointID == before.lastCheckpointID
        invariant var gone := Elements(ids[..i]);
                  && checkpoints == before.checkpoints - gone && writes == before.writes - gone
                  && metadata == before.metadata - gone && lineageByCP == before.lineageByCP - gone
      {
        assert Elements(ids[..i + 1]) == Elements(ids[..i]) + {ids[i]};
        checkpoints := checkpoints - {ids[i]};
        writes := writes - {ids[i]};
        metadata := metadata - {ids[i]};
        lineageByCP := lineageByCP - {ids[i]};
      }
      assert ids[..|ids|] == ids;
      byLineage := byLineage - {lineageID};
    }
  }
}
