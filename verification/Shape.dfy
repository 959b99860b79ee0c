/** The structural invariant of the engine, kept by every operation: list order, segment lookup
    structures, identities, settings and the read tree's bookkeeping. */
module Shape {
  import opened Types
  import opened Tables
  import opened BloomFilter
  import opened Builder
  import opened Scan
  import opened DynamicLevels
  import opened ReadTree
  import opened Placement
  import opened Obsolescence
  import opened Commit
  import opened Spec
  import opened Outputs

  ghost predicate Timed(rs: seq<Record>) { forall r :: r in rs ==> r.ts > 0 }

  /** Reads use timestamp 0 for "none": no list may hold it. */
  ghost predicate ListsTimed(st: Store) {
    && (forall l :: 0 <= l < |st.unsorted| ==> Timed(st.unsorted[l]))
    && (forall l :: 0 <= l < |st.sorted| ==> Timed(st.sorted[l]))
  }

  ghost predicate IdsOk(segs: seq<Segment>, nextId: nat) {
    nextId == |segs| && forall i :: 0 <= i < |segs| ==> segs[i].id == i
  }

  ghost predicate ShapeOk(s: State) {
    && Levels(s.store) && StoreOk(s.store) && ListsTimed(s.store) && IdsOk(s.store.segs, s.nextId)
    && 1 <= s.threshold <= THRESHOLD_MAX && |s.plan.target| == LEVELS
    && CacheOk(s.cache) && OutputsOk(s.store.segs, s.commits)
  }

  lemma ShapeLevels(s: State)
    requires ShapeOk(s)
    ensures Levels(s.store) && |s.plan.target| == LEVELS
  {
  }

  // ---------------------------------------------------------------- new segments

  /** A segment built from records answers for exactly the newest of each key among them. */
  lemma NewSegmentOk(segs: seq<Segment>, id: nat, level: nat, track: Track, recs: seq<Record>, bitsPerKey: nat)
    requires recs != [] && Timed(recs) && level < LEVELS
    ensures var seg := NewSegment(segs, id, level, track, recs, bitsPerKey);
            && SegmentOk(seg) && Recs(seg.table) == UpsertAll([], recs) && !seg.retired
            && seg.id == id && seg.level == level
  {
    hide MayContain, BuildFilter, WindowOf, FirstFit, MapEntry, UpsertAll;
    var seg := NewSegment(segs, id, level, track, recs, bitsPerKey);
    var table := UpsertAll([], recs);
    UpsertAllFacts([], recs);
    UpsertAllKeeps([], recs, recs[0]);
    MapKeepsRecords(Fresh(table), seg.output);
    SummaryBounds(recs);
    assert seg.bloom.bits == |seg.bloom.words| * 64 by { FilterSize(table, bitsPerKey); }
    forall j | 0 <= j < |seg.table| ensures EntryOk(seg, seg.table[j].rec) {
      assert seg.table[j].rec == table[j] && table[j] in table;
      NoFalseNegatives(table, bitsPerKey, table[j]);
      assert table[j] in recs;
    }
  }

  lemma FilterSize(rs: seq<Record>, bitsPerKey: nat)
    ensures BuildFilter(rs, bitsPerKey).bits == |BuildFilter(rs, bitsPerKey).words| * 64
  {
    hide Hash, AddRecords, ChooseBits, ChooseHashes;
    ChosenBits(|rs|, bitsPerKey);
  }

  lemma AddSegmentOk(st: Store, seg: Segment)
    requires StoreOk(st) && SegmentOk(seg)
    ensures StoreOk(st.(segs := st.segs + [seg]))
  {
    hide SegmentOk;
    forall l | 0 <= l < LEVELS && st.sorted[l] != [] ensures HasSegment(st.segs + [seg], l) {
      var i :| 0 <= i < |st.segs| && st.segs[i].level == l;
      assert (st.segs + [seg])[i].level == l;
    }
  }

  // ---------------------------------------------------------------- primitives

  lemma CalcShape(s: State)
    requires ShapeOk(s)
    ensures ShapeOk(Calc(s)) && PlanOk(Calc(s).plan, s.threshold) && Calc(s).plan.active == Calc(s).plan.base
  {
    hide OutputsOk, StoreOk, ListsTimed, CacheOk, Plan, PlanOk;
    PlanFacts(Totals(s.store), s.threshold);
    assert |Calc(s).plan.target| == LEVELS by { PlanLength(Calc(s).plan, s.threshold); }
  }

  lemma PlanLength(p: LevelPlan, threshold: nat)
    requires PlanOk(p, threshold)
    ensures |p.target| == LEVELS && 1 <= p.base <= MAX_LEVEL
  {
  }

  lemma SameButStatsShape(s: State, segs: seq<Segment>)
    requires ShapeOk(s) && SameButStats(segs, s.store.segs)
    ensures ShapeOk(s.(store := s.store.(segs := segs)))
  {
    hide OutputsOk, StoreOk, CacheOk, StatsOf;
    SameStoreOk(s.store, segs);
    StatsOutputs(s.store.segs, segs, s.commits);
    assert forall i :: 0 <= i < |segs| ==> SameSegment(segs[i], s.store.segs[i]);
  }

  lemma RecalcShape(s: State)
    requires ShapeOk(s)
    ensures ShapeOk(Recalc(s))
  {
    hide OutputsOk, StoreOk, ListsTimed, CacheOk, AllRecords, SameButStats, Recalculated;
    RecalculatedSame(AllRecords(s.store), s.zone, s.store.segs);
    SameButStatsShape(s, Recalc(s).store.segs);
  }

  lemma AppendSegmentShape(s: State, level: nat, track: Track, recs: seq<Record>)
    requires ShapeOk(s) && Timed(recs) && level < LEVELS
    ensures ShapeOk(AppendSegment(s, level, track, recs))
  {
    hide OutputsOk, StoreOk, CacheOk, NewSegment, Recalc, SegmentOk;
    if recs != [] {
      var seg := NewSegment(s.store.segs, s.nextId, level, track, recs, s.bitsPerKey);
      NewSegmentOk(s.store.segs, s.nextId, level, track, recs, s.bitsPerKey);
      NewSegmentOutputs(s.store.segs, s.nextId, level, track, recs, s.bitsPerKey, s.commits);
      AddSegmentOk(s.store, seg);
      RecalcShape(s.(store := s.store.(segs := s.store.segs + [seg]), nextId := s.nextId + 1));
    }
  }

  /** The lists after a move, level by level. */
  lemma MoveListsAt(st: Store, level: nat, dst: nat)
    requires Levels(st) && level < LEVELS && dst < LEVELS
    ensures var m := MoveLists(st, level, dst);
            && m.segs == st.segs
            && (forall l :: 0 <= l < LEVELS ==> m.unsorted[l] == if l == level then [] else st.unsorted[l])
            && (forall l :: 0 <= l < LEVELS ==>
                  m.sorted[l] == if l == dst then UpsertAll(st.sorted[dst], Moved(st, level, dst))
                                 else if l == level then [] else st.sorted[l])
  {
    hide UpsertAll;
  }

  lemma MoveListsTimed(st: Store, level: nat, dst: nat)
    requires StoreOk(st) && ListsTimed(st) && level < LEVELS && dst < LEVELS
    ensures ListsTimed(MoveLists(st, level, dst))
  {
    hide SegmentOk, UpsertAll, MoveLists;
    MoveListsAt(st, level, dst);
    MovedTimed(st, level, dst);
    UpsertAllFacts(st.sorted[dst], Moved(st, level, dst));
  }

  /** Before the segment is appended only the destination may lack one for its sorted list. */
  lemma MoveListsOk(st: Store, level: nat, dst: nat, seg: Segment)
    requires StoreOk(st) && level < LEVELS && dst < LEVELS
    requires SegmentOk(seg) && seg.level == dst
    ensures StoreOk(MoveLists(st, level, dst).(segs := st.segs + [seg]))
  {
    hide SegmentOk, UpsertAll, MoveLists, Moved;
    MoveListsAt(st, level, dst);
    UpsertAllFacts(st.sorted[dst], Moved(st, level, dst));
    AddSegmentOk(st, seg);
    var m, segs := MoveLists(st, level, dst), st.segs + [seg];
    assert HasSegment(segs, dst) by { assert segs[|st.segs|].level == dst; }
    assert forall l :: 0 <= l < LEVELS && m.sorted[l] != [] ==> l == dst || st.sorted[l] != [];
    assert forall l :: 0 <= l < LEVELS ==> Ascending(m.sorted[l]) by { EmptyAscending(); }
  }

  lemma EmptyAscending()
    ensures Ascending([])
  {
  }

  lemma MoveLevelShape(s: State, level: nat, dst: nat)
    requires ShapeOk(s) && level < LEVELS && dst < LEVELS && Moved(s.store, level, dst) != []
    ensures ShapeOk(MoveLevel(s, level, dst))
  {
    hide OutputsOk, StoreOk, ListsTimed, CacheOk, NewSegment, SegmentOk, MoveLists, Recalc, Plan, Timed;
    MovedTimed(s.store, level, dst);
    var moved := Moved(s.store, level, dst);
    var seg := NewSegment(s.store.segs, s.nextId, dst, Bottom, moved, s.bitsPerKey);
    NewSegmentOk(s.store.segs, s.nextId, dst, Bottom, moved, s.bitsPerKey);
    NewSegmentOutputs(s.store.segs, s.nextId, dst, Bottom, moved, s.bitsPerKey, s.commits);
    MoveListsOk(s.store, level, dst, seg);
    MoveListsTimed(s.store, level, dst);
    MoveListsAt(s.store, level, dst);
    var m := MoveLists(s.store, level, dst);
    var s1 := s.(store := m.(segs := s.store.segs + [seg]), nextId := s.nextId + 1);
    assert ListsTimed(s1.store) by { TimedIgnoresSegments(m, s1.store.segs); }
    RecalcShape(s1);
    CalcShape(Recalc(s1));
  }

  lemma MovedTimed(st: Store, level: nat, dst: nat)
    requires StoreOk(st) && ListsTimed(st) && level < LEVELS
    ensures Timed(Moved(st, level, dst))
  {
  }

  lemma TimedIgnoresSegments(st: Store, segs: seq<Segment>)
    ensures ListsTimed(st.(segs := segs)) == ListsTimed(st)
  {
  }

  lemma FlushShape(s: State)
    requires ShapeOk(s)
    ensures ShapeOk(FlushBottom(s))
  {
    hide OutputsOk, StoreOk, ListsTimed, CacheOk, MoveLevel;
    if s.plan.base < MAX_LEVEL && s.store.unsorted[MAX_LEVEL] != [] {
      MoveLevelShape(s, MAX_LEVEL, MAX_LEVEL);
    }
  }

  lemma CompactLevelShape(s: State, level: nat)
    requires ShapeOk(s) && level < LEVELS
    ensures ShapeOk(CompactLevel(s, level))
  {
    hide OutputsOk, StoreOk, ListsTimed, CacheOk, MoveLevel, Calc;
    CalcShape(s);
    var s1 := if level < MAX_LEVEL then Calc(s) else s;
    assert s1.store == s.store by { CalcKeeps(s); }
    var dst := Min(DestinationOf(s1.plan, level), MAX_LEVEL);
    if Moved(s.store, level, dst) != [] {
      MoveLevelShape(s1, level, dst);
    }
  }

  /** A plan is all that the calculation changes. */
  lemma CalcKeeps(s: State)
    requires Levels(s.store)
    ensures Calc(s) == s.(plan := Calc(s).plan)
  {
  }

  lemma {:induction false} RoundsShape(s: State, n: nat)
    requires ShapeOk(s)
    ensures ShapeOk(Rounds(s, n))
    decreases n
  {
    hide ShapeOk, CompactLevel, Calc, PickOf;
    ShapeLevels(s);
    CalcShape(s);
    var s1 := Calc(s);
    assert |s1.plan.target| == LEVELS by { PlanLength(s1.plan, s.threshold); }
    var level := PickOf(s1.plan, s1.threshold, Totals(s1.store));
    if n > 0 && level < LEVELS {
      CompactLevelShape(s1, level);
      RoundsShape(CompactLevel(s1, level), n - 1);
    }
  }

  lemma ReadyShape(s: State)
    requires ShapeOk(s)
    ensures ShapeOk(Ready(s))
  {
    hide ShapeOk, FlushBottom, Calc;
    ShapeLevels(s);
    CalcShape(s);
    FlushShape(Calc(s));
  }

  lemma AppendRecordShape(s: State, level: nat, key: nat, pba: nat, zone: nat, valid: bool)
    requires ShapeOk(s) && level < LEVELS
    ensures ShapeOk(AppendRecord(s, level, key, pba, zone, valid))
  {
    hide SegmentOk, Update, CacheOk, OutputsOk;
    UpdateOk(s.cache, key, CacheNode(pba, valid, s.ts + 1));
  }

  lemma CacheShape(s: State, key: nat, limit: nat)
    requires ShapeOk(s)
    ensures ShapeOk(s.(cache := Remove(s.cache, key))) && ShapeOk(s.(cache := Lookup(s.cache, key)))
    ensures ShapeOk(ClearTree(s)) && ShapeOk(SetTreeLimit(s, limit))
  {
    hide OutputsOk, StoreOk, ListsTimed, CacheOk, Remove, Lookup, SetLimit, Clear;
    OperationsOk(s.cache, key, if limit == 0 then READ_TREE_LIMIT else limit);
  }

  lemma ReadShape(s: State, key: nat)
    requires ShapeOk(s)
    ensures ShapeOk(Read(s, key))
  {
    hide OutputsOk, StoreOk, ListsTimed, CacheOk, Lookup, Update, Fold, ReadRecords, SameButStats;
    CacheShape(s, key, 0);
    if key !in s.cache.nodes {
      var b := SlowBest(s, key);
      BumpAllSame(s.store, key);
      SameButStatsShape(s, BumpAll(s.store.segs, key));
      UpdateOk(s.cache, key, CacheNode(b.pba, b.valid, b.ts));
    }
  }

  lemma BumpAllSame(st: Store, key: nat)
    ensures SameButStats(BumpAll(st.segs, key), st.segs)
  {
  }

  // ---------------------------------------------------------------- commits and compactions

  lemma SameVersionsShape(s: State, segs: seq<Segment>, commits: CommitKind)
    requires ShapeOk(s) && SameVersions(segs, s.store.segs) && OutputsOk(segs, commits)
    ensures ShapeOk(s.(store := s.store.(segs := segs), commits := commits))
  {
    hide OutputsOk, StoreOk, CacheOk;
    SameVersionsOk(s.store, segs);
    assert forall i :: 0 <= i < |segs| ==> SameTable(segs[i], s.store.segs[i]);
  }

  lemma {:induction false} RefreshTableOk(cache: Cache, all: seq<Record>, table: seq<Entry>, n: nat)
    requires CacheOk(cache) && n <= |table|
    ensures CacheOk(RefreshTable(cache, all, table, n))
  {
    hide CacheOk, Update, Newer, Commits;
    if n > 0 {
      var before, e := RefreshTable(cache, all, table, n - 1), table[n - 1];
      RefreshTableOk(cache, all, table, n - 1);
      UpdateOk(before, e.rec.key, CacheNode(e.out.outputPba, e.rec.valid, e.rec.ts));
    }
  }

  lemma {:induction false} RefreshSegmentsOk(cache: Cache, all: seq<Record>, segs: seq<Segment>, n: nat)
    requires CacheOk(cache) && n <= |segs|
    ensures CacheOk(RefreshSegments(cache, all, segs, n))
  {
    hide CacheOk, RefreshTable;
    if n > 0 {
      RefreshSegmentsOk(cache, all, segs, n - 1);
      RefreshTableOk(RefreshSegments(cache, all, segs, n - 1), all, segs[n - 1].table, |segs[n - 1].table|);
    }
  }

  lemma CommitMetaShape(s: State)
    requires ShapeOk(s) && OutputsOk(CommitSegments(s.store.segs), s.commits)
    ensures ShapeOk(CommitMeta(s))
  {
    hide OutputsOk, StoreOk, ListsTimed, CacheOk, RefreshSegments, CommitSegments, SameVersions, AllRecords;
    CommitSameVersions(s.store.segs);
    SameVersionsShape(s, CommitSegments(s.store.segs), s.commits);
    RefreshSegmentsOk(s.cache, AllRecords(s.store), s.store.segs, |s.store.segs|);
  }

  lemma CommitOutputShape(s: State, mode: nat, io: Io)
    requires ShapeOk(s)
    ensures ShapeOk(CommitOutput(s, mode, io))
  {
    hide OutputsOk, StoreOk, ListsTimed, CacheOk, CommitMeta, PlanAll, CopyAll, SameVersions, CommitSegments;
    PlanSameVersions(s.store.segs);
    RoundOutputs(s.disk, s.store.segs, io, s.commits);
    SameVersionsShape(s, PlanAll(s.store.segs), s.commits);
    var planned := s.(store := s.store.(segs := PlanAll(s.store.segs)));
    CopySameVersions(s.disk, planned.store.segs, io);
    var c := CopyAll(s.disk, planned.store.segs, io);
    SameVersionsShape(planned, c.segs, AfterCopy(s.commits));
    if mode == 2 {
      OutputsMeta(planned.store.segs, s.commits);
      CommitMetaShape(planned.(commits := MetaOnly));
    } else if c.ok {
      CommitMetaShape(planned.(store := planned.store.(segs := c.segs), disk := c.disk,
                               commits := AfterCopy(s.commits)));
    }
  }

  lemma OutputsMeta(segs: seq<Segment>, commits: CommitKind)
    requires OutputsOk(segs, commits)
    ensures OutputsOk(segs, MetaOnly)
  {
  }

  lemma RetireShape(s: State, at: nat)
    requires ShapeOk(s) && at < |s.store.segs|
    ensures ShapeOk(Retire(s, at))
  {
    hide CacheOk, MayContain, OutputsOk;
    RetireOutputs(s.store.segs, at, s.commits);
    var segs := Retire(s, at).store.segs;
    assert forall i :: 0 <= i < |segs| ==> segs[i].level == s.store.segs[i].level;
    forall l | 0 <= l < LEVELS && s.store.sorted[l] != [] ensures HasSegment(segs, l) {
      var i :| 0 <= i < |segs| && s.store.segs[i].level == l;
      assert segs[i].level == l;
    }
    forall i | 0 <= i < |segs| ensures SegmentOk(segs[i]) {
      assert SegmentOk(s.store.segs[i]);
      forall j | 0 <= j < |segs[i].table| ensures EntryOk(segs[i], segs[i].table[j].rec) {
        assert EntryOk(s.store.segs[i], s.store.segs[i].table[j].rec);
      }
    }
  }

  lemma KeptByTimed(s: State, at: nat)
    requires ShapeOk(s) && at < |s.store.segs|
    ensures Timed(KeptBy(s, at)) && s.store.segs[at].level < LEVELS
  {
    hide MayContain, Keeps, AllRecords;
    var seg := s.store.segs[at];
    assert SegmentOk(seg);
    var kept := KeptOf(AllRecords(s.store), s.zone, Recs(seg.table));
    KeptFacts(AllRecords(s.store), s.zone, seg.table, |seg.table|);
    assert Recs(seg.table)[..|seg.table|] == Recs(seg.table);
    forall r | r in KeptBy(s, at) ensures r.ts > 0 {
      var i :| 0 <= i < |KeptBy(s, at)| && KeptBy(s, at)[i] == r;
      assert kept[i] in kept;
      var j :| 0 <= j < |seg.table| && Recs(seg.table)[j] == kept[i];
      assert EntryOk(seg, seg.table[j].rec);
    }
  }

  lemma ReplaceSegmentShape(s: State, at: nat)
    requires ShapeOk(s) && at < |s.store.segs|
    ensures ShapeOk(ReplaceSegment(s, at))
  {
    hide ShapeOk, KeptBy, AppendSegment, Retire, Recalc;
    ShapeLevels(s);
    KeptByTimed(s, at);
    var seg := s.store.segs[at];
    var s1 := AppendSegment(s, seg.level, seg.track, KeptBy(s, at));
    AppendSegmentShape(s, seg.level, seg.track, KeptBy(s, at));
    AppendGrows(s, seg.level, seg.track, KeptBy(s, at));
    RetireShape(s1, at);
    RecalcShape(Retire(s1, at));
  }

  lemma AppendGrows(s: State, level: nat, track: Track, recs: seq<Record>)
    requires Levels(s.store)
    ensures |AppendSegment(s, level, track, recs).store.segs| == |s.store.segs| + (if recs == [] then 0 else 1)
  {
  }

  lemma CompactSelectedShape(s: State, io: Io)
    requires ShapeOk(s)
    ensures ShapeOk(CompactSelected(s, io))
  {
    hide ShapeOk, KeptBy, ReplaceSegment, CommitOutput, Recalc, Selected;
    ShapeLevels(s);
    RecalcShape(s);
    var s1 := Recalc(s);
    var at := SelectedAt(s1);
    if at >= 0 {
      ReplaceSegmentShape(s1, at);
      CommitOutputShape(ReplaceSegment(s1, at), 3, io);
    }
  }

  lemma SettingsShape(s: State, value: nat)
    requires ShapeOk(s)
    ensures ShapeOk(SetThreshold(s, value)) && ShapeOk(SetBitsPerKey(s, value))
  {
    hide OutputsOk, StoreOk, ListsTimed, CacheOk, Calc;
    var t := if value == 0 then 16 else value;
    if t <= THRESHOLD_MAX {
      CalcShape(s.(threshold := t));
    }
  }

  lemma InitShape(zones: nat)
    ensures ShapeOk(Init(zones))
  {
  }
}
