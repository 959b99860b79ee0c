/** Where records go: the destination of a level compaction, the flush of L6, and the list a new record is
    put in. */
module LevelMoves {
  import opened Types
  import opened Tables
  import opened Scan
  import opened DynamicLevels
  import opened ReadTree
  import opened Layout
  import opened Obsolescence
  import opened Spec
  import opened Shape
  import opened History
  import opened SoundSteps
  import opened Progress

  // ---------------------------------------------------------------- destinations

  /** The records have moved into the sorted list of level `d`, which holds the newest version of each of its
      keys, and an active segment there covers them; nothing else got into that list. */
  ghost predicate Arrived(st: Store, later: Store, d: nat, moved: seq<Record>)
    requires Levels(st) && Levels(later) && d < LEVELS
  {
    && Ascending(later.sorted[d])
    && (forall x :: x in st.sorted[d] || x in moved ==> HasAtLeast(later.sorted[d], x.key, x.ts))
    && (forall x :: x in later.sorted[d] ==> x in st.sorted[d] || x in moved)
    && (forall x :: x in moved ==> SegmentCovers(later.segs, d, x.key, x.ts))
    && |later.segs| == |st.segs| + 1
  }

  ghost predicate SameLists(st: Store, later: Store) { later.unsorted == st.unsorted && later.sorted == st.sorted }

  /** A non-empty level above L6 is compacted into the next deeper level that has a target, which is the base
      level if that is deeper than the next one; no other level changes. */
  lemma CompactionGoesTo(s: State, level: nat, d: nat)
    requires ShapeOk(s) && level < d <= MAX_LEVEL && Levels(s.store)
    requires s.store.unsorted[level] + s.store.sorted[level] != []
    requires |Calc(s).plan.target| == LEVELS && Calc(s).plan.target[d] != NO_TARGET
    requires forall l :: level < l < d ==> Calc(s).plan.target[l] == NO_TARGET
    ensures d == Max(level + 1, Calc(s).plan.base)
    ensures var r := CompactLevel(s, level);
            && r.store.unsorted[level] == [] && r.store.sorted[level] == []
            && Arrived(s.store, r.store, d, s.store.unsorted[level] + s.store.sorted[level])
            && r.store.unsorted[d] == s.store.unsorted[d]
            && (forall l :: 0 <= l < LEVELS && l != level && l != d ==>
                  r.store.unsorted[l] == s.store.unsorted[l] && r.store.sorted[l] == s.store.sorted[l])
  {
    hide ShapeOk, MoveLevel, Plan, HasAtLeast, SegmentCovers, PlanOk;
    CalcShape(s);
    CalcKeeps(s);
    var c := Calc(s);
    NextTarget(c.plan, s.threshold, level, d);
    assert Moved(c.store, level, d) == s.store.unsorted[level] + s.store.sorted[level];
    MoveResult(c, level, d);
    MoveAdds(c, level, d);
    MoveListsAt(c.store, level, d);
    MoveLevelStore(c, level, d);
  }

  lemma NextTarget(p: LevelPlan, threshold: nat, level: nat, d: nat)
    requires PlanOk(p, threshold) && level < d <= MAX_LEVEL && p.target[d] != NO_TARGET
    requires forall l :: level < l < d ==> p.target[l] == NO_TARGET
    ensures d == Max(level + 1, p.base)
  {
    if p.base <= level + 1 {
      assert p.target[level + 1] != NO_TARGET;
    } else {
      assert p.target[p.base] != NO_TARGET;
    }
  }

  lemma MoveAdds(s: State, level: nat, dst: nat)
    requires ShapeOk(s) && level < LEVELS && dst < LEVELS && Levels(s.store) && Moved(s.store, level, dst) != []
    ensures |MoveLevel(s, level, dst).store.segs| == |s.store.segs| + 1
  {
    hide MoveLevel, NewSegment, MoveLists;
    MoveLevelStore(s, level, dst);
  }

  /** L6 is compacted within itself: its unsorted list goes into its sorted one. */
  lemma BottomCompaction(s: State)
    requires ShapeOk(s) && Levels(s.store) && s.store.unsorted[MAX_LEVEL] != []
    ensures var r := CompactLevel(s, MAX_LEVEL);
            && r.store.unsorted[MAX_LEVEL] == [] && Arrived(s.store, r.store, MAX_LEVEL, s.store.unsorted[MAX_LEVEL])
            && forall l :: 0 <= l < MAX_LEVEL ==>
                 r.store.unsorted[l] == s.store.unsorted[l] && r.store.sorted[l] == s.store.sorted[l]
  {
    hide ShapeOk, MoveLevel, HasAtLeast, SegmentCovers;
    assert Moved(s.store, MAX_LEVEL, MAX_LEVEL) == s.store.unsorted[MAX_LEVEL];
    MoveResult(s, MAX_LEVEL, MAX_LEVEL);
    MoveAdds(s, MAX_LEVEL, MAX_LEVEL);
  }

  /** Compacting a level that holds nothing to move changes no list. */
  lemma NothingToCompact(s: State, level: nat)
    requires Levels(s.store) && level < LEVELS
    requires s.store.unsorted[level] == [] && (level < MAX_LEVEL ==> s.store.sorted[level] == [])
    ensures CompactLevel(s, level).store == s.store
  {
    hide MoveLevel, Plan;
    CalcKeeps(s);
  }

  /** The flush that precedes every operation empties the unsorted list of L6 into its sorted one, unless L6
      is the base level, where writes go. */
  lemma FlushResult(s: State)
    requires ShapeOk(s) && Levels(s.store)
    ensures var r := Ready(s);
            if Plan(Totals(s.store), s.threshold).base < MAX_LEVEL && s.store.unsorted[MAX_LEVEL] != [] then
              && r.store.unsorted[MAX_LEVEL] == []
              && Arrived(s.store, r.store, MAX_LEVEL, s.store.unsorted[MAX_LEVEL])
              && (forall l :: 0 <= l < MAX_LEVEL ==>
                    r.store.unsorted[l] == s.store.unsorted[l] && r.store.sorted[l] == s.store.sorted[l])
            else r.store == s.store
    ensures Ready(s).plan == Plan(Totals(Ready(s).store), s.threshold) && Ready(s).threshold == s.threshold
  {
    hide ShapeOk, MoveLevel, HasAtLeast, SegmentCovers, Plan, Arrived;
    CalcShape(s);
    CalcKeeps(s);
    var c := Calc(s);
    if c.plan.base < MAX_LEVEL && c.store.unsorted[MAX_LEVEL] != [] {
      BottomCompaction(c);
      assert CompactLevel(c, MAX_LEVEL) == MoveLevel(c, MAX_LEVEL, MAX_LEVEL);
      MovePlan(c, MAX_LEVEL, MAX_LEVEL);
    }
  }

  lemma MovePlan(s: State, level: nat, dst: nat)
    requires Levels(s.store) && level < LEVELS && dst < LEVELS
    ensures var r := MoveLevel(s, level, dst);
            r.plan == Plan(Totals(r.store), s.threshold) && r.threshold == s.threshold
  {
    hide Plan, NewSegment, MoveLists, Recalculated, CandidateOf, AllRecords;
  }

  // ---------------------------------------------------------------- new records

  /** Unsorted lists are kept whole or emptied. */
  ghost predicate KeptOrEmptied(st: Store, later: Store)
    requires Levels(st) && Levels(later)
  {
    forall l :: 0 <= l < LEVELS ==> later.unsorted[l] == [] || later.unsorted[l] == st.unsorted[l]
  }

  lemma CompactLevelEmpties(s: State, level: nat)
    requires ShapeOk(s) && Levels(s.store) && level < LEVELS
    ensures KeptOrEmptied(s.store, CompactLevel(s, level).store)
    ensures CompactLevel(s, level).store.unsorted[level] == []
  {
    hide ShapeOk, MoveLevel, Plan, MoveLists;
    CalcShape(s);
    CalcKeeps(s);
    var s1 := if level < MAX_LEVEL then Calc(s) else s;
    var dst := Min(DestinationOf(s1.plan, level), MAX_LEVEL);
    if Moved(s.store, level, dst) != [] {
      MoveListsAt(s1.store, level, dst);
      MoveLevelStore(s1, level, dst);
    }
  }

  lemma ReadyEmpties(s: State)
    requires ShapeOk(s) && Levels(s.store)
    ensures KeptOrEmptied(s.store, Ready(s).store)
  {
    hide ShapeOk, Ready, Arrived;
    FlushResult(s);
  }

  lemma {:induction false} RoundsEmpty(s: State, n: nat)
    requires ShapeOk(s) && Levels(s.store)
    ensures KeptOrEmptied(s.store, Rounds(s, n).store)
    decreases n
  {
    hide ShapeOk, CompactLevel, Calc, PickOf;
    CalcShape(s);
    CalcKeeps(s);
    var c := Calc(s);
    ShapeLevels(c);
    var level := PickOf(c.plan, c.threshold, Totals(c.store));
    if n > 0 && level < LEVELS {
      CompactLevelShape(c, level);
      CompactLevelEmpties(c, level);
      RoundsEmpty(CompactLevel(c, level), n - 1);
    }
  }

  lemma RunCompactionsEmpty(s: State)
    requires ShapeOk(s) && Levels(s.store)
    ensures KeptOrEmptied(s.store, RunCompactions(s).store)
  {
    hide ShapeOk, Ready, Rounds;
    ReadyShape(s);
    ReadyEmpties(s);
    assert RunCompactions(s) == Rounds(Ready(s), LEVELS) by { RunsReady(s); }
    RoundsEmpty(Ready(s), LEVELS);
  }

  lemma RunsReady(s: State)
    requires Levels(s.store)
    ensures RunCompactions(s) == Rounds(Ready(s), LEVELS)
  {
    hide FlushBottom, Calc, Rounds;
  }

  /** Nothing is picked and L6 needs no flush. */
  ghost predicate AtRest(s: State)
    requires Levels(s.store)
  {
    var p := Plan(Totals(s.store), s.threshold);
    && |p.target| == LEVELS && PickOf(p, s.threshold, Totals(s.store)) == LEVELS
    && (p.base < MAX_LEVEL ==> s.store.unsorted[MAX_LEVEL] == [])
  }

  lemma RestStays(s: State)
    requires ShapeOk(s) && Levels(s.store) && AtRest(s)
    ensures RunCompactions(s).store == s.store
  {
    hide ShapeOk, Plan, PickOf, CompactLevel, MoveLevel;
    CalcShape(s);
    CalcKeeps(s);
    var c := Calc(s);
    assert FlushBottom(c) == c;
    assert Calc(c) == c;
  }

  /** A new record is put before the others of the level's unsorted list. When the list has then reached the
      level's capacity it is emptied at once. Otherwise it stays as it is if nothing is due, and is kept or
      emptied as a whole if something is. */
  ghost predicate Recorded(s: State, r: State, level: nat, x: Record)
    requires Levels(s.store) && Levels(r.store) && level < LEVELS && |s.plan.target| == LEVELS
  {
    var target := s.plan.target[level];
    var capacity := if target == 0 || target == NO_TARGET then s.threshold else target;
    var t := s.store.(unsorted := s.store.unsorted[level := [x] + s.store.unsorted[level]]);
    && KeptOrEmptied(t, r.store)
    && (|s.store.unsorted[level]| + 1 >= capacity ==> r.store.unsorted[level] == [])
    && (|s.store.unsorted[level]| + 1 < capacity && AtRest(s.(store := t)) ==> SameLists(t, r.store))
  }

  lemma AppendRecords(s: State, level: nat, key: nat, pba: nat, zone: nat, valid: bool)
    requires ShapeOk(s) && Levels(s.store) && level < LEVELS && |s.plan.target| == LEVELS
    ensures Recorded(s, Append(s, level, key, pba, zone, valid), level, Record(key, pba, zone, valid, s.ts + 1))
  {
    hide ShapeOk, CompactLevel, Recalc, RunCompactions, Update, AtRest;
    AppendRecordShape(s, level, key, pba, zone, valid);
    var t := AppendRecord(s, level, key, pba, zone, valid);
    CompactLevelShape(t, level);
    CompactLevelEmpties(t, level);
    var u := if |t.store.unsorted[level]| >= Capacity(t.plan, t.threshold, level) then CompactLevel(t, level) else t;
    RunCompactionsEmpty(u);
    RecalcLists(RunCompactions(u));
    if u == t && AtRest(s.(store := t.store)) {
      assert AtRest(t) by { RestIgnores(s.(store := t.store), t); }
      RestStays(t);
    }
  }

  lemma RecalcLists(s: State)
    requires Levels(s.store)
    ensures SameLists(s.store, Recalc(s).store)
  {
    hide Recalculated, AllRecords, CandidateOf;
  }

  lemma RestIgnores(s: State, r: State)
    requires Levels(s.store) && AtRest(s) && r.store == s.store && r.threshold == s.threshold
    ensures AtRest(r)
  {
    hide Plan, PickOf;
  }

  /** A write or delete is recorded, after the flush, in the unsorted list of the base level. */
  lemma RecordGoesTo(s: State, key: nat, pba: nat, zone: nat)
    requires ShapeOk(s) && Levels(s.store)
    ensures var f, p := Ready(s), Plan(Totals(Ready(s).store), s.threshold);
            && f.plan == p && |p.target| == LEVELS && p.base <= MAX_LEVEL
            && Recorded(f, InsertRecord(s, 0, key, pba, zone), p.base, Record(key, pba, zone, true, s.ts + 1))
            && Recorded(f, DeleteRecord(s, key), p.base, Record(key, 0, 0, false, s.ts + 1))
  {
    hide ShapeOk, Append, Ready, Plan, Recorded, Arrived;
    FlushResult(s);
    ReadyShape(s);
    var f := Ready(s);
    CalcShape(f);
    PlanBase(f);
    AppendRecords(f, f.plan.base, key, pba, zone, true);
    CacheShape(f, key, 0);
    var g := f.(cache := Remove(f.cache, key));
    AppendRecords(g, f.plan.base, key, 0, 0, false);
    RecordedSame(g, f, DeleteRecord(s, key), DeleteRecord(s, key), f.plan.base, Record(key, 0, 0, false, s.ts + 1));
  }

  lemma PlanBase(f: State)
    requires ShapeOk(f) && Levels(f.store) && f.plan == Plan(Totals(f.store), f.threshold)
    ensures |f.plan.target| == LEVELS && f.plan.active == f.plan.base && 1 <= f.plan.base <= MAX_LEVEL
  {
    hide ShapeOk, Plan;
    CalcShape(f);
  }

  lemma RecordedSame(g: State, f: State, r: State, q: State, level: nat, x: Record)
    requires Levels(g.store) && Levels(r.store) && level < LEVELS && |g.plan.target| == LEVELS &&
             Recorded(g, r, level, x)
    requires f.store == g.store && f.plan == g.plan && f.threshold == g.threshold && q.store == r.store
    ensures Recorded(f, q, level, x)
  {
    hide Plan, PickOf, KeptOrEmptied;
  }

  /** For a write to the device that is the record of the block it went to. */
  lemma WriteGoesTo(s: State, key: nat, payload: nat)
    requires Sound(s) && ZoneOf(key) < |s.zoneFill|
    ensures Levels(s.store)
    ensures var f, p := Ready(MapBlock(s, key)), Plan(Totals(Ready(MapBlock(s, key)).store), s.threshold);
            && f.plan == p && |p.target| == LEVELS && p.base <= MAX_LEVEL
            && Recorded(f, Write(s, key, payload), p.base,
                     Record(key, BlockSector(ZoneOf(key), BlockFor(s, key)), ZoneOf(key), true, s.ts + 1))
  {
    hide Sound, InsertRecord, DeleteRecord, Ready, BlockFor, BlockSector, ZoneOf, Plan, Recorded;
    SoundLevels(s);
    OutsideSound(s, MapBlock(s, key));
    var pba := BlockSector(ZoneOf(key), BlockFor(s, key));
    assert ShapeOk(MapBlock(s, key)) by { SoundShape(MapBlock(s, key)); }
    RecordGoesTo(MapBlock(s, key), key, pba, ZoneOf(key));
    var f, x := Ready(MapBlock(s, key)), Record(key, pba, ZoneOf(key), true, s.ts + 1);
    RecordedSame(f, f, InsertRecord(MapBlock(s, key), 0, key, pba, ZoneOf(key)), Write(s, key, payload), f.plan.base,
                 x);
  }
}
