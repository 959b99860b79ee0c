/** What compactions achieve: levels move down and end in order, segments shrink until none is worth
    compacting. */
module Progress {
  import opened Types
  import opened Tables
  import opened Scan
  import opened DynamicLevels
  import opened ReadTree
  import opened Obsolescence
  import opened Commit
  import opened Spec
  import opened Outputs
  import opened Shape
  import opened SoundSteps
  import opened Evolution

  // ---------------------------------------------------------------- level compaction

  /** Some active segment at the level has a version of the key at least as new. */
  ghost predicate SegmentCovers(segs: seq<Segment>, level: nat, key: nat, ts: nat) {
    exists i :: 0 <= i < |segs| && !segs[i].retired && segs[i].level == level &&
      HasAtLeast(Recs(segs[i].table), key, ts)
  }

  /** A move empties the source, leaves the destination's sorted list ascending with the newest record
      of each key that was there or arrived, and leaves a segment that covers everything moved. */
  lemma MoveResult(s: State, level: nat, dst: nat)
    requires ShapeOk(s) && level < LEVELS && dst < LEVELS && Moved(s.store, level, dst) != []
    ensures Levels(s.store)
    ensures var r, moved := MoveLevel(s, level, dst), Moved(s.store, level, dst);
            && r.store.unsorted[level] == [] && (dst != level ==> r.store.sorted[level] == [])
            && Ascending(r.store.sorted[dst])
            && (forall x :: x in s.store.sorted[dst] || x in moved ==> HasAtLeast(r.store.sorted[dst], x.key, x.ts))
            && (forall x :: x in r.store.sorted[dst] ==> x in s.store.sorted[dst] || x in moved)
            && (forall x :: x in moved ==> SegmentCovers(r.store.segs, dst, x.key, x.ts))
            && (forall l :: 0 <= l < LEVELS && l != level && l != dst ==>
                  r.store.unsorted[l] == s.store.unsorted[l] && r.store.sorted[l] == s.store.sorted[l])
  {
    hide StoreOk, ListsTimed, CacheOk, OutputsOk, NewSegment, UpsertAll, Moved, Timed, HasAtLeast, SegmentOk;
    var r, moved := MoveLevel(s, level, dst), Moved(s.store, level, dst);
    MovedTimed(s.store, level, dst);
    MoveListsAt(s.store, level, dst);
    MoveLevelStore(s, level, dst);
    assert Ascending(s.store.sorted[dst]) by { SortedAscending(s.store, dst); }
    UpsertAllFacts(s.store.sorted[dst], moved);
    forall x | x in s.store.sorted[dst] || x in moved ensures HasAtLeast(r.store.sorted[dst], x.key, x.ts) {
      UpsertAllKeeps(s.store.sorted[dst], moved, x);
    }
    NewSegmentOk(s.store.segs, s.nextId, dst, Bottom, moved, s.bitsPerKey);
    forall x | x in moved ensures SegmentCovers(r.store.segs, dst, x.key, x.ts) {
      UpsertAllKeeps([], moved, x);
      assert HasAtLeast(Recs(r.store.segs[|s.store.segs|].table), x.key, x.ts);
    }
  }

  lemma MoveLevelStore(s: State, level: nat, dst: nat)
    requires Levels(s.store) && level < LEVELS && dst < LEVELS && Moved(s.store, level, dst) != []
    ensures var r, m := MoveLevel(s, level, dst), MoveLists(s.store, level, dst);
            var seg := NewSegment(s.store.segs, s.nextId, dst, Bottom, Moved(s.store, level, dst), s.bitsPerKey);
            && r.store.unsorted == m.unsorted && r.store.sorted == m.sorted
            && |r.store.segs| == |s.store.segs| + 1
            && SameSegment(r.store.segs[|s.store.segs|], seg)
  {
    hide NewSegment, StatsOf, AllRecords, ScoreOfStats, UpsertAll, Plan;
  }

  /** The newest stored timestamp of the key, or 0. */
  function LatestTs(st: Store, key: nat): nat
    requires Levels(st)
  {
    Fold(NONE, AllRecords(st), key).ts
  }

  lemma LatestBounds(st: Store, key: nat)
    requires Levels(st)
    ensures forall r :: Stored(st, r) && r.key == key ==> r.ts <= LatestTs(st, key)
    ensures LatestTs(st, key) > 0 ==> exists r :: Stored(st, r) && r.key == key && r.ts == LatestTs(st, key)
  {
    hide AllRecords, Stored, Fold;
    var all := AllRecords(st);
    FoldIsNewest(NONE, all, key);
    forall r ensures r in all <==> Stored(st, r) {
      AllRecordsMembers(st, r);
    }
    var b := Fold(NONE, all, key);
    if b.ts > 0 {
      var i :| 0 <= i < |all| && IsRecord(all[i], key, b);
      assert all[i] in all;
    }
  }

  /** What was stored before a move, sorted lists included, has a version at least as new after it. */
  lemma MoveKeepsVersions(st: Store, level: nat, dst: nat, seg: Segment, r: Record)
    requires Levels(st) && level < LEVELS && dst < LEVELS && Ascending(st.sorted[dst])
    requires Recs(seg.table) == UpsertAll([], Moved(st, level, dst)) && !seg.retired
    requires Stored(st, r)
    ensures exists x :: Stored(MoveLists(st, level, dst).(segs := st.segs + [seg]), x) && x.key == r.key && x.ts >= r.ts
  {
    hide UpsertAll, MoveLists, Visible;
    var later := MoveLists(st, level, dst).(segs := st.segs + [seg]);
    if Visible(st, r) {
      MoveShows(st, level, dst, seg, r);
      var x :| Visible(later, x) && x.key == r.key && x.ts >= r.ts;
      assert Stored(later, x);
    } else {
      MoveListsAt(st, level, dst);
      var l :| 0 <= l < LEVELS && r in st.sorted[l];
      var into := UpsertAll(st.sorted[dst], Moved(st, level, dst));
      if l == level || l == dst {
        UpsertAllKeeps(st.sorted[dst], Moved(st, level, dst), r);
        var j :| 0 <= j < |into| && into[j].key == r.key && into[j].ts >= r.ts;
        assert into[j] in later.sorted[dst];
        assert Stored(later, into[j]);
      } else {
        assert r in later.sorted[l];
        assert Stored(later, r);
      }
    }
  }

  /** Every key's newest version survives a move, and nothing newer appears. */
  lemma MoveKeepsLatest(s: State, level: nat, dst: nat, key: nat)
    requires ShapeOk(s) && level < LEVELS && dst < LEVELS && Moved(s.store, level, dst) != []
    ensures Levels(s.store) && LatestTs(MoveLevel(s, level, dst).store, key) == LatestTs(s.store, key)
  {
    hide StoreOk, ListsTimed, CacheOk, OutputsOk, NewSegment, UpsertAll, Moved, Timed, SegmentOk, MoveLevel,
      MoveLists, LatestTs, Stored;
    var r, moved := MoveLevel(s, level, dst), Moved(s.store, level, dst);
    var seg := NewSegment(s.store.segs, s.nextId, dst, Bottom, moved, s.bitsPerKey);
    var later := MoveLists(s.store, level, dst).(segs := s.store.segs + [seg]);
    assert Timed(moved) by { MovedTimed(s.store, level, dst); }
    NewSegmentOk(s.store.segs, s.nextId, dst, Bottom, moved, s.bitsPerKey);
    assert Ascending(s.store.sorted[dst]) by { SortedAscending(s.store, dst); }
    MoveStoreSame(s, level, dst);
    LatestBounds(s.store, key);
    LatestBounds(r.store, key);
    forall x ensures Stored(r.store, x) == Stored(later, x) {
      SameStored(later, r.store.segs, x);
    }
    if LatestTs(r.store, key) > 0 {
      var x :| Stored(r.store, x) && x.key == key && x.ts == LatestTs(r.store, key);
      MoveStores(s.store, level, dst, seg, x);
    }
    if LatestTs(s.store, key) > 0 {
      var x :| Stored(s.store, x) && x.key == key && x.ts == LatestTs(s.store, key);
      MoveKeepsVersions(s.store, level, dst, seg, x);
    }
  }

  function Count(st: Store, level: nat): nat
    requires Levels(st) && level < LEVELS
  {
    |st.unsorted[level]| + |st.sorted[level]|
  }

  /** Entries weighted by the number of levels still below them. */
  function Height(st: Store, n: nat): nat
    requires Levels(st) && n <= LEVELS
  {
    if n == 0 then 0 else Height(st, n - 1) + (MAX_LEVEL - (n - 1)) * Count(st, n - 1)
  }

  /** Compacting a non-empty level above L6 strictly lowers the weighted height of the tree. */
  lemma CompactionDescends(s: State, level: nat)
    requires ShapeOk(s) && level < MAX_LEVEL && Levels(s.store) && Count(s.store, level) > 0
    ensures Height(CompactLevel(s, level).store, LEVELS) < Height(s.store, LEVELS)
  {
    hide ShapeOk, MoveLevel, Height;
    CalcShape(s);
    CalcKeeps(s);
    var s1 := Calc(s);
    PlanLength(s1.plan, s.threshold);
    var dst := DestinationOf(s1.plan, level);
    assert level < dst <= MAX_LEVEL;
    assert Moved(s.store, level, dst) != [];
    MoveDescends(s1, level, dst);
  }

  lemma MoveDescends(s: State, level: nat, dst: nat)
    requires ShapeOk(s) && Levels(s.store) && level < dst <= MAX_LEVEL && Moved(s.store, level, dst) != []
    ensures Height(MoveLevel(s, level, dst).store, LEVELS) < Height(s.store, LEVELS)
  {
    hide ShapeOk, MoveLevel, Height, Count, Moved;
    var k := |Moved(s.store, level, dst)|;
    MoveCounts(s, level, dst);
    HeightShift(s.store, MoveLevel(s, level, dst).store, level, dst, k, LEVELS);
    Scale(k, 1, dst - level);
  }

  /** Everything leaves the source, and at most as much arrives. */
  lemma MoveCounts(s: State, level: nat, dst: nat)
    requires ShapeOk(s) && Levels(s.store) && level < dst <= MAX_LEVEL && Moved(s.store, level, dst) != []
    ensures var r, k := MoveLevel(s, level, dst), |Moved(s.store, level, dst)|;
            && Count(s.store, level) == k && Count(r.store, level) == 0
            && Count(r.store, dst) <= Count(s.store, dst) + k
            && forall l :: 0 <= l < LEVELS && l != level && l != dst ==> Count(r.store, l) == Count(s.store, l)
  {
    hide StoreOk, ListsTimed, CacheOk, OutputsOk, UpsertAll, MoveLevel, MoveLists, NewSegment;
    MoveLevelStore(s, level, dst);
    MoveListsAt(s.store, level, dst);
    assert Ascending(s.store.sorted[dst]) by { SortedAscending(s.store, dst); }
    UpsertAllFacts(s.store.sorted[dst], Moved(s.store, level, dst));
  }

  /** Moving `k` entries from `level` to the deeper `dst`, where at most as many arrive. */
  lemma {:induction false} HeightShift(st: Store, later: Store, level: nat, dst: nat, k: nat, n: nat)
    requires Levels(st) && Levels(later) && level < dst <= MAX_LEVEL && n <= LEVELS && k > 0
    requires Count(st, level) == k && Count(later, level) == 0 && Count(later, dst) <= Count(st, dst) + k
    requires forall l :: 0 <= l < LEVELS && l != level && l != dst ==> Count(later, l) == Count(st, l)
    ensures n <= level ==> Height(later, n) == Height(st, n)
    ensures level < n <= dst ==> Height(later, n) + (MAX_LEVEL - level) * k == Height(st, n)
    ensures dst < n ==> Height(later, n) + (dst - level) * k <= Height(st, n)
  {
    hide Count, Height;
    if n > 0 {
      HeightShift(st, later, level, dst, k, n - 1);
      HeightStep(st, n);
      HeightStep(later, n);
      var l := n - 1;
      if l == dst {
        Weigh(MAX_LEVEL - dst, Count(st, l), Count(later, l), k);
        assert (MAX_LEVEL - dst) * k + (dst - level) * k == (MAX_LEVEL - level) * k;
      }
    } else {
      NoHeight(st);
      NoHeight(later);
    }
  }

  lemma NoHeight(st: Store)
    requires Levels(st)
    ensures Height(st, 0) == 0
  {
  }

  lemma HeightStep(st: Store, n: nat)
    requires Levels(st) && 0 < n <= LEVELS
    ensures Height(st, n) == Height(st, n - 1) + (MAX_LEVEL - (n - 1)) * Count(st, n - 1)
  {
  }

  lemma Weigh(w: nat, a: nat, b: nat, k: nat)
    requires b <= a + k
    ensures w * b <= w * a + w * k
  {
    Scale(w, b, a + k);
    assert w * (a + k) == w * a + w * k;
  }

  lemma Scale(c: nat, a: nat, b: nat)
    requires a <= b
    ensures c * a <= c * b
  {
  }

  /** Whatever the picker chooses is due, and compacting it brings the tree closer to rest. */
  lemma PickedCompactionDescends(s: State)
    requires ShapeOk(s) && Levels(s.store)
    ensures var c := Calc(s);
            var level := PickOf(c.plan, c.threshold, Totals(c.store));
            level != LEVELS ==>
              && Due(c.plan, c.threshold, Totals(c.store), level)
              && Height(CompactLevel(c, level).store, LEVELS) < Height(s.store, LEVELS)
  {
    hide ShapeOk, CompactLevel, Height, Plan, ScoreOf, BestOf;
    CalcShape(s);
    CalcKeeps(s);
    var c := Calc(s);
    PlanLength(c.plan, s.threshold);
    PickFacts(c.plan, c.threshold, Totals(c.store));
    var level := PickOf(c.plan, c.threshold, Totals(c.store));
    if level != LEVELS {
      CompactionDescends(c, level);
    }
  }

  /** Compacting what the picker chooses, over and over, comes to rest. */
  function Settle(s: State): (r: State)
    requires ShapeOk(s) && Levels(s.store)
    ensures ShapeOk(r) && Levels(r.store)
    decreases Height(s.store, LEVELS)
  {
    hide ShapeOk, CompactLevel, Height, Calc, PickOf;
    CalcShape(s);
    ShapeLevels(Calc(s));
    PickedCompactionDescends(s);
    var c := Calc(s);
    var level := PickOf(c.plan, c.threshold, Totals(c.store));
    if level >= LEVELS then c
    else
      CompactLevelShape(c, level);
      PickRange(c);
      Settle(CompactLevel(c, level))
  }

  lemma PickRange(c: State)
    requires Levels(c.store) && |c.plan.target| == LEVELS
    ensures PickOf(c.plan, c.threshold, Totals(c.store)) <= LEVELS
  {
    hide ScoreOf;
  }

  /** At rest no level's score reaches the scale. */
  lemma {:induction false} SettledAtRest(s: State)
    requires ShapeOk(s) && Levels(s.store)
    ensures var r := Settle(s);
            |r.plan.target| == LEVELS &&
            forall l :: 0 <= l < MAX_LEVEL ==> ScoreOf(r.plan, r.threshold, Totals(r.store), l) < SCORE_SCALE
    decreases Height(s.store, LEVELS)
  {
    hide ShapeOk, CompactLevel, Height, Calc, PickOf, ScoreOf;
    CalcShape(s);
    ShapeLevels(Calc(s));
    PickedCompactionDescends(s);
    var c := Calc(s);
    var level := PickOf(c.plan, c.threshold, Totals(c.store));
    PickFacts(c.plan, c.threshold, Totals(c.store));
    if level < LEVELS {
      CompactLevelShape(c, level);
      SettledAtRest(CompactLevel(c, level));
    } else {
      PickRange(c);
    }
  }

  // ---------------------------------------------------------------- the seven rounds

  /** The levels above L6 that hold something, each weighted by its distance from L6. */
  function Spread(st: Store, n: nat): nat
    requires Levels(st) && n <= MAX_LEVEL
  {
    if n == 0 then 0 else Spread(st, n - 1) + (if Count(st, n - 1) > 0 then MAX_LEVEL - (n - 1) else 0)
  }

  lemma {:induction false} SpreadShift(st: Store, later: Store, level: nat, dst: nat, n: nat)
    requires Levels(st) && Levels(later) && level < dst <= MAX_LEVEL && n <= MAX_LEVEL
    requires Count(st, level) > 0 && Count(later, level) == 0
    requires forall l :: 0 <= l < LEVELS && l != level && l != dst ==> Count(later, l) == Count(st, l)
    ensures n <= level ==> Spread(later, n) == Spread(st, n)
    ensures level < n <= dst ==> Spread(later, n) + (MAX_LEVEL - level) == Spread(st, n)
    ensures dst < n ==> Spread(later, n) + (dst - level) <= Spread(st, n)
  {
    hide Count;
    if n > 0 { SpreadShift(st, later, level, dst, n - 1); }
  }

  lemma PickedCompactionNarrows(s: State)
    requires ShapeOk(s) && Levels(s.store)
    ensures var c := Calc(s);
            var level := PickOf(c.plan, c.threshold, Totals(c.store));
            level < LEVELS ==> Spread(CompactLevel(c, level).store, MAX_LEVEL) < Spread(s.store, MAX_LEVEL)
  {
    hide ShapeOk, MoveLevel, Spread, Plan, ScoreOf, BestOf;
    CalcShape(s);
    CalcKeeps(s);
    var c := Calc(s);
    PlanLength(c.plan, s.threshold);
    PickFacts(c.plan, c.threshold, Totals(c.store));
    var level := PickOf(c.plan, c.threshold, Totals(c.store));
    if level < LEVELS {
      CalcTwice(s);
      var dst := DestinationOf(c.plan, level);
      assert Moved(c.store, level, dst) != [];
      MoveCounts(c, level, dst);
      SpreadShift(c.store, MoveLevel(c, level, dst).store, level, dst, MAX_LEVEL);
    }
  }

  lemma CalcTwice(s: State)
    requires Levels(s.store)
    ensures Calc(Calc(s)) == Calc(s) && Totals(Calc(s).store) == Totals(s.store)
  {
    hide Plan;
  }

  /** As many rounds as the spread come to rest, in the very state that unbounded repetition reaches. */
  lemma {:induction false} RoundsSettle(s: State, n: nat)
    requires ShapeOk(s) && Levels(s.store) && Spread(s.store, MAX_LEVEL) <= n
    ensures Calc(Rounds(s, n)) == Settle(s)
    decreases n
  {
    hide ShapeOk, CompactLevel, Calc, PickOf, Spread, Totals;
    CalcShape(s);
    ShapeLevels(Calc(s));
    PickedCompactionNarrows(s);
    CalcTwice(s);
    var c := Calc(s);
    var level := PickOf(c.plan, c.threshold, Totals(c.store));
    if level < LEVELS {
      CompactLevelShape(c, level);
      PickRange(c);
      RoundsSettle(CompactLevel(c, level), n - 1);
    }
  }

  /** The seven rounds of the source end at rest if the levels above L6 that hold something lie at most
      seven steps above it together; twenty-one rounds always do. */
  lemma SevenRoundsSettle(s: State)
    requires ShapeOk(s) && Levels(s.store)
    ensures ShapeOk(Ready(s))
    ensures Spread(Ready(s).store, MAX_LEVEL) <= LEVELS ==> Calc(RunCompactions(s)) == Settle(Ready(s))
    ensures Calc(Rounds(s, 21)) == Settle(s)
  {
    hide ShapeOk, Settle, Rounds, FlushBottom, Calc;
    ReadyShape(s);
    ShapeLevels(Ready(s));
    if Spread(Ready(s).store, MAX_LEVEL) <= LEVELS {
      RoundsSettle(Ready(s), LEVELS);
    }
    SpreadBound(s.store);
    RoundsSettle(s, 21);
  }

  lemma SpreadBound(st: Store)
    requires Levels(st)
    ensures Spread(st, MAX_LEVEL) <= 21
  {
    hide Count;
    assert Spread(st, 1) <= 6 && Spread(st, 2) <= 11 && Spread(st, 3) <= 15 && Spread(st, 4) <= 18 &&
           Spread(st, 5) <= 20;
  }

  // ---------------------------------------------------------------- segment compaction

  function ActiveEntries(segs: seq<Segment>, n: nat): nat
    requires n <= |segs|
  {
    if n == 0 then 0 else ActiveEntries(segs, n - 1) + (if segs[n - 1].retired then 0 else |segs[n - 1].table|)
  }

  ghost predicate SameSizes(a: seq<Segment>, b: seq<Segment>) {
    |a| == |b| && forall i :: 0 <= i < |a| ==> a[i].retired == b[i].retired && |a[i].table| == |b[i].table|
  }

  lemma {:induction false} SameActive(a: seq<Segment>, b: seq<Segment>, n: nat)
    requires SameSizes(a, b) && n <= |a|
    ensures ActiveEntries(a, n) == ActiveEntries(b, n)
  {
    if n > 0 { SameActive(a, b, n - 1); }
  }

  lemma {:induction false} ActiveUpdate(segs: seq<Segment>, at: nat, seg: Segment, n: nat)
    requires at < |segs| && !segs[at].retired && seg == segs[at].(retired := true) && n <= |segs|
    ensures ActiveEntries(segs[at := seg], n) + (if at < n then |segs[at].table| else 0) == ActiveEntries(segs, n)
  {
    if n > 0 { ActiveUpdate(segs, at, seg, n - 1); }
  }

  lemma {:induction false} ActivePrefix(segs: seq<Segment>, more: seq<Segment>, n: nat)
    requires n <= |segs|
    ensures ActiveEntries(segs + more, n) == ActiveEntries(segs, n)
  {
    if n > 0 { ActivePrefix(segs, more, n - 1); }
  }

  /** The compactor keeps exactly the entries not counted as invalid. */
  lemma KeptCount(s: State, at: nat)
    requires Levels(s.store) && at < |s.store.segs|
    ensures var table := s.store.segs[at].table;
            |KeptBy(s, at)| == |table| - CountObsolete(AllRecords(s.store), s.zone, table, |table|)
  {
    hide KeptOf, AllRecords, CountObsolete;
    var seg := s.store.segs[at];
    KeptFacts(AllRecords(s.store), s.zone, seg.table, |seg.table|);
    assert Recs(seg.table)[..|seg.table|] == Recs(seg.table);
  }

  lemma ReplacedActive(s: State, at: nat)
    requires ShapeOk(s) && Levels(s.store) && at < |s.store.segs| && !s.store.segs[at].retired
    ensures ActiveEntries(Replaced(s, at).segs, |Replaced(s, at).segs|) + |s.store.segs[at].table|
            == ActiveEntries(s.store.segs, |s.store.segs|) + |KeptBy(s, at)|
  {
    hide ShapeOk, NewSegment, KeptBy, UpsertAll, AllRecords;
    var seg, kept, n := s.store.segs[at], KeptBy(s, at), |s.store.segs|;
    var segs := s.store.segs[at := seg.(retired := true)];
    ActiveUpdate(s.store.segs, at, seg.(retired := true), n);
    if kept != [] {
      var last := NewSegment(s.store.segs, s.nextId, seg.level, seg.track, kept, s.bitsPerKey);
      KeptByTimed(s, at);
      NewSegmentOk(s.store.segs, s.nextId, seg.level, seg.track, kept, s.bitsPerKey);
      KeptRecords(s, at, kept[0]);
      assert |last.table| == |kept|;
      ActivePrefix(segs, [last], n);
      assert Replaced(s, at).segs == segs + [last] && Replaced(s, at).segs[n] == last;
    }
  }

  lemma SizesAfterReplace(s: State, at: nat)
    requires Levels(s.store) && at < |s.store.segs|
    ensures SameSizes(ReplaceSegment(s, at).store.segs, Replaced(s, at).segs)
  {
    hide ReplaceSegment, Replaced, KeptBy;
    ReplacedIsReplaceSegment(s, at);
    var a, b := ReplaceSegment(s, at).store.segs, Replaced(s, at).segs;
    assert forall i :: 0 <= i < |a| ==> SameSegment(a[i], b[i]);
  }

  lemma SizesAfterCommit(s: State, mode: nat, io: Io)
    requires Levels(s.store)
    ensures SameSizes(CommitOutput(s, mode, io).store.segs, s.store.segs)
  {
    hide CopyAll, RefreshSegments, AllRecords, PlanAll, CommitSegments, SameVersions;
    var planned := PlanAll(s.store.segs);
    var c := CopyAll(s.disk, planned, io).segs;
    PlanSameVersions(s.store.segs);
    CopySameVersions(s.disk, planned, io);
    CommitSameVersions(planned);
    CommitSameVersions(c);
    SameVersionSizes(planned, s.store.segs);
    SameVersionSizes(c, planned);
    SameVersionSizes(CommitSegments(planned), planned);
    SameVersionSizes(CommitSegments(c), c);
  }

  lemma SameVersionSizes(a: seq<Segment>, b: seq<Segment>)
    requires SameVersions(a, b)
    ensures SameSizes(a, b)
  {
    assert forall i :: 0 <= i < |a| ==> SameTable(a[i], b[i]);
  }

  /** Each executed segment compaction drops exactly the entries counted as invalid, at least one, so
      the number of active entries strictly falls. */
  lemma CompactionShrinks(s: State, io: Io)
    requires ShapeOk(s) && Levels(s.store) && SelectedAt(Recalc(s)) >= 0
    ensures var s1 := Recalc(s);
            var seg := s1.store.segs[SelectedAt(s1)];
            && seg.stats.invalid >= 1
            && ActiveEntries(CompactSelected(s, io).store.segs, |CompactSelected(s, io).store.segs|) + seg.stats.invalid
               == ActiveEntries(s.store.segs, |s.store.segs|)
  {
    hide ShapeOk, ReplaceSegment, CommitOutput, Selected, Replaced, KeptBy, AllRecords, Recalculated, CountObsolete;
    var s1 := Recalc(s);
    var at := SelectedAt(s1);
    RecalcShape(s);
    RecalcSizes(s);
    SelectedScores(s);
    KeptCount(s1, at);
    ReplacedActive(s1, at);
    SizesAfterReplace(s1, at);
    var s2 := ReplaceSegment(s1, at);
    SizesAfterCommit(s2, 3, io);
    SameActive(s2.store.segs, Replaced(s1, at).segs, |s2.store.segs|);
    SameActive(CommitOutput(s2, 3, io).store.segs, s2.store.segs, |s2.store.segs|);
    SameActive(s1.store.segs, s.store.segs, |s.store.segs|);
    RecalcCounts(s, at);
  }

  lemma RecalcSizes(s: State)
    requires Levels(s.store)
    ensures SameSizes(Recalc(s).store.segs, s.store.segs)
  {
    hide AllRecords, StatsOf;
  }

  /** The recalculated count is the one the compactor goes by. */
  lemma RecalcCounts(s: State, at: nat)
    requires Levels(s.store) && at < |s.store.segs| && !s.store.segs[at].retired
    ensures var s1 := Recalc(s);
            s1.store.segs[at].stats.invalid ==
            CountObsolete(AllRecords(s1.store), s1.zone, s1.store.segs[at].table, |s1.store.segs[at].table|)
  {
    hide AllRecords, SameButStats;
    RecalculatedSame(AllRecords(s.store), s.zone, s.store.segs);
    AllRecordsSame(s.store, Recalc(s).store.segs);
  }

  /** After a recalculation only active segments score, and a score needs an invalid entry. */
  lemma SelectedScores(s: State)
    requires ShapeOk(s) && Levels(s.store)
    ensures var s1 := Recalc(s);
            && (SelectedAt(s1) >= 0 ==>
                  !s1.store.segs[SelectedAt(s1)].retired && s1.store.segs[SelectedAt(s1)].stats.invalid >= 1)
            && (SelectedAt(s1) < 0 ==> forall i :: 0 <= i < |s1.store.segs| ==> s1.store.segs[i].score == 0)
  {
    hide StoreOk, CacheOk, ListsTimed, OutputsOk, AllRecords, StatsOf, FinalScore, Beats;
    var s1 := Recalc(s);
    var segs, policy := s1.store.segs, Policy(s.ts, s.zoneFill);
    SelectFacts(segs, |segs|, policy);
    var best := Select(segs, |segs|, policy);
    assert s1.cand == CandidateOf(segs, policy);
    if best >= 0 {
      assert segs[best] == WithStats(AllRecords(s.store), s.zone, s.store.segs[best]);
      UniqueSelected(segs, s1.cand, best, |segs|);
    } else {
      assert s1.cand.score == 0;
    }
  }

  lemma {:induction false} UniqueSelected(segs: seq<Segment>, cand: Candidate, best: nat, n: nat)
    requires best < n <= |segs| && !segs[best].retired && cand == Candidate(segs[best].id, segs[best].score) &&
             cand.score > 0
    requires forall i :: 0 <= i < |segs| ==> segs[i].id == i
    ensures Selected(segs, cand, n) == best
  {
    if n - 1 == best {
      assert Selected(segs, cand, n - 1) < 0;
    } else {
      UniqueSelected(segs, cand, best, n - 1);
    }
  }

  /** When nothing is selected, every active segment is below a quarter invalid. */
  lemma IdleMeansBelowQuarter(s: State, i: nat)
    requires ShapeOk(s) && Levels(s.store) && SelectedAt(Recalc(s)) < 0
    requires i < |s.store.segs| && !s.store.segs[i].retired
    ensures var seg := Recalc(s).store.segs[i]; Div(seg.stats.invalid * 1000, |seg.table|) < MIN_RATIO
  {
    hide AllRecords, Selected, CandidateOf, StoreOk, CacheOk, ListsTimed, OutputsOk;
    SelectedScores(s);
    var seg := Recalc(s).store.segs[i];
    assert seg.score == 0;
    assert seg == WithStats(AllRecords(s.store), s.zone, s.store.segs[i]);
    assert |seg.table| > 0 by { TableNotEmpty(s.store, i); }
    if seg.stats.invalid >= MIN_INVALID && seg.stats.ratio >= MIN_RATIO { ScorePositive(seg.stats); }
  }

  lemma TableNotEmpty(st: Store, i: nat)
    requires StoreOk(st) && i < |st.segs|
    ensures |st.segs[i].table| > 0
  {
    assert SegmentOk(st.segs[i]);
  }

  lemma ScorePositive(stats: SegmentStats)
    requires stats.invalid >= MIN_INVALID && stats.ratio >= MIN_RATIO
    ensures ScoreOfStats(stats) > 0
  {
    assert stats.ratio * stats.invalid >= stats.ratio by { Scale(stats.ratio, 1, stats.invalid); }
  }

  /** Compacting the selected segment, over and over, comes to rest. */
  function SettleSegments(s: State, io: Io): (r: State)
    requires ShapeOk(s) && Levels(s.store)
    ensures ShapeOk(r) && Levels(r.store)
    decreases ActiveEntries(s.store.segs, |s.store.segs|)
  {
    hide ShapeOk, CompactSelected, Recalc, SelectedAt, ActiveEntries;
    RecalcShape(s);
    if SelectedAt(Recalc(s)) < 0 then Recalc(s)
    else
      CompactionShrinks(s, io);
      CompactSelectedShape(s, io);
      SettleSegments(CompactSelected(s, io), io)
  }

  /** At rest every active segment is less than a quarter invalid. */
  lemma {:induction false} SettledSegments(s: State, io: Io, i: nat)
    requires ShapeOk(s) && Levels(s.store)
    requires i < |SettleSegments(s, io).store.segs| && !SettleSegments(s, io).store.segs[i].retired
    ensures var seg := SettleSegments(s, io).store.segs[i];
            seg.table != [] && Div(seg.stats.invalid * 1000, |seg.table|) < MIN_RATIO
    decreases ActiveEntries(s.store.segs, |s.store.segs|)
  {
    hide ShapeOk, CompactSelected, Recalc, SelectedAt, ActiveEntries, Div;
    RecalcShape(s);
    if SelectedAt(Recalc(s)) < 0 {
      SettledSegment(s, i);
    } else {
      CompactionShrinks(s, io);
      CompactSelectedShape(s, io);
      SettledSegments(CompactSelected(s, io), io, i);
    }
  }

  lemma SettledSegment(s: State, i: nat)
    requires ShapeOk(s) && Levels(s.store) && SelectedAt(Recalc(s)) < 0
    requires i < |Recalc(s).store.segs| && !Recalc(s).store.segs[i].retired
    ensures var seg := Recalc(s).store.segs[i];
            seg.table != [] && Div(seg.stats.invalid * 1000, |seg.table|) < MIN_RATIO
  {
    hide StoreOk, ListsTimed, CacheOk, OutputsOk, AllRecords, SelectedAt, CandidateOf, StatsOf, ScoreOfStats, Div;
    assert Recalc(s).store.segs[i] == WithStats(AllRecords(s.store), s.zone, s.store.segs[i]);
    TableNotEmpty(s.store, i);
    IdleMeansBelowQuarter(s, i);
  }
}
