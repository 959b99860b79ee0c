/** Every operation of the engine keeps it sound against the history. */
module SoundSteps {
  import opened Types
  import opened Tables
  import opened BloomFilter
  import opened Scan
  import opened DynamicLevels
  import opened ReadTree
  import opened Obsolescence
  import opened CopyJobs
  import opened Commit
  import opened Spec
  import opened Outputs
  import opened Shape
  import opened History

  // ---------------------------------------------------------------- rearrangements

  lemma StatsRearranged(st: Store, segs: seq<Segment>)
    requires SameButStats(segs, st.segs)
    ensures Rearranged(st, st.(segs := segs))
  {
    hide Visible;
    var later := st.(segs := segs);
    assert forall i :: 0 <= i < |segs| ==> SameSegment(segs[i], st.segs[i]);
    forall r ensures Stored(later, r) == Stored(st, r) && Visible(later, r) == Visible(st, r) {
      SameStored(st, segs, r);
    }
    forall r | Stored(later, r) ensures From(st, segs, r) {
      assert Stored(st, r);
    }
    forall r | Visible(st, r) ensures Sees(later, r.key, r.ts) {
      assert Visible(later, r);
    }
  }

  /** What is stored after a move was stored before. */
  lemma MoveStores(st: Store, level: nat, dst: nat, seg: Segment, r: Record)
    requires Levels(st) && level < LEVELS && dst < LEVELS && Ascending(st.sorted[dst])
    requires Recs(seg.table) == UpsertAll([], Moved(st, level, dst))
    requires Stored(MoveLists(st, level, dst).(segs := st.segs + [seg]), r)
    ensures Stored(st, r)
  {
    hide UpsertAll, MoveLists;
    var m, moved := MoveLists(st, level, dst), Moved(st, level, dst);
    var later := m.(segs := st.segs + [seg]);
    MoveListsAt(st, level, dst);
    UpsertAllFacts(st.sorted[dst], moved);
    UpsertAllFacts([], moved);
    MovedStored(st, level, dst, r);
    if InUnsorted(later, r) {
      var l :| 0 <= l < LEVELS && r in later.unsorted[l];
      assert r in st.unsorted[l];
    } else if InSorted(later, r) {
      var l :| 0 <= l < LEVELS && r in later.sorted[l];
      assert r in st.sorted[l] || r in moved;
    } else {
      var i :| 0 <= i < |later.segs| && !later.segs[i].retired && InTable(later.segs[i], r);
      if i == |st.segs| {
        TableMembers(seg, r);
      } else {
        assert InTable(st.segs[i], r);
      }
    }
  }

  lemma MovedStored(st: Store, level: nat, dst: nat, r: Record)
    requires Levels(st) && level < LEVELS
    ensures r in Moved(st, level, dst) ==> Stored(st, r)
    ensures r in st.unsorted[level] ==> r in Moved(st, level, dst)
  {
  }

  /** What was visible before a move has a version at least as new visible after it. */
  lemma MoveShows(st: Store, level: nat, dst: nat, seg: Segment, r: Record)
    requires Levels(st) && level < LEVELS && dst < LEVELS
    requires Recs(seg.table) == UpsertAll([], Moved(st, level, dst)) && !seg.retired
    requires Visible(st, r)
    ensures Sees(MoveLists(st, level, dst).(segs := st.segs + [seg]), r.key, r.ts)
  {
    hide UpsertAll, MoveLists, Moved;
    var moved := Moved(st, level, dst);
    var later := MoveLists(st, level, dst).(segs := st.segs + [seg]);
    MoveListsAt(st, level, dst);
    if InActive(st.segs, r) {
      var i :| 0 <= i < |st.segs| && !st.segs[i].retired && InTable(st.segs[i], r);
      assert later.segs[i] == st.segs[i];
      assert Visible(later, r);
    } else {
      var l :| 0 <= l < LEVELS && r in st.unsorted[l];
      if l != level {
        assert r in later.unsorted[l];
        assert Visible(later, r);
      } else {
        MovedStored(st, level, dst, r);
        UpsertAllKeeps([], moved, r);
        var rs := UpsertAll([], moved);
        var j :| 0 <= j < |rs| && rs[j].key == r.key && rs[j].ts >= r.ts;
        assert seg.table[j].rec == rs[j];
        assert later.segs[|st.segs|] == seg && InTable(seg, rs[j]);
        assert Visible(later, rs[j]);
      }
    }
  }

  lemma MoveRearranged(st: Store, level: nat, dst: nat, seg: Segment)
    requires Levels(st) && level < LEVELS && dst < LEVELS && Ascending(st.sorted[dst])
    requires Recs(seg.table) == UpsertAll([], Moved(st, level, dst)) && !seg.retired
    ensures Rearranged(st, MoveLists(st, level, dst).(segs := st.segs + [seg]))
  {
    hide Stored, Visible, MoveLists, Moved, UpsertAll, Ascending;
    var later := MoveLists(st, level, dst).(segs := st.segs + [seg]);
    forall r | Stored(later, r) ensures From(st, later.segs, r) {
      MoveStores(st, level, dst, seg, r);
    }
    forall r | Visible(st, r) ensures Sees(later, r.key, r.ts) {
      MoveShows(st, level, dst, seg, r);
    }
  }

  /** Segments rewritten entry by entry, where an address changes only by a commit. */
  ghost predicate Rewritten(segs: seq<Segment>, later: seq<Segment>) {
    && SameVersions(later, segs) && Extends(segs, later)
    && forall i, j :: 0 <= i < |segs| && 0 <= j < |segs[i].table| ==>
         || later[i].table[j].rec.pba == segs[i].table[j].rec.pba
         || CommittedEntry(later[i].table[j], later[i].table[j].rec)
  }

  lemma RewrittenRearranged(st: Store, segs: seq<Segment>)
    requires Rewritten(st.segs, segs)
    ensures Rearranged(st, st.(segs := segs))
  {
    var later := st.(segs := segs);
    forall r | Stored(later, r) ensures From(st, segs, r) {
      if InActive(segs, r) {
        var i :| 0 <= i < |segs| && !segs[i].retired && InTable(segs[i], r);
        var j :| 0 <= j < |segs[i].table| && segs[i].table[j].rec == r;
        assert SameTable(segs[i], st.segs[i]);
        var x := st.segs[i].table[j].rec;
        assert SameVersion(segs[i].table[j].rec, x);
        assert InTable(st.segs[i], x) && Stored(st, x);
      } else {
        assert InUnsorted(st, r) || InSorted(st, r);
        assert Stored(st, r);
      }
    }
    forall r | Visible(st, r) ensures Sees(later, r.key, r.ts) {
      if InUnsorted(st, r) {
        assert InUnsorted(later, r);
        assert Visible(later, r);
      } else {
        var i :| 0 <= i < |segs| && !st.segs[i].retired && InTable(st.segs[i], r);
        var j :| 0 <= j < |st.segs[i].table| && st.segs[i].table[j].rec == r;
        assert SameTable(segs[i], st.segs[i]);
        var x := segs[i].table[j].rec;
        assert SameVersion(x, r);
        assert InTable(segs[i], x) && Visible(later, x);
      }
    }
  }

  /** A rearrangement with the same read tree keeps the engine sound. */
  lemma KeepsSound(s: State, r: State)
    requires Sound(s) && ShapeOk(r) && r.log == s.log && r.ts == s.ts && r.cache == s.cache
    requires Rearranged(s.store, r.store)
    ensures Sound(r)
  {
    hide ShapeOk, AllLogged, AllCovered, CacheTrue;
    RearrangedSound(s.log, s.store, r.store);
    assert Extends(s.store.segs, r.store.segs);
    CacheExtends(s.log, s.store.segs, r.store.segs, s.cache);
  }

  // ---------------------------------------------------------------- level steps

  lemma RearrangedRefl(st: Store)
    ensures Rearranged(st, st)
  {
    StatsRearranged(st, st.segs);
  }

  lemma CalcSound(s: State)
    requires Sound(s)
    ensures Sound(Calc(s))
  {
    hide ShapeOk, AllLogged, AllCovered, CacheTrue, Rearranged;
    ShapeLevels(s);
    CalcShape(s);
    CalcKeeps(s);
    RearrangedRefl(s.store);
    KeepsSound(s, Calc(s));
  }

  lemma RecalcSound(s: State)
    requires Sound(s)
    ensures Sound(Recalc(s))
  {
    hide ShapeOk, AllLogged, AllCovered, CacheTrue, Rearranged, SameButStats, AllRecords, Recalculated;
    ShapeLevels(s);
    RecalcShape(s);
    RecalculatedSame(AllRecords(s.store), s.zone, s.store.segs);
    StatsRearranged(s.store, Recalc(s).store.segs);
    KeepsSound(s, Recalc(s));
  }

  lemma MoveLevelSound(s: State, level: nat, dst: nat)
    requires Sound(s) && level < LEVELS && dst < LEVELS && Levels(s.store) && Moved(s.store, level, dst) != []
    ensures Sound(MoveLevel(s, level, dst))
  {
    hide OutputsOk, StoreOk, ListsTimed, CacheOk, AllLogged, AllCovered, CacheTrue, Rearranged, NewSegment, SegmentOk,
      MoveLists, Recalc, Calc, Timed;
    var moved := Moved(s.store, level, dst);
    var seg := NewSegment(s.store.segs, s.nextId, dst, Bottom, moved, s.bitsPerKey);
    MovedTimed(s.store, level, dst);
    NewSegmentOk(s.store.segs, s.nextId, dst, Bottom, moved, s.bitsPerKey);
    NewSegmentOutputs(s.store.segs, s.nextId, dst, Bottom, moved, s.bitsPerKey, s.commits);
    MoveListsOk(s.store, level, dst, seg);
    MoveListsTimed(s.store, level, dst);
    MoveListsAt(s.store, level, dst);
    var m := MoveLists(s.store, level, dst);
    var s1 := s.(store := m.(segs := s.store.segs + [seg]), nextId := s.nextId + 1);
    TimedIgnoresSegments(m, s1.store.segs);
    assert Ascending(s.store.sorted[dst]) by { SortedAscending(s.store, dst); }
    MoveRearranged(s.store, level, dst, seg);
    assert ShapeOk(s1);
    KeepsSound(s, s1);
    RecalcSound(s1);
    CalcSound(Recalc(s1));
  }

  lemma SortedAscending(st: Store, l: nat)
    requires StoreOk(st) && l < LEVELS
    ensures Ascending(st.sorted[l])
  {
  }

  lemma FlushSound(s: State)
    requires Sound(s)
    ensures Levels(s.store) && Sound(FlushBottom(s))
  {
    hide ShapeOk, AllLogged, AllCovered, CacheTrue, MoveLevel;
    ShapeLevels(s);
    if s.plan.base < MAX_LEVEL && s.store.unsorted[MAX_LEVEL] != [] {
      MoveLevelSound(s, MAX_LEVEL, MAX_LEVEL);
    }
  }

  lemma ReadySound(s: State)
    requires Sound(s)
    ensures Levels(s.store) && Sound(Ready(s))
  {
    hide Sound, FlushBottom, Calc;
    SoundLevels(s);
    CalcSound(s);
    FlushSound(Calc(s));
  }

  lemma SoundLevels(s: State)
    requires Sound(s)
    ensures Levels(s.store) && |s.plan.target| == LEVELS && ShapeOk(s)
  {
  }

  lemma CompactLevelSound(s: State, level: nat)
    requires Sound(s) && level < LEVELS
    ensures Levels(s.store) && Sound(CompactLevel(s, level))
  {
    hide Sound, MoveLevel, Calc;
    SoundLevels(s);
    CalcSound(s);
    CalcKeeps(s);
    var s1 := if level < MAX_LEVEL then Calc(s) else s;
    var dst := Min(DestinationOf(s1.plan, level), MAX_LEVEL);
    if Moved(s.store, level, dst) != [] {
      MoveLevelSound(s1, level, dst);
    }
  }

  lemma {:induction false} RoundsSound(s: State, n: nat)
    requires Sound(s)
    ensures Levels(s.store) && Sound(Rounds(s, n))
    decreases n
  {
    hide Sound, CompactLevel, Calc, PickOf;
    SoundLevels(s);
    CalcSound(s);
    var s1 := Calc(s);
    SoundLevels(s1);
    var level := PickOf(s1.plan, s1.threshold, Totals(s1.store));
    if n > 0 && level < LEVELS {
      CompactLevelSound(s1, level);
      RoundsSound(CompactLevel(s1, level), n - 1);
    }
  }

  // ---------------------------------------------------------------- the read tree

  lemma UpdateNodes(cache: Cache, key: nat, node: CacheNode)
    ensures forall k :: k in Update(cache, key, node).nodes ==>
              (k == key && Update(cache, key, node).nodes[k] == node) ||
              (k in cache.nodes && Update(cache, key, node).nodes[k] == cache.nodes[k])
    ensures key in cache.nodes && node.ts >= cache.nodes[key].ts ==> Update(cache, key, node).nodes[key] == node
    ensures key !in cache.nodes && key in Update(cache, key, node).nodes ==> Update(cache, key, node).nodes[key] == node
  {
  }

  lemma UpdateTrue(log: seq<LogEntry>, segs: seq<Segment>, cache: Cache, key: nat, node: CacheNode)
    requires CacheTrue(log, segs, cache) && Cacheable(log, segs, key, node)
    ensures CacheTrue(log, segs, Update(cache, key, node))
  {
    hide Cacheable, Update;
    UpdateNodes(cache, key, node);
  }

  /** Operations that only drop or reorder cached nodes. */
  lemma FewerTrue(log: seq<LogEntry>, segs: seq<Segment>, cache: Cache, key: nat, limit: nat)
    requires CacheTrue(log, segs, cache)
    ensures CacheTrue(log, segs, Remove(cache, key)) && CacheTrue(log, segs, Lookup(cache, key))
    ensures CacheTrue(log, segs, Clear(cache)) && CacheTrue(log, segs, SetLimit(cache, limit))
  {
    hide Cacheable;
  }

  lemma CacheOpsSound(s: State, key: nat, limit: nat)
    requires Sound(s)
    ensures Sound(s.(cache := Remove(s.cache, key))) && Sound(s.(cache := Lookup(s.cache, key)))
    ensures Sound(ClearTree(s)) && Sound(SetTreeLimit(s, limit))
  {
    hide ShapeOk, AllLogged, AllCovered, CacheTrue, Remove, Lookup, Clear, SetLimit;
    CacheShape(s, key, limit);
    FewerTrue(s.log, s.store.segs, s.cache, key, if limit == 0 then READ_TREE_LIMIT else limit);
  }

  lemma ReadSound(s: State, key: nat)
    requires Sound(s)
    ensures Sound(Read(s, key))
  {
    hide ShapeOk, AllLogged, AllCovered, CacheTrue, Rearranged, Lookup, Update, SlowBest, SameButStats, Cacheable;
    CacheOpsSound(s, key, 0);
    if key !in s.cache.nodes {
      var b := SlowBest(s, key);
      var s1 := s.(store := s.store.(segs := BumpAll(s.store.segs, key)));
      BumpAllSame(s.store, key);
      SameButStatsShape(s, s1.store.segs);
      StatsRearranged(s.store, s1.store.segs);
      KeepsSound(s, s1);
      ReadShape(s, key);
      SlowReadFinds(s, key);
      if b.found {
        CacheableExtends(s.log, s.store, s1.store, key, CacheNode(b.pba, b.valid, b.ts));
        UpdateTrue(s.log, s1.store.segs, s.cache, key, CacheNode(b.pba, b.valid, b.ts));
      }
    }
  }

  lemma CacheableExtends(log: seq<LogEntry>, st: Store, later: Store, key: nat, node: CacheNode)
    requires Rearranged(st, later) && Cacheable(log, st.segs, key, node)
    ensures Cacheable(log, later.segs, key, node)
  {
    hide Logged, Extends, NothingInvented, NothingHidden;
    ExtendsLogged(log, st.segs, later.segs, CachedRecord(key, node));
  }

  // ---------------------------------------------------------------- appending an operation

  lemma AppendStores(s: State, level: nat, key: nat, pba: nat, zone: nat, valid: bool, r: Record)
    requires Levels(s.store) && level < LEVELS
    ensures var t, x := AppendRecord(s, level, key, pba, zone, valid), Record(key, pba, zone, valid, s.ts + 1);
            && (Stored(t.store, r) <==> Stored(s.store, r) || r == x)
            && (Visible(t.store, r) <==> Visible(s.store, r) || r == x)
  {
    var t, x := AppendRecord(s, level, key, pba, zone, valid), Record(key, pba, zone, valid, s.ts + 1);
    var was, now := s.store.unsorted, t.store.unsorted;
    assert now[level] == [x] + was[level];
    assert forall l :: 0 <= l < LEVELS && l != level ==> now[l] == was[l];
    if InUnsorted(s.store, r) {
      var l :| 0 <= l < LEVELS && r in was[l];
      assert r in now[l];
    }
    if InUnsorted(t.store, r) {
      var l :| 0 <= l < LEVELS && r in now[l];
      assert r in was[l] || r == x;
    }
    assert x in now[level];
    assert InSorted(t.store, r) == InSorted(s.store, r);
  }

  lemma AppendLogged(log: seq<LogEntry>, e: LogEntry, segs: seq<Segment>, r: Record)
    requires Logged(log, segs, r)
    ensures Logged(log + [e], segs, r)
  {
  }

  lemma AppendRecordSound(s: State, level: nat, key: nat, pba: nat, zone: nat, valid: bool)
    requires Sound(s) && level < LEVELS
    ensures Levels(s.store) && Sound(AppendRecord(s, level, key, pba, zone, valid))
  {
    hide ShapeOk, Stored, Visible, Logged, AppendRecord, Cacheable, Update, CommittedAt, Newest;
    SoundLevels(s);
    AppendRecordShape(s, level, key, pba, zone, valid);
    var t, x := AppendRecord(s, level, key, pba, zone, valid), Record(key, pba, zone, valid, s.ts + 1);
    AppendRecordFields(s, level, key, pba, zone, valid);
    forall r ensures Stored(t.store, r) <==> Stored(s.store, r) || r == x
             ensures Visible(t.store, r) <==> Visible(s.store, r) || r == x
    {
      AppendStores(s, level, key, pba, zone, valid, r);
    }
    forall r | Stored(t.store, r) ensures Logged(t.log, t.store.segs, r) {
      if r == x {
        NewLogged(s.log, t.store.segs, x);
      } else {
        AppendLogged(s.log, Op(key, valid, pba), s.store.segs, r);
      }
    }
    forall k ensures Covered(t.log, t.store, k) {
      NewestAppend(s.log, Op(key, valid, pba), k);
      LiveAppend(s.log, key, valid, pba, k);
      assert Covered(s.log, s.store, k);
      if k == key {
        assert Sees(t.store, key, |t.log|);
      } else if Newest(s.log, k) > 0 && Sees(s.store, k, Newest(s.log, k)) {
        var y :| Visible(s.store, y) && y.key == k && y.ts >= Newest(s.log, k);
        assert Visible(t.store, y);
      }
    }
    AppendCacheTrue(s, level, key, pba, zone, valid);
  }

  lemma AppendRecordFields(s: State, level: nat, key: nat, pba: nat, zone: nat, valid: bool)
    requires Levels(s.store) && level < LEVELS
    ensures var t := AppendRecord(s, level, key, pba, zone, valid);
            && t.log == s.log + [Op(key, valid, pba)] && t.ts == s.ts + 1
            && t.store.segs == s.store.segs && t.cache == Update(s.cache, key, CacheNode(pba, valid, s.ts + 1))
            && t.zone == s.zone && t.zoneFill == s.zoneFill && t.disk == s.disk && t.commits == s.commits
            && t.plan == s.plan && t.threshold == s.threshold
  {
    hide Update;
  }

  lemma NewLogged(log: seq<LogEntry>, segs: seq<Segment>, x: Record)
    requires x.ts == |log| + 1
    ensures Logged(log + [Op(x.key, x.valid, x.pba)], segs, x)
  {
  }

  lemma LiveAppend(log: seq<LogEntry>, key: nat, valid: bool, pba: nat, k: nat)
    ensures Live(log + [Op(key, valid, pba)], k) == if k == key then valid else Live(log, k)
  {
    NewestAppend(log, Op(key, valid, pba), k);
  }

  lemma AppendCacheTrue(s: State, level: nat, key: nat, pba: nat, zone: nat, valid: bool)
    requires Sound(s) && Levels(s.store) && level < LEVELS
    ensures var t := AppendRecord(s, level, key, pba, zone, valid); CacheTrue(t.log, t.store.segs, t.cache)
  {
    hide ShapeOk, AllLogged, AllCovered, Update, AppendRecord, CommittedAt, Newest, Live;
    AppendRecordFields(s, level, key, pba, zone, valid);
    var t, node := AppendRecord(s, level, key, pba, zone, valid), CacheNode(pba, valid, s.ts + 1);
    UpdateNodes(s.cache, key, node);
    NewLogged(s.log, t.store.segs, CachedRecord(key, node));
    NewestAppend(s.log, Op(key, valid, pba), key);
    forall k | k in t.cache.nodes ensures Cacheable(t.log, t.store.segs, k, t.cache.nodes[k]) {
      LiveAppend(s.log, key, valid, pba, k);
      if k == key {
        if key in s.cache.nodes { assert Cacheable(s.log, s.store.segs, key, s.cache.nodes[key]); }
        assert t.cache.nodes[k] == node;
      } else {
        assert Cacheable(s.log, s.store.segs, k, s.cache.nodes[k]);
        AppendLogged(s.log, Op(key, valid, pba), s.store.segs, CachedRecord(k, s.cache.nodes[k]));
        NewestAppend(s.log, Op(key, valid, pba), k);
      }
    }
  }

  lemma AppendSound(s: State, level: nat, key: nat, pba: nat, zone: nat, valid: bool)
    requires Sound(s) && level < LEVELS
    ensures Levels(s.store) && |s.plan.target| == LEVELS && Sound(Append(s, level, key, pba, zone, valid))
    ensures Append(s, level, key, pba, zone, valid).log == s.log + [Op(key, valid, pba)]
    ensures var r := Append(s, level, key, pba, zone, valid);
            r.zone == s.zone && r.zoneFill == s.zoneFill && r.disk == s.disk && r.commits == s.commits
  {
    hide Sound, CompactLevel, Recalc, Rounds, AppendRecord, Ready, FlushBottom, Calc;
    SoundLevels(s);
    AppendRecordSound(s, level, key, pba, zone, valid);
    AppendRecordFields(s, level, key, pba, zone, valid);
    var s1 := AppendRecord(s, level, key, pba, zone, valid);
    CompactLevelSound(s1, level);
    var full := |s1.store.unsorted[level]| >= Capacity(s1.plan, s1.threshold, level);
    var s2 := if full then CompactLevel(s1, level) else s1;
    CalcSound(s2);
    FlushSound(Calc(s2));
    RoundsSound(FlushBottom(Calc(s2)), LEVELS);
    RecalcSound(RunCompactions(s2));
  }

  /** A write and a delete each add one operation to the history. */
  lemma InsertSound(s: State, level: nat, key: nat, pba: nat, zone: nat)
    requires Sound(s) && level < LEVELS
    ensures Levels(s.store) && Sound(InsertRecord(s, level, key, pba, zone))
    ensures var r := InsertRecord(s, level, key, pba, zone);
            r.log == s.log + [Op(key, true, pba)] && r.zone == s.zone && r.zoneFill == s.zoneFill
            && r.disk == s.disk && r.commits == s.commits
  {
    hide Sound, Append, Ready;
    SoundLevels(s);
    ReadySound(s);
    var s1 := Ready(s);
    SoundLevels(s1);
    AppendSound(s1, Min(if level == 0 then s1.plan.active else level, MAX_LEVEL), key, pba, zone, true);
  }

  lemma DeleteRecordSound(s: State, key: nat)
    requires Sound(s)
    ensures Levels(s.store) && Sound(DeleteRecord(s, key))
    ensures var r := DeleteRecord(s, key);
            r.log == s.log + [Op(key, false, 0)] && r.zone == s.zone && r.zoneFill == s.zoneFill
            && r.disk == s.disk && r.commits == s.commits
  {
    hide Sound, Append, Ready;
    SoundLevels(s);
    ReadySound(s);
    var s1 := Ready(s);
    SoundLevels(s1);
    CacheOpsSound(s1, key, 0);
    var s2 := s1.(cache := Remove(s1.cache, key));
    AppendSound(s2, Min(s2.plan.active, MAX_LEVEL), key, 0, 0, false);
  }

  /** Zone map, zone fill and disk are no part of soundness. */
  lemma OutsideSound(s: State, r: State)
    requires Sound(s) && r == s.(zone := r.zone, zoneFill := r.zoneFill, disk := r.disk)
    ensures Sound(r)
  {
  }

  lemma DeleteSound(s: State, key: nat)
    requires Sound(s)
    ensures Levels(s.store) && Sound(Delete(s, key))
  {
    hide Sound, DeleteRecord;
    SoundLevels(s);
    DeleteRecordSound(s, key);
    if Layout.ZoneOf(key) < |s.zoneFill| {
      OutsideSound(DeleteRecord(s, key), Delete(s, key));
    }
  }

  lemma WriteSound(s: State, key: nat, payload: nat)
    requires Sound(s)
    ensures Levels(s.store) && Sound(Write(s, key, payload))
  {
    hide Sound, InsertRecord;
    SoundLevels(s);
    if Layout.ZoneOf(key) < |s.zoneFill| {
      OutsideSound(s, MapBlock(s, key));
      var pba := Layout.BlockSector(Layout.ZoneOf(key), BlockFor(s, key));
      InsertSound(MapBlock(s, key), 0, key, pba, Layout.ZoneOf(key));
      OutsideSound(InsertRecord(MapBlock(s, key), 0, key, pba, Layout.ZoneOf(key)), Write(s, key, payload));
    }
  }

  // ---------------------------------------------------------------- output commits

  lemma PlanRewritten(segs: seq<Segment>)
    ensures Rewritten(segs, PlanAll(segs))
  {
    PlanSameVersions(segs);
  }

  lemma CommitRewritten(segs: seq<Segment>)
    ensures Rewritten(segs, CommitSegments(segs))
  {
    CommitSameVersions(segs);
  }

  lemma CopyRewritten(d: Disk, segs: seq<Segment>, io: Io)
    ensures Rewritten(segs, CopyAll(d, segs, io).segs)
  {
    hide CopyAll, SameVersions;
    CopySameVersions(d, segs, io);
    var later := CopyAll(d, segs, io).segs;
    SameVersionsLengths(later, segs);
    assert forall i :: 0 <= i < |segs| ==> CopiedSegment(later[i], segs[i], CopyAll(d, segs, io).ok);
  }

  lemma SameVersionsLengths(a: seq<Segment>, b: seq<Segment>)
    requires SameVersions(a, b)
    ensures |a| == |b| && forall i :: 0 <= i < |a| ==> |a[i].table| == |b[i].table|
  {
    assert forall i :: 0 <= i < |a| ==> SameTable(a[i], b[i]);
  }

  lemma RewriteSound(s: State, segs: seq<Segment>)
    requires Sound(s) && Rewritten(s.store.segs, segs) && OutputsOk(segs, s.commits)
    ensures Sound(s.(store := s.store.(segs := segs)))
  {
    hide ShapeOk, AllLogged, AllCovered, CacheTrue, Rearranged, SameVersions, OutputsOk;
    SameVersionsShape(s, segs, s.commits);
    RewrittenRearranged(s.store, segs);
    KeepsSound(s, s.(store := s.store.(segs := segs)));
  }

  /** An entry about to be committed, with nothing newer anywhere, is its key's newest version. */
  lemma CommitIsNewest(s: State, later: seq<Segment>, i: nat, j: nat)
    requires Sound(s) && Levels(s.store) && i < |s.store.segs| && !s.store.segs[i].retired &&
             j < |s.store.segs[i].table|
    requires later == CommitSegments(s.store.segs)
    requires Commits(s.store.segs[i].table[j]) && !Newer(AllRecords(s.store), s.store.segs[i].table[j].rec).found
    ensures var e := s.store.segs[i].table[j];
            Cacheable(s.log, later, e.rec.key, CacheNode(e.out.outputPba, e.rec.valid, e.rec.ts))
  {
    hide ShapeOk, CacheTrue, AllRecords, Newer, Newest;
    var e := s.store.segs[i].table[j];
    assert InTable(s.store.segs[i], e.rec) && Stored(s.store, e.rec);
    assert Logged(s.log, s.store.segs, e.rec);
    LoggedBound(s.log, s.store.segs, e.rec);
    NewestValidRecord(s, e.rec);
    var node := CacheNode(e.out.outputPba, e.rec.valid, e.rec.ts);
    assert CommittedEntry(later[i].table[j], CachedRecord(e.rec.key, node));
  }

  /** A live record with nothing newer stored is the newest operation on its key. */
  lemma NewestValidRecord(s: State, r: Record)
    requires Sound(s) && Levels(s.store) && Stored(s.store, r) && r.valid && !Newer(AllRecords(s.store), r).found
    ensures r.ts == Newest(s.log, r.key) && Live(s.log, r.key)
  {
    hide ShapeOk, CacheTrue, AllRecords, Newer, Stored, Visible, Newest, CommittedAt;
    NewerMeans(AllRecords(s.store), r);
    assert Logged(s.log, s.store.segs, r);
    LoggedBound(s.log, s.store.segs, r);
    assert Covered(s.log, s.store, r.key);
    if Sees(s.store, r.key, Newest(s.log, r.key)) {
      var x :| Visible(s.store, x) && x.key == r.key && x.ts >= Newest(s.log, r.key);
      assert Stored(s.store, x) by { VisibleStored(s.store, x); }
      AllRecordsMembers(s.store, x);
      assert x.ts <= r.ts;
    }
  }

  lemma VisibleStored(st: Store, r: Record)
    requires Visible(st, r)
    ensures Stored(st, r)
  {
  }

  lemma {:induction false} RefreshTableTrue(s: State, cache: Cache, later: seq<Segment>, i: nat, n: nat)
    requires Sound(s) && Levels(s.store) && i < |s.store.segs| && !s.store.segs[i].retired &&
             n <= |s.store.segs[i].table|
    requires later == CommitSegments(s.store.segs) && CacheTrue(s.log, later, cache)
    ensures CacheTrue(s.log, later, RefreshTable(cache, AllRecords(s.store), s.store.segs[i].table, n))
  {
    hide Sound, CacheTrue, AllRecords, Newer, Update, CommitSegments, Commits, Cacheable;
    if n > 0 {
      var table := s.store.segs[i].table;
      var e, before := table[n - 1], RefreshTable(cache, AllRecords(s.store), table, n - 1);
      RefreshTableTrue(s, cache, later, i, n - 1);
      if Commits(e) && !Newer(AllRecords(s.store), e.rec).found {
        CommitIsNewest(s, later, i, n - 1);
        UpdateTrue(s.log, later, before, e.rec.key, CacheNode(e.out.outputPba, e.rec.valid, e.rec.ts));
      }
    }
  }

  lemma {:induction false} RefreshSegmentsTrue(s: State, cache: Cache, later: seq<Segment>, n: nat)
    requires Sound(s) && Levels(s.store) && n <= |s.store.segs|
    requires later == CommitSegments(s.store.segs) && CacheTrue(s.log, later, cache)
    ensures CacheTrue(s.log, later, RefreshSegments(cache, AllRecords(s.store), s.store.segs, n))
  {
    hide Sound, CacheTrue, AllRecords, RefreshTable, CommitSegments;
    if n > 0 {
      RefreshSegmentsTrue(s, cache, later, n - 1);
      if !s.store.segs[n - 1].retired {
        RefreshTableTrue(s, RefreshSegments(cache, AllRecords(s.store), s.store.segs, n - 1), later, n - 1,
                         |s.store.segs[n - 1].table|);
      }
    }
  }

  lemma CommitMetaSound(s: State)
    requires Sound(s) && OutputsOk(CommitSegments(s.store.segs), s.commits)
    ensures Levels(s.store) && Sound(CommitMeta(s))
  {
    hide ShapeOk, AllLogged, AllCovered, CacheTrue, RefreshSegments, CommitSegments, AllRecords, Rewritten, OutputsOk;
    SoundLevels(s);
    var later := CommitSegments(s.store.segs);
    CommitRewritten(s.store.segs);
    RewriteSound(s, later);
    CacheExtendsRewritten(s, later);
    RefreshSegmentsTrue(s, s.cache, later, |s.store.segs|);
    CommitMetaShape(s);
  }

  lemma CacheExtendsRewritten(s: State, later: seq<Segment>)
    requires Sound(s) && Rewritten(s.store.segs, later)
    ensures CacheTrue(s.log, later, s.cache)
  {
    hide ShapeOk, AllLogged, AllCovered, CacheTrue, SameVersions, Extends;
    CacheExtends(s.log, s.store.segs, later, s.cache);
  }

  lemma CommitOutputSound(s: State, mode: nat, io: Io)
    requires Sound(s)
    ensures Levels(s.store) && Sound(CommitOutput(s, mode, io))
    ensures var r := CommitOutput(s, mode, io); r.log == s.log && r.zone == s.zone && r.zoneFill == s.zoneFill
  {
    hide Sound, CommitMeta, PlanAll, CopyAll, Rewritten, OutputsOk, CommitSegments;
    SoundLevels(s);
    assert OutputsOk(s.store.segs, s.commits) by { ShapeOutputs(s); }
    RoundOutputs(s.disk, s.store.segs, io, s.commits);
    PlanRewritten(s.store.segs);
    RewriteSound(s, PlanAll(s.store.segs));
    var planned := s.(store := s.store.(segs := PlanAll(s.store.segs)));
    if mode == 2 {
      CommitKindSound(planned);
      CommitMetaSound(planned.(commits := MetaOnly));
      CommitMetaFields(planned.(commits := MetaOnly));
    } else if mode == 3 {
      var c := CopyAll(s.disk, planned.store.segs, io);
      CopyRewritten(s.disk, planned.store.segs, io);
      CommitKindSound(planned);
      var counted := planned.(commits := AfterCopy(s.commits));
      RewriteSound(counted, c.segs);
      var copied := counted.(store := counted.store.(segs := c.segs), disk := c.disk);
      OutsideSound(counted.(store := counted.store.(segs := c.segs)), copied);
      if c.ok {
        CommitMetaSound(copied);
        CommitMetaFields(copied);
      }
    }
  }

  lemma ShapeOutputs(s: State)
    requires ShapeOk(s)
    ensures OutputsOk(s.store.segs, s.commits)
  {
  }

  lemma CommitKindSound(s: State)
    requires Sound(s)
    ensures Sound(s.(commits := MetaOnly)) && Sound(s.(commits := AfterCopy(s.commits)))
  {
    hide StoreOk, ListsTimed, CacheOk, AllLogged, AllCovered, CacheTrue, RangesOk, StatesOk;
  }

  lemma CommitMetaFields(s: State)
    requires Levels(s.store)
    ensures var r := CommitMeta(s);
            r.log == s.log && r.zone == s.zone && r.zoneFill == s.zoneFill && r.disk == s.disk && r.commits == s.commits
  {
  }

  lemma SettingsSound(s: State, value: nat)
    requires Sound(s)
    ensures Levels(s.store) && Sound(SetThreshold(s, value)) && Sound(SetBitsPerKey(s, value))
  {
    hide ShapeOk, AllLogged, AllCovered, CacheTrue, Calc;
    SoundLevels(s);
    SettingsShape(s, value);
    var t := if value == 0 then 16 else value;
    if t <= THRESHOLD_MAX { CalcKeeps(s.(threshold := t)); }
  }

  // ---------------------------------------------------------------- segment compaction

  /** The store with segment `at` retired and a successor holding what it keeps, statistics aside. */
  ghost function Replaced(s: State, at: nat): Store
    requires Levels(s.store) && at < |s.store.segs|
  {
    var seg, kept := s.store.segs[at], KeptBy(s, at);
    var segs := s.store.segs[at := seg.(retired := true)];
    s.store.(segs := if kept == [] then segs
                     else segs + [NewSegment(s.store.segs, s.nextId, seg.level, seg.track, kept, s.bitsPerKey)])
  }

  lemma ReplacedIsReplaceSegment(s: State, at: nat)
    requires Levels(s.store) && at < |s.store.segs|
    ensures var r := ReplaceSegment(s, at);
            && SameButStats(r.store.segs, Replaced(s, at).segs)
            && r.store == Replaced(s, at).(segs := r.store.segs)
            && r.log == s.log && r.ts == s.ts && r.cache == s.cache
            && r.zone == s.zone && r.zoneFill == s.zoneFill && r.disk == s.disk && r.commits == s.commits
  {
    hide KeptBy, NewSegment, StatsOf, AllRecords, ScoreOfStats;
  }

  /** The records of the successor are those kept, with another zone. */
  lemma KeptRecords(s: State, at: nat, r: Record)
    requires ShapeOk(s) && at < |s.store.segs|
    ensures var seg := s.store.segs[at];
            && Ascending(KeptBy(s, at)) && UpsertAll([], KeptBy(s, at)) == KeptBy(s, at)
            && (r in KeptBy(s, at) ==> exists x :: InTable(seg, x) && x.(zone := seg.zone) == r)
            && (InTable(seg, r) && Keeps(AllRecords(s.store), s.zone, r) ==> r.(zone := seg.zone) in KeptBy(s, at))
  {
    hide MayContain, Keeps, AllRecords, CacheOk, UpsertAll;
    var seg := s.store.segs[at];
    assert SegmentOk(seg);
    var all, kept := AllRecords(s.store), KeptOf(AllRecords(s.store), s.zone, Recs(seg.table));
    KeptFacts(all, s.zone, seg.table, |seg.table|);
    assert Recs(seg.table)[..|seg.table|] == Recs(seg.table);
    UpsertAllAscending(KeptBy(s, at));
    if r in KeptBy(s, at) {
      var i :| 0 <= i < |kept| && KeptBy(s, at)[i] == r;
      TableMembers(seg, kept[i]);
      assert kept[i] in kept;
    }
    if InTable(seg, r) && Keeps(all, s.zone, r) {
      TableMembers(seg, r);
      var i :| 0 <= i < |kept| && kept[i] == r;
      assert KeptBy(s, at)[i] == r.(zone := seg.zone);
    }
  }

  /** What the compactor drops is superseded, or is a delete with nothing live left to hide. */
  lemma DroppedIsDispensable(s: State, r: Record)
    requires Sound(s) && Levels(s.store) && Visible(s.store, r) && !Keeps(AllRecords(s.store), s.zone, r)
    ensures r.ts < Newest(s.log, r.key) || (!Live(s.log, r.key) && NothingLive(s.store, r.key) && r.key !in s.zone)
  {
    hide ShapeOk, CacheTrue, AllRecords, Newer, Stored, Visible, Newest, CommittedAt;
    var all := AllRecords(s.store);
    VisibleStored(s.store, r);
    assert Logged(s.log, s.store.segs, r);
    LoggedBound(s.log, s.store.segs, r);
    NewerMeans(all, r);
    if Newer(all, r).found {
      var x :| x in all && x.key == r.key && x.ts > r.ts;
      AllRecordsMembers(s.store, x);
      assert Logged(s.log, s.store.segs, x);
      LoggedBound(s.log, s.store.segs, x);
    } else if r.ts == Newest(s.log, r.key) {
      forall x | Stored(s.store, x) && x.key == r.key ensures !x.valid {
        assert Logged(s.log, s.store.segs, x);
        LoggedBound(s.log, s.store.segs, x);
        AllRecordsMembers(s.store, x);
      }
    }
  }

  /** Storage after the replacement: nothing new but the zone of records in the successor. */
  lemma ReplacedStores(s: State, at: nat, r: Record)
    requires ShapeOk(s) && at < |s.store.segs| && !s.store.segs[at].retired && Stored(Replaced(s, at), r)
    ensures exists x :: Stored(s.store, x) && r == x.(zone := r.zone)
  {
    hide MayContain, CacheOk, KeptBy, NewSegment, UpsertAll, CommittedAt;
    var later, seg := Replaced(s, at), s.store.segs[at];
    if InActive(later.segs, r) {
      var i :| 0 <= i < |later.segs| && !later.segs[i].retired && InTable(later.segs[i], r);
      if i == |s.store.segs| {
        KeptByTimed(s, at);
        NewSegmentOk(s.store.segs, s.nextId, seg.level, seg.track, KeptBy(s, at), s.bitsPerKey);
        TableMembers(later.segs[i], r);
        KeptRecords(s, at, r);
        var x :| InTable(seg, x) && x.(zone := seg.zone) == r;
        assert InActive(s.store.segs, x) && Stored(s.store, x);
      } else {
        assert later.segs[i] == s.store.segs[i];
        assert InActive(s.store.segs, r) && Stored(s.store, r);
      }
    } else {
      assert InUnsorted(s.store, r) || InSorted(s.store, r);
      assert Stored(s.store, r);
    }
  }

  lemma ReplacedShows(s: State, at: nat, r: Record)
    requires ShapeOk(s) && at < |s.store.segs| && !s.store.segs[at].retired && Visible(s.store, r)
    ensures Sees(Replaced(s, at), r.key, r.ts) || !Keeps(AllRecords(s.store), s.zone, r)
  {
    hide MayContain, CacheOk, KeptBy, NewSegment, UpsertAll, Keeps, AllRecords;
    var later, seg := Replaced(s, at), s.store.segs[at];
    if InUnsorted(s.store, r) {
      assert InUnsorted(later, r) && Visible(later, r);
    } else {
      var i :| 0 <= i < |s.store.segs| && !s.store.segs[i].retired && InTable(s.store.segs[i], r);
      if i != at {
        assert later.segs[i] == s.store.segs[i];
        assert Visible(later, r);
      } else if Keeps(AllRecords(s.store), s.zone, r) {
        KeptRecords(s, at, r);
        var x := r.(zone := seg.zone);
        assert KeptBy(s, at) != [];
        KeptByTimed(s, at);
        NewSegmentOk(s.store.segs, s.nextId, seg.level, seg.track, KeptBy(s, at), s.bitsPerKey);
        var last := later.segs[|s.store.segs|];
        TableMembers(last, x);
        assert InActive(later.segs, x) && Visible(later, x);
      }
    }
  }

  lemma ReplacedExtends(s: State, at: nat)
    requires Levels(s.store) && at < |s.store.segs|
    ensures Extends(s.store.segs, Replaced(s, at).segs)
  {
    hide KeptBy, NewSegment;
  }

  lemma ReplaceSegmentSound(s: State, at: nat)
    requires Sound(s) && Levels(s.store) && at < |s.store.segs| && !s.store.segs[at].retired
    ensures Sound(ReplaceSegment(s, at))
  {
    hide ShapeOk, Stored, Visible, CacheTrue, Replaced, ReplaceSegment, Keeps, AllRecords, Newest, Extends,
      CommittedAt, SameButStats;
    var later, r := Replaced(s, at), ReplaceSegment(s, at);
    ReplacedIsReplaceSegment(s, at);
    ReplacedExtends(s, at);
    forall x | Stored(later, x) ensures From(s.store, later.segs, x) {
      ReplacedStores(s, at, x);
      var y :| Stored(s.store, y) && x == y.(zone := x.zone);
    }
    forall x | Visible(s.store, x) ensures Sees(later, x.key, x.ts) || !Keeps(AllRecords(s.store), s.zone, x) {
      ReplacedShows(s, at, x);
    }
    InventedLogged(s.log, s.store, later);
    forall key ensures Covered(s.log, later, key) {
      ReplacedCovers(s, at, later, key);
    }
    StatsRearranged(later, r.store.segs);
    RearrangedSound(s.log, later, r.store);
    CacheExtends(s.log, s.store.segs, later.segs, s.cache);
    CacheExtendsRearranged(s.log, later, r.store, s.cache);
    ReplaceSegmentShape(s, at);
  }

  lemma CacheExtendsRearranged(log: seq<LogEntry>, st: Store, later: Store, cache: Cache)
    requires Rearranged(st, later) && CacheTrue(log, st.segs, cache)
    ensures CacheTrue(log, later.segs, cache)
  {
    hide NothingHidden, NothingInvented, Extends, CacheTrue;
    CacheExtends(log, st.segs, later.segs, cache);
  }

  lemma InventedLogged(log: seq<LogEntry>, st: Store, later: Store)
    requires AllLogged(log, st) && Extends(st.segs, later.segs)
    requires forall x :: Stored(later, x) ==> From(st, later.segs, x)
    ensures AllLogged(log, later)
  {
    hide Visible, Stored, CommittedAt, Newest, Extends;
    forall r | Stored(later, r) ensures Logged(log, later.segs, r) {
      assert From(st, later.segs, r);
      var x :| Stored(st, x) && x.key == r.key && x.ts == r.ts && x.valid == r.valid
               && (x.pba == r.pba || CommittedAt(later.segs, r));
      assert Logged(log, st.segs, x);
      ExtendsLogged(log, st.segs, later.segs, x);
      if x.pba == r.pba { SameCommitted(later.segs, x, r); }
    }
  }

  lemma ReplacedCovers(s: State, at: nat, later: Store, key: nat)
    requires Sound(s) && Levels(s.store)
    requires forall x :: Stored(later, x) ==> From(s.store, later.segs, x)
    requires forall x :: Visible(s.store, x) ==> Sees(later, x.key, x.ts) || !Keeps(AllRecords(s.store), s.zone, x)
    ensures Covered(s.log, later, key)
  {
    hide ShapeOk, Stored, Visible, CacheTrue, Keeps, AllRecords, Newest, CommittedAt, AllLogged;
    assert Covered(s.log, s.store, key);
    var n := Newest(s.log, key);
    if n > 0 && Sees(s.store, key, n) {
      var x :| Visible(s.store, x) && x.key == key && x.ts >= n;
      if Sees(later, x.key, x.ts) {
        var y :| Visible(later, y) && y.key == x.key && y.ts >= x.ts;
        assert Sees(later, key, n);
      } else {
        DroppedIsDispensable(s, x);
        NothingLiveStays(s.store, later, key);
      }
    } else if n > 0 {
      NothingLiveStays(s.store, later, key);
    }
  }

  lemma NothingLiveStays(st: Store, later: Store, key: nat)
    requires NothingLive(st, key) && forall x :: Stored(later, x) ==> From(st, later.segs, x)
    ensures NothingLive(later, key)
  {
    hide Stored, CommittedAt;
    forall r | Stored(later, r) && r.key == key ensures !r.valid {
      assert From(st, later.segs, r);
    }
  }

  lemma CompactSelectedSound(s: State, io: Io)
    requires Sound(s)
    ensures Levels(s.store) && Sound(CompactSelected(s, io))
    ensures var r := CompactSelected(s, io); r.log == s.log && r.zone == s.zone && r.zoneFill == s.zoneFill
  {
    hide Sound, KeptBy, ReplaceSegment, CommitOutput, Recalc, Selected, Replaced;
    SoundLevels(s);
    RecalcSound(s);
    var s1 := Recalc(s);
    var at := SelectedAt(s1);
    if at >= 0 {
      ReplacedIsReplaceSegment(s1, at);
      ReplaceSegmentSound(s1, at);
      CommitOutputSound(ReplaceSegment(s1, at), 3, io);
    }
  }
}
