/** The metadata engine as it runs: one object whose fields the operations update in place, each
    operation proved against its specification in Spec. */
module Engine {
  import opened Types
  import opened Tables
  import opened BloomFilter
  import opened Builder
  import opened Scan
  import opened DynamicLevels
  import opened ReadTree
  import opened Layout
  import opened Placement
  import opened Obsolescence
  import opened CopyJobs
  import opened Commit
  import opened CommitLoops
  import opened Spec
  import opened Outputs
  import opened Shape
  import opened ZoneCompaction
  import opened ZoneSound
  import opened FullZone
  import opened Runs

  class MetadataEngine {
    var unsorted: seq<seq<Record>>
    var sorted: seq<seq<Record>>
    var segs: seq<Segment>
    var nextId: nat
    var ts: nat
    var plan: LevelPlan
    var threshold: nat
    var bitsPerKey: nat
    var cand: Candidate
    const tree: LruTree
    var zone: ZoneMap
    var zoneFill: seq<nat>
    var disk: Disk
    ghost var log: seq<LogEntry>
    ghost var commits: CommitKind

    ghost function View(): State
      reads this, tree
    {
      State(Store(unsorted, sorted, segs), nextId, ts, plan, threshold, bitsPerKey, cand,
            tree.View(), zone, zoneFill, disk, log, commits)
    }

    ghost predicate Valid()
      reads this, tree
    {
      tree.Valid() && ShapeOk(View())
    }

    constructor (zones: nat)
      ensures Valid() && fresh(tree) && View() == Init(zones)
    {
      unsorted, sorted, segs, nextId, ts := seq(LEVELS, _ => []), seq(LEVELS, _ => []), [], 0, 0;
      plan := LevelPlan(MAX_LEVEL, MAX_LEVEL, -1, seq(LEVELS, _ => 0));
      threshold, bitsPerKey, cand := 16, 10, Candidate(0, 0);
      tree := new LruTree();
      zone, zoneFill, disk, log, commits := map[], seq(zones, _ => 0), map[], [], NoCommits;
      new;
      InitShape(zones);
    }

    /** Entry counts per level. */
    method CountLevels() returns (totals: seq<nat>)
      requires |unsorted| == |sorted| == LEVELS
      ensures |totals| == LEVELS && totals == Totals(Store(unsorted, sorted, segs))
    {
      totals := [];
      var level := 0;
      while level < LEVELS
        invariant level == |totals| <= LEVELS
        invariant forall l :: 0 <= l < level ==> totals[l] == |unsorted[l]| + |sorted[l]|
      {
        totals := totals + [|unsorted[level]| + |sorted[level]|];
        level := level + 1;
      }
    }

    /** imr_lsm_calculate_dynamic_levels_locked. */
    method CalculateLevels()
      requires Valid()
      modifies this`plan
      ensures Valid() && View() == Calc(old(View()))
      ensures PlanOk(plan, threshold) && plan.active == plan.base
    {
      hide StoreOk, ListsTimed, CacheOk, OutputsOk, PlanOk, Plan, LruTree.Valid, LruTree.View;
      CalcShape(View());
      var totals := CountLevels();
      plan := Calculate(totals, threshold);
    }

    /** imr_lsm_recalculate_segment_invalid_stats_locked with the selection that ends it. */
    method RecalculateStats()
      requires Valid()
      modifies this`segs, this`cand
      ensures Valid() && View() == Recalc(old(View()))
    {
      hide StoreOk, ListsTimed, CacheOk, OutputsOk, Recalculated, CandidateOf, AllRecords, LruTree.Valid,
        LruTree.View;
      RecalcShape(View());
      segs := Recalculate(Store(unsorted, sorted, segs), zone);
      cand := SelectCandidate(segs, Policy(ts, zoneFill));
    }

    /** The segment made of a builder's table: filter, placement window, output range and mapping. */
    method MakeSegment(level: nat, track: Track, builder: SegmentBuilder) returns (seg: Segment)
      requires builder.Valid() && builder.added != []
      ensures seg == NewSegment(segs, nextId, level, track, builder.added, bitsPerKey)
    {
      hide UpsertAll, Summarize, BuildFilter, WindowOf, FirstFit, MapEntries;
      var table, sum := builder.buf[..builder.count], builder.summary;
      SummaryBounds(builder.added);
      WindowFacts(sum.zone, sum.minKey, sum.maxKey);
      assert Recs(table) == UpsertAll([], builder.added);
      var bloom := BloomFilter.Build(Recs(table), bitsPerKey);
      var window := WindowOf(sum.zone, sum.minKey, sum.maxKey);
      var output := Allocate(segs, window, |table| * BLOCK_SECTORS);
      var mapped := MapOutput(table, output);
      seg := Segment(nextId, level, sum.zone, track, false, sum.nodes, sum.minKey, sum.maxKey, sum.minTs, sum.maxTs,
                     bloom, mapped, SegmentStats(0, 0, 0, 0, 0), 0, 0, window, output);
    }

    /** The loop of a move: every record of a list goes into the builder and into the destination. */
    method Drain(list: seq<Record>, dst: nat, builder: SegmentBuilder)
      requires |sorted| == LEVELS && dst < LEVELS && Ascending(sorted[dst]) && builder.Valid()
      modifies this`sorted, builder, builder.buf
      ensures builder.Valid() && builder.added == old(builder.added) + list
      ensures builder.buf == old(builder.buf) || fresh(builder.buf)
      ensures sorted == old(sorted)[dst := UpsertAll(old(sorted)[dst], list)]
    {
      hide SegmentBuilder.Valid, Upsert;
      ghost var was := sorted;
      var i := 0;
      assert was == was[dst := UpsertAll(was[dst], [])];
      assert list[..0] == [];
      while i < |list|
        invariant i <= |list| && builder.Valid()
        invariant builder.buf == old(builder.buf) || fresh(builder.buf)
        invariant builder.added == old(builder.added) + list[..i]
        invariant sorted == was[dst := UpsertAll(was[dst], list[..i])]
      {
        assert list[..i + 1] == list[..i] + [list[i]];
        assert list[..i + 1][..|list[..i + 1]| - 1] == list[..i];
        UpsertAllFacts(was[dst], list[..i]);
        builder.Add(list[i]);
        var upserted := SortedUpsert(sorted[dst], list[i]);
        sorted := sorted[dst := upserted];
        i := i + 1;
      }
      assert list[..i] == list;
    }

    /** imr_lsm_append_segment_locked for a non-empty builder; the statistics follow. */
    method AppendBuilt(level: nat, track: Track, builder: SegmentBuilder)
      requires tree.Valid() && builder.Valid() && builder.added != [] && Levels(View().store)
      requires ShapeOk(View().(store := View().store.(segs := segs + [
                                 NewSegment(segs, nextId, level, track, builder.added, bitsPerKey)]),
                               nextId := nextId + 1))
      modifies this`segs, this`nextId, this`cand
      ensures Valid() && View() == AppendSegment(old(View()), level, track, old(builder.added))
    {
      hide StoreOk, ListsTimed, CacheOk, OutputsOk, NewSegment, Recalc, LruTree.Valid, LruTree.View,
        SegmentBuilder.Valid;
      var seg := MakeSegment(level, track, builder);
      segs, nextId := segs + [seg], nextId + 1;
      RecalculateStats();
    }

    /** Both lists that move go through the builder; the emptied ones are unlinked. */
    method MoveNodes(level: nat, dst: nat, builder: SegmentBuilder)
      requires |unsorted| == |sorted| == LEVELS && level < LEVELS && dst < LEVELS
      requires builder.Valid() && builder.added == [] && Ascending(sorted[dst])
      modifies this`unsorted, this`sorted, builder, builder.buf
      ensures builder.Valid() && builder.added == Moved(Store(old(unsorted), old(sorted), segs), level, dst)
      ensures Store(unsorted, sorted, segs) == MoveLists(Store(old(unsorted), old(sorted), segs), level, dst)
    {
      hide SegmentBuilder.Valid, UpsertAll, MoveLists;
      ghost var st := Store(unsorted, sorted, segs);
      MoveListsAt(st, level, dst);
      UpsertAllTwice(sorted[dst], unsorted[level], sorted[level]);
      Drain(unsorted[level], dst, builder);
      if dst != level {
        UpsertAllFacts(st.sorted[dst], st.unsorted[level]);
        Drain(sorted[level], dst, builder);
        sorted := sorted[level := []];
      } else {
        assert Moved(st, level, dst) == st.unsorted[level];
      }
      unsorted := unsorted[level := []];
      ghost var m := MoveLists(st, level, dst);
      assert unsorted == m.unsorted;
      assert sorted == m.sorted;
    }

    /** The common part of the bottom flush and the level compaction. */
    method Move(level: nat, dst: nat)
      requires Valid() && level < LEVELS && dst < LEVELS && Moved(View().store, level, dst) != []
      modifies this`unsorted, this`sorted, this`segs, this`nextId, this`cand, this`plan
      ensures Valid() && View() == MoveLevel(old(View()), level, dst)
    {
      hide StoreOk, ListsTimed, CacheOk, OutputsOk, NewSegment, LruTree.Valid, LruTree.View, SegmentBuilder.Valid,
        Calc, AppendSegment, MoveLists, Moved;
      MovingShape(View(), level, dst);
      var builder := new SegmentBuilder(threshold);
      MoveNodes(level, dst, builder);
      AppendBuilt(dst, Bottom, builder);
      CalculateLevels();
    }

    /** imr_lsm_flush_bottom_unsorted_locked. */
    method FlushBottomUnsorted()
      requires Valid()
      modifies this`unsorted, this`sorted, this`segs, this`nextId, this`cand, this`plan
      ensures Valid() && View() == FlushBottom(old(View()))
    {
      hide StoreOk, ListsTimed, CacheOk, OutputsOk, LruTree.Valid, LruTree.View, MoveLevel;
      if plan.base >= MAX_LEVEL || |unsorted[MAX_LEVEL]| == 0 {
        return;
      }
      Move(MAX_LEVEL, MAX_LEVEL);
    }

    /** imr_lsm_compact_level_locked. */
    method CompactLevelAt(level: nat)
      requires Valid() && level < LEVELS
      modifies this`unsorted, this`sorted, this`segs, this`nextId, this`cand, this`plan
      ensures Valid() && View() == CompactLevel(old(View()), level)
    {
      hide StoreOk, ListsTimed, CacheOk, OutputsOk, LruTree.Valid, LruTree.View, MoveLevel, PlanOk, Plan;
      var dst := MAX_LEVEL;
      if level < MAX_LEVEL {
        CalculateLevels();
        PlanLength(plan, threshold);
        dst := DynamicLevels.Destination(plan, threshold, level);
      }
      if |unsorted[level]| == 0 && (|sorted[level]| == 0 || dst == level) {
        return;
      }
      Move(level, dst);
    }

    /** The rounds of imr_lsm_run_compactions_locked. */
    method CompactionRounds()
      requires Valid()
      modifies this`unsorted, this`sorted, this`segs, this`nextId, this`cand, this`plan
      ensures Valid() && View() == Rounds(old(View()), LEVELS)
    {
      hide StoreOk, ListsTimed, CacheOk, OutputsOk, LruTree.Valid, LruTree.View, CompactLevel, PlanOk, Calc, PickOf;
      ghost var s := View();
      var rounds := 0;
      while rounds < LEVELS
        invariant rounds <= LEVELS && Valid()
        invariant Rounds(View(), LEVELS - rounds) == Rounds(s, LEVELS)
      {
        CalculateLevels();
        var totals := CountLevels();
        var level := Pick(plan, threshold, totals);
        if level >= LEVELS {
          return;
        }
        CompactLevelAt(level);
        rounds := rounds + 1;
      }
    }

    method RunAllCompactions()
      requires Valid()
      modifies this`unsorted, this`sorted, this`segs, this`nextId, this`cand, this`plan
      ensures Valid() && View() == RunCompactions(old(View()))
    {
      hide StoreOk, ListsTimed, CacheOk, OutputsOk, LruTree.Valid, LruTree.View, Rounds, FlushBottom, Calc;
      CalculateLevels();
      FlushBottomUnsorted();
      CompactionRounds();
    }

    /** The new node at the head of the unsorted list, and the read tree's copy. */
    method LinkRecord(level: nat, key: nat, pba: nat, zoneIdx: nat, valid: bool)
      requires Valid() && level < LEVELS
      modifies this`ts, this`unsorted, this`log, tree
      ensures Valid() && View() == AppendRecord(old(View()), level, key, pba, zoneIdx, valid)
    {
      hide StoreOk, ListsTimed, CacheOk, OutputsOk, LruTree.Valid, LruTree.View, Update;
      AppendRecordShape(View(), level, key, pba, zoneIdx, valid);
      ts := ts + 1;
      unsorted := unsorted[level := [Record(key, pba, zoneIdx, valid, ts)] + unsorted[level]];
      log := log + [Op(key, valid, pba)];
      tree.UpdateKey(key, CacheNode(pba, valid, ts));
    }

    /** imr_lsm_append_unsorted_node_locked. */
    method AppendNode(level: nat, key: nat, pba: nat, zoneIdx: nat, valid: bool)
      requires Valid() && level < LEVELS
      modifies this, tree
      ensures Valid() && View() == Append(old(View()), level, key, pba, zoneIdx, valid)
    {
      hide StoreOk, ListsTimed, CacheOk, OutputsOk, LruTree.Valid, LruTree.View, AppendRecord, CompactLevel,
        RunCompactions, Recalc, Capacity;
      LinkRecord(level, key, pba, zoneIdx, valid);
      if |unsorted[level]| >= Capacity(plan, threshold, level) {
        CompactLevelAt(level);
      }
      RunAllCompactions();
      RecalculateStats();
    }

    method MakeReady()
      requires Valid()
      modifies this`unsorted, this`sorted, this`segs, this`nextId, this`cand, this`plan
      ensures Valid() && View() == Ready(old(View()))
    {
      hide StoreOk, ListsTimed, CacheOk, OutputsOk, LruTree.Valid, LruTree.View, FlushBottom, Calc;
      CalculateLevels();
      FlushBottomUnsorted();
    }

    /** imr_lsm_append_unsorting_node. */
    method InsertKey(level: nat, key: nat, pba: nat, zoneIdx: nat)
      requires Valid() && level < LEVELS
      modifies this, tree
      ensures Valid() && View() == InsertRecord(old(View()), level, key, pba, zoneIdx)
    {
      hide StoreOk, ListsTimed, CacheOk, OutputsOk, LruTree.Valid, LruTree.View, Append, Ready;
      MakeReady();
      var target := if level == 0 then plan.active else level;
      AppendNode(Min(target, MAX_LEVEL), key, pba, zoneIdx, true);
    }

    /** imr_lsm_delete: the cached node goes, then a tombstone is appended. */
    method DeleteKeyRecord(key: nat)
      requires Valid()
      modifies this, tree
      ensures Valid() && View() == DeleteRecord(old(View()), key)
    {
      hide StoreOk, ListsTimed, CacheOk, OutputsOk, LruTree.Valid, LruTree.View, Append, Ready, Remove;
      MakeReady();
      CacheShape(View(), key, 0);
      tree.RemoveKey(key);
      AppendNode(Min(plan.active, MAX_LEVEL), key, 0, 0, false);
    }

    /** imrsim_lsm_delete_key_locked. */
    method DeleteKey(key: nat) returns (ok: bool)
      requires Valid()
      modifies this, tree
      ensures Valid() && View() == Delete(old(View()), key)
      ensures ok == (ZoneOf(key) < |old(zoneFill)|)
    {
      hide StoreOk, ListsTimed, CacheOk, OutputsOk, LruTree.Valid, LruTree.View, DeleteRecord, ZoneOf;
      if ZoneOf(key) >= |zoneFill| {
        return false;
      }
      DeleteKeyRecord(key);
      zone := zone - {key};
      ok := true;
    }

    /** imrsim_lsm_delete_lba_range_locked: the first key outside the device ends it. */
    method DiscardRange(lba: nat, sectors: nat) returns (ok: bool)
      requires Valid()
      modifies this, tree
      ensures Valid() && View() == Discard(old(View()), lba, sectors)
      ensures ok <==> forall key: nat :: Counted(lba, sectors, key) ==> ZoneOf(key) < |old(zoneFill)|
    {
      hide ShapeOk, LruTree.Valid, LruTree.View, Delete, ZoneOf, BlocksSpanned;
      ghost var s := View();
      ShapeStore(s);
      var first, count := lba / BLOCK_SECTORS, BlockCount(lba, sectors);
      var i := 0;
      while i < count
        invariant i <= count && Valid()
        invariant View() == DeleteRange(s, first, i)
        invariant forall key: nat :: first <= key < first + i ==> ZoneOf(key) < |s.zoneFill|
      {
        ok := DeleteKey(first + i);
        if !ok {
          assert Counted(lba, sectors, first + i);
          RangeBeyond(s, first, i + 1, count);
          RangeBeyond(s, first, i + 1, i + 1);
          return;
        }
        i := i + 1;
      }
      ok := true;
    }

    /** A write of one block: two-phase relocation, mapping, record, payload. */
    method WriteKey(key: nat, payload: nat) returns (ok: bool)
      requires Valid()
      modifies this, tree
      ensures Valid() && View() == Write(old(View()), key, payload)
      ensures ok == (ZoneOf(key) < |old(zoneFill)|)
    {
      hide StoreOk, ListsTimed, CacheOk, OutputsOk, LruTree.Valid, LruTree.View, InsertRecord, ZoneOf, Slot2,
        BlockSector, WriteBlock;
      var z := ZoneOf(key);
      if z >= |zoneFill| {
        return false;
      }
      var block := if key in zone then zone[key] else Slot2(zoneFill[z]);
      if key !in zone {
        zone, zoneFill := zone[key := block], zoneFill[z := zoneFill[z] + 1];
      }
      assert View() == MapBlock(old(View()), key);
      InsertKey(0, key, BlockSector(z, block), z);
      disk := WriteBlock(disk, BlockSector(z, block), payload);
      ok := true;
    }

    /** imr_lsm_read. */
    method ReadKey(key: nat) returns (result: LookupResult)
      requires Valid()
      modifies this`segs, tree
      ensures Valid() && View() == Read(old(View()), key)
      ensures result == ReadResult(old(View()), key)
    {
      hide StoreOk, ListsTimed, CacheOk, OutputsOk, LruTree.Valid, LruTree.View, Update, Touch, Fold, ReadRecords,
        BumpAll;
      ReadShape(View(), key);
      var cached, node := tree.LookupKey(key);
      if cached {
        return if node.valid then LookupResult.Valid(node.pba) else Deleted;
      }
      var b;
      b, segs := SlowRead(Store(unsorted, sorted, segs), key);
      if b.found {
        tree.UpdateKey(key, CacheNode(b.pba, b.valid, b.ts));
      }
      result := if !b.found then Miss else if b.valid then LookupResult.Valid(b.pba) else Deleted;
    }

    method CommitMetadata()
      requires Valid() && ShapeOk(CommitMeta(View()))
      modifies this`segs, tree
      ensures Valid() && View() == CommitMeta(old(View()))
    {
      hide StoreOk, ListsTimed, CacheOk, OutputsOk, LruTree.Valid, LruTree.View, CommitSegments, RefreshSegments,
        AllRecords;
      segs := CommitLoops.CommitOutput(Store(unsorted, sorted, segs), tree);
    }

    /** The payload copy, and the metadata commit unless a copy failed. */
    method CopyThenCommit(io: Io) returns (ok: bool)
      requires Valid() && CopyStagesOk(View(), io)
      modifies this`segs, this`disk, this`commits, tree
      ensures Valid() && View() == CopiedCommit(old(View()), io)
      ensures ok == CopyAll(old(disk), old(segs), io).ok
    {
      hide ShapeOk, LruTree.Valid, LruTree.View, CommitMeta, CopyAll;
      var c := CopyOutput(disk, segs, io);
      segs, disk, commits := c.segs, c.disk, AfterCopy(commits);
      if !c.ok {
        return false;
      }
      CommitMetadata();
      ok := true;
    }

    /** imr_lsm_commit_output_locked. */
    method CommitOutputs(mode: nat, io: Io) returns (ok: bool)
      requires Valid()
      modifies this`segs, this`disk, this`commits, tree
      ensures Valid() && View() == Spec.CommitOutput(old(View()), mode, io)
      ensures ok == (1 <= mode <= 3 && (mode == 3 ==> CopiesSucceed(old(View()), io)))
    {
      hide ShapeOk, LruTree.Valid, LruTree.View, CommitMeta, PlanAll, CopyAll;
      CommitStagesShape(View(), mode, io);
      if mode == 0 || mode > 3 {
        return false;
      }
      segs := PlanOutput(segs);
      if mode == 3 {
        ok := CopyThenCommit(io);
        return;
      }
      if mode == 2 {
        commits := MetaOnly;
        CommitMetadata();
      }
      ok := true;
    }

    /** The kept entries go into a builder in table order, with the zone of the old segment. */
    method FillBuilder(kept: seq<Record>, zoneIdx: nat) returns (builder: SegmentBuilder)
      requires threshold > 0
      ensures fresh(builder) && fresh(builder.buf) && builder.Valid() && builder.added == Rezoned(kept, zoneIdx)
    {
      hide SegmentBuilder.Valid;
      builder := new SegmentBuilder(threshold);
      var i := 0;
      while i < |kept|
        invariant i <= |kept| && fresh(builder) && fresh(builder.buf) && builder.Valid()
        invariant builder.added == Rezoned(kept[..i], zoneIdx)
      {
        builder.Add(kept[i].(zone := zoneIdx));
        assert Rezoned(kept[..i + 1], zoneIdx) == Rezoned(kept[..i], zoneIdx) + [kept[i].(zone := zoneIdx)];
        i := i + 1;
      }
      assert kept[..i] == kept;
    }

    /** The selected segment's successor is appended and it retires. */
    method Replace(at: nat) returns (kept: bool)
      requires Valid() && at < |segs|
      modifies this`segs, this`nextId, this`cand
      ensures Valid() && View() == ReplaceSegment(old(View()), at)
      ensures kept == (KeptBy(old(View()), at) != [])
    {
      hide ShapeOk, LruTree.Valid, LruTree.View, AppendSegment, Recalc, SegmentBuilder.Valid, KeptOf, AllRecords,
        NewSegment;
      ghost var s := View();
      ShapeStore(s);
      ReplaceStagesShape(s, at);
      var records := KeepLoop(Store(unsorted, sorted, segs), zone, segs[at].table);
      var seg := segs[at];
      kept := |records| > 0;
      if kept {
        var builder := FillBuilder(records, seg.zone);
        AppendBuilt(seg.level, seg.track, builder);
      } else {
        AppendNothing(s, seg.level, seg.track);
      }
      assert View() == AppendSegment(s, seg.level, seg.track, KeptBy(s, at));
      segs := segs[at := segs[at].(retired := true, score := 0)];
      RecalculateStats();
    }

    /** imr_lsm_compact_selected_segment_locked. */
    method CompactSelectedSegment(io: Io) returns (ok: bool)
      requires Valid()
      modifies this`segs, this`nextId, this`cand, this`disk, this`commits, tree
      ensures Valid() && View() == CompactSelected(old(View()), io)
      ensures ok == (!CommitFollows(old(View())) || CopiesSucceed(Replacement(old(View())), io))
    {
      hide StoreOk, ListsTimed, CacheOk, OutputsOk, LruTree.Valid, LruTree.View, ReplaceSegment, Recalc,
        Spec.CommitOutput, KeptBy, Selected, CopyAll, PlanAll;
      RecalculateStats();
      var at := FindSelected(segs, cand);
      if at < 0 {
        return true;
      }
      var kept := Replace(at);
      ok := true;
      if kept {
        ok := CommitOutputs(3, io);
      }
    }

    /** Where the payload of a key of the zone is, as zone compaction looks it up. */
    method FindSource(zoneIdx: nat, offset: nat) returns (source: Source)
      requires Levels(View().store) && StoreOk(View().store) && offset < TOTAL_ITEMS
      ensures source == SourceOfKey(View(), KeyAt(zoneIdx, offset))
    {
      hide StoreOk, AllRecords, LruTree.Valid, LruTree.View, Fold;
      var key := KeyAt(zoneIdx, offset);
      var latest := ScanAll(Store(unsorted, sorted, segs), key, NONE);
      if latest.found {
        return if latest.valid then At(latest.pba) else Skip;
      }
      assert ZoneOf(key) == zoneIdx;
      source := if key in zone then At(BlockSector(zoneIdx, zone[key])) else Skip;
    }

    /** The copy loop of a zone compaction: blocks are copied and timestamps taken as it goes; the
        first block that cannot be copied ends it. */
    method SlideBlocks(zoneIdx: nat, io: Io, builder: SegmentBuilder) returns (ok: bool, live: nat)
      requires Levels(View().store) && StoreOk(View().store) && builder.Valid() && builder.added == []
      modifies this`disk, this`ts, builder, builder.buf
      ensures builder.Valid()
      ensures var p := SlideTo(old(View()), zoneIdx, io, TOTAL_ITEMS);
              ok == p.ok && disk == p.disk && builder.added == p.moved && live == |p.moved| && ts == old(ts) + live
    {
      hide StoreOk, LruTree.Valid, LruTree.View, SegmentBuilder.Valid, SourceOfKey, RunJob, CopyFails,
        ZoneCompaction.Destination;
      ghost var s := View();
      ghost var p := Slide(disk, [], true);
      var offset := 0;
      live := 0;
      while offset < TOTAL_ITEMS
        invariant offset <= TOTAL_ITEMS && builder.Valid()
        invariant builder.buf == old(builder.buf) || fresh(builder.buf)
        invariant p == SlideTo(s, zoneIdx, io, offset) && p.ok
        invariant disk == p.disk && builder.added == p.moved && ts == s.ts + live && live == |p.moved|
      {
        SourceIgnores(s, View(), KeyAt(zoneIdx, offset));
        var source := FindSource(zoneIdx, offset);
        if source.At? {
          var dest := ZoneCompaction.Destination(zoneIdx, live);
          if CopyFails(io, source.pba, dest) {
            SlideStops(s, zoneIdx, io, offset + 1, TOTAL_ITEMS);
            return false, live;
          }
          disk := RunJob(disk, Job(source.pba, dest));
          ts := ts + 1;
          builder.Add(Record(KeyAt(zoneIdx, offset), dest, zoneIdx, true, ts));
          live := live + 1;
        }
        offset := offset + 1;
        p := SlideTo(s, zoneIdx, io, offset);
      }
      ok := true;
    }

    /** Zone map and read tree take the blocks of the new segment's entries. */
    method EnterMoved(zoneIdx: nat, table: seq<Entry>)
      requires tree.Valid()
      modifies this`zone, tree
      ensures tree.Valid()
      ensures zone == Remapped(old(zone), zoneIdx, Recs(table), |table|)
      ensures tree.View() == Cached(old(tree.View()), Recs(table), |table|)
    {
      hide LruTree.Valid, LruTree.View, Update, RelativeBlock, Cleared;
      ghost var map0, cache0 := zone, tree.View();
      zone := Cleared(zone, zoneIdx);
      var i := 0;
      while i < |table|
        invariant i <= |table| && tree.Valid()
        invariant zone == Remapped(map0, zoneIdx, Recs(table), i)
        invariant tree.View() == Cached(cache0, Recs(table), i)
      {
        var r := table[i].rec;
        zone := zone[r.key := RelativeBlock(zoneIdx, r.pba)];
        tree.UpdateKey(r.key, CacheNode(r.pba, r.valid, r.ts));
        i := i + 1;
      }
    }

    /** The new segment, and what follows from it; `s` is the state before the timestamps were taken. */
    method FinishCompaction(zoneIdx: nat, live: nat, builder: SegmentBuilder, ghost s: State)
      requires tree.Valid() && builder.Valid() && zoneIdx + 1 < |zoneFill| && live == |builder.added|
      requires ShapeOk(s) && MoveOk(s, builder.added) && View() == s.(ts := s.ts + live)
      modifies this`segs, this`nextId, this`cand, this`zone, this`zoneFill, this`log, tree
      ensures Valid() && View() == FinishZone(s, zoneIdx, old(builder.added))
    {
      hide ShapeOk, LruTree.Valid, LruTree.View, SegmentBuilder.Valid, AppendSegment, Recalc, NewSegment, Remapped,
        Cached, FillAfter, Ops;
      ghost var moved := builder.added;
      log := log + Ops(moved);
      ShapeLevels(s);
      ZoneStagesShape(s, zoneIdx, moved);
      AppendBuilt(MAX_LEVEL, Bottom, builder);
      EnterMoved(zoneIdx, segs[|segs| - 1].table);
      zoneFill := FillAfter(zoneFill, zoneIdx, live);
      RecalculateStats();
    }

    /** imr_lsm_compact_zone_locked. */
    method CompactFullZone(zoneIdx: nat, io: Io) returns (ok: bool)
      requires Valid()
      modifies this, tree
      ensures Valid() && View() == CompactZone(old(View()), zoneIdx, io)
      ensures var p := SlideTo(old(View()), zoneIdx, io, TOTAL_ITEMS);
              ok == (!Refused(old(View()), zoneIdx) && p.ok && p.moved != [])
      ensures zoneIdx + 1 >= |old(zoneFill)| || old(zoneFill[zoneIdx]) < TOTAL_ITEMS ||
              old(zoneFill[zoneIdx + 1]) != 0 ==>
                !ok && View() == old(View())
      ensures Compactable(old(View()), zoneIdx, io) ==> ok && LaidOut(old(View()), View(), zoneIdx)
    {
      hide ShapeOk, LruTree.Valid, LruTree.View, SegmentBuilder.Valid, SlideTo, FinishZone, MoveOk, Compactable,
        LaidOut;
      ghost var s := View();
      ShapeStore(s);
      if Compactable(s, zoneIdx, io) { NoFaultsCompacts(s, zoneIdx, io); }
      if zoneIdx + 1 >= |zoneFill| || zoneFill[zoneIdx] < TOTAL_ITEMS || zoneFill[zoneIdx + 1] != 0 {
        return false;
      }
      var builder := new SegmentBuilder(threshold);
      var live;
      ok, live := SlideBlocks(zoneIdx, io, builder);
      ghost var slide := SlideTo(s, zoneIdx, io, TOTAL_ITEMS);
      if !ok {
        log := log + Gaps(live);
        ShapeIgnores(s, View());
        return;
      }
      if live == 0 {
        SlideIdle(s, zoneIdx, io, TOTAL_ITEMS);
        return false;
      }
      SlideMoveOk(s, zoneIdx, io);
      ShapeIgnores(s, s.(disk := slide.disk));
      MoveOkDisk(s, s.(disk := slide.disk), slide.moved);
      FinishCompaction(zoneIdx, live, builder, s.(disk := slide.disk));
    }

    /** The debugfs controls of the read tree and of the parameters. */
    method ClearReadTree()
      requires Valid()
      modifies tree
      ensures Valid() && View() == ClearTree(old(View()))
    {
      hide StoreOk, ListsTimed, CacheOk, OutputsOk, LruTree.Valid, LruTree.View, Clear;
      CacheShape(View(), 0, 0);
      tree.ClearKeys();
    }

    method SetReadTreeLimit(limit: nat) returns (ok: bool)
      requires Valid()
      modifies tree
      ensures Valid() && View() == SetTreeLimit(old(View()), limit)
      ensures ok == (limit <= READ_TREE_LIMIT)
    {
      hide StoreOk, ListsTimed, CacheOk, OutputsOk, LruTree.Valid, LruTree.View, SetLimit;
      CacheShape(View(), 0, limit);
      if limit > READ_TREE_LIMIT {
        return false;
      }
      tree.SetLimitTo(if limit == 0 then READ_TREE_LIMIT else limit);
      ok := true;
    }

    method SetCompactionThreshold(value: nat) returns (ok: bool)
      requires Valid()
      modifies this`threshold, this`plan
      ensures Valid() && View() == SetThreshold(old(View()), value)
      ensures ok == (value <= THRESHOLD_MAX)
    {
      hide StoreOk, ListsTimed, CacheOk, OutputsOk, LruTree.Valid, LruTree.View, Calc;
      var t := if value == 0 then 16 else value;
      if t > THRESHOLD_MAX {
        return false;
      }
      threshold := t;
      CalculateLevels();
      ok := true;
    }

    method SetBloomBits(value: nat) returns (ok: bool)
      requires Valid()
      modifies this`bitsPerKey
      ensures Valid() && View() == SetBitsPerKey(old(View()), value)
      ensures ok == (value <= 64)
    {
      hide StoreOk, ListsTimed, CacheOk, OutputsOk, LruTree.Valid, LruTree.View;
      var bits := if value == 0 then 10 else value;
      if bits > 64 {
        return false;
      }
      bitsPerKey := bits;
      ok := true;
    }

    /** One operation of the device or of its debugfs controls. */
    method Execute(step: Step)
      requires Valid()
      modifies this, tree
      ensures Valid() && View() == Apply(old(View()), step)
    {
      hide ShapeOk, LruTree.Valid, LruTree.View, Write, Delete, Read, Ready, CompactLevel, CompactSelected, CompactZone,
        Spec.CommitOutput, Recalc, ClearTree, SetTreeLimit, SetThreshold, SetBitsPerKey, ReadResult, ZoneOf, SlideTo,
        CopyAll;
      var ok, result;
      match step
      case DoWrite(key, payload) => ok := WriteKey(key, payload);
      case DoDelete(key) => ok := DeleteKey(key);
      case DoRead(key) => result := ReadKey(key);
      case DoFlush => MakeReady();
      case DoCompactLevel(level) => if level < LEVELS { CompactLevelAt(level); }
      case DoCompactSegment(io) => ok := CompactSelectedSegment(io);
      case DoCompactZone(zoneIdx, io) => ok := CompactFullZone(zoneIdx, io);
      case DoCommit(mode, io) => ok := CommitOutputs(mode, io);
      case DoRecalc => RecalculateStats();
      case DoClearTree => ClearReadTree();
      case DoTreeLimit(limit) => ok := SetReadTreeLimit(limit);
      case DoThreshold(value) => ok := SetCompactionThreshold(value);
      case DoBitsPerKey(value) => ok := SetBloomBits(value);
    }
  }

  /** A device started empty and driven through any operations is in the state of that run; what holds
      after every run holds of the object. */
  method Drive(zones: nat, steps: seq<Step>) returns (engine: MetadataEngine)
    ensures fresh(engine) && fresh(engine.tree) && engine.Valid() && engine.View() == Run(zones, steps)
  {
    hide ShapeOk, LruTree.Valid, LruTree.View, Apply;
    engine := new MetadataEngine(zones);
    var i := 0;
    while i < |steps|
      invariant i <= |steps| && fresh(engine) && fresh(engine.tree) && engine.Valid()
      invariant engine.View() == Run(zones, steps[..i])
    {
      engine.Execute(steps[i]);
      assert steps[..i + 1][..i] == steps[..i];
      i := i + 1;
    }
    assert steps[..i] == steps;
  }

  // ---------------------------------------------------------------- zone compaction

  /** The search for sources is not disturbed by blocks copied or timestamps taken meanwhile. */
  lemma SourceIgnores(s: State, r: State, key: nat)
    requires Levels(s.store) && r == s.(disk := r.disk, ts := r.ts)
    ensures SourceOfKey(r, key) == SourceOfKey(s, key)
  {
  }

  lemma {:induction false} SlideStops(s: State, zone: nat, io: Io, m: nat, n: nat)
    requires Levels(s.store) && m <= n && !SlideTo(s, zone, io, m).ok
    ensures SlideTo(s, zone, io, n) == SlideTo(s, zone, io, m)
    decreases n
  {
    hide SlideStep;
    if m < n { SlideStops(s, zone, io, m, n - 1); }
  }

  /** Nothing moved is nothing written. */
  lemma {:induction false} SlideIdle(s: State, zone: nat, io: Io, n: nat)
    requires Levels(s.store) && SlideTo(s, zone, io, n).moved == []
    ensures SlideTo(s, zone, io, n).disk == s.disk
  {
    hide SourceOfKey, RunJob, CopyFails, ZoneCompaction.Destination;
    if n > 0 { SlideIdle(s, zone, io, n - 1); }
  }

  lemma ShapeIgnores(s: State, r: State)
    requires ShapeOk(s) && r == s.(disk := r.disk, ts := r.ts, log := r.log)
    ensures ShapeOk(r)
  {
  }

  lemma ZoneStagesShape(s: State, zone: nat, moved: seq<Record>)
    requires ShapeOk(s) && MoveOk(s, moved) && zone + 1 < |s.zoneFill|
    ensures var s0 := s.(ts := s.ts + |moved|, log := s.log + Ops(moved));
            var s1 := AppendSegment(s0, MAX_LEVEL, Bottom, moved);
            && ShapeOk(s0.(store := s.store.(segs := s.store.segs + [
                             NewSegment(s.store.segs, s.nextId, MAX_LEVEL, Bottom, moved, s.bitsPerKey)]),
                           nextId := s.nextId + 1))
            && |s1.store.segs| > 0 && Recs(s1.store.segs[|s1.store.segs| - 1].table) == moved
            && ShapeOk(s1.(zone := Remapped(s1.zone, zone, moved, |moved|), cache := Cached(s1.cache, moved, |moved|),
                           zoneFill := FillAfter(s1.zoneFill, zone, |moved|)))
  {
    hide StoreOk, CacheOk, OutputsOk, NewSegment, SegmentOk, AppendSegment, Cached, Remapped, FillAfter;
    var s0 := s.(ts := s.ts + |moved|, log := s.log + Ops(moved));
    assert Timed(moved);
    AddedShape(s0, MAX_LEVEL, Bottom, moved);
    AppendSegmentShape(s0, MAX_LEVEL, Bottom, moved);
    AppendedTable(s0, MAX_LEVEL, Bottom, moved);
    UpsertAllAscending(moved);
    var s1 := AppendSegment(s0, MAX_LEVEL, Bottom, moved);
    CachedOk(s1.cache, moved, |moved|);
  }

  lemma AppendedTable(s: State, level: nat, track: Track, recs: seq<Record>)
    requires Levels(s.store) && recs != [] && Timed(recs) && level < LEVELS
    ensures var r := AppendSegment(s, level, track, recs);
            && |r.store.segs| == |s.store.segs| + 1
            && Recs(r.store.segs[|s.store.segs|].table) == UpsertAll([], recs)
  {
    hide NewSegment, AllRecords, StatsOf, ScoreOfStats, UpsertAll, SegmentOk;
    NewSegmentOk(s.store.segs, s.nextId, level, track, recs, s.bitsPerKey);
  }

  // ---------------------------------------------------------------- shapes of intermediate states

  lemma {:induction false} UpsertAllTwice(rs: seq<Record>, xs: seq<Record>, ys: seq<Record>)
    ensures UpsertAll(rs, xs + ys) == UpsertAll(UpsertAll(rs, xs), ys)
  {
    hide Upsert;
    if ys == [] {
      assert xs + ys == xs;
    } else {
      UpsertAllTwice(rs, xs, ys[..|ys| - 1]);
      assert (xs + ys)[..|xs + ys| - 1] == xs + ys[..|ys| - 1];
    }
  }

  /** A move is well-shaped again once its segment is appended. */
  lemma MovingShape(s: State, level: nat, dst: nat)
    requires ShapeOk(s) && level < LEVELS && dst < LEVELS && Moved(s.store, level, dst) != []
    ensures var m, moved := MoveLists(s.store, level, dst), Moved(s.store, level, dst);
            ShapeOk(s.(store := m.(segs := s.store.segs + [
                         NewSegment(s.store.segs, s.nextId, dst, Bottom, moved, s.bitsPerKey)]),
                       nextId := s.nextId + 1))
    ensures Ascending(s.store.sorted[dst])
  {
    hide OutputsOk, StoreOk, ListsTimed, CacheOk, NewSegment, SegmentOk, MoveLists, Timed;
    MovedTimed(s.store, level, dst);
    var moved := Moved(s.store, level, dst);
    var seg := NewSegment(s.store.segs, s.nextId, dst, Bottom, moved, s.bitsPerKey);
    NewSegmentOk(s.store.segs, s.nextId, dst, Bottom, moved, s.bitsPerKey);
    NewSegmentOutputs(s.store.segs, s.nextId, dst, Bottom, moved, s.bitsPerKey, s.commits);
    MoveListsOk(s.store, level, dst, seg);
    MoveListsTimed(s.store, level, dst);
    MoveListsAt(s.store, level, dst);
    TimedIgnoresSegments(MoveLists(s.store, level, dst), s.store.segs + [seg]);
    StoreAscending(s.store, dst);
  }

  lemma AppendNothing(s: State, level: nat, track: Track)
    requires Levels(s.store)
    ensures AppendSegment(s, level, track, []) == s
  {
  }

  lemma ShapeStore(s: State)
    requires ShapeOk(s)
    ensures Levels(s.store) && StoreOk(s.store) && s.threshold > 0
  {
  }

  lemma StoreAscending(st: Store, l: nat)
    requires StoreOk(st) && l < LEVELS
    ensures Ascending(st.sorted[l])
  {
  }

  ghost function CopiedCommit(s: State, io: Io): State
    requires Levels(s.store)
  {
    var copied := AfterCopying(s, io);
    if CopyAll(s.disk, s.store.segs, io).ok then CommitMeta(copied) else copied
  }

  ghost predicate CopyStagesOk(s: State, io: Io) {
    var copied := AfterCopying(s, io);
    && ShapeOk(s) && ShapeOk(copied)
    && (CopyAll(s.disk, s.store.segs, io).ok ==> ShapeOk(CommitMeta(copied)))
  }

  lemma CommitStagesShape(s: State, mode: nat, io: Io)
    requires ShapeOk(s)
    ensures var planned := s.(store := s.store.(segs := PlanAll(s.store.segs)));
            && CopyStagesOk(planned, io)
            && ShapeOk(planned.(commits := MetaOnly)) && ShapeOk(CommitMeta(planned.(commits := MetaOnly)))
  {
    hide OutputsOk, StoreOk, ListsTimed, CacheOk, CommitMeta, PlanAll, CopyAll, SameVersions, CommitSegments;
    PlanSameVersions(s.store.segs);
    RoundOutputs(s.disk, s.store.segs, io, s.commits);
    SameVersionsShape(s, PlanAll(s.store.segs), s.commits);
    var planned := s.(store := s.store.(segs := PlanAll(s.store.segs)));
    CopySameVersions(s.disk, planned.store.segs, io);
    var c := CopyAll(s.disk, planned.store.segs, io);
    SameVersionsShape(planned, c.segs, AfterCopy(s.commits));
    OutputsMeta(planned.store.segs, s.commits);
    CommitMetaShape(planned.(commits := MetaOnly));
    if c.ok {
      CommitMetaShape(planned.(store := planned.store.(segs := c.segs), disk := c.disk,
                               commits := AfterCopy(s.commits)));
    }
  }

  lemma ReplaceStagesShape(s: State, at: nat)
    requires ShapeOk(s) && at < |s.store.segs|
    ensures var seg, kept := s.store.segs[at], KeptBy(s, at);
            && ShapeOk(AppendSegment(s, seg.level, seg.track, kept))
            && at < |AppendSegment(s, seg.level, seg.track, kept).store.segs|
            && ShapeOk(Retire(AppendSegment(s, seg.level, seg.track, kept), at))
            && (kept != [] ==>
                  ShapeOk(s.(store := s.store.(segs := s.store.segs + [
                               NewSegment(s.store.segs, s.nextId, seg.level, seg.track, kept, s.bitsPerKey)]),
                             nextId := s.nextId + 1)))
  {
    hide StoreOk, ListsTimed, CacheOk, OutputsOk, KeptBy, AppendSegment, Retire, NewSegment, SegmentOk, Timed;
    KeptByTimed(s, at);
    var seg, kept := s.store.segs[at], KeptBy(s, at);
    AppendSegmentShape(s, seg.level, seg.track, kept);
    AppendGrows(s, seg.level, seg.track, kept);
    RetireShape(AppendSegment(s, seg.level, seg.track, kept), at);
    if kept != [] {
      AddedShape(s, seg.level, seg.track, kept);
    }
  }

  lemma AddedShape(s: State, level: nat, track: Track, recs: seq<Record>)
    requires ShapeOk(s) && Timed(recs) && level < LEVELS && recs != []
    ensures ShapeOk(s.(store := s.store.(segs := s.store.segs + [
                         NewSegment(s.store.segs, s.nextId, level, track, recs, s.bitsPerKey)]),
                       nextId := s.nextId + 1))
  {
    hide OutputsOk, StoreOk, CacheOk, NewSegment, SegmentOk;
    var seg := NewSegment(s.store.segs, s.nextId, level, track, recs, s.bitsPerKey);
    NewSegmentOk(s.store.segs, s.nextId, level, track, recs, s.bitsPerKey);
    NewSegmentOutputs(s.store.segs, s.nextId, level, track, recs, s.bitsPerKey, s.commits);
    AddSegmentOk(s.store, seg);
  }
}
