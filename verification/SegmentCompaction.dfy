/** What a segment compaction does: which segment it takes, what becomes of its entries, and what a newly
    appended segment holds. */
module SegmentCompaction {
  import opened Types
  import opened Tables
  import opened BloomFilter
  import opened Builder
  import opened Scan
  import opened DynamicLevels
  import opened ReadTree
  import opened Placement
  import opened Obsolescence
  import opened Commit
  import opened Spec
  import opened Outputs
  import opened Shape
  import opened History
  import opened SoundSteps
  import opened Progress
  import opened Selection

  // ---------------------------------------------------------------- a new segment

  /** The last segment holds the newest of the records given for each key; its bounds are met and its zone is the
      records' one; its output is the first room in the window of its keys. */
  ghost predicate HoldsNew(segs: seq<Segment>, g: Segment, level: nat, track: Track, recs: seq<Record>) {
    && !g.retired && g.id == |segs| && g.level == level && g.track == track && g.hits == 0
    && HoldsRecords(g, recs) && HasBounds(g, recs) && IsPlaced(segs, g)
  }

  ghost predicate HoldsRecords(g: Segment, recs: seq<Record>) {
    && Ascending(Recs(g.table))
    && (forall x :: x in recs ==> HasAtLeast(Recs(g.table), x.key, x.ts))
    && (forall x :: x in Recs(g.table) ==> x in recs)
  }

  ghost predicate HasBounds(g: Segment, recs: seq<Record>) {
    && g.nodes == |recs|
    && (forall x :: x in recs ==> g.minKey <= x.key <= g.maxKey && g.minTs <= x.ts <= g.maxTs)
    && HasKeyAt(recs, g.minKey) && HasKeyAt(recs, g.maxKey) && HasTsAt(recs, g.minTs) && HasTsAt(recs, g.maxTs)
    && (g.zone != MIXED_ZONE ==> forall x :: x in recs ==> x.zone == g.zone)
    && ((forall x, y :: x in recs && y in recs ==> x.zone == y.zone) ==> forall x :: x in recs ==> x.zone == g.zone)
  }

  ghost predicate IsPlaced(segs: seq<Segment>, g: Segment) {
    && g.window == WindowOf(g.zone, g.minKey, g.maxKey)
    && g.output == FirstFit(segs, g.window, |g.table| * BLOCK_SECTORS)
    && (forall j :: 0 <= j < |g.table| ==> Untouched(g.table[j]))
  }

  lemma NewSegmentHolds(segs: seq<Segment>, level: nat, track: Track, recs: seq<Record>, bitsPerKey: nat)
    requires recs != [] && Timed(recs) && level < LEVELS
    ensures HoldsNew(segs, NewSegment(segs, |segs|, level, track, recs, bitsPerKey), level, track, recs)
  {
    hide HoldsRecords, HasBounds, IsPlaced, BuildFilter, WindowOf, FirstFit, MapEntries, UpsertAll, Summarize;
    NewRecords(segs, level, track, recs, bitsPerKey);
    NewBounds(segs, level, track, recs, bitsPerKey);
    NewPlace(segs, level, track, recs, bitsPerKey);
  }

  lemma NewRecords(segs: seq<Segment>, level: nat, track: Track, recs: seq<Record>, bitsPerKey: nat)
    requires recs != [] && Timed(recs) && level < LEVELS
    ensures HoldsRecords(NewSegment(segs, |segs|, level, track, recs, bitsPerKey), recs)
  {
    hide NewSegment, UpsertAll, HasAtLeast, SegmentOk;
    NewSegmentOk(segs, |segs|, level, track, recs, bitsPerKey);
    UpsertAllFacts([], recs);
    forall x | x in recs ensures HasAtLeast(UpsertAll([], recs), x.key, x.ts) {
      UpsertAllKeeps([], recs, x);
    }
  }

  lemma NewBounds(segs: seq<Segment>, level: nat, track: Track, recs: seq<Record>, bitsPerKey: nat)
    requires recs != []
    ensures HasBounds(NewSegment(segs, |segs|, level, track, recs, bitsPerKey), recs)
  {
    hide BuildFilter, WindowOf, FirstFit, MapEntries, UpsertAll, Summarize, HasKeyAt, HasTsAt, Fresh;
    SummaryBounds(recs);
    assert recs[0] in recs;
  }

  lemma NewPlace(segs: seq<Segment>, level: nat, track: Track, recs: seq<Record>, bitsPerKey: nat)
    requires recs != []
    ensures IsPlaced(segs, NewSegment(segs, |segs|, level, track, recs, bitsPerKey))
  {
    hide BuildFilter, WindowOf, FirstFit, MapEntry, UpsertAll, Summarize, MappingOk, Apart;
    NewSegmentMapping(segs, |segs|, level, track, recs, bitsPerKey);
  }

  /** Appending records makes one segment of them and changes nothing else but statistics. */
  lemma AppendedSegment(s: State, level: nat, track: Track, recs: seq<Record>)
    requires ShapeOk(s) && Levels(s.store) && recs != [] && Timed(recs) && level < LEVELS
    ensures var r, n := AppendSegment(s, level, track, recs), |s.store.segs|;
            && r.store.unsorted == s.store.unsorted && r.store.sorted == s.store.sorted
            && |r.store.segs| == n + 1 && (forall i :: 0 <= i < n ==> SameSegment(r.store.segs[i], s.store.segs[i]))
            && HoldsNew(s.store.segs, r.store.segs[n], level, track, recs)
  {
    hide StoreOk, ListsTimed, CacheOk, OutputsOk, NewSegment, HoldsNew, Recalculated, CandidateOf, AllRecords, StatsOf,
      ScoreOfStats;
    NewSegmentHolds(s.store.segs, level, track, recs, s.bitsPerKey);
    var seg := NewSegment(s.store.segs, s.nextId, level, track, recs, s.bitsPerKey);
    var grown := s.store.segs + [seg];
    var later := s.store.(segs := grown);
    var r := AppendSegment(s, level, track, recs);
    assert r.store.segs == Recalculated(AllRecords(later), s.zone, grown);
    HoldsSame(s.store.segs, seg, r.store.segs[|s.store.segs|], level, track, recs);
  }

  lemma HoldsSame(segs: seq<Segment>, g: Segment, h: Segment, level: nat, track: Track, recs: seq<Record>)
    requires HoldsNew(segs, g, level, track, recs) && h == g.(stats := h.stats, score := h.score)
    ensures HoldsNew(segs, h, level, track, recs)
  {
    hide FirstFit, WindowOf, HasAtLeast, HasKeyAt, HasTsAt, Untouched;
  }

  // ---------------------------------------------------------------- replacing a segment

  /** `r` is `s` with the segment at `at` retired, and its indispensable entries, if there are any, in a new
      segment at the same level and on the same kind of track. */
  ghost predicate Superseded(s: State, r: State, at: nat)
    requires Levels(s.store) && at < |s.store.segs|
  {
    var n, seg, all := |s.store.segs|, s.store.segs[at], AllRecords(s.store);
    && r.store.unsorted == s.store.unsorted && r.store.sorted == s.store.sorted && n <= |r.store.segs| <= n + 1
    && (forall i :: 0 <= i < n && i != at ==> SameSegment(r.store.segs[i], s.store.segs[i]))
    && r.store.segs[at].retired && r.store.segs[at].table == seg.table
    && (|r.store.segs| == n <==> forall j :: 0 <= j < |seg.table| ==> Dispensable(all, s.zone, seg.table[j].rec))
    && (|r.store.segs| > n ==> Successor(all, s.zone, seg, r.store.segs[n]))
  }

  ghost predicate Successor(all: seq<Record>, zone: ZoneMap, seg: Segment, g: Segment) {
    && !g.retired && g.level == seg.level && g.track == seg.track && g.id != seg.id && Ascending(Recs(g.table))
    && (forall x :: x in Recs(g.table) ==> KeptFrom(all, zone, seg, x))
    && (forall j :: 0 <= j < |seg.table| && !Dispensable(all, zone, seg.table[j].rec) ==>
          seg.table[j].rec.(zone := seg.zone) in Recs(g.table))
  }

  ghost predicate KeptFrom(all: seq<Record>, zone: ZoneMap, seg: Segment, x: Record) {
    exists j :: 0 <= j < |seg.table| && !Dispensable(all, zone, seg.table[j].rec) &&
      x == seg.table[j].rec.(zone := seg.zone)
  }

  lemma KeptExactly(s: State, at: nat)
    requires ShapeOk(s) && Levels(s.store) && at < |s.store.segs|
    ensures var kept, seg, all := KeptBy(s, at), s.store.segs[at], AllRecords(s.store);
            && (forall x :: x in kept ==> KeptFrom(all, s.zone, seg, x))
            && (forall j :: 0 <= j < |seg.table| && !Dispensable(all, s.zone, seg.table[j].rec) ==>
                  seg.table[j].rec.(zone := seg.zone) in kept)
            && (kept == [] <==> forall j :: 0 <= j < |seg.table| ==> Dispensable(all, s.zone, seg.table[j].rec))
  {
    hide ShapeOk, Keeps, Dispensable, AllRecords, Obsolete;
    var kept, seg, all := KeptBy(s, at), s.store.segs[at], AllRecords(s.store);
    var rs := Recs(seg.table);
    var front := KeptOf(all, s.zone, rs);
    KeptFacts(all, s.zone, seg.table, |seg.table|);
    assert rs[..|seg.table|] == rs;
    forall r ensures Keeps(all, s.zone, r) <==> !Dispensable(all, s.zone, r) {
      KeepsIsNotObsolete(all, s.zone, r);
      ObsoleteMeans(all, s.zone, r);
    }
    forall x | x in kept ensures KeptFrom(all, s.zone, seg, x) {
      var i :| 0 <= i < |kept| && kept[i] == x;
      assert front[i] in rs;
      var j :| 0 <= j < |rs| && rs[j] == front[i];
      assert seg.table[j].rec == front[i];
    }
    forall j | 0 <= j < |seg.table| && !Dispensable(all, s.zone, seg.table[j].rec)
      ensures seg.table[j].rec.(zone := seg.zone) in kept
    {
      assert rs[j] in front;
      var i :| 0 <= i < |front| && front[i] == rs[j];
      assert kept[i] == rs[j].(zone := seg.zone);
    }
    if kept != [] { assert KeptFrom(all, s.zone, seg, kept[0]); }
  }

  lemma ReplaceResult(s: State, at: nat)
    requires ShapeOk(s) && Levels(s.store) && at < |s.store.segs| && !s.store.segs[at].retired
    ensures Superseded(s, ReplaceSegment(s, at), at)
  {
    hide ShapeOk, KeptBy, NewSegment, ReplaceSegment, Dispensable, AllRecords, KeptFrom, Successor;
    KeptExactly(s, at);
    ReplacedIsReplaceSegment(s, at);
    var r, seg, kept := ReplaceSegment(s, at), s.store.segs[at], KeptBy(s, at);
    assert forall i :: 0 <= i < |r.store.segs| ==> SameSegment(r.store.segs[i], Replaced(s, at).segs[i]);
    if kept != [] {
      SuccessorHolds(s, at);
      var g := Replaced(s, at).segs[|s.store.segs|];
      SuccessorSame(AllRecords(s.store), s.zone, seg, g, r.store.segs[|s.store.segs|]);
    }
  }

  lemma SuccessorHolds(s: State, at: nat)
    requires ShapeOk(s) && Levels(s.store) && at < |s.store.segs| && KeptBy(s, at) != []
    ensures Successor(AllRecords(s.store), s.zone, s.store.segs[at], Replaced(s, at).segs[|s.store.segs|])
  {
    hide ShapeOk, KeptBy, NewSegment, Dispensable, AllRecords, KeptFrom;
    var seg, kept := s.store.segs[at], KeptBy(s, at);
    KeptExactly(s, at);
    KeptByTimed(s, at);
    NewSegmentOk(s.store.segs, s.nextId, seg.level, seg.track, kept, s.bitsPerKey);
    NewTrack(s.store.segs, s.nextId, seg.level, seg.track, kept, s.bitsPerKey);
    KeptRecords(s, at, kept[0]);
    IdsDiffer(s, at);
  }

  lemma NewTrack(segs: seq<Segment>, id: nat, level: nat, track: Track, recs: seq<Record>, bitsPerKey: nat)
    ensures NewSegment(segs, id, level, track, recs, bitsPerKey).track == track
  {
    hide BuildFilter, WindowOf, FirstFit, MapEntries, UpsertAll, Summarize, Fresh;
  }

  lemma SuccessorSame(all: seq<Record>, zone: ZoneMap, seg: Segment, g: Segment, h: Segment)
    requires Successor(all, zone, seg, g) && SameSegment(h, g)
    ensures Successor(all, zone, seg, h)
  {
    hide Dispensable, KeptFrom;
  }

  lemma IdsDiffer(s: State, at: nat)
    requires ShapeOk(s) && at < |s.store.segs|
    ensures s.store.segs[at].id != s.nextId
  {
  }

  // ---------------------------------------------------------------- the whole operation

  lemma VersionsAgree(s: State)
    requires Sound(s) && Levels(s.store)
    ensures Agree(AllRecords(s.store))
  {
    hide ShapeOk, AllCovered, CacheTrue, Stored, CommittedAt, AllRecords;
    var all := AllRecords(s.store);
    forall x, y | x in all && y in all && x.key == y.key && x.ts == y.ts ensures x.valid == y.valid {
      AllRecordsMembers(s.store, x);
      AllRecordsMembers(s.store, y);
      assert Logged(s.log, s.store.segs, x) && Logged(s.log, s.store.segs, y);
    }
  }

  /** A segment compaction recalculates the statistics, takes the segment that the selection prefers, replaces
      it and commits; without one it ends there. */
  lemma ChosenIsCompacted(s: State, io: Io)
    requires Sound(s) && Levels(s.store)
    ensures var s1, r := Recalc(s), CompactSelected(s, io);
            var at := Select(s1.store.segs, |s1.store.segs|, Policy(s.ts, s.zoneFill));
            && s1.store.segs == Recalculated(AllRecords(s.store), s.zone, s.store.segs) && Agree(AllRecords(s.store))
            && (at < 0 ==> r == s1)
            && (at >= 0 ==>
                  exists m: State :: Levels(m.store) && Superseded(s1, m, at) &&
                    r == (if |m.store.segs| == |s1.store.segs| then m else CommitOutput(m, 3, io)))
  {
    hide StoreOk, ListsTimed, CacheOk, OutputsOk, AllLogged, AllCovered, CacheTrue, AllRecords, Select, CommitOutput,
      ReplaceSegment, Superseded, KeptBy, Recalculated;
    VersionsAgree(s);
    RecalcShape(s);
    var s1 := Recalc(s);
    var at := Select(s1.store.segs, |s1.store.segs|, Policy(s.ts, s.zoneFill));
    SelectedIsChosen(s1, Policy(s.ts, s.zoneFill));
    if at >= 0 {
      var m := ReplaceSegment(s1, at);
      ReplaceResult(s1, at);
      SupersededCount(s1, m, at);
    }
  }

  lemma SelectedIsChosen(s1: State, policy: Policy)
    requires ShapeOk(s1) && Levels(s1.store) && s1.cand == CandidateOf(s1.store.segs, policy)
    requires forall i :: 0 <= i < |s1.store.segs| && s1.store.segs[i].retired ==> s1.store.segs[i].score == 0
    ensures SelectedAt(s1) == Select(s1.store.segs, |s1.store.segs|, policy)
    ensures SelectedAt(s1) >= 0 ==> !s1.store.segs[SelectedAt(s1)].retired
  {
    hide StoreOk, ListsTimed, CacheOk, OutputsOk, Select;
    var best := Select(s1.store.segs, |s1.store.segs|, policy);
    if best >= 0 {
      UniqueSelected(s1.store.segs, s1.cand, best, |s1.store.segs|);
    }
  }

  lemma SupersededCount(s: State, m: State, at: nat)
    requires ShapeOk(s) && Levels(s.store) && at < |s.store.segs| && Superseded(s, m, at)
    ensures |m.store.segs| == |s.store.segs| <==> KeptBy(s, at) == []
  {
    hide ShapeOk, Successor, Dispensable, KeptBy, AllRecords;
    KeptExactly(s, at);
  }

  // ---------------------------------------------------------------- fresh statistics

  /** Statistics and candidate are those of the store as it is. */
  ghost predicate FreshStats(s: State)
    requires Levels(s.store)
  {
    && s.store.segs == Recalculated(AllRecords(s.store), s.zone, s.store.segs)
    && s.cand == CandidateOf(s.store.segs, Policy(s.ts, s.zoneFill))
  }

  /** Recalculating makes them so, and every recorded operation ends with that. */
  lemma RecalcFresh(s: State)
    requires Levels(s.store)
    ensures FreshStats(Recalc(s))
  {
    hide AllRecords, StatsOf, ScoreOfStats, CandidateOf;
    var all := AllRecords(s.store);
    RecalculatedSame(all, s.zone, s.store.segs);
    AllRecordsSame(s.store, Recalculated(all, s.zone, s.store.segs));
    var r := Recalc(s);
    assert AllRecords(r.store) == all;
    forall i | 0 <= i < |r.store.segs| ensures WithStats(all, s.zone, r.store.segs[i]) == r.store.segs[i] {
    }
    assert Recalculated(all, s.zone, r.store.segs) == r.store.segs;
  }

  lemma AppendFresh(s: State, level: nat, key: nat, pba: nat, zone: nat, valid: bool)
    requires Levels(s.store) && level < LEVELS && |s.plan.target| == LEVELS
    ensures FreshStats(Append(s, level, key, pba, zone, valid))
  {
    hide AppendRecord, CompactLevel, RunCompactions, Recalc, FreshStats, Capacity;
    var s1 := AppendRecord(s, level, key, pba, zone, valid);
    AppendRecordFields(s, level, key, pba, zone, valid);
    var full := |s1.store.unsorted[level]| >= Capacity(s1.plan, s1.threshold, level);
    RecalcFresh(RunCompactions(if full then CompactLevel(s1, level) else s1));
  }
}
