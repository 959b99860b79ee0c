/** A run after which a copying commit makes a key read another key's payload: a segment's output is the
    block that a later write is given. */
module Collision {
  import opened Types
  import opened Tables
  import opened BloomFilter
  import opened Builder
  import opened Scan
  import opened DynamicLevels
  import opened ReadTree
  import opened Layout
  import opened Placement
  import opened CopyJobs
  import opened Commit
  import opened Spec
  import opened Outputs
  import opened Shape
  import opened History
  import opened SoundSteps
  import opened Evolution
  import opened CommitResult
  import opened Integrity
  import opened FirstRound
  import opened Runs

  /** Segment outputs are placed without regard to the blocks that writes were given: with no other
      output around, a segment of one early key is sent to the very block that the zone's first
      second-phase write is given. */
  lemma OutputMeetsAllocatedBlock(zone: nat, offset: nat)
    requires offset < BOTTOM_TRACK_SIZE && zone < MIXED_ZONE
    ensures var key := zone * TOTAL_ITEMS + offset;
            FirstFit([], WindowOf(zone, key, key), BLOCK_SECTORS) ==
            Range(BlockSector(zone, Slot2(BOTTOM_BLOCKS)), BlockSector(zone, Slot2(BOTTOM_BLOCKS)) + BLOCK_SECTORS - 1)
  {
    var key := zone * TOTAL_ITEMS + offset;
    var w := WindowOf(zone, key, key);
    assert w.Range? && w.first == BlockSector(zone, 0) &&
           w.last == BlockSector(zone, TOP_TRACK_SIZE - 1) + BLOCK_SECTORS - 1;
    assert Fits([], w, BLOCK_SECTORS, w.first);
  }

  const FIRST_BLOCK: nat := BlockSector(0, TOP_TRACK_SIZE)

  // ---------------------------------------------------------------- the first segment

  /** The first segment is active, holds one live record of the first bottom block, and its output is the
      first sector of the device. */
  ghost predicate MeetsFirstTop(s: State) {
    && s.store.segs != [] && !s.store.segs[0].retired && |s.store.segs[0].table| == 1
    && s.store.segs[0].table[0].rec.valid && s.store.segs[0].table[0].rec.pba == FIRST_BLOCK
    && s.store.segs[0].table[0].out.mapped && s.store.segs[0].table[0].out.outputPba == 0
    && Untouched(s.store.segs[0].table[0])
  }

  lemma GrownMeets(s: State, r: State)
    requires MeetsFirstTop(s) && Grown(s.store.segs, r.store.segs)
    ensures MeetsFirstTop(r)
  {
    assert SameSegment(r.store.segs[0], s.store.segs[0]);
  }

  function FirstRecord(): Record { Record(0, FIRST_BLOCK, 0, true, 1) }

  /** The segment made of the first write. */
  lemma FirstSegment(bitsPerKey: nat)
    ensures var e := NewSegment([], 0, MAX_LEVEL, Bottom, [FirstRecord()], bitsPerKey).table;
            |e| == 1 && e[0] == Entry(FirstRecord(), UNMAPPED.(outputPba := 0, mapped := true))
  {
    hide BuildFilter, FirstFit, WindowOf;
    var recs := [FirstRecord()];
    UpsertAllAscending(recs);
    assert recs[..0] == [];
    assert Summarize([]) == Summary(0, 0, 0, 0, 0, 0);
    assert Summarize(recs) == Summary(1, 0, 0, 0, 1, 1);
    OutputMeetsAllocatedBlock(0, 0);
    assert FirstFit([], WindowOf(0, 0, 0), BLOCK_SECTORS) == Range(0, BLOCK_SECTORS - 1);
    var table := Fresh(recs);
    assert LiveBefore(table, 0) == 0;
  }

  /** An empty engine with threshold 1. */
  ghost predicate EmptyAtOne(s: State) {
    && Levels(s.store) && s.store.segs == [] && s.nextId == 0 && s.ts == 0 && s.threshold == 1
    && forall l :: 0 <= l < LEVELS ==> s.store.unsorted[l] == [] && s.store.sorted[l] == []
  }

  lemma EmptyPlan(s: State)
    requires EmptyAtOne(s)
    ensures var p := Calc(s).plan; p.base == MAX_LEVEL && p.active == MAX_LEVEL && Capacity(p, 1, MAX_LEVEL) == 1
  {
    var totals := Totals(s.store);
    assert forall l :: 0 <= l < LEVELS ==> totals[l] == 0;
    FirstNonEmptyFacts(totals, LEVELS);
  }

  lemma FirstAppend(s: State)
    requires ShapeOk(s) && EmptyAtOne(s)
    ensures var s1 := Ready(s);
            && |s1.plan.target| == LEVELS && Min(s1.plan.active, MAX_LEVEL) == MAX_LEVEL
            && MeetsFirstTop(Append(s1, MAX_LEVEL, 0, FIRST_BLOCK, 0, true))
  {
    hide ShapeOk, Calc, CompactLevel, RunCompactions, Recalc, Update, Capacity, Evolves, MeetsFirstTop;
    EmptyPlan(s);
    CalcKeeps(s);
    ReadyShape(s);
    var s1 := Ready(s);
    assert s1 == Calc(s);
    ShapeLevels(s1);
    var t := AppendRecord(s1, MAX_LEVEL, 0, FIRST_BLOCK, 0, true);
    AppendRecordShape(s1, MAX_LEVEL, 0, FIRST_BLOCK, 0, true);
    FirstMove(s1, t);
    var u := CompactLevel(t, MAX_LEVEL);
    CompactLevelShape(t, MAX_LEVEL);
    AfterMove(u);
    GrownMeets(u, Recalc(RunCompactions(u)));
  }

  lemma FirstMove(s1: State, t: State)
    requires ShapeOk(s1) && EmptyAtOne(s1) && t == AppendRecord(s1, MAX_LEVEL, 0, FIRST_BLOCK, 0, true)
    ensures t.store.unsorted[MAX_LEVEL] == [FirstRecord()]
    ensures MeetsFirstTop(CompactLevel(t, MAX_LEVEL))
  {
    hide ShapeOk, Update, NewSegment, MoveLevel, MoveLists, SameButStats;
    assert t.store.unsorted[MAX_LEVEL] == [FirstRecord()] + [];
    assert Moved(t.store, MAX_LEVEL, MAX_LEVEL) == [FirstRecord()];
    MoveStoreSame(t, MAX_LEVEL, MAX_LEVEL);
    FirstSegment(t.bitsPerKey);
    var r := MoveLevel(t, MAX_LEVEL, MAX_LEVEL);
    assert CompactLevel(t, MAX_LEVEL) == r;
    var seg := NewSegment([], 0, MAX_LEVEL, Bottom, [FirstRecord()], t.bitsPerKey);
    assert t.store.segs == [] && t.nextId == 0 && t.store.segs + [seg] == [seg];
    SegmentsSame(r.store.segs, [seg]);
    NewActive(t.bitsPerKey);
  }

  lemma SegmentsSame(a: seq<Segment>, b: seq<Segment>)
    requires SameButStats(a, b) && |b| == 1
    ensures |a| == 1 && SameSegment(a[0], b[0])
  {
  }

  lemma NewActive(bitsPerKey: nat)
    ensures !NewSegment([], 0, MAX_LEVEL, Bottom, [FirstRecord()], bitsPerKey).retired
  {
    hide BuildFilter, FirstFit, WindowOf, Summarize, UpsertAll, MapEntries;
  }

  lemma AfterMove(u: State)
    requires ShapeOk(u)
    ensures Levels(u.store) && Grown(u.store.segs, Recalc(RunCompactions(u)).store.segs)
  {
    hide ShapeOk, Ready, Calc, FlushBottom, Rounds, Recalc, NothingNew, Grown;
    ShapeLevels(u);
    ReadyShape(u);
    ReadyEvolves(u);
    var s3 := FlushBottom(Calc(u));
    assert Ready(u) == s3 by { ReadyIs(u); }
    RoundsShape(s3, LEVELS);
    RoundsEvolve(s3, LEVELS);
    RecalcEvolves(RunCompactions(u));
    EvolvesTrans(u.store, s3.store, RunCompactions(u).store);
    EvolvesTrans(u.store, RunCompactions(u).store, Recalc(RunCompactions(u)).store);
  }

  lemma ReadyIs(u: State)
    requires Levels(u.store)
    ensures Ready(u) == FlushBottom(Calc(u))
  {
  }

  // ---------------------------------------------------------------- filling the bottom tracks

  /** Threshold 1, then `n` times a write and a delete of key 0: each write takes the zone's next block. */
  function Filling(n: nat, p: nat): seq<Step> {
    if n == 0 then [DoThreshold(1)] else Filling(n - 1, p) + [DoWrite(0, p)] + [DoDelete(0)]
  }

  lemma RunSnoc(zones: nat, steps: seq<Step>, step: Step)
    ensures Run(zones, steps + [step]) == Apply(Run(zones, steps), step)
    ensures Payloads(zones, steps + [step]) == StepPayloads(zones, Payloads(zones, steps), step)
  {
    assert (steps + [step])[..|steps|] == steps;
  }

  /** After `n` rounds: `n` blocks are taken, none is mapped, and the first segment stands. */
  ghost predicate Filled(s: State, n: nat, p: nat) {
    && s.commits.NoCommits? && |s.zoneFill| == 1 && s.zoneFill[0] == n && 0 !in s.zone
    && MeetsFirstTop(s) && ReadBlock(s.disk, FIRST_BLOCK) == p
  }

  lemma WriteGrows(s: State, key: nat, payload: nat)
    requires Sound(s) && ZoneOf(key) < |s.zoneFill|
    ensures Levels(s.store) && Grown(s.store.segs, Write(s, key, payload).store.segs)
  {
    hide Sound, InsertRecord, ZoneOf, BlockFor, BlockSector, Slot2, Grown;
    OutsideSound(s, MapBlock(s, key));
    SoundLevels(MapBlock(s, key));
    InsertGains(MapBlock(s, key), 0, key, BlockSector(ZoneOf(key), BlockFor(s, key)), ZoneOf(key));
  }

  lemma DeleteGrows(s: State, key: nat)
    requires Sound(s) && ZoneOf(key) < |s.zoneFill|
    ensures Levels(s.store) && Grown(s.store.segs, Delete(s, key).store.segs)
  {
    hide Sound, DeleteRecord, ZoneOf, Grown;
    SoundLevels(s);
    DeleteGains(s, key);
  }

  lemma FillMore(s: State, n: nat, p: nat)
    requires Sound(s) && Levels(s.store) && Filled(s, n, p)
    ensures Filled(Delete(Write(s, 0, p), 0), n + 1, p)
  {
    hide Sound, Write, Delete, Slot2, MeetsFirstTop, Grown, WriteBlock;
    WriteStep(s, 0, p);
    WriteGrows(s, 0, p);
    var w := Write(s, 0, p);
    GrownMeets(s, w);
    DeleteStep(w, 0);
    DeleteGrows(w, 0);
    GrownMeets(w, Delete(w, 0));
    Rewritten(s.disk, BlockSector(0, BlockFor(s, 0)), p);
  }

  lemma Rewritten(d: Disk, at: nat, p: nat)
    requires ReadBlock(d, FIRST_BLOCK) == p
    ensures ReadBlock(WriteBlock(d, at, p), FIRST_BLOCK) == p
  {
  }

  lemma FirstRoundOfFilling(p: nat)
    ensures Filled(Run(1, Filling(1, p)), 1, p)
  {
    hide Sound, Write, Delete, MeetsFirstTop, Grown, Run, Filling;
    var s := Run(1, Filling(0, p));
    FillingSteps(1, p);
    RunSound(1, Filling(0, p));
    AtOne(p);
    WriteStep(s, 0, p);
    FirstWrite(s, p);
    var w := Write(s, 0, p);
    DeleteStep(w, 0);
    DeleteGrows(w, 0);
    GrownMeets(w, Delete(w, 0));
    Slot2Bijection(0);
  }

  lemma FillingSteps(n: nat, p: nat)
    requires n > 0
    ensures Run(1, Filling(n, p)) == Delete(Write(Run(1, Filling(n - 1, p)), 0, p), 0)
  {
    hide Run, Write, Delete;
    RunSnoc(1, Filling(n - 1, p), DoWrite(0, p));
    RunSnoc(1, Filling(n - 1, p) + [DoWrite(0, p)], DoDelete(0));
  }

  lemma AtOne(p: nat)
    ensures var s := Run(1, Filling(0, p));
            EmptyAtOne(s) && s.commits.NoCommits? && s.zoneFill == [0] && s.zone == map[] && s.disk == map[]
  {
    hide Plan;
    assert [DoThreshold(1)] == [] + [DoThreshold(1)];
    RunSnoc(1, [], DoThreshold(1));
    assert Run(1, Filling(0, p)) == SetThreshold(Init(1), 1);
    assert Init(1).zoneFill == [0];
  }

  lemma FirstWrite(s: State, p: nat)
    requires Sound(s) && EmptyAtOne(s) && s.zoneFill == [0] && s.zone == map[]
    ensures MeetsFirstTop(Write(s, 0, p))
  {
    hide Sound, Append, Ready, MeetsFirstTop, EmptyAtOne;
    var t := MapBlock(s, 0);
    assert BlockFor(s, 0) == Slot2(0) == TOP_TRACK_SIZE;
    OutsideSound(s, t);
    SoundLevels(t);
    SameEmpty(s, t);
    FirstAppend(t);
    var r := InsertRecord(t, 0, 0, FIRST_BLOCK, 0);
    SameMeets(r, Write(s, 0, p));
  }

  lemma SameEmpty(s: State, t: State)
    requires EmptyAtOne(s) && t == s.(zone := t.zone, zoneFill := t.zoneFill)
    ensures EmptyAtOne(t)
  {
  }

  lemma SameMeets(s: State, r: State)
    requires MeetsFirstTop(s) && r.store == s.store
    ensures MeetsFirstTop(r)
  {
  }

  lemma {:induction false} FillingFills(n: nat, p: nat)
    requires n > 0
    ensures Filled(Run(1, Filling(n, p)), n, p)
  {
    hide Run, Filled, Write, Delete, Sound;
    if n == 1 {
      FirstRoundOfFilling(p);
    } else {
      FillingFills(n - 1, p);
      FillingSteps(n, p);
      RunSound(1, Filling(n - 1, p));
      FillMore(Run(1, Filling(n - 1, p)), n - 1, p);
    }
  }

  // ---------------------------------------------------------------- the commit

  const NO_FAULTS: Io := Device({}, {})

  lemma {:induction false} TableCopiesSucceed(d: Disk, table: seq<Entry>, n: nat)
    requires n <= |table|
    ensures CopyEntries(d, table, NO_FAULTS, n).ok
  {
    if n > 0 { TableCopiesSucceed(d, table, n - 1); }
  }

  lemma {:induction false} AllCopiesSucceed(d: Disk, segs: seq<Segment>, n: nat)
    requires n <= |segs|
    ensures CopySegments(d, segs, NO_FAULTS, n).ok
  {
    hide CopyEntries;
    if n > 0 {
      AllCopiesSucceed(d, segs, n - 1);
      TableCopiesSucceed(CopySegments(d, segs, NO_FAULTS, n - 1).disk, segs[n - 1].table, |segs[n - 1].table|);
    }
  }

  lemma {:induction false} FirstJob(segs: seq<Segment>, n: nat)
    requires 0 < n <= |segs| && !segs[0].retired && |segs[0].table| == 1 && Pending(segs[0].table[0])
    ensures SegmentJobs(segs, n) != [] && SegmentJobs(segs, n)[0] == JobOf(segs[0].table[0])
  {
    hide Pending, JobOf;
    if n == 1 {
      assert TableJobs(segs[0].table, 0) == [] && SegmentJobs(segs, 0) == [];
    } else {
      FirstJob(segs, n - 1);
    }
  }

  /** The round begins by copying the first bottom block onto the first sector. */
  lemma FirstCopy(s: State)
    requires Sound(s) && MeetsFirstTop(s)
    ensures RoundJobs(s) != [] && RoundJobs(s)[0] == Job(FIRST_BLOCK, 0)
  {
    hide Sound, SegmentJobs;
    var segs := PlanAll(s.store.segs);
    assert segs[0] == PlanSegment(s.store.segs[0]);
    assert segs[0].table[0] == PlanEntry(s.store.segs[0].table[0]);
    PendingSource(s, 0, 0);
    FirstJob(segs, |segs|);
  }

  /** The bottom tracks of the zone are filled, then key 1 is written. */
  function Colliding(p: nat, q: nat): seq<Step> { Filling(BOTTOM_BLOCKS, p) + [DoWrite(1, q)] }

  lemma CollidingState(p: nat, q: nat)
    ensures var s := Run(1, Colliding(p, q));
            && s.commits.NoCommits? && MeetsFirstTop(s) && Live(s.log, 1) && WrittenTo(s.log, 1) == 0
            && ReadBlock(s.disk, FIRST_BLOCK) == p && ReadBlock(s.disk, 0) == q
  {
    hide Sound, Run, Filling, Write, MeetsFirstTop, Grown, Newest, WriteBlock;
    var front := Filling(BOTTOM_BLOCKS, p);
    var f := Run(1, front);
    FillingFills(BOTTOM_BLOCKS, p);
    RunSound(1, front);
    RunSnoc(1, front, DoWrite(1, q));
    KeyOneUnmapped(p, BOTTOM_BLOCKS);
    assert BlockFor(f, 1) == Slot2(BOTTOM_BLOCKS) == 0 && BlockSector(ZoneOf(1), 0) == 0;
    WriteStep(f, 1, q);
    WriteGrows(f, 1, q);
    GrownMeets(f, Write(f, 1, q));
    LiveAppend(f.log, 1, true, 0, 1);
    NewestAppend(f.log, Op(1, true, 0), 1);
    WrittenBlocks(f.disk, q);
  }

  lemma WrittenBlocks(d: Disk, q: nat)
    ensures ReadBlock(WriteBlock(d, 0, q), 0) == q &&
            ReadBlock(WriteBlock(d, 0, q), FIRST_BLOCK) == ReadBlock(d, FIRST_BLOCK)
  {
  }

  lemma {:induction false} OnlyKeyZero(n: nat, p: nat)
    ensures LiveKeys(1, Filling(n, p)) == {}
  {
    if n == 0 {
      assert [DoThreshold(1)][..0] == [];
    } else {
      OnlyKeyZero(n - 1, p);
      var front := Filling(n - 1, p);
      assert (front + [DoWrite(0, p)] + [DoDelete(0)])[..|front| + 1] == front + [DoWrite(0, p)];
      assert (front + [DoWrite(0, p)])[..|front|] == front;
    }
  }

  lemma KeyOneUnmapped(p: nat, n: nat)
    ensures 1 !in Run(1, Filling(n, p)).zone
  {
    hide Sound, Run, Filling, Live;
    OnlyKeyZero(n, p);
    RunSound(1, Filling(n, p));
  }

  /** After 36352 writes of key 0 and one of key 1 on an empty device, a copying commit that meets no fault
      makes key 1 read what was written to key 0. */
  lemma CommitReturnsOtherData(p: nat, q: nat)
    ensures var steps := Colliding(p, q) + [DoCommit(3, NO_FAULTS)];
            var r := DeviceRead(Run(1, steps), 1);
            r.Valid? && ReadBlock(Run(1, steps).disk, r.pba) == p
            && 1 in Payloads(1, steps) && Payloads(1, steps)[1] == q
  {
    hide Sound, Run, Filling, Colliding, MeetsFirstTop, Newest, Live, WrittenTo, CommitOutput, SegmentJobs, RunJobs,
      Origin, ReadResult, RoundJobs, Exposed, CopiesSucceed, LiveKeys, Payloads, Logged;
    var front := Colliding(p, q);
    var s := Run(1, front);
    CollidingState(p, q);
    RunSound(1, front);
    RunSnoc(1, front, DoCommit(3, NO_FAULTS));
    assert CopiesSucceed(s, NO_FAULTS) by { Succeeding(s); }
    FirstCopy(s);
    ReadOrigin(s, NO_FAULTS, 1);
    JobsDistinct(s, NO_FAULTS);
    var jobs, n := RoundJobs(s), Exposed(s, NO_FAULTS, 1);
    assert n > 0 by { ExposedSome(s); }
    assert jobs[..n][0] == jobs[0];
    OriginOfTarget(jobs[..n], 0);
    assert Origin(jobs[..n][..0], FIRST_BLOCK) == FIRST_BLOCK by { OriginOfNothing(jobs[..n][..0]); }
    RoundIgnoresDisk(s, NO_FAULTS, 1, s.disk);
    assert s.(disk := s.disk) == s;
    RunJobsOrigin(s.disk, jobs, ReadResult(CommitOutput(s, 3, NO_FAULTS), 1).pba);
    FilledPayloads(p, q);
  }

  lemma Succeeding(s: State)
    ensures CopiesSucceed(s, NO_FAULTS)
  {
    AllCopiesSucceed(s.disk, PlanAll(s.store.segs), |PlanAll(s.store.segs)|);
  }

  lemma OriginOfNothing(jobs: seq<Job>)
    requires jobs == []
    ensures Origin(jobs, FIRST_BLOCK) == FIRST_BLOCK
  {
  }

  /** The first copy is among those key 1 is exposed to: it is not key 1's own. */
  lemma ExposedSome(s: State)
    requires Sound(s) && Levels(s.store) && s.commits.NoCommits? && Live(s.log, 1) && CopiesSucceed(s, NO_FAULTS)
    requires RoundJobs(s) != [] && RoundJobs(s)[0] == Job(FIRST_BLOCK, 0) && WrittenTo(s.log, 1) == 0
    ensures Exposed(s, NO_FAULTS, 1) > 0
  {
    hide Sound, RoundJobs, Live, WrittenTo, CommitOutput, CopiesSucceed, ReadResult;
    ReadAfterRound(s, NO_FAULTS, 1);
  }

  lemma FilledPayloads(p: nat, q: nat)
    ensures var steps := Colliding(p, q) + [DoCommit(3, NO_FAULTS)];
            1 in Payloads(1, steps) && Payloads(1, steps)[1] == q
  {
    hide Run, Filling;
    RunSnoc(1, Filling(BOTTOM_BLOCKS, p), DoWrite(1, q));
    RunSnoc(1, Colliding(p, q), DoCommit(3, NO_FAULTS));
  }
}
