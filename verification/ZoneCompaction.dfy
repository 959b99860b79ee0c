/** Compaction of a full zone: its live blocks slide, in key order, into the bottom tracks of the zone
    and of the next one. */
module ZoneCompaction {
  import opened Types
  import opened Scan
  import opened ReadTree
  import opened Layout
  import opened Obsolescence
  import opened CopyJobs
  import opened Commit
  import opened Spec

  datatype Source = Skip | At(pba: nat)

  /** Where the payload of a key is: the newest record decides, and without one the zone map. */
  function SourceOfKey(s: State, key: nat): Source
    requires Levels(s.store)
  {
    var b := Fold(NONE, AllRecords(s.store), key);
    if b.found then (if b.valid then At(b.pba) else Skip)
    else if key in s.zone then At(BlockSector(ZoneOf(key), s.zone[key]))
    else Skip
  }

  /** Destination of the `i`-th live block. */
  function Destination(zone: nat, i: nat): nat {
    if i < BOTTOM_BLOCKS then BlockSector(zone, BottomBlock(i))
    else BlockSector(zone + 1, BottomBlock(i - BOTTOM_BLOCKS))
  }

  function KeyAt(zone: nat, offset: nat): nat { zone * TOTAL_ITEMS + offset }

  /** Disk, new records and outcome of the block copies. */
  datatype Slide = Slide(disk: Disk, moved: seq<Record>, ok: bool)

  predicate CopyFails(io: Io, source: nat, dest: nat) {
    source != dest && (io.NoDevice? || source in io.badReads || dest in io.badWrites)
  }

  function SlideStep(s: State, zone: nat, io: Io, p: Slide, key: nat): Slide
    requires Levels(s.store)
  {
    var source := SourceOfKey(s, key);
    if source.Skip? then p
    else
      var dest := Destination(zone, |p.moved|);
      if CopyFails(io, source.pba, dest) then p.(ok := false)
      else Slide(RunJob(p.disk, Job(source.pba, dest)),
                 p.moved + [Record(key, dest, zone, true, s.ts + |p.moved| + 1)], true)
  }

  function SlideTo(s: State, zone: nat, io: Io, n: nat): Slide
    requires Levels(s.store)
  {
    if n == 0 then Slide(s.disk, [], true)
    else
      var p := SlideTo(s, zone, io, n - 1);
      if p.ok then SlideStep(s, zone, io, p, KeyAt(zone, n - 1)) else p
  }

  predicate Refused(s: State, zone: nat) {
    zone + 1 >= |s.zoneFill| || s.zoneFill[zone] < TOTAL_ITEMS || s.zoneFill[zone + 1] != 0
  }

  function Ops(moved: seq<Record>): (ops: seq<LogEntry>)
    ensures |ops| == |moved| && forall i :: 0 <= i < |ops| ==> ops[i] == Op(moved[i].key, moved[i].valid, moved[i].pba)
  {
    seq(|moved|, i requires 0 <= i < |moved| => Op(moved[i].key, moved[i].valid, moved[i].pba))
  }

  function Gaps(n: nat): seq<LogEntry> { seq(n, _ => Gap) }

  function Cleared(map0: ZoneMap, zone: nat): ZoneMap {
    map k | k in map0 && ZoneOf(k) != zone :: map0[k]
  }

  /** The zone map after the first `n` moved keys were entered, relative to the source zone. */
  function Remapped(map0: ZoneMap, zone: nat, moved: seq<Record>, n: nat): ZoneMap
    requires n <= |moved|
  {
    if n == 0 then Cleared(map0, zone)
    else Remapped(map0, zone, moved, n - 1)[moved[n - 1].key := RelativeBlock(zone, moved[n - 1].pba)]
  }

  function RelativeBlock(zone: nat, pba: nat): nat {
    if pba < ZoneLba(zone) then 0 else (pba - ZoneLba(zone)) / BLOCK_SECTORS
  }

  function Cached(cache: Cache, moved: seq<Record>, n: nat): Cache
    requires n <= |moved|
  {
    if n == 0 then cache
    else Update(Cached(cache, moved, n - 1), moved[n - 1].key,
                CacheNode(moved[n - 1].pba, moved[n - 1].valid, moved[n - 1].ts))
  }

  function FillAfter(fill: seq<nat>, zone: nat, live: nat): (after: seq<nat>)
    requires zone + 1 < |fill|
    ensures |after| == |fill|
  {
    fill[zone := Min(live, BOTTOM_BLOCKS)][zone + 1 := if live > BOTTOM_BLOCKS then live - BOTTOM_BLOCKS else 0]
  }

  /** The segment of moved blocks is appended; zone map, zone fill and read tree follow. */
  function FinishZone(s: State, zone: nat, moved: seq<Record>): (r: State)
    requires Levels(s.store) && zone + 1 < |s.zoneFill|
    ensures Levels(r.store)
  {
    var s1 := AppendSegment(s.(ts := s.ts + |moved|, log := s.log + Ops(moved)), MAX_LEVEL, Bottom, moved);
    var live := |moved|;
    Recalc(s1.(zone := Remapped(s1.zone, zone, moved, live), cache := Cached(s1.cache, moved, live),
               zoneFill := FillAfter(s1.zoneFill, zone, live)))
  }

  /** imr_lsm_compact_zone_locked. A failure has used up timestamps and may have copied blocks, but
      changes neither records nor maps. */
  function CompactZone(s: State, zone: nat, io: Io): (r: State)
    requires Levels(s.store)
    ensures Levels(r.store)
  {
    if Refused(s, zone) then s
    else
      var slide := SlideTo(s, zone, io, TOTAL_ITEMS);
      if !slide.ok then s.(disk := slide.disk, ts := s.ts + |slide.moved|, log := s.log + Gaps(|slide.moved|))
      else if slide.moved == [] then s
      else FinishZone(s.(disk := slide.disk), zone, slide.moved)
  }

  // ---------------------------------------------------------------- what is moved

  /** Number of keys with a source among the first `n` of the zone. */
  function LiveCount(s: State, zone: nat, n: nat): (c: nat)
    requires Levels(s.store)
    ensures c <= n
  {
    if n == 0 then 0
    else LiveCount(s, zone, n - 1) + (if SourceOfKey(s, KeyAt(zone, n - 1)).At? then 1 else 0)
  }

  function SkippedCount(s: State, zone: nat, n: nat): nat
    requires Levels(s.store)
  {
    if n == 0 then 0
    else SkippedCount(s, zone, n - 1) + (if SourceOfKey(s, KeyAt(zone, n - 1)).Skip? then 1 else 0)
  }

  /** The live keys, each with the next destination block and the next timestamp. */
  lemma {:induction false} SlideMoves(s: State, zone: nat, io: Io, n: nat)
    requires Levels(s.store)
    ensures var p := SlideTo(s, zone, io, n);
            && (forall i :: 0 <= i < |p.moved| ==> MovedOk(s, zone, p.moved[i], i, n))
            && (p.ok ==> |p.moved| == LiveCount(s, zone, n))
  {
    hide SourceOfKey, RunJob, CopyFails, Destination;
    if n > 0 {
      SlideMoves(s, zone, io, n - 1);
      var p, q := SlideTo(s, zone, io, n - 1), SlideTo(s, zone, io, n);
      forall i | 0 <= i < |q.moved| ensures MovedOk(s, zone, q.moved[i], i, n) {
        if i < |p.moved| { assert MovedOk(s, zone, p.moved[i], i, n - 1); }
      }
    }
  }

  /** They come in key order. */
  lemma {:induction false} SlideAscends(s: State, zone: nat, io: Io, n: nat)
    requires Levels(s.store)
    ensures Ascending(SlideTo(s, zone, io, n).moved)
  {
    hide SourceOfKey, RunJob, CopyFails, Destination;
    if n > 0 {
      SlideAscends(s, zone, io, n - 1);
      SlideMoves(s, zone, io, n - 1);
      var p := SlideTo(s, zone, io, n - 1);
      assert forall i :: 0 <= i < |p.moved| ==> MovedOk(s, zone, p.moved[i], i, n - 1);
    }
  }

  /** None is left out. */
  lemma {:induction false} SlideComplete(s: State, zone: nat, io: Io, n: nat, o: nat)
    requires Levels(s.store) && SlideTo(s, zone, io, n).ok && o < n && SourceOfKey(s, KeyAt(zone, o)).At?
    ensures HasKey(SlideTo(s, zone, io, n).moved, KeyAt(zone, o))
  {
    hide SourceOfKey, RunJob, CopyFails, Destination;
    var p, q := SlideTo(s, zone, io, n - 1), SlideTo(s, zone, io, n);
    if o < n - 1 {
      SlideComplete(s, zone, io, n - 1, o);
      var i :| 0 <= i < |p.moved| && p.moved[i].key == KeyAt(zone, o);
      assert q.moved[i].key == KeyAt(zone, o);
    } else {
      assert q.moved[|p.moved|].key == KeyAt(zone, o);
    }
  }

  ghost predicate HasKey(moved: seq<Record>, key: nat) {
    exists i :: 0 <= i < |moved| && moved[i].key == key
  }

  /** The `i`-th moved record. */
  ghost predicate MovedOk(s: State, zone: nat, r: Record, i: nat, n: nat)
    requires Levels(s.store)
  {
    && r.valid && r.zone == zone && r.pba == Destination(zone, i) && r.ts == s.ts + i + 1
    && KeyAt(zone, 0) <= r.key < KeyAt(zone, n) && SourceOfKey(s, r.key).At?
  }

  lemma {:induction false} LiveAndSkipped(s: State, zone: nat, n: nat)
    requires Levels(s.store)
    ensures LiveCount(s, zone, n) + SkippedCount(s, zone, n) == n
  {
    hide SourceOfKey;
    if n > 0 { LiveAndSkipped(s, zone, n - 1); }
  }

  // ---------------------------------------------------------------- payload

  function SlideJobs(s: State, zone: nat, n: nat): (jobs: seq<Job>)
    requires Levels(s.store)
  {
    if n == 0 then []
    else
      var front, source := SlideJobs(s, zone, n - 1), SourceOfKey(s, KeyAt(zone, n - 1));
      if source.Skip? then front else front + [Job(source.pba, Destination(zone, |front|))]
  }

  /** What one more key does to the slide and its jobs. */
  lemma SlideAdvances(s: State, zone: nat, io: Io, n: nat)
    requires Levels(s.store) && n > 0 && SlideTo(s, zone, io, n).ok
    ensures var p, q := SlideTo(s, zone, io, n - 1), SlideTo(s, zone, io, n);
            var front, jobs, key := SlideJobs(s, zone, n - 1), SlideJobs(s, zone, n), KeyAt(zone, n - 1);
            && p.ok
            && if SourceOfKey(s, key).At? then
                 var source, dest := SourceOfKey(s, key).pba, Destination(zone, |p.moved|);
                 && q.disk == RunJob(p.disk, Job(source, dest))
                 && q.moved == p.moved + [Record(key, dest, zone, true, s.ts + |p.moved| + 1)]
                 && jobs == front + [Job(source, Destination(zone, |front|))]
               else q == p && jobs == front
  {
    hide SourceOfKey, RunJob, Destination, CopyFails;
  }

  lemma {:induction false} SlideRuns(s: State, zone: nat, io: Io, n: nat)
    requires Levels(s.store) && SlideTo(s, zone, io, n).ok
    ensures var p, jobs := SlideTo(s, zone, io, n), SlideJobs(s, zone, n);
            && p.disk == RunJobs(s.disk, jobs) && |p.moved| == |jobs| <= n
            && (forall i :: 0 <= i < |jobs| ==> JobMoves(s, zone, jobs[i], p.moved[i], i))
  {
    hide SourceOfKey, RunJob, Destination, JobMoves, SlideTo, SlideJobs;
    if n == 0 {
      NoSlide(s, zone, io);
    } else {
      SlideAdvances(s, zone, io, n);
      SlideRuns(s, zone, io, n - 1);
      var front, jobs := SlideJobs(s, zone, n - 1), SlideJobs(s, zone, n);
      if SourceOfKey(s, KeyAt(zone, n - 1)).At? {
        assert jobs[..|jobs| - 1] == front;
        JobMovesNext(s, zone, SlideTo(s, zone, io, n - 1).moved, KeyAt(zone, n - 1));
      }
    }
  }

  lemma NoSlide(s: State, zone: nat, io: Io)
    requires Levels(s.store)
    ensures SlideTo(s, zone, io, 0) == Slide(s.disk, [], true) && SlideJobs(s, zone, 0) == []
    ensures RunJobs(s.disk, []) == s.disk
  {
  }

  /** The job that goes with the `i`-th moved record. */
  ghost predicate JobMoves(s: State, zone: nat, job: Job, r: Record, i: nat)
    requires Levels(s.store)
  {
    SourceOfKey(s, r.key) == At(job.source) && job.target == r.pba == Destination(zone, i)
  }

  lemma JobMovesNext(s: State, zone: nat, moved: seq<Record>, key: nat)
    requires Levels(s.store) && SourceOfKey(s, key).At?
    ensures var dest := Destination(zone, |moved|);
            JobMoves(s, zone, Job(SourceOfKey(s, key).pba, dest), Record(key, dest, zone, true, s.ts + |moved| + 1),
                     |moved|)
  {
  }

  /** When the zone handed out the block at this sector. */
  function RankOf(zone: nat, pba: nat): nat { Index2(RelativeBlock(zone, pba)) }

  /** The layout zone compaction is made for: the live blocks of the zone lie in the zone, and their
      allocation order (bottom tracks, then top tracks) agrees with key order. */
  ghost predicate InAllocationOrder(s: State, zone: nat)
    requires Levels(s.store)
  {
    && (forall o :: 0 <= o < TOTAL_ITEMS && SourceOfKey(s, KeyAt(zone, o)).At? ==>
          InZone(zone, SourceOfKey(s, KeyAt(zone, o)).pba))
    && (forall o, p ::
          0 <= o < p < TOTAL_ITEMS && SourceOfKey(s, KeyAt(zone, o)).At? && SourceOfKey(s, KeyAt(zone, p)).At? ==>
          RankOf(zone, SourceOfKey(s, KeyAt(zone, o)).pba) < RankOf(zone, SourceOfKey(s, KeyAt(zone, p)).pba))
  }

  ghost predicate InZone(zone: nat, pba: nat) {
    exists block :: 0 <= block < TOTAL_ITEMS && pba == BlockSector(zone, block)
  }

  /** Seeding a whole zone gives that layout: key offset and rank coincide. */
  lemma SeededRank(zone: nat, offset: nat)
    requires offset < TOTAL_ITEMS
    ensures InZone(zone, BlockSector(zone, SeedBlock(offset)))
    ensures RankOf(zone, BlockSector(zone, SeedBlock(offset))) == offset
  {
    Slot2Bijection(offset);
    assert SeedBlock(offset) < TOTAL_ITEMS;
  }

  lemma {:induction false} SourcesRanked(s: State, zone: nat, n: nat)
    requires Levels(s.store) && InAllocationOrder(s, zone) && n <= TOTAL_ITEMS
    ensures var jobs := SlideJobs(s, zone, n);
            && |jobs| <= n
            && (forall i :: 0 <= i < |jobs| ==> InZone(zone, jobs[i].source) && RankOf(zone, jobs[i].source) >= i)
            && (forall i :: 0 <= i < |jobs| ==> jobs[i].target == Destination(zone, i))
            && (jobs != [] ==> exists o :: 0 <= o < n && SourceOfKey(s, KeyAt(zone, o)) == At(jobs[|jobs| - 1].source))
  {
    hide SourceOfKey, RankOf, Destination, InZone;
    if n > 0 {
      SourcesRanked(s, zone, n - 1);
      var front, jobs := SlideJobs(s, zone, n - 1), SlideJobs(s, zone, n);
      var source := SourceOfKey(s, KeyAt(zone, n - 1));
      if source.At? {
        if front != [] {
          var o :| 0 <= o < n - 1 && SourceOfKey(s, KeyAt(zone, o)) == At(front[|front| - 1].source);
        }
        assert jobs[|jobs| - 1].source == source.pba;
      } else if jobs != [] {
        var o :| 0 <= o < n - 1 && SourceOfKey(s, KeyAt(zone, o)) == At(front[|front| - 1].source);
      }
    }
  }

  /** A destination is never a block that a later copy still has to read. */
  lemma TargetBeforeSource(zone: nat, i: nat, source: nat)
    requires i < TOTAL_ITEMS && InZone(zone, source) && RankOf(zone, source) > i
    ensures Destination(zone, i) != source
  {
    var block :| 0 <= block < TOTAL_ITEMS && source == BlockSector(zone, block);
    assert RelativeBlock(zone, source) == block;
    if i < BOTTOM_BLOCKS {
      BottomOrder(i, i);
      Slot2Bijection(i);
      assert RelativeBlock(zone, Destination(zone, i)) == BottomBlock(i);
    }
  }

  lemma TargetsDistinct(zone: nat, i: nat, j: nat)
    requires i < j < TOTAL_ITEMS
    ensures Destination(zone, i) != Destination(zone, j)
  {
    if j < BOTTOM_BLOCKS {
      BottomOrder(i, j);
    } else if i >= BOTTOM_BLOCKS {
      BottomOrder(i - BOTTOM_BLOCKS, j - BOTTOM_BLOCKS);
    } else {
      BottomOrder(i, i);
    }
  }

  lemma SlideIsSafe(s: State, zone: nat)
    requires Levels(s.store) && InAllocationOrder(s, zone)
    ensures Safe(SlideJobs(s, zone, TOTAL_ITEMS))
  {
    hide SourceOfKey, RankOf, Destination, InZone, SlideJobs, InAllocationOrder;
    var jobs := SlideJobs(s, zone, TOTAL_ITEMS);
    SourcesRanked(s, zone, TOTAL_ITEMS);
    forall i, j | 0 <= i < j < |jobs| ensures jobs[i].target != jobs[j].target && jobs[i].target != jobs[j].source {
      TargetsDistinct(zone, i, j);
      TargetBeforeSource(zone, i, jobs[j].source);
    }
  }

  /** Sliding in place loses nothing: after the copies every moved key's new block holds what its
      source held before the first copy. */
  lemma SlideDelivers(s: State, zone: nat, io: Io, i: nat)
    requires Levels(s.store) && InAllocationOrder(s, zone) && SlideTo(s, zone, io, TOTAL_ITEMS).ok
    requires i < |SlideTo(s, zone, io, TOTAL_ITEMS).moved|
    ensures var p := SlideTo(s, zone, io, TOTAL_ITEMS);
            && SourceOfKey(s, p.moved[i].key).At?
            && ReadBlock(p.disk, p.moved[i].pba) == ReadBlock(s.disk, SourceOfKey(s, p.moved[i].key).pba)
  {
    hide SourceOfKey, SlideTo, SlideJobs, Safe, InAllocationOrder, RunJobs;
    SlideRuns(s, zone, io, TOTAL_ITEMS);
    SlideIsSafe(s, zone);
    RunJobsDelivers(s.disk, SlideJobs(s, zone, TOTAL_ITEMS), i);
  }
}
