/** What a zone compaction comes to: the layout it leaves, and when it spoils no payload. */
module ZoneResult {
  import opened Types
  import opened Scan
  import opened ReadTree
  import opened Layout
  import opened CopyJobs
  import opened Commit
  import opened Spec
  import opened Shape
  import opened History
  import opened SoundSteps
  import opened ZoneCompaction
  import opened ZoneSound
  import opened Runs
  import opened Evolution
  import opened Holdings

  /** The zone is accepted, every copy succeeds and something is live. */
  predicate Succeeds(s: State, zone: nat, io: Io)
    requires Levels(s.store)
  {
    !Refused(s, zone) && SlideTo(s, zone, io, TOTAL_ITEMS).ok && SlideTo(s, zone, io, TOTAL_ITEMS).moved != []
  }

  // ---------------------------------------------------------------- the layout it leaves

  /** Destinations ascend, block after block. */
  lemma DestinationsAscend(zone: nat, i: nat, j: nat)
    requires i < j < TOTAL_ITEMS
    ensures Destination(zone, i) + BLOCK_SECTORS <= Destination(zone, j)
  {
    BottomOrder(if i < BOTTOM_BLOCKS then i else i - BOTTOM_BLOCKS, 0);
    if i < BOTTOM_BLOCKS && j < BOTTOM_BLOCKS {
      BottomAscends(i, j);
    } else if i >= BOTTOM_BLOCKS {
      BottomAscends(i - BOTTOM_BLOCKS, j - BOTTOM_BLOCKS);
    }
  }

  lemma BottomAscends(a: nat, b: nat)
    requires a < b
    ensures BottomBlock(a) < BottomBlock(b)
  {
  }

  /** The zone map's block number, counted from the source zone even where the block lies in the next
      one, leads back to the destination. */
  lemma MappedDestination(zone: nat, i: nat)
    requires i < TOTAL_ITEMS
    ensures BlockSector(zone, RelativeBlock(zone, Destination(zone, i))) == Destination(zone, i)
  {
    hide BottomBlock;
    if i < BOTTOM_BLOCKS {
      Relative(zone, BottomBlock(i));
    } else {
      Relative(zone, TOTAL_ITEMS + BottomBlock(i - BOTTOM_BLOCKS));
    }
  }

  lemma Relative(zone: nat, block: nat)
    ensures RelativeBlock(zone, ZoneLba(zone) + block * BLOCK_SECTORS) == block
  {
  }

  lemma AfterCompaction(s: State, zone: nat, io: Io)
    requires Levels(s.store) && Succeeds(s, zone, io)
    ensures var r, slide := CompactZone(s, zone, io), SlideTo(s, zone, io, TOTAL_ITEMS);
            && r.log == s.log + Ops(slide.moved) && r.disk == slide.disk && r.commits == s.commits
            && r.zone == Remapped(s.zone, zone, slide.moved, |slide.moved|)
            && r.zoneFill == FillAfter(s.zoneFill, zone, |slide.moved|)
  {
    hide SlideTo, FinishZone, Finished, Remapped, FillAfter, SameButStats, NewSegment;
    var slide := SlideTo(s, zone, io, TOTAL_ITEMS);
    FinishedIsFinishZone(s.(disk := slide.disk), zone, slide.moved);
    FinishedLog(s.(disk := slide.disk), slide.moved);
    FinishedFields(s.(disk := slide.disk), slide.moved);
  }

  /** Live and skipped keys make up the zone; the live ones map, in key order and one block each, to
      ascending bottom blocks of the zone and the next one; the two fills add up; no other zone's keys or
      fills change. */
  lemma CompactZoneResult(s: State, zone: nat, io: Io)
    requires Sound(s) && ZoneTrue(s) && Levels(s.store) && Succeeds(s, zone, io)
    ensures var r, moved := CompactZone(s, zone, io), SlideTo(s, zone, io, TOTAL_ITEMS).moved;
            && |moved| + SkippedCount(s, zone, TOTAL_ITEMS) == TOTAL_ITEMS
            && |r.zoneFill| == |s.zoneFill| && r.zoneFill[zone] + r.zoneFill[zone + 1] == |moved|
            && r.zoneFill[zone] <= BOTTOM_BLOCKS && r.zoneFill[zone + 1] <= BOTTOM_BLOCKS
            && (forall z :: 0 <= z < |s.zoneFill| && z != zone && z != zone + 1 ==> r.zoneFill[z] == s.zoneFill[z])
            && (forall key :: HasKey(moved, key) <==> ZoneOf(key) == zone && Live(s.log, key))
            && (forall i :: 0 <= i < |moved| ==>
                  moved[i].key in r.zone && BlockSector(zone, r.zone[moved[i].key]) == Destination(zone, i))
            && (forall i, j :: 0 <= i < j < |moved| ==>
                  moved[i].key < moved[j].key && Destination(zone, i) + BLOCK_SECTORS <= Destination(zone, j))
            && (forall key :: key in s.zone && ZoneOf(key) != zone ==> key in r.zone && r.zone[key] == s.zone[key])
            && (forall key :: key in r.zone <==> key in s.zone)
  {
    hide SlideTo, CompactZone, Sound, Destination, RelativeBlock, BlockSector, Live, Remapped, SourceOfKey, LiveCount,
      SkippedCount, ZoneOf, HasKey;
    var r, moved := CompactZone(s, zone, io), SlideTo(s, zone, io, TOTAL_ITEMS).moved;
    AfterCompaction(s, zone, io);
    CompactZoneStep(s, zone, io);
    SlideMoves(s, zone, io, TOTAL_ITEMS);
    SlideAscends(s, zone, io, TOTAL_ITEMS);
    LiveAndSkipped(s, zone, TOTAL_ITEMS);
    MovedInZone(s, zone, io);
    forall key ensures HasKey(moved, key) <==> ZoneOf(key) == zone && Live(s.log, key) {
      MovedAreLive(s, zone, io, key);
    }
    forall i | 0 <= i < |moved|
      ensures moved[i].key in r.zone && BlockSector(zone, r.zone[moved[i].key]) == Destination(zone, i)
    {
      assert MovedOk(s, zone, moved[i], i, TOTAL_ITEMS);
      RemappedBlocks(s.zone, zone, moved, |moved|, i);
      MappedDestination(zone, i);
    }
    forall i, j | 0 <= i < j < |moved| ensures Destination(zone, i) + BLOCK_SECTORS <= Destination(zone, j) {
      DestinationsAscend(zone, i, j);
    }
    forall key | key in s.zone && ZoneOf(key) != zone ensures key in r.zone && r.zone[key] == s.zone[key] {
      RemappedOthers(s.zone, zone, moved, |moved|, key);
    }
  }

  /** A compaction that is refused or fails leaves records, read tree, zone maps and fills alone. */
  lemma FailedCompactionKeeps(s: State, zone: nat, io: Io)
    requires Levels(s.store) && !Succeeds(s, zone, io)
    ensures var r := CompactZone(s, zone, io);
            && r.store == s.store && r.cache == s.cache && r.zone == s.zone && r.zoneFill == s.zoneFill
            && r.nextId == s.nextId
  {
    hide SlideTo;
  }

  // ---------------------------------------------------------------- payloads

  function SourceBlock(s: State, key: nat): nat
    requires Levels(s.store)
  {
    var source := SourceOfKey(s, key); if source.At? then source.pba else 0
  }

  /** The copies that moved these keys. */
  function MovedJobs(s: State, moved: seq<Record>): (jobs: seq<Job>)
    requires Levels(s.store)
    ensures |jobs| == |moved|
    ensures forall i :: 0 <= i < |moved| ==> jobs[i] == Job(SourceBlock(s, moved[i].key), moved[i].pba)
  {
    seq(|moved|, i requires 0 <= i < |moved| => Job(SourceBlock(s, moved[i].key), moved[i].pba))
  }

  /** The slide, complete or broken off, carries out just those. */
  lemma {:induction false} SlideIsJobs(s: State, zone: nat, io: Io, n: nat)
    requires Levels(s.store)
    ensures var p := SlideTo(s, zone, io, n); p.disk == RunJobs(s.disk, MovedJobs(s, p.moved))
  {
    hide SourceOfKey, RunJob, CopyFails, Destination;
    if n > 0 {
      SlideIsJobs(s, zone, io, n - 1);
      var p, q := SlideTo(s, zone, io, n - 1), SlideTo(s, zone, io, n);
      if q.moved != p.moved {
        var jobs := MovedJobs(s, q.moved);
        assert jobs[..|jobs| - 1] == MovedJobs(s, p.moved);
      }
    }
  }

  /** The exhaustive search answers with a stored record. */
  lemma LatestIsHeld(s: State, key: nat)
    requires Sound(s) && Levels(s.store)
    ensures var b := LatestBest(s, key); b.found && b.valid ==> Held(s, key, b.pba)
  {
    hide ShapeOk, AllLogged, AllCovered, CacheTrue, Visible, Stored, AllRecords, HeldByCopy, Newest, Live;
    var rs, b := AllRecords(s.store), LatestBest(s, key);
    LatestFinds(s, key);
    FoldIsNewest(NONE, rs, key);
    if b.found && b.valid {
      var i :| 0 <= i < |rs| && IsRecord(rs[i], key, b);
      assert rs[i] in rs;
      AllRecordsMembers(s.store, rs[i]);
      assert IsVersion(rs[i], key, b.ts, b.pba);
    }
  }

  /** What a zone compaction copies from holds the key. */
  lemma SourceIsHeld(s: State, key: nat)
    requires Sound(s) && ZoneTrue(s) && Levels(s.store) && SourceOfKey(s, key).At?
    ensures Held(s, key, SourceBlock(s, key))
  {
    hide Sound, ZoneTrue, AllRecords, Fold, Holds, Live;
    SourceIsLive(s, key);
    LatestFinds(s, key);
    LatestIsHeld(s, key);
  }

  /** When a zone compaction spoils no live key. If every copy succeeds: no copy overwrites the source of a
      later one or a block that holds a key that stays. If one fails, all keys stay: no copy may have
      overwritten a block that holds another key than its own. */
  ghost predicate SlideHarmless(s: State, zone: nat, io: Io)
    requires Levels(s.store)
  {
    var slide := SlideTo(s, zone, io, TOTAL_ITEMS);
    Refused(s, zone) ||
    if slide.ok then
      && (forall l, i :: 0 <= l < i < |slide.moved| ==> slide.moved[l].pba != SourceBlock(s, slide.moved[i].key))
      && (forall l, k :: 0 <= l < |slide.moved| && !HasKey(slide.moved, k) ==> !Held(s, k, slide.moved[l].pba))
    else
      forall l, k :: 0 <= l < |slide.moved| && k != slide.moved[l].key ==> !Held(s, k, slide.moved[l].pba)
  }

  /** A failed slide has written each key's own payload, at most, to blocks that hold the key. */
  lemma FailedSlideCoherent(s: State, zone: nat, io: Io, payloads: map<nat, nat>)
    requires Sound(s) && ZoneTrue(s) && Levels(s.store) && Coherent(s, payloads)
    requires !Refused(s, zone) && !SlideTo(s, zone, io, TOTAL_ITEMS).ok && SlideHarmless(s, zone, io)
    ensures Coherent(CompactZone(s, zone, io), payloads)
  {
    hide Sound, ZoneTrue, SlideTo, SourceOfKey, SourceBlock, Destination, Holds, Newest, Live, RunJobs;
    var slide, r := SlideTo(s, zone, io, TOTAL_ITEMS), CompactZone(s, zone, io);
    var jobs := MovedJobs(s, slide.moved);
    SlideIsJobs(s, zone, io, TOTAL_ITEMS);
    SlideMoves(s, zone, io, TOTAL_ITEMS);
    GapsSound(s, |slide.moved|, slide.disk);
    forall key, pba | Held(r, key, pba) ensures ReadBlock(r.disk, pba) == payloads[key] {
      LogDiskIrrelevant(s, r, key, Newest(s.log, key), pba);
      var mine := iset b | Holds(s, key, Newest(s.log, key), b);
      forall b | b in mine ensures ReadBlock(s.disk, b) == payloads[key] {
        assert Held(s, key, b);
      }
      forall l | 0 <= l < |jobs| && jobs[l].target in mine ensures jobs[l].source in mine {
        assert Held(s, key, slide.moved[l].pba);
        assert MovedOk(s, zone, slide.moved[l], l, TOTAL_ITEMS);
        SourceIsHeld(s, key);
      }
      RunJobsKeep(s.disk, jobs, mine, payloads[key]);
    }
  }

  lemma LogDiskIrrelevant(s: State, r: State, key: nat, ts: nat, pba: nat)
    requires r == s.(disk := r.disk, ts := r.ts, log := r.log)
    ensures Holds(r, key, ts, pba) == Holds(s, key, ts, pba)
  {
  }

  lemma {:induction false} CachedFrom(cache: Cache, moved: seq<Record>, n: nat, key: nat)
    requires n <= |moved| && key in Cached(cache, moved, n).nodes
    ensures var node := Cached(cache, moved, n).nodes[key];
            (key in cache.nodes && node == cache.nodes[key]) ||
            exists i :: 0 <= i < n && moved[i].key == key &&
              node == CacheNode(moved[i].pba, moved[i].valid, moved[i].ts)
  {
    hide Update;
    if n > 0 {
      var r, before := moved[n - 1], Cached(cache, moved, n - 1);
      UpdateNodes(before, r.key, CacheNode(r.pba, r.valid, r.ts));
      if key in before.nodes && Cached(cache, moved, n).nodes[key] == before.nodes[key] {
        CachedFrom(cache, moved, n - 1, key);
      }
    }
  }

  /** After a compaction a version is held where it was, or, if it is a moved one, at its destination. */
  lemma FinishedHolds(s: State, moved: seq<Record>, key: nat, ts: nat, pba: nat)
    requires ShapeOk(s) && Levels(s.store) && MoveOk(s, moved) && Holds(Finished(s, moved), key, ts, pba)
    ensures Holds(s, key, ts, pba) || exists i :: 0 <= i < |moved| && IsVersion(moved[i], key, ts, pba)
  {
    hide ShapeOk, Stored, NewSegment, Cached, AllUntouched;
    var f := Finished(s, moved);
    if HeldInStore(f.store, key, ts, pba) {
      var r :| Stored(f.store, r) && IsVersion(r, key, ts, pba);
      FinishedStores(s, moved, r);
    } else if HeldInTree(f.cache, key, ts, pba) {
      CachedFrom(s.cache, moved, |moved|, key);
    } else {
      NewUntouched(s.store.segs, s.nextId, MAX_LEVEL, Bottom, moved, s.bitsPerKey);
      GrownCopies(s.store.segs, f.store.segs, key, ts, pba);
    }
  }

  lemma CompactedHolds(s: State, zone: nat, io: Io, key: nat, ts: nat, pba: nat)
    requires Sound(s) && Levels(s.store) && Succeeds(s, zone, io) && Holds(CompactZone(s, zone, io), key, ts, pba)
    ensures var moved := SlideTo(s, zone, io, TOTAL_ITEMS).moved;
            Holds(s, key, ts, pba) || exists i :: 0 <= i < |moved| && IsVersion(moved[i], key, ts, pba)
  {
    hide Sound, SlideTo, FinishZone, Finished, MoveOk, SameButStats, Holds, IsVersion, Remapped, FillAfter;
    var slide := SlideTo(s, zone, io, TOTAL_ITEMS);
    var t := s.(disk := slide.disk);
    var f, r := Finished(t, slide.moved), CompactZone(s, zone, io);
    SlideMoveOk(s, zone, io);
    MoveOkDisk(s, t, slide.moved);
    FinishedIsFinishZone(t, zone, slide.moved);
    SoundLevels(s);
    OutsideSound(s, t);
    SoundLevels(t);
    StatsHolds(f, r, key, ts, pba);
    FinishedHolds(t, slide.moved, key, ts, pba);
    if Holds(t, key, ts, pba) { LogDiskIrrelevant(s, t, key, ts, pba); }
  }

  lemma StatsHolds(f: State, r: State, key: nat, ts: nat, pba: nat)
    requires SameButStats(r.store.segs, f.store.segs) && r.store == f.store.(segs := r.store.segs) && r.cache == f.cache
    requires Holds(r, key, ts, pba)
    ensures Holds(f, key, ts, pba)
  {
    hide Evolves, SameButStats, Holds;
    StatsEvolve(f.store, r.store.segs);
    EvolvedHolds(f, r);
  }

  lemma CompletedSlideCoherent(s: State, zone: nat, io: Io, payloads: map<nat, nat>)
    requires Sound(s) && ZoneTrue(s) && Levels(s.store) && Coherent(s, payloads)
    requires Succeeds(s, zone, io) && SlideHarmless(s, zone, io)
    ensures Coherent(CompactZone(s, zone, io), payloads)
  {
    hide Sound, ZoneTrue, CompactZone, SlideTo, Holds, Newest, Live, Remapped, FillAfter, HasKey, Refused;
    var slide, r := SlideTo(s, zone, io, TOTAL_ITEMS), CompactZone(s, zone, io);
    AfterCompaction(s, zone, io);
    CompactZoneStep(s, zone, io);
    SlideAscends(s, zone, io, TOTAL_ITEMS);
    forall key, pba | Held(r, key, pba) ensures ReadBlock(r.disk, pba) == payloads[key] {
      NewestMoved(s.log, slide.moved, key);
      CompactedHolds(s, zone, io, key, Newest(r.log, key), pba);
      if HasKey(slide.moved, key) {
        MovedPayload(s, zone, io, payloads, key, pba);
      } else {
        StayingPayload(s, zone, io, payloads, key, pba);
      }
    }
  }

  /** The destination of a moved key holds its payload after the copies. */
  lemma DestinationPayload(s: State, zone: nat, io: Io, payloads: map<nat, nat>, i: nat)
    requires Sound(s) && ZoneTrue(s) && Levels(s.store) && Coherent(s, payloads) && SlideHarmless(s, zone, io)
    requires !Refused(s, zone) && SlideTo(s, zone, io, TOTAL_ITEMS).ok && i < |SlideTo(s, zone, io, TOTAL_ITEMS).moved|
    ensures var slide := SlideTo(s, zone, io, TOTAL_ITEMS);
            && slide.moved[i].key in payloads
            && ReadBlock(slide.disk, slide.moved[i].pba) == payloads[slide.moved[i].key]
  {
    hide Sound, ZoneTrue, SlideTo, SourceOfKey, SourceBlock, Destination, Held, Live, RunJobs, Refused, Coherent;
    var slide := SlideTo(s, zone, io, TOTAL_ITEMS);
    var jobs, key := MovedJobs(s, slide.moved), slide.moved[i].key;
    SlideIsJobs(s, zone, io, TOTAL_ITEMS);
    SlideMoves(s, zone, io, TOTAL_ITEMS);
    assert forall l :: 0 <= l < |jobs| ==> MovedOk(s, zone, slide.moved[l], l, TOTAL_ITEMS);
    SourceIsHeld(s, key);
    HeldPayload(s, payloads, key, SourceBlock(s, key));
    forall l | i < l < |jobs| ensures jobs[l].target != jobs[i].target {
      TargetsDistinct(zone, i, l);
    }
    RunJobDelivers(s.disk, jobs, i);
  }

  lemma MovedPayload(s: State, zone: nat, io: Io, payloads: map<nat, nat>, key: nat, pba: nat)
    requires Sound(s) && ZoneTrue(s) && Levels(s.store) && Coherent(s, payloads) && SlideHarmless(s, zone, io)
    requires !Refused(s, zone) && SlideTo(s, zone, io, TOTAL_ITEMS).ok
    requires var moved := SlideTo(s, zone, io, TOTAL_ITEMS).moved;
             && HasKey(moved, key) && Ascending(moved)
             && (Holds(s, key, Newest(s.log + Ops(moved), key), pba) ||
                 exists i :: 0 <= i < |moved| && IsVersion(moved[i], key, Newest(s.log + Ops(moved), key), pba))
    ensures key in payloads && ReadBlock(SlideTo(s, zone, io, TOTAL_ITEMS).disk, pba) == payloads[key]
  {
    hide Sound, ZoneTrue, SlideTo, Holds, Newest, Refused, Coherent, SlideHarmless, ReadBlock, Destination, SourceOfKey;
    var moved := SlideTo(s, zone, io, TOTAL_ITEMS).moved;
    SlideMoves(s, zone, io, TOTAL_ITEMS);
    assert forall i :: 0 <= i < |moved| ==> MovedOk(s, zone, moved[i], i, TOTAL_ITEMS);
    var i := MovedVersion(s, moved, key, pba) by { SoundClock(s); }
    DestinationPayload(s, zone, io, payloads, i);
  }

  lemma SoundClock(s: State)
    requires Sound(s)
    ensures |s.log| == s.ts
  {
  }

  /** The newest version of a moved key is the moved record. */
  lemma MovedVersion(s: State, moved: seq<Record>, key: nat, pba: nat) returns (i: nat)
    requires Sound(s) && HasKey(moved, key) && Ascending(moved)
    requires forall l :: 0 <= l < |moved| ==> moved[l].ts == |s.log| + l + 1
    requires Holds(s, key, Newest(s.log + Ops(moved), key), pba) ||
             exists l :: 0 <= l < |moved| && IsVersion(moved[l], key, Newest(s.log + Ops(moved), key), pba)
    ensures i < |moved| && moved[i].key == key && pba == moved[i].pba
  {
    hide Sound, Holds, Newest, Ops;
    NewestMoved(s.log, moved, key);
    i :| 0 <= i < |moved| && moved[i].key == key;
    if Holds(s, key, |s.log| + i + 1, pba) {
      HeldBound(s, key, |s.log| + i + 1, pba);
    }
  }

  lemma HeldPayload(s: State, payloads: map<nat, nat>, key: nat, pba: nat)
    requires Coherent(s, payloads) && Held(s, key, pba)
    ensures key in payloads && ReadBlock(s.disk, pba) == payloads[key]
  {
    hide Holds, Live;
  }

  lemma StayingPayload(s: State, zone: nat, io: Io, payloads: map<nat, nat>, key: nat, pba: nat)
    requires Sound(s) && Levels(s.store) && Coherent(s, payloads) && SlideHarmless(s, zone, io)
    requires !Refused(s, zone) && SlideTo(s, zone, io, TOTAL_ITEMS).ok
    requires var moved := SlideTo(s, zone, io, TOTAL_ITEMS).moved;
             && !HasKey(moved, key) && Live(s.log, key)
             && (Holds(s, key, Newest(s.log, key), pba) ||
                 exists i :: 0 <= i < |moved| && IsVersion(moved[i], key, Newest(s.log, key), pba))
    ensures key in payloads && ReadBlock(SlideTo(s, zone, io, TOTAL_ITEMS).disk, pba) == payloads[key]
  {
    hide Sound, SlideTo, SourceOfKey, SourceBlock, Holds, Newest, Live, RunJobs, Refused, Coherent;
    var slide := SlideTo(s, zone, io, TOTAL_ITEMS);
    assert Held(s, key, pba);
    SlideIsJobs(s, zone, io, TOTAL_ITEMS);
    RunJobsFrame(s.disk, MovedJobs(s, slide.moved), pba);
    HeldPayload(s, payloads, key, pba);
  }

  /** A harmless zone compaction, complete, broken off or refused, keeps every payload where reads find it. */
  lemma SlideCoherent(s: State, zone: nat, io: Io, payloads: map<nat, nat>)
    requires Sound(s) && ZoneTrue(s) && Levels(s.store) && Coherent(s, payloads) && SlideHarmless(s, zone, io)
    ensures Coherent(CompactZone(s, zone, io), payloads)
  {
    hide Sound, ZoneTrue, SlideTo, Coherent, SlideHarmless, Refused, FinishZone;
    var slide := SlideTo(s, zone, io, TOTAL_ITEMS);
    if !Refused(s, zone) {
      if !slide.ok {
        FailedSlideCoherent(s, zone, io, payloads);
      } else if slide.moved != [] {
        CompletedSlideCoherent(s, zone, io, payloads);
      }
    }
  }
}
