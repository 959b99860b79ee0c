/** When a zone compaction is carried out, and the layout it then leaves: the conditions in terms of fills,
    live keys and faulty blocks, the layout in terms of the live keys' order. */
module FullZone {
  import opened Types
  import opened Tables
  import opened Scan
  import opened Layout
  import opened CopyJobs
  import opened Commit
  import opened Spec
  import opened Shape
  import opened History
  import opened Holdings
  import opened SegmentCompaction
  import opened ZoneCompaction
  import opened ZoneSound
  import opened ZoneResult
  import opened Runs

  /** The live keys of the zone below `bound`. */
  ghost function Below(s: State, zone: nat, bound: nat): set<nat> {
    set key | key in s.zone && ZoneOf(key) == zone && key < bound
  }

  ghost function LiveIn(s: State, zone: nat): set<nat> { set key | key in s.zone && ZoneOf(key) == zone }

  /** Where the `i`-th live block goes: the bottom tracks of the zone, then those of the next one, in the order
      in which writes fill them. */
  function BottomSector(zone: nat, i: nat): nat {
    if i < BOTTOM_BLOCKS then BlockSector(zone, Slot2(i)) else BlockSector(zone + 1, Slot2(i - BOTTOM_BLOCKS))
  }

  /** The zone compacted: its `n` live keys lie, in key order, on the first `n` bottom blocks, nothing else has
      moved, and each of them has taken a timestamp and is read from its block. */
  ghost predicate LaidOut(s: State, r: State, zone: nat) {
    var n := |LiveIn(s, zone)|;
    && |r.zoneFill| == |s.zoneFill| && zone + 1 < |s.zoneFill|
    && r.zoneFill[zone] == Min(n, BOTTOM_BLOCKS) && r.zoneFill[zone] + r.zoneFill[zone + 1] == n
    && (forall z :: 0 <= z < |s.zoneFill| && z != zone && z != zone + 1 ==> r.zoneFill[z] == s.zoneFill[z])
    && (forall key :: key in r.zone <==> key in s.zone)
    && (forall key :: key in LiveIn(s, zone) ==> LaidKey(s, r, zone, key))
    && (forall key :: key in s.zone && ZoneOf(key) != zone ==> key in r.zone && r.zone[key] == s.zone[key])
    && r.ts == s.ts + n && |r.log| == |s.log| + n
    && LaidSegment(s, r, zone)
  }

  /** One segment was appended, at L6 and on bottom tracks: it has a record for each of those keys. */
  ghost predicate LaidSegment(s: State, r: State, zone: nat) {
    var n := |s.store.segs|;
    && r.store.unsorted == s.store.unsorted && r.store.sorted == s.store.sorted && |r.store.segs| == n + 1
    && (forall i :: 0 <= i < n ==> SameSegment(r.store.segs[i], s.store.segs[i]))
    && !r.store.segs[n].retired && r.store.segs[n].level == MAX_LEVEL && r.store.segs[n].track.Bottom?
    && (forall x :: x in Recs(r.store.segs[n].table) <==> x.key in LiveIn(s, zone) && x == LaidRecord(s, zone, x.key))
  }

  ghost function LaidRecord(s: State, zone: nat, key: nat): Record {
    var i := |Below(s, zone, key)|;
    Record(key, BottomSector(zone, i), zone, true, s.ts + i + 1)
  }

  ghost predicate LaidKey(s: State, r: State, zone: nat, key: nat) {
    var i := |Below(s, zone, key)|;
    && key in r.zone && BlockSector(zone, r.zone[key]) == BottomSector(zone, i)
    && Newest(r.log, key) == |s.log| + i + 1 && WrittenTo(r.log, key) == BottomSector(zone, i)
    && ReadResult(r, key) == LookupResult.Valid(BottomSector(zone, i))
  }

  // ---------------------------------------------------------------- the order of the live keys

  lemma BelowNext(s: State, zone: nat, o: nat)
    requires o < TOTAL_ITEMS
    ensures |Below(s, zone, KeyAt(zone, o + 1))| ==
            |Below(s, zone, KeyAt(zone, o))| + (if KeyAt(zone, o) in s.zone then 1 else 0)
  {
    hide ZoneOf, KeyAt;
    KeysNext(zone, o);
    BelowMore(s, zone, KeyAt(zone, o));
  }

  lemma BelowMore(s: State, zone: nat, key: nat)
    requires ZoneOf(key) == zone
    ensures |Below(s, zone, key + 1)| == |Below(s, zone, key)| + (if key in s.zone then 1 else 0)
  {
    hide ZoneOf;
    if key in s.zone {
      assert Below(s, zone, key + 1) == Below(s, zone, key) + {key};
    } else {
      assert Below(s, zone, key + 1) == Below(s, zone, key);
    }
  }

  lemma {:induction false} CountBelow(s: State, zone: nat, n: nat)
    requires Sound(s) && ZoneTrue(s) && Levels(s.store) && n <= TOTAL_ITEMS
    ensures LiveCount(s, zone, n) == |Below(s, zone, KeyAt(zone, n))|
  {
    hide Sound, ZoneTrue, SourceOfKey, Below, Live, KeyAt;
    if n == 0 {
      NothingBelow(s, zone);
    } else {
      CountBelow(s, zone, n - 1);
      BelowNext(s, zone, n - 1);
      SourceIsMapped(s, KeyAt(zone, n - 1));
    }
  }

  lemma NothingBelow(s: State, zone: nat)
    ensures Below(s, zone, KeyAt(zone, 0)) == {}
  {
  }

  lemma SourceIsMapped(s: State, key: nat)
    requires Sound(s) && ZoneTrue(s) && Levels(s.store)
    ensures SourceOfKey(s, key).At? <==> key in s.zone
  {
    hide Sound, SourceOfKey, Live, ZoneOf;
    SourceIsLive(s, key);
  }

  lemma AllBelow(s: State, zone: nat)
    ensures Below(s, zone, KeyAt(zone, TOTAL_ITEMS)) == LiveIn(s, zone)
  {
  }

  /** The `i`-th moved record is that of the `i`-th live key. */
  lemma {:induction false} MovedInOrder(s: State, zone: nat, io: Io, n: nat)
    requires Sound(s) && ZoneTrue(s) && Levels(s.store) && n <= TOTAL_ITEMS && SlideTo(s, zone, io, n).ok
    ensures var moved := SlideTo(s, zone, io, n).moved;
            forall i :: 0 <= i < |moved| ==> |Below(s, zone, moved[i].key)| == i
  {
    hide Sound, ZoneTrue, SourceOfKey, Destination, RunJob, CopyFails, Below, KeyAt, SlideTo;
    if n == 0 {
      NoSlide(s, zone, io);
    } else {
      SlideAdvances(s, zone, io, n);
      MovedInOrder(s, zone, io, n - 1);
      SlideMoves(s, zone, io, n - 1);
      CountBelow(s, zone, n - 1);
    }
  }

  // ---------------------------------------------------------------- when it is carried out

  /** The copy of the key's block can be made, or need not be. */
  ghost predicate Copies(s: State, io: Io, key: nat, dest: nat)
    requires Levels(s.store)
  {
    var source := SourceBlock(s, key);
    source == dest || (io.Device? && source !in io.badReads && dest !in io.badWrites)
  }

  ghost predicate AllCopy(s: State, zone: nat, io: Io, bound: nat)
    requires Levels(s.store)
  {
    forall key :: key in s.zone && ZoneOf(key) == zone && key < bound ==>
      Copies(s, io, key, BottomSector(zone, |Below(s, zone, key)|))
  }

  lemma DestinationIs(zone: nat, i: nat)
    requires i < TOTAL_ITEMS
    ensures Destination(zone, i) == BottomSector(zone, i)
  {
    hide BottomBlock, Slot2, BlockSector;
    BottomOrder(if i < BOTTOM_BLOCKS then i else i - BOTTOM_BLOCKS, 0);
  }

  lemma SlideStepOk(s: State, zone: nat, io: Io, n: nat)
    requires Levels(s.store) && n > 0
    ensures var p, key := SlideTo(s, zone, io, n - 1), KeyAt(zone, n - 1);
            SlideTo(s, zone, io, n).ok <==>
              p.ok && (SourceOfKey(s, key).At? ==> Copies(s, io, key, Destination(zone, |p.moved|)))
  {
    hide SourceOfKey, Destination, RunJob;
  }

  /** The copying goes through exactly if it can for each live key. */
  lemma {:induction false} SlideOkExactly(s: State, zone: nat, io: Io, n: nat)
    requires Sound(s) && ZoneTrue(s) && Levels(s.store) && n <= TOTAL_ITEMS
    ensures SlideTo(s, zone, io, n).ok <==> AllCopy(s, zone, io, KeyAt(zone, n))
  {
    hide Sound, ZoneTrue, SourceOfKey, Destination, Below, SlideTo, Copies, BottomSector, KeyAt;
    if n == 0 {
      NoSlide(s, zone, io);
      NoKeyBelow(zone);
    } else {
      SlideOkExactly(s, zone, io, n - 1);
      SlideStepOk(s, zone, io, n);
      KeysNext(zone, n - 1);
      SourceIsMapped(s, KeyAt(zone, n - 1));
      if SlideTo(s, zone, io, n - 1).ok {
        SlideMoves(s, zone, io, n - 1);
        CountBelow(s, zone, n - 1);
        CountBounded(s, zone, n - 1);
        DestinationIs(zone, |SlideTo(s, zone, io, n - 1).moved|);
      }
    }
  }

  lemma CountBounded(s: State, zone: nat, n: nat)
    requires Levels(s.store)
    ensures LiveCount(s, zone, n) <= n
  {
  }

  lemma NoKeyBelow(zone: nat)
    ensures forall key: nat :: ZoneOf(key) == zone ==> key >= KeyAt(zone, 0)
  {
  }

  lemma KeysNext(zone: nat, o: nat)
    requires o < TOTAL_ITEMS
    ensures ZoneOf(KeyAt(zone, o)) == zone && KeyAt(zone, o + 1) == KeyAt(zone, o) + 1
  {
  }

  /** A compaction of a zone without successor, of one that is not full or of one whose successor is in use
      changes nothing. */
  lemma OthersAreRefused(s: State, zone: nat, io: Io)
    requires Levels(s.store)
    requires zone + 1 >= |s.zoneFill| || s.zoneFill[zone] < TOTAL_ITEMS || s.zoneFill[zone + 1] != 0
    ensures CompactZone(s, zone, io) == s
  {
  }

  /** A full zone with an unused successor and a live key is compacted if all copies can be made; otherwise
      records, read tree, maps and fills stay. */
  lemma FullZoneIsCompacted(s: State, zone: nat, io: Io)
    requires Sound(s) && ZoneTrue(s) && Levels(s.store) && zone + 1 < |s.zoneFill|
    requires s.zoneFill[zone] >= TOTAL_ITEMS && s.zoneFill[zone + 1] == 0 && LiveIn(s, zone) != {}
    ensures var r := CompactZone(s, zone, io);
            if AllCopy(s, zone, io, KeyAt(zone, TOTAL_ITEMS)) then LaidOut(s, r, zone)
            else r.store == s.store && r.cache == s.cache && r.zone == s.zone && r.zoneFill == s.zoneFill
    ensures Succeeds(s, zone, io) <==> AllCopy(s, zone, io, KeyAt(zone, TOTAL_ITEMS))
  {
    hide Sound, ZoneTrue, SlideTo, LaidOut, AllCopy, CompactZone, LiveIn, KeyAt;
    SlideOkExactly(s, zone, io, TOTAL_ITEMS);
    SlideMoves(s, zone, io, TOTAL_ITEMS);
    CountBelow(s, zone, TOTAL_ITEMS);
    AllBelow(s, zone);
    if Succeeds(s, zone, io) {
      CompactedLayout(s, zone, io);
    } else {
      FailedCompactionKeeps(s, zone, io);
    }
  }

  lemma CompactedLayout(s: State, zone: nat, io: Io)
    requires Sound(s) && ZoneTrue(s) && Levels(s.store) && Succeeds(s, zone, io)
    ensures LaidOut(s, CompactZone(s, zone, io), zone)
  {
    hide Sound, ZoneTrue, SlideTo, CompactZone, LiveIn, KeyAt, Destination, BlockSector, Below, Live, HasKey, ZoneOf,
      SkippedCount, LaidKey, LaidSegment, Remapped;
    var r, moved := CompactZone(s, zone, io), SlideTo(s, zone, io, TOTAL_ITEMS).moved;
    CompactZoneResult(s, zone, io);
    AfterCompaction(s, zone, io);
    SlideMoves(s, zone, io, TOTAL_ITEMS);
    CountBelow(s, zone, TOTAL_ITEMS);
    AllBelow(s, zone);
    CompactedClock(s, zone, io);
    CompactedSegment(s, zone, io);
    forall key | key in LiveIn(s, zone) ensures LaidKey(s, r, zone, key) {
      CompactedKey(s, zone, io, key);
    }
  }

  lemma CompactedClock(s: State, zone: nat, io: Io)
    requires Levels(s.store) && Succeeds(s, zone, io)
    ensures CompactZone(s, zone, io).ts == s.ts + |SlideTo(s, zone, io, TOTAL_ITEMS).moved|
  {
    hide SlideTo, Recalc, AppendSegment, Remapped, Cached, FillAfter;
  }

  lemma CompactedSegment(s: State, zone: nat, io: Io)
    requires Sound(s) && ZoneTrue(s) && Levels(s.store) && Succeeds(s, zone, io)
    ensures LaidSegment(s, CompactZone(s, zone, io), zone)
  {
    hide Sound, ZoneTrue, SlideTo, FinishZone, NewSegment, SameButStats, LaidRecord, LiveIn, SegmentOk;
    var slide := SlideTo(s, zone, io, TOTAL_ITEMS);
    var t, moved := s.(disk := slide.disk), slide.moved;
    FinishedIsFinishZone(t, zone, moved);
    MovedTable(s, zone, io);
    SegmentsKeep(CompactZone(s, zone, io).store.segs, Finished(t, moved).store.segs);
  }

  lemma SegmentsKeep(a: seq<Segment>, b: seq<Segment>)
    requires SameButStats(a, b)
    ensures |a| == |b| && forall i :: 0 <= i < |a| ==>
              SameSegment(a[i], b[i]) && a[i].table == b[i].table && a[i].retired == b[i].retired &&
              a[i].level == b[i].level && a[i].track == b[i].track
  {
  }

  lemma MovedTable(s: State, zone: nat, io: Io)
    requires Sound(s) && ZoneTrue(s) && Levels(s.store) && Succeeds(s, zone, io)
    ensures var g := NewSegment(s.store.segs, s.nextId, MAX_LEVEL, Bottom, SlideTo(s, zone, io, TOTAL_ITEMS).moved,
                                s.bitsPerKey);
            && !g.retired && g.level == MAX_LEVEL && g.track.Bottom?
            && forall x :: x in Recs(g.table) <==> x.key in LiveIn(s, zone) && x == LaidRecord(s, zone, x.key)
  {
    hide Sound, ZoneTrue, SlideTo, NewSegment, SegmentOk, Destination, BottomSector, Below, SourceOfKey, Live, ZoneOf,
      Refused;
    var moved := SlideTo(s, zone, io, TOTAL_ITEMS).moved;
    SlideMoves(s, zone, io, TOTAL_ITEMS);
    SlideAscends(s, zone, io, TOTAL_ITEMS);
    MovedInOrder(s, zone, io, TOTAL_ITEMS);
    UpsertAllAscending(moved);
    assert forall i :: 0 <= i < |moved| ==> MovedOk(s, zone, moved[i], i, TOTAL_ITEMS);
    assert Timed(moved);
    NewSegmentOk(s.store.segs, s.nextId, MAX_LEVEL, Bottom, moved, s.bitsPerKey);
    NewTrack(s.store.segs, s.nextId, MAX_LEVEL, Bottom, moved, s.bitsPerKey);
    forall x ensures x in moved <==> x.key in LiveIn(s, zone) && x == LaidRecord(s, zone, x.key) {
      MovedAreLive(s, zone, io, x.key);
      LiveIsMapped(s, x.key);
      if x in moved {
        var i :| 0 <= i < |moved| && moved[i] == x;
        MovedIsLaid(s, zone, moved, i);
      }
      if HasKey(moved, x.key) {
        var i :| 0 <= i < |moved| && moved[i].key == x.key;
        MovedIsLaid(s, zone, moved, i);
      }
    }
  }

  lemma MovedIsLaid(s: State, zone: nat, moved: seq<Record>, i: nat)
    requires Levels(s.store) && i < |moved| <= TOTAL_ITEMS && MovedOk(s, zone, moved[i], i, TOTAL_ITEMS)
    requires |Below(s, zone, moved[i].key)| == i
    ensures moved[i] == LaidRecord(s, zone, moved[i].key)
  {
    hide Destination, BottomSector, Below, SourceOfKey;
    DestinationIs(zone, i);
  }

  lemma LiveIsMapped(s: State, key: nat)
    requires ZoneTrue(s)
    ensures Live(s.log, key) <==> key in s.zone
  {
    hide Live, ZoneOf;
  }

  lemma CompactedKey(s: State, zone: nat, io: Io, key: nat)
    requires Sound(s) && ZoneTrue(s) && Levels(s.store) && Succeeds(s, zone, io) && key in LiveIn(s, zone)
    ensures LaidKey(s, CompactZone(s, zone, io), zone, key)
  {
    hide Sound, ZoneTrue, SlideTo, CompactZone, KeyAt, Destination, BlockSector, Below, SkippedCount, Newest, Ops,
      SourceOfKey, BottomSector, ZoneOf, Live, ReadResult;
    var r, moved := CompactZone(s, zone, io), SlideTo(s, zone, io, TOTAL_ITEMS).moved;
    CompactZoneResult(s, zone, io);
    AfterCompaction(s, zone, io);
    SlideMoves(s, zone, io, TOTAL_ITEMS);
    SlideAscends(s, zone, io, TOTAL_ITEMS);
    MovedInOrder(s, zone, io, TOTAL_ITEMS);
    KeyIsLive(s, key);
    assert HasKey(moved, key);
    var i :| 0 <= i < |moved| && moved[i].key == key;
    assert MovedOk(s, zone, moved[i], i, TOTAL_ITEMS);
    NewestMoved(s.log, moved, key);
    DestinationIs(zone, i);
    WrittenByMove(s.log, moved, i);
    MovedIsRead(s, zone, io, i);
  }

  lemma MovedIsRead(s: State, zone: nat, io: Io, i: nat)
    requires Sound(s) && ZoneTrue(s) && Levels(s.store) && Succeeds(s, zone, io)
    requires var moved := SlideTo(s, zone, io, TOTAL_ITEMS).moved; i < |moved| && Live(s.log, moved[i].key)
    ensures var x := SlideTo(s, zone, io, TOTAL_ITEMS).moved[i];
            ReadResult(CompactZone(s, zone, io), x.key) == LookupResult.Valid(x.pba)
  {
    hide Sound, ZoneTrue, SlideTo, CompactZone, Newest, Live, Holds, ReadResult, Ops, SourceOfKey, Destination;
    var r, moved := CompactZone(s, zone, io), SlideTo(s, zone, io, TOTAL_ITEMS).moved;
    var key := moved[i].key;
    AfterCompaction(s, zone, io);
    CompactZoneStep(s, zone, io);
    SlideMoves(s, zone, io, TOTAL_ITEMS);
    SlideAscends(s, zone, io, TOTAL_ITEMS);
    assert forall l :: 0 <= l < |moved| ==> MovedOk(s, zone, moved[l], l, TOTAL_ITEMS);
    ReadsAreHeld(r, key);
    CompactedHolds(s, zone, io, key, Newest(r.log, key), ReadResult(r, key).pba);
    SoundClock(s);
    var l := MovedVersion(s, moved, key, ReadResult(r, key).pba);
  }

  lemma KeyIsLive(s: State, key: nat)
    requires ZoneTrue(s) && key in s.zone
    ensures Live(s.log, key)
  {
    hide Live, ZoneOf;
  }

  lemma WrittenByMove(log: seq<LogEntry>, moved: seq<Record>, i: nat)
    requires i < |moved|
    ensures |log + Ops(moved)| == |log| + |moved| && (log + Ops(moved))[|log| + i].Op?
    ensures (log + Ops(moved))[|log| + i].pba == moved[i].pba
  {
  }

  /** A full zone with an unused successor and a live key, on a device without faulty blocks. */
  ghost predicate Compactable(s: State, zone: nat, io: Io) {
    && Sound(s) && ZoneTrue(s) && io == Device({}, {})
    && zone + 1 < |s.zoneFill| && s.zoneFill[zone] >= TOTAL_ITEMS && s.zoneFill[zone + 1] == 0
    && exists key :: key in s.zone && ZoneOf(key) == zone
  }

  /** Such a zone is always compacted. */
  lemma NoFaultsCompacts(s: State, zone: nat, io: Io)
    requires Levels(s.store) && Compactable(s, zone, io)
    ensures LaidOut(s, CompactZone(s, zone, io), zone)
    ensures Succeeds(s, zone, io)
  {
    hide Sound, ZoneTrue, LaidOut, CompactZone, KeyAt, SourceBlock, BottomSector, Below, ZoneOf, Succeeds;
    var key :| key in s.zone && ZoneOf(key) == zone;
    assert key in LiveIn(s, zone);
    FullZoneIsCompacted(s, zone, io);
  }
}
