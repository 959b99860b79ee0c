/** Zone compaction keeps the engine sound and moves exactly the live keys of the zone. */
module ZoneSound {
  import opened Types
  import opened Tables
  import opened Scan
  import opened ReadTree
  import opened Obsolescence
  import opened CopyJobs
  import opened Commit
  import opened Spec
  import opened Outputs
  import opened Shape
  import opened History
  import opened SoundSteps
  import opened ZoneCompaction

  // ---------------------------------------------------------------- the exhaustive search

  /** imr_lsm_find_latest_record_locked. */
  function LatestBest(s: State, key: nat): Best
    requires Levels(s.store)
  {
    Fold(NONE, AllRecords(s.store), key)
  }

  /** The exhaustive search over all lists finds a live record exactly for a live key, and then its
      newest version. */
  lemma LatestFinds(s: State, key: nat)
    requires Sound(s) && Levels(s.store)
    ensures var b := LatestBest(s, key);
            && (b.found && b.valid <==> Live(s.log, key))
            && (b.found && b.valid ==> b.ts == Newest(s.log, key))
            && (b.found ==> Logged(s.log, s.store.segs, Record(key, b.pba, 0, b.valid, b.ts)))
            && (Newest(s.log, key) == 0 ==> !b.found)
  {
    hide ShapeOk, Visible, Stored, CommittedAt, Newest, AllRecords, CacheTrue;
    var rs, b := AllRecords(s.store), LatestBest(s, key);
    FoldIsNewest(NONE, rs, key);
    if b.found {
      var i :| 0 <= i < |rs| && IsRecord(rs[i], key, b);
      var r := rs[i];
      assert r in rs;
      AllRecordsMembers(s.store, r);
      assert Logged(s.log, s.store.segs, r);
      SameCommitted(s.store.segs, r, Record(key, b.pba, 0, b.valid, b.ts));
      LoggedBound(s.log, s.store.segs, r);
    }
    var n := Newest(s.log, key);
    assert Covered(s.log, s.store, key);
    if n > 0 && Sees(s.store, key, n) {
      var x :| Visible(s.store, x) && x.key == key && x.ts >= n;
      VisibleStored(s.store, x);
      AllRecordsMembers(s.store, x);
      assert x.ts <= b.ts;
      assert Logged(s.log, s.store.segs, x);
    }
  }

  /** Skipping the sorted lists is sound: the read path and the exhaustive search agree on validity,
      on the timestamp of a live key, and before any commit on its address. */
  lemma SkippingSortedIsSound(s: State, key: nat)
    requires Sound(s) && Levels(s.store)
    ensures var slow, latest := SlowBest(s, key), LatestBest(s, key);
            && (slow.found && slow.valid <==> latest.found && latest.valid)
            && (slow.found && slow.valid ==> slow.ts == latest.ts)
            && slow.ts <= latest.ts
            && (Sees(s.store, key, Newest(s.log, key)) ==> slow.ts == latest.ts)
            && (slow.found && slow.valid && (forall r :: !CommittedAt(s.store.segs, r)) ==> slow.pba == latest.pba)
  {
    hide ShapeOk, Visible, Stored, CommittedAt, Newest, AllRecords, CacheTrue, ReadRecords;
    SlowReadFinds(s, key);
    LatestFinds(s, key);
    var slow, latest := SlowBest(s, key), LatestBest(s, key);
    FoldIsNewest(NONE, ReadRecords(s.store), key);
    FoldIsNewest(NONE, AllRecords(s.store), key);
    ReadSeesVisible(s);
    if slow.found {
      var rs := ReadRecords(s.store);
      var i :| 0 <= i < |rs| && IsRecord(rs[i], key, slow);
      assert rs[i] in rs;
      VisibleStored(s.store, rs[i]);
      AllRecordsMembers(s.store, rs[i]);
    }
    if Sees(s.store, key, Newest(s.log, key)) {
      var x :| Visible(s.store, x) && x.key == key && x.ts >= Newest(s.log, key);
      assert x in ReadRecords(s.store);
      if latest.found {
        LoggedBound(s.log, s.store.segs, Record(key, latest.pba, 0, latest.valid, latest.ts));
      }
    }
  }

  // ---------------------------------------------------------------- the history of a move

  lemma OpsSnoc(moved: seq<Record>)
    requires moved != []
    ensures var last := moved[|moved| - 1];
            Ops(moved) == Ops(moved[..|moved| - 1]) + [Op(last.key, last.valid, last.pba)]
  {
  }

  lemma {:induction false} NewestMoved(log: seq<LogEntry>, moved: seq<Record>, key: nat)
    requires Ascending(moved)
    ensures !HasKey(moved, key) ==> Newest(log + Ops(moved), key) == Newest(log, key)
    ensures forall i :: 0 <= i < |moved| && moved[i].key == key ==> Newest(log + Ops(moved), key) == |log| + i + 1
  {
    hide Newest;
    if moved == [] {
      assert log + Ops(moved) == log;
    } else {
      var n := |moved| - 1;
      var front := moved[..n];
      NewestMoved(log, front, key);
      OpsSnoc(moved);
      var e := Op(moved[n].key, moved[n].valid, moved[n].pba);
      assert log + Ops(moved) == (log + Ops(front)) + [e];
      NewestAppend(log + Ops(front), e, key);
      if !HasKey(moved, key) {
        assert moved[n].key != key;
      }
      forall i | 0 <= i < |moved| && moved[i].key == key ensures Newest(log + Ops(moved), key) == |log| + i + 1 {
        if i < n { assert front[i].key == key; }
      }
    }
  }

  lemma LiveMoved(log: seq<LogEntry>, moved: seq<Record>, key: nat)
    requires Ascending(moved) && forall i :: 0 <= i < |moved| ==> moved[i].valid
    ensures Live(log + Ops(moved), key) <==> HasKey(moved, key) || Live(log, key)
  {
    hide Newest;
    NewestMoved(log, moved, key);
    if HasKey(moved, key) {
      var i :| 0 <= i < |moved| && moved[i].key == key;
    } else {
      assert Newest(log + Ops(moved), key) == Newest(log, key) <= |log|;
    }
  }

  /** What the slide hands to the rest of the compaction. */
  ghost predicate MoveOk(s: State, moved: seq<Record>) {
    && moved != [] && Ascending(moved)
    && forall i :: 0 <= i < |moved| ==> moved[i].valid && moved[i].ts == s.ts + i + 1
  }

  /** State after the compaction, statistics and maps aside. */
  ghost function Finished(s: State, moved: seq<Record>): State
    requires Levels(s.store)
  {
    var seg := NewSegment(s.store.segs, s.nextId, MAX_LEVEL, Bottom, moved, s.bitsPerKey);
    s.(ts := s.ts + |moved|, log := s.log + Ops(moved),
       store := s.store.(segs := s.store.segs + [seg]), nextId := s.nextId + 1,
       cache := Cached(s.cache, moved, |moved|))
  }

  lemma FinishedIsFinishZone(s: State, zone: nat, moved: seq<Record>)
    requires Levels(s.store) && zone + 1 < |s.zoneFill| && moved != []
    ensures var r, f := FinishZone(s, zone, moved), Finished(s, moved);
            && SameButStats(r.store.segs, f.store.segs) && r.store == f.store.(segs := r.store.segs)
            && r.log == f.log && r.ts == f.ts && r.cache == f.cache && r.disk == s.disk
            && r.commits == f.commits && r.nextId == f.nextId && r.threshold == s.threshold && r.plan == s.plan
            && r.zone == Remapped(s.zone, zone, moved, |moved|)
            && r.zoneFill == FillAfter(s.zoneFill, zone, |moved|)
  {
    hide NewSegment, StatsOf, AllRecords, ScoreOfStats, Cached, Remapped, FillAfter, CandidateOf;
  }

  lemma {:induction false} CachedOk(cache: Cache, moved: seq<Record>, n: nat)
    requires CacheOk(cache) && n <= |moved|
    ensures CacheOk(Cached(cache, moved, n))
  {
    hide CacheOk, Update;
    if n > 0 {
      CachedOk(cache, moved, n - 1);
      UpdateOk(Cached(cache, moved, n - 1), moved[n - 1].key,
               CacheNode(moved[n - 1].pba, moved[n - 1].valid, moved[n - 1].ts));
    }
  }

  lemma FinishedShape(s: State, moved: seq<Record>)
    requires ShapeOk(s) && MoveOk(s, moved)
    ensures ShapeOk(Finished(s, moved))
  {
    hide StoreOk, CacheOk, NewSegment, SegmentOk, Cached, OutputsOk;
    NewSegmentOutputs(s.store.segs, s.nextId, MAX_LEVEL, Bottom, moved, s.bitsPerKey, s.commits);
    var seg := NewSegment(s.store.segs, s.nextId, MAX_LEVEL, Bottom, moved, s.bitsPerKey);
    NewSegmentOk(s.store.segs, s.nextId, MAX_LEVEL, Bottom, moved, s.bitsPerKey);
    AddSegmentOk(s.store, seg);
    CachedOk(s.cache, moved, |moved|);
  }

  /** The new segment's records join what is stored and what is visible. */
  lemma FinishedStores(s: State, moved: seq<Record>, r: Record)
    requires ShapeOk(s) && MoveOk(s, moved)
    ensures var f := Finished(s, moved);
            && (Stored(f.store, r) <==> Stored(s.store, r) || r in moved)
            && (Visible(f.store, r) <==> Visible(s.store, r) || r in moved)
  {
    hide StoreOk, CacheOk, ListsTimed, IdsOk, OutputsOk, NewSegment, UpsertAll, Cached, SegmentOk;
    var seg := NewSegment(s.store.segs, s.nextId, MAX_LEVEL, Bottom, moved, s.bitsPerKey);
    NewSegmentOk(s.store.segs, s.nextId, MAX_LEVEL, Bottom, moved, s.bitsPerKey);
    UpsertAllAscending(moved);
    TableMembers(seg, r);
    var f := Finished(s, moved);
    assert InUnsorted(f.store, r) == InUnsorted(s.store, r) && InSorted(f.store, r) == InSorted(s.store, r);
    var segs := f.store.segs;
    assert segs[|s.store.segs|] == seg && forall i :: 0 <= i < |s.store.segs| ==> segs[i] == s.store.segs[i];
    assert InActive(segs, r) <==> InActive(s.store.segs, r) || InTable(seg, r);
  }

  lemma GrowLogged(log: seq<LogEntry>, moved: seq<Record>, segs: seq<Segment>, seg: Segment, r: Record)
    requires Logged(log, segs, r)
    ensures Logged(log + Ops(moved), segs + [seg], r)
  {
    hide CommittedAt;
    ExtendsAdd(segs, seg);
    if CommittedAt(segs, r) { ExtendsCommitted(segs, segs + [seg], r); }
  }

  lemma ExtendsAdd(segs: seq<Segment>, seg: Segment)
    ensures Extends(segs, segs + [seg])
  {
  }

  lemma FinishedSound(s: State, moved: seq<Record>)
    requires Sound(s) && MoveOk(s, moved)
    ensures Levels(s.store) && Sound(Finished(s, moved))
  {
    hide ShapeOk, Stored, Visible, Logged, CacheTrue, CommittedAt, Newest, NewSegment, Cached, Live;
    SoundLevels(s);
    var f := Finished(s, moved);
    var seg := NewSegment(s.store.segs, s.nextId, MAX_LEVEL, Bottom, moved, s.bitsPerKey);
    FinishedShape(s, moved);
    forall r ensures Stored(f.store, r) <==> Stored(s.store, r) || r in moved
             ensures Visible(f.store, r) <==> Visible(s.store, r) || r in moved
    {
      FinishedStores(s, moved, r);
    }
    forall r | Stored(f.store, r) ensures Logged(f.log, f.store.segs, r) {
      if r in moved {
        MovedLogged(s.log, moved, f.store.segs, r);
      } else {
        GrowLogged(s.log, moved, s.store.segs, seg, r);
      }
    }
    forall key ensures Covered(f.log, f.store, key) {
      NewestMoved(s.log, moved, key);
      LiveMoved(s.log, moved, key);
      assert Covered(s.log, s.store, key);
      if HasKey(moved, key) {
        var i :| 0 <= i < |moved| && moved[i].key == key;
        assert Visible(f.store, moved[i]);
        assert Sees(f.store, key, Newest(f.log, key));
      } else if Newest(s.log, key) > 0 && Sees(s.store, key, Newest(s.log, key)) {
        var y :| Visible(s.store, y) && y.key == key && y.ts >= Newest(s.log, key);
        assert Visible(f.store, y);
      }
    }
    FinishedCacheTrue(s, moved, |moved|);
    assert forall k :: k in f.cache.nodes && Pending(moved, |moved|, k) ==> false;
    CacheTrueAll(f, moved);
  }

  lemma MovedLogged(log: seq<LogEntry>, moved: seq<Record>, segs: seq<Segment>, r: Record)
    requires r in moved && forall i :: 0 <= i < |moved| ==> moved[i].ts == |log| + i + 1
    ensures Logged(log + Ops(moved), segs, r)
  {
  }

  /** Key still waiting for its refresh after the first `n` moved keys were entered. */
  ghost predicate Pending(moved: seq<Record>, n: nat, key: nat) {
    exists i :: n <= i < |moved| && moved[i].key == key
  }

  ghost predicate CacheTrueBut(f: State, cache: Cache, moved: seq<Record>, n: nat) {
    forall k :: k in cache.nodes ==> Pending(moved, n, k) || Cacheable(f.log, f.store.segs, k, cache.nodes[k])
  }

  lemma CacheTrueAll(f: State, moved: seq<Record>)
    requires CacheTrueBut(f, f.cache, moved, |moved|)
    ensures CacheTrue(f.log, f.store.segs, f.cache)
  {
    hide Cacheable;
  }

  /** Before any refresh, what is cached is right for every key that was not moved. */
  lemma StaleCache(s: State, moved: seq<Record>)
    requires Sound(s) && MoveOk(s, moved) && Levels(s.store)
    ensures CacheTrueBut(Finished(s, moved), s.cache, moved, 0)
    ensures forall k :: k in s.cache.nodes ==> s.cache.nodes[k].ts <= s.ts
  {
    hide ShapeOk, AllLogged, AllCovered, NewSegment, Update, Newest, Live, CommittedAt, Logged, Cached;
    var f := Finished(s, moved);
    var seg := NewSegment(s.store.segs, s.nextId, MAX_LEVEL, Bottom, moved, s.bitsPerKey);
    forall k | k in s.cache.nodes
      ensures Pending(moved, 0, k) || Cacheable(f.log, f.store.segs, k, s.cache.nodes[k])
      ensures s.cache.nodes[k].ts <= s.ts
    {
      assert Cacheable(s.log, s.store.segs, k, s.cache.nodes[k]);
      GrowLogged(s.log, moved, s.store.segs, seg, CachedRecord(k, s.cache.nodes[k]));
      NewestMoved(s.log, moved, k);
      LiveMoved(s.log, moved, k);
      LoggedBound(s.log, s.store.segs, CachedRecord(k, s.cache.nodes[k]));
      if HasKey(moved, k) {
        var i :| 0 <= i < |moved| && moved[i].key == k;
        assert Pending(moved, 0, k);
      }
    }
  }

  lemma {:induction false} FinishedCacheTrue(s: State, moved: seq<Record>, n: nat)
    requires Sound(s) && MoveOk(s, moved) && Levels(s.store) && n <= |moved|
    ensures CacheTrueBut(Finished(s, moved), Cached(s.cache, moved, n), moved, n)
    ensures forall k :: k in Cached(s.cache, moved, n).nodes ==> Cached(s.cache, moved, n).nodes[k].ts <= s.ts + n
  {
    hide Sound, Finished, Update, Cacheable;
    var f := Finished(s, moved);
    if n == 0 {
      StaleCache(s, moved);
    } else {
      FinishedCacheTrue(s, moved, n - 1);
      var r := moved[n - 1];
      var before, node := Cached(s.cache, moved, n - 1), CacheNode(r.pba, r.valid, r.ts);
      UpdateNodes(before, r.key, node);
      MovedCacheable(s, moved, n - 1);
      var after := Cached(s.cache, moved, n);
      forall k | k in after.nodes ensures Pending(moved, n, k) || Cacheable(f.log, f.store.segs, k, after.nodes[k]) {
        if k != r.key && Pending(moved, n - 1, k) {
          var i :| n - 1 <= i < |moved| && moved[i].key == k;
          assert i >= n;
        }
      }
    }
  }

  /** A moved record may be cached. */
  lemma MovedCacheable(s: State, moved: seq<Record>, i: nat)
    requires Sound(s) && MoveOk(s, moved) && Levels(s.store) && i < |moved|
    ensures var f := Finished(s, moved);
            Cacheable(f.log, f.store.segs, moved[i].key, CacheNode(moved[i].pba, moved[i].valid, moved[i].ts))
  {
    hide ShapeOk, AllLogged, AllCovered, CacheTrue, NewSegment, Cached, Newest, Live, Logged;
    var f, r := Finished(s, moved), moved[i];
    MovedLogged(s.log, moved, f.store.segs, r);
    LoggedSame(f.log, f.store.segs, r, CachedRecord(r.key, CacheNode(r.pba, r.valid, r.ts)));
    NewestMoved(s.log, moved, r.key);
    LiveMoved(s.log, moved, r.key);
    assert HasKey(moved, r.key);
  }

  lemma LoggedSame(log: seq<LogEntry>, segs: seq<Segment>, x: Record, r: Record)
    requires Logged(log, segs, x) && x == r.(zone := x.zone)
    ensures Logged(log, segs, r)
  {
    hide CommittedAt;
    SameCommitted(segs, x, r);
  }

  lemma SlideMoveOk(s: State, zone: nat, io: Io)
    requires Levels(s.store) && SlideTo(s, zone, io, TOTAL_ITEMS).moved != []
    ensures MoveOk(s, SlideTo(s, zone, io, TOTAL_ITEMS).moved)
  {
    hide SlideTo, SourceOfKey;
    SlideMoves(s, zone, io, TOTAL_ITEMS);
    SlideAscends(s, zone, io, TOTAL_ITEMS);
    var moved := SlideTo(s, zone, io, TOTAL_ITEMS).moved;
    forall i | 0 <= i < |moved| ensures moved[i].valid && moved[i].ts == s.ts + i + 1 {
      assert MovedOk(s, zone, moved[i], i, TOTAL_ITEMS);
    }
  }

  lemma {:induction false} GapsSound(s: State, n: nat, disk: Disk)
    requires Sound(s)
    ensures Sound(s.(disk := disk, ts := s.ts + n, log := s.log + Gaps(n)))
    ensures forall key ::
              Newest(s.log + Gaps(n), key) == Newest(s.log, key) && Live(s.log + Gaps(n), key) == Live(s.log, key)
  {
    hide ShapeOk, Newest, CommittedAt, Stored, Visible;
    if n == 0 {
      assert s.log + Gaps(0) == s.log;
      OutsideSound(s, s.(disk := disk, ts := s.ts + 0, log := s.log + Gaps(0)));
    } else {
      GapsSound(s, n - 1, disk);
      var t := s.(disk := disk, ts := s.ts + (n - 1), log := s.log + Gaps(n - 1));
      var u := s.(disk := disk, ts := s.ts + n, log := s.log + Gaps(n));
      assert u.log == t.log + [Gap];
      GapSound(t, u);
    }
  }

  /** A timestamp that no record uses changes nothing. */
  lemma GapSound(t: State, u: State)
    requires Sound(t) && u == t.(ts := t.ts + 1, log := t.log + [Gap])
    ensures Sound(u)
    ensures forall key :: Newest(u.log, key) == Newest(t.log, key) && Live(u.log, key) == Live(t.log, key)
  {
    hide StoreOk, ListsTimed, IdsOk, CacheOk, OutputsOk, Newest, CommittedAt, Stored, Visible;
    forall key ensures Newest(u.log, key) == Newest(t.log, key) && Live(u.log, key) == Live(t.log, key) {
      NewestAppend(t.log, Gap, key);
    }
    forall r | Stored(t.store, r) ensures Logged(u.log, u.store.segs, r) {
      AppendLogged(t.log, Gap, t.store.segs, r);
    }
    forall key ensures Covered(u.log, u.store, key) {
      assert Covered(t.log, t.store, key);
    }
    forall key | key in t.cache.nodes ensures Cacheable(u.log, u.store.segs, key, t.cache.nodes[key]) {
      AppendLogged(t.log, Gap, t.store.segs, CachedRecord(key, t.cache.nodes[key]));
    }
  }

  lemma CompactZoneSound(s: State, zone: nat, io: Io)
    requires Sound(s)
    ensures Levels(s.store) && Sound(CompactZone(s, zone, io))
  {
    hide Sound, SlideTo, Finished, FinishZone, MoveOk, SameButStats;
    SoundLevels(s);
    if !Refused(s, zone) {
      var slide := SlideTo(s, zone, io, TOTAL_ITEMS);
      if !slide.ok {
        GapsSound(s, |slide.moved|, slide.disk);
      } else if slide.moved != [] {
        var t := s.(disk := slide.disk);
        OutsideSound(s, t);
        SlideMoveOk(s, zone, io);
        MoveOkDisk(s, t, slide.moved);
        FinishedSound(t, slide.moved);
        FinishedIsFinishZone(t, zone, slide.moved);
        FinishZoneSound(t, zone, slide.moved);
      }
    }
  }

  lemma MoveOkDisk(s: State, t: State, moved: seq<Record>)
    requires MoveOk(s, moved) && t.ts == s.ts
    ensures MoveOk(t, moved)
  {
  }

  lemma FinishZoneSound(t: State, zone: nat, moved: seq<Record>)
    requires Levels(t.store) && zone + 1 < |t.zoneFill| && moved != [] && Sound(Finished(t, moved))
    ensures Sound(FinishZone(t, zone, moved))
  {
    hide AllLogged, AllCovered, CacheTrue, Rearranged, Finished, FinishZone, StoreOk, CacheOk, SameButStats,
      ListsTimed, IdsOk, OutputsOk;
    var f, r := Finished(t, moved), FinishZone(t, zone, moved);
    FinishedIsFinishZone(t, zone, moved);
    SameButStatsShape(f, r.store.segs);
    StatsRearranged(f.store, r.store.segs);
    FinishedFields(t, moved);
    KeepsSound(f, r);
  }

  lemma FinishedFields(t: State, moved: seq<Record>)
    requires Levels(t.store)
    ensures var f := Finished(t, moved);
            && f.commits == t.commits && f.threshold == t.threshold && f.plan == t.plan && f.zone == t.zone
            && f.zoneFill == t.zoneFill
  {
  }
}
