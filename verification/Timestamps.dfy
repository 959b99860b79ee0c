/** Timestamps of deleted keys. A read of a live key reports its newest version; a read of a deleted key
    may report an older delete than the last one, exactly when segment compaction dropped the last one
    as unneeded. */
module Timestamps {
  import opened Types
  import opened Tables
  import opened Scan
  import opened ReadTree
  import opened Obsolescence
  import opened Spec
  import opened Outputs
  import opened Shape
  import opened History
  import opened SoundSteps

  // ---------------------------------------------------------------- exactly when

  /** The read path reports the timestamp of the last operation exactly when a record of it is visible. */
  lemma ReadTimestamp(s: State, key: nat)
    requires Sound(s) && Newest(s.log, key) > 0
    ensures SlowBest(s, key).ts == Newest(s.log, key) <==> Sees(s.store, key, Newest(s.log, key))
    ensures SlowBest(s, key).ts <= Newest(s.log, key)
  {
    hide ShapeOk, Visible, Stored, CommittedAt, Newest, CacheTrue, ReadRecords, AllCovered;
    var rs, b := ReadRecords(s.store), SlowBest(s, key);
    FoldIsNewest(NONE, rs, key);
    ReadSeesVisible(s);
    if b.found {
      var i :| 0 <= i < |rs| && IsRecord(rs[i], key, b);
      assert rs[i] in rs;
      assert Visible(s.store, rs[i]);
      VisibleBound(s, rs[i]);
      assert b.ts == Newest(s.log, key) ==> Sees(s.store, key, Newest(s.log, key));
    }
    if Sees(s.store, key, Newest(s.log, key)) {
      var x :| Visible(s.store, x) && x.key == key && x.ts >= Newest(s.log, key);
      assert x in rs;
    }
  }

  lemma VisibleBound(s: State, r: Record)
    requires Sound(s) && Visible(s.store, r)
    ensures r.ts <= Newest(s.log, r.key) && (r.ts == Newest(s.log, r.key) ==> r.valid == Live(s.log, r.key))
  {
    hide ShapeOk, Visible, Stored, CommittedAt, Newest, CacheTrue, AllCovered;
    VisibleStored(s.store, r);
    assert Logged(s.log, s.store.segs, r);
    LoggedBound(s.log, s.store.segs, r);
  }

  /** What a read that misses the read tree leaves there is the last timestamp exactly when a record of it is
      visible. */
  lemma CachedTimestamp(s: State, key: nat)
    requires Sound(s) && key !in s.cache.nodes
    ensures var c := Read(s, key).cache;
            && (key in c.nodes <==> SlowBest(s, key).found)
            && (key in c.nodes ==> c.nodes[key].ts == SlowBest(s, key).ts)
            && (key in c.nodes ==>
                  (c.nodes[key].ts == Newest(s.log, key) <==> Sees(s.store, key, Newest(s.log, key))))
  {
    hide ShapeOk, Visible, Stored, CommittedAt, Newest, CacheTrue, ReadRecords, AllCovered, Update, AllLogged, Sees;
    var b := SlowBest(s, key);
    if b.found {
      FoundIsLogged(s, key);
      ReadTimestamp(s, key);
      UpdateCaches(s.cache, key, CacheNode(b.pba, b.valid, b.ts));
    }
  }

  lemma FoundIsLogged(s: State, key: nat)
    requires Sound(s) && SlowBest(s, key).found
    ensures Newest(s.log, key) > 0 && CacheOk(s.cache)
  {
    hide StoreOk, ListsTimed, OutputsOk, CacheOk, Visible, Stored, CommittedAt, Newest, CacheTrue, ReadRecords,
      AllCovered;
    var rs, b := ReadRecords(s.store), SlowBest(s, key);
    FoldIsNewest(NONE, rs, key);
    ReadSeesVisible(s);
    var i :| 0 <= i < |rs| && IsRecord(rs[i], key, b);
    assert rs[i] in rs;
    VisibleBound(s, rs[i]);
  }

  /** A version at least as new as `ts` is visible outside segment `at`. */
  ghost predicate SeenElsewhere(st: Store, at: nat, key: nat, ts: nat) {
    exists r: Record :: r.key == key && r.ts >= ts && (InUnsorted(st, r) || InOther(st.segs, at, r))
  }

  ghost predicate InOther(segs: seq<Segment>, at: nat, r: Record) {
    exists i :: 0 <= i < |segs| && i != at && !segs[i].retired && InTable(segs[i], r)
  }

  /** Segment compaction keeps the last operation on a key visible exactly when another list shows it, it
      was a write, the zone map has a block for the key, or an older write of the key is still stored. */
  lemma NewestStaysVisible(s: State, at: nat, key: nat)
    requires Sound(s) && Levels(s.store) && at < |s.store.segs| && !s.store.segs[at].retired
    requires Newest(s.log, key) > 0 && Sees(s.store, key, Newest(s.log, key))
    ensures var n := Newest(s.log, key);
            Sees(ReplaceSegment(s, at).store, key, n) <==>
              || SeenElsewhere(s.store, at, key, n) || Live(s.log, key) || key in s.zone
              || OlderValidIn(AllRecords(s.store), key, n)
  {
    hide Sound, ReplaceSegment, Replaced, Visible, SameButStats, Keeps, AllRecords, Newest, Live, OlderValidIn,
      SeenElsewhere;
    var n, later := Newest(s.log, key), Replaced(s, at);
    assert ShapeOk(s) by { SoundShape(s); }
    ReplacedIsReplaceSegment(s, at);
    assert Sees(ReplaceSegment(s, at).store, key, n) <==> Sees(later, key, n) by {
      forall r ensures Visible(ReplaceSegment(s, at).store, r) == Visible(later, r) {
        SameStored(later, ReplaceSegment(s, at).store.segs, r);
      }
    }
    if SeenElsewhere(s.store, at, key, n) {
      ElsewhereStays(s, at, key, n);
    } else {
      NewestOnlyHere(s, at, key);
    }
  }

  lemma ElsewhereStays(s: State, at: nat, key: nat, n: nat)
    requires Levels(s.store) && at < |s.store.segs| && SeenElsewhere(s.store, at, key, n)
    ensures Sees(Replaced(s, at), key, n)
  {
    hide KeptBy, NewSegment;
    var later := Replaced(s, at);
    var r: Record :| r.key == key && r.ts >= n && (InUnsorted(s.store, r) || InOther(s.store.segs, at, r));
    if InUnsorted(s.store, r) {
      assert InUnsorted(later, r);
    } else {
      var i :| 0 <= i < |s.store.segs| && i != at && !s.store.segs[i].retired && InTable(s.store.segs[i], r);
      assert later.segs[i] == s.store.segs[i];
      assert InActive(later.segs, r);
    }
    assert Visible(later, r);
  }

  /** With its only visible copies in the segment, the newest version stays exactly if it is kept. */
  lemma NewestOnlyHere(s: State, at: nat, key: nat)
    requires Sound(s) && Levels(s.store) && at < |s.store.segs| && !s.store.segs[at].retired
    requires Newest(s.log, key) > 0 && Sees(s.store, key, Newest(s.log, key))
    requires !SeenElsewhere(s.store, at, key, Newest(s.log, key))
    ensures var n := Newest(s.log, key);
            Sees(Replaced(s, at), key, n) <==>
              Live(s.log, key) || key in s.zone || OlderValidIn(AllRecords(s.store), key, n)
  {
    hide Sound, Replaced, Keeps, AllRecords, Newest, Live, OlderValidIn, Visible;
    var n, later, seg := Newest(s.log, key), Replaced(s, at), s.store.segs[at];
    SoundShape(s);
    var x :| Visible(s.store, x) && x.key == key && x.ts >= n;
    KeepsNewest(s, x);
    if Keeps(AllRecords(s.store), s.zone, x) {
      ReplacedShows(s, at, x);
      var y :| Visible(later, y) && y.key == key && y.ts >= x.ts;
      assert Sees(later, key, n);
    }
    if Sees(later, key, n) {
      var y :| Visible(later, y) && y.key == key && y.ts >= n;
      var z := ComesFromKept(s, at, y, n);
      KeepsNewest(s, z);
    }
  }

  /** Whether the newest version of a key is kept depends only on these. */
  lemma KeepsNewest(s: State, x: Record)
    requires Sound(s) && Levels(s.store) && Visible(s.store, x) && x.ts >= Newest(s.log, x.key)
    ensures x.ts == Newest(s.log, x.key)
    ensures Keeps(AllRecords(s.store), s.zone, x) <==>
              Live(s.log, x.key) || x.key in s.zone || OlderValidIn(AllRecords(s.store), x.key, Newest(s.log, x.key))
  {
    hide ShapeOk, Visible, Stored, CommittedAt, Newest, CacheTrue, AllCovered, AllRecords, Newer, OlderValidIn, Live;
    var all := AllRecords(s.store);
    VisibleBound(s, x);
    NewerMeans(all, x);
    if Newer(all, x).found {
      var y :| y in all && y.key == x.key && y.ts > x.ts;
      AllRecordsMembers(s.store, y);
      assert Logged(s.log, s.store.segs, y);
      LoggedBound(s.log, s.store.segs, y);
    }
  }

  /** What is visible after the compaction was visible elsewhere before, or was kept. */
  lemma ShownAfter(s: State, at: nat, y: Record)
    requires ShapeOk(s) && Levels(s.store) && at < |s.store.segs| && !s.store.segs[at].retired
    requires Visible(Replaced(s, at), y)
    ensures InUnsorted(s.store, y) || InOther(s.store.segs, at, y) || y in KeptBy(s, at)
  {
    hide StoreOk, ListsTimed, CacheOk, OutputsOk, KeptBy, NewSegment, UpsertAll;
    var later, seg := Replaced(s, at), s.store.segs[at];
    if InUnsorted(later, y) {
      assert InUnsorted(s.store, y);
    } else {
      var i :| 0 <= i < |later.segs| && !later.segs[i].retired && InTable(later.segs[i], y);
      if i < |s.store.segs| {
        assert later.segs[i] == s.store.segs[i] && i != at;
      } else {
        KeptByTimed(s, at);
        NewSegmentOk(s.store.segs, s.nextId, seg.level, seg.track, KeptBy(s, at), s.bitsPerKey);
        KeptRecords(s, at, y);
        TableMembers(later.segs[i], y);
      }
    }
  }

  lemma ComesFromKept(s: State, at: nat, y: Record, n: nat) returns (x: Record)
    requires ShapeOk(s) && Levels(s.store) && at < |s.store.segs| && !s.store.segs[at].retired
    requires Visible(Replaced(s, at), y) && y.ts >= n && !SeenElsewhere(s.store, at, y.key, n)
    ensures Visible(s.store, x) && x.key == y.key && x.ts == y.ts && Keeps(AllRecords(s.store), s.zone, x)
  {
    hide ShapeOk, InUnsorted, InOther, Replaced, KeptBy, Keeps, AllRecords;
    ShownAfter(s, at, y);
    x := KeptWasKept(s, at, y);
    assert InActive(s.store.segs, x);
  }

  lemma KeptWasKept(s: State, at: nat, y: Record) returns (x: Record)
    requires Levels(s.store) && at < |s.store.segs| && y in KeptBy(s, at)
    ensures InTable(s.store.segs[at], x) && x.key == y.key && x.ts == y.ts && Keeps(AllRecords(s.store), s.zone, x)
  {
    hide Keeps, AllRecords;
    var seg := s.store.segs[at];
    var rs := Recs(seg.table);
    var kept := KeptOf(AllRecords(s.store), s.zone, rs);
    var i :| 0 <= i < |kept| && KeptBy(s, at)[i] == y;
    x := kept[i];
    KeptFacts(AllRecords(s.store), s.zone, seg.table, |seg.table|);
    assert rs[..|seg.table|] == rs;
    assert x in kept;
    TableMembers(seg, x);
  }
}
