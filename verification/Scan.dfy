/** The searches over the record store: latest record, newer record, older valid record, and the
    read path that consults unsorted lists and segments but skips the sorted lists. */
module Scan {
  import opened Types
  import opened Tables
  import opened BloomFilter

  /** The best record met so far; `ts` is 0 (or the caller's bound) before any was met. */
  datatype Best = Best(found: bool, ts: nat, valid: bool, pba: nat)

  const NONE: Best := Best(false, 0, false, 0)

  function Consider(b: Best, r: Record, key: nat): Best {
    if r.key == key && r.ts > b.ts then Best(true, r.ts, r.valid, r.pba) else b
  }

  /** Newest record of `key` among `rs`, if newer than `b`; of equals, the first met. */
  function Fold(b: Best, rs: seq<Record>, key: nat): Best {
    if rs == [] then b else Consider(Fold(b, rs[..|rs| - 1], key), rs[|rs| - 1], key)
  }

  // ---------------------------------------------------------------- scanning orders

  function UnsortedRecords(st: Store, n: nat): seq<Record>
    requires n <= |st.unsorted|
  {
    if n == 0 then [] else UnsortedRecords(st, n - 1) + st.unsorted[n - 1]
  }

  function LevelRecords(st: Store, n: nat): seq<Record>
    requires n <= |st.unsorted| == |st.sorted|
  {
    if n == 0 then [] else LevelRecords(st, n - 1) + st.unsorted[n - 1] + st.sorted[n - 1]
  }

  /** Entries of the active ones of the first `n` segments. */
  function SegmentRecords(segs: seq<Segment>, n: nat): seq<Record>
    requires n <= |segs|
  {
    if n == 0 then []
    else SegmentRecords(segs, n - 1) + (if segs[n - 1].retired then [] else Recs(segs[n - 1].table))
  }

  /** Entries of the active ones of the first `n` segments that stand at `level`. */
  function SegmentRecordsAt(segs: seq<Segment>, level: nat, n: nat): seq<Record>
    requires n <= |segs|
  {
    if n == 0 then []
    else SegmentRecordsAt(segs, level, n - 1) +
         (if segs[n - 1].retired || segs[n - 1].level != level then [] else Recs(segs[n - 1].table))
  }

  predicate HasSegment(segs: seq<Segment>, level: nat) {
    exists i :: 0 <= i < |segs| && segs[i].level == level
  }

  /** Every record the exhaustive searches see, in their order. */
  function AllRecords(st: Store): seq<Record>
    requires |st.unsorted| == |st.sorted|
  {
    LevelRecords(st, |st.unsorted|) + SegmentRecords(st.segs, |st.segs|)
  }

  /** What the read path looks at for the first `n` levels, after the unsorted lists: active
      segments, and a sorted list only where no segment was ever created. */
  function ReadLevels(st: Store, n: nat): seq<Record>
    requires n <= |st.sorted|
  {
    if n == 0 then []
    else ReadLevels(st, n - 1) + SegmentRecordsAt(st.segs, n - 1, |st.segs|) +
         (if HasSegment(st.segs, n - 1) then [] else st.sorted[n - 1])
  }

  function ReadRecords(st: Store): seq<Record> {
    UnsortedRecords(st, |st.unsorted|) + ReadLevels(st, |st.sorted|)
  }

  // ---------------------------------------------------------------- where a record is

  ghost predicate InUnsorted(st: Store, r: Record) {
    exists l :: 0 <= l < |st.unsorted| && r in st.unsorted[l]
  }

  ghost predicate InSorted(st: Store, r: Record) {
    exists l :: 0 <= l < |st.sorted| && r in st.sorted[l]
  }

  ghost predicate InTable(seg: Segment, r: Record) {
    exists j :: 0 <= j < |seg.table| && seg.table[j].rec == r
  }

  ghost predicate InActive(segs: seq<Segment>, r: Record) {
    exists i :: 0 <= i < |segs| && !segs[i].retired && InTable(segs[i], r)
  }

  /** In an unsorted list or an active segment: what the read path can find. */
  ghost predicate Visible(st: Store, r: Record) { InUnsorted(st, r) || InActive(st.segs, r) }

  ghost predicate Stored(st: Store, r: Record) { Visible(st, r) || InSorted(st, r) }

  // ---------------------------------------------------------------- lemmas about Fold

  lemma {:induction false} FoldConcat(b: Best, xs: seq<Record>, ys: seq<Record>, key: nat)
    ensures Fold(b, xs + ys, key) == Fold(Fold(b, xs, key), ys, key)
  {
    if ys == [] {
      assert xs + ys == xs;
    } else {
      var n := |ys| - 1;
      FoldConcat(b, xs, ys[..n], key);
      assert (xs + ys)[..|xs + ys| - 1] == xs + ys[..n];
    }
  }

  /** The scan finds the newest record of the key: none newer exists, and what it reports is one
      of the records (or the bound it started from). */
  lemma {:induction false} FoldIsNewest(b: Best, rs: seq<Record>, key: nat)
    ensures var f := Fold(b, rs, key);
            && f.ts >= b.ts
            && (forall r :: r in rs && r.key == key ==> r.ts <= f.ts)
            && (f == b || (f.found && f.ts > b.ts && HasRecord(rs, key, f)))
  {
    if rs != [] {
      var n := |rs| - 1;
      FoldIsNewest(b, rs[..n], key);
      var g := Fold(b, rs[..n], key);
      assert rs == rs[..n] + [rs[n]];
      if g != b {
        var i :| 0 <= i < |rs[..n]| && IsRecord(rs[..n][i], key, g);
        assert IsRecord(rs[i], key, g);
      }
      if Consider(g, rs[n], key) != g {
        assert IsRecord(rs[n], key, Consider(g, rs[n], key));
      }
    }
  }

  ghost predicate IsRecord(r: Record, key: nat, f: Best) {
    r.key == key && r.ts == f.ts && r.valid == f.valid && r.pba == f.pba
  }

  ghost predicate HasRecord(rs: seq<Record>, key: nat, f: Best) {
    exists i :: 0 <= i < |rs| && IsRecord(rs[i], key, f)
  }

  /** A key-unique list contributes the one record it has for the key. */
  lemma {:induction false} FoldUnique(b: Best, rs: seq<Record>, key: nat, at: nat)
    requires at <= |rs|
    requires at < |rs| ==> rs[at].key == key
    requires forall i :: 0 <= i < |rs| && i != at ==> rs[i].key != key
    ensures Fold(b, rs, key) == if at < |rs| then Consider(b, rs[at], key) else b
  {
    if rs != [] {
      var n := |rs| - 1;
      FoldUnique(b, rs[..n], key, if at < n then at else n);
    }
  }

  // ---------------------------------------------------------------- membership of the orders

  lemma {:induction false} UnsortedRecordsMembers(st: Store, n: nat, r: Record)
    requires n <= |st.unsorted|
    ensures r in UnsortedRecords(st, n) <==> exists l :: 0 <= l < n && r in st.unsorted[l]
  {
    if n > 0 { UnsortedRecordsMembers(st, n - 1, r); }
  }

  lemma {:induction false} LevelRecordsMembers(st: Store, n: nat, r: Record)
    requires n <= |st.unsorted| == |st.sorted|
    ensures r in LevelRecords(st, n) <==>
            (exists l :: 0 <= l < n && r in st.unsorted[l]) || (exists l :: 0 <= l < n && r in st.sorted[l])
  {
    if n > 0 { LevelRecordsMembers(st, n - 1, r); }
  }

  lemma {:induction false} SegmentRecordsMembers(segs: seq<Segment>, n: nat, r: Record)
    requires n <= |segs|
    ensures r in SegmentRecords(segs, n) <==> exists i :: 0 <= i < n && !segs[i].retired && InTable(segs[i], r)
  {
    if n > 0 {
      SegmentRecordsMembers(segs, n - 1, r);
      TableMembers(segs[n - 1], r);
    }
  }

  lemma {:induction false} SegmentRecordsAtMembers(segs: seq<Segment>, level: nat, n: nat, r: Record)
    requires n <= |segs|
    ensures r in SegmentRecordsAt(segs, level, n) <==>
            exists i :: 0 <= i < n && !segs[i].retired && segs[i].level == level && InTable(segs[i], r)
  {
    if n > 0 {
      SegmentRecordsAtMembers(segs, level, n - 1, r);
      TableMembers(segs[n - 1], r);
    }
  }

  lemma TableMembers(seg: Segment, r: Record)
    ensures r in Recs(seg.table) <==> InTable(seg, r)
  {
    var rs := Recs(seg.table);
    if r in rs {
      var j :| 0 <= j < |rs| && rs[j] == r;
      assert seg.table[j].rec == r;
    }
    if InTable(seg, r) {
      var j :| 0 <= j < |seg.table| && seg.table[j].rec == r;
      assert rs[j] == r;
    }
  }

  lemma AllRecordsMembers(st: Store, r: Record)
    requires |st.unsorted| == |st.sorted|
    ensures r in AllRecords(st) <==> Stored(st, r)
  {
    LevelRecordsMembers(st, |st.unsorted|, r);
    SegmentRecordsMembers(st.segs, |st.segs|, r);
  }

  /** Where every non-empty sorted list stands at a level that has had a segment, the read path
      sees exactly the visible records. */
  lemma ReadRecordsMembers(st: Store, r: Record)
    requires forall l :: 0 <= l < |st.sorted| && st.sorted[l] != [] ==> HasSegment(st.segs, l)
    requires forall i :: 0 <= i < |st.segs| ==> st.segs[i].level < |st.sorted|
    ensures r in ReadRecords(st) <==> Visible(st, r)
  {
    UnsortedRecordsMembers(st, |st.unsorted|, r);
    ReadLevelsMembers(st, |st.sorted|, r);
  }

  lemma {:induction false} ReadLevelsMembers(st: Store, n: nat, r: Record)
    requires forall l :: 0 <= l < |st.sorted| && st.sorted[l] != [] ==> HasSegment(st.segs, l)
    requires n <= |st.sorted|
    ensures r in ReadLevels(st, n) <==>
            exists i :: 0 <= i < |st.segs| && !st.segs[i].retired && st.segs[i].level < n && InTable(st.segs[i], r)
  {
    if n > 0 {
      ReadLevelsMembers(st, n - 1, r);
      SegmentRecordsAtMembers(st.segs, n - 1, |st.segs|, r);
    }
  }

  // ---------------------------------------------------------------- shape of the store

  /** A segment answers for its table: keys ascend, lie in the key range and pass the filter. */
  ghost predicate SegmentOk(seg: Segment) {
    && seg.table != []
    && seg.level < LEVELS
    && Ascending(Recs(seg.table))
    && seg.bloom.bits == |seg.bloom.words| * 64
    && (forall j :: 0 <= j < |seg.table| ==> EntryOk(seg, seg.table[j].rec))
  }

  ghost predicate EntryOk(seg: Segment, r: Record) {
    seg.minKey <= r.key <= seg.maxKey && MayContain(seg.bloom, r.key) && r.ts > 0
  }

  ghost predicate StoreOk(st: Store) {
    && |st.unsorted| == |st.sorted| == LEVELS
    && (forall l :: 0 <= l < LEVELS ==> Ascending(st.sorted[l]))
    && (forall l :: 0 <= l < LEVELS && st.sorted[l] != [] ==> HasSegment(st.segs, l))
    && (forall i :: 0 <= i < |st.segs| ==> SegmentOk(st.segs[i]))
  }

  /** The two segment lists differ at most in statistics: same tables, same retirement. */
  ghost predicate SameButStats(a: seq<Segment>, b: seq<Segment>) {
    |a| == |b| && forall i :: 0 <= i < |a| ==> SameSegment(a[i], b[i])
  }

  ghost predicate SameSegment(a: Segment, b: Segment) {
    a == b.(stats := a.stats, score := a.score, hits := a.hits)
  }

  lemma {:induction false} SameRecords(a: seq<Segment>, b: seq<Segment>, level: nat, n: nat)
    requires SameButStats(a, b) && n <= |a|
    ensures SegmentRecords(a, n) == SegmentRecords(b, n)
    ensures SegmentRecordsAt(a, level, n) == SegmentRecordsAt(b, level, n)
    ensures HasSegment(a, level) == HasSegment(b, level)
  {
    if n > 0 {
      SameRecords(a, b, level, n - 1);
      assert SameSegment(a[n - 1], b[n - 1]);
    }
    if HasSegment(b, level) {
      var i :| 0 <= i < |b| && b[i].level == level;
      assert SameSegment(a[i], b[i]);
    }
    if HasSegment(a, level) {
      var i :| 0 <= i < |a| && a[i].level == level;
      assert SameSegment(a[i], b[i]);
    }
  }

  lemma SameStored(st: Store, segs: seq<Segment>, r: Record)
    requires SameButStats(segs, st.segs)
    ensures Visible(st.(segs := segs), r) == Visible(st, r)
    ensures Stored(st.(segs := segs), r) == Stored(st, r)
  {
    var st2 := st.(segs := segs);
    assert InUnsorted(st, r) == InUnsorted(st2, r);
    assert InSorted(st, r) == InSorted(st2, r);
    SameRecords(segs, st.segs, 0, |segs|);
    SegmentRecordsMembers(segs, |segs|, r);
    SegmentRecordsMembers(st.segs, |segs|, r);
  }

  lemma SameStoreOk(st: Store, segs: seq<Segment>)
    requires SameButStats(segs, st.segs) && StoreOk(st)
    ensures StoreOk(st.(segs := segs))
  {
    forall l | 0 <= l < LEVELS && st.sorted[l] != [] ensures HasSegment(segs, l) {
      SameRecords(segs, st.segs, l, 0);
    }
    forall i | 0 <= i < |segs| ensures SegmentOk(segs[i]) {
      assert SameSegment(segs[i], st.segs[i]) && SegmentOk(st.segs[i]);
      forall j | 0 <= j < |segs[i].table| ensures EntryOk(segs[i], segs[i].table[j].rec) {
        assert EntryOk(st.segs[i], st.segs[i].table[j].rec);
      }
    }
  }

  // ---------------------------------------------------------------- the searches

  method ScanList(rs: seq<Record>, key: nat, init: Best) returns (b: Best)
    ensures b == Fold(init, rs, key)
  {
    b := init;
    var i := 0;
    while i < |rs|
      invariant i <= |rs|
      invariant b == Fold(init, rs[..i], key)
    {
      assert rs[..i + 1][..i] == rs[..i];
      if rs[i].key == key && rs[i].ts > b.ts {
        b := Best(true, rs[i].ts, rs[i].valid, rs[i].pba);
      }
      i := i + 1;
    }
    assert rs[..i] == rs;
  }

  /** The sorted list is left as soon as its keys pass `key`. */
  method ScanSorted(rs: seq<Record>, key: nat, init: Best) returns (b: Best)
    requires Ascending(rs)
    ensures b == Fold(init, rs, key)
  {
    var i := 0;
    while i < |rs|
      invariant i <= |rs|
      invariant forall j :: 0 <= j < i ==> rs[j].key < key
    {
      if rs[i].key == key {
        FoldUnique(init, rs, key, i);
        return Consider(init, rs[i], key);
      }
      if rs[i].key > key {
        break;
      }
      i := i + 1;
    }
    FoldUnique(init, rs, key, |rs|);
    return init;
  }

  method ScanTable(table: seq<Entry>, key: nat, init: Best) returns (found: bool, b: Best)
    requires Ascending(Recs(table))
    ensures b == Fold(init, Recs(table), key)
    ensures found <==> exists j :: 0 <= j < |table| && table[j].rec.key == key
  {
    var at;
    found, at := TableFind(table, key);
    FoldUnique(init, Recs(table), key, if found then at else |table|);
    b := if found then Consider(init, table[at].rec, key) else init;
  }

  method ScanLevels(st: Store, key: nat, init: Best) returns (b: Best)
    requires StoreOk(st)
    ensures b == Fold(init, LevelRecords(st, LEVELS), key)
  {
    hide SegmentOk, Fold;
    b := init;
    assert Fold(init, [], key) == init by { FoldUnique(init, [], key, 0); }
    var level := 0;
    while level < LEVELS
      invariant level <= LEVELS
      invariant b == Fold(init, LevelRecords(st, level), key)
    {
      FoldConcat(init, LevelRecords(st, level), st.unsorted[level], key);
      FoldConcat(init, LevelRecords(st, level) + st.unsorted[level], st.sorted[level], key);
      b := ScanList(st.unsorted[level], key, b);
      b := ScanSorted(st.sorted[level], key, b);
      level := level + 1;
    }
  }

  /** The common body of imr_lsm_find_latest_record_locked and imr_lsm_find_newer_record_locked:
      all levels, unsorted before sorted, then the active segments. */
  method ScanAll(st: Store, key: nat, init: Best) returns (b: Best)
    requires StoreOk(st)
    ensures b == Fold(init, AllRecords(st), key)
  {
    hide MayContain, Fold;
    b := ScanLevels(st, key, init);
    ghost var afterLevels := b;
    assert Fold(b, [], key) == b by { FoldUnique(b, [], key, 0); }
    var i := 0;
    while i < |st.segs|
      invariant i <= |st.segs|
      invariant b == Fold(afterLevels, SegmentRecords(st.segs, i), key)
    {
      if !st.segs[i].retired {
        assert SegmentOk(st.segs[i]);
        FoldConcat(afterLevels, SegmentRecords(st.segs, i), Recs(st.segs[i].table), key);
        var found;
        found, b := ScanTable(st.segs[i].table, key, b);
      } else {
        assert SegmentRecords(st.segs, i + 1) == SegmentRecords(st.segs, i);
      }
      i := i + 1;
    }
    FoldConcat(init, LevelRecords(st, LEVELS), SegmentRecords(st.segs, |st.segs|), key);
  }

  predicate OlderValidIn(rs: seq<Record>, key: nat, ts: nat) {
    exists i :: 0 <= i < |rs| && rs[i].key == key && rs[i].valid && rs[i].ts < ts
  }

  lemma OlderValidConcat(xs: seq<Record>, ys: seq<Record>, key: nat, ts: nat)
    ensures OlderValidIn(xs + ys, key, ts) <==> OlderValidIn(xs, key, ts) || OlderValidIn(ys, key, ts)
  {
    if OlderValidIn(xs, key, ts) {
      var i :| 0 <= i < |xs| && xs[i].key == key && xs[i].valid && xs[i].ts < ts;
      assert (xs + ys)[i] == xs[i];
    }
    if OlderValidIn(ys, key, ts) {
      var i :| 0 <= i < |ys| && ys[i].key == key && ys[i].valid && ys[i].ts < ts;
      assert (xs + ys)[|xs| + i] == ys[i];
    }
  }

  method OlderValidInList(rs: seq<Record>, key: nat, ts: nat) returns (older: bool)
    ensures older <==> OlderValidIn(rs, key, ts)
  {
    var i := 0;
    while i < |rs|
      invariant i <= |rs|
      invariant !OlderValidIn(rs[..i], key, ts)
    {
      if rs[i].key == key && rs[i].valid && rs[i].ts < ts {
        return true;
      }
      OlderValidConcat(rs[..i], [rs[i]], key, ts);
      assert rs[..i + 1] == rs[..i] + [rs[i]];
      i := i + 1;
    }
    assert rs[..i] == rs;
    return false;
  }

  method OlderValidInSorted(rs: seq<Record>, key: nat, ts: nat) returns (older: bool)
    requires Ascending(rs)
    ensures older <==> OlderValidIn(rs, key, ts)
  {
    var i := 0;
    while i < |rs|
      invariant i <= |rs|
      invariant forall j :: 0 <= j < i ==> rs[j].key < key
    {
      if rs[i].key == key {
        return rs[i].valid && rs[i].ts < ts;
      }
      if rs[i].key > key {
        return false;
      }
      i := i + 1;
    }
    return false;
  }

  method OlderValidInLevels(st: Store, key: nat, ts: nat) returns (older: bool)
    requires StoreOk(st)
    ensures older <==> OlderValidIn(LevelRecords(st, LEVELS), key, ts)
  {
    hide MayContain;
    var level := 0;
    while level < LEVELS
      invariant level <= LEVELS
      invariant !OlderValidIn(LevelRecords(st, level), key, ts)
    {
      OlderValidConcat(LevelRecords(st, level), st.unsorted[level], key, ts);
      OlderValidConcat(LevelRecords(st, level) + st.unsorted[level], st.sorted[level], key, ts);
      older := OlderValidInList(st.unsorted[level], key, ts);
      if !older {
        older := OlderValidInSorted(st.sorted[level], key, ts);
      }
      if older {
        OlderValidPrefix(st, level + 1, LEVELS, key, ts);
        return;
      }
      level := level + 1;
    }
    return false;
  }

  method OlderValidInTable(table: seq<Entry>, key: nat, ts: nat) returns (older: bool)
    requires Ascending(Recs(table))
    ensures older <==> OlderValidIn(Recs(table), key, ts)
  {
    var rs := Recs(table);
    var found, at := TableFind(table, key);
    older := found && table[at].rec.valid && table[at].rec.ts < ts;
    if older {
      assert rs[at] == table[at].rec;
    }
  }

  /** imr_lsm_find_older_valid_record_locked. */
  method FindOlderValid(st: Store, key: nat, ts: nat) returns (older: bool)
    requires StoreOk(st)
    ensures older <==> OlderValidIn(AllRecords(st), key, ts)
  {
    hide MayContain;
    OlderValidConcat(LevelRecords(st, LEVELS), SegmentRecords(st.segs, |st.segs|), key, ts);
    older := OlderValidInLevels(st, key, ts);
    if older {
      return;
    }
    var i := 0;
    while i < |st.segs|
      invariant i <= |st.segs|
      invariant !OlderValidIn(SegmentRecords(st.segs, i), key, ts)
    {
      if !st.segs[i].retired {
        assert SegmentOk(st.segs[i]);
        OlderValidConcat(SegmentRecords(st.segs, i), Recs(st.segs[i].table), key, ts);
        older := OlderValidInTable(st.segs[i].table, key, ts);
        if older {
          OlderValidSegments(st.segs, i + 1, |st.segs|, key, ts);
          return;
        }
      } else {
        assert SegmentRecords(st.segs, i + 1) == SegmentRecords(st.segs, i);
      }
      i := i + 1;
    }
    return false;
  }

  lemma {:induction false} OlderValidPrefix(st: Store, m: nat, n: nat, key: nat, ts: nat)
    requires m <= n <= |st.unsorted| == |st.sorted|
    requires OlderValidIn(LevelRecords(st, m), key, ts)
    ensures OlderValidIn(LevelRecords(st, n), key, ts)
    decreases n
  {
    if m < n {
      OlderValidPrefix(st, m, n - 1, key, ts);
      OlderValidConcat(LevelRecords(st, n - 1), st.unsorted[n - 1], key, ts);
      OlderValidConcat(LevelRecords(st, n - 1) + st.unsorted[n - 1], st.sorted[n - 1], key, ts);
    }
  }

  lemma {:induction false} OlderValidSegments(segs: seq<Segment>, m: nat, n: nat, key: nat, ts: nat)
    requires m <= n <= |segs|
    requires OlderValidIn(SegmentRecords(segs, m), key, ts)
    ensures OlderValidIn(SegmentRecords(segs, n), key, ts)
    decreases n
  {
    if m < n {
      OlderValidSegments(segs, m, n - 1, key, ts);
      OlderValidConcat(SegmentRecords(segs, n - 1),
                       if segs[n - 1].retired then [] else Recs(segs[n - 1].table), key, ts);
    }
  }

  // ---------------------------------------------------------------- the read path

  /** A segment after a read of `key`: a table hit counts. */
  function Bump(seg: Segment, key: nat): Segment {
    if !seg.retired && exists j :: 0 <= j < |seg.table| && seg.table[j].rec.key == key
    then seg.(hits := seg.hits + 1) else seg
  }

  function BumpAll(segs: seq<Segment>, key: nat): (out: seq<Segment>)
    ensures |out| == |segs| && forall i :: 0 <= i < |segs| ==> out[i] == Bump(segs[i], key)
  {
    seq(|segs|, i requires 0 <= i < |segs| => Bump(segs[i], key))
  }

  /** A list's newest record can be found apart and compared afterwards. */
  lemma {:induction false} FoldApart(b: Best, rs: seq<Record>, key: nat)
    ensures var f := Fold(NONE, rs, key); Fold(b, rs, key) == if f.found && f.ts > b.ts then f else b
    ensures Fold(NONE, rs, key).found <==> Fold(NONE, rs, key).ts > 0
  {
    if rs != [] { FoldApart(b, rs[..|rs| - 1], key); }
  }

  /** One active segment: key range, then filter, then binary search. */
  method Probe(seg: Segment, key: nat, hit: Best) returns (found: bool, better: Best)
    requires SegmentOk(seg)
    ensures better == Fold(hit, Recs(seg.table), key)
    ensures found <==> exists j :: 0 <= j < |seg.table| && seg.table[j].rec.key == key
  {
    hide MayContain;
    var candidate := seg.minKey <= key <= seg.maxKey;
    if candidate && seg.bloom.keys != 0 {
      candidate := BloomFilter.Test(seg.bloom, key);
    }
    if candidate {
      found, better := ScanTable(seg.table, key, hit);
    } else {
      assert forall j :: 0 <= j < |seg.table| ==> EntryOk(seg, seg.table[j].rec);
      FoldUnique(hit, Recs(seg.table), key, |seg.table|);
      found, better := false, hit;
    }
  }

  method ProbeNext(segs: seq<Segment>, i: nat, level: nat, key: nat, hit: Best) returns (found: bool, better: Best)
    requires i < |segs| && SegmentOk(segs[i])
    requires hit == Fold(NONE, SegmentRecordsAt(segs, level, i), key)
    ensures better == Fold(NONE, SegmentRecordsAt(segs, level, i + 1), key)
    ensures found <==> segs[i].level == level && Bump(segs[i], key) != segs[i]
  {
    hide SegmentOk, Fold;
    if segs[i].level == level && !segs[i].retired {
      FoldConcat(NONE, SegmentRecordsAt(segs, level, i), Recs(segs[i].table), key);
      found, better := Probe(segs[i], key, hit);
    } else {
      assert SegmentRecordsAt(segs, level, i + 1) == SegmentRecordsAt(segs, level, i);
      found, better := false, hit;
    }
  }

  /** imr_lsm_segment_lookup_level_locked. A table is never empty, so its sorted fallback for
      segments without a table does not arise (SegmentOk). */
  method LookupLevel(segs: seq<Segment>, level: nat, key: nat)
    returns (hit: Best, scanSorted: bool, out: seq<Segment>)
    requires forall i :: 0 <= i < |segs| ==> SegmentOk(segs[i])
    ensures hit == Fold(NONE, SegmentRecordsAt(segs, level, |segs|), key)
    ensures scanSorted == !HasSegment(segs, level)
    ensures |out| == |segs|
    ensures forall i :: 0 <= i < |segs| ==>
              out[i] == if segs[i].level == level then Bump(segs[i], key) else segs[i]
  {
    hide SegmentOk, Fold, SegmentRecordsAt;
    hit, out := NONE, segs;
    assert Fold(NONE, SegmentRecordsAt(segs, level, 0), key) == NONE by {
      FoldUnique(NONE, [], key, 0);
      SegmentRecordsAtNone(segs, level);
    }
    var hasSegment := false;
    var i := 0;
    while i < |segs|
      invariant i <= |segs|
      invariant hit == Fold(NONE, SegmentRecordsAt(segs, level, i), key)
      invariant hasSegment <==> exists k :: 0 <= k < i && segs[k].level == level
      invariant |out| == |segs|
      invariant forall k :: 0 <= k < |segs| ==>
                  out[k] == if k < i && segs[k].level == level then Bump(segs[k], key) else segs[k]
    {
      var found;
      found, hit := ProbeNext(segs, i, level, key, hit);
      if segs[i].level == level {
        hasSegment := true;
        if found {
          out := out[i := segs[i].(hits := segs[i].hits + 1)];
        }
      }
      i := i + 1;
    }
    scanSorted := !hasSegment;
  }

  lemma SegmentRecordsAtNone(segs: seq<Segment>, level: nat)
    ensures SegmentRecordsAt(segs, level, 0) == []
  {
  }

  method ReadUnsorted(st: Store, key: nat) returns (b: Best)
    requires |st.unsorted| == LEVELS
    ensures b == Fold(NONE, UnsortedRecords(st, LEVELS), key)
  {
    b := NONE;
    var level := 0;
    while level < LEVELS
      invariant level <= LEVELS
      invariant b == Fold(NONE, UnsortedRecords(st, level), key)
    {
      FoldConcat(NONE, UnsortedRecords(st, level), st.unsorted[level], key);
      b := ScanList(st.unsorted[level], key, b);
      level := level + 1;
    }
  }

  /** The best record after level `level` was read, given the best one before. */
  function ReadLevelBest(st: Store, before: Best, level: nat, key: nat): Best
    requires level < |st.sorted|
  {
    var hit := Fold(NONE, SegmentRecordsAt(st.segs, level, |st.segs|), key);
    var after := if hit.found && hit.ts > before.ts then hit else before;
    if HasSegment(st.segs, level) then after else Fold(after, st.sorted[level], key)
  }

  lemma FoldReadLevel(st: Store, b: Best, level: nat, key: nat)
    requires level < |st.sorted|
    ensures Fold(b, ReadLevels(st, level + 1), key) ==
            ReadLevelBest(st, Fold(b, ReadLevels(st, level), key), level, key)
  {
    var atLevel := SegmentRecordsAt(st.segs, level, |st.segs|);
    FoldConcat(b, ReadLevels(st, level), atLevel, key);
    FoldApart(Fold(b, ReadLevels(st, level), key), atLevel, key);
    FoldConcat(b, ReadLevels(st, level) + atLevel, if HasSegment(st.segs, level) then [] else st.sorted[level], key);
  }

  /** `segs` is `was` with the hits of the levels below `level` counted. */
  ghost predicate BumpedBelow(was: seq<Segment>, segs: seq<Segment>, level: nat, key: nat) {
    |segs| == |was| &&
    forall i :: 0 <= i < |segs| ==> segs[i] == if was[i].level < level then Bump(was[i], key) else was[i]
  }

  method ReadLevel(st: Store, counted: seq<Segment>, level: nat, key: nat, before: Best)
    returns (b: Best, segs: seq<Segment>)
    requires StoreOk(st) && level < LEVELS && BumpedBelow(st.segs, counted, level, key)
    ensures b == ReadLevelBest(st, before, level, key)
    ensures BumpedBelow(st.segs, segs, level + 1, key)
  {
    hide SegmentOk;
    BumpSame(st, counted, key);
    SameRecords(counted, st.segs, level, |st.segs|);
    var hit, scanSorted;
    hit, scanSorted, segs := LookupLevel(counted, level, key);
    b := if hit.found && hit.ts > before.ts then hit else before;
    if scanSorted {
      b := ScanSorted(st.sorted[level], key, b);
    }
  }

  /** The part of imr_lsm_read behind the read tree. */
  method SlowRead(st: Store, key: nat) returns (b: Best, segs: seq<Segment>)
    requires StoreOk(st)
    ensures b == Fold(NONE, ReadRecords(st), key)
    ensures segs == BumpAll(st.segs, key)
  {
    hide SegmentOk, Fold, Bump;
    b := ReadUnsorted(st, key);
    ghost var afterUnsorted := b;
    segs := st.segs;
    var level := 0;
    assert Fold(b, [], key) == b by { FoldApart(b, [], key); FoldUnique(b, [], key, 0); }
    while level < LEVELS
      invariant level <= LEVELS
      invariant b == Fold(afterUnsorted, ReadLevels(st, level), key)
      invariant BumpedBelow(st.segs, segs, level, key)
    {
      FoldReadLevel(st, afterUnsorted, level, key);
      b, segs := ReadLevel(st, segs, level, key, b);
      level := level + 1;
    }
    FoldConcat(NONE, UnsortedRecords(st, LEVELS), ReadLevels(st, LEVELS), key);
    SegmentLevels(st);
    assert segs == BumpAll(st.segs, key);
  }

  lemma SegmentLevels(st: Store)
    requires StoreOk(st)
    ensures forall i :: 0 <= i < |st.segs| ==> st.segs[i].level < LEVELS
  {
    forall i | 0 <= i < |st.segs| ensures st.segs[i].level < LEVELS {
      assert SegmentOk(st.segs[i]);
    }
  }

  lemma BumpSame(st: Store, segs: seq<Segment>, key: nat)
    requires StoreOk(st) && |segs| == |st.segs|
    requires forall i :: 0 <= i < |segs| ==> segs[i] == st.segs[i] || segs[i] == Bump(st.segs[i], key)
    ensures SameButStats(segs, st.segs)
    ensures forall i :: 0 <= i < |segs| ==> SegmentOk(segs[i])
  {
    hide SegmentOk;
    SameStoreOk(st, segs);
  }
}
