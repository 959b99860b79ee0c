/** What output commits do to the data that reads can see. */
module CommitResult {
  import opened Types
  import opened Scan
  import opened ReadTree
  import opened Obsolescence
  import opened CopyJobs
  import opened Commit
  import opened Spec
  import opened Outputs
  import opened Shape
  import opened History
  import opened SoundSteps
  import opened Holdings

  // ---------------------------------------------------------------- the copies of a round

  lemma {:induction false} TableJobFrom(table: seq<Entry>, n: nat, k: nat) returns (j: nat)
    requires n <= |table| && k < |TableJobs(table, n)|
    ensures j < n && Pending(table[j]) && TableJobs(table, n)[k] == JobOf(table[j])
  {
    hide Pending, JobOf;
    if k < |TableJobs(table, n - 1)| {
      j := TableJobFrom(table, n - 1, k);
    } else {
      j := n - 1;
    }
  }

  lemma {:induction false} TableTargets(seg: Segment, n: nat, k: nat, l: nat)
    requires MappingOk(seg) && n <= |seg.table| && k < l < |TableJobs(seg.table, n)|
    ensures TableJobs(seg.table, n)[k].target != TableJobs(seg.table, n)[l].target
  {
    if l < |TableJobs(seg.table, n - 1)| {
      TableTargets(seg, n - 1, k, l);
    } else {
      var j := TableJobFrom(seg.table, n - 1, k);
    }
  }

  lemma {:induction false} SegmentJobFrom(segs: seq<Segment>, n: nat, k: nat) returns (i: nat, j: nat)
    requires n <= |segs| && k < |SegmentJobs(segs, n)|
    ensures i < n && !segs[i].retired && j < |segs[i].table| && Pending(segs[i].table[j])
    ensures SegmentJobs(segs, n)[k] == JobOf(segs[i].table[j])
  {
    hide Pending, JobOf;
    if k < |SegmentJobs(segs, n - 1)| {
      i, j := SegmentJobFrom(segs, n - 1, k);
    } else {
      i := n - 1;
      j := TableJobFrom(segs[i].table, |segs[i].table|, k - |SegmentJobs(segs, n - 1)|);
    }
  }

  lemma SegmentJobsStep(segs: seq<Segment>, n: nat)
    requires 0 < n <= |segs|
    ensures SegmentJobs(segs, n) == SegmentJobs(segs, n - 1) +
              (if segs[n - 1].retired then [] else TableJobs(segs[n - 1].table, |segs[n - 1].table|))
  {
  }

  /** No two copies of a round go to the same block. */
  lemma {:induction false} RoundTargetsDistinct(segs: seq<Segment>, n: nat, k: nat, l: nat)
    requires RangesOk(segs) && n <= |segs| && k < l < |SegmentJobs(segs, n)|
    ensures SegmentJobs(segs, n)[k].target != SegmentJobs(segs, n)[l].target
  {
    hide MappingOk, Apart, SegmentJobs, TableJobs;
    if n == 0 {
      NoJobs(segs);
    } else {
      SegmentJobsStep(segs, n);
      var before := |SegmentJobs(segs, n - 1)|;
      if l < before {
        RoundTargetsDistinct(segs, n - 1, k, l);
      } else if k >= before {
        TableTargets(segs[n - 1], |segs[n - 1].table|, k - before, l - before);
      } else {
        var i, j := SegmentJobFrom(segs, n - 1, k);
        var m := TableJobFrom(segs[n - 1].table, |segs[n - 1].table|, l - before);
        BlocksDisjoint(segs, i, j, n - 1, m);
      }
    }
  }

  lemma NoJobs(segs: seq<Segment>)
    ensures SegmentJobs(segs, 0) == []
  {
  }

  /** What one more entry does to a table's copies and jobs. */
  lemma CopyStep(d: Disk, table: seq<Entry>, io: Io, n: nat)
    requires 0 < n <= |table|
    ensures var c, later, e := CopyEntries(d, table, io, n - 1), CopyEntries(d, table, io, n), table[n - 1];
            if c.ok && Pending(e) && later.ok then
              later.disk == RunJob(c.disk, JobOf(e)) && later.table == c.table[n - 1 := CopiedEntry(e)]
            else later.disk == c.disk && later.table == c.table && (later.ok ==> c.ok && !Pending(e))
    ensures TableJobs(table, n) == TableJobs(table, n - 1) +
            (if Pending(table[n - 1]) then [JobOf(table[n - 1])] else [])
  {
    hide Pending, CopiedEntry, JobOf, RunJob;
  }

  lemma NoCopy(d: Disk, table: seq<Entry>, io: Io)
    ensures CopyEntries(d, table, io, 0) == TableCopy(d, table, true) && TableJobs(table, 0) == []
  {
  }

  /** A table's copies, broken off at the first failure, are the first of its jobs; only entries whose job
      was carried out change. */
  lemma {:induction false} CopyTablePrefix(d: Disk, table: seq<Entry>, io: Io, n: nat) returns (m: nat)
    requires n <= |table|
    ensures var c, jobs := CopyEntries(d, table, io, n), TableJobs(table, n);
            && m <= |jobs| && (c.ok ==> m == |jobs|) && c.disk == RunJobs(d, jobs[..m])
            && forall j :: 0 <= j < |table| && c.table[j] != table[j] ==> JobOf(table[j]) in jobs[..m]
  {
    hide Pending, CopiedEntry, JobOf, RunJob, CopyEntries, TableJobs;
    if n == 0 {
      NoCopy(d, table, io);
      m := 0;
    } else {
      var c, front, jobs := CopyEntries(d, table, io, n - 1), TableJobs(table, n - 1), TableJobs(table, n);
      CopyStep(d, table, io, n);
      m := CopyTablePrefix(d, table, io, n - 1);
      assert jobs[..m] == front[..m];
      if c.ok && Pending(table[n - 1]) && CopyEntries(d, table, io, n).ok {
        assert jobs == front[..m] + [JobOf(table[n - 1])];
        m := m + 1;
        assert jobs[..m] == jobs && jobs[..m][..m - 1] == front[..m - 1];
      }
    }
  }

  /** Entries differ only where their job is among these. */
  ghost predicate ChangedOnly(segs: seq<Segment>, later: seq<Segment>, jobs: seq<Job>) {
    && |later| == |segs|
    && (forall i :: 0 <= i < |segs| ==> |later[i].table| == |segs[i].table|)
    && (forall i, j :: 0 <= i < |segs| && 0 <= j < |segs[i].table| && later[i].table[j] != segs[i].table[j] ==>
          JobOf(segs[i].table[j]) in jobs)
  }

  /** What one more active segment does to the store's copies and jobs. */
  lemma CopySegmentStep(d: Disk, segs: seq<Segment>, io: Io, n: nat)
    requires 0 < n <= |segs| && CopySegments(d, segs, io, n - 1).ok && !segs[n - 1].retired
    ensures var c, later, table := CopySegments(d, segs, io, n - 1), CopySegments(d, segs, io, n), segs[n - 1].table;
            var t := CopyEntries(c.disk, table, io, |table|);
            later.disk == t.disk && later.ok == t.ok && later.segs == c.segs[n - 1 := segs[n - 1].(table := t.table)]
    ensures SegmentJobs(segs, n) == SegmentJobs(segs, n - 1) + TableJobs(segs[n - 1].table, |segs[n - 1].table|)
  {
    hide CopyEntries, TableJobs;
  }

  lemma CopyNothingMore(d: Disk, segs: seq<Segment>, io: Io, n: nat)
    requires 0 < n <= |segs| && (!CopySegments(d, segs, io, n - 1).ok || segs[n - 1].retired)
    ensures CopySegments(d, segs, io, n) == CopySegments(d, segs, io, n - 1)
    ensures SegmentJobs(segs, n - 1) <= SegmentJobs(segs, n)
    ensures segs[n - 1].retired ==> SegmentJobs(segs, n) == SegmentJobs(segs, n - 1)
  {
    hide CopyEntries, TableJobs;
  }

  lemma ChangedMore(segs: seq<Segment>, mid: seq<Segment>, i: nat, table: seq<Entry>, front: seq<Job>, more: seq<Job>)
    requires ChangedOnly(segs, mid, front) && i < |segs| && |table| == |segs[i].table|
    requires forall j :: 0 <= j < |table| && table[j] != segs[i].table[j] ==> JobOf(segs[i].table[j]) in more
    ensures ChangedOnly(segs, mid[i := segs[i].(table := table)], front + more)
  {
    hide JobOf;
  }

  lemma {:induction false} CopyPrefix(d: Disk, segs: seq<Segment>, io: Io, n: nat) returns (m: nat)
    requires n <= |segs|
    ensures var c, jobs := CopySegments(d, segs, io, n), SegmentJobs(segs, n);
            && m <= |jobs| && (c.ok ==> m == |jobs|) && c.disk == RunJobs(d, jobs[..m])
            && ChangedOnly(segs, c.segs, jobs[..m])
  {
    hide CopyEntries, TableJobs, JobOf, RunJobs, CopySegments, SegmentJobs, ChangedOnly;
    if n == 0 {
      m := 0;
      NoRound(d, segs, io);
    } else {
      var c, front, jobs := CopySegments(d, segs, io, n - 1), SegmentJobs(segs, n - 1), SegmentJobs(segs, n);
      m := CopyPrefix(d, segs, io, n - 1);
      if c.ok && !segs[n - 1].retired {
        CopySegmentStep(d, segs, io, n);
        var table := segs[n - 1].table;
        var p := CopyTablePrefix(c.disk, table, io, |table|);
        var more := TableJobs(table, |table|);
        assert front[..m] == front;
        assert jobs[..|front| + p] == front + more[..p];
        RunJobsConcat(d, front, more[..p]);
        ChangedMore(segs, c.segs, n - 1, CopyEntries(c.disk, table, io, |table|).table, front, more[..p]);
        m := |front| + p;
      } else {
        CopyNothingMore(d, segs, io, n);
        assert jobs[..m] == front[..m];
      }
    }
  }

  lemma NoRound(d: Disk, segs: seq<Segment>, io: Io)
    ensures CopySegments(d, segs, io, 0) == StoreCopy(d, segs, true) && SegmentJobs(segs, 0) == []
    ensures RunJobs(d, []) == d && ChangedOnly(segs, segs, [])
  {
  }

  lemma NoRun(d: Disk)
    ensures RunJobs(d, []) == d
  {
  }

  /** The whole round likewise; without a device it does nothing. */
  lemma RoundPrefix(d: Disk, segs: seq<Segment>, io: Io) returns (m: nat)
    ensures var c, jobs := CopyAll(d, segs, io), SegmentJobs(segs, |segs|);
            && m <= |jobs| && (c.ok ==> m == |jobs|) && c.disk == RunJobs(d, jobs[..m])
            && ChangedOnly(segs, c.segs, jobs[..m])
  {
    hide CopySegments, SegmentJobs, JobOf, RunJobs;
    if io.NoDevice? {
      m := 0;
      NoRun(d);
      assert SegmentJobs(segs, |segs|)[..0] == [];
    } else {
      m := CopyPrefix(d, segs, io, |segs|);
    }
  }

  /** A round, complete or not, changes no block that is not one of its targets. */
  lemma CommitFrame(d: Disk, segs: seq<Segment>, io: Io, at: nat)
    requires forall k :: 0 <= k < |SegmentJobs(segs, |segs|)| ==> SegmentJobs(segs, |segs|)[k].target != at
    ensures ReadBlock(CopyAll(d, segs, io).disk, at) == ReadBlock(d, at)
  {
    hide CopyAll, SegmentJobs, RunJobs, JobOf;
    var m := RoundPrefix(d, segs, io);
    RunJobsFrame(d, SegmentJobs(segs, |segs|)[..m], at);
  }

  // ---------------------------------------------------------------- coherence

  /** Each output block the round may write holds no live key but the one whose newest version it gets. */
  ghost predicate RoundHarmless(s: State) {
    forall i, j, k :: 0 <= i < |s.store.segs| && 0 <= j < |s.store.segs[i].table| && !s.store.segs[i].retired
                      && Pending(PlanEntry(s.store.segs[i].table[j]))
                      && Held(s, k, s.store.segs[i].table[j].out.outputPba) ==>
      s.store.segs[i].table[j].rec.key == k && s.store.segs[i].table[j].rec.ts == Newest(s.log, k)
  }

  lemma PlannedSound(s: State, io: Io)
    requires Sound(s)
    ensures Levels(s.store) && Sound(Planned(s)) && RangesOk(Planned(s).store.segs)
    ensures Sound(AfterCopying(Planned(s), io))
  {
    hide ShapeOk, AllLogged, AllCovered, CacheTrue, PlanAll, CopyAll, Rewritten, OutputsOk, CommitSegments;
    SoundLevels(s);
    assert OutputsOk(s.store.segs, s.commits) by { ShapeOutputs(s); }
    RoundOutputs(s.disk, s.store.segs, io, s.commits);
    PlanRewritten(s.store.segs);
    RewriteSound(s, PlanAll(s.store.segs));
    RangesOfOutputs(PlanAll(s.store.segs), s.commits);
    var t := Planned(s);
    CopyRewritten(s.disk, t.store.segs, io);
    CommitKindSound(t);
    var counted := t.(commits := AfterCopy(s.commits));
    var segs := CopyAll(s.disk, t.store.segs, io).segs;
    RewriteSound(counted, segs);
    OutsideSound(counted.(store := counted.store.(segs := segs)), AfterCopying(t, io));
  }

  lemma RangesOfOutputs(segs: seq<Segment>, commits: CommitKind)
    requires OutputsOk(segs, commits)
    ensures RangesOk(segs) && StatesOk(segs)
  {
  }

  /** Segments with the same records and retirements hold the same versions in the store. */
  ghost predicate SameHeld(a: seq<Segment>, b: seq<Segment>) {
    |a| == |b| && forall i :: 0 <= i < |a| ==> a[i].retired == b[i].retired && Recs(a[i].table) == Recs(b[i].table)
  }

  lemma SameHeldStored(st: Store, segs: seq<Segment>, r: Record)
    requires SameHeld(segs, st.segs)
    ensures Stored(st.(segs := segs), r) == Stored(st, r)
  {
    var later := st.(segs := segs);
    assert InUnsorted(later, r) == InUnsorted(st, r) && InSorted(later, r) == InSorted(st, r);
    forall i | 0 <= i < |segs| ensures InTable(segs[i], r) == InTable(st.segs[i], r) {
      TableMembers(segs[i], r);
      TableMembers(st.segs[i], r);
    }
  }

  lemma PlanHolds(s: State)
    ensures HoldsNoMore(s, Planned(s)) && SameHeld(Planned(s).store.segs, s.store.segs)
  {
    hide Stored;
    var t := Planned(s);
    forall i | 0 <= i < |s.store.segs| ensures Recs(t.store.segs[i].table) == Recs(s.store.segs[i].table) {
      assert |t.store.segs[i].table| == |s.store.segs[i].table|;
    }
    forall key, ts, pba | Holds(t, key, ts, pba) ensures Holds(s, key, ts, pba) {
      if HeldInStore(t.store, key, ts, pba) {
        var r :| Stored(t.store, r) && IsVersion(r, key, ts, pba);
        SameHeldStored(s.store, t.store.segs, r);
      } else if HeldByCopy(t.store.segs, key, ts, pba) {
        var i, j :| 0 <= i < |t.store.segs| && 0 <= j < |t.store.segs[i].table| && !t.store.segs[i].retired
                    && IsCopy(t.store.segs[i].table[j], key, ts, pba);
        assert IsCopy(s.store.segs[i].table[j], key, ts, pba);
      }
    }
  }

  /** A copy onto a block that holds a key brings that key's newest version. */
  lemma JobsStayInside(s: State, key: nat, l: nat)
    requires Sound(s) && RoundHarmless(s) && Live(s.log, key) &&
             l < |SegmentJobs(PlanAll(s.store.segs), |s.store.segs|)|
    requires Holds(s, key, Newest(s.log, key), SegmentJobs(PlanAll(s.store.segs), |s.store.segs|)[l].target)
    ensures Holds(s, key, Newest(s.log, key), SegmentJobs(PlanAll(s.store.segs), |s.store.segs|)[l].source)
  {
    hide Sound, SegmentJobs, Pending, PlanEntry, Holds, Newest, Live;
    var planned := PlanAll(s.store.segs);
    var i, j := SegmentJobFrom(planned, |planned|, l);
    assert planned[i] == PlanSegment(s.store.segs[i]);
    var e := s.store.segs[i].table[j];
    PendingSource(s, i, j);
    assert Held(s, key, e.out.outputPba);
    assert e.rec.key == key && e.rec.ts == Newest(s.log, key);
    EntryHolds(s, i, j);
  }

  /** A pending entry is copied from where its record points, to its output. */
  lemma PendingSource(s: State, i: nat, j: nat)
    requires Sound(s) && i < |s.store.segs| && j < |s.store.segs[i].table| &&
             Pending(PlanEntry(s.store.segs[i].table[j]))
    ensures var e := s.store.segs[i].table[j]; JobOf(PlanEntry(e)) == Job(e.rec.pba, e.out.outputPba) && e.rec.valid
  {
    hide StoreOk, ListsTimed, CacheOk, RangesOk, AllLogged, AllCovered, CacheTrue;
    EntryStates(s.store.segs[i].table[j]);
    EntryStates(PlanEntry(s.store.segs[i].table[j]));
  }

  lemma EntryHolds(s: State, i: nat, j: nat)
    requires i < |s.store.segs| && !s.store.segs[i].retired && j < |s.store.segs[i].table| &&
             s.store.segs[i].table[j].rec.valid
    ensures var r := s.store.segs[i].table[j].rec; Holds(s, r.key, r.ts, r.pba)
  {
    hide Stored, HeldByCopy;
    var r := s.store.segs[i].table[j].rec;
    EntryStored(s.store, i, j);
    assert IsVersion(r, r.key, r.ts, r.pba);
  }

  /** What the copies of a round add to the blocks that hold a version: targets of jobs carried out that
      read a block that held it. */
  lemma CopiedHolds(s: State, io: Io, m: nat, key: nat, ts: nat, pba: nat)
    requires Sound(s) && Holds(AfterCopying(Planned(s), io), key, ts, pba)
    requires var jobs := SegmentJobs(PlanAll(s.store.segs), |s.store.segs|);
             && m <= |jobs|
             && ChangedOnly(PlanAll(s.store.segs), CopyAll(s.disk, PlanAll(s.store.segs), io).segs, jobs[..m])
    ensures Holds(s, key, ts, pba) ||
            exists k :: 0 <= k < m && SegmentJobs(PlanAll(s.store.segs), |s.store.segs|)[k].target == pba
                        && Holds(s, key, ts, SegmentJobs(PlanAll(s.store.segs), |s.store.segs|)[k].source)
  {
    hide Sound, CopyAll, PlanAll, SegmentJobs, Stored, Pending, CopiedEntry, SameHeld;
    var t := Planned(s);
    var u := AfterCopying(t, io);
    PlanHolds(s);
    CopiedSame(s, io);
    if HeldInStore(u.store, key, ts, pba) {
      var r :| Stored(u.store, r) && IsVersion(r, key, ts, pba);
      SameHeldStored(t.store, u.store.segs, r);
      assert Holds(t, key, ts, pba);
    } else if HeldInTree(u.cache, key, ts, pba) {
      assert Holds(t, key, ts, pba);
    } else {
      var i, j :| 0 <= i < |u.store.segs| && 0 <= j < |u.store.segs[i].table| && !u.store.segs[i].retired
                  && IsCopy(u.store.segs[i].table[j], key, ts, pba);
      CopiedEntryHolds(s, io, m, i, j, key, ts, pba);
    }
  }

  lemma CopiedSame(s: State, io: Io)
    ensures SameHeld(CopyAll(s.disk, PlanAll(s.store.segs), io).segs, PlanAll(s.store.segs))
  {
    hide CopyAll, PlanAll, Pending;
    var segs := PlanAll(s.store.segs);
    var c := CopyAll(s.disk, segs, io);
    CopySameVersions(s.disk, segs, io);
    forall i | 0 <= i < |segs|
      ensures c.segs[i].retired == segs[i].retired && Recs(c.segs[i].table) == Recs(segs[i].table)
    {
      assert CopiedSegment(c.segs[i], segs[i], c.ok);
    }
  }

  lemma CopiedEntryHolds(s: State, io: Io, m: nat, i: nat, j: nat, key: nat, ts: nat, pba: nat)
    requires Sound(s)
    requires var jobs := SegmentJobs(PlanAll(s.store.segs), |s.store.segs|);
             && m <= |jobs|
             && ChangedOnly(PlanAll(s.store.segs), CopyAll(s.disk, PlanAll(s.store.segs), io).segs, jobs[..m])
    requires var later := CopyAll(s.disk, PlanAll(s.store.segs), io).segs;
             i < |later| && j < |later[i].table| && !later[i].retired && IsCopy(later[i].table[j], key, ts, pba)
    ensures Holds(s, key, ts, pba) ||
            exists k :: 0 <= k < m && SegmentJobs(PlanAll(s.store.segs), |s.store.segs|)[k].target == pba
                        && Holds(s, key, ts, SegmentJobs(PlanAll(s.store.segs), |s.store.segs|)[k].source)
  {
    hide Sound, CopyAll, SegmentJobs, Pending, Holds, CopiedEntry;
    var segs, later := PlanAll(s.store.segs), CopyAll(s.disk, PlanAll(s.store.segs), io).segs;
    var jobs := SegmentJobs(segs, |segs|);
    CopySameVersions(s.disk, segs, io);
    assert CopiedSegment(later[i], segs[i], CopyAll(s.disk, segs, io).ok);
    var e := s.store.segs[i].table[j];
    assert segs[i].table[j] == PlanEntry(e);
    if later[i].table[j] == segs[i].table[j] {
      CopyHolds(s, i, j, key, ts, pba);
    } else {
      CopiedIs(PlanEntry(e));
      PendingSource(s, i, j);
      EntryHolds(s, i, j);
      var k :| 0 <= k < |jobs[..m]| && jobs[..m][k] == JobOf(segs[i].table[j]);
      assert jobs[k].target == pba && Holds(s, key, ts, jobs[k].source);
    }
  }

  lemma CopiedIs(e: Entry)
    ensures CopiedEntry(e).rec == e.rec && CopiedEntry(e).out.outputPba == e.out.outputPba
  {
  }

  lemma CopyHolds(s: State, i: nat, j: nat, key: nat, ts: nat, pba: nat)
    requires i < |s.store.segs| && !s.store.segs[i].retired && j < |s.store.segs[i].table|
    requires IsCopy(PlanEntry(s.store.segs[i].table[j]), key, ts, pba)
    ensures Holds(s, key, ts, pba)
  {
    assert IsCopy(s.store.segs[i].table[j], key, ts, pba);
  }

  /** The copies of a harmless round, all or some of them, spoil no live key and bring its payload along. */
  lemma CopiedCoherent(s: State, io: Io, payloads: map<nat, nat>)
    requires Sound(s) && Coherent(s, payloads) && RoundHarmless(s)
    ensures Coherent(AfterCopying(Planned(s), io), payloads)
  {
    hide Sound, CopyAll, PlanAll, SegmentJobs, RunJobs, Holds, Newest, Live, RangesOk, RoundHarmless;
    var u, segs := AfterCopying(Planned(s), io), PlanAll(s.store.segs);
    var jobs := SegmentJobs(segs, |segs|);
    PlannedSound(s, io);
    CopiedSame(s, io);
    var m := RoundPrefix(s.disk, segs, io);
    forall key, pba | Held(u, key, pba) ensures ReadBlock(u.disk, pba) == payloads[key] {
      var mine := iset b | Holds(s, key, Newest(s.log, key), b);
      forall b | b in mine ensures ReadBlock(s.disk, b) == payloads[key] {
        assert Held(s, key, b);
      }
      forall l | 0 <= l < m && jobs[l].target in mine ensures jobs[l].source in mine {
        JobsStayInside(s, key, l);
      }
      assert forall l :: 0 <= l < m ==> jobs[..m][l] == jobs[l];
      RunJobsKeep(s.disk, jobs[..m], mine, payloads[key]);
      CopiedHolds(s, io, m, key, Newest(s.log, key), pba);
      if pba !in mine {
        var k :| 0 <= k < m && jobs[k].target == pba && Holds(s, key, Newest(s.log, key), jobs[k].source);
        forall l | k < l < m ensures jobs[..m][l].target != jobs[..m][k].target {
          RoundTargetsDistinct(segs, |segs|, k, l);
        }
        RunJobsBring(s.disk, jobs[..m], mine, payloads[key], k);
      }
    }
  }

  // ---------------------------------------------------------------- the metadata commit

  /** Every entry of a live key's newest version that the commit turns to its output has been copied. */
  ghost predicate MetaHarmless(s: State) {
    forall i, j :: 0 <= i < |s.store.segs| && 0 <= j < |s.store.segs[i].table| && !s.store.segs[i].retired
                   && Commits(s.store.segs[i].table[j]) && IsNewestLive(s, s.store.segs[i].table[j].rec) ==>
      s.store.segs[i].table[j].out.copied
  }

  predicate IsNewestLive(s: State, r: Record) { Live(s.log, r.key) && r.ts == Newest(s.log, r.key) }

  lemma CommittingHolds(s: State, i: nat, j: nat)
    requires MetaHarmless(s) && i < |s.store.segs| && j < |s.store.segs[i].table| && !s.store.segs[i].retired
    requires Commits(s.store.segs[i].table[j]) && IsNewestLive(s, s.store.segs[i].table[j].rec)
    ensures var e := s.store.segs[i].table[j]; Holds(s, e.rec.key, e.rec.ts, e.out.outputPba)
  {
    hide IsNewestLive, HeldInStore, HeldInTree;
    var e := s.store.segs[i].table[j];
    assert IsCopy(e, e.rec.key, e.rec.ts, e.out.outputPba);
  }

  lemma CommittedStore(s: State, key: nat, pba: nat)
    requires Levels(s.store) && MetaHarmless(s) && Live(s.log, key)
    requires HeldInStore(CommitMeta(s).store, key, Newest(s.log, key), pba)
    ensures Holds(s, key, Newest(s.log, key), pba)
  {
    hide MetaHarmless, RefreshSegments, AllRecords, Commits, Newest, Live, HeldByCopy;
    var r := CommitMeta(s);
    var y :| Stored(r.store, y) && IsVersion(y, key, Newest(s.log, key), pba);
    if InUnsorted(r.store, y) || InSorted(r.store, y) {
      assert InUnsorted(s.store, y) || InSorted(s.store, y);
      assert Stored(s.store, y);
    } else {
      var i :| 0 <= i < |r.store.segs| && !r.store.segs[i].retired && InTable(r.store.segs[i], y);
      var j :| 0 <= j < |r.store.segs[i].table| && r.store.segs[i].table[j].rec == y;
      var e := s.store.segs[i].table[j];
      assert r.store.segs[i].table[j] == CommitEntry(e);
      EntryStored(s.store, i, j);
      if Commits(e) {
        CommittingHolds(s, i, j);
      } else {
        assert IsVersion(e.rec, key, Newest(s.log, key), pba);
      }
    }
  }

  lemma CommittedCopies(s: State, key: nat, ts: nat, pba: nat)
    requires Levels(s.store) && HeldByCopy(CommitMeta(s).store.segs, key, ts, pba)
    ensures HeldByCopy(s.store.segs, key, ts, pba)
  {
    hide RefreshSegments, AllRecords;
    var r := CommitMeta(s);
    var i, j :| 0 <= i < |r.store.segs| && 0 <= j < |r.store.segs[i].table| && !r.store.segs[i].retired
                && IsCopy(r.store.segs[i].table[j], key, ts, pba);
    assert r.store.segs[i].table[j] == CommitEntry(s.store.segs[i].table[j]);
    assert IsCopy(s.store.segs[i].table[j], key, ts, pba);
  }

  lemma {:induction false} RefreshTableHolds(s: State, cache: Cache, i: nat, n: nat, key: nat, pba: nat)
    requires Levels(s.store) && MetaHarmless(s) && Live(s.log, key)
    requires i < |s.store.segs| && !s.store.segs[i].retired && n <= |s.store.segs[i].table|
    requires HeldInTree(RefreshTable(cache, AllRecords(s.store), s.store.segs[i].table, n), key, Newest(s.log, key),
                        pba)
    ensures HeldInTree(cache, key, Newest(s.log, key), pba) || Holds(s, key, Newest(s.log, key), pba)
  {
    hide MetaHarmless, AllRecords, Newer, Commits, Newest, Live, Update, Holds;
    if n > 0 {
      var table := s.store.segs[i].table;
      var e, before := table[n - 1], RefreshTable(cache, AllRecords(s.store), table, n - 1);
      UpdateNodes(before, e.rec.key, CacheNode(e.out.outputPba, e.rec.valid, e.rec.ts));
      if HeldInTree(before, key, Newest(s.log, key), pba) {
        RefreshTableHolds(s, cache, i, n - 1, key, pba);
      } else {
        CommittingHolds(s, i, n - 1);
      }
    }
  }

  lemma {:induction false} RefreshSegmentsHolds(s: State, cache: Cache, n: nat, key: nat, pba: nat)
    requires Levels(s.store) && MetaHarmless(s) && Live(s.log, key) && n <= |s.store.segs|
    requires HeldInTree(RefreshSegments(cache, AllRecords(s.store), s.store.segs, n), key, Newest(s.log, key), pba)
    ensures HeldInTree(cache, key, Newest(s.log, key), pba) || Holds(s, key, Newest(s.log, key), pba)
  {
    hide MetaHarmless, AllRecords, RefreshTable, Newest, Live, HeldInTree, Holds;
    if n > 0 {
      var before := RefreshSegments(cache, AllRecords(s.store), s.store.segs, n - 1);
      if !s.store.segs[n - 1].retired {
        RefreshTableHolds(s, before, n - 1, |s.store.segs[n - 1].table|, key, pba);
      }
      if HeldInTree(before, key, Newest(s.log, key), pba) {
        RefreshSegmentsHolds(s, cache, n - 1, key, pba);
      }
    }
  }

  /** A harmless metadata commit makes no further block hold a live key. */
  lemma CommittedHeld(s: State, key: nat, pba: nat)
    requires Levels(s.store) && MetaHarmless(s) && Held(CommitMeta(s), key, pba)
    ensures Held(s, key, pba)
  {
    hide MetaHarmless, CommitMeta, HeldInStore, HeldInTree, HeldByCopy, Newest, Live;
    var r, n := CommitMeta(s), Newest(s.log, key);
    CommitMetaFields(s);
    if HeldInStore(r.store, key, n, pba) {
      CommittedStore(s, key, pba);
    } else if HeldByCopy(r.store.segs, key, n, pba) {
      CommittedCopies(s, key, n, pba);
    } else {
      CommittedTree(s, key, pba);
    }
  }

  lemma CommitMetaCoherent(s: State, payloads: map<nat, nat>)
    requires Levels(s.store) && Coherent(s, payloads) && MetaHarmless(s)
    ensures Coherent(CommitMeta(s), payloads)
  {
    hide MetaHarmless, CommitMeta, Holds, Live, Newest;
    CommitMetaFields(s);
    forall key, pba | Held(CommitMeta(s), key, pba) ensures ReadBlock(CommitMeta(s).disk, pba) == payloads[key] {
      CommittedHeld(s, key, pba);
    }
  }

  lemma CommittedTree(s: State, key: nat, pba: nat)
    requires Levels(s.store) && MetaHarmless(s) && Live(s.log, key)
    requires HeldInTree(CommitMeta(s).cache, key, Newest(s.log, key), pba)
    ensures Holds(s, key, Newest(s.log, key), pba)
  {
    hide MetaHarmless, AllRecords, Newest, Live, RefreshSegments, CommitSegments, HeldInStore, HeldByCopy;
    RefreshSegmentsHolds(s, s.cache, |s.store.segs|, key, pba);
  }

  /** After a complete copying round every entry the commit turns has been copied. */
  lemma CopiedMetaHarmless(s: State, io: Io)
    requires Levels(s.store) && CopiesSucceed(s, io)
    ensures MetaHarmless(AfterCopying(Planned(s), io))
  {
    hide CopyAll, IsNewestLive;
    var segs := PlanAll(s.store.segs);
    var c := CopyAll(s.disk, segs, io);
    CopySameVersions(s.disk, segs, io);
    assert forall i :: 0 <= i < |segs| ==> CopiedSegment(c.segs[i], segs[i], c.ok);
  }

  /** When a commit, in any mode, spoils no live key: it writes only where that is harmless, and turns no
      live key to a block its payload was not copied to. */
  ghost predicate CommitHarmless(s: State, mode: nat) {
    (mode == 2 ==> MetaHarmless(Planned(s))) && (mode == 3 ==> RoundHarmless(s))
  }

  lemma CommitCoherent(s: State, mode: nat, io: Io, payloads: map<nat, nat>)
    requires Sound(s) && Levels(s.store) && Coherent(s, payloads) && CommitHarmless(s, mode)
    ensures Coherent(CommitOutput(s, mode, io), payloads)
  {
    hide Sound, RoundHarmless, MetaHarmless, CommitMeta, CopyAll, Held, HoldsNoMore, CopiesSucceed, PlanAll;
    PlanHolds(s);
    NoMoreCoherent(s, Planned(s), payloads);
    if mode == 2 {
      KindIrrelevant(Planned(s), MetaOnly, payloads);
      CommitMetaCoherent(Planned(s).(commits := MetaOnly), payloads);
    } else if mode == 3 {
      CopiedCoherent(s, io, payloads);
      if CopiesSucceed(s, io) {
        CopiedMetaHarmless(s, io);
        CommitMetaCoherent(AfterCopying(Planned(s), io), payloads);
      }
    }
  }

  lemma KindIrrelevant(s: State, commits: CommitKind, payloads: map<nat, nat>)
    requires Coherent(s, payloads) && MetaHarmless(s)
    ensures var r := s.(commits := commits); Coherent(r, payloads) && MetaHarmless(r)
  {
    hide Newest, Live, HeldInStore, HeldByCopy, Commits;
    assert forall key, pba :: Held(s.(commits := commits), key, pba) == Held(s, key, pba);
  }

  // ---------------------------------------------------------------- a second round

  /** Commits are idempotent: after a round that committed, further planning or copying rounds change
      nothing, whatever the device does meanwhile. */
  lemma CommitIdempotent(s: State, mode: nat, io: Io, again: Io)
    requires Levels(s.store) && StatesOk(s.store.segs)
    requires mode == 2 || (mode == 3 && CopiesSucceed(s, io))
    ensures var once := CommitOutput(s, mode, io);
            && CommitOutput(once, 1, again) == once && CommitOutput(once, 3, again) == once
            && (mode == 2 ==> CommitOutput(once, 2, again) == once)
  {
    hide StatesOk, CommitSegments, PlanAll, CopyAll, AllRecords, RefreshSegments, AllDone;
    var once := CommitOutput(s, mode, io);
    RoundFinishes(s.disk, s.store.segs, io);
    assert AllDone(once.store.segs);
    NothingToDo(once.disk, once.store.segs, again, once.cache, AllRecords(once.store));
  }
}
