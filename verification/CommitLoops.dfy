/** The loops of the output commit, over the active segments and their entries. */
module CommitLoops {
  import opened Types
  import opened Scan
  import opened Obsolescence
  import opened CopyJobs
  import opened ReadTree
  import opened Commit

  method PlanEntries(table: seq<Entry>) returns (out: seq<Entry>)
    ensures out == PlanTable(table)
  {
    out := table;
    var j := 0;
    while j < |out|
      invariant j <= |out| == |table|
      invariant forall k :: 0 <= k < |out| ==> out[k] == if k < j then PlanEntry(table[k]) else table[k]
    {
      out := out[j := out[j].(out := out[j].out.(planned := false))];
      if out[j].rec.valid && out[j].out.mapped {
        out := out[j := out[j].(out := out[j].out.(planned := true))];
      }
      j := j + 1;
    }
  }

  /** imr_lsm_plan_output_copy_locked. */
  method PlanOutput(segs: seq<Segment>) returns (out: seq<Segment>)
    ensures out == PlanAll(segs)
  {
    out := segs;
    var i := 0;
    while i < |out|
      invariant i <= |out| == |segs|
      invariant forall k :: 0 <= k < |out| ==> out[k] == if k < i then PlanSegment(segs[k]) else segs[k]
    {
      if !out[i].retired {
        var table := PlanEntries(out[i].table);
        out := out[i := out[i].(table := table)];
      }
      i := i + 1;
    }
  }

  lemma {:induction false} CopyEntriesStop(d: Disk, table: seq<Entry>, io: Io, m: nat, n: nat)
    requires m <= n <= |table| && !CopyEntries(d, table, io, m).ok
    ensures CopyEntries(d, table, io, n) == CopyEntries(d, table, io, m)
    decreases n
  {
    if m < n { CopyEntriesStop(d, table, io, m, n - 1); }
  }

  lemma {:induction false} CopySegmentsStop(d: Disk, segs: seq<Segment>, io: Io, m: nat, n: nat)
    requires m <= n <= |segs| && !CopySegments(d, segs, io, m).ok
    ensures CopySegments(d, segs, io, n) == CopySegments(d, segs, io, m)
    decreases n
  {
    if m < n { CopySegmentsStop(d, segs, io, m, n - 1); }
  }

  method CopyTable(d: Disk, table: seq<Entry>, io: Io) returns (c: TableCopy)
    requires io.Device?
    ensures c == CopyEntries(d, table, io, |table|)
  {
    hide Pending, SourceOf, RunJob;
    c := TableCopy(d, table, true);
    var j := 0;
    while j < |table|
      invariant j <= |table|
      invariant c == CopyEntries(d, table, io, j) && c.ok
      invariant forall k :: j <= k < |table| ==> c.table[k] == table[k]
    {
      var e := c.table[j];
      if Pending(e) {
        var source := SourceOf(e);
        if source in io.badReads || e.out.outputPba in io.badWrites {
          c := c.(ok := false);
          CopyEntriesStop(d, table, io, j + 1, |table|);
          return;
        }
        c := TableCopy(RunJob(c.disk, JobOf(e)), c.table[j := CopiedEntry(e)], true);
      }
      j := j + 1;
    }
  }

  /** imr_lsm_copy_output_payload_locked: stops at the first block it cannot copy. */
  method CopyOutput(d: Disk, segs: seq<Segment>, io: Io) returns (c: StoreCopy)
    ensures c == CopyAll(d, segs, io)
  {
    c := StoreCopy(d, segs, true);
    if io.NoDevice? {
      return c.(ok := false);
    }
    var i := 0;
    while i < |segs|
      invariant i <= |segs|
      invariant c == CopySegments(d, segs, io, i) && c.ok
      invariant forall k :: i <= k < |segs| ==> c.segs[k] == segs[k]
    {
      if !segs[i].retired {
        var t := CopyTable(c.disk, segs[i].table, io);
        c := StoreCopy(t.disk, c.segs[i := segs[i].(table := t.table)], t.ok);
        if !c.ok {
          CopySegmentsStop(d, segs, io, i + 1, |segs|);
          return;
        }
      }
      i := i + 1;
    }
  }

  lemma SameNewer(st: Store, segs: seq<Segment>, r: Record)
    requires |st.unsorted| == |st.sorted| && SameVersions(segs, st.segs)
    ensures Newer(AllRecords(st.(segs := segs)), r).found == Newer(AllRecords(st), r).found
  {
    hide AllRecords, SameVersions, Fold;
    AllPairs(st, segs);
    var b := Best(false, r.ts, false, 0);
    FoldPairs(b, b, AllRecords(st.(segs := segs)), AllRecords(st), r.key);
  }

  method CommitEntries(st: Store, segs: seq<Segment>, table: seq<Entry>, tree: LruTree) returns (out: seq<Entry>)
    requires StoreOk(st) && SameVersions(segs, st.segs) && tree.Valid()
    modifies tree
    ensures tree.Valid()
    ensures out == CommitTable(table)
    ensures tree.View() == RefreshTable(old(tree.View()), AllRecords(st), table, |table|)
  {
    hide StoreOk, AllRecords, SameVersions, Newer, Fold, Update, CacheOk, Contents, Ordered, LruTree.Valid,
      LruTree.View;
    StoreLengths(st);
    SameVersionsOk(st, segs);
    out := table;
    ghost var cache := tree.View();
    var j := 0;
    while j < |out|
      invariant j <= |out| == |table| && tree.Valid()
      invariant forall k :: 0 <= k < |out| ==> out[k] == if k < j then CommitEntry(table[k]) else table[k]
      invariant tree.View() == RefreshTable(cache, AllRecords(st), table, j)
    {
      var e := out[j];
      if e.rec.valid && !e.out.committed && e.out.mapped && e.out.planned {
        out := out[j := CommitEntry(e)];
        SameNewer(st, segs, e.rec);
        var newer := FindNewer(st.(segs := segs), e.rec);
        if !newer.found {
          tree.UpdateKey(e.rec.key, CacheNode(e.out.outputPba, e.rec.valid, e.rec.ts));
        }
      }
      j := j + 1;
    }
  }

  /** imr_lsm_find_newer_record_locked. */
  method FindNewer(st: Store, r: Record) returns (newer: Best)
    requires StoreOk(st)
    ensures newer == Newer(AllRecords(st), r)
  {
    hide StoreOk, Fold;
    newer := ScanAll(st, r.key, Best(false, r.ts, false, 0));
  }

  lemma PartlyCommitted(st: Store, segs: seq<Segment>, n: nat)
    requires |segs| == |st.segs|
    requires forall k :: 0 <= k < |segs| ==> segs[k] == if k < n then CommitSegment(st.segs[k]) else st.segs[k]
    ensures SameVersions(segs, st.segs)
  {
  }

  /** imr_lsm_commit_output_metadata_locked: segments are rewritten in place while newer records are
      still being searched, and the read tree follows. */
  method CommitOutput(st: Store, tree: LruTree) returns (segs: seq<Segment>)
    requires StoreOk(st) && tree.Valid()
    modifies tree
    ensures tree.Valid()
    ensures segs == CommitSegments(st.segs)
    ensures tree.View() == RefreshSegments(old(tree.View()), AllRecords(st), st.segs, |st.segs|)
  {
    hide StoreOk, AllRecords, SameVersions, RefreshTable, CommitTable, LruTree.Valid, LruTree.View;
    StoreLengths(st);
    segs := st.segs;
    ghost var cache := tree.View();
    var i := 0;
    while i < |segs|
      invariant i <= |segs| == |st.segs| && tree.Valid()
      invariant forall k :: 0 <= k < |segs| ==> segs[k] == if k < i then CommitSegment(st.segs[k]) else st.segs[k]
      invariant tree.View() == RefreshSegments(cache, AllRecords(st), st.segs, i)
    {
      if !segs[i].retired {
        PartlyCommitted(st, segs, i);
        var table := CommitEntries(st, segs, segs[i].table, tree);
        segs := segs[i := segs[i].(table := table)];
      }
      i := i + 1;
    }
  }
}
