/** Outputs of segments over whole runs: active output ranges never overlap, every mapped entry has its
    own block inside its segment's range, and entries follow the commit state machine. */
module Outputs {
  import opened Types
  import opened Tables
  import opened Builder
  import opened Scan
  import opened Placement
  import opened CopyJobs
  import opened Commit
  import opened Spec

  /** Mapped entries take ascending, disjoint blocks inside the segment's output. */
  ghost predicate MappingOk(seg: Segment) {
    && (seg.output.Range? ==> seg.output.first <= seg.output.last)
    && (forall j :: 0 <= j < |seg.table| && seg.table[j].out.mapped ==> BlockInside(seg, seg.table[j].out.outputPba))
    && (forall j, k :: 0 <= j < k < |seg.table| && seg.table[j].out.mapped && seg.table[k].out.mapped ==>
          seg.table[j].out.outputPba + BLOCK_SECTORS <= seg.table[k].out.outputPba)
  }

  predicate BlockInside(seg: Segment, pba: nat) {
    seg.output.Range? && seg.output.first <= pba && pba + BLOCK_SECTORS - 1 <= seg.output.last
  }

  /** Two active segments have disjoint outputs. */
  ghost predicate Apart(a: Segment, b: Segment) {
    !a.retired && !b.retired && a.output.Range? && b.output.Range? ==>
      a.output.last < b.output.first || b.output.last < a.output.first
  }

  ghost predicate RangesOk(segs: seq<Segment>) {
    && (forall i :: 0 <= i < |segs| ==> MappingOk(segs[i]))
    && (forall i, j :: 0 <= i < j < |segs| ==> Apart(segs[i], segs[j]))
  }

  ghost predicate OutputsOk(segs: seq<Segment>, commits: CommitKind) {
    && RangesOk(segs) && StatesOk(segs)
    && (!commits.MetaOnly? ==> CommittedAreCopied(segs))
    && (commits.NoCommits? ==> NothingCopied(segs))
  }

  ghost predicate NothingCopied(segs: seq<Segment>) {
    forall i, j :: 0 <= i < |segs| && 0 <= j < |segs[i].table| ==> Untouched(segs[i].table[j])
  }

  predicate Untouched(e: Entry) { !e.out.copied && !e.out.committed }

  /** Mapped output blocks of active segments are pairwise disjoint. */
  lemma BlocksDisjoint(segs: seq<Segment>, i: nat, j: nat, k: nat, l: nat)
    requires RangesOk(segs) && i < |segs| && k < |segs| && j < |segs[i].table| && l < |segs[k].table|
    requires !segs[i].retired && !segs[k].retired && (i != k || j != l)
    requires segs[i].table[j].out.mapped && segs[k].table[l].out.mapped
    ensures var a, b := segs[i].table[j].out.outputPba, segs[k].table[l].out.outputPba;
            a + BLOCK_SECTORS <= b || b + BLOCK_SECTORS <= a
  {
    assert MappingOk(segs[i]) && MappingOk(segs[k]);
    assert BlockInside(segs[i], segs[i].table[j].out.outputPba);
    assert BlockInside(segs[k], segs[k].table[l].out.outputPba);
    if i < k {
      assert Apart(segs[i], segs[k]);
    } else if k < i {
      assert Apart(segs[k], segs[i]);
    }
  }

  /** Segments that differ in nothing an output depends on. */
  ghost predicate SameOutputs(a: Segment, b: Segment) {
    && a.output == b.output && (a.retired == b.retired || a.retired) && |a.table| == |b.table|
    && forall j :: 0 <= j < |a.table| ==>
         a.table[j].out.mapped == b.table[j].out.mapped && a.table[j].out.outputPba == b.table[j].out.outputPba
  }

  lemma SameRangesOk(a: seq<Segment>, b: seq<Segment>)
    requires RangesOk(b) && |a| == |b| && forall i :: 0 <= i < |a| ==> SameOutputs(a[i], b[i])
    ensures RangesOk(a)
  {
    forall i | 0 <= i < |a| ensures MappingOk(a[i]) {
      assert SameOutputs(a[i], b[i]) && MappingOk(b[i]);
      assert forall j :: 0 <= j < |a[i].table| && a[i].table[j].out.mapped ==>
             BlockInside(b[i], b[i].table[j].out.outputPba);
    }
    forall i, j | 0 <= i < j < |a| ensures Apart(a[i], a[j]) {
      assert SameOutputs(a[i], b[i]) && SameOutputs(a[j], b[j]) && Apart(b[i], b[j]);
    }
  }

  lemma StatsOutputs(segs: seq<Segment>, later: seq<Segment>, commits: CommitKind)
    requires SameButStats(later, segs) && OutputsOk(segs, commits)
    ensures OutputsOk(later, commits)
  {
    hide EntryStateOk;
    assert forall i :: 0 <= i < |segs| ==> SameSegment(later[i], segs[i]);
    assert forall i :: 0 <= i < |segs| ==> SameOutputs(later[i], segs[i]);
    SameRangesOk(later, segs);
  }

  lemma RetireOutputs(segs: seq<Segment>, at: nat, commits: CommitKind)
    requires at < |segs| && OutputsOk(segs, commits)
    ensures OutputsOk(segs[at := segs[at].(retired := true, score := 0)], commits)
  {
    hide EntryStateOk;
    var later := segs[at := segs[at].(retired := true, score := 0)];
    assert forall i :: 0 <= i < |segs| ==> SameOutputs(later[i], segs[i]);
    SameRangesOk(later, segs);
  }

  /** A new segment's mapping is in order and its output avoids all active ones. */
  lemma NewSegmentMapping(segs: seq<Segment>, id: nat, level: nat, track: Track, recs: seq<Record>, bitsPerKey: nat)
    requires recs != []
    ensures var seg := NewSegment(segs, id, level, track, recs, bitsPerKey);
            && MappingOk(seg)
            && (forall j :: 0 <= j < |seg.table| ==> EntryStateOk(seg.table[j]) && Untouched(seg.table[j]))
            && (forall i :: 0 <= i < |segs| && MappingOk(segs[i]) ==> Apart(segs[i], seg))
  {
    hide UpsertAll, Summarize, WindowOf, FirstFit, MapEntry, BloomFilter.BuildFilter;
    var seg := NewSegment(segs, id, level, track, recs, bitsPerKey);
    var rs := UpsertAll([], recs);
    var table := Fresh(rs);
    FirstFitFacts(segs, seg.window, |rs| * BLOCK_SECTORS);
    if seg.output.Range? {
      forall j | 0 <= j < |table| ensures EntryStateOk(seg.table[j]) && Untouched(seg.table[j])
                                  ensures seg.table[j].out.mapped ==> BlockInside(seg, seg.table[j].out.outputPba)
      {
        MappedInside(table, seg.output, j);
        MapEntryStates(table, seg.output, j);
      }
      forall j, k | 0 <= j < k < |table| && seg.table[j].out.mapped && seg.table[k].out.mapped
        ensures seg.table[j].out.outputPba + BLOCK_SECTORS <= seg.table[k].out.outputPba
      {
        MappedDistinct(table, seg.output, j, k);
      }
      forall i | 0 <= i < |segs| && MappingOk(segs[i]) ensures Apart(segs[i], seg) {
        assert !Hits(segs[i], seg.output.first, seg.output.last);
      }
    }
  }

  lemma MapEntryStates(table: seq<Entry>, output: Range, j: nat)
    requires output.Range? && j < |table|
    ensures EntryStateOk(MapEntry(table, output, j)) && Untouched(MapEntry(table, output, j))
  {
  }

  lemma AddOutputs(segs: seq<Segment>, seg: Segment, commits: CommitKind)
    requires OutputsOk(segs, commits) && MappingOk(seg)
    requires forall j :: 0 <= j < |seg.table| ==> EntryStateOk(seg.table[j]) && Untouched(seg.table[j])
    requires forall i :: 0 <= i < |segs| ==> Apart(segs[i], seg)
    ensures OutputsOk(segs + [seg], commits)
  {
    hide EntryStateOk, MappingOk, Apart;
    var later := segs + [seg];
    assert forall i :: 0 <= i < |segs| ==> later[i] == segs[i];
  }

  lemma NewSegmentOutputs(segs: seq<Segment>, id: nat, level: nat, track: Track, recs: seq<Record>, bitsPerKey: nat,
                          commits: CommitKind)
    requires recs != [] && OutputsOk(segs, commits)
    ensures OutputsOk(segs + [NewSegment(segs, id, level, track, recs, bitsPerKey)], commits)
  {
    hide NewSegment, MappingOk, Apart, EntryStateOk, StatesOk, CommittedAreCopied;
    NewSegmentMapping(segs, id, level, track, recs, bitsPerKey);
    AddOutputs(segs, NewSegment(segs, id, level, track, recs, bitsPerKey), commits);
  }

  /** Planning, copying and committing move no output. */
  lemma RoundOutputs(d: Disk, segs: seq<Segment>, io: Io, commits: CommitKind)
    requires OutputsOk(segs, commits)
    ensures var planned := PlanAll(segs);
            var c := CopyAll(d, planned, io);
            && OutputsOk(planned, commits) && OutputsOk(c.segs, AfterCopy(commits))
            && OutputsOk(CommitSegments(planned), MetaOnly)
            && (c.ok ==> OutputsOk(CommitSegments(c.segs), AfterCopy(commits)))
  {
    hide CopyAll, StatesOk, CommittedAreCopied, NothingCopied, MappingOk, Pending;
    RoundKeepsStates(d, segs, io);
    var planned := PlanAll(segs);
    var c := CopyAll(d, planned, io);
    CopySameVersions(d, planned, io);
    forall i | 0 <= i < |segs|
      ensures SameOutputs(planned[i], segs[i]) && SameOutputs(c.segs[i], segs[i])
      ensures SameOutputs(CommitSegments(planned)[i], segs[i]) && SameOutputs(CommitSegments(c.segs)[i], segs[i])
    {
      assert CopiedSegment(c.segs[i], planned[i], c.ok);
    }
    SameRangesOk(planned, segs);
    SameRangesOk(c.segs, segs);
    SameRangesOk(CommitSegments(planned), segs);
    SameRangesOk(CommitSegments(c.segs), segs);
    if CommittedAreCopied(segs) { PlannedCopied(segs); }
    if NothingCopied(segs) { PlannedNothing(segs); }
  }

  lemma PlannedNothing(segs: seq<Segment>)
    requires NothingCopied(segs)
    ensures NothingCopied(PlanAll(segs))
  {
  }

  lemma PlannedCopied(segs: seq<Segment>)
    requires CommittedAreCopied(segs)
    ensures CommittedAreCopied(PlanAll(segs))
  {
  }
}
