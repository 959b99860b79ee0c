/** The output of segments: copy plan, payload copy and metadata commit, entry by entry. */
module Commit {
  import opened Types
  import opened BloomFilter
  import opened Scan
  import opened Obsolescence
  import opened CopyJobs
  import opened ReadTree

  /** The device behind the mapping: absent, or with blocks that cannot be read or written. */
  datatype Io = NoDevice | Device(badReads: set<nat>, badWrites: set<nat>)

  // ---------------------------------------------------------------- one entry

  function PlanEntry(e: Entry): Entry { e.(out := e.out.(planned := e.rec.valid && e.out.mapped)) }

  predicate Pending(e: Entry) {
    e.rec.valid && !e.out.committed && !e.out.copied && e.out.mapped && e.out.planned
  }

  function SourceOf(e: Entry): nat { if e.out.sourceValid then e.out.sourcePba else e.rec.pba }

  function JobOf(e: Entry): Job { Job(SourceOf(e), e.out.outputPba) }

  function CopiedEntry(e: Entry): Entry {
    e.(out := e.out.(sourcePba := SourceOf(e), sourceValid := true, copied := true))
  }

  predicate Commits(e: Entry) { e.rec.valid && !e.out.committed && e.out.mapped && e.out.planned }

  function CommitEntry(e: Entry): Entry {
    if Commits(e) then
      e.(rec := e.rec.(pba := e.out.outputPba),
         out := e.out.(sourcePba := e.rec.pba, sourceValid := true, committed := true))
    else e
  }

  /** What every entry of a block table satisfies throughout. */
  predicate EntryStateOk(e: Entry) {
    && (e.out.mapped ==> e.rec.valid)
    && (e.out.planned ==> e.out.mapped)
    && (e.out.copied ==> e.out.mapped && e.out.sourceValid)
    && (e.out.committed ==> e.out.mapped && e.out.sourceValid && e.rec.pba == e.out.outputPba)
    && (e.out.sourceValid && !e.out.committed ==> e.out.sourcePba == e.rec.pba)
  }

  /** The state machine keeps its invariant, commits only to the mapped output, and a second round
      of planning and committing changes nothing. */
  lemma EntryStates(e: Entry)
    requires EntryStateOk(e)
    ensures EntryStateOk(PlanEntry(e))
    ensures Pending(e) ==> EntryStateOk(CopiedEntry(e)) && SourceOf(e) == e.rec.pba
    ensures EntryStateOk(CommitEntry(e))
    ensures var c := CommitEntry(PlanEntry(e));
            && (c.out.committed <==> e.out.mapped)
            && c.rec == e.rec.(pba := if e.out.mapped then e.out.outputPba else e.rec.pba)
            && CommitEntry(PlanEntry(c)) == c
  {
  }

  // ---------------------------------------------------------------- tables and segments

  function PlanTable(table: seq<Entry>): (out: seq<Entry>)
    ensures |out| == |table| && forall j :: 0 <= j < |table| ==> out[j] == PlanEntry(table[j])
  {
    seq(|table|, j requires 0 <= j < |table| => PlanEntry(table[j]))
  }

  function PlanSegment(seg: Segment): Segment { if seg.retired then seg else seg.(table := PlanTable(seg.table)) }

  function PlanAll(segs: seq<Segment>): (out: seq<Segment>)
    ensures |out| == |segs| && forall i :: 0 <= i < |segs| ==> out[i] == PlanSegment(segs[i])
  {
    seq(|segs|, i requires 0 <= i < |segs| => PlanSegment(segs[i]))
  }

  /** Disk and table after the first entries were copied; `ok` turns false at the first failure,
      which ends the copying. */
  datatype TableCopy = TableCopy(disk: Disk, table: seq<Entry>, ok: bool)

  function CopyEntries(d: Disk, table: seq<Entry>, io: Io, n: nat): (c: TableCopy)
    requires n <= |table|
    ensures |c.table| == |table|
  {
    if n == 0 then TableCopy(d, table, true)
    else
      var c, e := CopyEntries(d, table, io, n - 1), table[n - 1];
      if !c.ok || !Pending(e) then c
      else if io.NoDevice? || SourceOf(e) in io.badReads || e.out.outputPba in io.badWrites then c.(ok := false)
      else TableCopy(RunJob(c.disk, JobOf(e)),
                     c.table[n - 1 := CopiedEntry(e)], true)
  }

  datatype StoreCopy = StoreCopy(disk: Disk, segs: seq<Segment>, ok: bool)

  function CopySegments(d: Disk, segs: seq<Segment>, io: Io, n: nat): (c: StoreCopy)
    requires n <= |segs|
    ensures |c.segs| == |segs|
  {
    if n == 0 then StoreCopy(d, segs, true)
    else
      var c := CopySegments(d, segs, io, n - 1);
      if !c.ok || segs[n - 1].retired then c
      else
        var t := CopyEntries(c.disk, segs[n - 1].table, io, |segs[n - 1].table|);
        StoreCopy(t.disk, c.segs[n - 1 := segs[n - 1].(table := t.table)], t.ok)
  }

  /** imr_lsm_copy_output_payload_locked; without a device nothing is copied and it fails. */
  function CopyAll(d: Disk, segs: seq<Segment>, io: Io): StoreCopy {
    if io.NoDevice? then StoreCopy(d, segs, false) else CopySegments(d, segs, io, |segs|)
  }

  function CommitTable(table: seq<Entry>): (out: seq<Entry>)
    ensures |out| == |table| && forall j :: 0 <= j < |table| ==> out[j] == CommitEntry(table[j])
  {
    seq(|table|, j requires 0 <= j < |table| => CommitEntry(table[j]))
  }

  function CommitSegment(seg: Segment): Segment {
    if seg.retired then seg else seg.(table := CommitTable(seg.table))
  }

  function CommitSegments(segs: seq<Segment>): (out: seq<Segment>)
    ensures |out| == |segs| && forall i :: 0 <= i < |segs| ==> out[i] == CommitSegment(segs[i])
  {
    seq(|segs|, i requires 0 <= i < |segs| => CommitSegment(segs[i]))
  }

  /** The commit refreshes the read tree for each entry it commits, unless a newer record exists. */
  function RefreshEntry(cache: Cache, all: seq<Record>, e: Entry): Cache {
    if Commits(e) && !Newer(all, e.rec).found
    then Update(cache, e.rec.key, CacheNode(e.out.outputPba, e.rec.valid, e.rec.ts)) else cache
  }

  function RefreshTable(cache: Cache, all: seq<Record>, table: seq<Entry>, n: nat): Cache
    requires n <= |table|
  {
    if n == 0 then cache else RefreshEntry(RefreshTable(cache, all, table, n - 1), all, table[n - 1])
  }

  function RefreshSegments(cache: Cache, all: seq<Record>, segs: seq<Segment>, n: nat): Cache
    requires n <= |segs|
  {
    if n == 0 then cache
    else
      var before := RefreshSegments(cache, all, segs, n - 1);
      if segs[n - 1].retired then before else RefreshTable(before, all, segs[n - 1].table, |segs[n - 1].table|)
  }

  // ---------------------------------------------------------------- versions do not change

  /** `a` and `b` hold the same versions; addresses and output states may differ. */
  ghost predicate SameVersion(a: Record, b: Record) { a == b.(pba := a.pba) }

  ghost predicate SameVersions(a: seq<Segment>, b: seq<Segment>) {
    |a| == |b| && forall i :: 0 <= i < |a| ==> SameTable(a[i], b[i])
  }

  ghost predicate SameTable(a: Segment, b: Segment) {
    && a == b.(table := a.table) && |a.table| == |b.table|
    && forall j :: 0 <= j < |a.table| ==> SameVersion(a.table[j].rec, b.table[j].rec)
  }

  ghost predicate Pairwise(a: seq<Record>, b: seq<Record>) {
    |a| == |b| && forall i :: 0 <= i < |a| ==> SameVersion(a[i], b[i])
  }

  lemma {:induction false} SegmentPairs(a: seq<Segment>, b: seq<Segment>, n: nat)
    requires SameVersions(a, b) && n <= |a|
    ensures Pairwise(SegmentRecords(a, n), SegmentRecords(b, n))
  {
    if n > 0 {
      SegmentPairs(a, b, n - 1);
      assert SameTable(a[n - 1], b[n - 1]);
      if !a[n - 1].retired {
        PairConcat(SegmentRecords(a, n - 1), SegmentRecords(b, n - 1), Recs(a[n - 1].table), Recs(b[n - 1].table));
      } else {
        assert SegmentRecords(a, n) == SegmentRecords(a, n - 1) && SegmentRecords(b, n) == SegmentRecords(b, n - 1);
      }
    }
  }

  lemma PairConcat(a: seq<Record>, b: seq<Record>, x: seq<Record>, y: seq<Record>)
    requires Pairwise(a, b) && Pairwise(x, y)
    ensures Pairwise(a + x, b + y)
  {
    hide SameVersion;
  }

  lemma AllPairs(st: Store, segs: seq<Segment>)
    requires |st.unsorted| == |st.sorted| && SameVersions(segs, st.segs)
    ensures Pairwise(AllRecords(st.(segs := segs)), AllRecords(st))
  {
    LevelRecordsSame(st, segs, |st.unsorted|);
    SegmentPairs(segs, st.segs, |segs|);
  }

  lemma {:induction false} FoldPairs(b: Best, c: Best, xs: seq<Record>, ys: seq<Record>, key: nat)
    requires Pairwise(xs, ys) && c == b.(pba := c.pba)
    ensures Fold(c, ys, key) == Fold(b, xs, key).(pba := Fold(c, ys, key).pba)
  {
    if xs != [] {
      FoldPairs(b, c, xs[..|xs| - 1], ys[..|ys| - 1], key);
      assert SameVersion(xs[|xs| - 1], ys[|ys| - 1]);
    }
  }

  lemma SameVersionsOk(st: Store, segs: seq<Segment>)
    requires StoreOk(st) && SameVersions(segs, st.segs)
    ensures StoreOk(st.(segs := segs))
  {
    hide MayContain;
    forall i | 0 <= i < |segs| ensures SegmentOk(segs[i]) {
      assert SameTable(segs[i], st.segs[i]) && SegmentOk(st.segs[i]);
      forall j | 0 <= j < |segs[i].table| ensures EntryOk(segs[i], segs[i].table[j].rec) {
        assert EntryOk(st.segs[i], st.segs[i].table[j].rec);
      }
      var x, y := Recs(segs[i].table), Recs(st.segs[i].table);
      assert forall j :: 0 <= j < |x| ==> x[j].key == y[j].key;
    }
    forall l | 0 <= l < LEVELS && st.sorted[l] != [] ensures HasSegment(segs, l) {
      var i :| 0 <= i < |st.segs| && st.segs[i].level == l;
      assert SameTable(segs[i], st.segs[i]);
    }
  }

  lemma PlanSameVersions(segs: seq<Segment>)
    ensures SameVersions(PlanAll(segs), segs)
  {
  }

  lemma CommitSameVersions(segs: seq<Segment>)
    ensures SameVersions(CommitSegments(segs), segs)
  {
  }

  lemma {:induction false} CopyEntriesSame(d: Disk, table: seq<Entry>, io: Io, n: nat)
    requires n <= |table|
    ensures var c := CopyEntries(d, table, io, n);
            forall j :: 0 <= j < |table| ==>
              c.table[j] == table[j] || (j < n && Pending(table[j]) && c.table[j] == CopiedEntry(table[j]))
    ensures var c := CopyEntries(d, table, io, n);
            c.ok ==> forall j :: 0 <= j < n && Pending(table[j]) ==> c.table[j] == CopiedEntry(table[j])
  {
    if n > 0 { CopyEntriesSame(d, table, io, n - 1); }
  }

  /** `c` is `seg` with, at most, pending entries copied; all of them if `ok`. */
  ghost predicate CopiedSegment(c: Segment, seg: Segment, ok: bool) {
    && c == seg.(table := c.table) && |c.table| == |seg.table|
    && (forall j :: 0 <= j < |seg.table| ==>
          || c.table[j] == seg.table[j]
          || (!seg.retired && Pending(seg.table[j]) && c.table[j] == CopiedEntry(seg.table[j])))
    && (ok && !seg.retired ==> forall j :: 0 <= j < |seg.table| && Pending(seg.table[j]) ==>
          c.table[j] == CopiedEntry(seg.table[j]))
  }

  lemma {:induction false} CopySegmentsSame(d: Disk, segs: seq<Segment>, io: Io, n: nat)
    requires n <= |segs|
    ensures var c := CopySegments(d, segs, io, n);
            forall i :: 0 <= i < |segs| ==> CopiedSegment(c.segs[i], segs[i], c.ok && i < n)
  {
    hide CopyEntries, Pending;
    if n > 0 {
      CopySegmentsSame(d, segs, io, n - 1);
      var c := CopySegments(d, segs, io, n - 1);
      CopyEntriesSame(c.disk, segs[n - 1].table, io, |segs[n - 1].table|);
    }
  }

  lemma CopySameVersions(d: Disk, segs: seq<Segment>, io: Io)
    ensures SameVersions(CopyAll(d, segs, io).segs, segs)
    ensures forall i :: 0 <= i < |segs| ==>
              CopiedSegment(CopyAll(d, segs, io).segs[i], segs[i], CopyAll(d, segs, io).ok)
  {
    hide CopySegments;
    CopySegmentsSame(d, segs, io, |segs|);
  }

  // ---------------------------------------------------------------- payload

  function TableJobs(table: seq<Entry>, n: nat): seq<Job>
    requires n <= |table|
  {
    if n == 0 then []
    else TableJobs(table, n - 1) + (if Pending(table[n - 1]) then [JobOf(table[n - 1])] else [])
  }

  /** The copies a round of copying sets out to make, in order. */
  function SegmentJobs(segs: seq<Segment>, n: nat): seq<Job>
    requires n <= |segs|
  {
    if n == 0 then []
    else
      SegmentJobs(segs, n - 1) +
      (if segs[n - 1].retired then [] else TableJobs(segs[n - 1].table, |segs[n - 1].table|))
  }

  lemma {:induction false} RunJobsConcat(d: Disk, xs: seq<Job>, ys: seq<Job>)
    ensures RunJobs(d, xs + ys) == RunJobs(RunJobs(d, xs), ys)
  {
    if ys == [] {
      assert xs + ys == xs;
    } else {
      RunJobsConcat(d, xs, ys[..|ys| - 1]);
      assert (xs + ys)[..|xs + ys| - 1] == xs + ys[..|ys| - 1];
    }
  }

  lemma {:induction false} CopyEntriesRuns(d: Disk, table: seq<Entry>, io: Io, n: nat)
    requires n <= |table| && CopyEntries(d, table, io, n).ok
    ensures CopyEntries(d, table, io, n).disk == RunJobs(d, TableJobs(table, n))
  {
    hide RunJob;
    if n > 0 {
      CopyEntriesRuns(d, table, io, n - 1);
      var jobs := TableJobs(table, n);
      if Pending(table[n - 1]) {
        assert jobs[..|jobs| - 1] == TableJobs(table, n - 1);
      } else {
        assert jobs == TableJobs(table, n - 1);
      }
    }
  }

  lemma {:induction false} CopySegmentsRuns(d: Disk, segs: seq<Segment>, io: Io, n: nat)
    requires n <= |segs| && CopySegments(d, segs, io, n).ok
    ensures CopySegments(d, segs, io, n).disk == RunJobs(d, SegmentJobs(segs, n))
  {
    if n > 0 {
      CopySegmentsRuns(d, segs, io, n - 1);
      var before := CopySegments(d, segs, io, n - 1);
      if !segs[n - 1].retired {
        var table := segs[n - 1].table;
        CopyEntriesRuns(before.disk, table, io, |table|);
        RunJobsConcat(d, SegmentJobs(segs, n - 1), TableJobs(table, |table|));
      } else {
        assert SegmentJobs(segs, n) == SegmentJobs(segs, n - 1);
      }
    }
  }

  lemma {:induction false} TableJobsMember(table: seq<Entry>, n: nat, j: nat)
    requires j < n <= |table| && Pending(table[j])
    ensures JobOf(table[j]) in TableJobs(table, n)
  {
    if j < n - 1 { TableJobsMember(table, n - 1, j); }
  }

  lemma {:induction false} SegmentJobsMember(segs: seq<Segment>, n: nat, i: nat, j: nat)
    requires i < n <= |segs| && !segs[i].retired && j < |segs[i].table| && Pending(segs[i].table[j])
    ensures JobOf(segs[i].table[j]) in SegmentJobs(segs, n)
  {
    hide Pending, JobOf, TableJobs;
    if i == n - 1 {
      TableJobsMember(segs[i].table, |segs[i].table|, j);
    } else {
      SegmentJobsMember(segs, n - 1, i, j);
    }
  }

  /** A successful copy round whose jobs are safe puts, for each entry it copies, the payload at the
      entry's address into its output block; the commit then points the entry there. */
  lemma CommitKeepsPayload(d: Disk, segs: seq<Segment>, io: Io, i: nat, j: nat)
    requires CopyAll(d, PlanAll(segs), io).ok && Safe(SegmentJobs(PlanAll(segs), |segs|))
    requires i < |segs| && !segs[i].retired && j < |segs[i].table| && EntryStateOk(segs[i].table[j])
    requires Pending(PlanEntry(segs[i].table[j]))
    ensures var c := CopyAll(d, PlanAll(segs), io);
            var table := CommitSegments(c.segs)[i].table;
            && |table| == |segs[i].table|
            && table[j].out.committed && table[j].out.copied
            && ReadBlock(c.disk, table[j].rec.pba) == ReadBlock(d, segs[i].table[j].rec.pba)
  {
    hide Safe, CopySegments, SegmentJobs, RunJobs;
    var planned := PlanAll(segs);
    var e := planned[i].table[j];
    CopySegmentsRuns(d, planned, io, |segs|);
    CopySameVersions(d, planned, io);
    SegmentJobsMember(planned, |segs|, i, j);
    var jobs := SegmentJobs(planned, |segs|);
    var k :| 0 <= k < |jobs| && jobs[k] == JobOf(e);
    RunJobsDelivers(d, jobs, k);
    var c := CopyAll(d, planned, io);
    assert CopiedSegment(c.segs[i], planned[i], c.ok);
  }

  /** A round that fails has committed nothing: no entry's address changes. */
  lemma FailedCopyCommitsNothing(d: Disk, segs: seq<Segment>, io: Io, i: nat, j: nat)
    requires i < |segs| && j < |segs[i].table|
    ensures var c := CopyAll(d, PlanAll(segs), io);
            |c.segs| == |segs| && |c.segs[i].table| == |segs[i].table| &&
            c.segs[i].table[j].rec == segs[i].table[j].rec &&
            c.segs[i].table[j].out.committed == segs[i].table[j].out.committed
  {
    hide CopySegments;
    var planned := PlanAll(segs);
    CopySameVersions(d, planned, io);
    assert CopiedSegment(CopyAll(d, planned, io).segs[i], planned[i], CopyAll(d, planned, io).ok);
  }

  // ---------------------------------------------------------------- invariants of all segments

  ghost predicate StatesOk(segs: seq<Segment>) {
    forall i, j :: 0 <= i < |segs| && 0 <= j < |segs[i].table| ==> EntryStateOk(segs[i].table[j])
  }

  /** Kept by runs that commit only after copying (mode 3). */
  ghost predicate CommittedAreCopied(segs: seq<Segment>) {
    forall i, j :: 0 <= i < |segs| && 0 <= j < |segs[i].table| ==>
      (segs[i].table[j].out.committed ==> segs[i].table[j].out.copied)
  }

  /** One entry through a round: planned, perhaps copied, and committed if the round goes that far. */
  lemma EntryRound(e: Entry, c: Entry, copied: bool)
    requires EntryStateOk(e)
    requires c == PlanEntry(e) || (Pending(PlanEntry(e)) && c == CopiedEntry(PlanEntry(e)))
    requires copied && Pending(PlanEntry(e)) ==> c == CopiedEntry(PlanEntry(e))
    ensures EntryStateOk(PlanEntry(e)) && EntryStateOk(c) && EntryStateOk(CommitEntry(c)) &&
            EntryStateOk(CommitEntry(PlanEntry(e)))
    ensures (e.out.committed ==> e.out.copied) ==>
              (c.out.committed ==> c.out.copied) &&
              (copied && CommitEntry(c).out.committed ==> CommitEntry(c).out.copied)
  {
  }

  lemma RoundKeepsStates(d: Disk, segs: seq<Segment>, io: Io)
    requires StatesOk(segs)
    ensures var c := CopyAll(d, PlanAll(segs), io);
            && StatesOk(PlanAll(segs)) && StatesOk(c.segs)
            && StatesOk(CommitSegments(c.segs)) && StatesOk(CommitSegments(PlanAll(segs)))
    ensures var c := CopyAll(d, PlanAll(segs), io);
            CommittedAreCopied(segs) ==>
              CommittedAreCopied(c.segs) && (c.ok ==> CommittedAreCopied(CommitSegments(c.segs)))
  {
    hide CopyAll, EntryStateOk, Pending, PlanEntry, CommitEntry, CopiedEntry;
    var planned := PlanAll(segs);
    var c := CopyAll(d, planned, io);
    CopySameVersions(d, planned, io);
    forall i, j | 0 <= i < |segs| && 0 <= j < |segs[i].table|
      ensures EntryStateOk(planned[i].table[j])
      ensures |c.segs[i].table| == |segs[i].table| && EntryStateOk(c.segs[i].table[j])
      ensures EntryStateOk(CommitSegments(c.segs)[i].table[j])
      ensures EntryStateOk(CommitSegments(planned)[i].table[j])
      ensures CommittedAreCopied(segs) && c.segs[i].table[j].out.committed ==> c.segs[i].table[j].out.copied
      ensures CommittedAreCopied(segs) && c.ok && CommitSegments(c.segs)[i].table[j].out.committed ==>
                CommitSegments(c.segs)[i].table[j].out.copied
    {
      assert CopiedSegment(c.segs[i], planned[i], c.ok);
      if !segs[i].retired {
        EntryRound(segs[i].table[j], c.segs[i].table[j], c.ok);
      }
    }
    SameLengths(c.segs, segs);
  }

  lemma SameLengths(a: seq<Segment>, b: seq<Segment>)
    requires |a| == |b|
    ensures forall i :: 0 <= i < |a| ==>
              |CommitSegments(a)[i].table| == |a[i].table| && |PlanAll(b)[i].table| == |b[i].table|
  {
  }

  // ---------------------------------------------------------------- a second round

  /** Everything the segment can commit is committed. */
  predicate EntryDone(e: Entry) {
    e.out.planned == (e.rec.valid && e.out.mapped) && (e.rec.valid && e.out.mapped ==> e.out.committed)
  }

  ghost predicate TableDone(table: seq<Entry>) { forall j :: 0 <= j < |table| ==> EntryDone(table[j]) }

  ghost predicate AllDone(segs: seq<Segment>) {
    forall i :: 0 <= i < |segs| && !segs[i].retired ==> TableDone(segs[i].table)
  }

  lemma RoundFinishes(d: Disk, segs: seq<Segment>, io: Io)
    requires StatesOk(segs)
    ensures AllDone(CommitSegments(PlanAll(segs)))
    ensures var c := CopyAll(d, PlanAll(segs), io); c.ok ==> AllDone(CommitSegments(c.segs))
  {
    hide CopyAll, EntryStateOk, Pending, PlanEntry, CommitEntry, CopiedEntry, EntryDone;
    var planned := PlanAll(segs);
    var c := CopyAll(d, planned, io);
    CopySameVersions(d, planned, io);
    forall i, j | 0 <= i < |segs| && !segs[i].retired && 0 <= j < |segs[i].table|
      ensures EntryDone(CommitSegments(planned)[i].table[j])
      ensures |c.segs[i].table| == |segs[i].table| && (c.ok ==> EntryDone(CommitSegments(c.segs)[i].table[j]))
    {
      assert CopiedSegment(c.segs[i], planned[i], c.ok);
      EntryFinishes(segs[i].table[j], c.segs[i].table[j]);
    }
    SameLengths(c.segs, segs);
  }

  lemma EntryFinishes(e: Entry, c: Entry)
    requires EntryStateOk(e) && (c == PlanEntry(e) || c == CopiedEntry(PlanEntry(e)))
    ensures EntryDone(CommitEntry(c)) && EntryDone(CommitEntry(PlanEntry(e)))
  {
  }

  /** Where everything is committed a further round plans, copies, commits and refreshes nothing. */
  lemma NothingToDo(d: Disk, segs: seq<Segment>, io: Io, cache: Cache, all: seq<Record>)
    requires AllDone(segs)
    ensures PlanAll(segs) == segs && CommitSegments(segs) == segs
    ensures CopyAll(d, segs, io) == StoreCopy(d, segs, io.Device?)
    ensures RefreshSegments(cache, all, segs, |segs|) == cache
  {
    forall i | 0 <= i < |segs| ensures PlanSegment(segs[i]) == segs[i] && CommitSegment(segs[i]) == segs[i] {
      if !segs[i].retired {
        assert PlanTable(segs[i].table) == segs[i].table && CommitTable(segs[i].table) == segs[i].table;
      }
    }
    if io.Device? { NothingCopies(d, segs, io, |segs|); }
    NothingRefreshes(segs, cache, all, |segs|);
  }

  lemma {:induction false} NothingCopies(d: Disk, segs: seq<Segment>, io: Io, n: nat)
    requires AllDone(segs) && io.Device? && n <= |segs|
    ensures CopySegments(d, segs, io, n) == StoreCopy(d, segs, true)
  {
    if n > 0 {
      NothingCopies(d, segs, io, n - 1);
      if !segs[n - 1].retired { NothingPending(d, segs[n - 1].table, io, |segs[n - 1].table|); }
    }
  }

  lemma {:induction false} NothingPending(d: Disk, table: seq<Entry>, io: Io, n: nat)
    requires TableDone(table) && io.Device? && n <= |table|
    ensures CopyEntries(d, table, io, n) == TableCopy(d, table, true)
  {
    if n > 0 { NothingPending(d, table, io, n - 1); }
  }

  lemma {:induction false} NothingRefreshes(segs: seq<Segment>, cache: Cache, all: seq<Record>, n: nat)
    requires AllDone(segs) && n <= |segs|
    ensures RefreshSegments(cache, all, segs, n) == cache
  {
    if n > 0 {
      NothingRefreshes(segs, cache, all, n - 1);
      if !segs[n - 1].retired { TableRefreshes(segs[n - 1].table, cache, all, |segs[n - 1].table|); }
    }
  }

  lemma {:induction false} TableRefreshes(table: seq<Entry>, cache: Cache, all: seq<Record>, n: nat)
    requires TableDone(table) && n <= |table|
    ensures RefreshTable(cache, all, table, n) == cache
  {
    if n > 0 { TableRefreshes(table, cache, all, n - 1); }
  }
}
