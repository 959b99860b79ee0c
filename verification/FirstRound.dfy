/** The first copying commit of a device: exactly which keys keep their payload, and a run after which one
    does not. */
module FirstRound {
  import opened Types
  import opened Scan
  import opened CopyJobs
  import opened Commit
  import opened Spec
  import opened Outputs
  import opened History
  import opened SoundSteps
  import opened Holdings
  import opened CommitResult
  import opened Integrity

  function RoundJobs(s: State): seq<Job> { SegmentJobs(PlanAll(s.store.segs), |s.store.segs|) }

  // ---------------------------------------------------------------- where reads go

  lemma ReadsWritten(s: State, key: nat)
    requires Sound(s) && s.commits.NoCommits? && Live(s.log, key)
    ensures ReadResult(s, key) == LookupResult.Valid(WrittenTo(s.log, key))
  {
    hide Sound, Held, Live, WrittenTo;
    ReadsAreHeld(s, key);
    HeldIsWritten(s, key, ReadResult(s, key).pba);
  }

  /** After the first complete round a read goes to the block written, or to where the round copied it. */
  lemma ReadAfterRound(s: State, io: Io, key: nat)
    requires Sound(s) && Levels(s.store) && s.commits.NoCommits? && Live(s.log, key) && CopiesSucceed(s, io)
    ensures var r, block := ReadResult(CommitOutput(s, 3, io), key), WrittenTo(s.log, key);
            r.Valid? && (r.pba == block || Job(block, r.pba) in RoundJobs(s))
  {
    hide Sound, CopyAll, PlanAll, SegmentJobs, RunJobs, Holds, Newest, Live, ReadResult, CommitMeta, MetaHarmless,
      WrittenTo, CopiesSucceed, ChangedOnly, AfterCopying;
    var r, u := CommitOutput(s, 3, io), AfterCopying(Planned(s), io);
    CommitOutputSound(s, 3, io);
    ReadsAreHeld(r, key);
    var to := ReadResult(r, key).pba;
    CopiedMetaHarmless(s, io);
    CopiedLevels(s, io);
    CommittedHeld(u, key, to);
    var m := RoundPrefix(s.disk, PlanAll(s.store.segs), io);
    CopiedLog(s, io);
    CopiedHolds(s, io, m, key, Newest(s.log, key), to);
    if Holds(s, key, Newest(s.log, key), to) {
      HeldIsWritten(s, key, to);
    } else {
      var jobs := RoundJobs(s);
      var k :| 0 <= k < m && jobs[k].target == to && Holds(s, key, Newest(s.log, key), jobs[k].source);
      HeldIsWritten(s, key, jobs[k].source);
      assert jobs[k] == Job(WrittenTo(s.log, key), to);
    }
  }

  lemma CopiedLevels(s: State, io: Io)
    requires Levels(s.store)
    ensures Levels(AfterCopying(Planned(s), io).store)
    ensures CopiesSucceed(s, io) ==> CommitOutput(s, 3, io) == CommitMeta(AfterCopying(Planned(s), io))
  {
    hide CopyAll, PlanAll;
  }

  lemma CopiedLog(s: State, io: Io)
    ensures AfterCopying(Planned(s), io).log == s.log && |PlanAll(s.store.segs)| == |s.store.segs|
  {
    hide CopyAll;
  }

  // ---------------------------------------------------------------- the disk plays no part

  lemma {:induction false} CopyTableIgnores(d: Disk, e: Disk, table: seq<Entry>, io: Io, n: nat)
    requires n <= |table|
    ensures CopyEntries(d, table, io, n).table == CopyEntries(e, table, io, n).table
    ensures CopyEntries(d, table, io, n).ok == CopyEntries(e, table, io, n).ok
  {
    hide Pending, SourceOf, CopiedEntry, RunJob;
    if n > 0 { CopyTableIgnores(d, e, table, io, n - 1); }
  }

  lemma {:induction false} CopyIgnores(d: Disk, e: Disk, segs: seq<Segment>, io: Io, n: nat)
    requires n <= |segs|
    ensures CopySegments(d, segs, io, n).segs == CopySegments(e, segs, io, n).segs
    ensures CopySegments(d, segs, io, n).ok == CopySegments(e, segs, io, n).ok
  {
    hide CopyEntries;
    if n > 0 {
      CopyIgnores(d, e, segs, io, n - 1);
      var c, f, table := CopySegments(d, segs, io, n - 1), CopySegments(e, segs, io, n - 1), segs[n - 1].table;
      CopyTableIgnores(c.disk, f.disk, table, io, |table|);
    }
  }

  /** Whatever the disk holds, a complete round makes the same copies and reads go to the same block. */
  lemma RoundIgnoresDisk(s: State, io: Io, key: nat, d: Disk)
    requires Levels(s.store) && CopiesSucceed(s, io)
    ensures var r, t := CommitOutput(s, 3, io), CommitOutput(s.(disk := d), 3, io);
            t.disk == RunJobs(d, RoundJobs(s)) && ReadResult(t, key) == ReadResult(r, key)
    ensures ReadResult(s.(disk := d), key) == ReadResult(s, key)
  {
    hide CopySegments, SegmentJobs, RunJobs, PlanAll, CommitSegments, RefreshSegments, AllRecords, Fold, ReadRecords;
    var segs := PlanAll(s.store.segs);
    CopyIgnores(s.disk, d, segs, io, |segs|);
    CopySegmentsRuns(d, segs, io, |segs|);
    CopiedLog(s, io);
  }

  // ---------------------------------------------------------------- exactly which keys keep their payload

  /** What a read of the key returns; only asked for readable keys. */
  function ReadPayload(s: State, key: nat): nat {
    var r := ReadResult(s, key); if r.Valid? then ReadBlock(s.disk, r.pba) else 0
  }

  /** Position of a job, or the number of jobs. */
  function IndexOf(jobs: seq<Job>, job: Job): (k: nat)
    ensures k <= |jobs| && (k < |jobs| <==> job in jobs) && (k < |jobs| ==> jobs[k] == job)
  {
    if jobs == [] then 0
    else
      var k := IndexOf(jobs[..|jobs| - 1], job);
      if k < |jobs| - 1 then k else if jobs[|jobs| - 1] == job then k else |jobs|
  }

  /** How many of the round's copies can harm a key: those before its own, if the commit turns the key to
      its copy, and all of them otherwise. */
  function Exposed(s: State, io: Io, key: nat): nat
    requires Levels(s.store)
  {
    var to := ReadResult(CommitOutput(s, 3, io), key);
    if to == LookupResult.Valid(WrittenTo(s.log, key)) then |RoundJobs(s)|
    else IndexOf(RoundJobs(s), Job(WrittenTo(s.log, key), if to.Valid? then to.pba else 0))
  }

  lemma JobsDistinct(s: State, io: Io)
    requires Sound(s)
    ensures forall k, l :: 0 <= k < l < |RoundJobs(s)| ==> RoundJobs(s)[k].target != RoundJobs(s)[l].target
  {
    hide Sound, SegmentJobs, RangesOk;
    PlannedSound(s, io);
    CopiedLog(s, io);
    forall k, l | 0 <= k < l < |RoundJobs(s)| ensures RoundJobs(s)[k].target != RoundJobs(s)[l].target {
      RoundTargetsDistinct(PlanAll(s.store.segs), |s.store.segs|, k, l);
    }
  }

  /** Where the payload comes from that a read returns after the first complete round. */
  lemma ReadOrigin(s: State, io: Io, key: nat)
    requires Sound(s) && Levels(s.store) && s.commits.NoCommits? && Live(s.log, key) && CopiesSucceed(s, io)
    ensures var r, n := ReadResult(CommitOutput(s, 3, io), key), Exposed(s, io, key);
            && r.Valid? && n <= |RoundJobs(s)|
            && Origin(RoundJobs(s), r.pba) == Origin(RoundJobs(s)[..n], WrittenTo(s.log, key))
  {
    hide Sound, SegmentJobs, PlanAll, Origin, ReadResult, CommitOutput, CopiesSucceed, Live, WrittenTo;
    ReadAfterRound(s, io, key);
    JobsDistinct(s, io);
    var jobs, n := RoundJobs(s), Exposed(s, io, key);
    if n < |jobs| {
      OriginOfTarget(jobs, n);
    } else {
      assert jobs[..n] == jobs;
    }
  }

  /** A key keeps its payload through the first complete round, whatever the disk holds, if and only if none
      of the copies it is exposed to puts other data on its block. */
  lemma FirstRoundKeepsExactly(s: State, io: Io, key: nat)
    requires Sound(s) && Levels(s.store) && s.commits.NoCommits? && Live(s.log, key) && CopiesSucceed(s, io)
    ensures Exposed(s, io, key) <= |RoundJobs(s)|
    ensures (forall d: Disk ::
               ReadPayload(CommitOutput(s.(disk := d), 3, io), key) == ReadPayload(s.(disk := d), key)) <==>
            forall l :: 0 <= l < Exposed(s, io, key) ==> !Spoils(RoundJobs(s), l, WrittenTo(s.log, key))
  {
    hide Sound, SegmentJobs, RoundJobs, Origin, ReadResult, CommitOutput, CopiesSucceed, Live, WrittenTo, RunJobs,
      Exposed;
    var jobs, n, block := RoundJobs(s), Exposed(s, io, key), WrittenTo(s.log, key);
    ReadOrigin(s, io, key);
    ReadsWritten(s, key);
    JobsDistinct(s, io);
    var to := ReadResult(CommitOutput(s, 3, io), key).pba;
    forall d: Disk
      ensures ReadPayload(CommitOutput(s.(disk := d), 3, io), key) == ReadBlock(RunJobs(d, jobs), to)
      ensures ReadPayload(s.(disk := d), key) == ReadBlock(d, block)
    {
      RoundIgnoresDisk(s, io, key, d);
    }
    OriginExact(jobs, to, block);
    OriginKept(jobs[..n], block);
    forall l | 0 <= l < n ensures Spoils(jobs[..n], l, block) == Spoils(jobs, l, block) {
      assert jobs[..n][..l] == jobs[..l];
    }
    KeepsIsOrigin(s, io, key, jobs, to, block);
  }

  lemma KeepsIsOrigin(s: State, io: Io, key: nat, jobs: seq<Job>, to: nat, block: nat)
    requires Levels(s.store)
    requires forall d: Disk :: ReadPayload(CommitOutput(s.(disk := d), 3, io), key) == ReadBlock(RunJobs(d, jobs), to)
    requires forall d: Disk :: ReadPayload(s.(disk := d), key) == ReadBlock(d, block)
    ensures (forall d: Disk ::
               ReadPayload(CommitOutput(s.(disk := d), 3, io), key) == ReadPayload(s.(disk := d), key)) <==>
            (forall d: Disk :: ReadBlock(RunJobs(d, jobs), to) == ReadBlock(d, block))
  {
    hide ReadPayload, CommitOutput, RunJobs;
  }
}
