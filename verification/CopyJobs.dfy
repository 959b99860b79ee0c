/** The disk as a map from block address to payload, and block copies carried out one after another. */
module CopyJobs {

  /** Payload of the block that starts at a sector; a block never written reads as 0. */
  type Disk = map<nat, nat>

  function ReadBlock(d: Disk, at: nat): nat { if at in d then d[at] else 0 }

  datatype Job = Job(source: nat, target: nat)

  /** Writing what a block already holds is no change. */
  function WriteBlock(d: Disk, at: nat, payload: nat): (e: Disk)
    ensures forall b: nat :: ReadBlock(e, b) == if b == at then payload else ReadBlock(d, b)
  {
    if ReadBlock(d, at) == payload then d else d[at := payload]
  }

  function RunJob(d: Disk, job: Job): Disk { WriteBlock(d, job.target, ReadBlock(d, job.source)) }

  function RunJobs(d: Disk, jobs: seq<Job>): Disk {
    if jobs == [] then d else RunJob(RunJobs(d, jobs[..|jobs| - 1]), jobs[|jobs| - 1])
  }

  /** Targets are distinct, and no job reads a block that an earlier job overwrote. */
  ghost predicate Safe(jobs: seq<Job>) {
    && (forall i, j :: 0 <= i < j < |jobs| ==> jobs[i].target != jobs[j].target)
    && (forall i, j :: 0 <= i < j < |jobs| ==> jobs[i].target != jobs[j].source)
  }

  /** A block no job writes keeps its payload. */
  lemma {:induction false} RunJobsFrame(d: Disk, jobs: seq<Job>, at: nat)
    requires forall i :: 0 <= i < |jobs| ==> jobs[i].target != at
    ensures ReadBlock(RunJobs(d, jobs), at) == ReadBlock(d, at)
  {
    if jobs != [] { RunJobsFrame(d, jobs[..|jobs| - 1], at); }
  }

  /** A job delivers if no earlier one overwrote its source and no later one overwrites its target. */
  lemma {:induction false} RunJobDelivers(d: Disk, jobs: seq<Job>, i: nat)
    requires i < |jobs|
    requires forall k :: 0 <= k < i ==> jobs[k].target != jobs[i].source
    requires forall k :: i < k < |jobs| ==> jobs[k].target != jobs[i].target
    ensures ReadBlock(RunJobs(d, jobs), jobs[i].target) == ReadBlock(d, jobs[i].source)
  {
    var n := |jobs| - 1;
    if i == n {
      RunJobsFrame(d, jobs[..n], jobs[n].source);
    } else {
      RunJobDelivers(d, jobs[..n], i);
    }
  }

  /** Safe jobs deliver: each target ends with what its source held before the first job. */
  lemma RunJobsDelivers(d: Disk, jobs: seq<Job>, i: nat)
    requires Safe(jobs) && i < |jobs|
    ensures ReadBlock(RunJobs(d, jobs), jobs[i].target) == ReadBlock(d, jobs[i].source)
  {
    hide RunJobs;
    RunJobDelivers(d, jobs, i);
  }

  /** Blocks that all hold one payload keep it if jobs write them only from among themselves. */
  lemma {:induction false} RunJobsKeep(d: Disk, jobs: seq<Job>, mine: iset<nat>, payload: nat)
    requires forall b :: b in mine ==> ReadBlock(d, b) == payload
    requires forall l :: 0 <= l < |jobs| && jobs[l].target in mine ==> jobs[l].source in mine
    ensures forall b :: b in mine ==> ReadBlock(RunJobs(d, jobs), b) == payload
  {
    if jobs != [] {
      RunJobsKeep(d, jobs[..|jobs| - 1], mine, payload);
    }
  }

  /** And a job that reads one of them delivers the payload, unless a later job overwrites its target. */
  lemma {:induction false} RunJobsBring(d: Disk, jobs: seq<Job>, mine: iset<nat>, payload: nat, k: nat)
    requires forall b :: b in mine ==> ReadBlock(d, b) == payload
    requires forall l :: 0 <= l < |jobs| && jobs[l].target in mine ==> jobs[l].source in mine
    requires k < |jobs| && jobs[k].source in mine && forall l :: k < l < |jobs| ==> jobs[l].target != jobs[k].target
    ensures ReadBlock(RunJobs(d, jobs), jobs[k].target) == payload
  {
    var n := |jobs| - 1;
    if k == n {
      RunJobsKeep(d, jobs[..n], mine, payload);
    } else {
      RunJobsBring(d, jobs[..n], mine, payload, k);
    }
  }

  /** The block whose payload a block ends with. */
  function Origin(jobs: seq<Job>, at: nat): nat {
    if jobs == [] then at
    else
      var last := jobs[|jobs| - 1];
      Origin(jobs[..|jobs| - 1], if last.target == at then last.source else at)
  }

  lemma {:induction false} RunJobsOrigin(d: Disk, jobs: seq<Job>, at: nat)
    ensures ReadBlock(RunJobs(d, jobs), at) == ReadBlock(d, Origin(jobs, at))
  {
    if jobs != [] {
      var last := jobs[|jobs| - 1];
      RunJobsOrigin(d, jobs[..|jobs| - 1], if last.target == at then last.source else at);
    }
  }

  /** A block ends with another's payload whatever the disk holds exactly if that is its origin. */
  lemma OriginExact(jobs: seq<Job>, at: nat, from: nat)
    ensures (forall d: Disk :: ReadBlock(RunJobs(d, jobs), at) == ReadBlock(d, from)) <==> Origin(jobs, at) == from
  {
    hide RunJobs, Origin;
    forall d: Disk ensures ReadBlock(RunJobs(d, jobs), at) == ReadBlock(d, Origin(jobs, at)) {
      RunJobsOrigin(d, jobs, at);
    }
    if Origin(jobs, at) != from {
      var d: Disk := map[from := 1];
      assert ReadBlock(RunJobs(d, jobs), at) == 0 && ReadBlock(d, from) == 1;
    }
  }

  /** Copy `l` puts other data on the block than it held at first. */
  predicate Spoils(jobs: seq<Job>, l: nat, at: nat)
    requires l < |jobs|
  {
    jobs[l].target == at && Origin(jobs[..l], jobs[l].source) != at
  }

  /** With distinct targets a block keeps its payload exactly if no job spoils it. */
  lemma {:induction false} OriginKept(jobs: seq<Job>, at: nat)
    requires forall k, l :: 0 <= k < l < |jobs| ==> jobs[k].target != jobs[l].target
    ensures Origin(jobs, at) == at <==> forall l :: 0 <= l < |jobs| ==> !Spoils(jobs, l, at)
  {
    if jobs != [] {
      var n := |jobs| - 1;
      if jobs[n].target == at {
        forall l | 0 <= l < n ensures !Spoils(jobs, l, at) {
        }
        assert Spoils(jobs, n, at) <==> Origin(jobs, at) != at;
      } else {
        OriginKept(jobs[..n], at);
        forall l | 0 <= l < n ensures Spoils(jobs, l, at) == Spoils(jobs[..n], l, at) {
          assert jobs[..n][..l] == jobs[..l];
        }
        assert !Spoils(jobs, n, at);
      }
    }
  }

  /** The origin of a target is that of its source when the copy is made. */
  lemma {:induction false} OriginOfTarget(jobs: seq<Job>, k: nat)
    requires k < |jobs| && forall l :: k < l < |jobs| ==> jobs[l].target != jobs[k].target
    ensures Origin(jobs, jobs[k].target) == Origin(jobs[..k], jobs[k].source)
  {
    var n := |jobs| - 1;
    if k < n {
      OriginOfTarget(jobs[..n], k);
      assert jobs[..n][..k] == jobs[..k];
    }
  }

  /** Without the order condition it fails: the first job overwrites what the second should copy. */
  lemma UnsafeJobsLoseData(d: Disk, a: nat, b: nat, c: nat)
    requires a != b && b != c && a != c && ReadBlock(d, a) != ReadBlock(d, b)
    ensures ReadBlock(RunJobs(d, [Job(a, b), Job(b, c)]), c) != ReadBlock(d, b)
  {
    assert [Job(a, b), Job(b, c)][..1] == [Job(a, b)];
    assert RunJobs(d, [Job(a, b)]) == RunJob(RunJobs(d, []), Job(a, b));
  }
}
