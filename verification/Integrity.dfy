/** The device as a block device, over whole runs: when every step is harmless to the blocks that hold live
    keys, each read returns what was last written; and runs for which no step needs looking at. */
module Integrity {
  import opened Types
  import opened Scan
  import opened ReadTree
  import opened Layout
  import opened Obsolescence
  import opened CopyJobs
  import opened Commit
  import opened Spec
  import opened Outputs
  import opened Shape
  import opened History
  import opened SoundSteps
  import opened Holdings
  import opened CommitResult
  import opened ZoneCompaction
  import opened ZoneResult
  import opened Runs

  // ---------------------------------------------------------------- harmless runs

  /** The blocks the step writes, if any, hold no live key that would lose by it. Each condition reads the
      tables, the read tree and the zone map as they are before the step; none looks at the disk. */
  ghost predicate Harmless(s: State, step: Step)
    requires Levels(s.store)
  {
    match step
    case DoWrite(key, _) => ZoneOf(key) < |s.zoneFill| ==> WriteHarmless(s, key)
    case DoCommit(mode, _) => CommitHarmless(s, mode)
    case DoCompactSegment(_) => CommitFollows(s) ==> RoundHarmless(Replacement(s))
    case DoCompactZone(zone, io) => SlideHarmless(s, zone, io)
    case _ => true
  }

  function StepPayloads(zones: nat, payloads: map<nat, nat>, step: Step): map<nat, nat> {
    match step
    case DoWrite(key, payload) => if ZoneOf(key) < zones then payloads[key := payload] else payloads
    case DoDelete(key) => if ZoneOf(key) < zones then payloads - {key} else payloads
    case _ => payloads
  }

  /** What was last written to each live key. */
  function Payloads(zones: nat, steps: seq<Step>): map<nat, nat> {
    if steps == [] then map[]
    else StepPayloads(zones, Payloads(zones, steps[..|steps| - 1]), steps[|steps| - 1])
  }

  lemma ReplacementCoherent(s: State, payloads: map<nat, nat>)
    requires Sound(s) && Levels(s.store) && Coherent(s, payloads)
    ensures Sound(Replacement(s)) && Coherent(Replacement(s), payloads)
  {
    hide Sound, ReplaceSegment, Recalc, Selected, Coherent, HoldsNoMore, Replaced, SameButStats, CompactLevel, Ready;
    SoundLevels(s);
    RecalcSound(s);
    LevelStepsHold(s, 0);
    var s1 := Recalc(s);
    NoMoreCoherent(s, s1, payloads);
    if SelectedAt(s1) >= 0 {
      var at := SelectedAt(s1);
      SoundLevels(s1);
      ReplaceSegmentSound(s1, at);
      ReplacedIsReplaceSegment(s1, at);
      ReplaceHolds(s1, at);
      NoMoreCoherent(s1, ReplaceSegment(s1, at), payloads);
    }
  }

  /** Steps that write no block and redirect no record. */
  predicate Idle(step: Step) {
    step.DoRead? || step.DoFlush? || step.DoCompactLevel? || step.DoRecalc? || step.DoClearTree? || step.DoTreeLimit?
    || step.DoThreshold? || step.DoBitsPerKey?
  }

  lemma IdleCoherent(s: State, step: Step, payloads: map<nat, nat>)
    requires Sound(s) && Levels(s.store) && Coherent(s, payloads) && Idle(step)
    ensures Coherent(Apply(s, step), payloads)
  {
    hide Sound, Read, Ready, CompactLevel, Recalc, SetThreshold, SetTreeLimit, ClearTree, SetBitsPerKey, Coherent,
      HoldsNoMore;
    SoundLevels(s);
    assert HoldsNoMore(s, s) by { NoMoreRefl(s); }
    match step {
      case DoRead(key) => ReadHolds(s, key); ReadFields(s, key);
      case DoFlush => LevelStepsHold(s, 0);
      case DoCompactLevel(level) => if level < LEVELS { LevelStepsHold(s, level); }
      case DoRecalc => LevelStepsHold(s, 0);
      case DoClearTree => SettingsHold(s, 0); SettingFields(s, 0);
      case DoTreeLimit(limit) => SettingsHold(s, limit); SettingFields(s, limit);
      case DoThreshold(t) => SettingsHold(s, t); SettingFields(s, t);
      case DoBitsPerKey(b) => SettingsHold(s, b); SettingFields(s, b);
      case _ =>
    }
    NoMoreCoherent(s, Apply(s, step), payloads);
  }

  lemma NoMoreRefl(s: State)
    ensures HoldsNoMore(s, s)
  {
    hide Holds;
  }

  /** A harmless step keeps every live key's payload in every block that holds the key. */
  lemma StepCoherent(s: State, step: Step, payloads: map<nat, nat>)
    requires Sound(s) && ZoneTrue(s) && Levels(s.store) && Coherent(s, payloads) && Harmless(s, step)
    ensures Coherent(Apply(s, step), StepPayloads(|s.zoneFill|, payloads, step))
  {
    hide Sound, ZoneTrue, Coherent, ZoneOf, Write, Delete, CommitOutput, CompactZone, WriteHarmless, CommitHarmless,
      RoundHarmless, SlideHarmless, Replacement, CommitFollows;
    match step {
      case DoWrite(key, payload) =>
        if ZoneOf(key) < |s.zoneFill| {
          WriteCoherent(s, key, payload, payloads);
        } else {
          RefusedWrite(s, key, payload);
        }
      case DoDelete(key) =>
        if ZoneOf(key) < |s.zoneFill| { DeleteCoherent(s, key, payloads); } else { RefusedDelete(s, key); }
      case DoCommit(mode, io) => CommitCoherent(s, mode, io, payloads);
      case DoCompactSegment(io) =>
        ReplacementCoherent(s, payloads);
        if CommitFollows(s) {
          assert CommitHarmless(Replacement(s), 3) by { CopyingHarmless(Replacement(s)); }
          CommitCoherent(Replacement(s), 3, io, payloads);
        }
      case DoCompactZone(zone, io) => SlideCoherent(s, zone, io, payloads);
      case _ => IdleCoherent(s, step, payloads);
    }
  }

  lemma CopyingHarmless(s: State)
    requires RoundHarmless(s)
    ensures CommitHarmless(s, 3)
  {
    hide RoundHarmless;
  }

  ghost predicate HarmlessRun(zones: nat, steps: seq<Step>) {
    forall i :: 0 <= i < |steps| ==> Harmless(Run(zones, steps[..i]), steps[i])
  }

  lemma HarmlessFront(zones: nat, steps: seq<Step>)
    requires HarmlessRun(zones, steps) && steps != []
    ensures HarmlessRun(zones, steps[..|steps| - 1])
    ensures Harmless(Run(zones, steps[..|steps| - 1]), steps[|steps| - 1])
  {
    hide Run, Harmless;
    var front := steps[..|steps| - 1];
    forall i | 0 <= i < |front| ensures Harmless(Run(zones, front[..i]), front[i]) {
      assert front[..i] == steps[..i];
    }
  }

  lemma {:induction false} RunCoherent(zones: nat, steps: seq<Step>)
    requires HarmlessRun(zones, steps)
    ensures Coherent(Run(zones, steps), Payloads(zones, steps))
  {
    hide Sound, ZoneTrue, Coherent, Apply, StepPayloads, Live, HarmlessRun;
    if steps == [] {
      RunSound(zones, steps);
      NothingHeldAtFirst(zones);
    } else {
      var front := steps[..|steps| - 1];
      HarmlessFront(zones, steps);
      RunCoherent(zones, front);
      RunSound(zones, front);
      StepCoherent(Run(zones, front), steps[|steps| - 1], Payloads(zones, front));
    }
  }

  lemma NothingHeldAtFirst(zones: nat)
    ensures Coherent(Init(zones), map[])
  {
    hide Holds;
    forall key ensures !Live(Init(zones).log, key) {
      NothingLiveAtFirst(zones, key);
    }
  }

  /** Over every run of writes, deletes, reads, flushes, level, segment and zone compactions, commits and
      setting changes whose steps are harmless: a read is answered exactly for the keys written and not
      deleted since, and the block it is sent to holds what was last written. */
  lemma ReadsReturnLastWrite(zones: nat, steps: seq<Step>, key: nat)
    requires HarmlessRun(zones, steps)
    ensures var s, r := Run(zones, steps), DeviceRead(Run(zones, steps), key);
            && (r.Valid? <==> key in Payloads(zones, steps))
            && (r.Valid? ==> ReadBlock(s.disk, r.pba) == Payloads(zones, steps)[key])
  {
    hide Sound, Run, Payloads, LiveKeys, Live, Holds, HarmlessRun, DeviceRead, ReadResult, Logged;
    RunSound(zones, steps);
    RunCoherent(zones, steps);
    ReadsRefineMap(zones, steps, key);
    var s := Run(zones, steps);
    if key in LiveKeys(zones, steps) {
      ReadsAreHeld(s, key);
    }
  }

  // ---------------------------------------------------------------- blocks

  /** Each mapped block was handed out before, and no two keys of a zone share one. */
  ghost predicate BlocksOk(s: State) {
    && (forall key :: key in s.zone ==> BlockOk(s, key))
    && (forall j, k :: j in s.zone && k in s.zone && j != k && ZoneOf(j) == ZoneOf(k) ==> s.zone[j] != s.zone[k])
  }

  ghost predicate BlockOk(s: State, key: nat)
    requires key in s.zone
  {
    ZoneOf(key) < |s.zoneFill| && s.zone[key] < TOTAL_ITEMS && Index2(s.zone[key]) < s.zoneFill[ZoneOf(key)]
  }

  ghost predicate Capacious(s: State) {
    forall z :: 0 <= z < |s.zoneFill| ==> s.zoneFill[z] <= TOTAL_ITEMS
  }

  /** A new key gets a block that no other key has. */
  lemma MapBlockOk(s: State, key: nat)
    requires BlocksOk(s) && ZoneOf(key) < |s.zoneFill| && Capacious(MapBlock(s, key))
    ensures BlocksOk(MapBlock(s, key))
    ensures key in MapBlock(s, key).zone && MapBlock(s, key).zone[key] == BlockFor(s, key)
  {
    hide Slot2, Index2;
    var z := ZoneOf(key);
    var r := MapBlock(s, key);
    if key !in s.zone {
      assert r.zoneFill[z] == s.zoneFill[z] + 1 && r.zoneFill[z] <= TOTAL_ITEMS;
      Slot2Bijection(s.zoneFill[z]);
      forall k | k in r.zone ensures BlockOk(r, k) {
        if k != key { assert BlockOk(s, k); }
      }
      forall k | k in s.zone && ZoneOf(k) == z ensures s.zone[k] != r.zone[key] {
        assert BlockOk(s, k);
      }
    }
  }

  /** Blocks of different live keys are different sectors of the device. */
  lemma SectorsDistinct(s: State, j: nat, k: nat)
    requires BlocksOk(s) && j in s.zone && k in s.zone && j != k
    ensures BlockSector(ZoneOf(j), s.zone[j]) != BlockSector(ZoneOf(k), s.zone[k])
  {
    hide ZoneOf;
    assert BlockOk(s, j) && BlockOk(s, k);
  }

  /** No zone loses allocations, unless it is compacted. */
  lemma FillGrows(s: State, step: Step)
    requires Sound(s) && !step.DoCompactZone?
    ensures Levels(s.store) && |Apply(s, step).zoneFill| == |s.zoneFill|
    ensures forall z :: 0 <= z < |s.zoneFill| ==> s.zoneFill[z] <= Apply(s, step).zoneFill[z]
  {
    hide Sound, Write, Delete, ZoneOf, BlockFor;
    SoundLevels(s);
    match step {
      case DoWrite(key, payload) =>
        if ZoneOf(key) < |s.zoneFill| { WriteStep(s, key, payload); } else { RefusedWrite(s, key, payload); }
      case DoDelete(key) =>
        if ZoneOf(key) < |s.zoneFill| { DeleteStep(s, key); } else { RefusedDelete(s, key); }
      case _ => QuiescentStep(s, step);
    }
  }

  lemma BlocksStep(s: State, step: Step)
    requires Sound(s) && BlocksOk(s) && !step.DoCompactZone? && Levels(s.store) && Capacious(Apply(s, step))
    ensures BlocksOk(Apply(s, step))
  {
    hide Sound, Write, Delete, ZoneOf, BlockFor, Index2, MapBlock;
    if step.DoWrite? {
      var key, payload := step.key, step.payload;
      if ZoneOf(key) < |s.zoneFill| {
        WriteStep(s, key, payload);
        MapBlockOk(s, key);
        SameBlocks(MapBlock(s, key), Write(s, key, payload));
      } else {
        RefusedWrite(s, key, payload);
      }
    } else if step.DoDelete? {
      if ZoneOf(step.key) < |s.zoneFill| {
        DeleteStep(s, step.key);
        FewerBlocks(s, Delete(s, step.key));
      } else {
        RefusedDelete(s, step.key);
      }
    } else {
      QuiescentStep(s, step);
      SameBlocks(s, Apply(s, step));
    }
  }

  lemma SameBlocks(s: State, r: State)
    requires BlocksOk(s) && r.zone == s.zone && r.zoneFill == s.zoneFill
    ensures BlocksOk(r)
  {
    hide Index2, ZoneOf;
    assert forall k :: k in r.zone ==> BlockOk(s, k);
  }

  lemma FewerBlocks(s: State, r: State)
    requires BlocksOk(s) && r.zoneFill == s.zoneFill
    requires forall k :: k in r.zone ==> k in s.zone && r.zone[k] == s.zone[k]
    ensures BlocksOk(r)
  {
    hide Index2, ZoneOf;
    assert forall k :: k in r.zone ==> BlockOk(s, k);
  }

  /** In runs without zone compaction that stay within the zones' capacity, live keys have pairwise
      distinct physical blocks. */
  lemma {:induction false} LiveBlocksDistinct(zones: nat, steps: seq<Step>)
    requires forall i :: 0 <= i < |steps| ==> !steps[i].DoCompactZone?
    requires Capacious(Run(zones, steps))
    ensures BlocksOk(Run(zones, steps))
    ensures forall j, k :: j in LiveKeys(zones, steps) && k in LiveKeys(zones, steps) && j != k ==>
              j in Run(zones, steps).zone && k in Run(zones, steps).zone &&
              BlockSector(ZoneOf(j), Run(zones, steps).zone[j]) != BlockSector(ZoneOf(k), Run(zones, steps).zone[k])
  {
    hide Sound, Apply, BlockOk, LiveKeys, BlockSector, ZoneOf, Live;
    RunSound(zones, steps);
    var s := Run(zones, steps);
    if steps != [] {
      var front := steps[..|steps| - 1];
      RunSound(zones, front);
      FillGrows(Run(zones, front), steps[|steps| - 1]);
      assert Capacious(Run(zones, front));
      LiveBlocksDistinct(zones, front);
      BlocksStep(Run(zones, front), steps[|steps| - 1]);
    }
    forall j, k | j in LiveKeys(zones, steps) && k in LiveKeys(zones, steps) && j != k
      ensures j in s.zone && k in s.zone && BlockSector(ZoneOf(j), s.zone[j]) != BlockSector(ZoneOf(k), s.zone[k])
    {
      assert Live(s.log, j) && Live(s.log, k);
      SectorsDistinct(s, j, k);
    }
  }

  // ---------------------------------------------------------------- runs that need no looking at

  /** Steps that neither copy payloads nor redirect a record to another block. */
  predicate Quiet(step: Step) {
    !step.DoCompactZone? && !step.DoCompactSegment? && (step.DoCommit? ==> step.mode != 2 && step.mode != 3)
  }

  /** Nothing was copied or committed, and each live key was last written to its mapped block. */
  ghost predicate Located(s: State) {
    s.commits.NoCommits? && forall key :: key in s.zone ==> LocatedKey(s, key)
  }

  ghost predicate LocatedKey(s: State, key: nat)
    requires key in s.zone
  {
    Newest(s.log, key) > 0 && WrittenTo(s.log, key) == BlockSector(ZoneOf(key), s.zone[key])
  }

  lemma NoCommitted(s: State, r: Record)
    requires ShapeOk(s) && s.commits.NoCommits?
    ensures !CommittedAt(s.store.segs, r)
  {
    hide StoreOk, CacheOk, RangesOk, StatesOk, CommittedAreCopied;
  }

  /** Before any round a key is held by the block its newest operation wrote, and by no other. */
  lemma HeldIsWritten(s: State, key: nat, pba: nat)
    requires Sound(s) && s.commits.NoCommits? && Held(s, key, pba)
    ensures pba == WrittenTo(s.log, key)
  {
    hide ShapeOk, AllCovered, Stored, CommittedAt, Newest;
    var n := Newest(s.log, key);
    if HeldInStore(s.store, key, n, pba) {
      var r :| Stored(s.store, r) && IsVersion(r, key, n, pba);
      assert Logged(s.log, s.store.segs, r);
      NoCommitted(s, r);
    } else if HeldInTree(s.cache, key, n, pba) {
      assert Cacheable(s.log, s.store.segs, key, s.cache.nodes[key]);
      NoCommitted(s, CachedRecord(key, s.cache.nodes[key]));
    } else {
      NoCopies(s, key, n, pba);
    }
  }

  /** In a located state that is its mapped block. */
  lemma LocatedHeld(s: State, key: nat, pba: nat)
    requires Sound(s) && ZoneTrue(s) && Located(s) && Held(s, key, pba)
    ensures key in s.zone && pba == BlockSector(ZoneOf(key), s.zone[key])
  {
    hide Sound, Live, Holds, WrittenTo, BlockSector, ZoneOf;
    HeldIsWritten(s, key, pba);
    assert LocatedKey(s, key);
  }

  lemma NoCopies(s: State, key: nat, ts: nat, pba: nat)
    requires ShapeOk(s) && s.commits.NoCommits?
    ensures !HeldByCopy(s.store.segs, key, ts, pba)
  {
    hide StoreOk, CacheOk, RangesOk, StatesOk, CommittedAreCopied;
  }

  lemma LocatedStep(s: State, step: Step)
    requires Sound(s) && ZoneTrue(s) && Levels(s.store) && BlocksOk(s) && Located(s) && Quiet(step) &&
             Capacious(Apply(s, step))
    ensures Located(Apply(s, step)) && Harmless(s, step)
  {
    hide Sound, ZoneTrue, Write, Delete, ZoneOf, BlockFor, Index2, MapBlock, BlocksOk, LocatedKey, WriteHarmless,
      RoundHarmless, MetaHarmless;
    if step.DoWrite? {
      if ZoneOf(step.key) < |s.zoneFill| {
        WriteStep(s, step.key, step.payload);
        assert Capacious(MapBlock(s, step.key));
        MapBlockOk(s, step.key);
        WriteLocated(s, step.key, step.payload);
      } else {
        RefusedWrite(s, step.key, step.payload);
      }
    } else if step.DoDelete? {
      if ZoneOf(step.key) < |s.zoneFill| { DeleteLocated(s, step.key); } else { RefusedDelete(s, step.key); }
    } else {
      QuietStep(s, step);
      SameLocated(s, Apply(s, step));
    }
  }

  lemma QuietStep(s: State, step: Step)
    requires Sound(s) && Quiescent(step) && Quiet(step)
    ensures Levels(s.store)
    ensures SameDevice(s, Apply(s, step))
  {
    hide Sound, Read, Ready, CompactLevel, Recalc, SetThreshold, SetTreeLimit, ClearTree, SetBitsPerKey, PlanAll;
    SoundLevels(s);
    match step {
      case DoRead(key) => ReadFields(s, key);
      case DoClearTree => SettingFields(s, 0);
      case DoTreeLimit(limit) => SettingFields(s, limit);
      case DoThreshold(t) => SettingFields(s, t);
      case DoBitsPerKey(b) => SettingFields(s, b);
      case _ =>
    }
  }

  lemma WriteLocated(s: State, key: nat, payload: nat)
    requires Sound(s) && ZoneTrue(s) && Levels(s.store) && BlocksOk(s) && Located(s) && ZoneOf(key) < |s.zoneFill|
    requires BlocksOk(MapBlock(s, key)) && key in MapBlock(s, key).zone &&
             MapBlock(s, key).zone[key] == BlockFor(s, key)
    ensures Located(Write(s, key, payload)) && WriteHarmless(s, key)
  {
    hide Sound, ZoneTrue, Write, BlocksOk, BlockFor, BlockSector, ZoneOf, LocatedKey, WriteBlock, MapBlock, Held;
    WriteStep(s, key, payload);
    var r, m := Write(s, key, payload), MapBlock(s, key);
    var pba := BlockSector(ZoneOf(key), BlockFor(s, key));
    MapBlockKeys(s, key);
    forall k | k in r.zone ensures LocatedKey(r, k) {
      LogLocated(s, r, key, true, pba, k);
    }
    forall k | k != key ensures !Held(s, k, pba) {
      if Held(s, k, pba) {
        LocatedHeld(s, k, pba);
        SectorsDistinct(m, k, key);
      }
    }
  }

  /** One more operation: the key's block is the one it wrote, other keys' are where they were. */
  lemma LogLocated(s: State, r: State, key: nat, valid: bool, pba: nat, k: nat)
    requires r.log == s.log + [Op(key, valid, pba)] && k in r.zone
    requires if k == key then pba == BlockSector(ZoneOf(k), r.zone[k])
             else k in s.zone && r.zone[k] == s.zone[k] && LocatedKey(s, k)
    ensures LocatedKey(r, k)
  {
    hide BlockSector, ZoneOf, Newest;
    NewestAppend(s.log, Op(key, valid, pba), k);
  }

  lemma MapBlockKeys(s: State, key: nat)
    requires ZoneOf(key) < |s.zoneFill|
    ensures forall k :: k in MapBlock(s, key).zone <==> k == key || k in s.zone
    ensures forall k :: k in s.zone ==> MapBlock(s, key).zone[k] == s.zone[k]
  {
    hide Slot2;
  }

  lemma DeleteLocated(s: State, key: nat)
    requires Sound(s) && Levels(s.store) && Located(s) && ZoneOf(key) < |s.zoneFill|
    ensures Located(Delete(s, key))
  {
    hide Sound, Delete, LocatedKey, ZoneOf;
    DeleteStep(s, key);
    var r := Delete(s, key);
    forall k | k in r.zone ensures LocatedKey(r, k) {
      LogLocated(s, r, key, false, 0, k);
    }
  }

  lemma SameLocated(s: State, r: State)
    requires Located(s) && r.log == s.log && r.zone == s.zone && r.commits == s.commits
    ensures Located(r)
  {
    hide BlockSector, ZoneOf, Newest;
    assert forall k :: k in r.zone ==> LocatedKey(s, k);
  }

  /** Runs that only write, delete, read, flush and compact levels, within the zones' capacity, are harmless
      throughout. */
  lemma {:induction false} QuietRunsAreHarmless(zones: nat, steps: seq<Step>)
    requires forall i :: 0 <= i < |steps| ==> Quiet(steps[i])
    requires Capacious(Run(zones, steps))
    ensures HarmlessRun(zones, steps) && Located(Run(zones, steps))
  {
    hide Sound, ZoneTrue, Apply, BlocksOk, LocatedKey, Live, Harmless, LiveKeys, BlockSector, ZoneOf;
    if steps != [] {
      var n := |steps| - 1;
      var front, step := steps[..n], steps[n];
      RunSound(zones, front);
      FillGrows(Run(zones, front), step);
      assert Capacious(Run(zones, front));
      QuietRunsAreHarmless(zones, front);
      LiveBlocksDistinct(zones, front);
      LocatedStep(Run(zones, front), step);
      forall i | 0 <= i < |steps| ensures Harmless(Run(zones, steps[..i]), steps[i]) {
        if i < n { assert steps[..i] == front[..i]; }
      }
    }
  }

  /** So is sliding a full zone of such a device whose live blocks lie in allocation order. */
  lemma OrderedSlideIsHarmless(s: State, zone: nat, io: Io)
    requires Sound(s) && ZoneTrue(s) && Levels(s.store) && BlocksOk(s) && Located(s)
    requires Succeeds(s, zone, io) && InAllocationOrder(s, zone)
    ensures SlideHarmless(s, zone, io)
  {
    hide Sound, ZoneTrue, BlocksOk, Located, SlideTo, SlideJobs, Destination, InAllocationOrder, SourceOfKey,
      BlockSector, ZoneOf, Held, Live;
    var moved, jobs := SlideTo(s, zone, io, TOTAL_ITEMS).moved, SlideJobs(s, zone, TOTAL_ITEMS);
    SlideRuns(s, zone, io, TOTAL_ITEMS);
    SlideIsSafe(s, zone);
    forall l, i | 0 <= l < i < |moved| ensures moved[l].pba != SourceBlock(s, moved[i].key) {
      assert JobMoves(s, zone, jobs[l], moved[l], l) && JobMoves(s, zone, jobs[i], moved[i], i);
    }
    forall l, k | 0 <= l < |moved| && !HasKey(moved, k) ensures !Held(s, k, moved[l].pba) {
      assert JobMoves(s, zone, jobs[l], moved[l], l);
      if Held(s, k, moved[l].pba) {
        LocatedHeld(s, k, moved[l].pba);
        MovedAreLive(s, zone, io, k);
        LiveHere(s, k);
        BlockOfKey(s, k);
        OthersUntouched(s, zone, k, l);
      }
    }
  }

  lemma LiveHere(s: State, key: nat)
    requires ZoneTrue(s) && key in s.zone
    ensures Live(s.log, key)
  {
    hide Live;
  }

  lemma BlockOfKey(s: State, key: nat)
    requires BlocksOk(s) && key in s.zone
    ensures BlockOk(s, key)
  {
    hide BlockOk;
  }

  /** Blocks of other zones' keys are not among the destinations. */
  lemma OthersUntouched(s: State, zone: nat, key: nat, i: nat)
    requires key in s.zone && BlockOk(s, key) && ZoneOf(key) != zone && i < TOTAL_ITEMS
    requires zone + 1 < |s.zoneFill| && s.zoneFill[zone + 1] == 0
    ensures Destination(zone, i) != BlockSector(ZoneOf(key), s.zone[key])
  {
    hide Index2, ZoneOf;
    BottomOrder(if i < BOTTOM_BLOCKS then i else i - BOTTOM_BLOCKS, 0);
  }
}
