/** Runs of operations from an empty device, and what holds after every one of them. */
module Runs {
  import opened Types
  import opened Scan
  import opened ReadTree
  import opened Layout
  import opened Obsolescence
  import opened CopyJobs
  import opened Commit
  import opened Spec
  import opened Outputs
  import opened Shape
  import opened History
  import opened SoundSteps
  import opened ZoneCompaction
  import opened ZoneSound

  /** The operations of the device and of its debugfs controls. */
  datatype Step =
    | DoWrite(key: nat, payload: nat)
    | DoDelete(key: nat)
    | DoRead(key: nat)
    | DoFlush
    | DoCompactLevel(level: nat)
    | DoCompactSegment(io: Io)
    | DoCompactZone(zone: nat, io: Io)
    | DoCommit(mode: nat, io: Io)
    | DoRecalc
    | DoClearTree
    | DoTreeLimit(limit: nat)
    | DoThreshold(threshold: nat)
    | DoBitsPerKey(bits: nat)

  function Apply(s: State, step: Step): (r: State)
    requires Levels(s.store)
    ensures Levels(r.store)
  {
    match step
    case DoWrite(key, payload) => Write(s, key, payload)
    case DoDelete(key) => Delete(s, key)
    case DoRead(key) => Read(s, key)
    case DoFlush => Ready(s)
    case DoCompactLevel(level) => if level < LEVELS then CompactLevel(s, level) else s
    case DoCompactSegment(io) => CompactSelected(s, io)
    case DoCompactZone(zone, io) => CompactZone(s, zone, io)
    case DoCommit(mode, io) => CommitOutput(s, mode, io)
    case DoRecalc => Recalc(s)
    case DoClearTree => ClearTree(s)
    case DoTreeLimit(limit) => SetTreeLimit(s, limit)
    case DoThreshold(threshold) => SetThreshold(s, threshold)
    case DoBitsPerKey(bits) => SetBitsPerKey(s, bits)
  }

  function Run(zones: nat, steps: seq<Step>): (r: State)
    ensures Levels(r.store)
  {
    if steps == [] then Init(zones) else Apply(Run(zones, steps[..|steps| - 1]), steps[|steps| - 1])
  }

  /** The keys whose last accepted write or delete was a write: what a simple map would hold. */
  function LiveKeys(zones: nat, steps: seq<Step>): set<nat> {
    if steps == [] then {}
    else
      var before := LiveKeys(zones, steps[..|steps| - 1]);
      match steps[|steps| - 1]
      case DoWrite(key, _) => if ZoneOf(key) < zones then before + {key} else before
      case DoDelete(key) => if ZoneOf(key) < zones then before - {key} else before
      case _ => before
  }

  /** The zone map holds exactly the live keys, all within the device. */
  ghost predicate ZoneTrue(s: State) {
    forall key :: (key in s.zone <==> Live(s.log, key)) && (key in s.zone ==> ZoneOf(key) < |s.zoneFill|)
  }

  lemma InitSound(zones: nat)
    ensures Sound(Init(zones)) && ZoneTrue(Init(zones)) && |Init(zones).zoneFill| == zones
  {
    hide CacheOk, OutputsOk, StoreOk;
    InitShape(zones);
    var s := Init(zones);
    forall r ensures !Stored(s.store, r) {
      NothingStored(zones, r);
    }
  }

  lemma NothingStored(zones: nat, r: Record)
    ensures !Stored(Init(zones).store, r)
  {
  }

  /** Steps other than writes, deletes and zone compactions leave history and zone map alone. */
  predicate Quiescent(step: Step) { !step.DoWrite? && !step.DoDelete? && !step.DoCompactZone? }

  lemma QuiescentStep(s: State, step: Step)
    requires Sound(s) && Quiescent(step)
    ensures Levels(s.store) && Sound(Apply(s, step))
    ensures var r := Apply(s, step); r.log == s.log && r.zone == s.zone && r.zoneFill == s.zoneFill
  {
    hide Sound, Read, Ready, CompactLevel, CompactSelected, CommitOutput, Recalc, SetThreshold, SetTreeLimit,
      ClearTree, SetBitsPerKey;
    SoundLevels(s);
    match step {
      case DoRead(key) => ReadSound(s, key); ReadFields(s, key);
      case DoFlush => ReadySound(s);
      case DoCompactLevel(level) => if level < LEVELS { CompactLevelSound(s, level); }
      case DoCompactSegment(io) => CompactSelectedSound(s, io);
      case DoCommit(mode, io) => CommitOutputSound(s, mode, io);
      case DoRecalc => RecalcSound(s);
      case DoClearTree => CacheOpsSound(s, 0, 0); SettingFields(s, 0);
      case DoTreeLimit(limit) => CacheOpsSound(s, 0, limit); SettingFields(s, limit);
      case DoThreshold(t) => SettingsSound(s, t); SettingFields(s, t);
      case DoBitsPerKey(b) => SettingsSound(s, b); SettingFields(s, b);
      case _ =>
    }
  }

  lemma ReadFields(s: State, key: nat)
    ensures SameDevice(s, Read(s, key))
  {
    hide Fold, ReadRecords;
  }

  lemma SettingFields(s: State, n: nat)
    requires Levels(s.store)
    ensures SameDevice(s, ClearTree(s))
    ensures SameDevice(s, SetTreeLimit(s, n))
    ensures SameDevice(s, SetThreshold(s, n))
    ensures SameDevice(s, SetBitsPerKey(s, n))
  {
    hide Calc;
  }

  /** What a write adds. */
  lemma WriteStep(s: State, key: nat, payload: nat)
    requires Sound(s) && ZoneOf(key) < |s.zoneFill|
    ensures Levels(s.store) && Sound(Write(s, key, payload))
    ensures var r, pba := Write(s, key, payload), BlockSector(ZoneOf(key), BlockFor(s, key));
            && r.log == s.log + [Op(key, true, pba)]
            && r.zone == MapBlock(s, key).zone && r.zoneFill == MapBlock(s, key).zoneFill
            && r.disk == WriteBlock(s.disk, pba, payload) && r.commits == s.commits
  {
    hide Sound, InsertRecord, Slot2, BlockSector;
    SoundLevels(s);
    WriteSound(s, key, payload);
    OutsideSound(s, MapBlock(s, key));
    InsertSound(MapBlock(s, key), 0, key, BlockSector(ZoneOf(key), BlockFor(s, key)), ZoneOf(key));
  }

  lemma DeleteStep(s: State, key: nat)
    requires Sound(s) && ZoneOf(key) < |s.zoneFill|
    ensures Levels(s.store) && Sound(Delete(s, key))
    ensures var r := Delete(s, key);
            && r.log == s.log + [Op(key, false, 0)] && r.zone == s.zone - {key} && r.zoneFill == s.zoneFill
            && r.disk == s.disk && r.commits == s.commits
  {
    hide Sound, DeleteRecord;
    SoundLevels(s);
    DeleteSound(s, key);
    DeleteRecordSound(s, key);
  }

  lemma OpZoneTrue(s: State, r: State, key: nat, valid: bool, pba: nat)
    requires ZoneTrue(s) && r.log == s.log + [Op(key, valid, pba)] && |r.zoneFill| == |s.zoneFill| &&
             ZoneOf(key) < |s.zoneFill|
    requires forall k :: k in r.zone <==> if k == key then valid else k in s.zone
    ensures ZoneTrue(r)
  {
    hide Live;
    forall k ensures (k in r.zone <==> Live(r.log, k)) && (k in r.zone ==> ZoneOf(k) < |r.zoneFill|) {
      LiveAppend(s.log, key, valid, pba, k);
    }
  }

  // ---------------------------------------------------------------- zone compaction and the zone map

  /** With a true zone map a key has a source exactly when it is live. */
  lemma SourceIsLive(s: State, key: nat)
    requires Sound(s) && ZoneTrue(s) && Levels(s.store)
    ensures SourceOfKey(s, key).At? <==> Live(s.log, key)
  {
    hide Sound, AllRecords, Fold, Live;
    LatestFinds(s, key);
  }

  lemma {:induction false} RemappedKeys(map0: ZoneMap, zone: nat, moved: seq<Record>, n: nat, key: nat)
    requires n <= |moved|
    ensures key in Remapped(map0, zone, moved, n) <==>
            (exists i :: 0 <= i < n && moved[i].key == key) || (key in map0 && ZoneOf(key) != zone)
  {
    if n > 0 { RemappedKeys(map0, zone, moved, n - 1, key); }
  }

  /** A moved key maps to its destination; keys of other zones keep their blocks. */
  lemma {:induction false} RemappedBlocks(map0: ZoneMap, zone: nat, moved: seq<Record>, n: nat, i: nat)
    requires i < n <= |moved| && forall a, b :: 0 <= a < b < |moved| ==> moved[a].key < moved[b].key
    ensures moved[i].key in Remapped(map0, zone, moved, n)
    ensures Remapped(map0, zone, moved, n)[moved[i].key] == RelativeBlock(zone, moved[i].pba)
  {
    hide RelativeBlock;
    if i < n - 1 { RemappedBlocks(map0, zone, moved, n - 1, i); }
  }

  lemma {:induction false} RemappedOthers(map0: ZoneMap, zone: nat, moved: seq<Record>, n: nat, key: nat)
    requires n <= |moved| && key in map0 && ZoneOf(key) != zone
    requires forall i :: 0 <= i < |moved| ==> ZoneOf(moved[i].key) == zone
    ensures key in Remapped(map0, zone, moved, n) && Remapped(map0, zone, moved, n)[key] == map0[key]
  {
    hide RelativeBlock;
    if n > 0 { RemappedOthers(map0, zone, moved, n - 1, key); }
  }

  lemma MovedInZone(s: State, zone: nat, io: Io)
    requires Levels(s.store)
    ensures forall i :: 0 <= i < |SlideTo(s, zone, io, TOTAL_ITEMS).moved| ==>
              ZoneOf(SlideTo(s, zone, io, TOTAL_ITEMS).moved[i].key) == zone
              && SlideTo(s, zone, io, TOTAL_ITEMS).moved[i].valid
  {
    hide SlideTo, SourceOfKey, Destination;
    SlideMoves(s, zone, io, TOTAL_ITEMS);
    var moved := SlideTo(s, zone, io, TOTAL_ITEMS).moved;
    forall i | 0 <= i < |moved| ensures ZoneOf(moved[i].key) == zone && moved[i].valid {
      assert MovedOk(s, zone, moved[i], i, TOTAL_ITEMS);
      KeyInZone(zone, moved[i].key);
    }
  }

  lemma KeyInZone(zone: nat, key: nat)
    requires KeyAt(zone, 0) <= key < KeyAt(zone, TOTAL_ITEMS)
    ensures ZoneOf(key) == zone && key == KeyAt(zone, key - KeyAt(zone, 0))
  {
  }

  /** The slide moves exactly the live keys of the zone. */
  lemma MovedAreLive(s: State, zone: nat, io: Io, key: nat)
    requires Sound(s) && ZoneTrue(s) && Levels(s.store) && SlideTo(s, zone, io, TOTAL_ITEMS).ok
    ensures HasKey(SlideTo(s, zone, io, TOTAL_ITEMS).moved, key) <==> ZoneOf(key) == zone && Live(s.log, key)
  {
    hide SlideTo, SourceOfKey, Destination, Sound, Live;
    var moved := SlideTo(s, zone, io, TOTAL_ITEMS).moved;
    SourceIsLive(s, key);
    if HasKey(moved, key) {
      SlideMoves(s, zone, io, TOTAL_ITEMS);
      var i :| 0 <= i < |moved| && moved[i].key == key;
      assert MovedOk(s, zone, moved[i], i, TOTAL_ITEMS);
      KeyInZone(zone, key);
    }
    if ZoneOf(key) == zone && Live(s.log, key) {
      var offset := key - KeyAt(zone, 0);
      assert key == KeyAt(zone, offset);
      SlideComplete(s, zone, io, TOTAL_ITEMS, offset);
    }
  }

  /** Zone compaction keeps every key's readability and the truth of the zone map. */
  lemma CompactZoneStep(s: State, zone: nat, io: Io)
    requires Sound(s) && ZoneTrue(s)
    ensures Levels(s.store) && Sound(CompactZone(s, zone, io))
    ensures var r := CompactZone(s, zone, io);
            && ZoneTrue(r) && |r.zoneFill| == |s.zoneFill|
            && forall key :: Live(r.log, key) == Live(s.log, key)
  {
    hide Sound, SlideTo, FinishZone, Live;
    SoundLevels(s);
    CompactZoneSound(s, zone, io);
    var slide := SlideTo(s, zone, io, TOTAL_ITEMS);
    if !Refused(s, zone) {
      if !slide.ok {
        GapsSound(s, |slide.moved|, slide.disk);
      } else if slide.moved != [] {
        FinishZoneTrue(s, zone, io);
      }
    }
  }

  lemma FinishZoneTrue(s: State, zone: nat, io: Io)
    requires Sound(s) && ZoneTrue(s) && Levels(s.store) && zone + 1 < |s.zoneFill|
    requires SlideTo(s, zone, io, TOTAL_ITEMS).ok && SlideTo(s, zone, io, TOTAL_ITEMS).moved != []
    ensures var slide := SlideTo(s, zone, io, TOTAL_ITEMS);
            var r := FinishZone(s.(disk := slide.disk), zone, slide.moved);
            && ZoneTrue(r) && |r.zoneFill| == |s.zoneFill|
            && forall key :: Live(r.log, key) == Live(s.log, key)
  {
    hide Sound, SlideTo, FinishZone, Live, Remapped, SameButStats, Finished, FillAfter;
    var slide := SlideTo(s, zone, io, TOTAL_ITEMS);
    var t := s.(disk := slide.disk);
    var r := FinishZone(t, zone, slide.moved);
    FinishedIsFinishZone(t, zone, slide.moved);
    FinishedLog(t, slide.moved);
    SlideAscends(s, zone, io, TOTAL_ITEMS);
    MovedInZone(s, zone, io);
    forall key
      ensures Live(r.log, key) == Live(s.log, key)
      ensures key in r.zone <==> Live(r.log, key)
      ensures key in r.zone ==> ZoneOf(key) < |r.zoneFill|
    {
      LiveMoved(s.log, slide.moved, key);
      MovedAreLive(s, zone, io, key);
      RemappedKeys(s.zone, zone, slide.moved, |slide.moved|, key);
    }
  }

  lemma FinishedLog(s: State, moved: seq<Record>)
    requires Levels(s.store)
    ensures Finished(s, moved).log == s.log + Ops(moved)
  {
  }

  // ---------------------------------------------------------------- the run theorems

  lemma AcceptedWrite(s: State, key: nat, payload: nat)
    requires Sound(s) && ZoneTrue(s) && ZoneOf(key) < |s.zoneFill|
    ensures Levels(s.store) && Sound(Write(s, key, payload)) && ZoneTrue(Write(s, key, payload))
    ensures |Write(s, key, payload).zoneFill| == |s.zoneFill|
    ensures forall k :: Live(Write(s, key, payload).log, k) == (k == key || Live(s.log, k))
  {
    hide Sound, Live, Write, BlockFor, BlockSector, ZoneOf;
    WriteStep(s, key, payload);
    var pba := BlockSector(ZoneOf(key), BlockFor(s, key));
    OpZoneTrue(s, Write(s, key, payload), key, true, pba);
    forall k ensures Live(Write(s, key, payload).log, k) == (k == key || Live(s.log, k)) {
      LiveAppend(s.log, key, true, pba, k);
    }
  }

  lemma AcceptedDelete(s: State, key: nat)
    requires Sound(s) && ZoneTrue(s) && ZoneOf(key) < |s.zoneFill|
    ensures Levels(s.store) && Sound(Delete(s, key)) && ZoneTrue(Delete(s, key))
    ensures |Delete(s, key).zoneFill| == |s.zoneFill|
    ensures forall k :: Live(Delete(s, key).log, k) == (k != key && Live(s.log, k))
  {
    hide Sound, Live, Delete, ZoneOf;
    DeleteStep(s, key);
    OpZoneTrue(s, Delete(s, key), key, false, 0);
    forall k ensures Live(Delete(s, key).log, k) == (k != key && Live(s.log, k)) {
      LiveAppend(s.log, key, false, 0, k);
    }
  }

  lemma SameZoneTrue(s: State, r: State)
    requires ZoneTrue(s) && r.log == s.log && r.zone == s.zone && r.zoneFill == s.zoneFill
    ensures ZoneTrue(r)
  {
    hide Live, ZoneOf;
  }

  lemma StepSound(s: State, step: Step)
    requires Sound(s) && ZoneTrue(s)
    ensures Levels(s.store) && Sound(Apply(s, step)) && ZoneTrue(Apply(s, step))
    ensures |Apply(s, step).zoneFill| == |s.zoneFill|
    ensures forall key :: Live(Apply(s, step).log, key) ==
              if step.DoWrite? && step.key == key && ZoneOf(key) < |s.zoneFill| then true
              else if step.DoDelete? && step.key == key && ZoneOf(key) < |s.zoneFill| then false
              else Live(s.log, key)
  {
    hide Sound, ZoneTrue, Live, Write, Delete, CompactZone, ZoneOf;
    SoundLevels(s);
    match step {
      case DoWrite(key, payload) =>
        if ZoneOf(key) < |s.zoneFill| { AcceptedWrite(s, key, payload); } else { RefusedWrite(s, key, payload); }
      case DoDelete(key) =>
        if ZoneOf(key) < |s.zoneFill| { AcceptedDelete(s, key); } else { RefusedDelete(s, key); }
      case DoCompactZone(zone, io) => CompactZoneStep(s, zone, io);
      case _ =>
        QuiescentStep(s, step);
        SameZoneTrue(s, Apply(s, step));
    }
  }

  lemma RefusedWrite(s: State, key: nat, payload: nat)
    requires Levels(s.store) && ZoneOf(key) >= |s.zoneFill|
    ensures Write(s, key, payload) == s
  {
  }

  lemma RefusedDelete(s: State, key: nat)
    requires Levels(s.store) && ZoneOf(key) >= |s.zoneFill|
    ensures Delete(s, key) == s
  {
  }

  /** Every run is sound, and its history makes live exactly the keys a simple map would hold. */
  lemma {:induction false} RunSound(zones: nat, steps: seq<Step>)
    ensures Sound(Run(zones, steps)) && ZoneTrue(Run(zones, steps)) && |Run(zones, steps).zoneFill| == zones
    ensures forall key :: Live(Run(zones, steps).log, key) <==> key in LiveKeys(zones, steps)
  {
    hide Sound, Live, Apply, ZoneTrue;
    if steps == [] {
      InitSound(zones);
      forall key ensures !Live(Init(zones).log, key) {
        NothingLiveAtFirst(zones, key);
      }
    } else {
      var front, step := steps[..|steps| - 1], steps[|steps| - 1];
      RunSound(zones, front);
      StepSound(Run(zones, front), step);
      forall key ensures Live(Run(zones, steps).log, key) <==> key in LiveKeys(zones, steps) {
      }
    }
  }

  lemma NothingLiveAtFirst(zones: nat, key: nat)
    ensures !Live(Init(zones).log, key)
  {
  }

  /** After every run, a read is answered exactly for the keys a simple map would hold; a miss never
      falls back to stale data; and the answer is the newest version, at the address written then or
      at the output of a committed copy of that version. */
  lemma ReadsRefineMap(zones: nat, steps: seq<Step>, key: nat)
    ensures var s := Run(zones, steps);
            && (ReadResult(s, key).Valid? <==> key in LiveKeys(zones, steps))
            && (DeviceRead(s, key).Valid? <==> key in LiveKeys(zones, steps))
            && (key in LiveKeys(zones, steps) ==>
                  && DeviceRead(s, key) == ReadResult(s, key)
                  && Logged(s.log, s.store.segs, Record(key, ReadResult(s, key).pba, 0, true, Newest(s.log, key))))
  {
    hide Sound, Live, Run, ReadResult, LiveKeys, Logged;
    RunSound(zones, steps);
    ReadIsCorrect(Run(zones, steps), key);
  }

  /** Once the newest operation on a key is a delete that no list or active segment shows any more,
      no live record of the key is left anywhere and the zone map has no block for it. */
  lemma DroppedDeleteIsSafe(zones: nat, steps: seq<Step>, key: nat)
    requires var s := Run(zones, steps);
             Newest(s.log, key) > 0 && forall r :: Visible(s.store, r) && r.key == key ==> r.ts < Newest(s.log, key)
    ensures var s := Run(zones, steps);
            !Live(s.log, key) && NothingLive(s.store, key) && key !in s.zone && !DeviceRead(s, key).Valid?
  {
    hide ShapeOk, Run, CommittedAt, Visible, Stored, Newest;
    RunSound(zones, steps);
    var s := Run(zones, steps);
    ReadsRefineMap(zones, steps, key);
    assert Covered(s.log, s.store, key);
  }

  /** After every run the outputs of active segments are disjoint and entries obey the commit states;
      if no commit skipped the copy, whatever is committed was copied. */
  lemma RunOutputs(zones: nat, steps: seq<Step>)
    ensures OutputsOk(Run(zones, steps).store.segs, Run(zones, steps).commits)
    ensures CacheOk(Run(zones, steps).cache)
  {
    hide OutputsOk, CacheOk, StoreOk, Run;
    RunSound(zones, steps);
  }

  /** Flushes, level and segment compactions, commits, reads and settings change no key from readable to
      unreadable or back, and the version read stays the newest one. */
  lemma UpkeepKeepsReads(s: State, step: Step, key: nat)
    requires Sound(s) && Levels(s.store) && Quiescent(step)
    ensures var before, after := ReadResult(s, key), ReadResult(Apply(s, step), key);
            && (after.Valid? <==> before.Valid?)
            && (after.Valid? ==>
                  && Logged(s.log, s.store.segs, Record(key, before.pba, 0, true, Newest(s.log, key)))
                  && Logged(s.log, Apply(s, step).store.segs, Record(key, after.pba, 0, true, Newest(s.log, key))))
  {
    hide Sound, Live, Apply, ReadResult, Logged, Newest;
    QuiescentStep(s, step);
    ReadIsCorrect(s, key);
    ReadIsCorrect(Apply(s, step), key);
  }

  lemma StepCommits(s: State, step: Step)
    requires Sound(s) && Levels(s.store) && !s.commits.MetaOnly? && !(step.DoCommit? && step.mode == 2)
    ensures !Apply(s, step).commits.MetaOnly?
  {
    hide Sound, Read, Ready, CompactLevel, ReplaceSegment, KeptBy, SelectedAt, Recalc, SetThreshold, SetTreeLimit,
      ClearTree, SetBitsPerKey, Write, Delete, ZoneOf, SlideTo, FinishZone, MapBlock, BlockFor, BlockSector, CommitMeta,
      CopyAll, PlanAll;
    match step {
      case DoWrite(key, payload) =>
        if ZoneOf(key) < |s.zoneFill| { WriteStep(s, key, payload); } else { RefusedWrite(s, key, payload); }
      case DoDelete(key) =>
        if ZoneOf(key) < |s.zoneFill| { DeleteStep(s, key); } else { RefusedDelete(s, key); }
      case DoRead(key) => ReadFields(s, key);
      case DoCompactSegment(io) => ReplacedCommits(s, io);
      case DoCompactZone(zone, io) => FinishedCommits(s, zone, io);
      case DoCommit(mode, io) => CommitKinds(s, mode, io);
      case DoClearTree => SettingFields(s, 0);
      case DoTreeLimit(limit) => SettingFields(s, limit);
      case DoThreshold(t) => SettingFields(s, t);
      case DoBitsPerKey(b) => SettingFields(s, b);
      case _ =>
    }
  }

  lemma CommitKinds(s: State, mode: nat, io: Io)
    requires Levels(s.store)
    ensures mode != 2 && !s.commits.MetaOnly? ==> !CommitOutput(s, mode, io).commits.MetaOnly?
  {
    hide CopyAll, PlanAll, CommitSegments, RefreshSegments;
  }

  lemma ReplacedCommits(s: State, io: Io)
    requires Levels(s.store) && !s.commits.MetaOnly?
    ensures !CompactSelected(s, io).commits.MetaOnly?
  {
    hide CommitOutput, KeptBy, Selected, Recalc, AppendSegment;
    var s1 := Recalc(s);
    if SelectedAt(s1) >= 0 {
      CommitKinds(ReplaceSegment(s1, SelectedAt(s1)), 3, io);
    }
  }

  lemma FinishedCommits(s: State, zone: nat, io: Io)
    requires Levels(s.store)
    ensures CompactZone(s, zone, io).commits == s.commits
  {
    hide SlideTo, AppendSegment, Recalc, Remapped, Cached, FillAfter;
  }

  /** In runs whose only commits copy first (mode 3, as segment compaction uses), whatever is committed
      was copied. */
  lemma {:induction false} CommittedWereCopied(zones: nat, steps: seq<Step>)
    requires forall i :: 0 <= i < |steps| ==> !(steps[i].DoCommit? && steps[i].mode == 2)
    ensures CommittedAreCopied(Run(zones, steps).store.segs)
    ensures !Run(zones, steps).commits.MetaOnly?
  {
    hide Sound, Apply, CommittedAreCopied, CacheOk, RangesOk, StatesOk;
    if steps != [] {
      var front := steps[..|steps| - 1];
      CommittedWereCopied(zones, front);
      RunSound(zones, front);
      StepCommits(Run(zones, front), steps[|steps| - 1]);
    }
    RunOutputs(zones, steps);
  }

  // ---------------------------------------------------------------- discards

  function Deletes(first: nat, n: nat): (steps: seq<Step>)
    ensures |steps| == n && forall i :: 0 <= i < n ==> steps[i] == DoDelete(first + i)
  {
    seq(n, i requires 0 <= i => DoDelete(first + i))
  }

  lemma DeletesSnoc(first: nat, n: nat)
    requires n > 0
    ensures Deletes(first, n) == Deletes(first, n - 1) + [DoDelete(first + n - 1)]
  {
  }

  /** Deleting a range of keys is the run that deletes them one by one, and takes exactly them from
      the live keys. */
  lemma {:induction false} RangeIsDeletes(zones: nat, steps: seq<Step>, first: nat, n: nat)
    ensures DeleteRange(Run(zones, steps), first, n) == Run(zones, steps + Deletes(first, n))
    ensures forall key :: key in LiveKeys(zones, steps + Deletes(first, n)) <==>
                            key in LiveKeys(zones, steps) && !(first <= key < first + n)
  {
    hide Delete, Run, LiveKeys, ZoneOf;
    if n == 0 {
      assert steps + Deletes(first, 0) == steps;
    } else {
      RangeIsDeletes(zones, steps, first, n - 1);
      DeletesSnoc(first, n);
      assert steps + Deletes(first, n) == (steps + Deletes(first, n - 1)) + [DoDelete(first + n - 1)];
      OneMoreDelete(zones, steps + Deletes(first, n - 1), first + n - 1);
    }
  }

  lemma OneMoreDelete(zones: nat, steps: seq<Step>, key: nat)
    ensures Run(zones, steps + [DoDelete(key)]) == Delete(Run(zones, steps), key)
    ensures LiveKeys(zones, steps + [DoDelete(key)]) == LiveKeys(zones, steps) - {key}
  {
    hide Delete, ZoneOf;
    assert (steps + [DoDelete(key)])[..|steps|] == steps;
    LiveInZones(zones, steps);
  }

  lemma LiveInZones(zones: nat, steps: seq<Step>)
    ensures forall key :: key in LiveKeys(zones, steps) ==> ZoneOf(key) < zones
  {
    hide Sound, Run, ZoneOf, Live;
    RunSound(zones, steps);
  }

  /** A discard makes exactly the keys of the counted blocks unreadable; those are the blocks it touches
      if and only if their number fits 32 bits (CountIsExact). */
  lemma DiscardRemovesTouched(zones: nat, steps: seq<Step>, lba: nat, sectors: nat, key: nat)
    ensures var before, after := Run(zones, steps), Discard(Run(zones, steps), lba, sectors);
            && (DeviceRead(after, key).Valid? <==> DeviceRead(before, key).Valid? && !Counted(lba, sectors, key))
            && (BlocksSpanned(lba, sectors) <= U32_MAX ==>
                  (DeviceRead(after, key).Valid? <==> DeviceRead(before, key).Valid? && !Touched(lba, sectors, key)))
  {
    hide Run, DeviceRead, LiveKeys, DeleteRange, Logged, BlocksSpanned;
    var first, n := lba / BLOCK_SECTORS, BlockCount(lba, sectors);
    CountIsExact(lba, sectors);
    RangeIsDeletes(zones, steps, first, n);
    ReadsRefineMap(zones, steps, key);
    ReadsRefineMap(zones, steps + Deletes(first, n), key);
  }

  /** A range whose block count wraps to nothing deletes nothing: 16 TiB from the start of the device. */
  lemma WrappedDiscard(s: State)
    requires Levels(s.store)
    ensures BlocksSpanned(0, BLOCK_SECTORS * (U32_MAX + 1)) == U32_MAX + 1
    ensures Discard(s, 0, BLOCK_SECTORS * (U32_MAX + 1)) == s
    ensures Touched(0, BLOCK_SECTORS * (U32_MAX + 1), 0)
  {
    assert 0 / BLOCK_SECTORS == 0;
  }
}
