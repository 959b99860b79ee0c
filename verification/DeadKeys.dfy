/** A key of which no live record is stored stays so until it is written again. The argument: the engine
    never consults the history, so it would have ended in the same records had the key never been
    written; and a sound engine stores no live record of a key that never was. */
module DeadKeys {
  import opened Types
  import opened Scan
  import opened DynamicLevels
  import opened ReadTree
  import opened Layout
  import opened Obsolescence
  import opened CopyJobs
  import opened Commit
  import opened Spec
  import opened Shape
  import opened History
  import opened ZoneCompaction
  import opened Runs

  // ---------------------------------------------------------------- the history is never consulted

  lemma CalcLog(s: State, l: seq<LogEntry>)
    requires Levels(s.store)
    ensures Calc(s.(log := l)) == Calc(s).(log := l) && Recalc(s.(log := l)) == Recalc(s).(log := l)
  {
  }

  lemma AppendSegmentLog(s: State, level: nat, track: Track, recs: seq<Record>, l: seq<LogEntry>)
    requires Levels(s.store)
    ensures AppendSegment(s.(log := l), level, track, recs) == AppendSegment(s, level, track, recs).(log := l)
  {
    hide NewSegment, Recalc;
    if recs != [] {
      var seg := NewSegment(s.store.segs, s.nextId, level, track, recs, s.bitsPerKey);
      CalcLog(s.(store := s.store.(segs := s.store.segs + [seg]), nextId := s.nextId + 1), l);
    }
  }

  lemma MoveLevelLog(s: State, level: nat, dst: nat, l: seq<LogEntry>)
    requires Levels(s.store) && level < LEVELS && dst < LEVELS
    ensures MoveLevel(s.(log := l), level, dst) == MoveLevel(s, level, dst).(log := l)
  {
    hide AppendSegment, MoveLists, Moved, Calc;
    var t := s.(store := MoveLists(s.store, level, dst));
    AppendSegmentLog(t, dst, Bottom, Moved(s.store, level, dst), l);
    CalcLog(AppendSegment(t, dst, Bottom, Moved(s.store, level, dst)), l);
  }

  lemma CompactLevelLog(s: State, level: nat, l: seq<LogEntry>)
    requires Levels(s.store) && level < LEVELS
    ensures CompactLevel(s.(log := l), level) == CompactLevel(s, level).(log := l)
    ensures FlushBottom(s.(log := l)) == FlushBottom(s).(log := l)
  {
    hide MoveLevel, Moved, Calc;
    CalcLog(s, l);
    var s1 := if level < MAX_LEVEL then Calc(s) else s;
    MoveLevelLog(s1, level, Min(DestinationOf(s1.plan, level), MAX_LEVEL), l);
    MoveLevelLog(s, MAX_LEVEL, MAX_LEVEL, l);
  }

  lemma {:induction false} RoundsLog(s: State, n: nat, l: seq<LogEntry>)
    requires Levels(s.store)
    ensures Rounds(s.(log := l), n) == Rounds(s, n).(log := l)
    decreases n
  {
    hide CompactLevel, Calc, PickOf;
    CalcLog(s, l);
    CalcSized(s);
    var c := Calc(s);
    var level := PickOf(c.plan, c.threshold, Totals(c.store));
    if n > 0 && level < LEVELS {
      CompactLevelLog(c, level, l);
      RoundsLog(CompactLevel(c, level), n - 1, l);
    }
  }

  lemma CalcSized(s: State)
    requires Levels(s.store)
    ensures |Calc(s).plan.target| == LEVELS
  {
  }

  lemma ReadyLog(s: State, l: seq<LogEntry>)
    requires Levels(s.store)
    ensures Ready(s.(log := l)) == Ready(s).(log := l)
    ensures RunCompactions(s.(log := l)) == RunCompactions(s).(log := l)
  {
    hide FlushBottom, Calc, Rounds;
    CalcLog(s, l);
    CompactLevelLog(Calc(s), 0, l);
    RoundsLog(FlushBottom(Calc(s)), LEVELS, l);
  }

  lemma AppendLog(s: State, level: nat, key: nat, pba: nat, zone: nat, valid: bool, l: seq<LogEntry>)
    requires Levels(s.store) && level < LEVELS && |s.plan.target| == LEVELS
    ensures Append(s.(log := l), level, key, pba, zone, valid) ==
            Append(s, level, key, pba, zone, valid).(log := l + [Op(key, valid, pba)])
  {
    hide Update, CompactLevel, RunCompactions, Recalc, Capacity;
    var l2 := l + [Op(key, valid, pba)];
    var s1 := AppendRecord(s, level, key, pba, zone, valid);
    assert AppendRecord(s.(log := l), level, key, pba, zone, valid) == s1.(log := l2);
    CompactLevelLog(s1, level, l2);
    var full := |s1.store.unsorted[level]| >= Capacity(s1.plan, s1.threshold, level);
    var s2 := if full then CompactLevel(s1, level) else s1;
    ReadyLog(s2, l2);
    CalcLog(RunCompactions(s2), l2);
  }

  lemma InsertLog(s: State, level: nat, key: nat, pba: nat, zone: nat, l: seq<LogEntry>)
    requires ShapeOk(s) && level < LEVELS
    ensures Levels(s.store)
    ensures InsertRecord(s.(log := l), level, key, pba, zone) ==
            InsertRecord(s, level, key, pba, zone).(log := l + [Op(key, true, pba)])
    ensures DeleteRecord(s.(log := l), key) == DeleteRecord(s, key).(log := l + [Op(key, false, 0)])
  {
    hide ShapeOk, Append, Ready, Remove;
    ShapeLevels(s);
    ReadyShape(s);
    ReadyLog(s, l);
    var s1 := Ready(s);
    ShapeLevels(s1);
    AppendLog(s1, Min(if level == 0 then s1.plan.active else level, MAX_LEVEL), key, pba, zone, true, l);
    AppendLog(s1.(cache := Remove(s1.cache, key)), Min(s1.plan.active, MAX_LEVEL), key, 0, 0, false, l);
  }

  lemma WriteLog(s: State, key: nat, payload: nat, l: seq<LogEntry>)
    requires ShapeOk(s)
    ensures Levels(s.store)
    ensures ZoneOf(key) < |s.zoneFill| ==>
              Write(s.(log := l), key, payload) ==
              Write(s, key, payload).(log := l + [Op(key, true, BlockSector(ZoneOf(key), BlockFor(s, key)))])
    ensures ZoneOf(key) < |s.zoneFill| ==> Delete(s.(log := l), key) == Delete(s, key).(log := l + [Op(key, false, 0)])
  {
    hide ShapeOk, InsertRecord, DeleteRecord, BlockSector, Slot2, ZoneOf, WriteBlock;
    ShapeLevels(s);
    if ZoneOf(key) < |s.zoneFill| {
      MappedShape(s, key);
      InsertLog(MapBlock(s, key), 0, key, BlockSector(ZoneOf(key), BlockFor(s, key)), ZoneOf(key), l);
      InsertLog(s, 0, key, 0, 0, l);
    }
  }

  lemma MappedShape(s: State, key: nat)
    requires ShapeOk(s) && ZoneOf(key) < |s.zoneFill|
    ensures ShapeOk(MapBlock(s, key))
  {
  }

  lemma CommitMetaLog(s: State, l: seq<LogEntry>)
    requires Levels(s.store)
    ensures CommitMeta(s.(log := l)) == CommitMeta(s).(log := l)
  {
    hide CommitSegments, RefreshSegments, AllRecords;
  }

  lemma CommitLog(s: State, mode: nat, io: Io, l: seq<LogEntry>)
    requires Levels(s.store)
    ensures CommitOutput(s.(log := l), mode, io) == CommitOutput(s, mode, io).(log := l)
  {
    hide CopyAll, PlanAll, CommitMeta;
    CommitMetaLog(Planned(s).(commits := MetaOnly), l);
    CommitMetaLog(AfterCopying(Planned(s), io), l);
  }

  lemma ReplaceLog(s: State, at: nat, l: seq<LogEntry>)
    requires Levels(s.store) && at < |s.store.segs|
    ensures KeptBy(s.(log := l), at) == KeptBy(s, at)
    ensures ReplaceSegment(s.(log := l), at) == ReplaceSegment(s, at).(log := l)
  {
    hide AppendSegment, Recalc, AllRecords, KeptOf;
    var seg := s.store.segs[at];
    AppendSegmentLog(s, seg.level, seg.track, KeptBy(s, at), l);
    AppendGrows(s, seg.level, seg.track, KeptBy(s, at));
    CalcLog(Retire(AppendSegment(s, seg.level, seg.track, KeptBy(s, at)), at), l);
  }

  lemma CompactSelectedLog(s: State, io: Io, l: seq<LogEntry>)
    requires Levels(s.store)
    ensures CompactSelected(s.(log := l), io) == CompactSelected(s, io).(log := l)
  {
    hide Recalc, ReplaceSegment, CommitOutput, KeptBy, Selected;
    CalcLog(s, l);
    var s1 := Recalc(s);
    if SelectedAt(s1) >= 0 {
      ReplaceLog(s1, SelectedAt(s1), l);
      CommitLog(ReplaceSegment(s1, SelectedAt(s1)), 3, io, l);
    }
  }

  lemma ReadLog(s: State, key: nat, value: nat, l: seq<LogEntry>)
    requires Levels(s.store)
    ensures Read(s.(log := l), key) == Read(s, key).(log := l)
    ensures SetThreshold(s.(log := l), value) == SetThreshold(s, value).(log := l)
    ensures SetTreeLimit(s.(log := l), value) == SetTreeLimit(s, value).(log := l)
    ensures SetBitsPerKey(s.(log := l), value) == SetBitsPerKey(s, value).(log := l)
    ensures ClearTree(s.(log := l)) == ClearTree(s).(log := l)
  {
    hide Fold, ReadRecords, BumpAll, Update, Lookup, Clear, SetLimit, Calc;
    var t := if value == 0 then 16 else value;
    CalcLog(s.(threshold := t), l);
  }

  lemma {:induction false} SlideLog(s: State, zone: nat, io: Io, n: nat, l: seq<LogEntry>)
    requires Levels(s.store)
    ensures SlideTo(s.(log := l), zone, io, n) == SlideTo(s, zone, io, n)
  {
    hide AllRecords, Fold, RunJob, CopyFails, ZoneCompaction.Destination;
    if n > 0 { SlideLog(s, zone, io, n - 1, l); }
  }

  /** What a step adds to the history. */
  function Added(s: State, step: Step): seq<LogEntry>
    requires Levels(s.store)
  {
    match step
    case DoWrite(key, _) =>
      if ZoneOf(key) < |s.zoneFill| then [Op(key, true, BlockSector(ZoneOf(key), BlockFor(s, key)))] else []
    case DoDelete(key) => if ZoneOf(key) < |s.zoneFill| then [Op(key, false, 0)] else []
    case DoCompactZone(zone, io) =>
      var slide := SlideTo(s, zone, io, TOTAL_ITEMS);
      if Refused(s, zone) then [] else if slide.ok then Ops(slide.moved) else Gaps(|slide.moved|)
    case _ => []
  }

  lemma FinishLog(s: State, zone: nat, moved: seq<Record>, l: seq<LogEntry>)
    requires Levels(s.store) && zone + 1 < |s.zoneFill|
    ensures FinishZone(s.(log := l), zone, moved) == FinishZone(s, zone, moved).(log := l + Ops(moved))
    ensures FinishZone(s, zone, moved).log == s.log + Ops(moved)
  {
    hide AppendSegment, Recalc, Remapped, Cached, FillAfter;
    var n := |moved|;
    var t := s.(ts := s.ts + n, log := s.log + Ops(moved));
    AppendSegmentLog(t, MAX_LEVEL, Bottom, moved, l + Ops(moved));
    var s1 := AppendSegment(t, MAX_LEVEL, Bottom, moved);
    var f := s1.(zone := Remapped(s1.zone, zone, moved, n), cache := Cached(s1.cache, moved, n),
                 zoneFill := FillAfter(s1.zoneFill, zone, n));
    CalcLog(f, l + Ops(moved));
  }

  lemma ZoneLog(s: State, zone: nat, io: Io, l: seq<LogEntry>)
    requires Levels(s.store)
    ensures CompactZone(s.(log := l), zone, io) ==
            CompactZone(s, zone, io).(log := l + Added(s, DoCompactZone(zone, io)))
    ensures CompactZone(s, zone, io).log == s.log + Added(s, DoCompactZone(zone, io))
  {
    hide SlideTo, FinishZone;
    SlideLog(s, zone, io, TOTAL_ITEMS, l);
    var slide := SlideTo(s, zone, io, TOTAL_ITEMS);
    if Refused(s, zone) {
      assert l + [] == l && s.log + [] == s.log;
    } else if slide.ok && slide.moved == [] {
      assert l + Ops(slide.moved) == l && s.log + Ops(slide.moved) == s.log;
    } else if slide.ok {
      FinishLog(s.(disk := slide.disk), zone, slide.moved, l);
    }
  }

  /** A step's effect does not depend on the history it is given. */
  lemma StepLog(s: State, step: Step, l: seq<LogEntry>)
    requires Sound(s) && Levels(s.store)
    ensures Apply(s.(log := l), step) == Apply(s, step).(log := l + Added(s, step))
    ensures Apply(s, step).log == s.log + Added(s, step)
  {
    hide ShapeOk, Read, Ready, CompactLevel, CompactSelected, CommitOutput, Recalc, SetThreshold, SetTreeLimit,
      ClearTree, SetBitsPerKey, Write, Delete, CompactZone, ZoneOf, BlockSector, BlockFor, SlideTo, AllLogged,
      AllCovered, CacheTrue;
    assert l + [] == l && s.log + [] == s.log;
    if step.DoWrite? {
      WriteLog(s, step.key, step.payload, l);
      WriteLog(s, step.key, step.payload, s.log);
      assert s.(log := s.log) == s;
      OutOfRange(s, step.key, step.payload, l);
    } else if step.DoDelete? {
      WriteLog(s, step.key, 0, l);
      WriteLog(s, step.key, 0, s.log);
      assert s.(log := s.log) == s;
      OutOfRange(s, step.key, 0, l);
    } else if step.DoCompactZone? {
      ZoneLog(s, step.zone, step.io, l);
    } else {
      UpkeepLog(s, step, l);
      QuiescentStep(s, step);
    }
  }

  lemma OutOfRange(s: State, key: nat, payload: nat, l: seq<LogEntry>)
    requires Levels(s.store)
    ensures ZoneOf(key) >= |s.zoneFill| ==>
              Write(s, key, payload) == s && Write(s.(log := l), key, payload) == s.(log := l) &&
              Delete(s, key) == s && Delete(s.(log := l), key) == s.(log := l)
  {
  }

  lemma UpkeepLog(s: State, step: Step, l: seq<LogEntry>)
    requires Levels(s.store) && Quiescent(step)
    ensures Apply(s.(log := l), step) == Apply(s, step).(log := l)
  {
    hide Read, Ready, CompactLevel, CompactSelected, CommitOutput, Recalc, SetThreshold, SetTreeLimit, ClearTree,
      SetBitsPerKey;
    match step {
      case DoRead(key) => ReadLog(s, key, 0, l);
      case DoFlush => ReadyLog(s, l);
      case DoCompactLevel(level) => if level < LEVELS { CompactLevelLog(s, level, l); }
      case DoCompactSegment(io) => CompactSelectedLog(s, io, l);
      case DoCommit(mode, io) => CommitLog(s, mode, io, l);
      case DoRecalc => CalcLog(s, l);
      case DoClearTree => ReadLog(s, 0, 0, l);
      case DoTreeLimit(limit) => ReadLog(s, 0, limit, l);
      case DoThreshold(t) => ReadLog(s, 0, t, l);
      case DoBitsPerKey(b) => ReadLog(s, 0, b, l);
      case _ =>
    }
  }

  // ---------------------------------------------------------------- a history without the key

  /** The history with every write of the key turned into a delete. */
  function Forgotten(log: seq<LogEntry>, key: nat): (l: seq<LogEntry>)
    ensures |l| == |log|
    ensures forall i :: 0 <= i < |log| ==> l[i] == Forget(log[i], key)
  {
    seq(|log|, i requires 0 <= i < |log| => Forget(log[i], key))
  }

  function Forget(e: LogEntry, key: nat): LogEntry {
    if e.Op? && e.key == key then Op(key, false, e.pba) else e
  }

  lemma {:induction false} ForgottenNewest(log: seq<LogEntry>, key: nat, k: nat)
    ensures Newest(Forgotten(log, key), k) == Newest(log, k)
  {
    hide Newest;
    if log == [] {
      assert Forgotten(log, key) == log;
    } else {
      var n := |log| - 1;
      var front := log[..n];
      ForgottenNewest(front, key, k);
      assert log == front + [log[n]];
      assert Forgotten(log, key) == Forgotten(front, key) + [Forget(log[n], key)];
      NewestAppend(front, log[n], k);
      NewestAppend(Forgotten(front, key), Forget(log[n], key), k);
    }
  }

  lemma ForgottenLive(log: seq<LogEntry>, key: nat, k: nat)
    ensures Live(Forgotten(log, key), k) <==> k != key && Live(log, k)
  {
    hide Newest;
    ForgottenNewest(log, key, k);
  }

  lemma ForgottenLogged(log: seq<LogEntry>, key: nat, segs: seq<Segment>, r: Record)
    requires Logged(log, segs, r) && (r.key == key ==> !r.valid)
    ensures Logged(Forgotten(log, key), segs, r)
  {
    hide CommittedAt;
  }

  /** An engine that stores no live record of a key that is not live is sound for that history too. */
  lemma ForgottenSound(s: State, key: nat)
    requires Sound(s) && !Live(s.log, key) && NothingLive(s.store, key)
    ensures Sound(s.(log := Forgotten(s.log, key)))
  {
    hide ShapeOk, Stored, Visible, Logged, Newest, Live, Forgotten;
    var l := Forgotten(s.log, key);
    assert ShapeOk(s.(log := l)) by { LogShape(s, l); }
    forall k ensures Newest(l, k) == Newest(s.log, k) && (Live(l, k) <==> Live(s.log, k)) {
      ForgottenNewest(s.log, key, k);
      ForgottenLive(s.log, key, k);
    }
    forall r | Stored(s.store, r) ensures Logged(l, s.store.segs, r) {
      ForgottenLogged(s.log, key, s.store.segs, r);
    }
    forall k ensures Covered(l, s.store, k) {
      assert Covered(s.log, s.store, k);
    }
    forall k | k in s.cache.nodes ensures Cacheable(l, s.store.segs, k, s.cache.nodes[k]) {
      assert Cacheable(s.log, s.store.segs, k, s.cache.nodes[k]);
      ForgottenLogged(s.log, key, s.store.segs, CachedRecord(k, s.cache.nodes[k]));
    }
  }

  lemma LogShape(s: State, l: seq<LogEntry>)
    requires ShapeOk(s)
    ensures ShapeOk(s.(log := l))
  {
  }

  /** Only a write of the key adds one to the history. */
  lemma AddedOps(s: State, step: Step, key: nat)
    requires Sound(s) && ZoneTrue(s) && Levels(s.store) && !Live(s.log, key) && !(step.DoWrite? && step.key == key)
    ensures forall i :: 0 <= i < |Added(s, step)| ==>
            !(Added(s, step)[i].Op? && Added(s, step)[i].key == key && Added(s, step)[i].valid)
  {
    hide Sound, ZoneTrue, Live, ZoneOf, BlockSector, BlockFor, SlideTo;
    if step.DoCompactZone? {
      var slide := SlideTo(s, step.zone, step.io, TOTAL_ITEMS);
      if slide.ok {
        MovedAreLive(s, step.zone, step.io, key);
        forall i | 0 <= i < |slide.moved| ensures slide.moved[i].key != key {
          assert slide.moved[i].key == key ==> HasKey(slide.moved, key);
        }
      }
    }
  }

  /** Once no list and no active segment holds a live record of a key that is not live, no operation but
      a write of the key can bring one back; its zone map slot stays empty and it keeps reading as absent. */
  lemma DeadStaysDead(s: State, step: Step, key: nat)
    requires Sound(s) && ZoneTrue(s) && Levels(s.store) && !Live(s.log, key) && NothingLive(s.store, key)
    requires !(step.DoWrite? && step.key == key)
    ensures var r := Apply(s, step);
            && Sound(r) && ZoneTrue(r) && !Live(r.log, key) && NothingLive(r.store, key)
            && key !in r.zone && !DeviceRead(r, key).Valid?
  {
    hide ShapeOk, AllCovered, CacheTrue, Stored, CommittedAt, Newest, Live, Apply, Added, ReadResult;
    var l := Forgotten(s.log, key);
    var u, r := s.(log := l), Apply(s, step);
    ForgottenSound(s, key);
    forall k ensures Live(l, k) <==> Live(s.log, k) {
      ForgottenLive(s.log, key, k);
    }
    StepSound(s, step);
    StepSound(u, step);
    StepLog(s, step, l);
    AddedOps(s, step, key);
    ReadIsCorrect(r, key);
    var after := l + Added(s, step);
    assert AllLogged(after, r.store);
    forall x | Stored(r.store, x) && x.key == key ensures !x.valid {
      assert Logged(after, r.store.segs, x);
      assert x.ts - 1 < |l| ==> after[x.ts - 1] == Forget(s.log[x.ts - 1], key);
      assert x.ts - 1 >= |l| ==> after[x.ts - 1] == Added(s, step)[x.ts - 1 - |l|];
    }
  }

  /** Over a whole run: after a delete was dropped, nothing brings the key back until it is written. */
  lemma {:induction false} DroppedStaysDropped(zones: nat, steps: seq<Step>, more: seq<Step>, key: nat)
    requires var s := Run(zones, steps); !Live(s.log, key) && NothingLive(s.store, key)
    requires forall i :: 0 <= i < |more| ==> !(more[i].DoWrite? && more[i].key == key)
    ensures var r := Run(zones, steps + more);
            NothingLive(r.store, key) && key !in r.zone && !Live(r.log, key) && !DeviceRead(r, key).Valid?
    decreases |more|
  {
    hide Sound, Live, Apply, NothingLive, ReadResult;
    RunSound(zones, steps + more);
    if more == [] {
      assert steps + more == steps;
      ReadIsCorrect(Run(zones, steps), key);
    } else {
      var n := |more| - 1;
      DroppedStaysDropped(zones, steps, more[..n], key);
      RunSound(zones, steps + more[..n]);
      var all := steps + more;
      assert all[..|all| - 1] == steps + more[..n] && all[|all| - 1] == more[n];
      DeadStaysDead(Run(zones, steps + more[..n]), more[n], key);
    }
  }
}
