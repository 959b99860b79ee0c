/** The metadata engine as values: its state and what each operation makes of it. */
module Spec {
  import opened Types
  import opened Tables
  import opened BloomFilter
  import opened Builder
  import opened Scan
  import opened DynamicLevels
  import opened ReadTree
  import opened Layout
  import opened Placement
  import opened Obsolescence
  import opened CopyJobs
  import opened Commit

  /** History of the device: the operation that took each timestamp. A failed zone compaction uses
      up timestamps without leaving a record. */
  datatype LogEntry = Op(key: nat, valid: bool, pba: nat) | Gap

  /** The output rounds a device has seen: none that copies or commits, only ones that copy before they
      commit, or others too. */
  datatype CommitKind = NoCommits | CopiedFirst | MetaOnly

  datatype State = State(
    store: Store, nextId: nat, ts: nat,
    plan: LevelPlan, threshold: nat, bitsPerKey: nat, cand: Candidate,
    cache: Cache, zone: ZoneMap, zoneFill: seq<nat>, disk: Disk, log: seq<LogEntry>, commits: CommitKind)

  function Init(zones: nat): State {
    var none := seq(LEVELS, _ => []);
    State(Store(none, none, []), 0, 0,
          LevelPlan(MAX_LEVEL, MAX_LEVEL, -1, seq(LEVELS, _ => 0)), 16, 10, Candidate(0, 0),
          Cache(map[], [], READ_TREE_LIMIT), map[], seq(zones, _ => 0), map[], [], NoCommits)
  }

  ghost predicate Levels(st: Store) { |st.unsorted| == |st.sorted| == LEVELS }

  /** The same history, zone map, disk and output rounds. */
  ghost predicate SameDevice(s: State, r: State) {
    r.log == s.log && r.zone == s.zone && r.zoneFill == s.zoneFill && r.disk == s.disk && r.commits == s.commits
  }

  /** What the level and segment bookkeeping never touches. */
  ghost predicate SameOutside(s: State, r: State) {
    r.ts == s.ts && r.cache == s.cache && SameDevice(s, r)
  }

  function Totals(st: Store): (totals: seq<nat>)
    requires Levels(st)
    ensures |totals| == LEVELS
  {
    seq(LEVELS, l requires 0 <= l < LEVELS => |st.unsorted[l]| + |st.sorted[l]|)
  }

  function Calc(s: State): (r: State)
    requires Levels(s.store)
    ensures Levels(r.store)
    ensures SameOutside(s, r)
  {
    s.(plan := Plan(Totals(s.store), s.threshold))
  }

  function Recalc(s: State): (r: State)
    requires Levels(s.store)
    ensures Levels(r.store)
    ensures SameOutside(s, r)
  {
    var segs := Recalculated(AllRecords(s.store), s.zone, s.store.segs);
    s.(store := s.store.(segs := segs), cand := CandidateOf(segs, Policy(s.ts, s.zoneFill)))
  }

  // ---------------------------------------------------------------- segments

  function NewSegment(segs: seq<Segment>, id: nat, level: nat, track: Track, recs: seq<Record>,
                      bitsPerKey: nat): Segment {
    var table := UpsertAll([], recs);
    var sum := Summarize(recs);
    var window := WindowOf(sum.zone, sum.minKey, sum.maxKey);
    var output := FirstFit(segs, window, |table| * BLOCK_SECTORS);
    Segment(id, level, sum.zone, track, false, sum.nodes, sum.minKey, sum.maxKey, sum.minTs, sum.maxTs,
            BuildFilter(table, bitsPerKey), MapEntries(Fresh(table), output),
            SegmentStats(0, 0, 0, 0, 0), 0, 0, window, output)
  }

  /** imr_lsm_append_segment_locked. */
  function AppendSegment(s: State, level: nat, track: Track, recs: seq<Record>): (r: State)
    requires Levels(s.store)
    ensures Levels(r.store)
    ensures SameOutside(s, r)
  {
    if recs == [] then s
    else
      var seg := NewSegment(s.store.segs, s.nextId, level, track, recs, s.bitsPerKey);
      Recalc(s.(store := s.store.(segs := s.store.segs + [seg]), nextId := s.nextId + 1))
  }

  // ---------------------------------------------------------------- moving levels

  /** What a move takes along: the unsorted list, and the sorted list if it changes level. */
  function Moved(st: Store, level: nat, dst: nat): seq<Record>
    requires Levels(st) && level < LEVELS
  {
    st.unsorted[level] + (if dst != level then st.sorted[level] else [])
  }

  function MoveLists(st: Store, level: nat, dst: nat): (r: Store)
    requires Levels(st) && level < LEVELS && dst < LEVELS
    ensures Levels(r)
  {
    var sorted := st.sorted[dst := UpsertAll(st.sorted[dst], Moved(st, level, dst))];
    st.(unsorted := st.unsorted[level := []], sorted := if dst != level then sorted[level := []] else sorted)
  }

  function MoveLevel(s: State, level: nat, dst: nat): (r: State)
    requires Levels(s.store) && level < LEVELS && dst < LEVELS
    ensures Levels(r.store)
    ensures SameOutside(s, r)
  {
    Calc(AppendSegment(s.(store := MoveLists(s.store, level, dst)), dst, Bottom, Moved(s.store, level, dst)))
  }

  /** imr_lsm_flush_bottom_unsorted_locked. */
  function FlushBottom(s: State): (r: State)
    requires Levels(s.store)
    ensures Levels(r.store)
    ensures SameOutside(s, r)
  {
    if s.plan.base >= MAX_LEVEL || s.store.unsorted[MAX_LEVEL] == [] then s
    else MoveLevel(s, MAX_LEVEL, MAX_LEVEL)
  }

  /** imr_lsm_compact_level_locked. */
  function CompactLevel(s: State, level: nat): (r: State)
    requires Levels(s.store) && level < LEVELS
    ensures Levels(r.store)
    ensures SameOutside(s, r)
  {
    var s1 := if level < MAX_LEVEL then Calc(s) else s;
    var dst := Min(DestinationOf(s1.plan, level), MAX_LEVEL);
    if Moved(s.store, level, dst) == [] then s1 else MoveLevel(s1, level, dst)
  }

  function Rounds(s: State, n: nat): (r: State)
    requires Levels(s.store)
    ensures Levels(r.store)
    ensures SameOutside(s, r)
    decreases n
  {
    var s1 := Calc(s);
    var level := PickOf(s1.plan, s1.threshold, Totals(s1.store));
    if n == 0 then s else if level >= LEVELS then s1 else Rounds(CompactLevel(s1, level), n - 1)
  }

  /** imr_lsm_run_compactions_locked. */
  function RunCompactions(s: State): (r: State)
    requires Levels(s.store)
    ensures Levels(r.store)
    ensures SameOutside(s, r)
  {
    Rounds(FlushBottom(Calc(s)), LEVELS)
  }

  // ---------------------------------------------------------------- writes and deletes

  function AppendRecord(s: State, level: nat, key: nat, pba: nat, zone: nat, valid: bool): (r: State)
    requires Levels(s.store) && level < LEVELS
    ensures Levels(r.store) && r.zoneFill == s.zoneFill
  {
    var r := Record(key, pba, zone, valid, s.ts + 1);
    s.(ts := s.ts + 1,
       store := s.store.(unsorted := s.store.unsorted[level := [r] + s.store.unsorted[level]]),
       cache := Update(s.cache, key, CacheNode(pba, valid, s.ts + 1)),
       log := s.log + [Op(key, valid, pba)])
  }

  /** imr_lsm_append_unsorted_node_locked. */
  function Append(s: State, level: nat, key: nat, pba: nat, zone: nat, valid: bool): (r: State)
    requires Levels(s.store) && level < LEVELS && |s.plan.target| == LEVELS
    ensures Levels(r.store) && r.zoneFill == s.zoneFill
  {
    var s1 := AppendRecord(s, level, key, pba, zone, valid);
    var full := |s1.store.unsorted[level]| >= Capacity(s1.plan, s1.threshold, level);
    var s2 := if full then CompactLevel(s1, level) else s1;
    Recalc(RunCompactions(s2))
  }

  function Ready(s: State): (r: State)
    requires Levels(s.store)
    ensures Levels(r.store)
    ensures SameOutside(s, r)
  {
    FlushBottom(Calc(s))
  }

  /** imr_lsm_append_unsorting_node: level 0 stands for the active write level. */
  function InsertRecord(s: State, level: nat, key: nat, pba: nat, zone: nat): (r: State)
    requires Levels(s.store) && level < LEVELS
    ensures Levels(r.store) && r.zoneFill == s.zoneFill
  {
    var s1 := Ready(s);
    Append(s1, Min(if level == 0 then s1.plan.active else level, MAX_LEVEL), key, pba, zone, true)
  }

  /** imr_lsm_delete. */
  function DeleteRecord(s: State, key: nat): (r: State)
    requires Levels(s.store)
    ensures Levels(r.store) && r.zoneFill == s.zoneFill
  {
    var s1 := Ready(s);
    Append(s1.(cache := Remove(s1.cache, key)), Min(s1.plan.active, MAX_LEVEL), key, 0, 0, false)
  }

  /** imrsim_lsm_delete_key_locked; a key outside the zones is refused. */
  function Delete(s: State, key: nat): (r: State)
    requires Levels(s.store)
    ensures Levels(r.store) && r.zoneFill == s.zoneFill
  {
    if ZoneOf(key) >= |s.zoneFill| then s
    else
      var s1 := DeleteRecord(s, key);
      s1.(zone := s1.zone - {key})
  }

  /** The first `n` keys from `first` on, deleted one after another. A refused key ends the loop of the
      source; the keys behind it are refused as well (RangeBeyond). */
  function DeleteRange(s: State, first: nat, n: nat): (r: State)
    requires Levels(s.store)
    ensures Levels(r.store) && r.zoneFill == s.zoneFill
  {
    if n == 0 then s else Delete(DeleteRange(s, first, n - 1), first + n - 1)
  }

  lemma {:induction false} RangeBeyond(s: State, first: nat, m: nat, n: nat)
    requires Levels(s.store) && 1 <= m <= n
    requires |DeleteRange(s, first, m - 1).zoneFill| <= ZoneOf(first + m - 1)
    ensures DeleteRange(s, first, n) == DeleteRange(s, first, m - 1)
    decreases n
  {
    hide DeleteRecord;
    if m < n {
      RangeBeyond(s, first, m, n - 1);
      ZoneGrows(first + m - 1, first + n - 1);
    }
  }

  lemma ZoneGrows(a: nat, b: nat)
    requires a <= b
    ensures ZoneOf(a) <= ZoneOf(b)
  {
  }

  /** imrsim_lsm_delete_lba_range_locked. */
  function Discard(s: State, lba: nat, sectors: nat): (r: State)
    requires Levels(s.store)
    ensures Levels(r.store) && r.zoneFill == s.zoneFill
  {
    DeleteRange(s, lba / BLOCK_SECTORS, BlockCount(lba, sectors))
  }

  /** Block of a key under two-phase allocation: its mapped block, or the zone's next one. */
  function BlockFor(s: State, key: nat): nat
    requires ZoneOf(key) < |s.zoneFill|
  {
    if key in s.zone then s.zone[key] else Slot2(s.zoneFill[ZoneOf(key)])
  }

  /** Zone map and fill after the block was chosen. */
  function MapBlock(s: State, key: nat): State
    requires ZoneOf(key) < |s.zoneFill|
  {
    var z := ZoneOf(key);
    if key in s.zone then s
    else s.(zone := s.zone[key := BlockFor(s, key)], zoneFill := s.zoneFill[z := s.zoneFill[z] + 1])
  }

  /** A one-block write: remapped by imrsim_write_rule_check, recorded, and carried out. */
  function Write(s: State, key: nat, payload: nat): (r: State)
    requires Levels(s.store)
    ensures Levels(r.store)
  {
    if ZoneOf(key) >= |s.zoneFill| then s
    else
      var pba := BlockSector(ZoneOf(key), BlockFor(s, key));
      var s1 := InsertRecord(MapBlock(s, key), 0, key, pba, ZoneOf(key));
      s1.(disk := WriteBlock(s1.disk, pba, payload))
  }

  // ---------------------------------------------------------------- reads

  datatype LookupResult = Miss | Valid(pba: nat) | Deleted

  function ResultOf(found: bool, valid: bool, pba: nat): LookupResult {
    if !found then Miss else if valid then Valid(pba) else Deleted
  }

  function SlowBest(s: State, key: nat): Best { Fold(NONE, ReadRecords(s.store), key) }

  /** imr_lsm_read: the read tree first, then unsorted lists and segments. */
  function ReadResult(s: State, key: nat): LookupResult {
    if key in s.cache.nodes then ResultOf(true, s.cache.nodes[key].valid, s.cache.nodes[key].pba)
    else var b := SlowBest(s, key); ResultOf(b.found, b.valid, b.pba)
  }

  function Read(s: State, key: nat): State {
    if key in s.cache.nodes then s.(cache := Lookup(s.cache, key))
    else
      var b := SlowBest(s, key);
      s.(store := s.store.(segs := BumpAll(s.store.segs, key)),
         cache := if b.found then Update(s.cache, key, CacheNode(b.pba, b.valid, b.ts)) else s.cache)
  }

  /** Sector a device read is sent to: the engine's answer, or on a miss the zone map's. */
  function DeviceRead(s: State, key: nat): LookupResult {
    var r := ReadResult(s, key);
    if r.Miss? && key in s.zone then Valid(BlockSector(ZoneOf(key), s.zone[key])) else r
  }

  // ---------------------------------------------------------------- output commit

  function CommitMeta(s: State): (r: State)
    requires Levels(s.store)
    ensures Levels(r.store)
  {
    s.(store := s.store.(segs := CommitSegments(s.store.segs)),
       cache := RefreshSegments(s.cache, AllRecords(s.store), s.store.segs, |s.store.segs|))
  }

  function AfterCopy(k: CommitKind): CommitKind { if k.MetaOnly? then MetaOnly else CopiedFirst }

  function Planned(s: State): State { s.(store := s.store.(segs := PlanAll(s.store.segs))) }

  /** State after the payload copies of a planned round, whether or not they all succeeded. */
  function AfterCopying(s: State, io: Io): State {
    var c := CopyAll(s.disk, s.store.segs, io);
    s.(store := s.store.(segs := c.segs), disk := c.disk, commits := AfterCopy(s.commits))
  }

  predicate CopiesSucceed(s: State, io: Io) { CopyAll(s.disk, PlanAll(s.store.segs), io).ok }

  /** imr_lsm_commit_output_locked: 1 plans, 2 also commits, 3 copies before it commits. */
  function CommitOutput(s: State, mode: nat, io: Io): (r: State)
    requires Levels(s.store)
    ensures Levels(r.store)
  {
    if mode == 0 || mode > 3 then s
    else if mode == 1 then Planned(s)
    else if mode == 2 then CommitMeta(Planned(s).(commits := MetaOnly))
    else
      var copied := AfterCopying(Planned(s), io);
      if CopiesSucceed(s, io) then CommitMeta(copied) else copied
  }

  // ---------------------------------------------------------------- segment compaction

  /** Kept records as the compactor adds them: with the zone of the old segment. */
  function Rezoned(rs: seq<Record>, zone: nat): (out: seq<Record>)
    ensures |out| == |rs| && forall i :: 0 <= i < |rs| ==> out[i] == rs[i].(zone := zone)
  {
    seq(|rs|, i requires 0 <= i < |rs| => rs[i].(zone := zone))
  }

  function KeptBy(s: State, at: nat): seq<Record>
    requires Levels(s.store) && at < |s.store.segs|
  {
    var seg := s.store.segs[at];
    Rezoned(KeptOf(AllRecords(s.store), s.zone, Recs(seg.table)), seg.zone)
  }

  function Retire(s: State, at: nat): State
    requires at < |s.store.segs|
  {
    s.(store := s.store.(segs := s.store.segs[at := s.store.segs[at].(retired := true, score := 0)]))
  }

  /** The selected segment replaced by a new one that holds what it must keep. */
  function ReplaceSegment(s: State, at: nat): (r: State)
    requires Levels(s.store) && at < |s.store.segs|
    ensures Levels(r.store)
  {
    var seg := s.store.segs[at];
    Recalc(Retire(AppendSegment(s, seg.level, seg.track, KeptBy(s, at)), at))
  }

  function SelectedAt(s: State): int { Selected(s.store.segs, s.cand, |s.store.segs|) }

  /** The state in which the selected segment, if there is one, has been replaced. */
  function Replacement(s: State): (r: State)
    requires Levels(s.store)
    ensures Levels(r.store)
  {
    var s1 := Recalc(s);
    if SelectedAt(s1) < 0 then s1 else ReplaceSegment(s1, SelectedAt(s1))
  }

  /** A commit ends the compaction if something was kept. */
  predicate CommitFollows(s: State)
    requires Levels(s.store)
  {
    var s1 := Recalc(s);
    SelectedAt(s1) >= 0 && KeptBy(s1, SelectedAt(s1)) != []
  }

  /** imr_lsm_compact_selected_segment_locked. */
  function CompactSelected(s: State, io: Io): (r: State)
    requires Levels(s.store)
    ensures Levels(r.store)
  {
    if CommitFollows(s) then CommitOutput(Replacement(s), 3, io) else Replacement(s)
  }

  // ---------------------------------------------------------------- settings

  function ClearTree(s: State): State { s.(cache := Clear(s.cache)) }

  /** The debugfs limit write: 0 restores the default, more than the default is refused. */
  function SetTreeLimit(s: State, limit: nat): State {
    if limit > READ_TREE_LIMIT then s
    else s.(cache := SetLimit(s.cache, if limit == 0 then READ_TREE_LIMIT else limit))
  }

  function SetThreshold(s: State, threshold: nat): (r: State)
    requires Levels(s.store)
    ensures Levels(r.store)
  {
    var t := if threshold == 0 then 16 else threshold;
    if t > THRESHOLD_MAX then s else Calc(s.(threshold := t))
  }

  function SetBitsPerKey(s: State, bits: nat): State {
    var b := if bits == 0 then 10 else bits;
    if b > 64 then s else s.(bitsPerKey := b)
  }
}
