/** Which table entries are obsolete, the per-segment statistics built on that, and the choice of the
    segment to compact. `all` stands for the records of the whole store in scanning order. */
module Obsolescence {
  import opened Types
  import opened Scan
  import opened DynamicLevels

  const MIN_RATIO: nat := 250
  const MIN_INVALID: nat := 1
  const DELETE_BOOST: nat := 1000
  const TOMBSTONE_BOOST: nat := 500

  /** Key -> block number relative to the key's zone; an absent key is the -1 of the source's map. */
  type ZoneMap = map<nat, nat>

  /** Result of imr_lsm_find_newer_record_locked for `r`. */
  function Newer(all: seq<Record>, r: Record): Best {
    Fold(Best(false, r.ts, false, 0), all, r.key)
  }

  predicate TombstoneKept(all: seq<Record>, zone: ZoneMap, r: Record) {
    r.key in zone || OlderValidIn(all, r.key, r.ts)
  }

  /** imr_lsm_segment_entry_should_keep_locked. */
  predicate Keeps(all: seq<Record>, zone: ZoneMap, r: Record) {
    !Newer(all, r).found && (r.valid || TombstoneKept(all, zone, r))
  }

  /** The `invalid` flag of the recalculation. */
  predicate Obsolete(all: seq<Record>, zone: ZoneMap, r: Record) {
    (!r.valid && !TombstoneKept(all, zone, r)) || Newer(all, r).found
  }

  /** Nothing newer is found exactly when no record of the key has a later timestamp. */
  lemma NewerMeans(all: seq<Record>, r: Record)
    ensures Newer(all, r).found <==> exists x :: x in all && x.key == r.key && x.ts > r.ts
  {
    var b := Best(false, r.ts, false, 0);
    FoldIsNewest(b, all, r.key);
    var f := Newer(all, r);
    if f.found {
      var i :| 0 <= i < |all| && IsRecord(all[i], r.key, f);
      assert all[i] in all;
    }
  }

  // ---------------------------------------------------------------- statistics

  function CountObsolete(all: seq<Record>, zone: ZoneMap, table: seq<Entry>, n: nat): (c: nat)
    requires n <= |table|
    ensures c <= n
  {
    if n == 0 then 0
    else CountObsolete(all, zone, table, n - 1) + (if Obsolete(all, zone, table[n - 1].rec) then 1 else 0)
  }

  function CountTombstones(table: seq<Entry>, n: nat): nat
    requires n <= |table|
  {
    if n == 0 then 0 else CountTombstones(table, n - 1) + (if table[n - 1].rec.valid then 0 else 1)
  }

  predicate DeletedSince(all: seq<Record>, r: Record) {
    r.valid && Newer(all, r).found && !Newer(all, r).valid
  }

  function CountDeleted(all: seq<Record>, table: seq<Entry>, n: nat): nat
    requires n <= |table|
  {
    if n == 0 then 0 else CountDeleted(all, table, n - 1) + (if DeletedSince(all, table[n - 1].rec) then 1 else 0)
  }

  function StatsOf(all: seq<Record>, zone: ZoneMap, table: seq<Entry>): SegmentStats {
    var n := |table|;
    var invalid := CountObsolete(all, zone, table, n);
    SegmentStats(n - invalid, invalid, CountTombstones(table, n), CountDeleted(all, table, n),
                 if n > 0 then Div(invalid * 1000, n) else 0)
  }

  function ScoreOfStats(stats: SegmentStats): nat {
    if stats.invalid < MIN_INVALID || stats.ratio < MIN_RATIO then 0
    else stats.ratio * stats.invalid + stats.deleteInvalid * DELETE_BOOST + stats.tombstones * TOMBSTONE_BOOST
  }

  function WithStats(all: seq<Record>, zone: ZoneMap, seg: Segment): Segment {
    if seg.retired then seg.(score := 0)
    else
      var stats := StatsOf(all, zone, seg.table);
      seg.(stats := stats, score := ScoreOfStats(stats))
  }

  function Recalculated(all: seq<Record>, zone: ZoneMap, segs: seq<Segment>): (out: seq<Segment>)
    ensures |out| == |segs|
    ensures forall i :: 0 <= i < |segs| ==> out[i] == WithStats(all, zone, segs[i])
  {
    seq(|segs|, i requires 0 <= i < |segs| => WithStats(all, zone, segs[i]))
  }

  lemma RecalculatedSame(all: seq<Record>, zone: ZoneMap, segs: seq<Segment>)
    ensures SameButStats(Recalculated(all, zone, segs), segs)
  {
  }

  /** The records a compaction keeps, in table order. */
  function KeptOf(all: seq<Record>, zone: ZoneMap, rs: seq<Record>): seq<Record> {
    if rs == [] then []
    else
      var front, r := KeptOf(all, zone, rs[..|rs| - 1]), rs[|rs| - 1];
      if Keeps(all, zone, r) then front + [r] else front
  }

  /** An entry counts as invalid exactly when the compactor drops it; what is kept is an ascending
      part of the table. */
  lemma {:induction false} KeptFacts(all: seq<Record>, zone: ZoneMap, table: seq<Entry>, n: nat)
    requires n <= |table|
    ensures |KeptOf(all, zone, Recs(table)[..n])| == n - CountObsolete(all, zone, table, n)
    ensures forall r :: r in KeptOf(all, zone, Recs(table)[..n]) <==> r in Recs(table)[..n] && Keeps(all, zone, r)
    ensures Ascending(Recs(table)) ==> Ascending(KeptOf(all, zone, Recs(table)[..n]))
  {
    hide Keeps, Obsolete;
    if n > 0 {
      var rs := Recs(table);
      KeptFacts(all, zone, table, n - 1);
      assert rs[..n][..n - 1] == rs[..n - 1] && rs[..n] == rs[..n - 1] + [rs[n - 1]];
      assert Keeps(all, zone, rs[n - 1]) == !Obsolete(all, zone, table[n - 1].rec) by {
        KeepsIsNotObsolete(all, zone, rs[n - 1]);
      }
      assert forall r :: r in rs[..n - 1] && Ascending(rs) ==> r.key < rs[n - 1].key;
    }
  }

  lemma KeepsIsNotObsolete(all: seq<Record>, zone: ZoneMap, r: Record)
    ensures Keeps(all, zone, r) == !Obsolete(all, zone, r)
  {
  }

  // ---------------------------------------------------------------- selection

  /** What the policy score reads beside the segment: the clock and the fill of each zone. */
  datatype Policy = Policy(clock: nat, zoneFill: seq<nat>)

  function RangeLength(r: Range): nat {
    if r.Range? && r.first <= r.last then r.last - r.first + 1 else 0
  }

  function PlacementCost(seg: Segment): nat {
    var window, output := RangeLength(seg.window), RangeLength(seg.output);
    if window == 0 || output == 0 then 1000 else Min(Div(output * 1000, window), 1000)
  }

  function RmwCost(seg: Segment): nat {
    var entries := if |seg.table| > 0 then |seg.table| else seg.nodes;
    if entries == 0 || seg.track.Top? then 0 else Div(seg.stats.live * 1000, entries)
  }

  function Fullness(seg: Segment, policy: Policy): nat {
    if seg.zone == MIXED_ZONE || seg.zone >= |policy.zoneFill| then 0
    else Min(Div(policy.zoneFill[seg.zone] * 1000, TOTAL_ITEMS), 1000)
  }

  function FinalScore(seg: Segment, policy: Policy): int {
    seg.score + (if policy.clock <= seg.maxTs then 0 else policy.clock - seg.maxTs)
    - 100 * seg.hits - PlacementCost(seg) - RmwCost(seg) + Fullness(seg, policy)
  }

  /** Order of preference of two candidates: final score, then score, ratio and invalid count. */
  predicate Beats(a: Segment, b: Segment, policy: Policy) {
    var fa, fb := FinalScore(a, policy), FinalScore(b, policy);
    || fa > fb
    || (fa == fb && a.score > b.score)
    || (fa == fb && a.score == b.score && a.stats.ratio > b.stats.ratio)
    || (fa == fb && a.score == b.score && a.stats.ratio == b.stats.ratio && a.stats.invalid > b.stats.invalid)
  }

  /** The candidate kept after the first `n` segments, or -1. */
  function Select(segs: seq<Segment>, n: nat, policy: Policy): (best: int)
    requires n <= |segs|
    ensures -1 <= best < n
    ensures best >= 0 ==> segs[best].score > 0
  {
    if n == 0 then -1
    else
      var before := Select(segs, n - 1, policy);
      if segs[n - 1].score > 0 && (before == -1 || Beats(segs[n - 1], segs[before], policy)) then n - 1 else before
  }

  datatype Candidate = Candidate(id: nat, score: nat)

  function CandidateOf(segs: seq<Segment>, policy: Policy): Candidate {
    var best := Select(segs, |segs|, policy);
    if best < 0 then Candidate(0, 0) else Candidate(segs[best].id, segs[best].score)
  }

  /** The selection is the first candidate that no other one beats; there is none exactly when no
      segment scores. */
  lemma {:induction false} SelectFacts(segs: seq<Segment>, n: nat, policy: Policy)
    requires n <= |segs|
    ensures var best := Select(segs, n, policy);
            && (best == -1 <==> forall i :: 0 <= i < n ==> segs[i].score == 0)
            && (best >= 0 ==> forall i :: 0 <= i < n && segs[i].score > 0 ==> !Beats(segs[i], segs[best], policy))
            && (best >= 0 ==> forall i :: 0 <= i < best && segs[i].score > 0 ==> Beats(segs[best], segs[i], policy))
  {
    hide FinalScore;
    if n > 0 { SelectFacts(segs, n - 1, policy); }
  }

  /** First active segment with the candidate's id, or -1. */
  function Selected(segs: seq<Segment>, cand: Candidate, n: nat): (at: int)
    requires n <= |segs|
    ensures -1 <= at < n
    ensures at >= 0 ==> !segs[at].retired && segs[at].id == cand.id && cand.score > 0
  {
    if n == 0 || cand.score == 0 then -1
    else
      var before := Selected(segs, cand, n - 1);
      if before >= 0 then before
      else if !segs[n - 1].retired && segs[n - 1].id == cand.id then n - 1 else -1
  }

  // ---------------------------------------------------------------- the loops

  method EntryFlags(st: Store, zone: ZoneMap, r: Record) returns (obsolete: bool, deleted: bool)
    requires StoreOk(st)
    ensures obsolete == Obsolete(AllRecords(st), zone, r)
    ensures deleted == DeletedSince(AllRecords(st), r)
  {
    hide StoreOk, Fold;
    obsolete := false;
    if !r.valid && r.key !in zone {
      var older := FindOlderValid(st, r.key, r.ts);
      obsolete := !older;
    }
    var newer := ScanAll(st, r.key, Best(false, r.ts, false, 0));
    deleted := newer.found && r.valid && !newer.valid;
    obsolete := obsolete || newer.found;
  }

  /** The entry loop of imr_lsm_recalculate_segment_invalid_stats_locked. */
  method RecalculateSegment(st: Store, zone: ZoneMap, table: seq<Entry>) returns (stats: SegmentStats)
    requires StoreOk(st)
    ensures stats == StatsOf(AllRecords(st), zone, table)
  {
    hide StoreOk, Obsolete, DeletedSince, AllRecords;
    StoreLengths(st);
    ghost var all := AllRecords(st);
    var live, invalid, tombstones, deletedCount := 0, 0, 0, 0;
    var i := 0;
    while i < |table|
      invariant i <= |table|
      invariant invalid == CountObsolete(all, zone, table, i) && live == i - invalid
      invariant tombstones == CountTombstones(table, i) && deletedCount == CountDeleted(all, table, i)
    {
      var obsolete, deleted := EntryFlags(st, zone, table[i].rec);
      if !table[i].rec.valid {
        tombstones := tombstones + 1;
      }
      if deleted {
        deletedCount := deletedCount + 1;
      }
      if obsolete {
        invalid := invalid + 1;
      } else {
        live := live + 1;
      }
      i := i + 1;
    }
    stats := SegmentStats(live, invalid, tombstones, deletedCount,
                          if |table| > 0 then Div(invalid * 1000, |table|) else 0);
  }

  lemma {:induction false} LevelRecordsSame(st: Store, segs: seq<Segment>, n: nat)
    requires n <= |st.unsorted| == |st.sorted|
    ensures LevelRecords(st.(segs := segs), n) == LevelRecords(st, n)
  {
    if n > 0 { LevelRecordsSame(st, segs, n - 1); }
  }

  lemma AllRecordsSame(st: Store, segs: seq<Segment>)
    requires |st.unsorted| == |st.sorted| && SameButStats(segs, st.segs)
    ensures AllRecords(st.(segs := segs)) == AllRecords(st)
  {
    LevelRecordsSame(st, segs, |st.unsorted|);
    SameRecords(segs, st.segs, 0, |segs|);
  }

  /** `segs` is `st.segs` with the statistics of the first `n` segments recalculated. */
  ghost predicate RecalculatedTo(st: Store, zone: ZoneMap, segs: seq<Segment>, n: nat)
    requires |st.unsorted| == |st.sorted|
  {
    |segs| == |st.segs| && forall i :: 0 <= i < |segs| ==>
      segs[i] == if i < n then WithStats(AllRecords(st), zone, st.segs[i]) else st.segs[i]
  }

  lemma PartlyRecalculated(st: Store, zone: ZoneMap, segs: seq<Segment>, n: nat)
    requires StoreOk(st) && RecalculatedTo(st, zone, segs, n)
    ensures StoreOk(st.(segs := segs)) && AllRecords(st.(segs := segs)) == AllRecords(st)
  {
    hide StatsOf, SegmentOk, AllRecords, ScoreOfStats;
    assert SameButStats(segs, st.segs);
    AllRecordsSame(st, segs);
    SameStoreOk(st, segs);
  }

  /** imr_lsm_recalculate_segment_invalid_stats_locked: statistics are replaced in place while the
      remaining segments are still being searched. */
  method Recalculate(st: Store, zone: ZoneMap) returns (segs: seq<Segment>)
    requires StoreOk(st)
    ensures segs == Recalculated(AllRecords(st), zone, st.segs)
  {
    hide StoreOk, StatsOf, AllRecords;
    assert |st.unsorted| == |st.sorted| by { StoreLengths(st); }
    segs := st.segs;
    var i := 0;
    while i < |segs|
      invariant i <= |segs|
      invariant RecalculatedTo(st, zone, segs, i)
    {
      PartlyRecalculated(st, zone, segs, i);
      if segs[i].retired {
        segs := segs[i := segs[i].(score := 0)];
      } else {
        var stats := RecalculateSegment(st.(segs := segs), zone, segs[i].table);
        segs := segs[i := segs[i].(stats := stats, score := ScoreOfStats(stats))];
      }
      i := i + 1;
    }
    assert segs == Recalculated(AllRecords(st), zone, st.segs);
  }

  lemma StoreLengths(st: Store)
    requires StoreOk(st)
    ensures |st.unsorted| == |st.sorted| == LEVELS
  {
  }

  /** imr_lsm_update_segment_compaction_selection_locked. */
  method SelectCandidate(segs: seq<Segment>, policy: Policy) returns (cand: Candidate)
    ensures cand == CandidateOf(segs, policy)
  {
    hide FinalScore, Beats;
    var best, i := -1, 0;
    while i < |segs|
      invariant i <= |segs|
      invariant best == Select(segs, i, policy)
    {
      if segs[i].score > 0 && (best == -1 || Beats(segs[i], segs[best], policy)) {
        best := i;
      }
      i := i + 1;
    }
    cand := if best < 0 then Candidate(0, 0) else Candidate(segs[best].id, segs[best].score);
  }

  /** imr_lsm_selected_segment_compaction_candidate_locked. */
  method FindSelected(segs: seq<Segment>, cand: Candidate) returns (at: int)
    ensures at == Selected(segs, cand, |segs|)
  {
    if cand.score == 0 {
      return -1;
    }
    var i := 0;
    while i < |segs|
      invariant i <= |segs|
      invariant Selected(segs, cand, i) == -1
    {
      if !segs[i].retired && segs[i].id == cand.id {
        SelectedStays(segs, cand, i + 1, |segs|);
        return i;
      }
      i := i + 1;
    }
    return -1;
  }

  lemma {:induction false} SelectedStays(segs: seq<Segment>, cand: Candidate, m: nat, n: nat)
    requires m <= n <= |segs| && Selected(segs, cand, m) >= 0
    ensures Selected(segs, cand, n) == Selected(segs, cand, m)
    decreases n
  {
    if m < n { SelectedStays(segs, cand, m, n - 1); }
  }

  /** The filter loop of imr_lsm_compact_selected_segment_locked. */
  method KeepLoop(st: Store, zone: ZoneMap, table: seq<Entry>) returns (kept: seq<Record>)
    requires StoreOk(st)
    ensures kept == KeptOf(AllRecords(st), zone, Recs(table))
  {
    hide StoreOk, AllRecords, Keeps;
    StoreLengths(st);
    ghost var all := AllRecords(st);
    var rs := Recs(table);
    kept := [];
    var i := 0;
    while i < |rs|
      invariant i <= |rs|
      invariant kept == KeptOf(all, zone, rs[..i])
    {
      assert rs[..i + 1][..i] == rs[..i];
      var keep := ShouldKeep(st, zone, rs[i]);
      if keep {
        kept := kept + [rs[i]];
      }
      i := i + 1;
    }
    assert rs[..i] == rs;
  }

  method ShouldKeep(st: Store, zone: ZoneMap, r: Record) returns (keep: bool)
    requires StoreOk(st)
    ensures keep == Keeps(AllRecords(st), zone, r)
  {
    hide StoreOk, Fold;
    var newer := ScanAll(st, r.key, Best(false, r.ts, false, 0));
    if newer.found {
      return false;
    }
    if r.valid || r.key in zone {
      return true;
    }
    keep := FindOlderValid(st, r.key, r.ts);
  }
}
