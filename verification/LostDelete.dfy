/** A run after which a deleted key answers with the timestamp of a delete before the last one: segment
    compaction drops the last delete and leaves the one before. */
module LostDelete {
  import opened Types
  import opened Tables
  import opened BloomFilter
  import opened Builder
  import opened Scan
  import opened DynamicLevels
  import opened ReadTree
  import opened Layout
  import opened Placement
  import opened Obsolescence
  import opened Commit
  import opened Spec
  import opened Shape
  import opened History
  import opened ZoneSound
  import opened Runs
  import opened Timestamps
  import opened Collision

  function Tomb(ts: nat): Record { Record(0, 0, 0, false, ts) }

  /** An active segment at L6 that holds one delete of key 0. */
  ghost predicate Grave(seg: Segment, id: nat, ts: nat, hits: nat) {
    && !seg.retired && seg.id == id && seg.level == MAX_LEVEL && seg.zone == 0 && seg.hits == hits
    && seg.table == [Entry(Tomb(ts), UNMAPPED)] && seg.maxTs == ts
    && seg.window == WindowOf(0, 0, 0)
    && seg.output == Range(id * BLOCK_SECTORS, id * BLOCK_SECTORS + BLOCK_SECTORS - 1)
  }

  lemma NewGrave(segs: seq<Segment>, id: nat, ts: nat, bitsPerKey: nat)
    requires id == |segs| <= 1 && (segs != [] ==> Grave(segs[0], 0, 1, segs[0].hits))
    ensures Grave(NewSegment(segs, id, MAX_LEVEL, Bottom, [Tomb(ts)], bitsPerKey), id, ts, 0)
  {
    hide BuildFilter, FirstFit, WindowOf;
    var recs := [Tomb(ts)];
    UpsertAllAscending(recs);
    assert recs[..0] == [];
    assert Summarize([]) == Summary(0, 0, 0, 0, 0, 0);
    assert Summarize(recs) == Summary(1, 0, 0, 0, ts, ts);
    FreeOutput(segs);
  }

  lemma FreeOutput(segs: seq<Segment>)
    requires |segs| <= 1 && (segs != [] ==> Grave(segs[0], 0, 1, segs[0].hits))
    ensures var at := |segs| * BLOCK_SECTORS;
            FirstFit(segs, WindowOf(0, 0, 0), BLOCK_SECTORS) == Range(at, at + BLOCK_SECTORS - 1)
  {
    hide LeastFit;
    var w := WindowOf(0, 0, 0);
    assert w.Range? && w.first == 0 && w.last == BlockSector(0, TOP_TRACK_SIZE - 1) + BLOCK_SECTORS - 1;
    FirstFitFacts(segs, w, BLOCK_SECTORS);
    assert Fits(segs, w, BLOCK_SECTORS, |segs| * BLOCK_SECTORS);
    if segs != [] {
      assert Hits(segs[0], 0, 7);
    }
  }

  // ---------------------------------------------------------------- the store while keys die

  ghost predicate Graves(segs: seq<Segment>, n: nat, hits: nat) {
    && |segs| == n
    && (n > 0 ==> Grave(segs[0], 0, 1, hits))
    && (n > 1 ==> Grave(segs[1], 1, 2, 0))
  }

  /** `n` deletes of key 0 were recorded, and `m` of them have segments. */
  ghost predicate Deleted(s: State, n: nat, m: nat, hits: nat) {
    && s.threshold == 1 && s.ts == n && s.nextId == m && s.zone == map[] && s.zoneFill == [0]
    && Graves(s.store.segs, m, hits)
  }

  ghost predicate Lists(st: Store, unsorted: seq<Record>, sorted: seq<Record>) {
    && Levels(st)
    && (forall l :: 0 <= l < MAX_LEVEL ==> st.unsorted[l] == [] && st.sorted[l] == [])
    && st.unsorted[MAX_LEVEL] == unsorted && st.sorted[MAX_LEVEL] == sorted
  }

  /** All recorded deletes have segments, and the last one is the sorted list. */
  ghost predicate Buried(s: State, n: nat, hits: nat) { Lists(s.store, [], [Tomb(n)]) && Deleted(s, n, n, hits) }

  lemma BuriedPlan(s: State, n: nat, hits: nat)
    requires Buried(s, n, hits)
    ensures var p := Calc(s).plan;
            && |p.target| == LEVELS && p.base == MAX_LEVEL && p.active == MAX_LEVEL && Capacity(p, 1, MAX_LEVEL) == 2
            && PickOf(p, 1, Totals(s.store)) == LEVELS
  {
    var totals := Totals(s.store);
    assert totals[MAX_LEVEL] == 1 && forall l :: 0 <= l < MAX_LEVEL ==> totals[l] == 0;
    OneTotal(totals);
    var p := Calc(s).plan;
    forall l | 0 <= l < MAX_LEVEL ensures ScoreOf(p, 1, totals, l) == 0 {
    }
    PickFacts(p, 1, totals);
  }

  lemma OneTotal(totals: seq<nat>)
    requires |totals| == LEVELS && totals[MAX_LEVEL] == 1 && forall l :: 0 <= l < MAX_LEVEL ==> totals[l] == 0
    ensures var p := Plan(totals, 1);
            |p.target| == LEVELS && p.base == MAX_LEVEL && p.active == MAX_LEVEL && p.target[MAX_LEVEL] == 2
  {
    FirstNonEmptyFacts(totals, LEVELS);
    FirstNonEmptyFacts(totals, MAX_LEVEL);
    assert Half(1, 0) == 1 && Pow2(0) == 1;
  }

  lemma TwoTotal(totals: seq<nat>)
    requires |totals| == LEVELS && totals[MAX_LEVEL] == 2 && forall l :: 0 <= l < MAX_LEVEL ==> totals[l] == 0
    ensures Plan(totals, 1).base == MAX_LEVEL - 1
  {
    FirstNonEmptyFacts(totals, LEVELS);
    FirstNonEmptyFacts(totals, MAX_LEVEL);
    assert Half(2, 0) == 2 && Half(2, 1) == 1;
  }

  lemma RecalcBuried(s: State, n: nat, hits: nat)
    requires Buried(s, n, hits)
    ensures Buried(Recalc(s), n, hits)
  {
    hide StatsOf, AllRecords, ScoreOfStats, CandidateOf, Plan;
  }

  lemma MoveBuries(t: State, n: nat, hits: nat)
    requires 1 <= n <= 2 && Lists(t.store, [Tomb(n)], if n == 1 then [] else [Tomb(1)])
    requires Deleted(t, n, n - 1, hits) && (n == 1 ==> hits == 0)
    ensures Buried(MoveLevel(t, MAX_LEVEL, MAX_LEVEL), n, hits)
  {
    hide NewSegment, Recalc, Plan, Grave, UpsertAll;
    var seg := NewSegment(t.store.segs, n - 1, MAX_LEVEL, Bottom, [Tomb(n)], t.bitsPerKey);
    if n == 2 { GraveHits(t.store.segs, hits); }
    NewGrave(t.store.segs, n - 1, n, t.bitsPerKey);
    assert Moved(t.store, MAX_LEVEL, MAX_LEVEL) == [Tomb(n)] + [] == [Tomb(n)];
    Replacing(n);
    var moved := t.(store := MoveLists(t.store, MAX_LEVEL, MAX_LEVEL));
    var grown := moved.(store := moved.store.(segs := t.store.segs + [seg]), nextId := n);
    assert Buried(grown, n, hits);
    RecalcBuried(grown, n, hits);
    assert MoveLevel(t, MAX_LEVEL, MAX_LEVEL) == Calc(Recalc(grown));
  }

  lemma GraveHits(segs: seq<Segment>, hits: nat)
    requires Graves(segs, 1, hits)
    ensures segs != [] && Grave(segs[0], 0, 1, segs[0].hits)
  {
  }

  lemma Replacing(n: nat)
    requires 1 <= n <= 2
    ensures UpsertAll(if n == 1 then [] else [Tomb(1)], [Tomb(n)]) == [Tomb(n)]
  {
    assert [Tomb(n)][..0] == [];
  }

  lemma Settled(u: State, n: nat, hits: nat)
    requires Buried(u, n, hits)
    ensures Rounds(u, LEVELS) == Calc(u) && Buried(Calc(u), n, hits)
  {
    hide Plan, PickOf, Capacity;
    BuriedPlan(u, n, hits);
  }

  // ---------------------------------------------------------------- two deletes

  lemma FirstDelete(s: State)
    requires EmptyAtOne(s) && s.zone == map[] && s.zoneFill == [0]
    ensures Buried(Delete(s, 0), 1, 0)
  {
    hide Plan, PickOf, Capacity, Update, Rounds, MoveLevel, Recalc, Remove, WindowOf;
    EmptyPlan(s);
    CalcKeeps(s);
    var s1 := Ready(s);
    assert s1 == Calc(s);
    var s2 := s1.(cache := Remove(s1.cache, 0));
    var t := AppendRecord(s2, MAX_LEVEL, 0, 0, 0, false);
    assert t.store.unsorted[MAX_LEVEL] == [Tomb(1)] + [] == [Tomb(1)];
    MoveBuries(t, 1, 0);
    var u := CompactLevel(t, MAX_LEVEL);
    assert u == MoveLevel(t, MAX_LEVEL, MAX_LEVEL);
    AfterBurial(u, 1, 0);
  }

  lemma AfterBurial(u: State, n: nat, hits: nat)
    requires Buried(u, n, hits)
    ensures Buried(Recalc(RunCompactions(u)), n, hits)
  {
    hide Plan, PickOf, Capacity, Recalc, WindowOf;
    BuriedPlan(u, n, hits);
    var c := Calc(u);
    assert FlushBottom(c) == c;
    Settled(c, n, hits);
    RecalcBuried(Calc(c), n, hits);
  }

  lemma SecondDelete(s: State)
    requires Buried(s, 1, 1)
    ensures Buried(Delete(s, 0), 2, 1)
  {
    hide Plan, PickOf, Capacity, Update, Rounds, MoveLevel, Recalc, Remove, WindowOf;
    BuriedPlan(s, 1, 1);
    var s1 := Ready(s);
    assert s1 == Calc(s);
    var s2 := s1.(cache := Remove(s1.cache, 0));
    var t := AppendRecord(s2, MAX_LEVEL, 0, 0, 0, false);
    assert t.store.unsorted[MAX_LEVEL] == [Tomb(2)] + [] == [Tomb(2)];
    SecondFlush(t);
    MoveBuries(Calc(t), 2, 1);
    var u := MoveLevel(Calc(t), MAX_LEVEL, MAX_LEVEL);
    Settled(u, 2, 1);
    RecalcBuried(Calc(u), 2, 1);
  }

  lemma SecondFlush(t: State)
    requires Lists(t.store, [Tomb(2)], [Tomb(1)]) && t.threshold == 1
    ensures FlushBottom(Calc(t)) == MoveLevel(Calc(t), MAX_LEVEL, MAX_LEVEL)
  {
    hide Plan, MoveLevel;
    var totals := Totals(t.store);
    TwoTotal(totals);
  }

  // ---------------------------------------------------------------- the read between them

  lemma ReadCounts(s: State)
    requires Buried(s, 1, 0) && 0 !in s.cache.nodes
    ensures Buried(Read(s, 0), 1, 1)
  {
    hide Fold, ReadRecords, Update, WindowOf;
    assert s.store.segs[0].table[0].rec.key == 0;
  }

  // ---------------------------------------------------------------- segment compaction

  /** Both deletes are obsolete; the read hit makes the newer one's segment the candidate. */
  lemma NewerSelected(s: State)
    requires Buried(s, 2, 1)
    ensures var s1 := Recalc(s); Buried(s1, 2, 1) && SelectedAt(s1) == 1 && KeptBy(s1, 1) == []
  {
    hide AllRecords, Plan, WindowOf, Keeps, Obsolete, FinalScore, Beats, ScoreOfStats, StatsOf;
    RecalcBuried(s, 2, 1);
    var all, segs := AllRecords(s.store), Recalc(s).store.segs;
    NoneKept(s, 1);
    NoneKept(s, 2);
    GraveStats(all, s.store.segs[0], 1);
    GraveStats(all, s.store.segs[1], 2);
    Preferred(segs[0], segs[1], Policy(2, [0]));
    SecondSelected(segs, Policy(2, [0]));
    NoneKept(Recalc(s), 2);
    var rs := Recs(segs[1].table);
    assert rs == [Tomb(2)] && rs[..0] == [];
    assert KeptOf(AllRecords(Recalc(s).store), map[], rs[..0]) == [];
  }

  lemma SecondSelected(segs: seq<Segment>, policy: Policy)
    requires |segs| == 2 && segs[0].score > 0 && segs[1].score > 0 && Beats(segs[1], segs[0], policy)
    requires segs[0].id != segs[1].id && !segs[1].retired
    ensures Selected(segs, CandidateOf(segs, policy), 2) == 1
  {
    hide Beats;
    assert Select(segs, 0, policy) == -1;
    assert Select(segs, 1, policy) == 0;
    assert Select(segs, 2, policy) == 1;
    assert Selected(segs, CandidateOf(segs, policy), 0) == -1;
    assert Selected(segs, CandidateOf(segs, policy), 1) == -1;
  }

  lemma GraveStats(all: seq<Record>, seg: Segment, ts: nat)
    requires seg.table == [Entry(Tomb(ts), UNMAPPED)] && Obsolete(all, map[], Tomb(ts)) && !seg.retired
    ensures WithStats(all, map[], seg).score == 1500 && WithStats(all, map[], seg).stats.live == 0
  {
    hide Obsolete, Newer;
    assert CountObsolete(all, map[], seg.table, 1) == 1 && CountTombstones(seg.table, 1) == 1;
    assert CountDeleted(all, seg.table, 1) == 0;
  }

  lemma Preferred(a: Segment, b: Segment, policy: Policy)
    requires Grave(a, 0, 1, 1) && Grave(b, 1, 2, 0) && a.score == b.score && a.stats.live == b.stats.live == 0
    requires policy.clock == 2
    ensures Beats(b, a, policy)
  {
    hide WindowOf;
  }

  lemma NoneKept(s: State, ts: nat)
    requires Buried(s, 2, 1) && 1 <= ts <= 2
    ensures Obsolete(AllRecords(s.store), map[], Tomb(ts)) && !Keeps(AllRecords(s.store), map[], Tomb(ts))
  {
    hide Newer, WindowOf, AllRecords;
    KeepsIsNotObsolete(AllRecords(s.store), map[], Tomb(ts));
    forall r | r in AllRecords(s.store) ensures !r.valid {
      AllDead(s, r);
    }
  }

  lemma AllDead(s: State, r: Record)
    requires Buried(s, 2, 1) && r in AllRecords(s.store)
    ensures r == Tomb(1) || r == Tomb(2)
  {
    hide WindowOf, AllRecords;
    AllRecordsMembers(s.store, r);
  }

  lemma NewerRetired(s: State, io: Io)
    requires Buried(s, 2, 1)
    ensures var r := CompactSelected(s, io);
            && Lists(r.store, [], [Tomb(2)]) && |r.store.segs| == 2
            && Grave(r.store.segs[0], 0, 1, 1) && r.store.segs[1].retired && r.store.segs[1].level == MAX_LEVEL
  {
    hide Plan, WindowOf, StatsOf, AllRecords, ScoreOfStats, CandidateOf, KeptBy, SelectedAt, CommitOutput;
    NewerSelected(s);
    var s1 := Recalc(s);
    assert AppendSegment(s1, MAX_LEVEL, s1.store.segs[1].track, []) == s1;
    assert CompactSelected(s, io) == Recalc(Retire(s1, 1));
  }

  // ---------------------------------------------------------------- the run

  /** Two deletes of a key with a read behind the read tree between them, then a segment compaction. */
  function Losing(io: Io): seq<Step> {
    [DoThreshold(1)] + [DoDelete(0)] + [DoClearTree] + [DoRead(0)] + [DoDelete(0)] + [DoCompactSegment(io)] +
      [DoClearTree]
  }

  lemma TwoDeletes()
    ensures var s := Run(1, [DoThreshold(1)] + [DoDelete(0)] + [DoClearTree] + [DoRead(0)] + [DoDelete(0)]);
            Buried(s, 2, 1) && s.log == [Op(0, false, 0), Op(0, false, 0)]
  {
    hide Run, Buried, Delete, Read, EmptyAtOne;
    var one := [DoThreshold(1)];
    AtOne(0);
    assert Filling(0, 0) == one;
    RunSnoc(1, one, DoDelete(0));
    RunSnoc(1, one + [DoDelete(0)], DoClearTree);
    RunSnoc(1, one + [DoDelete(0)] + [DoClearTree], DoRead(0));
    RunSnoc(1, one + [DoDelete(0)] + [DoClearTree] + [DoRead(0)], DoDelete(0));
    var s0 := Run(1, one);
    FirstDelete(s0);
    var s1 := Delete(s0, 0);
    ClearedBuried(s1, 1, 0);
    ReadCounts(ClearTree(s1));
    SecondDelete(Read(ClearTree(s1), 0));
    DeletesLogged(s0);
  }

  lemma ClearedBuried(s: State, n: nat, hits: nat)
    requires Buried(s, n, hits)
    ensures Buried(ClearTree(s), n, hits) && 0 !in ClearTree(s).cache.nodes
  {
    hide WindowOf;
  }

  lemma DeletesLogged(s0: State)
    requires s0 == Run(1, [DoThreshold(1)]) && s0.zoneFill == [0] && Levels(s0.store)
    ensures Levels(Delete(s0, 0).store)
    ensures var r := Delete(Read(ClearTree(Delete(s0, 0)), 0), 0); r.log == [Op(0, false, 0), Op(0, false, 0)]
  {
    hide Run, Delete, Read, Sound;
    RunSound(1, [DoThreshold(1)]);
    DeleteStep(s0, 0);
    var s1 := Delete(s0, 0);
    QuiescentStep(s1, DoClearTree);
    QuiescentStep(ClearTree(s1), DoRead(0));
    DeleteStep(Read(ClearTree(s1), 0), 0);
    InitLog();
  }

  lemma InitLog()
    ensures Run(1, [DoThreshold(1)]).log == []
  {
    hide Plan;
    assert [DoThreshold(1)] == [] + [DoThreshold(1)];
    RunSnoc(1, [], DoThreshold(1));
  }

  lemma OlderAnswers(s: State)
    requires Lists(s.store, [], [Tomb(2)]) && |s.store.segs| == 2
    requires Grave(s.store.segs[0], 0, 1, 1) && s.store.segs[1].retired && s.store.segs[1].level == MAX_LEVEL
    ensures SlowBest(s, 0) == Best(true, 1, false, 0) && LatestBest(s, 0) == Best(true, 2, false, 0)
  {
    hide Fold, ReadRecords, AllRecords, WindowOf;
    var rs, all := ReadRecords(s.store), AllRecords(s.store);
    assert s.store.segs[0].table[0].rec == Tomb(1);
    forall r ensures (r in rs <==> r == Tomb(1)) && (r in all <==> r == Tomb(1) || r == Tomb(2)) {
      ReadRecordsMembers(s.store, r);
      AllRecordsMembers(s.store, r);
    }
    FoldIsNewest(NONE, rs, 0);
    FoldIsNewest(NONE, all, 0);
    assert Tomb(1) in rs && Tomb(2) in all;
    var i :| 0 <= i < |rs| && IsRecord(rs[i], 0, SlowBest(s, 0));
    var j :| 0 <= j < |all| && IsRecord(all[j], 0, LatestBest(s, 0));
    assert rs[i] in rs && all[j] in all;
  }

  /** After this run the key's last delete has timestamp 2, and every read behind the tree answers with
      timestamp 1 and leaves that in the tree. */
  lemma DroppedDeleteLeavesOlder(io: Io)
    ensures var s := Run(1, Losing(io));
            && Newest(s.log, 0) == 2 && LatestBest(s, 0) == Best(true, 2, false, 0)
            && SlowBest(s, 0) == Best(true, 1, false, 0) && !Sees(s.store, 0, 2)
    ensures var c := Run(1, Losing(io) + [DoRead(0)]).cache; 0 in c.nodes && c.nodes[0].ts == 1
  {
    hide Run, Buried, CompactSelected, Read, Sound, SlowBest, LatestBest, Sees, Newest;
    var front := [DoThreshold(1)] + [DoDelete(0)] + [DoClearTree] + [DoRead(0)] + [DoDelete(0)];
    TwoDeletes();
    RunSnoc(1, front, DoCompactSegment(io));
    RunSnoc(1, front + [DoCompactSegment(io)], DoClearTree);
    RunSnoc(1, Losing(io), DoRead(0));
    var s2 := Run(1, front);
    NewerRetired(s2, io);
    var s := Run(1, Losing(io));
    OlderAnswers(s);
    RunSound(1, front);
    QuiescentStep(s2, DoCompactSegment(io));
    QuiescentStep(CompactSelected(s2, io), DoClearTree);
    assert s.log == [Op(0, false, 0)] + [Op(0, false, 0)];
    NewestAppend([Op(0, false, 0)], Op(0, false, 0), 0);
    ReadTimestamp(s, 0);
    assert 0 !in s.cache.nodes by { Uncached(CompactSelected(s2, io)); }
    CachedTimestamp(s, 0);
  }

  lemma Uncached(s: State)
    ensures 0 !in ClearTree(s).cache.nodes
  {
  }
}
