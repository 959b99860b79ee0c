/** How the store evolves when no output is copied or committed: segments only get new statistics or new
    neighbours, new ones are untouched by copies and commits, and no record appears from nowhere. */
module Evolution {
  import opened Types
  import opened Tables
  import opened Scan
  import opened DynamicLevels
  import opened ReadTree
  import opened Obsolescence
  import opened Spec
  import opened Outputs
  import opened Shape
  import opened SoundSteps

  ghost predicate AllUntouched(seg: Segment) {
    forall j :: 0 <= j < |seg.table| ==> Untouched(seg.table[j])
  }

  ghost predicate Grown(segs: seq<Segment>, later: seq<Segment>) {
    && |segs| <= |later|
    && (forall i :: 0 <= i < |segs| ==> SameSegment(later[i], segs[i]))
    && (forall i :: |segs| <= i < |later| ==> AllUntouched(later[i]))
  }

  ghost predicate NothingNew(st: Store, later: Store) { forall r :: Stored(later, r) ==> Stored(st, r) }

  ghost predicate Evolves(st: Store, later: Store) { Grown(st.segs, later.segs) && NothingNew(st, later) }

  lemma EvolvesRefl(st: Store)
    ensures Evolves(st, st)
  {
    hide Stored;
  }

  lemma EvolvesTrans(a: Store, b: Store, c: Store)
    requires Evolves(a, b) && Evolves(b, c)
    ensures Evolves(a, c)
  {
    hide Stored;
    forall i | |a.segs| <= i < |c.segs| ensures AllUntouched(c.segs[i]) {
      if i < |b.segs| { assert SameSegment(c.segs[i], b.segs[i]) && AllUntouched(b.segs[i]); }
    }
  }

  lemma StatsEvolve(st: Store, segs: seq<Segment>)
    requires SameButStats(segs, st.segs)
    ensures Evolves(st, st.(segs := segs))
  {
    hide Stored;
    forall r ensures Stored(st.(segs := segs), r) == Stored(st, r) {
      SameStored(st, segs, r);
    }
  }

  // ---------------------------------------------------------------- level steps

  lemma CalcEvolves(s: State)
    requires Levels(s.store)
    ensures Evolves(s.store, Calc(s).store)
  {
    hide Evolves;
    CalcKeeps(s);
    EvolvesRefl(s.store);
  }

  lemma RecalcEvolves(s: State)
    requires Levels(s.store)
    ensures Evolves(s.store, Recalc(s).store)
  {
    hide Evolves, AllRecords, Recalculated, SameButStats;
    RecalculatedSame(AllRecords(s.store), s.zone, s.store.segs);
    StatsEvolve(s.store, Recalc(s).store.segs);
  }

  lemma MoveStoreSame(s: State, level: nat, dst: nat)
    requires Levels(s.store) && level < LEVELS && dst < LEVELS && Moved(s.store, level, dst) != []
    ensures var r := MoveLevel(s, level, dst);
            var seg := NewSegment(s.store.segs, s.nextId, dst, Bottom, Moved(s.store, level, dst), s.bitsPerKey);
            var later := MoveLists(s.store, level, dst).(segs := s.store.segs + [seg]);
            SameButStats(r.store.segs, later.segs) && r.store == later.(segs := r.store.segs)
  {
    hide NewSegment, StatsOf, AllRecords, ScoreOfStats, UpsertAll, Plan;
  }

  lemma MoveLevelEvolves(s: State, level: nat, dst: nat)
    requires ShapeOk(s) && level < LEVELS && dst < LEVELS && Moved(s.store, level, dst) != []
    ensures Levels(s.store) && Evolves(s.store, MoveLevel(s, level, dst).store)
  {
    hide StoreOk, ListsTimed, CacheOk, OutputsOk, NewSegment, SegmentOk, MoveLists, MoveLevel, Timed, Evolves, Stored,
      SameButStats, Moved;
    var moved := Moved(s.store, level, dst);
    var seg := NewSegment(s.store.segs, s.nextId, dst, Bottom, moved, s.bitsPerKey);
    var later := MoveLists(s.store, level, dst).(segs := s.store.segs + [seg]);
    MovedTimed(s.store, level, dst);
    NewSegmentOk(s.store.segs, s.nextId, dst, Bottom, moved, s.bitsPerKey);
    assert Ascending(s.store.sorted[dst]) by { SortedAscending(s.store, dst); }
    forall r | Stored(later, r) ensures Stored(s.store, r) {
      MoveStores(s.store, level, dst, seg, r);
    }
    NewUntouched(s.store.segs, s.nextId, dst, Bottom, moved, s.bitsPerKey);
    assert Evolves(s.store, later) by { Added(s.store, later, seg); }
    MoveStoreSame(s, level, dst);
    StatsEvolve(later, MoveLevel(s, level, dst).store.segs);
    EvolvesTrans(s.store, later, MoveLevel(s, level, dst).store);
  }

  lemma Added(st: Store, later: Store, seg: Segment)
    requires later.segs == st.segs + [seg] && AllUntouched(seg) && NothingNew(st, later)
    ensures Evolves(st, later)
  {
    hide NothingNew, AllUntouched;
  }

  lemma NewUntouched(segs: seq<Segment>, id: nat, level: nat, track: Track, recs: seq<Record>, bitsPerKey: nat)
    requires recs != []
    ensures AllUntouched(NewSegment(segs, id, level, track, recs, bitsPerKey))
  {
    hide NewSegment, MappingOk, Apart;
    NewSegmentMapping(segs, id, level, track, recs, bitsPerKey);
  }

  lemma FlushEvolves(s: State)
    requires ShapeOk(s)
    ensures Levels(s.store) && Evolves(s.store, FlushBottom(s).store)
  {
    hide ShapeOk, Evolves, MoveLevel;
    ShapeLevels(s);
    EvolvesRefl(s.store);
    if s.plan.base < MAX_LEVEL && s.store.unsorted[MAX_LEVEL] != [] {
      MoveLevelEvolves(s, MAX_LEVEL, MAX_LEVEL);
    }
  }

  lemma ReadyEvolves(s: State)
    requires ShapeOk(s)
    ensures Levels(s.store) && Evolves(s.store, Ready(s).store)
  {
    hide ShapeOk, Evolves, FlushBottom, Calc;
    ShapeLevels(s);
    CalcShape(s);
    CalcEvolves(s);
    FlushEvolves(Calc(s));
    EvolvesTrans(s.store, Calc(s).store, Ready(s).store);
  }

  lemma CompactLevelEvolves(s: State, level: nat)
    requires ShapeOk(s) && level < LEVELS
    ensures Levels(s.store) && Evolves(s.store, CompactLevel(s, level).store)
  {
    hide ShapeOk, Evolves, MoveLevel, Calc;
    ShapeLevels(s);
    CalcShape(s);
    CalcKeeps(s);
    EvolvesRefl(s.store);
    var s1 := if level < MAX_LEVEL then Calc(s) else s;
    var dst := Min(DestinationOf(s1.plan, level), MAX_LEVEL);
    if Moved(s.store, level, dst) != [] {
      MoveLevelEvolves(s1, level, dst);
    }
  }

  lemma {:induction false} RoundsEvolve(s: State, n: nat)
    requires ShapeOk(s)
    ensures Levels(s.store) && Evolves(s.store, Rounds(s, n).store)
    decreases n
  {
    hide ShapeOk, Evolves, CompactLevel, Calc, PickOf;
    ShapeLevels(s);
    CalcShape(s);
    CalcEvolves(s);
    EvolvesRefl(s.store);
    var c := Calc(s);
    ShapeLevels(c);
    var level := PickOf(c.plan, c.threshold, Totals(c.store));
    if n > 0 && level < LEVELS {
      CompactLevelShape(c, level);
      CompactLevelEvolves(c, level);
      RoundsEvolve(CompactLevel(c, level), n - 1);
      EvolvesTrans(s.store, c.store, CompactLevel(c, level).store);
      EvolvesTrans(s.store, CompactLevel(c, level).store, Rounds(s, n).store);
    }
  }

  // ---------------------------------------------------------------- operations

  /** The bookkeeping that follows a new record. */
  lemma AppendEvolves(s: State, level: nat, key: nat, pba: nat, zone: nat, valid: bool)
    requires ShapeOk(s) && level < LEVELS
    ensures Levels(s.store) && |s.plan.target| == LEVELS
    ensures var t, r := AppendRecord(s, level, key, pba, zone, valid), Append(s, level, key, pba, zone, valid);
            Evolves(t.store, r.store) && r.cache == t.cache && ShapeOk(r)
  {
    hide ShapeOk, Evolves, CompactLevel, Recalc, Rounds, AppendRecord, FlushBottom, Calc;
    ShapeLevels(s);
    AppendRecordShape(s, level, key, pba, zone, valid);
    var t, r := AppendRecord(s, level, key, pba, zone, valid), Append(s, level, key, pba, zone, valid);
    AppendRecordFields(s, level, key, pba, zone, valid);
    CompactLevelShape(t, level);
    CompactLevelEvolves(t, level);
    EvolvesRefl(t.store);
    var s2 := if |t.store.unsorted[level]| >= Capacity(t.plan, t.threshold, level) then CompactLevel(t, level) else t;
    ReadyShape(s2);
    ReadyEvolves(s2);
    var s3 := FlushBottom(Calc(s2));
    RoundsShape(s3, LEVELS);
    RoundsEvolve(s3, LEVELS);
    RecalcShape(RunCompactions(s2));
    RecalcEvolves(RunCompactions(s2));
    EvolvesTrans(t.store, s2.store, s3.store);
    EvolvesTrans(t.store, s3.store, RunCompactions(s2).store);
    EvolvesTrans(t.store, RunCompactions(s2).store, r.store);
  }

  /** What an operation on a key leaves: the state before it, with at most the new record added. */
  ghost predicate Gained(s: State, r: State, x: Record) {
    && Grown(s.store.segs, r.store.segs)
    && (forall y :: Stored(r.store, y) ==> y == x || Stored(s.store, y))
    && (forall k :: k in r.cache.nodes ==>
          (k == x.key && r.cache.nodes[k] == CacheNode(x.pba, x.valid, x.ts)) ||
          (k in s.cache.nodes && r.cache.nodes[k] == s.cache.nodes[k]))
  }

  lemma AppendGains(s: State, level: nat, key: nat, pba: nat, zone: nat, valid: bool)
    requires ShapeOk(s) && level < LEVELS
    ensures Levels(s.store) && |s.plan.target| == LEVELS
    ensures Gained(s, Append(s, level, key, pba, zone, valid), Record(key, pba, zone, valid, s.ts + 1))
  {
    hide ShapeOk, Append, AppendRecord, Stored, Update, Grown;
    AppendEvolves(s, level, key, pba, zone, valid);
    AppendRecordFields(s, level, key, pba, zone, valid);
    UpdateNodes(s.cache, key, CacheNode(pba, valid, s.ts + 1));
    var t, r, x := AppendRecord(s, level, key, pba, zone, valid), Append(s, level, key, pba, zone, valid),
      Record(key, pba, zone, valid, s.ts + 1);
    forall y | Stored(r.store, y) ensures y == x || Stored(s.store, y) {
      assert Stored(t.store, y);
      AppendStores(s, level, key, pba, zone, valid, y);
    }
  }

  lemma GainedAfter(s: State, t: State, r: State, x: Record)
    requires Evolves(s.store, t.store) && Gained(t, r, x)
    requires forall k :: k in t.cache.nodes ==> k in s.cache.nodes && t.cache.nodes[k] == s.cache.nodes[k]
    ensures Gained(s, r, x)
  {
    hide Stored;
    forall i | |s.store.segs| <= i < |r.store.segs| ensures AllUntouched(r.store.segs[i]) {
      if i < |t.store.segs| { assert SameSegment(r.store.segs[i], t.store.segs[i]) && AllUntouched(t.store.segs[i]); }
    }
  }

  lemma InsertGains(s: State, level: nat, key: nat, pba: nat, zone: nat)
    requires ShapeOk(s) && level < LEVELS
    ensures Levels(s.store) && Gained(s, InsertRecord(s, level, key, pba, zone), Record(key, pba, zone, true, s.ts + 1))
  {
    hide ShapeOk, Append, Ready, Gained, Evolves;
    ShapeLevels(s);
    ReadyShape(s);
    ReadyEvolves(s);
    var s1 := Ready(s);
    ShapeLevels(s1);
    var target := Min(if level == 0 then s1.plan.active else level, MAX_LEVEL);
    AppendGains(s1, target, key, pba, zone, true);
    GainedAfter(s, s1, Append(s1, target, key, pba, zone, true), Record(key, pba, zone, true, s.ts + 1));
  }

  lemma DeleteGains(s: State, key: nat)
    requires ShapeOk(s)
    ensures Levels(s.store) && Gained(s, DeleteRecord(s, key), Record(key, 0, 0, false, s.ts + 1))
  {
    hide ShapeOk, Append, Ready, Gained, Evolves;
    ShapeLevels(s);
    ReadyShape(s);
    ReadyEvolves(s);
    var s1 := Ready(s);
    CacheShape(s1, key, 0);
    var s2 := s1.(cache := Remove(s1.cache, key));
    ShapeLevels(s2);
    var target := Min(s1.plan.active, MAX_LEVEL);
    AppendGains(s2, target, key, 0, 0, false);
    GainedAfter(s, s2, Append(s2, target, key, 0, 0, false), Record(key, 0, 0, false, s.ts + 1));
  }
}
