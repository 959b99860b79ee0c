/** Which blocks hold the newest version of a key, and how operations change that: a block holds a version
    if a live record of it points there, or a copy of it that no commit has turned to yet is there. */
module Holdings {
  import opened Types
  import opened Scan
  import opened ReadTree
  import opened Layout
  import opened CopyJobs
  import opened Spec
  import opened Outputs
  import opened Shape
  import opened History
  import opened SoundSteps
  import opened Evolution

  ghost predicate HeldInStore(st: Store, key: nat, ts: nat, pba: nat) {
    exists r :: Stored(st, r) && IsVersion(r, key, ts, pba)
  }

  predicate IsVersion(r: Record, key: nat, ts: nat, pba: nat) {
    r.valid && r.key == key && r.ts == ts && r.pba == pba
  }

  predicate HeldInTree(cache: Cache, key: nat, ts: nat, pba: nat) {
    key in cache.nodes && cache.nodes[key] == CacheNode(pba, true, ts)
  }

  predicate IsCopy(e: Entry, key: nat, ts: nat, pba: nat) {
    && e.out.copied && !e.out.committed && e.out.outputPba == pba
    && e.rec.valid && e.rec.key == key && e.rec.ts == ts
  }

  ghost predicate HeldByCopy(segs: seq<Segment>, key: nat, ts: nat, pba: nat) {
    exists i, j :: 0 <= i < |segs| && 0 <= j < |segs[i].table| && !segs[i].retired &&
      IsCopy(segs[i].table[j], key, ts, pba)
  }

  ghost predicate Holds(s: State, key: nat, ts: nat, pba: nat) {
    HeldInStore(s.store, key, ts, pba) || HeldInTree(s.cache, key, ts, pba) || HeldByCopy(s.store.segs, key, ts, pba)
  }

  /** The block holds the newest version of a live key. */
  ghost predicate Held(s: State, key: nat, pba: nat) { Live(s.log, key) && Holds(s, key, Newest(s.log, key), pba) }

  /** The live keys are those with a payload, and every block that holds a key's newest version holds its
      payload. */
  ghost predicate Coherent(s: State, payloads: map<nat, nat>) {
    && (forall key :: key in payloads <==> Live(s.log, key))
    && (forall key, pba :: Held(s, key, pba) ==> ReadBlock(s.disk, pba) == payloads[key])
  }

  /** What a read is answered with holds the key. */
  lemma ReadsAreHeld(s: State, key: nat)
    requires Sound(s) && Live(s.log, key)
    ensures ReadResult(s, key).Valid? && Held(s, key, ReadResult(s, key).pba)
  {
    hide ShapeOk, AllLogged, AllCovered, Visible, Stored, CommittedAt, Newest, Live, ReadRecords;
    ReadIsCorrect(s, key);
    if key in s.cache.nodes {
      assert Cacheable(s.log, s.store.segs, key, s.cache.nodes[key]);
      assert HeldInTree(s.cache, key, Newest(s.log, key), ReadResult(s, key).pba);
    } else {
      SlowReadFinds(s, key);
      FoundIsHeld(s, key);
    }
  }

  /** The path behind the read tree answers with a stored record. */
  lemma FoundIsHeld(s: State, key: nat)
    requires Sound(s)
    ensures var b := SlowBest(s, key); b.found && b.valid ==> HeldInStore(s.store, key, b.ts, b.pba)
  {
    hide ShapeOk, AllLogged, AllCovered, CacheTrue, Visible, Stored, ReadRecords;
    var rs, b := ReadRecords(s.store), SlowBest(s, key);
    FoldIsNewest(NONE, rs, key);
    if b.found && b.valid {
      ReadSeesVisible(s);
      var i :| 0 <= i < |rs| && IsRecord(rs[i], key, b);
      assert rs[i] in rs;
      VisibleStored(s.store, rs[i]);
      assert IsVersion(rs[i], key, b.ts, b.pba);
    }
  }

  /** Timestamps of what is held have been taken. */
  lemma HeldBound(s: State, key: nat, ts: nat, pba: nat)
    requires Sound(s) && Holds(s, key, ts, pba)
    ensures 0 < ts <= |s.log|
  {
    hide ShapeOk, AllCovered, CommittedAt, Stored;
    if HeldInStore(s.store, key, ts, pba) {
      var r :| Stored(s.store, r) && IsVersion(r, key, ts, pba);
      assert Logged(s.log, s.store.segs, r);
    } else if HeldInTree(s.cache, key, ts, pba) {
      assert Cacheable(s.log, s.store.segs, key, s.cache.nodes[key]);
    } else {
      var i, j :| 0 <= i < |s.store.segs| && 0 <= j < |s.store.segs[i].table| && !s.store.segs[i].retired
                  && IsCopy(s.store.segs[i].table[j], key, ts, pba);
      EntryStored(s.store, i, j);
      assert Logged(s.log, s.store.segs, s.store.segs[i].table[j].rec);
    }
  }

  lemma EntryStored(st: Store, i: nat, j: nat)
    requires i < |st.segs| && !st.segs[i].retired && j < |st.segs[i].table|
    ensures Visible(st, st.segs[i].table[j].rec) && Stored(st, st.segs[i].table[j].rec)
  {
    assert InTable(st.segs[i], st.segs[i].table[j].rec);
    assert InActive(st.segs, st.segs[i].table[j].rec);
  }

  // ---------------------------------------------------------------- operations that hold nothing new

  ghost predicate HoldsNoMore(s: State, r: State) {
    forall key, ts, pba :: Holds(r, key, ts, pba) ==> Holds(s, key, ts, pba)
  }

  ghost predicate FewerNodes(cache: Cache, later: Cache) {
    forall k :: k in later.nodes ==> k in cache.nodes && later.nodes[k] == cache.nodes[k]
  }

  lemma NoMoreCoherent(s: State, r: State, payloads: map<nat, nat>)
    requires Coherent(s, payloads) && HoldsNoMore(s, r) && r.disk == s.disk
    requires forall k :: Newest(r.log, k) == Newest(s.log, k) && Live(r.log, k) == Live(s.log, k)
    ensures Coherent(r, payloads)
  {
    hide Holds, Newest, Live;
    forall key, pba | Held(r, key, pba) ensures ReadBlock(r.disk, pba) == payloads[key] {
      assert Held(s, key, pba);
    }
  }

  lemma GrownCopies(segs: seq<Segment>, later: seq<Segment>, key: nat, ts: nat, pba: nat)
    requires Grown(segs, later) && HeldByCopy(later, key, ts, pba)
    ensures HeldByCopy(segs, key, ts, pba)
  {
    var i, j :| 0 <= i < |later| && 0 <= j < |later[i].table| && !later[i].retired &&
      IsCopy(later[i].table[j], key, ts, pba);
    if i >= |segs| { assert false; }
    assert SameSegment(later[i], segs[i]);
    assert IsCopy(segs[i].table[j], key, ts, pba);
  }

  lemma EvolvedHolds(s: State, r: State)
    requires Evolves(s.store, r.store) && FewerNodes(s.cache, r.cache)
    ensures HoldsNoMore(s, r)
  {
    hide Stored, Grown, HeldByCopy;
    forall key, ts, pba | Holds(r, key, ts, pba) ensures Holds(s, key, ts, pba) {
      if HeldByCopy(r.store.segs, key, ts, pba) { GrownCopies(s.store.segs, r.store.segs, key, ts, pba); }
    }
  }

  /** A new record is the only thing an operation on a key adds. */
  lemma GainedHolds(s: State, r: State, x: Record, key: nat, ts: nat, pba: nat)
    requires Gained(s, r, x) && Holds(r, key, ts, pba)
    ensures Holds(s, key, ts, pba) || IsVersion(x, key, ts, pba)
  {
    hide Stored, Grown, HeldByCopy;
    if HeldByCopy(r.store.segs, key, ts, pba) { GrownCopies(s.store.segs, r.store.segs, key, ts, pba); }
  }

  lemma ReadHolds(s: State, key: nat)
    requires Sound(s)
    ensures HoldsNoMore(s, Read(s, key))
  {
    hide Sound, Holds, Lookup, Update, SlowBest, SameButStats;
    var r := Read(s, key);
    if key in s.cache.nodes {
      EvolvesRefl(s.store);
      LookupNodes(s.cache, key);
      EvolvedHolds(s, r);
    } else {
      var b := SlowBest(s, key);
      var t := s.(store := r.store);
      BumpAllSame(s.store, key);
      StatsEvolve(s.store, r.store.segs);
      EvolvedHolds(s, t);
      FoundIsHeld(s, key);
      if b.found { CachedHolds(t, key, CacheNode(b.pba, b.valid, b.ts), r); }
      forall k, ts, pba | Holds(r, k, ts, pba) ensures Holds(s, k, ts, pba) {
        if !Holds(t, k, ts, pba) { assert HeldInStore(s.store, k, ts, pba); FromStore(s, k, ts, pba); }
      }
    }
  }

  lemma FromStore(s: State, key: nat, ts: nat, pba: nat)
    requires HeldInStore(s.store, key, ts, pba)
    ensures Holds(s, key, ts, pba)
  {
  }

  lemma LookupNodes(cache: Cache, key: nat)
    ensures FewerNodes(cache, Lookup(cache, key))
  {
  }

  /** Caching a version adds at most that version. */
  lemma CachedHolds(t: State, key: nat, node: CacheNode, r: State)
    requires r == t.(cache := Update(t.cache, key, node))
    ensures forall k, ts, pba :: Holds(r, k, ts, pba) ==>
              Holds(t, k, ts, pba) || (k == key && node == CacheNode(pba, true, ts))
  {
    hide HeldInStore, HeldByCopy, Update;
    UpdateNodes(t.cache, key, node);
  }

  lemma SettingsHold(s: State, value: nat)
    requires ShapeOk(s)
    ensures Levels(s.store) && HoldsNoMore(s, ClearTree(s)) && HoldsNoMore(s, SetTreeLimit(s, value))
    ensures HoldsNoMore(s, SetThreshold(s, value)) && HoldsNoMore(s, SetBitsPerKey(s, value))
  {
    hide ShapeOk, Evolves, Calc, HoldsNoMore;
    ShapeLevels(s);
    EvolvesRefl(s.store);
    EvolvedHolds(s, s.(cache := Clear(s.cache)));
    EvolvedHolds(s, SetTreeLimit(s, value));
    CalcKeeps(s.(threshold := if value == 0 then 16 else value));
    EvolvedHolds(s, SetThreshold(s, value));
    EvolvedHolds(s, SetBitsPerKey(s, value));
  }

  lemma LevelStepsHold(s: State, level: nat)
    requires ShapeOk(s) && level < LEVELS
    ensures Levels(s.store) && HoldsNoMore(s, Ready(s)) && HoldsNoMore(s, CompactLevel(s, level)) &&
            HoldsNoMore(s, Recalc(s))
  {
    hide ShapeOk, Evolves, Ready, CompactLevel, Recalc, HoldsNoMore;
    ShapeLevels(s);
    ReadyEvolves(s);
    CompactLevelEvolves(s, level);
    RecalcEvolves(s);
    EvolvedHolds(s, Ready(s));
    EvolvedHolds(s, CompactLevel(s, level));
    EvolvedHolds(s, Recalc(s));
  }

  /** The successor of a compacted segment points where its entries did. */
  lemma ReplaceHolds(s: State, at: nat)
    requires ShapeOk(s) && Levels(s.store) && at < |s.store.segs| && !s.store.segs[at].retired
    ensures HoldsNoMore(s, ReplaceSegment(s, at))
  {
    hide ShapeOk, Stored, ReplaceSegment, Replaced, SameButStats, HeldByCopy;
    var r := ReplaceSegment(s, at);
    ReplacedIsReplaceSegment(s, at);
    forall key, ts, pba | Holds(r, key, ts, pba) ensures Holds(s, key, ts, pba) {
      if HeldInStore(r.store, key, ts, pba) {
        var y :| Stored(r.store, y) && IsVersion(y, key, ts, pba);
        SameStored(Replaced(s, at), r.store.segs, y);
        ReplacedStores(s, at, y);
        var x :| Stored(s.store, x) && y == x.(zone := y.zone);
        assert IsVersion(x, key, ts, pba);
      } else if HeldByCopy(r.store.segs, key, ts, pba) {
        ReplacedCopies(s, at, key, ts, pba);
      }
    }
  }

  lemma ReplacedCopies(s: State, at: nat, key: nat, ts: nat, pba: nat)
    requires ShapeOk(s) && Levels(s.store) && at < |s.store.segs|
    requires HeldByCopy(ReplaceSegment(s, at).store.segs, key, ts, pba)
    ensures HeldByCopy(s.store.segs, key, ts, pba)
  {
    hide ShapeOk, ReplaceSegment, KeptBy, NewSegment, IsCopy;
    var r := ReplaceSegment(s, at);
    ReplacedIsReplaceSegment(s, at);
    var seg, kept := s.store.segs[at], KeptBy(s, at);
    var i, j :| 0 <= i < |r.store.segs| && 0 <= j < |r.store.segs[i].table| && !r.store.segs[i].retired
                && IsCopy(r.store.segs[i].table[j], key, ts, pba);
    assert SameSegment(r.store.segs[i], Replaced(s, at).segs[i]);
    if i < |s.store.segs| {
      assert IsCopy(s.store.segs[i].table[j], key, ts, pba);
    } else {
      NewUntouched(s.store.segs, s.nextId, seg.level, seg.track, kept, s.bitsPerKey);
      assert Untouched(r.store.segs[i].table[j]);
      UntouchedNoCopy(r.store.segs[i].table[j], key, ts, pba);
    }
  }

  lemma UntouchedNoCopy(e: Entry, key: nat, ts: nat, pba: nat)
    requires Untouched(e)
    ensures !IsCopy(e, key, ts, pba)
  {
  }

  // ---------------------------------------------------------------- writes and deletes

  /** The block a write goes to holds no other live key. */
  ghost predicate WriteHarmless(s: State, key: nat)
    requires ZoneOf(key) < |s.zoneFill|
  {
    forall k :: k != key ==> !Held(s, k, BlockSector(ZoneOf(key), BlockFor(s, key)))
  }

  lemma WriteCoherent(s: State, key: nat, payload: nat, payloads: map<nat, nat>)
    requires Sound(s) && Levels(s.store) && Coherent(s, payloads) && ZoneOf(key) < |s.zoneFill| && WriteHarmless(s, key)
    ensures Coherent(Write(s, key, payload), payloads[key := payload])
  {
    hide Sound, InsertRecord, ZoneOf, BlockFor, BlockSector, Slot2, Gained, Holds, Newest, Live, WriteBlock;
    var t, block := MapBlock(s, key), BlockSector(ZoneOf(key), BlockFor(s, key));
    var r, x := Write(s, key, payload), Record(key, block, ZoneOf(key), true, s.ts + 1);
    OutsideSound(s, t);
    SoundLevels(t);
    InsertGains(t, 0, key, block, ZoneOf(key));
    InsertSound(t, 0, key, block, ZoneOf(key));
    forall k ensures Live(r.log, k) == (k == key || Live(s.log, k))
             ensures Newest(r.log, k) == if k == key then |s.log| + 1 else Newest(s.log, k)
    {
      LiveAppend(s.log, key, true, block, k);
      NewestAppend(s.log, Op(key, true, block), k);
    }
    forall k, pba | Held(r, k, pba) ensures ReadBlock(r.disk, pba) == payloads[key := payload][k] {
      WrittenHolds(s, key, payload, k, Newest(r.log, k), pba, x);
      if k == key {
        if Holds(s, k, |s.log| + 1, pba) { HeldBound(s, k, |s.log| + 1, pba); }
      } else {
        assert Held(s, k, pba);
      }
    }
  }

  lemma WrittenHolds(s: State, key: nat, payload: nat, k: nat, ts: nat, pba: nat, x: Record)
    requires Levels(s.store) && ZoneOf(key) < |s.zoneFill| && Holds(Write(s, key, payload), k, ts, pba)
    requires var block := BlockSector(ZoneOf(key), BlockFor(s, key));
             && x == Record(key, block, ZoneOf(key), true, s.ts + 1)
             && Gained(MapBlock(s, key), InsertRecord(MapBlock(s, key), 0, key, block, ZoneOf(key)), x)
    ensures Holds(s, k, ts, pba) || IsVersion(x, k, ts, pba)
  {
    hide InsertRecord, ZoneOf, BlockFor, BlockSector, Gained, WriteBlock, HeldInStore, HeldByCopy, HeldInTree;
    var block := BlockSector(ZoneOf(key), BlockFor(s, key));
    GainedHolds(MapBlock(s, key), InsertRecord(MapBlock(s, key), 0, key, block, ZoneOf(key)), x, k, ts, pba);
  }

  lemma DeleteCoherent(s: State, key: nat, payloads: map<nat, nat>)
    requires Sound(s) && Levels(s.store) && Coherent(s, payloads) && ZoneOf(key) < |s.zoneFill|
    ensures Coherent(Delete(s, key), payloads - {key})
  {
    hide Sound, DeleteRecord, ZoneOf, Gained, Holds, Newest, Live;
    var r, d, x := Delete(s, key), DeleteRecord(s, key), Record(key, 0, 0, false, s.ts + 1);
    SoundLevels(s);
    DeleteGains(s, key);
    DeleteRecordSound(s, key);
    forall k
      ensures Live(r.log, k) == (k != key && Live(s.log, k)) && (k != key ==> Newest(r.log, k) == Newest(s.log, k))
    {
      LiveAppend(s.log, key, false, 0, k);
      NewestAppend(s.log, Op(key, false, 0), k);
    }
    forall k, pba | Held(r, k, pba) ensures ReadBlock(r.disk, pba) == (payloads - {key})[k] {
      ZoneIrrelevant(d, r, k, Newest(r.log, k), pba);
      GainedHolds(s, d, x, k, Newest(r.log, k), pba);
      assert Held(s, k, pba);
    }
  }

  lemma ZoneIrrelevant(s: State, r: State, key: nat, ts: nat, pba: nat)
    requires r == s.(zone := r.zone)
    ensures Holds(r, key, ts, pba) == Holds(s, key, ts, pba)
  {
  }
}
