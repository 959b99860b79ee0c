/** What reads, writes and deletes leave in the read tree and in the hit counts of the segments. */
module TreeEffects {
  import opened Types
  import opened Scan
  import opened ReadTree
  import opened Layout
  import opened Spec
  import opened Outputs
  import opened Shape
  import opened History
  import opened SoundSteps
  import opened Evolution

  /** The key is the one used last. */
  ghost predicate UsedLast(cache: Cache, key: nat) {
    key in cache.nodes && cache.order != [] && cache.order[|cache.order| - 1] == key
  }

  lemma UpdateUses(cache: Cache, key: nat, node: CacheNode)
    requires CacheOk(cache)
    ensures UsedLast(Update(cache, key, node), key)
  {
    hide Without;
    UpdateCaches(cache, key, node);
  }

  /** A read makes the key the last used one if it was in the tree or is found behind it, and counts a hit for
      each active segment that has the key if the tree has not. */
  lemma ReadEffects(s: State, key: nat)
    requires Sound(s)
    ensures var r := Read(s, key);
            && (key in s.cache.nodes || SlowBest(s, key).found ==> UsedLast(r.cache, key))
            && (key in s.cache.nodes ==> r.store == s.store && r.cache.nodes == s.cache.nodes)
            && |r.store.segs| == |s.store.segs|
            && (key !in s.cache.nodes ==>
                  forall i :: 0 <= i < |s.store.segs| ==> CountsHit(s.store.segs[i], r.store.segs[i], key))
  {
    hide ShapeOk, AllLogged, AllCovered, CacheTrue, Fold, ReadRecords, Update, Without;
    assert CacheOk(s.cache) by { TreeOk(s); }
    var b := SlowBest(s, key);
    UpdateUses(s.cache, key, CacheNode(b.pba, b.valid, b.ts));
  }

  ghost predicate CountsHit(seg: Segment, later: Segment, key: nat) {
    var hit := !seg.retired && exists j :: 0 <= j < |seg.table| && seg.table[j].rec.key == key;
    later == seg.(hits := seg.hits + if hit then 1 else 0)
  }

  lemma TreeOk(s: State)
    requires Sound(s)
    ensures CacheOk(s.cache)
  {
  }

  lemma AppendCaches(s: State, level: nat, key: nat, pba: nat, zone: nat, valid: bool)
    requires ShapeOk(s) && Levels(s.store) && level < LEVELS
    requires key in s.cache.nodes ==> s.cache.nodes[key].ts <= s.ts
    ensures |s.plan.target| == LEVELS
    ensures var c := Append(s, level, key, pba, zone, valid).cache;
            UsedLast(c, key) && c.nodes[key] == CacheNode(pba, valid, s.ts + 1)
  {
    hide StoreOk, ListsTimed, OutputsOk, CacheOk, Append, Update, AppendRecord, Evolves;
    AppendEvolves(s, level, key, pba, zone, valid);
    AppendRecordFields(s, level, key, pba, zone, valid);
    var node := CacheNode(pba, valid, s.ts + 1);
    UpdateUses(s.cache, key, node);
    UpdateNodes(s.cache, key, node);
  }

  lemma CachedBefore(s: State, key: nat)
    requires Sound(s)
    ensures key in s.cache.nodes ==> s.cache.nodes[key].ts <= s.ts
  {
    hide ShapeOk, AllLogged, AllCovered, CommittedAt;
    if key in s.cache.nodes { assert Cacheable(s.log, s.store.segs, key, s.cache.nodes[key]); }
  }

  /** A write leaves its key in the tree, as the last used one and at the block written. */
  lemma WriteCaches(s: State, key: nat, payload: nat)
    requires Sound(s) && ZoneOf(key) < |s.zoneFill|
    ensures Levels(s.store)
    ensures var c := Write(s, key, payload).cache;
            && UsedLast(c, key)
            && c.nodes[key] == CacheNode(BlockSector(ZoneOf(key), BlockFor(s, key)), true, s.ts + 1)
  {
    hide Sound, Append, Ready, BlockFor, BlockSector, ZoneOf;
    SoundLevels(s);
    var t := MapBlock(s, key);
    OutsideSound(s, t);
    CachedBefore(t, key);
    assert ShapeOk(t) by { SoundShape(t); }
    ReadyShape(t);
    var f := Ready(t);
    ShapeLevels(f);
    AppendCaches(f, Min(f.plan.active, MAX_LEVEL), key, BlockSector(ZoneOf(key), BlockFor(s, key)), ZoneOf(key), true);
  }

  /** A delete leaves the fact that the key is deleted. */
  lemma DeleteCaches(s: State, key: nat)
    requires Sound(s) && ZoneOf(key) < |s.zoneFill|
    ensures Levels(s.store)
    ensures var c := Delete(s, key).cache; UsedLast(c, key) && c.nodes[key] == CacheNode(0, false, s.ts + 1)
  {
    hide Sound, Append, Ready, ZoneOf, CacheOk;
    SoundLevels(s);
    assert ShapeOk(s) by { SoundShape(s); }
    ReadyShape(s);
    var f := Ready(s);
    CacheShape(f, key, 0);
    var g := f.(cache := Remove(f.cache, key));
    ShapeLevels(g);
    AppendCaches(g, Min(f.plan.active, MAX_LEVEL), key, 0, 0, false);
  }
}
