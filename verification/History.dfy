/** Soundness of the engine against the history of the device: for every key the newest operation
    decides, and the records the read path can see always include it, unless it is a delete that
    nothing is left to contradict. */
module History {
  import opened Types
  import opened Scan
  import opened ReadTree
  import opened Spec
  import opened Shape

  // ---------------------------------------------------------------- the history

  /** Timestamp of the last operation on `key`, or 0. */
  function Newest(log: seq<LogEntry>, key: nat): (n: nat)
    ensures n <= |log|
    ensures n > 0 ==> log[n - 1].Op? && log[n - 1].key == key
    ensures forall i :: n <= i < |log| ==> !(log[i].Op? && log[i].key == key)
  {
    if log == [] then 0
    else if log[|log| - 1].Op? && log[|log| - 1].key == key then |log|
    else Newest(log[..|log| - 1], key)
  }

  /** The last operation on `key` was a write. */
  predicate Live(log: seq<LogEntry>, key: nat) {
    Newest(log, key) > 0 && log[Newest(log, key) - 1].valid
  }

  /** The block that the newest operation on the key wrote to. */
  function WrittenTo(log: seq<LogEntry>, key: nat): nat {
    if Newest(log, key) > 0 then log[Newest(log, key) - 1].pba else 0
  }

  lemma NewestAppend(log: seq<LogEntry>, e: LogEntry, key: nat)
    ensures Newest(log + [e], key) == if e.Op? && e.key == key then |log| + 1 else Newest(log, key)
  {
    assert (log + [e])[..|log|] == log;
  }

  /** Some segment, active or retired, committed this version to this address. */
  ghost predicate CommittedAt(segs: seq<Segment>, r: Record) {
    exists i, j :: 0 <= i < |segs| && 0 <= j < |segs[i].table| && CommittedEntry(segs[i].table[j], r)
  }

  ghost predicate CommittedEntry(e: Entry, r: Record) {
    e.out.committed && e.rec.key == r.key && e.rec.ts == r.ts && e.out.outputPba == r.pba
  }

  /** The history has this version of the key, and its address is the one written then or the output
      block of a committed copy of that very version. */
  ghost predicate Logged(log: seq<LogEntry>, segs: seq<Segment>, r: Record) {
    && 0 < r.ts <= |log|
    && log[r.ts - 1].Op? && log[r.ts - 1].key == r.key && log[r.ts - 1].valid == r.valid
    && (log[r.ts - 1].pba == r.pba || CommittedAt(segs, r))
  }

  ghost predicate AllLogged(log: seq<LogEntry>, st: Store) {
    forall r :: Stored(st, r) ==> Logged(log, st.segs, r)
  }

  /** Some visible version of the key is at least as new as `ts`. */
  ghost predicate Sees(st: Store, key: nat, ts: nat) {
    exists x :: Visible(st, x) && x.key == key && x.ts >= ts
  }

  /** No record anywhere says the key is live. */
  ghost predicate NothingLive(st: Store, key: nat) {
    forall r :: Stored(st, r) && r.key == key ==> !r.valid
  }

  /** The newest operation on the key is visible, or it is a delete and nothing live is left. */
  ghost predicate Covered(log: seq<LogEntry>, st: Store, key: nat) {
    Newest(log, key) > 0 ==>
      Sees(st, key, Newest(log, key)) || (!Live(log, key) && NothingLive(st, key))
  }

  ghost predicate AllCovered(log: seq<LogEntry>, st: Store) { forall key :: Covered(log, st, key) }

  // ---------------------------------------------------------------- the read tree

  function CachedRecord(key: nat, node: CacheNode): Record { Record(key, node.pba, 0, node.valid, node.ts) }

  /** What may be cached for a key: the newest version if it is live; otherwise some delete of it. */
  ghost predicate Cacheable(log: seq<LogEntry>, segs: seq<Segment>, key: nat, node: CacheNode) {
    && Logged(log, segs, CachedRecord(key, node))
    && node.valid == Live(log, key)
    && (node.valid ==> node.ts == Newest(log, key))
  }

  ghost predicate CacheTrue(log: seq<LogEntry>, segs: seq<Segment>, cache: Cache) {
    forall key :: key in cache.nodes ==> Cacheable(log, segs, key, cache.nodes[key])
  }

  /** The semantic invariant of the engine. */
  ghost predicate Sound(s: State) {
    && ShapeOk(s) && |s.log| == s.ts
    && AllLogged(s.log, s.store) && AllCovered(s.log, s.store)
    && CacheTrue(s.log, s.store.segs, s.cache)
  }

  lemma SoundShape(s: State)
    requires Sound(s)
    ensures ShapeOk(s)
  {
  }

  // ---------------------------------------------------------------- what a rearrangement may do

  /** Committed entries stay where they are. */
  ghost predicate Extends(segs: seq<Segment>, later: seq<Segment>) {
    && |segs| <= |later|
    && forall i, j :: 0 <= i < |segs| && 0 <= j < |segs[i].table| && segs[i].table[j].out.committed ==>
         && j < |later[i].table|
         && CommittedEntry(later[i].table[j], segs[i].table[j].rec.(pba := segs[i].table[j].out.outputPba))
  }

  /** `r` is a version that was stored before, where it was or at a committed output. */
  ghost predicate From(st: Store, later: seq<Segment>, r: Record) {
    exists x :: Stored(st, x) && x.key == r.key && x.ts == r.ts && x.valid == r.valid
                && (x.pba == r.pba || CommittedAt(later, r))
  }

  ghost predicate NothingInvented(st: Store, later: Store) {
    forall r :: Stored(later, r) ==> From(st, later.segs, r)
  }

  ghost predicate NothingHidden(st: Store, later: Store) {
    forall r :: Visible(st, r) ==> Sees(later, r.key, r.ts)
  }

  ghost predicate Rearranged(st: Store, later: Store) {
    Extends(st.segs, later.segs) && NothingInvented(st, later) && NothingHidden(st, later)
  }

  lemma ExtendsCommitted(segs: seq<Segment>, later: seq<Segment>, r: Record)
    requires Extends(segs, later) && CommittedAt(segs, r)
    ensures CommittedAt(later, r)
  {
    var i, j :| 0 <= i < |segs| && 0 <= j < |segs[i].table| && CommittedEntry(segs[i].table[j], r);
    assert CommittedEntry(later[i].table[j], r);
  }

  lemma ExtendsLogged(log: seq<LogEntry>, segs: seq<Segment>, later: seq<Segment>, r: Record)
    requires Extends(segs, later) && Logged(log, segs, r)
    ensures Logged(log, later, r)
  {
    if CommittedAt(segs, r) { ExtendsCommitted(segs, later, r); }
  }

  lemma CacheExtends(log: seq<LogEntry>, segs: seq<Segment>, later: seq<Segment>, cache: Cache)
    requires Extends(segs, later) && CacheTrue(log, segs, cache)
    ensures CacheTrue(log, later, cache)
  {
    hide Logged;
    forall key | key in cache.nodes ensures Cacheable(log, later, key, cache.nodes[key]) {
      assert Cacheable(log, segs, key, cache.nodes[key]);
      ExtendsLogged(log, segs, later, CachedRecord(key, cache.nodes[key]));
    }
  }

  /** A rearrangement keeps the history and the coverage of every key. */
  lemma RearrangedSound(log: seq<LogEntry>, st: Store, later: Store)
    requires AllLogged(log, st) && Rearranged(st, later)
    ensures AllLogged(log, later)
    ensures AllCovered(log, st) ==> AllCovered(log, later)
  {
    hide Visible, Stored, CommittedAt, Newest;
    forall r | Stored(later, r) ensures Logged(log, later.segs, r) {
      assert From(st, later.segs, r);
      var x :| Stored(st, x) && x.key == r.key && x.ts == r.ts && x.valid == r.valid
               && (x.pba == r.pba || CommittedAt(later.segs, r));
      assert Logged(log, st.segs, x);
      ExtendsLogged(log, st.segs, later.segs, x);
      if x.pba == r.pba { SameCommitted(later.segs, x, r); }
    }
    if AllCovered(log, st) {
      forall key ensures Covered(log, later, key) {
        assert Covered(log, st, key);
        CoveredStep(log, st, later, key);
      }
    }
  }

  lemma SameCommitted(segs: seq<Segment>, x: Record, r: Record)
    requires x.key == r.key && x.ts == r.ts && x.pba == r.pba
    ensures CommittedAt(segs, x) == CommittedAt(segs, r)
  {
    if CommittedAt(segs, x) {
      var i, j :| 0 <= i < |segs| && 0 <= j < |segs[i].table| && CommittedEntry(segs[i].table[j], x);
      assert CommittedEntry(segs[i].table[j], r);
    }
    if CommittedAt(segs, r) {
      var i, j :| 0 <= i < |segs| && 0 <= j < |segs[i].table| && CommittedEntry(segs[i].table[j], r);
      assert CommittedEntry(segs[i].table[j], x);
    }
  }

  lemma CoveredStep(log: seq<LogEntry>, st: Store, later: Store, key: nat)
    requires Rearranged(st, later) && Covered(log, st, key)
    ensures Covered(log, later, key)
  {
    hide Visible, Stored, CommittedAt, Newest, Extends;
    var n := Newest(log, key);
    if n > 0 {
      if Sees(st, key, n) {
        var x :| Visible(st, x) && x.key == key && x.ts >= n;
        assert Sees(later, x.key, x.ts);
        var y :| Visible(later, y) && y.key == x.key && y.ts >= x.ts;
        assert Sees(later, key, n);
      } else {
        forall r | Stored(later, r) && r.key == key ensures !r.valid {
          assert From(st, later.segs, r);
        }
      }
    }
  }

  // ---------------------------------------------------------------- reads find the newest operation

  /** The slow path against the history: a live key is found as its newest version; a key that is
      not live is missed or found deleted. */
  lemma SlowReadFinds(s: State, key: nat)
    requires Sound(s)
    ensures var b := SlowBest(s, key);
            && (b.found && b.valid <==> Live(s.log, key))
            && (b.found && b.valid ==> b.ts == Newest(s.log, key))
            && (b.found ==> Cacheable(s.log, s.store.segs, key, CacheNode(b.pba, b.valid, b.ts)))
  {
    hide ShapeOk, Visible, CommittedAt, Newest;
    var rs, b := ReadRecords(s.store), SlowBest(s, key);
    FoldIsNewest(NONE, rs, key);
    ReadSeesVisible(s);
    if b.found {
      var i :| 0 <= i < |rs| && IsRecord(rs[i], key, b);
      var r := rs[i];
      assert r in rs;
      assert Visible(s.store, r);
      assert Stored(s.store, r);
      assert Logged(s.log, s.store.segs, r);
      SameCommitted(s.store.segs, r, CachedRecord(key, CacheNode(b.pba, b.valid, b.ts)));
      LoggedBound(s.log, s.store.segs, r);
    }
    var n := Newest(s.log, key);
    assert Covered(s.log, s.store, key);
    if n > 0 && Sees(s.store, key, n) {
      var x :| Visible(s.store, x) && x.key == key && x.ts >= n;
      assert x in rs && x.ts <= b.ts;
      assert Stored(s.store, x) && Logged(s.log, s.store.segs, x);
    }
  }

  lemma LoggedBound(log: seq<LogEntry>, segs: seq<Segment>, r: Record)
    requires Logged(log, segs, r)
    ensures r.ts <= Newest(log, r.key)
  {
  }

  lemma ReadSeesVisible(s: State)
    requires ShapeOk(s)
    ensures forall r :: r in ReadRecords(s.store) <==> Visible(s.store, r)
  {
    hide Visible, ReadRecords, CacheOk;
    SegmentLevels(s.store);
    forall r ensures r in ReadRecords(s.store) <==> Visible(s.store, r) {
      ReadRecordsMembers(s.store, r);
    }
  }

  /** imr_lsm_read answers VALID exactly when the last operation on the key was a write; the address
      is the one written then or the output of a committed copy of that version. */
  lemma ReadIsCorrect(s: State, key: nat)
    requires Sound(s)
    ensures ReadResult(s, key).Valid? <==> Live(s.log, key)
    ensures ReadResult(s, key).Valid? ==>
              Logged(s.log, s.store.segs, Record(key, ReadResult(s, key).pba, 0, true, Newest(s.log, key)))
  {
    hide ShapeOk, AllLogged, AllCovered, CommittedAt, SlowBest, Newest;
    SlowReadFinds(s, key);
    if key in s.cache.nodes {
      assert Cacheable(s.log, s.store.segs, key, s.cache.nodes[key]);
    }
  }
}
