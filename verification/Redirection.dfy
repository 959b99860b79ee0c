/** What a commit makes of the entries and of the read tree: every mapped entry points to its output, and reads
    of cached keys follow. */
module Redirection {
  import opened Types
  import opened Scan
  import opened ReadTree
  import opened Obsolescence
  import opened Commit
  import opened Spec
  import opened Shape
  import opened History
  import opened SoundSteps
  import opened Holdings
  import opened CommitResult

  /** The entry holds this live version of the key, and the next commit will send it to its output. */
  predicate Turns(e: Entry, key: nat, ts: nat) {
    e.rec.valid && e.rec.key == key && e.rec.ts == ts && e.out.mapped && !e.out.committed
  }

  ghost predicate TurnsNone(table: seq<Entry>, from: nat, key: nat, ts: nat) {
    forall j :: from <= j < |table| ==> !Turns(table[j], key, ts)
  }

  /** No active segment from `from` on has such an entry. */
  ghost predicate TurnsNoneFrom(segs: seq<Segment>, from: nat, key: nat, ts: nat) {
    forall i :: from <= i < |segs| && !segs[i].retired ==> TurnsNone(segs[i].table, 0, key, ts)
  }

  // ---------------------------------------------------------------- the read tree through a commit

  /** `ts` is the newest stored timestamp of the key. */
  ghost predicate NewestIn(all: seq<Record>, key: nat, ts: nat) {
    && (exists x :: x in all && x.key == key && x.ts == ts)
    && (forall x :: x in all && x.key == key ==> x.ts <= ts)
  }

  ghost predicate PlannedTable(table: seq<Entry>) {
    forall j :: 0 <= j < |table| ==> (table[j].rec.valid && table[j].out.mapped ==> table[j].out.planned)
  }

  ghost predicate TableIn(all: seq<Record>, table: seq<Entry>) { forall j :: 0 <= j < |table| ==> table[j].rec in all }

  ghost predicate NotNewer(cache: Cache, key: nat, ts: nat) { key in cache.nodes ==> cache.nodes[key].ts <= ts }

  /** If the key is cached, it is as before or at the given output. */
  ghost predicate CachedAt(cache: Cache, key: nat, ts: nat, out: nat) {
    key in cache.nodes ==> cache.nodes[key] == CacheNode(out, true, ts)
  }

  ghost predicate CachedAsBefore(before: Cache, cache: Cache, key: nat) {
    key in cache.nodes ==> key in before.nodes && cache.nodes[key] == before.nodes[key]
  }

  lemma EntryRefreshes(cache: Cache, all: seq<Record>, e: Entry, key: nat, ts: nat)
    requires NewestIn(all, key, ts) && e.rec in all && NotNewer(cache, key, ts)
    requires e.rec.valid && e.out.mapped ==> e.out.planned
    ensures NotNewer(RefreshEntry(cache, all, e), key, ts)
    ensures Turns(e, key, ts) ==> CachedAt(RefreshEntry(cache, all, e), key, ts, e.out.outputPba)
    ensures !Turns(e, key, ts) ==> CachedAsBefore(cache, RefreshEntry(cache, all, e), key)
  {
    hide Newer, Update;
    NewerMeans(all, e.rec);
    UpdateNodes(cache, e.rec.key, CacheNode(e.out.outputPba, e.rec.valid, e.rec.ts));
  }

  lemma {:induction false} TableKeepsBound(cache: Cache, all: seq<Record>, table: seq<Entry>, n: nat, key: nat, ts: nat)
    requires NewestIn(all, key, ts) && TableIn(all, table) && PlannedTable(table) && NotNewer(cache, key, ts)
    requires n <= |table|
    ensures NotNewer(RefreshTable(cache, all, table, n), key, ts)
  {
    hide RefreshEntry, NewestIn, NotNewer, Turns;
    if n > 0 {
      TableKeepsBound(cache, all, table, n - 1, key, ts);
      EntryRefreshes(RefreshTable(cache, all, table, n - 1), all, table[n - 1], key, ts);
    }
  }

  /** Behind the last entry that turns nothing changes any more. */
  lemma {:induction false} TableLeaves(cache: Cache, all: seq<Record>, table: seq<Entry>, from: nat, n: nat, key: nat,
                                       ts: nat)
    requires NewestIn(all, key, ts) && TableIn(all, table) && PlannedTable(table) && NotNewer(cache, key, ts)
    requires from <= n <= |table| && TurnsNone(table, from, key, ts)
    ensures CachedAsBefore(RefreshTable(cache, all, table, from), RefreshTable(cache, all, table, n), key)
    decreases n
  {
    hide RefreshEntry, NewestIn, NotNewer, Turns;
    if from < n {
      TableLeaves(cache, all, table, from, n - 1, key, ts);
      TableKeepsBound(cache, all, table, n - 1, key, ts);
      EntryRefreshes(RefreshTable(cache, all, table, n - 1), all, table[n - 1], key, ts);
    }
  }

  lemma TableTurns(cache: Cache, all: seq<Record>, table: seq<Entry>, j: nat, key: nat, ts: nat)
    requires NewestIn(all, key, ts) && TableIn(all, table) && PlannedTable(table) && NotNewer(cache, key, ts)
    requires j < |table| && Turns(table[j], key, ts) && TurnsNone(table, j + 1, key, ts)
    ensures CachedAt(RefreshTable(cache, all, table, |table|), key, ts, table[j].out.outputPba)
  {
    hide RefreshEntry, NewestIn, NotNewer, Turns;
    TableKeepsBound(cache, all, table, j, key, ts);
    EntryRefreshes(RefreshTable(cache, all, table, j), all, table[j], key, ts);
    TableLeaves(cache, all, table, j + 1, |table|, key, ts);
  }

  ghost predicate AllIn(all: seq<Record>, segs: seq<Segment>) {
    forall i :: 0 <= i < |segs| && !segs[i].retired ==> TableIn(all, segs[i].table) && PlannedTable(segs[i].table)
  }

  lemma {:induction false} SegmentsKeepBound(cache: Cache, all: seq<Record>, segs: seq<Segment>, n: nat, key: nat,
                                             ts: nat)
    requires NewestIn(all, key, ts) && AllIn(all, segs) && NotNewer(cache, key, ts) && n <= |segs|
    ensures NotNewer(RefreshSegments(cache, all, segs, n), key, ts)
  {
    hide RefreshTable, NewestIn, NotNewer, TableIn, PlannedTable;
    if n > 0 {
      SegmentsKeepBound(cache, all, segs, n - 1, key, ts);
      if !segs[n - 1].retired {
        var before := RefreshSegments(cache, all, segs, n - 1);
        TableKeepsBound(before, all, segs[n - 1].table, |segs[n - 1].table|, key, ts);
      }
    }
  }

  lemma {:induction false} SegmentsLeave(cache: Cache, all: seq<Record>, segs: seq<Segment>, from: nat, n: nat,
                                         key: nat, ts: nat)
    requires NewestIn(all, key, ts) && AllIn(all, segs) && NotNewer(cache, key, ts)
    requires from <= n <= |segs| && TurnsNoneFrom(segs, from, key, ts)
    ensures CachedAsBefore(RefreshSegments(cache, all, segs, from), RefreshSegments(cache, all, segs, n), key)
    decreases n
  {
    hide RefreshTable, NewestIn, NotNewer, TableIn, PlannedTable, TurnsNone;
    if from < n {
      SegmentsLeave(cache, all, segs, from, n - 1, key, ts);
      if !segs[n - 1].retired {
        var before := RefreshSegments(cache, all, segs, n - 1);
        SegmentsKeepBound(cache, all, segs, n - 1, key, ts);
        TableLeaves(before, all, segs[n - 1].table, 0, |segs[n - 1].table|, key, ts);
        NoEntry(before, all, segs[n - 1].table);
      }
    }
  }

  lemma NoEntry(cache: Cache, all: seq<Record>, table: seq<Entry>)
    ensures RefreshTable(cache, all, table, 0) == cache
  {
  }

  lemma SegmentsTurn(cache: Cache, all: seq<Record>, segs: seq<Segment>, i: nat, j: nat, key: nat, ts: nat)
    requires NewestIn(all, key, ts) && AllIn(all, segs) && NotNewer(cache, key, ts)
    requires i < |segs| && !segs[i].retired && j < |segs[i].table| && Turns(segs[i].table[j], key, ts)
    requires TurnsNone(segs[i].table, j + 1, key, ts) && TurnsNoneFrom(segs, i + 1, key, ts)
    ensures CachedAt(RefreshSegments(cache, all, segs, |segs|), key, ts, segs[i].table[j].out.outputPba)
  {
    hide RefreshTable, NewestIn, NotNewer, TableIn, PlannedTable, TurnsNone, Turns;
    SegmentsKeepBound(cache, all, segs, i, key, ts);
    TableTurns(RefreshSegments(cache, all, segs, i), all, segs[i].table, j, key, ts);
    SegmentsLeave(cache, all, segs, i + 1, |segs|, key, ts);
  }

  // ---------------------------------------------------------------- room in the read tree

  function Entries(segs: seq<Segment>, n: nat): nat
    requires n <= |segs|
  {
    if n == 0 then 0 else Entries(segs, n - 1) + |segs[n - 1].table|
  }

  /** With room for `n` more keys nothing is evicted. */
  ghost predicate Room(cache: Cache, n: nat) { CacheOk(cache) && |cache.order| + n <= LimitOf(cache.limit) }

  ghost predicate KeepsKeys(before: Cache, cache: Cache) { forall k :: k in before.nodes ==> k in cache.nodes }

  lemma UpdateWithRoom(cache: Cache, key: nat, node: CacheNode, n: nat)
    requires n > 0 && Room(cache, n)
    ensures var u := Update(cache, key, node); Room(u, n - 1) && KeepsKeys(cache, u) && key in u.nodes
  {
    UpdateOk(cache, key, node);
    UpdateCaches(cache, key, node);
    if key in cache.nodes {
      WithoutFacts(cache.order, key);
    }
  }

  lemma {:induction false} TableWithRoom(cache: Cache, all: seq<Record>, table: seq<Entry>, n: nat, room: nat)
    requires n <= |table| && n <= room && Room(cache, room)
    ensures var c := RefreshTable(cache, all, table, n); Room(c, room - n) && KeepsKeys(cache, c)
    ensures forall j :: 0 <= j < n && Commits(table[j]) && !Newer(all, table[j].rec).found ==>
              table[j].rec.key in RefreshTable(cache, all, table, n).nodes
  {
    hide Room, Update, Newer, Commits;
    if n > 0 {
      TableWithRoom(cache, all, table, n - 1, room);
      var e, c := table[n - 1], RefreshTable(cache, all, table, n - 1);
      RoomLess(c, room - (n - 1));
      UpdateWithRoom(c, e.rec.key, CacheNode(e.out.outputPba, e.rec.valid, e.rec.ts), room - (n - 1));
    }
  }

  lemma RoomLess(cache: Cache, n: nat)
    requires Room(cache, n)
    ensures n > 0 ==> Room(cache, n - 1)
  {
  }

  lemma {:induction false} SegmentsWithRoom(cache: Cache, all: seq<Record>, segs: seq<Segment>, n: nat, room: nat)
    requires n <= |segs| && Entries(segs, n) <= room && Room(cache, room)
    ensures var c := RefreshSegments(cache, all, segs, n); Room(c, room - Entries(segs, n)) && KeepsKeys(cache, c)
    ensures forall i, j :: 0 <= i < n && !segs[i].retired && 0 <= j < |segs[i].table| && Commits(segs[i].table[j])
                           && !Newer(all, segs[i].table[j].rec).found ==>
              segs[i].table[j].rec.key in RefreshSegments(cache, all, segs, n).nodes
  {
    hide Room, Newer, Commits, RefreshTable;
    if n > 0 {
      SegmentsWithRoom(cache, all, segs, n - 1, room);
      var c, left := RefreshSegments(cache, all, segs, n - 1), room - Entries(segs, n - 1);
      var table := segs[n - 1].table;
      if segs[n - 1].retired {
        RoomFewer(c, left, left - |table|);
      } else {
        TableWithRoom(c, all, table, |table|, left);
      }
    }
  }

  lemma RoomFewer(cache: Cache, n: nat, m: nat)
    requires Room(cache, n) && m <= n
    ensures Room(cache, m)
  {
  }

  // ---------------------------------------------------------------- the commit

  /** What the store knows of a live key is at most as new as its last write, and that is stored. */
  lemma LiveNewest(u: State, key: nat)
    requires Sound(u) && Levels(u.store) && Live(u.log, key)
    ensures NewestIn(AllRecords(u.store), key, Newest(u.log, key)) && NotNewer(u.cache, key, Newest(u.log, key))
  {
    hide ShapeOk, Visible, Stored, CommittedAt, Newest, AllRecords;
    var all, n := AllRecords(u.store), Newest(u.log, key);
    assert Covered(u.log, u.store, key);
    var b := SlowBest(u, key);
    forall x | x in all && x.key == key ensures x.ts <= n {
      AllRecordsMembers(u.store, x);
      assert Logged(u.log, u.store.segs, x);
      LoggedBound(u.log, u.store.segs, x);
    }
    var x :| Visible(u.store, x) && x.key == key && x.ts >= n;
    VisibleStored(u.store, x);
    AllRecordsMembers(u.store, x);
    if key in u.cache.nodes { assert Cacheable(u.log, u.store.segs, key, u.cache.nodes[key]); }
  }

  ghost predicate AllPlanned(segs: seq<Segment>) {
    forall i :: 0 <= i < |segs| && !segs[i].retired ==> PlannedTable(segs[i].table)
  }

  lemma TablesStored(u: State)
    requires Levels(u.store) && AllPlanned(u.store.segs)
    ensures AllIn(AllRecords(u.store), u.store.segs)
  {
    hide AllRecords, PlannedTable;
    forall i, j | 0 <= i < |u.store.segs| && !u.store.segs[i].retired && 0 <= j < |u.store.segs[i].table|
      ensures u.store.segs[i].table[j].rec in AllRecords(u.store)
    {
      EntryStored(u.store, i, j);
      AllRecordsMembers(u.store, u.store.segs[i].table[j].rec);
    }
  }

  lemma TurnsCommits(u: State, i: nat, j: nat, key: nat, ts: nat)
    requires Levels(u.store) && AllPlanned(u.store.segs) && NewestIn(AllRecords(u.store), key, ts)
    requires i < |u.store.segs| && !u.store.segs[i].retired && j < |u.store.segs[i].table|
    requires Turns(u.store.segs[i].table[j], key, ts)
    ensures Commits(u.store.segs[i].table[j]) && !Newer(AllRecords(u.store), u.store.segs[i].table[j].rec).found
  {
    hide AllRecords, Newer;
    NewerMeans(AllRecords(u.store), u.store.segs[i].table[j].rec);
  }

  lemma MetaTurns(u: State, key: nat, i: nat, j: nat)
    requires Sound(u) && Levels(u.store) && Live(u.log, key) && AllPlanned(u.store.segs) && CacheOk(u.cache)
    requires i < |u.store.segs| && !u.store.segs[i].retired && j < |u.store.segs[i].table|
    requires Turns(u.store.segs[i].table[j], key, Newest(u.log, key))
    requires TurnsNone(u.store.segs[i].table, j + 1, key, Newest(u.log, key))
    requires TurnsNoneFrom(u.store.segs, i + 1, key, Newest(u.log, key))
    ensures var c := CommitMeta(u).cache;
            && CachedAt(c, key, Newest(u.log, key), u.store.segs[i].table[j].out.outputPba)
            && (Room(u.cache, Entries(u.store.segs, |u.store.segs|)) ==> key in c.nodes)
  {
    hide Sound, AllRecords, Newest, Live, NotNewer, AllIn, AllPlanned, TurnsNone, TurnsNoneFrom, CachedAt, Room,
      RefreshSegments, CommitSegments;
    var all, n, segs := AllRecords(u.store), Newest(u.log, key), u.store.segs;
    LiveNewest(u, key);
    TablesStored(u);
    SegmentsTurn(u.cache, all, segs, i, j, key, n);
    if Room(u.cache, Entries(segs, |segs|)) {
      SegmentsWithRoom(u.cache, all, segs, |segs|, Entries(segs, |segs|));
      TurnsCommits(u, i, j, key, n);
    }
  }

  /** The segments after planning, and after copying as far as that went. */
  ghost predicate OnTheWay(segs: seq<Segment>, later: seq<Segment>) {
    |later| == |segs| && forall i :: 0 <= i < |segs| ==>
      later[i].retired == segs[i].retired && |later[i].table| == |segs[i].table| &&
      (!segs[i].retired ==> forall j :: 0 <= j < |segs[i].table| ==> EntryOnTheWay(segs[i].table[j], later[i].table[j]))
  }

  ghost predicate EntryOnTheWay(e: Entry, c: Entry) { c == PlanEntry(e) || c == CopiedEntry(PlanEntry(e)) }

  lemma RoundOnTheWay(s: State, io: Io)
    ensures OnTheWay(s.store.segs, PlanAll(s.store.segs))
    ensures OnTheWay(s.store.segs, CopyAll(s.disk, PlanAll(s.store.segs), io).segs)
  {
    hide CopyAll, Pending, PlanEntry, CopiedEntry;
    var planned := PlanAll(s.store.segs);
    CopySameVersions(s.disk, planned, io);
    var c := CopyAll(s.disk, planned, io);
    assert forall i :: 0 <= i < |planned| ==> CopiedSegment(c.segs[i], planned[i], c.ok);
  }

  lemma {:induction false} OnTheWayEntries(segs: seq<Segment>, later: seq<Segment>, n: nat)
    requires OnTheWay(segs, later) && n <= |segs|
    ensures Entries(later, n) == Entries(segs, n)
  {
    if n > 0 { OnTheWayEntries(segs, later, n - 1); }
  }

  lemma OnTheWayTurns(segs: seq<Segment>, later: seq<Segment>, key: nat, ts: nat)
    requires OnTheWay(segs, later)
    ensures AllPlanned(later)
    ensures forall i, j :: 0 <= i < |segs| && !segs[i].retired && 0 <= j < |segs[i].table| ==>
              && (Turns(later[i].table[j], key, ts) <==> Turns(segs[i].table[j], key, ts))
              && later[i].table[j].out.outputPba == segs[i].table[j].out.outputPba
    ensures forall i :: 0 <= i <= |segs| && TurnsNoneFrom(segs, i, key, ts) ==> TurnsNoneFrom(later, i, key, ts)
  {
    hide EntryOnTheWay, Turns;
    forall i, j | 0 <= i < |segs| && !segs[i].retired && 0 <= j < |segs[i].table|
      ensures Turns(later[i].table[j], key, ts) <==> Turns(segs[i].table[j], key, ts)
      ensures later[i].table[j].out.outputPba == segs[i].table[j].out.outputPba
      ensures later[i].table[j].rec.valid && later[i].table[j].out.mapped ==> later[i].table[j].out.planned
    {
      EntryTurns(segs[i].table[j], later[i].table[j], key, ts);
    }
  }

  lemma EntryTurns(e: Entry, c: Entry, key: nat, ts: nat)
    requires EntryOnTheWay(e, c)
    ensures Turns(c, key, ts) <==> Turns(e, key, ts)
    ensures c.out.outputPba == e.out.outputPba && (c.rec.valid && c.out.mapped ==> c.out.planned)
  {
  }

  /** The round up to the metadata commit that ends it. */
  lemma CommittedFrom(s: State, mode: nat, io: Io) returns (u: State)
    requires Sound(s) && Levels(s.store) && (mode == 2 || (mode == 3 && CopiesSucceed(s, io)))
    ensures Sound(u) && Levels(u.store) && CommitOutput(s, mode, io) == CommitMeta(u)
    ensures OnTheWay(s.store.segs, u.store.segs) && u.log == s.log && u.cache == s.cache
  {
    hide Sound, PlanAll, CopyAll, CommitMeta, OnTheWay;
    PlannedSound(s, io);
    RoundOnTheWay(s, io);
    if mode == 2 {
      CommitKindSound(Planned(s));
      u := Planned(s).(commits := MetaOnly);
    } else {
      u := AfterCopying(Planned(s), io);
    }
  }

  /** A commit, with or without copying, turns reads of a live key in the read tree to the output of the last
      active entry, in segment order, that held its newest version and was mapped but not yet committed; with
      room in the tree the key is there. */
  lemma CommitRedirects(s: State, mode: nat, io: Io, key: nat, i: nat, j: nat)
    requires Sound(s) && Levels(s.store) && Live(s.log, key) && (mode == 2 || (mode == 3 && CopiesSucceed(s, io)))
    requires i < |s.store.segs| && !s.store.segs[i].retired && j < |s.store.segs[i].table|
    requires Turns(s.store.segs[i].table[j], key, Newest(s.log, key))
    requires TurnsNone(s.store.segs[i].table, j + 1, key, Newest(s.log, key))
    requires TurnsNoneFrom(s.store.segs, i + 1, key, Newest(s.log, key))
    ensures var r, out := CommitOutput(s, mode, io), s.store.segs[i].table[j].out.outputPba;
            && (key in r.cache.nodes ==>
                  r.cache.nodes[key] == CacheNode(out, true, Newest(s.log, key)) &&
                  ReadResult(r, key) == LookupResult.Valid(out))
            && (|s.cache.order| + Entries(s.store.segs, |s.store.segs|) <= LimitOf(s.cache.limit) ==>
                  key in r.cache.nodes)
  {
    hide Sound, CommitMeta, Newest, Live, TurnsNoneFrom, OnTheWay, AllPlanned, CommitOutput, CopiesSucceed, Turns;
    var u := CommittedFrom(s, mode, io);
    var n := Newest(s.log, key);
    OnTheWayTurns(s.store.segs, u.store.segs, key, n);
    OnTheWayLengths(s.store.segs, u.store.segs);
    OnTheWayEntries(s.store.segs, u.store.segs, |s.store.segs|);
    assert CacheOk(s.cache) by { SoundCache(s); }
    MetaTurns(u, key, i, j);
  }

  lemma OnTheWayLengths(segs: seq<Segment>, later: seq<Segment>)
    requires OnTheWay(segs, later)
    ensures |later| == |segs|
    ensures forall i :: 0 <= i < |segs| ==> later[i].retired == segs[i].retired && |later[i].table| == |segs[i].table|
  {
  }

  lemma SoundCache(s: State)
    requires Sound(s)
    ensures CacheOk(s.cache)
  {
  }

  /** Reads of a live key for which no active segment has such an entry stay where they were, if the tree still
      has the key. */
  lemma CommitLeavesOthers(s: State, mode: nat, io: Io, key: nat)
    requires Sound(s) && Levels(s.store) && Live(s.log, key) && (mode == 2 || (mode == 3 && CopiesSucceed(s, io)))
    requires TurnsNoneFrom(s.store.segs, 0, key, Newest(s.log, key))
    ensures var r := CommitOutput(s, mode, io);
            key in r.cache.nodes ==> key in s.cache.nodes && r.cache.nodes[key] == s.cache.nodes[key]
  {
    hide Sound, Newest, Live, TurnsNoneFrom, OnTheWay, AllPlanned, CommitOutput, CopiesSucceed, Turns, AllRecords,
      RefreshTable, CommitSegments, AllIn, NewestIn, NotNewer;
    var u := CommittedFrom(s, mode, io);
    var n, all := Newest(s.log, key), AllRecords(u.store);
    OnTheWayTurns(s.store.segs, u.store.segs, key, n);
    LiveNewest(u, key);
    TablesStored(u);
    SegmentsLeave(u.cache, all, u.store.segs, 0, |u.store.segs|, key, n);
    assert RefreshSegments(u.cache, all, u.store.segs, 0) == u.cache;
  }

  /** After a commit every live entry of an active segment that has an output is committed and addresses it. */
  lemma CommitPoints(s: State, mode: nat, io: Io, i: nat, j: nat)
    requires Sound(s) && Levels(s.store) && (mode == 2 || (mode == 3 && CopiesSucceed(s, io)))
    requires i < |s.store.segs| && !s.store.segs[i].retired && j < |s.store.segs[i].table|
    ensures var segs, e := CommitOutput(s, mode, io).store.segs, s.store.segs[i].table[j];
            && |segs| == |s.store.segs| && |segs[i].table| == |s.store.segs[i].table|
            && var c := segs[i].table[j];
               if e.rec.valid && e.out.mapped && !e.out.committed then
                 c.out.committed && c.rec == e.rec.(pba := e.out.outputPba) && c.out.sourcePba == e.rec.pba
               else c.rec == e.rec && c.out.committed == e.out.committed
  {
    hide Sound, OnTheWay, CommitOutput, CopiesSucceed, AllRecords, RefreshSegments, EntryOnTheWay;
    var u := CommittedFrom(s, mode, io);
    OnTheWayAt(s.store.segs, u.store.segs, i, j);
    EntryCommits(s.store.segs[i].table[j], u.store.segs[i].table[j]);
  }

  lemma OnTheWayAt(segs: seq<Segment>, later: seq<Segment>, i: nat, j: nat)
    requires OnTheWay(segs, later) && i < |segs| && !segs[i].retired && j < |segs[i].table|
    ensures |later| == |segs| && !later[i].retired && |later[i].table| == |segs[i].table|
    ensures EntryOnTheWay(segs[i].table[j], later[i].table[j])
  {
    hide EntryOnTheWay;
  }

  lemma EntryCommits(e: Entry, u: Entry)
    requires EntryOnTheWay(e, u)
    ensures var c := CommitEntry(u);
            if e.rec.valid && e.out.mapped && !e.out.committed then
              c.out.committed && c.rec == e.rec.(pba := e.out.outputPba) && c.out.sourcePba == e.rec.pba
            else c.rec == e.rec && c.out.committed == e.out.committed
  {
  }
}
