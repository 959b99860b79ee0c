/** Which segment the compactor chooses, in terms of what a segment holds, when it was last added to, how often
    it was read and where it lies; and what the statistics behind that count. */
module Selection {
  import opened Types
  import opened Scan
  import opened Obsolescence

  // ---------------------------------------------------------------- what weighs

  /** Timestamps since the newest entry; thousandths of the window taken, of the entries that are live, and of
      the zone that is full. */
  datatype Terms = Terms(age: nat, share: nat, live: nat, full: nat)

  /** `q` is a thousandth part: the parts of `part` in `whole`, at most 1000. */
  ghost predicate Permille(q: nat, part: nat, whole: nat) {
    q <= 1000 && q * whole <= part * 1000 && (q < 1000 ==> part * 1000 < (q + 1) * whole)
  }

  function Sectors(r: Range): nat { if r.NoRange? || r.first > r.last then 0 else r.last - r.first + 1 }

  ghost predicate Weighs(seg: Segment, policy: Policy, t: Terms) {
    && (if policy.clock <= seg.maxTs then t.age == 0 else policy.clock == seg.maxTs + t.age)
    && ShareIs(seg, t.share) && LiveIs(seg, t.live) && FullIs(seg, policy, t.full)
  }

  ghost predicate ShareIs(seg: Segment, share: nat) {
    if Sectors(seg.window) == 0 || Sectors(seg.output) == 0 then share == 1000
    else Permille(share, Sectors(seg.output), Sectors(seg.window))
  }

  ghost predicate LiveIs(seg: Segment, live: nat) {
    var entries := if |seg.table| > 0 then |seg.table| else seg.nodes;
    if seg.track.Top? || entries == 0 then live == 0
    else live * entries <= seg.stats.live * 1000 < (live + 1) * entries
  }

  ghost predicate FullIs(seg: Segment, policy: Policy, full: nat) {
    if seg.zone == MIXED_ZONE || seg.zone >= |policy.zoneFill| then full == 0
    else Permille(full, policy.zoneFill[seg.zone], TOTAL_ITEMS)
  }

  /** The sum the segments are compared by: a read hit weighs as much as 100 timestamps, a thousandth as much
      as one. */
  function Total(seg: Segment, t: Terms): int {
    seg.score + t.age + t.full - 100 * seg.hits - t.share - t.live
  }

  lemma DivIs(n: nat, d: nat)
    requires d > 0
    ensures n / d * d <= n < (n / d + 1) * d
  {
    var q := n / d;
    assert n == d * q + n % d;
    assert (q + 1) * d == q * d + d && q * d == d * q;
  }

  lemma PermilleIs(q: nat, part: nat, whole: nat)
    requires whole > 0 && Permille(q, part, whole)
    ensures q == Min(part * 1000 / whole, 1000)
  {
    DivIs(part * 1000, whole);
    var d := part * 1000 / whole;
    if q < d && q < 1000 {
      Grows(q + 1, d, whole);
    }
    if d < q {
      Grows(d + 1, q, whole);
    }
  }

  lemma Grows(a: nat, b: nat, d: nat)
    requires a <= b
    ensures a * d <= b * d
  {
  }

  lemma QuotientIs(q: nat, n: nat, d: nat)
    requires d > 0 && q * d <= n < (q + 1) * d
    ensures q == n / d
  {
    DivIs(n, d);
    if q < n / d { Grows(q + 1, n / d, d); }
    if n / d < q { Grows(n / d + 1, q, d); }
  }

  /** The engine's score is that sum. */
  lemma ScoreIsTotal(seg: Segment, policy: Policy, t: Terms)
    requires Weighs(seg, policy, t)
    ensures FinalScore(seg, policy) == Total(seg, t)
  {
    hide Permille;
    ShareIsCost(seg, t.share);
    LiveIsCost(seg, t.live);
    if seg.zone != MIXED_ZONE && seg.zone < |policy.zoneFill| {
      PermilleIs(t.full, policy.zoneFill[seg.zone], TOTAL_ITEMS);
    }
  }

  lemma ShareIsCost(seg: Segment, share: nat)
    requires ShareIs(seg, share)
    ensures PlacementCost(seg) == share
  {
    hide Permille;
    if Sectors(seg.window) > 0 && Sectors(seg.output) > 0 {
      PermilleIs(share, Sectors(seg.output), Sectors(seg.window));
    }
  }

  lemma LiveIsCost(seg: Segment, live: nat)
    requires LiveIs(seg, live)
    ensures RmwCost(seg) == live
  {
    var entries := if |seg.table| > 0 then |seg.table| else seg.nodes;
    if !seg.track.Top? && entries != 0 {
      QuotientIs(live, seg.stats.live * 1000, entries);
    }
  }

  // ---------------------------------------------------------------- the choice

  /** A larger sum is better; of equal sums the larger score, then the larger ratio of obsolete entries, then
      the larger number of them. */
  ghost predicate Better(a: Segment, s: Terms, b: Segment, t: Terms) {
    || Total(a, s) > Total(b, t)
    || (Total(a, s) == Total(b, t) &&
          (|| a.score > b.score
           || (a.score == b.score && a.stats.ratio > b.stats.ratio)
           || (a.score == b.score && a.stats.ratio == b.stats.ratio && a.stats.invalid > b.stats.invalid)))
  }

  /** The choice is the first of the scoring segments that none is better than; there is none exactly when no
      segment scores. */
  lemma SelectionExactly(segs: seq<Segment>, policy: Policy, terms: seq<Terms>)
    requires |terms| == |segs| && forall i :: 0 <= i < |segs| ==> Weighs(segs[i], policy, terms[i])
    ensures var best, cand := Select(segs, |segs|, policy), CandidateOf(segs, policy);
            && (best == -1 <==> forall i :: 0 <= i < |segs| ==> segs[i].score == 0)
            && (best == -1 ==> cand == Candidate(0, 0))
            && (best >= 0 ==> segs[best].score > 0 && cand == Candidate(segs[best].id, segs[best].score))
            && (best >= 0 ==> forall i :: 0 <= i < |segs| && segs[i].score > 0 ==>
                  !Better(segs[i], terms[i], segs[best], terms[best]))
            && (best >= 0 ==> forall i :: 0 <= i < best && segs[i].score > 0 ==>
                  Better(segs[best], terms[best], segs[i], terms[i]))
  {
    hide Weighs, FinalScore, Total;
    forall i | 0 <= i < |segs| ensures FinalScore(segs[i], policy) == Total(segs[i], terms[i]) {
      ScoreIsTotal(segs[i], policy, terms[i]);
    }
    SelectFacts(segs, |segs|, policy);
  }

  /** A segment that another one beats in the sum is not chosen. */
  lemma Outweighed(segs: seq<Segment>, policy: Policy, x: nat, y: nat, s: Terms, t: Terms)
    requires x < |segs| && y < |segs| && segs[y].score > 0
    requires Weighs(segs[x], policy, s) && Weighs(segs[y], policy, t) && Total(segs[x], s) < Total(segs[y], t)
    ensures Select(segs, |segs|, policy) != x
  {
    hide Weighs, FinalScore, Total;
    ScoreIsTotal(segs[x], policy, s);
    ScoreIsTotal(segs[y], policy, t);
    SelectFacts(segs, |segs|, policy);
  }

  lemma SomePermille(part: nat, whole: nat) returns (q: nat)
    requires whole > 0
    ensures Permille(q, part, whole)
  {
    DivIs(part * 1000, whole);
    q := Min(part * 1000 / whole, 1000);
    if q < part * 1000 / whole { Grows(q, part * 1000 / whole, whole); }
  }

  lemma Thousandths(part: nat, whole: nat) returns (q: nat)
    requires whole > 0
    ensures q * whole <= part * 1000 < (q + 1) * whole
  {
    q := part * 1000 / whole;
    DivIs(part * 1000, whole);
  }

  lemma SomeLive(seg: Segment) returns (live: nat)
    ensures LiveIs(seg, live)
  {
    live := 0;
    var entries := if |seg.table| > 0 then |seg.table| else seg.nodes;
    if !seg.track.Top? && entries != 0 {
      live := Thousandths(seg.stats.live, entries);
    }
  }

  /** Every segment weighs something. */
  lemma SomeTerms(seg: Segment, policy: Policy) returns (t: Terms)
    ensures Weighs(seg, policy, t)
  {
    hide Permille, LiveIs;
    var age := if policy.clock <= seg.maxTs then 0 else policy.clock - seg.maxTs;
    var share, full := 1000, 0;
    if Sectors(seg.window) > 0 && Sectors(seg.output) > 0 {
      share := SomePermille(Sectors(seg.output), Sectors(seg.window));
    }
    var live := SomeLive(seg);
    if seg.zone != MIXED_ZONE && seg.zone < |policy.zoneFill| {
      full := SomePermille(policy.zoneFill[seg.zone], TOTAL_ITEMS);
    }
    t := Terms(age, share, live, full);
  }

  // ---------------------------------------------------------------- one thing against another

  ghost predicate SamePlace(a: Segment, b: Segment) {
    Sectors(a.window) == Sectors(b.window) && Sectors(a.output) == Sectors(b.output)
  }

  ghost predicate SameLoad(a: Segment, b: Segment) {
    a.track == b.track && |a.table| == |b.table| && a.nodes == b.nodes && a.stats.live == b.stats.live
  }

  ghost predicate SameFill(a: Segment, b: Segment, policy: Policy) {
    forall full: nat :: FullIs(a, policy, full) <==> FullIs(b, policy, full)
  }

  ghost predicate BothScore(segs: seq<Segment>, x: nat, y: nat) {
    x < |segs| && y < |segs| && segs[x].score == segs[y].score > 0
  }

  /** A mark of so many thousandths separates two parts of a whole. */
  ghost predicate Between(less: nat, mark: nat, more: nat, whole: nat) {
    mark <= 1000 && less * 1000 < mark * whole <= more * 1000
  }

  lemma MarkOrders(p: nat, less: nat, mark: nat, q: nat, more: nat, whole: nat)
    requires whole > 0 && Between(less, mark, more, whole) && Permille(p, less, whole) && Permille(q, more, whole)
    ensures p < mark <= q
  {
    if mark <= p { Grows(mark, p, whole); }
    if q < mark { Grows(q + 1, mark, whole); }
  }

  lemma MarkSeparates(p: nat, less: nat, mark: nat, q: nat, more: nat, whole: nat)
    requires whole > 0 && Between(less, mark, more, whole) && p * whole <= less * 1000 && more * 1000 < (q + 1) * whole
    ensures p < mark <= q
  {
    if mark <= p { Grows(mark, p, whole); }
    if q < mark { Grows(q + 1, mark, whole); }
  }

  /** Of two segments alike in all else the one in the fuller zone goes first, */
  lemma FullerZoneWins(segs: seq<Segment>, policy: Policy, x: nat, y: nat, mark: nat)
    requires BothScore(segs, x, y) && SamePlace(segs[x], segs[y]) && SameLoad(segs[x], segs[y])
    requires segs[x].maxTs == segs[y].maxTs && segs[x].hits == segs[y].hits
    requires segs[x].zone < |policy.zoneFill| && segs[y].zone < |policy.zoneFill|
    requires segs[x].zone != MIXED_ZONE && segs[y].zone != MIXED_ZONE
    requires Between(policy.zoneFill[segs[x].zone], mark, policy.zoneFill[segs[y].zone], TOTAL_ITEMS)
    ensures Select(segs, |segs|, policy) != x
  {
    hide Permille, Between;
    var s := SomeTerms(segs[x], policy);
    var full := SomePermille(policy.zoneFill[segs[y].zone], TOTAL_ITEMS);
    MarkOrders(s.full, policy.zoneFill[segs[x].zone], mark, full, policy.zoneFill[segs[y].zone], TOTAL_ITEMS);
    Outweighed(segs, policy, x, y, s, s.(full := full));
  }

  /** the one that was added to longer ago, */
  lemma OlderWins(segs: seq<Segment>, policy: Policy, x: nat, y: nat)
    requires BothScore(segs, x, y) && SamePlace(segs[x], segs[y]) && SameLoad(segs[x], segs[y])
    requires SameFill(segs[x], segs[y], policy) && segs[x].hits == segs[y].hits
    requires segs[y].maxTs < segs[x].maxTs && segs[y].maxTs < policy.clock
    ensures Select(segs, |segs|, policy) != x
  {
    hide Permille;
    var s := SomeTerms(segs[x], policy);
    Outweighed(segs, policy, x, y, s, s.(age := policy.clock - segs[y].maxTs));
  }

  /** the one that was read less often, */
  lemma FewerHitsWin(segs: seq<Segment>, policy: Policy, x: nat, y: nat)
    requires BothScore(segs, x, y) && SamePlace(segs[x], segs[y]) && SameLoad(segs[x], segs[y])
    requires SameFill(segs[x], segs[y], policy) && segs[x].maxTs == segs[y].maxTs && segs[y].hits < segs[x].hits
    ensures Select(segs, |segs|, policy) != x
  {
    hide Permille;
    var s := SomeTerms(segs[x], policy);
    Outweighed(segs, policy, x, y, s, s);
  }

  /** the one whose output takes the smaller part of its window, */
  lemma SmallerShareWins(segs: seq<Segment>, policy: Policy, x: nat, y: nat, mark: nat)
    requires BothScore(segs, x, y) && SameLoad(segs[x], segs[y]) && SameFill(segs[x], segs[y], policy)
    requires segs[x].maxTs == segs[y].maxTs && segs[x].hits == segs[y].hits
    requires Sectors(segs[x].window) == Sectors(segs[y].window) > 0 && Sectors(segs[y].output) > 0
    requires Between(Sectors(segs[y].output), mark, Sectors(segs[x].output), Sectors(segs[x].window))
    ensures Select(segs, |segs|, policy) != x
  {
    hide Permille;
    var s := SomeTerms(segs[x], policy);
    var w := Sectors(segs[x].window);
    var share := SomePermille(Sectors(segs[y].output), w);
    MarkOrders(share, Sectors(segs[y].output), mark, s.share, Sectors(segs[x].output), w);
    Outweighed(segs, policy, x, y, s, s.(share := share));
  }

  /** and on bottom tracks the one with the smaller part of its entries live. */
  lemma FewerLiveWin(segs: seq<Segment>, policy: Policy, x: nat, y: nat, mark: nat)
    requires BothScore(segs, x, y) && SamePlace(segs[x], segs[y]) && SameFill(segs[x], segs[y], policy)
    requires segs[x].maxTs == segs[y].maxTs && segs[x].hits == segs[y].hits
    requires segs[x].track.Bottom? && segs[y].track.Bottom? && |segs[x].table| == |segs[y].table| > 0
    requires Between(segs[y].stats.live, mark, segs[x].stats.live, |segs[x].table|)
    ensures Select(segs, |segs|, policy) != x
  {
    hide Permille, Between;
    var s := SomeTerms(segs[x], policy);
    var n := |segs[x].table|;
    var live := Thousandths(segs[y].stats.live, n);
    MarkSeparates(live, segs[y].stats.live, mark, s.live, segs[x].stats.live, n);
    Outweighed(segs, policy, x, y, s, s.(live := live));
  }

  /** A hundred timestamps of age make up for one read hit, no fewer and no more. */
  lemma HitsAgainstAge(segs: seq<Segment>, policy: Policy, x: nat, y: nat, hits: nat, age: nat)
    requires BothScore(segs, x, y) && SamePlace(segs[x], segs[y]) && SameLoad(segs[x], segs[y])
    requires SameFill(segs[x], segs[y], policy) && segs[y].hits == segs[x].hits + hits
    requires segs[x].maxTs == segs[y].maxTs + age && segs[x].maxTs <= policy.clock
    ensures age > 100 * hits ==> Select(segs, |segs|, policy) != x
    ensures age < 100 * hits ==> Select(segs, |segs|, policy) != y
  {
    hide Permille;
    var s := SomeTerms(segs[x], policy);
    var t := s.(age := s.age + age);
    if age > 100 * hits { Outweighed(segs, policy, x, y, s, t); }
    if age < 100 * hits { Outweighed(segs, policy, y, x, t, s); }
  }

  /** One timestamp of age makes up for a thousandth of the zone's fill. */
  lemma FillAgainstAge(segs: seq<Segment>, policy: Policy, x: nat, y: nat, full: nat, more: nat, age: nat)
    requires BothScore(segs, x, y) && SamePlace(segs[x], segs[y]) && SameLoad(segs[x], segs[y])
    requires FullIs(segs[x], policy, full) && FullIs(segs[y], policy, full + more) && segs[x].hits == segs[y].hits
    requires segs[y].maxTs == segs[x].maxTs + age && segs[y].maxTs <= policy.clock
    ensures more > age ==> Select(segs, |segs|, policy) != x
    ensures more < age ==> Select(segs, |segs|, policy) != y
  {
    hide Permille;
    var u := SomeTerms(segs[y], policy);
    var t := u.(full := full + more);
    var s := t.(full := full, age := t.age + age);
    if more > age { Outweighed(segs, policy, x, y, s, t); }
    if more < age { Outweighed(segs, policy, y, x, t, s); }
  }

  // ---------------------------------------------------------------- the statistics

  /** Something newer is known of the key, or it is a delete with nothing left to delete. */
  ghost predicate Dispensable(all: seq<Record>, zone: ZoneMap, r: Record) {
    || (exists x :: x in all && x.key == r.key && x.ts > r.ts)
    || (!r.valid && r.key !in zone && forall x :: x in all && x.key == r.key && x.ts < r.ts ==> !x.valid)
  }

  /** A write whose key has been deleted since. */
  ghost predicate Deleted(all: seq<Record>, r: Record) {
    r.valid && exists x :: x in all && x.key == r.key && x.ts > r.ts && !x.valid && Latest(all, x)
  }

  ghost predicate Latest(all: seq<Record>, x: Record) { forall y :: y in all && y.key == x.key ==> y.ts <= x.ts }

  /** Copies of a version agree on what it is. */
  ghost predicate Agree(all: seq<Record>) {
    forall x, y :: x in all && y in all && x.key == y.key && x.ts == y.ts ==> x.valid == y.valid
  }

  ghost function Dropped(all: seq<Record>, zone: ZoneMap, table: seq<Entry>, n: nat): set<nat>
    requires n <= |table|
  {
    set j: nat | j < n && Dispensable(all, zone, table[j].rec)
  }

  ghost function Tombstones(table: seq<Entry>, n: nat): set<nat>
    requires n <= |table|
  {
    set j: nat | j < n && !table[j].rec.valid
  }

  ghost function DeletedLater(all: seq<Record>, table: seq<Entry>, n: nat): set<nat>
    requires n <= |table|
  {
    set j: nat | j < n && Deleted(all, table[j].rec)
  }

  lemma ObsoleteMeans(all: seq<Record>, zone: ZoneMap, r: Record)
    ensures Obsolete(all, zone, r) <==> Dispensable(all, zone, r)
  {
    hide Newer;
    NewerMeans(all, r);
    if !OlderValidIn(all, r.key, r.ts) {
      forall x | x in all && x.key == r.key && x.ts < r.ts ensures !x.valid {
        var i :| 0 <= i < |all| && all[i] == x;
      }
    } else {
      var i :| 0 <= i < |all| && all[i].key == r.key && all[i].valid && all[i].ts < r.ts;
      assert all[i] in all;
    }
  }

  lemma DeletedMeans(all: seq<Record>, r: Record)
    requires Agree(all)
    ensures DeletedSince(all, r) <==> Deleted(all, r)
  {
    hide Fold;
    var f := Newer(all, r);
    NewerMeans(all, r);
    FoldIsNewest(Best(false, r.ts, false, 0), all, r.key);
    if f.found {
      var i :| 0 <= i < |all| && IsRecord(all[i], r.key, f);
      assert all[i] in all && Latest(all, all[i]);
    }
  }

  lemma OneMore(smaller: set<nat>, larger: set<nat>, n: nat, more: bool)
    requires n !in smaller && larger == smaller + (if more then {n} else {})
    ensures |larger| == |smaller| + (if more then 1 else 0)
  {
  }

  lemma DroppedNext(all: seq<Record>, zone: ZoneMap, table: seq<Entry>, n: nat)
    requires 0 < n <= |table|
    ensures |Dropped(all, zone, table, n)| ==
            |Dropped(all, zone, table, n - 1)| + (if Dispensable(all, zone, table[n - 1].rec) then 1 else 0)
  {
    hide Dispensable;
    OneMore(Dropped(all, zone, table, n - 1), Dropped(all, zone, table, n), n - 1,
            Dispensable(all, zone, table[n - 1].rec));
  }

  lemma TombstonesNext(table: seq<Entry>, n: nat)
    requires 0 < n <= |table|
    ensures |Tombstones(table, n)| == |Tombstones(table, n - 1)| + (if table[n - 1].rec.valid then 0 else 1)
  {
    OneMore(Tombstones(table, n - 1), Tombstones(table, n), n - 1, !table[n - 1].rec.valid);
  }

  lemma DeletedNext(all: seq<Record>, table: seq<Entry>, n: nat)
    requires 0 < n <= |table|
    ensures |DeletedLater(all, table, n)| ==
            |DeletedLater(all, table, n - 1)| + (if Deleted(all, table[n - 1].rec) then 1 else 0)
  {
    hide Deleted;
    OneMore(DeletedLater(all, table, n - 1), DeletedLater(all, table, n), n - 1, Deleted(all, table[n - 1].rec));
  }

  lemma {:induction false} Counts(all: seq<Record>, zone: ZoneMap, table: seq<Entry>, n: nat)
    requires n <= |table| && Agree(all)
    ensures CountObsolete(all, zone, table, n) == |Dropped(all, zone, table, n)|
    ensures CountTombstones(table, n) == |Tombstones(table, n)|
    ensures CountDeleted(all, table, n) == |DeletedLater(all, table, n)|
  {
    hide Obsolete, DeletedSince, Dispensable, Deleted, Agree, Dropped, Tombstones, DeletedLater;
    if n > 0 {
      Counts(all, zone, table, n - 1);
      ObsoleteMeans(all, zone, table[n - 1].rec);
      DeletedMeans(all, table[n - 1].rec);
      DroppedNext(all, zone, table, n);
      TombstonesNext(table, n);
      DeletedNext(all, table, n);
    } else {
      NothingCounted(all, zone, table);
    }
  }

  lemma NothingCounted(all: seq<Record>, zone: ZoneMap, table: seq<Entry>)
    ensures Dropped(all, zone, table, 0) == {} && Tombstones(table, 0) == {} && DeletedLater(all, table, 0) == {}
  {
  }

  /** The statistics of an active segment count its entries by what the whole store says of them, and its score
      is the ratio times the number of dropped entries, 1000 for each write deleted since and 500 for each
      tombstone; below a quarter of dropped entries it is nothing. */
  lemma StatsAreCounts(all: seq<Record>, zone: ZoneMap, segs: seq<Segment>, i: nat)
    requires i < |segs| && !segs[i].retired && Agree(all)
    ensures var seg, table := Recalculated(all, zone, segs)[i], segs[i].table;
            var dropped, tombstones := |Dropped(all, zone, table, |table|)|, |Tombstones(table, |table|)|;
            var deleted, ratio := |DeletedLater(all, table, |table|)|, seg.stats.ratio;
            && seg == segs[i].(stats := seg.stats, score := seg.score)
            && seg.stats.invalid == dropped && seg.stats.live + dropped == |table|
            && seg.stats.tombstones == tombstones && seg.stats.deleteInvalid == deleted
            && (table != [] ==> ratio * |table| <= dropped * 1000 < (ratio + 1) * |table|)
            && seg.score == if dropped == 0 || ratio < 250 then 0
               else ratio * dropped + 1000 * deleted + 500 * tombstones
  {
    hide Obsolete, DeletedSince, Dropped, Tombstones, DeletedLater, Agree;
    var table := segs[i].table;
    Counts(all, zone, table, |table|);
    if table != [] { DivIs(CountObsolete(all, zone, table, |table|) * 1000, |table|); }
  }

  /** A retired segment does not score. */
  lemma RetiredScoresNothing(all: seq<Record>, zone: ZoneMap, segs: seq<Segment>, i: nat)
    requires i < |segs| && segs[i].retired
    ensures Recalculated(all, zone, segs)[i] == segs[i].(score := 0)
  {
  }
}
