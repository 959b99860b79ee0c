/** Where the output of a segment goes: the placement window over the top tracks, first-fit range
    allocation against the active segments, and the mapping of entries to output blocks. */
module Placement {
  import opened Types
  import opened Layout

  /** The placement window of imr_lsm_apply_segment_placement_locked: from the top track beside the
      first bottom track of the key range to the one beside the last. */
  function WindowOf(zone: nat, minKey: nat, maxKey: nat): Range {
    var start, end := zone * TOTAL_ITEMS, zone * TOTAL_ITEMS + (TOTAL_ITEMS - 1);
    if zone == MIXED_ZONE || maxKey < start || minKey > end then NoRange
    else
      var low := if minKey > start then minKey - start else 0;
      var high := if maxKey < end then maxKey - start else end - start;
      if low >= BOTTOM_BLOCKS then NoRange
      else
        var top := Min(high, BOTTOM_BLOCKS - 1);
        var firstTrack := Min(low / BOTTOM_TRACK_SIZE, TRACK_GROUPS - 1);
        var lastTrack := Min(top / BOTTOM_TRACK_SIZE, TRACK_GROUPS - 1);
        Range(BlockSector(zone, firstTrack * GROUP_BLOCKS),
              BlockSector(zone, lastTrack * GROUP_BLOCKS + TOP_TRACK_SIZE - 1) + BLOCK_SECTORS - 1)
  }

  /** A window is not empty, starts on a block boundary and lies within its zone. */
  lemma WindowFacts(zone: nat, minKey: nat, maxKey: nat)
    requires minKey <= maxKey
    ensures var w := WindowOf(zone, minKey, maxKey);
            w.Range? ==> w.first < w.last && w.first % BLOCK_SECTORS == 0 &&
                         ZoneLba(zone) <= w.first && w.last < ZoneLba(zone + 1)
  {
    var w := WindowOf(zone, minKey, maxKey);
    if w.Range? {
      var start := zone * TOTAL_ITEMS;
      var low := if minKey > start then minKey - start else 0;
      var high := if maxKey < start + (TOTAL_ITEMS - 1) then maxKey - start else TOTAL_ITEMS - 1;
      var a, b := low / BOTTOM_TRACK_SIZE, Min(high, BOTTOM_BLOCKS - 1) / BOTTOM_TRACK_SIZE;
      TrackOrder(low, Min(high, BOTTOM_BLOCKS - 1));
      assert w.first == BlockSector(zone, a * GROUP_BLOCKS);
      assert w.last == BlockSector(zone, b * GROUP_BLOCKS + TOP_TRACK_SIZE - 1) + BLOCK_SECTORS - 1;
      WindowSectors(zone, a, b);
    }
  }

  lemma WindowSectors(zone: nat, a: nat, b: nat)
    requires a <= b < TRACK_GROUPS
    ensures var first := BlockSector(zone, a * GROUP_BLOCKS);
            var last := BlockSector(zone, b * GROUP_BLOCKS + TOP_TRACK_SIZE - 1) + BLOCK_SECTORS - 1;
            first < last && first % BLOCK_SECTORS == 0 && ZoneLba(zone) <= first && last < ZoneLba(zone + 1)
  {
  }

  /** The window holds the top track beside the bottom track of every key of the range, and begins and
      ends with the tracks of the extreme keys. */
  lemma WindowCovers(zone: nat, minKey: nat, maxKey: nat, key: nat)
    requires zone != MIXED_ZONE && minKey <= key <= maxKey && ZoneOf(key) == zone && key % TOTAL_ITEMS < BOTTOM_BLOCKS
    ensures var w, top := WindowOf(zone, minKey, maxKey), key % TOTAL_ITEMS / BOTTOM_TRACK_SIZE * GROUP_BLOCKS;
            && w.Range?
            && w.first <= BlockSector(zone, top) && BlockSector(zone, top + TOP_TRACK_SIZE) <= w.last + 1
            && (key == minKey ==> w.first == BlockSector(zone, top))
            && (key == maxKey ==> w.last + 1 == BlockSector(zone, top + TOP_TRACK_SIZE))
  {
    var start := zone * TOTAL_ITEMS;
    assert key == start + key % TOTAL_ITEMS;
    var low := if minKey > start then minKey - start else 0;
    var high := if maxKey < start + (TOTAL_ITEMS - 1) then maxKey - start else TOTAL_ITEMS - 1;
    TrackOrder(low, key % TOTAL_ITEMS);
    TrackOrder(key % TOTAL_ITEMS, Min(high, BOTTOM_BLOCKS - 1));
  }

  ghost predicate OnBottom(zone: nat, key: nat) { ZoneOf(key) == zone && key % TOTAL_ITEMS < BOTTOM_BLOCKS }

  /** There is a window exactly if the range has keys of the zone that are seeded to bottom tracks, and it
      reaches from the top track beside the first of them to the one beside the last. */
  lemma WindowExactly(zone: nat, minKey: nat, maxKey: nat, first: nat, last: nat)
    requires zone != MIXED_ZONE && minKey <= first <= last <= maxKey && OnBottom(zone, first) && OnBottom(zone, last)
    requires forall key :: minKey <= key <= maxKey && OnBottom(zone, key) ==> first <= key <= last
    ensures WindowOf(zone, minKey, maxKey) ==
            Range(BlockSector(zone, first % TOTAL_ITEMS / BOTTOM_TRACK_SIZE * GROUP_BLOCKS),
                  BlockSector(zone, last % TOTAL_ITEMS / BOTTOM_TRACK_SIZE * GROUP_BLOCKS + TOP_TRACK_SIZE) - 1)
  {
    var start := zone * TOTAL_ITEMS;
    assert first == start + first % TOTAL_ITEMS && last == start + last % TOTAL_ITEMS;
    var low := if minKey > start then minKey else start;
    var high := Min(maxKey, start + BOTTOM_BLOCKS - 1);
    assert OnBottom(zone, low) && OnBottom(zone, high) by { OffsetIs(zone, low); OffsetIs(zone, high); }
    assert low == first && high == last;
  }

  lemma OffsetIs(zone: nat, key: nat)
    requires zone * TOTAL_ITEMS <= key < zone * TOTAL_ITEMS + TOTAL_ITEMS
    ensures ZoneOf(key) == zone && key % TOTAL_ITEMS == key - zone * TOTAL_ITEMS
  {
  }

  lemma NoWindow(zone: nat, minKey: nat, maxKey: nat)
    requires minKey <= maxKey && (zone == MIXED_ZONE || forall key :: minKey <= key <= maxKey ==> !OnBottom(zone, key))
    ensures WindowOf(zone, minKey, maxKey).NoRange?
  {
    var start := zone * TOTAL_ITEMS;
    var low := if minKey > start then minKey else start;
    if WindowOf(zone, minKey, maxKey).Range? {
      OffsetIs(zone, low);
      assert minKey <= low <= maxKey && OnBottom(zone, low);
    }
  }

  lemma TrackOrder(a: nat, b: nat)
    requires a <= b < BOTTOM_BLOCKS
    ensures a / BOTTOM_TRACK_SIZE <= b / BOTTOM_TRACK_SIZE < TRACK_GROUPS
  {
  }

  predicate Overlap(aFirst: nat, aLast: nat, bFirst: nat, bLast: nat) {
    aFirst <= aLast && bFirst <= bLast && aFirst <= bLast && bFirst <= aLast
  }

  predicate Hits(seg: Segment, first: nat, last: nat) {
    !seg.retired && seg.output.Range? && Overlap(first, last, seg.output.first, seg.output.last)
  }

  /** `n` sectors from `start` lie in the window and meet no active segment's output. */
  predicate Fits(segs: seq<Segment>, window: Range, n: nat, start: nat) {
    && window.Range? && n > 0
    && window.first <= start && start + n - 1 <= window.last
    && forall i :: 0 <= i < |segs| ==> !Hits(segs[i], start, start + n - 1)
  }

  /** The first start from `cursor` on that fits, tried one sector at a time. */
  function LeastFit(segs: seq<Segment>, window: Range, n: nat, cursor: nat): Range
    decreases if window.Range? && cursor <= window.last then window.last - cursor + 1 else 0
  {
    if window.NoRange? || n == 0 || cursor > window.last then NoRange
    else if Fits(segs, window, n, cursor) then Range(cursor, cursor + n - 1)
    else LeastFit(segs, window, n, cursor + 1)
  }

  function FirstFit(segs: seq<Segment>, window: Range, n: nat): Range {
    if window.NoRange? then NoRange else LeastFit(segs, window, n, window.first)
  }

  lemma {:induction false} LeastFitFacts(segs: seq<Segment>, window: Range, n: nat, cursor: nat)
    ensures var out := LeastFit(segs, window, n, cursor);
            && (out.Range? ==> out.first >= cursor && out.last == out.first + n - 1 && Fits(segs, window, n, out.first))
            && (out.Range? ==> forall s: nat :: Fits(segs, window, n, s) && s >= cursor ==> out.first <= s)
            && (out.NoRange? ==> forall s: nat :: s >= cursor ==> !Fits(segs, window, n, s))
    decreases if window.Range? && cursor <= window.last then window.last - cursor + 1 else 0
  {
    if window.Range? && n > 0 && cursor <= window.last && !Fits(segs, window, n, cursor) {
      LeastFitFacts(segs, window, n, cursor + 1);
    }
  }

  /** First fit is sound, minimal and complete. */
  lemma FirstFitFacts(segs: seq<Segment>, window: Range, n: nat)
    ensures var out := FirstFit(segs, window, n);
            && (out.Range? ==> out.last == out.first + n - 1 && Fits(segs, window, n, out.first))
            && (out.Range? ==> forall s: nat :: Fits(segs, window, n, s) ==> out.first <= s)
            && (out.NoRange? <==> forall s: nat :: !Fits(segs, window, n, s))
  {
    if window.Range? {
      LeastFitFacts(segs, window, n, window.first);
    }
  }

  /** No start from the cursor to the end of an overlapping output fits: the jump skips nothing. */
  lemma {:induction false} JumpSkipsNothing(segs: seq<Segment>, window: Range, n: nat, cursor: nat, next: nat, i: nat)
    requires window.Range? && i < |segs| && n > 0 && cursor <= next <= window.last + 1
    requires Hits(segs[i], cursor, cursor + n - 1) && next <= segs[i].output.last + 1
    ensures LeastFit(segs, window, n, cursor) == LeastFit(segs, window, n, next)
    decreases next - cursor
  {
    if cursor < next {
      assert !Fits(segs, window, n, cursor);
      if cursor + 1 < next {
        JumpSkipsNothing(segs, window, n, cursor + 1, next, i);
      }
    }
  }

  lemma {:induction false} TooLate(segs: seq<Segment>, window: Range, n: nat, cursor: nat)
    requires window.Range? && (n == 0 || cursor + n - 1 > window.last)
    ensures LeastFit(segs, window, n, cursor).NoRange?
    decreases if cursor <= window.last then window.last - cursor + 1 else 0
  {
    if cursor <= window.last {
      TooLate(segs, window, n, cursor + 1);
    }
  }

  method FindOverlap(segs: seq<Segment>, first: nat, last: nat) returns (found: bool, at: nat)
    ensures found ==> at < |segs| && Hits(segs[at], first, last)
    ensures !found ==> forall i :: 0 <= i < |segs| ==> !Hits(segs[i], first, last)
  {
    at := 0;
    while at < |segs|
      invariant at <= |segs|
      invariant forall i :: 0 <= i < at ==> !Hits(segs[i], first, last)
    {
      if Hits(segs[at], first, last) {
        return true, at;
      }
      at := at + 1;
    }
    return false, 0;
  }

  /** imr_lsm_allocate_segment_output_locked: the cursor jumps behind each overlapping output. */
  method Allocate(segs: seq<Segment>, window: Range, n: nat) returns (out: Range)
    requires window.Range? ==> window.first <= window.last
    ensures out == FirstFit(segs, window, n)
  {
    if window.NoRange? || n == 0 {
      return NoRange;
    }
    if n > window.last - window.first + 1 {
      TooLate(segs, window, n, window.first);
      return NoRange;
    }
    var cursor := window.first;
    while cursor <= window.last
      invariant window.first <= cursor <= window.last + 1
      invariant LeastFit(segs, window, n, cursor) == FirstFit(segs, window, n)
      decreases window.last + 1 - cursor
    {
      var end := cursor + n - 1;
      if end > window.last {
        TooLate(segs, window, n, cursor);
        return NoRange;
      }
      var found, at := FindOverlap(segs, cursor, end);
      if !found {
        return Range(cursor, end);
      }
      if segs[at].output.last >= window.last {
        JumpSkipsNothing(segs, window, n, cursor, window.last + 1, at);
        return NoRange;
      }
      JumpSkipsNothing(segs, window, n, cursor, segs[at].output.last + 1, at);
      cursor := segs[at].output.last + 1;
    }
    return NoRange;
  }

  // ---------------------------------------------------------------- entries to output blocks

  /** Live entries among the first `n`. */
  function LiveBefore(table: seq<Entry>, n: nat): (c: nat)
    requires n <= |table|
    ensures c <= n
  {
    if n == 0 then 0 else LiveBefore(table, n - 1) + (if table[n - 1].rec.valid then 1 else 0)
  }

  function MapEntry(table: seq<Entry>, output: Range, i: nat): Entry
    requires i < |table| && output.Range?
  {
    var target := output.first + LiveBefore(table, i) * BLOCK_SECTORS;
    if table[i].rec.valid && target <= output.last then
      table[i].(out := UNMAPPED.(outputPba := target, mapped := true))
    else table[i].(out := UNMAPPED)
  }

  /** The live entries of a fresh table take consecutive blocks of the output, in key order. */
  function MapEntries(table: seq<Entry>, output: Range): (mapped: seq<Entry>)
    ensures |mapped| == |table|
    ensures output.Range? ==> forall i :: 0 <= i < |table| ==> mapped[i] == MapEntry(table, output, i)
  {
    if output.NoRange? then table else seq(|table|, i requires 0 <= i < |table| => MapEntry(table, output, i))
  }

  lemma MapKeepsRecords(table: seq<Entry>, output: Range)
    ensures Recs(MapEntries(table, output)) == Recs(table)
  {
  }

  /** imr_lsm_map_segment_output_entries_locked. */
  method MapOutput(table: seq<Entry>, output: Range) returns (mapped: seq<Entry>)
    requires forall i :: 0 <= i < |table| ==> table[i].out == UNMAPPED
    ensures mapped == MapEntries(table, output)
  {
    mapped := table;
    if output.NoRange? || |table| == 0 {
      return;
    }
    var cursor, i := output.first, 0;
    while i < |table|
      invariant i <= |table| == |mapped|
      invariant cursor == output.first + LiveBefore(table, i) * BLOCK_SECTORS
      invariant forall j :: 0 <= j < i ==> mapped[j] == MapEntry(table, output, j)
      invariant forall j :: i <= j < |table| ==> mapped[j] == table[j]
    {
      mapped := mapped[i := table[i].(out := UNMAPPED)];
      if table[i].rec.valid {
        if cursor > output.last {
          assert forall j :: i <= j < |table| ==> mapped[j] == MapEntry(table, output, j) by {
            forall j | i <= j < |table| ensures mapped[j] == MapEntry(table, output, j) {
              LiveGrows(table, i, j);
            }
          }
          break;
        }
        mapped := mapped[i := table[i].(out := UNMAPPED.(outputPba := cursor, mapped := true))];
        cursor := cursor + BLOCK_SECTORS;
      }
      i := i + 1;
    }
    assert mapped == MapEntries(table, output);
  }

  lemma {:induction false} LiveGrows(table: seq<Entry>, i: nat, j: nat)
    requires i <= j <= |table|
    ensures LiveBefore(table, i) <= LiveBefore(table, j) <= LiveBefore(table, i) + (j - i)
    decreases j
  {
    if i < j { LiveGrows(table, i, j - 1); }
  }

  /** Two live entries never share an output sector, and a range of one block per entry has room for
      all of them. */
  lemma MappedDistinct(table: seq<Entry>, output: Range, i: nat, j: nat)
    requires output.Range? && i < j < |table|
    requires MapEntry(table, output, i).out.mapped && MapEntry(table, output, j).out.mapped
    ensures MapEntry(table, output, i).out.outputPba + BLOCK_SECTORS <= MapEntry(table, output, j).out.outputPba
  {
    LiveGrows(table, i + 1, j);
  }

  lemma MappedInside(table: seq<Entry>, output: Range, i: nat)
    requires output.Range? && i < |table|
    requires output.last == output.first + |table| * BLOCK_SECTORS - 1
    ensures var e := MapEntry(table, output, i);
            && (e.out.mapped <==> table[i].rec.valid)
            && (e.out.mapped ==> output.first <= e.out.outputPba && e.out.outputPba + BLOCK_SECTORS - 1 <= output.last
                                 && (e.out.outputPba - output.first) % BLOCK_SECTORS == 0)
  {
    LiveGrows(table, i, |table|);
    LiveGrows(table, 0, i);
  }
}
