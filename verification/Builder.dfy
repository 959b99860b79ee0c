/** The segment builder: a block table grown in place in an array, and the bounds of what was added. */
module Builder {
  import opened Types
  import opened Tables

  datatype Summary = Summary(nodes: nat, zone: nat, minKey: nat, maxKey: nat, minTs: nat, maxTs: nat)

  function Extend(s: Summary, r: Record): Summary {
    if s.nodes == 0 then Summary(1, r.zone, r.key, r.key, r.ts, r.ts)
    else Summary(s.nodes + 1, if s.zone == r.zone then s.zone else MIXED_ZONE,
                 Min(s.minKey, r.key), Max(s.maxKey, r.key), Min(s.minTs, r.ts), Max(s.maxTs, r.ts))
  }

  function Summarize(rs: seq<Record>): Summary {
    if rs == [] then Summary(0, 0, 0, 0, 0, 0) else Extend(Summarize(rs[..|rs| - 1]), rs[|rs| - 1])
  }

  /** A table as it leaves the builder: no entry has an output yet. */
  function Fresh(rs: seq<Record>): (table: seq<Entry>)
    ensures |table| == |rs|
    ensures forall i :: 0 <= i < |rs| ==> table[i] == Entry(rs[i], UNMAPPED)
    ensures Recs(table) == rs
  {
    seq(|rs|, i requires 0 <= i < |rs| => Entry(rs[i], UNMAPPED))
  }

  /** The summary bounds everything added and its bounds are met; its zone is a record's zone exactly
      when all records share it. */
  lemma {:induction false} SummaryBounds(rs: seq<Record>)
    ensures var s := Summarize(rs);
            && s.nodes == |rs|
            && (forall i :: 0 <= i < |rs| ==> s.minKey <= rs[i].key <= s.maxKey && s.minTs <= rs[i].ts <= s.maxTs)
            && (s.zone != MIXED_ZONE ==> forall i :: 0 <= i < |rs| ==> rs[i].zone == s.zone)
            && (rs != [] && (forall i :: 0 <= i < |rs| ==> rs[i].zone == rs[0].zone) ==> s.zone == rs[0].zone)
    ensures rs != [] ==> BoundsMet(rs, Summarize(rs))
  {
    hide BoundsMet;
    if rs != [] {
      var n := |rs| - 1;
      SummaryBounds(rs[..n]);
      assert rs == rs[..n] + [rs[n]];
      if n > 0 {
        BoundsStillMet(rs[..n], Summarize(rs[..n]), rs[n]);
      } else {
        FirstBoundsMet(rs);
      }
    }
  }

  ghost predicate HasKeyAt(rs: seq<Record>, key: nat) { exists i :: 0 <= i < |rs| && rs[i].key == key }

  ghost predicate HasTsAt(rs: seq<Record>, ts: nat) { exists i :: 0 <= i < |rs| && rs[i].ts == ts }

  ghost predicate BoundsMet(rs: seq<Record>, s: Summary) {
    HasKeyAt(rs, s.minKey) && HasKeyAt(rs, s.maxKey) && HasTsAt(rs, s.minTs) && HasTsAt(rs, s.maxTs)
  }

  lemma FirstBoundsMet(rs: seq<Record>)
    requires |rs| == 1
    ensures BoundsMet(rs, Summarize(rs))
  {
    assert rs[..0] == [] && Summarize([]).nodes == 0;
    assert HasKeyAt(rs, rs[0].key) && HasTsAt(rs, rs[0].ts);
  }

  lemma BoundsStillMet(front: seq<Record>, s: Summary, r: Record)
    requires BoundsMet(front, s) && s.nodes > 0
    ensures BoundsMet(front + [r], Extend(s, r))
  {
    forall k | HasKeyAt(front, k) || k == r.key ensures HasKeyAt(front + [r], k) {
      if HasKeyAt(front, k) {
        var i :| 0 <= i < |front| && front[i].key == k;
        assert (front + [r])[i].key == k;
      } else {
        assert (front + [r])[|front|].key == k;
      }
    }
    forall k | HasTsAt(front, k) || k == r.ts ensures HasTsAt(front + [r], k) {
      if HasTsAt(front, k) {
        var i :| 0 <= i < |front| && front[i].ts == k;
        assert (front + [r])[i].ts == k;
      } else {
        assert (front + [r])[|front|].ts == k;
      }
    }
  }

  lemma EntriesAre(table: seq<Entry>, rs: seq<Record>)
    requires table == Fresh(rs)
    ensures |table| == |rs| && forall i :: 0 <= i < |rs| ==> table[i].rec == rs[i]
  {
  }

  lemma FreshInsert(rs: seq<Record>, pos: nat, r: Record)
    requires pos <= |rs|
    ensures Fresh(rs[..pos] + [r] + rs[pos..]) == Fresh(rs)[..pos] + [Entry(r, UNMAPPED)] + Fresh(rs)[pos..]
    ensures pos < |rs| ==> Fresh(rs[pos := r]) == Fresh(rs)[pos := Entry(r, UNMAPPED)]
  {
  }

  class SegmentBuilder {
    var summary: Summary
    var buf: array<Entry>
    var count: nat
    const firstCapacity: nat
    ghost var added: seq<Record>

    ghost predicate Valid()
      reads this, buf
    {
      && count <= buf.Length && firstCapacity > 0
      && buf[..count] == Fresh(UpsertAll([], added))
      && summary == Summarize(added)
    }

    constructor (threshold: nat)
      requires threshold > 0
      ensures Valid() && added == [] && fresh(buf)
    {
      summary := Summary(0, 0, 0, 0, 0, 0);
      firstCapacity := threshold;
      buf := new Entry[0](_ => Entry(Record(0, 0, 0, false, 0), UNMAPPED));
      count := 0;
      added := [];
    }

    /** imr_lsm_segment_builder_reserve_block_table: room for one more entry. */
    method Reserve()
      requires Valid()
      modifies this`buf
      ensures Valid() && count < buf.Length
      ensures buf == old(buf) || fresh(buf)
      ensures buf[..count] == old(buf[..count])
    {
      if count < buf.Length {
        return;
      }
      var capacity := if buf.Length > 0 then 2 * buf.Length else firstCapacity;
      var grown := new Entry[capacity](_ => Entry(Record(0, 0, 0, false, 0), UNMAPPED));
      forall i | 0 <= i < count {
        grown[i] := buf[i];
      }
      assert grown[..count] == buf[..count];
      buf := grown;
    }

    /** Position of the first entry whose key is not below `key`. */
    method Position(key: nat) returns (pos: nat)
      requires Valid()
      ensures pos == Rank(UpsertAll([], added), key)
    {
      hide UpsertAll, Fresh;
      ghost var rs := UpsertAll([], added);
      UpsertAllFacts([], added);
      assert |rs| == count && forall i :: 0 <= i < count ==> buf[i].rec == rs[i] by { EntriesAre(buf[..count], rs); }
      if count > 0 && buf[count - 1].rec.key < key {
        pos := count;
      } else {
        pos := 0;
        while pos < count && buf[pos].rec.key < key
          invariant pos <= count
          invariant forall i :: 0 <= i < pos ==> rs[i].key < key
        {
          pos := pos + 1;
        }
      }
      RankUnique(rs, key, pos);
    }

    /** Entries from `pos` on move up by one and `r` takes the gap. */
    method InsertAt(pos: nat, r: Record)
      requires pos <= count < buf.Length
      modifies this`count, buf
      ensures count == old(count) + 1 <= buf.Length
      ensures buf[..count] == old(buf[..pos]) + [Entry(r, UNMAPPED)] + old(buf[pos..count])
    {
      forall i | pos <= i < count {
        buf[i + 1] := buf[i];
      }
      buf[pos] := Entry(r, UNMAPPED);
      count := count + 1;
    }

    /** imr_lsm_segment_builder_add_block_entry: a later version replaces, a new key is inserted. */
    method AddEntry(r: Record)
      requires Valid()
      modifies this`buf, this`count, buf
      ensures buf == old(buf) || fresh(buf)
      ensures count <= buf.Length
      ensures buf[..count] == Fresh(Upsert(UpsertAll([], added), r))
    {
      hide UpsertAll, Rank, Fresh;
      ghost var rs := UpsertAll([], added);
      var pos := Position(r.key);
      ghost var table := buf[..count];
      assert table == Fresh(rs);
      if pos < count && buf[pos].rec.key == r.key {
        assert buf[pos] == table[pos];
        if r.ts > buf[pos].rec.ts {
          buf[pos] := Entry(r, UNMAPPED);
          assert buf[..count] == table[pos := Entry(r, UNMAPPED)];
          FreshInsert(rs, pos, r);
        }
        return;
      }
      assert pos < |rs| ==> rs[pos] == table[pos].rec && table[pos] == buf[pos];
      Reserve();
      assert buf[..pos] == table[..pos];
      assert buf[pos..count] == table[pos..];
      InsertAt(pos, r);
      FreshInsert(rs, pos, r);
    }

    /** Zone, key and timestamp bounds after `r` was added. */
    method Note(r: Record)
      modifies this`summary
      ensures summary == Extend(old(summary), r)
    {
      if summary.nodes == 0 {
        summary := Summary(0, r.zone, r.key, r.key, r.ts, r.ts);
      } else {
        summary := Summary(summary.nodes, if summary.zone != r.zone then MIXED_ZONE else summary.zone,
                           if r.key < summary.minKey then r.key else summary.minKey,
                           if r.key > summary.maxKey then r.key else summary.maxKey,
                           if r.ts < summary.minTs then r.ts else summary.minTs,
                           if r.ts > summary.maxTs then r.ts else summary.maxTs);
      }
      summary := summary.(nodes := summary.nodes + 1);
    }

    /** imr_lsm_segment_builder_add. */
    method Add(r: Record)
      requires Valid()
      modifies this, buf
      ensures Valid() && added == old(added) + [r]
      ensures buf == old(buf) || fresh(buf)
    {
      hide Upsert, Fresh, Extend;
      AddEntry(r);
      Note(r);
      added := added + [r];
      assert added[..|added| - 1] == old(added);
    }
  }
}
