/** Constants and value types of the IMR-LSM metadata. All sector addresses, keys and
    timestamps are natural numbers; the 64-bit counters of the source are not wrapped. */
module Types {
  const LEVELS: nat := 7
  const MAX_LEVEL: nat := 6
  const U32_MAX: nat := 0xFFFF_FFFF
  const MIXED_ZONE: nat := U32_MAX
  const NO_TARGET: nat := U32_MAX
  const BLOCK_SECTORS: nat := 8
  const TOP_TRACK_SIZE: nat := 456
  const BOTTOM_TRACK_SIZE: nat := 568
  const TRACK_GROUPS: nat := 64
  const GROUP_BLOCKS: nat := 1024
  const BOTTOM_BLOCKS: nat := 36352
  const TOTAL_ITEMS: nat := 65536
  const READ_TREE_LIMIT: nat := 4096
  const THRESHOLD_MAX: nat := 4096

  /** One version of a key, as kept by unsorted nodes, sorted nodes and block-table entries.
      A block table does not store `zone`; nothing reads that component of a table entry. */
  datatype Record = Record(key: nat, pba: nat, zone: nat, valid: bool, ts: nat)

  datatype OutputState = OutputState(
    sourcePba: nat, outputPba: nat, sourceValid: bool,
    mapped: bool, planned: bool, copied: bool, committed: bool)

  const UNMAPPED: OutputState := OutputState(0, 0, false, false, false, false, false)

  datatype Entry = Entry(rec: Record, out: OutputState)

  datatype Bloom = Bloom(keys: nat, bits: nat, hashes: nat, words: seq<bv64>)

  datatype Track = Bottom | Top

  /** Sectors first..last (inclusive), or nothing. */
  datatype Range = NoRange | Range(first: nat, last: nat)

  datatype SegmentStats = SegmentStats(live: nat, invalid: nat, tombstones: nat, deleteInvalid: nat, ratio: nat)

  datatype Segment = Segment(
    id: nat, level: nat, zone: nat, track: Track, retired: bool,
    nodes: nat, minKey: nat, maxKey: nat, minTs: nat, maxTs: nat,
    bloom: Bloom, table: seq<Entry>,
    stats: SegmentStats, score: nat, hits: nat,
    window: Range, output: Range)

  /** The records of the tree of levels: unsorted lists (newest first), sorted lists, segments
      (in order of creation). */
  datatype Store = Store(unsorted: seq<seq<Record>>, sorted: seq<seq<Record>>, segs: seq<Segment>)

  function Recs(table: seq<Entry>): (rs: seq<Record>)
    ensures |rs| == |table|
    ensures forall i :: 0 <= i < |rs| ==> rs[i] == table[i].rec
  {
    seq(|table|, i requires 0 <= i < |table| => table[i].rec)
  }

  ghost predicate Ascending(rs: seq<Record>) {
    forall i, j :: 0 <= i < j < |rs| ==> rs[i].key < rs[j].key
  }

  function Max(a: nat, b: nat): nat { if a < b then b else a }

  function Min(a: nat, b: nat): nat { if a < b then a else b }
}
