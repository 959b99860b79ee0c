# IMR-LSM metadata engine: a verified model

The kernel module simulates an interlaced magnetic recording disk and keeps, for each 4 KB block of the
device, versioned records in a tree of seven levels: unsorted lists, key-unique sorted lists, and append-only
segments with a sorted block table, a Bloom filter and a reserved output range. A bounded read tree answers
repeated reads. Compactions move, merge and drop records; output commits copy payloads to reserved blocks and
redirect records to them; zone compaction slides a full zone's live blocks into the bottom tracks of two zones.

The specification that all of this implements is small: a map from key to its newest version. This project
models the engine's redundant structures as the source has them and proves that they always agree with that
map, that dropping obsolete records never lets old data reappear, and under which conditions payloads survive
every operation.

Layers, bottom up:

| file | subject |
|---|---|
| Types, Layout, CopyJobs | constants, records and segments; track arithmetic; the disk as a map from block to payload |
| Bloom, Tables, Builder | filter, sorted tables, segment builder (arrays, in place) |
| Scan, Obsolescence | searches over the store, the read path, keep rules, statistics and selection |
| DynamicLevels, Placement, Commit, CommitLoops, ReadTree, WriteCost | level plan and picker, output ranges, entry states, their loops, the LRU search tree, write accounting |
| Spec | the engine as values: its state and what each operation makes of it |
| Engine | the engine as one object updated in place; each method is proved equal to its specification |
| Outputs, Shape, History, SoundSteps | invariants: output ranges, structure, and soundness against the history of the device |
| ZoneCompaction, ZoneSound, ZoneResult | zone compaction |
| Evolution, Holdings, CommitResult | which blocks hold a live key, and what each operation does to them |
| LevelMoves, Selection, SegmentCompaction, Redirection, FullZone, TreeEffects | what each operation does, in terms of counts, keys and blocks and apart from the definitions it is computed with |
| Runs, DeadKeys, Timestamps, Integrity, FirstRound, Progress, RunCost | theorems about every run |
| Collision, LostDelete | two runs after which the device does not do what one expects |

Conventions. Each function that the source runs under its lock is one step. Timestamps count from 1 and the
history (`State.log`) records which operation took which timestamp; it and `State.commits` exist for the proofs
only, and `DeadKeys.StepLog` states that no operation depends on the history. The -1 of the source's block map is an
absent key of `State.zone`. Which blocks cannot be read or written, and whether a device is attached, are
parameters (`Io`). `x / y` is used on natural numbers only, where it agrees with the source's division.

Three things the code does that its description does not lead one to expect, stated as theorems:

* A deleted key may be answered with an older delete's timestamp than its last one, and the read tree may cache
  that (`LostDelete.DroppedDeleteLeavesOlder` is such a run); `Timestamps.ReadTimestamp` and
  `Timestamps.CachedTimestamp` say exactly when, and `Timestamps.NewestStaysVisible` exactly when segment
  compaction causes it. Whether the key is readable is never affected.
* Segment outputs are placed without regard to the blocks that writes were given, so a copying commit can make a
  key read another key's data (`Collision.CommitReturnsOtherData` is such a run). `FirstRound.FirstRoundKeepsExactly`
  says for the first round exactly which keys keep their payload, and `Integrity.ReadsReturnLastWrite` covers every
  run whose steps are harmless, which can be seen from the tables before each step.
* The number of blocks of a sector range is returned as 32 bits, so the blocks of a range that spans more are
  not all visited (`Layout.CountIsExact`, `Runs.WrappedDiscard`).

## Model

| member | source | states |
|---|---|---|
| `Runs.RunSound` | imrsim_kmod/dm-imrsim.c:2871-4318 | After every run of writes, deletes, reads, flushes, level, segment and zone compactions, commits and setting changes the engine is sound against its history, and the history makes live exactly the keys a plain map of the same operations would hold. |
| `Runs.ReadsRefineMap` | imrsim_kmod/dm-imrsim.c:4057-4227 | After every run a read is VALID exactly for the keys whose last accepted operation was a write; a miss never falls back to a stale zone map slot; the answer identifies the newest version, at the address written then or at the output of a committed copy of that very version. |
| `Runs.StepSound` | imrsim_kmod/dm-imrsim.c:2871-4318 | Each operation keeps soundness and the truth of the zone map, and changes the liveness of no key but the one written or deleted. |
| `Runs.UpkeepKeepsReads` | imrsim_kmod/dm-imrsim.c:2871-2967 | No flush, level or segment compaction, commit, read or setting turns a key from readable to unreadable or back; the version read stays the newest one. |
| `Runs.DroppedDeleteIsSafe` | imrsim_kmod/dm-imrsim.c:2466-2523 | When no visible record shows the last operation on a key any more, that operation was a delete, no live record of the key is left in any list or active segment, its zone map slot is empty and it reads as absent. |
| `DeadKeys.DroppedStaysDropped` | imrsim_kmod/dm-imrsim.c:2488-2523 | From then on that stays so through any further operations, until the key is written again. |
| `DeadKeys.DeadStaysDead` | imrsim_kmod/dm-imrsim.c:2488-2523 | One step of it: only a write of the key can store a live record of it again. |
| `DeadKeys.StepLog` | imrsim_kmod/dm-imrsim.c:2871-4318 | An operation's effect on lists, segments, maps, read tree and disk does not depend on the history of the device. |
| `Runs.RunOutputs` | imrsim_kmod/dm-imrsim.c:1566-1689 | After every run the outputs of active segments are pairwise disjoint, mapped blocks lie inside their segment's range in order, entries obey the commit state machine, and the read tree's list, map and bound agree. |
| `Runs.CommittedWereCopied` | imrsim_kmod/dm-imrsim.c:2093-2114 | In runs without metadata-only commits (mode 2), whatever is committed was copied. |
| `Runs.DiscardRemovesTouched` | imrsim_kmod/dm-imrsim.c:4302-4318 | After any run, a discard makes exactly the keys of the blocks the source counts unreadable; where the number of blocks fits 32 bits those are the blocks the range touches. |
| `Runs.WrappedDiscard` | imrsim_kmod/dm-imrsim.c:3982-3997 | A discard of 2^32 blocks visits none: the state does not change. |
| `Runs.RangeIsDeletes` | imrsim_kmod/dm-imrsim.c:4302-4318 | Discarding a range of keys equals deleting them one by one and removes exactly them from the plain map. |
| `Spec.RangeBeyond` | imrsim_kmod/dm-imrsim.c:4308-4315 | Stopping a discard at the first key outside the device leaves the same state as going through all of them. |
| `History.ReadIsCorrect` | imrsim_kmod/dm-imrsim.c:4057-4227 | In every sound state a read is VALID exactly when the last operation on the key was a write, and it names that version. |
| `History.SlowReadFinds` | imrsim_kmod/dm-imrsim.c:4098-4153 | The path behind the read tree finds a live key as its newest version, and what it finds may be cached. |
| `History.RearrangedSound` | imrsim_kmod/dm-imrsim.c:3737-3824 | Any change of the lists that invents no version and hides none keeps every key's history and coverage; this is the shared argument for all compactions. |
| `ZoneSound.SkippingSortedIsSound` | imrsim_kmod/dm-imrsim.c:3524-3532 | Reading without the sorted lists agrees with the exhaustive search on validity, on the timestamp of live keys and wherever the last operation is visible, and before any commit on the address. |
| `ZoneSound.LatestFinds` | imrsim_kmod/dm-imrsim.c:2282-2347 | The exhaustive search finds a live record exactly for a live key, and then its newest version. |
| `SoundSteps.MoveLevelSound` | imrsim_kmod/dm-imrsim.c:3737-3824 | A bottom flush or level compaction keeps the engine sound. |
| `SoundSteps.CommitOutputSound` | imrsim_kmod/dm-imrsim.c:2093-2114 | Planning, copying and committing outputs, with the refresh of the read tree, keep the engine sound, whether or not the copy fails. |
| `Redirection.CommitRedirects` | imrsim_kmod/dm-imrsim.c:1797-1895 | After a commit, with or without copying, a live key in the read tree is cached at, and read from, the output of the last active entry in segment order that held its newest version, was mapped and was not committed yet; with room in the tree for all entries it is there. |
| `Redirection.CommitLeavesOthers` | imrsim_kmod/dm-imrsim.c:1797-1895 | A live key for which no active table had such an entry keeps its cached node, if any is left. |
| `Redirection.CommitPoints` | imrsim_kmod/dm-imrsim.c:1797-1895 | Every live, mapped entry of an active segment then addresses its output and remembers its old address; all other entries keep theirs. |
| `SoundSteps.DroppedIsDispensable` | imrsim_kmod/dm-imrsim.c:2488-2523 | An entry the compactor drops is superseded, or is a delete of a key with no live record and no zone map slot. |
| `SoundSteps.ReplaceSegmentSound` | imrsim_kmod/dm-imrsim.c:2871-2938 | Replacing a segment by one holding what it must keep, and retiring it, keeps the engine sound even when other segments hold copies with equal timestamps. |
| `Shape.ReplaceSegmentShape` | imrsim_kmod/dm-imrsim.c:2871-2938 | It also keeps list order, segment lookup structures, output ranges and identities. |
| `SoundSteps.CompactSelectedSound` | imrsim_kmod/dm-imrsim.c:2871-2967 | Selection, replacement and the copying commit together keep the engine sound and change neither history nor zone map. |
| `Timestamps.ReadTimestamp` | imrsim_kmod/dm-imrsim.c:4098-4153 | The timestamp a read reports is that of the key's last operation exactly when a record of it is visible; otherwise it is older. |
| `Timestamps.NewestStaysVisible` | imrsim_kmod/dm-imrsim.c:2488-2523 | Segment compaction keeps the last operation visible if and only if another list shows it, it was a write, the zone map holds the key, or an older live record is stored: the guard of the tombstone rule. |
| `Timestamps.CachedTimestamp` | imrsim_kmod/dm-imrsim.c:4198-4220 | A read that misses the read tree leaves there what it found, and nothing otherwise; the cached timestamp is that of the key's last operation exactly when a record of it is visible. |
| `TreeEffects.ReadEffects` | imrsim_kmod/dm-imrsim.c:4057-4227 | A read makes the key the last used one of the tree if it is known there or found behind it, and counts a hit for exactly the active segments that have the key if the tree has not. |
| `TreeEffects.WriteCaches` | imrsim_kmod/dm-imrsim.c:3853-3899 | A write leaves its key in the tree as last used, at the block written. |
| `TreeEffects.DeleteCaches` | imrsim_kmod/dm-imrsim.c:4264-4288 | A delete leaves the fact that its key is deleted, as last used. |
| `LostDelete.DroppedDeleteLeavesOlder` | imrsim_kmod/dm-imrsim.c:2488-2523 | A run where it is not: two deletes of a key, a read behind the read tree between them, and one segment compaction. The read hit makes the newer delete's segment the candidate; it is retired, reads answer with timestamp 1 of 2 and cache that, while the sorted list still has the newer delete. |
| `LostDelete.NewerSelected` | imrsim_kmod/dm-imrsim.c:2627-2747 | In that state the scores select the newer delete's segment and nothing of it is kept. |
| `Integrity.ReadsReturnLastWrite` | imrsim_kmod/dm-imrsim.c:2871-4318 | Over every run of writes, deletes, reads, flushes, level, segment and zone compactions, commits of every mode and setting changes, complete or failing: if no step writes a block that the newest version of another live key would lose by, a read is answered exactly for the keys written and not deleted since, and the block it is sent to holds what was last written. |
| `Integrity.StepCoherent` | imrsim_kmod/dm-imrsim.c:2871-4318 | One step of that: every block that any list, active table, read tree node or uncommitted copy names for a live key's newest version holds the key's payload, before and after. |
| `Integrity.QuietRunsAreHarmless` | imrsim_kmod/dm-imrsim.c:7485-7541 | Runs that write, delete, read, flush and compact levels within the zones' capacity need no looking at: all their steps are harmless, and each live key is held by its mapped block. |
| `Integrity.OrderedSlideIsHarmless` | imrsim_kmod/dm-imrsim.c:3326-3396 | After them, sliding a full zone whose live blocks lie in it in allocation order is harmless too. |
| `Holdings.ReadsAreHeld` | imrsim_kmod/dm-imrsim.c:4057-4227 | A read of a live key is sent to a block that holds its newest version. |
| `Holdings.WriteCoherent` | imrsim_kmod/dm-imrsim.c:7485-7541 | A write whose block no other live key's newest version is held by keeps all payloads and adds its own. |
| `CommitResult.CommitCoherent` | imrsim_kmod/dm-imrsim.c:2093-2114 | A harmless commit of any mode keeps all payloads where reads find them, whether all copies succeed or one fails half-way; entries copied by an earlier, failed round are committed without a new copy and still lead to the payload. |
| `CommitResult.CopiedCoherent` | imrsim_kmod/dm-imrsim.c:1926-2091 | The copying alone, complete or broken off, does so: no target is the block of another live key that is not copied before. |
| `ZoneResult.SlideCoherent` | imrsim_kmod/dm-imrsim.c:3266-3461 | A harmless zone compaction, complete, broken off or refused, does so. |
| `Evolution.AppendGains` | imrsim_kmod/dm-imrsim.c:3853-3899 | Recording an operation, with all the flushes and compactions it causes, adds one record and one cached node at most, and touches no segment but for its statistics. |
| `Integrity.LiveBlocksDistinct` | imrsim_kmod/dm-imrsim.c:7485-7541 | In runs without zone compaction that stay within the zones' capacity, live keys have pairwise distinct physical blocks. |
| `CommitResult.RoundTargetsDistinct` | imrsim_kmod/dm-imrsim.c:1926-2091 | No two copies of a round go to the same block. |
| `CommitResult.CommitFrame` | imrsim_kmod/dm-imrsim.c:1926-2091 | A round, complete or not, changes no block that is not one of its targets. |
| `FirstRound.FirstRoundKeepsExactly` | imrsim_kmod/dm-imrsim.c:2093-2114 | On a device that has not committed before, a complete copying round keeps what a live key reads, whatever the disk holds, if and only if none of the copies the key is exposed to puts other data on its block: those before its own copy if the commit redirects it, all of the round's otherwise. |
| `FirstRound.ReadOrigin` | imrsim_kmod/dm-imrsim.c:1926-2114 | The payload a live key reads after the round is the one that stood, before the round, where the copies it is exposed to fetch its block's content from. |
| `FirstRound.ReadAfterRound` | imrsim_kmod/dm-imrsim.c:2093-2114 | After the first complete round a read goes to the block last written or to where the round copied that block. |
| `CopyJobs.OriginExact` | imrsim_kmod/dm-imrsim.c:1990-2020 | A block holds after a series of copies what another held before, for every disk content, if and only if the copies lead back to that other block. |
| `CopyJobs.OriginKept` | imrsim_kmod/dm-imrsim.c:1990-2020 | A block keeps its own content, for every disk content, if and only if no copy puts other data on it. |
| `Collision.OutputMeetsAllocatedBlock` | imrsim_kmod/dm-imrsim.c:1566-1633 | With no other output around, a segment of one early key is sent to the very block the zone's first second-phase write is given. |
| `Collision.FillingFills` | imrsim_kmod/dm-imrsim.c:7485-7541 | Writing and deleting one key n times takes n blocks of the zone and leaves the first write's record in the first segment, with that output. |
| `Collision.CommitReturnsOtherData` | imrsim_kmod/dm-imrsim.c:2093-2114 | So there is a run, 36352 writes of key 0 and one of key 1 on one zone, after which a copying commit without any fault makes key 1 read what was written to key 0. |
| `ZoneCompaction.SlideDelivers` | imrsim_kmod/dm-imrsim.c:3326-3396 | Zone compaction of a zone whose live blocks lie in it in allocation order: after the copies every moved key's destination holds what its source held before the first copy. |
| `ZoneCompaction.SlideIsSafe` | imrsim_kmod/dm-imrsim.c:3326-3396 | In that layout no copy overwrites a block that a later copy still reads, and no two go to one block. |
| `ZoneCompaction.SeededRank` | imrsim_kmod/dm-imrsim.c:3181-3194 | Seeding a whole zone gives that layout: a key's offset is its block's place in allocation order. |
| `ZoneCompaction.SlideMoves` | imrsim_kmod/dm-imrsim.c:3326-3396 | The moved records are live keys of the zone, the i-th with the i-th destination and the i-th new timestamp; as many as are live. |
| `ZoneCompaction.SlideComplete` | imrsim_kmod/dm-imrsim.c:3326-3396 | No live key of the zone is left out. |
| `ZoneResult.CompactZoneResult` | imrsim_kmod/dm-imrsim.c:3326-3461 | On success live and skipped keys make up the zone; live keys map in key order, one block each, to ascending bottom blocks of the zone and the next; the two fills sum to the live count; no other zone's keys or fills change. |
| `FullZone.FullZoneIsCompacted` | imrsim_kmod/dm-imrsim.c:3303-3461 | A full zone with an unused successor and a live key is compacted if and only if each live key's block can be copied to its place or lies there already. The result has the live keys, in key order, on the first bottom blocks of the zone and the next one; fills, zone map, history, clock, the appended L6 segment and what reads answer follow from that order, and nothing else has moved. Otherwise records, read tree, maps and fills stay. |
| `FullZone.NoFaultsCompacts` | imrsim_kmod/dm-imrsim.c:3303-3461 | So on a device without faulty blocks such a zone is always compacted. |
| `FullZone.OthersAreRefused` | imrsim_kmod/dm-imrsim.c:3286-3310 | A zone without successor, one that is not full and one whose successor is in use are refused, and nothing changes. |
| `FullZone.SlideOkExactly` | imrsim_kmod/dm-imrsim.c:3326-3396 | The copying goes through exactly if, for each live key, source and destination are the same block or neither is faulty. |
| `ZoneResult.FailedCompactionKeeps` | imrsim_kmod/dm-imrsim.c:3430-3461 | A compaction that is refused or fails leaves records, segments, read tree, zone maps and fills alone. |
| `ZoneSound.CompactZoneSound` | imrsim_kmod/dm-imrsim.c:3266-3461 | Zone compaction, successful or not, keeps the engine sound. |
| `Runs.MovedAreLive` | imrsim_kmod/dm-imrsim.c:3326-3396 | The slide moves exactly the live keys of the zone. |
| `Progress.MoveResult` | imrsim_kmod/dm-imrsim.c:3535-3646 | A move empties its source, leaves the destination's sorted list strictly ascending with the newest record per key that was there or arrived, and leaves an active segment at the destination covering every moved key. |
| `LevelMoves.CompactionGoesTo` | imrsim_kmod/dm-imrsim.c:3648-3664 | A non-empty level above L6 is compacted into the least deeper level that has a target, which is the deeper of the next level and the base level: its sorted list then holds the newest of what was there and what arrived, one new active segment there covers what arrived, the source is empty and no other list changes. |
| `LevelMoves.BottomCompaction` | imrsim_kmod/dm-imrsim.c:3591-3646 | L6 is compacted within itself. |
| `LevelMoves.NothingToCompact` | imrsim_kmod/dm-imrsim.c:3737-3760 | Compacting an empty level changes no list. |
| `LevelMoves.FlushResult` | imrsim_kmod/dm-imrsim.c:3591-3646 | The flush before an operation empties the unsorted list of L6 into its sorted one exactly if L6 is not the base level of the counts. |
| `LevelMoves.RecordGoesTo` | imrsim_kmod/dm-imrsim.c:3853-3932 | A write or delete is put at the head of the base level's unsorted list. A list that has reached the level's target is emptied at once; one that has not stays as it is when nothing is due; and compactions keep or empty unsorted lists as a whole. |
| `LevelMoves.WriteGoesTo` | imrsim_kmod/dm-imrsim.c:7485-7541 | For a device write that record is the one of the block it went to. |
| `Progress.MoveKeepsLatest` | imrsim_kmod/dm-imrsim.c:3737-3824 | A move leaves the newest stored version of every key unchanged. |
| `Progress.PickedCompactionDescends` | imrsim_kmod/dm-imrsim.c:3703-3851 | What the picker chooses holds entries and is unnecessary or at its target, and compacting it strictly lowers the sum over levels of (6 - level) times entries. |
| `Progress.SettledAtRest` | imrsim_kmod/dm-imrsim.c:3826-3851 | Compacting what is picked over and over ends, with no level's score at the scale. |
| `Progress.SevenRoundsSettle` | imrsim_kmod/dm-imrsim.c:3826-3851 | The source's seven rounds end in that very state if the non-empty levels above L6 lie at most seven steps above it in sum; twenty-one rounds always do. |
| `Progress.CompactionShrinks` | imrsim_kmod/dm-imrsim.c:2871-2938 | Each executed segment compaction drops exactly the entries the recalculation counted as invalid, at least one, so the number of active entries strictly falls. |
| `Progress.IdleMeansBelowQuarter` | imrsim_kmod/dm-imrsim.c:2525-2549 | When no segment is selected, every active segment has invalid * 1000 / entries below 250. |
| `Progress.SettledSegments` | imrsim_kmod/dm-imrsim.c:2677-2747 | Repeated segment compaction ends in such a state. |
| `Obsolescence.KeptFacts` | imrsim_kmod/dm-imrsim.c:2503-2523 | What a compaction keeps is the ascending part of the table that is not counted as invalid; the two counts add up. |
| `Obsolescence.KeepsIsNotObsolete` | imrsim_kmod/dm-imrsim.c:2749-2828 | An entry counts as invalid in the recalculation exactly when the compactor would drop it. |
| `Obsolescence.NewerMeans` | imrsim_kmod/dm-imrsim.c:2349-2411 | The search for a newer record succeeds exactly when some stored record of the key has a later timestamp. |
| `Obsolescence.SelectFacts` | imrsim_kmod/dm-imrsim.c:2677-2747 | The selected segment is the first that no other one beats; none is selected exactly when none scores. |
| `Selection.SelectionExactly` | imrsim_kmod/dm-imrsim.c:2555-2747 | The chosen segment is the first scoring one that none exceeds in score plus timestamps of age plus thousandths of zone fill, less 100 per read hit, thousandths of the window taken and thousandths of live entries on bottom tracks; ties go by score, ratio and number of obsolete entries. |
| `Selection.FullerZoneWins` | imrsim_kmod/dm-imrsim.c:2613-2675 | Of two segments alike in all else the one in the fuller zone goes first. |
| `Selection.OlderWins` | imrsim_kmod/dm-imrsim.c:2559-2566 | Of two alike in all else, the one not added to for longer. |
| `Selection.FewerHitsWin` | imrsim_kmod/dm-imrsim.c:2656-2675 | Of two alike in all else, the one read less often. |
| `Selection.SmallerShareWins` | imrsim_kmod/dm-imrsim.c:2568-2598 | Of two alike in all else, the one whose output takes the smaller part of its window. |
| `Selection.FewerLiveWin` | imrsim_kmod/dm-imrsim.c:2600-2620 | Of two alike in all else on bottom tracks, the one with the smaller part of its entries live. |
| `Selection.HitsAgainstAge` | imrsim_kmod/dm-imrsim.c:2656-2675 | One hit is outweighed by more than 100 timestamps of age and not by fewer. |
| `Selection.FillAgainstAge` | imrsim_kmod/dm-imrsim.c:2656-2675 | A thousandth of zone fill weighs as much as one timestamp. |
| `Selection.StatsAreCounts` | imrsim_kmod/dm-imrsim.c:2749-2847 | The statistics of an active segment are the numbers of its entries that are superseded or unneeded, that are deletes, and that were deleted since; the score is ratio times dropped entries plus 1000 for each deleted and 500 for each tombstone, or nothing below a quarter. |
| `Selection.RetiredScoresNothing` | imrsim_kmod/dm-imrsim.c:2749-2770 | Retired segments do not score. |
| `SegmentCompaction.ChosenIsCompacted` | imrsim_kmod/dm-imrsim.c:2871-2967 | In every sound state a segment compaction replaces the segment that the selection prefers by one, at the same level and on the same kind of track, that holds exactly its indispensable entries; it retires the old one, changes no list and no other segment, and commits if anything was kept. |
| `SegmentCompaction.AppendFresh` | imrsim_kmod/dm-imrsim.c:3853-3899 | Recording an operation ends with statistics and a candidate that agree with the store as it then is. |
| `SegmentCompaction.AppendedSegment` | imrsim_kmod/dm-imrsim.c:1359-1434 | Appending records adds one active segment: the newest record per key, bounds that are met, the zone all records share, and the first room for its entries in the window of its keys. |
| `Obsolescence.Recalculate` | imrsim_kmod/dm-imrsim.c:2749-2847 | The in-place recalculation loop leaves in every segment the statistics of the whole store, though it searches segments it has already rewritten. |
| `Obsolescence.SelectCandidate` | imrsim_kmod/dm-imrsim.c:2677-2747 | The selection loop finds that segment. |
| `Obsolescence.FindSelected` | imrsim_kmod/dm-imrsim.c:2849-2869 | The candidate lookup finds the first active segment with the remembered id, or none. |
| `Obsolescence.KeepLoop` | imrsim_kmod/dm-imrsim.c:2898-2923 | The filter loop collects the kept entries in table order. |
| `Obsolescence.ShouldKeep` | imrsim_kmod/dm-imrsim.c:2503-2523 | The keep rule over the store, by two searches. |
| `Scan.FoldIsNewest` | imrsim_kmod/dm-imrsim.c:2282-2347 | A search result is a record of the key with the highest timestamp above the bound it started from. |
| `Scan.ReadRecordsMembers` | imrsim_kmod/dm-imrsim.c:3524-3532 | Where every non-empty sorted list stands at a level that has had a segment, the read path sees exactly the unsorted records and the entries of active segments. |
| `Scan.ScanAll` | imrsim_kmod/dm-imrsim.c:2282-2411 | The search loops over all levels and active segments, leaving sorted lists early and bisecting tables, return that result. |
| `Scan.FindOlderValid` | imrsim_kmod/dm-imrsim.c:2413-2464 | The older-valid search succeeds exactly when a stored live record of the key is older. |
| `Scan.Probe` | imrsim_kmod/dm-imrsim.c:3483-3519 | Range check, filter and bisection of a segment lose no hit. |
| `Scan.LookupLevel` | imrsim_kmod/dm-imrsim.c:3463-3533 | One level's segments: the newest hit, the hit counts, and a fallback to the sorted list only where the level never had a segment. |
| `Scan.SlowRead` | imrsim_kmod/dm-imrsim.c:4098-4153 | The whole path behind the read tree returns the newest record it can see. |
| `Tables.UpsertAllFacts` | imrsim_kmod/dm-imrsim.c:3535-3573 | Insertions keep a list strictly ascending and invent no record. |
| `Tables.UpsertAllKeeps` | imrsim_kmod/dm-imrsim.c:3535-3573 | For every record given, the list ends with a version of its key at least as new. |
| `Tables.UpsertAllMaximal` | imrsim_kmod/dm-imrsim.c:3535-3573 | The record kept for a key is the newest of all that were given for it. |
| `Tables.SortedUpsert` | imrsim_kmod/dm-imrsim.c:3535-3573 | The loop over the sorted list does one such insertion. |
| `Tables.TableFind` | imrsim_kmod/dm-imrsim.c:2229-2253 | Bisection finds a key if and only if it is in the table. |
| `Builder.SummaryBounds` | imrsim_kmod/dm-imrsim.c:1289-1329 | A builder's bounds contain every key and timestamp added and each bound is met; its zone is a record's zone exactly when all records share it. |
| `Builder.SegmentBuilder.Reserve` | imrsim_kmod/dm-imrsim.c:1189-1222 | Growing the block table keeps its entries and makes room for one more. |
| `Builder.SegmentBuilder.AddEntry` | imrsim_kmod/dm-imrsim.c:1224-1287 | The in-place table takes one insertion: a later version replaces, a new key is moved in at its place. |
| `Builder.SegmentBuilder.Add` | imrsim_kmod/dm-imrsim.c:1289-1329 | After any additions in any order the array holds, strictly ascending, the newest record per key, and the bounds are those of all additions. |
| `BloomFilter.ChosenBits` | imrsim_kmod/dm-imrsim.c:1045-1086 | The filter size is a power of two in 256..16384, at least the bits wanted where that fits, and less than twice them above the minimum. |
| `BloomFilter.MaskIsRemainder` | imrsim_kmod/dm-imrsim.c:1102-1112 | For every size the filter can have, masking with size - 1 is the remainder. |
| `BloomFilter.NoFalseNegatives` | imrsim_kmod/dm-imrsim.c:1114-1178 | Every key of the table a filter was built for passes it. |
| `BloomFilter.FilterRefuses` | imrsim_kmod/dm-imrsim.c:1088-1146 | A filter has three to seven hashes and refuses a key one of whose hashes falls into a word no key of the table uses. |
| `BloomFilter.SetInPlace` | imrsim_kmod/dm-imrsim.c:1114-1124 | Setting a bit in the word array. |
| `BloomFilter.AddInPlace` | imrsim_kmod/dm-imrsim.c:1114-1124 | Adding the bits of a key in the word array. |
| `BloomFilter.Build` | imrsim_kmod/dm-imrsim.c:1148-1178 | The filter built in place in a word array is the specified one. |
| `BloomFilter.Test` | imrsim_kmod/dm-imrsim.c:1126-1146 | The test loop passes a key exactly when all its bits are set. |
| `DynamicLevels.PlanFacts` | imrsim_kmod/dm-imrsim.c:955-1030 | For thresholds 1..4096: targets exist exactly from the base level up, never shrink towards L6, never fall below the threshold and never meet the 32-bit clamp; the levels 1 to base - 1 are empty. |
| `DynamicLevels.PlanExactly` | imrsim_kmod/dm-imrsim.c:955-1030 | The whole plan from the counts, with the first non-empty level and the largest count given: the base level is the highest one, from there up, whose share fits the threshold; exactly the levels whose share is at most half the threshold are unnecessary; and from the base level down the targets are the base size doubled once per level, nowhere below the threshold. |
| `DynamicLevels.PlanOfNothing` | imrsim_kmod/dm-imrsim.c:955-1030 | Without entries above level 0 the base level is L6 with the threshold as target, and no other level has one. |
| `DynamicLevels.HalfIsDivision` | imrsim_kmod/dm-imrsim.c:992-1000 | Repeated truncating halves equal one truncating division by the power of two. |
| `DynamicLevels.Calculate` | imrsim_kmod/dm-imrsim.c:955-1030 | The loops of the calculation, with the clamped doubling, compute that plan. |
| `DynamicLevels.Destination` | imrsim_kmod/dm-imrsim.c:3648-3664 | The destination loop ends at max(level + 1, base level), or L6. |
| `DynamicLevels.PickFacts` | imrsim_kmod/dm-imrsim.c:3666-3735 | The picked level is due and scores highest; nothing is picked exactly when no score reaches the scale. |
| `DynamicLevels.PickExactly` | imrsim_kmod/dm-imrsim.c:3666-3735 | The picked level is the first with the highest score, where an unnecessary level scores 10001 plus its distance from the lowest unnecessary one, a level below its capacity the thousandths of it, and one at capacity ten times the thousandths of its capacity plus what the levels above push down; none is picked exactly when no score reaches 1000. |
| `DynamicLevels.UnnecessaryInOrder` | imrsim_kmod/dm-imrsim.c:3684-3686 | While an unnecessary level holds anything something is picked, and never an unnecessary level behind another one. |
| `DynamicLevels.Pick` | imrsim_kmod/dm-imrsim.c:3703-3735 | The picker's loop finds that level. |
| `Placement.FirstFitFacts` | imrsim_kmod/dm-imrsim.c:1566-1633 | First fit is sound, minimal and complete: the least start in the window whose range meets no active output, and none exactly when no such start exists. |
| `Placement.JumpSkipsNothing` | imrsim_kmod/dm-imrsim.c:1600-1632 | Jumping behind an overlapping output skips no start that fits. |
| `Placement.Allocate` | imrsim_kmod/dm-imrsim.c:1566-1633 | The jumping cursor loop computes the first fit and terminates. |
| `Placement.WindowFacts` | imrsim_kmod/dm-imrsim.c:2136-2227 | A placement window is not empty, starts on a block boundary and lies in its zone. |
| `Placement.WindowCovers` | imrsim_kmod/dm-imrsim.c:2136-2227 | The window holds the top track beside every key of the range, and begins and ends with the tracks of the extreme keys. |
| `Placement.WindowExactly` | imrsim_kmod/dm-imrsim.c:2136-2227 | The window reaches exactly from the top track beside the first key of the range on a bottom track to the one beside the last. |
| `Placement.NoWindow` | imrsim_kmod/dm-imrsim.c:2136-2227 | Without such a key, or for several zones, there is none. |
| `Placement.MapOutput` | imrsim_kmod/dm-imrsim.c:1635-1689 | The mapping loop gives the live entries consecutive blocks of the output, in table order. |
| `Placement.MappedInside` | imrsim_kmod/dm-imrsim.c:1635-1689 | With one block per entry reserved, exactly the live entries are mapped, inside the output and on block boundaries. |
| `Placement.MappedDistinct` | imrsim_kmod/dm-imrsim.c:1635-1689 | Mapped entries take disjoint blocks in ascending order. |
| `Outputs.BlocksDisjoint` | imrsim_kmod/dm-imrsim.c:1566-1689 | Mapped output blocks of active segments are pairwise disjoint. |
| `Outputs.NewSegmentOutputs` | imrsim_kmod/dm-imrsim.c:1359-1434 | Appending a segment keeps active outputs disjoint, blocks inside ranges and entries in their states. |
| `Commit.EntryStates` | imrsim_kmod/dm-imrsim.c:1797-1924 | One entry through plan, copy and commit: committed implies mapped, source recorded and address at the output; committing again changes nothing. |
| `Commit.CommitKeepsPayload` | imrsim_kmod/dm-imrsim.c:1926-2091 | In a safe copying round every entry it commits points to a block holding the payload its old address held. |
| `Commit.FailedCopyCommitsNothing` | imrsim_kmod/dm-imrsim.c:2093-2114 | A round whose copy fails commits nothing and changes no address. |
| `CommitResult.CommitIdempotent` | imrsim_kmod/dm-imrsim.c:1691-2114 | After a round that committed, a further plan, metadata commit or copying commit changes nothing at all: no entry, no block, no cached node, whatever the device does meanwhile. |
| `Commit.RoundKeepsStates` | imrsim_kmod/dm-imrsim.c:1691-2091 | Rounds keep every entry in its state machine, and committed entries copied if they were. |
| `CommitLoops.PlanOutput` | imrsim_kmod/dm-imrsim.c:1691-1795 | The plan loop. |
| `CommitLoops.CopyOutput` | imrsim_kmod/dm-imrsim.c:1926-2091 | The copy loop, which stops at the first block it cannot copy. |
| `CommitLoops.CommitOutput` | imrsim_kmod/dm-imrsim.c:1797-1924 | The commit loop, which rewrites entries in place while it searches for newer records and refreshes the read tree, has the effect of doing all at once. |
| `CopyJobs.RunJobDelivers` | imrsim_kmod/dm-imrsim.c:1990-2020 | A block copy delivers if no earlier one overwrote its source and no later one overwrites its target. |
| `CopyJobs.UnsafeJobsLoseData` | imrsim_kmod/dm-imrsim.c:1990-2020 | Without that order it does not. |
| `ReadTree.HoldsMostRecentlyUsed` | imrsim_kmod/dm-imrsim.c:807-911 | Without removals the tree always holds exactly the most recently used keys, as many as the limit allows, in order of last use; lookups count only when they hit. |
| `ReadTree.EvictsOldest` | imrsim_kmod/dm-imrsim.c:850-911 | Adding to a full tree evicts the least recently used node and nothing else. |
| `ReadTree.OperationsOk` | imrsim_kmod/dm-imrsim.c:807-866 | Lookup, removal, clearing and a new limit keep list and tree holding the same keys once each, within the limit. |
| `ReadTree.UpdateOk` | imrsim_kmod/dm-imrsim.c:868-911 | So does an update. |
| `ReadTree.InsertFacts` | imrsim_kmod/dm-imrsim.c:868-911 | Linking a node where its search ends keeps the tree ordered and adds exactly that key. |
| `ReadTree.EraseFacts` | imrsim_kmod/dm-imrsim.c:828-848 | Erasing a node keeps the tree ordered and removes exactly that key. |
| `ReadTree.LruTree.LookupKey` | imrsim_kmod/dm-imrsim.c:807-826 | A lookup in place: descent, and a hit moves to the tail. |
| `ReadTree.LruTree.RemoveKey` | imrsim_kmod/dm-imrsim.c:828-848 | Removal in place. |
| `ReadTree.LruTree.EvictKeys` | imrsim_kmod/dm-imrsim.c:850-866 | The eviction loop drops from the head until the size fits. |
| `ReadTree.LruTree.UpdateKey` | imrsim_kmod/dm-imrsim.c:868-911 | Update in place: replace unless older, or link and evict. |
| `ReadTree.LruTree.ClearKeys` | imrsim_kmod/dm-imrsim.c:650-670 | The clearing loop. |
| `Layout.Slot2Bijection` | imrsim_kmod/dm-imrsim.c:7485-7541 | Two-phase allocation hands out each of a zone's 65536 blocks exactly once, in the order zone seeding uses. |
| `Layout.Slot3Bijection` | imrsim_kmod/dm-imrsim.c:7542-7611 | So does three-phase allocation, even top tracks before odd ones. |
| `Layout.AllocationOrder` | imrsim_kmod/dm-imrsim.c:7485-7611 | Both fill the bottom tracks one after another first; two-phase allocation then the top tracks in order, three-phase allocation those of even number before those of odd number. |
| `Layout.CountIsExact` | imrsim_kmod/dm-imrsim.c:3982-3997 | The counted blocks are exactly those a sector range touches if and only if their number fits 32 bits. |
| `WriteCost.CountersConserved` | imrsim_kmod/dm-imrsim.c:7678-7717 | Total minus extra writes is the number of accepted writes, for the device and for each zone; the zones add up to the device; extra writes are at most two per write. |
| `RunCost.RunCountersConserved` | imrsim_kmod/dm-imrsim.c:7678-7717 | For every run: the counters are the writes of the run that were sent to the device, or to the zone, plus the rewrites they caused. |
| `RunCost.WriteReported` | imrsim_kmod/dm-imrsim.c:7618-7680 | An accepted write reports one event, and it names the block that the history records and the payload is written to, which after a zone compaction may lie in the next zone. |
| `WriteCost.CostIsBlocksInUse` | imrsim_kmod/dm-imrsim.c:7690-7722 | A bottom write costs one extra write for each of the two blocks at its scaled position, on its group's top track and on the next one's, that was written and not cleared since; a top write costs none. |
| `WriteCost.UsedIsInUse` | imrsim_kmod/dm-imrsim.c:7683-7688 | The marks on top blocks are exactly the blocks written and not cleared since. |
| `WriteCost.ScaledFits` | imrsim_kmod/dm-imrsim.c:7690-7711 | The scaled position is the whole part of 10000 / 12456 of the position; it stays below 456, keeps order and reaches every top position. |
| `WriteCost.WriteStats.RecordWrite` | imrsim_kmod/dm-imrsim.c:7678-7722 | Counting in place, and exactly the used blocks above are queued for rewriting. |
| `Engine.MetadataEngine.constructor` | imrsim_kmod/dm-imrsim.c:698-740 | A new engine is in the initial state. |
| `Engine.MetadataEngine.CalculateLevels` | imrsim_kmod/dm-imrsim.c:955-1030 | Recomputes the plan from the entry counts. |
| `Engine.MetadataEngine.RecalculateStats` | imrsim_kmod/dm-imrsim.c:2749-2847 | Recomputes statistics and candidate. |
| `Engine.MetadataEngine.MakeSegment` | imrsim_kmod/dm-imrsim.c:1359-1409 | A builder's table becomes the specified segment: filter, window, output range and mapping. |
| `Engine.MetadataEngine.MoveNodes` | imrsim_kmod/dm-imrsim.c:3755-3799 | The list loops of a move fill the builder and the destination and unlink the sources. |
| `Engine.MetadataEngine.FlushBottomUnsorted` | imrsim_kmod/dm-imrsim.c:3591-3646 | Bottom flush in place. |
| `Engine.MetadataEngine.CompactLevelAt` | imrsim_kmod/dm-imrsim.c:3737-3824 | Level compaction in place. |
| `Engine.MetadataEngine.RunAllCompactions` | imrsim_kmod/dm-imrsim.c:3826-3851 | Flush and up to seven picked compactions in place. |
| `Engine.MetadataEngine.AppendNode` | imrsim_kmod/dm-imrsim.c:3853-3899 | Appends a record, refreshes the read tree, compacts and recalculates. |
| `Engine.MetadataEngine.InsertKey` | imrsim_kmod/dm-imrsim.c:3901-3932 | Insertion at the active write level. |
| `Engine.MetadataEngine.DeleteKey` | imrsim_kmod/dm-imrsim.c:4264-4288 | Deletes a key: tombstone, read tree and zone map slot; a key outside the device is refused. |
| `Engine.MetadataEngine.DiscardRange` | imrsim_kmod/dm-imrsim.c:4302-4318 | The discard loop; it succeeds exactly when every counted key lies on the device. |
| `Engine.MetadataEngine.WriteKey` | imrsim_kmod/dm-imrsim.c:7485-7541 | A one-block write: relocation, mapping, record, payload. |
| `Engine.MetadataEngine.ReadKey` | imrsim_kmod/dm-imrsim.c:4057-4227 | A read returns the specified answer and counts hits and refreshes the read tree as specified. |
| `Engine.MetadataEngine.CommitOutputs` | imrsim_kmod/dm-imrsim.c:2093-2114 | The three modes of the output commit, with their success condition. |
| `Engine.MetadataEngine.Replace` | imrsim_kmod/dm-imrsim.c:2893-2938 | The selected segment's successor is built and appended, and the segment retires. |
| `Engine.MetadataEngine.CompactSelectedSegment` | imrsim_kmod/dm-imrsim.c:2871-2967 | Segment compaction in place; it fails exactly when a commit follows and one of its copies fails. |
| `Engine.MetadataEngine.SlideBlocks` | imrsim_kmod/dm-imrsim.c:3326-3396 | The copy loop of a zone compaction, stopping at the first block it cannot copy. |
| `Engine.MetadataEngine.CompactFullZone` | imrsim_kmod/dm-imrsim.c:3266-3461 | Zone compaction in place: it reports success and leaves the full layout for a full zone with an unused successor and a live key on a device without faults, and fails without effect where one of the fill conditions is not met. |
| `Engine.MetadataEngine.ClearReadTree` | imrsim_kmod/dm-imrsim.c:650-670 | Clears the read tree. |
| `Engine.MetadataEngine.SetReadTreeLimit` | imrsim_kmod/dm-imrsim.c:5048-5088 | Sets the read tree limit and evicts down to it; more than the default is refused. |
| `Engine.MetadataEngine.SetCompactionThreshold` | imrsim_kmod/dm-imrsim.c:5113-5149 | Sets the threshold and recomputes the plan; more than 4096 is refused. |
| `Engine.MetadataEngine.SetBloomBits` | imrsim_kmod/dm-imrsim.c:5177-5211 | Sets the filter bits per key; more than 64 is refused. |
| `Engine.MetadataEngine.Execute` | imrsim_kmod/dm-imrsim.c:2871-4318 | One operation of a run, carried out on the object, has its specified effect. |
| `Engine.Drive` | imrsim_kmod/dm-imrsim.c:2871-4318 | An object driven through any operations is in the state of that run, so every theorem about runs holds of it. |

## Left out

- Allocation failures: every allocation is taken to succeed. In the source a failed append loses the lists it
  was made from, so soundness is claimed for the success paths only.
- Bio submission and completion, the rewrite thread, work queues and locks: each locked function is one step.
- Statistics that no decision reads, debugfs output, persistence pages, zone configuration, the user utility.
- The automatic trigger of zone compaction and its candidate tracking: zone compaction is a step of its own.
- Seeding a full zone as a step: it enters blocks for which no record exists. It appears as the layout that
  `ZoneCompaction.SeededRank` describes; sliding such a zone is covered by `ZoneCompaction.SlideDelivers`.
- Writes of more than one block, writes under one-phase and three-phase allocation as steps of a run, and
  allocation past the end of a zone. The three-phase formula itself is covered by `Layout.Slot3Bijection`.
- Wrap-around of 64-bit sectors, keys and timestamps and of the 32-bit counters; zone and block sizes other
  than the defaults.
- Rebalancing of the read tree: the tree is an ordered search tree without colours.
- Lists, segments and tree nodes as heap objects: they are sequences and trees held in fields, so unlinking and
  freeing are not modelled. The block table of a builder and the words of a filter are arrays.
- The zone recorded with a block-table entry: nothing reads it from there.
- Integrity.ReadsReturnLastWrite: asks for harmless steps, which is sufficient: the condition looks at every block
  that holds a newest version, also at one that no read would be sent to any more. The exact condition is given
  for the first complete round only (`FirstRound.FirstRoundKeepsExactly`).
- ZoneCompaction.SlideDelivers: asks for live blocks in allocation order within the zone. Other layouts are covered
  by the condition of `ZoneResult.SlideCoherent`.
- ZoneResult.FailedCompactionKeeps: says nothing about the disk; a compaction that fails half-way has already
  overwritten the blocks it copied to, and has used up timestamps. `ZoneResult.SlideCoherent` says when that does
  no harm.
- Progress.SettledAtRest: is about repeating picked compactions until none is due; the source stops after seven
  rounds and continues with the next write. `Progress.SevenRoundsSettle` says when that is enough.
- WriteCost.CountersConserved: is about runs without a reset of the statistics and without seeding.
