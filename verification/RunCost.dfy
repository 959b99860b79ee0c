/** The write-cost counters of a run: what each step of the device reports to them. */
module RunCost {
  import opened Types
  import opened Layout
  import opened CopyJobs
  import opened Commit
  import opened Spec
  import opened History
  import opened ZoneCompaction
  import opened Runs
  import W = WriteCost

  const ZONE_SECTORS: nat := TOTAL_ITEMS * BLOCK_SECTORS

  /** A one-block write is counted in the zone it is sent to, which after a zone compaction need not be
      the zone of the key. */
  function WriteAt(pba: nat): W.Event { W.Written(pba / ZONE_SECTORS, pba % ZONE_SECTORS / BLOCK_SECTORS) }

  function Target(s: State, key: nat): nat
    requires ZoneOf(key) < |s.zoneFill|
  {
    BlockSector(ZoneOf(key), BlockFor(s, key))
  }

  predicate Compacts(s: State, zone: nat, io: Io)
    requires Levels(s.store)
  {
    !Refused(s, zone) && SlideTo(s, zone, io, TOTAL_ITEMS).ok && SlideTo(s, zone, io, TOTAL_ITEMS).moved != []
  }

  /** What a step reports. The block copies of segment and zone compactions bypass the counters. */
  function Events(s: State, step: Step): seq<W.Event>
    requires Levels(s.store)
  {
    match step
    case DoWrite(key, _) => if ZoneOf(key) < |s.zoneFill| then [WriteAt(Target(s, key))] else []
    case DoCompactZone(zone, io) => if Compacts(s, zone, io) then [W.Cleared(zone), W.Cleared(zone + 1)] else []
    case _ => []
  }

  function RunEvents(zones: nat, steps: seq<Step>): seq<W.Event> {
    if steps == [] then []
    else
      var front := steps[..|steps| - 1];
      RunEvents(zones, front) + Events(Run(zones, front), steps[|steps| - 1])
  }

  /** The block an event names is the sector it came from. */
  lemma WriteAtIs(zone: nat, block: nat)
    ensures var e := WriteAt(BlockSector(zone, block));
            e.Written? && BlockSector(e.zone, e.block) == BlockSector(zone, block)
    ensures block < TOTAL_ITEMS ==> WriteAt(BlockSector(zone, block)) == W.Written(zone, block)
  {
    var pba := BlockSector(zone, block);
    assert pba == (zone * TOTAL_ITEMS + block) * BLOCK_SECTORS;
  }

  /** An accepted write reports exactly one event, for the block that the history records and the payload
      is written to. */
  lemma WriteReported(zones: nat, front: seq<Step>, key: nat, payload: nat)
    requires ZoneOf(key) < zones
    ensures var s, r := Run(zones, front), Run(zones, front + [DoWrite(key, payload)]);
            && |s.zoneFill| == zones
            && RunEvents(zones, front + [DoWrite(key, payload)]) == RunEvents(zones, front) + [WriteAt(Target(s, key))]
            && WriteAt(Target(s, key)).Written?
            && var pba := BlockSector(WriteAt(Target(s, key)).zone, WriteAt(Target(s, key)).block);
               r.log == s.log + [Op(key, true, pba)] && r.disk == WriteBlock(s.disk, pba, payload)
  {
    hide Sound, Write, BlockFor, WriteAt, BlockSector;
    var steps := front + [DoWrite(key, payload)];
    assert steps[..|front|] == front;
    RunSound(zones, front);
    WriteStep(Run(zones, front), key, payload);
    WriteAtIs(ZoneOf(key), BlockFor(Run(zones, front), key));
  }

  /** Writes of the run that were sent to `zone`, or (`zone == zones`) to any zone of the device. */
  function SentTo(zones: nat, steps: seq<Step>, zone: nat): nat {
    if steps == [] then 0
    else
      var front, step := steps[..|steps| - 1], steps[|steps| - 1];
      var s := Run(zones, front);
      SentTo(zones, front, zone) +
      (if step.DoWrite? && ZoneOf(step.key) < |s.zoneFill| && Target(s, step.key) < ZoneLba(zones)
          && (zone == zones || Target(s, step.key) / ZONE_SECTORS == zone) then 1 else 0)
  }

  lemma AcceptedAt(zones: nat, pba: nat)
    ensures W.Accepted(WriteAt(pba), zones) <==> pba < ZoneLba(zones)
  {
  }

  lemma {:induction false} CountAppend(zones: nat, xs: seq<W.Event>, ys: seq<W.Event>, zone: nat)
    ensures W.CountAccepted(zones, xs + ys, zone) == W.CountAccepted(zones, xs, zone) + W.CountAccepted(zones, ys, zone)
  {
    if ys == [] {
      assert xs + ys == xs;
    } else {
      var n := |ys| - 1;
      CountAppend(zones, xs, ys[..n], zone);
      assert (xs + ys)[..|xs + ys| - 1] == xs + ys[..n];
    }
  }

  lemma StepCounted(zones: nat, s: State, step: Step, zone: nat)
    requires Levels(s.store)
    ensures W.CountAccepted(zones, Events(s, step), zone) ==
            if step.DoWrite? && ZoneOf(step.key) < |s.zoneFill| && Target(s, step.key) < ZoneLba(zones)
               && (zone == zones || Target(s, step.key) / ZONE_SECTORS == zone) then 1 else 0
  {
    hide Compacts, Target;
    var es := Events(s, step);
    if step.DoWrite? && ZoneOf(step.key) < |s.zoneFill| {
      AcceptedAt(zones, Target(s, step.key));
      assert es[..0] == [];
    } else {
      NoneCounted(zones, es, zone);
    }
  }

  lemma {:induction false} NoneCounted(zones: nat, events: seq<W.Event>, zone: nat)
    requires forall i :: 0 <= i < |events| ==> events[i].Cleared?
    ensures W.CountAccepted(zones, events, zone) == 0
  {
    if events != [] { NoneCounted(zones, events[..|events| - 1], zone); }
  }

  lemma {:induction false} RunCounted(zones: nat, steps: seq<Step>, zone: nat)
    ensures W.CountAccepted(zones, RunEvents(zones, steps), zone) == SentTo(zones, steps, zone)
  {
    hide Events, Run, Target;
    if steps != [] {
      var front, step := steps[..|steps| - 1], steps[|steps| - 1];
      RunCounted(zones, front, zone);
      CountAppend(zones, RunEvents(zones, front), Events(Run(zones, front), step), zone);
      StepCounted(zones, Run(zones, front), step, zone);
    }
  }

  /** After every run the counters are the run's writes plus the rewrites they caused, for the device and
      for each zone; the zones add up to the device. */
  lemma RunCountersConserved(zones: nat, steps: seq<Step>)
    ensures var c := W.AccountAll(zones, RunEvents(zones, steps));
            && c.total == SentTo(zones, steps, zones) + c.extra && c.extra <= 2 * SentTo(zones, steps, zones)
            && (forall z :: 0 <= z < zones ==> c.zoneTotal[z] == SentTo(zones, steps, z) + c.zoneExtra[z])
            && W.Sum(c.zoneTotal, zones) == c.total && W.Sum(c.zoneExtra, zones) == c.extra
  {
    hide Run, RunEvents, SentTo;
    W.CountersConserved(zones, RunEvents(zones, steps));
    forall z | 0 <= z <= zones ensures W.CountAccepted(zones, RunEvents(zones, steps), z) == SentTo(zones, steps, z) {
      RunCounted(zones, steps, z);
    }
  }
}
