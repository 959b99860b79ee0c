/** What a write costs on interlaced tracks: writing a bottom block rewrites the used blocks above it on
    the top tracks on either side. */
module WriteCost {
  import opened Types

  // ---------------------------------------------------------------- which blocks lie above

  datatype TopBlock = TopBlock(zone: nat, track: nat, index: nat)

  function TrackOf(block: nat): nat { block / GROUP_BLOCKS }

  predicate IsTop(block: nat) { block % GROUP_BLOCKS < TOP_TRACK_SIZE }

  function AsTop(zone: nat, block: nat): TopBlock { TopBlock(zone, TrackOf(block), block % GROUP_BLOCKS) }

  /** Position on a top track of a bottom track's position: tracks differ in density, and the source
      scales by a rate of four decimal digits. */
  function Scaled(within: nat): nat { within * 10000 / TRACK_RATE }

  const TRACK_RATE: nat := BOTTOM_TRACK_SIZE * 10000 / TOP_TRACK_SIZE

  /** The scaled position is the whole part of 10000 / 12456 times the position. It exists on a top track,
      scaling keeps the order, and every position of the top track is the scaled one of some bottom
      position. */
  lemma ScaledFits(a: nat, b: nat, top: nat)
    requires a <= b < BOTTOM_TRACK_SIZE && top < TOP_TRACK_SIZE
    ensures Scaled(a) * 12456 <= a * 10000 < (Scaled(a) + 1) * 12456
    ensures Scaled(a) <= Scaled(b) < TOP_TRACK_SIZE
    ensures exists c: nat :: c < BOTTOM_TRACK_SIZE && Scaled(c) == top
  {
    assert TRACK_RATE == 12456;
    var p, q := a * 10000 / 12456, b * 10000 / 12456;
    assert 12456 * p <= a * 10000 <= b * 10000 < 12456 * q + 12456;
    var c := (top * 12456 + 9999) / 10000;
    assert top * 12456 <= c * 10000 < top * 12456 + 10000;
    assert c * 10000 / 12456 == top;
    assert c < BOTTOM_TRACK_SIZE && Scaled(c) == top;
  }

  /** The top blocks beside a bottom block: on its own group's top track and on the next one's. */
  function Above(zone: nat, block: nat, side: nat): TopBlock
    requires !IsTop(block)
  {
    TopBlock(zone, TrackOf(block) + side, Scaled(block % GROUP_BLOCKS - TOP_TRACK_SIZE))
  }

  predicate Rewrites(used: set<TopBlock>, zone: nat, block: nat, side: nat) {
    !IsTop(block) && TrackOf(block) + side < TRACK_GROUPS && Above(zone, block, side) in used
  }

  function Cost(used: set<TopBlock>, zone: nat, block: nat): (c: nat)
    ensures c <= 2
  {
    (if Rewrites(used, zone, block, 0) then 1 else 0) + (if Rewrites(used, zone, block, 1) then 1 else 0)
  }

  // ---------------------------------------------------------------- the counters

  datatype Stats = Stats(total: nat, extra: nat, zoneTotal: seq<nat>, zoneExtra: seq<nat>, used: set<TopBlock>)

  /** A one-block write, or the clearing of a zone's top-track usage after its compaction. */
  datatype Event = Written(zone: nat, block: nat) | Cleared(zone: nat)

  predicate Accepted(e: Event, zones: nat) { e.Written? && e.zone < zones && e.block < TOTAL_ITEMS }

  function Account(s: Stats, e: Event): (r: Stats)
    requires |s.zoneTotal| == |s.zoneExtra|
    ensures |r.zoneTotal| == |r.zoneExtra| == |s.zoneTotal|
  {
    if e.Cleared? then s.(used := set t | t in s.used && t.zone != e.zone)
    else if !Accepted(e, |s.zoneTotal|) then s
    else
      var c := Cost(s.used, e.zone, e.block);
      Stats(s.total + 1 + c, s.extra + c,
            s.zoneTotal[e.zone := s.zoneTotal[e.zone] + 1 + c], s.zoneExtra[e.zone := s.zoneExtra[e.zone] + c],
            if IsTop(e.block) then s.used + {AsTop(e.zone, e.block)} else s.used)
  }

  function AccountAll(zones: nat, events: seq<Event>): (r: Stats)
    ensures |r.zoneTotal| == |r.zoneExtra| == zones
  {
    if events == [] then Stats(0, 0, seq(zones, _ => 0), seq(zones, _ => 0), {})
    else Account(AccountAll(zones, events[..|events| - 1]), events[|events| - 1])
  }

  // ---------------------------------------------------------------- an independent account

  /** The `i`-th event wrote the top block, and no later one cleared its zone. */
  ghost predicate UsedSince(zones: nat, events: seq<Event>, t: TopBlock, i: nat)
    requires i < |events|
  {
    && Accepted(events[i], zones) && events[i].block % GROUP_BLOCKS < TOP_TRACK_SIZE
    && t == TopBlock(events[i].zone, events[i].block / GROUP_BLOCKS, events[i].block % GROUP_BLOCKS)
    && forall j :: i < j < |events| ==> events[j] != Cleared(t.zone)
  }

  ghost predicate InUse(zones: nat, events: seq<Event>, t: TopBlock) {
    exists i :: 0 <= i < |events| && UsedSince(zones, events, t, i)
  }

  lemma InUseStep(zones: nat, events: seq<Event>, t: TopBlock)
    requires events != []
    ensures var n := |events| - 1;
            InUse(zones, events, t) <==>
              UsedSince(zones, events, t, n) || (InUse(zones, events[..n], t) && events[n] != Cleared(t.zone))
  {
    var n := |events| - 1;
    forall i | 0 <= i < n
      ensures UsedSince(zones, events, t, i) <==> UsedSince(zones, events[..n], t, i) && events[n] != Cleared(t.zone)
    {
    }
  }

  /** The marks kept are exactly the top blocks written and not cleared since. */
  lemma {:induction false} UsedIsInUse(zones: nat, events: seq<Event>, t: TopBlock)
    ensures t in AccountAll(zones, events).used <==> InUse(zones, events, t)
  {
    hide Cost, InUse;
    if events == [] {
      assert !InUse(zones, [], t) by { NothingInUse(zones, t); }
    } else {
      UsedIsInUse(zones, events[..|events| - 1], t);
      InUseStep(zones, events, t);
    }
  }

  lemma NothingInUse(zones: nat, t: TopBlock)
    ensures !InUse(zones, [], t)
  {
  }

  function Sum(xs: seq<nat>, n: nat): nat
    requires n <= |xs|
  {
    if n == 0 then 0 else Sum(xs, n - 1) + xs[n - 1]
  }

  lemma {:induction false} SumUpdate(xs: seq<nat>, at: nat, more: nat, n: nat)
    requires at < |xs| && n <= |xs|
    ensures Sum(xs[at := xs[at] + more], n) == Sum(xs, n) + (if at < n then more else 0)
  {
    if n > 0 { SumUpdate(xs, at, more, n - 1); }
  }

  lemma {:induction false} SumZeros(zones: nat, n: nat)
    requires n <= zones
    ensures Sum(seq(zones, _ => 0), n) == 0
  {
    if n > 0 { SumZeros(zones, n - 1); }
  }

  /** Accepted writes, to zone `zone` or (`zone == zones`) to any. */
  function CountAccepted(zones: nat, events: seq<Event>, zone: nat): nat {
    if events == [] then 0
    else CountAccepted(zones, events[..|events| - 1], zone) +
         (if Accepted(events[|events| - 1], zones) && (zone == zones || events[|events| - 1].zone == zone) then 1
          else 0)
  }

  lemma AccountStep(zones: nat, s: Stats, e: Event)
    requires |s.zoneTotal| == |s.zoneExtra| == zones
    ensures var r, c := Account(s, e), if Accepted(e, zones) then Cost(s.used, e.zone, e.block) else 0;
            var more := if Accepted(e, zones) then 1 + c else 0;
            && r.total == s.total + more && r.extra == s.extra + c
            && Sum(r.zoneTotal, zones) == Sum(s.zoneTotal, zones) + more
            && Sum(r.zoneExtra, zones) == Sum(s.zoneExtra, zones) + c
            && (forall z :: 0 <= z < zones && (e.Written? ==> z != e.zone) ==>
                  r.zoneTotal[z] == s.zoneTotal[z] && r.zoneExtra[z] == s.zoneExtra[z])
            && (e.Written? && e.zone < zones ==>
                  r.zoneTotal[e.zone] == s.zoneTotal[e.zone] + more && r.zoneExtra[e.zone] == s.zoneExtra[e.zone] + c)
  {
    hide Cost, IsTop, AsTop;
    if Accepted(e, zones) {
      var c := Cost(s.used, e.zone, e.block);
      SumUpdate(s.zoneTotal, e.zone, 1 + c, zones);
      SumUpdate(s.zoneExtra, e.zone, c, zones);
    }
  }

  /** The counters are conserved: total minus extra writes is the number of accepted writes, for the
      device and for each zone; the zones add up to the device; and the extra writes are at most two for
      each write. */
  lemma {:induction false} CountersConserved(zones: nat, events: seq<Event>)
    ensures var s := AccountAll(zones, events);
            && s.total == CountAccepted(zones, events, zones) + s.extra &&
               s.extra <= 2 * CountAccepted(zones, events, zones)
            && (forall z :: 0 <= z < zones ==> s.zoneTotal[z] == CountAccepted(zones, events, z) + s.zoneExtra[z])
            && Sum(s.zoneTotal, zones) == s.total && Sum(s.zoneExtra, zones) == s.extra
  {
    hide Cost, Account;
    if events == [] {
      SumZeros(zones, zones);
    } else {
      var n := |events| - 1;
      CountersConserved(zones, events[..n]);
      AccountStep(zones, AccountAll(zones, events[..n]), events[n]);
    }
  }

  /** What a write costs beyond itself: nothing on a top track; on a bottom track one rewrite for each block in
      use at the same place, scaled by 10000 / 12456, of the top track of its group and of the next one. */
  lemma CostIsBlocksInUse(zones: nat, events: seq<Event>, zone: nat, block: nat, at: nat)
    requires zone < zones && block < TOTAL_ITEMS
    requires block % GROUP_BLOCKS >= TOP_TRACK_SIZE ==>
               at * 12456 <= (block % GROUP_BLOCKS - TOP_TRACK_SIZE) * 10000 < (at + 1) * 12456
    ensures var s, r := AccountAll(zones, events), AccountAll(zones, events + [Written(zone, block)]);
            var track := block / GROUP_BLOCKS;
            r.extra == s.extra +
              (if block % GROUP_BLOCKS < TOP_TRACK_SIZE then 0
               else (if InUse(zones, events, TopBlock(zone, track, at)) then 1 else 0) +
                    (if track + 1 < 64 && InUse(zones, events, TopBlock(zone, track + 1, at)) then 1 else 0))
  {
    hide InUse, Scaled;
    var e := Written(zone, block);
    assert (events + [e])[..|events|] == events;
    if !IsTop(block) {
      ScaledIs(block % GROUP_BLOCKS - TOP_TRACK_SIZE, at);
      UsedIsInUse(zones, events, Above(zone, block, 0));
      UsedIsInUse(zones, events, Above(zone, block, 1));
    }
  }

  lemma ScaledIs(within: nat, at: nat)
    requires at * 12456 <= within * 10000 < (at + 1) * 12456
    ensures Scaled(within) == at
  {
    assert TRACK_RATE == 12456;
  }

  // ---------------------------------------------------------------- in place

  class WriteStats {
    var total: nat
    var extra: nat
    var zoneTotal: seq<nat>
    var zoneExtra: seq<nat>
    var used: set<TopBlock>

    ghost function View(): Stats
      reads this
    {
      Stats(total, extra, zoneTotal, zoneExtra, used)
    }

    constructor (zones: nat)
      ensures View() == AccountAll(zones, [])
    {
      total, extra, zoneTotal, zoneExtra, used := 0, 0, seq(zones, _ => 0), seq(zones, _ => 0), {};
    }

    method CountRewrite(zone: nat)
      requires |zoneTotal| == |zoneExtra| && zone < |zoneTotal|
      modifies this`total, this`extra, this`zoneTotal, this`zoneExtra
      ensures total == old(total) + 1 && extra == old(extra) + 1
      ensures zoneTotal == old(zoneTotal)[zone := old(zoneTotal[zone]) + 1]
      ensures zoneExtra == old(zoneExtra)[zone := old(zoneExtra[zone]) + 1]
    {
      zoneExtra := zoneExtra[zone := zoneExtra[zone] + 1];
      zoneTotal := zoneTotal[zone := zoneTotal[zone] + 1];
      extra := extra + 1;
      total := total + 1;
    }

    /** The end of imrsim_write_rule_check: counts the write, marks a top block or queues the used
        blocks above a bottom block for rewriting. */
    method RecordWrite(zone: nat, block: nat) returns (rewritten: seq<TopBlock>)
      requires |zoneTotal| == |zoneExtra|
      modifies this
      ensures View() == Account(old(View()), Written(zone, block))
      ensures forall t :: t in rewritten <==>
                Accepted(Written(zone, block), |old(zoneTotal)|) && !IsTop(block) && t in old(used) &&
                (t == Above(zone, block, 0) || (t == Above(zone, block, 1) && t.track < TRACK_GROUPS))
    {
      hide Scaled;
      rewritten := [];
      if zone >= |zoneTotal| || block >= TOTAL_ITEMS {
        return;
      }
      zoneTotal := zoneTotal[zone := zoneTotal[zone] + 1];
      total := total + 1;
      if IsTop(block) {
        used := used + {AsTop(zone, block)};
        return;
      }
      if Above(zone, block, 0) in used {
        CountRewrite(zone);
        rewritten := rewritten + [Above(zone, block, 0)];
      }
      if TrackOf(block) + 1 < TRACK_GROUPS && Above(zone, block, 1) in used {
        CountRewrite(zone);
        rewritten := rewritten + [Above(zone, block, 1)];
      }
    }

    /** imr_lsm_clear_zone_top_usage. */
    method ClearZone(zone: nat)
      requires |zoneTotal| == |zoneExtra|
      modifies this`used
      ensures View() == Account(old(View()), Cleared(zone))
    {
      used := set t | t in used && t.zone != zone;
    }
  }
}
