/** Dynamic level sizing, the destination of a level compaction and the compaction picker. */
module DynamicLevels {
  import opened Types
  import opened BloomFilter

  const RATIO: nat := 2
  const SCORE_SCALE: nat := 1000
  const SCORE_BOOST: nat := 10

  /** `target[l]` is NO_TARGET for a level that has none; `lowest` is -1 when no level is unnecessary. */
  datatype LevelPlan = LevelPlan(base: nat, active: nat, lowest: int, target: seq<nat>)

  /** `n` halved `times` times, as the loops of the source do it. */
  function Half(n: nat, times: nat): nat { if times == 0 then n else Half(n, times - 1) / RATIO }

  /** Largest total among levels 1..n-1. */
  function LargestTotal(totals: seq<nat>, n: nat): nat
    requires 1 <= n <= |totals|
  {
    if n == 1 then 0 else Max(LargestTotal(totals, n - 1), totals[n - 1])
  }

  /** First of levels 1..n-1 that is not empty, or -1. */
  function FirstNonEmpty(totals: seq<nat>, n: nat): int
    requires 1 <= n <= |totals|
  {
    if n == 1 then -1
    else
      var before := FirstNonEmpty(totals, n - 1);
      if before == -1 && totals[n - 1] > 0 then n - 1 else before
  }

  function SmallestBase(threshold: nat): nat { Max(threshold / RATIO, 1) }

  /** Highest level from `level` down to `first` that L6's size, halved once per level, does not
      justify. */
  function LowestUnnecessary(size: nat, first: nat, threshold: nat, level: nat): (low: int)
    requires level <= MAX_LEVEL
    ensures low == -1 || first <= low <= level
  {
    if level < first then -1
    else if Half(size, MAX_LEVEL - level) <= SmallestBase(threshold) then level
    else if level == 0 then -1 else LowestUnnecessary(size, first, threshold, level - 1)
  }

  /** Highest level not above `level` at which the halved size fits the threshold, or 1. */
  function BaseLevel(size: nat, threshold: nat, level: nat): (base: nat)
    requires 1 <= level <= MAX_LEVEL
    ensures 1 <= base <= level
  {
    if level == 1 || Half(size, MAX_LEVEL - level) <= threshold then level
    else BaseLevel(size, threshold, level - 1)
  }

  function BaseSize(size: nat, first: nat, base: nat, threshold: nat): nat
    requires first <= MAX_LEVEL && base <= MAX_LEVEL
  {
    if Half(size, MAX_LEVEL - first) <= SmallestBase(threshold) then SmallestBase(threshold) + 1
    else Min(threshold, Half(size, MAX_LEVEL - base))
  }

  function Target(base: nat, baseSize: nat, threshold: nat, level: nat): nat {
    if level < base then NO_TARGET else Max(baseSize * Pow2(level - base), threshold)
  }

  /** The plan in closed form: every target is the base size doubled once per level. */
  function Plan(totals: seq<nat>, threshold: nat): LevelPlan
    requires |totals| == LEVELS
  {
    var size, first := LargestTotal(totals, LEVELS), FirstNonEmpty(totals, LEVELS);
    if size == 0 || first < 1 || first > MAX_LEVEL then
      LevelPlan(MAX_LEVEL, MAX_LEVEL, -1, seq(LEVELS, l => if l == MAX_LEVEL then threshold else NO_TARGET))
    else
      var base := BaseLevel(size, threshold, first);
      var baseSize := BaseSize(size, first, base, threshold);
      LevelPlan(base, base, LowestUnnecessary(size, first, threshold, MAX_LEVEL - 2),
                seq(LEVELS, l requires 0 <= l => Target(base, baseSize, threshold, l)))
  }

  // ---------------------------------------------------------------- facts about the plan

  function Div(n: nat, d: nat): nat
    requires d > 0
  {
    n / d
  }

  /** The share of level `level` in a tree whose largest level has `size` entries. */
  function Share(size: nat, level: nat): nat
    requires level <= MAX_LEVEL
  {
    Div(size, Pow2(MAX_LEVEL - level))
  }

  /** Repeated truncating halves are one truncating division. */
  lemma {:induction false} HalfIsDivision(n: nat, times: nat)
    ensures Half(n, times) == Div(n, Pow2(times))
  {
    if times > 0 {
      HalfIsDivision(n, times - 1);
      DivDiv(n, Pow2(times - 1));
    } else {
      Quotient(n, 1, n, 0);
    }
  }

  lemma {:induction false} MulStep(d: nat, a: nat, b: nat)
    requires a < b
    ensures d * a + d <= d * b
    decreases b
  {
    var c := b - 1;
    assert d * (c + 1) == d * c + d;
    if a < c { MulStep(d, a, c); }
  }

  lemma Quotient(n: nat, d: nat, q: nat, r: nat)
    requires d > 0 && n == d * q + r && r < d
    ensures n / d == q
  {
    var p := n / d;
    assert n == d * p + n % d;
    if p < q {
      MulStep(d, p, q);
    } else if q < p {
      MulStep(d, q, p);
    }
  }

  lemma DivDiv(n: nat, d: nat)
    requires d > 0
    ensures Div(Div(n, d), 2) == Div(n, 2 * d)
  {
    var q, r := n / d, n % d;
    assert n == d * q + r;
    var h, b := q / 2, q % 2;
    assert q == 2 * h + b;
    assert n == (2 * d) * h + (d * b + r) by {
      assert d * q == d * (2 * h) + d * b;
      assert d * (2 * h) == (2 * d) * h;
    }
    assert d * b + r < 2 * d by {
      if b == 0 { assert d * b == 0; } else { assert b == 1 && d * b == d; }
    }
    Quotient(n, 2 * d, h, d * b + r);
  }

  lemma {:induction false} FirstNonEmptyFacts(totals: seq<nat>, n: nat)
    requires 1 <= n <= |totals|
    ensures var f := FirstNonEmpty(totals, n);
            && (f == -1 <==> LargestTotal(totals, n) == 0)
            && (f == -1 ==> forall l :: 1 <= l < n ==> totals[l] == 0)
            && (f != -1 ==> 1 <= f < n && totals[f] > 0 && forall l :: 1 <= l < f ==> totals[l] == 0)
    ensures forall l :: 1 <= l < n ==> totals[l] <= LargestTotal(totals, n)
  {
    if n > 1 { FirstNonEmptyFacts(totals, n - 1); }
  }

  /** The base level is the highest one, from the first non-empty level down, at which the largest
      level divided by the ratio's power fits the threshold. */
  lemma {:induction false} BaseLevelFacts(size: nat, threshold: nat, level: nat)
    requires 1 <= level <= MAX_LEVEL
    ensures var base := BaseLevel(size, threshold, level);
            && (base == 1 || Share(size, base) <= threshold)
            && forall l :: base < l <= level ==> Share(size, l) > threshold
  {
    hide Div, Half;
    HalfIsDivision(size, MAX_LEVEL - level);
    if level > 1 { BaseLevelFacts(size, threshold, level - 1); }
  }

  /** A level is unnecessary exactly when the divided size does not exceed half the threshold. */
  lemma {:induction false} LowestFacts(size: nat, first: nat, threshold: nat, level: nat)
    requires 1 <= first && level <= MAX_LEVEL
    ensures var low := LowestUnnecessary(size, first, threshold, level);
            forall l :: first <= l <= level ==>
              (l <= low <==> Share(size, l) <= SmallestBase(threshold))
  {
    hide Div, Half;
    HalfIsDivision(size, MAX_LEVEL - level);
    if level >= first {
      LowestFacts(size, first, threshold, level - 1);
      if Half(size, MAX_LEVEL - level) <= SmallestBase(threshold) {
        forall l | first <= l <= level ensures Share(size, l) <= SmallestBase(threshold) {
          HalfShrinks(size, MAX_LEVEL - level, MAX_LEVEL - l);
          HalfIsDivision(size, MAX_LEVEL - l);
        }
      }
    }
  }

  lemma {:induction false} HalfShrinks(n: nat, a: nat, b: nat)
    requires a <= b
    ensures Half(n, b) <= Half(n, a)
    decreases b
  {
    if a < b { HalfShrinks(n, a, b - 1); }
  }

  /** Targets exist exactly from the base level up, never shrink on the way to L6, never fall below
      the threshold and never meet the 32-bit clamp; the base level lies between 1 and the first
      non-empty level. */
  lemma PlanFacts(totals: seq<nat>, threshold: nat)
    requires |totals| == LEVELS && 1 <= threshold <= THRESHOLD_MAX
    ensures var p := Plan(totals, threshold);
            && PlanOk(p, threshold)
            && p.active == p.base
            && (forall l :: 1 <= l < p.base ==> totals[l] == 0)
            && (forall l :: p.base <= l < MAX_LEVEL ==> p.target[l] <= p.target[l + 1])
            && p.target[MAX_LEVEL] < NO_TARGET
  {
    hide Div, Half, BaseLevel, LowestUnnecessary, Target, LargestTotal, FirstNonEmpty;
    var p := Plan(totals, threshold);
    FirstNonEmptyFacts(totals, LEVELS);
    var size, first := LargestTotal(totals, LEVELS), FirstNonEmpty(totals, LEVELS);
    if size > 0 {
      TargetFacts(p.base, BaseSize(size, first, p.base, threshold), threshold);
    }
  }

  lemma TargetFacts(base: nat, baseSize: nat, threshold: nat)
    requires 1 <= base <= MAX_LEVEL && baseSize <= THRESHOLD_MAX + 1 && 1 <= threshold <= THRESHOLD_MAX
    ensures forall l :: 0 <= l < base ==> Target(base, baseSize, threshold, l) == NO_TARGET
    ensures forall l :: base <= l <= MAX_LEVEL ==> threshold <= Target(base, baseSize, threshold, l) < NO_TARGET
    ensures forall l :: base <= l < MAX_LEVEL ==>
              Target(base, baseSize, threshold, l) <= Target(base, baseSize, threshold, l + 1)
  {
    assert Pow2(0) == 1 && Pow2(1) == 2 && Pow2(2) == 4 && Pow2(3) == 8 && Pow2(4) == 16 && Pow2(5) == 32;
  }

  /** Base level and unnecessary levels in terms of each level's share of the largest one. */
  lemma PlanShares(totals: seq<nat>, threshold: nat)
    requires |totals| == LEVELS && 1 <= threshold <= THRESHOLD_MAX && LargestTotal(totals, LEVELS) > 0
    ensures var p, size, first := Plan(totals, threshold), LargestTotal(totals, LEVELS), FirstNonEmpty(totals, LEVELS);
            && 1 <= p.base <= first <= MAX_LEVEL
            && (p.base == 1 || Share(size, p.base) <= threshold)
            && (forall l :: p.base < l <= first ==> Share(size, l) > threshold)
            && (forall l :: first <= l <= MAX_LEVEL - 2 ==>
                  (Unnecessary(p, l) <==> Share(size, l) <= SmallestBase(threshold)))
            && p.target[p.base] == Max(threshold,
                 if Share(size, first) <= SmallestBase(threshold) then SmallestBase(threshold) + 1
                 else Min(threshold, Share(size, p.base)))
  {
    hide Div, Half, BaseLevel, LowestUnnecessary, LargestTotal, FirstNonEmpty;
    FirstNonEmptyFacts(totals, LEVELS);
    var p, size, first := Plan(totals, threshold), LargestTotal(totals, LEVELS), FirstNonEmpty(totals, LEVELS);
    BaseLevelFacts(size, threshold, first);
    LowestFacts(size, first, threshold, MAX_LEVEL - 2);
    HalfIsDivision(size, MAX_LEVEL - first);
    HalfIsDivision(size, MAX_LEVEL - p.base);
    assert Pow2(0) == 1;
  }

  lemma LargestIs(totals: seq<nat>, n: nat, size: nat)
    requires 1 < n <= |totals|
    requires forall l :: 1 <= l < n ==> totals[l] <= size
    requires exists l :: 1 <= l < n && totals[l] == size
    ensures LargestTotal(totals, n) == size
  {
    FirstNonEmptyFacts(totals, n);
    LargestMet(totals, n);
  }

  lemma {:induction false} LargestMet(totals: seq<nat>, n: nat)
    requires 1 <= n <= |totals|
    ensures LargestTotal(totals, n) > 0 ==> exists l :: 1 <= l < n && totals[l] == LargestTotal(totals, n)
  {
    if n > 1 { LargestMet(totals, n - 1); }
  }

  /** The whole plan from the counts. `first` is the first level that holds anything and `size` the largest
      count; what a level should hold is `size` halved once per level below it. The base level is the highest
      one, from `first` up, whose share fits the threshold; the levels down to `lowest` have shares of at most
      half the threshold; and from the base level down the base size doubles with every level, nowhere below
      the threshold. */
  lemma PlanExactly(totals: seq<nat>, threshold: nat, size: nat, first: nat)
    requires |totals| == LEVELS && 1 <= threshold <= THRESHOLD_MAX
    requires 1 <= first <= MAX_LEVEL && totals[first] > 0 && forall l :: 1 <= l < first ==> totals[l] == 0
    requires forall l :: 1 <= l <= MAX_LEVEL ==> totals[l] <= size
    requires exists l :: 1 <= l <= MAX_LEVEL && totals[l] == size
    ensures var p, half := Plan(totals, threshold), Max(threshold / 2, 1);
            && p.active == p.base && 1 <= p.base <= first && |p.target| == LEVELS
            && (p.base == 1 || Share(size, p.base) <= threshold)
            && (forall l :: p.base < l <= first ==> Share(size, l) > threshold)
            && (p.lowest == -1 || first <= p.lowest <= MAX_LEVEL - 2)
            && (forall l :: first <= l <= MAX_LEVEL - 2 ==> (l <= p.lowest <==> Share(size, l) <= half))
            && (forall l :: 0 <= l < p.base ==> p.target[l] == NO_TARGET)
            && var b := if Share(size, first) <= half then half + 1 else Min(threshold, Share(size, p.base));
               forall l :: p.base <= l <= MAX_LEVEL ==> p.target[l] == Max(threshold, b * Pow2(l - p.base))
  {
    hide Div, Half, BaseLevel, LowestUnnecessary, LargestTotal, FirstNonEmpty;
    FirstNonEmptyFacts(totals, LEVELS);
    LargestIs(totals, LEVELS, size);
    PlanShares(totals, threshold);
    var p := Plan(totals, threshold);
    HalfIsDivision(size, MAX_LEVEL - first);
    HalfIsDivision(size, MAX_LEVEL - p.base);
  }

  /** Without entries above level 0 writes go to L6, and nothing is unnecessary. */
  lemma PlanOfNothing(totals: seq<nat>, threshold: nat)
    requires |totals| == LEVELS && forall l :: 1 <= l <= MAX_LEVEL ==> totals[l] == 0
    ensures var p := Plan(totals, threshold);
            && p.active == p.base == MAX_LEVEL && p.lowest == -1 && |p.target| == LEVELS
            && p.target[MAX_LEVEL] == threshold && forall l :: 0 <= l < MAX_LEVEL ==> p.target[l] == NO_TARGET
  {
    FirstNonEmptyFacts(totals, LEVELS);
  }

  ghost predicate PlanOk(p: LevelPlan, threshold: nat) {
    && 1 <= p.base <= MAX_LEVEL
    && -1 <= p.lowest <= MAX_LEVEL - 2
    && |p.target| == LEVELS
    && (forall l :: 0 <= l < LEVELS ==> (p.target[l] == NO_TARGET <==> l < p.base))
    && (forall l :: p.base <= l < LEVELS ==> p.target[l] >= threshold)
  }

  // ---------------------------------------------------------------- the loops

  function MulClamp(value: nat, multiplier: nat): nat {
    if value * multiplier > U32_MAX then U32_MAX else value * multiplier
  }

  method ScanTotals(totals: seq<nat>) returns (size: nat, first: int)
    requires |totals| == LEVELS
    ensures size == LargestTotal(totals, LEVELS) && first == FirstNonEmpty(totals, LEVELS)
  {
    size, first := 0, -1;
    var level := 1;
    while level < LEVELS
      invariant 1 <= level <= LEVELS
      invariant size == LargestTotal(totals, level) && first == FirstNonEmpty(totals, level)
    {
      if totals[level] > 0 && first == -1 {
        first := level;
      }
      if totals[level] > size {
        size := totals[level];
      }
      level := level + 1;
    }
  }

  /** The halving loop from L5 down to the first non-empty level. */
  method HalveDown(size: nat, first: nat, threshold: nat) returns (current: nat, lowest: int)
    requires 1 <= first <= MAX_LEVEL
    ensures current == Half(size, MAX_LEVEL - first)
    ensures lowest == LowestUnnecessary(size, first, threshold, MAX_LEVEL - 2)
  {
    current, lowest := size, -1;
    var level: int := MAX_LEVEL - 1;
    while level >= first
      invariant first - 1 <= level < MAX_LEVEL
      invariant current == Half(size, MAX_LEVEL - 1 - level)
      invariant lowest != -1 ==> lowest == LowestUnnecessary(size, first, threshold, MAX_LEVEL - 2)
      invariant lowest == -1 ==> LowestUnnecessary(size, first, threshold, MAX_LEVEL - 2) ==
                                 LowestUnnecessary(size, first, threshold, Min(level, MAX_LEVEL - 2))
    {
      current := current / RATIO;
      if lowest == -1 && current <= SmallestBase(threshold) && level < MAX_LEVEL - 1 {
        lowest := level;
      }
      level := level - 1;
    }
  }

  /** The targets from the base level up, doubled with the clamp of imr_lsm_mul_clamp_u32. */
  method DoubleUp(base: nat, baseSize: nat, threshold: nat) returns (target: seq<nat>)
    requires 1 <= base <= MAX_LEVEL && baseSize <= THRESHOLD_MAX + 1 && threshold <= THRESHOLD_MAX
    ensures target == seq(LEVELS, l requires 0 <= l => Target(base, baseSize, threshold, l))
  {
    target := seq(LEVELS, l => NO_TARGET);
    assert Pow2(0) == 1;
    var size, level := baseSize, base;
    while level < LEVELS
      invariant base <= level <= LEVELS
      invariant size == baseSize * Pow2(if level == base then 0 else level - base - 1)
      invariant |target| == LEVELS
      invariant forall l :: 0 <= l < level ==> target[l] == Target(base, baseSize, threshold, l)
      invariant forall l :: level <= l < LEVELS ==> target[l] == NO_TARGET
    {
      if level > base {
        Doubled(baseSize, level - base - 1);
        size := MulClamp(size, RATIO);
      }
      target := target[level := Max(size, threshold)];
      level := level + 1;
    }
  }

  lemma Doubled(baseSize: nat, times: nat)
    requires baseSize <= THRESHOLD_MAX + 1 && times < 5
    ensures MulClamp(baseSize * Pow2(times), RATIO) == baseSize * Pow2(times + 1)
  {
    Pow2Grows(times + 1, 5);
    assert Pow2(5) == 32;
    assert baseSize * Pow2(times) * 2 == baseSize * Pow2(times + 1);
  }

  /** The base level moves up while the halved size still exceeds the threshold. */
  method FindBase(size: nat, first: nat, threshold: nat, current: nat) returns (base: nat, left: nat)
    requires 1 <= first <= MAX_LEVEL && current == Half(size, MAX_LEVEL - first) && current > 0 && threshold > 0
    ensures base == BaseLevel(size, threshold, first)
    ensures left == Half(size, MAX_LEVEL - base) && left > 0
  {
    base, left := first, current;
    while base > 1 && left > threshold
      invariant 1 <= base <= first
      invariant left == Half(size, MAX_LEVEL - base) && left > 0
      invariant BaseLevel(size, threshold, base) == BaseLevel(size, threshold, first)
    {
      base, left := base - 1, left / RATIO;
    }
  }

  /** imr_lsm_calculate_dynamic_levels_locked. */
  method Calculate(totals: seq<nat>, threshold: nat) returns (p: LevelPlan)
    requires |totals| == LEVELS && 1 <= threshold <= THRESHOLD_MAX
    ensures p == Plan(totals, threshold)
  {
    hide Half, Target, LowestUnnecessary, LargestTotal, FirstNonEmpty;
    FirstNonEmptyFacts(totals, LEVELS);
    var size, first := ScanTotals(totals);
    if size == 0 {
      return LevelPlan(MAX_LEVEL, MAX_LEVEL, -1, seq(LEVELS, l => if l == MAX_LEVEL then threshold else NO_TARGET));
    }
    var current, lowest := HalveDown(size, first, threshold);
    var base, baseSize := first, SmallestBase(threshold) + 1;
    if current > SmallestBase(threshold) {
      base, current := FindBase(size, first, threshold, current);
      baseSize := if current > threshold then threshold else Max(1, current);
    }
    var target := DoubleUp(base, baseSize, threshold);
    p := LevelPlan(base, base, lowest, target);
  }

  /** imr_lsm_compaction_dst_level_locked: the next level that has a target is the next level, or the
      base level if that is deeper. */
  method Destination(p: LevelPlan, threshold: nat, level: nat) returns (dst: nat)
    requires PlanOk(p, threshold)
    ensures dst == DestinationOf(p, level)
  {
    if level >= MAX_LEVEL {
      return MAX_LEVEL;
    }
    dst := level + 1;
    while dst < LEVELS
      invariant level + 1 <= dst <= LEVELS
      invariant dst == level + 1 || dst <= p.base
    {
      if p.target[dst] != NO_TARGET {
        return;
      }
      dst := dst + 1;
    }
    return MAX_LEVEL;
  }

  function DestinationOf(p: LevelPlan, level: nat): nat {
    if level >= MAX_LEVEL then MAX_LEVEL else Max(level + 1, p.base)
  }

  // ---------------------------------------------------------------- the picker

  function Capacity(p: LevelPlan, threshold: nat, level: nat): nat
    requires |p.target| == LEVELS
  {
    if level >= LEVELS || p.target[level] == 0 || p.target[level] == NO_TARGET then threshold else p.target[level]
  }

  predicate Unnecessary(p: LevelPlan, level: nat) { p.lowest >= 0 && level <= p.lowest }

  function Score(p: LevelPlan, threshold: nat, totals: seq<nat>, level: nat, down: nat): nat
    requires |p.target| == LEVELS == |totals|
  {
    if level >= MAX_LEVEL || totals[level] == 0 then 0
    else if Unnecessary(p, level) then SCORE_SCALE * SCORE_BOOST + 1 + (p.lowest - level)
    else
      var target := Max(Capacity(p, threshold, level), 1);
      if totals[level] < target then Div(totals[level] * SCORE_SCALE, target)
      else Div(totals[level] * SCORE_SCALE * SCORE_BOOST, target + down)
  }

  /** Entries that levels 0..n-1 are going to push down. */
  function Down(p: LevelPlan, threshold: nat, totals: seq<nat>, n: nat): nat
    requires |p.target| == LEVELS == |totals| && n <= LEVELS
  {
    if n == 0 then 0
    else Down(p, threshold, totals, n - 1) +
         (if Unnecessary(p, n - 1) then totals[n - 1]
          else if totals[n - 1] > Capacity(p, threshold, n - 1) then totals[n - 1] - Capacity(p, threshold, n - 1)
          else 0)
  }

  function ScoreOf(p: LevelPlan, threshold: nat, totals: seq<nat>, level: nat): nat
    requires |p.target| == LEVELS == |totals| && level < LEVELS
  {
    Score(p, threshold, totals, level, Down(p, threshold, totals, level))
  }

  /** A level may be compacted only if it holds something and is unnecessary or at its target. */
  predicate Due(p: LevelPlan, threshold: nat, totals: seq<nat>, level: nat)
    requires |p.target| == LEVELS == |totals|
  {
    level < MAX_LEVEL && totals[level] > 0 &&
    (Unnecessary(p, level) || totals[level] >= Capacity(p, threshold, level))
  }

  /** imr_lsm_pick_compaction_level_locked: the first level with the highest score, if that reaches
      the scale; such a level is due. */
  method Pick(p: LevelPlan, threshold: nat, totals: seq<nat>) returns (level: nat)
    requires |p.target| == LEVELS == |totals|
    ensures level == PickOf(p, threshold, totals)
  {
    var best, down := 0, 0;
    level := LEVELS;
    var l := 0;
    while l < MAX_LEVEL
      invariant l <= MAX_LEVEL
      invariant down == Down(p, threshold, totals, l)
      invariant level == BestOf(p, threshold, totals, l)
      invariant best == if level == LEVELS then 0 else ScoreOf(p, threshold, totals, level)
    {
      var score := Score(p, threshold, totals, l, down);
      if score > best {
        best, level := score, l;
      }
      if Unnecessary(p, l) {
        down := down + totals[l];
      } else if totals[l] > Capacity(p, threshold, l) {
        down := down + (totals[l] - Capacity(p, threshold, l));
      }
      l := l + 1;
    }
    if best < SCORE_SCALE {
      level := LEVELS;
    }
  }

  /** First of levels 0..n-1 with the highest positive score, or LEVELS. */
  function BestOf(p: LevelPlan, threshold: nat, totals: seq<nat>, n: nat): (level: nat)
    requires |p.target| == LEVELS == |totals| && n <= MAX_LEVEL
    ensures level < n || level == LEVELS
  {
    if n == 0 then LEVELS
    else
      var before := BestOf(p, threshold, totals, n - 1);
      if ScoreOf(p, threshold, totals, n - 1) > (if before == LEVELS then 0 else ScoreOf(p, threshold, totals, before))
      then n - 1 else before
  }

  function PickOf(p: LevelPlan, threshold: nat, totals: seq<nat>): nat
    requires |p.target| == LEVELS == |totals|
  {
    var best := BestOf(p, threshold, totals, MAX_LEVEL);
    if best == LEVELS || ScoreOf(p, threshold, totals, best) < SCORE_SCALE then LEVELS else best
  }

  lemma {:induction false} BestIsHighest(p: LevelPlan, threshold: nat, totals: seq<nat>, n: nat)
    requires |p.target| == LEVELS == |totals| && n <= MAX_LEVEL
    ensures var best := BestOf(p, threshold, totals, n);
            forall l :: 0 <= l < n ==>
              if best == LEVELS then ScoreOf(p, threshold, totals, l) == 0
              else ScoreOf(p, threshold, totals, l) <= ScoreOf(p, threshold, totals, best) &&
                   (l < best ==> ScoreOf(p, threshold, totals, l) < ScoreOf(p, threshold, totals, best))
  {
    if n > 0 { BestIsHighest(p, threshold, totals, n - 1); }
  }

  /** The picked level is due and scores highest (the first to do so); nothing is picked exactly when
      no level's score reaches the scale. */
  lemma PickFacts(p: LevelPlan, threshold: nat, totals: seq<nat>)
    requires |p.target| == LEVELS == |totals|
    ensures var level := PickOf(p, threshold, totals);
            && (level == LEVELS <==> forall l :: 0 <= l < MAX_LEVEL ==> ScoreOf(p, threshold, totals, l) < SCORE_SCALE)
            && (level != LEVELS ==> Due(p, threshold, totals, level))
            && (level != LEVELS ==> forall l :: 0 <= l < MAX_LEVEL ==>
                  ScoreOf(p, threshold, totals, l) <= ScoreOf(p, threshold, totals, level))
  {
    BestIsHighest(p, threshold, totals, MAX_LEVEL);
    var level := PickOf(p, threshold, totals);
    if level != LEVELS && !Due(p, threshold, totals, level) {
      BelowTarget(totals[level], Max(Capacity(p, threshold, level), 1));
    }
  }

  /** The rules of the picker, level by level: `capacity` is the target or else the threshold, `down` counts
      what the levels above push down, and `score` is 10001 plus the distance to the lowest unnecessary level,
      or thousandths of the capacity, or ten times that with what is pushed down counted as room. */
  ghost predicate Scored(p: LevelPlan, threshold: nat, totals: seq<nat>,
                         capacity: seq<nat>, down: seq<nat>, score: seq<nat>)
  {
    && |p.target| == |totals| == |capacity| == |down| == |score| == LEVELS
    && (forall l :: 0 <= l < LEVELS ==>
          capacity[l] == if p.target[l] == 0 || p.target[l] == NO_TARGET then threshold else p.target[l])
    && down[0] == 0
    && (forall l :: 0 <= l < MAX_LEVEL ==>
          down[l + 1] == down[l] + (if l <= p.lowest then totals[l] else Max(totals[l], capacity[l]) - capacity[l]))
    && (forall l :: 0 <= l < MAX_LEVEL ==> ScoredLevel(p, totals[l], Max(capacity[l], 1), down[l], score[l], l))
  }

  ghost predicate ScoredLevel(p: LevelPlan, total: nat, capacity: nat, down: nat, score: nat, level: nat) {
    if total == 0 then score == 0
    else if level <= p.lowest then score == 10001 + (p.lowest - level)
    else if total < capacity then score * capacity <= total * 1000 < (score + 1) * capacity
    else score * (capacity + down) <= total * 10000 < (score + 1) * (capacity + down)
  }

  /** The picked level is the first with the highest score by these rules; none is picked exactly when no
      score reaches 1000. */
  lemma PickExactly(p: LevelPlan, threshold: nat, totals: seq<nat>, capacity: seq<nat>, down: seq<nat>, score: seq<nat>)
    requires Scored(p, threshold, totals, capacity, down, score)
    ensures var level := PickOf(p, threshold, totals);
            && (level == LEVELS <==> forall l :: 0 <= l < MAX_LEVEL ==> score[l] < 1000)
            && (level != LEVELS ==> level < MAX_LEVEL && score[level] >= 1000)
            && (level != LEVELS ==> forall l :: 0 <= l < MAX_LEVEL ==> score[l] <= score[level])
            && (level != LEVELS ==> forall l :: 0 <= l < level ==> score[l] < score[level])
  {
    hide ScoredLevel, Score, Down, BestOf;
    BestIsHighest(p, threshold, totals, MAX_LEVEL);
    forall l | 0 <= l < MAX_LEVEL ensures score[l] == ScoreOf(p, threshold, totals, l) {
      DownIs(p, threshold, totals, capacity, down, score, l);
      ScoreIs(p, threshold, totals, capacity[l], down[l], score[l], l);
    }
  }

  lemma {:induction false} DownIs(p: LevelPlan, threshold: nat, totals: seq<nat>, capacity: seq<nat>, down: seq<nat>,
                                  score: seq<nat>, n: nat)
    requires Scored(p, threshold, totals, capacity, down, score) && n < LEVELS
    ensures down[n] == Down(p, threshold, totals, n)
  {
    hide ScoredLevel;
    if n > 0 {
      DownIs(p, threshold, totals, capacity, down, score, n - 1);
      assert down[n - 1 + 1] == down[n];
    }
  }

  lemma ScoreIs(p: LevelPlan, threshold: nat, totals: seq<nat>, capacity: nat, down: nat, score: nat, level: nat)
    requires |p.target| == LEVELS == |totals| && level < MAX_LEVEL && capacity == Capacity(p, threshold, level)
    requires ScoredLevel(p, totals[level], Max(capacity, 1), down, score, level)
    ensures score == Score(p, threshold, totals, level, down)
  {
    hide Capacity;
    var c := Max(capacity, 1);
    if totals[level] > 0 && level > p.lowest {
      if totals[level] < c {
        QuotientIs(totals[level] * 1000, c, score);
      } else {
        QuotientIs(totals[level] * 10000, c + down, score);
      }
    }
  }

  lemma QuotientIs(n: nat, d: nat, q: nat)
    requires d > 0 && q * d <= n < (q + 1) * d
    ensures Div(n, d) == q
  {
    assert n == d * q + (n - d * q) && (q + 1) * d == q * d + d;
    Quotient(n, d, q, n - d * q);
  }

  /** Of the unnecessary levels that hold anything, all but the highest wait, and while there is one
      something is picked. */
  lemma UnnecessaryInOrder(p: LevelPlan, threshold: nat, totals: seq<nat>, a: nat, b: nat)
    requires |p.target| == LEVELS == |totals| && a < MAX_LEVEL && totals[a] > 0 && a <= p.lowest
    ensures PickOf(p, threshold, totals) != LEVELS
    ensures a < b <= p.lowest && b < MAX_LEVEL && totals[b] > 0 ==> PickOf(p, threshold, totals) != b
  {
    hide Down, Capacity, BestOf;
    BestIsHighest(p, threshold, totals, MAX_LEVEL);
    assert ScoreOf(p, threshold, totals, a) == 10001 + (p.lowest - a);
    if a < b <= p.lowest && b < MAX_LEVEL && totals[b] > 0 {
      assert ScoreOf(p, threshold, totals, b) == 10001 + (p.lowest - b);
    }
  }

  lemma BelowTarget(entries: nat, target: nat)
    requires entries < target
    ensures Div(entries * SCORE_SCALE, target) < SCORE_SCALE
  {
    var q := entries * SCORE_SCALE / target;
    assert entries * SCORE_SCALE == target * q + entries * SCORE_SCALE % target;
    if q >= SCORE_SCALE {
      MulStep(target, SCORE_SCALE - 1, q);
    }
  }
}
