/**
 The age-banded sweep of unconfirmed subscriptions: `franjasDeRepesca` of
 `src/tasks/tasks.service.ts` and how often it makes the five-minute cron ask about one row.

 Local time is a fixed offset from UTC, in milliseconds.
 */
module Ladder {
  import opened Basics

  /** Up to which age, in minutes, and how often; the last tier has no end of its own. */
  datatype Tier = Tier(until: Option<int>, every: int)

  const TIERS: seq<Tier> := [Tier(Some(60), 5), Tier(Some(24 * 60), 30), Tier(None, 360)]

  const CRON_PERIOD_MINUTES: int := 5

  /** The rows issued between two instants, both included. */
  datatype Band = Band(from: Instant, to: Instant)

  function MinuteOfDay(now: Instant, offset: int): int { (now + offset) % MS_PER_DAY / MS_PER_MINUTE }

  /** The tier's cadence falls in this pass. */
  predicate Falls(tier: Tier, now: Instant, offset: int)
    requires tier.every > 0
  {
    MinuteOfDay(now, offset) % tier.every < CRON_PERIOD_MINUTES
  }

  function BandOf(now: Instant, from: int, until: int): Band {
    Band(now - until * MS_PER_MINUTE, now - from * MS_PER_MINUTE)
  }

  /** The bands of the tiers from the `i`-th on, the first of which starts at age `from`. */
  function BandsFrom(i: nat, from: int, now: Instant, window: int, offset: int): seq<Band>
    requires i <= |TIERS|
    decreases |TIERS| - i
  {
    if i == |TIERS| then []
    else
      var until := if TIERS[i].until.Some? then Min(TIERS[i].until.value, window) else window;
      if from >= until then []
      else
        (if Falls(TIERS[i], now, offset) then [BandOf(now, from, until)] else [])
        + (if TIERS[i].until.None? then [] else BandsFrom(i + 1, TIERS[i].until.value, now, window, offset))
  }

  function Bands(now: Instant, window: int, offset: int): seq<Band> { BandsFrom(0, 0, now, window, offset) }

  /** The loop of the code: skip the tiers past the window, push those whose cadence falls now. */
  method BandsToSweep(now: Instant, window: int, offset: int) returns (bands: seq<Band>)
    ensures bands == Bands(now, window, offset)
  {
    var minuteOfDay := MinuteOfDay(now, offset);
    bands := [];
    var fromMinutes := 0;
    var i := 0;
    while i < |TIERS|
      invariant 0 <= i <= |TIERS|
      invariant bands + BandsFrom(i, fromMinutes, now, window, offset) == Bands(now, window, offset)
      invariant fromMinutes == if i == 0 then 0 else TIERS[i - 1].until.UnwrapOr(window)
    {
      var tier := TIERS[i];
      var untilMinutes := if tier.until.Some? then Min(tier.until.value, window) else window;
      if fromMinutes >= untilMinutes { break; }
      ghost var before := bands;
      if minuteOfDay % tier.every < CRON_PERIOD_MINUTES {
        bands := bands + [BandOf(now, fromMinutes, untilMinutes)];
      }
      ghost var rest := if tier.until.None? then [] else BandsFrom(i + 1, tier.until.value, now, window, offset);
      assert before + BandsFrom(i, fromMinutes, now, window, offset) == bands + rest;
      fromMinutes := tier.until.UnwrapOr(window);
      i := i + 1;
    }
  }

  predicate Within(b: Band, t: Instant) { b.from <= t <= b.to }

  /** The pass at `now` asks about a row whose link was issued at `t`. */
  predicate Selected(now: Instant, t: Instant, window: int, offset: int) {
    exists i :: 0 <= i < |Bands(now, window, offset)| && Within(Bands(now, window, offset)[i], t)
  }

  /** The bands lie inside the window, the younger first, and meet at most at an endpoint. */
  lemma BandsLieInWindow(now: Instant, window: int, offset: int)
    ensures var bands := Bands(now, window, offset);
            && (forall i :: 0 <= i < |bands| ==> now - window * MS_PER_MINUTE <= bands[i].from < bands[i].to <= now)
            && (forall i, j :: 0 <= i < j < |bands| ==> bands[j].to <= bands[i].from)
  {
    LadderUnrolled(now, window, offset);
  }

  function Pushed(falls: bool, band: Band): seq<Band> { if falls then [band] else [] }

  lemma LadderUnrolled(now: Instant, window: int, offset: int)
    ensures Bands(now, window, offset)
            == if window <= 0 then []
               else Pushed(Falls(TIERS[0], now, offset), BandOf(now, 0, Min(60, window)))
                    + (if window <= 60 then []
                       else Pushed(Falls(TIERS[1], now, offset), BandOf(now, 60, Min(1440, window)))
                            + (if window <= 1440 then [] else Pushed(Falls(TIERS[2], now, offset), BandOf(now, 1440, window))))
  {
    hide Falls;
    assert BandsFrom(2, 1440, now, window, offset)
           == if window <= 1440 then [] else Pushed(Falls(TIERS[2], now, offset), BandOf(now, 1440, window));
    assert BandsFrom(1, 60, now, window, offset)
           == if window <= 60 then []
              else Pushed(Falls(TIERS[1], now, offset), BandOf(now, 60, Min(1440, window))) + BandsFrom(2, 1440, now, window, offset);
  }

  // ---------------------------------------------------------------- slots

  /** Which five-minute slot of local time an instant is in. */
  function Slot(now: Instant, offset: int): int { (now + offset) / (CRON_PERIOD_MINUTES * MS_PER_MINUTE) }

  lemma MinutesNest(x: int)
    ensures x % MS_PER_DAY / MS_PER_MINUTE == x / MS_PER_MINUTE % 1440
  {
  }

  lemma SlotsNest(x: int)
    ensures x / (CRON_PERIOD_MINUTES * MS_PER_MINUTE) == x / MS_PER_MINUTE / 5
  {
  }

  lemma Mod30(x: int, q: int, r: int)
    requires x == 30 * q + r && 0 <= r < 30
    ensures x % 30 == r
  {
  }

  lemma Mod360(x: int, q: int, r: int)
    requires x == 360 * q + r && 0 <= r < 360
    ensures x % 360 == r
  {
  }

  lemma HalfHoursNest(m: int)
    ensures m % 1440 % 30 == m % 30
  {
    var q, r := m / 1440, m % 1440;
    Mod30(m, 48 * q + r / 30, r % 30);
  }

  lemma QuarterDaysNest(m: int)
    ensures m % 1440 % 360 == m % 360
  {
    var q, r := m / 1440, m % 1440;
    Mod360(m, 4 * q + r / 360, r % 360);
  }

  lemma Slots(m: int, q: int, r: int)
    requires m == 5 * q + r && 0 <= r < 5
    ensures m / 5 == q
  {
  }

  lemma SlotOfHalfHour(m: int)
    ensures m % 30 < 5 <==> m / 5 % 6 == 0
  {
    var q, r := m / 30, m % 30;
    Slots(m, 6 * q + r / 5, r % 5);
    assert (6 * q + r / 5) % 6 == r / 5;
  }

  lemma SlotOfQuarterDay(m: int)
    ensures m % 360 < 5 <==> m / 5 % 72 == 0
  {
    var q, r := m / 360, m % 360;
    Slots(m, 72 * q + r / 5, r % 5);
    assert (72 * q + r / 5) % 72 == r / 5;
  }

  /** A cadence falls in exactly one slot out of every so many, across midnight too. */
  lemma FallsBySlot(now: Instant, offset: int)
    ensures Falls(TIERS[0], now, offset)
    ensures Falls(TIERS[1], now, offset) <==> Slot(now, offset) % 6 == 0
    ensures Falls(TIERS[2], now, offset) <==> Slot(now, offset) % 72 == 0
  {
    hide MinuteOfDay, Slot;
    var m := (now + offset) / MS_PER_MINUTE;
    ClockOf(now, offset);
    HalfHoursNest(m);
    QuarterDaysNest(m);
    SlotOfHalfHour(m);
    SlotOfQuarterDay(m);
  }

  lemma ClockOf(now: Instant, offset: int)
    ensures var m := (now + offset) / MS_PER_MINUTE;
            MinuteOfDay(now, offset) == m % 1440 && Slot(now, offset) == m / 5
  {
    MinutesNest(now + offset);
    SlotsNest(now + offset);
  }

  /** When a pass asks about a row, by the row's age in that pass and the slot of the pass. */
  lemma SelectedByAge(now: Instant, t: Instant, window: int, offset: int)
    ensures Selected(now, t, window, offset) <==>
            var age, slot := now - t, Slot(now, offset);
            || (0 < window && 0 <= age <= Min(60, window) * MS_PER_MINUTE)
            || (60 < window && 60 * MS_PER_MINUTE <= age <= Min(1440, window) * MS_PER_MINUTE && slot % 6 == 0)
            || (1440 < window && 1440 * MS_PER_MINUTE <= age <= window * MS_PER_MINUTE && slot % 72 == 0)
  {
    hide Falls;
    LadderUnrolled(now, window, offset);
    FallsBySlot(now, offset);
    SelectedIn(now, t, window, offset);
  }

  lemma SelectedIn(now: Instant, t: Instant, window: int, offset: int)
    ensures Selected(now, t, window, offset) <==>
            || (0 < window && Falls(TIERS[0], now, offset) && Within(BandOf(now, 0, Min(60, window)), t))
            || (60 < window && Falls(TIERS[1], now, offset) && Within(BandOf(now, 60, Min(1440, window)), t))
            || (1440 < window && Falls(TIERS[2], now, offset) && Within(BandOf(now, 1440, window), t))
  {
    hide Falls, Within, BandOf, Bands;
    LadderUnrolled(now, window, offset);
    var bands := Bands(now, window, offset);
    var first := Pushed(Falls(TIERS[0], now, offset), BandOf(now, 0, Min(60, window)));
    var second := if window <= 60 then [] else Pushed(Falls(TIERS[1], now, offset), BandOf(now, 60, Min(1440, window)));
    var third := if window <= 1440 then [] else Pushed(Falls(TIERS[2], now, offset), BandOf(now, 1440, window));
    if window > 0 {
      assert bands == first + second + third;
      assert forall b :: b in bands <==> b in first || b in second || b in third;
      assert forall b :: b in first <==> Falls(TIERS[0], now, offset) && b == BandOf(now, 0, Min(60, window));
      assert Selected(now, t, window, offset) <==> exists b :: b in bands && Within(b, t);
    } else {
      assert bands == [];
    }
  }

  // ---------------------------------------------------------------- coverage

  /** The cron's passes, one in each slot and anywhere inside it. */
  ghost predicate OnePassPerSlot(pass: int -> Instant, offset: int) {
    forall k :: Slot(pass(k), offset) == k
  }

  /** Passes of consecutive slots in which the row is this many minutes old. */
  predicate Aged(pass: int -> Instant, t: Instant, k: int, slots: int, from: int, until: int) {
    forall j :: k <= j < k + slots ==> from * MS_PER_MINUTE <= pass(j) - t <= until * MS_PER_MINUTE
  }

  predicate AskedDuring(pass: int -> Instant, t: Instant, k: int, slots: int, window: int, offset: int) {
    exists j :: k <= j < k + slots && Selected(pass(j), t, window, offset)
  }

  /** One of so many slots in a row is the one its tier falls in. */
  lemma CoveredIn(pass: int -> Instant, t: Instant, k: int, slots: int, from: int, until: int, window: int, offset: int)
    requires OnePassPerSlot(pass, offset) && window > 1440
    requires (slots == 1 && from == 0 && until == 60) || (slots == 6 && from == 60 && until == 1440)
             || (slots == 72 && from == 1440 && until == window)
    ensures Aged(pass, t, k, slots, from, until) ==> AskedDuring(pass, t, k, slots, window, offset)
  {
    hide Selected, Slot;
    var j := NextFalling(k, slots);
    assert Slot(pass(j), offset) == j;
    SelectedByAge(pass(j), t, window, offset);
  }

  lemma NextFalling(k: int, slots: int) returns (j: int)
    requires IsCadence(slots)
    ensures k <= j < k + slots && j % slots == 0
  {
    j := k + (-k) % slots;
    if slots == 1 {} else if slots == 6 {} else {}
  }

  /**
   In its first hour a row is asked about in every slot; in its first day in one of any 6 in a row;
   and after that, to the end of the window, in one of any 72.
   */
  lemma CoveredOncePerCadence(pass: int -> Instant, t: Instant, k: int, window: int, offset: int)
    requires OnePassPerSlot(pass, offset) && window > 1440
    ensures Aged(pass, t, k, 1, 0, 60) ==> AskedDuring(pass, t, k, 1, window, offset)
    ensures Aged(pass, t, k, 6, 60, 1440) ==> AskedDuring(pass, t, k, 6, window, offset)
    ensures Aged(pass, t, k, 72, 1440, window) ==> AskedDuring(pass, t, k, 72, window, offset)
  {
    hide Selected, Slot, Aged, AskedDuring;
    CoveredIn(pass, t, k, 1, 0, 60, window, offset);
    CoveredIn(pass, t, k, 6, 60, 1440, window, offset);
    CoveredIn(pass, t, k, 72, 1440, window, window, offset);
  }

  // ---------------------------------------------------------------- how many times at most

  const EIGHT_DAYS: int := 8 * 24 * 60

  /** How many of the passes of slots `lo .. hi` ask about the row. */
  ghost function TimesAsked(pass: int -> Instant, t: Instant, offset: int, lo: int, hi: int): nat
    decreases hi - lo
  {
    if hi <= lo then 0
    else TimesAsked(pass, t, offset, lo, hi - 1) + (if Selected(pass(hi - 1), t, EIGHT_DAYS, offset) then 1 else 0)
  }

  /** How many multiples of `m` from `a` to `b` lie in `lo .. hi`. */
  function Hits(m: int, a: int, b: int, lo: int, hi: int): nat
    requires m > 0
    decreases hi - lo
  {
    if hi <= lo then 0
    else Hits(m, a, b, lo, hi - 1) + (if a <= hi - 1 <= b && (hi - 1) % m == 0 then 1 else 0)
  }

  /** The cadences of the three tiers, in slots. */
  predicate IsCadence(m: int) { m == 1 || m == 6 || m == 72 }

  lemma NextMultiple(x: int, m: int)
    requires IsCadence(m)
    ensures x / m - (x - 1) / m == if x % m == 0 then 1 else 0
  {
    if m == 1 {} else if m == 6 {} else {}
  }

  function Clip(x: int, a: int, b: int): int { Max(a - 1, Min(b, x)) }

  lemma {:induction false} HitsAreCounted(m: int, a: int, b: int, lo: int, hi: int)
    requires IsCadence(m) && a <= b + 1
    ensures Hits(m, a, b, lo, hi) <= Clip(hi - 1, a, b) / m - (a - 1) / m
    ensures lo <= a && b < hi ==> Hits(m, a, b, lo, hi) == b / m - (a - 1) / m
    ensures lo <= a && hi > a ==> Hits(m, a, b, lo, hi) == Clip(hi - 1, a, b) / m - (a - 1) / m
    decreases hi - lo
  {
    if hi > lo {
      HitsAreCounted(m, a, b, lo, hi - 1);
      NextMultiple(hi - 1, m);
    } else {
      DivisionGrows(a - 1, Clip(hi - 1, a, b), m);
    }
  }

  lemma DivisionGrows(x: int, y: int, m: int)
    requires IsCadence(m) && x <= y
    ensures x / m <= y / m
  {
    if m == 1 {} else if m == 6 {} else {}
  }

  /** The slots in which a row issued in slot `k` can be asked about: three stretches that do not meet. */
  predicate SlotAsks(k: int, slot: int) {
    (k <= slot <= k + 12)
    || (k + 13 <= slot <= k + 288 && slot % 6 == 0)
    || (k + 289 <= slot <= k + 2304 && slot % 72 == 0)
  }

  lemma SlotsApart(x: int, y: int, minutes: int, offset: int)
    requires minutes % 5 == 0
    ensures x - y <= minutes * MS_PER_MINUTE ==> Slot(x, offset) <= Slot(y, offset) + minutes / 5
    ensures x - y >= minutes * MS_PER_MINUTE ==> Slot(x, offset) >= Slot(y, offset) + minutes / 5
  {
    var n := minutes / 5;
    var period := CRON_PERIOD_MINUTES * MS_PER_MINUTE;
    assert (y + offset + n * period) / period == (y + offset) / period + n;
  }

  lemma AskedOnlyInItsSlots(now: Instant, t: Instant, offset: int)
    requires Selected(now, t, EIGHT_DAYS, offset)
    ensures SlotAsks(Slot(t, offset), Slot(now, offset))
  {
    hide Selected, Slot;
    SelectedByAge(now, t, EIGHT_DAYS, offset);
    SlotsApart(now, t, 0, offset);
    SlotsApart(now, t, 60, offset);
    SlotsApart(now, t, 1440, offset);
    SlotsApart(now, t, EIGHT_DAYS, offset);
    CadencesDivide(Slot(now, offset));
  }

  lemma CadencesDivide(k: int)
    ensures k % 72 == 0 ==> k % 6 == 0
  {
  }

  lemma {:induction false} AskedAtMostHits(pass: int -> Instant, t: Instant, offset: int, lo: int, hi: int)
    requires OnePassPerSlot(pass, offset)
    ensures var k := Slot(t, offset);
            TimesAsked(pass, t, offset, lo, hi)
            <= Hits(1, k, k + 12, lo, hi) + Hits(6, k + 13, k + 288, lo, hi) + Hits(72, k + 289, k + 2304, lo, hi)
    decreases hi - lo
  {
    hide Selected, Slot;
    if hi > lo {
      AskedAtMostHits(pass, t, offset, lo, hi - 1);
      if Selected(pass(hi - 1), t, EIGHT_DAYS, offset) {
        assert Slot(pass(hi - 1), offset) == hi - 1;
        AskedOnlyInItsSlots(pass(hi - 1), t, offset);
      }
    }
  }

  /**
   However late within its slot each pass runs, an abandoned row is asked about at most 87 times
   in its eight days, against the 2304 passes of the window: 13 in its first hour, 46 more in its
   first day and 28 more after that.
   */
  lemma AskedAtMost87Times(pass: int -> Instant, t: Instant, offset: int, lo: int, hi: int)
    requires OnePassPerSlot(pass, offset)
    ensures TimesAsked(pass, t, offset, lo, hi) <= 13 + 46 + 28
  {
    hide TimesAsked, Slot;
    var k := Slot(t, offset);
    AskedAtMostHits(pass, t, offset, lo, hi);
    HitsAreCounted(1, k, k + 12, lo, hi);
    HitsAreCounted(6, k + 13, k + 288, lo, hi);
    HitsAreCounted(72, k + 289, k + 2304, lo, hi);
    DivisionGrows(Clip(hi - 1, k, k + 12), k + 12, 1);
    DivisionGrows(Clip(hi - 1, k + 13, k + 288), k + 288, 6);
    DivisionGrows(Clip(hi - 1, k + 289, k + 2304), k + 2304, 72);
    assert (k + 288) / 6 == (k + 12) / 6 + 46;
    assert (k + 2304) / 72 == (k + 288) / 72 + 28;
  }

  // ---------------------------------------------------------------- and no fewer bound

  const PERIOD: int := CRON_PERIOD_MINUTES * MS_PER_MINUTE

  /** A cron that is never late. */
  function Punctual(offset: int): int -> Instant { k => k * PERIOD - offset }

  lemma PunctualIsInSlot(offset: int)
    ensures OnePassPerSlot(Punctual(offset), offset)
  {
    forall k ensures Slot(Punctual(offset)(k), offset) == k {
      assert Punctual(offset)(k) + offset == k * PERIOD;
    }
  }

  lemma PunctualAsksInItsSlots(k: int, slot: int, offset: int)
    ensures Selected(Punctual(offset)(slot), Punctual(offset)(k), EIGHT_DAYS, offset) <==> SlotAsks(k, slot)
  {
    hide Selected, Slot;
    PunctualIsInSlot(offset);
    assert Slot(Punctual(offset)(slot), offset) == slot;
    SelectedByAge(Punctual(offset)(slot), Punctual(offset)(k), EIGHT_DAYS, offset);
    CadencesDivide(slot);
    assert Punctual(offset)(slot) - Punctual(offset)(k) == (slot - k) * PERIOD;
  }

  lemma {:induction false} PunctualAskedHits(k: int, offset: int, lo: int, hi: int)
    ensures TimesAsked(Punctual(offset), Punctual(offset)(k), offset, lo, hi)
            == Hits(1, k, k + 12, lo, hi) + Hits(6, k + 13, k + 288, lo, hi) + Hits(72, k + 289, k + 2304, lo, hi)
    decreases hi - lo
  {
    hide Selected, Slot, Punctual;
    if hi > lo {
      PunctualAskedHits(k, offset, lo, hi - 1);
      PunctualAsksInItsSlots(k, hi - 1, offset);
    }
  }

  /** A row issued on the stroke of any slot, swept by a cron that is never late, is asked about 87 times. */
  lemma BoundIsReached(k: int, offset: int)
    ensures TimesAsked(Punctual(offset), Punctual(offset)(k), offset, k, k + 2305) == 87
  {
    hide TimesAsked;
    PunctualAskedHits(k, offset, k, k + 2305);
    HitsAreCounted(1, k, k + 12, k, k + 2305);
    HitsAreCounted(6, k + 13, k + 288, k, k + 2305);
    HitsAreCounted(72, k + 289, k + 2304, k, k + 2305);
    assert (k + 288) / 6 == (k + 12) / 6 + 46;
    assert (k + 2304) / 72 == (k + 288) / 72 + 28;
  }
}
