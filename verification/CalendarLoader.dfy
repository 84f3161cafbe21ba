/** Loading the market calendar on chain, and the deployment's check that a calendar is loaded. */
module CalendarLoader {
  import opened Numbers
  import opened CivilDate
  import opened Market

  const CALENDAR_MAX_AGE_DAYS := 366

  // What a load must accept, and what it must store

  ghost predicate Ascending(days: seq<u16>) {
    forall i, j :: 0 <= i < j < |days| ==> days[i] < days[j]
  }

  /** Monday to Friday, no more than 366 days ago and no later than `end`; 1970-01-01 was a Thursday. */
  ghost predicate Plausible(days: seq<u16>, today: int, end: int) {
    forall day :: day in days ==> today - 366 <= day <= end && (day + 3) % 7 < 5
  }

  ghost predicate Disjoint(holidays: seq<u16>, earlyCloses: seq<u16>) {
    forall day :: day in earlyCloses ==> day !in holidays
  }

  /** Why a load is refused, checks in the program's order. */
  ghost function Refusal(holidays: seq<u16>, earlyCloses: seq<u16>, validThrough: u16, today: int): Option<Error> {
    if !(today <= validThrough < today + 1_464) then Some(ImplausibleMarketDay)
    else if !Ascending(holidays) then Some(CalendarNotAscending)
    else if !Plausible(holidays, today, validThrough) then Some(ImplausibleMarketDay)
    else if !Ascending(earlyCloses) then Some(CalendarNotAscending)
    else if !Plausible(earlyCloses, today, validThrough) then Some(ImplausibleMarketDay)
    else if !Disjoint(holidays, earlyCloses) then Some(ImplausibleMarketDay)
    else None
  }

  /** The bitmap holds exactly the listed days: bit `i` is set just when day `first + i` is listed, up to `last`. */
  ghost predicate Holds(bits: seq<bv8>, first: int, last: int, days: seq<int>) {
    && |bits| == 183
    && forall i: nat | i < 1_464 :: IsSet(bits, i) <==> first + i in days && first + i <= last
  }

  // Bits of a byte

  lemma SetBit(byte: bv8, i: int, j: int)
    requires 0 <= i < 8 && 0 <= j < 8
    ensures (byte | Mask(i)) & Mask(j) != 0 <==> i == j || byte & Mask(j) != 0
  {
    if i == j {
      OrKeeps(byte, Mask(i));
    } else {
      OrElsewhere(byte, Mask(i), Mask(j));
    }
  }

  lemma OrKeeps(byte: bv8, mask: bv8)
    requires mask != 0
    ensures (byte | mask) & mask != 0
  {
  }

  lemma OrElsewhere(byte: bv8, mask: bv8, other: bv8)
    requires mask & other == 0
    ensures (byte | mask) & other == byte & other
  {
  }

  lemma SameBits(a: bv8, b: bv8)
    requires forall i :: 0 <= i < 8 ==> (a & Mask(i) != 0 <==> b & Mask(i) != 0)
    ensures a == b
  {
    assert a & Mask(0) != 0 <==> b & Mask(0) != 0;
    assert a & Mask(1) != 0 <==> b & Mask(1) != 0;
    assert a & Mask(2) != 0 <==> b & Mask(2) != 0;
    assert a & Mask(3) != 0 <==> b & Mask(3) != 0;
    assert a & Mask(4) != 0 <==> b & Mask(4) != 0;
    assert a & Mask(5) != 0 <==> b & Mask(5) != 0;
    assert a & Mask(6) != 0 <==> b & Mask(6) != 0;
    assert a & Mask(7) != 0 <==> b & Mask(7) != 0;
  }

  /** Setting bit `index` of a bitmap in place. */
  method SetIndex(bits: array<bv8>, index: nat)
    requires index / 8 < bits.Length
    modifies bits
    ensures forall i: nat | i / 8 < bits.Length :: IsSet(bits[..], i) <==> i == index || IsSet(old(bits[..]), i)
  {
    bits[index / 8] := bits[index / 8] | Mask(index % 8);
    forall i: nat | i / 8 < bits.Length
      ensures IsSet(bits[..], i) <==> i == index || IsSet(old(bits[..]), i)
    {
      SetIndexed(old(bits[..]), bits[..], index, i);
    }
  }

  lemma SetIndexed(before: seq<bv8>, after: seq<bv8>, index: nat, i: nat)
    requires index / 8 < |before| && i / 8 < |before|
    requires after == before[index / 8 := before[index / 8] | Mask(index % 8)]
    ensures IsSet(after, i) <==> i == index || IsSet(before, i)
  {
    if i / 8 == index / 8 {
      SetBit(before[index / 8], index % 8, i % 8);
    }
  }

  /** What the loader takes for a day of a list. */
  predicate PlausibleDay(day: int, today: int, end: int) {
    today - CALENDAR_MAX_AGE_DAYS <= day <= end && 1 <= Weekday(day) <= 5
  }

  lemma PlausibleUntil(day: int, today: int, end: int)
    requires PlausibleDay(day, today, end)
    ensures day <= end
  {
  }

  lemma PlausibleDays(days: seq<u16>, today: int, end: int)
    ensures Plausible(days, today, end) <==> forall i :: 0 <= i < |days| ==> PlausibleDay(days[i], today, end)
  {
    forall day: int
      ensures PlausibleDay(day, today, end) <==> today - 366 <= day <= end && (day + 3) % 7 < 5
    {
    }
    if Plausible(days, today, end) {
      forall i | 0 <= i < |days|
        ensures PlausibleDay(days[i], today, end)
      {
        assert days[i] in days;
      }
    }
  }

  /** One list of a load: checks each day and marks those not before today. */
  method LoadDays(days: seq<u16>, today: i64, end: u16, bits: array<bv8>) returns (r: Result<()>)
    requires today <= end < today + CALENDAR_DAYS
    requires bits.Length == CALENDAR_BYTES && forall i :: 0 <= i < bits.Length ==> bits[i] == 0
    modifies bits
    ensures r.Ok? <==> Ascending(days) && Plausible(days, today, end)
    ensures r.Err? ==> r.error == if Ascending(days) then ImplausibleMarketDay else CalendarNotAscending
    ensures r.Ok? ==> Holds(bits[..], today, end, days)
  {
    hide Weekday, Plausible, PlausibleDay;
    PlausibleDays(days, today, end);
    var k := 1;
    while k < |days|
      invariant 1 <= k && (k <= |days| || |days| == 0)
      invariant forall i, j :: 0 <= i < j < k && j < |days| ==> days[i] < days[j]
    {
      if days[k - 1] >= days[k] {
        return Err(CalendarNotAscending);
      }
      k := k + 1;
    }
    k := 0;
    while k < |days|
      invariant 0 <= k <= |days|
      invariant forall i :: 0 <= i < k ==> PlausibleDay(days[i], today, end)
      invariant forall i :: 0 <= i < k ==> days[i] <= end
      invariant forall i: nat | i < CALENDAR_DAYS :: IsSet(bits[..], i) <==> today + i in days[..k]
    {
      var day := days[k];
      if !PlausibleDay(day, today, end) {
        return Err(ImplausibleMarketDay);
      }
      PlausibleUntil(day, today, end);
      assert days[..k + 1] == days[..k] + [day];
      if day - today >= 0 {
        SetIndex(bits, day - today);
      }
      k := k + 1;
    }
    assert days[..k] == days;
    return Ok(());
  }

  /** Loads a calendar on `today`, the first day it stores, cast to 16 bits. */
  method LoadCalendar(holidays: seq<u16>, earlyCloses: seq<u16>, validThrough: u16, today: i64)
    returns (r: Result<MarketCalendar>)
    ensures r.Ok? <==> Refusal(holidays, earlyCloses, validThrough, today).None?
    ensures r.Err? ==> r.error == Refusal(holidays, earlyCloses, validThrough, today).value
    ensures r.Ok? ==>
              && r.value.firstDay == today % (U16_MAX + 1) && r.value.validThrough == validThrough
              && Holds(r.value.holidays, today, validThrough, holidays)
              && Holds(r.value.earlyCloses, today, validThrough, earlyCloses)
  {
    if !(today <= validThrough < SaturateI64(today + CALENDAR_DAYS)) {
      return Err(ImplausibleMarketDay);
    }
    var holidayBits := new bv8[CALENDAR_BYTES](_ => 0);
    var earlyCloseBits := new bv8[CALENDAR_BYTES](_ => 0);
    var _ :- LoadDays(holidays, today, validThrough, holidayBits);
    var _ :- LoadDays(earlyCloses, today, validThrough, earlyCloseBits);
    if exists day :: day in earlyCloses && day in holidays {
      return Err(ImplausibleMarketDay);
    }
    return Ok(MarketCalendar(today % (U16_MAX + 1), validThrough, holidayBits[..], earlyCloseBits[..]));
  }

  // The deployment's check

  datatype MarketCalendarDays = MarketCalendarDays(holidays: seq<int>, earlyCloses: seq<int>, validThrough: int)

  function Kept(days: seq<int>, today: int): seq<int> {
    if days == [] then []
    else (if days[0] >= today then [days[0]] else []) + Kept(days[1..], today)
  }

  /** The calendar as the deployment passes it on `today`, without the closures already past. */
  function MarketCalendarArgs(calendar: MarketCalendarDays, today: int): MarketCalendarDays {
    calendar.(holidays := Kept(calendar.holidays, today), earlyCloses := Kept(calendar.earlyCloses, today))
  }

  /** The bitmap `days` should have given, compared with the stored one. */
  method SameDays(stored: seq<bv8>, first: u16, last: u16, days: seq<int>) returns (same: bool)
    requires |stored| == CALENDAR_BYTES && last - first < CALENDAR_DAYS
    ensures same <==> Holds(stored, first, last, days)
  {
    var bitmap := new bv8[|stored|](_ => 0);
    var k := 0;
    while k < |days|
      invariant 0 <= k <= |days|
      invariant forall i: nat | i < CALENDAR_DAYS ::
          IsSet(bitmap[..], i) <==> first + i in days[..k] && first + i <= last
    {
      var index := days[k] - first;
      assert days[..k + 1] == days[..k] + [days[k]];
      if index >= 0 && days[k] <= last {
        SetIndex(bitmap, index);
      }
      k := k + 1;
    }
    assert days[..k] == days;
    same := bitmap[..] == stored;
    if Holds(stored, first, last, days) {
      SameBitmaps(bitmap[..], stored);
    }
  }

  lemma SameBitmaps(a: seq<bv8>, b: seq<bv8>)
    requires |a| == |b| == CALENDAR_BYTES
    requires forall i: nat | i < CALENDAR_DAYS :: IsSet(a, i) <==> IsSet(b, i)
    ensures a == b
  {
    forall k | 0 <= k < CALENDAR_BYTES
      ensures a[k] == b[k]
    {
      forall i | 0 <= i < 8
        ensures a[k] & Mask(i) != 0 <==> b[k] & Mask(i) != 0
      {
        assert (8 * k + i) / 8 == k && (8 * k + i) % 8 == i;
        assert IsSet(a, 8 * k + i) <==> IsSet(b, 8 * k + i);
      }
      SameBits(a[k], b[k]);
    }
  }

  method IsMarketCalendarLoaded(stored: MarketCalendar, calendar: MarketCalendarDays) returns (loaded: bool)
    requires |stored.holidays| == |stored.earlyCloses| == CALENDAR_BYTES
    requires stored.validThrough - stored.firstDay < CALENDAR_DAYS
    ensures loaded <==> LoadedAs(stored, calendar)
  {
    if stored.validThrough != calendar.validThrough {
      return false;
    }
    var holidays := SameDays(stored.holidays, stored.firstDay, stored.validThrough, calendar.holidays);
    var earlyCloses := SameDays(stored.earlyCloses, stored.firstDay, stored.validThrough, calendar.earlyCloses);
    return holidays && earlyCloses;
  }

  ghost predicate LoadedAs(stored: MarketCalendar, calendar: MarketCalendarDays) {
    && stored.validThrough == calendar.validThrough
    && Holds(stored.holidays, stored.firstDay, stored.validThrough, calendar.holidays)
    && Holds(stored.earlyCloses, stored.firstDay, stored.validThrough, calendar.earlyCloses)
  }

  lemma {:induction false} KeptDays(days: seq<int>, today: int, day: int)
    ensures day in Kept(days, today) <==> day in days && day >= today
  {
    if days != [] {
      KeptDays(days[1..], today, day);
      assert days == [days[0]] + days[1..];
    }
  }

  /** Dropping the closures before the first stored day changes no bit, so the deployment's check is not misled by it.
      */
  lemma LoadedOnceIsLoaded(stored: MarketCalendar, calendar: MarketCalendarDays, today: int)
    requires stored.firstDay == today
    ensures LoadedAs(stored, MarketCalendarArgs(calendar, today)) <==> LoadedAs(stored, calendar)
  {
    forall day: int
      ensures day in Kept(calendar.holidays, today) <==> day in calendar.holidays && day >= today
      ensures day in Kept(calendar.earlyCloses, today) <==> day in calendar.earlyCloses && day >= today
    {
      KeptDays(calendar.holidays, today, day);
      KeptDays(calendar.earlyCloses, today, day);
    }
  }

  /** A deployment run twice: what the first run loads, the second run's check finds loaded, so it sends nothing. */
  method DeployTwice(calendar: MarketCalendarDays, today: i64) returns (stored: Result<MarketCalendar>, again: bool)
    requires 0 <= today
    requires 0 <= calendar.validThrough <= U16_MAX
    requires forall day :: day in Kept(calendar.holidays, today) ==> 0 <= day <= U16_MAX
    requires forall day :: day in Kept(calendar.earlyCloses, today) ==> 0 <= day <= U16_MAX
    ensures stored.Ok? ==> !again
  {
    var args := MarketCalendarArgs(calendar, today);
    forall i | 0 <= i < |args.holidays| ensures 0 <= args.holidays[i] <= U16_MAX {
      assert args.holidays[i] in Kept(calendar.holidays, today);
    }
    forall i | 0 <= i < |args.earlyCloses| ensures 0 <= args.earlyCloses[i] <= U16_MAX {
      assert args.earlyCloses[i] in Kept(calendar.earlyCloses, today);
    }
    stored := LoadCalendar(args.holidays, args.earlyCloses, args.validThrough, today);
    if stored.Ok? {
      var loaded := IsMarketCalendarLoaded(stored.value, calendar);
      LoadedOnceIsLoaded(stored.value, calendar, today);
      again := !loaded;
    } else {
      again := true;
    }
  }
}
