/** The greeting on the first page, chosen by the hour of the day in
    Singapore. */
module Greeting {

  /** The three parts of the day the greeting distinguishes. */
  datatype DayPart = Morning | Afternoon | Evening

  /** `datetime.now(timezone(timedelta(hours=8))).hour` for a clock that reads
      `utcHour` in UTC: Singapore is eight hours ahead, wrapping past midnight. */
  function SingaporeHour(utcHour: int): (hour: int)
    requires 0 <= utcHour < 24
    ensures 0 <= hour < 24
    ensures (hour - utcHour - 8) % 24 == 0
  {
    (utcHour + 8) % 24
  }

  /** Before noon is morning, before six in the evening is afternoon, and the
      rest of the day is evening. */
  function PartOfDay(hour: int): (part: DayPart)
    ensures part == Morning <==> hour < 12
    ensures part == Afternoon <==> 12 <= hour < 18
    ensures part == Evening <==> 18 <= hour
  {
    if hour < 12 then Morning
    else if hour < 18 then Afternoon
    else Evening
  }

  function Rank(part: DayPart): nat {
    match part
    case Morning => 0
    case Afternoon => 1
    case Evening => 2
  }

  /** The salutation opening the page title, with its emoji. */
  function Salutation(part: DayPart): string {
    match part
    case Morning => "\U{1F305} Good morning"
    case Afternoon => "\U{1F324}\U{FE0F} Good afternoon"
    case Evening => "\U{1F319} Good evening"
  }

  /** Later in the day never gives an earlier greeting. */
  lemma PartOfDayMonotone(a: int, b: int)
    requires a <= b
    ensures Rank(PartOfDay(a)) <= Rank(PartOfDay(b))
  {
  }

  /** The hours before `n` that get the greeting for `part`. */
  function HoursIn(part: DayPart, n: nat): set<nat> {
    set h: nat | h < n && PartOfDay(h) == part
  }

  lemma HoursInStep(part: DayPart, n: nat)
    ensures HoursIn(part, n + 1) == HoursIn(part, n) + (if PartOfDay(n) == part then {n} else {})
  {
  }

  /** Over the 24 hours of a day, morning covers hours 0 to 11, afternoon 12
      to 17 and evening 18 to 23: twelve, six and six hours. */
  lemma {:induction false} HoursOfDay(n: nat)
    requires n <= 24
    ensures |HoursIn(Morning, n)| == if n < 12 then n else 12
    ensures |HoursIn(Afternoon, n)| == if n < 12 then 0 else if n < 18 then n - 12 else 6
    ensures |HoursIn(Evening, n)| == if n < 18 then 0 else n - 18
  {
    if n > 0 {
      HoursOfDay(n - 1);
      HoursInStep(Morning, n - 1);
      HoursInStep(Afternoon, n - 1);
      HoursInStep(Evening, n - 1);
    } else {
      assert HoursIn(Morning, 0) == {};
      assert HoursIn(Afternoon, 0) == {};
      assert HoursIn(Evening, 0) == {};
    }
  }

  /** The greeting at the hours 0, 11, 12, 17, 18 and 23, and at 16:00 UTC,
      which is midnight in Singapore. */
  lemma GreetingBoundaries()
    ensures PartOfDay(0) == Morning && PartOfDay(11) == Morning
    ensures PartOfDay(12) == Afternoon && PartOfDay(17) == Afternoon
    ensures PartOfDay(18) == Evening && PartOfDay(23) == Evening
    ensures PartOfDay(SingaporeHour(16)) == Morning
  {
  }
}
