/** The test-date generator (src/utils/generator.rs): a date string "YYYY-MM-DDT16:39:57-08:00" with
    a year, month and day drawn at random. The random number generator is a parameter: each
    shuffle-then-choose is one draw, an index into the list reduced modulo its length, which reaches
    every element; choosing from an empty list yields nothing. */
module Generator {
  import opened Wrappers
  import opened Text
  import opened Calendar

  /** `pad`: a leading "0" below ten, plain decimal otherwise. */
  function Pad(n: int): string {
    if n < 10 then "0" + IntToDecimal(n) else IntToDecimal(n)
  }

  /** Between 0 and 99 the padded number is two digits that read back as the number. */
  lemma PadTwoDigits(n: int)
    requires 0 <= n <= 99
    ensures |Pad(n)| == 2 && AllDigits(Pad(n)) && DecimalValue(Pad(n)) == n
  {
    NatDecimalRoundTrip(n);
    if n < 10 {
      assert Pad(n) == ['0', DigitChar(n)];
    } else {
      assert NatToDecimal(n) == NatToDecimal(n / 10) + [DigitChar(n % 10)];
    }
  }

  /** The random draws one call consumes. */
  datatype Draws = Draws(year: nat, month: nat, day: nat)

  /** `choose` after a shuffle: some element, or nothing for an empty list. */
  function Choose<T>(xs: seq<T>, draw: nat): (r: Option<T>)
    ensures r.None? <==> xs == []
    ensures r.Some? ==> r.value in xs
  {
    if xs == [] then None else Some(xs[draw % |xs|])
  }

  /** `(lo..hi).collect()`. */
  function Range(lo: int, hi: int): (r: seq<int>)
    ensures |r| == if lo < hi then hi - lo else 0
    ensures forall i :: 0 <= i < |r| ==> r[i] == lo + i
    decreases hi - lo
  {
    if lo < hi then [lo] + Range(lo + 1, hi) else []
  }

  lemma RangeMembers(lo: int, hi: int, x: int)
    ensures x in Range(lo, hi) <==> lo <= x < hi
  {
    if lo <= x < hi {
      assert Range(lo, hi)[x - lo] == x;
    }
  }

  const YEARS: seq<string> := ["2026", "2025", "2024"]
  const TIME_SUFFIX := "T16:39:57-08:00"

  function DateText(year: string, month: int, day: int): string {
    year + "-" + Pad(month) + "-" + Pad(day) + TIME_SUFFIX
  }

  /** `generate_date`. In 2026 the month is January and the day lies before today's day of the month
      (UTC); on the first of the month that range is empty and the `unwrap` panics. Other years draw
      the month from 1..11, and the day is drawn from the same month list, so it too lies in 1..11;
      the day list built for the month is never used. */
  function GenerateDate(nowUtc: int, draws: Draws): (r: Panics<string>) {
    var year := Choose(YEARS, draws.year).value;
    if year == "2026" then
      var days := Range(1, CivilFromDays(DayOf(nowUtc)).day);
      match Choose(days, draws.day)
      case None => Panic("called `Option::unwrap()` on a `None` value")
      case Some(day) => Returns(DateText(year, 1, day))
    else
      var months := Range(1, 12);
      var month := Choose(months, draws.month).value;
      var day := Choose(months, draws.day).value;
      Returns(DateText(year, month, day))
  }

  /** The generator panics exactly when it picks 2026 on the first day of a month. */
  lemma GenerateDatePanics(nowUtc: int, draws: Draws)
    ensures GenerateDate(nowUtc, draws).Panic?
        <==> Choose(YEARS, draws.year).value == "2026" && CivilFromDays(DayOf(nowUtc)).day == 1
  {
  }

  /** The shape of a generated date. */
  predicate IsDateText(s: string) {
    && |s| == 25 && s[..4] in YEARS && s[4] == '-' && s[7] == '-' && s[10..] == TIME_SUFFIX
    && AllDigits(s[5..7]) && AllDigits(s[8..10])
  }

  lemma {:induction false} DateTextParts(year: string, month: int, day: int)
    requires year in YEARS && 1 <= month <= 99 && 1 <= day <= 99
    ensures var s := DateText(year, month, day);
      IsDateText(s) && s[..4] == year && s[5..7] == Pad(month) && s[8..10] == Pad(day)
  {
    PadTwoDigits(month);
    PadTwoDigits(day);
    var s := DateText(year, month, day);
    assert s == year + "-" + Pad(month) + "-" + Pad(day) + TIME_SUFFIX;
    assert s[..4] == year;
    assert s[5..7] == Pad(month);
    assert s[8..10] == Pad(day);
    assert s[10..] == TIME_SUFFIX;
  }

  /** Every generated date has the fixed format. A 2026 date is in January on a day before today's;
      any other date has both its month and its day in 1..11. */
  lemma {:induction false} GeneratedDateShape(nowUtc: int, draws: Draws)
    requires GenerateDate(nowUtc, draws).Returns?
    ensures var s := GenerateDate(nowUtc, draws).value;
      && IsDateText(s)
      && var month := DecimalValue(s[5..7]);
      && var day := DecimalValue(s[8..10]);
      && (s[..4] == "2026" ==> month == 1 && 1 <= day < CivilFromDays(DayOf(nowUtc)).day)
      && (s[..4] != "2026" ==> 1 <= month <= 11 && 1 <= day <= 11)
  {
    var year := Choose(YEARS, draws.year).value;
    if year == "2026" {
      var today := CivilFromDays(DayOf(nowUtc)).day;
      var day := Choose(Range(1, today), draws.day).value;
      RangeMembers(1, today, day);
      DateTextParts(year, 1, day);
      PadTwoDigits(1);
      PadTwoDigits(day);
    } else {
      var month := Choose(Range(1, 12), draws.month).value;
      var day := Choose(Range(1, 12), draws.day).value;
      RangeMembers(1, 12, month);
      RangeMembers(1, 12, day);
      DateTextParts(year, month, day);
      PadTwoDigits(month);
      PadTwoDigits(day);
    }
  }
}
