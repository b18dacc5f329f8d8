/** Relative-time bucketing of articles (src/utils/time_organizer.rs): parse a publication time,
    reduce it to the UTC midnight of its day, label that day relative to now, and order the labels.
    The clock is a parameter (`Clock`: now in UTC seconds and the local zone's fixed offset east of
    UTC), and so are chrono's RFC 3339 and RFC 2822 parsers (each returns UTC seconds or nothing). */
module TimeOrganizer {
  import opened Wrappers
  import opened Calendar

  datatype Clock = Clock(nowUtc: int, localOffset: int)

  datatype Parsers = Parsers(rfc3339: string -> Option<int>, rfc2822: string -> Option<int>)

  /** `parse_datetime`: RFC 3339 first, then RFC 2822, and the current time when neither parses or
      there is no string at all. */
  function ParseDatetime(s: Option<string>, p: Parsers, clock: Clock): (t: int)
    ensures s.Some? && p.rfc3339(s.value).Some? ==> t == p.rfc3339(s.value).value
    ensures s.Some? && p.rfc3339(s.value).None? && p.rfc2822(s.value).Some? ==> t == p.rfc2822(s.value).value
    ensures (s.None? || (p.rfc3339(s.value).None? && p.rfc2822(s.value).None?)) ==> t == clock.nowUtc
  {
    match s
    case None => clock.nowUtc
    case Some(text) =>
      match p.rfc3339(text)
      case Some(t) => t
      case None =>
        match p.rfc2822(text)
        case Some(t) => t
        case None => clock.nowUtc
  }

  /** `time_bucket_key`: UTC midnight of the parsed publication time. */
  function TimeBucketKey(publishedAt: string, p: Parsers, clock: Clock): (k: int)
    ensures var t := ParseDatetime(Some(publishedAt), p, clock);
      k % SECONDS_PER_DAY == 0 && k <= t < k + SECONDS_PER_DAY
  {
    Midnight(ParseDatetime(Some(publishedAt), p, clock))
  }

  /** Whole days between the bucket's UTC date and today's UTC date: 0 exactly on the same civil
      date, and never negative for a bucket that is not in the future. */
  function DaysDiff(bucket: int, clock: Clock): (d: int)
    ensures d == 0 <==> CivilFromDays(DayOf(bucket)) == CivilFromDays(DayOf(clock.nowUtc))
    ensures bucket <= clock.nowUtc ==> d >= 0
  {
    CivilInjective(DayOf(bucket), DayOf(clock.nowUtc));
    DayOf(clock.nowUtc) - DayOf(bucket)
  }

  /** The weekday labels, Monday first. */
  function ThisWeekday(w: nat): string
    requires w < 7
  {
    ["This Monday", "This Tuesday", "This Wednesday", "This Thursday", "This Friday",
     "This Saturday", "This Sunday"][w]
  }

  /** `categorize_by_relative_time`. The weekday is the bucket's in the local zone, while the day
      difference and the month are taken on UTC dates. */
  function Categorize(bucket: int, clock: Clock): (l: string)
    ensures var d := DaysDiff(bucket, clock);
      && (l == "Today" <==> d == 0)
      && (l == "Yesterday" <==> d == 1)
      && (l == ThisWeekday(Weekday(DayOf(bucket + clock.localOffset))) <==> d < 0 || 2 <= d < 7)
      && (l == "Last week" <==> 7 <= d < 14)
      && (l == "Earlier this month" <==> 14 <= d < 30)
      && (l == "Earlier this year" <==> 30 <= d < 365 && CivilFromDays(DayOf(bucket)).month != 1)
      && (l == "Last year" <==> d >= 365 || (30 <= d && CivilFromDays(DayOf(bucket)).month == 1))
  {
    var daysDiff := DaysDiff(bucket, clock);
    var month := CivilFromDays(DayOf(bucket)).month;
    if daysDiff == 0 then "Today"
    else if daysDiff == 1 then "Yesterday"
    else if daysDiff < 7 then ThisWeekday(Weekday(DayOf(bucket + clock.localOffset)))
    else if daysDiff < 14 then "Last week"
    else if daysDiff < 30 then "Earlier this month"
    else if daysDiff < 365 && month > 1 then "Earlier this year"
    else "Last year"
  }

  /** The rank table of `comapre`: the thirteen labels get the ranks 1 to 13, in the order they
      are listed, and every other text has none. */
  function Rank(name: string): (r: Option<int>)
    ensures r.Some? ==> 1 <= r.value <= 13 && LabelOfRank(r.value) == name
    ensures r.None? <==> forall k :: 1 <= k <= 13 ==> LabelOfRank(k) != name
  {
    if name == "Today" then Some(1)
    else if name == "Yesterday" then Some(2)
    else if name == "This Monday" then Some(3)
    else if name == "This Tuesday" then Some(4)
    else if name == "This Wednesday" then Some(5)
    else if name == "This Thursday" then Some(6)
    else if name == "This Friday" then Some(7)
    else if name == "This Saturday" then Some(8)
    else if name == "This Sunday" then Some(9)
    else if name == "Last week" then Some(10)
    else if name == "Earlier this month" then Some(11)
    else if name == "Earlier this year" then Some(12)
    else if name == "Last year" then Some(13)
    else None
  }

  /** The label holding each rank. */
  function LabelOfRank(k: int): string
    requires 1 <= k <= 13
  {
    ["Today", "Yesterday", "This Monday", "This Tuesday", "This Wednesday", "This Thursday",
     "This Friday", "This Saturday", "This Sunday", "Last week", "Earlier this month",
     "Earlier this year", "Last year"][k - 1]
  }

  /** A ranked label is the one label of its rank, so ranks order labels without ties. */
  lemma RankInverse(name: string)
    ensures Rank(name).Some? ==> 1 <= Rank(name).value <= 13 && LabelOfRank(Rank(name).value) == name
  {
  }

  lemma RankOfLabel(k: int)
    requires 1 <= k <= 13
    ensures Rank(LabelOfRank(k)) == Some(k)
  {
  }

  /** `comapre`: the labels' ranks compared; an unranked label makes the `unwrap` panic. */
  function Compare(a: string, b: string): (r: Panics<Ordering>)
    ensures r.Returns? <==> Rank(a).Some? && Rank(b).Some?
    ensures r.Returns? ==> r.value == CompareInt(Rank(a).value, Rank(b).value)
  {
    match Rank(a)
    case None => Panic("called `Option::unwrap()` on a `None` value")
    case Some(ra) =>
      match Rank(b)
      case None => Panic("called `Option::unwrap()` on a `None` value")
      case Some(rb) => Returns(CompareInt(ra, rb))
  }

  /** Every label the categoriser produces is ranked, so comparing its labels never panics. */
  lemma CategorizeIsRanked(bucket: int, clock: Clock)
    ensures Rank(Categorize(bucket, clock)).Some?
  {
    var w := Weekday(DayOf(bucket + clock.localOffset));
    assert Rank(ThisWeekday(w)) == Some(w + 3) by {
      assert ThisWeekday(w) == LabelOfRank(w + 3);
      RankOfLabel(w + 3);
    }
  }

  /** On ranked labels `Compare` is a total order: equal only on the same label, antisymmetric and
      transitive. */
  lemma CompareTotalOrder(a: string, b: string, c: string)
    requires Rank(a).Some? && Rank(b).Some? && Rank(c).Some?
    ensures Compare(a, b) == Returns(Equal) <==> a == b
    ensures Compare(a, b) == Returns(Less) <==> Compare(b, a) == Returns(Greater)
    ensures Compare(a, b) == Returns(Less) && Compare(b, c) == Returns(Less) ==> Compare(a, c) == Returns(Less)
  {
    RankInverse(a);
    RankInverse(b);
  }

  /** "Today" means the same UTC date as now, and "Yesterday" the UTC date before. */
  lemma TodayAndYesterday(bucket: int, clock: Clock)
    ensures Categorize(bucket, clock) == "Today" <==> DayOf(bucket) == DayOf(clock.nowUtc)
    ensures Categorize(bucket, clock) == "Yesterday" <==> DayOf(bucket) == DayOf(clock.nowUtc) - 1
  {
    var w := Weekday(DayOf(bucket + clock.localOffset));
    RankOfLabel(w + 3);
    assert ThisWeekday(w) == LabelOfRank(w + 3);
  }

  /** A bucket from two to six days back is named after its weekday in the local zone. West of UTC
      that is the weekday before the bucket's UTC date, since the bucket is a UTC midnight. */
  lemma WeekdayIsLocal(bucket: int, clock: Clock)
    requires bucket % SECONDS_PER_DAY == 0
    requires -SECONDS_PER_DAY < clock.localOffset < 0
    requires 2 <= DaysDiff(bucket, clock) < 7
    ensures Categorize(bucket, clock) == ThisWeekday(Weekday(DayOf(bucket) - 1))
  {
    assert DayOf(bucket + clock.localOffset) == DayOf(bucket) - 1;
  }

  /** A bucket in January that is between 30 and 364 days old is labelled "Last year", even when it
      lies in the current year: the label tests the bucket's month, not its year. */
  lemma JanuaryIsLastYear(bucket: int, clock: Clock)
    requires CivilFromDays(DayOf(bucket)).month == 1
    requires 30 <= DaysDiff(bucket, clock) < 365
    ensures Categorize(bucket, clock) == "Last year"
  {
  }
}
