/**
 * The relative-age text of the SQLite read store's relativeFromFormattedTimestamp
 * (apps/ddash/internal/adapters/sqlite/service_read_store.go): the bucket of the time between a
 * stored timestamp and the clock, in minutes, hours, days or 30-day months.
 *
 * Timestamp parsing and the clock are parameters.
 */
module SqliteRelativeAge {
  import opened Wrappers
  import opened GoStrings


  /** The age buckets of relativeFromFormattedTimestamp. */
  datatype RelativeAge = JustNow | MinutesAgo(minutes: int) | HoursAgo(hours: int) | DaysAgo(days: int)
                       | MonthsAgo(months: int)

  function RelativeAgeText(a: RelativeAge): (r: String)
    ensures r != []
  {
    match a
    case JustNow => "just now"
    case MinutesAgo(m) => IntToString(m) + "m ago"
    case HoursAgo(h) => IntToString(h) + "h ago"
    case DaysAgo(d) => IntToString(d) + "d ago"
    case MonthsAgo(m) => IntToString(m) + "mo ago"
  }

  /**
   * The bucket of a time difference of `deltaSeconds` in either direction: whole hours and
   * minutes of |delta|, "just now" up to one minute, then minutes, hours, days up to 30 days,
   * and 30-day months.
   */
  function RelativeAgeOf(deltaSeconds: int): RelativeAge
  {
    var delta := if deltaSeconds < 0 then -deltaSeconds else deltaSeconds;
    var hours := delta / 3600;
    if hours < 1 then
      var minutes := delta / 60;
      if minutes <= 1 then JustNow else MinutesAgo(minutes)
    else if hours < 24 then HoursAgo(hours)
    else if hours < 24 * 30 then DaysAgo(hours / 24)
    else MonthsAgo(hours / (24 * 30))
  }

  /** The bucket depends only on the size of the difference, not on its sign. */
  lemma RelativeAgeSymmetric(deltaSeconds: int)
    ensures RelativeAgeOf(-deltaSeconds) == RelativeAgeOf(deltaSeconds)
  {
  }

  /** Each bucket's number lies in its range and is the whole count of its unit in |delta|. */
  lemma RelativeAgeBuckets(deltaSeconds: int)
    ensures var delta := if deltaSeconds < 0 then -deltaSeconds else deltaSeconds;
            match RelativeAgeOf(deltaSeconds)
            case JustNow => delta < 120
            case MinutesAgo(m) => 2 <= m < 60 && 60 * m <= delta < 60 * m + 60
            case HoursAgo(h) => 1 <= h < 24 && 3600 * h <= delta < 3600 * h + 3600
            case DaysAgo(d) => 1 <= d < 30 && 86400 * d <= delta < 86400 * d + 86400
            case MonthsAgo(m) => 1 <= m && 2592000 * m <= delta < 2592000 * m + 2592000
  {
  }

  /** The order of the buckets, finest first. */
  function BucketRank(a: RelativeAge): int
  {
    match a
    case JustNow => 0
    case MinutesAgo(_) => 1
    case HoursAgo(_) => 2
    case DaysAgo(_) => 3
    case MonthsAgo(_) => 4
  }

  /** A larger difference never falls in a finer bucket. */
  lemma RelativeAgeMonotone(a: int, b: int)
    requires 0 <= a <= b
    ensures BucketRank(RelativeAgeOf(a)) <= BucketRank(RelativeAgeOf(b))
  {
    assert a / 3600 <= b / 3600;
    assert a / 60 <= b / 60;
  }

  /**
   * relativeFromFormattedTimestamp: "" for a blank value or one that does not parse; otherwise
   * the bucket text of the difference to the clock. Parsing and the clock are parameters.
   */
  function RelativeFromFormattedTimestamp(value: String, parse: String -> Option<int>, nowSeconds: int): String
  {
    var text := TrimSpace(value);
    if text == [] then []
    else
      match parse(text)
      case None => []
      case Some(at) => RelativeAgeText(RelativeAgeOf(nowSeconds - at))
  }

  /** The text is empty exactly when the value is blank or does not parse; otherwise it is the bucket of the difference. */
  lemma RelativeFromFormattedTimestampCases(value: String, parse: String -> Option<int>, nowSeconds: int)
    ensures RelativeFromFormattedTimestamp(value, parse, nowSeconds) == [] <==> IsBlank(value) || parse(TrimSpace(value)).None?
    ensures !IsBlank(value) && parse(TrimSpace(value)).Some? ==>
              RelativeFromFormattedTimestamp(value, parse, nowSeconds)
              == RelativeAgeText(RelativeAgeOf(nowSeconds - parse(TrimSpace(value)).value))
  {
    var text := TrimSpace(value);
    var r := RelativeFromFormattedTimestamp(value, parse, nowSeconds);
    if text == [] {
      assert r == [];
    } else if parse(text).None? {
      assert r == [];
    } else {
      var age := RelativeAgeOf(nowSeconds - parse(text).value);
      assert r == RelativeAgeText(age);
    }
  }
}
