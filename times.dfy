/** Time in the model: integer nanoseconds since the Unix epoch, read in UTC
    (Go's `time.Time` and `time.Duration`; every clock read is an explicit
    parameter). */
module Times {
  import opened Text

  const Second: int := 1_000_000_000
  const Minute: int := 60 * Second
  const Hour: int := 60 * Minute
  const Day: int := 24 * Hour

  /** Year, month and day of the proleptic Gregorian calendar for a count of
      days since 1970-01-01 (the era-based civil-from-days conversion). */
  function CivilFromDays(days: int): (int, int, int)
  {
    var z := days + 719468;
    var era := z / 146097;
    var doe := z - era * 146097;
    var yoe := (doe - doe / 1460 + doe / 36524 - doe / 146096) / 365;
    var y := yoe + era * 400;
    var doy := doe - (365 * yoe + yoe / 4 - yoe / 100);
    var mp := (5 * doy + 2) / 153;
    var d := doy - (153 * mp + 2) / 5 + 1;
    var m := if mp < 10 then mp + 3 else mp - 9;
    (if m <= 2 then y + 1 else y, m, d)
  }

  /** Go's `appendInt(b, x, width)` used by `Time.Format`: a minus sign for a
      negative value, then its digits left-padded with zeros to `width`. */
  function ZeroPad(x: int, width: nat): string
  {
    var digits := NatToDecimal(if x < 0 then -x else x);
    var pad := if |digits| < width then seq(width - |digits|, _ => '0') else "";
    (if x < 0 then "-" else "") + pad + digits
  }

  /** The calendar day of instant `t`: the count of whole days since the epoch
      (rounded towards the past, also before 1970). */
  function DayOf(t: int): int { t / Day }

  /** `t.Format("2006-01-02")` in UTC. */
  function FormatDate(t: int): string
  {
    FormatCivil(CivilFromDays(DayOf(t)))
  }

  function FormatCivil(date: (int, int, int)): string
  {
    ZeroPad(date.0, 4) + "-" + ZeroPad(date.1, 2) + "-" + ZeroPad(date.2, 2)
  }

  /** Day 0 is 1 January 1970 and day 19737 is 15 January 2024. */
  lemma CivilFromDaysExamples()
    ensures CivilFromDays(0) == (1970, 1, 1)
    ensures CivilFromDays(19737) == (2024, 1, 15)
  {
    assert 719468 / 146097 == 4;
    assert 135080 / 1460 == 92 && 135080 / 36524 == 3 && 135080 / 146096 == 0;
    assert (135080 - 92 + 3) / 365 == 369;
    assert (5 * 306 + 2) / 153 == 10 && (153 * 10 + 2) / 5 == 306;
    assert 739205 / 146097 == 5;
    assert 8720 / 1460 == 5 && 8720 / 36524 == 0 && 8720 / 146096 == 0;
    assert (8720 - 5) / 365 == 23;
    assert (5 * 320 + 2) / 153 == 10;
  }

  lemma ZeroPadExamples()
    ensures ZeroPad(2024, 4) == "2024" && ZeroPad(1, 2) == "01" && ZeroPad(15, 2) == "15"
  {
    assert NatToDecimal(2) == "2";
    assert NatToDecimal(20) == "20";
    assert NatToDecimal(202) == "202";
    assert NatToDecimal(2024) == "2024";
  }

  lemma FormatCivilExample()
    ensures FormatCivil((2024, 1, 15)) == "2024-01-15"
  {
    ZeroPadExamples();
  }

  /** The date layout of the cache keys, on the instant 2024-01-15T14:00:00Z. */
  lemma FormatDateExample()
    ensures FormatDate(1_705_327_200_000_000_000) == "2024-01-15"
  {
    assert Day == 86_400_000_000_000;
    assert 1_705_327_200_000_000_000 / 86_400_000_000_000 == 19737;
    CivilFromDaysExamples();
    FormatCivilExample();
  }
}
