/**
 * Log-file naming: an ISO 8601 timestamp of the local clock, the hour offset
 * from GMT, a filename-friendly rewrite, and the default location under the
 * user's home directory. The clock and the home directory are parameters.
 */
module DefaultPaths {
  import opened Text

  const DEFAULT_SKELLYLOGS_BASE_FOLDER_NAME := "skellylogs_data"
  const LOGS_FOLDER_NAME := "logs"
  const SECONDS_PER_HOUR := 3600

  /** A naive local `datetime`, as `datetime.now()` returns it. */
  datatype DateTime = DateTime(year: nat, month: nat, day: nat, hour: nat, minute: nat,
                               second: nat, microsecond: nat)
  {
    /** The ranges `datetime` enforces on its fields. */
    predicate Valid() {
      && 1 <= year <= 9999 && 1 <= month <= 12 && 1 <= day <= DaysInMonth(year, month)
      && hour < 24 && minute < 60 && second < 60 && microsecond < 1000000
    }
  }

  predicate IsLeapYear(year: nat) {
    year % 4 == 0 && (year % 100 != 0 || year % 400 == 0)
  }

  function DaysInMonth(year: nat, month: nat): nat {
    if month == 2 then (if IsLeapYear(year) then 29 else 28)
    else if month in {4, 6, 9, 11} then 30
    else 31
  }

  /** The `timespec` values `isoformat` accepts. */
  datatype TimeSpec = Auto | Hours | Minutes | Seconds | Milliseconds | Microseconds

  /** `datetime.isoformat(timespec=...)` for a naive datetime: date, `T`, time to the requested precision. */
  function IsoFormat(t: DateTime, spec: TimeSpec): string {
    DatePart(t) + "T" + TimePart(t, spec)
  }

  /** `YYYY-MM-DD`. */
  function DatePart(t: DateTime): string {
    ZeroPad(t.year, 4) + "-" + ZeroPad(t.month, 2) + "-" + ZeroPad(t.day, 2)
  }

  /** `HH:MM:SS` with as many parts and fraction digits as `spec` asks for; `Auto` shows microseconds only when there are some. */
  function TimePart(t: DateTime, spec: TimeSpec): string {
    var hh := ZeroPad(t.hour, 2);
    var hhmm := hh + ":" + ZeroPad(t.minute, 2);
    var hhmmss := hhmm + ":" + ZeroPad(t.second, 2);
    match spec
    case Hours => hh
    case Minutes => hhmm
    case Seconds => hhmmss
    case Milliseconds => hhmmss + "." + ZeroPad(t.microsecond / 1000, 3)
    case Microseconds => hhmmss + "." + ZeroPad(t.microsecond, 6)
    case Auto => if t.microsecond == 0 then hhmmss else hhmmss + "." + ZeroPad(t.microsecond, 6)
  }

  /**
   * `int(seconds / 60 / 60)`: whole hours truncated toward zero, where
   * Dafny's own `/` rounds toward negative infinity for negative operands.
   */
  function WholeHours(seconds: int): (h: int)
    ensures seconds >= 0 ==> 0 <= h * SECONDS_PER_HOUR <= seconds < h * SECONDS_PER_HOUR + SECONDS_PER_HOUR
    ensures seconds < 0 ==> h * SECONDS_PER_HOUR - SECONDS_PER_HOUR < seconds <= h * SECONDS_PER_HOUR <= 0
  {
    if seconds >= 0 then seconds / SECONDS_PER_HOUR else -((-seconds) / SECONDS_PER_HOUR)
  }

  /** `_get_gmt_offset_string`: the whole hours of `tm_gmtoff`, with an explicit sign. */
  function GmtOffsetString(gmtoff: int): (r: string)
    ensures |r| >= 2 && (r[0] == '+' || r[0] == '-') && AllDigits(r[1..])
  {
    SignedIntToString(WholeHours(gmtoff))
  }

  /**
   * The offset text reads back as the hour offset truncated toward zero, and
   * starts with '+' exactly when that is not negative ("+0" for less than an
   * hour either way).
   */
  lemma GmtOffsetMeaning(gmtoff: int)
    ensures |GmtOffsetString(gmtoff)| >= 2 && AllDigits(GmtOffsetString(gmtoff)[1..])
    ensures ParseSigned(GmtOffsetString(gmtoff)) == WholeHours(gmtoff)
    ensures GmtOffsetString(gmtoff)[0] == '+' <==> gmtoff > -SECONDS_PER_HOUR
    ensures -SECONDS_PER_HOUR < gmtoff < SECONDS_PER_HOUR ==> GmtOffsetString(gmtoff) == "+0"
  {
    SignedRoundTrip(WholeHours(gmtoff));
  }

  /** `s.replace(":", "_").replace(".", "ms")`. */
  function FilenameFriendly(s: string): string {
    ReplaceAll(ReplaceAll(s, ':', "_"), '.', "ms")
  }

  /** `_get_iso8601_time_string`: the timestamp, `_gmt`, the offset, optionally made filename friendly. */
  function Iso8601TimeString(now: DateTime, gmtoff: int, spec: TimeSpec, filenameFriendly: bool): (r: string)
    ensures filenameFriendly ==> ':' !in r && '.' !in r
  {
    var result := IsoFormat(now, spec) + "_gmt" + GmtOffsetString(gmtoff);
    if filenameFriendly then
      FriendlyHasNoSeparators(result);
      FilenameFriendly(result)
    else result
  }

  /** `_create_log_file_name`, with the default millisecond precision. */
  function LogFileName(now: DateTime, gmtoff: int): (r: string)
    ensures |r| >= 8 && r[..4] == "log_" && r[|r| - 4..] == ".log"
  {
    StemOf("log_", Iso8601TimeString(now, gmtoff, Milliseconds, true), ".log");
    "log_" + Iso8601TimeString(now, gmtoff, Milliseconds, true) + ".log"
  }

  /** `Path(base) / name` for a single relative component, on POSIX. */
  function JoinPath(base: string, name: string): (r: string)
    ensures r == base + name || r == base + "/" + name
    ensures base == [] || base[|base| - 1] == '/' <==> r == base + name
  {
    if base == [] || base[|base| - 1] == '/' then base + name else base + "/" + name
  }

  /** A non-empty base joined with `name` is longer than `name` and ends with it. */
  lemma JoinEndsWith(base: string, name: string)
    requires base != []
    ensures |JoinPath(base, name)| > |name| && JoinPath(base, name)[|JoinPath(base, name)| - |name|..] == name
  {
  }

  /** `~/skellylogs_data/logs` for home directory `home`. */
  function LogFolder(home: string): (r: string)
    ensures |r| >= |home| + |LOGS_FOLDER_NAME| && r[..|home|] == home
    ensures r[|r| - |LOGS_FOLDER_NAME|..] == LOGS_FOLDER_NAME
  {
    var base := JoinPath(home, DEFAULT_SKELLYLOGS_BASE_FOLDER_NAME);
    assert base[..|home|] == home;
    var r := JoinPath(base, LOGS_FOLDER_NAME);
    assert r[..|base|] == base;
    r
  }

  /** `get_log_file_path`: the path it returns for home directory `home` at `now` (the folder is not created here). */
  function LogFilePath(home: string, now: DateTime, gmtoff: int): (r: string)
    ensures |r| > |LogFileName(now, gmtoff)| && r[|r| - |LogFileName(now, gmtoff)|..] == LogFileName(now, gmtoff)
  {
    JoinEndsWith(LogFolder(home), LogFileName(now, gmtoff));
    JoinPath(LogFolder(home), LogFileName(now, gmtoff))
  }

  /** The rewrite distributes over concatenation. */
  lemma FriendlyConcat(a: string, b: string)
    ensures FilenameFriendly(a + b) == FilenameFriendly(a) + FilenameFriendly(b)
  {
    ReplaceAllConcat(a, b, ':', "_");
    ReplaceAllConcat(ReplaceAll(a, ':', "_"), ReplaceAll(b, ':', "_"), '.', "ms");
  }

  /** Text without ':' and '.' is already filename friendly. */
  lemma FriendlyKeeps(s: string)
    requires ':' !in s && '.' !in s
    ensures FilenameFriendly(s) == s
  {
    ReplaceAllWithout(s, ':', "_");
    ReplaceAllWithout(s, '.', "ms");
  }

  /** The rewrite leaves neither a ':' nor a '.' behind. */
  lemma FriendlyHasNoSeparators(s: string)
    ensures ':' !in FilenameFriendly(s) && '.' !in FilenameFriendly(s)
  {
    ReplaceAllRemoves(s, ':', "_");
    ReplaceAllKeeps(ReplaceAll(s, ':', "_"), '.', "ms", ':');
    ReplaceAllRemoves(ReplaceAll(s, ':', "_"), '.', "ms");
  }

  lemma DigitsHaveNoSeparators(s: string)
    requires AllDigits(s)
    ensures ':' !in s && '.' !in s
  {
  }

  /** The offset text is a sign and digits, so it has no ':' and no '.'. */
  lemma OffsetHasNoSeparators(gmtoff: int)
    ensures ':' !in GmtOffsetString(gmtoff) && '.' !in GmtOffsetString(gmtoff)
  {
    var offset := GmtOffsetString(gmtoff);
    GmtOffsetMeaning(gmtoff);
    DigitsHaveNoSeparators(offset[1..]);
    assert offset == [offset[0]] + offset[1..];
  }

  /** Only the timestamp part of `stamp + "_gmt" + offset` is rewritten. */
  lemma FriendlySuffix(stamp: string, offset: string)
    requires ':' !in offset && '.' !in offset
    ensures FilenameFriendly(stamp + "_gmt" + offset) == FilenameFriendly(stamp) + "_gmt" + offset
  {
    assert ':' !in "_gmt" + offset && '.' !in "_gmt" + offset;
    assert stamp + "_gmt" + offset == stamp + ("_gmt" + offset);
    FriendlyConcat(stamp, "_gmt" + offset);
    FriendlyKeeps("_gmt" + offset);
  }

  /**
   * The friendly string is the friendly timestamp followed by `_gmt` and the
   * offset untouched: only the timestamp holds ':' or '.'.
   */
  lemma FriendlyLayout(now: DateTime, gmtoff: int, spec: TimeSpec)
    ensures Iso8601TimeString(now, gmtoff, spec, true)
            == FilenameFriendly(IsoFormat(now, spec)) + "_gmt" + GmtOffsetString(gmtoff)
    ensures Iso8601TimeString(now, gmtoff, spec, false)
            == IsoFormat(now, spec) + "_gmt" + GmtOffsetString(gmtoff)
  {
    OffsetHasNoSeparators(gmtoff);
    FriendlySuffix(IsoFormat(now, spec), GmtOffsetString(gmtoff));
  }

  /** Appending a separator and a part free of separators: only the separator is rewritten. */
  lemma FriendlyAppend(prefix: string, sep: string, part: string)
    requires ':' !in part && '.' !in part
    ensures FilenameFriendly(prefix + sep + part) == FilenameFriendly(prefix) + FilenameFriendly(sep) + part
  {
    FriendlyConcat(prefix + sep, part);
    FriendlyConcat(prefix, sep);
    FriendlyKeeps(part);
  }

  /** The rewrite of a millisecond time of day built from digit groups. */
  lemma FriendlyTime(h: string, mi: string, s: string, ms: string)
    requires AllDigits(h) && AllDigits(mi) && AllDigits(s) && AllDigits(ms)
    ensures FilenameFriendly(h + ":" + mi + ":" + s + "." + ms) == h + "_" + mi + "_" + s + "ms" + ms
  {
    DigitsHaveNoSeparators(h);
    DigitsHaveNoSeparators(mi);
    DigitsHaveNoSeparators(s);
    DigitsHaveNoSeparators(ms);
    FriendlyKeeps(h);
    assert FilenameFriendly(":") == "_";
    assert FilenameFriendly(".") == "ms";
    FriendlyAppend(h, ":", mi);
    FriendlyAppend(h + ":" + mi, ":", s);
    FriendlyAppend(h + ":" + mi + ":" + s, ".", ms);
  }

  /** The date part has only digits and dashes. */
  lemma DateHasNoSeparators(t: DateTime)
    ensures ':' !in DatePart(t) + "T" && '.' !in DatePart(t) + "T"
  {
    DigitsHaveNoSeparators(ZeroPad(t.year, 4));
    DigitsHaveNoSeparators(ZeroPad(t.month, 2));
    DigitsHaveNoSeparators(ZeroPad(t.day, 2));
  }

  /** The millisecond timestamp in friendly form: `YYYY-MM-DDTHH_MM_SSmsNNN`. */
  lemma FriendlyMilliseconds(t: DateTime)
    ensures FilenameFriendly(IsoFormat(t, Milliseconds))
            == DatePart(t) + "T" + (ZeroPad(t.hour, 2) + "_" + ZeroPad(t.minute, 2) + "_"
                                    + ZeroPad(t.second, 2) + "ms" + ZeroPad(t.microsecond / 1000, 3))
  {
    DateHasNoSeparators(t);
    FriendlyConcat(DatePart(t) + "T", TimePart(t, Milliseconds));
    FriendlyKeeps(DatePart(t) + "T");
    FriendlyTime(ZeroPad(t.hour, 2), ZeroPad(t.minute, 2), ZeroPad(t.second, 2), ZeroPad(t.microsecond / 1000, 3));
  }

  /** `ZeroPad` to a width the number fits in gives exactly that width. */
  lemma ZeroPadWidth(n: nat, width: nat)
    requires 1 <= width && n < Pow10(width)
    ensures |ZeroPad(n, width)| == width
  {
    DecimalFits(n, width);
  }

  /** For every valid clock reading the friendly millisecond timestamp has 24 characters. */
  lemma FriendlyMillisecondsLength(t: DateTime)
    requires t.Valid()
    ensures |FilenameFriendly(IsoFormat(t, Milliseconds))| == 24
  {
    FriendlyMilliseconds(t);
    DatePartLength(t);
    FriendlyClockLength(t);
  }

  /** A valid date is written in 10 characters. */
  lemma DatePartLength(t: DateTime)
    requires t.Valid()
    ensures |DatePart(t)| == 10
  {
    assert Pow10(2) == 100 && Pow10(4) == 10000;
    assert t.day <= 31;
    ZeroPadWidth(t.year, 4);
    ZeroPadWidth(t.month, 2);
    ZeroPadWidth(t.day, 2);
  }

  /** A valid time of day in friendly millisecond form has 13 characters. */
  lemma FriendlyClockLength(t: DateTime)
    requires t.Valid()
    ensures |ZeroPad(t.hour, 2) + "_" + ZeroPad(t.minute, 2) + "_" + ZeroPad(t.second, 2) + "ms"
             + ZeroPad(t.microsecond / 1000, 3)| == 13
  {
    assert Pow10(2) == 100 && Pow10(3) == 1000;
    ZeroPadWidth(t.hour, 2);
    ZeroPadWidth(t.minute, 2);
    ZeroPadWidth(t.second, 2);
    ZeroPadWidth(t.microsecond / 1000, 3);
  }

  /** The file name is `log_`, the friendly timestamp, `_gmt`, the offset and `.log`. */
  lemma LogFileNameLayout(now: DateTime, gmtoff: int)
    ensures LogFileName(now, gmtoff)
            == "log_" + FilenameFriendly(IsoFormat(now, Milliseconds)) + "_gmt" + GmtOffsetString(gmtoff) + ".log"
  {
    FriendlyLayout(now, gmtoff, Milliseconds);
    Enclosed(Iso8601TimeString(now, gmtoff, Milliseconds, true),
             FilenameFriendly(IsoFormat(now, Milliseconds)), GmtOffsetString(gmtoff));
  }

  lemma Enclosed(inner: string, stamp: string, offset: string)
    requires inner == stamp + "_gmt" + offset
    ensures "log_" + inner + ".log" == "log_" + stamp + "_gmt" + offset + ".log"
  {
  }

  /** The file name starts with `log_`, ends with `.log`, and its stem holds no ':' and no '.'. */
  lemma LogFileNameShape(now: DateTime, gmtoff: int)
    ensures var name := LogFileName(now, gmtoff);
      && |name| >= 8 && name[..4] == "log_" && name[|name| - 4..] == ".log"
      && ':' !in name[..|name| - 4] && '.' !in name[..|name| - 4]
  {
    NameShape(Iso8601TimeString(now, gmtoff, Milliseconds, true),
              IsoFormat(now, Milliseconds) + "_gmt" + GmtOffsetString(gmtoff));
  }

  lemma NameShape(friendly: string, raw: string)
    requires friendly == FilenameFriendly(raw)
    ensures var name := "log_" + friendly + ".log";
      && |name| >= 8 && name[..4] == "log_" && name[|name| - 4..] == ".log"
      && ':' !in name[..|name| - 4] && '.' !in name[..|name| - 4]
  {
    FriendlyHasNoSeparators(raw);
    StemOf("log_", friendly, ".log");
  }

  lemma StemOf(prefix: string, middle: string, suffix: string)
    ensures var s := prefix + middle + suffix;
      s[..|prefix|] == prefix && s[|s| - |suffix|..] == suffix && s[..|s| - |suffix|] == prefix + middle
  {
  }

  lemma UnderFolder(home: string, name: string)
    requires home != []
    ensures |JoinPath(LogFolder(home), name)| >= |home| && JoinPath(LogFolder(home), name)[..|home|] == home
  {
    var sep := if home[|home| - 1] == '/' then "" else "/";
    LogFolderLayout(home, name);
    assert home + sep + "skellylogs_data/logs/" + name == home + (sep + "skellylogs_data/logs/" + name);
  }

  /** `home/skellylogs_data/logs/name`, with a single separator after `home`. */
  lemma LogFolderLayout(home: string, name: string)
    requires home != []
    ensures var sep := if home[|home| - 1] == '/' then "" else "/";
      JoinPath(LogFolder(home), name) == home + sep + "skellylogs_data/logs/" + name
  {
    var sep := if home[|home| - 1] == '/' then "" else "/";
    var base := JoinPath(home, DEFAULT_SKELLYLOGS_BASE_FOLDER_NAME);
    assert base == home + sep + "skellylogs_data";
    assert LogFolder(home) == home + sep + "skellylogs_data/logs";
  }

  /**
   * The default path is `home/skellylogs_data/logs/<file name>`: it starts
   * with the home directory and ends with the file name.
   */
  lemma LogFilePathLayout(home: string, now: DateTime, gmtoff: int)
    requires home != []
    ensures var sep := if home[|home| - 1] == '/' then "" else "/";
      LogFilePath(home, now, gmtoff) == home + sep + "skellylogs_data/logs/" + LogFileName(now, gmtoff)
  {
    LogFolderLayout(home, LogFileName(now, gmtoff));
  }

  /** The default path lies under the home directory. */
  lemma LogFilePathUnderHome(home: string, now: DateTime, gmtoff: int)
    requires home != []
    ensures |LogFilePath(home, now, gmtoff)| >= |home| && LogFilePath(home, now, gmtoff)[..|home|] == home
  {
    UnderFolder(home, LogFileName(now, gmtoff));
  }
}
