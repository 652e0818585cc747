/** The file name of an extra logger: a fixed directory, the caller's key,
    and a date stamp of the local time at which the logger was created,
    written with fmt's `_{:04d}-{:02d}-{:02d}_{:02d}_{:02d}_{:02d}`. */
module ExtraPath {
  import opened Decimal
  import opened LogTypes

  /** A broken-down local time as C's `struct tm` holds it: `year` counts
      from 1900 and `mon` from January as 0. */
  datatype LocalTime = LocalTime(year: int, mon: int, mday: int, hour: int, min: int, sec: int)

  const ExtraDir := "logs/extra/"

  /** Length of the stamp and extension `_YYYY-MM-DD_HH_MM_SS.log` when every field fits its width. */
  const StampLength := 24

  /** The date stamp: calendar year, month counted from 1, then day, hour, minute, second. */
  function FileDate(t: LocalTime): (d: string)
    ensures |d| >= StampLength - 4
  {
    "_" + ZeroPad(t.year + 1900, 4) + "-" + ZeroPad(t.mon + 1, 2) + "-" + ZeroPad(t.mday, 2)
      + "_" + ZeroPad(t.hour, 2) + "_" + ZeroPad(t.min, 2) + "_" + ZeroPad(t.sec, 2)
  }

  /** Where the parts of `dir + (key + (date + ext))` sit. */
  lemma JoinLayout(dir: string, key: string, date: string, ext: string)
    ensures var p := dir + (key + (date + ext));
      && |p| == |dir| + |key| + |date| + |ext|
      && p[..|dir|] == dir && p[|dir|..|dir| + |key|] == key
      && p[|dir|..|p| - |date| - |ext|] == key
      && p[|p| - |date| - |ext|..] == date + ext && p[|p| - |ext|..] == ext
  {
    var p := dir + (key + (date + ext));
    assert p[|dir|..] == key + (date + ext);
    assert (key + (date + ext))[..|key|] == key;
    assert p[|p| - |ext|..] == ext;
  }

  /** The path of the file an extra logger for `key` writes to. */
  function ExtraLogPath(key: string, t: LocalTime): (path: string)
    ensures |path| >= |ExtraDir| + |key| + StampLength
    ensures path[..|ExtraDir|] == ExtraDir && path[|ExtraDir|..|ExtraDir| + |key|] == key
    ensures path[|path| - 4..] == ".log"
  {
    JoinLayout(ExtraDir, key, FileDate(t), ".log");
    ExtraDir + (key + (FileDate(t) + ".log"))
  }

  /** The time fields each fit the width of their stamp field, so no field
      overflows into its neighbour (true of every `tm` for years 0 to 9999). */
  predicate FieldsFit(t: LocalTime) {
    && 0 <= t.year + 1900 < 10000
    && 0 <= t.mon + 1 < 100
    && 0 <= t.mday < 100 && 0 <= t.hour < 100 && 0 <= t.min < 100 && 0 <= t.sec < 100
  }

  predicate IsStamp(d: string) {
    && |d| == StampLength
    && d[0] == '_' && d[5] == '-' && d[8] == '-' && d[11] == '_' && d[14] == '_' && d[17] == '_'
    && d[20..] == ".log"
    && AllDigits(d[1..5]) && AllDigits(d[6..8]) && AllDigits(d[9..11])
    && AllDigits(d[12..14]) && AllDigits(d[15..17]) && AllDigits(d[18..20])
  }

  /** The time a well-formed stamp records. */
  function StampTime(d: string): LocalTime
    requires IsStamp(d)
  {
    LocalTime(ParseNat(d[1..5]) - 1900, ParseNat(d[6..8]) - 1, ParseNat(d[9..11]),
              ParseNat(d[12..14]), ParseNat(d[15..17]), ParseNat(d[18..20]))
  }

  /** Reads a path back into the key and the creation time; None when the
      path does not have the shape of an extra log file. */
  function ParseExtraLogPath(path: string): Option<(string, LocalTime)> {
    if |path| < |ExtraDir| + StampLength || path[..|ExtraDir|] != ExtraDir then None
    else
      var d := path[|path| - StampLength..];
      if !IsStamp(d) then None
      else Some((path[|ExtraDir|..|path| - StampLength], StampTime(d)))
  }

  /** A field below 10^width is written at exactly its width and reads back as itself. */
  lemma FieldExact(n: int, width: nat)
    requires width == 2 || width == 4
    requires 0 <= n < if width == 2 then 100 else 10000
    ensures |ZeroPad(n, width)| == width && AllDigits(ZeroPad(n, width))
    ensures ParseNat(ZeroPad(n, width)) == n
  {
    assert Pow10(2) == 100 && Pow10(4) == 10000;
    ZeroPadExact(n, width);
  }

  /** Six fields of the right widths, joined as the stamp is, can be read back field by field. */
  lemma StampLayout(y: string, mo: string, da: string, h: string, mi: string, se: string)
    requires |y| == 4 && |mo| == 2 && |da| == 2 && |h| == 2 && |mi| == 2 && |se| == 2
    requires AllDigits(y) && AllDigits(mo) && AllDigits(da) && AllDigits(h) && AllDigits(mi) && AllDigits(se)
    ensures var d := "_" + y + "-" + mo + "-" + da + "_" + h + "_" + mi + "_" + se + ".log";
      && IsStamp(d)
      && d[1..5] == y && d[6..8] == mo && d[9..11] == da
      && d[12..14] == h && d[15..17] == mi && d[18..20] == se
  {
    var d := "_" + y + "-" + mo + "-" + da + "_" + h + "_" + mi + "_" + se + ".log";
    assert |d| == StampLength;
    assert d[1..5] == y;
    assert d[6..8] == mo;
    assert d[9..11] == da;
    assert d[12..14] == h;
    assert d[15..17] == mi;
    assert d[18..20] == se;
    assert d[20..] == ".log";
  }

  /** The stamp of a time whose fields fit is well formed, and each of its
      fields reads back as the time field it was written from. */
  lemma StampRoundTrip(t: LocalTime)
    requires FieldsFit(t)
    ensures var d := FileDate(t) + ".log";
      && IsStamp(d)
      && ParseNat(d[1..5]) == t.year + 1900 && ParseNat(d[6..8]) == t.mon + 1
      && ParseNat(d[9..11]) == t.mday && ParseNat(d[12..14]) == t.hour
      && ParseNat(d[15..17]) == t.min && ParseNat(d[18..20]) == t.sec
  {
    var y, mo, da := ZeroPad(t.year + 1900, 4), ZeroPad(t.mon + 1, 2), ZeroPad(t.mday, 2);
    var h, mi, se := ZeroPad(t.hour, 2), ZeroPad(t.min, 2), ZeroPad(t.sec, 2);
    FieldExact(t.year + 1900, 4);
    FieldExact(t.mon + 1, 2);
    FieldExact(t.mday, 2);
    FieldExact(t.hour, 2);
    FieldExact(t.min, 2);
    FieldExact(t.sec, 2);
    StampLayout(y, mo, da, h, mi, se);
    assert FileDate(t) + ".log" == "_" + y + "-" + mo + "-" + da + "_" + h + "_" + mi + "_" + se + ".log";
  }

  /** A key followed by a well-formed stamp, under the directory, parses back to both. */
  lemma ParseJoined(key: string, d: string)
    requires IsStamp(d)
    ensures ParseExtraLogPath(ExtraDir + (key + d)) == Some((key, StampTime(d)))
  {
    JoinLayout(ExtraDir, key, d, "");
    assert d + "" == d;
  }

  /** The path gives back the key and the creation time it was built from. */
  lemma ExtraLogPathRoundTrip(key: string, t: LocalTime)
    requires FieldsFit(t)
    ensures ParseExtraLogPath(ExtraLogPath(key, t)) == Some((key, t))
  {
    var d := FileDate(t) + ".log";
    StampRoundTrip(t);
    ParseJoined(key, d);
    assert ExtraLogPath(key, t) == ExtraDir + (key + d);
  }

  /** Distinct keys, or distinct creation times, give distinct files. */
  lemma ExtraLogPathInjective(k1: string, t1: LocalTime, k2: string, t2: LocalTime)
    requires FieldsFit(t1) && FieldsFit(t2)
    ensures ExtraLogPath(k1, t1) == ExtraLogPath(k2, t2) <==> k1 == k2 && t1 == t2
  {
    ExtraLogPathRoundTrip(k1, t1);
    ExtraLogPathRoundTrip(k2, t2);
  }
}
