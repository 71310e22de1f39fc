/** The dashboard's view of the schedule configuration: UTC to IST display
  * times, the predicted video type, the default configuration, the last run
  * per persona, the cron history, the slots shown to the user and the
  * partial update of the configuration. */
module ScheduleReader {
  import opened Common
  import AutopilotVideo

  // ---------------------------------------------------------------------
  // Times and video types
  // ---------------------------------------------------------------------

  /** The minutes since midnight of an "HH:MM" text: exactly one colon
    * (`split(":")` unpacked into two names), both sides read by `int`, hour
    * 0-23 and minute 0-59 (the checks of `int` and of `datetime.replace`,
    * which raise otherwise). */
  function ParseClock(s: string): (r: Result<nat>)
    ensures r.Ok? ==> r.value < 1440
  {
    match ClockSplit(s)
    case None => Err("wrong number of values to unpack")
    case Some(parts) => ClockOfFields(PyInt(parts.0), PyInt(parts.1))
  }

  /** The minute of the day of the hour and minute `int` read, when both
    * read and are in range. */
  function ClockOfFields(h: Option<int>, m: Option<int>): (r: Result<nat>)
    ensures r.Ok? <==> h.Some? && m.Some? && 0 <= h.value < 24 && 0 <= m.value < 60
    ensures r.Ok? ==> r.value == 60 * h.value + m.value && r.value < 1440
  {
    if h.None? || m.None? then Err("invalid literal for int()")
    else if 0 <= h.value < 24 && 0 <= m.value < 60 then Ok(h.value * 60 + m.value)
    else Err("hour or minute out of range")
  }

  /** Whether a text has no colon. */
  predicate NoColon(s: string)
  {
    s == [] || (s[0] != ':' && NoColon(s[1..]))
  }

  /** The texts before and after the only colon of `s`; `None` when there
    * is no colon or more than one. */
  function ClockSplit(s: string): Option<(string, string)>
  {
    if s == [] then None
    else if s[0] == ':' then (if NoColon(s[1..]) then Some(([], s[1..])) else None)
    else
      match ClockSplit(s[1..])
      case None => None
      case Some((a, b)) => Some(([s[0]] + a, b))
  }

  lemma {:induction false} NoColonIff(s: string)
    ensures NoColon(s) <==> ':' !in s
  {
    if s != [] {
      NoColonIff(s[1..]);
      assert s == [s[0]] + s[1..];
    }
  }

  /** The colon test of `ParseClock` is the unpacking of `split(":")`:
    * it passes exactly when the split has two parts, and then yields them. */
  lemma {:induction false} ClockSplitIsSplit(s: string)
    ensures ClockSplit(s).Some? <==> |Split(s, ':')| == 2
    ensures ClockSplit(s).Some? ==> Split(s, ':') == [ClockSplit(s).value.0, ClockSplit(s).value.1]
  {
    if s == [] {
    } else if s[0] == ':' {
      NoColonIff(s[1..]);
      if ':' in s[1..] {
        var rest := s[1..];
        var j := Find(rest, ':');
        assert rest == rest[..j] + [':'] + rest[j + 1..];
        SplitCons(rest[..j], ':', rest[j + 1..]);
      } else {
        SplitNoSep(s[1..], ':');
      }
    } else {
      ClockSplitIsSplit(s[1..]);
    }
  }

  /** A time converts exactly when `split(":")` gives two parts that `int`
    * reads as an hour 0-23 and a minute 0-59, and then it is `60 * hour +
    * minute`. */
  lemma ParseClockIsSplit(s: string)
    ensures var parts := Split(s, ':');
      ParseClock(s).Ok? <==>
        |parts| == 2 && PyInt(parts[0]).Some? && PyInt(parts[1]).Some?
        && 0 <= PyInt(parts[0]).value < 24 && 0 <= PyInt(parts[1]).value < 60
    ensures ParseClock(s).Ok? ==>
      var parts := Split(s, ':');
      ParseClock(s).value == 60 * PyInt(parts[0]).value + PyInt(parts[1]).value
  {
    ClockSplitIsSplit(s);
  }

  /** A time written as two decimal numerals around a colon converts to
    * its minute of the day when they are an hour and a minute. */
  lemma {:induction false} ParseClockOfText(hs: string, ms: string)
    requires hs != [] && ms != [] && AllDigits(hs) && AllDigits(ms)
    requires DigitsValue(hs) < 24 && DigitsValue(ms) < 60
    ensures ParseClock(hs + ":" + ms) == Ok(60 * DigitsValue(hs) + DigitsValue(ms))
  {
    NumeralParts(hs, ms);
    ParseClockOfSplit(hs + ":" + ms, hs, ms);
    ClockOfDigits(hs, ms);
  }

  lemma ClockOfDigits(hs: string, ms: string)
    requires AllDigits(hs) && AllDigits(ms)
    requires DigitsValue(hs) < 24 && DigitsValue(ms) < 60
    ensures ClockOfFields(Some(DigitsValue(hs)), Some(DigitsValue(ms))) == Ok(60 * DigitsValue(hs) + DigitsValue(ms))
  {
  }

  /** Two numerals around a colon split into those numerals, and each reads
    * as its value. */
  lemma NumeralParts(hs: string, ms: string)
    requires hs != [] && ms != [] && AllDigits(hs) && AllDigits(ms)
    ensures ClockSplit(hs + ":" + ms) == Some((hs, ms))
    ensures PyInt(hs) == Some(DigitsValue(hs)) && PyInt(ms) == Some(DigitsValue(ms))
  {
    DigitsNoColon(hs);
    DigitsNoColon(ms);
    ClockSplitAt(hs, ms);
    PyIntNumeral(hs);
    PyIntNumeral(ms);
  }

  lemma DigitsNoColon(s: string)
    requires AllDigits(s)
    ensures ':' !in s
  {
    assert forall i :: 0 <= i < |s| ==> IsDigit(s[i]);
  }

  lemma ParseClockOfSplit(s: string, a: string, b: string)
    requires ClockSplit(s) == Some((a, b))
    ensures ParseClock(s) == ClockOfFields(PyInt(a), PyInt(b))
  {
  }

  /** India Standard Time is UTC+5:30. */
  const IstOffset: nat := 330

  /** The IST minute of the day of a UTC minute of the day. */
  function IstMinute(utc: nat): (r: nat)
    ensures r < 1440
    ensures (r - utc - IstOffset) % 1440 == 0
  {
    (utc + IstOffset) % 1440
  }

  /** Two-digit minutes, as `%M` writes them. */
  function Pad2(n: nat): (r: string)
    requires n < 100
    ensures |r| == 2 && AllDigits(r) && DigitsValue(r) == n
  {
    var r := [(48 + n / 10) as char, (48 + n % 10) as char];
    assert r[..1] == [r[0]] && r[..1][..0] == [];
    assert DigitsValue(r[..1]) == n / 10;
    r
  }

  /** `strftime("%-I:%M %p")`: the 12-hour clock without a leading zero. */
  function Clock12(minute: nat): (r: string)
    requires minute < 1440
  {
    var h, m := minute / 60, minute % 60;
    var h12 := if h % 12 == 0 then 12 else h % 12;
    NatToString(h12) + ":" + Pad2(m) + " " + (if h < 12 then "AM" else "PM")
  }

  /** `_utc_to_ist`: the IST display time of an "HH:MM" UTC time; a malformed
    * time raises. */
  function UtcToIst(time: string): (r: Result<string>)
    ensures r.Ok? <==> ParseClock(time).Ok?
    ensures r.Err? ==> r == Err(ParseClock(time).error)
    ensures r.Ok? ==> EndsWith(r.value, " IST") && ReadIst(r.value) == Some(IstMinute(ParseClock(time).value))
  {
    match ParseClock(time)
    case Ok(utc) =>
      var t := Clock12(IstMinute(utc)) + " IST";
      ReadClock12(IstMinute(utc));
      assert t[|t| - 4..] == " IST";
      Ok(t)
    case Err(e) => Err(e)
  }

  /** How a display "H:MM AM IST" reads: the minute of the day it names, for
    * an hour 1-12 written without a leading zero, two minute digits below 60
    * and "AM" or "PM" (12 AM is midnight, 12 PM noon). */
  function ReadIst(t: string): Option<nat>
  {
    if |t| < 11 || t[0] == '0' || t[|t| - 10] != ':' || t[|t| - 7] != ' ' || t[|t| - 4..] != " IST" then None
    else
      var h, m, half := ParseNat(t[..|t| - 10]), ParseNat(t[|t| - 9..|t| - 7]), t[|t| - 6..|t| - 4];
      if h.None? || m.None? || !(1 <= h.value <= 12) || m.value >= 60 || (half != "AM" && half != "PM") then None
      else Some((h.value % 12 + (if half == "PM" then 12 else 0)) * 60 + m.value)
  }

  /** The 12-hour display of a minute of the day reads back as that minute. */
  lemma ReadClock12(minute: nat)
    requires minute < 1440
    ensures ReadIst(Clock12(minute) + " IST") == Some(minute)
  {
    var h, m := minute / 60, minute % 60;
    var h12 := if h % 12 == 0 then 12 else h % 12;
    var hs, ms, half := NatToString(h12), Pad2(m), if h < 12 then "AM" else "PM";
    ParseNatToString(h12);
    NoLeadingZero(h12);
    calc {
      ReadIst(Clock12(minute) + " IST");
      { Clock12Parts(minute); }
      ReadIst(hs + ":" + ms + " " + half + " IST");
      { ReadIstParts(hs, ms, half, h12, m); }
      Some((h12 % 12 + (if half == "PM" then 12 else 0)) * 60 + m);
      { HourOf12(minute); }
      Some(minute);
    }
  }

  lemma Clock12Parts(minute: nat)
    requires minute < 1440
    ensures var h := minute / 60; var h12 := if h % 12 == 0 then 12 else h % 12;
      Clock12(minute) + " IST" == NatToString(h12) + ":" + Pad2(minute % 60) + " " + (if h < 12 then "AM" else "PM") + " IST"
  {
  }

  /** `%-I` writes no leading zero. */
  lemma NoLeadingZero(n: nat)
    requires 1 <= n <= 12
    ensures NatToString(n)[0] != '0'
  {
    if n >= 10 {
      assert NatToString(n) == NatToString(1) + [(48 + n % 10) as char];
    }
  }

  /** The 12-hour hour with its half of the day gives back the minute. */
  lemma HourOf12(minute: nat)
    requires minute < 1440
    ensures var h := minute / 60; var h12 := if h % 12 == 0 then 12 else h % 12;
      (h12 % 12 + (if h < 12 then 0 else 12)) * 60 + minute % 60 == minute
  {
    var h := minute / 60;
    assert h < 24;
    var h12 := if h % 12 == 0 then 12 else h % 12;
    assert h12 % 12 + (if h < 12 then 0 else 12) == h;
  }

  /** The display assembled from its parts reads back from them. */
  lemma ReadIstParts(hs: string, ms: string, half: string, h12: nat, m: nat)
    requires hs != [] && hs[0] != '0' && ParseNat(hs) == Some(h12) && 1 <= h12 <= 12
    requires |ms| == 2 && AllDigits(ms) && DigitsValue(ms) == m && m < 60
    requires half == "AM" || half == "PM"
    ensures ReadIst(hs + ":" + ms + " " + half + " IST") == Some((h12 % 12 + (if half == "PM" then 12 else 0)) * 60 + m)
  {
    var t := hs + ":" + ms + " " + half + " IST";
    var n := |hs|;
    assert |t| == n + 10;
    assert t[..n] == hs && t[n] == ':' && t[n + 1..n + 3] == ms && t[n + 3] == ' ';
    assert t[n + 4..n + 6] == half && t[n + 6..] == " IST";
  }

  /** A well-formed UTC time `utc` is shown as the 12-hour display that reads
    * back as the IST minute `(utc + 330) mod 1440`: an hour 1-12 and "AM"
    * exactly when that minute is before noon. */
  lemma UtcToIstOf(time: string, utc: nat)
    requires ParseClock(time) == Ok(utc)
    ensures UtcToIst(time).Ok?
    ensures ReadIst(UtcToIst(time).value) == Some((utc + 330) % 1440)
    ensures var t := UtcToIst(time).value;
      t[|t| - 6..|t| - 4] == (if (utc + 330) % 1440 < 720 then "AM" else "PM")
  {
    var ist := IstMinute(utc);
    ReadClock12(ist);
    var t := UtcToIst(time).value;
    assert t == Clock12(ist) + " IST";
    var h := ist / 60;
    var h12 := if h % 12 == 0 then 12 else h % 12;
    assert t == NatToString(h12) + ":" + Pad2(ist % 60) + " " + (if h < 12 then "AM" else "PM") + " IST";
  }

  /** The text around the only colon. */
  lemma {:induction false} ClockSplitAt(a: string, b: string)
    requires ':' !in a && ':' !in b
    ensures ClockSplit(a + ":" + b) == Some((a, b))
  {
    NoColonIff(b);
    if a == [] {
      assert a + ":" + b == [':'] + b;
    } else {
      assert ':' !in a[1..];
      ClockSplitAt(a[1..], b);
      assert (a + ":" + b)[1..] == a[1..] + ":" + b;
      assert (a + ":" + b)[0] == a[0] && [a[0]] + a[1..] == a;
    }
  }

  lemma ParseNoon(time: string)
    requires time == "06:30"
    ensures ParseClock(time) == Ok(390)
  {
    ParseClockOfText("06", "30");
    assert "06" + ":" + "30" == "06:30";
  }

  lemma ParseMidnight(time: string)
    requires time == "18:30"
    ensures ParseClock(time) == Ok(1110)
  {
    ParseClockOfText("18", "30");
    assert "18" + ":" + "30" == "18:30";
  }

  /** Noon on the 12-hour clock. */
  lemma Clock12Noon()
    ensures Clock12(720) == "12:00 PM"
  {
    assert Pad2(0) == "00";
    assert NatToString(12) == "12";
  }

  /** Midnight on the 12-hour clock. */
  lemma Clock12Midnight()
    ensures Clock12(0) == "12:00 AM"
  {
    assert Pad2(0) == "00";
    assert NatToString(12) == "12";
  }

  /** The dispatcher's default time 06:30 UTC is noon in India. */
  lemma IstNoon(time: string)
    requires time == "06:30"
    ensures UtcToIst(time) == Ok("12:00 PM IST")
  {
    ParseNoon(time);
    Clock12Noon();
    assert "12:00 PM" + " IST" == "12:00 PM IST";
    ShownAs(time, 390, 720, "12:00 PM IST");
  }

  /** 18:30 UTC is midnight in India, written as 12 AM. */
  lemma IstMidnight(time: string)
    requires time == "18:30"
    ensures UtcToIst(time) == Ok("12:00 AM IST")
  {
    ParseMidnight(time);
    Clock12Midnight();
    assert "12:00 AM" + " IST" == "12:00 AM IST";
    ShownAs(time, 1110, 0, "12:00 AM IST");
  }

  lemma ShownAs(time: string, utc: nat, ist: nat, display: string)
    requires ParseClock(time) == Ok(utc) && ist == (utc + 330) % 1440 && Clock12(ist) + " IST" == display
    ensures UtcToIst(time) == Ok(display)
  {
  }

  /** A time with a suffix is not a valid time: the call raises. */
  lemma IstRejectsSuffix(time: string)
    requires time == "6:30pm"
    ensures UtcToIst(time).Err?
  {
    ClockSplitAt("6", "30pm");
    assert "6" + ":" + "30pm" == time;
    assert PyInt("30pm").None?;
  }

  /** A displayed time is a 12-hour clock time: hour 1-12, two-digit minutes. */
  lemma Clock12Shape(minute: nat)
    requires minute < 1440
    ensures var h := minute / 60; var h12 := if h % 12 == 0 then 12 else h % 12;
            1 <= h12 <= 12 && ParseNat(Clock12(minute)[..|NatToString(h12)|]) == Some(h12)
  {
    var h := minute / 60;
    var h12 := if h % 12 == 0 then 12 else h % 12;
    assert Clock12(minute)[..|NatToString(h12)|] == NatToString(h12);
    ParseNatToString(h12);
  }

  /** `_predict_video_type(k)`: the rotation of the video script, `k` days ahead. */
  function PredictVideoType(yday: int, offset: int): (r: string)
    ensures r == AutopilotVideo.PickVideoType(yday + offset)
  {
    AutopilotVideo.VideoTypes[(yday + offset) % 3]
  }

  // ---------------------------------------------------------------------
  // Configuration
  // ---------------------------------------------------------------------

  /** A JSON value of the configuration. */
  datatype Value = Bool(b: bool) | Text(s: string) | Null

  /** Python truthiness of a value. */
  predicate Truthy(v: Value)
  {
    match v
    case Bool(b) => b
    case Text(s) => s != ""
    case Null => false
  }

  type Fields = map<string, Value>

  /** `d.get(key, default)` */
  function GetOr(d: Fields, key: string, default: Value): Value
  {
    if key in d then d[key] else default
  }

  /** One pipeline section: its own fields ("enabled", "time_utc"), and its
    * personas or accounts, in file order, each with its fields. */
  datatype Pipeline = Pipeline(fields: Fields, names: seq<string>, entries: map<string, Fields>)

  predicate WellFormed(p: Pipeline)
  {
    (forall i, j :: 0 <= i < j < |p.names| ==> p.names[i] != p.names[j])
    && (forall n :: n in p.names ==> n in p.entries)
    && (forall n :: n in p.entries ==> n in p.names)
  }

  datatype Config = Config(video: Pipeline, text: Pipeline)

  function On(): Value { Bool(true) }

  /** The configuration `_read_config` returns when the file is missing. */
  function DefaultConfig(): Config
  {
    var persona: Fields := map["enabled" := On(), "video_type" := Text("auto")];
    Config(
      Pipeline(map["enabled" := On(), "time_utc" := Text("06:30")],
               ["sanya", "sophie", "aliyah", "olivia"],
               map["sanya" := persona, "sophie" := persona, "aliyah" := persona, "olivia" := persona]),
      Pipeline(map["enabled" := On()],
               ["sophie.unplugs", "emillywilks", "sanyahealing"],
               map["sophie.unplugs" := map["enabled" := On(), "time_utc" := Text("01:30")],
                   "emillywilks" := map["enabled" := On(), "time_utc" := Text("01:45")],
                   "sanyahealing" := map["enabled" := On(), "time_utc" := Text("02:00")]]))
  }

  /** The default configuration lists four personas and three accounts,
    * each once and each with its settings; both pipelines are on, and every
    * persona follows the rotation. */
  lemma DefaultConfigShape()
    ensures WellFormed(DefaultConfig().video) && WellFormed(DefaultConfig().text)
    ensures Truthy(GetOr(DefaultConfig().video.fields, "enabled", Null))
    ensures Truthy(GetOr(DefaultConfig().text.fields, "enabled", Null))
    ensures forall p :: p in DefaultConfig().video.entries ==>
      GetOr(DefaultConfig().video.entries[p], "video_type", Null) == Text("auto")
  {
    var c := DefaultConfig();
    var v, t := c.video.names, c.text.names;
    assert v[0][1] == 'a' && v[1][1] == 'o' && v[2][1] == 'l' && v[3][1] == 'l';
    assert v[2][0] == 'a' && v[3][0] == 'o';
    assert t[0][0] == 's' && t[1][0] == 'e' && t[2][0] == 's' && t[0][1] == 'o' && t[2][1] == 'a';
  }

  /** `_read_config`: the stored configuration, or the default when there is
    * no file. The file is represented by the configuration it holds. */
  function ReadConfig(file: Option<Config>): Config
  {
    if file.Some? then file.value else DefaultConfig()
  }

  // ---------------------------------------------------------------------
  // Last runs
  // ---------------------------------------------------------------------

  /** "ok" when the run produced a reel, otherwise "text_only". */
  function RunStatus(e: Record): string
  {
    if Get(e, "reel_path") != "" then "ok" else "text_only"
  }

  /** The last run per persona after reading `lines`; lines `parse`
    * (`json.loads`) rejects are skipped. */
  function LastRuns(lines: seq<string>, parse: string -> Option<Record>): map<string, (string, string)>
  {
    if lines == [] then map[]
    else
      var before := LastRuns(lines[..|lines| - 1], parse);
      match parse(lines[|lines| - 1])
      case None => before
      case Some(e) => before[Get(e, "persona") := (Get(e, "timestamp"), RunStatus(e))]
  }

  /** The last valid line of a persona wins: its entry comes from a line that
    * parses with that persona, and no later line parses with it. */
  lemma {:induction false} LastRunWins(lines: seq<string>, parse: string -> Option<Record>, p: string)
    returns (i: nat)
    requires p in LastRuns(lines, parse)
    ensures i < |lines| && parse(lines[i]).Some? && Get(parse(lines[i]).value, "persona") == p
    ensures LastRuns(lines, parse)[p] == (Get(parse(lines[i]).value, "timestamp"), RunStatus(parse(lines[i]).value))
    ensures forall j :: i < j < |lines| ==> !(parse(lines[j]).Some? && Get(parse(lines[j]).value, "persona") == p)
  {
    var n := |lines| - 1;
    var init := lines[..n];
    var e := parse(lines[n]);
    if e.Some? && Get(e.value, "persona") == p {
      i := n;
    } else {
      i := LastRunWins(init, parse, p);
      assert lines[i] == init[i];
      forall j | i < j < |lines|
        ensures !(parse(lines[j]).Some? && Get(parse(lines[j]).value, "persona") == p)
      {
        if j < n {
          assert lines[j] == init[j];
        }
      }
    }
  }

  /** A persona without a valid line has no last run. */
  lemma {:induction false} NoRunNoEntry(lines: seq<string>, parse: string -> Option<Record>, p: string)
    requires forall j :: 0 <= j < |lines| ==> !(parse(lines[j]).Some? && Get(parse(lines[j]).value, "persona") == p)
    ensures p !in LastRuns(lines, parse)
  {
    if lines != [] {
      var n := |lines| - 1;
      forall j | 0 <= j < n
        ensures !(parse(lines[..n][j]).Some? && Get(parse(lines[..n][j]).value, "persona") == p)
      {
        assert lines[..n][j] == lines[j];
      }
      NoRunNoEntry(lines[..n], parse, p);
    }
  }

  /** `_get_last_runs`: one pass over the log's lines, later lines
    * overwriting earlier ones; a missing log gives no runs. */
  method GetLastRuns(file: Option<string>, parse: string -> Option<Record>) returns (last: map<string, (string, string)>)
    ensures file.None? ==> last == map[]
    ensures file.Some? ==> last == LastRuns(SplitLines(Strip(file.value)), parse)
  {
    last := map[];
    if file.None? {
      return;
    }
    var lines := SplitLines(Strip(file.value));
    var i := 0;
    while i < |lines|
      invariant 0 <= i <= |lines|
      invariant last == LastRuns(lines[..i], parse)
    {
      assert lines[..i + 1][..i] == lines[..i];
      var entry := parse(lines[i]);
      if entry.Some? {
        var e := entry.value;
        last := last[Get(e, "persona") := (Get(e, "timestamp"), RunStatus(e))];
      }
      i := i + 1;
    }
    assert lines[..i] == lines;
  }

  // ---------------------------------------------------------------------
  // Cron history
  // ---------------------------------------------------------------------

  datatype CronEntry = CronEntry(timestamp: string, status: string, message: string)

  /** The entry of one matched line: `action` is the first group of the
    * pattern `=== Video autopilot (started|finished OK|FAILED.*?) at (.+?) ===`
    * and `stamp` the second. */
  function CronOf(action: string, stamp: string): (r: CronEntry)
  {
    if Contains(action, "FAILED") then CronEntry(Strip(stamp), "failed", action)
    else if Contains(action, "finished") then CronEntry(Strip(stamp), "ok", "Completed successfully")
    else CronEntry(Strip(stamp), "running", "Started")
  }

  /** The status of an entry reflects the matched action: a failure
    * whenever it mentions FAILED, success for a finish, otherwise a start;
    * the timestamp carries no surrounding blanks. */
  lemma CronOfStatus(action: string, stamp: string)
    ensures CronOf(action, stamp).status == "failed" <==> Contains(action, "FAILED")
    ensures CronOf(action, stamp).status == "ok" <==> !Contains(action, "FAILED") && Contains(action, "finished")
    ensures CronOf(action, stamp).status in {"failed", "ok", "running"}
    ensures IsStripped(CronOf(action, stamp).timestamp)
  {
  }

  /** The fixed opening of the cron log's banner. */
  const CronOpen := "=== Video autopilot "

  /** The lazy `.+?` closed by " ===", once `k` characters are read: the
    * first end at or after `k` that " ===" follows. Like `.`, the scan
    * never reads a line break. */
  function LazyClose(s: string, k: nat): (r: Option<nat>)
    requires k <= |s|
    ensures r.Some? ==> k <= r.value <= |s| && StartsWith(s[r.value..], " ===")
    ensures r.Some? ==> forall i :: k <= i < r.value ==> s[i] != '\n' && !StartsWith(s[i..], " ===")
    decreases |s| - k
  {
    if StartsWith(s[k..], " ===") then Some(k)
    else if k == |s| || s[k] == '\n' then None
    else LazyClose(s, k + 1)
  }

  /** `(.+?) ===` at the start of `s`: the shortest non-empty stamp that
    * " ===" follows. */
  function StampAt(s: string): (r: Option<string>)
    ensures r.Some? ==> r.value != [] && '\n' !in r.value && StartsWith(s, r.value + " ===")
  {
    if s == [] || s[0] == '\n' then None
    else match LazyClose(s, 1)
      case Some(k) =>
        assert s[..k] + " ===" == s[..k + 4];
        Some(s[..k])
      case None => None
  }

  /** ` at (.+?) ===` at the start of `s`. */
  function AtStamp(s: string): (r: Option<string>)
    ensures r.Some? ==> r.value != [] && '\n' !in r.value && StartsWith(s, " at " + r.value + " ===")
  {
    if StartsWith(s, " at ") then
      match StampAt(s[4..])
      case Some(st) =>
        assert s[..4] + s[4..][..|st| + 4] == s[..|st| + 8];
        Some(st)
      case None => None
    else None
  }

  /** `.*? at (.+?) ===` after "FAILED", from `j` on: the shortest run of
    * characters after which the rest of the pattern matches. */
  function FailedRest(s: string, j: nat): (r: Option<(nat, string)>)
    requires j <= |s|
    ensures r.Some? ==> j <= r.value.0 <= |s| && '\n' !in s[j..r.value.0] && AtStamp(s[r.value.0..]) == Some(r.value.1)
    ensures r.Some? ==> forall i :: j <= i < r.value.0 ==> AtStamp(s[i..]).None?
    decreases |s| - j
  {
    match AtStamp(s[j..])
    case Some(st) => Some((j, st))
    case None =>
      if j == |s| || s[j] == '\n' then None
      else
        match FailedRest(s, j + 1)
        case Some(m) =>
          assert s[j..m.0] == [s[j]] + s[j + 1..m.0];
          Some(m)
        case None => None
  }

  /** The pattern `=== Video autopilot (started|finished OK|FAILED.*?) at (.+?) ===`
    * matched at the start of `s`: its two groups. */
  function CronAt(s: string): (r: Option<(string, string)>)
  {
    if StartsWith(s, CronOpen) then ActionRest(s[|CronOpen|..]) else None
  }

  /** The pattern from its first group on. The alternatives are tried in
    * order, and no two of them start alike. */
  function ActionRest(t: string): (r: Option<(string, string)>)
  {
    if StartsWith(t, "started") then
      match AtStamp(t[7..])
      case Some(st) => Some(("started", st))
      case None => None
    else if StartsWith(t, "finished OK") then
      match AtStamp(t[11..])
      case Some(st) => Some(("finished OK", st))
      case None => None
    else if StartsWith(t, "FAILED") then FailedAction(t[6..])
    else None
  }

  /** `FAILED.*? at (.+?) ===` once "FAILED" is read: the action is
    * "FAILED" with the shortest text after which the rest matches. */
  function FailedAction(v: string): (r: Option<(string, string)>)
  {
    match FailedRest(v, 0)
    case Some((j, st)) => Some(("FAILED" + v[..j], st))
    case None => None
  }

  /** `pattern.search(line)`: the two groups of the leftmost match. */
  function SearchCron(line: string): (r: Option<(string, string)>)
    ensures r.Some? ==> exists k :: 0 <= k < |line| && CronAt(line[k..]) == r
  {
    match FirstMatch(line, CronAt)
    case Some((_, g)) => Some(g)
    case None => None
  }

  /** A match is the banner itself: the opening, the action, " at ", the
    * stamp and " ===", in that order; the action is one of the three
    * alternatives and the stamp is a non-empty piece of one line. */
  lemma CronAtSound(s: string)
    requires CronAt(s).Some?
    ensures var (a, st) := CronAt(s).value;
      StartsWith(s, CronOpen + a + " at " + st + " ===")
      && (a == "started" || a == "finished OK" || StartsWith(a, "FAILED"))
      && '\n' !in a && st != [] && '\n' !in st
  {
    var (a, st) := CronAt(s).value;
    CronAtParts(s);
    BannerPrefix(s, CronOpen, a, st);
  }

  /** The opening, the action and the rest read one after the other make
    * the whole banner. */
  lemma BannerPrefix(s: string, o: string, a: string, st: string)
    requires StartsWith(s, o) && StartsWith(s[|o|..], a) && StartsWith(s[|o|..][|a|..], " at " + st + " ===")
    ensures StartsWith(s, o + a + " at " + st + " ===")
  {
    PrefixThen(s, o, a);
    assert s[|o + a|..] == s[|o|..][|a|..];
    PrefixThen(s, o + a, " at " + st + " ===");
    assert o + a + (" at " + st + " ===") == o + a + " at " + st + " ===";
  }

  /** The pieces of a match: the opening, the action, then the rest of
    * the pattern from " at " on. */
  lemma CronAtParts(s: string)
    requires CronAt(s).Some?
    ensures var (a, st) := CronAt(s).value;
      var t := s[|CronOpen|..];
      StartsWith(s, CronOpen) && StartsWith(t, a) && AtStamp(t[|a|..]) == Some(st)
      && (a == "started" || a == "finished OK" || StartsWith(a, "FAILED")) && '\n' !in a
  {
    ActionRestParts(s[|CronOpen|..]);
  }

  lemma ActionRestParts(t: string)
    requires ActionRest(t).Some?
    ensures var (a, st) := ActionRest(t).value;
      StartsWith(t, a) && AtStamp(t[|a|..]) == Some(st)
      && (a == "started" || a == "finished OK" || StartsWith(a, "FAILED")) && '\n' !in a
  {
    if !StartsWith(t, "started") && !StartsWith(t, "finished OK") {
      var (j, st) := FailedRest(t[6..], 0).value;
      var a := "FAILED" + t[6..][..j];
      assert a[..6] == "FAILED";
      assert t[..|a|] == a;
      assert t[|a|..] == t[6..][j..];
      assert t[6..][..j] == t[6..][0..j];
    }
  }

  /** Two prefixes read one after the other make one prefix. */
  lemma PrefixThen(s: string, p: string, q: string)
    requires StartsWith(s, p) && StartsWith(s[|p|..], q)
    ensures StartsWith(s, p + q)
  {
    assert s[..|p + q|] == s[..|p|] + s[|p|..][..|q|];
  }

  /** `re.search` reports a match at the start of the line as it is. */
  lemma SearchAtStart(s: string)
    requires CronAt(s).Some?
    ensures SearchCron(s) == CronAt(s)
  {
    assert s != [];
    assert s[0..] == s;
  }

  /** A line without the banner's opening anywhere adds no entry. */
  lemma NoOpenNoEntry(line: string)
    requires forall j :: 0 <= j < |line| ==> !StartsWith(line[j..], CronOpen)
    ensures SearchCron(line).None? && Hit(line) == []
  {
    FirstMatchLeftmost(line, CronAt);
  }

  /** A stamp the lazy group reads whole: non-empty, one line, and no
    * " ===" can start inside it, as it has no '='. */
  predicate PlainStamp(st: string)
  {
    st != [] && '\n' !in st && '=' !in st
  }

  lemma {:induction false} StampRead(st: string, rest: string)
    requires PlainStamp(st)
    ensures StampAt(st + " ===" + rest) == Some(st)
  {
    var s := st + " ===" + rest;
    assert s[|st|..][..4] == " ===";
    LazyCloseAt(s, 1, |st|);
    assert s[..|st|] == st;
  }

  /** The lazy scan stops at `e` when nothing before it closes. */
  lemma {:induction false} LazyCloseAt(s: string, k: nat, e: nat)
    requires 1 <= k <= e <= |s| && StartsWith(s[e..], " ===")
    requires forall i :: k <= i < e ==> s[i] != '\n' && s[i] != '='
    ensures LazyClose(s, k) == Some(e)
    decreases e - k
  {
    if k < e {
      assert !StartsWith(s[k..], " ===") by {
        if k + 1 < e {
          assert s[k..][1] == s[k + 1] != '=';
        } else {
          assert s[k..][1] == s[e] == ' ';
        }
      }
      LazyCloseAt(s, k + 1, e);
    }
  }

  /** A banner of a start or a successful finish with a plain stamp is
    * read back as its action and stamp, whatever follows the banner. */
  lemma {:induction false} CronLineRead(a: string, st: string, rest: string)
    requires a == "started" || a == "finished OK"
    requires PlainStamp(st)
    ensures SearchCron(CronOpen + a + " at " + st + " ===" + rest) == Some((a, st))
  {
    var u := " at " + (st + " ===" + rest);
    BannerRegroup(a, st, rest);
    ActionLineRead(CronOpen + a + u, a, st, rest);
  }

  lemma {:induction false} ActionLineRead(s: string, a: string, st: string, rest: string)
    requires s == CronOpen + a + (" at " + (st + " ===" + rest))
    requires a == "started" || a == "finished OK"
    requires PlainStamp(st)
    ensures SearchCron(s) == Some((a, st))
  {
    var u := " at " + (st + " ===" + rest);
    BannerPieces(s, a, u);
    StampRead(st, rest);
    AtStampOf(st + " ===" + rest);
    ActionAt(s[|CronOpen|..], a, st);
    SearchAtStart(s);
  }

  /** The banner pieces: the opening, then the action, then the rest. */
  lemma BannerPieces(s: string, a: string, u: string)
    requires s == CronOpen + a + u
    ensures StartsWith(s, CronOpen) && s[|CronOpen|..] == a + u
    ensures StartsWith(s[|CronOpen|..], a) && s[|CronOpen|..][|a|..] == u
  {
    assert s[..|CronOpen|] == CronOpen;
    assert (a + u)[..|a|] == a;
  }

  lemma BannerRegroup(a: string, st: string, rest: string)
    ensures CronOpen + a + " at " + st + " ===" + rest
         == CronOpen + a + (" at " + (st + " ===" + rest))
  {
  }

  lemma AtStampOf(v: string)
    ensures AtStamp(" at " + v) == StampAt(v)
  {
    assert (" at " + v)[..4] == " at ";
    assert (" at " + v)[4..] == v;
  }

  /** After the opening, "started" and "finished OK" are taken with the
    * stamp that follows them. */
  lemma ActionAt(t: string, a: string, st: string)
    requires a == "started" || a == "finished OK"
    requires StartsWith(t, a) && AtStamp(t[|a|..]) == Some(st)
    ensures ActionRest(t) == Some((a, st))
  {
    if a == "finished OK" {
      assert !StartsWith(t, "started") by { assert t[0] == 'f'; }
    }
  }

  /** After the opening, "FAILED" is taken with the shortest text after
    * which the rest of the pattern matches. */
  lemma FailedAt(t: string)
    requires StartsWith(t, "FAILED")
    ensures ActionRest(t) == FailedAction(t[6..])
  {
    assert !StartsWith(t, "started") by { assert t[0] == 'F'; }
    assert !StartsWith(t, "finished OK") by { assert t[0] == 'F'; }
  }

  /** A failure banner whose text after "FAILED" holds no " at " is read
    * back as that action and its stamp. */
  lemma {:induction false} CronFailedRead(a: string, st: string, rest: string)
    requires StartsWith(a, "FAILED") && '\n' !in a
    requires forall j :: 6 <= j < |a| ==> !StartsWith(a[j..] + " at ", " at ")
    requires PlainStamp(st)
    ensures SearchCron(CronOpen + a + " at " + st + " ===" + rest) == Some((a, st))
  {
    BannerRegroup(a, st, rest);
    FailedLineRead(CronOpen + a + (" at " + (st + " ===" + rest)), a, st, rest);
  }

  lemma {:induction false} FailedLineRead(s: string, a: string, st: string, rest: string)
    requires s == CronOpen + a + (" at " + (st + " ===" + rest))
    requires StartsWith(a, "FAILED") && '\n' !in a
    requires forall j :: 6 <= j < |a| ==> !StartsWith(a[j..] + " at ", " at ")
    requires PlainStamp(st)
    ensures SearchCron(s) == Some((a, st))
  {
    var u := " at " + (st + " ===" + rest);
    BannerPieces(s, a, u);
    var t := s[|CronOpen|..];
    var x := a[6..];
    var v := t[6..];
    assert StartsWith(t, "FAILED") by { assert t[..6] == a[..6]; }
    assert v == x + u by { assert t == a + u; assert a == a[..6] + x; }
    forall j | 0 <= j < |x| ensures !StartsWith(x[j..] + " at ", " at ") {
      assert x[j..] == a[j + 6..];
    }
    StampRead(st, rest);
    AtStampOf(st + " ===" + rest);
    assert v[|x|..] == u && v[..|x|] == x;
    assert u[..4] == " at ";
    FailedRestAt(v, 0, x);
    FailedAt(t);
    assert "FAILED" + x == a;
    SearchAtStart(s);
  }

  lemma {:induction false} FailedRestAt(v: string, j: nat, x: string)
    requires j <= |x| <= |v| && v[..|x|] == x && AtStamp(v[|x|..]).Some? && StartsWith(v[|x|..], " at ")
    requires '\n' !in x && forall i :: 0 <= i < |x| ==> !StartsWith(x[i..] + " at ", " at ")
    ensures FailedRest(v, j) == Some((|x|, AtStamp(v[|x|..]).value))
    decreases |x| - j
  {
    if j < |x| {
      assert v[j..][..4] == (x[j..] + " at ")[..4] by {
        forall i | 0 <= i < 4 ensures v[j..][i] == (x[j..] + " at ")[i] {
          if j + i < |x| {
            assert v[j + i] == x[j + i];
          } else {
            assert v[j + i] == v[|x|..][..4][j + i - |x|];
          }
        }
      }
      assert !StartsWith(x[j..] + " at ", " at ");
      assert AtStamp(v[j..]).None?;
      assert v[j] == x[j];
      FailedRestAt(v, j + 1, x);
    }
  }

  /** The banner of a failure with a message gives the message as action
    * and the date as stamp. */
  lemma CronFailedExample(a: string, st: string)
    requires a == "FAILED: x" && st == "2026-01-01"
    ensures SearchCron(CronOpen + a + " at " + st + " ===") == Some(("FAILED: x", "2026-01-01"))
  {
    forall j | 6 <= j < |a| ensures !StartsWith(a[j..] + " at ", " at ") {
      assert (a[j..] + " at ")[0] == a[j];
      if j == 7 {
        assert (a[j..] + " at ")[1] == 'x';
      }
    }
    CronFailedRead(a, st, "");
    assert CronOpen + a + " at " + st + " ===" + "" == CronOpen + a + " at " + st + " ===";
  }

  /** The entries of all matching lines, newest (last) line first. */
  function CronEntries(lines: seq<string>): seq<CronEntry>
  {
    if lines == [] then []
    else
      Hit(lines[|lines| - 1]) + CronEntries(lines[..|lines| - 1])
  }

  /** The entry of one line, if it matches. */
  function Hit(line: string): (r: seq<CronEntry>)
    ensures |r| <= 1
    ensures |r| == 1 <==> SearchCron(line).Some?
  {
    var m := SearchCron(line);
    if m.Some? then [CronOf(m.value.0, m.value.1)] else []
  }

  lemma CronStep(lines: seq<string>, i: nat)
    requires 0 < i <= |lines|
    ensures CronEntries(lines[..i]) == Hit(lines[i - 1]) + CronEntries(lines[..i - 1])
  {
    assert lines[..i][..i - 1] == lines[..i - 1];
  }

  /** The first `n` elements of `s`, or all of them when there are fewer. */
  function Prefix<T>(s: seq<T>, n: nat): (r: seq<T>)
    ensures |r| <= n && |r| <= |s|
    ensures |s| <= n ==> r == s
    ensures forall k :: 0 <= k < |r| ==> r[k] == s[k]
  {
    if |s| <= n then s else s[..n]
  }

  /** The scan of `_get_cron_history` over the log's lines, from the newest
    * line back, stopping once `limit` entries are collected. The check
    * comes after an append, so a limit below 1 still yields the newest
    * entry. */
  method ScanCron(lines: seq<string>, limit: int)
    returns (entries: seq<CronEntry>)
    ensures entries == Prefix(CronEntries(lines), Bound(limit))
  {
    entries := [];
    ghost var all := CronEntries(lines);
    var i := |lines|;
    assert lines[..i] == lines;
    while i > 0
      invariant 0 <= i <= |lines|
      invariant all == entries + CronEntries(lines[..i])
      invariant |entries| < Bound(limit)
      decreases i
    {
      var hit := Hit(lines[i - 1]);
      ghost var rest := CronEntries(lines[..i - 1]);
      ScanStep(lines, i, entries, all);
      entries := entries + hit;
      if hit != [] && |entries| >= limit {
        assert |entries| == Bound(limit);
        PrefixOfAppend(entries, rest);
        return;
      }
      i := i - 1;
    }
    assert all == entries + [];
  }

  /** One line of the scan moves its entry, if any, from the rest of the
    * log to the entries kept. */
  lemma ScanStep(lines: seq<string>, i: nat, entries: seq<CronEntry>, all: seq<CronEntry>)
    requires 0 < i <= |lines| && all == entries + CronEntries(lines[..i])
    ensures all == (entries + Hit(lines[i - 1])) + CronEntries(lines[..i - 1])
  {
    CronStep(lines, i);
    AppendAssoc(entries, Hit(lines[i - 1]), CronEntries(lines[..i - 1]));
  }

  lemma PrefixOfAppend<T>(a: seq<T>, b: seq<T>)
    ensures Prefix(a + b, |a|) == a
  {
    assert (a + b)[..|a|] == a;
  }

  /** `_get_cron_history(limit)`: the newest matching entries of the cron
    * log, at most `limit` of them (at least one when there is any); a
    * missing log has none. */
  method GetCronHistory(file: Option<string>, limit: int)
    returns (entries: seq<CronEntry>)
    ensures file.None? ==> entries == []
    ensures file.Some? ==> entries == Prefix(CronEntries(SplitLines(Strip(file.value))), Bound(limit))
  {
    if file.None? {
      return [];
    }
    entries := ScanCron(SplitLines(Strip(file.value)), limit);
  }

  /** The largest number of entries the history returns. */
  function Bound(limit: int): nat
  {
    if limit < 1 then 1 else limit
  }

  // ---------------------------------------------------------------------
  // Slots
  // ---------------------------------------------------------------------

  datatype Slot = Slot(kind: string, persona: Option<string>, account: Option<string>, timeUtc: Value,
                       timeIst: string, videoType: Option<Value>, enabled: bool,
                       lastRun: Option<string>, lastStatus: Option<string>)

  /** `time_utc` of a section or entry, with the default. */
  function TimeOf(d: Fields, default: string): Value
  {
    GetOr(d, "time_utc", Text(default))
  }

  /** The display time of a configured time; a non-text value cannot be
    * split and raises. */
  function IstOf(v: Value): Result<string>
  {
    if v.Text? then UtcToIst(v.s) else Err("time is not text")
  }

  /** A slot is enabled when its own flag and its pipeline's flag are both
    * truthy, each defaulting to true. */
  predicate SlotEnabled(own: Fields, pipeline: Fields)
  {
    Truthy(GetOr(own, "enabled", Bool(true))) && Truthy(GetOr(pipeline, "enabled", Bool(true)))
  }

  /** The slot of a video persona; `ist` is the display time of the
    * pipeline's time. */
  function VideoSlot(persona: string, pcfg: Fields, vp: Fields, ist: string,
                     lastRuns: map<string, (string, string)>): Slot
  {
    var t := TimeOf(vp, "06:30");
    Slot("video", Some(persona), None, t, ist,
         Some(GetOr(pcfg, "video_type", Text("auto"))), SlotEnabled(pcfg, vp),
         if persona in lastRuns then Some(lastRuns[persona].0) else None,
         if persona in lastRuns then Some(lastRuns[persona].1) else None)
  }

  /** The slot of a text account. */
  function TextSlot(account: string, acfg: Fields, tp: Fields, ist: string): Slot
  {
    var t := TimeOf(acfg, "00:00");
    Slot("text", None, Some(account), t, ist, None, SlotEnabled(acfg, tp), None, None)
  }

  /** The slot of persona `p`: a video slot at the pipeline's time ("06:30"
    * by default) showing the display time `ist`, the configured video type ("auto" by default), enabled as its flags
    * say, with the persona's last run and status when the log has one. */
  predicate IsVideoSlot(s: Slot, p: string, pcfg: Fields, vp: Fields, ist: string, lastRuns: map<string, (string, string)>)
  {
    s.kind == "video" && s.persona == Some(p) && s.account == None
    && s.timeUtc == TimeOf(vp, "06:30") && s.timeIst == ist
    && s.enabled == SlotEnabled(pcfg, vp)
    && s.videoType == Some(GetOr(pcfg, "video_type", Text("auto")))
    && s.lastRun == (if p in lastRuns then Some(lastRuns[p].0) else None)
    && s.lastStatus == (if p in lastRuns then Some(lastRuns[p].1) else None)
  }

  /** The persona slots of `get_schedule`, one per persona in file order;
    * `ist` is the display time of the pipeline's time. */
  method BuildVideoSlots(vp: Pipeline, ist: string, lastRuns: map<string, (string, string)>) returns (slots: seq<Slot>)
    requires WellFormed(vp)
    ensures |slots| == |vp.names|
    ensures forall i :: 0 <= i < |vp.names| ==>
      IsVideoSlot(slots[i], vp.names[i], vp.entries[vp.names[i]], vp.fields, ist, lastRuns)
  {
    slots := [];
    var i := 0;
    while i < |vp.names|
      invariant 0 <= i <= |vp.names| && |slots| == i
      invariant forall j :: 0 <= j < i ==> slots[j] == VideoSlot(vp.names[j], vp.entries[vp.names[j]], vp.fields, ist, lastRuns)
    {
      var p := vp.names[i];
      slots := slots + [VideoSlot(p, vp.entries[p], vp.fields, ist, lastRuns)];
      i := i + 1;
    }
  }

  /** Whether an account's time converts to a display time. */
  predicate TimeOk(acfg: Fields)
  {
    IstOf(TimeOf(acfg, "00:00")).Ok?
  }

  /** Whether the video pipeline's time converts to a display time. */
  predicate VideoTimeOk(vp: Fields)
  {
    IstOf(TimeOf(vp, "06:30")).Ok?
  }

  /** The slot of account `a`: a text slot for that account at its own time
    * ("00:00" by default), showing the display time of that time, enabled as its
    * flags say, with no video type and no last run. */
  predicate IsTextSlot(s: Slot, a: string, acfg: Fields, tp: Fields)
  {
    s.kind == "text" && s.account == Some(a) && s.persona == None && s.videoType == None
    && s.enabled == SlotEnabled(acfg, tp)
    && s.timeUtc == TimeOf(acfg, "00:00")
    && IstOf(TimeOf(acfg, "00:00")).Ok? && s.timeIst == IstOf(TimeOf(acfg, "00:00")).value
    && s.lastRun == None && s.lastStatus == None
  }

  /** The account slots of `get_schedule`, one per account in file order; an
    * account time that cannot be converted makes the call raise. */
  method BuildTextSlots(tp: Pipeline) returns (r: Result<seq<Slot>>)
    requires WellFormed(tp)
    ensures r.Err? <==> exists j :: 0 <= j < |tp.names| && !TimeOk(tp.entries[tp.names[j]])
    ensures r.Ok? ==> |r.value| == |tp.names|
    ensures r.Ok? ==> forall i :: 0 <= i < |tp.names| ==>
      IsTextSlot(r.value[i], tp.names[i], tp.entries[tp.names[i]], tp.fields)
  {
    var slots: seq<Slot> := [];
    var k := 0;
    while k < |tp.names|
      invariant 0 <= k <= |tp.names| && |slots| == k
      invariant forall j :: 0 <= j < k ==> TimeOk(tp.entries[tp.names[j]]) && slots[j] == TextSlotAt(tp, j)
    {
      var a := tp.names[k];
      var ist := IstOf(TimeOf(tp.entries[a], "00:00"));
      if ist.Err? {
        assert !TimeOk(tp.entries[tp.names[k]]);
        return Err(ist.error);
      }
      slots := slots + [TextSlot(a, tp.entries[a], tp.fields, ist.value)];
      k := k + 1;
    }
    TextSlotsAre(tp, slots);
    r := Ok(slots);
  }

  /** The slot `get_schedule` builds for the account at position `j`. */
  function TextSlotAt(tp: Pipeline, j: nat): Slot
    requires WellFormed(tp) && j < |tp.names| && TimeOk(tp.entries[tp.names[j]])
  {
    var a := tp.names[j];
    TextSlot(a, tp.entries[a], tp.fields, IstOf(TimeOf(tp.entries[a], "00:00")).value)
  }

  lemma TextSlotsAre(tp: Pipeline, slots: seq<Slot>)
    requires WellFormed(tp) && |slots| == |tp.names|
    requires forall j :: 0 <= j < |slots| ==> TimeOk(tp.entries[tp.names[j]]) && slots[j] == TextSlotAt(tp, j)
    ensures forall i :: 0 <= i < |tp.names| ==> IsTextSlot(slots[i], tp.names[i], tp.entries[tp.names[i]], tp.fields)
  {
    forall i | 0 <= i < |tp.names|
      ensures IsTextSlot(slots[i], tp.names[i], tp.entries[tp.names[i]], tp.fields)
    {
      TextSlotIsTextSlot(tp.names[i], tp.entries[tp.names[i]], tp.fields);
    }
  }

  /** The slot built for an account whose time converts is its text slot. */
  lemma TextSlotIsTextSlot(a: string, acfg: Fields, tp: Fields)
    requires TimeOk(acfg)
    ensures IsTextSlot(TextSlot(a, acfg, tp, IstOf(TimeOf(acfg, "00:00")).value), a, acfg, tp)
  {
  }

  /** The video slots followed by the text slots keep the slot of every
    * persona and of every account at its place. */
  lemma SlotsOfConcat(video: seq<Slot>, text: seq<Slot>, config: Config, ist: string,
                      lastRuns: map<string, (string, string)>)
    requires WellFormed(config.video) && WellFormed(config.text)
    requires |video| == |config.video.names| && |text| == |config.text.names|
    requires forall i :: 0 <= i < |config.video.names| ==>
      IsVideoSlot(video[i], config.video.names[i], config.video.entries[config.video.names[i]], config.video.fields, ist, lastRuns)
    requires forall i :: 0 <= i < |config.text.names| ==>
      IsTextSlot(text[i], config.text.names[i], config.text.entries[config.text.names[i]], config.text.fields)
    ensures forall i :: 0 <= i < |config.video.names| ==>
      var p := config.video.names[i];
      IsVideoSlot((video + text)[i], p, config.video.entries[p], config.video.fields, ist, lastRuns)
    ensures forall i :: 0 <= i < |config.text.names| ==>
      var a := config.text.names[i];
      IsTextSlot((video + text)[|config.video.names| + i], a, config.text.entries[a], config.text.fields)
  {
    var slots := video + text;
    forall i | 0 <= i < |config.video.names|
      ensures IsVideoSlot(slots[i], config.video.names[i], config.video.entries[config.video.names[i]], config.video.fields, ist, lastRuns)
    {
      assert slots[i] == video[i];
    }
    forall i | 0 <= i < |config.text.names|
      ensures IsTextSlot(slots[|video| + i], config.text.names[i], config.text.entries[config.text.names[i]], config.text.fields)
    {
      assert slots[|video| + i] == text[i];
    }
  }

  /** The schedule state shown by the dashboard. */
  datatype Schedule = Schedule(videoEnabled: bool, textEnabled: bool, videoTimeUtc: Value, videoTimeIst: string,
                               todayVideoType: string, slots: seq<Slot>, history: seq<CronEntry>)

  /** `get_schedule`: the pipeline toggles, the video time in UTC and IST, today's
    * predicted type, the video slots followed by the text slots, and the
    * cron history. It raises exactly when the video time or an account time
    * cannot be converted. */
  method GetSchedule(config: Config, lastRuns: map<string, (string, string)>, history: seq<CronEntry>, yday: int)
    returns (r: Result<Schedule>)
    requires WellFormed(config.video) && WellFormed(config.text)
    ensures r.Err? <==> !VideoTimeOk(config.video.fields)
                        || exists j :: 0 <= j < |config.text.names| && !TimeOk(config.text.entries[config.text.names[j]])
    ensures r.Ok? ==> r.value.todayVideoType == AutopilotVideo.PickVideoType(yday)
    ensures r.Ok? ==> r.value.videoEnabled == Truthy(GetOr(config.video.fields, "enabled", Bool(true)))
    ensures r.Ok? ==> r.value.textEnabled == Truthy(GetOr(config.text.fields, "enabled", Bool(true)))
    ensures r.Ok? ==> r.value.videoTimeUtc == TimeOf(config.video.fields, "06:30")
    ensures r.Ok? ==> r.value.videoTimeIst == IstOf(TimeOf(config.video.fields, "06:30")).value
    ensures r.Ok? ==> |r.value.slots| == |config.video.names| + |config.text.names|
    ensures r.Ok? ==> forall i :: 0 <= i < |config.video.names| ==>
      var p := config.video.names[i];
      IsVideoSlot(r.value.slots[i], p, config.video.entries[p], config.video.fields, r.value.videoTimeIst, lastRuns)
    ensures r.Ok? ==> forall i :: 0 <= i < |config.text.names| ==>
      var a := config.text.names[i];
      IsTextSlot(r.value.slots[|config.video.names| + i], a, config.text.entries[a], config.text.fields)
    ensures r.Ok? ==> r.value.history == history
  {
    var ist := IstOf(TimeOf(config.video.fields, "06:30"));
    if ist.Err? {
      assert !VideoTimeOk(config.video.fields);
      return Err(ist.error);
    }
    assert VideoTimeOk(config.video.fields);
    var video := BuildVideoSlots(config.video, ist.value, lastRuns);
    var text := BuildTextSlots(config.text);
    if text.Err? {
      return Err(text.error);
    }
    var slots := video + text.value;
    SlotsOfConcat(video, text.value, config, ist.value, lastRuns);
    r := Ok(Schedule(Truthy(GetOr(config.video.fields, "enabled", Bool(true))),
                     Truthy(GetOr(config.text.fields, "enabled", Bool(true))),
                     TimeOf(config.video.fields, "06:30"), ist.value, PredictVideoType(yday, 0), slots, history));
  }

  // ---------------------------------------------------------------------
  // Update
  // ---------------------------------------------------------------------

  /** The request body of an update; the persona and account patches are
    * dictionary items, so their names are distinct. */
  datatype Patch = Patch(videoEnabled: Option<bool>, textEnabled: Option<bool>,
                         videoPersonas: seq<(string, Fields)>, textAccounts: seq<(string, Fields)>)

  /** `cfg.update(updates)` for every named entry the section knows;
    * unknown names are ignored. */
  function MergeEntries(entries: map<string, Fields>, updates: seq<(string, Fields)>): (r: map<string, Fields>)
    ensures r.Keys == entries.Keys
  {
    if updates == [] then entries
    else
      var (n, u) := updates[|updates| - 1];
      var before := MergeEntries(entries, updates[..|updates| - 1]);
      if n in before then before[n := before[n] + u] else before
  }

  /** The configuration after an update: a toggle is written only when it
    * is given, and entries are merged key by key. */
  function Patched(c: Config, patch: Patch): Config
  {
    var vf := if patch.videoEnabled.Some? then c.video.fields["enabled" := Bool(patch.videoEnabled.value)] else c.video.fields;
    var tf := if patch.textEnabled.Some? then c.text.fields["enabled" := Bool(patch.textEnabled.value)] else c.text.fields;
    Config(Pipeline(vf, c.video.names, MergeEntries(c.video.entries, patch.videoPersonas)),
           Pipeline(tf, c.text.names, MergeEntries(c.text.entries, patch.textAccounts)))
  }

  /** An entry no update names keeps all its fields. */
  lemma {:induction false} MergeUntouched(entries: map<string, Fields>, updates: seq<(string, Fields)>, n: string)
    requires n in entries
    requires forall k :: 0 <= k < |updates| ==> updates[k].0 != n
    ensures MergeEntries(entries, updates)[n] == entries[n]
  {
    if updates != [] {
      MergeUntouched(entries, updates[..|updates| - 1], n);
    }
  }

  /** An entry named by exactly one update gets that update's keys and keeps
    * every key the update does not mention. */
  lemma {:induction false} MergeOnce(entries: map<string, Fields>, updates: seq<(string, Fields)>, i: nat)
    requires i < |updates| && updates[i].0 in entries
    requires forall k :: 0 <= k < |updates| && k != i ==> updates[k].0 != updates[i].0
    ensures MergeEntries(entries, updates)[updates[i].0] == entries[updates[i].0] + updates[i].1
  {
    var n := |updates| - 1;
    if i == n {
      MergeUntouched(entries, updates[..n], updates[i].0);
    } else {
      MergeOnce(entries, updates[..n], i);
    }
  }

  /** An update keeps the names and their order, and every toggle that is
    * not given keeps its value. */
  lemma PatchedKeepsShape(c: Config, patch: Patch)
    requires WellFormed(c.video) && WellFormed(c.text)
    ensures WellFormed(Patched(c, patch).video) && WellFormed(Patched(c, patch).text)
    ensures Patched(c, patch).video.names == c.video.names && Patched(c, patch).text.names == c.text.names
    ensures patch.videoEnabled.None? ==> Patched(c, patch).video.fields == c.video.fields
    ensures patch.textEnabled.None? ==> Patched(c, patch).text.fields == c.text.fields
    ensures patch.videoEnabled.Some? ==> Patched(c, patch).video.fields["enabled"] == Bool(patch.videoEnabled.value)
  {
  }

  /** The stored schedule configuration; `None` is a missing file. */
  class ScheduleFile {
    var config: Option<Config>

    constructor(config: Option<Config>)
      ensures this.config == config
    {
      this.config := config;
    }

    /** `update_schedule`: reads the configuration (or the default), applies
      * the request and writes the result back. */
    method UpdateSchedule(patch: Patch)
      modifies this
      ensures config == Some(Patched(ReadConfig(old(config)), patch))
    {
      var c := ReadConfig(config);
      var vf, tf := c.video.fields, c.text.fields;
      if patch.videoEnabled.Some? {
        vf := vf["enabled" := Bool(patch.videoEnabled.value)];
      }
      if patch.textEnabled.Some? {
        tf := tf["enabled" := Bool(patch.textEnabled.value)];
      }
      var personas := c.video.entries;
      var i := 0;
      while i < |patch.videoPersonas|
        invariant 0 <= i <= |patch.videoPersonas|
        invariant personas == MergeEntries(c.video.entries, patch.videoPersonas[..i])
      {
        assert patch.videoPersonas[..i + 1][..i] == patch.videoPersonas[..i];
        var (persona, updates) := patch.videoPersonas[i];
        if persona in personas {
          personas := personas[persona := personas[persona] + updates];
        }
        i := i + 1;
      }
      assert patch.videoPersonas[..i] == patch.videoPersonas;
      var accounts := c.text.entries;
      var k := 0;
      while k < |patch.textAccounts|
        invariant 0 <= k <= |patch.textAccounts|
        invariant accounts == MergeEntries(c.text.entries, patch.textAccounts[..k])
      {
        assert patch.textAccounts[..k + 1][..k] == patch.textAccounts[..k];
        var (account, updates) := patch.textAccounts[k];
        if account in accounts {
          accounts := accounts[account := accounts[account] + updates];
        }
        k := k + 1;
      }
      assert patch.textAccounts[..k] == patch.textAccounts;
      config := Some(Config(Pipeline(vf, c.video.names, personas), Pipeline(tf, c.text.names, accounts)));
    }
  }
}
