/** utils.py: the timestamp normaliser and the record parser.
    The library calls the parser makes (`json.loads`, `datetime.fromisoformat`,
    `json.dumps(indent=4, ensure_ascii=False)` and `str()` of a decoded value
    that is not a string) are not modelled; they are inputs, gathered in `Env`. */
module Utils {
  import opened Wrappers
  import opened PyBuiltins
  import opened PyDateTime

  /** The colours the viewer paints with, as tags. */
  datatype Color = Green | White | Black | Blue | Red | Magenta
                 | Orange      // #FFA500
                 | LightGray   // #E0E0E0
                 | SkyBlue     // #00B2FF

  /** One `(text, fg, bg)` part of a rendered record. */
  datatype Segment = Segment(text: string, fg: Color, bg: Color)

  /** The pair `(parts, level)` that `parse_log` returns. */
  datatype Entry = Entry(parts: seq<Segment>, level: Json)

  /** The library calls, as functions supplied by the caller. */
  datatype Env = Env(loads: string -> Result<Json, string>,
                     fromIso: string -> Option<DateTime>,
                     dumps: Json -> string,
                     str: Json -> string)

  /** Every string `datetime.fromisoformat` accepts begins with the digits of a year. */
  ghost predicate IsoLike(fromIso: string -> Option<DateTime>)
  {
    forall s :: fromIso(s).Some? ==> s != [] && IsDigit(s[0])
  }

  /** The string handed to the ISO parser: a final `Z` becomes `+00:00`.
      The result never ends in `Z`, keeps every character of the input but
      the last, and differs from the input only by that UTC suffix. */
  function ZuluRewrite(s: string): (t: string)
    ensures |t| == 0 || t[|t| - 1] != 'Z'
    ensures |s| <= |t| && forall i :: 0 <= i < |s| - 1 ==> t[i] == s[i]
    ensures t != s ==> |s| > 0 && s[|s| - 1] == 'Z' && |t| == |s| + 5 && t[|s| - 1..] == "+00:00"
  {
    if |s| > 0 && s[|s| - 1] == 'Z' then s[..|s| - 1] + "+00:00" else s
  }

  /** `format_timestamp`: the parsed wall-clock time as `YYYY-MM-DD HH:MM:SS.mmm`,
      or the (rewritten) input when the ISO parser rejects it. */
  function FormatTimestamp(fromIso: string -> Option<DateTime>, s: string): (r: string)
    ensures fromIso(ZuluRewrite(s)).None? ==> r == ZuluRewrite(s)
    ensures fromIso(ZuluRewrite(s)).Some? ==>
              DisplayShape(r)
              && var dt := fromIso(ZuluRewrite(s)).value;
                 ReadDisplay(r) == WallClock(dt.year, dt.month, dt.day, dt.hour,
                                             dt.minute, dt.second, dt.microsecond / 1000)
  {
    var t := ZuluRewrite(s);
    match fromIso(t)
    case Some(dt) =>
      DisplayRoundTrip(dt);
      Strftime(dt)[..|Strftime(dt)| - 3]
    case None => t
  }

  /** The `level_formats` table, with its default for any other level. */
  function LevelFormat(level: Json): (Color, Color)
  {
    if level == JString("INFO") then (Green, LightGray)
    else if level == JString("WARNING") then (White, Orange)
    else if level == JString("ERROR") then (White, Red)
    else if level == JString("CRITICAL") then (White, Magenta)
    else if level == JString("DEBUG") then (SkyBlue, LightGray)
    else (Black, LightGray)
  }

  /** `f"{v}"` for a decoded value. */
  function Str(env: Env, v: Json): string
  {
    if v.JString? then v.s else env.str(v)
  }

  function Label(text: string): Segment
  {
    Segment(text, Blue, LightGray)
  }

  function Value(text: string): Segment
  {
    Segment(text, Black, LightGray)
  }

  /** The two parts each `extra` entry adds, in insertion order. */
  function ExtraParts(dumps: Json -> string, items: seq<(string, Json)>): (parts: seq<Segment>)
    ensures |parts| == 2 * |items|
    ensures forall k :: 0 <= k < |items| ==>
              parts[2 * k] == Label("  " + items[k].0 + ": ")
              && parts[2 * k + 1] == Value(dumps(items[k].1) + "\n")
  {
    if items == [] then []
    else
      var rest := ExtraParts(dumps, items[1..]);
      var parts := [Label("  " + items[0].0 + ": "), Value(dumps(items[0].1) + "\n")] + rest;
      assert forall k :: 1 <= k < |items| ==>
               parts[2 * k] == Label("  " + items[k].0 + ": ")
               && parts[2 * k + 1] == Value(dumps(items[k].1) + "\n") by {
        forall k | 1 <= k < |items|
          ensures parts[2 * k] == Label("  " + items[k].0 + ": ")
          ensures parts[2 * k + 1] == Value(dumps(items[k].1) + "\n")
        {
          var j := k - 1;
          assert items[k] == items[1..][j];
          assert parts[2 * k] == rest[2 * j];
          assert parts[2 * k + 1] == rest[2 * j + 1];
        }
      }
      parts
  }

  /** The six fixed parts of a parsed record. */
  function HeadParts(timestamp: string, levelText: string, levelColors: (Color, Color),
                     message: string): seq<Segment>
  {
    [ Label("Timestamp: "), Value(timestamp + "\n"),
      Label("Level: "), Segment(levelText + "\n", levelColors.0, levelColors.1),
      Label("Message: "), Value(message + "\n") ]
  }

  /** The parts of a parsed record: the six fixed parts, then the `extra` entries. */
  function RecordParts(env: Env, timestamp: string, level: Json, message: Json,
                       items: seq<(string, Json)>): seq<Segment>
  {
    HeadParts(timestamp, Str(env, level), LevelFormat(level), Str(env, message))
    + ExtraParts(env.dumps, items)
  }

  /** The body of the `try` block after `json.loads`: either the record, or the
      text of the exception a wrongly shaped value raises. */
  function Decode(env: Env, log: Json): (r: Result<Entry, string>)
    ensures r.Success? ==> |r.value.parts| >= 6 && r.value.parts[0] == Label("Timestamp: ")
  {
    if !log.JObject? then Failure(NoAttribute(log, "get"))
    else
      var record := GetOr(log.fields, "record", JObject([]));
      if !record.JObject? then Failure(NoAttribute(record, "get"))
      else
        var time := GetOr(record.fields, "time", JObject([]));
        if !time.JObject? then Failure(NoAttribute(time, "get"))
        else
          var repr := GetOr(time.fields, "repr", JString("Unknown time"));
          if !repr.JString? then Failure(NoAttribute(repr, "endswith"))
          else
            var timestamp := FormatTimestamp(env.fromIso, repr.s);
            var levelObj := GetOr(record.fields, "level", JObject([]));
            if !levelObj.JObject? then Failure(NoAttribute(levelObj, "get"))
            else
              var level := GetOr(levelObj.fields, "name", JString("UNKNOWN"));
              var message := GetOr(record.fields, "message", JString("No message"));
              if !Hashable(level) then Failure(Unhashable(level))
              else
                var extra := GetOr(record.fields, "extra", JObject([]));
                if !Truthy(extra) then Success(Entry(RecordParts(env, timestamp, level, message, []), level))
                else if !extra.JObject? then Failure(NoAttribute(extra, "items"))
                else Success(Entry(RecordParts(env, timestamp, level, message, extra.fields), level))
  }

  /** `parse_log`: never fails; a record of at least six parts, or a single red
      part with level `'ERROR'`. */
  function ParseLog(env: Env, logStr: string): (r: Entry)
    ensures |r.parts| == 1 || |r.parts| >= 6
    ensures |r.parts| == 1 ==> r.level == JString("ERROR") && r.parts[0].fg == Red
  {
    match env.loads(logStr)
    case Failure(e) =>
      Entry([Segment("Error parsing log string: " + e, Red, LightGray)], JString("ERROR"))
    case Success(log) =>
      match Decode(env, log)
      case Success(entry) => entry
      case Failure(e) =>
        Entry([Segment("An unexpected error occurred: " + e, Red, LightGray)], JString("ERROR"))
  }

  // ---------------------------------------------------------------------
  // What a record must look like for `parse_log` to succeed, stated key by
  // key: every key may be missing, and a present key must hold a value of
  // the right kind.

  predicate AbsentOrObject(fields: seq<(string, Json)>, key: string)
  {
    Get(fields, key).None? || Get(fields, key).value.JObject?
  }

  /** The members of the object stored under `key`; none when it is missing. */
  function Members(fields: seq<(string, Json)>, key: string): seq<(string, Json)>
  {
    match Get(fields, key)
    case Some(JObject(m)) => m
    case _ => []
  }

  predicate WellShaped(log: Json)
  {
    && log.JObject?
    && AbsentOrObject(log.fields, "record")
    && var record := Members(log.fields, "record");
    && AbsentOrObject(record, "time")
    && (Get(Members(record, "time"), "repr").None? || Get(Members(record, "time"), "repr").value.JString?)
    && AbsentOrObject(record, "level")
    && (Get(Members(record, "level"), "name").None? || Hashable(Get(Members(record, "level"), "name").value))
    && (Get(record, "extra").None? || !Truthy(Get(record, "extra").value) || Get(record, "extra").value.JObject?)
  }

  function HasPrefix(p: string, s: string): bool
  {
    |p| <= |s| && s[..|p|] == p
  }

  /** Decoding fails exactly on the values that are not well shaped. */
  lemma DecodeSucceeds(env: Env, log: Json)
    ensures Decode(env, log).Success? <==> WellShaped(log)
  {
  }

  /** Text that `json.loads` rejects yields one red part carrying the decoder's
      message, and the level `'ERROR'`. */
  lemma ParseLogInvalidJson(env: Env, logStr: string)
    requires env.loads(logStr).Failure?
    ensures ParseLog(env, logStr)
            == Entry([Segment("Error parsing log string: " + env.loads(logStr).error, Red, LightGray)],
                     JString("ERROR"))
  {
  }

  /** Decoded JSON is rendered as a record exactly when it is well shaped;
      otherwise it yields one red part reporting the unexpected error. */
  lemma {:induction false} ParseLogShape(env: Env, logStr: string)
    requires env.loads(logStr).Success?
    ensures WellShaped(env.loads(logStr).value) <==> |ParseLog(env, logStr).parts| >= 6
    ensures !WellShaped(env.loads(logStr).value) ==>
              var r := ParseLog(env, logStr);
              && |r.parts| == 1 && r.level == JString("ERROR")
              && r.parts[0].fg == Red && r.parts[0].bg == LightGray
              && HasPrefix("An unexpected error occurred: ", r.parts[0].text)
  {
    DecodeSucceeds(env, env.loads(logStr).value);
  }

  /** The layout of a rendered record: the six fixed parts in order, then
      two parts per `extra` entry in insertion order. */
  lemma RecordPartsLayout(env: Env, timestamp: string, level: Json, message: Json,
                          items: seq<(string, Json)>)
    ensures var parts := RecordParts(env, timestamp, level, message, items);
      && |parts| == 6 + 2 * |items|
      && parts[..6] == [ Label("Timestamp: "), Value(timestamp + "\n"),
                         Label("Level: "), Segment(Str(env, level) + "\n", LevelFormat(level).0, LevelFormat(level).1),
                         Label("Message: "), Value(Str(env, message) + "\n") ]
      && forall k :: 0 <= k < |items| ==>
           parts[6 + 2 * k] == Label("  " + items[k].0 + ": ")
           && parts[7 + 2 * k] == Value(env.dumps(items[k].1) + "\n")
  {
    var parts := RecordParts(env, timestamp, level, message, items);
    var ex := ExtraParts(env.dumps, items);
    assert parts[6..] == ex;
    forall k | 0 <= k < |items|
      ensures parts[6 + 2 * k] == Label("  " + items[k].0 + ": ")
      ensures parts[7 + 2 * k] == Value(env.dumps(items[k].1) + "\n")
    {
      assert parts[6 + 2 * k] == ex[2 * k];
      assert parts[7 + 2 * k] == ex[2 * k + 1];
    }
  }

  /** Only the level value is coloured by level; labels are blue, the other
      values black, all on the light grey background. */
  lemma {:induction false} RecordPartsColours(env: Env, timestamp: string, level: Json, message: Json,
                                              items: seq<(string, Json)>)
    ensures var parts := RecordParts(env, timestamp, level, message, items);
      && (parts[3].fg, parts[3].bg) == LevelFormat(level)
      && forall i :: 0 <= i < |parts| && i != 3 ==>
           parts[i].bg == LightGray && parts[i].fg == (if i % 2 == 0 then Blue else Black)
  {
    var parts := RecordParts(env, timestamp, level, message, items);
    RecordPartsLayout(env, timestamp, level, message, items);
    forall i | 0 <= i < |parts| && i != 3
      ensures parts[i].bg == LightGray && parts[i].fg == (if i % 2 == 0 then Blue else Black)
    {
      if i >= 6 {
        var k := (i - 6) / 2;
        if i % 2 == 0 {
          assert i == 6 + 2 * k;
          assert parts[i] == Label("  " + items[k].0 + ": ");
        } else {
          assert i == 7 + 2 * k;
          assert parts[i] == Value(env.dumps(items[k].1) + "\n");
        }
      } else {
        assert parts[i] == parts[..6][i];
      }
    }
  }

  /** A well-shaped record is rendered from its timestamp, level, message and
      (when truthy) `extra` entries; the returned level is `level.name`
      exactly as written, without case normalisation. */
  lemma {:induction false} ParseLogRecord(env: Env, logStr: string)
    requires env.loads(logStr).Success? && WellShaped(env.loads(logStr).value)
    ensures var log := env.loads(logStr).value;
      var record := Members(log.fields, "record");
      var repr := GetOr(Members(record, "time"), "repr", JString("Unknown time"));
      var level := GetOr(Members(record, "level"), "name", JString("UNKNOWN"));
      var message := GetOr(record, "message", JString("No message"));
      var extra := GetOr(record, "extra", JObject([]));
      var items := if Truthy(extra) then extra.fields else [];
      var r := ParseLog(env, logStr);
      && repr.JString?
      && r.level == level
      && r.parts == RecordParts(env, FormatTimestamp(env.fromIso, repr.s), level, message, items)
  {
    var log := env.loads(logStr).value;
    DecodeSucceeds(env, log);
    var record := GetOr(log.fields, "record", JObject([]));
    assert Members(log.fields, "record") == record.fields;
    var time := GetOr(record.fields, "time", JObject([]));
    assert Members(record.fields, "time") == time.fields;
    var levelObj := GetOr(record.fields, "level", JObject([]));
    assert Members(record.fields, "level") == levelObj.fields;
  }

  /** The five known names take their colours from the table; every other
      level, including a differently cased name, gets black on light grey. */
  lemma LevelFormatTable(level: Json)
    ensures LevelFormat(level) != (Black, LightGray)
            <==> level in {JString("INFO"), JString("WARNING"), JString("ERROR"),
                           JString("CRITICAL"), JString("DEBUG")}
    ensures level == JString("INFO") ==> LevelFormat(level) == (Green, LightGray)
    ensures level == JString("WARNING") ==> LevelFormat(level) == (White, Orange)
    ensures level == JString("ERROR") ==> LevelFormat(level) == (White, Red)
    ensures level == JString("CRITICAL") ==> LevelFormat(level) == (White, Magenta)
    ensures level == JString("DEBUG") ==> LevelFormat(level) == (SkyBlue, LightGray)
  {
  }

  /** `"Unknown time"` passes through the timestamp normaliser unchanged. */
  lemma UnknownTimeUnchanged(fromIso: string -> Option<DateTime>)
    requires IsoLike(fromIso)
    ensures FormatTimestamp(fromIso, "Unknown time") == "Unknown time"
  {
    var unknown := "Unknown time";
    assert ZuluRewrite(unknown) == unknown;
    assert fromIso(unknown).None? by {
      assert !IsDigit(unknown[0]);
    }
  }

  /** The three values of a rendered record, read off its fixed parts. */
  lemma ParseLogFields(env: Env, logStr: string)
    requires env.loads(logStr).Success? && WellShaped(env.loads(logStr).value)
    ensures var log := env.loads(logStr).value;
      var record := Members(log.fields, "record");
      var repr := GetOr(Members(record, "time"), "repr", JString("Unknown time"));
      var level := GetOr(Members(record, "level"), "name", JString("UNKNOWN"));
      var message := GetOr(record, "message", JString("No message"));
      var extra := GetOr(record, "extra", JObject([]));
      var r := ParseLog(env, logStr);
      && repr.JString?
      && |r.parts| == 6 + 2 * (if Truthy(extra) then |extra.fields| else 0)
      && r.level == level
      && r.parts[1] == Value(FormatTimestamp(env.fromIso, repr.s) + "\n")
      && r.parts[3] == Segment(Str(env, level) + "\n", LevelFormat(level).0, LevelFormat(level).1)
      && r.parts[5] == Value(Str(env, message) + "\n")
  {
    var log := env.loads(logStr).value;
    var record := Members(log.fields, "record");
    var repr := GetOr(Members(record, "time"), "repr", JString("Unknown time"));
    var level := GetOr(Members(record, "level"), "name", JString("UNKNOWN"));
    var message := GetOr(record, "message", JString("No message"));
    var extra := GetOr(record, "extra", JObject([]));
    var items := if Truthy(extra) then extra.fields else [];
    var r := ParseLog(env, logStr);
    ParseLogRecord(env, logStr);
    RecordPartsLayout(env, FormatTimestamp(env.fromIso, repr.s), level, message, items);
    assert r.parts[1] == r.parts[..6][1] && r.parts[3] == r.parts[..6][3] && r.parts[5] == r.parts[..6][5];
  }

  /** Missing keys fall back to their defaults and never make parsing fail. */
  lemma {:induction false} ParseLogDefaults(env: Env, logStr: string)
    requires IsoLike(env.fromIso)
    requires env.loads(logStr).Success? && WellShaped(env.loads(logStr).value)
    ensures var log := env.loads(logStr).value;
      var record := Members(log.fields, "record");
      var r := ParseLog(env, logStr);
      && |r.parts| >= 6
      && (Get(record, "time").None? ==> r.parts[1] == Value("Unknown time\n"))
      && (Get(record, "level").None? ==>
            r.level == JString("UNKNOWN") && r.parts[3] == Segment("UNKNOWN\n", Black, LightGray))
      && (Get(record, "message").None? ==> r.parts[5] == Value("No message\n"))
      && (Get(record, "extra").None? ==> |r.parts| == 6)
  {
    var log := env.loads(logStr).value;
    var record := Members(log.fields, "record");
    ParseLogFields(env, logStr);
    if Get(record, "time").None? {
      assert Members(record, "time") == [];
      UnknownTimeUnchanged(env.fromIso);
    }
    if Get(record, "level").None? {
      assert Members(record, "level") == [];
    }
  }


  /** A JSON object without a `record` key renders every default. */
  lemma {:induction false} ParseLogEmptyRecord(env: Env, logStr: string)
    requires IsoLike(env.fromIso)
    requires env.loads(logStr) == Success(JObject([]))
    ensures ParseLog(env, logStr)
            == Entry([Label("Timestamp: "), Value("Unknown time\n"),
                      Label("Level: "), Segment("UNKNOWN\n", Black, LightGray),
                      Label("Message: "), Value("No message\n")],
                     JString("UNKNOWN"))
  {
    UnknownTimeUnchanged(env.fromIso);
    var parts := RecordParts(env, "Unknown time", JString("UNKNOWN"), JString("No message"), []);
    assert Decode(env, JObject([])) == Success(Entry(parts, JString("UNKNOWN")));
    RecordPartsLayout(env, "Unknown time", JString("UNKNOWN"), JString("No message"), []);
    assert parts == parts[..6];
    assert LevelFormat(JString("UNKNOWN")) == (Black, LightGray) by {
      LevelFormatTable(JString("UNKNOWN"));
    }
    assert Str(env, JString("UNKNOWN")) == "UNKNOWN";
    assert Str(env, JString("No message")) == "No message";
    assert ParseLog(env, logStr) == Entry(parts, JString("UNKNOWN"));
    assert parts[1] == Value("Unknown time\n");
    assert parts[3] == Segment("UNKNOWN\n", Black, LightGray);
    assert parts[5] == Value("No message\n");
  }

  /** The `KeyError` handler is unreachable: every lookup has a default, so no
      result starts with "Missing expected key: ". */
  lemma ParseLogNoKeyError(env: Env, logStr: string)
    ensures !HasPrefix("Missing expected key: ", ParseLog(env, logStr).parts[0].text)
  {
    var r := ParseLog(env, logStr);
    match env.loads(logStr)
    case Failure(e) =>
      assert r.parts[0].text[0] == 'E';
    case Success(log) =>
      if Decode(env, log).Success? {
        assert r.parts[0].text[0] == 'T';
      } else {
        assert r.parts[0].text[0] == 'A';
      }
  }
}
