/**
 * The domain logger of src/logger/Logger.ts: it asks its `LoggerUtils`
 * whether an entry passes the filter, formats the line and hands it to the
 * console channel for its level. The console is modelled as the emission a
 * call returns; the clock (`new Date().toISOString()`) and `JSON.stringify`
 * are strings supplied by the caller.
 */
module Logger {
  import opened Wrappers
  import U = LoggerUtils

  type Domain = U.Domain
  type Level = U.Level

  /** `console.error`, `console.warn`, `console.info`, `console.debug`. */
  datatype Channel = ErrorChannel | WarnChannel | InfoChannel | DebugChannel

  /** `LogEntry`; `timestamp` is the ISO text of the entry's date and `data` the JSON text of defined data. */
  datatype Entry = Entry(level: Level, domain: Domain, message: string, timestamp: string, data: Option<string>)

  /** One line written to one console channel. */
  datatype Emission = Emission(channel: Channel, line: string)

  /** The `switch` of `output`: one channel per level (its `console.log` default is unreachable). */
  function ChannelFor(l: Level): (c: Channel)
    ensures c == ErrorChannel <==> l == U.Error
    ensures c == WarnChannel <==> l == U.Warning
    ensures c == InfoChannel <==> l == U.Info
    ensures c == DebugChannel <==> l == U.Debug
  {
    match l
    case Error => ErrorChannel
    case Warning => WarnChannel
    case Info => InfoChannel
    case Debug => DebugChannel
  }

  /** Distinct levels go to distinct channels. */
  lemma ChannelsDistinct(a: Level, b: Level)
    ensures ChannelFor(a) == ChannelFor(b) ==> a == b
  {
  }

  /** The `LogLevel` string. */
  function LevelName(l: Level): string
  {
    match l
    case Error => "error"
    case Warning => "warning"
    case Info => "info"
    case Debug => "debug"
  }

  /** `toUpperCase` on ASCII letters; other characters are kept. */
  function UpperCase(s: string): (r: string)
    ensures |r| == |s|
    ensures forall i :: 0 <= i < |s| ==> !('a' <= r[i] <= 'z')
    ensures forall i :: 0 <= i < |s| && !('a' <= s[i] <= 'z') ==> r[i] == s[i]
    ensures forall i :: 0 <= i < |s| && 'a' <= s[i] <= 'z' ==> r[i] == (s[i] as int - 32) as char
  {
    seq(|s|, i requires 0 <= i < |s| =>
      if 'a' <= s[i] <= 'z' then (s[i] as int - 'a' as int + 'A' as int) as char else s[i])
  }

  /** The upper-cased level names, whose first letters already tell the levels apart. */
  lemma LevelTags(l: Level)
    ensures UpperCase(LevelName(l)) ==
      match l
      case Error => "ERROR"
      case Warning => "WARNING"
      case Info => "INFO"
      case Debug => "DEBUG"
  {
    var s := LevelName(l);
    var t := match l case Error => "ERROR" case Warning => "WARNING" case Info => "INFO" case Debug => "DEBUG";
    assert forall i :: 0 <= i < |s| ==> UpperCase(s)[i] == t[i];
  }

  /** `formatMessage`: `[ts] ` when timestamps are on, `[LEVEL] [domain] message`, then ` | Data: json` when data is defined. */
  function FormatMessage(e: Entry, enableTimestamp: bool): (s: string)
    ensures |s| == (if enableTimestamp then |e.timestamp| + 3 else 0)
                   + |LevelName(e.level)| + |e.domain| + 6 + |e.message|
                   + (if e.data.Some? then |e.data.value| + 9 else 0)
  {
    (if enableTimestamp then "[" + e.timestamp + "] " else "")
    + "[" + UpperCase(LevelName(e.level)) + "] "
    + "[" + e.domain + "] "
    + e.message
    + (if e.data.Some? then " | Data: " + e.data.value else "")
  }

  /** The timestamp setting only adds or drops the bracketed timestamp in front. */
  lemma TimestampOnlyPrefixes(e: Entry)
    ensures FormatMessage(e, true) == "[" + e.timestamp + "] " + FormatMessage(e, false)
  {
  }

  /** Defined data only appends ` | Data: json`; without data the line ends with the message. */
  lemma DataOnlyAppends(e: Entry, json: string, enableTimestamp: bool)
    ensures FormatMessage(e.(data := Some(json)), enableTimestamp) ==
      FormatMessage(e.(data := None), enableTimestamp) + " | Data: " + json
    ensures var s := FormatMessage(e.(data := None), enableTimestamp);
      |s| >= |e.message| && s[|s| - |e.message|..] == e.message
  {
    var s := FormatMessage(e.(data := None), enableTimestamp);
    var head := (if enableTimestamp then "[" + e.timestamp + "] " else "")
      + "[" + UpperCase(LevelName(e.level)) + "] " + "[" + e.domain + "] ";
    assert s == head + e.message;
  }

  /** Without a timestamp, the line opens with the bracketed upper-case level and the bracketed domain. */
  lemma LineOpensWithLevelAndDomain(e: Entry)
    ensures var tag := UpperCase(LevelName(e.level));
      var s := FormatMessage(e, false);
      |s| >= |tag| + 6 + |e.domain| &&
      s[..|tag| + 6 + |e.domain|] == "[" + tag + "] [" + e.domain + "] "
  {
    var tag := UpperCase(LevelName(e.level));
    var opening := "[" + tag + "] [" + e.domain + "] ";
    var rest := e.message + (if e.data.Some? then " | Data: " + e.data.value else "");
    assert FormatMessage(e, false) == opening + rest;
    assert |opening| == |tag| + 6 + |e.domain|;
  }

  /** No `]` in the text: `toISOString` writes only digits, `-`, `:`, `.`, `T` and `Z`. */
  predicate NoCloseBracket(s: string)
  {
    forall i :: 0 <= i < |s| ==> s[i] != ']'
  }

  /**
   * With the timestamp on, the first `]` of the line closes the timestamp,
   * and the level tag starts three characters later.
   */
  lemma TimestampedOpening(e: Entry)
    requires NoCloseBracket(e.timestamp)
    ensures var s := FormatMessage(e, true);
      |s| > |e.timestamp| + 4 &&
      (forall k :: 0 <= k <= |e.timestamp| ==> s[k] != ']') &&
      s[|e.timestamp| + 1] == ']' &&
      s[|e.timestamp| + 4] == UpperCase(LevelName(e.level))[0]
  {
    LevelTags(e.level);
    TimestampOnlyPrefixes(e);
    LineOpensWithLevelAndDomain(e);
    var s := FormatMessage(e, true);
    var rest := FormatMessage(e, false);
    var tag := UpperCase(LevelName(e.level));
    var opening := "[" + tag + "] [" + e.domain + "] ";
    assert rest[1] == opening[1] == tag[0];
    assert s == "[" + e.timestamp + "] " + rest;
    assert forall k :: 1 <= k <= |e.timestamp| ==> s[k] == e.timestamp[k - 1];
  }

  /**
   * Entries of different levels never produce the same line, for timestamps
   * as `toISOString` writes them: the first `]` fixes where the level tag
   * starts, and the tags' first letters differ.
   */
  lemma LevelsTellLinesApart(a: Entry, b: Entry, enableTimestamp: bool)
    requires a.level != b.level
    requires NoCloseBracket(a.timestamp) && NoCloseBracket(b.timestamp)
    ensures FormatMessage(a, enableTimestamp) != FormatMessage(b, enableTimestamp)
  {
    LevelTags(a.level);
    LevelTags(b.level);
    var sa := FormatMessage(a, enableTimestamp);
    var sb := FormatMessage(b, enableTimestamp);
    if enableTimestamp {
      TimestampedOpening(a);
      TimestampedOpening(b);
      var na := |a.timestamp|;
      var nb := |b.timestamp|;
      if na < nb {
        assert sa[na + 1] != sb[na + 1];
      } else if nb < na {
        assert sa[nb + 1] != sb[nb + 1];
      } else {
        assert sa[na + 4] != sb[na + 4];
      }
    } else {
      LineOpensWithLevelAndDomain(a);
      LineOpensWithLevelAndDomain(b);
      var ta := UpperCase(LevelName(a.level));
      var tb := UpperCase(LevelName(b.level));
      assert sa[1] == ("[" + ta + "] [" + a.domain + "] ")[1] == ta[0];
      assert sb[1] == ("[" + tb + "] [" + b.domain + "] ")[1] == tb[0];
    }
  }

  class Logger {
    var utils: U.LoggerUtils
    var domain: Domain

    /** `new Logger(domain, utils?)`: without utils it gets a fresh default filter, which admits everything. */
    constructor(domain: Domain, utils: Option<U.LoggerUtils>)
      ensures this.domain == domain
      ensures utils.Some? ==> this.utils == utils.value
      ensures utils.None? ==> fresh(this.utils)
      ensures utils.None? ==> this.utils.config == U.Merged(U.NoOptions) &&
                              this.utils.loggerConfig == U.Initialized(this.utils.config)
      ensures utils.None? ==> this.utils.loggerConfig.enableConsole &&
                              forall l, d :: this.utils.ShouldLog(l, d)
    {
      this.domain := domain;
      if utils.Some? {
        this.utils := utils.value;
      } else {
        var created := new U.LoggerUtils(U.NoOptions);
        forall l, d ensures created.ShouldLog(l, d) {
          U.InitializedFilter(created.config, l, d);
        }
        this.utils := created;
      }
    }

    /** `createLogEntry`, with the entry's date given as its ISO text. */
    function CreateLogEntry(level: Level, message: string, data: Option<string>, timestamp: string): (e: Entry)
      reads this
      ensures e.domain == domain && e.level == level && e.message == message && e.data == data
    {
      Entry(level, domain, message, timestamp, data)
    }

    /** `shouldLog`: the filter's decision for this logger's domain. */
    predicate ShouldLog(level: Level)
      reads this, utils
      ensures ShouldLog(level) ==> utils.IsDomainEnabled(domain)
      ensures ShouldLog(level) <==> U.Admits(utils.config, utils.loggerConfig, level, domain)
    {
      utils.ShouldLog(level, domain)
    }

    /** What `log(level, message, data)` writes to the console, if anything. */
    ghost function Emitted(level: Level, message: string, data: Option<string>, timestamp: string): (out: Option<Emission>)
      reads this, utils
      ensures out.Some? <==> ShouldLog(level) && utils.loggerConfig.enableConsole
      ensures out.Some? ==> out.value.channel == ChannelFor(level)
      ensures out.Some? ==>
        out.value.line == FormatMessage(Entry(level, domain, message, timestamp, data), utils.loggerConfig.enableTimestamp)
    {
      if ShouldLog(level) && utils.loggerConfig.enableConsole then
        Some(Emission(ChannelFor(level), FormatMessage(CreateLogEntry(level, message, data, timestamp),
                                                       utils.loggerConfig.enableTimestamp)))
      else
        None
    }

    /** `output`: nothing while the console is off, otherwise the formatted line on the level's channel. */
    method Output(e: Entry) returns (out: Option<Emission>)
      ensures out.None? <==> !utils.loggerConfig.enableConsole
      ensures out.Some? ==> out.value == Emission(ChannelFor(e.level), FormatMessage(e, utils.loggerConfig.enableTimestamp))
    {
      var config := utils.GetConfig();
      if !config.enableConsole {
        return None;
      }
      var formatted := FormatMessage(e, config.enableTimestamp);
      var channel := match e.level
        case Error => ErrorChannel
        case Warning => WarnChannel
        case Info => InfoChannel
        case Debug => DebugChannel;
      out := Some(Emission(channel, formatted));
    }

    /** `log`: filtered entries are dropped before they reach the console. */
    method Log(level: Level, message: string, data: Option<string>, timestamp: string) returns (out: Option<Emission>)
      ensures out == Emitted(level, message, data, timestamp)
      ensures !ShouldLog(level) ==> out.None?
    {
      if !ShouldLog(level) {
        return None;
      }
      var entry := CreateLogEntry(level, message, data, timestamp);
      out := Output(entry);
    }

    /** `error`. */
    method LogError(message: string, data: Option<string>, timestamp: string) returns (out: Option<Emission>)
      ensures out == Emitted(U.Error, message, data, timestamp)
    {
      out := Log(U.Error, message, data, timestamp);
    }

    /** `warning`. */
    method LogWarning(message: string, data: Option<string>, timestamp: string) returns (out: Option<Emission>)
      ensures out == Emitted(U.Warning, message, data, timestamp)
    {
      out := Log(U.Warning, message, data, timestamp);
    }

    /** `info`. */
    method LogInfo(message: string, data: Option<string>, timestamp: string) returns (out: Option<Emission>)
      ensures out == Emitted(U.Info, message, data, timestamp)
    {
      out := Log(U.Info, message, data, timestamp);
    }

    /** `debug`. */
    method LogDebug(message: string, data: Option<string>, timestamp: string) returns (out: Option<Emission>)
      ensures out == Emitted(U.Debug, message, data, timestamp)
    {
      out := Log(U.Debug, message, data, timestamp);
    }

    /** `getDomain`. */
    function GetDomain(): (d: Domain)
      reads this
      ensures d == domain && CreateLogEntry(U.Info, [], None, []).domain == d
    {
      domain
    }

    /** `getUtils`: the shared filter object itself. */
    function GetUtils(): (u: U.LoggerUtils)
      reads this
      ensures u == utils
    {
      utils
    }

    /** `setDomain`: later entries carry the new domain and are filtered by it. */
    method SetDomain(d: Domain)
      modifies this`domain
      ensures domain == d && utils == old(utils)
      ensures forall level, message, data, timestamp ::
        CreateLogEntry(level, message, data, timestamp).domain == d
    {
      domain := d;
    }
  }
}
