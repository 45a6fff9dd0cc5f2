/**
 * The logging facility (namespace logger): log levels, error codes, the text layout of
 * a log line, the log objects, and the Logger that filters a log and hands it to its
 * handlers. Output streams are recorded as the text written to them, and exit(1) as a
 * flag.
 */
module Logging {
  import opened Util

  // ==================================================================
  // Levels
  // ==================================================================

  /** Log::log_level, in declaration order. */
  datatype Level = Trace | Debug | Info | Warn | Error | Fatal

  /** The enumerator's value: its position in the declaration. */
  function Rank(l: Level): (r: nat)
    ensures r < 6
    ensures l == Trace <==> r == 0
    ensures l == Fatal <==> r == 5
  {
    match l
    case Trace => 0
    case Debug => 1
    case Info => 2
    case Warn => 3
    case Error => 4
    case Fatal => 5
  }

  /** `a < b` on log levels, as the filter compares them. */
  predicate Below(a: Level, b: Level)
  {
    Rank(a) < Rank(b)
  }

  lemma LevelsStrictlyOrdered()
    ensures Below(Trace, Debug) && Below(Debug, Info) && Below(Info, Warn)
    ensures Below(Warn, Error) && Below(Error, Fatal)
  {
  }

  /** Below is a strict total order on the six levels. */
  lemma BelowIsStrictTotalOrder(a: Level, b: Level, c: Level)
    ensures !Below(a, a)
    ensures Below(a, b) && Below(b, c) ==> Below(a, c)
    ensures a != b ==> Below(a, b) || Below(b, a)
    ensures Below(a, b) ==> !Below(b, a)
  {
  }

  /** Log::levelToString: the bracketed level tag. */
  function LevelToString(l: Level): (r: string)
    ensures 6 <= |r| <= 7 && r[0] == '[' && r[|r| - 1] == ']'
    ensures forall k :: 0 < k < |r| - 1 ==> r[k] != ']' && r[k] != '['
  {
    match l
    case Trace => "[Trace]"
    case Debug => "[Debug]"
    case Info => "[Info]"
    case Warn => "[Warn]"
    case Error => "[Error]"
    case Fatal => "[Fatal]"
  }

  /** The level whose tag starts `s`, if any; the inverse of LevelToString. */
  function TagLevel(s: string): (r: Option<Level>)
  {
    if |s| < 2 then Absent
    else
      var l := match s[1]
        case 'T' => Trace
        case 'D' => Debug
        case 'I' => Info
        case 'W' => Warn
        case 'E' => Error
        case _ => Fatal;
      var tag := LevelToString(l);
      if tag <= s then Present(l) else Absent
  }

  datatype Option<T> = Absent | Present(value: T)

  /** A tag is recognised at the head of any text, so no two levels share a tag. */
  lemma TagLevelOfTag(l: Level, rest: string)
    ensures TagLevel(LevelToString(l) + rest) == Present(l)
  {
    var s := LevelToString(l) + rest;
    assert s[..|LevelToString(l)|] == LevelToString(l);
  }

  lemma LevelToStringInjective(a: Level, b: Level)
    ensures LevelToString(a) == LevelToString(b) ==> a == b
  {
    if LevelToString(a) == LevelToString(b) {
      TagLevelOfTag(a, "");
      TagLevelOfTag(b, "");
      assert LevelToString(a) + "" == LevelToString(a);
      assert LevelToString(b) + "" == LevelToString(b);
    }
  }

  // ==================================================================
  // Error codes and their hexadecimal rendering
  // ==================================================================

  newtype int32 = x: int | -0x8000_0000 <= x < 0x8000_0000

  /** logger::error_code */
  datatype ErrorCode =
    | ErrNone | ErrAllocationFailure | IerrNvalidPtr | ErrOutOfBound
    | ErrIoError | ErrParseError
  {
    /** The enumerator's value: consecutive from 0, then 0x1000 and 0x2000. */
    function Value(): (v: int32)
      ensures this == ErrNone <==> v == 0
      ensures v < 0x1000 <==> this in {ErrNone, ErrAllocationFailure, IerrNvalidPtr, ErrOutOfBound}
    {
      match this
      case ErrNone => 0x0000
      case ErrAllocationFailure => 1
      case IerrNvalidPtr => 2
      case ErrOutOfBound => 3
      case ErrIoError => 0x1000
      case ErrParseError => 0x2000
    }
  }

  lemma ErrorCodeValuesDistinct(a: ErrorCode, b: ErrorCode)
    ensures a.Value() == b.Value() ==> a == b
  {
  }

  /** `(int)code` as `std::hex` prints it: a negative int shows its 32-bit two's complement. */
  function Unsigned32(code: int32): (u: nat)
    ensures u < 0x1_0000_0000
    ensures code >= 0 ==> u == code as int
    ensures code < 0 ==> u == code as int + 0x1_0000_0000
  {
    if code < 0 then code as int + 0x1_0000_0000 else code as int
  }

  lemma Unsigned32Injective(a: int32, b: int32)
    ensures Unsigned32(a) == Unsigned32(b) ==> a == b
  {
  }

  predicate IsHexDigit(c: char)
  {
    '0' <= c <= '9' || 'a' <= c <= 'f'
  }

  function HexDigit(d: nat): (c: char)
    requires d < 16
    ensures IsHexDigit(c)
  {
    "0123456789abcdef"[d]
  }

  function DigitValue(c: char): (d: nat)
    requires IsHexDigit(c)
    ensures d < 16
  {
    if c <= '9' then (c - '0') as nat else (c - 'a') as nat + 10
  }

  /** `std::hex << n`: lower-case digits, no prefix, no padding. */
  function Hex(n: nat): (r: string)
    ensures |r| >= 1
    ensures forall k :: 0 <= k < |r| ==> IsHexDigit(r[k])
  {
    if n < 16 then [HexDigit(n)] else Hex(n / 16) + [HexDigit(n % 16)]
  }

  /** The value of a string of hexadecimal digits; the inverse of Hex. */
  function ParseHex(s: string): (r: nat)
    requires forall k :: 0 <= k < |s| ==> IsHexDigit(s[k])
  {
    if s == [] then 0 else ParseHex(s[..|s| - 1]) * 16 + DigitValue(s[|s| - 1])
  }

  lemma {:induction false} ParseHexOfHex(n: nat)
    ensures ParseHex(Hex(n)) == n
  {
    var r := Hex(n);
    DigitValueOfHexDigit(n % 16);
    if n < 16 {
      assert r[..0] == [];
    } else {
      assert r[..|r| - 1] == Hex(n / 16);
      ParseHexOfHex(n / 16);
    }
  }

  lemma DigitValueOfHexDigit(d: nat)
    requires d < 16
    ensures DigitValue(HexDigit(d)) == d
  {
  }

  /** Hex never pads: its first digit is '0' only for zero itself. */
  lemma {:induction false} HexHasNoLeadingZero(n: nat)
    ensures Hex(n)[0] == '0' <==> n == 0
    ensures Hex(n) == "0" <==> n == 0
  {
    if n >= 16 {
      HexHasNoLeadingZero(n / 16);
    }
  }

  // ==================================================================
  // Configuration
  // ==================================================================

  /** LoggerConfig, with the constructor's default arguments. */
  datatype LoggerConfig = LoggerConfig(
    tsType: TimestampType := Partial,
    minimumLevel: Level := Trace,
    logToFile: bool := false,
    useColor: bool := false,
    enabled: bool := true)

  /** `LoggerConfig()`: partial timestamps, every level, no file, no colour, enabled. */
  function DefaultConfig(): (c: LoggerConfig)
    ensures c.tsType == Partial && c.minimumLevel == Trace
    ensures !c.logToFile && !c.useColor && c.enabled
  {
    LoggerConfig()
  }

  // ==================================================================
  // Message layout
  // ==================================================================

  /** The optional timestamp and its separating space. */
  function Prefix(config: LoggerConfig, clockText: string): (r: string)
  {
    if config.tsType != None then Timestamp(config.tsType, clockText) + " " else ""
  }

  /** Log::message: [timestamp + " "] + level tag + " " + body. */
  function MessageText(config: LoggerConfig, clockText: string, level: Level, body: string): (r: string)
    ensures config.tsType == None ==> r == LevelToString(level) + " " + body
    ensures config.tsType != None ==> r == clockText + " " + LevelToString(level) + " " + body
  {
    Prefix(config, clockText) + LevelToString(level) + " " + body
  }

  /** ErrorLog::messageImpl: the error text, then "\n\t" and the description if there is one. */
  function ErrorBody(error: string, description: string): (r: string)
    ensures error <= r
    ensures r == error <==> description == ""
    ensures description != "" ==> r[|error|..] == "\n\t" + description
  {
    if description != "" then error + "\n\t" + description else error
  }

  /** ErrorLog::message: the code, in brackets, follows the level tag with no space before it. */
  function ErrorMessageText(config: LoggerConfig, clockText: string, level: Level, code: int32, body: string): (r: string)
  {
    Prefix(config, clockText) + LevelToString(level) + "[0x" + Hex(Unsigned32(code)) + "] " + body
  }

  /** Reads back the level and the body of a line written without a timestamp. */
  function ParseMessage(s: string): (r: Option<(Level, string)>)
  {
    match TagLevel(s)
    case Absent => Absent
    case Present(l) =>
      var n := |LevelToString(l)|;
      if n < |s| && s[n] == ' ' then Present((l, s[n + 1..])) else Absent
  }

  /** The number of hexadecimal digits at the head of `s`. */
  function HexSpan(s: string): (n: nat)
    ensures n <= |s|
    ensures forall k :: 0 <= k < n ==> IsHexDigit(s[k])
    ensures n < |s| ==> !IsHexDigit(s[n])
  {
    if s == [] || !IsHexDigit(s[0]) then 0 else 1 + HexSpan(s[1..])
  }

  /** Reads back the bracketed code and the body that follow the level tag of an error line. */
  function ParseCodeAndBody(rest: string): (r: Option<(nat, string)>)
  {
    if |rest| < 3 || rest[0] != '[' || rest[1] != '0' || rest[2] != 'x' then Absent
    else ParseDigitsAndBody(rest[3..])
  }

  /** Reads back the hexadecimal digits, the closing "] " and the body after "[0x". */
  function ParseDigitsAndBody(digits: string): (r: Option<(nat, string)>)
  {
    var n := HexSpan(digits);
    if n + 2 <= |digits| && digits[n] == ']' && digits[n + 1] == ' ' then Present((ParseHex(digits[..n]), digits[n + 2..]))
    else Absent
  }

  /** Reads back the level, the unsigned code and the body of an error line written without a timestamp. */
  function ParseErrorMessage(s: string): (r: Option<(Level, nat, string)>)
  {
    match TagLevel(s)
    case Absent => Absent
    case Present(l) =>
      match ParseCodeAndBody(s[|LevelToString(l)|..])
      case Absent => Absent
      case Present(cb) => Present((l, cb.0, cb.1))
  }

  lemma {:induction false} HexSpanStopsAt(digits: string, rest: string)
    requires forall k :: 0 <= k < |digits| ==> IsHexDigit(digits[k])
    requires rest != [] && !IsHexDigit(rest[0])
    ensures HexSpan(digits + rest) == |digits|
  {
    if digits != [] {
      assert (digits + rest)[1..] == digits[1..] + rest;
      HexSpanStopsAt(digits[1..], rest);
    }
  }

  /** A plain log line without a timestamp determines its level and its body. */
  lemma MessageRoundTrip(config: LoggerConfig, clockText: string, level: Level, body: string)
    requires config.tsType == None
    ensures ParseMessage(MessageText(config, clockText, level, body)) == Present((level, body))
  {
    var tag := LevelToString(level);
    var s := MessageText(config, clockText, level, body);
    assert s == tag + (" " + body);
    TagLevelOfTag(level, " " + body);
    assert s[|tag|] == ' ';
    assert s[|tag| + 1..] == body;
  }

  /** The "[0x" opening is recognised and stripped. */
  lemma CodeAndBodyRoundTrip(hex: string, body: string)
    ensures ParseCodeAndBody("[0x" + hex + "] " + body) == ParseDigitsAndBody(hex + ("] " + body))
  {
    var s := "[0x" + hex + "] " + body;
    assert s[0] == '[' && s[1] == '0' && s[2] == 'x';
    assert s[3..] == hex + ("] " + body);
  }

  lemma DigitsAndBodyRoundTrip(hex: string, body: string)
    requires forall k :: 0 <= k < |hex| ==> IsHexDigit(hex[k])
    ensures ParseDigitsAndBody(hex + ("] " + body)) == Present((ParseHex(hex), body))
  {
    var tail := "] " + body;
    var digits := hex + tail;
    HexSpanStopsAt(hex, tail);
    assert tail[0] == ']' && tail[1] == ' ' && tail[2..] == body;
    assert digits[..|hex|] == hex && digits[|hex|..] == tail;
    assert digits[|hex| + 2..] == tail[2..];
  }

  /** An error line without a timestamp determines its level, its code and its body. */
  lemma ErrorMessageRoundTrip(config: LoggerConfig, clockText: string, level: Level, code: int32, body: string)
    requires config.tsType == None
    ensures ParseErrorMessage(ErrorMessageText(config, clockText, level, code, body))
         == Present((level, Unsigned32(code), body))
  {
    var hex := Hex(Unsigned32(code));
    var rest := "[0x" + hex + "] " + body;
    ErrorLineSplitsAtTag(config, clockText, level, code, body);
    CodeAndBodyRoundTrip(hex, body);
    DigitsAndBodyRoundTrip(hex, body);
    ParseHexOfHex(Unsigned32(code));
  }

  /** Without a timestamp, what follows the level tag of an error line is the bracketed code and the body. */
  lemma ErrorLineSplitsAtTag(config: LoggerConfig, clockText: string, level: Level, code: int32, body: string)
    requires config.tsType == None
    ensures var rest := "[0x" + Hex(Unsigned32(code)) + "] " + body;
            ParseErrorMessage(ErrorMessageText(config, clockText, level, code, body))
            == (match ParseCodeAndBody(rest)
                case Absent => Absent
                case Present(cb) => Present((level, cb.0, cb.1)))
  {
    var tag := LevelToString(level);
    var rest := "[0x" + Hex(Unsigned32(code)) + "] " + body;
    var s := ErrorMessageText(config, clockText, level, code, body);
    assert s == tag + rest;
    TagLevelOfTag(level, rest);
    assert s[|tag|..] == rest;
  }

  // ==================================================================
  // Log objects
  // ==================================================================

  /**
   * A log: Log, StringLog and ErrorLog in one class. `isError` tells an ErrorLog from a
   * StringLog; a StringLog has code 0 and an empty description, which it never shows.
   */
  class Log {
    var level: Level
    var str: string
    const isError: bool
    var code: int32
    var description: string

    /** StringLog(level = Trace): an empty message. */
    constructor Empty(level: Level := Trace)
      ensures this.level == level && str == "" && !isError
      ensures code == 0 && description == ""
    {
      this.level, str, isError := level, "", false;
      code, description := 0, "";
    }

    /** StringLog(message const&, level = Trace). */
    constructor (message: string, level: Level := Trace)
      ensures this.level == level && str == message && !isError
      ensures code == 0 && description == ""
    {
      this.level, str, isError := level, message, false;
      code, description := 0, "";
    }

    /** StringLog(message&&): the base is default-constructed, so the level is Trace. */
    constructor FromTemporary(message: string)
      ensures level == Trace && str == message && !isError
      ensures code == 0 && description == ""
    {
      level, str, isError := Trace, message, false;
      code, description := 0, "";
    }

    /**
     * StringLog(StringLog&&): only the text moves; the level is Trace whatever `other` had.
     * An ErrorLog passed here is sliced: its code and description are not carried over.
     */
    constructor MoveString(other: Log)
      ensures level == Trace && str == other.str && !isError
      ensures code == 0 && description == ""
    {
      level, str, isError := Trace, other.str, false;
      code, description := 0, "";
    }

    /** ErrorLog(error, code = ERR_NONE, level = Error, description = ""). */
    constructor ErrorLog(error: string, code: int32 := ErrNone.Value(), level: Level := Error, description: string := "")
      ensures this.level == level && str == error && isError
      ensures this.code == code && this.description == description
    {
      this.level, str, isError := level, error, true;
      this.code, this.description := code, description;
    }

    /** ErrorLog(ErrorLog&&): text, code and description move; the level is Trace. */
    constructor MoveError(other: Log)
      requires other.isError
      ensures level == Trace && str == other.str && isError
      ensures code == other.code && description == other.description
    {
      level, str, isError := Trace, other.str, true;
      code, description := other.code, other.description;
    }

    /** Log::level(level) */
    method SetLevel(l: Level)
      modifies this
      ensures level == l && str == old(str) && code == old(code) && description == old(description)
    {
      level := l;
    }

    /** StringLog::string(message) */
    method SetString(message: string)
      modifies this
      ensures str == message && level == old(level) && code == old(code) && description == old(description)
    {
      str := message;
    }

    /** messageImpl(): the text of a StringLog; for an ErrorLog, the text and its description. */
    function MessageImpl(): (r: string)
      reads this
      ensures str <= r
      ensures !isError ==> r == str
      ensures isError ==> r == ErrorBody(str, description)
    {
      if isError then ErrorBody(str, description) else str
    }

    /** message(config): Log::message, or ErrorLog::message for an ErrorLog. */
    function Message(config: LoggerConfig, clockText: string): (r: string)
      reads this
      ensures !isError ==> r == MessageText(config, clockText, level, str)
      ensures isError ==> r == ErrorMessageText(config, clockText, level, code, ErrorBody(str, description))
    {
      if isError then ErrorMessageText(config, clockText, level, code, MessageImpl())
      else MessageText(config, clockText, level, MessageImpl())
    }
  }

  // ==================================================================
  // Handlers and the Logger
  // ==================================================================

  /** TerminalLogHandler::colorize: one ANSI colour sequence per level. */
  function Colour(l: Level): (r: string)
    ensures |r| == 8 && r[0] == '\U{1B}' && r[1] == '[' && r[7] == 'm'
  {
    match l
    case Trace => "\U{1B}[39;90m"
    case Debug => "\U{1B}[39;36m"
    case Info => "\U{1B}[39;34m"
    case Warn => "\U{1B}[39;33m"
    case Error => "\U{1B}[39;31m"
    case Fatal => "\U{1B}[39;35m"
  }

  /** No two levels are shown in the same colour. */
  lemma ColoursDistinct(a: Level, b: Level)
    ensures Colour(a) == Colour(b) ==> a == b
  {
  }

  const ColourReset := "\U{1B}[0m"

  const FatalNotice := "\n\nLe programme a rencontr\U{E9} une erreur fatale, et doit se fermer.\n"

  /** What TerminalLogHandler::log writes: the line, wrapped in colour codes when enabled. */
  function TerminalText(config: LoggerConfig, level: Level, message: string): (r: string)
    ensures !config.useColor ==> r == message + "\n"
    ensures config.useColor ==> r == Colour(level) + message + "\n" + ColourReset
    ensures var start := if config.useColor then |Colour(level)| else 0;
            start + |message| + 1 <= |r| && r[start..start + |message| + 1] == message + "\n"
  {
    (if config.useColor then Colour(level) else "") + message + "\n" + (if config.useColor then ColourReset else "")
  }

  /** `n` copies of `t`, one after the other. */
  function Repeat(t: string, n: nat): (r: string)
  {
    if n == 0 then "" else Repeat(t, n - 1) + t
  }

  /** A log gets past the filter of Logger::operator(). */
  predicate Admits(config: LoggerConfig, level: Level)
    ensures Admits(config, level) ==> config.enabled
    ensures Admits(config, level) ==> level == config.minimumLevel || Below(config.minimumLevel, level)
    ensures config.enabled && config.minimumLevel == Trace ==> Admits(config, level)
  {
    config.enabled && !Below(level, config.minimumLevel)
  }

  /** The filter is a threshold: when a level passes, every higher level passes too. */
  lemma AdmitsUpwardClosed(config: LoggerConfig, a: Level, b: Level)
    requires Admits(config, a) && Below(a, b)
    ensures Admits(config, b)
  {
  }

  /** What dispatching one log appends to standard output. */
  function ScreenOutput(config: LoggerConfig, handlers: nat, level: Level, message: string): (r: string)
  {
    if !Admits(config, level) then ""
    else Repeat(TerminalText(config, level, message), handlers) + (if level == Fatal then FatalNotice else "")
  }

  /**
   * The state of FileLogHandler's stream m_of: as default-constructed (it reports good()
   * but no file is open), failed after a write to that unopened stream, or open.
   */
  datatype FileState = Unopened | Failed | Opened

  /**
   * FileLogHandler::log as written: it calls open() only when the stream is not good(),
   * which the default-constructed stream is, so the first line goes to no file and sets
   * the stream's bad bit; the next call opens the file. The result is the next state and
   * the text that reaches the file.
   */
  function FileLog(s: FileState, line: string): (r: (FileState, string))
  {
    match s
    case Unopened => (Failed, "")
    case Failed => (Opened, line + "\n")
    case Opened => (Opened, line + "\n")
  }

  /** FileLogHandler::log as evidently intended: open the file whenever it is not open yet. */
  function FileLogIntended(s: FileState, line: string): (r: (FileState, string))
  {
    (Opened, line + "\n")
  }

  /** Each line followed by a newline, in order: what a file holding `lines` contains. */
  function Lines(lines: seq<string>): (r: string)
  {
    if lines == [] then "" else Lines(lines[..|lines| - 1]) + (lines[|lines| - 1] + "\n")
  }

  /** The state and the file contents after the file handler receives `lines`, as written. */
  function FileRun(s: FileState, lines: seq<string>): (r: (FileState, string))
  {
    if lines == [] then (s, "")
    else
      var before := FileRun(s, lines[..|lines| - 1]);
      var after := FileLog(before.0, lines[|lines| - 1]);
      (after.0, before.1 + after.1)
  }

  /** The same, with the file opened on first use. */
  function FileRunIntended(s: FileState, lines: seq<string>): (r: (FileState, string))
  {
    if lines == [] then (s, "")
    else
      var before := FileRunIntended(s, lines[..|lines| - 1]);
      var after := FileLogIntended(before.0, lines[|lines| - 1]);
      (after.0, before.1 + after.1)
  }

  /** As written, the file receives every line handed to the file handler except the first. */
  lemma {:induction false} FileRunLosesOnlyFirst(lines: seq<string>)
    requires lines != []
    ensures FileRun(Unopened, lines).0 != Unopened
    ensures FileRun(Unopened, lines).1 == Lines(lines[1..])
  {
    var init := lines[..|lines| - 1];
    if init == [] {
      assert lines[1..] == [];
    } else {
      FileRunLosesOnlyFirst(init);
      assert lines[1..][..|lines[1..]| - 1] == init[1..];
    }
  }

  /** With the file opened on first use, the file receives every line, in order. */
  lemma {:induction false} IntendedFileRunWritesEveryLine(lines: seq<string>)
    ensures FileRunIntended(Unopened, lines).1 == Lines(lines)
  {
    if lines != [] {
      IntendedFileRunWritesEveryLine(lines[..|lines| - 1]);
    }
  }

  /** Finding: the first line logged to file never reaches the file. */
  lemma FirstFileLineLost()
    ensures FileRun(Unopened, ["a"]).1 == ""
    ensures FileRunIntended(Unopened, ["a"]).1 == "a\n"
  {
    assert ["a"][..0] == [];
  }

  /**
   * What dispatching one log does at the file handler: the stream's next state, and the
   * text that reaches the file.
   */
  function FileOutput(config: LoggerConfig, file: FileState, level: Level, message: string): (r: (FileState, string))
  {
    if Admits(config, level) && config.logToFile then FileLog(file, message) else (file, "")
  }

  /** The filter: a disabled logger, or a level below the minimum, writes nothing anywhere. */
  lemma FilteredLogWritesNothing(config: LoggerConfig, handlers: nat, file: FileState, level: Level, message: string)
    requires !config.enabled || Below(level, config.minimumLevel)
    ensures ScreenOutput(config, handlers, level, message) == ""
    ensures FileOutput(config, file, level, message) == (file, "")
  {
  }

  /**
   * A log that passes reaches every terminal handler, and the file handler exactly when
   * file logging is on; the file receives it unless the stream was never used before.
   */
  lemma AdmittedLogReachesHandlers(config: LoggerConfig, handlers: nat, file: FileState, level: Level, message: string, k: nat)
    requires Admits(config, level) && k < handlers
    ensures var t := TerminalText(config, level, message);
            Repeat(t, k) + t <= ScreenOutput(config, handlers, level, message)
    ensures FileOutput(config, file, level, message).0 != file ==> config.logToFile
    ensures FileOutput(config, file, level, message).1 != "" <==> config.logToFile && file != Unopened
  {
    RepeatPrefix(TerminalText(config, level, message), handlers, k);
  }

  /** An admitted log shows one line per terminal handler, then the fatal notice for a Fatal log. */
  lemma AdmittedScreenOutput(config: LoggerConfig, handlers: nat, level: Level, message: string)
    requires Admits(config, level)
    ensures ScreenOutput(config, handlers, level, message)
         == Repeat(TerminalText(config, level, message), handlers) + (if level == Fatal then FatalNotice else "")
  {
  }

  lemma AppendAssociates(a: string, b: string, c: string)
    ensures (a + b) + c == a + (b + c)
  {
  }

  /** The first k + 1 copies of t start every longer repetition. */
  lemma {:induction false} RepeatPrefix(t: string, n: nat, k: nat)
    requires k < n
    ensures Repeat(t, k) + t <= Repeat(t, n)
  {
    if k < n - 1 {
      RepeatPrefix(t, n - 1, k);
    }
  }

  /**
   * The Logger singleton, as an explicit object: its configuration, the number of
   * terminal handlers in m_loggers (all of which write with this configuration), the
   * state of the file handler's stream, what has been written to standard output, and
   * what has reached the log file.
   */
  class Logger {
    var config: LoggerConfig
    var handlers: nat
    var screen: string
    var file: FileState
    var logFile: string
    var exited: bool

    /** Logger(): default configuration and one terminal handler. */
    constructor ()
      ensures config == DefaultConfig() && handlers == 1
      ensures file == Unopened && screen == "" && logFile == "" && !exited
    {
      config, handlers, file := LoggerConfig(), 1, Unopened;
      screen, logFile, exited := "", "", false;
    }

    /** operator()(Log const&): filter, dispatch to every handler, then stop on Fatal. */
    method Dispatch(log: Log, clockText: string)
      requires !exited
      modifies this
      ensures config == old(config) && handlers == old(handlers)
      ensures screen == old(screen) + ScreenOutput(config, handlers, log.level, log.Message(config, clockText))
      ensures file == FileOutput(config, old(file), log.level, log.Message(config, clockText)).0
      ensures logFile == old(logFile) + FileOutput(config, old(file), log.level, log.Message(config, clockText)).1
      ensures exited <==> Admits(config, log.level) && log.level == Fatal
    {
      var message := log.Message(config, clockText);
      Deliver(log.level, message);
    }

    /**
     * The body of operator() once the log is rendered as `message` (every handler
     * renders it alike, with the logger's configuration).
     */
    method Deliver(level: Level, message: string)
      requires !exited
      modifies this
      ensures config == old(config) && handlers == old(handlers)
      ensures screen == old(screen) + ScreenOutput(config, handlers, level, message)
      ensures file == FileOutput(config, old(file), level, message).0
      ensures logFile == old(logFile) + FileOutput(config, old(file), level, message).1
      ensures exited <==> Admits(config, level) && level == Fatal
    {
      if !config.enabled || Below(level, config.minimumLevel) {
        FilteredLogWritesNothing(config, handlers, file, level, message);
        return;
      }
      ghost var before := screen;
      WriteToTerminals(TerminalText(config, level, message));
      if config.logToFile {
        var (next, written) := FileLog(file, message);
        file, logFile := next, logFile + written;
      }
      var notice := if level == Fatal then FatalNotice else "";
      screen := screen + notice;
      exited := level == Fatal;
      AdmittedScreenOutput(config, handlers, level, message);
      AppendAssociates(before, Repeat(TerminalText(config, level, message), handlers), notice);
    }

    /** The loop over m_loggers: each terminal handler writes `text` once, in turn. */
    method WriteToTerminals(text: string)
      modifies this
      ensures screen == old(screen) + Repeat(text, handlers)
      ensures config == old(config) && handlers == old(handlers)
      ensures file == old(file) && logFile == old(logFile) && exited == old(exited)
    {
      var i := 0;
      while i < handlers
        invariant 0 <= i <= handlers
        invariant config == old(config) && handlers == old(handlers)
        invariant file == old(file) && logFile == old(logFile) && exited == old(exited)
        invariant screen == old(screen) + Repeat(text, i)
      {
        screen := screen + text;
        i := i + 1;
      }
    }

    /** operator()(msg, level = Trace): the same as dispatching StringLog(msg, level). */
    method DispatchMessage(msg: string, clockText: string, level: Level := Trace)
      requires !exited
      modifies this
      ensures config == old(config) && handlers == old(handlers)
      ensures screen == old(screen) + ScreenOutput(config, handlers, level, MessageText(config, clockText, level, msg))
      ensures file == FileOutput(config, old(file), level, MessageText(config, clockText, level, msg)).0
      ensures logFile == old(logFile) + FileOutput(config, old(file), level, MessageText(config, clockText, level, msg)).1
      ensures exited <==> Admits(config, level) && level == Fatal
    {
      if !config.enabled {
        return;
      }
      var tmp := new Log(msg, level);
      Dispatch(tmp, clockText);
    }

    /** Logger::log(Log const&): skip when disabled, otherwise dispatch. */
    method LogEntry(log: Log, clockText: string)
      requires !exited
      modifies this
      ensures config == old(config) && handlers == old(handlers)
      ensures screen == old(screen) + ScreenOutput(config, handlers, log.level, log.Message(config, clockText))
      ensures file == FileOutput(config, old(file), log.level, log.Message(config, clockText)).0
      ensures logFile == old(logFile) + FileOutput(config, old(file), log.level, log.Message(config, clockText)).1
      ensures exited <==> Admits(config, log.level) && log.level == Fatal
    {
      if !config.enabled {
        return;
      }
      Dispatch(log, clockText);
    }

    /** Logger::log(msg, level = Trace): skip when disabled, otherwise dispatch the string. */
    method LogMessage(msg: string, clockText: string, level: Level := Trace)
      requires !exited
      modifies this
      ensures config == old(config) && handlers == old(handlers)
      ensures screen == old(screen) + ScreenOutput(config, handlers, level, MessageText(config, clockText, level, msg))
      ensures file == FileOutput(config, old(file), level, MessageText(config, clockText, level, msg)).0
      ensures logFile == old(logFile) + FileOutput(config, old(file), level, MessageText(config, clockText, level, msg)).1
      ensures exited <==> Admits(config, level) && level == Fatal
    {
      if !config.enabled {
        return;
      }
      DispatchMessage(msg, clockText, level);
    }

    /** config(): a copy of the configuration. */
    method GetConfig() returns (c: LoggerConfig)
      ensures c == config
    {
      c := config;
    }

    /** config(val): replaces the configuration, which the handlers then use. */
    method SetConfig(val: LoggerConfig)
      modifies this
      ensures config == val
      ensures handlers == old(handlers) && file == old(file) && screen == old(screen)
      ensures logFile == old(logFile) && exited == old(exited)
    {
      config := val;
    }
  }

  /** Setting the configuration and then reading it gives back what was set. */
  method SetThenGet(logger: Logger, val: LoggerConfig) returns (c: LoggerConfig)
    modifies logger
    ensures c == val
  {
    logger.SetConfig(val);
    c := logger.GetConfig();
  }
}
