/** The logger policy of the command-line bootstrap: which severity a
    `(debug, loglevel)` pair selects, how an error field is cleaned and
    coloured, and the process-wide logger state that `ConfigureLogger`
    replaces. The `NO_COLOR` environment variable is an explicit argument. */
module Logging {
  import opened Text

  /** The six zerolog severities the `--loglevel` flag can name. */
  datatype Level = DebugLevel | InfoLevel | WarnLevel | ErrorLevel | FatalLevel | PanicLevel

  /** zerolog's name of each severity. */
  function LevelName(l: Level): string {
    match l
    case DebugLevel => "debug"
    case InfoLevel => "info"
    case WarnLevel => "warn"
    case ErrorLevel => "error"
    case FatalLevel => "fatal"
    case PanicLevel => "panic"
  }

  /** The names `ConfigureLogger`'s switch recognises. */
  const LevelNames: seq<string> := ["debug", "info", "warn", "error", "fatal", "panic"]

  /** The switch on `LogLevel`: a recognised name yields its severity. */
  function NamedLevel(name: string): (r: Option<Level>)
    ensures r.Some? ==> LevelName(r.value) == name
    ensures r.None? <==> name !in LevelNames
  {
    match name
    case "debug" => Some(DebugLevel)
    case "info" => Some(InfoLevel)
    case "warn" => Some(WarnLevel)
    case "error" => Some(ErrorLevel)
    case "fatal" => Some(FatalLevel)
    case "panic" => Some(PanicLevel)
    case _ => None
  }

  /** The name of every severity is read back as that severity. */
  lemma NamedLevelRoundTrip(l: Level)
    ensures NamedLevel(LevelName(l)) == Some(l)
  {
  }

  /** The severity `ConfigureLogger` installs; `None` is the fatal outcome.
      The debug flag is consulted before the name is validated. */
  function ResolveLevel(debug: bool, name: string): (r: Option<Level>)
    ensures debug ==> r == Some(DebugLevel)
    ensures !debug ==> (r.Some? <==> name in LevelNames)
    ensures !debug && r.Some? ==> LevelName(r.value) == name
  {
    if debug then Some(DebugLevel) else NamedLevel(name)
  }

  /** How a step of the bootstrap ends: it carries on, or it calls
      `log.Fatal()` with a message and, when there is one, the error it
      attaches with `.Err(err)`. `log.Fatal` terminates the process. */
  datatype Status = Continue | Fatal(msg: string, err: Option<string>)

  // ---------------------------------------------------------------------
  // Colorize: ANSI "Select Graphic Rendition" (ECMA-48, section 8.3.117),
  // the control sequence ESC [ n m, reset by ESC [ 0 m.

  const Esc: char := '\U{1B}'

  /** `ESC [0m`: back to default rendition. */
  const Reset: string := [Esc] + "[0m"

  /** `ESC [` code `m`. */
  function SgrOpen(code: int): string {
    [Esc, '['] + IntToDecimal(code) + "m"
  }

  /** The three conditions under which `Colorize` leaves its input plain. */
  predicate Plain(colorNum: int, disabled: bool, noColorEnv: string) {
    disabled || noColorEnv != "" || colorNum == 0
  }

  /** `Colorize(input, colorNum, disabled)`; `noColorEnv` is the value of
      `NO_COLOR`, read afresh on every call. */
  function Colorize(input: string, colorNum: int, disabled: bool, noColorEnv: string): (r: string)
    ensures r == input <==> Plain(colorNum, disabled, noColorEnv)
    ensures !Plain(colorNum, disabled, noColorEnv) ==>
      |r| > |input| + |Reset| && r[0] == Esc && r[|r| - |Reset|..] == Reset
  {
    if disabled || (noColorEnv != "" || colorNum == 0) then input
    else SgrOpen(colorNum) + input + Reset
  }

  /** A text wrapped in one SGR rendition and its reset. */
  datatype Styled = Styled(code: int, text: string)

  /** The index of the first `c` at or after `from`, or `|s|` when none. */
  function FindChar(s: string, c: char, from: nat): (k: nat)
    requires from <= |s|
    ensures from <= k <= |s|
    ensures k < |s| ==> s[k] == c
    ensures forall j :: from <= j < k ==> s[j] != c
    decreases |s| - from
  {
    if from == |s| || s[from] == c then from else FindChar(s, c, from + 1)
  }

  /** Reads `ESC [` n `m` text `ESC [0m` back into its code and text: what a
      terminal makes of a wrapped string. */
  function ParseStyled(t: string): Option<Styled> {
    if |t| < 2 || t[0] != Esc || t[1] != '[' then None
    else
      var k := FindChar(t, 'm', 2);
      if k == |t| then None
      else
        match ParseInt(t[2..k])
        case None => None
        case Some(code) =>
          var body := t[k + 1..];
          if |body| >= |Reset| && body[|body| - |Reset|..] == Reset
          then Some(Styled(code, body[..|body| - |Reset|]))
          else None
  }

  /** A coloured string decodes to exactly the colour and the input. */
  lemma ColorizeParses(input: string, colorNum: int, disabled: bool, noColorEnv: string)
    requires !Plain(colorNum, disabled, noColorEnv)
    ensures ParseStyled(Colorize(input, colorNum, disabled, noColorEnv)) == Some(Styled(colorNum, input))
  {
    var d := IntToDecimal(colorNum);
    var t := Colorize(input, colorNum, disabled, noColorEnv);
    assert t == [Esc, '['] + d + "m" + input + Reset;
    assert t[2..2 + |d|] == d;
    assert t[2 + |d|] == 'm';
    var k := FindChar(t, 'm', 2);
    assert forall j :: 2 <= j < 2 + |d| ==> t[j] == d[j - 2];
    assert k == 2 + |d|;
    IntRoundTrip(colorNum);
    assert t[k + 1..] == input + Reset;
  }

  /** Conversely, whatever decodes is exactly one SGR wrapping of its text,
      the one `Colorize` writes whenever the code is not 0. */
  lemma ParseStyledOnlyColorized(t: string, code: int, text: string)
    requires ParseStyled(t) == Some(Styled(code, text))
    ensures t == SgrOpen(code) + text + Reset
    ensures code != 0 ==> t == Colorize(text, code, false, "")
  {
    var k := FindChar(t, 'm', 2);
    ParseIntOnlyRenderings(t[2..k], code);
    var body := t[k + 1..];
    assert body == body[..|body| - |Reset|] + body[|body| - |Reset|..];
    assert t == t[..2] + t[2..k] + [t[k]] + body;
  }

  // ---------------------------------------------------------------------
  // The error-field formatter installed by SetupLogger.

  /** The two-character escape spelled backslash-t, and backslash-n. */
  const TabEscape: string := "\\t"
  const NewlineEscape: string := "\\n"

  /** The three `strings.ReplaceAll` passes, in their fixed order. */
  function CleanErr(s: string): string {
    ReplaceAll(ReplaceAll(ReplaceAll(s, TabEscape, " "), NewlineEscape, " | "), "|  |", "|")
  }

  /** The first two passes leave no escape behind, and the third pass brings
      none back. */
  lemma CleanErrRemovesEscapes(s: string)
    ensures !Occurs(ReplaceAll(ReplaceAll(s, TabEscape, " "), NewlineEscape, " | "), TabEscape)
    ensures !Occurs(ReplaceAll(ReplaceAll(s, TabEscape, " "), NewlineEscape, " | "), NewlineEscape)
    ensures !Occurs(CleanErr(s), TabEscape) && !Occurs(CleanErr(s), NewlineEscape)
  {
    var s1 := ReplaceAll(s, TabEscape, " ");
    var s2 := ReplaceAll(s1, NewlineEscape, " | ");
    ReplaceAllLeavesNoPair(s, TabEscape, " ", TabEscape);
    ReplaceAllLeavesNoPair(s1, NewlineEscape, " | ", TabEscape);
    ReplaceAllLeavesNoPair(s1, NewlineEscape, " | ", NewlineEscape);
    ReplaceAllLeavesNoPair(s2, "|  |", "|", TabEscape);
    ReplaceAllLeavesNoPair(s2, "|  |", "|", NewlineEscape);
  }

  /** A string containing none of the three patterns passes through unchanged. */
  lemma CleanErrKeepsCleanText(s: string)
    requires !Occurs(s, TabEscape) && !Occurs(s, NewlineEscape) && !Occurs(s, "|  |")
    ensures CleanErr(s) == s
  {
    ReplaceAllNoMatch(s, TabEscape, " ");
    ReplaceAllNoMatch(s, NewlineEscape, " | ");
    ReplaceAllNoMatch(s, "|  |", "|");
  }

  /** Ordinary characters are kept. */
  predicate Ordinary(c: char) {
    c != '\\' && c != '|'
  }

  lemma CleanErrTabNewlinePass1(a: char, b: char, c: char)
    requires Ordinary(a) && Ordinary(b) && Ordinary(c)
    ensures ReplaceAll([a, '\\', 't', b, '\\', 'n', c], TabEscape, " ") == [a, ' ', b, '\\', 'n', c]
  {
    ReplaceAllSkip(a, ['\\', 't', b, '\\', 'n', c], TabEscape, " ");
    ReplaceAllTake([b, '\\', 'n', c], TabEscape, " ");
    ReplaceAllSkip(b, ['\\', 'n', c], TabEscape, " ");
    ReplaceAllSkip('\\', ['n', c], TabEscape, " ");
    ReplaceAllSkip('n', [c], TabEscape, " ");
  }

  lemma CleanErrTabNewlinePass2(a: char, b: char, c: char)
    requires Ordinary(a) && Ordinary(b) && Ordinary(c)
    ensures ReplaceAll([a, ' ', b, '\\', 'n', c], NewlineEscape, " | ") == [a, ' ', b, ' ', '|', ' ', c]
  {
    ReplaceAllSkip(a, [' ', b, '\\', 'n', c], NewlineEscape, " | ");
    ReplaceAllSkip(' ', [b, '\\', 'n', c], NewlineEscape, " | ");
    ReplaceAllSkip(b, ['\\', 'n', c], NewlineEscape, " | ");
    ReplaceAllTake([c], NewlineEscape, " | ");
  }

  lemma CleanErrTabNewlinePass3(a: char, b: char, c: char)
    requires Ordinary(a) && Ordinary(b) && Ordinary(c)
    ensures ReplaceAll([a, ' ', b, ' ', '|', ' ', c], "|  |", "|") == [a, ' ', b, ' ', '|', ' ', c]
  {
    ReplaceAllSkip(a, [' ', b, ' ', '|', ' ', c], "|  |", "|");
    ReplaceAllSkip(' ', [b, ' ', '|', ' ', c], "|  |", "|");
    ReplaceAllSkip(b, [' ', '|', ' ', c], "|  |", "|");
    ReplaceAllSkip(' ', ['|', ' ', c], "|  |", "|");
  }

  /** A tab escape becomes a space and a newline escape the delimiter: for
      instance `a\tb\nc` is cleaned to `a b | c`. */
  lemma CleanErrTabNewline(a: char, b: char, c: char)
    requires Ordinary(a) && Ordinary(b) && Ordinary(c)
    ensures CleanErr([a, '\\', 't', b, '\\', 'n', c]) == [a, ' ', b, ' ', '|', ' ', c]
  {
    CleanErrTabNewlinePass1(a, b, c);
    CleanErrTabNewlinePass2(a, b, c);
    CleanErrTabNewlinePass3(a, b, c);
  }

  lemma CleanErrDoubleNewlinePass1(x: char, y: char)
    requires Ordinary(x) && Ordinary(y)
    ensures ReplaceAll([x, '\\', 'n', '\\', 'n', y], TabEscape, " ") == [x, '\\', 'n', '\\', 'n', y]
  {
    NoOccurrenceOfPair([x, '\\', 'n', '\\', 'n', y], TabEscape);
    ReplaceAllNoMatch([x, '\\', 'n', '\\', 'n', y], TabEscape, " ");
  }

  lemma CleanErrDoubleNewlinePass2(x: char, y: char)
    requires Ordinary(x) && Ordinary(y)
    ensures ReplaceAll([x, '\\', 'n', '\\', 'n', y], NewlineEscape, " | ") == [x, ' ', '|', ' ', ' ', '|', ' ', y]
  {
    ReplaceAllSkip(x, ['\\', 'n', '\\', 'n', y], NewlineEscape, " | ");
    ReplaceAllTake(['\\', 'n', y], NewlineEscape, " | ");
    ReplaceAllTake([y], NewlineEscape, " | ");
  }

  lemma CleanErrDoubleNewlinePass3(x: char, y: char)
    requires Ordinary(x) && Ordinary(y)
    ensures ReplaceAll([x, ' ', '|', ' ', ' ', '|', ' ', y], "|  |", "|") == [x, ' ', '|', ' ', y]
  {
    ReplaceAllSkip(x, [' ', '|', ' ', ' ', '|', ' ', y], "|  |", "|");
    ReplaceAllSkip(' ', ['|', ' ', ' ', '|', ' ', y], "|  |", "|");
    ReplaceAllTake([' ', y], "|  |", "|");
  }

  /** Two newline escapes in a row collapse to one delimiter: `x\n\ny` is
      cleaned to `x | y`. */
  lemma CleanErrDoubleNewline(x: char, y: char)
    requires Ordinary(x) && Ordinary(y)
    ensures CleanErr([x, '\\', 'n', '\\', 'n', y]) == [x, ' ', '|', ' ', y]
  {
    CleanErrDoubleNewlinePass1(x, y);
    CleanErrDoubleNewlinePass2(x, y);
    CleanErrDoubleNewlinePass3(x, y);
  }

  lemma CleanErrTripleNewlinePass1(x: char, y: char)
    requires Ordinary(x) && Ordinary(y)
    ensures ReplaceAll([x, '\\', 'n', '\\', 'n', '\\', 'n', y], TabEscape, " ") == [x, '\\', 'n', '\\', 'n', '\\', 'n', y]
  {
    NoOccurrenceOfPair([x, '\\', 'n', '\\', 'n', '\\', 'n', y], TabEscape);
    ReplaceAllNoMatch([x, '\\', 'n', '\\', 'n', '\\', 'n', y], TabEscape, " ");
  }

  lemma CleanErrTripleNewlinePass2(x: char, y: char)
    requires Ordinary(x) && Ordinary(y)
    ensures ReplaceAll([x, '\\', 'n', '\\', 'n', '\\', 'n', y], NewlineEscape, " | ") == [x, ' ', '|', ' ', ' ', '|', ' ', ' ', '|', ' ', y]
  {
    ReplaceAllSkip(x, ['\\', 'n', '\\', 'n', '\\', 'n', y], NewlineEscape, " | ");
    ReplaceAllTake(['\\', 'n', '\\', 'n', y], NewlineEscape, " | ");
    ReplaceAllTake(['\\', 'n', y], NewlineEscape, " | ");
    ReplaceAllTake([y], NewlineEscape, " | ");
  }

  lemma CleanErrTripleNewlinePass3(x: char, y: char)
    requires Ordinary(x) && Ordinary(y)
    ensures ReplaceAll([x, ' ', '|', ' ', ' ', '|', ' ', ' ', '|', ' ', y], "|  |", "|") == [x, ' ', '|', ' ', ' ', '|', ' ', y]
  {
    ReplaceAllSkip(x, [' ', '|', ' ', ' ', '|', ' ', ' ', '|', ' ', y], "|  |", "|");
    ReplaceAllSkip(' ', ['|', ' ', ' ', '|', ' ', ' ', '|', ' ', y], "|  |", "|");
    ReplaceAllTake([' ', ' ', '|', ' ', y], "|  |", "|");
    ReplaceAllSkip(' ', [' ', '|', ' ', y], "|  |", "|");
    ReplaceAllSkip(' ', ['|', ' ', y], "|  |", "|");
  }

  /** The third pass does not rescan its own output, so three newline escapes
      in a row still leave a doubled delimiter: `x\n\n\ny` is cleaned to
      `x |  | y`. */
  lemma CleanErrTripleNewline(x: char, y: char)
    requires Ordinary(x) && Ordinary(y)
    ensures CleanErr([x, '\\', 'n', '\\', 'n', '\\', 'n', y]) == [x, ' ', '|', ' ', ' ', '|', ' ', y]
  {
    CleanErrTripleNewlinePass1(x, y);
    CleanErrTripleNewlinePass2(x, y);
    CleanErrTripleNewlinePass3(x, y);
  }

  /** Where zerolog's console writer writes. */
  datatype Stream = Stderr

  /** The `zerolog.ConsoleWriter` fields `SetupLogger` sets. */
  datatype ConsoleWriter = ConsoleWriter(out: Stream, noColor: bool)

  /** The active `log.Logger`: whatever zerolog started with, or a logger
      over a console writer. */
  datatype Logger = InitialLogger | ConsoleLogger(writer: ConsoleWriter)

  /** `SetupLogger(enableColor)`: a console logger on standard error whose
      colour is switched off exactly when colour was not enabled. */
  function SetupLogger(enableColor: bool): (l: Logger)
    ensures l.ConsoleLogger? && l.writer.out == Stderr
    ensures l.writer.noColor <==> !enableColor
  {
    ConsoleLogger(ConsoleWriter(Stderr, !enableColor))
  }

  /** The writer's `FormatErrFieldValue` closure: clean, then bold, then red.
      The closure captures `enableColor`, which is `!w.noColor`. */
  function FormatErrFieldValue(w: ConsoleWriter, err: string, noColorEnv: string): string {
    var enableColor := !w.noColor;
    var s := CleanErr(err);
    Colorize(Colorize(s, 1, !enableColor, noColorEnv), 31, !enableColor, noColorEnv)
  }

  /** Without colour, or with `NO_COLOR` set, the error is the cleaned text. */
  lemma FormatErrPlain(w: ConsoleWriter, err: string, noColorEnv: string)
    requires w.noColor || noColorEnv != ""
    ensures FormatErrFieldValue(w, err, noColorEnv) == CleanErr(err)
  {
  }

  /** With colour, the error is red on the outside and bold inside that,
      around exactly the cleaned text. */
  lemma FormatErrBoldInsideRed(w: ConsoleWriter, err: string, noColorEnv: string)
    requires !w.noColor && noColorEnv == ""
    ensures ParseStyled(FormatErrFieldValue(w, err, noColorEnv)).Some?
    ensures ParseStyled(FormatErrFieldValue(w, err, noColorEnv)).value.code == 31
    ensures ParseStyled(ParseStyled(FormatErrFieldValue(w, err, noColorEnv)).value.text)
      == Some(Styled(1, CleanErr(err)))
  {
    var bold := Colorize(CleanErr(err), 1, false, noColorEnv);
    ColorizeParses(CleanErr(err), 1, false, noColorEnv);
    ColorizeParses(bold, 31, false, noColorEnv);
  }

  /** The logger `SetupLogger` builds formats an error field as the cleaned
      text when colour is off or `NO_COLOR` is set, and as red around bold
      around the cleaned text otherwise. */
  lemma SetupLoggerFormatsErrors(enableColor: bool, err: string, noColorEnv: string)
    ensures !enableColor || noColorEnv != "" ==>
      FormatErrFieldValue(SetupLogger(enableColor).writer, err, noColorEnv) == CleanErr(err)
    ensures enableColor && noColorEnv == "" ==>
      var f := ParseStyled(FormatErrFieldValue(SetupLogger(enableColor).writer, err, noColorEnv));
      && f.Some? && f.value.code == 31
      && ParseStyled(f.value.text) == Some(Styled(1, CleanErr(err)))
  {
    var w := SetupLogger(enableColor).writer;
    if enableColor && noColorEnv == "" {
      FormatErrBoldInsideRed(w, err, noColorEnv);
    } else {
      FormatErrPlain(w, err, noColorEnv);
    }
  }

  /** zerolog's process-wide state: the global level and `log.Logger`. */
  class LogState {
    var level: Level
    var logger: Logger

    constructor (level0: Level, logger0: Logger)
      ensures level == level0 && logger == logger0
    {
      level := level0;
      logger := logger0;
    }

    /** `ConfigureLogger(debug)`, given the `LogLevel` and `Color` options it
        reads. On the fatal path neither the level nor the logger is touched;
        otherwise both are set from the inputs alone, so calling again only
        replaces them. */
    method ConfigureLogger(debug: bool, logLevel: string, color: bool) returns (st: Status)
      modifies this
      ensures st.Fatal? <==> ResolveLevel(debug, logLevel).None?
      ensures st.Fatal? ==> st == Fatal("invalid log level: " + logLevel, None)
      ensures st.Fatal? ==> level == old(level) && logger == old(logger)
      ensures st.Continue? ==> level == ResolveLevel(debug, logLevel).value
      ensures st.Continue? ==> logger == SetupLogger(color)
    {
      if debug {
        level := DebugLevel;
      } else {
        match logLevel
        case "debug" => level := DebugLevel;
        case "info" => level := InfoLevel;
        case "warn" => level := WarnLevel;
        case "error" => level := ErrorLevel;
        case "fatal" => level := FatalLevel;
        case "panic" => level := PanicLevel;
        case _ =>
          return Fatal("invalid log level: " + logLevel, None);
      }
      logger := SetupLogger(color);
      st := Continue;
    }
  }
}
