/**
 * Client scenarios after tests/simpleTest.cpp and tests/threaded.cpp, with the
 * clock fixed at 12:34:56. Each states the exact writes a scenario produces.
 */
module SimpleTest {
  import opened Wrappers
  import opened Levels
  import opened Colors
  import opened Render
  import opened Streams
  import opened Einhard
  import EinhardOutOfLine

  const Noon: Time := Time(12, 34, 56)

  lemma NoonDigits()
    ensures PadTwo(12) == "12" && PadTwo(34) == "34" && PadTwo(56) == "56"
  {
    assert Decimal(1) == "1" && Decimal(3) == "3" && Decimal(5) == "5";
  }

  /** The INFO prefix at 12:34:56, as separate writes. */
  lemma NoonInfoPrefix()
    ensures PrefixPieces(Info, false, Noon)
         == ["[", "12", ":", "34", ":", "56", "]", " ", "INFO", ": "]
    ensures PrefixPieces(Info, true, Noon)
         == [Ansi(DGreen), "[", "12", ":", "34", ":", "56", "]", " ", "INFO", ": ", Clear]
  {
    NoonDigits();
  }

  /** The WARN line start of the out-of-line version at 12:34:56 in area "base". */
  lemma NoonWarnBase()
    ensures EinhardOutOfLine.InitPieces(Warn, false, Some("base"), Noon)
         == ["[", "12", ":", "34", ":", "56", "]", " ", " WARN", " ", "base", ": "]
  {
    NoonDigits();
    assert CString("base") == "base" by {
      assert CString("e") == "e";
    }
  }

  /**
   * `Logger<>` at its default verbosity WARN enables exactly warn, error and fatal;
   * after `setVerbosity(ALL)` every level is on, except trace and debug under NDEBUG.
   */
  method DefaultGates(ndebug: bool) returns (initial: LogLevel, before: seq<bool>, after: seq<bool>)
    ensures initial == Warn
    ensures before == [false, false, false, true, true, true]
    ensures after == [!ndebug, !ndebug, true, true, true, true]
  {
    var cout := new Stream();
    var logger := new Logger.OnTerminal(cout, ndebug, false);
    initial := logger.GetVerbosity();
    before := [logger.Be(Trace), logger.Be(Debug), logger.Be(Info),
               logger.Be(Warn), logger.Be(Error), logger.Be(Fatal)];
    logger.SetVerbosity(All);
    after := [logger.Be(Trace), logger.Be(Debug), logger.Be(Info),
              logger.Be(Warn), logger.Be(Error), logger.Be(Fatal)];
  }

  /** With MAX = INFO, `setVerbosity(ALL)` still leaves trace and debug off. */
  method StaticBoundCapsVerbosity(ndebug: bool) returns (gates: seq<bool>, v: LogLevel)
    ensures gates == [false, false, true]
    ensures v == All
  {
    var cout := new Stream();
    var logger := new Logger(cout, ndebug, Warn, false, Info);
    logger.SetVerbosity(All);
    v := logger.GetVerbosity();
    gates := [logger.Be(Trace), logger.Be(Debug), logger.Be(Info)];
  }

  /**
   * The chain `<< "Test some colors: " << Blue() << "blue " << "normal " << ~Cyan()
   * << "cyan " << "cyan " << NoColor() << "normal"` of lines 67-68 and 100-101. With
   * colour on, a one-shot colour is cleared after its value, a persistent one is not,
   * and the trailing NoColor() token is itself cleared after "normal"; with colour off
   * the tokens write nothing.
   */
  method TestSomeColors(f: OutputFormatter)
    requires f.Valid() && f.out != null && !f.resetColor
    modifies f.out, f`resetColor
    ensures f.Valid() && !f.resetColor && f.out.flags == old(f.out.flags)
    ensures f.colorize ==>
      f.out.writes == old(f.out.writes)
        + ["Test some colors: ", Ansi(Blue), "blue ", Clear, "normal ",
           Ansi(Cyan), "cyan ", "cyan ", Ansi(NoColor), "normal", Clear]
    ensures !f.colorize ==>
      f.out.writes == old(f.out.writes)
        + ["Test some colors: ", "blue ", "normal ", "cyan ", "cyan ", "normal"]
  {
    ghost var w0 := f.out.writes;
    OneShotBlue(f);
    ghost var w1 := f.out.writes;
    PersistentCyan(f);
    assert f.colorize ==>
      w1 == w0 + ["Test some colors: ", Ansi(Blue), "blue ", Clear, "normal "];
  }

  /** `<< "Test some colors: " << Blue() << "blue " << "normal "`: the clear follows "blue " only. */
  method OneShotBlue(f: OutputFormatter)
    requires f.Valid() && f.out != null && !f.resetColor
    modifies f.out, f`resetColor
    ensures f.Valid() && !f.resetColor && f.out.flags == old(f.out.flags)
    ensures f.colorize ==>
      f.out.writes == old(f.out.writes) + ["Test some colors: ", Ansi(Blue), "blue ", Clear, "normal "]
    ensures !f.colorize ==>
      f.out.writes == old(f.out.writes) + ["Test some colors: ", "blue ", "normal "]
  {
    f.Append(Text("Test some colors: "));
    f.AppendColor(NewColor(Blue));
    f.Append(Text("blue "));
    f.Append(Text("normal "));
  }

  /**
   * `<< ~Cyan() << "cyan " << "cyan " << NoColor() << "normal"`: the persistent cyan
   * is never cleared, the one-shot NoColor() is cleared after "normal".
   */
  method PersistentCyan(f: OutputFormatter)
    requires f.Valid() && f.out != null && !f.resetColor
    modifies f.out, f`resetColor
    ensures f.Valid() && !f.resetColor && f.out.flags == old(f.out.flags)
    ensures f.colorize ==>
      f.out.writes == old(f.out.writes) + [Ansi(Cyan), "cyan ", "cyan ", Ansi(NoColor), "normal", Clear]
    ensures !f.colorize ==>
      f.out.writes == old(f.out.writes) + ["cyan ", "cyan ", "normal"]
  {
    f.AppendColor(Persist(NewColor(Cyan)));
    f.Append(Text("cyan "));
    f.Append(Text("cyan "));
    f.AppendColor(NewColor(NoColor));
    f.Append(Text("normal"));
  }

  /** Lines 67-68 and 100-101 as whole lines on std::cout, with colour on or off. */
  method ColorsLine(colorize: bool) returns (writes: seq<string>)
    ensures colorize ==>
      writes == PrefixPieces(Info, true, Noon)
        + ["Test some colors: ", Ansi(Blue), "blue ", Clear, "normal ",
           Ansi(Cyan), "cyan ", "cyan ", Ansi(NoColor), "normal", Clear, "\n"]
    ensures !colorize ==>
      writes == PrefixPieces(Info, false, Noon)
        + ["Test some colors: ", "blue ", "normal ", "cyan ", "cyan ", "normal", "\n"]
  {
    var cout := new Stream();
    var logger := new Logger(cout, false, All, colorize);
    var f := logger.Open(Info, Noon);
    TestSomeColors(f);
    f.Finish();
    writes := cout.writes;
  }

  /** Something streamed into a formatter: a value (or manipulator), or a colour token. */
  datatype Streamed = Value(item: Item) | Token(token: ColorToken)

  /**
   * A formatter that fails the gate, for whatever reason (the static bound, the
   * verbosity or NDEBUG) and on a THREADSAFE logger or not, leaves the stream
   * untouched, whatever is streamed into it and however the line ends.
   */
  method DisabledWritesNothing(max: LogLevel, threadsafe: bool, ndebug: bool, cout: Stream,
                               verbosity: LogLevel, colorize: bool, level: LogLevel, t: Time,
                               chain: seq<Streamed>)
    requires IsMessageLevel(level) && !Gate(max, verbosity, ndebug, level)
    modifies cout
    ensures unchanged(cout)
  {
    var logger := new Logger(cout, ndebug, verbosity, colorize, max, threadsafe);
    var f := logger.Open(level, t);
    var i := 0;
    while i < |chain|
      invariant 0 <= i <= |chain|
      invariant f.Valid() && f.out == null && f.realOut == null
      invariant unchanged(cout)
    {
      match chain[i] {
        case Value(item) => f.Append(item);
        case Token(c) => f.AppendColor(c);
      }
      i := i + 1;
    }
    f.Finish();
  }

  /**
   * Lines 103-104: std::scientific set on one line is cleared when that line ends, so
   * the next line starts without it.
   */
  method ScientificDoesNotLeak() returns (during: set<FormatFlag>, between: set<FormatFlag>)
    ensures Scientific in during
    ensures between == {SkipWs}
  {
    var cout := new Stream();
    var logger := new Logger(cout, false, All, false);
    var f := logger.Open(Info, Noon);
    f.Append(Text("Exponential float "));
    f.Append(ScientificManip);
    f.Append(Text("1.000000e+00"));
    during := cout.flags;
    f.Finish();
    between := cout.flags;
  }

  /**
   * tests/threaded.cpp, one line: with THREADSAFE the real stream receives nothing
   * while the line is built, then the whole line in a single write.
   */
  method ThreadsafeLine() returns (before: seq<string>, after: seq<string>)
    ensures before == []
    ensures after == [Concat(PrefixPieces(Info, false, Noon) + ["Iteration ", "7", " of thread ", "1", "\n"])]
  {
    var cout := new Stream();
    var logger := new Logger(cout, false, Info, false, All, true);
    var f := logger.Open(Info, Noon);
    ghost var buffer := f.out;
    f.Append(Text("Iteration "));
    f.Append(Text("7"));
    f.Append(Text(" of thread "));
    f.Append(Text("1"));
    before := cout.writes;
    ghost var buffered := buffer.writes;
    assert buffered == PrefixPieces(Info, false, Noon) + ["Iteration ", "7", " of thread ", "1"];
    f.Finish();
    after := cout.writes;
    ConcatSnoc(buffered, "\n");
    assert buffered + ["\n"]
        == PrefixPieces(Info, false, Noon) + ["Iteration ", "7", " of thread ", "1", "\n"];
  }

  /**
   * The out-of-line version with area "base": `warn() << "Warning output"` with colour
   * off is flushed to stdout as one line with the right-aligned tag and the area.
   */
  method AreaLine() returns (stdoutWrites: seq<string>, buffer: seq<string>)
    ensures stdoutWrites == [Concat(EinhardOutOfLine.InitPieces(Warn, false, Some("base"), Noon)
                                    + ["Warning output", "\n"])]
    ensures buffer == []
  {
    ghost var start := EinhardOutOfLine.InitPieces(Warn, false, Some("base"), Noon);
    var tOut := new Stream();
    var stdout := new Stream();
    var f := new EinhardOutOfLine.OutputFormatter(false, tOut, stdout);
    f.DoInit(Warn, Some("base"), Noon);
    assert tOut.writes == start;
    tOut.Write("Warning output");
    f.CheckColorReset();
    ghost var buffered := tOut.writes;
    assert buffered == start + ["Warning output"];
    assert buffered + ["\n"] == start + ["Warning output", "\n"];
    f.DoCleanup();
    ConcatSnoc(buffered, "\n");
    stdoutWrites, buffer := stdout.writes, tOut.writes;
  }

  /** checkColorReset writes the clear code once; a second call writes nothing. */
  method ColorResetOnce() returns (first: seq<string>, second: seq<string>)
    ensures |first| >= 2 && first[|first| - 2..] == ["blue ", Clear]
    ensures second == first
  {
    var tOut := new Stream();
    var stdout := new Stream();
    var f := new EinhardOutOfLine.OutputFormatter(true, tOut, stdout);
    f.DoInit(Info, None, Noon);
    f.PushColor(NewColor(Blue));
    tOut.Write("blue ");
    f.CheckColorReset();
    first := tOut.writes;
    f.CheckColorReset();
    second := tOut.writes;
  }
}
