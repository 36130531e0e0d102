/**
 * The header-only logger of include/einhard/einhard.hpp: level names, the severity
 * gate, the line formatter and the logger that hands formatters out.
 *
 * The template parameters MAX and THREADSAFE and the NDEBUG switch become constant
 * fields; the wall-clock time and the isatty probe become parameters.
 */
module Einhard {
  import opened Wrappers
  import opened Levels
  import opened Colors
  import opened Render
  import opened Streams

  /** getLogLevelString: the display name of a level. */
  function LevelString(l: LogLevel): string
  {
    match l
    case All => "ALL"
    case Trace => "TRACE"
    case Debug => "DEBUG"
    case Info => "INFO"
    case Warn => "WARNING"
    case Error => "ERROR"
    case Fatal => "FATAL"
    case Off => "OFF"
  }

  /** WARN is displayed as "WARNING"; every other level as its own enumerator name. */
  lemma LevelStringIsName(l: LogLevel)
    ensures LevelString(l) == if l == Warn then "WARNING" else Name(l)
  {
  }

  /** Distinct levels get distinct display names, so the name determines the level. */
  lemma LevelStringInjective(a: LogLevel, b: LogLevel)
    ensures LevelString(a) == LevelString(b) <==> a == b
  {
    if LevelString(a) == LevelString(b) && |LevelString(a)| == 5 {
      assert LevelString(a)[0] == LevelString(b)[0];
    }
  }

  /** Display names are plain upper-case letters: no escape, digit, bracket or colon. */
  lemma LevelStringLetters(l: LogLevel, i: int)
    requires 0 <= i < |LevelString(l)|
    ensures 'A' <= LevelString(l)[i] <= 'Z'
  {
  }

  /** The colour a prefix starts with when colorize is on (the first switch of the constructor). */
  function LevelColor(l: LogLevel): Option<ColorName>
  {
    match l
    case Warn => Some(Orange)
    case Error => Some(DRed)
    case Fatal => Some(Red)
    case Info => Some(DGreen)
    case Debug => Some(DBlue)
    case _ => None
  }

  /** Whether the prefix ends with the clear code when colorize is on (the second switch). */
  predicate ClearsColor(l: LogLevel)
  {
    l == Info || l == Debug || l == Warn || l == Error || l == Fatal
  }

  /**
   * The two switches agree: a level gets a colour exactly when its prefix clears it,
   * and those are the five levels Debug to Fatal.
   */
  lemma ColorBalanced(l: LogLevel)
    ensures LevelColor(l).Some? <==> ClearsColor(l)
    ensures ClearsColor(l) <==> Le(Debug, l) && Le(l, Fatal)
  {
  }

  /** The writes of an enabled formatter's constructor, in order. */
  function PrefixPieces(level: LogLevel, colorize: bool, t: Time): seq<string>
  {
    (if colorize && LevelColor(level).Some? then [Ansi(LevelColor(level).value)] else [])
    + StampPieces(t)
    + [" ", LevelString(level), ": "]
    + (if colorize && ClearsColor(level) then [Clear] else [])
  }

  /** The prefix text without its colour codes: `[HH:MM:SS] NAME: `. */
  function PlainPrefix(level: LogLevel, t: Time): string
  {
    Concat(StampPieces(t)) + " " + LevelString(level) + ": "
  }

  /**
   * The prefix is the plain prefix, wrapped in the level's colour and the clear code
   * exactly when colorize is on and the level has a colour.
   */
  lemma PrefixLayout(level: LogLevel, colorize: bool, t: Time)
    ensures colorize && LevelColor(level).Some? ==>
      Concat(PrefixPieces(level, colorize, t))
        == Ansi(LevelColor(level).value) + PlainPrefix(level, t) + Clear
    ensures !(colorize && LevelColor(level).Some?) ==>
      Concat(PrefixPieces(level, colorize, t)) == PlainPrefix(level, t)
  {
    ColorBalanced(level);
    var ws := StampPieces(t) + [" ", LevelString(level), ": "];
    TailText(StampPieces(t), LevelString(level));
    if colorize && LevelColor(level).Some? {
      assert PrefixPieces(level, colorize, t) == [Ansi(LevelColor(level).value)] + ws + [Clear];
      ConcatFramed(Ansi(LevelColor(level).value), ws, Clear);
    } else {
      assert PrefixPieces(level, colorize, t) == ws;
    }
  }

  lemma TailText(ws: seq<string>, name: string)
    ensures Concat(ws + [" ", name, ": "]) == Concat(ws) + " " + name + ": "
  {
    ConcatSnoc(ws, " ");
    ConcatSnoc(ws + [" "], name);
    ConcatSnoc(ws + [" "] + [name], ": ");
    assert ws + [" "] + [name] + [": "] == ws + [" ", name, ": "];
  }

  /**
   * A prefix contains an escape character exactly when colorize is on and the level
   * is one of Debug to Fatal; with colorize off it never does.
   */
  lemma PrefixEscapes(level: LogLevel, colorize: bool, t: Time)
    ensures Esc in Concat(PrefixPieces(level, colorize, t))
        <==> colorize && Le(Debug, level) && Le(level, Fatal)
  {
    PrefixLayout(level, colorize, t);
    ColorBalanced(level);
    StampAvoids(t, Esc);
    assert Esc !in LevelString(level) by {
      forall i | 0 <= i < |LevelString(level)| ensures LevelString(level)[i] != Esc {
        LevelStringLetters(level, i);
      }
    }
    assert Esc !in PlainPrefix(level, t);
    if colorize && LevelColor(level).Some? {
      AnsiShape(LevelColor(level).value);
      var p := Ansi(LevelColor(level).value) + PlainPrefix(level, t) + Clear;
      assert p[0] == Esc;
    }
  }

  /**
   * The severity gate behind beTrace() ... beFatal(): the static bound MAX, the runtime
   * verbosity, and NDEBUG, which switches trace and debug off altogether.
   */
  function Gate(max: LogLevel, verbosity: LogLevel, ndebug: bool, level: LogLevel): bool
    requires IsMessageLevel(level)
  {
    match level
    case Trace => if ndebug then false else Le(max, Trace) && Le(verbosity, Trace)
    case Debug => if ndebug then false else Le(max, Debug) && Le(verbosity, Debug)
    case Info => Le(max, Info) && Le(verbosity, Info)
    case Warn => Le(max, Warn) && Le(verbosity, Warn)
    case Error => Le(max, Error) && Le(verbosity, Error)
    case Fatal => Le(max, Fatal) && Le(verbosity, Fatal)
  }

  /** A level passes exactly when both bounds admit it and NDEBUG does not silence it. */
  lemma GateRule(max: LogLevel, verbosity: LogLevel, ndebug: bool, level: LogLevel)
    requires IsMessageLevel(level)
    ensures Gate(max, verbosity, ndebug, level)
        <==> Le(max, level) && Le(verbosity, level) && !(ndebug && Le(level, Debug))
  {
  }

  /** Enabling a level enables every more severe level up to Fatal. */
  lemma GateMonotone(max: LogLevel, verbosity: LogLevel, ndebug: bool, lo: LogLevel, hi: LogLevel)
    requires IsMessageLevel(lo) && IsMessageLevel(hi) && Le(lo, hi)
    requires Gate(max, verbosity, ndebug, lo)
    ensures Gate(max, verbosity, ndebug, hi)
  {
    GateRule(max, verbosity, ndebug, lo);
    GateRule(max, verbosity, ndebug, hi);
  }

  /**
   * The static bound wins: whatever the runtime verbosity, no level below MAX is
   * enabled, so with MAX = INFO trace and debug stay off even at verbosity ALL.
   */
  lemma StaticBoundWins(max: LogLevel, verbosity: LogLevel, ndebug: bool, level: LogLevel)
    requires IsMessageLevel(level) && !Le(max, level)
    ensures !Gate(max, verbosity, ndebug, level)
  {
    GateRule(max, verbosity, ndebug, level);
  }

  /** The formatter writes the prefix piece by piece, as the constructor does. */
  method WritePrefix(out: Stream, level: LogLevel, colorize: bool, t: Time)
    modifies out
    ensures out.writes == old(out.writes) + PrefixPieces(level, colorize, t)
    ensures out.flags == old(out.flags)
  {
    ghost var w0 := out.writes;
    ghost var open: seq<string> := [];
    if colorize {
      var c := LevelColor(level);
      if c.Some? {
        out.Write(Ansi(c.value));
        open := [Ansi(c.value)];
      }
    }
    assert out.writes == w0 + open;
    WriteStamp(out, t);
    ghost var w1 := out.writes;
    WriteName(out, LevelString(level));
    ghost var w2 := out.writes;
    ghost var close: seq<string> := [];
    if colorize && ClearsColor(level) {
      out.Write(Clear);
      close := [Clear];
    }
    assert out.writes == w2 + close;
    assert PrefixPieces(level, colorize, t) == open + StampPieces(t) + [" ", LevelString(level), ": "] + close;
  }

  /** The level-name writes: a space, the name, and the colon with its space. */
  method WriteName(out: Stream, name: string)
    modifies out
    ensures out.writes == old(out.writes) + [" ", name, ": "]
    ensures out.flags == old(out.flags)
  {
    out.Write(" ");
    out.Write(name);
    out.Write(": ");
  }

  /**
   * OutputFormatter<VERBOSITY, THREADSAFE>: builds one log line. `out` is null for a
   * disabled formatter; with THREADSAFE it is a private string stream that is handed
   * to `realOut` in one write at destruction, otherwise it is `realOut` itself.
   */
  class OutputFormatter {
    const level: LogLevel
    const threadsafe: bool
    const colorize: bool
    const out: Stream?
    const realOut: Stream?
    var resetColor: bool

    ghost predicate Valid()
      reads this
    {
      && (out == null <==> realOut == null)
      && (threadsafe ==> out != realOut || out == null)
      && (!threadsafe ==> out == realOut)
      && (out == null ==> !resetColor)
    }

    /**
     * The constructor: a null stream makes the formatter inert; otherwise the prefix
     * is written, to the private buffer when THREADSAFE and to the stream otherwise.
     */
    constructor (level: LogLevel, threadsafe: bool, realOut: Stream?, colorize: bool, t: Time)
      modifies realOut
      ensures Valid() && !resetColor
      ensures this.level == level && this.threadsafe == threadsafe
      ensures this.colorize == colorize && this.realOut == realOut
      ensures realOut == null ==> out == null
      ensures realOut != null && !threadsafe ==>
        && out == realOut
        && out.writes == old(realOut.writes) + PrefixPieces(level, colorize, t)
        && out.flags == old(realOut.flags)
      ensures realOut != null && threadsafe ==>
        && out != null && fresh(out)
        && out.writes == PrefixPieces(level, colorize, t) && out.flags == DefaultFlags
        && unchanged(realOut)
    {
      this.level := level;
      this.threadsafe := threadsafe;
      this.colorize := colorize;
      this.realOut := realOut;
      var o: Stream? := realOut;
      if threadsafe && realOut != null {
        o := new Stream();
      }
      this.out := o;
      resetColor := false;
      new;
      if o != null {
        WritePrefix(o, level, colorize, t);
      }
    }

    /**
     * `operator<<` for a colour token: with a stream and colorize on, writes its code
     * and remembers whether to clear after the next value; otherwise does nothing.
     */
    method AppendColor(c: ColorToken)
      requires Valid()
      modifies out, this`resetColor
      ensures Valid()
      ensures out != null && colorize ==>
        out.writes == old(out.writes) + [Ansi(c.color)] && resetColor == c.reset
      ensures out != null && !colorize ==> unchanged(out)
      ensures !(out != null && colorize) ==> resetColor == old(resetColor)
      ensures out != null ==> out.flags == old(out.flags)
      ensures threadsafe && realOut != null ==> unchanged(realOut)
    {
      if out != null && colorize {
        out.Write(Ansi(c.color));
        resetColor := c.reset;
      }
    }

    /**
     * `operator<<` for a value: streams it, then writes the clear code if a one-shot
     * colour is pending and drops the pending reset. A disabled formatter does nothing.
     */
    method Append(item: Item)
      requires Valid()
      modifies out, this`resetColor
      ensures Valid() && !resetColor
      ensures out == null ==> unchanged(this)
      ensures out != null ==>
        && out.writes == old(out.writes) + ItemWrites(item) + ClearIfPending(old(resetColor))
        && out.flags == ItemFlags(old(out.flags), item)
      ensures threadsafe && realOut != null ==> unchanged(realOut)
    {
      if out != null {
        out.Put(item);
        if resetColor {
          out.Write(Clear);
          resetColor := false;
        }
      }
    }

    /**
     * The destructor: clears the format flags of the mask, ends the line with one
     * newline and, when THREADSAFE, hands the whole buffered line to the real stream
     * in a single write. A pending colour reset is not written.
     */
    method Finish()
      requires Valid()
      modifies out, realOut
      ensures out != null ==>
        && out.flags == old(out.flags) - ResetMask
        && out.writes == old(out.writes) + ["\n"]
      ensures out != null && threadsafe ==>
        && realOut.writes == old(realOut.writes) + [old(out.Text()) + "\n"]
        && realOut.flags == old(realOut.flags)
    {
      if out != null {
        out.ResetFlags(ResetMask);
        out.Write("\n");
        if threadsafe {
          realOut.Write(out.Text());
        }
      }
    }
  }

  /**
   * Logger<MAX, THREADSAFE>: the runtime verbosity and colorize flag, and the factory
   * of formatters writing to std::cout (`cout`).
   */
  class Logger {
    const max: LogLevel
    const threadsafe: bool
    const ndebug: bool
    const cout: Stream
    var verbosity: LogLevel
    var colorize: bool

    /**
     * `Logger(verbosity, colorize)`. The template parameters default as in
     * `Logger<MAX = ALL, THREADSAFE = false>`.
     */
    constructor (cout: Stream, ndebug: bool, verbosity: LogLevel, colorize: bool,
                 max: LogLevel := All, threadsafe: bool := false)
      ensures this.max == max && this.threadsafe == threadsafe && this.ndebug == ndebug
      ensures this.cout == cout && this.verbosity == verbosity && this.colorize == colorize
    {
      this.max := max;
      this.threadsafe := threadsafe;
      this.ndebug := ndebug;
      this.cout := cout;
      this.verbosity := verbosity;
      this.colorize := colorize;
    }

    /**
     * `Logger(verbosity = WARN)`: colorizes exactly when stdout is a terminal. The
     * verbosity and the template parameters have the source's defaults.
     */
    constructor OnTerminal(cout: Stream, ndebug: bool, stdoutIsTty: bool,
                           verbosity: LogLevel := Warn, max: LogLevel := All,
                           threadsafe: bool := false)
      ensures this.max == max && this.threadsafe == threadsafe && this.ndebug == ndebug
      ensures this.cout == cout && this.verbosity == verbosity && this.colorize == stdoutIsTty
    {
      this.max := max;
      this.threadsafe := threadsafe;
      this.ndebug := ndebug;
      this.cout := cout;
      this.verbosity := verbosity;
      this.colorize := stdoutIsTty;
    }

    /** beTrace() ... beFatal(). */
    predicate Be(level: LogLevel)
      reads this
      requires IsMessageLevel(level)
    {
      Gate(max, verbosity, ndebug, level)
    }

    /**
     * trace() ... fatal(): a formatter on std::cout when the level passes the gate,
     * on a null stream (inert, writing nothing) otherwise.
     */
    method Open(level: LogLevel, t: Time) returns (f: OutputFormatter)
      requires IsMessageLevel(level)
      modifies cout
      ensures fresh(f) && f.Valid() && !f.resetColor
      ensures f.level == level && f.threadsafe == threadsafe && f.colorize == colorize
      ensures Be(level) ==> f.realOut == cout
      ensures !Be(level) ==> f.out == null && unchanged(cout)
      ensures Be(level) && !threadsafe ==>
        && f.out == cout && cout.writes == old(cout.writes) + PrefixPieces(level, colorize, t)
        && cout.flags == old(cout.flags)
      ensures Be(level) && threadsafe ==>
        f.out != null && fresh(f.out) && f.out.writes == PrefixPieces(level, colorize, t)
        && unchanged(cout)
    {
      if Be(level) {
        f := new OutputFormatter(level, threadsafe, cout, colorize, t);
      } else {
        f := new OutputFormatter(level, threadsafe, null, colorize, t);
      }
    }

    /** setVerbosity: changes the runtime verbosity and nothing else. */
    method SetVerbosity(v: LogLevel)
      modifies this`verbosity
      ensures verbosity == v
    {
      verbosity := v;
    }

    /** getVerbosity. */
    method GetVerbosity() returns (v: LogLevel)
      ensures v == verbosity
    {
      v := verbosity;
    }

    /** getVerbosityString: the display name of the current verbosity. */
    method GetVerbosityString() returns (s: string)
      ensures s == LevelString(verbosity)
    {
      s := LevelString(verbosity);
    }

    /** setColorize: changes the colorize flag and nothing else. */
    method SetColorize(c: bool)
      modifies this`colorize
      ensures colorize == c
    {
      colorize := c;
    }

    /** getColorize (declared void in the source; it returns the flag here). */
    method GetColorize() returns (c: bool)
      ensures c == colorize
    {
      c := colorize;
    }
  }
}
