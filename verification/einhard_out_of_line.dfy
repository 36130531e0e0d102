/**
 * The out-of-line formatter of src/einhard.cpp, a later version than the header:
 * right-aligned five-character level tags, a colour for every message level (TRACE
 * included), an optional area name, and a per-thread buffer `t_out` flushed to stdout
 * in one write per line. Its level strings and colour table are its own, kept apart
 * from the header's.
 */
module EinhardOutOfLine {
  import opened Wrappers
  import opened Levels
  import opened Colors
  import opened Render
  import opened Streams
  import Einhard

  /** colorForLogLevel<L>: defined for the six message levels only. */
  function ColorForLevel(l: LogLevel): ColorName
    requires IsMessageLevel(l)
  {
    match l
    case Trace => DBlue
    case Debug => Blue
    case Info => DGreen
    case Warn => Orange
    case Error => DRed
    case Fatal => Red
  }

  /** Each message level gets its own colour, so its escape code identifies it. */
  lemma ColorForLevelInjective(a: LogLevel, b: LogLevel)
    requires IsMessageLevel(a) && IsMessageLevel(b)
    ensures Ansi(ColorForLevel(a)) == Ansi(ColorForLevel(b)) <==> a == b
  {
    AnsiInjective(ColorForLevel(a), ColorForLevel(b));
  }

  /** getLogLevelString<L>: the level tag, always five characters wide. */
  function LevelTag(l: LogLevel): (r: string)
    ensures |r| == 5
  {
    match l
    case All => "  ALL"
    case Trace => "TRACE"
    case Debug => "DEBUG"
    case Info => " INFO"
    case Warn => " WARN"
    case Error => "ERROR"
    case Fatal => "FATAL"
    case Off => "  OFF"
  }

  /** s right-aligned in a field of width w, padded with spaces on the left. */
  function PadLeft(s: string, w: nat): (r: string)
  {
    if |s| < w then seq(w - |s|, _ => ' ') + s else s
  }

  /** Every tag is the enumerator's own name right-aligned to five columns (WARN included). */
  lemma LevelTagIsAlignedName(l: LogLevel)
    ensures LevelTag(l) == PadLeft(Name(l), 5)
  {
    var n := Name(l);
    if |n| < 5 {
      assert seq(5 - |n|, _ => ' ') == if |n| == 3 then "  " else " ";
    }
  }

  /** The eight tags are pairwise distinct. */
  lemma LevelTagInjective(a: LogLevel, b: LogLevel)
    ensures LevelTag(a) == LevelTag(b) <==> a == b
  {
    if LevelTag(a) == LevelTag(b) {
      assert LevelTag(a)[2] == LevelTag(b)[2] && LevelTag(a)[4] == LevelTag(b)[4];
    }
  }

  /** Tags hold only spaces and upper-case letters. */
  lemma LevelTagChars(l: LogLevel, i: int)
    requires 0 <= i < 5
    ensures LevelTag(l)[i] == ' ' || 'A' <= LevelTag(l)[i] <= 'Z'
  {
  }

  /**
   * The two versions disagree where this one changed the tables: TRACE gained a
   * colour, DEBUG moved from dark blue to blue, and the tags of ALL, INFO, WARN and
   * OFF are padded (WARN also lost its "ING").
   */
  lemma VariantsDiffer(l: LogLevel)
    requires IsMessageLevel(l)
    ensures Einhard.LevelColor(l) == Some(ColorForLevel(l)) <==> l != Trace && l != Debug
    ensures LevelTag(l) == Einhard.LevelString(l) <==> l != Info && l != Warn
  {
  }

  /** `areaName && areaName[0] != '\0'`: a non-null, non-empty area name. */
  predicate HasArea(areaName: Option<string>)
  {
    areaName.Some? && |areaName.value| > 0 && areaName.value[0] != '\0'
  }

  /** The area writes: a space and the name when there is one, nothing otherwise. */
  function AreaPieces(areaName: Option<string>): seq<string>
  {
    if HasArea(areaName) then [" ", CString(areaName.value)] else []
  }

  /** The writes of doInit<L>, in order. */
  function InitPieces(level: LogLevel, colorize: bool, areaName: Option<string>, t: Time): seq<string>
    requires IsMessageLevel(level)
  {
    Framed(colorize, Ansi(ColorForLevel(level)), LinePieces(StampPieces(t), LevelTag(level), AreaPieces(areaName)))
  }

  /** With colorize on, the writes wrapped in the colour code and the clear code. */
  function Framed(colorize: bool, color: string, ws: seq<string>): seq<string>
  {
    if colorize then [color] + ws + [Clear] else ws
  }

  /** The uncoloured writes: stamp, a space, the tag, the area writes and the colon. */
  function LinePieces(stamp: seq<string>, tag: string, area: seq<string>): seq<string>
  {
    stamp + [" ", tag] + area + [": "]
  }

  /** The area text: " name" exactly when the C string is non-empty, nothing otherwise. */
  lemma AreaText(areaName: Option<string>)
    ensures HasArea(areaName) <==> areaName.Some? && CString(areaName.value) != []
    ensures Concat(AreaPieces(areaName))
         == if HasArea(areaName) then " " + CString(areaName.value) else []
  {
    if HasArea(areaName) {
      ConcatSnoc([], " ");
      ConcatSnoc([" "], CString(areaName.value));
    }
  }

  /** The uncoloured line start: `[HH:MM:SS] TAG[ area]: `. */
  function PlainInit(level: LogLevel, areaName: Option<string>, t: Time): string
  {
    Concat(StampPieces(t)) + " " + LevelTag(level) + Concat(AreaPieces(areaName)) + ": "
  }

  /**
   * doInit writes the plain line start, wrapped in the level's colour and the clear
   * code exactly when colorize is on; the area sits between the tag and the colon.
   */
  lemma InitLayout(level: LogLevel, colorize: bool, areaName: Option<string>, t: Time)
    requires IsMessageLevel(level)
    ensures colorize ==>
      Concat(InitPieces(level, colorize, areaName, t))
        == Ansi(ColorForLevel(level)) + PlainInit(level, areaName, t) + Clear
    ensures !colorize ==> Concat(InitPieces(level, colorize, areaName, t)) == PlainInit(level, areaName, t)
  {
    var ws := LinePieces(StampPieces(t), LevelTag(level), AreaPieces(areaName));
    LineText(StampPieces(t), LevelTag(level), AreaPieces(areaName));
    if colorize {
      ConcatFramed(Ansi(ColorForLevel(level)), ws, Clear);
    }
  }

  lemma LineText(stamp: seq<string>, tag: string, area: seq<string>)
    ensures Concat(LinePieces(stamp, tag, area)) == Concat(stamp) + " " + tag + Concat(area) + ": "
  {
    ConcatSnoc(stamp + [" ", tag] + area, ": ");
    ConcatAppend(stamp + [" ", tag], area);
    ConcatSnoc(stamp, " ");
    ConcatSnoc(stamp + [" "], tag);
    assert stamp + [" "] + [tag] == stamp + [" ", tag];
  }

  /**
   * With an area name free of escapes, the line start contains an escape character
   * exactly when colorize is on: it then begins with the level's colour and ends with
   * the clear code.
   */
  lemma InitEscapes(level: LogLevel, colorize: bool, areaName: Option<string>, t: Time)
    requires IsMessageLevel(level)
    requires areaName.Some? ==> Esc !in areaName.value
    ensures Esc in Concat(InitPieces(level, colorize, areaName, t)) <==> colorize
  {
    InitLayout(level, colorize, areaName, t);
    StampAvoids(t, Esc);
    AreaText(areaName);
    assert Esc !in LevelTag(level) by {
      forall i | 0 <= i < 5 ensures LevelTag(level)[i] != Esc {
        LevelTagChars(level, i);
      }
    }
    if HasArea(areaName) {
      assert CString(areaName.value) <= areaName.value;
      assert Esc !in CString(areaName.value);
    }
    assert Esc !in PlainInit(level, areaName, t);
    if colorize {
      AnsiShape(ColorForLevel(level));
      var p := Ansi(ColorForLevel(level)) + PlainInit(level, areaName, t) + Clear;
      assert p[0] == Esc;
    }
  }

  /**
   * The formatter state this file touches: the colorize flag, the pending reset, and
   * `out`, which doInit binds to the thread's buffer `t_out` (`tOut`). `stdout` is the
   * process's standard output.
   */
  class OutputFormatter {
    const colorize: bool
    const tOut: Stream
    const stdout: Stream
    var out: Stream?
    var resetColor: bool

    ghost predicate Valid()
      reads this
    {
      && tOut != stdout
      && (out == null || out == tOut)
      && (resetColor ==> out != null)
    }

    /** A formatter not yet bound to a buffer, with no pending reset. */
    constructor (colorize: bool, tOut: Stream, stdout: Stream)
      requires tOut != stdout
      ensures Valid() && out == null && !resetColor
      ensures this.colorize == colorize && this.tOut == tOut && this.stdout == stdout
    {
      this.colorize := colorize;
      this.tOut := tOut;
      this.stdout := stdout;
      out := null;
      resetColor := false;
    }

    /**
     * doInit<L>: binds `out` to `t_out` and appends the line start there; stdout
     * receives nothing.
     */
    method DoInit(level: LogLevel, areaName: Option<string>, t: Time)
      requires Valid() && IsMessageLevel(level)
      modifies this`out, tOut
      ensures Valid() && out == tOut && resetColor == old(resetColor)
      ensures tOut.writes == old(tOut.writes) + InitPieces(level, colorize, areaName, t)
      ensures tOut.flags == old(tOut.flags)
      ensures unchanged(stdout)
    {
      out := tOut;
      WriteFramed(tOut, colorize, Ansi(ColorForLevel(level)), LevelTag(level), areaName, t);
    }

    /** The writes of doInit for a given colour code and tag. */
    static method WriteFramed(out: Stream, colorize: bool, color: string, tag: string,
                              areaName: Option<string>, t: Time)
      modifies out
      ensures out.writes
           == old(out.writes) + Framed(colorize, color, LinePieces(StampPieces(t), tag, AreaPieces(areaName)))
      ensures out.flags == old(out.flags)
    {
      ghost var w0 := out.writes;
      if colorize {
        out.Write(color);
      }
      WriteLine(out, tag, areaName, t);
      if colorize {
        out.Write(Clear);
      }
      assert colorize ==>
        out.writes == w0 + [color] + LinePieces(StampPieces(t), tag, AreaPieces(areaName)) + [Clear];
    }

    /** The uncoloured writes of doInit, from the stamp to the colon. */
    static method WriteLine(out: Stream, tag: string, areaName: Option<string>, t: Time)
      modifies out
      ensures out.writes == old(out.writes) + LinePieces(StampPieces(t), tag, AreaPieces(areaName))
      ensures out.flags == old(out.flags)
    {
      ghost var w0 := out.writes;
      WriteStamp(out, t);
      WriteTagAndArea(out, tag, areaName);
      out.Write(": ");
      assert out.writes == w0 + StampPieces(t) + [" ", tag] + AreaPieces(areaName) + [": "];
    }

    /** The tag writes of doInit: a space and the tag, then a space and the area name if any. */
    static method WriteTagAndArea(out: Stream, tag: string, areaName: Option<string>)
      modifies out
      ensures out.writes == old(out.writes) + [" ", tag] + AreaPieces(areaName)
      ensures out.flags == old(out.flags)
    {
      out.Write(" ");
      out.Write(tag);
      if HasArea(areaName) {
        out.Write(" ");
        out.Write(CString(areaName.value));
      }
    }

    /**
     * The colour-token insertion, which this file does not define; it is taken to
     * behave as the header's: with a bound stream and colorize on, write the code and
     * remember whether a reset is due.
     */
    method PushColor(c: ColorToken)
      requires Valid()
      modifies tOut, this`resetColor
      ensures Valid() && unchanged(stdout)
      ensures out != null && colorize ==>
        tOut.writes == old(tOut.writes) + [Ansi(c.color)] && resetColor == c.reset
      ensures !(out != null && colorize) ==> unchanged(tOut) && resetColor == old(resetColor)
    {
      if out != null && colorize {
        out.Write(Ansi(c.color));
        resetColor := c.reset;
      }
    }

    /** checkColorReset: writes the clear code iff a reset is pending, and drops it. */
    method CheckColorReset()
      requires Valid()
      modifies tOut, this`resetColor
      ensures Valid() && !resetColor && unchanged(stdout)
      ensures tOut.writes == old(tOut.writes) + ClearIfPending(old(resetColor))
      ensures tOut.flags == old(tOut.flags)
    {
      if resetColor {
        out.Write(Clear);
        resetColor := false;
      }
    }

    /**
     * doCleanup: ends the buffered line with '\n', hands all of it to stdout in one
     * write and empties the buffer.
     */
    method DoCleanup()
      requires Valid() && out != null
      modifies tOut, stdout
      ensures Valid()
      ensures stdout.writes == old(stdout.writes) + [old(tOut.Text()) + "\n"]
      ensures tOut.writes == [] && tOut.flags == old(tOut.flags)
      ensures stdout.flags == old(stdout.flags)
    {
      out.Write("\n");
      ConcatSnoc(old(tOut.writes), "\n");
      var s := out.Text();
      out.Empty();
      stdout.Write(s);
    }
  }
}
