/**
 * The colour palette, its ANSI escape codes, and colour tokens
 * (struct Color and the _COLOR table in include/einhard/einhard.hpp).
 */
module Colors {

  /** The escape character written as "\33" in the source. */
  const Esc: char := '\U{1B}'

  /** The named colours of the palette, NoColor being the clearing code. */
  datatype ColorName =
    | DGray | Black | Red | DRed | Green | DGreen | Yellow | Orange
    | Blue | DBlue | Magenta | DMagenta | Cyan | DCyan | White | Gray
    | NoColor

  /** The SGR parameter of each colour. */
  function Code(c: ColorName): string
  {
    match c
    case DGray => "01;30"
    case Black => "00;30"
    case Red => "01;31"
    case DRed => "00;31"
    case Green => "01;32"
    case DGreen => "00;32"
    case Yellow => "01;33"
    case Orange => "00;33"
    case Blue => "01;34"
    case DBlue => "00;34"
    case Magenta => "01;35"
    case DMagenta => "00;35"
    case Cyan => "01;36"
    case DCyan => "00;36"
    case White => "01;37"
    case Gray => "00;37"
    case NoColor => "0"
  }

  /** The complete escape sequence, `ESC '[' code 'm'` (the ANSI() member of each colour). */
  function Ansi(c: ColorName): string
  {
    [Esc, '['] + Code(c) + "m"
  }

  /** The escape sequence that restores the terminal's default colour. */
  const Clear: string := Ansi(NoColor)

  /**
   * A colour token streamed into a formatter. `reset` is true for a one-shot colour
   * (cleared after the next value) and false for a persistent one.
   */
  datatype ColorToken = ColorToken(color: ColorName, reset: bool)

  /** `Color<P>()`: a freshly made token is one-shot. */
  function NewColor(c: ColorName): (t: ColorToken)
    ensures t.color == c && t.reset
  {
    ColorToken(c, true)
  }

  /** `operator~`: the same colour, made persistent. */
  function Persist(t: ColorToken): (r: ColorToken)
    ensures r.color == t.color && !r.reset
  {
    t.(reset := false)
  }

  /** The writes a pending one-shot colour reset makes after a value: the clear code, or nothing. */
  function ClearIfPending(pending: bool): seq<string>
  {
    if pending then [Clear] else []
  }

  /** Every escape sequence starts with ESC and contains no other ESC, and the codes never contain one. */
  lemma AnsiShape(c: ColorName)
    ensures |Ansi(c)| >= 4 && Ansi(c)[0] == Esc && Ansi(c)[|Ansi(c)| - 1] == 'm'
    ensures Esc !in Ansi(c)[1..]
  {
  }

  /** Distinct colours have distinct escape sequences, so a reader can tell every colour apart. */
  lemma AnsiInjective(a: ColorName, b: ColorName)
    ensures Ansi(a) == Ansi(b) <==> a == b
  {
    if Ansi(a) == Ansi(b) {
      assert Code(a) == Ansi(a)[2..|Ansi(a)| - 1];
      assert Code(b) == Ansi(b)[2..|Ansi(b)| - 1];
      CodeInjective(a, b);
    }
  }

  lemma CodeInjective(a: ColorName, b: ColorName)
    requires Code(a) == Code(b)
    ensures a == b
  {
    if |Code(a)| == 5 {
      assert Code(a)[1] == Code(b)[1] && Code(a)[4] == Code(b)[4];
    }
  }
}
