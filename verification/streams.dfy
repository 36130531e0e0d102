/**
 * An output stream as the formatters see it: the writes it has received, in order,
 * and its iostream format flags, kept abstract (no numeric formatting is modelled).
 */
module Streams {
  import opened Render

  /** The individual std::ios_base format flags. */
  datatype FormatFlag =
    | Fixed | Scientific                  // floatfield
    | Dec | Oct | Hex                     // basefield
    | Left | Right | Internal             // adjustfield
    | Uppercase | ShowPos | ShowPoint | ShowBase | BoolAlpha
    | SkipWs | UnitBuf

  /** The mask the formatter's destructor passes to std::resetiosflags. */
  const ResetMask: set<FormatFlag> :=
    {Fixed, Scientific, Dec, Oct, Hex, Left, Right, Internal,
     Uppercase, ShowPos, ShowPoint, ShowBase, BoolAlpha}

  /** The flags of a freshly constructed stream: skipws | dec. */
  const DefaultFlags: set<FormatFlag> := {SkipWs, Dec}

  /**
   * A value streamed with `<<`: either already-rendered text, or a manipulator such as
   * std::scientific that clears some flags, sets others, and writes nothing.
   */
  datatype Item = Text(s: string) | Manip(clear: set<FormatFlag>, put: set<FormatFlag>)

  /** std::scientific. */
  const ScientificManip: Item := Manip({Fixed, Scientific}, {Scientific})

  /** The writes one streamed item makes. */
  function ItemWrites(item: Item): seq<string>
  {
    match item
    case Text(s) => [s]
    case Manip(_, _) => []
  }

  /** The flags after streaming one item. */
  function ItemFlags(flags: set<FormatFlag>, item: Item): set<FormatFlag>
  {
    match item
    case Text(_) => flags
    case Manip(c, p) => flags - c + p
  }

  /** `resetiosflags(ResetMask)` leaves no flag of the mask set and every other flag as it was. */
  lemma ResetForgetsLine(flags: set<FormatFlag>, f: FormatFlag)
    ensures f in flags - ResetMask <==> f in flags && (f == SkipWs || f == UnitBuf)
  {
  }

  /** The timestamp writes, as both formatter variants write them. */
  method WriteStamp(out: Stream, t: Time)
    modifies out
    ensures out.writes == old(out.writes) + StampPieces(t)
    ensures out.flags == old(out.flags)
  {
    out.Write("[");
    out.Write(PadTwo(t.hour));
    out.Write(":");
    out.Write(PadTwo(t.minute));
    out.Write(":");
    out.Write(PadTwo(t.second));
    out.Write("]");
  }

  class Stream {
    /** Every write received, in order. */
    var writes: seq<string>
    var flags: set<FormatFlag>

    /** A fresh std::ostringstream. */
    constructor ()
      ensures writes == [] && flags == DefaultFlags
    {
      writes := [];
      flags := DefaultFlags;
    }

    /** The characters received so far (`str()` of a string stream). */
    function Text(): string
      reads this
    {
      Concat(writes)
    }

    /** One `<<` of already-rendered text. */
    method Write(s: string)
      modifies this`writes
      ensures writes == old(writes) + [s]
    {
      writes := writes + [s];
    }

    /** One `<<` of a value or manipulator. */
    method Put(item: Item)
      modifies this
      ensures writes == old(writes) + ItemWrites(item)
      ensures flags == ItemFlags(old(flags), item)
    {
      match item
      case Text(s) => Write(s);
      case Manip(c, p) => flags := flags - c + p;
    }

    /** `<< std::resetiosflags(mask)`: clears the masked flags, writes nothing. */
    method ResetFlags(mask: set<FormatFlag>)
      modifies this`flags
      ensures flags == old(flags) - mask
    {
      flags := flags - mask;
    }

    /** `str(std::string())`: empties a string stream. */
    method Empty()
      modifies this`writes
      ensures writes == [] && Text() == []
    {
      writes := [];
    }
  }
}
