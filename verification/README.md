# Einhard, modelled in Dafny

Einhard is a small C++ logging library. A `Logger<MAX, THREADSAFE>` has a runtime
verbosity and a colorize flag. Its `trace()` … `fatal()` calls hand out an
`OutputFormatter` for one log line. A formatter that passes the severity gate writes a
prefix: an optional level colour, the time as `[HH:MM:SS]`, the level name, `": "` and an
optional clear code. Streamed values and colour tokens follow. When the formatter is
destroyed it resets the stream's format flags and ends the line. In the THREADSAFE
variant the line is built in a private string stream and handed to `std::cout` in one
write.

The repository holds two versions of the formatter:

- `include/einhard/einhard.hpp`, the header-only version. It is modelled in module
  `Einhard`.
- `src/einhard.cpp`, a later out-of-line version. It uses right-aligned five-character
  level tags, gives TRACE a colour, writes an optional area name, and collects each line
  in a per-thread buffer that is flushed to stdout in one write. It is modelled in module
  `EinhardOutOfLine`.

Both modules share the `LogLevel` datatype. They keep their own level strings and colour
tables, and lemma `EinhardOutOfLine.VariantsDiffer` states where those tables differ.

Modules:

- `Levels`: the ordered `LogLevel` enumeration.
- `Colors`: the colour palette, its ANSI escape table and colour tokens (`Color<P>()`
  and `operator~`).
- `Render`: two-digit zero-padded time fields, the `[HH:MM:SS]` stamp, C-string
  truncation at NUL, and `Concat` of a write log.
- `Streams`: an output stream as a class whose `writes` field records every write of
  text as one element and whose `flags` field holds the iostream format flags as an
  abstract set.
  `Text()` is the concatenation of the writes. Recording each write separately is what
  lets the model say that a whole line reaches the real stream in a single write.
- `Einhard`: the header version. It holds `getLogLevelString`, the `be*` gate, the
  `OutputFormatter` class (constructor, both `operator<<`, destructor) and the `Logger`
  class.
- `EinhardOutOfLine`: the out-of-line version. It holds `colorForLogLevel<L>`,
  `getLogLevelString<L>`, `doInit`, `checkColorReset` and `doCleanup`.
- `SimpleTest`: client scenarios after `tests/simpleTest.cpp` and `tests/threaded.cpp`,
  with the clock fixed at 12:34:56. Each scenario states the exact writes, gate results
  or flags it produces.

The template parameters `MAX` and `THREADSAFE` and the `NDEBUG` switch become fields of
the classes. The wall-clock time and the `isatty` probe become parameters.

Behaviour worth knowing:

- The header's destructor does not write the clear code for a colour token that is still
  pending. A line ending in `<< Blue()` therefore leaves the colour on.
- WARN is displayed as `"WARNING"` in the header and as `" WARN"` in the out-of-line file.
- Only the out-of-line file writes an area name and a colour for TRACE.
- The fields of the time stamp are separated by `':'`.

## Model

| member | source | states |
|---|---|---|
| Levels.LeIsTotalOrder | include/einhard/einhard.hpp:80-93 | The level order is reflexive, antisymmetric, transitive and total, with ALL least and OFF greatest. |
| Levels.MessageLevels | include/einhard/einhard.hpp:304-315 | The levels that have a message stream (TRACE to FATAL) are exactly those other than ALL and OFF. |
| Colors.NewColor | include/einhard/einhard.hpp:103-106 | A freshly made colour token carries its colour and is one-shot (`reset` is true). |
| Colors.Persist | include/einhard/einhard.hpp:107 | `operator~` keeps the colour and makes the token persistent (`reset` false). |
| Colors.AnsiShape | include/einhard/einhard.hpp:111-114 | Every escape sequence starts with ESC, ends with 'm', and holds no other ESC. |
| Colors.AnsiInjective | include/einhard/einhard.hpp:116-132 | Two colours have the same escape sequence if and only if they are the same colour. |
| Render.DecimalRoundTrip | include/einhard/einhard.hpp:195-199 | Reading the decimal digits of a number back gives the number. |
| Render.PadTwoRoundTrip | src/einhard.cpp:102-108 | A zero-padded time field has at least two digits and reads back as its value. It is exactly two characters long if and only if the value is at most 99. |
| Render.StampLayout | include/einhard/einhard.hpp:194-200 | For a valid time the stamp is 10 characters: '[' at 0, ':' at 3 and 6, ']' at 9, and the digit pairs read back as hour, minute and second. |
| Render.StampText | include/einhard/einhard.hpp:194-200 | The stamp's writes concatenate to `[` hour `:` minute `:` second `]`. |
| Render.StampAvoids | include/einhard/einhard.hpp:194-200 | The stamp contains no character other than digits, brackets and colons. In particular it holds no ESC. |
| Render.CString | src/einhard.cpp:114-117 | A `char*` read as text is a prefix of the buffer without NUL. It is the whole buffer or stops at its first NUL. |
| Streams.ResetForgetsLine | include/einhard/einhard.hpp:253-256 | After `resetiosflags` with the destructor's mask, a flag is still set if and only if it was set and is outside the mask (skipws, unitbuf). |
| Streams.WriteStamp | include/einhard/einhard.hpp:194-200 | The stamp is written as seven writes (`[`, hh, `:`, mm, `:`, ss, `]`). The flags are unchanged. |
| Streams.Stream.Put | include/einhard/einhard.hpp:238 | Streaming a value appends its text. Streaming a manipulator writes nothing and clears and sets its flags. |
| Streams.Stream.ResetFlags | include/einhard/einhard.hpp:253-256 | `resetiosflags` removes exactly the masked flags and leaves the writes alone. |
| Streams.Stream.Empty | src/einhard.cpp:146 | `str(std::string())` leaves the buffer with no text. |
| Einhard.LevelStringIsName | include/einhard/einhard.hpp:376-399 | `getLogLevelString` returns "WARNING" for WARN and the enumerator's own name for every other level. |
| Einhard.LevelStringInjective | include/einhard/einhard.hpp:376-399 | Two levels have the same display name if and only if they are the same level. |
| Einhard.LevelStringLetters | include/einhard/einhard.hpp:376-399 | Display names consist of upper-case letters only. |
| Einhard.ColorBalanced | include/einhard/einhard.hpp:168-221 | A level gets an opening colour exactly when the second switch writes the clear code, and those are the levels DEBUG to FATAL. |
| Einhard.PrefixLayout | include/einhard/einhard.hpp:160-222 | The prefix text is `[HH:MM:SS] NAME: `. It is wrapped in the level's colour and the clear code exactly when colorize is on and the level has a colour. |
| Einhard.PrefixEscapes | include/einhard/einhard.hpp:168-221 | The prefix contains an ESC exactly when colorize is on and the level is DEBUG to FATAL. |
| Einhard.GateRule | include/einhard/einhard.hpp:409-485 | `beL()` holds if and only if `MAX <= L` and `verbosity <= L`, and, under NDEBUG, L is above DEBUG. |
| Einhard.GateMonotone | include/einhard/einhard.hpp:443-485 | If a level passes the gate, every more severe level up to FATAL passes too. |
| Einhard.StaticBoundWins | include/einhard/einhard.hpp:409-433 | A level below `MAX` never passes, whatever the runtime verbosity. |
| Einhard.WritePrefix | include/einhard/einhard.hpp:168-221 | The constructor's writes, in order: optional colour, stamp, `" "`, name, `": "`, optional clear. The flags are unchanged. |
| Einhard.OutputFormatter.constructor | include/einhard/einhard.hpp:156-223 | A null stream gives an inert formatter. Otherwise the prefix goes to the stream itself, or with THREADSAFE to a fresh private buffer while the real stream stays untouched. No reset is pending. |
| Einhard.OutputFormatter.AppendColor | include/einhard/einhard.hpp:225-232 | With a stream and colorize on, the token writes its code and sets the pending reset to its `reset` flag. Otherwise nothing is written and the pending reset is kept. |
| Einhard.OutputFormatter.Append | include/einhard/einhard.hpp:234-246 | A value is written, followed by the clear code exactly when a reset was pending, and no reset is pending afterwards. A disabled formatter changes nothing. |
| Einhard.OutputFormatter.Finish | include/einhard/einhard.hpp:248-266 | The destructor clears the masked flags and writes exactly one `"\n"`. With THREADSAFE the real stream receives the whole buffered line in one write and keeps its flags. |
| Einhard.Logger.constructor | include/einhard/einhard.hpp:302 | `Logger(verbosity, colorize)` stores both as given. `MAX` and `THREADSAFE` default to ALL and false, as in the template declaration at line 278. |
| Einhard.Logger.OnTerminal | include/einhard/einhard.hpp:291-295 | `Logger(verbosity = WARN)` stores the verbosity, WARN when none is given, and colorizes exactly when stdout is a terminal. `MAX` and `THREADSAFE` default to ALL and false. |
| Einhard.Logger.Open | include/einhard/einhard.hpp:401-480 | `trace()` … `fatal()` hand out a formatter on `std::cout` when `beL()` holds, with the prefix written there or to a fresh buffer (THREADSAFE). Otherwise they hand out an inert formatter, and `std::cout` is unchanged. |
| Einhard.Logger.SetVerbosity | include/einhard/einhard.hpp:335-338 | Only `verbosity` changes, and it becomes the given level. |
| Einhard.Logger.GetVerbosity | include/einhard/einhard.hpp:345-348 | Returns the current verbosity. |
| Einhard.Logger.GetVerbosityString | include/einhard/einhard.hpp:352-355 | Returns the display name of the current verbosity. |
| Einhard.Logger.SetColorize | include/einhard/einhard.hpp:359-362 | Only `colorize` changes, and it becomes the given flag. |
| Einhard.Logger.GetColorize | include/einhard/einhard.hpp:366-369 | Returns the current colorize flag. |
| EinhardOutOfLine.ColorForLevelInjective | src/einhard.cpp:28-51 | `colorForLogLevel<L>` is defined for TRACE to FATAL and gives each of them a different escape sequence. |
| EinhardOutOfLine.LevelTag | src/einhard.cpp:53-84 | Every level tag is exactly five characters long. |
| EinhardOutOfLine.LevelTagIsAlignedName | src/einhard.cpp:53-84 | Every tag is the enumerator's name right-aligned in five columns. |
| EinhardOutOfLine.LevelTagInjective | src/einhard.cpp:53-84 | Two levels have the same tag if and only if they are the same level. |
| EinhardOutOfLine.LevelTagChars | src/einhard.cpp:53-84 | Tags hold only spaces and upper-case letters. |
| EinhardOutOfLine.VariantsDiffer | src/einhard.cpp:28-84 | This file's colour equals the header's exactly for INFO to FATAL. Its tag equals the header's name exactly for the levels TRACE to FATAL other than INFO and WARN. |
| EinhardOutOfLine.AreaText | src/einhard.cpp:114-117 | `' ' + areaName` is written if and only if the area name is non-null and non-empty. Otherwise nothing is written. |
| EinhardOutOfLine.InitLayout | src/einhard.cpp:86-124 | The line start is `[HH:MM:SS] TAG[ area]: `, with the area between tag and colon. It is wrapped in the level's colour and the clear code exactly when colorize is on. |
| EinhardOutOfLine.InitEscapes | src/einhard.cpp:89-123 | If the area name has no ESC, the line start contains an ESC exactly when colorize is on. |
| EinhardOutOfLine.OutputFormatter.DoInit | src/einhard.cpp:86-124 | `doInit` binds `out` to the buffer and appends the line start there. The pending reset and the flags are kept, and stdout receives nothing. |
| EinhardOutOfLine.OutputFormatter.PushColor | include/einhard/einhard.hpp:225-232 | A colour token behaves as in the header: with a bound buffer and colorize on, it writes the code and sets the pending reset. Otherwise nothing changes. |
| EinhardOutOfLine.OutputFormatter.CheckColorReset | src/einhard.cpp:133-140 | The clear code is written exactly when a reset was pending, and no reset is pending afterwards. stdout is untouched. |
| EinhardOutOfLine.OutputFormatter.DoCleanup | src/einhard.cpp:142-148 | stdout receives the old buffer text followed by `'\n'` in one write, and the buffer is left empty. |
| SimpleTest.NoonDigits | include/einhard/einhard.hpp:195-199 | 12, 34 and 56 are written as "12", "34" and "56". |
| SimpleTest.NoonInfoPrefix | include/einhard/einhard.hpp:168-221 | The exact INFO prefix writes at 12:34:56, without and with colour. |
| SimpleTest.NoonWarnBase | tests/simpleTest.cpp:33-39 | The out-of-line WARN line start at 12:34:56 in area "base": `[12:34:56]  WARN base: `. |
| SimpleTest.DefaultGates | tests/simpleTest.cpp:32-126 | `Logger<> baseLogger;` starts at verbosity WARN, where exactly warn, error and fatal pass. After `setVerbosity(ALL)` all levels pass, except trace and debug under NDEBUG. |
| SimpleTest.StaticBoundCapsVerbosity | include/einhard/einhard.hpp:409-433 | With `MAX = INFO`, `setVerbosity(ALL)` is reflected by `getVerbosity`, and trace and debug still do not pass. |
| SimpleTest.TestSomeColors | tests/simpleTest.cpp:67-68 | The exact writes of the "Test some colors" chain with colour on (one-shot cleared, persistent not) and off (tokens write nothing). |
| SimpleTest.OneShotBlue | tests/simpleTest.cpp:67 | With colour on, a one-shot `Blue()` is cleared right after the next value and not after the one after. With colour off the token writes nothing. |
| SimpleTest.PersistentCyan | tests/simpleTest.cpp:68 | With colour on, `~Cyan()` is never cleared, and the one-shot `NoColor()` is cleared after "normal". With colour off the tokens write nothing. |
| SimpleTest.ColorsLine | tests/simpleTest.cpp:67-101 | The whole "Test some colors" line on `std::cout`, prefix to newline, with colour on and off. |
| SimpleTest.DisabledWritesNothing | include/einhard/einhard.hpp:401-485 | For any logger (any `MAX`, THREADSAFE or not, NDEBUG or not, any verbosity and colorize flag) and any level that fails the gate, the formatter leaves `std::cout` unchanged (no write, no flag) for any chain of values, manipulators and colour tokens streamed into it and through its destructor. |
| SimpleTest.ScientificDoesNotLeak | tests/simpleTest.cpp:103-104 | `std::scientific` is set during its line and cleared before the next one. |
| SimpleTest.ThreadsafeLine | tests/threaded.cpp:50-55 | With THREADSAFE, `std::cout` receives nothing while the line is built, then the whole line in one write. |
| SimpleTest.AreaLine | tests/simpleTest.cpp:33-39 | The out-of-line WARN line in area "base" reaches stdout as one write, and the buffer is left empty. |
| SimpleTest.ColorResetOnce | src/einhard.cpp:133-140 | `checkColorReset` writes the clear code after the value once. A second call writes nothing. |

## Left out

- `time`/`localtime`: the time of day is a parameter (`Time`). `ValidTime` states the
  range `localtime` guarantees.
- `isatty(fileno(stdout))`: a boolean parameter of `Logger.OnTerminal`.
- Rendering of arbitrary `T` by `operator<<`: values are already-rendered strings. Format
  flags are an abstract set, with no numeric or floating-point formatting.
- Einhard.WritePrefix, EinhardOutOfLine.OutputFormatter.DoInit and Streams.WriteStamp:
  the time fields are rendered as under the default basefield, adjustfield and showpos
  settings, whatever the stream's flags hold. In the program `std::setw(2) << tm_hour`
  goes through the stream's current flags, so a Hex, Left or ShowPos flag left set on
  `std::cout` (or on `t_out`, whose flags `doCleanup` never resets) would change the
  stamp, for example hour 12 as "0c".
- `std::setfill('0')` persists on the stream after the prefix in the real program. The
  model keeps no fill character, and padding is computed directly by `PadTwo`.
- `std::endl` flushes and `'\n'` does not. Both are modelled as writing `"\n"`.
  `fwrite` is modelled as one write to a stream.
- `thread_local` storage: `t_out` is an ordinary stream passed in.
- Concurrency: the boost threads of `tests/threaded.cpp` are not modelled. The model
  makes no claim about atomicity across threads, only about the single write per line.
- The global-instance and multi-file wiring of `tests/source1.cpp` and
  `tests/commonsource.h`, the `VERSION` strings, and the `EINHARD_STREAM*` macros.
- `setAreaName` and `isEnabled<L>()` are called by the tests but defined in neither source file. The scenarios use `Logger.Be` for
  `isEnabled` and pass the area name to `DoInit` directly.
- The class declaration behind `src/einhard.cpp` is not part of this model. The
  out-of-line `OutputFormatter` constructor (unbound `out`, no pending reset) and
  `PushColor` are assumed to behave as the header's.
- Einhard.LevelString: the `default:` branch of `getLogLevelString` cannot be reached
  with a Dafny datatype, so it is not modelled.
- Einhard.Logger.GetColorize: the source declares `getColorize` as `void` but returns the
  flag. It is modelled as returning `bool`.
- Copying and moving `OutputFormatter` values: the model keeps one object per line, so
  copying a formatter is not modelled.
