/**
 * Message severities, shared by both formatter variants
 * (enum LogLevel in include/einhard/einhard.hpp).
 */
module Levels {

  /** Severities in declaration order: All is the most verbose, Off suppresses everything. */
  datatype LogLevel = All | Trace | Debug | Info | Warn | Error | Fatal | Off

  /** The integer value of the enumerator (its position in the declaration). */
  function Rank(l: LogLevel): nat
  {
    match l
    case All => 0
    case Trace => 1
    case Debug => 2
    case Info => 3
    case Warn => 4
    case Error => 5
    case Fatal => 6
    case Off => 7
  }

  /** The C++ comparison `a <= b` on enumerators. */
  predicate Le(a: LogLevel, b: LogLevel)
  {
    Rank(a) <= Rank(b)
  }

  /** The six levels that have an emission stream of their own (trace() ... fatal()). */
  predicate IsMessageLevel(l: LogLevel)
  {
    Le(Trace, l) && Le(l, Fatal)
  }

  /** The identifier of each enumerator, as written in the source. */
  function Name(l: LogLevel): string
  {
    match l
    case All => "ALL"
    case Trace => "TRACE"
    case Debug => "DEBUG"
    case Info => "INFO"
    case Warn => "WARN"
    case Error => "ERROR"
    case Fatal => "FATAL"
    case Off => "OFF"
  }

  /** The declaration order is a total order on the eight levels, with All least and Off greatest. */
  lemma LeIsTotalOrder(a: LogLevel, b: LogLevel, c: LogLevel)
    ensures Le(a, a)
    ensures Le(a, b) && Le(b, a) ==> a == b
    ensures Le(a, b) && Le(b, c) ==> Le(a, c)
    ensures Le(a, b) || Le(b, a)
    ensures Le(All, a) && Le(a, Off)
  {
  }

  /** A message level is exactly one strictly between All and Off. */
  lemma MessageLevels(l: LogLevel)
    ensures IsMessageLevel(l) <==> l != All && l != Off
  {
  }
}
