/**
 * Text produced by the formatters: zero-padded decimal fields, the bracketed
 * timestamp, C strings, and the text a sequence of stream writes amounts to.
 */
module Render {

  predicate IsDigit(c: char)
  {
    '0' <= c <= '9'
  }

  predicate AllDigits(s: string)
  {
    forall i :: 0 <= i < |s| ==> IsDigit(s[i])
  }

  function DigitChar(d: nat): (c: char)
    requires d < 10
    ensures IsDigit(c) && c as int - '0' as int == d
  {
    ('0' as int + d) as char
  }

  /** The value of a string of decimal digits (the reading of what Decimal writes). */
  function DigitsValue(s: string): nat
    requires AllDigits(s)
  {
    if s == [] then 0
    else 10 * DigitsValue(s[..|s| - 1]) + (s[|s| - 1] as int - '0' as int)
  }

  /** `out << n` for a non-negative int: its decimal digits, without leading zeros. */
  function Decimal(n: nat): (r: string)
    ensures 1 <= |r| && AllDigits(r)
    ensures (n < 10) == (|r| == 1)
    ensures (n < 100) == (|r| <= 2)
  {
    if n < 10 then [DigitChar(n)] else Decimal(n / 10) + [DigitChar(n % 10)]
  }

  /** Reading back what Decimal writes gives the number. */
  lemma {:induction false} DecimalRoundTrip(n: nat)
    ensures DigitsValue(Decimal(n)) == n
  {
    var r := Decimal(n);
    if n < 10 {
      assert r[..0] == [];
    } else {
      DecimalRoundTrip(n / 10);
      assert r[..|r| - 1] == Decimal(n / 10);
    }
  }

  /**
   * `out << std::setfill('0') << std::setw(2) << n`: the digits of n, padded on the
   * left with '0' to at least two characters (setw sets a minimum, it never truncates).
   */
  function PadTwo(n: nat): string
  {
    var d := Decimal(n);
    if |d| < 2 then "0" + d else d
  }

  /** PadTwo writes only digits, reads back as n, and is exactly two characters for n <= 99. */
  lemma PadTwoRoundTrip(n: nat)
    ensures 2 <= |PadTwo(n)| && AllDigits(PadTwo(n))
    ensures DigitsValue(PadTwo(n)) == n
    ensures n <= 99 <==> |PadTwo(n)| == 2
  {
    var d := Decimal(n);
    DecimalRoundTrip(n);
    if |d| < 2 {
      var p := "0" + d;
      assert p[..1] == "0" && p[..|p| - 1] == p[..1];
      assert DigitsValue("0") == 10 * DigitsValue([]) + 0;
    }
  }

  /** The broken-down local time fields a prefix shows (tm_hour, tm_min, tm_sec). */
  datatype Time = Time(hour: nat, minute: nat, second: nat)

  /** The ranges `localtime` guarantees (a leap second may show as 60). */
  predicate ValidTime(t: Time)
  {
    t.hour < 24 && t.minute < 60 && t.second <= 60
  }

  /** The text that a sequence of writes leaves in a stream. */
  function Concat(ws: seq<string>): string
  {
    if ws == [] then [] else Concat(ws[..|ws| - 1]) + ws[|ws| - 1]
  }

  /** Writing two runs one after the other leaves the concatenation of their texts. */
  lemma {:induction false} ConcatAppend(a: seq<string>, b: seq<string>)
    ensures Concat(a + b) == Concat(a) + Concat(b)
  {
    if b != [] {
      assert (a + b)[..|a + b| - 1] == a + b[..|b| - 1];
      ConcatAppend(a, b[..|b| - 1]);
    } else {
      assert a + b == a;
    }
  }

  /** A run of writes framed by one write before it and one after it. */
  lemma ConcatFramed(o: string, ws: seq<string>, c: string)
    ensures Concat([o] + ws + [c]) == o + Concat(ws) + c
  {
    ConcatAppend([o] + ws, [c]);
    ConcatAppend([o], ws);
    ConcatSnoc([], o);
    ConcatSnoc([], c);
  }

  /** A character that no write contains does not appear in their text. */
  lemma {:induction false} ConcatAvoids(ws: seq<string>, c: char)
    requires forall i :: 0 <= i < |ws| ==> c !in ws[i]
    ensures c !in Concat(ws)
  {
    if ws != [] {
      ConcatAvoids(ws[..|ws| - 1], c);
    }
  }

  /** The seven writes of the timestamp: '[', hour, ':', minute, ':', second, ']'. */
  function StampPieces(t: Time): seq<string>
  {
    ["[", PadTwo(t.hour), ":", PadTwo(t.minute), ":", PadTwo(t.second), "]"]
  }

  /**
   * For a valid time the stamp is the ten characters `[HH:MM:SS]`, each field two
   * digits that read back as the field's value.
   */
  lemma StampLayout(t: Time)
    requires ValidTime(t)
    ensures var s := Concat(StampPieces(t));
      && |s| == 10 && s[0] == '[' && s[3] == ':' && s[6] == ':' && s[9] == ']'
      && AllDigits(s[1..3]) && DigitsValue(s[1..3]) == t.hour
      && AllDigits(s[4..6]) && DigitsValue(s[4..6]) == t.minute
      && AllDigits(s[7..9]) && DigitsValue(s[7..9]) == t.second
  {
    PadTwoRoundTrip(t.hour);
    PadTwoRoundTrip(t.minute);
    PadTwoRoundTrip(t.second);
    var s := "[" + PadTwo(t.hour) + ":" + PadTwo(t.minute) + ":" + PadTwo(t.second) + "]";
    StampText(t);
    assert s[1..3] == PadTwo(t.hour);
    assert s[4..6] == PadTwo(t.minute);
    assert s[7..9] == PadTwo(t.second);
  }

  /** Adding one write adds its text at the end. */
  lemma ConcatSnoc(ws: seq<string>, w: string)
    ensures Concat(ws + [w]) == Concat(ws) + w
  {
    assert (ws + [w])[..|ws|] == ws;
  }

  /** The stamp's writes spelled out as one string. */
  lemma StampText(t: Time)
    ensures Concat(StampPieces(t))
         == "[" + PadTwo(t.hour) + ":" + PadTwo(t.minute) + ":" + PadTwo(t.second) + "]"
  {
    var h, m, s := PadTwo(t.hour), PadTwo(t.minute), PadTwo(t.second);
    assert [] + ["["] == ["["];
    ConcatSnoc([], "[");
    assert ["["] + [h] == ["[", h];
    ConcatSnoc(["["], h);
    assert ["[", h] + [":"] == ["[", h, ":"];
    ConcatSnoc(["[", h], ":");
    assert ["[", h, ":"] + [m] == ["[", h, ":", m];
    ConcatSnoc(["[", h, ":"], m);
    assert ["[", h, ":", m] + [":"] == ["[", h, ":", m, ":"];
    ConcatSnoc(["[", h, ":", m], ":");
    assert ["[", h, ":", m, ":"] + [s] == ["[", h, ":", m, ":", s];
    ConcatSnoc(["[", h, ":", m, ":"], s);
    assert ["[", h, ":", m, ":", s] + ["]"] == StampPieces(t);
    ConcatSnoc(["[", h, ":", m, ":", s], "]");
  }

  /** The stamp contains no character outside digits, brackets and colons. */
  lemma StampAvoids(t: Time, c: char)
    requires !IsDigit(c) && c != '[' && c != ']' && c != ':'
    ensures c !in Concat(StampPieces(t))
  {
    PadTwoRoundTrip(t.hour);
    PadTwoRoundTrip(t.minute);
    PadTwoRoundTrip(t.second);
    ConcatAvoids(StampPieces(t), c);
  }

  /**
   * The characters a `char const *` designates: everything before the first NUL.
   * A Dafny string without a NUL stands for itself.
   */
  function CString(s: string): (r: string)
    ensures r <= s && '\0' !in r
    ensures r == s || s[|r|] == '\0'
  {
    if s == [] || s[0] == '\0' then [] else [s[0]] + CString(s[1..])
  }
}
