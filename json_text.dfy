/**
 * The one piece of JSON text the relay writes itself: a string value as
 * json.dumps renders it with its default ensure_ascii=True, and the decoding
 * a JSON reader applies to it. Only string values are modelled; everything
 * else about JSON is abstracted where it is used.
 */
module JsonText {
  import opened Wrappers

  const HexDigits: string := "0123456789abcdef"

  /** Four lower-case hexadecimal digits, as '{0:04x}'.format(n). */
  function Hex4(n: nat): (r: string)
    requires n < 0x1_0000
    ensures |r| == 4
  {
    var q1 := n / 16;
    var q2 := q1 / 16;
    [HexDigits[q2 / 16], HexDigits[q2 % 16], HexDigits[q1 % 16], HexDigits[n % 16]]
  }

  /** The value of one hexadecimal digit in either case, as a JSON reader accepts it. */
  function HexValue(c: char): (r: Option<nat>)
    ensures r.Some? ==> r.value < 16
  {
    if '0' <= c <= '9' then Some(c as int - '0' as int)
    else if 'a' <= c <= 'f' then Some(c as int - 'a' as int + 10)
    else if 'A' <= c <= 'F' then Some(c as int - 'A' as int + 10)
    else None
  }

  /** The value of the four hexadecimal digits of a \uXXXX escape. */
  function Hex4Value(s: string): (r: Option<nat>)
    requires |s| == 4
    ensures r.Some? ==> r.value < 0x1_0000
  {
    match (HexValue(s[0]), HexValue(s[1]), HexValue(s[2]), HexValue(s[3]))
    case (Some(a), Some(b), Some(c), Some(d)) =>
      Some(((a * 16 + b) * 16 + c) * 16 + d)
    case _ => None
  }

  lemma HexDigitValue(d: nat)
    requires d < 16
    ensures HexValue(HexDigits[d]) == Some(d)
  {
  }

  /** Reading four written hexadecimal digits gives back the number. */
  lemma Hex4RoundTrip(n: nat)
    requires n < 0x1_0000
    ensures Hex4Value(Hex4(n)) == Some(n)
  {
    var q1 := n / 16;
    var q2 := q1 / 16;
    var a, b, c, d := q2 / 16, q2 % 16, q1 % 16, n % 16;
    Hex4Digits(n);
    HexDigitValue(a);
    HexDigitValue(b);
    HexDigitValue(c);
    HexDigitValue(d);
    assert Hex4Value(Hex4(n)) == Some(((a * 16 + b) * 16 + c) * 16 + d);
  }

  /** The four digits Hex4 picks are the base-16 digits of n. */
  lemma Hex4Digits(n: nat)
    requires n < 0x1_0000
    ensures var q1 := n / 16; var q2 := q1 / 16;
      q2 / 16 < 16 && ((q2 / 16 * 16 + q2 % 16) * 16 + q1 % 16) * 16 + n % 16 == n
  {
    var q1 := n / 16;
    var q2 := q1 / 16;
    assert n == q1 * 16 + n % 16;
    assert q1 == q2 * 16 + q1 % 16;
    assert q2 == q2 / 16 * 16 + q2 % 16;
  }

  const Backspace: char := '\U{8}'
  const FormFeed: char := '\U{C}'

  /** A \uXXXX escape for one UTF-16 code unit. */
  function UnitEscape(u: nat): string
    requires u < 0x1_0000
  {
    "\\u" + Hex4(u)
  }

  /** How json.dumps writes one character inside a string literal: the two
      characters that must be escaped and the five with a short escape use
      their backslash forms, printable ASCII stands for itself, and every
      other character becomes \uXXXX (CodePointEscape). */
  function EscapeChar(c: char): string
  {
    if c == '"' then "\\\""
    else if c == '\\' then "\\\\"
    else if c == '\n' then "\\n"
    else if c == '\r' then "\\r"
    else if c == '\t' then "\\t"
    else if c == Backspace then "\\b"
    else if c == FormFeed then "\\f"
    else if ' ' <= c <= '~' then [c]
    else CodePointEscape(c as int)
  }

  /** The \uXXXX form of a code point: one escape below U+10000, otherwise
      the escapes of its UTF-16 surrogate pair. CPython's json encoder
      computes the pair as 0xd800 | ((n >> 10) & 0x3ff) and
      0xdc00 | (n & 0x3ff), with n = cp - 0x10000; n is always below
      0x100000, so these equal the sums written here. */
  function CodePointEscape(cp: nat): string
    requires cp < 0x11_0000
  {
    if cp < 0x1_0000 then UnitEscape(cp)
    else UnitEscape(HighSurrogate(cp)) + UnitEscape(LowSurrogate(cp))
  }

  function HighSurrogate(cp: nat): (u: nat)
    requires 0x1_0000 <= cp < 0x11_0000
    ensures 0xD800 <= u < 0xDC00
  {
    0xD800 + (cp - 0x1_0000) / 0x400
  }

  function LowSurrogate(cp: nat): (u: nat)
    requires 0x1_0000 <= cp < 0x11_0000
    ensures 0xDC00 <= u < 0xE000
  {
    0xDC00 + (cp - 0x1_0000) % 0x400
  }

  /** The body of the string literal json.dumps writes for s. */
  function Escape(s: string): string
  {
    if s == [] then [] else EscapeChar(s[0]) + Escape(s[1..])
  }

  /** The string literal json.dumps writes for s. */
  function Quote(s: string): string
  {
    "\"" + Escape(s) + "\""
  }

  /** What json.dumps writes is plain printable ASCII: no line break can
      appear inside it. */
  lemma {:induction false} EscapeIsPrintable(s: string)
    ensures Printable(Escape(s))
  {
    if s != [] {
      EscapeIsPrintable(s[1..]);
      EscapeCharIsPrintable(s[0]);
      assert Escape(s) == EscapeChar(s[0]) + Escape(s[1..]);
    }
  }

  lemma QuoteIsPrintable(s: string)
    ensures Printable(Quote(s))
  {
    EscapeIsPrintable(s);
    PrintableAppend("\"", Escape(s));
    PrintableAppend("\"" + Escape(s), "\"");
  }

  predicate Printable(s: string)
  {
    forall i :: 0 <= i < |s| ==> ' ' <= s[i] <= '~'
  }

  lemma PrintableAppend(a: string, b: string)
    requires Printable(a) && Printable(b)
    ensures Printable(a + b)
  {
  }

  lemma UnitEscapeIsPrintable(u: nat)
    requires u < 0x1_0000
    ensures Printable(UnitEscape(u))
  {
    var q1 := u / 16;
    var q2 := q1 / 16;
    HexDigitIsPrintable(q2 / 16);
    HexDigitIsPrintable(q2 % 16);
    HexDigitIsPrintable(q1 % 16);
    HexDigitIsPrintable(u % 16);
    assert Printable(Hex4(u));
    PrintableAppend("\\u", Hex4(u));
  }

  lemma HexDigitIsPrintable(d: nat)
    requires d < 16
    ensures ' ' <= HexDigits[d] <= '~'
  {
  }

  lemma EscapeCharIsPrintable(c: char)
    ensures Printable(EscapeChar(c))
  {
    if ' ' <= c <= '~' || c == '\n' || c == '\r' || c == '\t' || c == Backspace || c == FormFeed {
    } else if c as int < 0x1_0000 {
      UnitEscapeIsPrintable(c as int);
    } else {
      var hi, lo := HighSurrogate(c as int), LowSurrogate(c as int);
      UnitEscapeIsPrintable(hi);
      UnitEscapeIsPrintable(lo);
      PrintableAppend(UnitEscape(hi), UnitEscape(lo));
    }
  }

  function ShortEscape(c: char): Option<char>
  {
    match c
    case '"' => Some('"')
    case '\\' => Some('\\')
    case '/' => Some('/')
    case 'b' => Some(Backspace)
    case 'f' => Some(FormFeed)
    case 'n' => Some('\n')
    case 'r' => Some('\r')
    case 't' => Some('\t')
    case _ => None
  }

  /** The text a JSON reader recovers from the body of a string literal, or
      None when the body is not valid JSON or holds an unpaired surrogate. */
  function Unescape(s: string): Option<string>
    decreases |s|
  {
    if s == [] then Some([])
    else
      match DecodeOne(s)
      case None => None
      case Some(d) =>
        match Unescape(s[d.width..])
        case None => None
        case Some(rest) => Some([d.ch] + rest)
  }

  /** One decoded character and the number of input characters it used. */
  datatype Decoded = Decoded(ch: char, width: nat)

  /** Reads the character at the front of a string literal's body. */
  function DecodeOne(s: string): (r: Option<Decoded>)
    requires s != []
    ensures r.Some? ==> 0 < r.value.width <= |s|
  {
    if s[0] != '\\' then
      if s[0] == '"' || s[0] < ' ' then None else Some(Decoded(s[0], 1))
    else if |s| >= 2 && ShortEscape(s[1]).Some? then Some(Decoded(ShortEscape(s[1]).value, 2))
    else if |s| >= 6 && s[1] == 'u' then DecodeUnicode(s)
    else None
  }

  /** Reads a \uXXXX escape, joining a high surrogate with the low surrogate
      escape that must follow it. */
  function DecodeUnicode(s: string): (r: Option<Decoded>)
    requires |s| >= 6
    ensures r.Some? ==> 0 < r.value.width <= |s|
  {
    match Hex4Value(s[2..6])
    case None => None
    case Some(u) =>
      if 0xDC00 <= u < 0xE000 then None
      else if !(0xD800 <= u < 0xDC00) then Some(Decoded(u as char, 6))
      else if |s| >= 12 && s[6] == '\\' && s[7] == 'u' then
        match Hex4Value(s[8..12])
        case None => None
        case Some(v) =>
          if 0xDC00 <= v < 0xE000
          then Some(Decoded((0x1_0000 + (u - 0xD800) * 0x400 + (v - 0xDC00)) as char, 12))
          else None
      else None
  }

  lemma DecodeUnit(u: nat, rest: string)
    requires u < 0x1_0000 && !(0xD800 <= u < 0xE000)
    ensures DecodeOne(UnitEscape(u) + rest) == Some(Decoded(u as char, 6))
  {
    var s := UnitEscape(u) + rest;
    Hex4RoundTrip(u);
    assert s[2..6] == Hex4(u);
  }

  lemma DecodePair(cp: nat, rest: string)
    requires 0x1_0000 <= cp < 0x11_0000
    ensures DecodeOne(CodePointEscape(cp) + rest) == Some(Decoded(cp as char, 12))
  {
    var hi, lo := UnitEscape(HighSurrogate(cp)), UnitEscape(LowSurrogate(cp));
    assert CodePointEscape(cp) == hi + lo;
    var s := hi + lo + rest;
    assert s[0] == '\\' && s[1] == 'u';
    DecodeOneUnicode(s);
    DecodeSurrogates(cp, rest);
  }

  /** A backslash followed by u is read as a \uXXXX escape. */
  lemma DecodeOneUnicode(s: string)
    requires |s| >= 6 && s[0] == '\\' && s[1] == 'u'
    ensures DecodeOne(s) == DecodeUnicode(s)
  {
  }

  /** The two surrogates put the code point back together. */
  lemma SurrogatesCombine(cp: nat)
    requires 0x1_0000 <= cp < 0x11_0000
    ensures 0x1_0000 + (HighSurrogate(cp) - 0xD800) * 0x400 + (LowSurrogate(cp) - 0xDC00) == cp
  {
    var n := cp - 0x1_0000;
    assert n == n / 0x400 * 0x400 + n % 0x400;
  }

  /** Where the digits of two \u escapes in a row sit. */
  lemma UnitPairLayout(hi: nat, lo: nat, rest: string)
    requires hi < 0x1_0000 && lo < 0x1_0000
    ensures var s := UnitEscape(hi) + UnitEscape(lo) + rest;
      |s| >= 12 && s[2..6] == Hex4(hi) && s[6] == '\\' && s[7] == 'u' && s[8..12] == Hex4(lo)
  {
    var s := UnitEscape(hi) + UnitEscape(lo) + rest;
    assert s[2..6] == Hex4(hi);
    assert s[8..12] == Hex4(lo);
  }

  lemma DecodeSurrogates(cp: nat, rest: string)
    requires 0x1_0000 <= cp < 0x11_0000
    ensures DecodeUnicode(UnitEscape(HighSurrogate(cp)) + UnitEscape(LowSurrogate(cp)) + rest)
         == Some(Decoded(cp as char, 12))
  {
    var hi, lo := HighSurrogate(cp), LowSurrogate(cp);
    UnitPairLayout(hi, lo, rest);
    Hex4RoundTrip(hi);
    Hex4RoundTrip(lo);
    SurrogatesCombine(cp);
  }

  lemma DecodeShort(c: char, rest: string)
    requires c == '"' || c == '\\' || c == '\n' || c == '\r' || c == '\t' || c == Backspace || c == FormFeed
    ensures DecodeOne(EscapeChar(c) + rest) == Some(Decoded(c, 2))
  {
  }

  lemma DecodePlain(c: char, rest: string)
    requires ' ' <= c <= '~' && c != '"' && c != '\\'
    ensures DecodeOne(EscapeChar(c) + rest) == Some(Decoded(c, 1))
  {
  }

  /** The front of what json.dumps wrote for c, followed by anything, reads back as c. */
  lemma DecodeEscapedChar(c: char, rest: string)
    ensures DecodeOne(EscapeChar(c) + rest) == Some(Decoded(c, |EscapeChar(c)|))
  {
    if c == '"' || c == '\\' || c == '\n' || c == '\r' || c == '\t' || c == Backspace || c == FormFeed {
      DecodeShort(c, rest);
    } else if ' ' <= c <= '~' {
      DecodePlain(c, rest);
    } else if c as int < 0x1_0000 {
      assert EscapeChar(c) == UnitEscape(c as int);
      DecodeUnit(c as int, rest);
      assert |UnitEscape(c as int)| == 6;
    } else {
      assert EscapeChar(c) == CodePointEscape(c as int);
      DecodePair(c as int, rest);
      assert |CodePointEscape(c as int)| == 12;
    }
  }

  /** A JSON reader gets back exactly the string json.dumps wrote. */
  lemma {:induction false} UnescapeEscape(s: string)
    ensures Unescape(Escape(s)) == Some(s)
  {
    if s != [] {
      var e, rest := EscapeChar(s[0]), Escape(s[1..]);
      UnescapeEscape(s[1..]);
      DecodeEscapedChar(s[0], rest);
      assert (e + rest)[|e|..] == rest;
      assert [s[0]] + s[1..] == s;
    }
  }
}
