/** The part of encoding/json that the two services write and read back.

    Every writer takes the text that follows it, so that texts nest to the right. */
module Json {
  import opened Text

  const HEX: string := "0123456789abcdef"

  predicate Plain(c: char)
  {
    ' ' <= c && c !in "\"\\<>&" && c != '\U{2028}' && c != '\U{2029}'
  }

  function Hex4(n: nat): string
    requires n < 0x1_0000
    ensures |Hex4(n)| == 4
  {
    var q1 := n / 16;
    var q2 := q1 / 16;
    [HEX[q2 / 16], HEX[q2 % 16], HEX[q1 % 16], HEX[n % 16]]
  }

  /** One unit of a string, escaped.  An invalid byte and a genuine U+FFFD look different: the
      first becomes an escape sequence, the second is copied. */
  function Escape(u: Unit): string
  {
    match u
    case Bad(_) => "\\u" + Hex4(0xfffd)
    case Rune(c) =>
      if Plain(c) then [c]
      else if c == '"' || c == '\\' then ['\\', c]
      else if c == '\n' then "\\n"
      else if c == '\r' then "\\r"
      else if c == '\t' then "\\t"
      else if c == '\U{0008}' then "\\b"
      else if c == '\U{000c}' then "\\f"
      else "\\u" + Hex4(c as int)
  }

  function EscapeThen(t: GoString, rest: string): string
  {
    if t == [] then rest else Escape(t[0]) + EscapeThen(t[1..], rest)
  }

  function QuoteThen(t: GoString, rest: string): string
  {
    "\"" + EscapeThen(t, "\"" + rest)
  }

  function HexValue(c: char): Option<nat>
  {
    if '0' <= c <= '9' then Some(c as int - '0' as int)
    else if 'a' <= c <= 'f' then Some(c as int - 'a' as int + 10)
    else if 'A' <= c <= 'F' then Some(c as int - 'A' as int + 10)
    else None
  }

  function ParseHex4(s: string): Option<nat>
    requires |s| == 4
  {
    var a, b, c, d := HexValue(s[0]), HexValue(s[1]), HexValue(s[2]), HexValue(s[3]);
    if a.Some? && b.Some? && c.Some? && d.Some?
    then Some(a.value * 4096 + b.value * 256 + c.value * 16 + d.value)
    else None
  }

  /** The first unit of an escaped string and what follows it. */
  function NextUnit(s: string): (r: Option<(Unit, string)>)
    requires s != ""
    ensures r.Some? ==> |r.value.1| < |s|
  {
    if s[0] != '\\' then
      if s[0] < ' ' then None else Some((Rune(s[0]), s[1..]))
    else if |s| < 2 then None
    else match s[1]
      case '"' => Some((Rune('"'), s[2..]))
      case '\\' => Some((Rune('\\'), s[2..]))
      case '/' => Some((Rune('/'), s[2..]))
      case 'n' => Some((Rune('\n'), s[2..]))
      case 'r' => Some((Rune('\r'), s[2..]))
      case 't' => Some((Rune('\t'), s[2..]))
      case 'b' => Some((Rune('\U{0008}'), s[2..]))
      case 'f' => Some((Rune('\U{000c}'), s[2..]))
      case 'u' =>
        if |s| < 6 then None
        else (match ParseHex4(s[2..6])
              case None => None
              case Some(n) =>
                if n == 0xfffd then Some((Bad(0), s[6..]))
                else if n < 0xd800 || 0xe000 <= n < 0x1_0000 then Some((Rune(n as char), s[6..]))
                else None)
      case _ => None
  }

  /** Reads a string up to its closing quote, the opening one having been read. */
  function Unquote(s: string): (r: Option<(GoString, string)>)
    ensures r.Some? ==> |r.value.1| < |s|
  {
    if s == "" then None
    else if s[0] == '"' then Some(([], s[1..]))
    else match NextUnit(s)
      case None => None
      case Some((u, rest)) =>
        (match Unquote(rest)
         case None => None
         case Some((t, after)) => Some(([u] + t, after)))
  }

  function Skip(s: string, prefix: string): (r: Option<string>)
    ensures r.Some? ==> |r.value| + |prefix| == |s|
  {
    if prefix <= s then Some(s[|prefix|..]) else None
  }

  function ReadString(s: string): (r: Option<(GoString, string)>)
    ensures r.Some? ==> |r.value.1| < |s|
  {
    match Skip(s, "\"")
    case None => None
    case Some(body) => Unquote(body)
  }

  lemma SkipWritten(prefix: string, rest: string)
    ensures Skip(prefix + rest, prefix) == Some(rest)
  {
  }

  lemma HexRoundTrip(n: nat)
    requires n < 0x1_0000
    ensures ParseHex4(Hex4(n)) == Some(n)
  {
    var q1 := n / 16;
    var q2 := q1 / 16;
    HexDigit(q2 / 16);
    HexDigit(q2 % 16);
    HexDigit(q1 % 16);
    HexDigit(n % 16);
  }

  lemma HexDigit(d: nat)
    requires d < 16
    ensures HexValue(HEX[d]) == Some(d)
  {
  }

  // A unit written as an escape sequence of four hexadecimal digits.
  lemma HexText(h: string, n: nat, rest: string)
    requires |h| == 4 && ParseHex4(h) == Some(n) && (n < 0xd800 || 0xe000 <= n < 0x1_0000)
    ensures NextUnit(("\\u" + h) + rest) == Some((if n == 0xfffd then Bad(0) else Rune(n as char), rest))
  {
    var s := ("\\u" + h) + rest;
    assert s[0] == '\\' && s[1] == 'u' && s[2..6] == h && s[6..] == rest;
  }

  lemma HexUnit(n: nat, rest: string)
    requires n < 0xd800 || 0xe000 <= n < 0x1_0000
    ensures NextUnit(("\\u" + Hex4(n)) + rest) == Some((if n == 0xfffd then Bad(0) else Rune(n as char), rest))
  {
    HexRoundTrip(n);
    HexText(Hex4(n), n, rest);
  }

  lemma PlainUnit(c: char, rest: string)
    requires Plain(c)
    ensures NextUnit([c] + rest) == Some((Rune(c), rest))
  {
    assert ([c] + rest)[1..] == rest;
  }

  /** The characters that are escaped by a single other one. */
  predicate Short(c: char, d: char)
  {
    match c
    case '"' => d == c
    case '\\' => d == c
    case '\n' => d == 'n'
    case '\r' => d == 'r'
    case '\t' => d == 't'
    case '\U{0008}' => d == 'b'
    case '\U{000c}' => d == 'f'
    case _ => false
  }

  lemma ShortUnit(c: char, d: char, rest: string)
    requires Short(c, d)
    ensures NextUnit(['\\', d] + rest) == Some((Rune(c), rest))
  {
    var s := ['\\', d] + rest;
    assert s[0] == '\\' && s[1] == d && s[2..] == rest;
  }

  lemma UnitRoundTrip(u: Unit, rest: string)
    ensures Escape(u) != "" && Escape(u)[0] != '"'
    ensures NextUnit(Escape(u) + rest) == Some((Blur(u), rest))
  {
    if u.Bad? {
      HexUnit(0xfffd, rest);
    } else if Plain(u.c) {
      PlainUnit(u.c, rest);
    } else if |Escape(u)| == 2 {
      ShortUnit(u.c, Escape(u)[1], rest);
      assert Escape(u) == ['\\', Escape(u)[1]];
    } else {
      HexUnit(u.c as int, rest);
    }
  }

  /** An escaped string followed by its quote is read back exactly, whatever follows: no encoded
      string is a prefix of another. */
  lemma {:induction false} StringRoundTrip(t: GoString, rest: string)
    ensures Unquote(EscapeThen(t, "\"" + rest)) == Some((Blurred(t), rest))
  {
    if t == [] {
      assert Blurred(t) == [];
    } else {
      var tail := EscapeThen(t[1..], "\"" + rest);
      UnitRoundTrip(t[0], tail);
      StringRoundTrip(t[1..], rest);
      assert Blurred(t) == [Blur(t[0])] + Blurred(t[1..]);
    }
  }

  lemma QuoteRoundTrip(t: GoString, rest: string)
    ensures ReadString(QuoteThen(t, rest)) == Some((Blurred(t), rest))
  {
    SkipWritten("\"", EscapeThen(t, "\"" + rest));
    StringRoundTrip(t, rest);
  }

  /** Escaping looks only at the blurred text. */
  lemma {:induction false} EscapeBlurred(t: GoString, rest: string)
    ensures EscapeThen(Blurred(t), rest) == EscapeThen(t, rest)
  {
    if t != [] {
      assert Blurred(t)[1..] == Blurred(t[1..]);
      EscapeBlurred(t[1..], rest);
    } else {
      assert Blurred(t) == [];
    }
  }

  function Digit(d: nat): char
    requires d < 10
  {
    '0' + d as char
  }

  predicate IsDigit(c: char)
  {
    '0' <= c <= '9'
  }

  function NatThen(n: nat, rest: string): string
  {
    if n < 10 then [Digit(n)] + rest else NatThen(n / 10, [Digit(n % 10)] + rest)
  }

  function IntThen(n: int, rest: string): string
  {
    if n < 0 then "-" + NatThen(-n, rest) else NatThen(n, rest)
  }

  function ReadDigits(s: string, seen: nat): (r: (nat, string))
    ensures |r.1| <= |s|
  {
    if s == "" || !IsDigit(s[0]) then (seen, s)
    else ReadDigits(s[1..], seen * 10 + (s[0] as int - '0' as int))
  }

  function ReadInt(s: string): (r: Option<(int, string)>)
    ensures r.Some? ==> |r.value.1| < |s|
  {
    if s != "" && s[0] == '-' then
      if |s| < 2 || !IsDigit(s[1]) then None
      else var r := ReadDigits(s[1..], 0); Some((0 - r.0, r.1))
    else if s == "" || !IsDigit(s[0]) then None
    else var (n, rest) := ReadDigits(s[1..], s[0] as int - '0' as int); Some((n, rest))
  }

  lemma {:induction false} DigitsRoundTrip(n: nat, rest: string)
    ensures NatThen(n, rest) != "" && IsDigit(NatThen(n, rest)[0])
    ensures ReadDigits(NatThen(n, rest), 0) == ReadDigits(rest, n)
  {
    if n < 10 {
      assert NatThen(n, rest)[1..] == rest;
    } else {
      var more := [Digit(n % 10)] + rest;
      DigitsRoundTrip(n / 10, more);
      assert more[1..] == rest;
    }
  }

  lemma IntRoundTrip(n: int, rest: string)
    requires rest != "" && !IsDigit(rest[0])
    ensures ReadInt(IntThen(n, rest)) == Some((n, rest))
  {
    if n < 0 {
      DigitsRoundTrip(-n, rest);
      assert ("-" + NatThen(-n, rest))[1..] == NatThen(-n, rest);
    } else {
      DigitsRoundTrip(n, rest);
    }
  }

  /** How some characters look: quotes and backslashes, and the short escapes. */
  lemma ShortEscapesAre()
    ensures Escape(Rune('a')) == "a" && Escape(Rune('"')) == "\\\"" && Escape(Rune('\\')) == "\\\\"
    ensures Escape(Rune('\n')) == "\\n" && Escape(Rune('\r')) == "\\r" && Escape(Rune('\t')) == "\\t"
  {
  }

  /** Control characters, and those that HTML would misread. */
  lemma LongEscapesAre()
    ensures Escape(Rune('\U{0001}')) == "\\u0001" && Escape(Rune('<')) == "\\u003c"
  {
  }

  /** Those that JavaScript would misread, and invalid bytes. */
  lemma OtherEscapesAre()
    ensures Escape(Rune('\U{2028}')) == "\\u2028" && Escape(Bad(255)) == "\\ufffd"
  {
  }

  /** Text of plain characters is quoted as it is. */
  lemma {:induction false} PlainThen(s: string, rest: string)
    requires forall c :: c in s ==> Plain(c)
    ensures EscapeThen(Literal(s), rest) == s + rest
  {
    if s == "" {
      assert Literal(s) == [] && s + rest == rest;
    } else {
      assert s[0] in s && Literal(s)[1..] == Literal(s[1..]);
      PlainThen(s[1..], rest);
      assert s + rest == [s[0]] + (s[1..] + rest);
    }
  }

  lemma PlainQuoted(s: string, rest: string)
    requires forall c :: c in s ==> Plain(c)
    ensures QuoteThen(Literal(s), rest) == "\"" + (s + ("\"" + rest))
  {
    PlainThen(s, "\"" + rest);
  }

  /** Numbers are written without leading zeros. */
  lemma {:induction false} NoLeadingZero(n: nat, rest: string)
    ensures NatThen(0, rest) == "0" + rest
    ensures 0 < n ==> NatThen(n, rest) != "" && NatThen(n, rest)[0] != '0'
  {
    if 10 <= n {
      NoLeadingZero(n / 10, [Digit(n % 10)] + rest);
    }
  }
}
