/** The usage.recorded message: written by the proxy, read by the billing consumer. */
module UsageEvent {
  import opened Text
  import opened Json

  /** An instant in UTC. */
  datatype Stamp = Stamp(year: nat, month: nat, day: nat, hour: nat, minute: nat, second: nat, nanos: nat)

  datatype Event = Event(user: GoString, model: GoString, prompt: int, completion: int, at: Stamp)

  function DaysIn(year: nat, month: nat): nat
  {
    if month == 2 then (if year % 4 == 0 && (year % 100 != 0 || year % 400 == 0) then 29 else 28)
    else if month in {4, 6, 9, 11} then 30
    else 31
  }

  predicate ValidStamp(t: Stamp)
  {
    && t.year < 10000 && 1 <= t.month <= 12 && 1 <= t.day <= DaysIn(t.year, t.month)
    && t.hour < 24 && t.minute < 60 && t.second < 60 && t.nanos < 1_000_000_000
  }

  function Tens(n: nat): char
    requires n < 100
  {
    Digit(n / 10)
  }

  function Ones(n: nat): char
    requires n < 100
  {
    Digit(n % 10)
  }

  /** The layout of section 5.6 of RFC 3339 in UTC; fractions of a second are dropped. */
  function Format(t: Stamp): string
    requires ValidStamp(t)
  {
    [Tens(t.year / 100), Ones(t.year / 100), Tens(t.year % 100), Ones(t.year % 100), '-',
     Tens(t.month), Ones(t.month), '-', Tens(t.day), Ones(t.day), 'T',
     Tens(t.hour), Ones(t.hour), ':', Tens(t.minute), Ones(t.minute), ':',
     Tens(t.second), Ones(t.second), 'Z']
  }

  function RuneAt(s: GoString, i: nat): char
    requires i < |s|
  {
    if s[i].Rune? then s[i].c else ' '
  }

  function ReadD2(s: GoString, i: nat): Option<nat>
    requires i + 1 < |s|
  {
    var a, b := RuneAt(s, i), RuneAt(s, i + 1);
    if IsDigit(a) && IsDigit(b)
    then Some((a as int - '0' as int) * 10 + (b as int - '0' as int))
    else None
  }

  function ReadDate(s: GoString): Option<(nat, nat, nat)>
    requires |s| == 20
  {
    var y1, y2, mo, d := ReadD2(s, 0), ReadD2(s, 2), ReadD2(s, 5), ReadD2(s, 8);
    if y1.Some? && y2.Some? && mo.Some? && d.Some?
       && RuneAt(s, 4) == '-' && RuneAt(s, 7) == '-' && RuneAt(s, 10) == 'T'
    then Some((y1.value * 100 + y2.value, mo.value, d.value))
    else None
  }

  function ReadTime(s: GoString): Option<(nat, nat, nat)>
    requires |s| == 20
  {
    var h, mi, sec := ReadD2(s, 11), ReadD2(s, 14), ReadD2(s, 17);
    if h.Some? && mi.Some? && sec.Some?
       && RuneAt(s, 13) == ':' && RuneAt(s, 16) == ':' && RuneAt(s, 19) == 'Z'
    then Some((h.value, mi.value, sec.value))
    else None
  }

  function ReadStamp(s: GoString): Option<Stamp>
  {
    if |s| != 20 then None
    else match (ReadDate(s), ReadTime(s))
      case (Some((y, mo, d)), Some((h, mi, sec))) =>
        var t := Stamp(y, mo, d, h, mi, sec, 0);
        if ValidStamp(t) then Some(t) else None
      case _ => None
  }

  lemma YearRoundTrip(t: Stamp)
    requires ValidStamp(t)
    ensures ReadD2(Literal(Format(t)), 0) == Some(t.year / 100) && ReadD2(Literal(Format(t)), 2) == Some(t.year % 100)
  {
    TwoDigits(Literal(Format(t)), 0, t.year / 100);
    TwoDigits(Literal(Format(t)), 2, t.year % 100);
  }

  lemma DayRoundTrip(t: Stamp)
    requires ValidStamp(t)
    ensures ReadD2(Literal(Format(t)), 5) == Some(t.month) && ReadD2(Literal(Format(t)), 8) == Some(t.day)
  {
    TwoDigits(Literal(Format(t)), 5, t.month);
    TwoDigits(Literal(Format(t)), 8, t.day);
  }

  lemma DateRoundTrip(t: Stamp)
    requires ValidStamp(t)
    ensures ReadDate(Literal(Format(t))) == Some((t.year, t.month, t.day))
  {
    YearRoundTrip(t);
    DayRoundTrip(t);
    assert t.year / 100 * 100 + t.year % 100 == t.year;
  }

  lemma TimeRoundTrip(t: Stamp)
    requires ValidStamp(t)
    ensures ReadTime(Literal(Format(t))) == Some((t.hour, t.minute, t.second))
  {
    var s := Literal(Format(t));
    TwoDigits(s, 11, t.hour);
    TwoDigits(s, 14, t.minute);
    TwoDigits(s, 17, t.second);
  }

  lemma StampRoundTrip(t: Stamp)
    requires ValidStamp(t)
    ensures ReadStamp(Literal(Format(t))) == Some(t.(nanos := 0))
    ensures ValidText(Literal(Format(t)))
  {
    DateRoundTrip(t);
    TimeRoundTrip(t);
  }

  lemma TwoDigits(s: GoString, i: nat, n: nat)
    requires n < 100 && i + 1 < |s|
    requires s[i] == Rune(Tens(n)) && s[i + 1] == Rune(Ones(n))
    ensures ReadD2(s, i) == Some(n)
  {
  }

  /** json.Marshal writes the keys of a map in sorted order. */
  function Encode(e: Event): string
    requires ValidStamp(e.at)
  {
    "{" + QuoteThen(Literal("completion_tokens"), ":" + IntThen(e.completion,
    "," + QuoteThen(Literal("model"), ":" + QuoteThen(e.model,
    "," + QuoteThen(Literal("prompt_tokens"), ":" + IntThen(e.prompt,
    "," + QuoteThen(Literal("timestamp"), ":" + QuoteThen(Literal(Format(e.at)),
    "," + QuoteThen(Literal("user_id"), ":" + QuoteThen(e.user, "}"))))))))))
  }

  /** A field that is missing keeps Go's zero value. */
  const ZERO: Event := Event([], [], 0, 0, Stamp(1, 1, 1, 0, 0, 0, 0))

  /** One value, stored under its key. */
  function ReadField(key: GoString, s: string, e: Event): (r: Option<(Event, string)>)
    ensures r.Some? ==> |r.value.1| < |s|
  {
    if key == Literal("prompt_tokens") || key == Literal("completion_tokens") then
      (match ReadInt(s)
       case None => None
       case Some((n, rest)) =>
         Some((if key == Literal("prompt_tokens") then e.(prompt := n) else e.(completion := n), rest)))
    else match ReadString(s)
      case None => None
      case Some((t, rest)) =>
        if key == Literal("user_id") then Some((e.(user := Repaired(t)), rest))
        else if key == Literal("model") then Some((e.(model := Repaired(t)), rest))
        else if key == Literal("timestamp") then
          (match ReadStamp(t)
           case None => None
           case Some(at) => Some((e.(at := at), rest)))
        else None
  }

  /** The fields from here to the closing brace, in any order, on top of those already read. */
  function ReadFields(s: string, e: Event): Option<Event>
    decreases |s|
  {
    match ReadString(s)
    case None => None
    case Some((key, s1)) => (match Skip(s1, ":")
      case None => None
      case Some(s2) => (match ReadField(key, s2, e)
        case None => None
        case Some((e', s3)) =>
          if s3 == "}" then Some(e')
          else (match Skip(s3, ",")
            case None => None
            case Some(s4) => ReadFields(s4, e'))))
  }

  function Decode(s: string): Option<Event>
  {
    match Skip(s, "{")
    case None => None
    case Some(body) => ReadFields(body, ZERO)
  }

  // Reading one written field and the comma after it.
  lemma FieldStep(key: GoString, value: string, e: Event, e': Event, more: string)
    requires ValidText(key)
    requires ReadField(key, value, e) == Some((e', "," + more))
    ensures ReadFields(QuoteThen(key, ":" + value), e) == ReadFields(more, e')
  {
    QuoteRoundTrip(key, ":" + value);
    ValidIsUnchanged(key);
    SkipWritten(":", value);
    SkipWritten(",", more);
    assert ("," + more)[0] == ',' && "}"[0] == '}';
  }

  lemma LastStep(key: GoString, value: string, e: Event, e': Event)
    requires ValidText(key)
    requires ReadField(key, value, e) == Some((e', "}"))
    ensures ReadFields(QuoteThen(key, ":" + value), e) == Some(e')
  {
    QuoteRoundTrip(key, ":" + value);
    ValidIsUnchanged(key);
    SkipWritten(":", value);
  }

  // The five keys differ already in length.
  lemma IntField(name: string, n: int, e: Event, more: string)
    requires name == "prompt_tokens" || name == "completion_tokens"
    ensures ReadField(Literal(name), IntThen(n, "," + more), e) ==
            Some((if name == "prompt_tokens" then e.(prompt := n) else e.(completion := n), "," + more))
  {
    IntRoundTrip(n, "," + more);
    assert |Literal("prompt_tokens")| == 13 && |Literal("completion_tokens")| == 17;
  }

  lemma TextField(name: string, t: GoString, e: Event, rest: string)
    requires name == "user_id" || name == "model"
    ensures ReadField(Literal(name), QuoteThen(t, rest), e) ==
            Some((if name == "user_id" then e.(user := Repaired(t)) else e.(model := Repaired(t)), rest))
  {
    QuoteRoundTrip(t, rest);
    RepairBlurred(t);
    assert |Literal("prompt_tokens")| == 13 && |Literal("completion_tokens")| == 17;
    assert |Literal("user_id")| == 7 && |Literal("model")| == 5;
  }

  lemma StampField(t: Stamp, e: Event, rest: string)
    requires ValidStamp(t)
    ensures ReadField(Literal("timestamp"), QuoteThen(Literal(Format(t)), rest), e) ==
            Some((e.(at := t.(nanos := 0)), rest))
  {
    var s := Literal(Format(t));
    QuoteRoundTrip(s, rest);
    StampRoundTrip(t);
    ValidIsUnchanged(s);
    assert |Literal("prompt_tokens")| == 13 && |Literal("completion_tokens")| == 17;
    assert |Literal("user_id")| == 7 && |Literal("model")| == 5 && |Literal("timestamp")| == 9;
  }

  /** What arrives: invalid bytes replaced, the time cut to seconds, everything else unchanged. */
  function Delivered(e: Event): Event
  {
    Event(Repaired(e.user), Repaired(e.model), e.prompt, e.completion, e.at.(nanos := 0))
  }

  /** Every event the proxy can publish is decoded by the consumer: it is never dropped, and the
      user, the model and both token counts arrive as sent. */
  lemma EventRoundTrip(e: Event)
    requires ValidStamp(e.at)
    ensures Decode(Encode(e)) == Some(Delivered(e))
  {
    var v5 := QuoteThen(e.user, "}");
    var f5 := QuoteThen(Literal("user_id"), ":" + v5);
    var v4 := QuoteThen(Literal(Format(e.at)), "," + f5);
    var f4 := QuoteThen(Literal("timestamp"), ":" + v4);
    var v3 := IntThen(e.prompt, "," + f4);
    var f3 := QuoteThen(Literal("prompt_tokens"), ":" + v3);
    var v2 := QuoteThen(e.model, "," + f3);
    var f2 := QuoteThen(Literal("model"), ":" + v2);
    var v1 := IntThen(e.completion, "," + f2);
    var f1 := QuoteThen(Literal("completion_tokens"), ":" + v1);
    var e1 := ZERO.(completion := e.completion);
    var e2 := e1.(model := Repaired(e.model));
    var e3 := e2.(prompt := e.prompt);
    var e4 := e3.(at := e.at.(nanos := 0));
    SkipWritten("{", f1);
    IntField("completion_tokens", e.completion, ZERO, f2);
    FieldStep(Literal("completion_tokens"), v1, ZERO, e1, f2);
    TextField("model", e.model, e1, "," + f3);
    FieldStep(Literal("model"), v2, e1, e2, f3);
    IntField("prompt_tokens", e.prompt, e2, f4);
    FieldStep(Literal("prompt_tokens"), v3, e2, e3, f4);
    StampField(e.at, e3, "," + f5);
    FieldStep(Literal("timestamp"), v4, e3, e4, f5);
    TextField("user_id", e.user, e4, "}");
    LastStep(Literal("user_id"), v5, e4, Delivered(e));
  }

  /** A key and its value. */
  function FieldText(key: string, value: string): string
  {
    "\"" + (key + ("\"" + (":" + value)))
  }

  predicate AllPlain(s: string)
  {
    forall c :: c in s ==> Plain(c)
  }

  lemma PlainPieces()
    ensures AllPlain("_tokens") && AllPlain("prompt")
  {
  }

  lemma PlainPiece()
    ensures AllPlain("completion")
  {
  }

  lemma TokenKeysArePlain()
    ensures AllPlain("completion_tokens") && AllPlain("prompt_tokens")
  {
    PlainPieces();
    PlainPiece();
    assert "completion_tokens" == "completion" + "_tokens";
    assert "prompt_tokens" == "prompt" + "_tokens";
  }

  lemma OtherKeysArePlain()
    ensures AllPlain("model") && AllPlain("timestamp") && AllPlain("user_id")
  {
  }

  // Five values under five keys, whatever these are.
  lemma FieldsAre(k1: string, k2: string, k3: string, k4: string, k5: string, e: Event, at: GoString)
    requires AllPlain(k1) && AllPlain(k2) && AllPlain(k3) && AllPlain(k4) && AllPlain(k5)
    ensures
      QuoteThen(Literal(k1), ":" + IntThen(e.completion,
      "," + QuoteThen(Literal(k2), ":" + QuoteThen(e.model,
      "," + QuoteThen(Literal(k3), ":" + IntThen(e.prompt,
      "," + QuoteThen(Literal(k4), ":" + QuoteThen(at,
      "," + QuoteThen(Literal(k5), ":" + QuoteThen(e.user, "}")))))))))) ==
      FieldText(k1, IntThen(e.completion, "," +
      FieldText(k2, QuoteThen(e.model, "," +
      FieldText(k3, IntThen(e.prompt, "," +
      FieldText(k4, QuoteThen(at, "," +
      FieldText(k5, QuoteThen(e.user, "}"))))))))))
  {
    var v5 := QuoteThen(e.user, "}");
    PlainQuoted(k5, ":" + v5);
    var v4 := QuoteThen(at, "," + FieldText(k5, v5));
    PlainQuoted(k4, ":" + v4);
    var v3 := IntThen(e.prompt, "," + FieldText(k4, v4));
    PlainQuoted(k3, ":" + v3);
    var v2 := QuoteThen(e.model, "," + FieldText(k3, v3));
    PlainQuoted(k2, ":" + v2);
    PlainQuoted(k1, ":" + IntThen(e.completion, "," + FieldText(k2, v2)));
  }

  /** The text of an event, key by key. */
  lemma EncodedAs(e: Event)
    requires ValidStamp(e.at)
    ensures Encode(e) ==
      "{" + FieldText("completion_tokens", IntThen(e.completion, "," +
      FieldText("model", QuoteThen(e.model, "," +
      FieldText("prompt_tokens", IntThen(e.prompt, "," +
      FieldText("timestamp", QuoteThen(Literal(Format(e.at)), "," +
      FieldText("user_id", QuoteThen(e.user, "}"))))))))))
  {
    TokenKeysArePlain();
    OtherKeysArePlain();
    FieldsAre("completion_tokens", "model", "prompt_tokens", "timestamp", "user_id", e, Literal(Format(e.at)));
  }

  lemma FormatLooksLike()
    ensures Format(Stamp(2024, 1, 2, 13, 4, 59, 6)) == "2024-01-02T13:04:59Z"
  {
  }

  /** What does not start as an object, or ends in the middle, is not an event. */
  lemma DecodeRefuses(s: string)
    requires s == "" || s[0] != '{' || s == "{"
    ensures Decode(s).None?
  {
  }
}
