/** The text that is hashed into the cache key of a completion request. */
module CacheKey {
  import opened Text
  import opened Json

  datatype Message = Message(role: GoString, content: GoString)

  /** A request without a messages field has a nil slice, which is written as null, not as []. */
  datatype Messages = Nil | List(items: seq<Message>)

  datatype Request = Request(model: GoString, messages: Messages)

  function MessageThen(m: Message, rest: string): string
  {
    "{\"Role\":" + QuoteThen(m.role, ",\"Content\":" + QuoteThen(m.content, "}" + rest))
  }

  /** The messages after the first one, and the closing bracket. */
  function MoreThen(ms: seq<Message>, rest: string): string
  {
    if ms == [] then "]" + rest else "," + MessageThen(ms[0], MoreThen(ms[1..], rest))
  }

  function MessagesThen(ms: Messages, rest: string): string
  {
    match ms
    case Nil => "null" + rest
    case List(items) =>
      if items == [] then "[]" + rest else "[" + MessageThen(items[0], MoreThen(items[1..], rest))
  }

  function KeyText(r: Request): string
  {
    "{\"Model\":" + QuoteThen(r.model, ",\"Messages\":" + MessagesThen(r.messages, "}"))
  }

  function BlurredMessage(m: Message): Message
  {
    Message(Blurred(m.role), Blurred(m.content))
  }

  function BlurredItems(ms: seq<Message>): seq<Message>
  {
    seq(|ms|, i requires 0 <= i < |ms| => BlurredMessage(ms[i]))
  }

  /** The request with every invalid byte replaced by one and the same. */
  function BlurredRequest(r: Request): Request
  {
    Request(Blurred(r.model), if r.messages.Nil? then Nil else List(BlurredItems(r.messages.items)))
  }

  function ReadMessage(s: string): (r: Option<(Message, string)>)
    ensures r.Some? ==> |r.value.1| < |s|
  {
    match Skip(s, "{\"Role\":")
    case None => None
    case Some(s1) => (match ReadString(s1)
      case None => None
      case Some((role, s2)) => (match Skip(s2, ",\"Content\":")
        case None => None
        case Some(s3) => (match ReadString(s3)
          case None => None
          case Some((content, s4)) => (match Skip(s4, "}")
            case None => None
            case Some(s5) => Some((Message(role, content), s5))))))
  }

  function ReadMore(s: string): Option<(seq<Message>, string)>
    decreases |s|
  {
    if "]" <= s then Some(([], s[1..]))
    else match Skip(s, ",")
      case None => None
      case Some(s1) => (match ReadMessage(s1)
        case None => None
        case Some((m, s2)) => (match ReadMore(s2)
          case None => None
          case Some((ms, s3)) => Some(([m] + ms, s3))))
  }

  function ReadMessages(s: string): Option<(Messages, string)>
  {
    if "null" <= s then Some((Nil, s[4..]))
    else if "[]" <= s then Some((List([]), s[2..]))
    else match Skip(s, "[")
      case None => None
      case Some(s1) => (match ReadMessage(s1)
        case None => None
        case Some((m, s2)) => (match ReadMore(s2)
          case None => None
          case Some((ms, s3)) => Some((List([m] + ms), s3))))
  }

  function ReadKey(s: string): Option<Request>
  {
    match Skip(s, "{\"Model\":")
    case None => None
    case Some(s1) => (match ReadString(s1)
      case None => None
      case Some((model, s2)) => (match Skip(s2, ",\"Messages\":")
        case None => None
        case Some(s3) => (match ReadMessages(s3)
          case None => None
          case Some((ms, s4)) => if s4 == "}" then Some(Request(model, ms)) else None)))
  }

  lemma MessageRoundTrip(m: Message, rest: string)
    ensures ReadMessage(MessageThen(m, rest)) == Some((BlurredMessage(m), rest))
  {
    var t4 := "}" + rest;
    var t3 := QuoteThen(m.content, t4);
    var t2 := ",\"Content\":" + t3;
    var t1 := QuoteThen(m.role, t2);
    SkipWritten("{\"Role\":", t1);
    QuoteRoundTrip(m.role, t2);
    SkipWritten(",\"Content\":", t3);
    QuoteRoundTrip(m.content, t4);
    SkipWritten("}", rest);
  }

  lemma MoreStep(m: Message, tail: string, ms: seq<Message>, rest: string)
    requires ReadMore(tail) == Some((ms, rest))
    ensures ReadMore("," + MessageThen(m, tail)) == Some(([BlurredMessage(m)] + ms, rest))
  {
    SkipWritten(",", MessageThen(m, tail));
    MessageRoundTrip(m, tail);
    assert ("," + MessageThen(m, tail))[0] == ',' && "]"[0] == ']';
  }

  lemma BlurredCons(ms: seq<Message>)
    requires ms != []
    ensures BlurredItems(ms) == [BlurredMessage(ms[0])] + BlurredItems(ms[1..])
  {
  }

  lemma {:induction false} MoreRoundTrip(ms: seq<Message>, rest: string)
    ensures ReadMore(MoreThen(ms, rest)) == Some((BlurredItems(ms), rest))
  {
    if ms == [] {
      assert ("]" + rest)[1..] == rest && BlurredItems(ms) == [];
    } else {
      var tail, more := MoreThen(ms[1..], rest), BlurredItems(ms[1..]);
      MoreRoundTrip(ms[1..], rest);
      MoreStep(ms[0], tail, more, rest);
      BlurredCons(ms);
    }
  }

  lemma FirstStep(m: Message, tail: string, ms: seq<Message>, rest: string)
    requires ReadMore(tail) == Some((ms, rest))
    ensures ReadMessages("[" + MessageThen(m, tail)) == Some((List([BlurredMessage(m)] + ms), rest))
  {
    var text := MessageThen(m, tail);
    assert ("[" + text)[0] == '[' && "null"[0] == 'n';
    assert ("[" + text)[1] == text[0] == '{' && "[]"[1] == ']';
    SkipWritten("[", text);
    MessageRoundTrip(m, tail);
  }

  lemma NoMessages(rest: string)
    ensures ReadMessages("null" + rest) == Some((Nil, rest))
    ensures ReadMessages("[]" + rest) == Some((List([]), rest))
  {
    assert ("null" + rest)[4..] == rest;
    assert ("[]" + rest)[0] == '[' && "null"[0] == 'n' && ("[]" + rest)[2..] == rest;
  }

  lemma MessagesRoundTrip(r: Request, rest: string)
    ensures ReadMessages(MessagesThen(r.messages, rest)) == Some((BlurredRequest(r).messages, rest))
  {
    NoMessages(rest);
    if r.messages.List? {
      var items := r.messages.items;
      if items == [] {
        assert BlurredItems(items) == [];
      } else {
        MoreRoundTrip(items[1..], rest);
        FirstStep(items[0], MoreThen(items[1..], rest), BlurredItems(items[1..]), rest);
        BlurredCons(items);
      }
    }
  }

  /** The key text determines the request, up to which invalid bytes it contains. */
  lemma KeyRoundTrip(r: Request)
    ensures ReadKey(KeyText(r)) == Some(BlurredRequest(r))
  {
    var t2 := MessagesThen(r.messages, "}");
    var t1 := ",\"Messages\":" + t2;
    SkipWritten("{\"Model\":", QuoteThen(r.model, t1));
    QuoteRoundTrip(r.model, t1);
    SkipWritten(",\"Messages\":", t2);
    MessagesRoundTrip(r, "}");
  }

  lemma MessageBlurred(m: Message, rest: string)
    ensures MessageThen(BlurredMessage(m), rest) == MessageThen(m, rest)
  {
    EscapeBlurred(m.content, "\"" + ("}" + rest));
    EscapeBlurred(m.role, "\"" + (",\"Content\":" + QuoteThen(m.content, "}" + rest)));
  }

  lemma {:induction false} MoreBlurred(ms: seq<Message>, rest: string)
    ensures MoreThen(BlurredItems(ms), rest) == MoreThen(ms, rest)
  {
    if ms != [] {
      assert BlurredItems(ms)[1..] == BlurredItems(ms[1..]);
      MoreBlurred(ms[1..], rest);
      MessageBlurred(ms[0], MoreThen(ms[1..], rest));
    }
  }

  lemma KeyBlurred(r: Request)
    ensures KeyText(BlurredRequest(r)) == KeyText(r)
  {
    if r.messages.List? && r.messages.items != [] {
      var items := r.messages.items;
      assert BlurredItems(items)[1..] == BlurredItems(items[1..]);
      MoreBlurred(items[1..], "}");
      MessageBlurred(items[0], MoreThen(items[1..], "}"));
    }
    EscapeBlurred(r.model, "\"" + (",\"Messages\":" + MessagesThen(r.messages, "}")));
  }

  /** Two requests have the same key text exactly when they agree after all invalid bytes are
      blurred; so different requests made of valid text never share a cache entry, as long as
      SHA-256 does not collide. */
  lemma SameKeyIffSameBlurred(r1: Request, r2: Request)
    ensures KeyText(r1) == KeyText(r2) <==> BlurredRequest(r1) == BlurredRequest(r2)
  {
    KeyRoundTrip(r1);
    KeyRoundTrip(r2);
    KeyBlurred(r1);
    KeyBlurred(r2);
  }

  predicate ValidRequest(r: Request)
  {
    && ValidText(r.model)
    && (r.messages.List? ==>
          forall i :: 0 <= i < |r.messages.items| ==>
            ValidText(r.messages.items[i].role) && ValidText(r.messages.items[i].content))
  }

  lemma ValidRequestUnchanged(r: Request)
    requires ValidRequest(r)
    ensures BlurredRequest(r) == r
  {
    ValidIsUnchanged(r.model);
    if r.messages.List? {
      var items := r.messages.items;
      forall i | 0 <= i < |items| ensures BlurredItems(items)[i] == items[i] {
        ValidIsUnchanged(items[i].role);
        ValidIsUnchanged(items[i].content);
      }
      assert BlurredItems(items) == items;
    }
  }

  // Text that is valid once blurred was valid before.
  lemma BlurHidesNothing(t: GoString)
    requires ValidText(Blurred(t))
    ensures Blurred(t) == t
  {
    forall i | 0 <= i < |t| ensures Blurred(t)[i] == t[i] {
      assert Blurred(t)[i] in Blurred(t);
    }
  }

  lemma ItemsHideNothing(items: seq<Message>)
    requires forall i :: 0 <= i < |items| ==>
      ValidText(BlurredItems(items)[i].role) && ValidText(BlurredItems(items)[i].content)
    ensures BlurredItems(items) == items
  {
    forall i | 0 <= i < |items| ensures BlurredItems(items)[i] == items[i] {
      assert BlurredItems(items)[i] == BlurredMessage(items[i]);
      BlurHidesNothing(items[i].role);
      BlurHidesNothing(items[i].content);
    }
  }

  lemma RequestHidesNothing(r: Request)
    requires ValidRequest(BlurredRequest(r))
    ensures BlurredRequest(r) == r
  {
    BlurHidesNothing(r.model);
    if r.messages.List? {
      ItemsHideNothing(r.messages.items);
    }
  }

  /** A request of valid text shares its key with no other request, valid or not. */
  lemma ValidRequestsHaveOwnKeys(r1: Request, r2: Request)
    requires ValidRequest(r1) && KeyText(r1) == KeyText(r2)
    ensures r1 == r2
  {
    SameKeyIffSameBlurred(r1, r2);
    ValidRequestUnchanged(r1);
    RequestHidesNothing(r2);
  }

  /** The text of a request of plain characters with one message, and of one without messages. */
  lemma KeyLooksLike(model: string, role: string, content: string)
    requires forall c :: c in model || c in role || c in content ==> Plain(c)
    ensures KeyText(Request(Literal(model), Nil)) ==
      "{\"Model\":" + ("\"" + (model + ("\"" + (",\"Messages\":" + ("null" + "}")))))
    ensures KeyText(Request(Literal(model), List([Message(Literal(role), Literal(content))]))) ==
      "{\"Model\":" + ("\"" + (model + ("\"" + (",\"Messages\":" + ("[" + ("{\"Role\":" +
      ("\"" + (role + ("\"" + (",\"Content\":" + ("\"" + (content + ("\"" + ("}" + ("]" + "}")))))))))))))))
  {
    PlainQuoted(content, "}" + ("]" + "}"));
    PlainQuoted(role, ",\"Content\":" + QuoteThen(Literal(content), "}" + ("]" + "}")));
    var one := List([Message(Literal(role), Literal(content))]);
    PlainQuoted(model, ",\"Messages\":" + MessagesThen(one, "}"));
    PlainQuoted(model, ",\"Messages\":" + MessagesThen(Nil, "}"));
    assert [Message(Literal(role), Literal(content))][1..] == [];
  }
}
