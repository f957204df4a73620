/** The text of the event stream (opsrag/api/routes_investigations.py, lines 186-203) and the event stream parser of a
    browser (WHATWG HTML Standard, section 9.2).  A stream may be cut at any character by a lost connection. */
module EventFraming {

  /** A frame carries a sequence number and the JSON text of the row. */
  datatype Frame = Event(n: nat, payload: string) | CloseFrame

  function Decimal(n: nat): string {
    if n < 10 then [Digit(n)] else Decimal(n / 10) + [Digit(n % 10)]
  }

  function Digit(d: nat): char
    requires d < 10
  {
    "0123456789"[d]
  }

  function Line(name: string, value: string): string { name + ": " + value + "\n" }

  /** The frame without the empty line that ends it. */
  function Body(f: Frame): string {
    match f
    case Event(n, payload) => Line("id", Decimal(n)) + Line("data", payload)
    case CloseFrame => Line("event", "close") + Line("data", "{}")
  }

  function Stream(frames: seq<Frame>): string {
    if frames == [] then "" else Stream(frames[..|frames| - 1]) + (Body(frames[|frames| - 1]) + "\n")
  }

  // ----- the parser -----

  datatype Message = Message(kind: string, data: string, lastId: string)

  datatype Parser = Parser(line: string, afterReturn: bool, kind: string, data: string, lastId: string,
                           out: seq<Message>)

  const START := Parser("", false, "", "", "", [])

  function Dispatch(p: Parser): Parser {
    if p.data == "" then p.(kind := "")
    else p.(kind := "", data := "", out := p.out + [Message(p.kind, p.data[..|p.data| - 1], p.lastId)])
  }

  function Colon(line: string): (i: nat)
    ensures i <= |line| && (i < |line| ==> line[i] == ':') && forall k :: 0 <= k < i ==> line[k] != ':'
  {
    if line == "" || line[0] == ':' then 0 else 1 + Colon(line[1..])
  }

  function Unspaced(value: string): string { if value != "" && value[0] == ' ' then value[1..] else value }

  /** A line that starts with a colon is a comment: its field name is empty, and such a field is ignored. */
  function Field(p: Parser, name: string, value: string): Parser {
    if name == "event" then p.(kind := value)
    else if name == "data" then p.(data := p.data + value + "\n")
    else if name == "id" && '\0' !in value then p.(lastId := value)
    else p
  }

  function EndLine(p: Parser): Parser {
    var line, q := p.line, p.(line := "");
    if line == "" then Dispatch(q)
    else if Colon(line) == |line| then Field(q, line, "")
    else Field(q, line[..Colon(line)], Unspaced(line[Colon(line) + 1..]))
  }

  /** Lines end with a line feed, a carriage return, or both in the other order. */
  function Feed(p: Parser, ch: char): Parser {
    if ch == '\r' then EndLine(p).(afterReturn := true)
    else if ch == '\n' then if p.afterReturn then p.(afterReturn := false) else EndLine(p)
    else p.(line := p.line + [ch], afterReturn := false)
  }

  function Parse(p: Parser, text: string): Parser {
    if text == "" then p else Feed(Parse(p, text[..|text| - 1]), text[|text| - 1])
  }

  lemma {:induction false} ParseAppend(p: Parser, a: string, b: string)
    ensures Parse(p, a + b) == Parse(Parse(p, a), b)
    decreases |b|
  {
    if b == "" {
      assert a + b == a;
    } else {
      ParseAppend(p, a, b[..|b| - 1]);
      assert (a + b)[..|a + b| - 1] == a + b[..|b| - 1];
    }
  }

  lemma FeedGrows(p: Parser, ch: char)
    ensures p.out <= Feed(p, ch).out
  {
    EndLineGrows(p);
  }

  lemma FieldQuiet(p: Parser, name: string, value: string)
    ensures Field(p, name, value).out == p.out
  {
  }

  lemma EndLineGrows(p: Parser)
    ensures p.out <= EndLine(p).out
  {
    var i := Colon(p.line);
    FieldQuiet(p.(line := ""), p.line, "");
    if i < |p.line| {
      FieldQuiet(p.(line := ""), p.line[..i], Unspaced(p.line[i + 1..]));
    }
  }

  /** Nothing that was dispatched is taken back. */
  lemma {:induction false} OnlyGrows(p: Parser, text: string)
    ensures p.out <= Parse(p, text).out
  {
    if text != "" {
      OnlyGrows(p, text[..|text| - 1]);
      FeedGrows(Parse(p, text[..|text| - 1]), text[|text| - 1]);
    }
  }

  // ----- frames through the parser -----

  predicate OneLine(s: string) { '\n' !in s && '\r' !in s }

  /** The payload is the output of json.dumps: not empty, and line breaks are escaped in it. */
  predicate Sendable(f: Frame) { f.Event? ==> f.payload != "" && f.payload[0] != ' ' && OneLine(f.payload) }

  predicate AllSendable(frames: seq<Frame>) { forall i :: 0 <= i < |frames| ==> Sendable(frames[i]) }

  function Handed(f: Frame, lastId: string): Message {
    match f
    case Event(n, payload) => Message("", payload, Decimal(n))
    case CloseFrame => Message("close", "{}", lastId)
  }

  /** What a client should be handed: the payloads on the default channel, and the close by its name. */
  function Messages(frames: seq<Frame>): seq<Message> {
    if frames == [] then []
    else
      var front, f := frames[..|frames| - 1], frames[|frames| - 1];
      Messages(front) + [Handed(f, LastId(front))]
  }

  function LastId(frames: seq<Frame>): string {
    if frames == [] then ""
    else match frames[|frames| - 1]
         case Event(n, _) => Decimal(n)
         case CloseFrame => LastId(frames[..|frames| - 1])
  }

  predicate Clean(p: Parser) { p.line == "" && !p.afterReturn && p.kind == "" && p.data == "" }

  lemma {:induction false} DecimalPlain(n: nat)
    ensures Decimal(n) != "" && forall k :: 0 <= k < |Decimal(n)| ==> '0' <= Decimal(n)[k] <= '9'
  {
    if n >= 10 {
      DecimalPlain(n / 10);
    }
  }

  lemma {:induction false} ParseLine(p: Parser, text: string)
    requires OneLine(text) && !p.afterReturn
    ensures Parse(p, text) == p.(line := p.line + text)
  {
    if text == "" {
    } else {
      var front := text[..|text| - 1];
      ParseLine(p, front);
      assert p.line + front + [text[|text| - 1]] == p.line + text;
    }
  }

  lemma SplitLine(name: string, value: string)
    requires ':' !in name
    ensures var line := name + ": " + value;
            && Colon(line) == |name| < |line| && line[..|name|] == name
            && Unspaced(line[|name| + 1..]) == value
  {
    var line := name + ": " + value;
    assert line[|name|] == ':';
    assert forall k :: 0 <= k < |name| ==> line[k] == name[k];
    assert line[|name| + 1..] == " " + value;
  }

  lemma {:induction false} ParseField(p: Parser, name: string, value: string)
    requires p.line == "" && !p.afterReturn && OneLine(name) && OneLine(value) && ':' !in name
    ensures Parse(p, Line(name, value)) == Field(p, name, value)
  {
    var line := name + ": " + value;
    ParseLine(p, line);
    SplitLine(name, value);
    assert Line(name, value)[..|line|] == line;
    assert Parse(p, Line(name, value)) == Feed(Parse(p, line), '\n');
    assert "" + line == line;
    assert EndLine(p.(line := line)) == Field(p.(line := line).(line := ""), name, value);
    assert p.(line := line).(line := "") == p;
  }

  /** The state after a frame's fields. */
  function Filled(p: Parser, f: Frame): Parser {
    match f
    case Event(n, payload) => p.(lastId := Decimal(n), data := payload + "\n")
    case CloseFrame => p.(kind := "close", data := "{}\n")
  }

  lemma {:induction false} ParseTwo(p: Parser, name: string, value: string, data: string)
    requires Clean(p) && OneLine(name) && OneLine(value) && ':' !in name && OneLine(data)
    requires Clean(Field(p, name, value).(kind := ""))
    ensures Parse(p, Line(name, value) + Line("data", data)) == Field(p, name, value).(data := data + "\n")
  {
    ParseField(p, name, value);
    ParseAppend(p, Line(name, value), Line("data", data));
    ParseData(Field(p, name, value), data);
  }

  lemma {:induction false} ParseData(p: Parser, data: string)
    requires p.line == "" && !p.afterReturn && p.data == "" && OneLine(data)
    ensures Parse(p, Line("data", data)) == p.(data := data + "\n")
  {
    ParseField(p, "data", data);
    assert "" + data + "\n" == data + "\n";
  }

  /** The lines of a frame fill the buffers and dispatch nothing ... */
  lemma {:induction false} ParseBody(p: Parser, f: Frame)
    requires Clean(p) && Sendable(f)
    ensures Parse(p, Body(f)) == Filled(p, f)
  {
    match f
    case Event(n, payload) =>
      DecimalPlain(n);
      assert OneLine(Decimal(n)) && '\0' !in Decimal(n);
      ParseTwo(p, "id", Decimal(n), payload);
    case CloseFrame =>
      ParseTwo(p, "event", "close", "{}");
  }

  /** ... and its empty line dispatches one message. */
  lemma {:induction false} ParseFrame(p: Parser, f: Frame)
    requires Clean(p) && Sendable(f)
    ensures Parse(p, Body(f) + "\n") == Dispatch(Filled(p, f))
  {
    ParseBody(p, f);
    assert (Body(f) + "\n")[..|Body(f)|] == Body(f);
    var q := Filled(p, f);
    assert q.(line := "") == q;
  }

  lemma DispatchFilled(p: Parser, f: Frame)
    requires Clean(p)
    ensures Dispatch(Filled(p, f))
         == p.(lastId := if f.Event? then Decimal(f.n) else p.lastId, out := p.out + [Handed(f, p.lastId)])
  {
    match f
    case Event(n, payload) =>
      assert (payload + "\n")[..|payload|] == payload;
    case CloseFrame =>
      assert "{}\n"[..2] == "{}";
  }

  /** A browser reads back exactly the frames that were sent. */
  lemma {:induction false} RoundTrip(frames: seq<Frame>)
    requires AllSendable(frames)
    ensures var p := Parse(START, Stream(frames));
            Clean(p) && p.lastId == LastId(frames) && p.out == Messages(frames)
  {
    if frames == [] {
    } else {
      var front, f := frames[..|frames| - 1], frames[|frames| - 1];
      assert AllSendable(front) && Sendable(f);
      RoundTrip(front);
      var p := Parse(START, Stream(front));
      ParseAppend(START, Stream(front), Body(f) + "\n");
      ParseFrame(p, f);
      DispatchFilled(p, f);
    }
  }

  /** The number that decimal digits stand for. */
  function NumberOf(digits: string): int {
    if digits == "" then 0 else 10 * NumberOf(digits[..|digits| - 1]) + (digits[|digits| - 1] as int - '0' as int)
  }

  lemma {:induction false} DigitReads(digits: string, d: nat)
    requires d < 10
    ensures NumberOf(digits + [Digit(d)]) == 10 * NumberOf(digits) + d
  {
    assert (digits + [Digit(d)])[..|digits|] == digits;
    assert "0123456789"[d] as int == '0' as int + d;
  }

  lemma {:induction false} DecimalReads(n: nat)
    ensures NumberOf(Decimal(n)) == n
  {
    if n >= 10 {
      DecimalReads(n / 10);
      DigitReads(Decimal(n / 10), n % 10);
    } else {
      DigitReads("", n);
      assert "" + [Digit(n)] == [Digit(n)];
    }
  }

  lemma {:induction false} MessageOf(frames: seq<Frame>, i: nat)
    requires i < |frames|
    ensures |Messages(frames)| == |frames|
    ensures var m := Messages(frames)[i];
            match frames[i]
            case Event(n, payload) => m.kind == "" && m.data == payload && NumberOf(m.lastId) == n
            case CloseFrame => m.kind == "close" && m.data == "{}"
    decreases |frames|
  {
    var front := frames[..|frames| - 1];
    if i < |front| {
      MessageOf(front, i);
    } else {
      if front != [] {
        MessageOf(front, 0);
      }
      if frames[i].Event? {
        DecimalReads(frames[i].n);
      }
    }
  }

  /** So one message for each frame comes out, in order: an event on the default channel with its payload and its number
      as the last event id, and the close by its name. */
  lemma {:induction false} FramesReadBack(frames: seq<Frame>, i: nat)
    requires AllSendable(frames) && i < |frames|
    ensures var out := Parse(START, Stream(frames)).out;
            && |out| == |frames|
            && match frames[i]
               case Event(n, payload) => out[i].kind == "" && out[i].data == payload && NumberOf(out[i].lastId) == n
               case CloseFrame => out[i].kind == "close" && out[i].data == "{}"
  {
    RoundTrip(frames);
    MessageOf(frames, i);
  }

  /** How many frames are whole in the first `length` characters. */
  function Whole(frames: seq<Frame>, length: nat): nat {
    if frames == [] then 0
    else if |Stream(frames)| <= length then |frames|
    else Whole(frames[..|frames| - 1], length)
  }

  /** Wherever the connection is lost, the client has been handed the whole frames before the cut and no part of one. */
  lemma {:induction false} CutBetweenFrames(frames: seq<Frame>, text: string)
    requires AllSendable(frames) && text <= Stream(frames)
    ensures Whole(frames, |text|) <= |frames|
    ensures Parse(START, text).out == Messages(frames[..Whole(frames, |text|)])
    decreases |frames|
  {
    if |text| == |Stream(frames)| {
      RoundTrip(frames);
      assert text == Stream(frames) && frames[..|frames|] == frames;
    } else {
      var front, f := frames[..|frames| - 1], frames[|frames| - 1];
      assert AllSendable(front) && Sendable(f);
      WholeLess(frames, |text|);
      if |text| < |Stream(front)| {
        assert text <= Stream(front);
        CutBetweenFrames(front, text);
        var n := Whole(front, |text|);
        assert front[..n] == frames[..n];
      } else {
        InsideFrame(front, f, text);
        WholeFront(front, |text|);
        assert frames[..|front|] == front;
      }
    }
  }

  lemma {:induction false} WholeLess(frames: seq<Frame>, length: nat)
    requires frames != [] && length < |Stream(frames)|
    ensures Whole(frames, length) == Whole(frames[..|frames| - 1], length)
  {
  }

  lemma {:induction false} WholeFront(frames: seq<Frame>, length: nat)
    requires |Stream(frames)| <= length
    ensures Whole(frames, length) == |frames|
  {
  }

  lemma CutInside<T>(front: seq<T>, body: seq<T>, end: seq<T>, text: seq<T>) returns (part: seq<T>, rest: seq<T>)
    requires |front| <= |text| <= |front| + |body| && text <= front + (body + end)
    ensures text == front + part && body == part + rest
  {
    part, rest := text[|front|..], body[|text| - |front|..];
    assert forall i :: 0 <= i < |text| ==> text[i] == (front + (body + end))[i];
  }

  lemma {:induction false} NothingYet(p: Parser, part: string, rest: string)
    requires Parse(p, part + rest).out == p.out
    ensures Parse(p, part).out == p.out
  {
    ParseAppend(p, part, rest);
    OnlyGrows(p, part);
    OnlyGrows(Parse(p, part), rest);
  }

  lemma {:induction false} InsideFrame(front: seq<Frame>, f: Frame, text: string)
    requires AllSendable(front) && Sendable(f)
    requires |Stream(front)| <= |text| <= |Stream(front)| + |Body(f)|
    requires text <= Stream(front) + (Body(f) + "\n")
    ensures Parse(START, text).out == Messages(front)
  {
    RoundTrip(front);
    var part, rest := CutInside(Stream(front), Body(f), "\n", text);
    ParseAppend(START, Stream(front), part);
    ParseBody(Parse(START, Stream(front)), f);
    NothingYet(Parse(START, Stream(front)), part, rest);
  }
}
