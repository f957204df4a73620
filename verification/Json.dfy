/** JSON texts as json.dumps prints them and json.loads reads them back
    (objects, arrays and strings of RFC 8259, sections 4, 5 and 7).

    The reader is a machine fed one character at a time, so that what it knows after a prefix of a text can be
    stated.  It checks structure only: a scalar is any run of scalar characters and a string body is kept with
    its escapes, so it accepts every text json.loads accepts, with the same structure. */
module Json {

  import opened Options

  datatype Value =
    | Scalar(lexeme: string)
    | Str(body: string)
    | Arr(items: seq<Value>)
    | Obj(members: seq<Member>)

  datatype Member = Member(key: string, value: Value)

  // ----- lexical classes -----

  predicate IsSpace(c: char) { c == ' ' || c == '\t' || c == '\n' || c == '\r' }

  predicate IsStructural(c: char) {
    c == '[' || c == ']' || c == '{' || c == '}' || c == ',' || c == ':' || c == '"'
  }

  predicate IsScalarChar(c: char) { !IsSpace(c) && !IsStructural(c) && c != '\\' }

  predicate IsLexeme(s: string) { s != "" && forall i :: 0 <= i < |s| ==> IsScalarChar(s[i]) }

  /** No unescaped quote, and no escape left open at the end. */
  predicate IsBody(s: string) {
    if s == "" then true
    else if s[0] == '\\' then |s| >= 2 && IsBody(s[2..])
    else s[0] != '"' && IsBody(s[1..])
  }

  predicate WellFormed(v: Value)
    decreases v
  {
    match v
    case Scalar(lexeme) => IsLexeme(lexeme)
    case Str(body) => IsBody(body)
    case Arr(items) => forall i :: 0 <= i < |items| ==> WellFormed(items[i])
    case Obj(members) => forall i :: 0 <= i < |members| ==> IsBody(members[i].key) && WellFormed(members[i].value)
  }

  // ----- printing (json.dumps with its default separators) -----

  function Print(v: Value): string
    decreases v, 1
  {
    match v
    case Scalar(lexeme) => lexeme
    case Str(body) => "\"" + body + "\""
    case Arr(items) => "[" + (if items == [] then "" else Print(items[0]) + PrintItems(items[1..])) + "]"
    case Obj(members) => "{" + (if members == [] then "" else PrintMember(members[0]) + PrintMembers(members[1..])) + "}"
  }

  function PrintMember(m: Member): string
    decreases m, 0
  {
    "\"" + m.key + "\": " + Print(m.value)
  }

  function PrintItems(items: seq<Value>): string
    decreases items, 0
  {
    if items == [] then "" else ", " + Print(items[0]) + PrintItems(items[1..])
  }

  function PrintMembers(members: seq<Member>): string
    decreases members, 0
  {
    if members == [] then "" else ", " + PrintMember(members[0]) + PrintMembers(members[1..])
  }

  // ----- reading -----

  /** An open container: what it holds so far.  `InMember` is an object whose key is read and whose value is not. */
  datatype Frame =
    | InArr(items: seq<Value>)
    | InObj(members: seq<Member>)
    | InMember(members: seq<Member>, key: string)

  datatype Mode =
    | Start          // a value must begin
    | FirstItem      // just after '[': a value or ']'
    | FirstKey       // just after '{': a key or '}'
    | NextKey        // after ',' in an object: a key
    | Colon(key: string)
    | InStr(body: string, escaped: bool, isKey: bool)
    | InLexeme(lexeme: string)
    | After          // a value inside a container is complete
    | Done(result: Value)
    | Failed

  /** The open containers, innermost first, and what is being read inside the innermost. */
  datatype State = State(stack: seq<Frame>, mode: Mode)

  const INITIAL := State([], Start)
  const FAILED := State([], Failed)

  /** A value has just been completed inside the innermost container. */
  function Complete(stack: seq<Frame>, v: Value): State {
    if stack == [] then State([], Done(v))
    else match stack[0]
      case InArr(items) => State([InArr(items + [v])] + stack[1..], After)
      case InMember(members, key) => State([InObj(members + [Member(key, v)])] + stack[1..], After)
      case InObj(_) => FAILED
  }

  function Begin(stack: seq<Frame>, c: char): State {
    if c == '[' then State([InArr([])] + stack, FirstItem)
    else if c == '{' then State([InObj([])] + stack, FirstKey)
    else if c == '"' then State(stack, InStr("", false, false))
    else if IsScalarChar(c) then State(stack, InLexeme([c]))
    else FAILED
  }

  function BeginKey(stack: seq<Frame>, c: char): State {
    if c == '"' then State(stack, InStr("", false, true)) else FAILED
  }

  /** The step out of a settled state, in which no string or lexeme is open. */
  function StepAfter(q: State, c: char): State {
    if q.stack == [] then FAILED
    else match q.stack[0]
      case InArr(items) =>
        if c == ',' then State(q.stack, Start)
        else if c == ']' then Complete(q.stack[1..], Arr(items))
        else FAILED
      case InObj(members) =>
        if c == ',' then State(q.stack, NextKey)
        else if c == '}' then Complete(q.stack[1..], Obj(members))
        else FAILED
      case InMember(_, _) => FAILED
  }

  function StepSettled(q: State, c: char): State {
    if IsSpace(c) then q
    else match q.mode
      case Start => Begin(q.stack, c)
      case FirstItem =>
        if c == ']' && q.stack != [] && q.stack[0].InArr?
        then Complete(q.stack[1..], Arr(q.stack[0].items))
        else Begin(q.stack, c)
      case FirstKey =>
        if c == '}' && q.stack != [] && q.stack[0].InObj?
        then Complete(q.stack[1..], Obj(q.stack[0].members))
        else BeginKey(q.stack, c)
      case NextKey => BeginKey(q.stack, c)
      case Colon(key) =>
        if c == ':' && q.stack != [] && q.stack[0].InObj?
        then State([InMember(q.stack[0].members, key)] + q.stack[1..], Start)
        else FAILED
      case After => StepAfter(q, c)
      case _ => FAILED
  }

  /** An open lexeme ends where its characters end. */
  function Settle(q: State): State {
    if q.mode.InLexeme? then Complete(q.stack, Scalar(q.mode.lexeme)) else q
  }

  function Step(q: State, c: char): State {
    match q.mode
    case InStr(body, escaped, isKey) =>
      if escaped then State(q.stack, InStr(body + [c], false, isKey))
      else if c == '\\' then State(q.stack, InStr(body + [c], true, isKey))
      else if c != '"' then State(q.stack, InStr(body + [c], false, isKey))
      else if isKey then State(q.stack, Colon(body))
      else Complete(q.stack, Str(body))
    case InLexeme(lexeme) =>
      if IsScalarChar(c) then State(q.stack, InLexeme(lexeme + [c]))
      else StepSettled(Settle(q), c)
    case _ => StepSettled(q, c)
  }

  function Run(q: State, text: string): State
    decreases |text|
  {
    if text == "" then q else Run(Step(q, text[0]), text[1..])
  }

  /** json.loads: the value, or None where it raises. */
  function Loads(text: string): Option<Value> {
    var q := Settle(Run(INITIAL, text));
    if q.mode.Done? then Some(q.mode.result) else None
  }

  lemma {:induction false} RunAppend(q: State, a: string, b: string)
    ensures Run(q, a + b) == Run(Run(q, a), b)
    decreases |a|
  {
    if a == "" {
      assert a + b == b;
    } else {
      assert (a + b)[1..] == a[1..] + b;
      RunAppend(Step(q, a[0]), a[1..], b);
    }
  }

  lemma {:induction false} RunOne(q: State, c: char)
    ensures Run(q, [c]) == Step(q, c)
  {
    assert [c][1..] == "" && Run(Step(q, c), "") == Step(q, c);
  }

  lemma {:induction false} RunTwo(q: State, a: char, b: char)
    ensures Run(q, [a, b]) == Step(Step(q, a), b)
  {
    assert [a, b][1..] == [b];
    RunOne(Step(q, a), b);
  }

  // ----- loads after dumps -----

  lemma {:induction false} ReadsLexeme(stack: seq<Frame>, lexeme: string, rest: string)
    requires lexeme != "" && IsLexeme(lexeme + rest)
    ensures Run(State(stack, InLexeme(lexeme)), rest) == State(stack, InLexeme(lexeme + rest))
    decreases |rest|
  {
    if rest == "" {
      assert lexeme + rest == lexeme;
    } else {
      assert (lexeme + rest)[|lexeme|] == rest[0];
      assert lexeme + rest == lexeme + [rest[0]] + rest[1..];
      ReadsLexeme(stack, lexeme + [rest[0]], rest[1..]);
    }
  }

  lemma {:induction false} ReadsBody(stack: seq<Frame>, done: string, rest: string, isKey: bool)
    requires IsBody(rest)
    ensures Run(State(stack, InStr(done, false, isKey)), rest) == State(stack, InStr(done + rest, false, isKey))
    decreases |rest|
  {
    if rest == "" {
      assert done + rest == done;
    } else if rest[0] == '\\' {
      assert rest[1..][1..] == rest[2..];
      assert done + rest == done + [rest[0]] + [rest[1]] + rest[2..];
      ReadsBody(stack, done + [rest[0]] + [rest[1]], rest[2..], isKey);
    } else {
      assert done + rest == done + [rest[0]] + rest[1..];
      ReadsBody(stack, done + [rest[0]], rest[1..], isKey);
    }
  }

  lemma {:induction false} OpensString(stack: seq<Frame>, mode: Mode, isKey: bool)
    requires if isKey then mode == NextKey || mode == FirstKey else mode == Start || mode == FirstItem
    ensures Run(State(stack, mode), "\"") == State(stack, InStr("", false, isKey))
  {
    RunOne(State(stack, mode), '"');
  }

  lemma ClosesString(stack: seq<Frame>, body: string, isKey: bool)
    ensures Run(State(stack, InStr(body, false, isKey)), "\"")
         == if isKey then State(stack, Colon(body)) else Complete(stack, Str(body))
  {
    RunOne(State(stack, InStr(body, false, isKey)), '"');
  }

  lemma {:induction false} RunThree(q: State, a: string, b: string, c: string)
    ensures Run(q, a + b + c) == Run(Run(Run(q, a), b), c)
  {
    RunAppend(q, a + b, c);
    RunAppend(q, a, b);
  }

  lemma {:induction false} ReadsQuoted(stack: seq<Frame>, mode: Mode, body: string, isKey: bool)
    requires IsBody(body)
    requires if isKey then mode == NextKey || mode == FirstKey else mode == Start || mode == FirstItem
    ensures Run(State(stack, mode), "\"" + body + "\"") ==
            if isKey then State(stack, Colon(body)) else Complete(stack, Str(body))
  {
    OpensString(stack, mode, isKey);
    ReadsBody(stack, "", body, isKey);
    assert "" + body == body;
    ClosesString(stack, body, isKey);
    RunThree(State(stack, mode), "\"", body, "\"");
  }

  /** Whatever follows an open lexeme that is not part of it sees the settled state. */
  lemma {:induction false} SettledRun(q: State, text: string)
    requires text != "" && !IsScalarChar(text[0])
    ensures Run(q, text) == Run(Settle(q), text)
  {
  }

  lemma {:induction false} ReadsValue(stack: seq<Frame>, mode: Mode, v: Value)
    requires WellFormed(v) && (mode == Start || mode == FirstItem)
    ensures Settle(Run(State(stack, mode), Print(v))) == Complete(stack, v)
    decreases v, 1
  {
    match v
    case Scalar(lexeme) =>
      assert lexeme == [lexeme[0]] + lexeme[1..];
      ReadsLexeme(stack, [lexeme[0]], lexeme[1..]);
    case Str(body) => ReadsQuoted(stack, mode, body, false);
    case Arr(items) => ReadsArr(stack, mode, items);
    case Obj(members) => ReadsObj(stack, mode, members);
  }

  lemma {:induction false} ReadsArr(stack: seq<Frame>, mode: Mode, items: seq<Value>)
    requires (forall i :: 0 <= i < |items| ==> WellFormed(items[i])) && (mode == Start || mode == FirstItem)
    ensures Run(State(stack, mode), Print(Arr(items))) == Complete(stack, Arr(items))
    decreases items, 2
  {
    var q := State(stack, mode);
    var inner := State([InArr([])] + stack, FirstItem);
    assert inner.stack[1..] == stack && Run(q, "[") == inner by { assert Step(q, '[') == inner; }
    if items == [] {
      assert Print(Arr(items)) == "[" + "]";
      RunAppend(q, "[", "]");
    } else {
      var first, tail := Print(items[0]), PrintItems(items[1..]) + "]";
      assert Print(Arr(items)) == "[" + (first + tail);
      RunAppend(q, "[", first + tail);
      RunAppend(inner, first, tail);
      ReadsValue(inner.stack, FirstItem, items[0]);
      assert [] + [items[0]] == [items[0]];
      SettledRun(Run(inner, first), tail);
      ReadsItems(stack, [items[0]], items[1..]);
      assert [items[0]] + items[1..] == items;
    }
  }

  lemma {:induction false} ReadsObj(stack: seq<Frame>, mode: Mode, members: seq<Member>)
    requires forall i :: 0 <= i < |members| ==> IsBody(members[i].key) && WellFormed(members[i].value)
    requires mode == Start || mode == FirstItem
    ensures Run(State(stack, mode), Print(Obj(members))) == Complete(stack, Obj(members))
    decreases members, 2
  {
    var q := State(stack, mode);
    var inner := State([InObj([])] + stack, FirstKey);
    assert inner.stack[1..] == stack && Run(q, "{") == inner by { assert Step(q, '{') == inner; }
    if members == [] {
      assert Print(Obj(members)) == "{" + "}";
      RunAppend(q, "{", "}");
    } else {
      var first, tail := PrintMember(members[0]), PrintMembers(members[1..]) + "}";
      assert Print(Obj(members)) == "{" + (first + tail);
      RunAppend(q, "{", first + tail);
      RunAppend(inner, first, tail);
      ReadsMember(stack, FirstKey, [], members[0]);
      assert [] + [members[0]] == [members[0]];
      SettledRun(Run(inner, first), tail);
      ReadsMembers(stack, [members[0]], members[1..]);
      assert [members[0]] + members[1..] == members;
    }
  }

  lemma {:induction false} ReadsItems(stack: seq<Frame>, done: seq<Value>, items: seq<Value>)
    requires forall i :: 0 <= i < |items| ==> WellFormed(items[i])
    ensures Run(State([InArr(done)] + stack, After), PrintItems(items) + "]") == Complete(stack, Arr(done + items))
    decreases items, 0
  {
    var open := [InArr(done)] + stack;
    assert open[1..] == stack;
    if items == [] {
      assert done + items == done && PrintItems(items) + "]" == "]";
      assert Run(State(open, After), "]") == Step(State(open, After), ']');
    } else {
      ReadsItem(stack, done, items[0]);
      var tail := PrintItems(items[1..]) + "]";
      assert PrintItems(items) + "]" == (", " + Print(items[0])) + tail;
      RunAppend(State(open, After), ", " + Print(items[0]), tail);
      SettledRun(Run(State(open, After), ", " + Print(items[0])), tail);
      assert done + items == (done + [items[0]]) + items[1..];
      ReadsItems(stack, done + [items[0]], items[1..]);
    }
  }

  lemma {:induction false} ReadsItem(stack: seq<Frame>, done: seq<Value>, item: Value)
    requires WellFormed(item)
    ensures Settle(Run(State([InArr(done)] + stack, After), ", " + Print(item)))
            == State([InArr(done + [item])] + stack, After)
    decreases item, 2
  {
    var open := [InArr(done)] + stack;
    assert open[1..] == stack;
    RunTwo(State(open, After), ',', ' ');
    assert Run(State(open, After), ", ") == State(open, Start);
    RunAppend(State(open, After), ", ", Print(item));
    ReadsValue(open, Start, item);
  }

  lemma {:induction false} ReadsMember(stack: seq<Frame>, mode: Mode, done: seq<Member>, m: Member)
    requires IsBody(m.key) && WellFormed(m.value) && (mode == FirstKey || mode == NextKey)
    ensures Settle(Run(State([InObj(done)] + stack, mode), PrintMember(m)))
            == State([InObj(done + [m])] + stack, After)
    decreases m, 0
  {
    var open := [InObj(done)] + stack;
    var keyed := [InMember(done, m.key)] + stack;
    assert open[1..] == stack && keyed[1..] == stack;
    ReadsQuoted(open, mode, m.key, true);
    var quoted := "\"" + m.key + "\"";
    assert PrintMember(m) == quoted + (": " + Print(m.value));
    RunAppend(State(open, mode), quoted, ": " + Print(m.value));
    RunTwo(State(open, Colon(m.key)), ':', ' ');
    assert Run(State(open, Colon(m.key)), ": ") == State(keyed, Start);
    RunAppend(State(open, Colon(m.key)), ": ", Print(m.value));
    ReadsValue(keyed, Start, m.value);
  }

  lemma {:induction false} ReadsMembers(stack: seq<Frame>, done: seq<Member>, members: seq<Member>)
    requires forall i :: 0 <= i < |members| ==> IsBody(members[i].key) && WellFormed(members[i].value)
    ensures Run(State([InObj(done)] + stack, After), PrintMembers(members) + "}") == Complete(stack, Obj(done + members))
    decreases members, 0
  {
    var open := [InObj(done)] + stack;
    assert open[1..] == stack;
    if members == [] {
      assert done + members == done && PrintMembers(members) + "}" == "}";
      assert Run(State(open, After), "}") == Step(State(open, After), '}');
    } else {
      ReadsNextMember(stack, done, members[0]);
      var tail := PrintMembers(members[1..]) + "}";
      assert PrintMembers(members) + "}" == (", " + PrintMember(members[0])) + tail;
      RunAppend(State(open, After), ", " + PrintMember(members[0]), tail);
      SettledRun(Run(State(open, After), ", " + PrintMember(members[0])), tail);
      assert done + members == (done + [members[0]]) + members[1..];
      ReadsMembers(stack, done + [members[0]], members[1..]);
    }
  }

  lemma {:induction false} ReadsNextMember(stack: seq<Frame>, done: seq<Member>, m: Member)
    requires IsBody(m.key) && WellFormed(m.value)
    ensures Settle(Run(State([InObj(done)] + stack, After), ", " + PrintMember(m)))
            == State([InObj(done + [m])] + stack, After)
    decreases m, 1
  {
    var open := [InObj(done)] + stack;
    assert open[1..] == stack;
    RunTwo(State(open, After), ',', ' ');
    assert Run(State(open, After), ", ") == State(open, NextKey);
    RunAppend(State(open, After), ", ", PrintMember(m));
    ReadsMember(stack, NextKey, done, m);
  }

  /** json.loads undoes json.dumps on every value. */
  lemma {:induction false} LoadsPrint(v: Value)
    requires WellFormed(v)
    ensures Loads(Print(v)) == Some(v)
  {
    ReadsValue([], Start, v);
  }
}
