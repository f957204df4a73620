/** Recovery of a Prometheus matrix payload whose printed text was cut short (opsrag/api/routes.py, lines 841-862). */
module Salvage {
  import opened Json
  import opened Options

  const MATRIX_TAG := "\"resultType\": \"matrix\""
  const CLOSERS := "]}}"

  predicate OccursAt(text: string, pattern: string, i: int) {
    0 <= i <= |text| - |pattern| && text[i..i + |pattern|] == pattern
  }

  predicate Contains(text: string, pattern: string) {
    exists i :: 0 <= i <= |text| - |pattern| && OccursAt(text, pattern, i)
  }

  predicate ClosesAt(text: string, i: int) {
    0 <= i < |text| - 1 && text[i] == ']' && text[i + 1] == '}'
  }

  /** Where the last "]}" starts, or -1 (str.rfind). */
  function LastClose(text: string): (i: int)
    ensures i == -1 || ClosesAt(text, i)
    ensures forall j :: i < j ==> !ClosesAt(text, j)
    decreases |text|
  {
    if |text| < 2 then -1
    else if ClosesAt(text, |text| - 2) then |text| - 2
    else
      var shorter := text[..|text| - 1];
      assert forall j :: ClosesAt(text, j) && j != |text| - 2 ==> ClosesAt(shorter, j);
      LastClose(shorter)
  }

  function Salvage(text: string): Option<Value> {
    var last := LastClose(text);
    if !Contains(text, MATRIX_TAG) || last <= 0 then None
    else Loads(text[..last + 2] + CLOSERS)
  }

  /** Only a text that names itself a matrix and closes a series somewhere is salvaged. */
  lemma SalvageNeedsMatrix(text: string)
    requires Salvage(text).Some?
    ensures exists i :: 0 <= i <= |text| - 22 && MatrixAt(text, i)
    ensures exists i :: 0 < i < |text| - 1 && ClosesAt(text, i)
  {
    var tag := "\"resultType\": \"matrix\"";
    assert |tag| == 22 && tag == MATRIX_TAG;
    var i :| 0 <= i <= |text| - |MATRIX_TAG| && OccursAt(text, MATRIX_TAG, i);
    assert MatrixAt(text, i);
    assert ClosesAt(text, LastClose(text));
  }

  predicate MatrixAt(text: string, i: int)
    requires 0 <= i <= |text| - 22
  {
    text[i..i + 22] == "\"resultType\": \"matrix\""
  }

  // ----- safety: the reader's open containers are always an initial part of the value read in the end -----

  /** `v` may still be read from here: every open container is an initial part of the container at the same place in `v`. */
  ghost predicate Holds(stack: seq<Frame>, v: Value)
    decreases |stack|
  {
    if stack == [] then true
    else
      var inner := stack[..|stack| - 1];
      match stack[|stack| - 1]
      case InArr(items) =>
        && v.Arr? && items <= v.items
        && (inner != [] ==> |items| < |v.items| && Holds(inner, v.items[|items|]))
      case InObj(members) =>
        v.Obj? && members <= v.members && inner == []
      case InMember(members, key) =>
        && v.Obj? && members <= v.members && |members| < |v.members|
        && v.members[|members|].key == key && Holds(inner, v.members[|members|].value)
  }

  ghost predicate Fits(q: State, v: Value) {
    match q.mode
    case Done(result) => result == v
    case Failed => false
    case _ => Holds(q.stack, v)
  }

  lemma {:induction false} InnerHolds(f: Frame, stack: seq<Frame>, v: Value)
    requires Holds([f] + stack, v)
    ensures Holds(stack, v)
    decreases |stack|
  {
    if |stack| > 1 {
      var inner := stack[..|stack| - 1];
      assert ([f] + stack)[..|stack|] == [f] + inner;
      match stack[|stack| - 1]
      case InArr(items) => InnerHolds(f, inner, v.items[|items|]);
      case InObj(_) =>
      case InMember(members, _) => InnerHolds(f, inner, v.members[|members|].value);
    } else if |stack| == 1 {
      assert ([f] + stack)[..1] == [f] && stack[..0] == [];
    }
  }

  lemma {:induction false} KeyHolds(members: seq<Member>, key: string, stack: seq<Frame>, v: Value)
    requires Holds([InMember(members, key)] + stack, v)
    ensures Holds([InObj(members)] + stack, v)
    decreases |stack|
  {
    if stack != [] {
      var inner := stack[..|stack| - 1];
      assert ([InMember(members, key)] + stack)[..|stack|] == [InMember(members, key)] + inner;
      assert ([InObj(members)] + stack)[..|stack|] == [InObj(members)] + inner;
      match stack[|stack| - 1]
      case InArr(items) => KeyHolds(members, key, inner, v.items[|items|]);
      case InObj(_) =>
      case InMember(outer, _) => KeyHolds(members, key, inner, v.members[|outer|].value);
    }
  }

  /** Before a container was completed it was open, and fitted. */
  lemma {:induction false} CompletedHolds(f: Frame, x: Value, stack: seq<Frame>, v: Value)
    requires Fits(Complete(stack, x), v) && Holds([f], x)
    ensures Holds([f] + stack, v)
    decreases |stack|
  {
    if stack == [] {
      assert [f] + stack == [f];
    } else {
      var inner := stack[..|stack| - 1];
      var open := [f] + stack;
      assert open[..|stack|] == [f] + inner;
      if |stack| == 1 {
        assert [f] + inner == [f];
      } else {
        var q := Complete(stack, x);
        assert q.stack[..|stack| - 1] == Complete(inner, x).stack;
        match stack[|stack| - 1]
        case InArr(items) => CompletedHolds(f, x, inner, v.items[|items|]);
        case InObj(_) =>
        case InMember(members, _) => CompletedHolds(f, x, inner, v.members[|members|].value);
      }
    }
  }

  lemma {:induction false} ValueCompletedHolds(x: Value, stack: seq<Frame>, v: Value)
    requires Fits(Complete(stack, x), v) && (x.Scalar? || x.Str?)
    ensures Holds(stack, v)
  {
    if stack != [] {
      ScalarCompletedHolds(x, stack, v);
    }
  }

  lemma {:induction false} ScalarCompletedHolds(x: Value, stack: seq<Frame>, v: Value)
    requires stack != [] && Fits(Complete(stack, x), v)
    ensures Holds(stack, v)
    decreases |stack|
  {
    var inner := stack[..|stack| - 1];
    if |stack| > 1 {
      assert Complete(stack, x).stack[..|stack| - 1] == Complete(inner, x).stack;
      match stack[|stack| - 1]
      case InArr(items) => ScalarCompletedHolds(x, inner, v.items[|items|]);
      case InObj(_) =>
      case InMember(members, _) => ScalarCompletedHolds(x, inner, v.members[|members|].value);
    }
  }

  lemma SettledFits(q: State, v: Value)
    requires Fits(Settle(q), v)
    ensures Fits(q, v)
  {
    if q.mode.InLexeme? {
      ValueCompletedHolds(Scalar(q.mode.lexeme), q.stack, v);
    }
  }

  lemma {:induction false} BeginFits(stack: seq<Frame>, c: char, v: Value)
    requires Fits(Begin(stack, c), v)
    ensures Holds(stack, v)
  {
    if c == '[' {
      InnerHolds(InArr([]), stack, v);
    } else if c == '{' {
      InnerHolds(InObj([]), stack, v);
    }
  }

  lemma {:induction false} CloseFits(q: State, x: Value, v: Value)
    requires q.stack != [] && !q.mode.Done? && !q.mode.Failed? && !q.mode.InLexeme?
    requires Holds([q.stack[0]], x) && Fits(Complete(q.stack[1..], x), v)
    ensures Fits(q, v)
  {
    CompletedHolds(q.stack[0], x, q.stack[1..], v);
    assert [q.stack[0]] + q.stack[1..] == q.stack;
  }

  lemma StepSettledFits(q: State, c: char, v: Value)
    requires Fits(StepSettled(q, c), v) && !q.mode.InLexeme? && !q.mode.InStr?
    ensures Fits(q, v)
  {
    if !IsSpace(c) {
      match q.mode
      case Start => BeginFits(q.stack, c, v);
      case FirstItem =>
        if c == ']' && q.stack != [] && q.stack[0].InArr? {
          CloseFits(q, Arr(q.stack[0].items), v);
        } else {
          BeginFits(q.stack, c, v);
        }
      case FirstKey =>
        if c == '}' && q.stack != [] && q.stack[0].InObj? {
          CloseFits(q, Obj(q.stack[0].members), v);
        }
      case Colon(key) =>
        KeyHolds(q.stack[0].members, key, q.stack[1..], v);
        assert [q.stack[0]] + q.stack[1..] == q.stack;
      case After =>
        if c == ']' {
          CloseFits(q, Arr(q.stack[0].items), v);
        } else if c == '}' {
          CloseFits(q, Obj(q.stack[0].members), v);
        }
      case _ =>
    }
  }

  lemma StepFits(q: State, c: char, v: Value)
    requires Fits(Step(q, c), v)
    ensures Fits(q, v)
  {
    match q.mode
    case InStr(body, escaped, isKey) =>
      if !escaped && c == '"' && !isKey {
        ValueCompletedHolds(Str(body), q.stack, v);
      }
    case InLexeme(lexeme) =>
      if !IsScalarChar(c) {
        StepSettledFits(Settle(q), c, v);
        SettledFits(q, v);
      }
    case _ => StepSettledFits(q, c, v);
  }

  lemma {:induction false} RunFits(q: State, text: string, v: Value)
    requires Fits(Settle(Run(q, text)), v)
    ensures Fits(q, v)
    decreases |text|
  {
    if text == "" {
      SettledFits(q, v);
    } else {
      RunFits(Step(q, text[0]), text[1..], v);
      StepFits(q, text[0], v);
    }
  }

  /** `v` cut inside the array under its member `a`, that member's member `b`: members before the path are kept,
      those after it are dropped, and the array keeps its first `n` items. */
  function Cut(v: Value, a: nat, b: nat, n: nat): Value
    requires HasPath(v, a, b) && n <= |ArrayAt(v, a, b)|
  {
    var outer := v.members[a];
    var inner := outer.value.members[b];
    Obj(v.members[..a] + [Member(outer.key, Obj(outer.value.members[..b] + [Member(inner.key, Arr(inner.value.items[..n]))]))])
  }

  predicate HasPath(v: Value, a: nat, b: nat) {
    && v.Obj? && a < |v.members|
    && v.members[a].value.Obj? && b < |v.members[a].value.members|
    && v.members[a].value.members[b].value.Arr?
  }

  function ArrayAt(v: Value, a: nat, b: nat): seq<Value>
    requires HasPath(v, a, b)
  {
    v.members[a].value.members[b].value.items
  }

  ghost predicate IsCut(w: Value, v: Value) {
    exists a: nat, b: nat, n: nat :: HasPath(v, a, b) && n <= |ArrayAt(v, a, b)| && w == Cut(v, a, b, n)
  }

  /** Outside a string, a closing bracket is accepted only by the container it closes. */
  lemma ClosedBy(q: State, c: char)
    requires c == ']' || c == '}'
    requires !Step(q, c).mode.InStr? && !Step(q, c).mode.Failed?
    ensures var s := Settle(q).stack;
            && s != [] && (if c == ']' then s[0].InArr? else s[0].InObj?)
            && Step(q, c) == Complete(s[1..], if c == ']' then Arr(s[0].items) else Obj(s[0].members))
    ensures !q.mode.InStr?
  {
    assert !q.mode.InStr?;
    var s := Settle(q);
    assert Step(q, c) == StepSettled(s, c);
  }

  lemma ObjectClosesAll(q: State)
    requires Step(q, '}').mode.Done?
    ensures var s := Settle(q).stack;
            |s| == 1 && s[0].InObj? && Step(q, '}') == State([], Done(Obj(s[0].members)))
    ensures !q.mode.InStr?
  {
    ClosedBy(q, '}');
  }

  lemma TwoObjectsCloseAll(q: State)
    requires Step(Step(q, '}'), '}').mode.Done?
    ensures var s := Settle(q).stack;
            && |s| == 2 && s[0].InObj? && s[1].InMember?
            && Step(Step(q, '}'), '}') == State([], Done(Obj(s[1].members + [Member(s[1].key, Obj(s[0].members))])))
    ensures !q.mode.InStr?
  {
    var q' := Step(q, '}');
    ObjectClosesAll(q');
    ClosedBy(q, '}');
    var s := Settle(q).stack;
    assert Settle(q') == q' == Complete(s[1..], Obj(s[0].members));
    assert |s[1..]| == 1;
  }

  lemma {:induction false} RunClosers(q: State)
    ensures Run(q, CLOSERS) == Step(Step(Step(q, ']'), '}'), '}')
  {
    assert CLOSERS == "]" + "}}";
    RunAppend(q, "]", "}}");
    RunOne(q, ']');
    RunTwo(Step(q, ']'), '}', '}');
  }

  /** The closers are only accepted where exactly an array in an object in an object is open. */
  lemma {:induction false} ClosersNeedPath(q: State)
    requires Settle(Run(q, CLOSERS)).mode.Done?
    ensures var s := Settle(q).stack;
            && |s| == 3 && s[0].InArr? && s[1].InMember? && s[2].InMember?
            && Settle(Run(q, CLOSERS)).mode.result
               == Obj(s[2].members + [Member(s[2].key, Obj(s[1].members + [Member(s[1].key, Arr(s[0].items))]))])
  {
    RunClosers(q);
    BracketNeedsPath(q);
  }

  lemma BracketNeedsPath(q: State)
    requires var last := Step(Step(Step(q, ']'), '}'), '}'); Settle(last).mode.Done?
    ensures var s := Settle(q).stack;
            && |s| == 3 && s[0].InArr? && s[1].InMember? && s[2].InMember?
            && Settle(Step(Step(Step(q, ']'), '}'), '}')).mode.result
               == Obj(s[2].members + [Member(s[2].key, Obj(s[1].members + [Member(s[1].key, Arr(s[0].items))]))])
  {
    var q' := Step(q, ']');
    NoLexemeAfterBrace(Step(q', '}'));
    TwoObjectsCloseAll(q');
    ClosedBy(q, ']');
    var s := Settle(q).stack;
    assert Settle(q') == q' == Complete(s[1..], Arr(s[0].items));
    assert |s[1..]| == 2 && s[2] == s[1..][1] == q'.stack[1];
  }

  lemma NoLexemeAfterBrace(q: State)
    ensures !Step(q, '}').mode.InLexeme?
  {
  }

  lemma {:induction false} AfterClose(kept: string)
    requires kept != "" && kept[|kept| - 1] == '}'
    ensures !Run(INITIAL, kept).mode.InLexeme?
  {
    var front := kept[..|kept| - 1];
    assert kept == front + "}";
    var q := Run(INITIAL, front);
    RunAppend(INITIAL, front, "}");
    RunOne(q, '}');
    NoLexemeAfterBrace(q);
  }

  /** If a prefix that ends in '}' reads as a value once the closers are appended, that value is a cut of the full one. */
  lemma CutFromPrefix(text: string, kept: string, v: Value, w: Value)
    requires Loads(text) == Some(v) && kept <= text && kept != "" && kept[|kept| - 1] == '}'
    requires Loads(kept + CLOSERS) == Some(w)
    ensures IsCut(w, v)
  {
    var rest := text[|kept|..];
    assert kept + rest == text;
    RunAppend(INITIAL, kept, rest);
    RunAppend(INITIAL, kept, CLOSERS);
    var q := Run(INITIAL, kept);
    AfterClose(kept);
    RunFits(q, rest, v);
    ClosersNeedPath(q);
    var s := q.stack;
    PathHolds(s, v);
    assert w == Cut(v, |s[2].members|, |s[1].members|, |s[0].items|);
  }

  lemma {:induction false} PathHolds(s: seq<Frame>, v: Value)
    requires |s| == 3 && s[0].InArr? && s[1].InMember? && s[2].InMember? && Holds(s, v)
    ensures var a, b, n := |s[2].members|, |s[1].members|, |s[0].items|;
            && HasPath(v, a, b) && n <= |ArrayAt(v, a, b)| && s[0].items == ArrayAt(v, a, b)[..n]
            && s[2].members == v.members[..a] && s[2].key == v.members[a].key
            && s[1].members == v.members[a].value.members[..b] && s[1].key == v.members[a].value.members[b].key
  {
    var inner := s[..2];
    var child := v.members[|s[2].members|].value;
    assert Holds(inner, child) && inner[1] == s[1];
    assert inner[..1] == [s[0]];
    assert Holds([s[0]], child.members[|s[1].members|].value);
  }

  // ----- the tool result as it arrives: a prefix of the printed payload, then a marker -----

  /** A marker that adds no "]}" of its own, such as the one the agent appends to a result it has cut. */
  ghost predicate IsMarker(m: string) {
    (forall i :: !ClosesAt(m, i)) && (m != "" ==> m[0] != '}')
  }

  predicate IsDigits(s: string) { forall i :: 0 <= i < |s| ==> '0' <= s[i] <= '9' }

  /** The suffix appended where a tool result is cut (opsrag/agent/nodes/multi_agent.py, line 413). */
  function CutMarker(dropped: string): string {
    "... [truncated " + dropped + " chars]"
  }

  lemma CutMarkerIsMarker(dropped: string)
    requires IsDigits(dropped)
    ensures IsMarker(CutMarker(dropped))
  {
    var m := CutMarker(dropped);
    var head := "... [truncated ";
    assert forall i :: 0 <= i < |head| ==> m[i] == head[i];
    assert forall i :: |head| <= i < |head| + |dropped| ==> m[i] == dropped[i - |head|];
    assert forall i :: |head| + |dropped| <= i < |m| ==> m[i] == " chars]"[i - |head| - |dropped|];
    assert forall i :: 0 <= i < |m| ==> m[i] != '}';
  }

  lemma {:induction false} LastCloseBeforeMarker(p: string, marker: string)
    requires IsMarker(marker) && LastClose(p + marker) >= 0
    ensures LastClose(p + marker) + 2 <= |p|
  {
    var i := LastClose(p + marker);
    assert i >= |p| ==> ClosesAt(marker, i - |p|);
    assert marker != "" ==> (p + marker)[|p|] == marker[0];
  }

  /** Salvage never invents or alters data: from any prefix of any JSON text, marker or not, it returns nothing, or
      the payload cut inside one array two objects deep. */
  lemma SalvageIsCut(text: string, v: Value, p: string, marker: string)
    requires Loads(text) == Some(v) && p <= text && IsMarker(marker)
    ensures Salvage(p + marker).Some? ==> IsCut(Salvage(p + marker).value, v)
  {
    var got := p + marker;
    if Salvage(got).Some? {
      LastCloseBeforeMarker(p, marker);
      var kept := got[..LastClose(got) + 2];
      assert kept == p[..|kept|] == text[..|kept|];
      CutFromPrefix(text, kept, v, Salvage(got).value);
    }
  }

  // ----- what the chart reads: payload["data"]["result"] -----

  predicate DistinctKeys(members: seq<Member>) {
    forall i, j :: 0 <= i < j < |members| ==> members[i].key != members[j].key
  }

  function Lookup(members: seq<Member>, key: string): (r: Option<Value>)
    ensures r.Some? ==> exists i :: 0 <= i < |members| && members[i] == Member(key, r.value)
  {
    if members == [] then None
    else if members[|members| - 1].key == key then Some(members[|members| - 1].value)
    else Lookup(members[..|members| - 1], key)
  }

  lemma {:induction false} LookupFinds(members: seq<Member>, i: nat)
    requires DistinctKeys(members) && i < |members|
    ensures Lookup(members, members[i].key) == Some(members[i].value)
  {
    if i < |members| - 1 {
      LookupFinds(members[..|members| - 1], i);
    }
  }

  function Field(v: Value, key: string): Option<Value> {
    if v.Obj? then Lookup(v.members, key) else None
  }

  function Series(v: Value): Option<seq<Value>> {
    var data := Field(v, "data");
    if data.None? then None
    else
      var result := Field(data.value, "result");
      if result.Some? && result.value.Arr? then Some(result.value.items) else None
  }

  lemma FieldOfCut(w: Value, v: Value, key: string, i: nat, last: Value)
    requires v.Obj? && DistinctKeys(v.members) && i < |v.members|
    requires w == Obj(v.members[..i] + [Member(v.members[i].key, last)])
    ensures Field(w, key).Some? ==>
              Field(w, key) == Field(v, key) || (key == v.members[i].key && Field(w, key) == Some(last))
  {
    if key != v.members[i].key && Field(w, key).Some? {
      assert w.members[..i] == v.members[..i];
      var k :| 0 <= k < i && v.members[..i][k] == Member(key, Field(w, key).value);
      LookupFinds(v.members, k);
    }
  }

  /** The series that reach the chart are a prefix of the payload's own series, point for point. */
  lemma ChartSeesPrefix(text: string, v: Value, p: string, marker: string, seen: seq<Value>)
    requires Loads(text) == Some(v) && p <= text && IsMarker(marker)
    requires v.Obj? && DistinctKeys(v.members)
    requires forall i :: 0 <= i < |v.members| && v.members[i].value.Obj? ==> DistinctKeys(v.members[i].value.members)
    requires Salvage(p + marker).Some? && Series(Salvage(p + marker).value) == Some(seen)
    ensures Series(v).Some? && seen <= Series(v).value
  {
    var w := Salvage(p + marker).value;
    SalvageIsCut(text, v, p, marker);
    var a: nat, b: nat, n: nat :| HasPath(v, a, b) && n <= |ArrayAt(v, a, b)| && w == Cut(v, a, b, n);
    var data := v.members[a].value;
    var last := w.members[a].value;
    FieldOfCut(w, v, "data", a, last);
    if Field(w, "data") != Field(v, "data") {
      LookupFinds(v.members, a);
      FieldOfCut(last, data, "result", b, last.members[b].value);
      if Field(last, "result") != Field(data, "result") {
        LookupFinds(data.members, b);
      }
    }
  }

  // ----- recovery: a cut past a complete series keeps every series before it -----

  lemma {:induction false} LastCloseIs(head: string, tail: string)
    requires |head| >= 2 && ClosesAt(head, |head| - 2) && forall i :: !ClosesAt(tail, i)
    ensures LastClose(head + tail) == |head| - 2
  {
    var text := head + tail;
    assert ClosesAt(text, |head| - 2);
    var i := LastClose(text);
    assert i >= |head| ==> ClosesAt(tail, i - |head|);
    assert text[|head| - 1] == head[|head| - 1] == '}';
  }

  lemma {:induction false} PrintMembersAppend(x: seq<Member>, y: seq<Member>)
    ensures PrintMembers(x + y) == PrintMembers(x) + PrintMembers(y)
  {
    if x == [] {
      assert x + y == y;
    } else {
      assert (x + y)[1..] == x[1..] + y;
      PrintMembersAppend(x[1..], y);
    }
  }

  lemma {:induction false} PrintItemsAppend(x: seq<Value>, y: seq<Value>)
    ensures PrintItems(x + y) == PrintItems(x) + PrintItems(y)
  {
    if x == [] {
      assert x + y == y;
    } else {
      assert (x + y)[1..] == x[1..] + y;
      PrintItemsAppend(x[1..], y);
    }
  }

  function KeyText(key: string): string { "\"" + key + "\": " }

  /** The text of an open object after the members `x` and before the next one. */
  function ObjHead(x: seq<Member>): string {
    if x == [] then "{" else "{" + PrintMember(x[0]) + PrintMembers(x[1..]) + ", "
  }

  function ItemsText(items: seq<Value>): string {
    if items == [] then "" else Print(items[0]) + PrintItems(items[1..])
  }

  lemma PrintObjAt(members: seq<Member>, i: nat)
    requires i < |members|
    ensures Print(Obj(members)) == ObjHead(members[..i]) + PrintMember(members[i]) + (PrintMembers(members[i + 1..]) + "}")
  {
    if i > 0 {
      var x, y := members[1..i], members[i..];
      assert members[1..] == x + y && members[..i][1..] == x && y[1..] == members[i + 1..];
      PrintMembersAppend(x, y);
      RegroupMiddle("{" + PrintMember(members[0]), PrintMembers(x), ", ", PrintMember(members[i]),
                    PrintMembers(members[i + 1..]), "}");
    }
  }

  lemma PrintArrAt(items: seq<Value>, n: nat)
    requires 0 < n <= |items|
    ensures ItemsText(items) == ItemsText(items[..n]) + PrintItems(items[n..])
  {
    assert items[1..] == items[1..n] + items[n..] && items[..n][1..] == items[1..n];
    PrintItemsAppend(items[1..n], items[n..]);
  }

  lemma ItemsTextEnds(items: seq<Value>) returns (before: string)
    requires items != []
    ensures ItemsText(items) == before + Print(items[|items| - 1])
  {
    var last := items[|items| - 1];
    if |items| == 1 {
      before := "";
      assert items[1..] == [];
    } else {
      var x := items[1..|items| - 1];
      assert items[1..] == x + [last];
      PrintItemsAppend(x, [last]);
      assert [last][1..] == [];
      assert PrintItems([last]) == ", " + Print(last);
      before := Print(items[0]) + PrintItems(x) + ", ";
      RegroupEnd(Print(items[0]), PrintItems(x), ", ", Print(last));
    }
  }

  lemma RegroupEnd(a: string, b: string, c: string, d: string)
    ensures a + (b + (c + d)) == a + b + c + d
  {
  }

  lemma HeadShows(x: seq<Member>, c: nat) returns (before: string, after: string)
    requires c < |x|
    ensures ObjHead(x) == before + PrintMember(x[c]) + after
  {
    if c == 0 {
      before, after := "{", PrintMembers(x[1..]) + ", ";
    } else {
      var rest := x[c + 1..];
      assert x[1..] == x[1..c] + ([x[c]] + rest) && ([x[c]] + rest)[1..] == rest;
      PrintMembersAppend(x[1..c], [x[c]] + rest);
      before := "{" + PrintMember(x[0]) + PrintMembers(x[1..c]) + ", ";
      after := PrintMembers(rest) + ", ";
      RegroupMiddle("{" + PrintMember(x[0]), PrintMembers(x[1..c]), ", ", PrintMember(x[c]), PrintMembers(rest), ", ");
    }
  }

  lemma RegroupMiddle(h: string, x: string, c: string, m: string, r: string, d: string)
    ensures h + (x + (c + m + r)) + d == (h + x + c) + m + (r + d)
  {
  }

  /** The printed payload up to and including the first `n` items of the array at the path. */
  function PrintedUpTo(v: Value, a: nat, b: nat, n: nat): string
    requires HasPath(v, a, b) && n <= |ArrayAt(v, a, b)|
  {
    var inner := v.members[a].value.members;
    ObjHead(v.members[..a]) + KeyText(v.members[a].key)
    + ObjHead(inner[..b]) + KeyText(inner[b].key) + "[" + ItemsText(ArrayAt(v, a, b)[..n])
  }

  lemma Regroup(x: string, k: string, y: string, l: string, i: string)
    ensures x + (k + (y + (l + ("[" + i + "]")) + ("" + "}"))) + ("" + "}") == (x + k + y + l + "[" + i) + CLOSERS
  {
    assert CLOSERS == "]" + ("}" + "}");
  }

  lemma PrintsCut(v: Value, a: nat, b: nat, n: nat)
    requires HasPath(v, a, b) && n <= |ArrayAt(v, a, b)|
    ensures Print(Cut(v, a, b, n)) == PrintedUpTo(v, a, b, n) + CLOSERS
  {
    var w := Cut(v, a, b, n);
    var inner := w.members[a].value.members;
    PrintObjAt(w.members, a);
    PrintObjAt(inner, b);
    assert w.members[..a] == v.members[..a] && inner[..b] == v.members[a].value.members[..b];
    assert w.members[a + 1..] == [] && inner[b + 1..] == [];
    Regroup(ObjHead(v.members[..a]), KeyText(v.members[a].key), ObjHead(inner[..b]), KeyText(inner[b].key),
            ItemsText(ArrayAt(v, a, b)[..n]));
  }

  lemma RegroupPrefix(x: string, k: string, y: string, l: string, i: string, r: string, p: string, q: string)
    ensures x + k + y + l + "[" + i <= x + (k + (y + (l + ("[" + (i + r) + "]")) + p)) + q
  {
    var short := x + k + y + l + "[" + i;
    assert x + (k + (y + (l + ("[" + (i + r) + "]")) + p)) + q == short + (r + "]" + p + q);
  }

  lemma {:induction false} PrintedUpToIsPrefix(v: Value, a: nat, b: nat, n: nat)
    requires HasPath(v, a, b) && 0 < n <= |ArrayAt(v, a, b)|
    ensures PrintedUpTo(v, a, b, n) <= Print(v)
  {
    var inner := v.members[a].value.members;
    PrintObjAt(v.members, a);
    PrintObjAt(inner, b);
    var items := ArrayAt(v, a, b);
    PrintArrAt(items, n);
    RegroupPrefix(ObjHead(v.members[..a]), KeyText(v.members[a].key), ObjHead(inner[..b]), KeyText(inner[b].key),
                  ItemsText(items[..n]), PrintItems(items[n..]),
                  PrintMembers(inner[b + 1..]) + "}", PrintMembers(v.members[a + 1..]) + "}");
  }

  /** A series ends "]}" when its values come last, as Prometheus prints it. */
  predicate ValuesLast(series: Value) {
    series.Obj? && series.members != [] && series.members[|series.members| - 1].value.Arr?
  }

  lemma {:induction false} ValuesLastEnds(series: Value)
    requires ValuesLast(series)
    ensures var text := Print(series); |text| >= 2 && ClosesAt(text, |text| - 2)
  {
    PrintObjAt(series.members, |series.members| - 1);
  }

  lemma {:induction false} CutWellFormed(v: Value, a: nat, b: nat, n: nat)
    requires WellFormed(v) && HasPath(v, a, b) && n <= |ArrayAt(v, a, b)|
    ensures WellFormed(Cut(v, a, b, n))
  {
    var w := Cut(v, a, b, n);
    var data, data' := v.members[a].value, w.members[a].value;
    assert WellFormed(data) && IsBody(v.members[a].key);
    var result := data.members[b].value;
    assert WellFormed(result) && IsBody(data.members[b].key);
    assert WellFormed(data'.members[b].value);
    assert forall i :: 0 <= i < b ==> data'.members[i] == data.members[i];
    assert WellFormed(data');
    assert forall i :: 0 <= i < a ==> w.members[i] == v.members[i];
  }

  lemma Occurs(x: string, before: string, pattern: string, after: string, y: string)
    ensures Contains(x + (before + pattern + after) + y, pattern)
  {
    var text := x + (before + pattern + after) + y;
    assert text == (x + before) + pattern + (after + y);
    assert OccursAt(text, pattern, |x + before|);
  }

  lemma TagPrinted(v: Value, a: nat, b: nat, n: nat, c: nat, tail: string)
    requires HasPath(v, a, b) && n <= |ArrayAt(v, a, b)| && c < b
    requires v.members[a].value.members[c] == Member("resultType", Str("matrix"))
    ensures Contains(PrintedUpTo(v, a, b, n) + tail, MATRIX_TAG)
  {
    var inner := v.members[a].value.members;
    var before, after := HeadShows(inner[..b], c);
    assert PrintMember(inner[c]) == MATRIX_TAG;
    var x := ObjHead(v.members[..a]) + KeyText(v.members[a].key);
    var y := KeyText(inner[b].key) + "[" + ItemsText(ArrayAt(v, a, b)[..n]) + tail;
    Occurs(x, before, MATRIX_TAG, after, y);
    assert PrintedUpTo(v, a, b, n) + tail == x + ObjHead(inner[..b]) + y;
  }

  /** A payload cut anywhere after its first `n` series, before another "]}" is printed, is recovered with exactly
      those series. */
  lemma {:induction false} SalvageRecovers(v: Value, a: nat, b: nat, n: nat, c: nat, tail: string)
    requires WellFormed(v) && HasPath(v, a, b) && 0 < n <= |ArrayAt(v, a, b)| && c < b
    requires v.members[a].value.members[c] == Member("resultType", Str("matrix"))
    requires ValuesLast(ArrayAt(v, a, b)[n - 1])
    requires forall i :: !ClosesAt(tail, i)
    ensures Salvage(PrintedUpTo(v, a, b, n) + tail) == Some(Cut(v, a, b, n))
  {
    var head := PrintedUpTo(v, a, b, n);
    HeadCloses(v, a, b, n);
    LastCloseIs(head, tail);
    TagPrinted(v, a, b, n, c, tail);
    CutReads(v, a, b, n);
    SalvagedAt(head, tail);
  }

  lemma {:induction false} SalvagedAt(head: string, tail: string)
    requires |head| > 2 && LastClose(head + tail) == |head| - 2 && Contains(head + tail, MATRIX_TAG)
    ensures Salvage(head + tail) == Loads(head + CLOSERS)
  {
    assert (head + tail)[..|head|] == head;
  }

  lemma {:induction false} HeadCloses(v: Value, a: nat, b: nat, n: nat)
    requires HasPath(v, a, b) && 0 < n <= |ArrayAt(v, a, b)| && ValuesLast(ArrayAt(v, a, b)[n - 1])
    ensures var head := PrintedUpTo(v, a, b, n); |head| > 2 && ClosesAt(head, |head| - 2)
  {
    var head, kept := PrintedUpTo(v, a, b, n), ArrayAt(v, a, b)[..n];
    var before := ItemsTextEnds(kept);
    var last := Print(kept[n - 1]);
    ValuesLastEnds(kept[n - 1]);
    assert |head| > |last| && head[|head| - |last|..] == last;
  }

  lemma {:induction false} CutReads(v: Value, a: nat, b: nat, n: nat)
    requires WellFormed(v) && HasPath(v, a, b) && n <= |ArrayAt(v, a, b)|
    ensures Loads(PrintedUpTo(v, a, b, n) + CLOSERS) == Some(Cut(v, a, b, n))
  {
    CutWellFormed(v, a, b, n);
    PrintsCut(v, a, b, n);
    LoadsPrint(Cut(v, a, b, n));
  }

  lemma PrefixesNest<T>(x: seq<T>, y: seq<T>, whole: seq<T>)
    requires x <= whole && y <= whole && |x| <= |y|
    ensures x <= y
  {
  }

  /** So whatever the truncation leaves of a printed payload, with its marker or without: if it reaches to the end of the
      n-th series, and no "]}" comes after that, exactly the first n series are recovered. */
  lemma {:induction false} TruncatedRecovers(v: Value, a: nat, b: nat, n: nat, c: nat, p: string, marker: string)
    requires WellFormed(v) && HasPath(v, a, b) && 0 < n <= |ArrayAt(v, a, b)| && c < b
    requires v.members[a].value.members[c] == Member("resultType", Str("matrix"))
    requires ValuesLast(ArrayAt(v, a, b)[n - 1])
    requires p <= Print(v) && |PrintedUpTo(v, a, b, n)| <= |p| && IsMarker(marker)
    requires forall i :: !ClosesAt((p + marker)[|PrintedUpTo(v, a, b, n)|..], i)
    ensures Salvage(p + marker) == Some(Cut(v, a, b, n))
  {
    var head := PrintedUpTo(v, a, b, n);
    PrintedUpToIsPrefix(v, a, b, n);
    PrefixesNest(head, p, Print(v));
    var tail := (p + marker)[|head|..];
    assert p + marker == head + tail;
    SalvageRecovers(v, a, b, n, c, tail);
  }
}
