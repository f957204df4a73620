/** The answer-quality guard of the answer cache (opsrag/qa_cache.py, lines 321-344).

    Which characters are letters, and what strip removes, are parameters.  The ratios are compared exactly, without the
    rounding of floating-point division. */
module AnswerQuality {

  datatype Alphabet = Alphabet(isAlpha: char -> bool, strip: string -> string)

  function CountOf(s: string, p: char -> bool): (n: nat)
    ensures n <= |s|
  {
    if s == "" then 0 else CountOf(s[..|s| - 1], p) + if p(s[|s| - 1]) then 1 else 0
  }

  predicate Blank(c: char) { c == ' ' || c == '\n' || c == '\t' }

  function Is(c: char): char -> bool { d => d == c }

  function Distinct(s: string): set<char> { set c | c in s }

  /** The text is mostly one character that is not blank. */
  ghost predicate Dominated(s: string) { exists c :: c in s && !Blank(c) && 10 * CountOf(s, Is(c)) > 7 * |s| }

  /** Not worth caching: too short, too few letters, nearly all blank, at most three characters, or mostly one. */
  ghost predicate Degenerate(alphabet: Alphabet, answer: string) {
    var s := alphabet.strip(answer);
    || answer == "" || |s| < 40
    || CountOf(s, alphabet.isAlpha) < 25
    || 100 * CountOf(s, c => Blank(c)) > 95 * |s|
    || |Distinct(s)| <= 3
    || Dominated(s)
  }

  /** Where the characters in question stand. */
  function Positions(s: string, p: char -> bool): set<nat> { set i: nat | i < |s| && p(s[i]) }

  /** A count is the number of places. */
  lemma {:induction false} CountIsPlaces(s: string, p: char -> bool)
    ensures CountOf(s, p) == |Positions(s, p)|
  {
    if s != "" {
      var n := |s| - 1;
      CountIsPlaces(s[..n], p);
      assert Positions(s, p) == Positions(s[..n], p) + if p(s[n]) then {n} else {};
    }
  }

  /** What it takes to be worth caching: at least 40 characters without the outer blanks, 25 of them letters and at
      least one in twenty not blank, four different characters, and none but a blank in more than seven tenths of the
      places. */
  lemma WorthCaching(alphabet: Alphabet, answer: string)
    ensures var s := alphabet.strip(answer);
            !Degenerate(alphabet, answer) <==>
              && answer != "" && |s| >= 40 && |Positions(s, alphabet.isAlpha)| >= 25
              && 100 * (|s| - |Positions(s, c => c in {' ', '\n', '\t'})|) >= 5 * |s|
              && |set c | c in s| >= 4
              && forall c :: c in s && c !in {' ', '\n', '\t'} ==> 10 * |Positions(s, d => d == c)| <= 7 * |s|
  {
    var s := alphabet.strip(answer);
    CountIsPlaces(s, alphabet.isAlpha);
    CountIsPlaces(s, c => Blank(c));
    assert Positions(s, c => Blank(c)) == Positions(s, c => c in {' ', '\n', '\t'});
    assert Distinct(s) == set c | c in s;
    forall c ensures CountOf(s, Is(c)) == |Positions(s, d => d == c)| {
      CountIsPlaces(s, Is(c));
      assert Positions(s, Is(c)) == Positions(s, d => d == c);
    }
  }

  /** Two different characters share the text, so at most one of them can dominate it. */
  lemma {:induction false} TwoCounts(s: string, c: char, d: char)
    requires c != d
    ensures CountOf(s, Is(c)) + CountOf(s, Is(d)) <= |s|
  {
    if s != "" {
      TwoCounts(s[..|s| - 1], c, d);
    }
  }

  /** `Counter(s)`. */
  method CountAll(s: string) returns (counter: map<char, nat>)
    ensures counter.Keys == Distinct(s) && forall c :: c in counter ==> counter[c] == CountOf(s, Is(c))
  {
    counter := map[];
    for i := 0 to |s|
      invariant counter.Keys == Distinct(s[..i])
      invariant forall c :: (if c in counter then counter[c] else 0) == CountOf(s[..i], Is(c))
    {
      assert s[..i + 1][..i] == s[..i];
      assert s[..i + 1] == s[..i] + [s[i]];
      counter := counter[s[i] := (if s[i] in counter then counter[s[i]] else 0) + 1];
    }
    assert s[..|s|] == s;
  }

  /** A most common character. */
  method MostCommon(s: string) returns (top: char, count: nat)
    requires s != ""
    ensures top in s && count == CountOf(s, Is(top))
    ensures forall c :: c in s ==> CountOf(s, Is(c)) <= count
  {
    var counter := CountAll(s);
    top, count := s[0], counter[s[0]];
    var todo := counter.Keys - {top};
    while todo != {}
      invariant top in s && top in counter && count == counter[top] && todo <= counter.Keys
      invariant forall c :: c in counter && c !in todo ==> counter[c] <= count
    {
      var c :| c in todo;
      if counter[c] > count {
        top, count := c, counter[c];
      }
      todo := todo - {c};
    }
  }

  method CountWhere(s: string, p: char -> bool) returns (n: nat)
    ensures n == CountOf(s, p)
  {
    n := 0;
    for i := 0 to |s|
      invariant n == CountOf(s[..i], p)
    {
      assert s[..i + 1][..i] == s[..i];
      if p(s[i]) {
        n := n + 1;
      }
    }
    assert s[..|s|] == s;
  }

  /** The guard.  Looking only at a most common character is enough: no other can be above seven tenths. */
  method IsDegenerateAnswer(alphabet: Alphabet, answer: string) returns (degenerate: bool)
    ensures degenerate <==> Degenerate(alphabet, answer)
  {
    if answer == "" {
      return true;
    }
    var s := alphabet.strip(answer);
    if |s| < 40 {
      return true;
    }
    var alpha := CountWhere(s, alphabet.isAlpha);
    if alpha < 25 {
      return true;
    }
    var blanks := CountWhere(s, c => Blank(c));
    if 100 * blanks > 95 * |s| {
      return true;
    }
    var distinct := set c | c in s;
    if |distinct| <= 3 {
      return true;
    }
    var top, count := MostCommon(s);
    degenerate := !Blank(top) && 10 * count > 7 * |s|;
    if Dominated(s) {
      var c :| c in s && !Blank(c) && 10 * CountOf(s, Is(c)) > 7 * |s|;
      if c != top {
        TwoCounts(s, c, top);
      }
    }
  }

  /** An answer made of one repeated character, however long, is never cached. */
  lemma OneCharacter(alphabet: Alphabet, answer: string, c: char)
    requires forall i :: 0 <= i < |alphabet.strip(answer)| ==> alphabet.strip(answer)[i] == c
    ensures Degenerate(alphabet, answer)
  {
    var s := alphabet.strip(answer);
    assert Distinct(s) <= {c};
    if |s| >= 40 {
      assert Distinct(s) == {c} by {
        assert s[0] in s;
      }
    }
  }
}
