// The regular expressions of the admission rules, with their usual meaning.
module Patterns {
  import opened Common

  datatype Regex =
    | Empty
    | Begin
    | End
    | OneOf(chars: set<char>)
    | NoneOf(chars: set<char>)
    | Cat(first: Regex, second: Regex)
    | Alt(left: Regex, right: Regex)
    | Star(inner: Regex)

  // Marks the places where a match may be split.
  predicate Cut(k: nat) {
    true
  }

  // The expression matches s[i..j] where it stands.
  ghost predicate Matches(re: Regex, s: string, i: nat, j: nat)
    requires i <= j <= |s|
    decreases re, j - i
  {
    match re
    case Empty => i == j
    case Begin => i == j == 0
    case End => i == j == |s|
    case OneOf(chars) => j == i + 1 && s[i] in chars
    case NoneOf(chars) => j == i + 1 && s[i] !in chars
    case Cat(a, b) => exists k: nat {:trigger Cut(k)} :: Cut(k) && i <= k <= j && Matches(a, s, i, k) && Matches(b, s, k, j)
    case Alt(a, b) => Matches(a, s, i, j) || Matches(b, s, i, j)
    case Star(a) => i == j || exists k: nat {:trigger Cut(k)} :: Cut(k) && i < k <= j && Matches(a, s, i, k) && Matches(re, s, k, j)
  }

  // The expression is found somewhere in the text.
  ghost predicate Found(re: Regex, s: string) {
    exists i: nat, j: nat | i <= j <= |s| :: Matches(re, s, i, j)
  }

  function Literal(text: string): Regex {
    if text == "" then Empty else Cat(OneOf({text[0]}), Literal(text[1..]))
  }

  function Maybe(re: Regex): Regex {
    Alt(Empty, re)
  }

  function Some1(re: Regex): Regex {
    Cat(re, Star(re))
  }

  lemma {:induction false} LiteralMatches(text: string, s: string, i: nat, j: nat)
    requires i <= j <= |s|
    ensures Matches(Literal(text), s, i, j) <==> j == i + |text| && s[i..j] == text
  {
    if text == "" {
    } else {
      var rest := text[1..];
      assert text == [text[0]] + rest;
      if i < j {
        LiteralMatches(rest, s, i + 1, j);
        assert s[i..j] == [s[i]] + s[i + 1..j];
      }
      if Matches(Literal(text), s, i, j) {
        var k: nat :| Cut(k) && i <= k <= j && Matches(OneOf({text[0]}), s, i, k) && Matches(Literal(rest), s, k, j);
        assert k == i + 1;
      }
      if j == i + |text| && s[i..j] == text {
        assert s[i..j][0] == text[0] && s[i + 1..j] == s[i..j][1..];
        assert Cut(i + 1) && Matches(OneOf({text[0]}), s, i, i + 1) && Matches(Literal(rest), s, i + 1, j);
      }
    }
  }

  lemma LiteralThen(text: string, rest: Regex, s: string, i: nat, j: nat)
    requires i <= j <= |s|
    ensures Matches(Cat(Literal(text), rest), s, i, j) <==>
              text <= s[i..] && i + |text| <= j && Matches(rest, s, i + |text|, j)
  {
    hide Literal;
    var k := i + |text|;
    if Matches(Cat(Literal(text), rest), s, i, j) {
      var m: nat :| Cut(m) && i <= m <= j && Matches(Literal(text), s, i, m) && Matches(rest, s, m, j);
      LiteralMatches(text, s, i, m);
      assert s[i..][..|text|] == s[i..m];
    }
    if text <= s[i..] && k <= j && Matches(rest, s, k, j) {
      assert s[i..k] == s[i..][..|text|] && Cut(k);
      LiteralMatches(text, s, i, k);
    }
  }

  lemma MaybeThen(text: string, rest: Regex, s: string, i: nat, j: nat)
    requires i <= j <= |s|
    ensures Matches(Cat(Maybe(Literal(text)), rest), s, i, j) <==>
              Matches(rest, s, i, j) || (text <= s[i..] && i + |text| <= j && Matches(rest, s, i + |text|, j))
  {
    LiteralThen(text, rest, s, i, j);
    if Matches(Cat(Maybe(Literal(text)), rest), s, i, j) {
      var m: nat :| Cut(m) && i <= m <= j && Matches(Maybe(Literal(text)), s, i, m) && Matches(rest, s, m, j);
      assert Matches(Empty, s, i, m) || Matches(Literal(text), s, i, m);
      if Matches(Literal(text), s, i, m) { assert Matches(Cat(Literal(text), rest), s, i, j); } else { assert m == i; }
    }
    if Matches(rest, s, i, j) {
      assert Matches(Empty, s, i, i) && Matches(Maybe(Literal(text)), s, i, i) && Cut(i);
    }
    if Matches(Cat(Literal(text), rest), s, i, j) {
      var m: nat :| Cut(m) && i <= m <= j && Matches(Literal(text), s, i, m) && Matches(rest, s, m, j);
      assert Matches(Maybe(Literal(text)), s, i, m);
    }
  }

  // An expression anchored at the beginning.
  lemma AnchoredFound(rest: Regex, s: string)
    ensures Found(Cat(Begin, rest), s) <==> exists j: nat :: j <= |s| && Matches(rest, s, 0, j)
  {
    if Found(Cat(Begin, rest), s) {
      var i: nat, j: nat :| i <= j <= |s| && Matches(Cat(Begin, rest), s, i, j);
      var k: nat :| Cut(k) && i <= k <= j && Matches(Begin, s, i, k) && Matches(rest, s, k, j);
      assert Matches(rest, s, 0, j);
    }
    if j: nat :| j <= |s| && Matches(rest, s, 0, j) {
      assert Cut(0) && Matches(Begin, s, 0, 0);
      assert Matches(Cat(Begin, rest), s, 0, j);
    }
  }

  lemma CatMatches(a: Regex, b: Regex, s: string, i: nat, j: nat)
    requires i <= j <= |s|
    ensures Matches(Cat(a, b), s, i, j) <==> exists k: nat :: Cut(k) && i <= k <= j && Matches(a, s, i, k) && Matches(b, s, k, j)
  {
    if Matches(Cat(a, b), s, i, j) {
      var k: nat :| Cut(k) && i <= k <= j && Matches(a, s, i, k) && Matches(b, s, k, j);
    }
  }

  lemma {:induction false} StarMatches(chars: set<char>, s: string, i: nat, j: nat)
    requires i <= j <= |s|
    ensures Matches(Star(NoneOf(chars)), s, i, j) <==> forall k | i <= k < j :: s[k] !in chars
    decreases j - i
  {
    var re := Star(NoneOf(chars));
    if i < j {
      StarMatches(chars, s, i + 1, j);
      if Matches(re, s, i, j) {
        var k: nat :| Cut(k) && i < k <= j && Matches(NoneOf(chars), s, i, k) && Matches(re, s, k, j);
        assert k == i + 1;
      }
      if forall k | i <= k < j :: s[k] !in chars {
        assert Cut(i + 1) && Matches(NoneOf(chars), s, i, i + 1) && Matches(re, s, i + 1, j);
      }
    }
  }

  /****** A word between separators ******/

  // The pieces of a text between separators.
  function Pieces(s: string, separators: set<char>): (parts: seq<string>)
    ensures |parts| > 0
  {
    if s == "" then [""]
    else
      var rest := Pieces(s[1..], separators);
      if s[0] in separators then [""] + rest else [[s[0]] + rest[0]] + rest[1..]
  }

  // The word stands alone at a place: nothing or a separator on either side.
  predicate WordAt(s: string, word: string, separators: set<char>, i: nat) {
    && i + |word| <= |s| && s[i..i + |word|] == word
    && (i == 0 || s[i - 1] in separators)
    && (i + |word| == |s| || s[i + |word|] in separators)
  }

  // (^|[...])word([...]|$)
  function WordPattern(word: string, separators: set<char>): Regex {
    Cat(Alt(Begin, OneOf(separators)), Cat(Literal(word), Alt(OneOf(separators), End)))
  }

  lemma WordBounds(s: string, word: string, separators: set<char>, i: nat, j: nat) returns (k: nat)
    requires i <= j <= |s| && Matches(WordPattern(word, separators), s, i, j)
    ensures WordAt(s, word, separators, k)
  {
    var before, after := Alt(Begin, OneOf(separators)), Alt(OneOf(separators), End);
    k :| Cut(k) && i <= k <= j && Matches(before, s, i, k) && Matches(Cat(Literal(word), after), s, k, j);
    var m: nat :| Cut(m) && k <= m <= j && Matches(Literal(word), s, k, m) && Matches(after, s, m, j);
    LiteralMatches(word, s, k, m);
    assert Matches(Begin, s, i, k) || Matches(OneOf(separators), s, i, k);
    assert Matches(OneOf(separators), s, m, j) || Matches(End, s, m, j);
  }

  lemma WordFound(s: string, word: string, separators: set<char>)
    ensures Found(WordPattern(word, separators), s) <==> exists i: nat :: WordAt(s, word, separators, i)
  {
    if Found(WordPattern(word, separators), s) {
      var i: nat, j: nat :| i <= j <= |s| && Matches(WordPattern(word, separators), s, i, j);
      var k := WordBounds(s, word, separators, i, j);
    }
    if i: nat :| WordAt(s, word, separators, i) {
      var m := i + |word|;
      LiteralMatches(word, s, i, m);
      var start := if i == 0 then 0 else i - 1;
      var stop := if m == |s| then m else m + 1;
      assert Cut(i) && Cut(m);
      assert Matches(Alt(Begin, OneOf(separators)), s, start, i) && Matches(Alt(OneOf(separators), End), s, m, stop);
      assert Matches(Cat(Literal(word), Alt(OneOf(separators), End)), s, i, stop);
      assert Matches(WordPattern(word, separators), s, start, stop);
    }
  }

  // The first piece runs up to the first separator.
  lemma {:induction false} FirstPiece(s: string, separators: set<char>)
    ensures var first := Pieces(s, separators)[0];
            && first <= s && (forall c | c in first :: c !in separators)
            && (|first| == |s| || s[|first|] in separators)
  {
    if s != "" && s[0] !in separators {
      FirstPiece(s[1..], separators);
      assert s == [s[0]] + s[1..];
    }
  }

  lemma FirstWord(s: string, word: string, separators: set<char>)
    requires word != "" && forall c | c in word :: c !in separators
    ensures WordAt(s, word, separators, 0) <==> Pieces(s, separators)[0] == word
  {
    FirstPiece(s, separators);
    var first := Pieces(s, separators)[0];
    if WordAt(s, word, separators, 0) {
      assert forall k | 0 <= k < |word| :: s[k] == s[..|word|][k] && s[k] in word;
      assert forall k | 0 <= k < |first| :: s[k] == first[k] && s[k] in first;
      assert |first| == |word|;
    }
  }

  ghost predicate LaterWord(s: string, word: string, separators: set<char>) {
    exists i: nat :: i > 0 && WordAt(s, word, separators, i)
  }

  lemma WordShifts(s: string, word: string, separators: set<char>, i: nat)
    requires s != "" && i > 0
    ensures WordAt(s, word, separators, i) <==>
              if i == 1 then s[0] in separators && WordAt(s[1..], word, separators, 0) else WordAt(s[1..], word, separators, i - 1)
  {
    if i + |word| <= |s| { assert s[i..i + |word|] == s[1..][i - 1..i - 1 + |word|]; }
  }

  lemma {:induction false} LaterWordIsLaterPiece(s: string, word: string, separators: set<char>)
    requires word != "" && forall c | c in word :: c !in separators
    ensures LaterWord(s, word, separators) <==> word in Pieces(s, separators)[1..]
  {
    if s == "" {
      assert Pieces(s, separators)[1..] == [];
    } else {
      var rest := s[1..];
      LaterWordIsLaterPiece(rest, word, separators);
      FirstWord(rest, word, separators);
      var pieces := Pieces(rest, separators);
      assert pieces == [pieces[0]] + pieces[1..];
      assert Pieces(s, separators)[1..] == if s[0] in separators then pieces else pieces[1..];
      if LaterWord(s, word, separators) {
        var i: nat :| i > 0 && WordAt(s, word, separators, i);
        WordShifts(s, word, separators, i);
        assert i == 1 || (i - 1 > 0 && WordAt(rest, word, separators, i - 1));
      }
      if WordAt(rest, word, separators, 0) { WordShifts(s, word, separators, 1); }
      if LaterWord(rest, word, separators) {
        var i: nat :| i > 0 && WordAt(rest, word, separators, i);
        WordShifts(s, word, separators, i + 1);
        assert WordAt(s, word, separators, i + 1);
      }
    }
  }

  // The pattern finds the word exactly when it is one of the separated pieces.
  lemma WordIsPiece(s: string, word: string, separators: set<char>)
    requires word != "" && forall c | c in word :: c !in separators
    ensures Found(WordPattern(word, separators), s) <==> word in Pieces(s, separators)
  {
    WordFound(s, word, separators);
    LaterWordIsLaterPiece(s, word, separators);
    FirstWord(s, word, separators);
    var pieces := Pieces(s, separators);
    assert pieces == [pieces[0]] + pieces[1..];
    if i: nat :| WordAt(s, word, separators, i) { assert i == 0 || LaterWord(s, word, separators); }
  }

  /****** Runs ******/

  // A text starts with one run that avoids the characters up to the next of them.
  lemma SameRun(a: string, moreA: string, b: string, moreB: string, chars: set<char>)
    requires a + moreA == b + moreB
    requires (forall c | c in a :: c !in chars) && (forall c | c in b :: c !in chars)
    requires (moreA == "" || moreA[0] in chars) && (moreB == "" || moreB[0] in chars)
    ensures a == b && moreA == moreB
  {
    var s := a + moreA;
    assert forall k | 0 <= k < |a| :: s[k] == a[k] && s[k] in a;
    assert forall k | 0 <= k < |b| :: s[k] == b[k] && s[k] in b;
    assert |a| < |s| ==> s[|a|] == moreA[0];
    assert |b| < |s| ==> s[|b|] == moreB[0];
    assert s[..|a|] == a && s[..|b|] == b && s[|a|..] == moreA && s[|b|..] == moreB;
  }

  lemma SomeMatches(chars: set<char>, s: string, i: nat, j: nat)
    requires i <= j <= |s|
    ensures Matches(Some1(NoneOf(chars)), s, i, j) <==> i < j && forall k | i <= k < j :: s[k] !in chars
  {
    if i < j {
      StarMatches(chars, s, i + 1, j);
      assert Cut(i + 1);
      if Matches(Some1(NoneOf(chars)), s, i, j) {
        var k: nat :| Cut(k) && i <= k <= j && Matches(NoneOf(chars), s, i, k) && Matches(Star(NoneOf(chars)), s, k, j);
        assert k == i + 1;
      }
    }
  }
}
