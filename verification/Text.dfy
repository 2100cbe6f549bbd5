// String operations the models share: splitting and joining, decimal numbers,
// ASCII case, stripping and the lexicographic order that sorted() uses.
module Text {
  import opened Common

  /****** Splitting and joining on a character ******/

  function Split(s: string, separator: char): (parts: seq<string>)
    ensures |parts| > 0
  {
    if s == "" then [""]
    else
      var rest := Split(s[1..], separator);
      if s[0] == separator then [""] + rest else [[s[0]] + rest[0]] + rest[1..]
  }

  function Join(parts: seq<string>, separator: char): string
    requires |parts| > 0
  {
    if |parts| == 1 then parts[0] else parts[0] + [separator] + Join(parts[1..], separator)
  }

  // Splitting a plain text followed by a separator peels that text off.
  lemma {:induction false} SplitFirst(head: string, tail: string, separator: char)
    requires separator !in head
    ensures Split(head + [separator] + tail, separator) == [head] + Split(tail, separator)
  {
    var whole := head + [separator] + tail;
    if head == "" {
      assert whole[1..] == tail;
    } else {
      assert whole[1..] == head[1..] + [separator] + tail;
      assert head[0] in head && whole[0] == head[0];
      assert forall c | c in head[1..] :: c in head;
      SplitFirst(head[1..], tail, separator);
      assert [head[0]] + head[1..] == head;
      assert ([head[1..]] + Split(tail, separator))[1..] == Split(tail, separator);
    }
  }

  lemma {:induction false} SplitPlain(s: string, separator: char)
    requires separator !in s
    ensures Split(s, separator) == [s]
  {
    if s != "" {
      assert s[0] in s && forall c | c in s[1..] :: c in s;
      SplitPlain(s[1..], separator);
      assert s == [s[0]] + s[1..];
    }
  }

  lemma {:induction false} SplitJoin(parts: seq<string>, separator: char)
    requires |parts| > 0 && forall p | p in parts :: separator !in p
    ensures Split(Join(parts, separator), separator) == parts
  {
    if |parts| == 1 {
      SplitPlain(parts[0], separator);
    } else {
      SplitFirst(parts[0], Join(parts[1..], separator), separator);
      SplitJoin(parts[1..], separator);
    }
  }

  // Splitting and joining undo each other both ways.
  lemma {:induction false} JoinSplit(s: string, separator: char)
    ensures Join(Split(s, separator), separator) == s
  {
    if s != "" {
      JoinSplit(s[1..], separator);
      var rest := Split(s[1..], separator);
      assert s == [s[0]] + s[1..];
      if s[0] == separator {
        assert ([""] + rest)[1..] == rest;
      } else {
        var parts := [[s[0]] + rest[0]] + rest[1..];
        assert parts[1..] == rest[1..];
        if |rest| > 1 {
          assert Join(parts, separator) == [s[0]] + rest[0] + [separator] + Join(rest[1..], separator);
        }
      }
    }
  }

  lemma {:induction false} SplitAppend(s: string, tail: string, separator: char)
    ensures Split(s + [separator] + tail, separator) == Split(s, separator) + Split(tail, separator)
  {
    var whole := s + [separator] + tail;
    if s == "" {
      assert whole[1..] == tail;
    } else {
      assert whole[1..] == s[1..] + [separator] + tail;
      SplitAppend(s[1..], tail, separator);
    }
  }

  /****** Decimal numbers ******/

  function Digit(d: nat): char
    requires d < 10
  {
    ('0' as int + d) as char
  }

  predicate IsDigit(c: char) {
    '0' <= c <= '9'
  }

  function Decimal(n: nat): (s: string)
    ensures |s| > 0 && forall c | c in s :: IsDigit(c)
    ensures |s| > 1 ==> s[0] != '0'
    ensures n > 0 ==> s[0] != '0'
  {
    if n < 10 then [Digit(n)] else Decimal(n / 10) + [Digit(n % 10)]
  }

  function Value(s: string): nat
    requires forall c | c in s :: IsDigit(c)
  {
    if s == "" then 0
    else
      assert IsDigit(s[|s| - 1]);
      Value(s[..|s| - 1]) * 10 + (s[|s| - 1] as int - '0' as int)
  }

  // A decimal number without sign, blanks or leading zeros.
  function ParseDecimal(s: string): Option<nat> {
    if s == "" || (exists c | c in s :: !IsDigit(c)) || (|s| > 1 && s[0] == '0') then None
    else Some(Value(s))
  }

  lemma {:induction false} ValueOfDecimal(n: nat)
    ensures Value(Decimal(n)) == n
  {
    if n < 10 {
      assert Decimal(n)[..0] == "";
    } else {
      ValueOfDecimal(n / 10);
      assert Decimal(n)[..|Decimal(n)| - 1] == Decimal(n / 10);
    }
  }

  lemma ParseOfDecimal(n: nat)
    ensures ParseDecimal(Decimal(n)) == Some(n)
  {
    ValueOfDecimal(n);
  }

  /****** Order ******/

  predicate Before(a: string, b: string) {
    if a == "" then true
    else if b == "" then false
    else if a[0] != b[0] then a[0] < b[0]
    else Before(a[1..], b[1..])
  }

  lemma {:induction false} BeforeTotal(a: string, b: string)
    ensures Before(a, b) || Before(b, a)
  {
    if a != "" && b != "" && a[0] == b[0] { BeforeTotal(a[1..], b[1..]); }
  }

  lemma {:induction false} BeforeTrans(a: string, b: string, c: string)
    requires Before(a, b) && Before(b, c)
    ensures Before(a, c)
  {
    if a != "" && a[0] == b[0] && b[0] == c[0] { BeforeTrans(a[1..], b[1..], c[1..]); }
  }

  lemma {:induction false} BeforeBoth(a: string, b: string)
    requires Before(a, b) && Before(b, a)
    ensures a == b
  {
    if a != "" && b != "" {
      BeforeBoth(a[1..], b[1..]);
      assert a == [a[0]] + a[1..] && b == [b[0]] + b[1..];
    }
  }

  predicate Ordered(s: seq<string>) {
    forall i | 0 < i < |s| :: Before(s[i - 1], s[i])
  }

  function Insert(x: string, s: seq<string>): seq<string> {
    if s == [] || Before(x, s[0]) then [x] + s else [s[0]] + Insert(x, s[1..])
  }

  function Sorted(s: seq<string>): seq<string> {
    if s == [] then [] else Insert(s[0], Sorted(s[1..]))
  }

  lemma {:induction false} InsertBag(x: string, s: seq<string>)
    ensures multiset(Insert(x, s)) == multiset(s) + multiset{x}
  {
    if s != [] && !Before(x, s[0]) {
      InsertBag(x, s[1..]);
      assert s == [s[0]] + s[1..];
    }
  }

  lemma {:induction false} InsertOrdered(x: string, s: seq<string>)
    requires Ordered(s)
    ensures Ordered(Insert(x, s))
    ensures Insert(x, s)[0] in {x} + (if s == [] then {} else {s[0]})
  {
    hide Before;
    if s != [] && !Before(x, s[0]) {
      BeforeTotal(x, s[0]);
      assert forall i | 0 < i < |s[1..]| :: s[1..][i] == s[i + 1] && s[1..][i - 1] == s[i];
      InsertOrdered(x, s[1..]);
      var rest := Insert(x, s[1..]);
      assert |s| > 1 ==> Before(s[0], s[1]);
      forall i | 0 < i < |Insert(x, s)|
        ensures Before(Insert(x, s)[i - 1], Insert(x, s)[i])
      {
        if i > 1 { assert Before(rest[i - 2], rest[i - 1]); }
      }
    }
  }

  lemma {:induction false} SortedOrders(s: seq<string>)
    ensures Ordered(Sorted(s)) && multiset(Sorted(s)) == multiset(s)
  {
    hide Insert, Before;
    if s != [] {
      SortedOrders(s[1..]);
      InsertOrdered(s[0], Sorted(s[1..]));
      InsertBag(s[0], Sorted(s[1..]));
      assert s == [s[0]] + s[1..];
    }
  }

  lemma {:induction false} SortedFixes(s: seq<string>)
    requires Ordered(s)
    ensures Sorted(s) == s
  {
    if |s| > 0 {
      assert forall i | 0 < i < |s[1..]| :: s[1..][i] == s[i + 1] && s[1..][i - 1] == s[i];
      SortedFixes(s[1..]);
      assert s == [s[0]] + s[1..];
    }
  }

  predicate Distinct<T(==)>(s: seq<T>) {
    forall i, j | 0 <= i < j < |s| :: s[i] != s[j]
  }

  // Distinctness only depends on the bag of elements.
  lemma {:induction false} DistinctBag<T>(s: seq<T>)
    ensures Distinct(s) <==> forall x | x in multiset(s) :: multiset(s)[x] == 1
  {
    if s != [] {
      DistinctBag(s[1..]);
      assert s == [s[0]] + s[1..];
      assert multiset(s) == multiset{s[0]} + multiset(s[1..]);
      if Distinct(s) {
        assert forall i, j | 0 <= i < j < |s[1..]| :: s[1..][i] == s[i + 1] && s[1..][j] == s[j + 1];
        assert s[0] !in s[1..];
      } else {
        var i, j :| 0 <= i < j < |s| && s[i] == s[j];
        if i == 0 {
          assert s[1..][j - 1] == s[0];
          assert multiset(s)[s[0]] > 1;
        } else {
          assert s[1..][i - 1] == s[1..][j - 1];
          var x :| x in multiset(s[1..]) && multiset(s[1..])[x] != 1;
          assert multiset(s)[x] != 1;
        }
      }
    }
  }

  /****** Case and blanks ******/

  function LowerChar(c: char): char {
    if 'A' <= c <= 'Z' then (c as int + 32) as char else c
  }

  function Lower(s: string): (r: string)
    ensures |r| == |s| && forall i | 0 <= i < |s| :: r[i] == LowerChar(s[i])
  {
    seq(|s|, i requires 0 <= i < |s| => LowerChar(s[i]))
  }

  predicate Blank(c: char) {
    c == ' ' || c == '\t' || c == '\n' || c == '\r'
  }

  function StripLeft(s: string): (r: string)
    ensures r == "" || !Blank(r[0])
  {
    if s != "" && Blank(s[0]) then StripLeft(s[1..]) else s
  }

  function StripRight(s: string): (r: string)
    ensures r <= s && (r == "" || !Blank(r[|r| - 1]))
  {
    if s != "" && Blank(s[|s| - 1]) then StripRight(s[..|s| - 1]) else s
  }

  function Strip(s: string): (r: string)
    ensures r == "" || (!Blank(r[0]) && !Blank(r[|r| - 1]))
  {
    StripRight(StripLeft(s))
  }

  lemma {:induction false} StripPlain(s: string)
    requires s == "" || (!Blank(s[0]) && !Blank(s[|s| - 1]))
    ensures Strip(s) == s
  {
  }

  lemma StripTwice(s: string)
    ensures Strip(Strip(s)) == Strip(s)
  {
    StripPlain(Strip(s));
  }

  lemma {:induction false} StripLeftSlice(s: string) returns (i: nat)
    ensures i <= |s| && StripLeft(s) == s[i..]
  {
    if s != "" && Blank(s[0]) {
      var k := StripLeftSlice(s[1..]);
      i := k + 1;
    } else {
      i := 0;
    }
  }

  // What stripping leaves is a slice of the text.
  lemma StripSlice(s: string) returns (i: nat, j: nat)
    ensures i <= j <= |s| && Strip(s) == s[i..j]
  {
    i := StripLeftSlice(s);
    j := i + |Strip(s)|;
  }

  function UpperChar(c: char): char {
    if 'a' <= c <= 'z' then (c as int - 32) as char else c
  }

  function Upper(s: string): (r: string)
    ensures |r| == |s| && forall i | 0 <= i < |s| :: r[i] == UpperChar(s[i])
  {
    seq(|s|, i requires 0 <= i < |s| => UpperChar(s[i]))
  }

  predicate Includes(s: string, part: string) {
    part <= s || (s != "" && Includes(s[1..], part))
  }

  lemma {:induction false} IncludesMore(s: string, more: string, part: string)
    requires s <= more && Includes(s, part)
    ensures Includes(more, part)
  {
    if !(part <= s) {
      assert s[1..] <= more[1..];
      IncludesMore(s[1..], more[1..], part);
    }
  }

  // A text includes what a slice of it contains.
  lemma {:induction false} IncludesSlice(s: string, i: nat, j: nat, part: string)
    requires i <= j <= |s| && Includes(s[i..j], part)
    ensures Includes(s, part)
  {
    if i == 0 {
      IncludesMore(s[..j], s, part);
    } else {
      assert s[1..][i - 1..j - 1] == s[i..j];
      IncludesSlice(s[1..], i - 1, j - 1, part);
    }
  }
}
