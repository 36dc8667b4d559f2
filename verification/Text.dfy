// Topic strings: splitting into levels, joining, prefixes and decimal numbers.
module Text {
  import opened Prelude

  /** strings.Split on one character. */
  function Split(s: string, c: char): (r: seq<string>)
    ensures |r| > 0
  {
    if s == [] then [""]
    else if s[0] == c then [""] + Split(s[1..], c)
    else
      var r := Split(s[1..], c);
      [[s[0]] + r[0]] + r[1..]
  }

  function Join(levels: seq<string>, c: char): string {
    if levels == [] then ""
    else if |levels| == 1 then levels[0]
    else levels[0] + [c] + Join(levels[1..], c)
  }

  /** strings.ReplaceAll of one character. */
  function Replace(s: string, c: char, d: char): (r: string)
    ensures |r| == |s|
    ensures forall i :: 0 <= i < |s| ==> r[i] == if s[i] == c then d else s[i]
  {
    if s == [] then [] else [if s[0] == c then d else s[0]] + Replace(s[1..], c, d)
  }

  /** The levels of a topic. */
  function Levels(s: string): (r: seq<string>)
    ensures |r| > 0
  {
    Split(s, '/')
  }

  /** One topic level: no separator in it. */
  predicate SingleLevel(s: string) {
    '/' !in s
  }

  lemma {:induction false} JoinOfSplit(s: string, c: char, d: char)
    ensures Join(Split(s, c), d) == Replace(s, c, d)
  {
    if s != [] {
      JoinOfSplit(s[1..], c, d);
      var r := Split(s[1..], c);
      if s[0] == c { JoinEmptyLevel(r, d); } else { JoinLongerLevel(s[0], r, d); }
    }
  }

  lemma JoinEmptyLevel(r: seq<string>, d: char)
    requires r != []
    ensures Join([""] + r, d) == [d] + Join(r, d)
  {
    assert ([""] + r)[1..] == r;
  }

  lemma JoinLongerLevel(x: char, r: seq<string>, d: char)
    requires r != []
    ensures Join([[x] + r[0]] + r[1..], d) == [x] + Join(r, d)
  {
    assert ([[x] + r[0]] + r[1..])[1..] == r[1..];
  }

  /** Splitting after a level and a separator gives that level and the split of what follows. */
  lemma {:induction false} SplitAfter(level: string, rest: string, c: char)
    requires c !in level
    ensures Split(level + [c] + rest, c) == [level] + Split(rest, c)
  {
    var s := level + [c] + rest;
    if level == [] {
      assert s[1..] == rest;
    } else {
      assert s[1..] == level[1..] + [c] + rest;
      SplitAfter(level[1..], rest, c);
      assert [level[0]] + level[1..] == level;
    }
  }

  /** The levels of two paths put together are the levels of both. */
  lemma {:induction false} SplitConcat(a: string, b: string, c: char)
    ensures Split(a + [c] + b, c) == Split(a, c) + Split(b, c)
  {
    var s := a + [c] + b;
    if a == [] {
      assert s[0] == c && s[1..] == b;
    } else {
      assert s[0] == a[0] && s[1..] == a[1..] + [c] + b;
      SplitConcat(a[1..], b, c);
      if a[0] != c { HeadOfConcat(Split(a[1..], c), Split(b, c)); }
    }
  }

  lemma HeadOfConcat<T>(r: seq<T>, t: seq<T>)
    requires r != []
    ensures (r + t)[0] == r[0] && (r + t)[1..] == r[1..] + t
  {
  }

  lemma {:induction false} OneLevelOnly(s: string, c: char)
    ensures |Split(s, c)| == 1 <==> c !in s
    ensures c !in s ==> Split(s, c) == [s]
  {
    if s != [] {
      OneLevelOnly(s[1..], c);
      assert [s[0]] + s[1..] == s;
      assert c in s <==> s[0] == c || c in s[1..];
    }
  }

  lemma {:induction false} LevelsHaveNoSeparator(s: string, c: char)
    ensures forall i :: 0 <= i < |Split(s, c)| ==> c !in Split(s, c)[i]
  {
    if s != [] { LevelsHaveNoSeparator(s[1..], c); }
  }

  /** No level holds a character the whole does not. */
  lemma {:induction false} LevelsAreParts(s: string, c: char, x: char)
    requires x !in s
    ensures forall i :: 0 <= i < |Split(s, c)| ==> x !in Split(s, c)[i]
  {
    if s != [] {
      assert x !in s[1..] && x != s[0];
      LevelsAreParts(s[1..], c, x);
    }
  }

  // ----- decimal numbers -----

  function Digit(d: nat): char
    requires d < 10
  {
    ['0', '1', '2', '3', '4', '5', '6', '7', '8', '9'][d]
  }

  predicate IsDigit(c: char) {
    '0' <= c <= '9'
  }

  function DigitValue(c: char): nat
    requires IsDigit(c)
  {
    (c as int) - ('0' as int)
  }

  /** strconv.Itoa of a number that is not negative. */
  function Itoa(n: nat): (s: string)
    ensures s != ""
    ensures forall i :: 0 <= i < |s| ==> IsDigit(s[i])
  {
    if n < 10 then [Digit(n)] else Itoa(n / 10) + [Digit(n % 10)]
  }

  function Digits(s: string): Option<nat> {
    if s == "" then None
    else if !IsDigit(s[|s| - 1]) then None
    else if |s| == 1 then Some(DigitValue(s[0]))
    else
      match Digits(s[..|s| - 1])
      case None => None
      case Some(n) => Some(10 * n + DigitValue(s[|s| - 1]))
  }

  function Signed(sign: int, n: Option<nat>): Option<int> {
    if n.None? then None
    else
      var r: int := sign * n.value;
      Some(r)
  }

  /** strconv.Atoi: an optional sign, then digits. */
  function Atoi(s: string): Option<int> {
    if s == "" then None
    else if s[0] == '-' then Signed(-1, Digits(s[1..]))
    else if s[0] == '+' then Signed(1, Digits(s[1..]))
    else Signed(1, Digits(s))
  }

  lemma {:induction false} DigitsOfItoa(n: nat)
    ensures Digits(Itoa(n)) == Some(n)
  {
    if n >= 10 {
      DigitsOfItoa(n / 10);
      var s := Itoa(n);
      assert s[..|s| - 1] == Itoa(n / 10);
    }
  }

  lemma AtoiOfItoa(n: nat)
    ensures Atoi(Itoa(n)) == Some(n)
  {
    DigitsOfItoa(n);
    assert IsDigit(Itoa(n)[0]);
  }
}
