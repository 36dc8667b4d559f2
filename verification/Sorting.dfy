// Ordering of option lists (sortStrings and sortLocalized in internal/hass/payload.go, and the ordering of
// enumeration codes by their labels in internal/hass/hamqtt.go).
module Sorting {

  /** The order of strings: first difference decides, a prefix comes first. */
  predicate Le(a: string, b: string) {
    if a == [] then true
    else if b == [] then false
    else a[0] < b[0] || (a[0] == b[0] && Le(a[1..], b[1..]))
  }

  lemma {:induction false} LeTotal(a: string, b: string)
    ensures Le(a, b) || Le(b, a)
    ensures Le(a, a)
    ensures Le(a, b) && Le(b, a) ==> a == b
  {
    if a != [] {
      LeTotal(a[1..], if b == [] then [] else b[1..]);
      if b != [] && a[0] == b[0] && a[1..] == b[1..] {
        assert a == [a[0]] + a[1..] && b == [b[0]] + b[1..];
      }
    }
  }

  lemma {:induction false} LeTransitive(a: string, b: string, c: string)
    requires Le(a, b) && Le(b, c)
    ensures Le(a, c)
  {
    if a != [] && a[0] == b[0] && b[0] == c[0] { LeTransitive(a[1..], b[1..], c[1..]); }
  }

  /** At the first difference the smaller character comes first. */
  predicate DiffersBelow(a: string, b: string, i: int) {
    0 <= i < |a| && i < |b| && a[..i] == b[..i] && a[i] < b[i]
  }

  lemma SameBefore(a: string, b: string, i: int)
    requires DiffersBelow(a, b, i)
    ensures i == 0 || a[0] == b[0]
  {
    if i > 0 { assert a[..i][0] == a[0] && b[..i][0] == b[0]; }
  }

  /** The order of a dictionary: a prefix comes first, and otherwise the first difference decides. */
  lemma {:induction false} LeIsLexicographic(a: string, b: string)
    ensures Le(a, b) <==> a <= b || exists i :: DiffersBelow(a, b, i)
  {
    if a != [] && b != [] {
      if a[0] == b[0] {
        LeIsLexicographic(a[1..], b[1..]);
        SameHead(a, b);
      } else if a[0] < b[0] {
        assert DiffersBelow(a, b, 0);
      } else {
        forall i | DiffersBelow(a, b, i) ensures i == 0 { SameBefore(a, b, i); }
      }
    }
  }

  lemma SameHead(a: string, b: string)
    requires a != [] && b != [] && a[0] == b[0]
    ensures a <= b <==> a[1..] <= b[1..]
    ensures (exists i :: DiffersBelow(a, b, i)) <==> (exists i :: DiffersBelow(a[1..], b[1..], i))
  {
    if i :| DiffersBelow(a, b, i) {
      assert i > 0 && a[1..][..i - 1] == a[..i][1..] && b[1..][..i - 1] == b[..i][1..];
      assert DiffersBelow(a[1..], b[1..], i - 1);
    }
    if i :| DiffersBelow(a[1..], b[1..], i) {
      assert a[..i + 1] == [a[0]] + a[1..][..i] && b[..i + 1] == [b[0]] + b[1..][..i];
      assert DiffersBelow(a, b, i + 1);
    }
  }

  // ----- orders -----

  ghost predicate Total<T(!new)>(le: (T, T) -> bool) {
    forall a, b :: le(a, b) || le(b, a)
  }

  ghost predicate Transitive<T(!new)>(le: (T, T) -> bool) {
    forall a, b, c :: le(a, b) && le(b, c) ==> le(a, c)
  }

  ghost predicate Antisymmetric<T(!new)>(le: (T, T) -> bool) {
    forall a, b :: le(a, b) && le(b, a) ==> a == b
  }

  ghost predicate Ordered<T(!new)>(le: (T, T) -> bool, s: seq<T>) {
    forall i, j :: 0 <= i < j < |s| ==> le(s[i], s[j])
  }

  function Plain(): (string, string) -> bool {
    (a, b) => Le(a, b)
  }

  /** Display order: by the folded label, and by the label itself where two fold alike. */
  function Collated(fold: string -> string): (string, string) -> bool {
    (a, b) => if fold(a) != fold(b) then Le(fold(a), fold(b)) else Le(a, b)
  }

  /** Codes are shown in the order of their labels. */
  function By(le: (string, string) -> bool, name: string -> string): (string, string) -> bool {
    (a, b) => le(name(a), name(b))
  }

  lemma PlainIsOrder()
    ensures Total(Plain()) && Transitive(Plain()) && Antisymmetric(Plain())
  {
    forall a, b ensures Plain()(a, b) || Plain()(b, a) { LeTotal(a, b); }
    forall a, b, c | Plain()(a, b) && Plain()(b, c) ensures Plain()(a, c) { LeTransitive(a, b, c); }
    forall a, b | Plain()(a, b) && Plain()(b, a) ensures a == b { LeTotal(a, b); }
  }

  /** Whatever the fold, the display order is a total order: equal keys never leave two labels unordered. */
  lemma CollatedIsOrder(fold: string -> string)
    ensures Total(Collated(fold)) && Transitive(Collated(fold)) && Antisymmetric(Collated(fold))
  {
    var le := Collated(fold);
    forall a, b ensures le(a, b) || le(b, a) { LeTotal(a, b); LeTotal(fold(a), fold(b)); }
    forall a, b, c | le(a, b) && le(b, c) ensures le(a, c) {
      LeTotal(fold(a), fold(b));
      if fold(a) == fold(b) && fold(b) == fold(c) {
        LeTransitive(a, b, c);
      } else {
        LeTotal(fold(b), fold(c));
        LeTransitive(fold(a), fold(b), fold(c));
      }
    }
    forall a, b | le(a, b) && le(b, a) ensures a == b { LeTotal(a, b); LeTotal(fold(a), fold(b)); }
  }

  // ----- sorting -----

  /** The element goes behind everything not above it, so equal elements keep their order. */
  function Insert<T>(le: (T, T) -> bool, s: seq<T>, x: T): seq<T> {
    if s == [] || le(s[|s| - 1], x) then s + [x] else Insert(le, s[..|s| - 1], x) + [s[|s| - 1]]
  }

  function Sort<T>(le: (T, T) -> bool, s: seq<T>): seq<T> {
    if s == [] then [] else Insert(le, Sort(le, s[..|s| - 1]), s[|s| - 1])
  }

  lemma {:induction false} InsertAdds<T(!new)>(le: (T, T) -> bool, s: seq<T>, x: T)
    ensures multiset(Insert(le, s, x)) == multiset(s) + multiset{x}
  {
    if s != [] && !le(s[|s| - 1], x) {
      InsertAdds(le, s[..|s| - 1], x);
      SplitLast(s);
    }
  }

  lemma {:induction false} InsertOrders<T(!new)>(le: (T, T) -> bool, s: seq<T>, x: T)
    requires Total(le) && Transitive(le) && Ordered(le, s)
    ensures Ordered(le, Insert(le, s, x))
  {
    if s == [] || le(s[|s| - 1], x) {
      assert forall i :: 0 <= i < |s| ==> le(s[i], s[|s| - 1]) || i == |s| - 1;
    } else {
      var front, last := s[..|s| - 1], s[|s| - 1];
      InsertOrders(le, front, x);
      InsertAdds(le, front, x);
      var r := Insert(le, front, x);
      forall i | 0 <= i < |r| ensures le(r[i], last) {
        assert r[i] in multiset(r);
        assert r[i] in front || r[i] == x;
      }
    }
  }

  /** Sorting reorders and nothing else. */
  lemma {:induction false} SortSorts<T(!new)>(le: (T, T) -> bool, s: seq<T>)
    requires Total(le) && Transitive(le)
    ensures multiset(Sort(le, s)) == multiset(s)
    ensures Ordered(le, Sort(le, s))
  {
    if s != [] {
      SortSorts(le, s[..|s| - 1]);
      InsertAdds(le, Sort(le, s[..|s| - 1]), s[|s| - 1]);
      InsertOrders(le, Sort(le, s[..|s| - 1]), s[|s| - 1]);
      SplitLast(s);
    }
  }

  /** Two labels that do not fold alike are ordered as their folded forms are, and only those that do fold alike by
      themselves. */
  lemma FoldDecidesFirst(fold: string -> string, s: seq<string>, i: nat, j: nat)
    requires i < j < |s|
    ensures var r := Sort(Collated(fold), s);
      && |r| == |s| && Le(fold(r[i]), fold(r[j]))
      && (fold(r[i]) == fold(r[j]) ==> Le(r[i], r[j]))
  {
    var r := Sort(Collated(fold), s);
    CollatedIsOrder(fold);
    SortSorts(Collated(fold), s);
    assert |multiset(r)| == |r| && |multiset(s)| == |s|;
    assert Collated(fold)(r[i], r[j]);
    LeTotal(fold(r[i]), fold(r[j]));
  }

  lemma SplitLast<T>(s: seq<T>)
    requires s != []
    ensures s == s[..|s| - 1] + [s[|s| - 1]]
    ensures multiset(s) == multiset(s[..|s| - 1]) + multiset{s[|s| - 1]}
  {
    assert s == s[..|s| - 1] + [s[|s| - 1]];
  }

  /** The greatest element stands last. */
  lemma LastIsGreatest<T(!new)>(le: (T, T) -> bool, s: seq<T>, x: T)
    requires Total(le) && Ordered(le, s) && x in multiset(s)
    ensures s != [] && le(x, s[|s| - 1])
  {
    assert x in s;
    var k :| 0 <= k < |s| && s[k] == x;
    assert k < |s| - 1 ==> le(s[k], s[|s| - 1]);
    assert le(x, x);
  }

  /** Under an order in which no two elements tie, there is one sorted arrangement. */
  lemma {:induction false} OneArrangement<T(!new)>(le: (T, T) -> bool, s: seq<T>, t: seq<T>)
    requires Antisymmetric(le) && Total(le)
    requires Ordered(le, s) && Ordered(le, t) && multiset(s) == multiset(t)
    ensures s == t
  {
    if s == [] {
      assert |multiset(t)| == 0;
    } else {
      SplitLast(s);
      LastIsGreatest(le, t, s[|s| - 1]);
      SplitLast(t);
      LastIsGreatest(le, s, t[|t| - 1]);
      assert multiset(s[..|s| - 1]) == multiset(s) - multiset{s[|s| - 1]};
      assert multiset(t[..|t| - 1]) == multiset(t) - multiset{t[|t| - 1]};
      OneArrangement(le, s[..|s| - 1], t[..|t| - 1]);
    }
  }

  /** The order in which a map yields the elements does not show in the sorted list. */
  lemma VisitingOrderIsIrrelevant(s: seq<string>, t: seq<string>)
    requires multiset(s) == multiset(t)
    ensures Sort(Plain(), s) == Sort(Plain(), t)
  {
    PlainIsOrder();
    SortSorts(Plain(), s);
    SortSorts(Plain(), t);
    OneArrangement(Plain(), Sort(Plain(), s), Sort(Plain(), t));
  }

  // ----- codes and labels -----

  function Map<A, B>(f: A -> B, s: seq<A>): (r: seq<B>)
    ensures |r| == |s| && forall i :: 0 <= i < |s| ==> r[i] == f(s[i])
  {
    if s == [] then [] else Map(f, s[..|s| - 1]) + [f(s[|s| - 1])]
  }

  lemma CountsOfThree<B>(front: seq<B>, x: B, back: seq<B>)
    ensures multiset(front + ([x] + back)) == multiset(front + back) + multiset{x}
  {
  }

  lemma TakeOut<A>(t: seq<A>, k: nat)
    requires k < |t|
    ensures t == t[..k] + ([t[k]] + t[k + 1..])
    ensures multiset(t) == multiset(t[..k] + t[k + 1..]) + multiset{t[k]}
  {
    assert t == t[..k] + ([t[k]] + t[k + 1..]);
    CountsOfThree(t[..k], t[k], t[k + 1..]);
  }

  lemma MapConcat<A, B>(f: A -> B, s: seq<A>, t: seq<A>)
    ensures Map(f, s + t) == Map(f, s) + Map(f, t)
  {
  }

  lemma MapTakesOut<A, B>(f: A -> B, front: seq<A>, x: A, back: seq<A>)
    ensures multiset(Map(f, front + ([x] + back))) == multiset(Map(f, front + back)) + multiset{f(x)}
  {
    MapOfThree(f, front, x, back);
    MapConcat(f, front, back);
    CountsOfThree(Map(f, front), f(x), Map(f, back));
  }

  lemma MapOfThree<A, B>(f: A -> B, front: seq<A>, x: A, back: seq<A>)
    ensures Map(f, front + ([x] + back)) == Map(f, front) + ([f(x)] + Map(f, back))
  {
    MapConcat(f, front, [x] + back);
    MapConcat(f, [x], back);
    assert Map(f, [x]) == [f(x)];
  }

  lemma {:induction false} MapKeepsCounts<A(!new), B>(f: A -> B, s: seq<A>, t: seq<A>)
    requires multiset(s) == multiset(t)
    ensures multiset(Map(f, s)) == multiset(Map(f, t))
    decreases |s|
  {
    if s == [] {
      assert |multiset(t)| == 0;
    } else {
      var n := |s| - 1;
      assert s[n] in multiset(t) && s[n] in t;
      var k :| 0 <= k < |t| && t[k] == s[n];
      TakeOut(s, n);
      TakeOut(t, k);
      MapTakesOut(f, s[..n], s[n], s[n + 1..]);
      MapTakesOut(f, t[..k], t[k], t[k + 1..]);
      SameRest(s[..n] + s[n + 1..], t[..k] + t[k + 1..], multiset(t), t[k]);
      MapKeepsCounts(f, s[..n] + s[n + 1..], t[..k] + t[k + 1..]);
    }
  }

  lemma SameRest<A>(s: seq<A>, t: seq<A>, whole: multiset<A>, x: A)
    requires whole == multiset(s) + multiset{x} == multiset(t) + multiset{x}
    ensures multiset(s) == multiset(t)
  {
    assert multiset(s) == whole - multiset{x} == multiset(t);
  }

  /** Ordering codes by their labels shows the same list as ordering the labels, even when several codes
      share a label and however either sort treats ties: it follows from what both sorts promise. */
  lemma LabelsOfSortedCodes(fold: string -> string, name: string -> string, codes: seq<string>,
                            byLabel: seq<string>, labels: seq<string>)
    requires multiset(byLabel) == multiset(codes) && Ordered(By(Collated(fold), name), byLabel)
    requires multiset(labels) == multiset(Map(name, codes)) && Ordered(Collated(fold), labels)
    ensures Map(name, byLabel) == labels
  {
    CollatedIsOrder(fold);
    MapKeepsCounts(name, byLabel, codes);
    var le := By(Collated(fold), name);
    forall i, j | 0 <= i < j < |byLabel| ensures Collated(fold)(Map(name, byLabel)[i], Map(name, byLabel)[j]) {
      assert le(byLabel[i], byLabel[j]);
    }
    OneArrangement(Collated(fold), Map(name, byLabel), labels);
  }

  // ----- the sort of a string list in place -----

  /** The inner loop of sortStrings: the element sinks past everything above it. */
  method Sink(s: array<string>, i: nat)
    requires i < s.Length
    modifies s
    ensures s[..i + 1] == Insert(Plain(), old(s[..i]), old(s[i]))
    ensures s[i + 1..] == old(s[i + 1..])
  {
    ghost var was, x := s[..i], s[i];
    var j := i;
    while j > 0 && !Le(s[j - 1], s[j])
      invariant 0 <= j <= i
      invariant s[j] == x
      invariant forall k :: 0 <= k < j ==> s[k] == was[k]
      invariant forall k :: j < k <= i ==> s[k] == was[k - 1]
      invariant forall k :: j <= k < i ==> !Le(was[k], x)
      invariant forall k :: i < k < s.Length ==> s[k] == old(s[k])
    {
      s[j - 1], s[j] := s[j], s[j - 1];
      j := j - 1;
    }
    InsertAt(was, j, x);
    forall k | 0 <= k <= i ensures s[k] == (was[..j] + [x] + was[j..])[k] {}
    assert s[..i + 1] == was[..j] + [x] + was[j..];
    assert s[i + 1..] == old(s[i + 1..]);
  }

  /** Insertion puts the element behind the last one not above it. */
  lemma {:induction false} InsertAt(was: seq<string>, j: nat, x: string)
    requires j <= |was| && (j > 0 ==> Le(was[j - 1], x)) && forall k :: j <= k < |was| ==> !Le(was[k], x)
    ensures Insert(Plain(), was, x) == was[..j] + [x] + was[j..]
  {
    if j < |was| {
      var front := was[..|was| - 1];
      InsertAt(front, j, x);
      assert front[..j] == was[..j] && front[j..] + [was[|was| - 1]] == was[j..];
    } else {
      assert was[..j] == was && was[j..] == [];
    }
  }

  /** sortStrings: insertion by adjacent swaps, in place. */
  method SortStrings(s: array<string>)
    modifies s
    ensures s[..] == Sort(Plain(), old(s[..]))
  {
    ghost var was := s[..];
    var i := 1;
    if s.Length > 0 {
      assert was[..1][..0] == [] && Sort(Plain(), []) == [];
      assert Sort(Plain(), was[..1]) == [was[0]] == s[..1];
    }
    while i < s.Length
      invariant 1 <= i <= s.Length || s.Length == 0
      invariant s.Length > 0 ==> s[..i] == Sort(Plain(), was[..i])
      invariant s.Length > 0 ==> s[i..] == was[i..]
    {
      assert s[i] == s[i..][0] == was[i..][0] == was[i];
      assert was[..i + 1][..i] == was[..i];
      assert s[i + 1..] == s[i..][1..] == was[i + 1..];
      Sink(s, i);
      i := i + 1;
    }
    if s.Length > 0 { assert was[..i] == was && s[..i] == s[..]; }
  }
}
