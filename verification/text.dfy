/** Python string and list operations the harness relies on: `strip`, `find`, `in`,
    code-point order, `sorted`, and first-occurrence deduplication. */
module Text {

  /** The code points for which Python's `str.isspace` holds. */
  predicate IsSpace(c: char) {
    var k := c as int;
    0x09 <= k <= 0x0d || 0x1c <= k <= 0x20 || k == 0x85 || k == 0xa0 || k == 0x1680
    || 0x2000 <= k <= 0x200a || k == 0x2028 || k == 0x2029 || k == 0x202f
    || k == 0x205f || k == 0x3000
  }

  predicate Blank(s: string) {
    forall i | 0 <= i < |s| :: IsSpace(s[i])
  }

  function StripLeft(s: string): string {
    if s != "" && IsSpace(s[0]) then StripLeft(s[1..]) else s
  }

  function StripRight(s: string): string {
    if s != "" && IsSpace(s[|s| - 1]) then StripRight(s[..|s| - 1]) else s
  }

  function Strip(s: string): string {
    StripRight(StripLeft(s))
  }

  /** The part of `s` that `lstrip` keeps is a suffix after a blank prefix. */
  lemma {:induction false} StripLeftSplits(s: string)
    ensures |StripLeft(s)| <= |s|
    ensures StripLeft(s) == s[|s| - |StripLeft(s)|..]
    ensures Blank(s[..|s| - |StripLeft(s)|])
    ensures StripLeft(s) != "" ==> !IsSpace(StripLeft(s)[0])
  {
    if s != "" && IsSpace(s[0]) {
      StripLeftSplits(s[1..]);
      var cut := |s| - |StripLeft(s)|;
      assert s[..cut] == [s[0]] + s[1..][..cut - 1];
    }
  }

  lemma {:induction false} StripRightSplits(s: string)
    ensures |StripRight(s)| <= |s|
    ensures StripRight(s) == s[..|StripRight(s)|]
    ensures Blank(s[|StripRight(s)|..])
    ensures StripRight(s) != "" ==> !IsSpace(StripRight(s)[|StripRight(s)| - 1])
  {
    if s != "" && IsSpace(s[|s| - 1]) {
      StripRightSplits(s[..|s| - 1]);
      var cut := |StripRight(s)|;
      assert s[cut..] == s[..|s| - 1][cut..] + [s[|s| - 1]];
    }
  }

  /** `strip` empties exactly the blank strings, and what it keeps starts and ends
      with a visible character. */
  lemma StripMeaning(s: string)
    ensures Strip(s) == "" <==> Blank(s)
    ensures Strip(s) != "" ==> !IsSpace(Strip(s)[0]) && !IsSpace(Strip(s)[|Strip(s)| - 1])
  {
    var t := StripLeft(s);
    StripLeftSplits(s);
    StripRightSplits(t);
    if t != "" {
      assert t[0..] == t && t == StripRight(t) + t[|StripRight(t)|..];
      assert s[|s| - |t|] == t[0];
    } else {
      assert s == s[..|s|];
    }
  }

  /** A visible first character survives stripping. */
  lemma StripKeepsHead(s: string)
    requires s != "" && !IsSpace(s[0])
    ensures Strip(s) != "" && Strip(s)[0] == s[0]
  {
    StripMeaning(s);
    StripRightSplits(s);
  }

  lemma {:induction false} StripLeftPads(before: string, text: string)
    requires Blank(before)
    ensures StripLeft(before + text) == StripLeft(text)
  {
    if before == "" {
      assert before + text == text;
    } else {
      assert (before + text)[0] == before[0] && (before + text)[1..] == before[1..] + text;
      StripLeftPads(before[1..], text);
    }
  }

  lemma {:induction false} StripRightPads(text: string, after: string)
    requires Blank(after)
    ensures StripRight(text + after) == StripRight(text)
  {
    if after == "" {
      assert text + after == text;
    } else {
      var n := |after| - 1;
      assert (text + after)[|text + after| - 1] == after[n];
      assert (text + after)[..|text + after| - 1] == text + after[..n];
      StripRightPads(text, after[..n]);
    }
  }

  /** The text is `s` between blanks. */
  ghost predicate BetweenBlanks(text: string, s: string) {
    exists before: string, after: string :: Blank(before) && Blank(after) && text == before + s + after
  }

  lemma StripPads(text: string)
    ensures BetweenBlanks(text, Strip(text))
  {
    var t := StripLeft(text);
    StripLeftSplits(text);
    StripRightSplits(t);
    var cut := |text| - |t|;
    assert text == text[..cut] + Strip(text) + t[|Strip(text)|..];
  }

  lemma StripOfPadded(before: string, s: string, after: string)
    requires Blank(before) && Blank(after) && (s != "" ==> !IsSpace(s[0]) && !IsSpace(s[|s| - 1]))
    ensures Strip(before + s + after) == s
  {
    assert before + s + after == before + (s + after);
    StripLeftPads(before, s + after);
    if s == "" {
      assert s + after == after + "";
      StripLeftPads(after, "");
    } else {
      assert (s + after)[0] == s[0];
      assert StripLeft(s + after) == s + after;
      StripRightPads(s, after);
    }
  }

  /** `strip` gives exactly the part between the outer blanks. */
  lemma StripExactly(text: string, s: string)
    ensures Strip(text) == s <==>
      BetweenBlanks(text, s) && (s != "" ==> !IsSpace(s[0]) && !IsSpace(s[|s| - 1]))
  {
    StripPads(text);
    StripMeaning(text);
    if BetweenBlanks(text, s) && (s != "" ==> !IsSpace(s[0]) && !IsSpace(s[|s| - 1])) {
      var before: string, after: string :| Blank(before) && Blank(after) && text == before + s + after;
      StripOfPadded(before, s, after);
    }
    hide Strip, Blank;
  }

  lemma PrefixHeads(a: string, b: string)
    ensures forall i | 0 < i <= |a| && i <= |b| && a[..i] == b[..i] :: a[0] == b[0]
  {
    forall i | 0 < i <= |a| && i <= |b| && a[..i] == b[..i]
      ensures a[0] == b[0]
    {
      assert a[..i][0] == a[0] && b[..i][0] == b[0];
    }
  }

  /** Code-point order: a text precedes another when it is a prefix of it, or is smaller at
      the first character where they differ. */
  lemma {:induction false} StrLeExactly(a: string, b: string)
    ensures StrLe(a, b) <==> a <= b || exists i | 0 <= i < |a| && i < |b| :: a[..i] == b[..i] && a[i] < b[i]
  {
    if a != "" && b != "" && a[0] == b[0] {
      var c, d := a[1..], b[1..];
      StrLeExactly(c, d);
      assert a == [a[0]] + c && b == [b[0]] + d;
      if i :| 0 <= i < |c| && i < |d| && c[..i] == d[..i] && c[i] < d[i] {
        assert a[..i + 1] == [a[0]] + c[..i] && b[..i + 1] == [b[0]] + d[..i];
        assert a[i + 1] < b[i + 1];
      }
      if i :| 0 <= i < |a| && i < |b| && a[..i] == b[..i] && a[i] < b[i] {
        assert c[..i - 1] == a[..i][1..] && d[..i - 1] == b[..i][1..];
        assert c[i - 1] < d[i - 1];
      }
      assert a <= b <==> c <= d;
    } else if a != "" && b != "" && a[0] < b[0] {
      assert a[..0] == b[..0];
    } else if a != "" && b != "" {
      PrefixHeads(a, b);
    }
  }

  /** `s.find(c)`, with `|s|` when the character is absent. */
  function IndexOf(s: string, c: char): (i: nat)
    ensures i <= |s|
    ensures i < |s| ==> s[i] == c
    ensures forall j | 0 <= j < i :: s[j] != c
  {
    if s == "" || s[0] == c then 0 else 1 + IndexOf(s[1..], c)
  }

  predicate OccursAt(hay: string, needle: string, i: nat) {
    i + |needle| <= |hay| && hay[i..i + |needle|] == needle
  }

  /** `needle in hay` on strings. */
  predicate Contains(hay: string, needle: string) {
    exists i | 0 <= i <= |hay| :: OccursAt(hay, needle, i)
  }

  lemma ContainsSelf(s: string)
    ensures Contains(s, s)
  {
    assert OccursAt(s, s, 0);
  }

  function Join(parts: seq<string>, sep: string): string {
    if |parts| == 0 then ""
    else if |parts| == 1 then parts[0]
    else parts[0] + sep + Join(parts[1..], sep)
  }

  // ---- Code-point order -------------------------------------------------------

  predicate StrLe(a: string, b: string) {
    a == "" || (b != "" && (a[0] < b[0] || (a[0] == b[0] && StrLe(a[1..], b[1..]))))
  }

  lemma StrLeTotal(a: string, b: string)
    ensures StrLe(a, b) || StrLe(b, a)
  {
  }

  lemma {:induction false} StrLeAntisymmetric(a: string, b: string)
    requires StrLe(a, b) && StrLe(b, a)
    ensures a == b
  {
    if a != "" && b != "" {
      StrLeAntisymmetric(a[1..], b[1..]);
      assert a == [a[0]] + a[1..] && b == [b[0]] + b[1..];
    }
  }

  lemma {:induction false} StrLeTransitive(a: string, b: string, c: string)
    requires StrLe(a, b) && StrLe(b, c)
    ensures StrLe(a, c)
  {
    if a != "" && a[0] == b[0] && b[0] == c[0] {
      StrLeTransitive(a[1..], b[1..], c[1..]);
    }
  }

  predicate StrictlySorted(xs: seq<string>) {
    forall i, j | 0 <= i < j < |xs| :: StrLe(xs[i], xs[j]) && xs[i] != xs[j]
  }

  lemma {:induction false} LeastExists(s: set<string>)
    requires s != {}
    ensures exists m :: m in s && forall y | y in s :: StrLe(m, y)
  {
    var x :| x in s;
    if s == {x} {
      StrLeTotal(x, x);
    } else {
      LeastExists(s - {x});
      var m :| m in s - {x} && forall y | y in s - {x} :: StrLe(m, y);
      StrLeTotal(m, x);
      StrLeTotal(x, x);
      if StrLe(x, m) {
        forall y | y in s ensures StrLe(x, y) { if y != x { StrLeTransitive(x, m, y); } }
      } else {
        forall y | y in s ensures StrLe(m, y) { if y == x { } }
      }
    }
  }

  function Least(s: set<string>): (m: string)
    requires s != {}
    ensures m in s && forall y | y in s :: StrLe(m, y)
  {
    LeastExists(s);
    assert forall a, b | a in s && b in s && (forall y | y in s :: StrLe(a, y))
      && (forall y | y in s :: StrLe(b, y)) :: a == b by {
      forall a, b | a in s && b in s && (forall y | y in s :: StrLe(a, y))
        && (forall y | y in s :: StrLe(b, y)) ensures a == b { StrLeAntisymmetric(a, b); }
    }
    var m :| m in s && forall y | y in s :: StrLe(m, y);
    m
  }

  /** Python's `sorted(set)`: the one strictly ascending listing of the set. */
  function SortedSet(s: set<string>): (xs: seq<string>)
    ensures forall x :: x in xs <==> x in s
    ensures StrictlySorted(xs)
  {
    if s == {} then []
    else
      var m := Least(s);
      [m] + SortedSet(s - {m})
  }

  function Elements<T(==)>(xs: seq<T>): set<T> {
    set x | x in xs
  }

  // ---- Sorting a list ---------------------------------------------------------

  function Insert(x: string, xs: seq<string>): (r: seq<string>)
    ensures multiset(r) == multiset(xs) + multiset{x}
  {
    if xs == [] then [x]
    else if StrLe(x, xs[0]) then [x] + xs
    else assert xs == [xs[0]] + xs[1..]; [xs[0]] + Insert(x, xs[1..])
  }

  /** Python's `sorted(list)`; only its contents matter to the harness. */
  function Sorted(xs: seq<string>): (r: seq<string>)
    ensures multiset(r) == multiset(xs)
  {
    if xs == [] then []
    else assert xs == [xs[0]] + xs[1..]; Insert(xs[0], Sorted(xs[1..]))
  }

  lemma SortedKeepsElements(xs: seq<string>)
    ensures |Sorted(xs)| == |xs|
    ensures forall x :: x in Sorted(xs) <==> x in xs
  {
    assert |multiset(xs)| == |xs| && |multiset(Sorted(xs))| == |Sorted(xs)|;
    forall x ensures x in Sorted(xs) <==> x in xs {
      assert x in Sorted(xs) <==> x in multiset(Sorted(xs));
      assert x in xs <==> x in multiset(xs);
    }
  }

  lemma SortedLength(xs: seq<string>)
    ensures |Sorted(xs)| == |xs|
  {
    assert |multiset(xs)| == |xs| && |multiset(Sorted(xs))| == |Sorted(xs)|;
  }

  /** `list(dict.fromkeys(xs))`: keep the first occurrence of every value. */
  function Dedup(xs: seq<string>): (r: seq<string>)
    ensures forall x :: x in r <==> x in xs
    ensures forall i, j | 0 <= i < j < |r| :: r[i] != r[j]
    ensures |r| <= |xs|
  {
    if xs == [] then []
    else
      var before := Dedup(xs[..|xs| - 1]);
      assert xs == xs[..|xs| - 1] + [xs[|xs| - 1]];
      if xs[|xs| - 1] in before then before else before + [xs[|xs| - 1]]
  }

  /** Nothing is removed exactly when the list has no repetition. */
  lemma {:induction false} DedupLength(xs: seq<string>)
    ensures |Dedup(xs)| == |xs| <==> (forall i, j | 0 <= i < j < |xs| :: xs[i] != xs[j])
  {
    if xs != [] {
      var init, last := xs[..|xs| - 1], xs[|xs| - 1];
      DedupLength(init);
      if last in init {
        var i :| 0 <= i < |init| && init[i] == last;
        assert xs[i] == xs[|xs| - 1];
      } else {
        forall i, j | 0 <= i < j < |xs| && xs[i] == xs[j]
          ensures exists p, q | 0 <= p < q < |init| :: init[p] == init[q]
        {
          assert init[i] in init;
          assert init[i] == init[j];
        }
        if exists p, q | 0 <= p < q < |init| :: init[p] == init[q] {
          var p, q :| 0 <= p < q < |init| && init[p] == init[q];
          assert xs[p] == xs[q];
        }
      }
    }
  }
}
