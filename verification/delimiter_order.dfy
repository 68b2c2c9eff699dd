/**
  When the order of delimiters matters. Splitting at two delimiters commutes exactly when they cannot get
  in each other's way: neither contains the other, and neither ends the way the other begins.
 */
module DelimiterOrder {
  import opened Texts
  import opened TopicSplitting

  predicate Contains(s: string, d: string) {
    exists i :: 0 <= i <= |s| && d <= s[i..]
  }

  /** A proper ending of a is a proper beginning of b. */
  predicate Overlaps(a: string, b: string) {
    exists k :: 0 < k < |a| && k < |b| && a[|a| - k..] == b[..k]
  }

  predicate Independent(a: string, b: string) {
    !Contains(a, b) && !Contains(b, a) && !Overlaps(a, b) && !Overlaps(b, a)
  }

  // ----- One delimiter, character by character -----

  lemma {:induction false} FirstFragment(s: string, d: string)
    requires d != ""
    ensures SplitOn(s, d)[0] <= s
  {
    if s != "" && !(d <= s) {
      FirstFragment(s[1..], d);
    }
  }

  /** The first fragment ends where the delimiter occurs, or before. */
  lemma {:induction false} FirstFragmentStops(s: string, d: string, i: nat)
    requires d != "" && i <= |s| && d <= s[i..]
    ensures |SplitOn(s, d)[0]| <= i
  {
    if s != "" && !(d <= s) {
      assert i > 0 && s[i..] == s[1..][i - 1..];
      FirstFragmentStops(s[1..], d, i - 1);
    }
  }

  /** A text put in front of the first fragment. */
  function Glued(t: string, fragments: seq<string>): (r: seq<string>)
    requires fragments != []
    ensures r != []
  {
    [t + fragments[0]] + fragments[1..]
  }

  lemma GluedCons(c: char, t: string, fragments: seq<string>)
    requires fragments != []
    ensures Prefixed(c, Glued(t, fragments)) == Glued([c] + t, fragments)
  {
    assert [c] + (t + fragments[0]) == ([c] + t) + fragments[0];
  }

  // ----- Both delimiters in one pass -----

  /** From left to right, cutting at whichever delimiter comes first. */
  function Either(s: string, a: string, b: string): (r: seq<string>)
    requires a != "" && b != ""
    ensures r != []
    decreases |s|
  {
    if s == "" then [""]
    else if a <= s then [""] + Either(s[|a|..], a, b)
    else if b <= s then [""] + Either(s[|b|..], a, b)
    else Prefixed(s[0], Either(s[1..], a, b))
  }

  /** An occurrence of a that begins where b stands begins with b, lies inside b, or reaches over its end. */
  lemma BeginsWhere(a: string, b: string, rest: string, i: nat)
    requires i < |b| && a <= b[i..] + rest
    ensures a <= b + rest || Contains(b, a) || Overlaps(b, a)
  {
    var k := |b| - i;
    if |a| <= k {
      assert a <= b[i..];
    } else if i == 0 {
      assert b[i..] == b;
    } else {
      assert b[|b| - k..] == b[i..] == a[..k];
    }
  }

  /** Where no a begins inside b, splitting at a passes over it. */
  lemma {:induction false} SplitPast(a: string, b: string, rest: string, i: nat)
    requires a != "" && i <= |b| && forall j :: i <= j < |b| ==> !(a <= b[j..] + rest)
    ensures SplitOn(b[i..] + rest, a) == Glued(b[i..], SplitOn(rest, a))
    decreases |b| - i
  {
    if i == |b| {
      var r := SplitOn(rest, a);
      assert b[i..] + rest == rest && b[i..] + r[0] == r[0] && [r[0]] + r[1..] == r;
    } else {
      SplitPast(a, b, rest, i + 1);
      var s := b[i..] + rest;
      assert s[1..] == b[i + 1..] + rest && s[0] == b[i];
      GluedCons(b[i], b[i + 1..], SplitOn(rest, a));
      assert [b[i]] + b[i + 1..] == b[i..];
    }
  }

  lemma SplitOver(a: string, b: string, rest: string)
    requires a != "" && !Contains(b, a) && !Overlaps(b, a) && !(a <= b + rest)
    ensures SplitOn(b + rest, a) == Glued(b, SplitOn(rest, a))
  {
    forall j | 0 <= j < |b|
      ensures !(a <= b[j..] + rest)
    {
      if a <= b[j..] + rest {
        BeginsWhere(a, b, rest, j);
      }
    }
    SplitPast(a, b, rest, 0);
    assert b[0..] == b;
  }

  lemma SplitEachHead(r: seq<string>, d: string)
    requires d != "" && r != []
    ensures SplitEach(r, d) == SplitOn(r[0], d) + SplitEach(r[1..], d)
  {
    assert r == [r[0]] + r[1..];
    SplitEachThen([r[0]], r[1..], d);
    SplitEachOne(r[0], d);
  }

  /** A fragment list whose first fragment got the delimiter in front. */
  lemma SplitEachGlued(r: seq<string>, d: string)
    requires d != "" && r != []
    ensures SplitEach(Glued(d, r), d) == [""] + SplitEach(r, d)
  {
    var g := Glued(d, r);
    SplitEachHead(g, d);
    SplitEachHead(r, d);
    assert g[0][|d|..] == r[0] && g[1..] == r[1..];
    Regroup([""], SplitOn(r[0], d), SplitEach(r[1..], d));
  }

  /** A fragment list whose first fragment got a character in front, without completing the delimiter. */
  lemma SplitEachPrefixed(c: char, r: seq<string>, d: string)
    requires d != "" && r != [] && !(d <= [c] + r[0])
    ensures SplitEach(r, d) != [] && SplitEach(Prefixed(c, r), d) == Prefixed(c, SplitEach(r, d))
  {
    var p := Prefixed(c, r);
    SplitEachHead(p, d);
    SplitEachHead(r, d);
    assert p[0][1..] == r[0] && p[1..] == r[1..];
    PrefixedThen(c, SplitOn(r[0], d), SplitEach(r[1..], d));
  }

  /** Splitting at a and then at b is one pass, if b neither contains a nor ends the way a begins. */
  lemma {:induction false} TwoPassesAreOne(s: string, a: string, b: string)
    requires a != "" && b != "" && !Contains(b, a) && !Overlaps(b, a)
    ensures SplitEach(SplitOn(s, a), b) == Either(s, a, b)
    decreases |s|
  {
    if s == "" {
      SplitEachOne("", b);
    } else if a <= s {
      var rest := SplitOn(s[|a|..], a);
      TwoPassesAreOne(s[|a|..], a, b);
      SplitEachHead([""] + rest, b);
      assert ([""] + rest)[1..] == rest;
    } else if b <= s {
      var rest := s[|b|..];
      assert s == b + rest;
      SplitOver(a, b, rest);
      TwoPassesAreOne(rest, a, b);
      SplitEachGlued(SplitOn(rest, a), b);
    } else {
      var r := SplitOn(s[1..], a);
      FirstFragment(s, a);
      TwoPassesAreOne(s[1..], a, b);
      assert [s[0]] + r[0] <= s;
      SplitEachPrefixed(s[0], r, b);
    }
  }

  lemma OneInTheOther(s: string, a: string, b: string)
    requires a <= s && b <= s
    ensures Contains(a, b) || Contains(b, a)
  {
    if |a| <= |b| {
      assert a <= b[0..];
    } else {
      assert b <= a[0..];
    }
  }

  lemma {:induction false} EitherWay(s: string, a: string, b: string)
    requires a != "" && b != "" && !Contains(a, b) && !Contains(b, a)
    ensures Either(s, a, b) == Either(s, b, a)
    decreases |s|
  {
    if s == "" {
    } else if a <= s {
      if b <= s {
        OneInTheOther(s, a, b);
      }
      EitherWay(s[|a|..], a, b);
    } else if b <= s {
      EitherWay(s[|b|..], a, b);
    } else {
      EitherWay(s[1..], a, b);
    }
  }

  /** Independent delimiters commute, on any list of fragments. */
  lemma {:induction false} IndependentCommute(fragments: seq<string>, a: string, b: string)
    requires a != "" && b != "" && (a == b || Independent(a, b))
    ensures SplitEach(SplitEach(fragments, a), b) == SplitEach(SplitEach(fragments, b), a)
  {
    if fragments != [] && a != b {
      var most, last := fragments[..|fragments| - 1], fragments[|fragments| - 1];
      IndependentCommute(most, a, b);
      SplitEachThen(SplitEach(most, a), SplitOn(last, a), b);
      SplitEachThen(SplitEach(most, b), SplitOn(last, b), a);
      TwoPassesAreOne(last, a, b);
      TwoPassesAreOne(last, b, a);
      EitherWay(last, a, b);
    }
  }

  // ----- When they get in each other's way -----

  predicate AtMost(fragments: seq<string>, most: nat) {
    forall f :: f in fragments ==> |f| <= most
  }

  lemma AtMostCons(first: string, rest: seq<string>, most: nat)
    requires |first| <= most && AtMost(rest, most)
    ensures AtMost([first] + rest, most)
  {
  }

  lemma AtMostPrefixed(c: char, fragments: seq<string>, most: nat)
    requires fragments != [] && AtMost(fragments, most)
    ensures AtMost(Prefixed(c, fragments), most + 1)
  {
  }

  lemma {:induction false} FragmentsAreShort(s: string, d: string)
    requires d != ""
    ensures AtMost(SplitOn(s, d), |s|)
    decreases |s|
  {
    if s == "" {
    } else if d <= s {
      FragmentsAreShort(s[|d|..], d);
      AtMostCons("", SplitOn(s[|d|..], d), |s|);
    } else {
      FragmentsAreShort(s[1..], d);
      AtMostPrefixed(s[0], SplitOn(s[1..], d), |s| - 1);
    }
  }

  /** Where the delimiter occurs, every fragment leaves room for it. */
  lemma {:induction false} FragmentsLeaveRoom(s: string, d: string, i: nat)
    requires d != "" && i <= |s| && d <= s[i..]
    ensures |d| <= |s| && AtMost(SplitOn(s, d), |s| - |d|)
    decreases |s|
  {
    if d <= s {
      FragmentsAreShort(s[|d|..], d);
      AtMostCons("", SplitOn(s[|d|..], d), |s| - |d|);
    } else {
      assert i > 0 && s[i..] == s[1..][i - 1..];
      FragmentsLeaveRoom(s[1..], d, i - 1);
      AtMostPrefixed(s[0], SplitOn(s[1..], d), |s| - 1 - |d|);
    }
  }

  lemma {:induction false} TooShortToSplit(s: string, d: string)
    requires |s| < |d|
    ensures SplitOn(s, d) == [s]
  {
    if s != "" {
      TooShortToSplit(s[1..], d);
      assert [s[0]] + s[1..] == s;
    }
  }

  lemma {:induction false} TooShortToSplitEach(fragments: seq<string>, d: string)
    requires d != "" && AtMost(fragments, |d| - 1)
    ensures SplitEach(fragments, d) == fragments
  {
    if fragments != [] {
      var most, last := fragments[..|fragments| - 1], fragments[|fragments| - 1];
      assert fragments == most + [last];
      TooShortToSplitEach(most, d);
      TooShortToSplit(last, d);
    }
  }

  lemma FewerIsAtMost(fragments: seq<string>, fewer: nat, most: nat)
    requires AtMost(fragments, fewer) && fewer <= most
    ensures AtMost(fragments, most)
  {
  }

  /** Splitting a at a contained b leaves nothing for a to split. */
  lemma ContainedFirst(a: string, b: string)
    requires b != "" && Contains(a, b)
    ensures a != "" && SplitEach(SplitOn(a, b), a) == SplitOn(a, b)
  {
    var i :| 0 <= i <= |a| && b <= a[i..];
    FragmentsLeaveRoom(a, b, i);
    FewerIsAtMost(SplitOn(a, b), |a| - |b|, |a| - 1);
    TooShortToSplitEach(SplitOn(a, b), a);
  }

  lemma NotOneBlank(s: string, d: string)
    requires s != "" && d != ""
    ensures SplitOn(s, d) != [""]
  {
    if d <= s {
      assert |SplitOn(s, d)| == 1 + |SplitOn(s[|d|..], d)| >= 2;
    } else {
      assert |SplitOn(s, d)[0]| > 0;
    }
  }

  /** Only a text that is the delimiter itself splits into two blank fragments. */
  lemma NotTwoBlanks(s: string, d: string)
    requires d != "" && s != d
    ensures SplitOn(s, d) != ["", ""]
  {
    if s != "" {
      if d <= s {
        var rest := s[|d|..];
        assert s == d + rest;
        NotOneBlank(rest, d);
        assert SplitOn(s, d)[1..] == SplitOn(rest, d) && ["", ""][1..] == [""];
      } else {
        assert |SplitOn(s, d)[0]| > 0;
      }
    }
  }

  lemma ContainingFirst(a: string, b: string)
    requires a != "" && b != ""
    ensures SplitOn(a, a) == ["", ""] && SplitEach(SplitOn(a, a), b) == ["", ""]
  {
    assert a[|a|..] == "";
    SplitEachTwo("", "", b);
  }

  /** A contained delimiter shows on the containing one itself. */
  lemma ContainmentMatters(a: string, b: string)
    requires b != "" && a != b && Contains(a, b)
    ensures Successive(a, [a, b]) != Successive(a, [b, a])
  {
    ContainedFirst(a, b);
    ContainingFirst(a, b);
    SuccessiveTwo(a, a, b);
    SuccessiveTwo(a, b, a);
    NotTwoBlanks(a, b);
  }

  lemma FirstOfBoth(s: string, a: string, b: string)
    requires a != "" && b != ""
    ensures SplitEach(SplitOn(s, a), b) != []
    ensures SplitEach(SplitOn(s, a), b)[0] == SplitOn(SplitOn(s, a)[0], b)[0]
  {
    SplitEachHead(SplitOn(s, a), b);
  }

  /** Run together, b occurs, not at the start, and early enough for its first fragment to be too short for a. */
  lemma OverlapOccurs(a: string, b: string, k: nat)
    requires 0 < k < |a| && k < |b| && a[|a| - k..] == b[..k] && !Contains(a, b) && !Contains(b, a)
    ensures 0 < |SplitOn(a + b[k..], b)[0]| < |a|
  {
    var s, at := a + b[k..], |a| - k;
    assert s[at..] == a[at..] + b[k..];
    assert b[..k] + b[k..] == b;
    FirstFragmentStops(s, b, at);
    if b <= s {
      OneInTheOther(s, a, b);
    }
  }

  /** An overlap shows on the two delimiters run together. */
  lemma OverlapMatters(a: string, b: string, k: nat)
    requires 0 < k < |a| && k < |b| && a[|a| - k..] == b[..k] && !Contains(a, b) && !Contains(b, a)
    ensures Successive(a + b[k..], [a, b]) != Successive(a + b[k..], [b, a])
  {
    var s := a + b[k..];
    OverlapOccurs(a, b, k);
    SuccessiveTwo(s, a, b);
    SuccessiveTwo(s, b, a);
    FirstOfBoth(s, a, b);
    assert SplitOn(s, a)[0] == "" && SplitOn("", b) == [""];
    FirstOfBoth(s, b, a);
    TooShortToSplit(SplitOn(s, b)[0], a);
  }

  lemma IndependentAgree(s: string, a: string, b: string)
    requires a != "" && b != "" && Independent(a, b)
    ensures Successive(s, [a, b]) == Successive(s, [b, a])
  {
    SuccessiveTwo(s, a, b);
    SuccessiveTwo(s, b, a);
    IndependentCommute([s], a, b);
    SplitEachOne(s, a);
    SplitEachOne(s, b);
  }

  /** For delimiters that are not independent: a text on which the order shows. */
  lemma DependentDiffer(a: string, b: string) returns (s: string)
    requires a != "" && b != "" && a != b && !Independent(a, b)
    ensures Successive(s, [a, b]) != Successive(s, [b, a])
  {
    if Contains(a, b) {
      s := a;
      ContainmentMatters(a, b);
    } else if Contains(b, a) {
      s := b;
      ContainmentMatters(b, a);
    } else if Overlaps(a, b) {
      var k :| 0 < k < |a| && k < |b| && a[|a| - k..] == b[..k];
      s := a + b[k..];
      OverlapMatters(a, b, k);
    } else {
      var k :| 0 < k < |b| && k < |a| && b[|b| - k..] == a[..k];
      s := b + a[k..];
      OverlapMatters(b, a, k);
    }
  }

  /** In this order and in that, the two delimiters give the same fragments of every text. */
  ghost predicate OrderIsIrrelevant(a: string, b: string)
    requires a != "" && b != ""
  {
    forall s :: Successive(s, [a, b]) == Successive(s, [b, a])
  }

  /** Two delimiters give the same fragments in either order, for every text, exactly when they are independent. */
  lemma OrderIsIrrelevantIff(a: string, b: string)
    requires a != "" && b != "" && a != b
    ensures OrderIsIrrelevant(a, b) <==> Independent(a, b)
  {
    if Independent(a, b) {
      forall s
        ensures Successive(s, [a, b]) == Successive(s, [b, a])
      {
        IndependentAgree(s, a, b);
      }
    } else {
      var s := DependentDiffer(a, b);
      assert Successive(s, [a, b]) != Successive(s, [b, a]);
    }
  }

  // ----- Any number of delimiters -----

  function SplitFrom(fragments: seq<string>, delimiters: seq<string>): seq<string>
    requires "" !in delimiters
  {
    if delimiters == [] then fragments
    else SplitEach(SplitFrom(fragments, delimiters[..|delimiters| - 1]), delimiters[|delimiters| - 1])
  }

  lemma {:induction false} SuccessiveIsSplitFrom(s: string, delimiters: seq<string>)
    requires "" !in delimiters
    ensures Successive(s, delimiters) == SplitFrom([s], delimiters)
  {
    if delimiters != [] {
      SuccessiveIsSplitFrom(s, delimiters[..|delimiters| - 1]);
    }
  }

  lemma {:induction false} SplitFromThen(fragments: seq<string>, a: seq<string>, b: seq<string>)
    requires "" !in a && "" !in b
    ensures SplitFrom(fragments, a + b) == SplitFrom(SplitFrom(fragments, a), b)
  {
    if b == [] {
      assert a + b == a;
    } else {
      var most, last := b[..|b| - 1], b[|b| - 1];
      SplitFromThen(fragments, a, most);
      assert (a + b)[..|a + b| - 1] == a + most && (a + b)[|a + b| - 1] == last;
    }
  }

  predicate Commuting(a: string, b: string) {
    a == b || Independent(a, b)
  }

  /** Every two delimiters of the list are equal or independent. */
  predicate PairwiseCommuting(delimiters: seq<string>) {
    forall a, b :: a in delimiters && b in delimiters ==> Commuting(a, b)
  }

  lemma SplitFromOne(fragments: seq<string>, x: string)
    requires x != ""
    ensures SplitFrom(fragments, [x]) == SplitEach(fragments, x)
  {
    assert [x][..0] == [];
  }

  lemma {:induction false} MoveToFront(fragments: seq<string>, before: seq<string>, x: string)
    requires "" !in before && x != "" && forall d :: d in before ==> Commuting(d, x)
    ensures SplitFrom(fragments, before + [x]) == SplitFrom(SplitEach(fragments, x), before)
  {
    SplitFromThen(fragments, before, [x]);
    SplitFromOne(SplitFrom(fragments, before), x);
    if before != [] {
      var most, last := before[..|before| - 1], before[|before| - 1];
      assert last in before && forall d :: d in most ==> d in before;
      MoveToFront(fragments, most, x);
      SplitFromThen(fragments, most, [x]);
      SplitFromOne(SplitFrom(fragments, most), x);
      IndependentCommute(SplitFrom(fragments, most), last, x);
    }
  }

  /** A delimiter anywhere in the list can be applied first. */
  lemma TakeOut(fragments: seq<string>, l: seq<string>, x: string, r: seq<string>)
    requires "" !in l && x != "" && "" !in r && forall d :: d in l ==> Commuting(d, x)
    ensures SplitFrom(fragments, (l + [x]) + r) == SplitFrom(SplitEach(fragments, x), l + r)
  {
    MoveToFront(fragments, l, x);
    SplitFromThen(fragments, l + [x], r);
    SplitFromThen(SplitEach(fragments, x), l, r);
  }

  lemma TakeFirst(fragments: seq<string>, x: string, rest: seq<string>)
    requires x != "" && "" !in rest
    ensures SplitFrom(fragments, [x] + rest) == SplitFrom(SplitEach(fragments, x), rest)
  {
    SplitFromThen(fragments, [x], rest);
    SplitFromOne(fragments, x);
  }

  lemma RestsMatch(x: string, rest: seq<string>, l: seq<string>, r: seq<string>)
    requires multiset([x] + rest) == multiset((l + [x]) + r)
    ensures multiset(rest) == multiset(l + r)
  {
    assert multiset(rest) == multiset([x] + rest) - multiset{x};
    assert multiset(l + r) == multiset((l + [x]) + r) - multiset{x};
  }

  lemma {:induction false} PermutedDelimiters(fragments: seq<string>, one: seq<string>, two: seq<string>)
    requires "" !in one && "" !in two && PairwiseCommuting(one) && multiset(one) == multiset(two)
    ensures SplitFrom(fragments, one) == SplitFrom(fragments, two)
    decreases |one|
  {
    SameMembers(one, two);
    if one == [] {
      assert |multiset(two)| == 0 && two == [];
    } else {
      var x, rest := one[0], one[1..];
      assert one == [x] + rest && x in two;
      var p :| 0 <= p < |two| && two[p] == x;
      var (l, r) := (two[..p], two[p + 1..]);
      assert two == (l + [x]) + r;
      RestsMatch(x, rest, l, r);
      assert forall d :: d in l || d in r ==> d in two;
      assert forall d :: d in rest ==> d in one;
      TakeOut(fragments, l, x, r);
      TakeFirst(fragments, x, rest);
      PermutedDelimiters(SplitEach(fragments, x), rest, l + r);
    }
  }

  lemma SameMembers(one: seq<string>, two: seq<string>)
    requires multiset(one) == multiset(two)
    ensures forall d :: d in one <==> d in two
  {
    assert forall d :: d in one <==> d in multiset(one);
    assert forall d :: d in two <==> d in multiset(two);
  }

  lemma SingleCharactersCommute(a: string, b: string)
    requires |a| == 1 && |b| == 1
    ensures Commuting(a, b)
  {
    if a != b {
      assert a[0] != b[0];
      forall i | 0 <= i <= 1
        ensures !(b <= a[i..]) && !(a <= b[i..])
      {
      }
    }
  }

  // ----- Topics -----

  /** The extracted topics do not depend on the order of delimiters that pairwise commute. */
  lemma TopicsIgnoreDelimiterOrder(value: string, splitting: bool, one: seq<string>, two: seq<string>,
      norm: string -> string)
    requires "" !in one && PairwiseCommuting(one) && multiset(one) == multiset(two)
    ensures "" !in two && Topics(value, splitting, one, norm) == Topics(value, splitting, two, norm)
  {
    SameMembers(one, two);
    SuccessiveIsSplitFrom(Strip(value), one);
    SuccessiveIsSplitFrom(Strip(value), two);
    PermutedDelimiters([Strip(value)], one, two);
  }

  /** In particular on that of single characters, which is what the default configuration has. */
  lemma SingleCharacterTopics(value: string, splitting: bool, one: seq<string>, two: seq<string>,
      norm: string -> string)
    requires SingleCharacters(one) && multiset(one) == multiset(two)
    ensures "" !in two && Topics(value, splitting, one, norm) == Topics(value, splitting, two, norm)
  {
    forall a, b | a in one && b in one
      ensures Commuting(a, b)
    {
      SingleCharactersCommute(a, b);
    }
    TopicsIgnoreDelimiterOrder(value, splitting, one, two, norm);
  }

  /**
    Where one delimiter contains the other and leaves a label beside it, the order decides whether the label
    is a topic.
   */
  lemma ContainmentChangesTopics(a: string, b: string, norm: string -> string, f: string)
    requires b != "" && a != b && Contains(a, b) && Strip(a) == a && norm("") == ""
    requires f in SplitOn(a, b) && norm(f) != ""
    ensures Topics(a, true, [a, b], norm) == {} && norm(f) in Topics(a, true, [b, a], norm)
  {
    ContainedFirst(a, b);
    ContainingFirst(a, b);
    SuccessiveTwo(a, a, b);
    SuccessiveTwo(a, b, a);
    assert Labels(["", ""], norm) == {};
  }

  /** A concrete case: whether "a" is a topic of the text "ab" depends on which of "ab" and "b" comes first. */
  lemma OrderMattersForLongerDelimiters()
    ensures Topics("ab", true, ["ab", "b"], s => s) == {} && "a" in Topics("ab", true, ["b", "ab"], s => s)
  {
    var (a, b) := ("ab", "b");
    assert a[1..] == b && b <= a[1..] && b[0] != a[0] && !(b <= a);
    assert SplitOn("", b) == [""] && b[|b|..] == "" && SplitOn(b, b) == [""] + [""];
    assert SplitOn(a, b)[0] == ['a'] + "";
    assert SplitOn(a, b)[0] == "a";
    assert !IsSpace('a') && !IsSpace('b') && Strip(a) == a;
    ContainmentChangesTopics(a, b, s => s, "a");
  }
}
