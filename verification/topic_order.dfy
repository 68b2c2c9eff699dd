/**
  When the order of two delimiters matters to the extracted topics. Topics forget blank fragments, so one
  more case is harmless beside independent delimiters: one of them is the other repeated, and no occurrence
  of the longer one can begin inside an occurrence of the shorter.
 */
module TopicOrder {
  import opened DelimiterOrder
  import opened Texts
  import opened TopicSplitting

  predicate IsPower(u: string, b: string)
    requires b != ""
    decreases |u|
  {
    u == "" || (b <= u && IsPower(u[|b|..], b))
  }

  /** a is b repeated, and where an a begins inside a b, another begins with that b. */
  predicate Layered(a: string, b: string)
    requires b != ""
  {
    IsPower(a, b) && forall i :: 0 < i < |b| && b[i..] <= a ==> a <= b[..i] + a
  }

  // ----- Fragments contain no delimiter -----

  lemma {:induction false} Unsplit(s: string, d: string)
    requires d != "" && !Contains(s, d)
    ensures SplitOn(s, d) == [s]
  {
    if s != "" {
      assert !(d <= s[0..]);
      assert forall i :: 0 <= i <= |s| - 1 ==> s[1..][i..] == s[i + 1..];
      Unsplit(s[1..], d);
      assert [s[0]] + s[1..] == s;
    }
  }

  predicate NoneContains(fragments: seq<string>, d: string) {
    forall f :: f in fragments ==> !Contains(f, d)
  }

  lemma {:induction false} UnsplitEach(fragments: seq<string>, d: string)
    requires d != "" && NoneContains(fragments, d)
    ensures SplitEach(fragments, d) == fragments
  {
    if fragments != [] {
      var most, last := fragments[..|fragments| - 1], fragments[|fragments| - 1];
      assert fragments == most + [last];
      UnsplitEach(most, d);
      Unsplit(last, d);
    }
  }

  lemma ContainsLater(c: char, s: string, d: string)
    requires Contains([c] + s, d) && !(d <= [c] + s)
    ensures Contains(s, d)
  {
    var i :| 0 <= i <= |[c] + s| && d <= ([c] + s)[i..];
    assert i > 0 by {
      assert ([c] + s)[0..] == [c] + s;
    }
    assert ([c] + s)[i..] == s[i - 1..];
  }

  lemma {:induction false} FragmentsContainNone(s: string, d: string)
    requires d != ""
    ensures NoneContains(SplitOn(s, d), d)
    decreases |s|
  {
    if s == "" {
    } else if d <= s {
      FragmentsContainNone(s[|d|..], d);
    } else {
      var r := SplitOn(s[1..], d);
      FragmentsContainNone(s[1..], d);
      FirstFragment(s[1..], d);
      assert [s[0]] + r[0] <= s;
      if Contains([s[0]] + r[0], d) {
        ContainsLater(s[0], r[0], d);
      }
    }
  }

  lemma ContainsTrans(f: string, a: string, b: string)
    requires Contains(f, a) && Contains(a, b)
    ensures Contains(f, b)
  {
    var i :| 0 <= i <= |f| && a <= f[i..];
    var j :| 0 <= j <= |a| && b <= a[j..];
    assert a[j..] <= f[i..][j..] == f[i + j..];
  }

  /** Splitting at the contained delimiter first leaves the containing one nothing to split. */
  lemma ContainedDoesAll(s: string, a: string, b: string)
    requires a != "" && b != "" && Contains(a, b)
    ensures Successive(s, [b, a]) == SplitOn(s, b)
  {
    SuccessiveTwo(s, b, a);
    FragmentsContainNone(s, b);
    forall f | f in SplitOn(s, b)
      ensures !Contains(f, a)
    {
      if Contains(f, a) {
        ContainsTrans(f, a, b);
      }
    }
    UnsplitEach(SplitOn(s, b), a);
  }

  // ----- Layered delimiters -----

  /** The same first fragment, and the same fragments after it but for blanks. */
  predicate Alike(x: seq<string>, y: seq<string>) {
    x != [] && y != [] && x[0] == y[0] && SameVisible(x[1..], y[1..])
  }

  predicate SameVisible(x: seq<string>, y: seq<string>) {
    (forall f :: f in x && f != "" ==> f in y) && (forall f :: f in y && f != "" ==> f in x)
  }

  lemma AlikeMembers(x: seq<string>, y: seq<string>)
    requires Alike(x, y)
    ensures SameVisible(x, y)
  {
    assert x == [x[0]] + x[1..] && y == [y[0]] + y[1..];
  }

  lemma AlikeBlank(x: seq<string>, y: seq<string>)
    requires SameVisible(x, y)
    ensures Alike([""] + x, [""] + y)
  {
    assert ([""] + x)[1..] == x && ([""] + y)[1..] == y;
  }

  lemma AlikePrefixed(c: char, x: seq<string>, y: seq<string>)
    requires Alike(x, y)
    ensures Alike(Prefixed(c, x), Prefixed(c, y))
  {
    assert Prefixed(c, x)[1..] == x[1..] && Prefixed(c, y)[1..] == y[1..];
  }

  /** Splitting a repeated b yields blanks. */
  lemma {:induction false} SplitPower(u: string, b: string, rest: string)
    requires b != "" && IsPower(u, b)
    ensures SameVisible(SplitOn(u + rest, b), SplitOn(rest, b))
    decreases |u|
  {
    if u == "" {
      assert u + rest == rest;
    } else {
      assert b <= u + rest && (u + rest)[|b|..] == u[|b|..] + rest;
      SplitPower(u[|b|..], b, rest);
      AlikeBlank(SplitOn(u[|b|..] + rest, b), SplitOn(rest, b));
    }
  }

  lemma LayeredBegins(a: string, b: string, rest: string, j: nat)
    requires b != "" && |b| <= |a| && Layered(a, b) && j < |b| && a <= b[j..] + rest
    ensures a <= b + rest
  {
    if j == 0 {
      assert b[0..] == b;
    } else {
      assert b[j..] == a[..|b| - j];
      assert a <= b[..j] + a;
      assert b[..j] + (b[j..] + rest) == b + rest;
      assert b[..j] + a <= b[..j] + (b[j..] + rest);
    }
  }

  /** One step of both ways to split: neither delimiter, then the shorter, stands at the beginning. */
  lemma LayeredCharacter(s: string, a: string, b: string)
    requires s != "" && a != "" && b != "" && !(a <= s) && !(b <= s)
    requires Alike(SplitEach(SplitOn(s[1..], a), b), SplitOn(s[1..], b))
    ensures Alike(SplitEach(SplitOn(s, a), b), SplitOn(s, b))
  {
    var r := SplitOn(s[1..], a);
    FirstFragment(s, a);
    assert [s[0]] + r[0] <= s;
    SplitEachPrefixed(s[0], r, b);
    AlikePrefixed(s[0], SplitEach(r, b), SplitOn(s[1..], b));
  }

  lemma LayeredShorter(s: string, a: string, b: string)
    requires a != "" && b != "" && |b| <= |a| && Layered(a, b) && !(a <= s) && b <= s
    requires Alike(SplitEach(SplitOn(s[|b|..], a), b), SplitOn(s[|b|..], b))
    ensures Alike(SplitEach(SplitOn(s, a), b), SplitOn(s, b))
  {
    var rest := s[|b|..];
    assert s == b + rest && b[0..] == b;
    forall j | 0 <= j < |b|
      ensures !(a <= b[j..] + rest)
    {
      if a <= b[j..] + rest {
        LayeredBegins(a, b, rest, j);
      }
    }
    SplitPast(a, b, rest, 0);
    SplitEachGlued(SplitOn(rest, a), b);
    AlikeMembers(SplitEach(SplitOn(rest, a), b), SplitOn(rest, b));
    AlikeBlank(SplitEach(SplitOn(rest, a), b), SplitOn(rest, b));
  }

  lemma LayeredLonger(s: string, a: string, b: string)
    requires a != "" && b != "" && IsPower(a, b) && a <= s
    requires Alike(SplitEach(SplitOn(s[|a|..], a), b), SplitOn(s[|a|..], b))
    ensures Alike(SplitEach(SplitOn(s, a), b), SplitOn(s, b))
  {
    var rest := s[|a|..];
    var r := SplitOn(rest, a);
    assert s == a + rest && b <= s && s[|b|..] == a[|b|..] + rest;
    SplitEachHead([""] + r, b);
    assert ([""] + r)[1..] == r;
    AlikeMembers(SplitEach(r, b), SplitOn(rest, b));
    SplitPower(a[|b|..], b, rest);
    AlikeBlank(SplitEach(r, b), SplitOn(s[|b|..], b));
  }

  lemma {:induction false} LayeredAlike(s: string, a: string, b: string)
    requires a != "" && b != "" && |b| <= |a| && Layered(a, b)
    ensures Alike(SplitEach(SplitOn(s, a), b), SplitOn(s, b))
    decreases |s|
  {
    if s == "" {
      SplitEachOne("", b);
    } else if a <= s {
      LayeredAlike(s[|a|..], a, b);
      LayeredLonger(s, a, b);
    } else if b <= s {
      LayeredAlike(s[|b|..], a, b);
      LayeredShorter(s, a, b);
    } else {
      LayeredAlike(s[1..], a, b);
      LayeredCharacter(s, a, b);
    }
  }

  lemma PowerContains(a: string, b: string)
    requires a != "" && b != "" && IsPower(a, b)
    ensures |b| <= |a| && Contains(a, b)
  {
    assert a[0..] == a;
  }

  lemma LayeredTopics(value: string, a: string, b: string, norm: string -> string)
    requires a != "" && b != "" && Layered(a, b) && norm("") == ""
    ensures Topics(value, true, [a, b], norm) == Topics(value, true, [b, a], norm)
  {
    var s := Strip(value);
    PowerContains(a, b);
    SuccessiveTwo(s, a, b);
    ContainedDoesAll(s, a, b);
    LayeredAlike(s, a, b);
    AlikeMembers(Successive(s, [a, b]), Successive(s, [b, a]));
  }

  // ----- Texts on which the order shows -----

  /** A visible character that is none of the three. */
  function Other(x: char, y: char, z: char): (p: char)
    ensures p !in {x, y, z} && !IsSpace(p)
  {
    if 'a' !in {x, y, z} then 'a' else if 'b' !in {x, y, z} then 'b' else if 'c' !in {x, y, z} then 'c' else 'd'
  }

  function Run(p: char, n: nat): (r: string)
    ensures |r| == n && forall i :: 0 <= i < n ==> r[i] == p
  {
    if n == 0 then "" else [p] + Run(p, n - 1)
  }

  lemma {:induction false} SplitAfterRun(p: char, n: nat, s: string, d: string)
    requires d != "" && d[0] != p
    ensures SplitOn(Run(p, n) + s, d) == Glued(Run(p, n), SplitOn(s, d))
  {
    if n == 0 {
      var r := SplitOn(s, d);
      assert "" + s == s && "" + r[0] == r[0] && [r[0]] + r[1..] == r;
    } else {
      var t := Run(p, n) + s;
      SplitAfterRun(p, n - 1, s, d);
      assert t[0] == p && t[1..] == Run(p, n - 1) + s;
      GluedCons(p, Run(p, n - 1), SplitOn(s, d));
    }
  }

  lemma RunIsUnsplit(p: char, n: nat, d: string)
    requires d != "" && d[0] != p
    ensures SplitOn(Run(p, n), d) == [Run(p, n)]
  {
    SplitAfterRun(p, n, "", d);
    assert Run(p, n) + "" == Run(p, n);
  }

  lemma StripKeeps(s: string)
    requires s != "" && !IsSpace(s[0]) && !IsSpace(s[|s| - 1])
    ensures Strip(s) == s
  {
  }

  /** Without normalization, the topics of a trimmed text are its visible fragments. */
  lemma PlainTopics(s: string, one: string, two: string, f: string)
    requires one != "" && two != "" && s != "" && Strip(s) == s && f != ""
    ensures f in Topics(s, true, [one, two], x => x) <==> f in SplitEach(SplitOn(s, one), two)
  {
    SuccessiveTwo(s, one, two);
  }

  predicate TopicsDiffer(value: string, a: string, b: string)
    requires a != "" && b != ""
  {
    Topics(value, true, [a, b], x => x) != Topics(value, true, [b, a], x => x)
  }

  /**
    Where the core begins with one delimiter and an occurrence of the other begins inside that, but none at
    the beginning: in front of the core, the fragment cut by the other one is a topic of one order only.
   */
  lemma CutDiffers(core: string, one: string, two: string, i: nat) returns (s: string)
    requires one != "" && two != "" && two <= core && 0 < i < |two| && i <= |core|
    requires one <= core[i..] && !(one <= core)
    ensures TopicsDiffer(s, one, two)
  {
    var p := Other(one[0], two[0], 'x');
    var n := |core| + 2;
    var body := core + [p];
    s := Run(p, n) + body;
    assert s[0] == p && s[|s| - 1] == p;
    StripKeeps(s);
    var x := SplitOn(body, one)[0];
    FirstCut(core, p, one, i);
    SplitAfterRun(p, n, body, one);
    SplitAfterRun(p, n, body, two);
    var f := Run(p, n) + x;
    CutFirst(s, f, p, n, x, one, two);
    CutSecond(core, p, n, one, two, f);
    PlainTopics(s, one, two, f);
    PlainTopics(s, two, one, f);
  }

  lemma FirstCut(core: string, p: char, one: string, i: nat)
    requires one != "" && 0 < i <= |core| && one <= core[i..] && !(one <= core)
    ensures 0 < |SplitOn(core + [p], one)[0]| <= i
  {
    var body := core + [p];
    assert body[i..] == core[i..] + [p];
    assert one <= body[i..];
    FirstFragmentStops(body, one, i);
    assert |one| <= |core| && body[..|core|] == core;
  }

  lemma CutFirst(s: string, f: string, p: char, n: nat, x: string, one: string, two: string)
    requires one != "" && two != "" && two[0] != p && f == Run(p, n) + x && |x| < |two|
    requires SplitOn(s, one)[0] == f
    ensures f in SplitEach(SplitOn(s, one), two)
  {
    SplitEachHead(SplitOn(s, one), two);
    SplitAfterRun(p, n, x, two);
    TooShortToSplit(x, two);
    assert SplitOn(f, two) == [f];
    assert f in SplitOn(f, two);
  }

  lemma CutSecond(core: string, p: char, n: nat, one: string, two: string, f: string)
    requires one != "" && two != "" && one[0] != p && two[0] != p && two <= core && n > |core| + 1 && |f| > n
    ensures f !in SplitEach(SplitOn(Run(p, n) + (core + [p]), two), one)
  {
    var body := core + [p];
    var rest := SplitOn(body[|two|..], two);
    SplitAfterRun(p, n, body, two);
    assert Run(p, n) + "" == Run(p, n);
    assert ([""] + rest)[1..] == rest;
    var fragments := SplitOn(Run(p, n) + body, two);
    assert fragments[0] == Run(p, n) && fragments[1..] == rest;
    SplitEachHead(fragments, one);
    RunIsUnsplit(p, n, one);
    FragmentsAreShort(body[|two|..], two);
    EachIsShort(rest, one, |body|);
  }

  lemma {:induction false} EachIsShort(fragments: seq<string>, d: string, most: nat)
    requires d != "" && AtMost(fragments, most)
    ensures AtMost(SplitEach(fragments, d), most)
  {
    if fragments != [] {
      EachIsShort(fragments[..|fragments| - 1], d, most);
      FragmentsAreShort(fragments[|fragments| - 1], d);
    }
  }

  lemma OverlapShows(a: string, b: string, k: nat) returns (s: string)
    requires 0 < k < |a| && k < |b| && a[|a| - k..] == b[..k] && !Contains(a, b) && !Contains(b, a)
    ensures TopicsDiffer(s, b, a)
  {
    var core := a + b[k..];
    assert core[|a| - k..] == a[|a| - k..] + b[k..] == b[..k] + b[k..] == b;
    if b <= core {
      OneInTheOther(core, a, b);
    }
    s := CutDiffers(core, b, a, |a| - k);
  }

  lemma MisalignmentShows(a: string, b: string, i: nat) returns (s: string)
    requires a != "" && b != "" && 0 < i < |b| && b[i..] <= a && !(a <= b[..i] + a)
    ensures TopicsDiffer(s, a, b)
  {
    var core := b[..i] + a;
    assert b == b[..i] + b[i..];
    assert b <= core && core[i..] == a;
    s := CutDiffers(core, a, b, i);
  }

  /** A text that is no power of b leaves a visible fragment other than the run behind it. */
  lemma {:induction false} Leftover(u: string, b: string, p: char, n: nat) returns (g: string)
    requires b != "" && !IsPower(u, b) && b[|b| - 1] != p && |u| <= n
    ensures g in SplitOn(u + Run(p, n), b) && g != "" && g != Run(p, n)
    decreases |u|
  {
    var s := u + Run(p, n);
    if b <= u {
      assert s[|b|..] == u[|b|..] + Run(p, n);
      g := Leftover(u[|b|..], b, p, n);
      assert g in [""] + SplitOn(s[|b|..], b);
    } else {
      g := SplitOn(s, b)[0];
      LeftoverFirst(u, b, p, n);
    }
  }

  /** An occurrence of b ends inside u, as b does not end in the run's character. */
  lemma EndsInside(u: string, b: string, p: char, n: nat, i: nat)
    requires b != "" && b[|b| - 1] != p && i <= |u| + n && b <= (u + Run(p, n))[i..]
    ensures i + |b| <= |u|
  {
    var s := u + Run(p, n);
    assert s[i..][|b| - 1] == s[i + |b| - 1] == b[|b| - 1];
  }

  /** Either nothing is cut off, or the cut is where the delimiter occurs. */
  lemma {:induction false} FirstFragmentEnds(s: string, d: string)
    requires d != ""
    ensures var f := SplitOn(s, d)[0];
            f == s || (f <= s && d <= s[|f|..])
  {
    if s != "" && !(d <= s) {
      FirstFragmentEnds(s[1..], d);
      var f := SplitOn(s[1..], d)[0];
      assert SplitOn(s, d)[0] == [s[0]] + f;
      assert s[|f| + 1..] == s[1..][|f|..];
    }
  }

  lemma LeftoverFirst(u: string, b: string, p: char, n: nat)
    requires b != "" && u != "" && !(b <= u) && b[|b| - 1] != p && |u| <= n
    ensures SplitOn(u + Run(p, n), b)[0] != "" && SplitOn(u + Run(p, n), b)[0] != Run(p, n)
  {
    var s := u + Run(p, n);
    var f := SplitOn(s, b)[0];
    FirstFragmentEnds(s, b);
    if f != s {
      EndsInside(u, b, p, n, |f|);
      assert s[0..] == s && s[..|u|] == u;
    }
  }

  /** Where a contains b and is no power of it, b leaves a topic of a that a does not. */
  lemma ContainmentShows(a: string, b: string) returns (s: string)
    requires b != "" && Contains(a, b) && !IsPower(a, b)
    ensures TopicsDiffer(s, a, b)
  {
    var p := Other(a[0], b[0], b[|b| - 1]);
    var n := |a| + 1;
    var run := Run(p, n);
    s := run + (a + run);
    assert s[0] == p && s[|s| - 1] == p;
    StripKeeps(s);
    var g := Leftover(a, b, p, n);
    SplitAfterRun(p, n, a + run, b);
    var r := SplitOn(a + run, b);
    var f := if g == r[0] then run + g else g;
    assert f in Glued(run, r) by {
      assert g in r;
      assert r == [r[0]] + r[1..];
    }
    assert f != "" && f != run;
    ContainedDoesAll(s, a, b);
    SuccessiveTwo(s, b, a);
    PlainTopics(s, b, a, f);
    OnlyRuns(a, b, p, n);
    PlainTopics(s, a, b, f);
  }

  lemma OnlyRuns(a: string, b: string, p: char, n: nat)
    requires a != "" && b != "" && a[0] != p && b[0] != p
    ensures SplitEach(SplitOn(Run(p, n) + (a + Run(p, n)), a), b) == [Run(p, n), Run(p, n)]
  {
    var run := Run(p, n);
    SplitAfterRun(p, n, a + run, a);
    assert (a + run)[|a|..] == run && a <= a + run;
    RunIsUnsplit(p, n, a);
    assert run + "" == run;
    assert SplitOn(run + (a + run), a) == [run, run];
    SplitEachTwo(run, run, b);
    RunIsUnsplit(p, n, b);
  }

  // ----- The main result -----

  lemma PowerOrMisaligned(a: string, b: string) returns (s: string)
    requires a != "" && b != "" && Contains(a, b) && !Layered(a, b)
    ensures TopicsDiffer(s, a, b)
  {
    if !IsPower(a, b) {
      s := ContainmentShows(a, b);
    } else {
      var i :| 0 < i < |b| && b[i..] <= a && !(a <= b[..i] + a);
      s := MisalignmentShows(a, b, i);
    }
  }

  lemma OrderShows(a: string, b: string) returns (s: string)
    requires a != "" && b != "" && !Independent(a, b) && !Layered(a, b) && !Layered(b, a)
    ensures TopicsDiffer(s, a, b)
  {
    if Contains(a, b) {
      s := PowerOrMisaligned(a, b);
    } else if Contains(b, a) {
      s := PowerOrMisaligned(b, a);
    } else if Overlaps(a, b) {
      var k :| 0 < k < |a| && k < |b| && a[|a| - k..] == b[..k];
      s := OverlapShows(a, b, k);
    } else {
      var k :| 0 < k < |b| && k < |a| && b[|b| - k..] == a[..k];
      s := OverlapShows(b, a, k);
    }
  }

  /** For every text and every normalization that keeps blanks blank, both orders extract the same topics. */
  ghost predicate TopicsIgnoreOrder(a: string, b: string)
    requires a != "" && b != ""
  {
    forall value, norm: string -> string :: norm("") == "" ==>
      Topics(value, true, [a, b], norm) == Topics(value, true, [b, a], norm)
  }

  /**
    Two delimiters always extract the same topics in either order exactly when they are independent, or
    one is the other repeated without misaligned occurrences.
   */
  lemma TopicsIgnoreOrderIff(a: string, b: string)
    requires a != "" && b != "" && a != b
    ensures TopicsIgnoreOrder(a, b) <==> Independent(a, b) || Layered(a, b) || Layered(b, a)
  {
    if Independent(a, b) || Layered(a, b) || Layered(b, a) {
      forall value, norm: string -> string | norm("") == ""
        ensures Topics(value, true, [a, b], norm) == Topics(value, true, [b, a], norm)
      {
        if Independent(a, b) {
          IndependentAgree(Strip(value), a, b);
        } else if Layered(a, b) {
          LayeredTopics(value, a, b, norm);
        } else {
          LayeredTopics(value, b, a, norm);
        }
      }
    } else {
      var s := OrderShows(a, b);
      assert Topics(s, true, [a, b], x => x) != Topics(s, true, [b, a], x => x);
    }
  }
}
