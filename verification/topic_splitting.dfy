/** Topic labels from a delimited metadata string: splitting at one delimiter after another. */
module TopicSplitting {
  import opened Texts

  // ----- Splitting at one delimiter string -----

  /** A character put in front of the first fragment. */
  function Prefixed(c: char, fragments: seq<string>): (r: seq<string>)
    requires fragments != []
    ensures r != []
  {
    [[c] + fragments[0]] + fragments[1..]
  }

  /** Leftmost, non-overlapping; the delimiter is dropped. */
  function SplitOn(s: string, d: string): (r: seq<string>)
    requires d != ""
    ensures r != []
    decreases |s|
  {
    if s == "" then [""]
    else if d <= s then [""] + SplitOn(s[|d|..], d)
    else Prefixed(s[0], SplitOn(s[1..], d))
  }

  /** The fragments with the delimiter between them. */
  function Interspersed(fragments: seq<string>, d: string): string {
    if fragments == [] then ""
    else if |fragments| == 1 then fragments[0]
    else fragments[0] + d + Interspersed(fragments[1..], d)
  }

  lemma InterspersedHead(first: string, rest: seq<string>, d: string)
    requires rest != []
    ensures Interspersed([first] + rest, d) == first + (d + Interspersed(rest, d))
  {
    assert ([first] + rest)[1..] == rest;
    assert first + d + Interspersed(rest, d) == first + (d + Interspersed(rest, d));
  }

  lemma InterspersedPrefixed(c: char, fragments: seq<string>, d: string)
    requires fragments != []
    ensures Interspersed(Prefixed(c, fragments), d) == [c] + Interspersed(fragments, d)
  {
    if |fragments| > 1 {
      var (first, rest) := (fragments[0], fragments[1..]);
      assert fragments == [first] + rest && Prefixed(c, fragments) == [[c] + first] + rest;
      InterspersedHead(first, rest, d);
      InterspersedHead([c] + first, rest, d);
      assert ([c] + first) + (d + Interspersed(rest, d)) == [c] + (first + (d + Interspersed(rest, d)));
    }
  }

  /** Splitting loses nothing but the delimiters: put back between the fragments, they give the text again. */
  lemma {:induction false} SplitRoundTrip(s: string, d: string)
    requires d != ""
    ensures Interspersed(SplitOn(s, d), d) == s
    decreases |s|
  {
    if s == "" {
    } else if d <= s {
      var rest := s[|d|..];
      assert Interspersed([""] + SplitOn(rest, d), d) == d + rest by {
        SplitRoundTrip(rest, d);
        InterspersedHead("", SplitOn(rest, d), d);
        assert "" + (d + rest) == d + rest;
      }
      assert s == d + rest;
    } else {
      var rest := s[1..];
      assert Interspersed(Prefixed(s[0], SplitOn(rest, d)), d) == [s[0]] + rest by {
        SplitRoundTrip(rest, d);
        InterspersedPrefixed(s[0], SplitOn(rest, d), d);
      }
      assert s == [s[0]] + rest;
    }
  }

  function SplitEach(fragments: seq<string>, d: string): seq<string>
    requires d != ""
  {
    if fragments == [] then []
    else SplitEach(fragments[..|fragments| - 1], d) + SplitOn(fragments[|fragments| - 1], d)
  }

  /** Delimiters in configured order, each applied to every fragment so far. */
  function Successive(s: string, delimiters: seq<string>): seq<string>
    requires "" !in delimiters
  {
    if delimiters == [] then [s]
    else SplitEach(Successive(s, delimiters[..|delimiters| - 1]), delimiters[|delimiters| - 1])
  }

  // ----- The reference: splitting once at a set of characters -----

  function SplitAt(s: string, cs: set<char>): (r: seq<string>)
    ensures r != []
  {
    if s == "" then [""]
    else
      var rest := SplitAt(s[1..], cs);
      if s[0] in cs then [""] + rest else [[s[0]] + rest[0]] + rest[1..]
  }

  predicate SingleCharacters(delimiters: seq<string>) {
    forall d :: d in delimiters ==> |d| == 1
  }

  function Characters(delimiters: seq<string>): set<char>
    requires SingleCharacters(delimiters)
  {
    set d | d in delimiters :: d[0]
  }

  // ----- One delimiter -----

  lemma {:induction false} SplitOnIsSplitAt(s: string, c: char)
    ensures SplitOn(s, [c]) == SplitAt(s, {c})
  {
    if s != "" {
      assert [c] <= s <==> s[0] == c;
      SplitOnIsSplitAt(s[1..], c);
    }
  }

  // ----- Splitting the fragments of a split -----

  lemma Regroup(a: seq<string>, b: seq<string>, c: seq<string>)
    ensures (a + b) + c == a + (b + c)
  {
  }

  lemma {:induction false} SplitEachThen(a: seq<string>, b: seq<string>, d: string)
    requires d != ""
    ensures SplitEach(a + b, d) == SplitEach(a, d) + SplitEach(b, d)
  {
    if b == [] {
      assert a + b == a;
    } else {
      var most, last := b[..|b| - 1], b[|b| - 1];
      SplitEachThen(a, most, d);
      SplitEachLast(a + b, d);
      SplitEachLast(b, d);
      assert (a + b)[..|a + b| - 1] == a + most;
      Regroup(SplitEach(a, d), SplitEach(most, d), SplitOn(last, d));
    }
  }

  lemma SplitEachLast(fragments: seq<string>, d: string)
    requires d != "" && fragments != []
    ensures SplitEach(fragments, d)
              == SplitEach(fragments[..|fragments| - 1], d) + SplitOn(fragments[|fragments| - 1], d)
  {
  }

  lemma SplitEachOne(s: string, d: string)
    requires d != ""
    ensures SplitEach([s], d) == SplitOn(s, d)
  {
    assert [s][..0] == [];
    assert SplitEach([s], d) == [] + SplitOn(s, d);
  }

  lemma SplitEachCons(first: string, rest: seq<string>, c: char)
    ensures SplitEach([first] + rest, [c]) == SplitAt(first, {c}) + SplitEach(rest, [c])
  {
    SplitEachThen([first], rest, [c]);
    SplitEachOne(first, [c]);
    SplitOnIsSplitAt(first, c);
  }

  lemma SplitAtCons(c: char, s: string, cs: set<char>)
    ensures SplitAt([c] + s, cs) == if c in cs then [""] + SplitAt(s, cs) else Prefixed(c, SplitAt(s, cs))
  {
    assert ([c] + s)[1..] == s;
  }

  lemma PrefixedThen(c: char, a: seq<string>, b: seq<string>)
    requires a != []
    ensures Prefixed(c, a) + b == Prefixed(c, a + b)
  {
  }

  /** Splitting at cs and then every fragment at c is splitting once at both. */
  lemma {:induction false} SplitTwice(s: string, cs: set<char>, c: char)
    ensures SplitEach(SplitAt(s, cs), [c]) == SplitAt(s, cs + {c})
  {
    if s == "" {
      SplitEachOne("", [c]);
      SplitOnIsSplitAt("", c);
    } else {
      var (x, t) := (s[0], s[1..]);
      var rest := SplitAt(t, cs);
      assert s == [x] + t;
      SplitTwice(t, cs, c);
      SplitAtCons(x, t, cs);
      SplitAtCons(x, t, cs + {c});
      if x in cs {
        SplitEachCons("", rest, c);
      } else {
        assert rest == [rest[0]] + rest[1..];
        var head, tail := SplitAt(rest[0], {c}), SplitEach(rest[1..], [c]);
        SplitEachCons(rest[0], rest[1..], c);
        SplitEachCons([x] + rest[0], rest[1..], c);
        SplitAtCons(x, rest[0], {c});
        if x == c {
          Regroup([""], head, tail);
        } else {
          PrefixedThen(x, head, tail);
        }
      }
    }
  }

  // ----- The main results -----

  lemma SuccessiveLast(s: string, most: seq<string>, last: string)
    requires "" !in most && last != ""
    ensures Successive(s, most + [last]) == SplitEach(Successive(s, most), last)
  {
    assert (most + [last])[..|most|] == most;
  }

  /** For single-character delimiters, splitting at one after another is splitting once at all of them. */
  lemma {:induction false} SuccessiveIsSplitAt(s: string, delimiters: seq<string>)
    requires SingleCharacters(delimiters)
    ensures Successive(s, delimiters) == SplitAt(s, Characters(delimiters))
  {
    if delimiters == [] {
      NothingToSplit(s);
      assert Characters(delimiters) == {};
    } else {
      var most, last := delimiters[..|delimiters| - 1], delimiters[|delimiters| - 1];
      assert delimiters == most + [last] && last in delimiters;
      SuccessiveIsSplitAt(s, most);
      SuccessiveOneMore(s, most, last);
    }
  }

  lemma SuccessiveOneMore(s: string, most: seq<string>, last: string)
    requires SingleCharacters(most) && |last| == 1
    requires Successive(s, most) == SplitAt(s, Characters(most))
    ensures SingleCharacters(most + [last]) && "" !in most + [last]
    ensures Successive(s, most + [last]) == SplitAt(s, Characters(most + [last]))
  {
    CharactersOfMore(most, last);
    SuccessiveLast(s, most, last);
    SplitTwice(s, Characters(most), last[0]);
    assert last == [last[0]];
  }

  lemma CharactersOfMore(most: seq<string>, last: string)
    requires SingleCharacters(most) && |last| == 1
    ensures SingleCharacters(most + [last]) && Characters(most + [last]) == Characters(most) + {last[0]}
  {
    assert forall d :: d in most + [last] <==> d in most || d == last;
  }

  lemma {:induction false} NothingToSplit(s: string)
    ensures SplitAt(s, {}) == [s]
  {
    if s != "" {
      NothingToSplit(s[1..]);
      assert s == [s[0]] + s[1..];
    }
  }

  function Kept(s: string, cs: set<char>): string {
    if s == "" then "" else (if s[0] in cs then "" else [s[0]]) + Kept(s[1..], cs)
  }

  function Joined(fragments: seq<string>): string {
    if fragments == [] then "" else fragments[0] + Joined(fragments[1..])
  }

  function Count(s: string, cs: set<char>): nat {
    if s == "" then 0 else (if s[0] in cs then 1 else 0) + Count(s[1..], cs)
  }

  predicate Clean(fragments: seq<string>, cs: set<char>) {
    forall f, c :: f in fragments && c in f ==> c !in cs
  }

  lemma JoinedCons(first: string, rest: seq<string>)
    ensures Joined([first] + rest) == first + Joined(rest)
  {
    assert ([first] + rest)[1..] == rest;
  }

  /** No fragment contains a delimiter, nothing else is lost or moved, and each delimiter starts a fragment. */
  lemma {:induction false} FragmentsAreClean(s: string, cs: set<char>)
    ensures Clean(SplitAt(s, cs), cs)
    ensures Joined(SplitAt(s, cs)) == Kept(s, cs)
    ensures |SplitAt(s, cs)| == 1 + Count(s, cs)
  {
    if s != "" {
      var rest := SplitAt(s[1..], cs);
      FragmentsAreClean(s[1..], cs);
      if s[0] in cs {
        JoinedCons("", rest);
      } else {
        assert rest == [rest[0]] + rest[1..];
        JoinedCons(rest[0], rest[1..]);
        JoinedCons([s[0]] + rest[0], rest[1..]);
        assert ([s[0]] + rest[0]) + Joined(rest[1..]) == [s[0]] + (rest[0] + Joined(rest[1..]));
      }
    }
  }

  /** The normalized labels of the fragments that are not blank. */
  function Labels(fragments: seq<string>, norm: string -> string): set<string> {
    set f | f in fragments && norm(f) != "" :: norm(f)
  }

  function Topics(value: string, splitting: bool, delimiters: seq<string>, norm: string -> string): set<string>
    requires "" !in delimiters
  {
    var v := Strip(value);
    if v == "" then {}
    else if !splitting then if norm(v) == "" then {} else {norm(v)}
    else Labels(Successive(v, delimiters), norm)
  }

  /** The topics: of an unsplit text its own label, of a split one the labels of its fragments, but no blank ones. */
  lemma TopicsMeaning(value: string, splitting: bool, delimiters: seq<string>, norm: string -> string, t: string)
    requires "" !in delimiters
    ensures t in Topics(value, splitting, delimiters, norm) <==>
              && Strip(value) != "" && t != ""
              && (if splitting then exists f :: f in Successive(Strip(value), delimiters) && norm(f) == t
                  else norm(Strip(value)) == t)
  {
  }

  lemma SuccessiveTwo(s: string, one: string, two: string)
    requires one != "" && two != ""
    ensures Successive(s, [one, two]) == SplitEach(SplitOn(s, one), two)
  {
    assert [one, two][..1] == [one] && [one][..0] == [];
    SplitEachOne(s, one);
    assert Successive(s, [one]) == SplitEach([s], one);
  }

  lemma SplitEachTwo(a: string, b: string, d: string)
    requires d != ""
    ensures SplitEach([a, b], d) == SplitOn(a, d) + SplitOn(b, d)
  {
    assert [a, b] == [a] + [b];
    SplitEachThen([a], [b], d);
    SplitEachOne(a, d);
    SplitEachOne(b, d);
  }

  // ----- The loops -----

  method SplitFragments(value: string, delimiters: seq<string>) returns (fragments: seq<string>)
    requires "" !in delimiters
    ensures fragments == Successive(value, delimiters)
  {
    fragments := [value];
    for k := 0 to |delimiters|
      invariant fragments == Successive(value, delimiters[..k])
    {
      assert delimiters[..k + 1][..k] == delimiters[..k];
      var expanded := [];
      for i := 0 to |fragments|
        invariant expanded == SplitEach(fragments[..i], delimiters[k])
      {
        assert fragments[..i + 1][..i] == fragments[..i];
        expanded := expanded + SplitOn(fragments[i], delimiters[k]);
      }
      assert fragments[..|fragments|] == fragments;
      fragments := expanded;
    }
    assert delimiters[..|delimiters|] == delimiters;
  }

  method ExtractTopics(value: string, splitting: bool, delimiters: seq<string>, norm: string -> string)
    returns (topics: set<string>)
    requires "" !in delimiters
    ensures topics == Topics(value, splitting, delimiters, norm)
  {
    var v := Strip(value);
    if v == "" {
      return {};
    }
    if !splitting {
      var topic := norm(v);
      return if topic == "" then {} else {topic};
    }
    var fragments := SplitFragments(v, delimiters);
    topics := {};
    for i := 0 to |fragments|
      invariant topics == Labels(fragments[..i], norm)
    {
      assert fragments[..i + 1] == fragments[..i] + [fragments[i]];
      var topic := norm(fragments[i]);
      if topic != "" {
        topics := topics + {topic};
      }
    }
    assert fragments[..|fragments|] == fragments;
  }
}
