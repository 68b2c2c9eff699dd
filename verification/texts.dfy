/** The two ways the pipeline normalizes text: trimming the ends, and joining the words by single spaces. */
module Texts {
  predicate IsSpace(c: char) {
    || c in {' ', '\t', '\n', '\r'}
    || c in {'\U{000B}', '\U{000C}', '\U{001C}', '\U{001D}', '\U{001E}', '\U{001F}', '\U{0085}', '\U{00A0}', '\U{1680}'}
    || '\U{2000}' <= c <= '\U{200A}'
    || c in {'\U{2028}', '\U{2029}', '\U{202F}', '\U{205F}', '\U{3000}'}
  }

  /** The range of typographic blanks, ends included. */
  lemma TypographicBlanks()
    ensures IsSpace('\U{2000}') && IsSpace('\U{200A}') && !IsSpace('\U{1FFF}') && !IsSpace('\U{200B}')
  {
  }

  function DropLeading(s: string): string {
    if s != "" && IsSpace(s[0]) then DropLeading(s[1..]) else s
  }

  function DropTrailing(s: string): string {
    if s != "" && IsSpace(s[|s| - 1]) then DropTrailing(s[..|s| - 1]) else s
  }

  function Strip(s: string): string {
    DropTrailing(DropLeading(s))
  }

  function WordLength(s: string): (n: nat)
    ensures n <= |s|
    ensures s != "" && !IsSpace(s[0]) ==> n > 0
  {
    if s == "" || IsSpace(s[0]) then 0 else 1 + WordLength(s[1..])
  }

  lemma {:induction false} DropLeadingShrinks(s: string)
    ensures |DropLeading(s)| <= |s|
    ensures DropLeading(s) == "" || !IsSpace(DropLeading(s)[0])
  {
    if s != "" && IsSpace(s[0]) {
      DropLeadingShrinks(s[1..]);
    }
  }

  function Words(s: string): seq<string>
    decreases |s|
  {
    DropLeadingShrinks(s);
    var t := DropLeading(s);
    if t == "" then [] else [t[..WordLength(t)]] + Words(t[WordLength(t)..])
  }

  function Join(words: seq<string>): string {
    if words == [] then "" else if |words| == 1 then words[0] else words[0] + " " + Join(words[1..])
  }

  function Collapse(s: string): string {
    Join(Words(s))
  }

  /** Trimming the end keeps a text that begins with a visible character, and is then stable. */
  lemma {:induction false} DropTrailingKeepsStart(s: string)
    ensures DropTrailing(s) <= s
    ensures s != "" && !IsSpace(s[0]) ==> DropTrailing(s) != ""
    ensures DropTrailing(DropTrailing(s)) == DropTrailing(s)
  {
    if s != "" && IsSpace(s[|s| - 1]) {
      DropTrailingKeepsStart(s[..|s| - 1]);
    }
  }

  /** Normalizing an already trimmed text changes nothing. */
  lemma StripTwice(s: string)
    ensures Strip(Strip(s)) == Strip(s)
  {
    var t := DropLeading(s);
    DropLeadingShrinks(s);
    DropTrailingKeepsStart(t);
    assert DropTrailing(t) != "" ==> DropTrailing(t)[0] == t[0];
  }

  /** A text is blank for one normalization exactly when it is blank for the other. */
  lemma BlankEitherWay(s: string)
    ensures Collapse(s) == "" <==> Strip(s) == ""
  {
    var t := DropLeading(s);
    DropLeadingShrinks(s);
    DropTrailingKeepsStart(t);
    if t != "" {
      var first := t[..WordLength(t)];
      var rest := Words(t[WordLength(t)..]);
      assert Words(s) == [first] + rest && Words(s)[0] == first && |first| > 0;
      assert Words(s)[1..] == rest;
    }
  }

  // ----- What the two normalizations keep -----

  lemma {:induction false} DropLeadingMeaning(s: string) returns (i: nat)
    ensures i <= |s| && DropLeading(s) == s[i..] && forall k :: 0 <= k < i ==> IsSpace(s[k])
  {
    i := 0;
    if s != "" && IsSpace(s[0]) {
      var j := DropLeadingMeaning(s[1..]);
      i := j + 1;
      assert forall k :: 0 < k < i ==> s[k] == s[1..][k - 1];
    }
  }

  lemma {:induction false} DropTrailingMeaning(s: string) returns (j: nat)
    ensures j <= |s| && DropTrailing(s) == s[..j] && (forall k :: j <= k < |s| ==> IsSpace(s[k]))
    ensures j > 0 ==> !IsSpace(s[j - 1])
  {
    j := |s|;
    if s != "" && IsSpace(s[|s| - 1]) {
      j := DropTrailingMeaning(s[..|s| - 1]);
    }
  }

  /** Trimming cuts whitespace off both ends, and all of it. */
  lemma StripMeaning(s: string) returns (i: nat, j: nat)
    ensures i <= j <= |s| && Strip(s) == s[i..j]
    ensures forall k :: 0 <= k < i || j <= k < |s| ==> IsSpace(s[k])
    ensures i < j ==> !IsSpace(s[i]) && !IsSpace(s[j - 1])
  {
    i := DropLeadingMeaning(s);
    DropLeadingShrinks(s);
    var t := DropLeading(s);
    var n := DropTrailingMeaning(t);
    j := i + n;
    assert t[..n] == s[i..j];
    assert forall k :: j <= k < |s| ==> s[k] == t[k - i];
  }

  predicate IsWord(w: string) {
    w != "" && forall c :: c in w ==> !IsSpace(c)
  }

  /** The visible characters, in order. */
  function VisibleOf(s: string): string {
    if s == "" then "" else (if IsSpace(s[0]) then "" else [s[0]]) + VisibleOf(s[1..])
  }

  function Concatenated(words: seq<string>): string {
    if words == [] then "" else words[0] + Concatenated(words[1..])
  }

  lemma {:induction false} VisibleOfLeading(s: string)
    ensures VisibleOf(DropLeading(s)) == VisibleOf(s)
  {
    if s != "" && IsSpace(s[0]) {
      VisibleOfLeading(s[1..]);
    }
  }

  lemma {:induction false} FirstWord(s: string)
    ensures forall k :: 0 <= k < WordLength(s) ==> !IsSpace(s[k])
    ensures WordLength(s) < |s| ==> IsSpace(s[WordLength(s)])
  {
    if s != "" && !IsSpace(s[0]) {
      FirstWord(s[1..]);
      forall k | 0 < k < WordLength(s)
        ensures !IsSpace(s[k])
      {
        assert s[k] == s[1..][k - 1];
      }
    }
  }

  lemma {:induction false} VisibleOfWord(s: string, n: nat)
    requires n <= |s| && forall k :: 0 <= k < n ==> !IsSpace(s[k])
    ensures VisibleOf(s) == s[..n] + VisibleOf(s[n..])
  {
    if n > 0 {
      var t := s[1..];
      assert forall k :: 0 <= k < n - 1 ==> t[k] == s[k + 1];
      VisibleOfWord(t, n - 1);
      var (head, tail) := (t[..n - 1], VisibleOf(t[n - 1..]));
      assert VisibleOf(s) == [s[0]] + (head + tail) == ([s[0]] + head) + tail;
      assert s[..n] == [s[0]] + head && s[n..] == t[n - 1..];
    } else {
      assert s[..0] == "" && s[0..] == s;
    }
  }

  /** The words are the visible characters, cut into pieces without whitespace. */
  lemma {:induction false} WordsMeaning(s: string)
    ensures (forall w :: w in Words(s) ==> IsWord(w)) && Concatenated(Words(s)) == VisibleOf(s)
    decreases |s|
  {
    DropLeadingShrinks(s);
    VisibleOfLeading(s);
    var t := DropLeading(s);
    if t != "" {
      var n := WordLength(t);
      FirstWord(t);
      VisibleOfWord(t, n);
      WordsMeaning(t[n..]);
      assert Words(s) == [t[..n]] + Words(t[n..]);
      assert Words(s)[1..] == Words(t[n..]);
    }
  }

  lemma {:induction false} WordThenSpace(w: string, rest: string)
    requires (forall c :: c in w ==> !IsSpace(c)) && (rest == "" || IsSpace(rest[0]))
    ensures WordLength(w + rest) == |w|
  {
    if w == "" {
      assert w + rest == rest;
    } else {
      assert (w + rest)[1..] == w[1..] + rest;
      WordThenSpace(w[1..], rest);
    }
  }

  lemma WordsStep(w: string, rest: string)
    requires IsWord(w) && (rest == "" || IsSpace(rest[0]))
    ensures Words(w + rest) == [w] + Words(rest)
  {
    var s := w + rest;
    assert s[0] == w[0] && w[0] in w && DropLeading(s) == s;
    WordThenSpace(w, rest);
    assert s[..|w|] == w && s[|w|..] == rest;
  }

  lemma SpaceFirst(rest: string)
    ensures Words(" " + rest) == Words(rest)
  {
    assert (" " + rest)[1..] == rest && DropLeading(" " + rest) == DropLeading(rest);
  }

  /** Joining words and splitting again gives the words back. */
  lemma {:induction false} JoinedWords(words: seq<string>)
    requires forall w :: w in words ==> IsWord(w)
    ensures Words(Join(words)) == words
  {
    if |words| == 1 {
      WordsStep(words[0], "");
      assert words[0] + "" == words[0] && Words("") == [] && words == [words[0]];
    } else if words != [] {
      var rest := words[1..];
      JoinedWords(rest);
      WordsStep(words[0], " " + Join(rest));
      SpaceFirst(Join(rest));
      assert words[0] + " " + Join(rest) == words[0] + (" " + Join(rest));
      assert words == [words[0]] + rest;
    }
  }

  /** Word-joining keeps exactly the words, and joining again changes nothing. */
  lemma CollapseKeepsTheWords(s: string)
    ensures Words(Collapse(s)) == Words(s) && Collapse(Collapse(s)) == Collapse(s)
    ensures Concatenated(Words(Collapse(s))) == VisibleOf(s)
  {
    WordsMeaning(s);
    JoinedWords(Words(s));
  }

  /** Between two words there is one blank. */
  lemma JoinMeaning(first: string, second: string, rest: seq<string>)
    ensures Join([]) == "" && Join([first]) == first
    ensures Join([first, second] + rest) == first + " " + Join([second] + rest)
  {
    var words := [first, second] + rest;
    assert words[1..] == [second] + rest;
  }
}
