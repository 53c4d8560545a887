/**
 * Trimming, collapsing of blanks, and splitting, as `StreamSelector::fromString`
 * uses them, and how the three together find the words of a line.
 */
module Words {
  import opened Text

  function TrimLeft(s: string): string {
    if s != "" && IsSpace(s[0]) then TrimLeft(s[1..]) else s
  }

  function TrimRight(s: string): string {
    if s != "" && IsSpace(s[|s| - 1]) then TrimRight(s[..|s| - 1]) else s
  }

  function Trim(s: string): string {
    TrimRight(TrimLeft(s))
  }

  /** Every run of blanks is reduced to one blank. */
  function Collapse(s: string): string {
    if |s| < 2 then s
    else if s[0] == ' ' && s[1] == ' ' then Collapse(s[1..])
    else [s[0]] + Collapse(s[1..])
  }

  predicate IsSeparator(c: char) {
    c == ' ' || c == '\t'
  }

  /** `boost::split` without token compression: n separators give n + 1 tokens. */
  function Split(s: string): (tokens: seq<string>)
    ensures |tokens| > 0
  {
    if s == "" then [""]
    else
      var rest := Split(s[1..]);
      if IsSeparator(s[0]) then [""] + rest else [[s[0]] + rest[0]] + rest[1..]
  }

  function NonEmpty(tokens: seq<string>): seq<string> {
    if tokens == [] then []
    else (if tokens[0] == "" then [] else [tokens[0]]) + NonEmpty(tokens[1..])
  }

  /** The maximal runs of non-separators, in order. */
  function WordsOf(s: string): seq<string> {
    NonEmpty(Split(s))
  }

  /** The only white space in the text is the blank. */
  predicate OnlyBlanks(s: string) {
    forall c :: c in s && IsSpace(c) ==> c == ' '
  }

  /** The only white space in the text is what separates tokens. */
  predicate OnlySeparators(s: string) {
    forall c :: c in s && IsSpace(c) ==> IsSeparator(c)
  }

  /** Two separators in a row are two blanks. */
  predicate NoTabBesideSeparator(s: string) {
    |s| < 2 || ((IsSeparator(s[0]) && IsSeparator(s[1]) ==> s[0] == s[1] == ' ') && NoTabBesideSeparator(s[1..]))
  }

  /** Only blanks are repeated between the words of the line. */
  predicate WellSpaced(s: string) {
    OnlySeparators(s) && NoTabBesideSeparator(Trim(s))
  }

  predicate IsWord(s: string) {
    s != "" && forall c :: c in s ==> !IsSpace(c)
  }

  function Unwords(words: seq<string>): string {
    if |words| == 0 then ""
    else if |words| == 1 then words[0]
    else words[0] + [' '] + Unwords(words[1..])
  }

  // The in-place loop.

  /** The erase loop of `fromString`: it ends because each round shrinks what is left to scan. */
  method CollapseInPlace(s: string) returns (text: string)
    ensures text == Collapse(s)
  {
    text := s;
    var k := 1;
    while k < |text|
      invariant 1 <= k
      invariant text == "" ==> s == ""
      invariant text != "" ==> k <= |text| && Collapse(s) == text[..k - 1] + Collapse(text[k - 1..])
      decreases |text| - k
    {
      var tail := text[k - 1..];
      if text[k - 1] == text[k] && text[k] == ' ' {
        text := text[..k] + text[k + 1..];
        assert text[k - 1..] == tail[1..];
      } else {
        assert text[k..] == tail[1..];
        assert text[..k] == text[..k - 1] + [text[k - 1]];
        k := k + 1;
      }
    }
  }

  // Collapsing keeps the words.

  lemma NonEmptyConcat(a: seq<string>, b: seq<string>)
    ensures NonEmpty(a + b) == NonEmpty(a) + NonEmpty(b)
  {
    if a == [] {
      assert a + b == b;
    } else {
      assert (a + b)[1..] == a[1..] + b;
    }
  }

  lemma {:induction false} SplitConcat(a: string, c: char, b: string)
    requires IsSeparator(c)
    ensures Split(a + [c] + b) == Split(a) + Split(b)
  {
    if a == "" {
      assert (a + [c] + b)[1..] == b;
    } else {
      assert (a + [c] + b)[1..] == a[1..] + [c] + b;
      SplitConcat(a[1..], c, b);
    }
  }

  lemma {:induction false} SplitWord(s: string)
    requires forall c :: c in s ==> !IsSeparator(c)
    ensures Split(s) == [s]
  {
    if s != "" {
      assert s[0] in s;
      SplitWord(s[1..]);
      assert s == [s[0]] + s[1..];
    }
  }

  lemma {:induction false} CollapseKeepsWords(s: string)
    ensures Split(Collapse(s))[0] == Split(s)[0]
    ensures NonEmpty(Split(Collapse(s))[1..]) == NonEmpty(Split(s)[1..])
  {
    if |s| >= 2 {
      CollapseKeepsWords(s[1..]);
      var rest, rest' := Split(s[1..]), Split(Collapse(s[1..]));
      assert NonEmpty(rest) == NonEmpty(rest');
      if s[0] == ' ' && s[1] == ' ' {
        assert Split(s)[1..] == rest;
        assert rest[0] == "";
      } else {
        var t := Collapse(s);
        assert t[1..] == Collapse(s[1..]);
        if IsSeparator(s[0]) {
          assert Split(s)[1..] == rest && Split(t)[1..] == rest';
        } else {
          assert Split(s)[1..] == rest[1..] && Split(t)[1..] == rest'[1..];
        }
      }
    }
  }

  // Trimming keeps the words.

  lemma {:induction false} TrimLeftKeepsWords(s: string)
    requires OnlySeparators(s)
    ensures WordsOf(TrimLeft(s)) == WordsOf(s) && OnlySeparators(TrimLeft(s))
  {
    if s != "" && IsSpace(s[0]) {
      assert s[0] in s;
      TrimLeftKeepsWords(s[1..]);
      assert Split(s)[1..] == Split(s[1..]);
    }
  }

  lemma {:induction false} TrimRightKeepsWords(s: string)
    requires OnlySeparators(s)
    ensures WordsOf(TrimRight(s)) == WordsOf(s)
  {
    if s != "" && IsSpace(s[|s| - 1]) {
      var front, last := s[..|s| - 1], s[|s| - 1];
      assert last in s;
      TrimRightKeepsWords(front);
      assert s == front + [last] + "";
      SplitConcat(front, last, "");
      NonEmptyConcat(Split(front), [""]);
    }
  }

  // When the preprocessed text has no empty tokens.

  /** No two separators in a row. */
  predicate Single(s: string) {
    |s| < 2 || (!(IsSeparator(s[0]) && IsSeparator(s[1])) && Single(s[1..]))
  }

  lemma TrimEnds(s: string)
    ensures var t := Trim(s);
            && (t != "" ==> !IsSpace(t[0]) && !IsSpace(t[|t| - 1]))
            && (forall c :: c in t ==> c in s)
  {
    TrimLeftEnds(s);
    TrimRightEnds(TrimLeft(s));
  }

  lemma TrimLeftEnds(s: string)
    ensures TrimLeft(s) != "" ==> !IsSpace(TrimLeft(s)[0])
    ensures forall c :: c in TrimLeft(s) ==> c in s
  {
  }

  lemma {:induction false} TrimRightEnds(s: string)
    ensures var t := TrimRight(s);
            && (t != "" ==> !IsSpace(t[|t| - 1]) && t[0] == s[0])
            && (forall c :: c in t ==> c in s)
  {
    if s != "" && IsSpace(s[|s| - 1]) {
      TrimRightEnds(s[..|s| - 1]);
    }
  }

  /** Collapsing leaves single separators exactly when no tab stands beside another separator. */
  lemma {:induction false} CollapseIsSingle(s: string)
    ensures Single(Collapse(s)) <==> NoTabBesideSeparator(s)
    ensures Collapse(s) == "" <==> s == ""
    ensures s != "" ==> Collapse(s)[0] == s[0] && Collapse(s)[|Collapse(s)| - 1] == s[|s| - 1]
  {
    if |s| >= 2 {
      CollapseIsSingle(s[1..]);
      if !(s[0] == ' ' && s[1] == ' ') {
        assert Collapse(s)[1..] == Collapse(s[1..]);
      }
    }
  }

  /** The tokens after the first are all non-empty exactly when separators are single and none is last. */
  lemma {:induction false} LaterTokens(s: string)
    ensures NonEmpty(Split(s)[1..]) == Split(s)[1..] <==> Single(s) && (s != "" ==> !IsSeparator(s[|s| - 1]))
    ensures Split(s)[0] == "" <==> s == "" || IsSeparator(s[0])
  {
    if s != "" {
      var rest := s[1..];
      LaterTokens(rest);
      if IsSeparator(s[0]) {
        assert Split(s)[1..] == Split(rest);
        FullTokens(Split(rest));
      } else {
        assert Split(s)[1..] == Split(rest)[1..];
      }
    }
  }

  lemma FullTokens(tokens: seq<string>)
    requires tokens != []
    ensures NonEmpty(tokens) == tokens <==> tokens[0] != "" && NonEmpty(tokens[1..]) == tokens[1..]
  {
    NonEmptyShrinks(tokens[1..]);
    if tokens[0] != "" {
      assert NonEmpty(tokens)[1..] == NonEmpty(tokens[1..]);
      assert tokens == [tokens[0]] + tokens[1..];
    }
  }

  lemma NonEmptyShrinks(tokens: seq<string>)
    ensures |NonEmpty(tokens)| <= |tokens|
  {
  }

  lemma PreprocessingKeepsWords(s: string)
    requires OnlySeparators(s)
    ensures WordsOf(Collapse(Trim(s))) == WordsOf(s)
    ensures Trim(s) == "" <==> WordsOf(s) == []
  {
    TrimLeftKeepsWords(s);
    TrimRightKeepsWords(TrimLeft(s));
    TrimEnds(s);
    var t := Trim(s);
    CollapseKeepsWords(t);
    LaterTokens(t);
  }

  /**
   * For a line of words, blanks and tabs: trimming, collapsing and splitting gives
   * exactly its words if and only if it has any and no tab stands beside another
   * separator between them.
   */
  lemma TokensAreWordsExactly(s: string)
    requires OnlySeparators(s)
    ensures Split(Collapse(Trim(s))) == WordsOf(s) <==> WordsOf(s) != [] && WellSpaced(s)
  {
    var t := Trim(s);
    var u := Collapse(t);
    PreprocessingKeepsWords(s);
    TrimEnds(s);
    CollapseIsSingle(t);
    LaterTokens(u);
    FullTokens(Split(u));
  }

  /** With blanks alone that is always so, but for the one empty token of an empty line. */
  lemma PreprocessingFindsWords(s: string)
    requires OnlyBlanks(s) || WellSpaced(s)
    ensures Split(Collapse(Trim(s))) == if WordsOf(s) == [] then [""] else WordsOf(s)
    ensures Collapse(Trim(s)) == "" <==> WordsOf(s) == []
  {
    if OnlyBlanks(s) {
      BlanksAreWellSpaced(s);
    }
    PreprocessingKeepsWords(s);
    TokensAreWordsExactly(s);
    CollapseIsSingle(Trim(s));
  }

  lemma BlanksAreWellSpaced(s: string)
    requires OnlyBlanks(s)
    ensures WellSpaced(s)
  {
    TrimEnds(s);
    NoTabs(Trim(s));
  }

  lemma {:induction false} NoTabs(s: string)
    requires OnlyBlanks(s)
    ensures NoTabBesideSeparator(s)
  {
    if |s| >= 2 {
      assert s[0] in s && s[1] in s;
      NoTabs(s[1..]);
    }
  }

  /** Writing words with one blank between them and reading them back gives the words. */
  lemma {:induction false} WordsRoundTrip(words: seq<string>)
    requires forall w :: w in words ==> IsWord(w)
    ensures WordsOf(Unwords(words)) == words
    ensures OnlyBlanks(Unwords(words))
  {
    if |words| > 0 {
      var w := words[0];
      assert w in words;
      forall c | c in w ensures !IsSeparator(c) {
        assert !IsSpace(c);
      }
      SplitWord(w);
      if |words| > 1 {
        WordsRoundTrip(words[1..]);
        SplitConcat(w, ' ', Unwords(words[1..]));
        NonEmptyConcat([w], Split(Unwords(words[1..])));
        assert words == [w] + words[1..];
      } else {
        assert words == [w] && [w][1..] == [];
        assert NonEmpty([w]) == [w];
      }
    }
  }

  /** Every word is free of white space. */
  lemma {:induction false} WordsAreWords(s: string)
    requires OnlySeparators(s)
    ensures forall w :: w in WordsOf(s) ==> IsWord(w)
  {
    TokensHoldNoBlanks(s);
    NonEmptyMembers(Split(s));
  }

  lemma {:induction false} TokensHoldNoBlanks(s: string)
    requires OnlySeparators(s)
    ensures forall w, c :: w in Split(s) && c in w ==> !IsSpace(c)
  {
    if s != "" {
      assert s[0] in s;
      TokensHoldNoBlanks(s[1..]);
      var rest := Split(s[1..]);
      assert rest[0] in rest;
    }
  }

  lemma {:induction false} NonEmptyMembers(tokens: seq<string>)
    ensures forall w :: w in NonEmpty(tokens) ==> w in tokens && w != ""
  {
    if tokens != [] {
      NonEmptyMembers(tokens[1..]);
    }
  }

  lemma TrimOfWord(s: string)
    requires forall c :: c in s ==> !IsSpace(c)
    ensures Trim(s) == s
  {
    if s != "" {
      assert s[0] in s && s[|s| - 1] in s;
    }
  }
}
