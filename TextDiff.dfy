/**
 * The popup's word-membership diff (computeTextDiff): both texts are split on
 * runs of whitespace, and each corrected word is flagged "new" exactly when it
 * occurs nowhere in the original's word list.
 */
module TextDiff {
  import opened KotlinText

  type Word = string

  ghost predicate NoSpace(w: Word) {
    forall i :: 0 <= i < |w| ==> !IsRegexSpace(w[i])
  }

  /**
   * The shape of every result of Split: at least one token, no token holds
   * whitespace, and only the first and the last token may be empty.
   */
  ghost predicate WellFormed(ws: seq<Word>) {
    && |ws| >= 1
    && (forall i :: 0 <= i < |ws| ==> NoSpace(ws[i]))
    && (forall i :: 0 < i < |ws| - 1 ==> ws[i] != "")
  }

  /**
   * Kotlin's `s.split(Regex("\\s+"))`. Unlike Java's String.split, Kotlin keeps
   * empty leading and trailing tokens: "" gives [""], " a" gives ["", "a"] and
   * "a " gives ["a", ""].
   */
  function Split(s: string): (r: seq<Word>)
    ensures WellFormed(r)
    ensures |r| == 1 ==> r[0] == s
    ensures r[0] == "" <==> s == [] || IsRegexSpace(s[0])
  {
    if s == [] then [""]
    else
      var t := Split(s[1..]);
      if IsRegexSpace(s[0]) then
        if |s| > 1 && IsRegexSpace(s[1]) then t else [""] + t
      else
        [[s[0]] + t[0]] + t[1..]
  }

  /** The words separated by single spaces, as the diff's builder appends them. */
  function Join(ws: seq<Word>): string {
    if |ws| == 0 then ""
    else if |ws| == 1 then ws[0]
    else ws[0] + " " + Join(ws[1..])
  }

  /** `s` with every run of whitespace replaced by one space. */
  function Normalize(s: string): string {
    if s == [] then []
    else if IsRegexSpace(s[0]) then
      if |s| > 1 && IsRegexSpace(s[1]) then Normalize(s[1..]) else " " + Normalize(s[1..])
    else [s[0]] + Normalize(s[1..])
  }

  lemma {:induction false} JoinPrependToFirst(c: char, t: seq<Word>)
    requires |t| >= 1
    ensures Join([[c] + t[0]] + t[1..]) == [c] + Join(t)
  {
    var u := [[c] + t[0]] + t[1..];
    assert |u| == |t| && u[0] == [c] + t[0];
    if |t| > 1 {
      assert u[1..] == t[1..];
      calc {
        Join(u);
        u[0] + " " + Join(u[1..]);
        ([c] + t[0]) + " " + Join(t[1..]);
        [c] + (t[0] + " " + Join(t[1..]));
      }
    }
  }

  /** Joining the tokens of a text gives the text with its whitespace runs normalised. */
  lemma {:induction false} JoinSplit(s: string)
    ensures Join(Split(s)) == Normalize(s)
  {
    if s != [] {
      JoinSplit(s[1..]);
      var t := Split(s[1..]);
      if !IsRegexSpace(s[0]) {
        JoinPrependToFirst(s[0], t);
      } else if !(|s| > 1 && IsRegexSpace(s[1])) {
        assert ([""] + t)[1..] == t;
      }
    }
  }

  lemma {:induction false} JoinSnoc(ws: seq<Word>, w: Word)
    requires |ws| >= 1
    ensures Join(ws + [w]) == Join(ws) + " " + w
    decreases |ws|
  {
    var longer := ws + [w];
    assert longer[0] == ws[0] && longer[1..] == ws[1..] + [w];
    if |ws| == 1 {
      assert longer[1..] == [w];
    } else {
      JoinSnoc(ws[1..], w);
      calc {
        Join(longer);
        ws[0] + " " + Join(ws[1..] + [w]);
        ws[0] + " " + (Join(ws[1..]) + " " + w);
        (ws[0] + " " + Join(ws[1..])) + " " + w;
      }
    }
  }

  /** A word without whitespace glues onto the first token of whatever follows it. */
  lemma {:induction false} SplitAfterWord(w: Word, s: string)
    requires NoSpace(w)
    ensures Split(w + s) == [w + Split(s)[0]] + Split(s)[1..]
  {
    if w == [] {
      assert w + s == s;
      assert w + Split(s)[0] == Split(s)[0];
      assert [Split(s)[0]] + Split(s)[1..] == Split(s);
    } else {
      assert (w + s)[1..] == w[1..] + s;
      assert w[1..] + s == (w + s)[1..];
      SplitAfterWord(w[1..], s);
      assert [w[0]] + (w[1..] + Split(s)[0]) == w + Split(s)[0];
    }
  }

  lemma SplitAfterSpace(s: string)
    requires s == [] || !IsRegexSpace(s[0])
    ensures Split(" " + s) == [""] + Split(s)
  {
    assert (" " + s)[1..] == s;
  }

  /** Splitting undoes joining: every well-formed token list is the split of its join. */
  lemma {:induction false} SplitJoin(ws: seq<Word>)
    requires WellFormed(ws)
    ensures Split(Join(ws)) == ws
  {
    if |ws| == 1 {
      SplitWord(ws[0]);
    } else {
      var rest := ws[1..];
      assert WellFormed(rest) by {
        forall i | 0 < i < |rest| - 1 ensures rest[i] != "" { assert rest[i] == ws[i + 1]; }
      }
      var tail := Join(rest);
      assert Split(tail) == rest by { SplitJoin(rest); }
      assert tail == [] || !IsRegexSpace(tail[0]) by {
        if |rest| > 1 { assert rest[0] == ws[1] != ""; assert tail[0] == rest[0][0]; }
      }
      assert Split(ws[0] + " " + tail) == [ws[0]] + rest by { SplitWordSpace(ws[0], tail); }
      assert [ws[0]] + rest == ws;
    }
  }

  lemma SplitWord(a: Word)
    requires NoSpace(a)
    ensures Split(a) == [a]
  {
    SplitAfterWord(a, []);
    assert a + [] == a;
  }

  /** A word, one space and a text that starts with a word split into that word and the text's tokens. */
  lemma SplitWordSpace(a: Word, rest: string)
    requires NoSpace(a) && (rest == [] || !IsRegexSpace(rest[0]))
    ensures Split(a + " " + rest) == [a] + Split(rest)
  {
    var spaced := " " + rest;
    assert a + " " + rest == a + spaced;
    var u := Split(spaced);
    assert u[0] == "" && u[1..] == Split(rest) by {
      SplitAfterSpace(rest);
    }
    assert Split(a + spaced) == [a + u[0]] + u[1..] by {
      SplitAfterWord(a, spaced);
    }
    assert a + u[0] == a;
  }

  /** One word of the corrected text and whether it is highlighted as new. */
  datatype Segment = Segment(word: Word, isNew: bool)

  /** Flags each corrected word by membership in the original word list. */
  function Mark(originalWords: seq<Word>, correctedWords: seq<Word>): (r: seq<Segment>)
    ensures |r| == |correctedWords|
    ensures forall i :: 0 <= i < |r| ==>
      r[i].word == correctedWords[i] && (r[i].isNew <==> correctedWords[i] !in originalWords)
  {
    if correctedWords == [] then []
    else [Segment(correctedWords[0], correctedWords[0] !in originalWords)] + Mark(originalWords, correctedWords[1..])
  }

  /** The diff of two texts: one segment per token of `corrected`. */
  function Diff(original: string, corrected: string): seq<Segment> {
    Mark(Split(original), Split(corrected))
  }

  function Words(segments: seq<Segment>): (ws: seq<Word>)
    ensures |ws| == |segments| && forall i :: 0 <= i < |ws| ==> ws[i] == segments[i].word
  {
    seq(|segments|, i requires 0 <= i < |segments| => segments[i].word)
  }

  /** The plain text of the diff as displayed: its words separated by single spaces. */
  function PlainText(segments: seq<Segment>): string {
    Join(Words(segments))
  }

  /** What the diff's builder holds after appending the first `i` words and their separators. */
  ghost function Built(ws: seq<Word>, i: nat): string
    requires i <= |ws|
  {
    if i == 0 then "" else if i < |ws| then Join(ws[..i]) + " " else Join(ws)
  }

  lemma BuiltStep(ws: seq<Word>, i: nat)
    requires i < |ws|
    ensures Built(ws, i + 1) == Built(ws, i) + ws[i] + (if i < |ws| - 1 then " " else "")
  {
    assert ws[..i + 1] == ws[..i] + [ws[i]];
    if i > 0 {
      JoinSnoc(ws[..i], ws[i]);
    } else {
      assert Join(ws[..1]) == ws[0];
    }
    if i + 1 == |ws| {
      assert ws[..i + 1] == ws;
    }
  }

  /**
   * computeTextDiff: walks the corrected words by index, appending each word
   * (highlighted when new) and a space after every word but the last. `text`
   * is the plain text of the resulting annotated string and `segments` its
   * styled runs.
   */
  method ComputeTextDiff(original: string, corrected: string) returns (text: string, segments: seq<Segment>)
    ensures segments == Diff(original, corrected)
    ensures text == PlainText(segments) == Normalize(corrected)
  {
    var originalWords := Split(original);
    var correctedWords := Split(corrected);
    text, segments := "", [];
    var i := 0;
    while i < |correctedWords|
      invariant 0 <= i <= |correctedWords|
      invariant |segments| == i
      invariant forall k :: 0 <= k < i ==>
        segments[k] == Segment(correctedWords[k], correctedWords[k] !in originalWords)
      invariant text == Built(correctedWords, i)
    {
      var currentWord := correctedWords[i];
      var isChanged := currentWord !in originalWords;
      segments := segments + [Segment(currentWord, isChanged)];
      BuiltStep(correctedWords, i);
      text := text + currentWord;
      if i < |correctedWords| - 1 {
        text := text + " ";
      }
      i := i + 1;
    }
    assert Words(segments) == correctedWords;
    JoinSplit(corrected);
  }

  // ---- Properties of the diff ----

  /** One segment per token of the corrected text, empty edge tokens included. */
  lemma DiffLength(original: string, corrected: string)
    ensures |Diff(original, corrected)| == |Split(corrected)|
  {
  }

  /** Joining the segments reconstructs the corrected text up to whitespace normalisation. */
  lemma DiffPlainText(original: string, corrected: string)
    ensures PlainText(Diff(original, corrected)) == Normalize(corrected)
  {
    assert Words(Diff(original, corrected)) == Split(corrected);
    JoinSplit(corrected);
  }

  /** Nothing is highlighted exactly when every corrected word occurs somewhere in the original. */
  lemma NothingNewIff(original: string, corrected: string)
    ensures (forall i :: 0 <= i < |Diff(original, corrected)| ==> !Diff(original, corrected)[i].isNew)
        <==> (forall w :: w in Split(corrected) ==> w in Split(original))
  {
    var d, cw := Diff(original, corrected), Split(corrected);
    if forall i :: 0 <= i < |d| ==> !d[i].isNew {
      forall w | w in cw ensures w in Split(original) {
        var i :| 0 <= i < |cw| && cw[i] == w;
        assert !d[i].isNew;
      }
    }
    if forall w :: w in cw ==> w in Split(original) {
      forall i | 0 <= i < |d| ensures !d[i].isNew {
        assert cw[i] in cw;
      }
    }
  }

  /** Diffing a text against itself highlights nothing. */
  lemma SelfDiffHighlightsNothing(text: string)
    ensures forall s :: s in Diff(text, text) ==> !s.isNew
  {
  }

  /** Diffing against any reordering of the original's own words highlights nothing. */
  lemma ReorderingHighlightsNothing(original: string, corrected: string)
    requires multiset(Split(corrected)) == multiset(Split(original))
    ensures forall s :: s in Diff(original, corrected) ==> !s.isNew
  {
    var cw := Split(corrected);
    forall i | 0 <= i < |cw| ensures cw[i] in Split(original) {
      assert cw[i] in multiset(cw);
    }
  }

  /**
   * Appending a word to a text highlights only that word, and only when the
   * text does not already contain it (e.g. "The cat sat" against "The cat sat quickly").
   */
  lemma {:induction false} AppendedWordHighlighted(ws: seq<Word>, w: Word)
    requires WellFormed(ws) && ws[|ws| - 1] != "" && w != "" && NoSpace(w)
    ensures Diff(Join(ws), Join(ws) + " " + w) == Mark(ws, ws) + [Segment(w, w !in ws)]
    ensures forall s :: s in Mark(ws, ws) ==> !s.isNew
  {
    var longer := ws + [w];
    assert WellFormed(longer) by {
      assert forall i :: 0 <= i < |ws| ==> longer[i] == ws[i];
    }
    assert Split(Join(ws)) == ws by { SplitJoin(ws); }
    assert Split(Join(ws) + " " + w) == longer by {
      JoinSnoc(ws, w);
      SplitJoin(longer);
    }
    assert Mark(ws, longer) == Mark(ws, ws) + [Segment(w, w !in ws)];
  }

  /** Membership ignores multiplicity: a word repeated in the correction is not new. */
  lemma RepetitionNotHighlighted(w: Word)
    requires NoSpace(w) && w != ""
    ensures Diff(w, w + " " + w) == [Segment(w, false), Segment(w, false)]
  {
    SplitWord(w);
    SplitWordSpace(w, w);
  }

  /** Swapping two words highlights neither ("hello world" against "world hello"). */
  lemma SwappedWordsNotHighlighted(a: Word, b: Word)
    requires NoSpace(a) && NoSpace(b) && a != "" && b != ""
    ensures Diff(a + " " + b, b + " " + a) == [Segment(b, false), Segment(a, false)]
  {
    SplitWord(a);
    SplitWord(b);
    SplitWordSpace(a, b);
    SplitWordSpace(b, a);
  }

  /** Kotlin keeps empty edge tokens: "" gives [""], " w" gives ["", w] and "w " gives [w, ""]. */
  lemma SplitEdgeTokens(w: Word)
    requires NoSpace(w)
    ensures Split("") == [""]
    ensures Split(" " + w) == ["", w]
    ensures Split(w + " ") == [w, ""]
  {
    SplitWord(w);
    assert w == [] || !IsRegexSpace(w[0]);
    SplitAfterSpace(w);
    SplitWordSpace(w, []);
    assert w + " " + [] == w + " ";
  }
}
