/** Text as words: what collapsing everything but letters and digits to single dashes comes to. */
module Words {
  import opened Naming

  predicate AllAlnum(s: string) {
    forall i :: 0 <= i < |s| ==> Alnum(s[i])
  }

  predicate NoAlnum(s: string) {
    forall i :: 0 <= i < |s| ==> !Alnum(s[i])
  }

  /** The letters and digits a text begins with. */
  function Run(s: string): (r: string)
    ensures |r| <= |s| && AllAlnum(r) && r == s[..|r|]
    ensures |r| < |s| ==> !Alnum(s[|r|])
  {
    if s == "" || !Alnum(s[0]) then "" else [s[0]] + Run(s[1..])
  }

  /** The maximal runs of lower-case letters and digits, in order. */
  function WordsOf(s: string): seq<string>
    decreases |s|
  {
    if s == "" then []
    else if !Alnum(s[0]) then WordsOf(s[1..])
    else [Run(s)] + WordsOf(s[|Run(s)|..])
  }

  predicate AreWords(words: seq<string>) {
    forall i :: 0 <= i < |words| ==> words[i] != "" && AllAlnum(words[i])
  }

  /** The words with a dash between any two. */
  function Dashed(words: seq<string>): string {
    if words == [] then "" else if |words| == 1 then words[0] else words[0] + "-" + Dashed(words[1..])
  }

  /** Gaps and words in turn, beginning and ending with a gap. */
  function Woven(gaps: seq<string>, words: seq<string>): string
    requires |gaps| == |words| + 1
  {
    if words == [] then gaps[0] else gaps[0] + words[0] + Woven(gaps[1..], words[1..])
  }

  /** Gaps without letters or digits, none empty between two words. */
  predicate AreGaps(gaps: seq<string>) {
    && (forall i :: 0 <= i < |gaps| ==> NoAlnum(gaps[i]))
    && (forall i :: 0 < i < |gaps| - 1 ==> gaps[i] != "")
  }

  /** A text is its words with what separates them. */
  lemma {:induction false} WordsAreRuns(s: string) returns (gaps: seq<string>)
    ensures AreWords(WordsOf(s)) && |gaps| == |WordsOf(s)| + 1 && AreGaps(gaps) && s == Woven(gaps, WordsOf(s))
    ensures s != "" && Alnum(s[0]) ==> gaps[0] == ""
    decreases |s|
  {
    if s == "" {
      gaps := [""];
    } else if !Alnum(s[0]) {
      var rest := WordsAreRuns(s[1..]);
      gaps := [[s[0]] + rest[0]] + rest[1..];
      LongerGap(s[0], rest, WordsOf(s));
      assert s == [s[0]] + s[1..];
    } else {
      var w := Run(s);
      var rest := WordsAreRuns(s[|w|..]);
      gaps := [""] + rest;
      assert s == w + s[|w|..];
      WordInFront(w, rest, WordsOf(s[|w|..]));
      if |rest| > 1 {
        assert |w| < |s|;
        GapBeforeWord(s[|w|..], rest);
      }
    }
  }

  lemma LongerGap(c: char, gaps: seq<string>, words: seq<string>)
    requires |gaps| == |words| + 1
    ensures Woven([[c] + gaps[0]] + gaps[1..], words) == [c] + Woven(gaps, words)
  {
    var more := [[c] + gaps[0]] + gaps[1..];
    assert more[1..] == gaps[1..];
    if words != [] {
      assert [c] + gaps[0] + words[0] + Woven(gaps[1..], words[1..]) == [c] + (gaps[0] + words[0] + Woven(gaps[1..], words[1..]));
    }
  }

  lemma WordInFront(w: string, gaps: seq<string>, words: seq<string>)
    requires |gaps| == |words| + 1
    ensures Woven([""] + gaps, [w] + words) == w + Woven(gaps, words)
  {
    assert ([""] + gaps)[1..] == gaps && ([w] + words)[1..] == words;
    assert "" + w == w;
  }

  lemma GapBeforeWord(s: string, gaps: seq<string>)
    requires s != "" && !Alnum(s[0]) && |gaps| == |WordsOf(s)| + 1 > 1 && AreWords(WordsOf(s)) && s == Woven(gaps, WordsOf(s))
    ensures gaps[0] != ""
  {
    var words := WordsOf(s);
    var gap, first, rest := gaps[0], words[0], Woven(gaps[1..], words[1..]);
    assert s == gap + first + rest;
    assert first != "" && Alnum(first[0]) && (first + rest)[0] == first[0];
    assert gap == "" ==> s == first + rest;
  }

  // ---- the dashes of the passes ----

  lemma {:induction false} SkipTwice(s: string)
    ensures SkipRun(SkipRun(s, c => !LabelChar(c)), c => !Alnum(c)) == SkipRun(s, c => !Alnum(c))
  {
    if s != "" && !LabelChar(s[0]) {
      SkipTwice(s[1..]);
    }
  }

  lemma {:induction false} SkipDashes(s: string)
    ensures SkipRun(ReplaceRuns(s, c => !LabelChar(c)), c => c == '-') == ReplaceRuns(SkipRun(s, c => !Alnum(c)), c => !LabelChar(c))
    decreases |s|
  {
    if s != "" && !Alnum(s[0]) {
      var bad := (c: char) => !LabelChar(c);
      if LabelChar(s[0]) {
        SkipDashes(s[1..]);
        assert ReplaceRuns(s, bad)[1..] == ReplaceRuns(s[1..], bad);
      } else {
        var rest := SkipRun(s[1..], bad);
        SkipDashes(rest);
        SkipTwice(s[1..]);
        assert ReplaceRuns(s, bad)[1..] == ReplaceRuns(rest, bad);
      }
    }
  }

  /** Replacing what is no label character and then collapsing dashes is one pass. */
  lemma {:induction false} TwoPassesAreOne(s: string)
    ensures ReplaceRuns(ReplaceRuns(s, c => !LabelChar(c)), c => c == '-') == ReplaceRuns(s, c => !Alnum(c))
    decreases |s|
  {
    if s != "" {
      var bad, dash, other := (c: char) => !LabelChar(c), (c: char) => c == '-', (c: char) => !Alnum(c);
      var once := ReplaceRuns(s, bad);
      if Alnum(s[0]) {
        TwoPassesAreOne(s[1..]);
        assert once[1..] == ReplaceRuns(s[1..], bad);
      } else {
        SkipDashes(s);
        TwoPassesAreOne(SkipRun(s[1..], other));
        assert once[0] == '-';
        assert SkipRun(once, dash) == SkipRun(once[1..], dash);
      }
    }
  }

  /** The one pass, and what it skips at a gap. */
  function OnePass(s: string): string {
    ReplaceRuns(s, c => !Alnum(c))
  }

  function Skipped(s: string): string {
    SkipRun(s, c => !Alnum(c))
  }

  lemma OnePassUnrolls(s: string)
    requires s != ""
    ensures OnePass(s) == if Alnum(s[0]) then [s[0]] + OnePass(s[1..]) else "-" + OnePass(Skipped(s[1..]))
    ensures |Skipped(s[1..])| < |s|
  {
  }

  lemma {:induction false} SkippedHasSameWords(s: string)
    ensures WordsOf(Skipped(s)) == WordsOf(s)
    ensures var t := Skipped(s);
      if t == "" then NoAlnum(s) else s != "" && t[|t| - 1] == s[|s| - 1] && Alnum(t[0])
  {
    if s != "" && !Alnum(s[0]) {
      SkippedHasSameWords(s[1..]);
    }
  }

  lemma OneMoreLetter(s: string)
    requires s != "" && Alnum(s[0])
    ensures var rest := WordsOf(s[1..]);
      WordsOf(s) == if |s| > 1 && Alnum(s[1]) then [[s[0]] + rest[0]] + rest[1..] else [[s[0]]] + rest
  {
    var rest := s[1..];
    if |s| > 1 && Alnum(s[1]) {
      assert Run(s) == [s[0]] + Run(rest);
      assert s[|Run(s)|..] == rest[|Run(rest)|..];
    } else {
      assert Run(s) == [s[0]];
    }
  }

  /** The one pass leaves the words with a dash between any two, and a dash at an end where the text
      does not begin or end with a letter or digit. */
  lemma {:induction false} PassLeavesWords(s: string)
    requires s != ""
    ensures OnePass(s) == Ends(WordsOf(s), s)
    decreases |s|
  {
    OnePassUnrolls(s);
    if Alnum(s[0]) {
      if |s| > 1 {
        PassLeavesWords(s[1..]);
      }
      LetterInFront(s);
    } else {
      var t := Skipped(s[1..]);
      SkippedHasSameWords(s[1..]);
      if t != "" {
        PassLeavesWords(t);
        GapInFront(s, t, WordsOf(t));
      } else {
        assert OnePass(t) == "" && WordsOf(s) == [];
      }
    }
  }

  function Last(s: string): string
    requires s != ""
  {
    if Alnum(s[|s| - 1]) then "" else "-"
  }

  function Framed(before: string, d: string, after: string): string {
    before + d + after
  }

  function Ends(words: seq<string>, s: string): string
    requires s != ""
  {
    if words == [] then "-" else Framed(if Alnum(s[0]) then "" else "-", Dashed(words), Last(s))
  }

  lemma GapInFront(s: string, t: string, words: seq<string>)
    requires s != "" && !Alnum(s[0]) && t != "" && Alnum(t[0]) && t[|t| - 1] == s[|s| - 1] && words != []
    ensures Ends(words, s) == "-" + Ends(words, t)
  {
    DashInFront(Dashed(words), Last(s));
  }

  lemma DashInFront(d: string, last: string)
    ensures Framed("-", d, last) == "-" + Framed("", d, last)
  {
  }

  lemma LetterInFront(s: string)
    requires s != "" && Alnum(s[0])
    ensures Ends(WordsOf(s), s) == [s[0]] + if |s| > 1 then Ends(WordsOf(s[1..]), s[1..]) else ""
  {
    OneMoreLetter(s);
    if |s| > 1 {
      assert Last(s[1..]) == Last(s);
      NoWordsNoLetters(s[1..]);
      NextLetter(s[0], s[1..], WordsOf(s[1..]), WordsOf(s));
    } else {
      OneLetter(s, WordsOf(s));
    }
  }

  lemma OneLetter(s: string, words: seq<string>)
    requires |s| == 1 && Alnum(s[0]) && words == [[s[0]]]
    ensures Ends(words, s) == [s[0]] + ""
  {
  }

  /** One more letter before a text either lengthens its first word or is a new one. */
  lemma NextLetter(c: char, t: string, words: seq<string>, more: seq<string>)
    requires t != "" && (Alnum(t[0]) ==> words != [])
    requires more == if Alnum(t[0]) then [[c] + words[0]] + words[1..] else [[c]] + words
    ensures Framed("", Dashed(more), Last(t)) ==
              if words == [] then [c] + Last(t) else [c] + Framed(if Alnum(t[0]) then "" else "-", Dashed(words), Last(t))
  {
    if Alnum(t[0]) {
      DashedLonger(c, words);
      LetterBefore(c, "", Dashed(words), Last(t));
    } else if words != [] {
      assert more[1..] == words;
      LetterBefore(c, "-", Dashed(words), Last(t));
    }
  }

  lemma LetterBefore(c: char, before: string, d: string, after: string)
    ensures Framed("", [c] + before + d, after) == [c] + Framed(before, d, after)
  {
    assert [c] + "" + d == [c] + d;
  }

  lemma DashedLonger(c: char, words: seq<string>)
    requires words != []
    ensures Dashed([[c] + words[0]] + words[1..]) == [c] + Dashed(words)
  {
    assert ([[c] + words[0]] + words[1..])[1..] == words[1..];
  }

  lemma {:induction false} NoWordsNoLetters(s: string)
    ensures WordsOf(s) == [] ==> NoAlnum(s)
  {
    if s != "" && !Alnum(s[0]) {
      NoWordsNoLetters(s[1..]);
    }
  }

  lemma {:induction false} DashedEnds(words: seq<string>)
    requires AreWords(words) && words != []
    ensures var d := Dashed(words); d != "" && Alnum(d[0]) && Alnum(d[|d| - 1])
  {
    assert words[0] != "" && AllAlnum(words[0]);
    if |words| > 1 {
      DashedEnds(words[1..]);
    }
  }

  lemma TrimDashes(d: string, before: bool, after: bool)
    requires d != "" && d[0] != '-' && d[|d| - 1] != '-'
    ensures Trim((if before then "-" else "") + d + (if after then "-" else "")) == d
  {
    var right := d + (if after then "-" else "");
    assert TrimLeft(right) == right;
    assert ("-" + right)[1..] == right;
    assert (if before then "-" else "") + d + (if after then "-" else "") == (if before then "-" else "") + right;
    assert "" + right == right;
    DashAtTheEnd(d);
    assert d + "" == d;
  }

  lemma DashAtTheEnd(d: string)
    requires d != "" && d[|d| - 1] != '-'
    ensures TrimRight(d) == d && TrimRight(d + "-") == d
  {
    assert (d + "-")[..|d + "-"| - 1] == d;
  }

  /** What is left after trimming: the words with one dash between any two, nothing else. */
  lemma PassTrimmed(s: string)
    ensures Trim(ReplaceRuns(s, c => !Alnum(c))) == Dashed(WordsOf(s))
  {
    assert OnePass(s) == ReplaceRuns(s, c => !Alnum(c));
    if s != "" {
      PassLeavesWords(s);
      var gaps := WordsAreRuns(s);
      if WordsOf(s) != [] {
        DashedEnds(WordsOf(s));
        TrimDashes(Dashed(WordsOf(s)), !Alnum(s[0]), !Alnum(s[|s| - 1]));
      } else {
        assert TrimLeft("-") == TrimLeft("");
      }
    }
  }

  /** A label is the words of the lower-cased text with single dashes, cut at 63 without a dash left
      at the cut. */
  lemma SanitizedIsDashedWords(s: string)
    ensures var d := Dashed(WordsOf(Lower(s)));
      Sanitize(s) == if |d| <= 63 then d else if d[62] == '-' then d[..62] else d[..63]
  {
    TwoPassesAreOne(Lower(s));
    PassTrimmed(Lower(s));
    var d := Dashed(WordsOf(Lower(s)));
    CollapsedShape(s);
    TrimLeftShape(Collapsed(s));
    TrimRightShape(TrimLeft(Collapsed(s)));
    assert NoDoubleDash(d) && (d != "" ==> d[|d| - 1] != '-');
    if |d| > 63 && d[62] == '-' {
      assert d[61] != '-';
      DashAtTheEnd(d[..62]);
      assert d[..62] + "-" == d[..63];
    } else if |d| > 63 {
      DashAtTheEnd(d[..63]);
    } else if d != "" {
      DashAtTheEnd(d);
    }
  }

  /** Latin capitals become small letters; small letters and digits stay. */
  lemma CapitalsBecomeSmall()
    ensures Lower("ABCDEFGHIJKLMNOPQRSTUVWXYZ") == "abcdefghijklmnopqrstuvwxyz"
    ensures Lower("abcdefghijklmnopqrstuvwxyz0123456789") == "abcdefghijklmnopqrstuvwxyz0123456789"
  {
  }

  // ---- words and their dashed form ----

  lemma {:induction false} RunOfWord(w: string, rest: string)
    requires AllAlnum(w) && (rest == "" || !Alnum(rest[0]))
    ensures Run(w + rest) == w
  {
    if w == "" {
      assert w + rest == rest;
    } else {
      assert (w + rest)[1..] == w[1..] + rest;
      RunOfWord(w[1..], rest);
    }
  }

  /** The dashed form keeps the words. */
  lemma {:induction false} WordsComeBack(words: seq<string>)
    requires AreWords(words)
    ensures WordsOf(Dashed(words)) == words
  {
    if words != [] {
      var w := words[0];
      assert w != "" && Alnum(w[0]);
      if |words| == 1 {
        RunOfWord(w, "");
        assert w + "" == w && w[|w|..] == "";
      } else {
        var rest := "-" + Dashed(words[1..]);
        RunOfWord(w, rest);
        assert Dashed(words) == w + rest && (w + rest)[|w|..] == rest && rest[1..] == Dashed(words[1..]);
        WordsComeBack(words[1..]);
      }
    }
  }

  lemma DashedIsInjective(a: seq<string>, b: seq<string>)
    requires AreWords(a) && AreWords(b)
    ensures Dashed(a) == Dashed(b) <==> a == b
  {
    WordsComeBack(a);
    WordsComeBack(b);
  }
}
