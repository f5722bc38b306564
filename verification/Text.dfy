/** The string operations of the source language that two algorithms rely on:
    strip() and split() on white space. */
module Text {
  import opened Wrappers

  /** White space as the source language has it. */
  predicate IsSpace(c: char) {
    var n := c as int;
    9 <= n <= 13 || 28 <= n <= 32 || n == 0x85 || n == 0xA0 || n == 0x1680 || 0x2000 <= n <= 0x200A ||
    n == 0x2028 || n == 0x2029 || n == 0x202F || n == 0x205F || n == 0x3000
  }

  function StripLeft(s: string): string {
    if s != "" && IsSpace(s[0]) then StripLeft(s[1..]) else s
  }

  function StripRight(s: string): string {
    if s != "" && IsSpace(s[|s|-1]) then StripRight(s[..|s|-1]) else s
  }

  function Strip(s: string): string {
    StripRight(StripLeft(s))
  }

  /** Not empty, and no white space at either end. */
  predicate Trimmed(s: string) {
    s != "" && !IsSpace(s[0]) && !IsSpace(s[|s|-1])
  }

  lemma {:induction false} StripRightTrims(s: string)
    requires s == "" || !IsSpace(s[0])
    ensures StripRight(s) == "" || Trimmed(StripRight(s))
    ensures StripRight(s) <= s && AllSpaces(s[|StripRight(s)|..])
    decreases |s|
  {
    if s != "" && IsSpace(s[|s|-1]) {
      var init := s[..|s|-1];
      StripRightTrims(init);
      assert s[|StripRight(s)|..] == init[|StripRight(init)|..] + [s[|s|-1]];
    }
  }

  lemma {:induction false} StripLeftTrims(s: string)
    ensures StripLeft(s) == "" || !IsSpace(StripLeft(s)[0])
    ensures |StripLeft(s)| <= |s| && s[|s| - |StripLeft(s)|..] == StripLeft(s)
    ensures AllSpaces(s[..|s| - |StripLeft(s)|])
    decreases |s|
  {
    if s != "" && IsSpace(s[0]) {
      var rest := s[1..];
      StripLeftTrims(rest);
      assert s[..|s| - |StripLeft(s)|] == [s[0]] + rest[..|rest| - |StripLeft(rest)|];
    }
  }

  /** What strip() leaves is empty or trimmed, and is a part of what it got. */
  lemma StripTrims(s: string)
    ensures Strip(s) == "" || Trimmed(Strip(s))
    ensures exists a, b :: 0 <= a <= b <= |s| && Strip(s) == s[a..b] && AllSpaces(s[..a]) && AllSpaces(s[b..])
  {
    StripLeftTrims(s);
    StripRightTrims(StripLeft(s));
    var a := |s| - |StripLeft(s)|;
    var b := a + |Strip(s)|;
    assert Strip(s) == s[a..b];
    assert s[b..] == StripLeft(s)[|Strip(s)|..];
  }

  predicate AllSpaces(s: string) {
    forall i :: 0 <= i < |s| ==> IsSpace(s[i])
  }

  /** White space is the blank, the tab and the line ends, four separators, and beyond
      ASCII the next-line character and the spaces of Unicode. */
  lemma SpacesAre(c: char)
    ensures IsSpace(c) <==>
      c == ' ' || c == '\t' || c == '\n' || c == '\r' || c as int in {11, 12, 28, 29, 30, 31} ||
      c as int in {0x85, 0xA0, 0x1680, 0x2028, 0x2029, 0x202F, 0x205F, 0x3000} || c as int in {0x2000, 0x2001, 0x2002} ||
      c as int in {0x2003, 0x2004, 0x2005, 0x2006, 0x2007, 0x2008, 0x2009, 0x200A}
  {
  }

  // ---- words

  predicate IsWord(w: string) {
    w != "" && forall i :: 0 <= i < |w| ==> !IsSpace(w[i])
  }

  /** How many characters before the first space. */
  function WordLength(s: string): (n: nat)
    ensures n <= |s| && (forall i :: 0 <= i < n ==> !IsSpace(s[i])) && (n == |s| || IsSpace(s[n]))
  {
    if s == "" || IsSpace(s[0]) then 0 else 1 + WordLength(s[1..])
  }

  function Words(s: string): (ws: seq<string>)
    ensures forall i :: 0 <= i < |ws| ==> IsWord(ws[i])
    decreases |s|
  {
    if s == "" then []
    else if IsSpace(s[0]) then Words(s[1..])
    else
      var n := WordLength(s);
      [s[..n]] + Words(s[n..])
  }

  /** The text without its white space. */
  function NoSpaces(s: string): string {
    if s == "" then "" else (if IsSpace(s[0]) then "" else [s[0]]) + NoSpaces(s[1..])
  }

  lemma {:induction false} WordHasNoSpaces(w: string, rest: string)
    requires forall i :: 0 <= i < |w| ==> !IsSpace(w[i])
    ensures NoSpaces(w + rest) == w + NoSpaces(rest)
  {
    if w == "" {
      assert w + rest == rest;
    } else {
      assert (w + rest)[1..] == w[1..] + rest && [w[0]] + w[1..] == w;
      WordHasNoSpaces(w[1..], rest);
      assert [w[0]] + (w[1..] + NoSpaces(rest)) == w + NoSpaces(rest);
    }
  }

  /** The words are all of the text but its white space. */
  lemma {:induction false} WordsKeepText(s: string)
    ensures Flatten(Words(s)) == NoSpaces(s)
    decreases |s|
  {
    if s != "" {
      if IsSpace(s[0]) {
        WordsKeepText(s[1..]);
      } else {
        var n := WordLength(s);
        WordsKeepText(s[n..]);
        WordHasNoSpaces(s[..n], s[n..]);
        assert s[..n] + s[n..] == s;
        assert Words(s)[1..] == Words(s[n..]);
      }
    }
  }

  lemma OneWord(w: string)
    requires IsWord(w)
    ensures Words(w) == [w]
  {
    LeadingWord(w, "");
    assert w + "" == w && Words("") == [];
  }

  /** White space, wherever it stands, separates words, and nothing else does. */
  lemma {:induction false} SpaceSeparates(a: string, c: char, b: string)
    requires IsSpace(c)
    ensures Words(a + ([c] + b)) == Words(a) + Words(b)
    decreases |a|
  {
    var rest := [c] + b;
    if a == "" {
      assert a + rest == rest && rest[1..] == b;
    } else if IsSpace(a[0]) {
      assert (a + rest)[1..] == a[1..] + rest;
      SpaceSeparates(a[1..], c, b);
    } else {
      WordThenSpace(a[..WordLength(a)], a[WordLength(a)..], rest);
      SpaceSeparates(a[WordLength(a)..], c, b);
      assert a[..WordLength(a)] + a[WordLength(a)..] == a;
    }
  }

  lemma WordThenSpace(w: string, a: string, rest: string)
    requires IsWord(w) && (a == "" || IsSpace(a[0])) && rest != "" && IsSpace(rest[0])
    ensures Words(w + a) == [w] + Words(a)
    ensures Words(w + a + rest) == [w] + Words(a + rest)
  {
    var tail := a + rest;
    assert tail[0] == if a == "" then rest[0] else a[0];
    LeadingWord(w, a);
    LeadingWord(w, tail);
    Associative(w, a, rest);
  }

  function JoinWords(ws: seq<string>): string {
    if ws == [] then ""
    else if |ws| == 1 then ws[0]
    else ws[0] + " " + JoinWords(ws[1..])
  }

  lemma {:induction false} WordsOfJoin(ws: seq<string>)
    requires forall i :: 0 <= i < |ws| ==> IsWord(ws[i])
    ensures Words(JoinWords(ws)) == ws
    ensures ws != [] ==> JoinWords(ws) != "" && !IsSpace(JoinWords(ws)[0])
  {
    if |ws| == 1 {
      LeadingWord(ws[0], "");
      assert ws[0] + "" == ws[0] && Words("") == [] && [ws[0]] == ws;
    } else if ws != [] {
      var rest := " " + JoinWords(ws[1..]);
      WordsOfJoin(ws[1..]);
      assert JoinWords(ws) == ws[0] + rest;
      LeadingWord(ws[0], rest);
      assert rest[1..] == JoinWords(ws[1..]);
      assert [ws[0]] + ws[1..] == ws;
    }
  }

  lemma LeadingWord(w: string, rest: string)
    requires IsWord(w) && (rest == "" || IsSpace(rest[0]))
    ensures Words(w + rest) == [w] + Words(rest)
  {
    var s := w + rest;
    var n := WordLength(s);
    assert forall i :: 0 <= i < |w| ==> s[i] == w[i];
    assert rest != "" ==> s[|w|] == rest[0];
    assert n == |w|;
    assert s[..|w|] == w && s[|w|..] == rest;
  }

  /** No text with the same words is shorter than the words with single spaces. */
  lemma {:induction false} JoinIsShortest(s: string)
    ensures |JoinWords(Words(s))| <= |s|
    decreases |s|
  {
    if s == "" {
    } else if IsSpace(s[0]) {
      JoinIsShortest(s[1..]);
    } else {
      var n := WordLength(s);
      var rest := s[n..];
      if rest != "" {
        JoinIsShortest(rest[1..]);
        assert Words(rest) == Words(rest[1..]);
      }
      assert Words(s)[1..] == Words(rest);
    }
  }

  lemma {:induction false} JoinAppend(ws: seq<string>, w: string)
    ensures JoinWords(ws + [w]) == if ws == [] then w else JoinWords(ws) + " " + w
  {
    if ws == [] {
      assert ws + [w] == [w];
    } else if |ws| == 1 {
      assert (ws + [w])[1..] == [w];
    } else {
      assert (ws + [w])[1..] == ws[1..] + [w];
      JoinAppend(ws[1..], w);
      assert ws[0] + " " + (JoinWords(ws[1..]) + " " + w) == (ws[0] + " " + JoinWords(ws[1..])) + " " + w;
    }
  }

  /** Fewer words, in the same order, join to no more. */
  lemma {:induction false} JoinSlice(ws: seq<string>, from: nat, to: nat)
    requires from <= to <= |ws|
    ensures |JoinWords(ws[from..to])| <= |JoinWords(ws)|
    decreases |ws|
  {
    if from == 0 && to == |ws| {
      assert ws[from..to] == ws;
    } else if to < |ws| {
      var init := ws[..|ws|-1];
      assert init[from..to] == ws[from..to] && init + [ws[|ws|-1]] == ws;
      JoinSlice(init, from, to);
      JoinAppend(init, ws[|ws|-1]);
    } else {
      assert ws[1..][from-1..to-1] == ws[from..to];
      JoinSlice(ws[1..], from - 1, to - 1);
    }
  }
}
