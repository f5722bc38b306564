/** Greedy line wrapping, `_wrap` of scripts/pdf_formats.py: it keeps the words,
    keeps the width where a word allows it, and uses the fewest lines. */
module WordWrap {
  import opened Wrappers
  import opened Text

  /** Words that may share a line. */
  predicate Fits(group: seq<string>, width: int) {
    |JoinWords(group)| <= width || |group| <= 1
  }

  /** The lines, as groups of words, that greedy filling makes of `ws` when the line
      begun holds `cur`. */
  function Fill(cur: seq<string>, ws: seq<string>, width: int): seq<seq<string>>
    decreases |ws|
  {
    if ws == [] then if cur == [] then [] else [cur]
    else if cur == [] || |JoinWords(cur + [ws[0]])| <= width then Fill(cur + [ws[0]], ws[1..], width)
    else [cur] + Fill([ws[0]], ws[1..], width)
  }

  lemma {:induction false} FillKeeps(cur: seq<string>, ws: seq<string>, width: int)
    requires Fits(cur, width)
    ensures Flatten(Fill(cur, ws, width)) == cur + ws
    ensures forall i :: 0 <= i < |Fill(cur, ws, width)| ==>
      Fill(cur, ws, width)[i] != [] && Fits(Fill(cur, ws, width)[i], width)
    decreases |ws|
  {
    if ws == [] {
      assert cur != [] ==> [cur][1..] == [] && Flatten([cur]) == cur + Flatten([]);
    } else if cur == [] || |JoinWords(cur + [ws[0]])| <= width {
      FillKeeps(cur + [ws[0]], ws[1..], width);
      assert cur + [ws[0]] + ws[1..] == cur + ws;
    } else {
      FillKeeps([ws[0]], ws[1..], width);
      assert [ws[0]] + ws[1..] == ws;
    }
  }

  /** Greedy stays ahead: from any point of any other breaking, filling the rest
      takes no more lines than that breaking has. */
  lemma {:induction false} GreedyIsFewest(cur: seq<string>, ws: seq<string>, width: int, alt: seq<seq<string>>, d: nat)
    requires cur != [] && d <= |Flatten(alt)| && Flatten(alt)[d..] == cur + ws
    requires forall i :: 0 <= i < |alt| ==> Fits(alt[i], width)
    ensures |Fill(cur, ws, width)| <= |alt|
    decreases |alt|, |ws|
  {
    var all, first, later := Flatten(alt), alt[0], Flatten(alt[1..]);
    var a, p := |first|, d + |cur|;
    assert all == first + later;
    if d >= a {
      assert later[d - a..] == all[d..];
      GreedyIsFewest(cur, ws, width, alt[1..], d - a);
    } else if ws != [] {
      var w := ws[0];
      if |JoinWords(cur + [w])| <= width {
        assert cur + [w] + ws[1..] == cur + ws;
        GreedyIsFewest(cur + [w], ws[1..], width, alt, d);
      } else {
        if p < a {
          assert first[d..p + 1] == all[d..][..p + 1 - d] == cur + [w];
          JoinSlice(first, d, p + 1);
          assert false;
        }
        assert later[p - a..] == all[d..][|cur|..] == ws == [w] + ws[1..];
        GreedyIsFewest([w], ws[1..], width, alt[1..], p - a);
      }
    }
  }

  // ---- lines of text

  function GroupsOf(lines: seq<string>): (r: seq<seq<string>>)
    ensures |r| == |lines| && forall i :: 0 <= i < |r| ==> r[i] == Words(lines[i])
  {
    seq(|lines|, i requires 0 <= i < |lines| => Words(lines[i]))
  }

  /** All the words of the lines, in order. */
  function WordsOf(lines: seq<string>): seq<string> {
    Flatten(GroupsOf(lines))
  }

  /** At most `width` characters, or no more than one word. */
  predicate LineFits(line: string, width: int) {
    |line| <= width || |Words(line)| <= 1
  }

  function Joined(groups: seq<seq<string>>): (r: seq<string>)
    ensures |r| == |groups| && forall i :: 0 <= i < |r| ==> r[i] == JoinWords(groups[i])
  {
    seq(|groups|, i requires 0 <= i < |groups| => JoinWords(groups[i]))
  }

  lemma FillIsFewest(text: string, width: int, alt: seq<string>)
    requires WordsOf(alt) == Words(text) && forall i :: 0 <= i < |alt| ==> LineFits(alt[i], width)
    ensures |Fill([], Words(text), width)| <= |alt|
  {
    var ws, groups := Words(text), GroupsOf(alt);
    forall i | 0 <= i < |groups|
      ensures Fits(groups[i], width)
    {
      JoinIsShortest(alt[i]);
    }
    if ws != [] {
      assert [] + [ws[0]] == [ws[0]];
      assert Flatten(groups)[0..] == [ws[0]] + ws[1..];
      GreedyIsFewest([ws[0]], ws[1..], width, groups, 0);
    }
  }

  /** The filled lines hold the words of the text and fit. */
  lemma FillIsBreaking(text: string, width: int)
    ensures var lines := Joined(Fill([], Words(text), width));
      WordsOf(lines) == Words(text) &&
      forall i :: 0 <= i < |lines| ==> lines[i] != "" && LineFits(lines[i], width) && lines[i] == JoinWords(Words(lines[i]))
  {
    var groups := Fill([], Words(text), width);
    FillKeeps([], Words(text), width);
    assert [] + Words(text) == Words(text);
    forall i | 0 <= i < |groups|
      ensures Words(Joined(groups)[i]) == groups[i] && Joined(groups)[i] != ""
    {
      PartsAreWords(groups, Words(text), i);
      WordsOfJoin(groups[i]);
    }
    assert GroupsOf(Joined(groups)) == groups;
  }

  lemma {:induction false} PartsAreWords(groups: seq<seq<string>>, ws: seq<string>, i: nat)
    requires i < |groups| && Flatten(groups) == ws && forall j :: 0 <= j < |ws| ==> IsWord(ws[j])
    ensures forall j :: 0 <= j < |groups[i]| ==> IsWord(groups[i][j])
  {
    var first, later := groups[0], Flatten(groups[1..]);
    assert forall j :: 0 <= j < |first| ==> first[j] == ws[j];
    assert forall j :: 0 <= j < |later| ==> later[j] == ws[|first| + j];
    if i > 0 {
      PartsAreWords(groups[1..], later, i - 1);
    }
  }

  lemma SpaceStripped(line: string, word: string)
    requires IsWord(word) && (line == "" || !IsSpace(line[0]))
    ensures Strip(line + " " + word) == if line == "" then word else line + " " + word
  {
    var s := line + " " + word;
    assert s[|s|-1] == word[|word|-1];
    if line == "" {
      assert s[1..] == word;
      assert StripLeft(word) == word;
    }
  }

  /** What greedy filling does with the next word, in terms of the line begun. */
  lemma FillStep(cur: seq<string>, word: string, rest: seq<string>, width: int)
    ensures var line, ws := JoinWords(cur), [word] + rest;
      Fill(cur, ws, width) ==
        if cur == [] || |line| + |word| + 1 <= width then Fill(cur + [word], rest, width)
        else [cur] + Fill([word], rest, width)
  {
    JoinAppend(cur, word);
    assert ([word] + rest)[1..] == rest;
  }

  lemma CloseGroup(groups: seq<seq<string>>, cur: seq<string>, later: seq<seq<string>>)
    ensures Joined(groups + [cur]) == Joined(groups) + [JoinWords(cur)]
    ensures groups + ([cur] + later) == (groups + [cur]) + later
  {
  }

  method FillLines(text: string, width: int) returns (out: seq<string>)
    ensures out == Joined(Fill([], Words(text), width))
  {
    var words, line := Words(text), "";
    ghost var cur, groups := [], [];
    out := [];
    for k := 0 to |words|
      invariant out == Joined(groups)
      invariant line == JoinWords(cur) && (cur == [] <==> line == "") && (line != "" ==> !IsSpace(line[0]))
      invariant Fill([], words, width) == groups + Fill(cur, words[k..], width)
    {
      var word := words[k];
      assert words[k..] == [word] + words[k+1..];
      JoinAppend(cur, word);
      FillStep(cur, word, words[k+1..], width);
      SpaceStripped(line, word);
      if |line| + |word| + 1 <= width {
        line := Strip(line + " " + word);
        cur := cur + [word];
      } else {
        if line != "" {
          CloseGroup(groups, cur, Fill([word], words[k+1..], width));
          out := out + [line];
          groups := groups + [cur];
        } else {
          assert cur + [word] == [word];
        }
        line := word;
        cur := [word];
      }
    }
    CloseGroup(groups, cur, []);
    if line != "" {
      out := out + [line];
      groups := groups + [cur];
    }
    assert groups == Fill([], words, width);
  }

  method Wrap(text: string, width: int) returns (out: seq<string>)
    ensures WordsOf(out) == Words(text) && Flatten(WordsOf(out)) == NoSpaces(text)
    ensures forall i :: 0 <= i < |out| ==> out[i] != "" && LineFits(out[i], width) && out[i] == JoinWords(Words(out[i]))
    ensures forall alt :: WordsOf(alt) == Words(text) && (forall i :: 0 <= i < |alt| ==> LineFits(alt[i], width)) ==>
      |out| <= |alt|
  {
    out := FillLines(text, width);
    FillIsBreaking(text, width);
    WordsKeepText(text);
    forall alt | WordsOf(alt) == Words(text) && forall i :: 0 <= i < |alt| ==> LineFits(alt[i], width)
      ensures |out| <= |alt|
    {
      FillIsFewest(text, width, alt);
    }
  }
}
