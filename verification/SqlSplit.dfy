/** `split_statements` of scripts/apply_schema.py: line comments go first, then the
    text is split at semicolons, and the pieces are stripped. */
module SqlSplit {
  import opened Wrappers
  import opened Text

  // ---- the splitter

  /** The rest of `s` from the end of its first line on. */
  function FromLineEnd(s: string): (r: string)
    ensures |r| <= |s| && (r == "" || r[0] == '\n')
  {
    if s == "" || s[0] == '\n' then s else FromLineEnd(s[1..])
  }

  predicate StartsComment(s: string) {
    |s| >= 2 && s[0] == '-' && s[1] == '-'
  }

  /** `s` with every line comment removed, leftmost first. */
  function Clean(s: string): string
    decreases |s|
  {
    if s == "" then ""
    else if StartsComment(s) then Clean(FromLineEnd(s[2..]))
    else [s[0]] + Clean(s[1..])
  }

  function SplitSemi(s: string): (r: seq<string>)
    ensures r != []
  {
    if s == "" then [""]
    else if s[0] == ';' then [""] + SplitSemi(s[1..])
    else
      var r := SplitSemi(s[1..]);
      [[s[0]] + r[0]] + r[1..]
  }

  /** The pieces stripped, without the empty ones. */
  function Stripped(pieces: seq<string>): seq<string> {
    if pieces == [] then []
    else (if Strip(pieces[0]) != "" then [Strip(pieces[0])] else []) + Stripped(pieces[1..])
  }

  function SplitStatements(sql: string): seq<string> {
    Stripped(SplitSemi(Clean(sql)))
  }

  // ---- what the pieces are like

  predicate NoComment(s: string) {
    forall i :: 0 <= i < |s| - 1 ==> !(s[i] == '-' && s[i+1] == '-')
  }

  /** A statement the splitter can give back: trimmed, no `;` and no `--`. */
  predicate Statement(s: string) {
    Trimmed(s) && ';' !in s && NoComment(s)
  }

  lemma {:induction false} CleanHasNoComment(s: string)
    ensures NoComment(Clean(s))
    ensures Clean(s) != "" && Clean(s)[0] == '-' ==> s[0] == '-'
    decreases |s|
  {
    if s == "" {
    } else if StartsComment(s) {
      CleanHasNoComment(FromLineEnd(s[2..]));
    } else {
      CleanHasNoComment(s[1..]);
    }
  }

  lemma {:induction false} PiecesInside(s: string, k: nat)
    requires k < |SplitSemi(s)|
    ensures ';' !in SplitSemi(s)[k]
    ensures NoComment(s) ==> NoComment(SplitSemi(s)[k])
    ensures k == 0 ==> SplitSemi(s)[0] <= s
  {
    if s != "" {
      if s[0] == ';' {
        if k > 0 {
          PiecesInside(s[1..], k - 1);
        }
      } else {
        PiecesInside(s[1..], k);
        if k == 0 {
          var p := SplitSemi(s[1..])[0];
          assert [s[0]] + p <= s by { assert s == [s[0]] + s[1..]; }
        }
      }
    }
  }

  lemma {:induction false} StrippedPieces(pieces: seq<string>, i: nat)
    requires i < |Stripped(pieces)|
    requires forall k :: 0 <= k < |pieces| ==> ';' !in pieces[k] && NoComment(pieces[k])
    ensures Statement(Stripped(pieces)[i])
  {
    StripTrims(pieces[0]);
    var n := if Strip(pieces[0]) != "" then 1 else 0;
    if i >= n {
      StrippedPieces(pieces[1..], i - n);
    }
  }

  /** Every piece is a statement: trimmed, not empty, without `;` and `--`. */
  lemma SplitGivesStatements(sql: string)
    ensures forall i :: 0 <= i < |SplitStatements(sql)| ==> Statement(SplitStatements(sql)[i])
  {
    CleanHasNoComment(sql);
    var pieces := SplitSemi(Clean(sql));
    forall k | 0 <= k < |pieces|
      ensures ';' !in pieces[k] && NoComment(pieces[k])
    {
      PiecesInside(Clean(sql), k);
    }
    forall i | 0 <= i < |SplitStatements(sql)|
      ensures Statement(SplitStatements(sql)[i])
    {
      StrippedPieces(pieces, i);
    }
  }

  // ---- joining and commenting

  function JoinSemi(statements: seq<string>): string {
    if statements == [] then ""
    else if |statements| == 1 then statements[0]
    else statements[0] + ";" + JoinSemi(statements[1..])
  }

  /** How many lines end in `s`, the last one included. */
  function LineEnds(s: string): (n: nat)
    ensures n > 0
  {
    if s == "" then 1 else (if s[0] == '\n' then 1 else 0) + LineEnds(s[1..])
  }

  /** Nothing, or a comment to the end of the line: any text without a line break. */
  predicate LineComment(c: string) {
    c == "" || (StartsComment(c) && '\n' !in c)
  }

  /** `s` with the j-th of `comments` before the end of its j-th line. */
  function Decorate(s: string, comments: seq<string>): string
    requires |comments| == LineEnds(s)
  {
    if s == "" then comments[0]
    else if s[0] == '\n' then comments[0] + "\n" + Decorate(s[1..], comments[1..])
    else [s[0]] + Decorate(s[1..], comments)
  }

  /** No comment follows a dash directly: it would take the dash along. */
  predicate Separated(s: string, comments: seq<string>)
    requires |comments| == LineEnds(s)
  {
    if s == "" then true
    else if s[0] == '\n' then Separated(s[1..], comments[1..])
    else (s[0] == '-' && (|s| == 1 || s[1] == '\n') ==> comments[0] == "") && Separated(s[1..], comments)
  }

  function Dashes(s: string): nat {
    if s == "" then 0 else (if s[0] == '-' then 1 else 0) + Dashes(s[1..])
  }

  lemma {:induction false} SkipComment(c: string, rest: string)
    requires '\n' !in c && (rest == "" || rest[0] == '\n')
    ensures FromLineEnd(c + rest) == rest
  {
    if c == "" {
      assert c + rest == rest;
    } else {
      assert c[0] in c && (c + rest)[1..] == c[1..] + rest;
      SkipComment(c[1..], rest);
    }
  }

  lemma CommentGone(c: string, rest: string)
    requires LineComment(c) && (rest == "" || rest[0] == '\n')
    ensures Clean(c + rest) == Clean(rest)
  {
    if c == "" {
      assert c + rest == rest;
    } else {
      assert StartsComment(c + rest) && (c + rest)[2..] == c[2..] + rest;
      SkipComment(c[2..], rest);
    }
  }

  /** A comment right behind a dash starts one character early. */
  lemma DashGone(c: string, rest: string)
    requires LineComment(c) && c != "" && (rest == "" || rest[0] == '\n')
    ensures Clean("-" + (c + rest)) == Clean(rest)
  {
    var s := "-" + (c + rest);
    assert s == ("-" + c) + rest && s[2..] == c[1..] + rest;
    SkipComment(c[1..], rest);
  }

  /** What follows a character that is not a line break. */
  function LineRest(s: string, comments: seq<string>): string
    requires |comments| == LineEnds(s) && (s == "" || s[0] == '\n')
  {
    if s == "" then "" else "\n" + Decorate(s[1..], comments[1..])
  }

  lemma DecorateLineEnd(s: string, comments: seq<string>)
    requires |comments| == LineEnds(s) && (s == "" || s[0] == '\n')
    ensures Decorate(s, comments) == comments[0] + LineRest(s, comments)
  {
    if s != "" {
      assert comments[0] + "\n" + Decorate(s[1..], comments[1..]) == comments[0] + ("\n" + Decorate(s[1..], comments[1..]));
    } else {
      assert comments[0] + "" == comments[0];
    }
  }

  /** Comments go without a trace exactly when none follows a dash. */
  lemma {:induction false} CleanDecorated(s: string, comments: seq<string>)
    requires |comments| == LineEnds(s) && NoComment(s)
    requires forall j :: 0 <= j < |comments| ==> LineComment(comments[j])
    ensures Separated(s, comments) ==> Clean(Decorate(s, comments)) == s
    ensures Dashes(Clean(Decorate(s, comments))) <= Dashes(s)
    ensures !Separated(s, comments) ==> Dashes(Clean(Decorate(s, comments))) < Dashes(s)
    decreases |s|
  {
    if s == "" {
      CommentGone(comments[0], "");
      DecorateLineEnd(s, comments);
    } else if s[0] == '\n' {
      DecorateLineEnd(s, comments);
      var later := Decorate(s[1..], comments[1..]);
      CommentGone(comments[0], "\n" + later);
      CleanDecorated(s[1..], comments[1..]);
      assert ("\n" + later)[1..] == later;
      assert ['\n'] + s[1..] == s;
      assert Clean("\n" + later) == ['\n'] + Clean(later);
      DashesCons('\n', Clean(later));
    } else {
      var rest := s[1..];
      var later := Decorate(rest, comments);
      assert Decorate(s, comments)[1..] == later;
      CleanDecorated(rest, comments);
      assert [s[0]] + rest == s;
      if s[0] == '-' && (rest == "" || rest[0] == '\n') && comments[0] != "" {
        DecorateLineEnd(rest, comments);
        DashGone(comments[0], LineRest(rest, comments));
        CommentGone(comments[0], LineRest(rest, comments));
        assert Clean(Decorate(s, comments)) == Clean(later);
      } else {
        if rest != "" && rest[0] != '\n' {
          assert later[0] == rest[0] == s[1];
        } else {
          DecorateLineEnd(rest, comments);
        }
        assert !StartsComment([s[0]] + later);
        assert Clean(Decorate(s, comments)) == [s[0]] + Clean(later);
        DashesCons(s[0], Clean(later));
      }
    }
  }

  lemma DashesCons(c: char, s: string)
    ensures Dashes([c] + s) == (if c == '-' then 1 else 0) + Dashes(s)
  {
    assert ([c] + s)[1..] == s;
  }

  lemma {:induction false} DashesAppend(a: string, b: string)
    ensures Dashes(a + b) == Dashes(a) + Dashes(b)
  {
    if a == "" {
      assert a + b == b;
    } else {
      assert (a + b)[1..] == a[1..] + b;
      DashesAppend(a[1..], b);
    }
  }

  function AllDashes(pieces: seq<string>): nat {
    if pieces == [] then 0 else Dashes(pieces[0]) + AllDashes(pieces[1..])
  }

  lemma {:induction false} SplitKeepsDashes(s: string)
    ensures AllDashes(SplitSemi(s)) == Dashes(s)
  {
    if s != "" {
      SplitKeepsDashes(s[1..]);
      var r := SplitSemi(s[1..]);
      if s[0] == ';' {
        assert ([""] + r)[1..] == r;
      } else {
        assert ([[s[0]] + r[0]] + r[1..])[1..] == r[1..];
        DashesCons(s[0], r[0]);
      }
    }
  }

  lemma {:induction false} StripLeftKeepsDashes(s: string)
    ensures Dashes(StripLeft(s)) == Dashes(s)
  {
    if s != "" && IsSpace(s[0]) {
      StripLeftKeepsDashes(s[1..]);
    }
  }

  lemma {:induction false} StripRightKeepsDashes(s: string)
    ensures Dashes(StripRight(s)) == Dashes(s)
  {
    if s != "" && IsSpace(s[|s|-1]) {
      StripRightKeepsDashes(s[..|s|-1]);
      assert s == s[..|s|-1] + [s[|s|-1]];
      DashesAppend(s[..|s|-1], [s[|s|-1]]);
    }
  }

  lemma {:induction false} StrippedKeepsDashes(pieces: seq<string>)
    ensures AllDashes(Stripped(pieces)) == AllDashes(pieces)
  {
    if pieces != [] {
      StripLeftKeepsDashes(pieces[0]);
      StripRightKeepsDashes(StripLeft(pieces[0]));
      StrippedKeepsDashes(pieces[1..]);
      if Strip(pieces[0]) != "" {
        assert ([Strip(pieces[0])] + Stripped(pieces[1..]))[1..] == Stripped(pieces[1..]);
      } else {
        assert Stripped(pieces) == Stripped(pieces[1..]);
      }
    }
  }

  lemma {:induction false} SplitPiece(p: string, rest: string)
    requires ';' !in p
    ensures SplitSemi(p + ";" + rest) == [p] + SplitSemi(rest)
    ensures SplitSemi(p) == [p]
  {
    var s := p + ";" + rest;
    if p == "" {
      assert s[1..] == rest;
    } else {
      assert p[0] in p && s[1..] == p[1..] + ";" + rest && [p[0]] + p[1..] == p;
      SplitPiece(p[1..], rest);
    }
  }

  /** The piece is the statement with nothing but white space around it. */
  ghost predicate Padded(piece: string, statement: string) {
    exists front, back :: AllSpaces(front) && AllSpaces(back) && piece == front + (statement + back)
  }

  /** The pieces are the statements in order, padded, with blank pieces anywhere. */
  ghost predicate Spreads(pieces: seq<string>, statements: seq<string>) {
    if pieces == [] then statements == []
    else
      (AllSpaces(pieces[0]) && Spreads(pieces[1..], statements)) ||
      (statements != [] && Padded(pieces[0], statements[0]) && Spreads(pieces[1..], statements[1..]))
  }

  lemma {:induction false} StripBlank(s: string)
    requires AllSpaces(s)
    ensures StripLeft(s) == "" && Strip(s) == "" && ';' !in s && Dashes(s) == 0 && NoComment(s)
  {
    if s != "" {
      StripBlank(s[1..]);
      assert IsSpace(s[0]) && s == [s[0]] + s[1..];
      assert forall i :: 0 <= i < |s| ==> IsSpace(s[i]);
    }
  }

  lemma {:induction false} StripBefore(blank: string, s: string)
    requires AllSpaces(blank)
    ensures StripLeft(blank + s) == StripLeft(s)
  {
    if blank == "" {
      assert blank + s == s;
    } else {
      assert (blank + s)[1..] == blank[1..] + s && (blank + s)[0] == blank[0];
      StripBefore(blank[1..], s);
    }
  }

  lemma {:induction false} StripBehind(s: string, blank: string)
    requires AllSpaces(blank)
    ensures StripRight(s + blank) == StripRight(s)
    decreases |blank|
  {
    if blank == "" {
      assert s + blank == s;
    } else {
      var init := blank[..|blank|-1];
      assert (s + blank)[..|s + blank|-1] == s + init && (s + blank)[|s + blank|-1] == blank[|blank|-1];
      StripBehind(s, init);
    }
  }

  lemma BlankBefore(blank: string, s: string)
    requires AllSpaces(blank)
    ensures NoComment(s) ==> NoComment(blank + s)
    ensures ';' !in s ==> ';' !in blank + s
    ensures Dashes(blank + s) == Dashes(s)
  {
    DashesAppend(blank, s);
    StripBlank(blank);
    assert forall i :: 0 <= i < |blank| ==> (blank + s)[i] == blank[i] && IsSpace(blank[i]);
  }

  lemma BlankBehind(s: string, blank: string)
    requires AllSpaces(blank)
    ensures NoComment(s) ==> NoComment(s + blank)
    ensures ';' !in s ==> ';' !in s + blank
    ensures Dashes(s + blank) == Dashes(s)
  {
    DashesAppend(s, blank);
    StripBlank(blank);
    assert forall i :: 0 <= i < |blank| ==> (s + blank)[|s| + i] == blank[i] && IsSpace(blank[i]);
  }

  lemma StripPadded(piece: string, statement: string)
    requires Statement(statement) && Padded(piece, statement)
    ensures Strip(piece) == statement && ';' !in piece && Dashes(piece) == Dashes(statement) && NoComment(piece)
  {
    var front, back :| AllSpaces(front) && AllSpaces(back) && piece == front + (statement + back);
    StripAround(front, statement, back);
    BlankBehind(statement, back);
    BlankBefore(front, statement + back);
  }

  lemma StripAround(front: string, statement: string, back: string)
    requires AllSpaces(front) && Trimmed(statement) && AllSpaces(back)
    ensures Strip(front + (statement + back)) == statement
  {
    StripBefore(front, statement + back);
    assert (statement + back)[0] == statement[0];
    StripBehind(statement, back);
  }

  /** One piece more: what it adds to the pieces split off and stripped. */
  lemma JoinOne(first: string, later: seq<string>)
    requires ';' !in first
    ensures var pieces := [first] + later;
      SplitSemi(JoinSemi(pieces)) == (if later == [] then [first] else [first] + SplitSemi(JoinSemi(later))) &&
      Dashes(JoinSemi(pieces)) == Dashes(first) + (if later == [] then 0 else Dashes(JoinSemi(later))) &&
      (NoComment(first) && NoComment(JoinSemi(later)) ==> NoComment(JoinSemi(pieces)))
  {
    var pieces := [first] + later;
    assert pieces[1..] == later;
    SplitPiece(first, JoinSemi(later));
    if later != [] {
      DashesAppend(first + ";", JoinSemi(later));
      DashesAppend(first, ";");
      DashesCons(';', "");
    }
  }

  lemma {:induction false} SplitSpread(pieces: seq<string>, statements: seq<string>)
    requires pieces != [] && Spreads(pieces, statements)
    requires forall i :: 0 <= i < |statements| ==> Statement(statements[i])
    ensures SplitSemi(JoinSemi(pieces)) == pieces && Stripped(pieces) == statements
    ensures Dashes(JoinSemi(pieces)) == AllDashes(statements) && NoComment(JoinSemi(pieces))
  {
    var first, later := pieces[0], pieces[1..];
    assert [first] + later == pieces;
    var rest := statements;
    if AllSpaces(first) && Spreads(later, statements) {
      StripBlank(first);
    } else {
      StripPadded(first, statements[0]);
      rest := statements[1..];
      assert [statements[0]] + rest == statements;
    }
    JoinOne(first, later);
    if later != [] {
      SplitSpread(later, rest);
    }
  }

  /** Statements joined by semicolons, with any white space around them and blank pieces
      between them, and commented at line ends, whatever the comments say, split back
      to the same list, exactly when no comment stands directly behind a dash. */
  lemma SplitRoundTrip(pieces: seq<string>, statements: seq<string>, comments: seq<string>)
    requires pieces != [] && Spreads(pieces, statements)
    requires forall i :: 0 <= i < |statements| ==> Statement(statements[i])
    requires |comments| == LineEnds(JoinSemi(pieces))
    requires forall j :: 0 <= j < |comments| ==> LineComment(comments[j])
    ensures SplitStatements(Decorate(JoinSemi(pieces), comments)) == statements <==>
      Separated(JoinSemi(pieces), comments)
  {
    var s := JoinSemi(pieces);
    SplitSpread(pieces, statements);
    CleanDecorated(s, comments);
    var cleaned := Clean(Decorate(s, comments));
    SplitKeepsDashes(cleaned);
    StrippedKeepsDashes(SplitSemi(cleaned));
  }

  /** Statements joined by bare semicolons are spread so. */
  lemma {:induction false} BareSpread(statements: seq<string>)
    ensures Spreads(statements, statements)
  {
    if statements != [] {
      var p := statements[0];
      assert AllSpaces("") && p == "" + (p + "");
      assert Padded(p, p);
      BareSpread(statements[1..]);
    }
  }

  /** Splitting is stable: its pieces, joined again, split to themselves. */
  lemma SplitAgain(sql: string)
    ensures SplitStatements(JoinSemi(SplitStatements(sql))) == SplitStatements(sql)
  {
    var pieces := SplitStatements(sql);
    SplitGivesStatements(sql);
    BareSpread(pieces);
    if pieces == [] {
      assert SplitSemi("") == [""] && Strip("") == "" && [""][1..] == [];
    } else {
      SplitSpread(pieces, pieces);
      CleanPlain(JoinSemi(pieces));
    }
  }

  lemma {:induction false} CleanPlain(s: string)
    requires NoComment(s)
    ensures Clean(s) == s
  {
    if s != "" {
      CleanPlain(s[1..]);
      assert [s[0]] + s[1..] == s;
    }
  }
}
