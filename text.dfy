/**
 * Java's `String.split("\n")` and the text centring both menus apply before
 * printing (`getCenteredText` in src/ui/GameMenu.java and src/ui/Menu.java,
 * which are the same code). The terminal's width and height are parameters.
 */
module UiText {
  import opened JavaInt

  /** The pieces of `s` between newlines, including empty ones (split with limit -1). */
  function SplitAll(s: string): (pieces: seq<string>)
    ensures |pieces| >= 1
    ensures forall i :: 0 <= i < |pieces| ==> '\n' !in pieces[i]
  {
    if |s| == 0 then [""]
    else if s[0] == '\n' then [""] + SplitAll(s[1..])
    else
      var rest := SplitAll(s[1..]);
      [[s[0]] + rest[0]] + rest[1..]
  }

  /** The pieces joined back with newlines in between. */
  function JoinLines(pieces: seq<string>): string
    requires |pieces| >= 1
  {
    if |pieces| == 1 then pieces[0] else pieces[0] + "\n" + JoinLines(pieces[1..])
  }

  /** Drops the empty strings at the end, as `split` does when its limit is 0. */
  function DropTrailingEmpty(pieces: seq<string>): (r: seq<string>)
    ensures r <= pieces
    ensures |r| > 0 ==> r[|r| - 1] != ""
    ensures forall i :: |r| <= i < |pieces| ==> pieces[i] == ""
  {
    if |pieces| == 0 then []
    else if pieces[|pieces| - 1] == "" then DropTrailingEmpty(pieces[..|pieces| - 1])
    else pieces
  }

  /**
   * `text.split("\n")`: a text without a newline comes back whole (even the
   * empty text); otherwise the pieces, less the empty ones at the end.
   */
  function JavaSplit(text: string): (lines: seq<string>)
    ensures forall i :: 0 <= i < |lines| ==> '\n' !in lines[i]
  {
    if '\n' !in text then [text] else DropTrailingEmpty(SplitAll(text))
  }

  lemma {:induction false} SplitAllOfLine(s: string)
    requires '\n' !in s
    ensures SplitAll(s) == [s]
  {
    if |s| > 0 {
      assert '\n' !in s[1..] && s[0] != '\n';
      SplitAllOfLine(s[1..]);
      assert [s[0]] + s[1..] == s;
    }
  }

  /** Splitting at a newline splits the two sides separately. */
  lemma {:induction false} SplitAllAppend(a: string, b: string)
    ensures SplitAll(a + "\n" + b) == SplitAll(a) + SplitAll(b)
  {
    if |a| == 0 {
      assert a + "\n" + b == "\n" + b;
      assert ("\n" + b)[1..] == b;
    } else {
      assert (a + "\n" + b)[0] == a[0];
      assert (a + "\n" + b)[1..] == a[1..] + "\n" + b;
      SplitAllAppend(a[1..], b);
    }
  }

  /** Splitting undoes joining ... */
  lemma {:induction false} SplitJoin(pieces: seq<string>)
    requires |pieces| >= 1
    requires forall i :: 0 <= i < |pieces| ==> '\n' !in pieces[i]
    ensures SplitAll(JoinLines(pieces)) == pieces
  {
    if |pieces| == 1 {
      SplitAllOfLine(pieces[0]);
    } else {
      SplitJoin(pieces[1..]);
      SplitAllAppend(pieces[0], JoinLines(pieces[1..]));
      SplitAllOfLine(pieces[0]);
    }
  }

  /** ... and joining undoes splitting. */
  lemma {:induction false} JoinSplit(s: string)
    ensures JoinLines(SplitAll(s)) == s
  {
    if |s| > 0 {
      JoinSplit(s[1..]);
      var rest := SplitAll(s[1..]);
      if s[0] != '\n' && |rest| > 1 {
        assert ([[s[0]] + rest[0]] + rest[1..])[1..] == rest[1..];
      }
    }
  }

  /** `n` copies of the character `c`, as `String.repeat` builds them. */
  function Repeat(c: char, n: nat): (s: string)
    ensures |s| == n && forall i :: 0 <= i < n ==> s[i] == c
  {
    seq(n, _ => c)
  }

  /** `" ".repeat(n)`: the indentation of a centred line. */
  function Spaces(n: nat): string
  {
    Repeat(' ', n)
  }

  /** `n` newline characters: the top margin of a centred text. */
  function Newlines(n: nat): string
  {
    Repeat('\n', n)
  }

  /** The length of the longest line, 0 for no lines. */
  function MaxLineLength(lines: seq<string>): (m: nat)
    ensures forall i :: 0 <= i < |lines| ==> |lines[i]| <= m
    ensures m == 0 || exists i :: 0 <= i < |lines| && |lines[i]| == m
  {
    if |lines| == 0 then 0
    else
      var m := MaxLineLength(lines[..|lines| - 1]);
      assert forall i :: 0 <= i < |lines| - 1 ==> lines[..|lines| - 1][i] == lines[i];
      if |lines[|lines| - 1]| > m then |lines[|lines| - 1]| else m
  }

  function Max0(n: int): nat
  {
    if n < 0 then 0 else n
  }

  /** The left margin: half the spare width, truncated as in Java, never negative. */
  function StartX(lines: seq<string>, consoleWidth: int): nat
  {
    Max0(Div(consoleWidth - MaxLineLength(lines), 2))
  }

  /** The top margin: half the spare height, truncated as in Java, never negative. */
  function StartY(lines: seq<string>, consoleHeight: int): nat
  {
    Max0(Div(consoleHeight - |lines|, 2))
  }

  /** Each line preceded by `indent` spaces and followed by a newline, in order. */
  function Indented(lines: seq<string>, indent: nat): string
  {
    if |lines| == 0 then ""
    else Indented(lines[..|lines| - 1], indent) + (Spaces(indent) + lines[|lines| - 1] + "\n")
  }

  /** What `getCenteredText` returns for the given lines. */
  function CenteredText(lines: seq<string>, consoleWidth: int, consoleHeight: int): string
  {
    Newlines(StartY(lines, consoleHeight)) + Indented(lines, StartX(lines, consoleWidth))
  }

  /** The first loop of `getCenteredText`: the running maximum of the line lengths. */
  method LongestLineLength(lines: seq<string>) returns (maxLineLength: nat)
    ensures maxLineLength == MaxLineLength(lines)
  {
    maxLineLength := 0;
    for i := 0 to |lines|
      invariant maxLineLength == MaxLineLength(lines[..i])
    {
      assert lines[..i + 1][..i] == lines[..i];
      if |lines[i]| > maxLineLength {
        maxLineLength := |lines[i]|;
      }
    }
    assert lines[..|lines|] == lines;
  }

  /**
   * `getCenteredText(text)` on a console of the given size: splits the text,
   * measures the longest line, then emits the top margin and the indented lines.
   */
  method GetCenteredText(text: string, consoleWidth: int, consoleHeight: int) returns (centered: string)
    ensures centered == CenteredText(JavaSplit(text), consoleWidth, consoleHeight)
  {
    var lines := JavaSplit(text);
    var maxLineLength := LongestLineLength(lines);
    var startX := Div(consoleWidth - maxLineLength, 2);
    var startY := Div(consoleHeight - |lines|, 2);
    if startX < 0 { startX := 0; }
    if startY < 0 { startY := 0; }

    assert startX == StartX(lines, consoleWidth) && startY == StartY(lines, consoleHeight);

    var top := TopMargin(startY);
    centered := AppendIndented(top, lines, startX);
  }

  /** The second loop of `getCenteredText`: one newline per line of top margin. */
  method TopMargin(startY: nat) returns (sb: string)
    ensures sb == Newlines(startY)
  {
    sb := "";
    for i := 0 to startY
      invariant sb == Newlines(i)
    {
      assert Newlines(i + 1) == Newlines(i) + "\n";
      sb := sb + "\n";
    }
  }

  /** The last loop of `getCenteredText`: each line indented and ended, appended in order. */
  method AppendIndented(top: string, lines: seq<string>, startX: int) returns (sb: string)
    ensures sb == top + Indented(lines, Max0(startX))
  {
    sb := top;
    assert Indented(lines[..0], Max0(startX)) == "";
    for i := 0 to |lines|
      invariant sb == top + Indented(lines[..i], Max0(startX))
    {
      ghost var done := lines[..i + 1];
      assert done[..i] == lines[..i] && done[i] == lines[i];
      var line := Spaces(Max0(startX)) + lines[i] + "\n";
      assert Indented(done, Max0(startX)) == Indented(lines[..i], Max0(startX)) + line;
      AppendAssoc(top, Indented(lines[..i], Max0(startX)), line);
      sb := sb + line;
    }
    assert lines[..|lines|] == lines;
  }

  lemma AppendAssoc(a: string, b: string, c: string)
    ensures a + b + c == a + (b + c)
  {
  }

  /** Because negative margins are clamped to 0, truncating and flooring division agree. */
  lemma TruncationIrrelevant(a: int)
    ensures Max0(Div(a, 2)) == Max0(a / 2)
  {
  }

  /**
   * The longest line is centred: when it fits, the spaces to its left and
   * those left over on its right differ by at most one; the same holds
   * vertically for the margins above and below the block of lines.
   */
  lemma CenteringBalanced(lines: seq<string>, consoleWidth: int, consoleHeight: int)
    ensures MaxLineLength(lines) <= consoleWidth ==>
      var left := StartX(lines, consoleWidth);
      var right := consoleWidth - MaxLineLength(lines) - left;
      left <= right <= left + 1
    ensures |lines| <= consoleHeight ==>
      var top := StartY(lines, consoleHeight);
      var bottom := consoleHeight - |lines| - top;
      top <= bottom <= top + 1
  {
  }

  /** The lines emitted, each followed by a newline, joined with the final empty piece. */
  function PaddedLines(lines: seq<string>, indent: nat): (r: seq<string>)
    ensures |r| == |lines|
    ensures forall i :: 0 <= i < |lines| ==> r[i] == Spaces(indent) + lines[i]
  {
    seq(|lines|, i requires 0 <= i < |lines| => Spaces(indent) + lines[i])
  }

  lemma {:induction false} IndentedAsJoin(lines: seq<string>, indent: nat)
    ensures Indented(lines, indent) == JoinLines(PaddedLines(lines, indent) + [""])
  {
    if |lines| == 0 {
      assert PaddedLines(lines, indent) + [""] == [""];
    } else {
      var init := lines[..|lines| - 1];
      var last := lines[|lines| - 1];
      IndentedAsJoin(init, indent);
      JoinAppend(PaddedLines(init, indent), Spaces(indent) + last);
      assert PaddedLines(init, indent) + [Spaces(indent) + last, ""] == PaddedLines(lines, indent) + [""];
    }
  }

  lemma {:induction false} JoinAppend(pieces: seq<string>, line: string)
    ensures JoinLines(pieces + [""]) + line + "\n" == JoinLines(pieces + [line, ""])
  {
    if |pieces| > 0 {
      JoinAppend(pieces[1..], line);
      assert (pieces + [""])[1..] == pieces[1..] + [""];
      assert (pieces + [line, ""])[1..] == pieces[1..] + [line, ""];
    }
  }

  lemma {:induction false} NewlinesAsJoin(n: nat, pieces: seq<string>)
    requires |pieces| >= 1
    ensures Newlines(n) + JoinLines(pieces) == JoinLines(seq(n, _ => "") + pieces)
  {
    var blanks := seq(n, _ => "");
    if n == 0 {
      assert blanks + pieces == pieces;
    } else {
      NewlinesAsJoin(n - 1, pieces);
      assert Newlines(n) == "\n" + Newlines(n - 1);
      assert (blanks + pieces)[0] == "";
      assert (blanks + pieces)[1..] == seq(n - 1, _ => "") + pieces;
    }
  }

  /**
   * The lines of the centred text: `StartY` empty lines, then every input
   * line indented by `StartX` spaces, in order, and nothing after the last
   * newline.
   */
  lemma CenteredTextLines(lines: seq<string>, consoleWidth: int, consoleHeight: int)
    requires forall i :: 0 <= i < |lines| ==> '\n' !in lines[i]
    ensures SplitAll(CenteredText(lines, consoleWidth, consoleHeight)) ==
      seq(StartY(lines, consoleHeight), _ => "") + PaddedLines(lines, StartX(lines, consoleWidth)) + [""]
  {
    var x, y := StartX(lines, consoleWidth), StartY(lines, consoleHeight);
    var pieces := seq(y, _ => "") + PaddedLines(lines, x) + [""];
    IndentedAsJoin(lines, x);
    NewlinesAsJoin(y, PaddedLines(lines, x) + [""]);
    assert seq(y, _ => "") + (PaddedLines(lines, x) + [""]) == pieces;
    assert CenteredText(lines, consoleWidth, consoleHeight) == JoinLines(pieces);
    SplitJoin(pieces);
  }

  /** Each string preceded by a newline, in order: the shape of text built by `append("\n" + x)`. */
  function Prefixed(xs: seq<string>): string
  {
    if |xs| == 0 then "" else Prefixed(xs[..|xs| - 1]) + ("\n" + xs[|xs| - 1])
  }

  lemma {:induction false} JoinSnoc(pieces: seq<string>, x: string)
    requires |pieces| >= 1
    ensures JoinLines(pieces + [x]) == JoinLines(pieces) + "\n" + x
  {
    if |pieces| > 1 {
      JoinSnoc(pieces[1..], x);
      assert (pieces + [x])[1..] == pieces[1..] + [x];
    }
  }

  lemma {:induction false} PrefixedAsJoin(xs: seq<string>)
    ensures Prefixed(xs) == JoinLines([""] + xs)
  {
    if |xs| > 0 {
      PrefixedAsJoin(xs[..|xs| - 1]);
      JoinSnoc([""] + xs[..|xs| - 1], xs[|xs| - 1]);
      assert [""] + xs[..|xs| - 1] + [xs[|xs| - 1]] == [""] + xs;
    }
  }

  /** Splitting such text gives an empty first line and then the strings, one per line. */
  lemma PrefixedLines(xs: seq<string>)
    requires forall i :: 0 <= i < |xs| ==> '\n' !in xs[i]
    ensures SplitAll(Prefixed(xs)) == [""] + xs
  {
    PrefixedAsJoin(xs);
    SplitJoin([""] + xs);
  }

  /** A text that contains a newline and does not end with one splits into all its pieces. */
  lemma JavaSplitKeepsAll(text: string)
    requires |text| == 0 || text[|text| - 1] != '\n'
    ensures JavaSplit(text) == SplitAll(text)
  {
    if '\n' in text {
      LastPieceNotEmpty(text);
    } else {
      SplitAllOfLine(text);
    }
  }

  lemma {:induction false} LastPieceNotEmpty(text: string)
    requires |text| > 0 && text[|text| - 1] != '\n'
    ensures SplitAll(text)[|SplitAll(text)| - 1] != ""
  {
    if |text| > 1 {
      LastPieceNotEmpty(text[1..]);
    }
  }

  /** The strings of a sequence written one after another. */
  function ConcatAll(xs: seq<string>): (s: string)
    ensures (forall i :: 0 <= i < |xs| ==> '\n' !in xs[i]) ==> '\n' !in s
  {
    if |xs| == 0 then "" else ConcatAll(xs[..|xs| - 1]) + xs[|xs| - 1]
  }
}
