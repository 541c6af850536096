/**
 * The text of the board that both menus print during play
 * (`printCurrentGameStage` in src/ui/GameMenu.java and src/ui/Menu.java):
 * one line per row of glyphs after an empty first line, then the score.
 */
module UiStage {
  import opened JavaInt
  import opened UiText
  import opened DalGrid

  /** Each row's glyphs written side by side. */
  function RowStrings(rows: seq<seq<string>>): (r: seq<string>)
    ensures |r| == |rows|
    ensures forall i :: 0 <= i < |rows| ==> r[i] == ConcatAll(rows[i])
  {
    seq(|rows|, i requires 0 <= i < |rows| => ConcatAll(rows[i]))
  }

  /** No glyph on the board contains a line break. */
  predicate SingleLineGlyphs(rows: seq<seq<string>>)
  {
    forall i, j :: 0 <= i < |rows| && 0 <= j < |rows[i]| ==> '\n' !in rows[i][j]
  }

  /** GameMenu's text: the rows, then a newline and the score. */
  function GameMenuStageText(rows: seq<seq<string>>, cellCounter: int): string
  {
    Prefixed(RowStrings(rows)) + "\n" + IntToString(cellCounter)
  }

  /** Menu's text: the rows, then an empty line, then the score. */
  function MenuStageText(rows: seq<seq<string>>, cellCounter: int): string
  {
    Prefixed(RowStrings(rows)) + "\n" + "\n" + IntToString(cellCounter)
  }

  lemma RowStringsSingleLine(rows: seq<seq<string>>)
    requires SingleLineGlyphs(rows)
    ensures forall i :: 0 <= i < |rows| ==> '\n' !in RowStrings(rows)[i]
  {
    forall i | 0 <= i < |rows| ensures '\n' !in RowStrings(rows)[i] {
      assert forall j :: 0 <= j < |rows[i]| ==> '\n' !in rows[i][j];
    }
  }

  lemma PrefixedSnoc(xs: seq<string>, x: string)
    ensures Prefixed(xs + [x]) == Prefixed(xs) + ("\n" + x)
  {
    assert (xs + [x])[..|xs|] == xs;
  }

  /**
   * The lines GameMenu hands to the centring: an empty line, each row in
   * order, and the score last.
   */
  lemma {:induction false} GameMenuStageLines(rows: seq<seq<string>>, cellCounter: int)
    requires SingleLineGlyphs(rows)
    ensures JavaSplit(GameMenuStageText(rows, cellCounter)) ==
      [""] + RowStrings(rows) + [IntToString(cellCounter)]
  {
    var xs, c := RowStrings(rows), IntToString(cellCounter);
    RowStringsSingleLine(rows);
    PrefixedSnoc(xs, c);
    AppendAssoc(Prefixed(xs), "\n", c);
    var text := Prefixed(xs + [c]);
    assert text == GameMenuStageText(rows, cellCounter);
    PrefixedLines(xs + [c]);
    assert text[|text| - |c| - 1] == '\n';
    assert text[|text| - 1] == c[|c| - 1];
    JavaSplitKeepsAll(text);
  }

  /**
   * The lines Menu hands to the centring: those of GameMenu with one more
   * empty line before the score.
   */
  lemma {:induction false} MenuStageLines(rows: seq<seq<string>>, cellCounter: int)
    requires SingleLineGlyphs(rows)
    ensures JavaSplit(MenuStageText(rows, cellCounter)) ==
      [""] + RowStrings(rows) + ["", IntToString(cellCounter)]
  {
    var xs, c := RowStrings(rows), IntToString(cellCounter);
    RowStringsSingleLine(rows);
    PrefixedSnoc(xs, "");
    PrefixedSnoc(xs + [""], c);
    var text := Prefixed(xs + ["", c]);
    assert xs + ["", c] == xs + [""] + [c];
    assert text == Prefixed(xs) + "\n" + "\n" + c;
    assert text == MenuStageText(rows, cellCounter);
    PrefixedLines(xs + ["", c]);
    assert text[|text| - |c| - 1] == '\n';
    assert text[|text| - 1] == c[|c| - 1];
    JavaSplitKeepsAll(text);
  }

  /**
   * The nested loops shared by both `printCurrentGameStage` methods: for each
   * row in order a newline, then the row's glyphs from left to right.
   */
  method BoardText(grid: Grid) returns (txt: string)
    requires grid.Valid()
    ensures txt == Prefixed(RowStrings(grid.Tiles()))
  {
    ghost var rows := RowStrings(grid.Tiles());
    txt := "";
    for y := 0 to grid.yLength
      invariant txt == Prefixed(rows[..y])
    {
      ghost var before := txt;
      txt := txt + "\n";
      for x := 0 to grid.xLength
        invariant txt == before + "\n" + ConcatAll(grid.Tiles()[y][..x])
      {
        ghost var row := grid.Tiles()[y];
        assert row[..x + 1][..x] == row[..x];
        AppendAssoc(before + "\n", ConcatAll(row[..x]), grid.table[y, x]);
        txt := txt + grid.table[y, x];
      }
      assert grid.Tiles()[y][..grid.xLength] == grid.Tiles()[y];
      assert rows[..y + 1][..y] == rows[..y];
      AppendAssoc(before, "\n", rows[y]);
    }
    assert rows[..grid.yLength] == rows;
  }
}
