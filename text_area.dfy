/**
 * The multi-line editor of src/text_area.rs: a buffer of lines, a cursor
 * (row `cursorY`, column `cursorX`) and a scroll offset over `visibleLines`
 * rows.
 *
 * Two facts hold after every operation: the buffer has at least one line and
 * the cursor row is a line of it (`Valid`). The column is NOT kept inside the
 * line: the vertical moves leave it alone, so it can point past the end of a
 * shorter line (`CursorInLine` fails), and the operations that index the line
 * at the column (`InsertNewLine`, `DeleteChar`) then demand it. When the
 * cursor row lies inside the scroll window, `InsertNewLine`, `DeleteChar` and
 * the vertical moves keep it there; the horizontal moves do not scroll.
 */
module TextAreas {
  import opened Wrappers
  import Strings

  /**
   * The row offset `adjust_scroll` chooses for cursor row `y`: unchanged when
   * `y` is already visible, otherwise the nearest offset that shows it.
   */
  function FollowOffset(y: nat, offset: nat, visible: nat): (r: nat)
    ensures visible >= 1 ==> r <= y < r + visible
    ensures offset <= y < offset + visible ==> r == offset
  {
    if y < offset then y
    else if y >= offset + visible then y - visible + 1
    else offset
  }

  /** The window `[offset, offset + visible)` contains row `y`. */
  predicate InWindow(y: nat, offset: nat, visible: nat) {
    offset <= y < offset + visible
  }

  /**
   * `FollowOffset` brings the row into a window of at least one line, leaves
   * an offset that already shows it alone, and otherwise puts the row on the
   * nearest edge of the window.
   */
  lemma FollowOffsetShows(y: nat, offset: nat, visible: nat)
    requires visible >= 1
    ensures InWindow(y, FollowOffset(y, offset, visible), visible)
    ensures InWindow(y, offset, visible) ==> FollowOffset(y, offset, visible) == offset
    ensures y < offset ==> FollowOffset(y, offset, visible) == y
    ensures y >= offset + visible ==> FollowOffset(y, offset, visible) + visible == y + 1
  {
  }

  /** `s.insert(x, c)` when `x` is inside the line, `s.push(c)` otherwise. */
  function InsertOrPush(s: string, x: nat, c: char): (r: string)
    ensures |r| == |s| + 1
    ensures x <= |s| ==> r == Strings.InsertAt(s, x, c)
    ensures x >= |s| ==> r == s + [c]
    ensures var q := Min(x, |s|); r[..q] == s[..q] && r[q] == c && r[q + 1..] == s[q..]
  {
    if x >= |s| then s + [c] else Strings.InsertAt(s, x, c)
  }

  class TextArea {
    var text: seq<string>
    var cursorX: nat
    var cursorY: nat
    var scrollOffset: nat
    var labelText: string
    var helper: Option<string>
    var visibleLines: nat

    /** At least one line, and the cursor row is one of them. */
    ghost predicate Valid()
      reads this
    {
      |text| >= 1 && cursorY < |text|
    }

    /** The column is within the current line (at most at its end). */
    ghost predicate CursorInLine()
      reads this
      requires Valid()
    {
      cursorX <= |text[cursorY]|
    }

    /** The cursor row is inside the scroll window. */
    ghost predicate CursorVisible()
      reads this
    {
      InWindow(cursorY, scrollOffset, visibleLines)
    }

    /** `TextArea::new`: one empty line, cursor (0, 0), offset 0. */
    constructor (labelText: string, helperText: Option<string>, visibleLines: nat)
      ensures Valid() && CursorInLine()
      ensures text == [""] && cursorX == 0 && cursorY == 0 && scrollOffset == 0
      ensures this.labelText == labelText && helper == helperText && this.visibleLines == visibleLines
      ensures visibleLines >= 1 ==> CursorVisible()
    {
      text := [""];
      cursorX := 0;
      cursorY := 0;
      scrollOffset := 0;
      this.labelText := labelText;
      helper := helperText;
      this.visibleLines := visibleLines;
    }

    /**
     * `insert_char`: a newline splits the line; any other character goes in
     * at the column (appended when the column is at or past the end of the
     * line), and the column, clamped to the line, moves one past it.
     */
    method InsertChar(c: char)
      requires Valid()
      requires c == '\n' ==> CursorInLine()
      modifies this
      ensures Valid() && CursorInLine()
      ensures labelText == old(labelText) && helper == old(helper) && visibleLines == old(visibleLines)
      ensures c == '\n' ==> SplitAtCursor(old(text), old(cursorY), old(cursorX))
      ensures c == '\n' ==> cursorY == old(cursorY) + 1 && cursorX == 0
      ensures c == '\n' ==> scrollOffset == FollowOffset(cursorY, old(scrollOffset), visibleLines)
      ensures c != '\n' ==>
        && |text| == old(|text|)
        && cursorY == old(cursorY)
        && text == old(text)[cursorY := InsertOrPush(old(text[cursorY]), old(cursorX), c)]
        && cursorX == Min(old(cursorX) + 1, |text[cursorY]|)
        && scrollOffset == old(scrollOffset)
      ensures c != '\n' && old(CursorInLine()) ==> cursorX == old(cursorX) + 1
      ensures old(CursorVisible()) || (c == '\n' && visibleLines >= 1) ==> CursorVisible()
    {
      if c == '\n' {
        InsertNewLine();
      } else {
        if cursorX >= |text[cursorY]| {
          text := text[cursorY := text[cursorY] + [c]];
        } else {
          text := text[cursorY := Strings.InsertAt(text[cursorY], cursorX, c)];
        }
        cursorX := cursorX + 1;
      }
      EnsureCursorWithinBounds();
    }

    /** `new` splits `old` at row `y`, column `x`; every other line keeps its place. */
    ghost predicate SplitAtCursor(old0: seq<string>, y: nat, x: nat)
      reads this
      requires y < |old0| && x <= |old0[y]|
    {
      && |text| == |old0| + 1
      && text[..y] == old0[..y]
      && text[y] == old0[y][..x]
      && text[y + 1] == old0[y][x..]
      && text[y + 2..] == old0[y + 1..]
    }

    /**
     * `insert_new_line`: the text at and after the column moves to a new line
     * just below, the cursor goes to the start of it, and the window follows.
     */
    method InsertNewLine()
      requires Valid() && CursorInLine()
      modifies this
      ensures Valid() && CursorInLine()
      ensures SplitAtCursor(old(text), old(cursorY), old(cursorX))
      ensures cursorY == old(cursorY) + 1 && cursorX == 0
      ensures text[cursorY - 1] + text[cursorY] == old(text[cursorY])
      ensures scrollOffset == FollowOffset(cursorY, old(scrollOffset), visibleLines)
      ensures visibleLines >= 1 ==> CursorVisible()
      ensures labelText == old(labelText) && helper == old(helper) && visibleLines == old(visibleLines)
    {
      var line := text[cursorY];
      text := text[..cursorY] + [line[..cursorX], line[cursorX..]] + text[cursorY + 1..];
      assert line[..cursorX] + line[cursorX..] == line;
      cursorY := cursorY + 1;
      cursorX := 0;
      AdjustScroll();
    }

    /** `ensure_cursor_within_bounds`: clamp the row to the buffer, then the column to the row. */
    method EnsureCursorWithinBounds()
      requires |text| >= 1
      modifies this`cursorX, this`cursorY
      ensures Valid() && CursorInLine()
      ensures cursorY == Min(old(cursorY), |text| - 1)
      ensures cursorX == Min(old(cursorX), |text[cursorY]|)
    {
      if cursorY >= |text| {
        cursorY := |text| - 1;
      }
      if cursorX > |text[cursorY]| {
        cursorX := |text[cursorY]|;
      }
    }

    /** `adjust_scroll`: move the window just enough to show the cursor row. */
    method AdjustScroll()
      modifies this`scrollOffset
      ensures scrollOffset == FollowOffset(cursorY, old(scrollOffset), visibleLines)
      ensures visibleLines >= 1 ==> CursorVisible()
      ensures old(CursorVisible()) ==> scrollOffset == old(scrollOffset)
    {
      if cursorY < scrollOffset {
        scrollOffset := cursorY;
      } else if cursorY >= scrollOffset + visibleLines {
        scrollOffset := cursorY - visibleLines + 1;
      }
      FollowOffsetShows(cursorY, old(scrollOffset), if visibleLines == 0 then 1 else visibleLines);
    }

    /** `move_cursor_left`: one column left, or from column 0 to the end of the previous line. */
    method MoveCursorLeft()
      requires Valid()
      modifies this`cursorX, this`cursorY
      ensures Valid()
      ensures old(cursorX) > 0 ==> cursorX == old(cursorX) - 1 && cursorY == old(cursorY)
      ensures old(cursorX) == 0 && old(cursorY) > 0 ==>
        cursorY == old(cursorY) - 1 && cursorX == |text[cursorY]|
      ensures old(cursorX) == 0 && old(cursorY) == 0 ==> cursorX == 0 && cursorY == 0
      ensures old(CursorInLine()) ==> CursorInLine()
    {
      if cursorX > 0 {
        cursorX := cursorX - 1;
      } else if cursorY > 0 {
        cursorY := cursorY - 1;
        cursorX := |text[cursorY]|;
      }
    }

    /** `move_cursor_right`: one column right, or from the end of a line to the start of the next. */
    method MoveCursorRight()
      requires Valid()
      modifies this`cursorX, this`cursorY
      ensures Valid()
      ensures old(cursorX) < old(|text[cursorY]|) ==> cursorX == old(cursorX) + 1 && cursorY == old(cursorY)
      ensures old(cursorX) >= old(|text[cursorY]|) && old(cursorY) < |text| - 1 ==>
        cursorY == old(cursorY) + 1 && cursorX == 0
      ensures old(cursorX) >= old(|text[cursorY]|) && old(cursorY) == |text| - 1 ==>
        cursorX == old(cursorX) && cursorY == old(cursorY)
      ensures old(CursorInLine()) ==> CursorInLine()
    {
      if cursorX < |text[cursorY]| {
        cursorX := cursorX + 1;
      } else if cursorY < |text| - 1 {
        cursorY := cursorY + 1;
        cursorX := 0;
      }
    }

    /**
     * `move_cursor_down`: one row down unless on the last line, scrolling by
     * one when the row leaves the window. The column is not clamped.
     */
    method MoveCursorDown()
      requires Valid()
      modifies this`cursorY, this`scrollOffset
      ensures Valid()
      ensures cursorY == Min(old(cursorY) + 1, |text| - 1)
      ensures scrollOffset == if old(cursorY) < |text| - 1 && cursorY >= old(scrollOffset) + visibleLines
                              then old(scrollOffset) + 1 else old(scrollOffset)
      ensures old(CursorVisible()) ==> CursorVisible()
    {
      if cursorY < |text| - 1 {
        cursorY := cursorY + 1;
        if cursorY >= scrollOffset + visibleLines {
          scrollOffset := scrollOffset + 1;
        }
      }
    }

    /**
     * `move_cursor_up`: one row up unless on the first line, scrolling by one
     * when the row leaves the window. The column is not clamped.
     */
    method MoveCursorUp()
      requires Valid()
      modifies this`cursorY, this`scrollOffset
      ensures Valid()
      ensures cursorY == SatSub(old(cursorY), 1)
      ensures scrollOffset == if old(cursorY) > 0 && cursorY < old(scrollOffset)
                              then old(scrollOffset) - 1 else old(scrollOffset)
      ensures old(CursorVisible()) ==> CursorVisible()
    {
      if cursorY > 0 {
        cursorY := cursorY - 1;
        if cursorY < scrollOffset {
          scrollOffset := scrollOffset - 1;
        }
      }
    }

    /**
     * `delete_char` (backspace): removes the character left of the cursor;
     * at column 0 below the first line, appends the line to the previous one
     * and removes it, the cursor landing at the old end of the previous line;
     * at (0, 0) nothing changes.
     */
    method DeleteChar()
      requires Valid() && CursorInLine()
      modifies this
      ensures Valid() && CursorInLine()
      ensures labelText == old(labelText) && helper == old(helper) && visibleLines == old(visibleLines)
      ensures old(cursorX) > 0 ==>
        && cursorY == old(cursorY) && cursorX == old(cursorX) - 1
        && text == old(text)[cursorY := Strings.RemoveAt(old(text[cursorY]), old(cursorX) - 1)]
        && scrollOffset == old(scrollOffset)
      ensures old(cursorX) == 0 && old(cursorY) > 0 ==>
        && |text| == old(|text|) - 1
        && cursorY == old(cursorY) - 1
        && cursorX == old(|text[cursorY - 1]|)
        && text[..cursorY] == old(text[..cursorY - 1])
        && text[cursorY] == old(text[cursorY - 1]) + old(text[cursorY])
        && text[cursorY + 1..] == old(text[cursorY + 1..])
        && scrollOffset == if cursorY < old(scrollOffset) then old(scrollOffset) - 1 else old(scrollOffset)
      ensures old(cursorX) == 0 && old(cursorY) == 0 ==>
        text == old(text) && cursorX == 0 && cursorY == 0 && scrollOffset == old(scrollOffset)
      ensures old(CursorVisible()) ==> CursorVisible()
    {
      if cursorX > 0 {
        text := text[cursorY := Strings.RemoveAt(text[cursorY], cursorX - 1)];
        cursorX := cursorX - 1;
      } else if cursorY > 0 {
        var currentLine := text[cursorY];
        text := text[..cursorY] + text[cursorY + 1..];
        cursorY := cursorY - 1;
        cursorX := |text[cursorY]|;
        text := text[cursorY := text[cursorY] + currentLine];
        if cursorY < scrollOffset {
          if scrollOffset > 0 {
            scrollOffset := scrollOffset - 1;
          }
        }
      }
    }

    // -------------------------------------------------------------------------
    // Corrected moves (see the findings in README.md)
    // -------------------------------------------------------------------------

    /** `move_cursor_up` followed by `ensure_cursor_within_bounds`: the column is clamped. */
    method MoveCursorUpClamped()
      requires Valid()
      modifies this`cursorX, this`cursorY, this`scrollOffset
      ensures Valid() && CursorInLine()
      ensures cursorY == SatSub(old(cursorY), 1)
      ensures cursorX == Min(old(cursorX), |text[cursorY]|)
      ensures scrollOffset == if old(cursorY) > 0 && cursorY < old(scrollOffset)
                              then old(scrollOffset) - 1 else old(scrollOffset)
      ensures old(CursorVisible()) ==> CursorVisible()
    {
      MoveCursorUp();
      EnsureCursorWithinBounds();
    }

    /** `move_cursor_down` followed by `ensure_cursor_within_bounds`: the column is clamped. */
    method MoveCursorDownClamped()
      requires Valid()
      modifies this`cursorX, this`cursorY, this`scrollOffset
      ensures Valid() && CursorInLine()
      ensures cursorY == Min(old(cursorY) + 1, |text| - 1)
      ensures cursorX == Min(old(cursorX), |text[cursorY]|)
      ensures scrollOffset == if old(cursorY) < |text| - 1 && cursorY >= old(scrollOffset) + visibleLines
                              then old(scrollOffset) + 1 else old(scrollOffset)
      ensures old(CursorVisible()) ==> CursorVisible()
    {
      MoveCursorDown();
      EnsureCursorWithinBounds();
    }

    /** `move_cursor_left` followed by `adjust_scroll`: the window follows a wrap to the previous line. */
    method MoveCursorLeftFollowing()
      requires Valid()
      modifies this`cursorX, this`cursorY, this`scrollOffset
      ensures Valid()
      ensures old(cursorX) > 0 ==> cursorX == old(cursorX) - 1 && cursorY == old(cursorY)
      ensures old(cursorX) == 0 && old(cursorY) > 0 ==>
        cursorY == old(cursorY) - 1 && cursorX == |text[cursorY]|
      ensures old(cursorX) == 0 && old(cursorY) == 0 ==> cursorX == 0 && cursorY == 0
      ensures scrollOffset == FollowOffset(cursorY, old(scrollOffset), visibleLines)
      ensures old(CursorInLine()) ==> CursorInLine()
      ensures visibleLines >= 1 ==> CursorVisible()
    {
      MoveCursorLeft();
      AdjustScroll();
    }

    /** `move_cursor_right` followed by `adjust_scroll`: the window follows a wrap to the next line. */
    method MoveCursorRightFollowing()
      requires Valid()
      modifies this`cursorX, this`cursorY, this`scrollOffset
      ensures Valid()
      ensures old(cursorX) < old(|text[cursorY]|) ==> cursorX == old(cursorX) + 1 && cursorY == old(cursorY)
      ensures old(cursorX) >= old(|text[cursorY]|) && old(cursorY) < |text| - 1 ==>
        cursorY == old(cursorY) + 1 && cursorX == 0
      ensures old(cursorX) >= old(|text[cursorY]|) && old(cursorY) == |text| - 1 ==>
        cursorX == old(cursorX) && cursorY == old(cursorY)
      ensures scrollOffset == FollowOffset(cursorY, old(scrollOffset), visibleLines)
      ensures old(CursorInLine()) ==> CursorInLine()
      ensures visibleLines >= 1 ==> CursorVisible()
    {
      MoveCursorRight();
      AdjustScroll();
    }
  }

  // ---------------------------------------------------------------------------
  // Properties over sequences of calls, and the unit-test scenarios
  // ---------------------------------------------------------------------------

  /** `insert_new_line` then `delete_char` gives back the lines and the cursor. */
  method NewLineThenDeleteRestores(t: TextArea)
    requires t.Valid() && t.CursorInLine()
    modifies t
    ensures t.Valid() && t.CursorInLine()
    ensures t.text == old(t.text)
    ensures t.cursorX == old(t.cursorX) && t.cursorY == old(t.cursorY)
  {
    ghost var lines, y, x := t.text, t.cursorY, t.cursorX;
    t.InsertNewLine();
    t.DeleteChar();
    assert t.text[..y] == lines[..y];
    assert t.text[y] == lines[y];
    assert t.text[y + 1..] == lines[y + 1..];
    assert t.text == t.text[..y] + [t.text[y]] + t.text[y + 1..];
    assert lines == lines[..y] + [lines[y]] + lines[y + 1..];
  }

  /** A character typed and then deleted leaves the lines as they were. */
  method InsertThenDeleteRestores(t: TextArea, c: char)
    requires t.Valid() && t.CursorInLine() && c != '\n'
    modifies t
    ensures t.text == old(t.text)
    ensures t.cursorX == old(t.cursorX) && t.cursorY == old(t.cursorY)
  {
    ghost var line := t.text[t.cursorY];
    t.InsertChar(c);
    t.DeleteChar();
    Strings.RemoveInsert(line, old(t.cursorX), c);
  }

  /** The insert test: typing 'a' into a new text area puts "a" on the first line. */
  method InsertCharScenario() returns (first: string)
    ensures first == "a"
  {
    var t := new TextArea("Example", None, 3);
    t.InsertChar('a');
    assert t.text[0] == "" + ['a'];
    first := t.text[0];
  }

  /** The newline test: 'a' then a newline gives two lines, ["a", ""], with the cursor on the second. */
  method TypingScenario() returns (lines: seq<string>, x: nat, y: nat)
    ensures |lines| == 2 && lines == ["a", ""] && x == 0 && y == 1
  {
    var t := new TextArea("Example", None, 3);
    t.InsertChar('a');
    assert t.text[0] == "" + ['a'] == "a";
    assert t.text == [t.text[0]] == ["a"];
    t.InsertChar('\n');
    lines, x, y := t.text, t.cursorX, t.cursorY;
  }

  /** The cursor test: after "ab", left gives column 1, right 2; after a newline, up row 0, down row 1. */
  method CursorMovementScenario() returns (left: nat, right: nat, up: nat, down: nat)
    ensures left == 1 && right == 2 && up == 0 && down == 1
  {
    var t := new TextArea("Example", None, 3);
    t.InsertChar('a');
    t.InsertChar('b');
    t.MoveCursorLeft();
    left := t.cursorX;
    t.MoveCursorRight();
    right := t.cursorX;
    t.InsertChar('\n');
    t.MoveCursorUp();
    up := t.cursorY;
    t.MoveCursorDown();
    down := t.cursorY;
  }

  /**
   * The scrolling test: five times 'a' then a newline with three visible
   * lines, then four moves down (all at the last line) leave offset 3.
   */
  method ScrollingScenario() returns (offset: nat, row: nat)
    ensures offset == 3 && row == 5
  {
    var t := new TextArea("Example", None, 3);
    var i := 0;
    while i < 5
      invariant 0 <= i <= 5
      invariant t.Valid() && t.CursorInLine() && t.visibleLines == 3
      invariant |t.text| == i + 1 && t.cursorY == i && t.cursorX == 0
      invariant t.scrollOffset == SatSub(i, 2)
    {
      t.InsertChar('a');
      t.InsertChar('\n');
      i := i + 1;
    }
    t.MoveCursorDown();
    t.MoveCursorDown();
    t.MoveCursorDown();
    t.MoveCursorDown();
    offset, row := t.scrollOffset, t.cursorY;
  }

  /**
   * The deletion test: at (0, 0) after a newline and a move up, `delete_char`
   * does nothing, so the first line keeps its single character.
   */
  method DeleteScenario() returns (first: string, lineCount: nat)
    ensures first == "a" && lineCount == 2
  {
    var t := new TextArea("Example", None, 3);
    t.InsertChar('a');
    assert t.text[0] == "" + ['a'];
    t.InsertChar('b');
    assert t.text[0] == "a" + ['b'] == "ab";
    assert t.text == [t.text[0]] == ["ab"];
    t.DeleteChar();
    assert t.text == ["a"] && t.cursorX == 1;
    t.InsertChar('\n');
    t.MoveCursorUp();
    assert t.cursorX == 0 && t.cursorY == 0;
    t.DeleteChar();
    first, lineCount := t.text[0], |t.text|;
  }

  /**
   * As written, a move up keeps the column of a longer line: after a
   * newline and "abc" on the second line, moving up leaves column 3 on the
   * empty first line, where `delete_char` and `insert_new_line` would index
   * past the end of the line.
   */
  method ColumnOverrunScenario() returns (column: nat, lineLength: nat)
    ensures column == 3 && lineLength == 0
  {
    var t := new TextArea("Example", None, 3);
    t.InsertChar('\n');
    assert t.text == ["", ""];
    t.InsertChar('a');
    assert t.text[1] == "" + ['a'];
    t.InsertChar('b');
    assert t.text[1] == "a" + ['b'];
    t.InsertChar('c');
    assert t.text[1] == "ab" + ['c'] == "abc";
    assert t.cursorX == 3;
    t.MoveCursorUp();
    column, lineLength := t.cursorX, |t.text[t.cursorY]|;
  }

  /**
   * As written, a move left from column 0 does not scroll: with one visible
   * line, a newline scrolls to offset 1, and moving left to the end of line
   * 0 leaves the cursor row above the window.
   */
  method WindowEscapeScenario() returns (row: nat, offset: nat)
    ensures row == 0 && offset == 1
  {
    var t := new TextArea("Example", None, 1);
    t.InsertChar('\n');
    assert t.cursorY == 1 && t.scrollOffset == 1 && t.cursorX == 0;
    t.MoveCursorLeft();
    row, offset := t.cursorY, t.scrollOffset;
  }
}
