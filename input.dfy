/**
 * The single-line input of src/input.rs: a text and a cursor position, with
 * an optional placeholder. Typing over an empty text, or over a text equal to
 * the placeholder, replaces it. Every operation keeps the cursor within
 * `[0, |text|]` (`Valid`).
 */
module Inputs {
  import opened Wrappers
  import Strings

  /** `placeholder.as_ref().map_or("", String::as_str)`. */
  function PlaceholderOrEmpty(placeholder: Option<string>): string {
    match placeholder
    case Some(p) => p
    case None => ""
  }

  class TextInput {
    var text: string
    var cursorPosition: nat
    var placeholder: Option<string>
    var padding: nat
    var labelText: string
    var helper: Option<string>
    var prefix: string

    ghost predicate Valid()
      reads this
    {
      cursorPosition <= |text|
    }

    /** True when the next typed character replaces the whole text. */
    ghost predicate ShowsPlaceholder()
      reads this
    {
      text == PlaceholderOrEmpty(placeholder) || text == ""
    }

    /** `TextInput::new`: the cursor starts at the end of the initial text. */
    constructor (placeholder: Option<string>, padding: nat, initialText: string,
                 labelText: string, helperText: Option<string>, prefix: string)
      ensures Valid()
      ensures text == initialText && cursorPosition == |initialText|
      ensures this.placeholder == placeholder && this.padding == padding
      ensures this.labelText == labelText && helper == helperText && this.prefix == prefix
    {
      text := initialText;
      cursorPosition := |initialText|;
      this.placeholder := placeholder;
      this.padding := padding;
      this.labelText := labelText;
      helper := helperText;
      this.prefix := prefix;
    }

    /**
     * `insert_char`: over the placeholder or an empty text the text becomes
     * just `c`; otherwise `c` goes in at the cursor. The cursor moves past it.
     */
    method InsertChar(c: char)
      requires Valid()
      modifies this`text, this`cursorPosition
      ensures Valid()
      ensures old(ShowsPlaceholder()) ==> text == [c] && cursorPosition == 1
      ensures !old(ShowsPlaceholder()) ==>
        text == Strings.InsertAt(old(text), old(cursorPosition), c) &&
        cursorPosition == old(cursorPosition) + 1
    {
      if text == PlaceholderOrEmpty(placeholder) || text == "" {
        text := "";
        cursorPosition := 0;
      }
      text := Strings.InsertAt(text, cursorPosition, c);
      cursorPosition := cursorPosition + 1;
    }

    /** `delete_char`: removes the character before the cursor; a no-op at 0. */
    method DeleteChar()
      requires Valid()
      modifies this`text, this`cursorPosition
      ensures Valid()
      ensures old(cursorPosition) > 0 ==>
        text == Strings.RemoveAt(old(text), old(cursorPosition) - 1) &&
        cursorPosition == old(cursorPosition) - 1
      ensures old(cursorPosition) == 0 ==> text == old(text) && cursorPosition == 0
    {
      if cursorPosition > 0 {
        text := Strings.RemoveAt(text, cursorPosition - 1);
        cursorPosition := cursorPosition - 1;
      }
    }

    /** `move_cursor_left`: one step left, stopping at 0. */
    method MoveCursorLeft()
      requires Valid()
      modifies this`cursorPosition
      ensures Valid()
      ensures cursorPosition == SatSub(old(cursorPosition), 1)
    {
      if cursorPosition > 0 {
        cursorPosition := cursorPosition - 1;
      }
    }

    /** `move_cursor_right`: one step right, stopping at the end of the text. */
    method MoveCursorRight()
      requires Valid()
      modifies this`cursorPosition
      ensures Valid()
      ensures cursorPosition == Min(old(cursorPosition) + 1, |text|)
    {
      if cursorPosition < |text| {
        cursorPosition := cursorPosition + 1;
      }
    }
  }

  // ---------------------------------------------------------------------------
  // Unit-test scenarios
  // ---------------------------------------------------------------------------

  /** Typing 'a' into an empty input without placeholder: text "a", cursor 1. */
  method InsertScenario() returns (text: string, cursor: nat)
    ensures text == "a" && cursor == 1
  {
    var input := new TextInput(None, 0, "", "Label", None, "");
    input.InsertChar('a');
    text, cursor := input.text, input.cursorPosition;
  }

  /** Backspace on "a" with the cursor at its end: text "", cursor 0. */
  method DeleteScenario() returns (text: string, cursor: nat)
    ensures text == "" && cursor == 0
  {
    var input := new TextInput(None, 0, "a", "Label", None, "");
    input.DeleteChar();
    text, cursor := input.text, input.cursorPosition;
  }

  /** On "ab": right (already at the end), then left, leaves the cursor at 1. */
  method MoveLeftScenario() returns (cursor: nat)
    ensures cursor == 1
  {
    var input := new TextInput(None, 0, "ab", "Label", None, "");
    input.MoveCursorRight();
    input.MoveCursorLeft();
    cursor := input.cursorPosition;
  }

  /** On "abc": right, right, left, right leaves the cursor at the end, 3. */
  method MoveRightScenario() returns (cursor: nat)
    ensures cursor == 3
  {
    var input := new TextInput(None, 0, "abc", "Label", None, "");
    input.MoveCursorRight();
    input.MoveCursorRight();
    input.MoveCursorLeft();
    input.MoveCursorRight();
    cursor := input.cursorPosition;
  }

  /** Typing over a text equal to the placeholder replaces it. */
  method PlaceholderScenario() returns (text: string, cursor: nat)
    ensures text == "x" && cursor == 1
  {
    var input := new TextInput(Some("name"), 0, "name", "Label", None, "");
    input.InsertChar('x');
    text, cursor := input.text, input.cursorPosition;
  }
}
