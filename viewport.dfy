/**
 * The scrollable viewport of src/viewport.rs. The content is wrapped into
 * lines by `textwrap`; the model takes the number of wrapped lines `lines`
 * as a parameter of each scrolling operation. The offset never passes
 * `lines ⊖ height`, the last offset that still fills the window.
 */
module Viewports {
  import opened Wrappers

  /** The largest offset `scroll_down` and `page_down` move to. */
  function MaxOffset(lines: nat, height: nat): (r: nat)
    ensures r <= lines
    ensures lines <= height ==> r == 0
    ensures lines > height ==> r + height == lines
  {
    SatSub(lines, height)
  }

  class Viewport {
    var header: string
    var content: string
    var padding: nat
    var scrollOffset: nat
    var height: nat
    var width: nat

    /** The offset is one from which the window is full, or 0. */
    ghost predicate Valid(lines: nat)
      reads this
    {
      scrollOffset <= MaxOffset(lines, height)
    }

    /** `Viewport::new`: the offset starts at 0. */
    constructor (header: string, content: string, height: nat, width: nat, padding: nat)
      ensures this.header == header && this.content == content
      ensures this.height == height && this.width == width && this.padding == padding
      ensures scrollOffset == 0
      ensures forall lines: nat :: Valid(lines)
    {
      this.header := header;
      this.content := content;
      scrollOffset := 0;
      this.padding := padding;
      this.height := height;
      this.width := width;
    }

    /** `scroll_up`: one line up, stopping at 0. */
    method ScrollUp(lines: nat)
      modifies this`scrollOffset
      ensures scrollOffset == SatSub(old(scrollOffset), 1)
      ensures old(Valid(lines)) ==> Valid(lines)
    {
      if scrollOffset > 0 {
        scrollOffset := scrollOffset - 1;
      }
    }

    /**
     * `scroll_down`: one line down exactly when the offset is below
     * `lines ⊖ height`. The wrap width `width - 2 * padding` needs
     * `2 * padding <= width`.
     */
    method ScrollDown(lines: nat)
      requires 2 * padding <= width
      modifies this`scrollOffset
      ensures old(scrollOffset) < MaxOffset(lines, height) ==> scrollOffset == old(scrollOffset) + 1
      ensures old(scrollOffset) >= MaxOffset(lines, height) ==> scrollOffset == old(scrollOffset)
      ensures old(Valid(lines)) ==> Valid(lines)
    {
      if scrollOffset < SatSub(lines, height) {
        scrollOffset := scrollOffset + 1;
      }
    }

    /** `page_down`: a window's height down, but not past `lines ⊖ height`. */
    method PageDown(lines: nat)
      requires 2 * padding <= width
      modifies this`scrollOffset
      ensures old(scrollOffset) < MaxOffset(lines, height) ==>
        scrollOffset == Min(old(scrollOffset) + height, MaxOffset(lines, height))
      ensures old(scrollOffset) >= MaxOffset(lines, height) ==> scrollOffset == old(scrollOffset)
      ensures old(Valid(lines)) ==> Valid(lines)
    {
      var maxOffset := SatSub(lines, height);
      if scrollOffset < maxOffset {
        scrollOffset := Min(scrollOffset + height, maxOffset);
      }
    }

    /** `page_up`: a window's height up, stopping at 0. */
    method PageUp(lines: nat)
      modifies this`scrollOffset
      ensures scrollOffset == SatSub(old(scrollOffset), height)
      ensures old(Valid(lines)) ==> Valid(lines)
    {
      scrollOffset := SatSub(scrollOffset, height);
    }
  }

  // ---------------------------------------------------------------------------
  // Unit-test scenarios (the test contents have one short line per "Line k")
  // ---------------------------------------------------------------------------

  /** Content that fits (1 line, height 5): `scroll_down` leaves the offset at 0. */
  method NoScrollScenario() returns (offset: nat)
    ensures offset == 0
  {
    var v := new Viewport("Test Header", "Short content", 5, 50, 2);
    v.ScrollDown(1);
    offset := v.scrollOffset;
  }

  /** Seven lines, height 3: one `scroll_down` gives 1; four more stop at 4. */
  method ScrollDownScenario() returns (afterOne: nat, atBottom: nat)
    ensures afterOne == 1 && atBottom == 4
  {
    var v := new Viewport("Test Header", "Line 1\nLine 2\nLine 3\nLine 4\nLine 5\nLine 6\nLine 7", 3, 50, 2);
    v.ScrollDown(7);
    afterOne := v.scrollOffset;
    v.ScrollDown(7);
    v.ScrollDown(7);
    v.ScrollDown(7);
    v.ScrollDown(7);
    atBottom := v.scrollOffset;
  }

  /** Seven lines, height 3: down, down, up gives 1; two more ups stop at 0. */
  method ScrollUpScenario() returns (afterUp: nat, atTop: nat)
    ensures afterUp == 1 && atTop == 0
  {
    var v := new Viewport("Test Header", "Line 1\nLine 2\nLine 3\nLine 4\nLine 5\nLine 6\nLine 7", 3, 50, 2);
    v.ScrollDown(7);
    v.ScrollDown(7);
    v.ScrollUp(7);
    afterUp := v.scrollOffset;
    v.ScrollUp(7);
    v.ScrollUp(7);
    atTop := v.scrollOffset;
  }

  /** Ten lines, height 3: page down gives 3, again 6, then page up 3. */
  method PageScenario() returns (first: nat, second: nat, back: nat)
    ensures first == 3 && second == 6 && back == 3
  {
    var v := new Viewport("Test Header",
      "Line 1\nLine 2\nLine 3\nLine 4\nLine 5\nLine 6\nLine 7\nLine 8\nLine 9\nLine 10", 3, 50, 2);
    v.PageDown(10);
    first := v.scrollOffset;
    v.PageDown(10);
    second := v.scrollOffset;
    v.PageUp(10);
    back := v.scrollOffset;
  }

  /** From any valid offset, `lines` calls of `scroll_down` reach the last full window. */
  method ScrollToBottom(v: Viewport, lines: nat) returns (offset: nat)
    requires 2 * v.padding <= v.width && v.Valid(lines)
    modifies v
    ensures offset == MaxOffset(lines, v.height) && v.scrollOffset == offset
  {
    var k := 0;
    while k < lines
      invariant 0 <= k <= lines
      invariant v.Valid(lines) && 2 * v.padding <= v.width
      invariant v.scrollOffset == Min(old(v.scrollOffset) + k, MaxOffset(lines, v.height))
      invariant v.height == old(v.height)
    {
      v.ScrollDown(lines);
      k := k + 1;
    }
    offset := v.scrollOffset;
  }
}
