/**
 * The help legend of src/help.rs: a normal and a filter-mode command list,
 * the list currently shown, and the spans `render` builds for it.
 */
module HelpComponents {
  import opened Wrappers
  import opened Commands

  /** The styles of the legend: key labels dark grey, descriptions dark grey and bold. */
  datatype Style = Default | DarkGray | DarkGrayBold

  datatype Span = Span(content: string, style: Style)

  /**
   * The separator pushed between two entries, as written at help.rs:55: the
   * characters U+00E2 U+20AC U+00A2, the UTF-8 bytes of a bullet read as
   * Windows-1252, between two spaces.
   */
  const Separator: string := " \U{00E2}\U{20AC}\U{00A2} "

  /** The spans pushed for command `j` of `n`: key and space, description, and a separator unless last. */
  function EntrySpans(cmd: CommandInfo, j: nat, n: nat): (r: seq<Span>)
    ensures |r| == if j + 1 < n then 3 else 2
    ensures Span(Separator, Default) in r <==> j + 1 < n
    ensures r[0].content == cmd.key + " "
  {
    [Span(cmd.key + " ", DarkGray), Span(cmd.description, DarkGrayBold)]
      + (if j + 1 < n then [Span(Separator, Default)] else [])
  }

  /** The spans after the loop has handled the first `k` commands. */
  function LegendPrefix(cmds: seq<CommandInfo>, k: nat): (r: seq<Span>)
    requires k <= |cmds|
    ensures 2 * k <= |r| <= 3 * k
    ensures k > 0 ==> r[0] == Span(cmds[0].key + " ", DarkGray)
  {
    if k == 0 then [] else LegendPrefix(cmds, k - 1) + EntrySpans(cmds[k - 1], k - 1, |cmds|)
  }

  /** Before the last command each entry takes three spans; the last one takes two. */
  lemma {:induction false} LegendPrefixLength(cmds: seq<CommandInfo>, k: nat)
    requires k <= |cmds|
    ensures k < |cmds| ==> |LegendPrefix(cmds, k)| == 3 * k
    ensures k == |cmds| && k > 0 ==> |LegendPrefix(cmds, k)| == 3 * k - 1
  {
    if k > 0 {
      LegendPrefixLength(cmds, k - 1);
    }
  }

  /**
   * Entry `j` of the legend sits at span `3 * j`: its key and a space, then
   * its description, then the separator when another entry follows.
   */
  lemma {:induction false} LegendLayout(cmds: seq<CommandInfo>, k: nat, j: nat)
    requires j < k <= |cmds|
    ensures 3 * j + 1 < |LegendPrefix(cmds, k)|
    ensures LegendPrefix(cmds, k)[3 * j] == Span(cmds[j].key + " ", DarkGray)
    ensures LegendPrefix(cmds, k)[3 * j + 1] == Span(cmds[j].description, DarkGrayBold)
    ensures j + 1 < |cmds| ==> 3 * j + 2 < |LegendPrefix(cmds, k)| &&
                               LegendPrefix(cmds, k)[3 * j + 2] == Span(Separator, Default)
  {
    LegendPrefixLength(cmds, k - 1);
    LegendPrefixLength(cmds, k);
    if j < k - 1 {
      LegendLayout(cmds, k - 1, j);
    }
  }

  /** A full legend never ends with a separator. */
  lemma LegendEndsWithDescription(cmds: seq<CommandInfo>)
    requires |cmds| > 0
    ensures LegendPrefix(cmds, |cmds|)[|LegendPrefix(cmds, |cmds|)| - 1] ==
            Span(cmds[|cmds| - 1].description, DarkGrayBold)
  {
    LegendPrefixLength(cmds, |cmds|);
    LegendLayout(cmds, |cmds|, |cmds| - 1);
  }

  class HelpComponent {
    var normalCommands: seq<CommandInfo>
    var filterCommands: Option<seq<CommandInfo>>
    var activeCommands: seq<CommandInfo>

    /** The filter list is always present, so `activate_filter_mode`'s `unwrap` succeeds. */
    ghost predicate Valid()
      reads this
    {
      filterCommands.Some?
    }

    /** `HelpComponent::new`: normal mode. */
    constructor (normalCommands: seq<CommandInfo>, filterCommands: seq<CommandInfo>)
      ensures Valid()
      ensures this.normalCommands == normalCommands && this.filterCommands == Some(filterCommands)
      ensures activeCommands == normalCommands
    {
      this.normalCommands := normalCommands;
      this.filterCommands := Some(filterCommands);
      activeCommands := normalCommands;
    }

    /** `activate_filter_mode`: the filter list becomes the active one. */
    method ActivateFilterMode()
      requires Valid()
      modifies this`activeCommands
      ensures Valid()
      ensures activeCommands == filterCommands.value
    {
      activeCommands := filterCommands.value;
    }

    /** `deactivate_filter_mode`: the normal list becomes the active one. */
    method DeactivateFilterMode()
      modifies this`activeCommands
      ensures activeCommands == normalCommands
    {
      activeCommands := normalCommands;
    }

    /**
     * The loop of `render`: for each command it pushes the spans of its
     * entry and then draws a paragraph of the spans so far. `frames` holds
     * what each round draws; the last one is the whole legend.
     */
    method Render() returns (frames: seq<seq<Span>>)
      ensures |frames| == |activeCommands|
      ensures forall k :: 0 <= k < |frames| ==> frames[k] == LegendPrefix(activeCommands, k + 1)
      ensures |activeCommands| > 0 ==> |frames[|frames| - 1]| == 3 * |activeCommands| - 1
    {
      var spans: seq<Span> := [];
      frames := [];
      var indx := 0;
      while indx < |activeCommands|
        invariant 0 <= indx <= |activeCommands|
        invariant spans == LegendPrefix(activeCommands, indx)
        invariant |frames| == indx
        invariant forall k :: 0 <= k < indx ==> frames[k] == LegendPrefix(activeCommands, k + 1)
      {
        var cmd := activeCommands[indx];
        spans := spans + [Span(cmd.key + " ", DarkGray)];
        spans := spans + [Span(cmd.description, DarkGrayBold)];
        if indx < |activeCommands| - 1 {
          spans := spans + [Span(Separator, Default)];
        }
        frames := frames + [spans];
        indx := indx + 1;
      }
      if |activeCommands| > 0 {
        LegendPrefixLength(activeCommands, |activeCommands|);
      }
    }
  }

  /** Switching to filter mode and back restores normal mode; `normal_commands` never changes. */
  method ActivateThenDeactivateRestores(h: HelpComponent)
    requires h.Valid() && h.activeCommands == h.normalCommands
    modifies h
    ensures h.activeCommands == old(h.activeCommands)
    ensures h.normalCommands == old(h.normalCommands) && h.filterCommands == old(h.filterCommands)
  {
    h.ActivateFilterMode();
    h.DeactivateFilterMode();
  }

  /** Each mode switch is idempotent, and `normal_commands` never changes. */
  method ModeSwitchScenario(normal: seq<CommandInfo>, filter: seq<CommandInfo>)
    returns (activated: seq<CommandInfo>, activatedTwice: seq<CommandInfo>,
             deactivated: seq<CommandInfo>, deactivatedTwice: seq<CommandInfo>, normalAfter: seq<CommandInfo>)
    ensures activated == activatedTwice == filter
    ensures deactivated == deactivatedTwice == normal
    ensures normalAfter == normal
  {
    var h := new HelpComponent(normal, filter);
    h.ActivateFilterMode();
    activated := h.activeCommands;
    h.ActivateFilterMode();
    activatedTwice := h.activeCommands;
    h.DeactivateFilterMode();
    deactivated := h.activeCommands;
    h.DeactivateFilterMode();
    deactivatedTwice := h.activeCommands;
    normalAfter := h.normalCommands;
  }

  /** A two-command legend: key, description, separator, key, description. */
  method TwoCommandLegend() returns (spans: seq<Span>)
    ensures spans == [Span("q ", DarkGray), Span("quit", DarkGrayBold), Span(Separator, Default),
                      Span("/ ", DarkGray), Span("filter", DarkGrayBold)]
  {
    var quit := NewCommandInfo(Char('q'), NONE);
    var filter := NewCommandInfo(Char('/'), NONE);
    var h := new HelpComponent([quit, filter], []);
    assert quit == CommandInfo("q", NONE, "quit");
    assert filter == CommandInfo("/", NONE, "filter");
    assert "q" + " " == "q " && "/" + " " == "/ ";
    var cmds := [quit, filter];
    assert LegendPrefix(cmds, 0) == [];
    assert LegendPrefix(cmds, 1) == EntrySpans(quit, 0, 2);
    assert LegendPrefix(cmds, 2) == EntrySpans(quit, 0, 2) + EntrySpans(filter, 1, 2);
    var frames := h.Render();
    spans := frames[1];
  }
}
