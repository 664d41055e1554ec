# rustubble widget core in Dafny

rustubble is a set of terminal UI widgets (a Rust crate built on crossterm and
ratatui). This project models the state and logic of ten of them and proves
properties about that model:

- `TextArea` (`TextAreas`): a multi-line editor with a cursor, a scroll offset and a window of lines.
- `TextInput` (`Inputs`): a one-line input with a placeholder.
- `ItemList` (`Lists`): a filterable list with cyclic selection.
- `Menu` (`Menus`): a cyclic menu whose items can be toggled.
- `Table` (`Tables`): column widths, table width, the selected row and the visible rows.
- `Viewport` (`Viewports`): a scrolling viewport over wrapped text.
- `Command` and `CommandInfo` (`Commands`): key presses mapped to commands, with their labels.
- `HelpComponent` (`HelpComponents`): the help legend built from the active commands.
- `StopWatch` (`Stopwatches`) and `Timer` (`Timers`): clock texts built from `Duration`s (`Durations`).

Widgets whose methods update their fields in place are Dafny classes. Each
method states its whole new state in `ensures`, plus the invariant it keeps
(the cursor inside the text, the cursor or selected row inside the visible
window, the scroll offset within its bound). Pure logic is written as
functions with lemmas: cyclic index arithmetic, filtering, the key table,
column widths, and the clock texts.

A call that panics in Rust becomes a `requires` on the modelled method. An
example is `Table::move_cursor_down` on an empty table, where
`len() - 1` underflows. Each unit test in src/ is restated as a method
that builds the widget and proves the values the test asserts. The menu
test cannot pass as written; "## Findings" gives both halves of it.

`Wrappers` holds `Option`, saturating subtraction, `Min` and `Max`.
`Strings` holds the string operations the widgets use: `String::insert`,
`String::remove`, ASCII `to_lowercase`, `str::contains`, and the decimal
and zero-padded renderings of `format!`.

## Model

| member | source | states |
|---|---|---|
| Strings.InsertAt | src/input.rs:47 | inserting `c` at `i` puts `c` at `i`, keeps the characters before it and shifts the rest one place right |
| Strings.RemoveAt | src/input.rs:53 | removing at `i` keeps the characters before `i`, shifts the rest one place left and shortens the string by one |
| Strings.RemoveInsert | src/text_area.rs:41 | removing the character just inserted at `i` gives back the original string |
| Strings.DecimalRoundTrip | src/stopwatch.rs:56 | the `{}` text of `n` is all digits and reads back as `n` |
| Strings.DecimalNoLeadingZero | src/stopwatch.rs:56 | the `{}` text of `n` starts with '0' exactly when `n` is 0 |
| Strings.DecimalLength | src/stopwatch.rs:57 | the `{}` text of `n` fits in `k` digits exactly when `n < 10^k` |
| Strings.ZeroPaddedWidth | src/stopwatch.rs:55 | `{:0w}` is at least `w` characters, and exactly `w` exactly when the value is below `10^w` |
| Strings.ZeroPaddedRoundTrip | src/stopwatch.rs:55 | the zero-padded text of `n` reads back as `n` |
| Strings.Decimal | src/stopwatch.rs:56 | the `{}` rendering of a number: at least one character, all digits |
| Strings.ZeroPadded | src/stopwatch.rs:55 | the `{:0w}` rendering of a number: all digits |
| Strings.Lower | src/list.rs:48-49 | lower-casing keeps the length, folds each character on its own, leaves no upper-case ASCII letter, and keeps every other character |
| Strings.LowerIdempotent | src/list.rs:48-49 | lower-casing twice is lower-casing once |
| Strings.Contains | src/list.rs:49 | `str::contains`: a contained needle is no longer than the haystack, and a prefix is always contained |
| Strings.ContainsIsOccurrence | src/list.rs:49 | `contains` holds exactly when the needle occurs at some position of the haystack |
| Strings.ContainsEmpty | src/list.rs:49 | every string contains the empty string |
| Strings.ContainsNeedsFirstChar | src/list.rs:49 | a string holding none of the needle's first character does not contain the needle |
| TextAreas.FollowOffset | src/text_area.rs:67-73 | the offset `adjust_scroll` picks: with a window of at least one line the cursor row is inside it, and an offset that already shows the row is kept |
| TextAreas.FollowOffsetShows | src/text_area.rs:67-73 | the followed offset puts the cursor row in the window, and is unchanged when the row was already visible |
| TextAreas.InsertOrPush | src/text_area.rs:38-42 | pushing past the end and inserting inside the line both put `c` at the cursor column (or the line end), with the text before and after it unchanged |
| TextAreas.TextArea.constructor | src/text_area.rs:22-32 | one empty line, cursor and offset at 0, and the label, helper and window height as given |
| TextAreas.TextArea.InsertChar | src/text_area.rs:34-46 | a newline splits the line at the cursor; any other character goes in at the cursor column; the cursor advances and stays in the text |
| TextAreas.TextArea.InsertNewLine | src/text_area.rs:48-54 | the line is split at the cursor and the two halves rebuild it; the cursor is at the start of the new line and is shown |
| TextAreas.TextArea.EnsureCursorWithinBounds | src/text_area.rs:57-64 | row and column are clamped to the last line and to the line's length |
| TextAreas.TextArea.AdjustScroll | src/text_area.rs:67-73 | the offset follows the cursor into the window and does not move when the cursor was visible |
| TextAreas.TextArea.MoveCursorLeft | src/text_area.rs:82-89 | one column left, or the end of the previous line at column 0, or nothing at the very start |
| TextAreas.TextArea.MoveCursorRight | src/text_area.rs:91-98 | one column right, or the start of the next line at the line end, or nothing at the very end |
| TextAreas.TextArea.MoveCursorDown | src/text_area.rs:100-109 | one row down but not past the last line; the offset moves by one when the row leaves the window, so a visible cursor stays visible |
| TextAreas.TextArea.MoveCursorUp | src/text_area.rs:111-119 | one row up but not above row 0; the offset moves by one when the row leaves the window, so a visible cursor stays visible |
| TextAreas.TextArea.DeleteChar | src/text_area.rs:121-137 | removes the character left of the cursor, or merges the line into the previous one at column 0; a no-op at the very start |
| TextAreas.TextArea.MoveCursorUpClamped | src/text_area.rs:111-119 | the corrected upward move: the row and the offset as in `move_cursor_up`, and the column clamped to the new line, so the cursor stays in the text |
| TextAreas.TextArea.MoveCursorDownClamped | src/text_area.rs:100-109 | the corrected downward move: the row and the offset as in `move_cursor_down`, and the column clamped to the new line, so the cursor stays in the text |
| TextAreas.TextArea.MoveCursorLeftFollowing | src/text_area.rs:82-89 | the corrected left move: the cursor moves as in `move_cursor_left`, and the offset follows it as `adjust_scroll` does, so a wrap onto a line above the window scrolls it into view |
| TextAreas.TextArea.MoveCursorRightFollowing | src/text_area.rs:91-98 | the corrected right move: the cursor moves as in `move_cursor_right`, and the offset follows it as `adjust_scroll` does, so a wrap onto a line below the window scrolls it into view |
| TextAreas.NewLineThenDeleteRestores | src/text_area.rs:48-54 | a newline followed by a delete gives back the same lines and cursor |
| TextAreas.InsertThenDeleteRestores | src/text_area.rs:34-46 | a character followed by a delete gives back the same lines and cursor |
| TextAreas.InsertCharScenario | src/text_area.rs:259-263 | typing 'a' into a new text area gives the first line "a" |
| TextAreas.TypingScenario | src/text_area.rs:266-272 | after 'a' and a newline there are two lines, "a" and "", and the cursor is on the second |
| TextAreas.CursorMovementScenario | src/text_area.rs:275-288 | after "ab": left gives column 1 and right column 2; after a newline, up gives row 0 and down row 1 |
| TextAreas.DeleteScenario | src/text_area.rs:291-303 | "ab" less one character is "a", and the delete at the start after moving up changes nothing |
| TextAreas.ScrollingScenario | src/text_area.rs:306-317 | five lines typed into a three-line window leave the offset at 3 |
| TextAreas.ColumnOverrunScenario | src/text_area.rs:111-119 | as written, moving up from column 3 onto an empty line leaves the column at 3 on a line of length 0 |
| TextAreas.WindowEscapeScenario | src/text_area.rs:82-89 | as written, moving left onto a row above the window leaves the row at 0 with offset 1 |
| Inputs.TextInput.constructor | src/input.rs:22-39 | the initial text with the cursor at its end, and the other fields as given |
| Inputs.TextInput.InsertChar | src/input.rs:41-49 | text equal to the placeholder, or empty, is replaced by the character; otherwise the character goes in at the cursor; the cursor advances |
| Inputs.TextInput.DeleteChar | src/input.rs:51-56 | removes the character left of the cursor and moves the cursor back, or does nothing at 0 |
| Inputs.TextInput.MoveCursorLeft | src/input.rs:58-62 | the cursor moves left, stopping at 0 |
| Inputs.TextInput.MoveCursorRight | src/input.rs:64-68 | the cursor moves right, stopping at the text's end |
| Inputs.InsertScenario | src/input.rs:189-194 | typing 'a' into an empty input gives "a" with the cursor at 1 |
| Inputs.DeleteScenario | src/input.rs:197-202 | deleting from "a" gives "" with the cursor at 0 |
| Inputs.MoveLeftScenario | src/input.rs:205-210 | in "ab", right then left leaves the cursor at 1 |
| Inputs.MoveRightScenario | src/input.rs:213-220 | in "abc", the cursor stops at 3 |
| Inputs.PlaceholderScenario | src/input.rs:41-49 | typing into an input showing its placeholder replaces the placeholder |
| Lists.Matches | src/list.rs:46-50 | the filter test: the empty filter matches every item, and a matching filter is no longer than the title |
| Lists.FilterItems | src/list.rs:43-52 | the filtered list is no longer than the item list |
| Lists.FilterMembership | src/list.rs:43-52 | an item is kept exactly when it is in the list and its lower-cased title contains the lower-cased filter |
| Lists.FilterCounts | src/list.rs:43-52 | the view holds each matching item exactly as many times as the list does, and no other item |
| Lists.FilterKeepsOrder | src/list.rs:43-52 | the kept items are a subsequence of the list, in their original order |
| Lists.FilterAllMatch | src/list.rs:43-52 | when every item matches, filtering changes nothing |
| Lists.FilterEmpty | src/list.rs:43-52 | the empty filter keeps every item |
| Lists.FilterIgnoresSubtitle | src/list.rs:46-50 | lists whose titles agree filter alike, whatever the subtitles |
| Lists.NextIndex | src/list.rs:127-133 | the next index is within the filtered list |
| Lists.PreviousIndex | src/list.rs:135-141 | the previous index is within the filtered list |
| Lists.NextWraps | src/list.rs:129 | next is one more, and wraps from the last item to 0 |
| Lists.PreviousWraps | src/list.rs:137 | previous is one less, and wraps from 0 to the last item |
| Lists.NextPreviousInverse | src/list.rs:127-141 | next and previous undo each other |
| Lists.NextTimesCountsUp | src/list.rs:127-133 | `k` steps of next from `i` reach `i + k` while they stay in the list |
| Lists.NextTimesAdd | src/list.rs:127-133 | `a + b` steps of next are `a` steps then `b` steps |
| Lists.NextCycle | src/list.rs:127-133 | as many steps of next as there are items come back to the start |
| Lists.ItemList.constructor | src/list.rs:28-39 | all items shown, empty filter, the first item selected |
| Lists.ItemList.UpdateFilter | src/list.rs:42-54 | the filtered list is exactly the matching items in order, and the selection goes back to 0 |
| Lists.ItemList.GetSelectedItem | src/list.rs:56-60 | an item is returned exactly when the selection is inside the filtered list, and it is the selected one |
| Lists.ItemList.Next | src/list.rs:127-133 | the selection moves cyclically forward, or becomes 0 when there was none |
| Lists.ItemList.Previous | src/list.rs:135-141 | the selection moves cyclically back, or becomes 0 when there was none |
| Lists.InitialScenario | src/list.rs:234-247 | a new list selects item 0 |
| Lists.NavigationScenario | src/list.rs:250-269 | with two items, next, next, previous select 1, 0, 1 |
| Lists.FilterScenario | src/list.rs:272-294 | "Ginger" keeps only Ginger and "Pocky" keeps only Pocky |
| Lists.SelectionScenario | src/list.rs:297-313 | after one next, the selected item is Ginger |
| Menus.DownIndex | src/menu_list.rs:128-140 | the index after `down` is inside the menu |
| Menus.UpIndex | src/menu_list.rs:114-126 | the index after `up` is inside the menu |
| Menus.DownUpAreCyclic | src/menu_list.rs:114-140 | `down` adds one and `up` subtracts one, both modulo the menu length |
| Menus.DownUpInverse | src/menu_list.rs:114-140 | `up` undoes `down` and `down` undoes `up` |
| Menus.DownTimesCountsUp | src/menu_list.rs:128-140 | `k` downs from `i` reach `i + k` while they stay in the menu |
| Menus.DownTimesAdd | src/menu_list.rs:128-140 | `a + b` downs are `a` downs then `b` downs |
| Menus.DownCycle | src/menu_list.rs:128-140 | as many downs as there are items come back to the start |
| Menus.Toggled | src/menu_list.rs:142-146 | toggling flips the chosen item's flag and changes nothing else |
| Menus.ToggleTwice | src/menu_list.rs:142-146 | toggling the same item twice restores the menu |
| Menus.Menu.constructor | src/menu_list.rs:29-47 | one unselected item per name, in order, and the cursor on item 0 |
| Menus.Menu.Up | src/menu_list.rs:114-126 | the cursor moves cyclically up |
| Menus.Menu.Down | src/menu_list.rs:128-140 | the cursor moves cyclically down |
| Menus.Menu.ToggleSelection | src/menu_list.rs:142-146 | the item under the cursor is toggled and the names are kept |
| Menus.ToggleTwiceRestores | src/menu_list.rs:142-146 | toggling twice restores the items and the cursor |
| Menus.DownThenUpRestores | src/menu_list.rs:114-140 | down then up restores the cursor |
| Menus.Menu.UpChecked | src/menu_list.rs:114-126 | the corrected `up`: as `up` on a non-empty menu, and an empty menu keeps its cursor at `Some(0)` |
| Menus.Menu.DownChecked | src/menu_list.rs:128-140 | the corrected `down`: as `down` on a non-empty menu, and an empty menu keeps its cursor at `Some(0)` |
| Menus.Menu.ToggleSelectionChecked | src/menu_list.rs:142-146 | the corrected `toggle_selection`: toggles the item under the cursor, and a cursor past the items changes nothing |
| Menus.EmptyMenuScenario | src/menu_list.rs:219-222 | as written, the test's new empty menu has its cursor at `Some(0)` with no items, which is outside what `up` accepts |
| Menus.EmptyMenuCheckedScenario | src/menu_list.rs:219-226 | with the corrected methods, the test's `up`, `down` and `toggle_selection` on an empty menu leave the cursor at `Some(0)` |
| Tables.CellMax | src/table.rs:57-61 | the inner loop's running maximum over the first `j` rows; never below its start |
| Tables.ColumnWidth | src/table.rs:55-61 | the width of one column; at least its padded header |
| Tables.ColumnWidths | src/table.rs:47-64 | there is one width per header |
| Tables.CellMaxIsMax | src/table.rs:57-61 | the inner loop's maximum is at least its start and every padded cell, and equals one of them |
| Tables.ColumnWidthIsMax | src/table.rs:55-61 | a column's width is the largest of its padded header and its padded cells |
| Tables.Sum | src/table.rs:34 | `iter().sum()` of the widths: 0 for no columns, and at least each width |
| Tables.TableWidth | src/table.rs:34 | `table_width`: more than the border count `len() + 1`, and wider than each column |
| Tables.SumMonotone | src/table.rs:34 | the total is monotone in the widths |
| Tables.BorderWidth | src/table.rs:166-185 | the border's `table_width - (len + 1)` does not underflow, and it is the total of the widths, at least the total of the padded headers |
| Tables.RowDown | src/table.rs:191-198 | the row after `move_cursor_down`: one more, unless on the last row (or past it), where it stays; a row inside the table stays inside |
| Tables.RowUp | src/table.rs:200-207 | the row after `move_cursor_up`: one less, unless at row 0, where it stays |
| Tables.RowDownTimesClamps | src/table.rs:191-198 | `k` downs from `row` reach `min(row + k, n - 1)` |
| Tables.DownFromTopReachesBottom | src/table.rs:191-198 | `n - 1` downs from the top reach the last row, and further downs stay there |
| Tables.VisibleRows | src/table.rs:83-91 | the drawn rows are the rows from the offset, cut at the window and at the data's end |
| Tables.VisibleRowsShowSelection | src/table.rs:89-91 | each drawn row is the data row at its position, exactly one is highlighted when the selection is in the window, and the highlighted one is the selected row |
| Tables.Table.CalculateColumnWidths | src/table.rs:47-64 | the nested loops compute exactly the maximum widths |
| Tables.Table.constructor | src/table.rs:24-45 | the table width is the total of the column widths plus one border per column and one more |
| Tables.Table.MoveCursorDown | src/table.rs:191-198 | one row down but not past the last; the offset scrolls by one so that a visible selection stays visible |
| Tables.Table.MoveCursorUp | src/table.rs:200-207 | one row up but not above 0; the offset scrolls by one so that a visible selection stays visible |
| Viewports.MaxOffset | src/viewport.rs:143 | the largest offset is 0 when the content fits, and otherwise the lines that do not fit |
| Viewports.Viewport.constructor | src/viewport.rs:17-26 | the fields as given and the offset at 0, within bounds for any content |
| Viewports.Viewport.ScrollUp | src/viewport.rs:132-136 | the offset goes down by one, stopping at 0 |
| Viewports.Viewport.ScrollDown | src/viewport.rs:137-146 | the offset goes up by one while below the largest offset, and never past it |
| Viewports.Viewport.PageDown | src/viewport.rs:148-156 | the offset goes up by a page, cut at the largest offset |
| Viewports.Viewport.PageUp | src/viewport.rs:158-161 | the offset goes down by a page, stopping at 0 |
| Viewports.NoScrollScenario | src/viewport.rs:231-236 | content that fits does not scroll |
| Viewports.ScrollDownScenario | src/viewport.rs:239-251 | seven lines in a 3-line viewport scroll to 1, then stop at 4 |
| Viewports.ScrollUpScenario | src/viewport.rs:254-266 | from offset 2, up gives 1, and further ups stop at 0 |
| Viewports.PageScenario | src/viewport.rs:269-281 | ten lines in a 3-line viewport page down to 3 and 6, and page up back to 3 |
| Viewports.ScrollToBottom | src/viewport.rs:137-146 | repeated scrolling down ends exactly at the largest offset |
| Commands.Describe | src/command.rs:18-32 | the command a key press means: ControlC exactly for 'c' with CONTROL alone, Quit exactly for 'q', Filter exactly for '/' |
| Commands.Key | src/command.rs:34-48 | a command's key label: non-empty, without spaces |
| Commands.AsStr | src/command.rs:50-64 | a command's description: one non-empty lower-case word |
| Commands.CommandOfKey | src/command.rs:34-48 | a decoded key label is the label of the decoded command |
| Commands.CommandOfDescription | src/command.rs:50-64 | a decoded description is the description of the decoded command |
| Commands.KeyRoundTrip | src/command.rs:34-48 | each command's key label decodes back to that command |
| Commands.DescriptionRoundTrip | src/command.rs:50-64 | each command's description decodes back to that command |
| Commands.LabelsInjective | src/command.rs:34-64 | no two commands share a key label or a description |
| Commands.ControlCExactly | src/command.rs:20 | the key means ControlC exactly when it is 'c' with CONTROL alone; 'c' with other modifiers means Help |
| Commands.ModifiersIgnored | src/command.rs:21-30 | for every key but 'c', the modifiers do not change the command |
| Commands.ListedKeys | src/command.rs:21-28 | each listed key means its command whatever the modifiers |
| Commands.UnlistedKeysMeanHelp | src/command.rs:30 | every other key means Help |
| Commands.NewCommandInfo | src/command.rs:75-82 | the modifiers are kept, and the key label and the description are those of the command the key means |
| HelpComponents.EntrySpans | src/help.rs:42-56 | the spans of one entry: three with a separator when another entry follows, otherwise two with no separator; the first is the key and a space |
| HelpComponents.LegendPrefix | src/help.rs:41-56 | the spans after `k` rounds of the loop: between `2k` and `3k` of them, starting with the first command's key |
| HelpComponents.LegendPrefixLength | src/help.rs:41-56 | every entry but the last takes three spans and the last takes two |
| HelpComponents.LegendLayout | src/help.rs:41-56 | entry `j` is at span `3j`: its key and a space, then its description, then a separator when another entry follows |
| HelpComponents.LegendEndsWithDescription | src/help.rs:54-56 | a legend never ends with a separator |
| HelpComponents.HelpComponent.constructor | src/help.rs:19-25 | both lists kept, normal mode active |
| HelpComponents.HelpComponent.ActivateFilterMode | src/help.rs:28-30 | the filter list becomes the active list |
| HelpComponents.HelpComponent.DeactivateFilterMode | src/help.rs:33-35 | the normal list becomes the active list |
| HelpComponents.HelpComponent.Render | src/help.rs:41-69 | round `k` of the loop draws the legend of the first `k + 1` commands, and the last round draws all `3n - 1` spans |
| HelpComponents.ActivateThenDeactivateRestores | src/help.rs:28-35 | filter mode then normal mode restores the active list and keeps both lists |
| HelpComponents.ModeSwitchScenario | src/help.rs:19-35 | each switch is idempotent, and the normal list never changes |
| HelpComponents.TwoCommandLegend | src/help.rs:41-56 | "q quit" and "/ filter" give key, description, separator, key, description |
| Durations.AsSecs | src/stopwatch.rs:50 | the whole seconds of a duration |
| Durations.SubsecMillis | src/stopwatch.rs:49 | the whole milliseconds of the fractional second, below 1000 |
| Durations.ShowMsReadsBack | src/stopwatch.rs:55 | the `ms` text is the prefix, three digits of milliseconds and "ms" |
| Durations.ShowSReadsBack | src/stopwatch.rs:56 | the `s` text is the prefix, the seconds, a dot, three digits and "s" |
| Durations.ShowMReadsBack | src/stopwatch.rs:57 | the `m` text is the prefix, the minutes, a colon, two digits, a dot, three digits and "m" |
| Durations.ShowHReadsBack | src/stopwatch.rs:58-64 | the `h` text is the prefix and hours, minutes, seconds and milliseconds at fixed widths, then "h" |
| Durations.FormatClock | src/stopwatch.rs:48-66 | the clock text starts with its prefix and ends with its unit: `s` below a minute (`ms`, `s`), `m` below an hour, `h` from an hour on |
| Durations.ClockFields | src/stopwatch.rs:51-52 | `(secs / 60) / 60` is `secs / 3600`, and hours, minutes and seconds rebuild the whole seconds |
| Durations.FormatClockMillis | src/stopwatch.rs:54-55 | under a second, the text shows the milliseconds in three digits |
| Durations.FormatClockSeconds | src/stopwatch.rs:56 | under a minute, the text shows one or two digits of seconds and three of milliseconds |
| Durations.FormatClockMinutes | src/stopwatch.rs:57 | under an hour, the text shows minutes and two-digit seconds below 60 that rebuild the whole seconds |
| Durations.FormatClockHours | src/stopwatch.rs:58-64 | from an hour on, the text shows hours plus minutes and seconds below 60, and together they rebuild the whole seconds |
| Stopwatches.StopWatch.constructor | src/stopwatch.rs:19-24 | started at the clock reading, running |
| Stopwatches.StopWatch.Elapsed | src/stopwatch.rs:26-32 | while running, the time since the start (0 before it); when stopped, 0 |
| Stopwatches.StopWatch.Toggle | src/stopwatch.rs:33-42 | `running` flips, and the start stays where it was |
| Stopwatches.StopWatch.Reset | src/stopwatch.rs:43-46 | started again at the clock reading, running, with nothing elapsed |
| Stopwatches.FormatDuration | src/stopwatch.rs:48-66 | the stopwatch text starts with "Elapsed: " and ends with the unit of the elapsed time |
| Stopwatches.FormatDurationHours | src/stopwatch.rs:48-66 | from an hour on, the text shows hours plus reduced minutes and seconds that rebuild the elapsed seconds |
| Stopwatches.FormatDurationExample | src/stopwatch.rs:58-64 | 1 h 2 min 3.456 s shows as "Elapsed: 1:02:03.456h" |
| Stopwatches.PauseScenario | src/stopwatch.rs:26-42 | stopped at 5 s, the stopwatch shows 0; resumed at 8 s, it shows 10 s at 10 s |
| Timers.NewTimer | src/timer.rs:19-24 | started at the clock reading, with the whole duration remaining |
| Timers.TimeRemaining | src/timer.rs:26-33 | the remaining time is the duration less the elapsed time, and 0 once that is used up |
| Timers.RemainingNonIncreasing | src/timer.rs:26-33 | the remaining time never grows as the clock advances |
| Timers.RemainingZeroExactly | src/timer.rs:26-33 | the remaining time is 0 exactly when the duration is 0 or has passed since the start |
| Timers.FormatRemainingAsWritten | src/timer.rs:35-54 | as written, the text starts with "Exiting in ", ends with the unit of the remaining time, and under a millisecond reads "Exiting in 000ms" |
| Timers.TimerTextAsWritten | src/timer.rs:35-54 | as written, the timer's text at a clock reading; once the duration has passed it reads "Exiting in 000ms" |
| Timers.NinetySecondsAsWritten | src/timer.rs:39-50 | as written, a 90-second timer reads "Exiting in 1:90.000m" |
| Timers.AsWrittenFieldsOvercount | src/timer.rs:40-46 | as written, from a minute on the printed seconds field reads back as the whole remaining seconds, at least 60, so it is never a reduced seconds field |
| Timers.FormatRemaining | src/timer.rs:35-54 | the corrected text: "Exiting in ", the unit of the remaining time at the end, and "Exiting in 000ms" under a millisecond |
| Timers.TimerText | src/timer.rs:35-54 | the corrected timer text at a clock reading; once the duration has passed it reads "Exiting in 000ms" |
| Timers.BelowAMinuteAgrees | src/timer.rs:43-45 | under a minute the text as written and the corrected text agree |
| Timers.CorrectedFieldsRebuild | src/timer.rs:35-54 | the corrected text shows reduced minutes and seconds (and hours) that rebuild the remaining seconds |
| Timers.NinetySecondsCorrected | src/timer.rs:35-54 | corrected, a 90-second timer reads "Exiting in 1:30.000m" |

## Left out

- Rendering is not modelled: every `render`, the border and row drawing of `Table`, `update_cursor_position`, `hide_cursor` and `show_cursor`. They write to the terminal.
- The widgets' key handlers and event loops (`handle_*`) are not modelled. They read terminal events.
- `Tables.VisibleRows` models only the row range `render` draws (src/table.rs:83-91) and which row is highlighted, not the text of the rows.
- `HelpComponents.HelpComponent.Render`: only the spans drawn in each round are modelled. The paragraph layout, wrapping and buffer writes are not.
- src/helper.rs, src/spinner.rs, src/progress_bar.rs, src/main.rs and the examples directory are not part of this model.
- Viewports.Viewport.ScrollDown: the count of wrapped lines is a parameter `lines`. The `textwrap` word wrapping that computes it is not modelled. The same holds for PageDown and `Valid`.
- Viewports.Viewport.ScrollDown: the `width - 2 * padding` subtraction that builds the wrap options becomes the precondition `2 * padding <= width`. PageDown has the same precondition.
- The viewport footer's progress percentage is not modelled. It uses `f32` arithmetic, and `wrapped_lines.len() - self.height` underflows when the content fits.
- Text is modelled as sequences of characters. Rust's `len()`, `insert` and `remove` count UTF-8 bytes, and the model counts characters, which agrees for ASCII text.
- Strings.Lower: folds only 'A'..'Z'. `to_lowercase` also folds the rest of Unicode.
- `usize` and `u16` are unbounded here. Overflow of `+ 1` and of the `u16` screen coordinates is not modelled. The underflows the code can hit are preconditions or findings.
- `ListState` is modelled by its selected index only. Its scroll offset belongs to ratatui's renderer.
- The clock is a parameter: `Instant::now()` and `elapsed()` become a reading `now` in nanoseconds.
- Stopwatches.StopWatch.Toggle: the two clock readings are collapsed into one. Rust reads `Instant::now()` and then `elapsed()`, a few nanoseconds apart, so the real start drifts by that gap at each toggle.
- Commands.Describe: crossterm's key codes that the table never names (media keys, modifier keys, and so on) are collapsed into `OtherKey`. All of them mean Help either way.
- Menus.Menu.Up: requires a non-empty menu when the cursor is on item 0, because `self.items.len() - 1` underflows on an empty menu. `Down` requires one whenever a cursor is set, and `ToggleSelection` a cursor inside the menu. "## Findings" records this, and the `Checked` methods are the corrected versions.
- HelpComponents.Separator: the separator at src/help.rs:55 is kept as written. It is the three characters U+00E2 U+20AC U+00A2, not a bullet.
- Lists.ItemList.Next: requires a non-empty view whenever a selection is set. Rust panics there with `% 0` (src/list.rs:129), and the key handler reaches it after a filter that matches nothing, because `update_filter` selects 0 even for an empty view. The same holds for Lists.ItemList.Previous (src/list.rs:137).
- `Menu` title, subtitle and `ItemList`'s `showing_filter` are stored but only rendering reads them.

## Findings

| source | as written | input that shows it | evidently intended | confidence | as-written member | corrected member |
|---|---|---|---|---|---|---|
| src/timer.rs:39-50 | minutes and seconds are printed unreduced: `secs` whole, `minutes = secs / 60` whole | a 90-second timer shows "Exiting in 1:90.000m" | "Exiting in 1:30.000m", reducing each field below 60 as src/stopwatch.rs:57-63 does | high, not executed | Timers.NinetySecondsAsWritten | Timers.NinetySecondsCorrected |
| src/text_area.rs:100-119 | moving up or down keeps `cursor_x` even when the new line is shorter | lines ["", "abc"] with the cursor at (3, 1), then up: `cursor_x` is 3 on an empty line; a delete then calls `remove(2)` and a newline calls `split_off(3)`, and both panic | clamp the column to the new line's length, as `ensure_cursor_within_bounds` does | high, not executed | TextAreas.ColumnOverrunScenario | TextAreas.TextArea.MoveCursorUpClamped |
| src/text_area.rs:82-98 | moving left or right onto another line never adjusts `scroll_offset` | a one-line window, two lines, offset 1, cursor at (0, 1), then left: the cursor is on row 0 above the window, and `cursor_y - scroll_offset` at src/text_area.rs:76 underflows | follow the cursor with `adjust_scroll`, as `insert_new_line` does | medium, not executed | TextAreas.WindowEscapeScenario | TextAreas.TextArea.MoveCursorLeftFollowing |
| src/menu_list.rs:114-146 | `up` and `down` compute `self.items.len() - 1` and `toggle_selection` indexes `self.items[i]`, even on an empty menu, whose cursor `new` sets to `Some(0)` | the crate's own test at src/menu_list.rs:219-226: an empty menu, then `up`, which underflows | an empty menu keeps its cursor at `Some(0)` through `up`, `down` and `toggle_selection`, as that test asserts | high, not executed | Menus.EmptyMenuScenario | Menus.EmptyMenuCheckedScenario |
