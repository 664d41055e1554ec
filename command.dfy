/**
 * The key-to-command table of src/command.rs: which command a key press
 * means, the key label and the description shown for each command, and the
 * `CommandInfo` record the help legend is built from.
 */
module Commands {
  import opened Wrappers

  /** The key codes of crossterm's `KeyCode` that the table distinguishes, and the others. */
  datatype KeyCode =
    | Char(c: char)
    | Backspace | Enter | Left | Right | Up | Down | Home | End
    | PageUp | PageDown | Tab | BackTab | Delete | Insert | F(n: nat) | Null | Esc
    | OtherKey

  /** crossterm's `KeyModifiers` bit set. */
  type KeyModifiers = bv8

  const NONE: KeyModifiers := 0
  const SHIFT: KeyModifiers := 1
  const CONTROL: KeyModifiers := 2
  const ALT: KeyModifiers := 4
  const SUPER: KeyModifiers := 8
  const HYPER: KeyModifiers := 16
  const META: KeyModifiers := 32

  datatype Command = Quit | Backspace | Delete | Help | ControlC | Enter | Filter | Esc | Up | Down

  /** `Command::describe`: the first matching arm; only Ctrl+C looks at the modifiers. */
  function Describe(key: KeyCode, modifiers: KeyModifiers): (r: Command)
    ensures r == ControlC <==> key == Char('c') && modifiers == CONTROL
    ensures r == Quit <==> key == Char('q')
    ensures r == Filter <==> key == Char('/')
  {
    if key == Char('c') && modifiers == CONTROL then ControlC
    else match key
      case Backspace => Command.Backspace
      case Delete => Command.Delete
      case Char('q') => Quit
      case Char('/') => Filter
      case Enter => Command.Enter
      case Up => Command.Up
      case Down => Command.Down
      case Esc => Command.Esc
      case _ => Help
  }

  /** `Command::key`: the label of the key that triggers the command, a single word without spaces. */
  function Key(c: Command): (r: string)
    ensures |r| >= 1 && ' ' !in r
  {
    match c
    case Quit => "q"
    case Esc => "esc"
    case Backspace => "Backspace"
    case Delete => "del"
    case Help => "h"
    case ControlC => "cntrl+c"
    case Enter => "\U{2B90}"
    case Filter => "/"
    case Up => "\U{2191}/h"
    case Down => "\U{2193}/l"
  }

  /** `Command::as_str`: the description of the command, one lower-case word. */
  function AsStr(c: Command): (r: string)
    ensures |r| >= 1 && ' ' !in r
    ensures forall k :: 0 <= k < |r| ==> 'a' <= r[k] <= 'z'
  {
    match c
    case Quit => "quit"
    case Backspace => "backspace"
    case Delete => "delete"
    case ControlC => "exit"
    case Help => "help"
    case Enter => "submit"
    case Filter => "filter"
    case Up => "up"
    case Down => "down"
    case Esc => "cancel"
  }

  /** The command whose key label is `s`, if any. */
  function CommandOfKey(s: string): (r: Option<Command>)
    ensures r.Some? ==> Key(r.value) == s
  {
    if s == "q" then Some(Quit)
    else if s == "esc" then Some(Command.Esc)
    else if s == "Backspace" then Some(Command.Backspace)
    else if s == "del" then Some(Command.Delete)
    else if s == "h" then Some(Help)
    else if s == "cntrl+c" then Some(ControlC)
    else if s == "\U{2B90}" then Some(Command.Enter)
    else if s == "/" then Some(Filter)
    else if s == "\U{2191}/h" then Some(Command.Up)
    else if s == "\U{2193}/l" then Some(Command.Down)
    else None
  }

  /** The command whose description is `s`, if any. */
  function CommandOfDescription(s: string): (r: Option<Command>)
    ensures r.Some? ==> AsStr(r.value) == s
  {
    if s == "quit" then Some(Quit)
    else if s == "backspace" then Some(Command.Backspace)
    else if s == "delete" then Some(Command.Delete)
    else if s == "exit" then Some(ControlC)
    else if s == "help" then Some(Help)
    else if s == "submit" then Some(Command.Enter)
    else if s == "filter" then Some(Filter)
    else if s == "up" then Some(Command.Up)
    else if s == "down" then Some(Command.Down)
    else if s == "cancel" then Some(Command.Esc)
    else None
  }

  /** Every key label reads back as its command, so no two commands share a label. */
  lemma KeyRoundTrip(c: Command)
    ensures CommandOfKey(Key(c)) == Some(c)
  {
  }

  /** Every description reads back as its command, so no two commands share one. */
  lemma DescriptionRoundTrip(c: Command)
    ensures CommandOfDescription(AsStr(c)) == Some(c)
  {
  }

  /** `key` and `as_str` are injective over `Command`. */
  lemma LabelsInjective(a: Command, b: Command)
    ensures Key(a) == Key(b) ==> a == b
    ensures AsStr(a) == AsStr(b) ==> a == b
  {
    KeyRoundTrip(a);
    KeyRoundTrip(b);
    DescriptionRoundTrip(a);
    DescriptionRoundTrip(b);
  }

  /** Ctrl+C is recognised exactly for 'c' with the modifier set equal to CONTROL alone. */
  lemma ControlCExactly(key: KeyCode, modifiers: KeyModifiers)
    ensures Describe(key, modifiers) == ControlC <==> key == Char('c') && modifiers == CONTROL
    ensures key == Char('c') && modifiers != CONTROL ==> Describe(key, modifiers) == Help
  {
  }

  /** Apart from 'c', the modifiers never change the command. */
  lemma ModifiersIgnored(key: KeyCode, m1: KeyModifiers, m2: KeyModifiers)
    requires key != Char('c')
    ensures Describe(key, m1) == Describe(key, m2)
  {
  }

  /** The listed keys map to their commands whatever the modifiers. */
  lemma ListedKeys(modifiers: KeyModifiers)
    ensures Describe(KeyCode.Backspace, modifiers) == Command.Backspace
    ensures Describe(KeyCode.Delete, modifiers) == Command.Delete
    ensures Describe(Char('q'), modifiers) == Quit
    ensures Describe(Char('/'), modifiers) == Filter
    ensures Describe(KeyCode.Enter, modifiers) == Command.Enter
    ensures Describe(KeyCode.Up, modifiers) == Command.Up
    ensures Describe(KeyCode.Down, modifiers) == Command.Down
    ensures Describe(KeyCode.Esc, modifiers) == Command.Esc
  {
  }

  /** Every other key means Help. */
  lemma UnlistedKeysMeanHelp(key: KeyCode, modifiers: KeyModifiers)
    requires key !in {Char('c'), Char('q'), Char('/'), KeyCode.Backspace, KeyCode.Delete,
                      KeyCode.Enter, KeyCode.Up, KeyCode.Down, KeyCode.Esc}
    ensures Describe(key, modifiers) == Help
  {
  }

  datatype CommandInfo = CommandInfo(key: string, modifiers: KeyModifiers, description: string)

  /**
   * `CommandInfo::new`: keeps the modifiers; the key label and the
   * description both belong to the command the key press describes.
   */
  function NewCommandInfo(key: KeyCode, modifiers: KeyModifiers): (info: CommandInfo)
    ensures info.modifiers == modifiers
    ensures CommandOfKey(info.key) == Some(Describe(key, modifiers))
    ensures CommandOfDescription(info.description) == Some(Describe(key, modifiers))
  {
    var command := Describe(key, modifiers);
    KeyRoundTrip(command);
    DescriptionRoundTrip(command);
    CommandInfo(Key(command), modifiers, AsStr(command))
  }
}
