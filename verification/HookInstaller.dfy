/** The Claude Code hook installer: the shell command it registers, and its rewrite of the
    settings. */
module HookInstaller {
  import opened Prelude

  const LEGACY_COMMAND := "promptlens-claude capture"
  const EVENT := "UserPromptSubmit"

  // ------------------------------------------------------------ shell quoting

  function ReplaceQuotes(text: string): string {
    if text == [] then [] else (if text[0] == '\'' then "'\"'\"'" else [text[0]]) + ReplaceQuotes(text[1..])
  }

  function ShellQuote(text: string): string {
    "'" + ReplaceQuotes(text) + "'"
  }

  function CaptureCommand(execPath: string, cliPath: string): string {
    ShellQuote(execPath) + " " + ShellQuote(cliPath) + " capture"
  }

  /** How a POSIX shell splits a simple command into words and removes quotes (sections
      2.2.1 to 2.2.3 of the POSIX Shell Command Language). */
  datatype Mode = Blank | Bare | BareEscape | Single | Double | DoubleEscape

  datatype Shell = Shell(mode: Mode, word: string, words: seq<string>)

  /** Unquoted, these start an expansion, an operator, a pattern or a comment. */
  predicate IsSpecial(c: char) {
    c in "|&;<>()$`*?[#~=%\n"
  }

  function ReadBare(s: Shell, c: char): Option<Shell> {
    if c == '\'' then Some(s.(mode := Single))
    else if c == '"' then Some(s.(mode := Double))
    else if c == '\\' then Some(s.(mode := BareEscape))
    else if IsSpecial(c) then None
    else Some(s.(mode := Bare, word := s.word + [c]))
  }

  /** Nothing if the text is more than a command of quoted and plain words. */
  function Read(s: Shell, c: char): Option<Shell> {
    match s.mode
    case Blank => if c == ' ' || c == '\t' then Some(s) else ReadBare(s, c)
    case Bare => if c == ' ' || c == '\t' then Some(Shell(Blank, [], s.words + [s.word])) else ReadBare(s, c)
    case BareEscape => if c == '\n' then Some(s.(mode := Bare)) else Some(s.(mode := Bare, word := s.word + [c]))
    case Single => if c == '\'' then Some(s.(mode := Bare)) else Some(s.(word := s.word + [c]))
    case Double =>
      if c == '"' then Some(s.(mode := Bare))
      else if c == '\\' then Some(s.(mode := DoubleEscape))
      else if c == '$' || c == '`' then None
      else Some(s.(word := s.word + [c]))
    case DoubleEscape =>
      if c == '\n' then Some(s.(mode := Double))
      else if c in "$`\"\\" then Some(s.(mode := Double, word := s.word + [c]))
      else Some(s.(mode := Double, word := s.word + ['\\', c]))
  }

  function ReadAll(s: Shell, text: string): Option<Shell>
    decreases text
  {
    if text == [] then Some(s)
    else match Read(s, text[0])
         case None => None
         case Some(next) => ReadAll(next, text[1..])
  }

  function Words(text: string): Option<seq<string>> {
    match ReadAll(Shell(Blank, [], []), text)
    case None => None
    case Some(s) =>
      match s.mode
      case Blank => Some(s.words)
      case Bare => Some(s.words + [s.word])
      case _ => None
  }

  lemma {:induction false} ReadConcat(s: Shell, a: string, b: string)
    ensures ReadAll(s, a + b) == (match ReadAll(s, a) case None => None case Some(next) => ReadAll(next, b))
    decreases a
  {
    if a == [] {
      assert a + b == b;
    } else {
      assert (a + b)[0] == a[0] && (a + b)[1..] == a[1..] + b;
      if Read(s, a[0]).Some? { ReadConcat(Read(s, a[0]).value, a[1..], b); }
    }
  }

  lemma ReadOne(s: Shell, c: char)
    ensures ReadAll(s, [c]) == Read(s, c)
  {
    assert [c][1..] == [];
  }

  /** The five characters that stand for a quote read as one quote, inside single quotes. */
  lemma ReadQuoteEscape(s: Shell)
    requires s.mode == Single
    ensures ReadAll(s, "'\"'\"'") == Some(s.(word := s.word + ['\'']))
  {
    var t := s.(mode := Bare);
    var u := s.(mode := Double);
    var v := u.(word := s.word + ['\'']);
    assert "'\"'\"'" == ['\''] + (['"'] + (['\''] + (['"'] + ['\''])));
    ReadConcat(s, ['\''], ['"'] + (['\''] + (['"'] + ['\''])));
    ReadOne(s, '\'');
    ReadConcat(t, ['"'], ['\''] + (['"'] + ['\'']));
    ReadOne(t, '"');
    ReadConcat(u, ['\''], ['"'] + ['\'']);
    ReadOne(u, '\'');
    ReadConcat(v, ['"'], ['\'']);
    ReadOne(v, '"');
    ReadOne(v.(mode := Bare), '\'');
  }

  lemma {:induction false} ReadReplaced(s: Shell, text: string)
    requires s.mode == Single
    ensures ReadAll(s, ReplaceQuotes(text)) == Some(s.(word := s.word + text))
    decreases text
  {
    if text == [] {
      assert s.word + text == s.word;
    } else {
      var head := if text[0] == '\'' then "'\"'\"'" else [text[0]];
      var next := s.(word := s.word + [text[0]]);
      ReadConcat(s, head, ReplaceQuotes(text[1..]));
      if text[0] == '\'' { ReadQuoteEscape(s); } else { ReadOne(s, text[0]); }
      ReadReplaced(next, text[1..]);
      assert s.word + [text[0]] + text[1..] == s.word + text;
    }
  }

  /** A quoted text is read as one word with exactly its characters. */
  lemma ReadShellQuote(s: Shell, text: string)
    requires s.mode == Blank && s.word == []
    ensures ReadAll(s, ShellQuote(text)) == Some(s.(mode := Bare, word := text))
  {
    var open := s.(mode := Single);
    assert ShellQuote(text) == ['\''] + (ReplaceQuotes(text) + ['\'']);
    ReadConcat(s, ['\''], ReplaceQuotes(text) + ['\'']);
    ReadOne(s, '\'');
    ReadConcat(open, ReplaceQuotes(text), ['\'']);
    ReadReplaced(open, text);
    assert [] + text == text;
    ReadOne(open.(word := text), '\'');
  }

  lemma {:induction false} ReadLetters(s: Shell, text: string)
    requires s.mode == Bare || s.mode == Blank
    requires text != [] && forall c :: c in text ==> 'a' <= c <= 'z'
    ensures ReadAll(s, text) == Some(s.(mode := Bare, word := s.word + text))
    decreases text
  {
    assert text[0] in text;
    var next := s.(mode := Bare, word := s.word + [text[0]]);
    if |text| == 1 {
      assert text == [text[0]];
      ReadOne(s, text[0]);
    } else {
      assert forall c :: c in text[1..] ==> c in text;
      ReadLetters(next, text[1..]);
      assert s.word + [text[0]] + text[1..] == s.word + text;
    }
  }

  lemma ReadSpace(s: Shell)
    requires s.mode == Bare
    ensures ReadAll(s, " ") == Some(Shell(Blank, [], s.words + [s.word]))
  {
    assert " " == [' '];
    ReadOne(s, ' ');
  }

  /** A quoted text and the space after it are read as one finished word. */
  lemma ReadQuotedWord(words: seq<string>, text: string, rest: string)
    ensures ReadAll(Shell(Blank, [], words), ShellQuote(text) + " " + rest) == ReadAll(Shell(Blank, [], words + [text]), rest)
  {
    var s, read := Shell(Blank, [], words), Shell(Bare, text, words);
    assert ShellQuote(text) + " " + rest == ShellQuote(text) + (" " + rest);
    ReadConcat(s, ShellQuote(text), " " + rest);
    ReadShellQuote(s, text);
    ReadConcat(read, " ", rest);
    ReadSpace(read);
  }

  lemma ReadCommand(execPath: string, cliPath: string)
    ensures ReadAll(Shell(Blank, [], []), CaptureCommand(execPath, cliPath)) == Some(Shell(Bare, "capture", [execPath, cliPath]))
  {
    var rest := ShellQuote(cliPath) + " " + "capture";
    assert CaptureCommand(execPath, cliPath) == ShellQuote(execPath) + " " + rest by {
      hide ShellQuote;
      assert " " + "capture" == " capture";
    }
    hide CaptureCommand, ReadAll, ShellQuote;
    ReadQuotedWord([], execPath, rest);
    assert [] + [execPath] == [execPath];
    ReadQuotedWord([execPath], cliPath, "capture");
    assert [execPath] + [cliPath] == [execPath, cliPath];
    ReadLetters(Shell(Blank, [], [execPath, cliPath]), "capture");
    assert [] + "capture" == "capture";
  }

  /** Whatever characters the paths contain, a shell runs the first with the second and
      "capture" as its arguments. */
  lemma CommandRunsThePaths(execPath: string, cliPath: string)
    ensures Words(CaptureCommand(execPath, cliPath)) == Some([execPath, cliPath, "capture"])
  {
    ReadCommand(execPath, cliPath);
    hide ReadAll, CaptureCommand;
    assert [execPath, cliPath] + ["capture"] == [execPath, cliPath, "capture"];
  }

  lemma CommandIsNotLegacy(execPath: string, cliPath: string)
    ensures CaptureCommand(execPath, cliPath) != LEGACY_COMMAND
  {
    assert CaptureCommand(execPath, cliPath)[0] == '\'';
  }

  // ------------------------------------------------------------ settings file

  datatype Hook = Hook(kind: string, command: string, timeout: Option<int>)

  datatype HookGroup = HookGroup(matcher: Option<string>, hooks: seq<Hook>)

  /** `other` stands for all settings that the installer copies without looking. */
  datatype Settings = Settings(hooks: Option<map<string, seq<HookGroup>>>, other: string)

  const NoSettings := Settings(None, "")

  function GroupsOf(settings: Settings): seq<HookGroup> {
    if settings.hooks.Some? && EVENT in settings.hooks.value then settings.hooks.value[EVENT] else []
  }

  function HooksOf(groups: seq<HookGroup>): seq<Hook> {
    if groups == [] then [] else groups[0].hooks + HooksOf(groups[1..])
  }

  function WithoutLegacy(hooks: seq<Hook>): seq<Hook> {
    if hooks == [] then []
    else (if hooks[0].command == LEGACY_COMMAND then [] else [hooks[0]]) + WithoutLegacy(hooks[1..])
  }

  /** Each group without its legacy hooks; groups left empty are dropped. */
  function Cleaned(groups: seq<HookGroup>): seq<HookGroup> {
    if groups == [] then []
    else
      var kept := WithoutLegacy(groups[0].hooks);
      (if kept == [] then [] else [groups[0].(hooks := kept)]) + Cleaned(groups[1..])
  }

  predicate HasLegacy(groups: seq<HookGroup>) {
    exists i, j :: 0 <= i < |groups| && 0 <= j < |groups[i].hooks| && groups[i].hooks[j].command == LEGACY_COMMAND
  }

  predicate IsInstalled(groups: seq<HookGroup>, command: string) {
    exists i, j :: 0 <= i < |groups| && 0 <= j < |groups[i].hooks|
                   && groups[i].hooks[j].kind == "command" && groups[i].hooks[j].command == command
  }

  function NewHook(command: string): Hook {
    Hook("command", command, Some(5))
  }

  function Rewritten(groups: seq<HookGroup>, command: string): seq<HookGroup> {
    var kept := Cleaned(groups);
    if IsInstalled(kept, command) then kept else kept + [HookGroup(Some(""), [NewHook(command)])]
  }

  predicate NeedsRewrite(groups: seq<HookGroup>, command: string) {
    !IsInstalled(Cleaned(groups), command) || HasLegacy(groups)
  }

  function Installed(settings: Settings, command: string): Settings {
    var groups := GroupsOf(settings);
    if !NeedsRewrite(groups, command) then settings
    else
      var hooks := if settings.hooks.Some? then settings.hooks.value else map[];
      settings.(hooks := Some(hooks[EVENT := Rewritten(groups, command)]))
  }

  class SettingsFile {
    var content: Option<Settings>
    var backup: Option<Settings>

    constructor (content: Option<Settings>)
      ensures this.content == content && backup == None
    {
      this.content := content;
      backup := None;
    }

    /** A missing file counts as empty settings; a file that is replaced is kept as backup. */
    method InstallHook(command: string)
      modifies this
      ensures var before := if old(content).Some? then old(content).value else NoSettings;
              if NeedsRewrite(GroupsOf(before), command) then
                content == Some(Installed(before, command)) && backup == (if old(content).Some? then old(content) else old(backup))
              else content == old(content) && backup == old(backup)
    {
      var settings := if content.Some? then content.value else NoSettings;
      var hooks := if settings.hooks.Some? then settings.hooks.value else map[];
      var submitted := if EVENT in hooks then hooks[EVENT] else [];
      var legacyInstalled := exists i, j :: 0 <= i < |submitted| && 0 <= j < |submitted[i].hooks|
                                            && submitted[i].hooks[j].command == LEGACY_COMMAND;
      var groups := Cleaned(submitted);
      var installed := IsInstalled(groups, command);
      if !installed {
        groups := groups + [HookGroup(Some(""), [NewHook(command)])];
      }
      if !installed || legacyInstalled {
        hooks := hooks[EVENT := groups];
        settings := settings.(hooks := Some(hooks));
        if content.Some? {
          backup := content;
        }
        content := Some(settings);
      }
    }
  }

  // ---------------------------------------------------------------- rewriting

  lemma {:induction false} HooksConcat(a: seq<HookGroup>, b: seq<HookGroup>)
    ensures HooksOf(a + b) == HooksOf(a) + HooksOf(b)
  {
    if a == [] {
      assert a + b == b;
    } else {
      assert (a + b)[0] == a[0] && (a + b)[1..] == a[1..] + b;
      HooksConcat(a[1..], b);
    }
  }

  lemma {:induction false} WithoutLegacyConcat(a: seq<Hook>, b: seq<Hook>)
    ensures WithoutLegacy(a + b) == WithoutLegacy(a) + WithoutLegacy(b)
  {
    if a == [] {
      assert a + b == b;
    } else {
      assert (a + b)[0] == a[0] && (a + b)[1..] == a[1..] + b;
      WithoutLegacyConcat(a[1..], b);
    }
  }

  /** Cleaning keeps the non-legacy hooks, in order, and nothing else. */
  lemma {:induction false} CleanedHooks(groups: seq<HookGroup>)
    ensures HooksOf(Cleaned(groups)) == WithoutLegacy(HooksOf(groups))
  {
    if groups != [] {
      var kept := WithoutLegacy(groups[0].hooks);
      var head := if kept == [] then [] else [groups[0].(hooks := kept)];
      CleanedHooks(groups[1..]);
      HooksConcat(head, Cleaned(groups[1..]));
      WithoutLegacyConcat(groups[0].hooks, HooksOf(groups[1..]));
      assert HooksOf(head) == kept by {
        if kept != [] { assert head[1..] == []; }
      }
    }
  }

  predicate NoneLegacy(hooks: seq<Hook>) {
    forall i :: 0 <= i < |hooks| ==> hooks[i].command != LEGACY_COMMAND
  }

  lemma {:induction false} WithoutLegacyHasNone(hooks: seq<Hook>)
    ensures NoneLegacy(WithoutLegacy(hooks))
    ensures NoneLegacy(hooks) ==> WithoutLegacy(hooks) == hooks
  {
    if hooks != [] {
      WithoutLegacyHasNone(hooks[1..]);
    }
  }

  predicate LegacyAt(groups: seq<HookGroup>, i: int, j: int) {
    0 <= i < |groups| && 0 <= j < |groups[i].hooks| && groups[i].hooks[j].command == LEGACY_COMMAND
  }

  lemma {:induction false} CleanedHasNoLegacy(groups: seq<HookGroup>, i: int, j: int)
    ensures !LegacyAt(Cleaned(groups), i, j)
    decreases groups
  {
    if groups != [] {
      WithoutLegacyHasNone(groups[0].hooks);
      if WithoutLegacy(groups[0].hooks) == [] {
        CleanedHasNoLegacy(groups[1..], i, j);
        assert Cleaned(groups) == Cleaned(groups[1..]);
      } else {
        CleanedHasNoLegacy(groups[1..], i - 1, j);
      }
    }
  }

  /** Cleaning again changes nothing. */
  lemma {:induction false} CleanedTwice(groups: seq<HookGroup>)
    ensures Cleaned(Cleaned(groups)) == Cleaned(groups)
  {
    if groups != [] {
      var kept := WithoutLegacy(groups[0].hooks);
      CleanedTwice(groups[1..]);
      WithoutLegacyHasNone(groups[0].hooks);
      WithoutLegacyHasNone(kept);
      if kept == [] {
        assert Cleaned(groups) == Cleaned(groups[1..]);
      } else {
        assert Cleaned(groups) == [groups[0].(hooks := kept)] + Cleaned(groups[1..]);
        assert Cleaned(groups)[1..] == Cleaned(groups[1..]);
      }
    }
  }

  /** The appended group survives cleaning: the command it runs is not the legacy one. */
  lemma {:induction false} CleanedAppend(groups: seq<HookGroup>, command: string)
    requires Cleaned(groups) == groups && command != LEGACY_COMMAND
    ensures Cleaned(groups + [HookGroup(Some(""), [NewHook(command)])]) == groups + [HookGroup(Some(""), [NewHook(command)])]
  {
    var last := HookGroup(Some(""), [NewHook(command)]);
    CleanedConcat(groups, [last]);
    assert [last][1..] == [] && last.hooks[1..] == [];
    assert WithoutLegacy(last.hooks) == last.hooks;
    assert Cleaned([last]) == [last];
  }

  lemma {:induction false} CleanedConcat(a: seq<HookGroup>, b: seq<HookGroup>)
    ensures Cleaned(a + b) == Cleaned(a) + Cleaned(b)
  {
    if a == [] {
      assert a + b == b;
    } else {
      assert (a + b)[0] == a[0] && (a + b)[1..] == a[1..] + b;
      CleanedConcat(a[1..], b);
    }
  }

  lemma RewrittenIsStable(groups: seq<HookGroup>, command: string)
    requires command != LEGACY_COMMAND
    ensures Cleaned(Rewritten(groups, command)) == Rewritten(groups, command)
    ensures IsInstalled(Rewritten(groups, command), command)
    ensures !HasLegacy(Rewritten(groups, command))
    ensures !NeedsRewrite(Rewritten(groups, command), command)
  {
    CleanedTwice(groups);
    var kept, after := Cleaned(groups), Rewritten(groups, command);
    if !IsInstalled(kept, command) {
      CleanedAppend(kept, command);
      assert after[|kept|].hooks[0] == NewHook(command);
    }
    if HasLegacy(after) {
      var i, j :| 0 <= i < |after| && 0 <= j < |after[i].hooks| && after[i].hooks[j].command == LEGACY_COMMAND;
      assert LegacyAt(Cleaned(after), i, j);
      CleanedHasNoLegacy(after, i, j);
      assert false;
    }
  }

  /** Installing twice is installing once: the second run leaves the file alone. */
  lemma InstallIsIdempotent(settings: Settings, execPath: string, cliPath: string)
    ensures var command := CaptureCommand(execPath, cliPath);
            var once := Installed(settings, command);
            && Installed(once, command) == once
            && !NeedsRewrite(GroupsOf(once), command)
            && IsInstalled(GroupsOf(once), command)
  {
    var command := CaptureCommand(execPath, cliPath);
    CommandIsNotLegacy(execPath, cliPath);
    RewrittenIsStable(GroupsOf(settings), command);
    hide CaptureCommand;
    if !NeedsRewrite(GroupsOf(settings), command) {
      CleanedIsSameWithoutLegacy(GroupsOf(settings), command);
    }
  }

  lemma TailHasNoLegacy(groups: seq<HookGroup>)
    requires groups != [] && !HasLegacy(groups)
    ensures !HasLegacy(groups[1..])
  {
    var tail := groups[1..];
    forall x, y | 0 <= x < |tail| && 0 <= y < |tail[x].hooks| ensures tail[x].hooks[y].command != LEGACY_COMMAND {
      assert tail[x] == groups[x + 1];
    }
  }

  /** Without legacy hooks, cleaning drops at most empty groups. */
  lemma {:induction false} CleanedIsSameWithoutLegacy(groups: seq<HookGroup>, command: string)
    requires !HasLegacy(groups)
    ensures IsInstalled(Cleaned(groups), command) ==> IsInstalled(groups, command)
  {
    if groups != [] && IsInstalled(Cleaned(groups), command) {
      var kept := WithoutLegacy(groups[0].hooks);
      forall i | 0 <= i < |groups[0].hooks| ensures groups[0].hooks[i].command != LEGACY_COMMAND {}
      WithoutLegacyHasNone(groups[0].hooks);
      var i, j :| 0 <= i < |Cleaned(groups)| && 0 <= j < |Cleaned(groups)[i].hooks|
                  && Cleaned(groups)[i].hooks[j].kind == "command" && Cleaned(groups)[i].hooks[j].command == command;
      if kept != [] && i == 0 {
        assert groups[0].hooks[j].command == command;
      } else {
        var k := if kept == [] then i else i - 1;
        assert Cleaned(groups[1..])[k] == Cleaned(groups)[i];
        TailHasNoLegacy(groups);
        CleanedIsSameWithoutLegacy(groups[1..], command);
        var x, y :| 0 <= x < |groups[1..]| && 0 <= y < |groups[1..][x].hooks|
                    && groups[1..][x].hooks[y].kind == "command" && groups[1..][x].hooks[y].command == command;
        assert groups[x + 1].hooks[y].command == command;
      }
    }
  }

  /** Installing keeps every other setting, event and non-legacy hook, in order, and adds at
      most the new hook at the end. */
  lemma InstallKeepsOthers(settings: Settings, command: string)
    ensures var after := Installed(settings, command);
            && after.other == settings.other
            && (forall event :: event != EVENT && settings.hooks.Some? && event in settings.hooks.value ==>
                  after.hooks.Some? && event in after.hooks.value && after.hooks.value[event] == settings.hooks.value[event])
            && HooksOf(GroupsOf(after)) ==
                 if !NeedsRewrite(GroupsOf(settings), command) then HooksOf(GroupsOf(settings))
                 else WithoutLegacy(HooksOf(GroupsOf(settings)))
                      + if IsInstalled(Cleaned(GroupsOf(settings)), command) then [] else [NewHook(command)]
  {
    var groups := GroupsOf(settings);
    CleanedHooks(groups);
    if NeedsRewrite(groups, command) && !IsInstalled(Cleaned(groups), command) {
      var last := HookGroup(Some(""), [NewHook(command)]);
      HooksConcat(Cleaned(groups), [last]);
      assert [last][1..] == [] && HooksOf([last]) == [NewHook(command)];
    }
  }

  /** The hook that is installed. */
  predicate RunsCapture(hook: Hook, command: string) {
    hook.kind == "command" && hook.command == command
  }

  predicate HasHook(groups: seq<HookGroup>, command: string) {
    exists i, j :: 0 <= i < |groups| && 0 <= j < |groups[i].hooks| && RunsCapture(groups[i].hooks[j], command)
  }

  /** The installer changes the file exactly if the event has no such hook or has one of the
      old installation. Then the event's groups end, if there was no such hook, with one that
      matches everything and runs the command for at most five seconds; and no old hook is
      left. */
  lemma InstallWritesIff(settings: Settings, execPath: string, cliPath: string)
    ensures var command := CaptureCommand(execPath, cliPath);
            var before := if settings.hooks.Some? && "UserPromptSubmit" in settings.hooks.value then settings.hooks.value["UserPromptSubmit"] else [];
            var outdated := exists i, j :: 0 <= i < |before| && 0 <= j < |before[i].hooks| && before[i].hooks[j].command == "promptlens-claude capture";
            && (NeedsRewrite(GroupsOf(settings), command) <==> outdated || !HasHook(before, command))
            && (NeedsRewrite(GroupsOf(settings), command) ==>
                  var after := Installed(settings, command);
                  && after.hooks.Some? && "UserPromptSubmit" in after.hooks.value
                  && var groups := after.hooks.value["UserPromptSubmit"];
                     && HasHook(groups, command)
                     && (!HasHook(before, command) ==>
                           |groups| > 0 && groups[|groups| - 1] == HookGroup(Some(""), [Hook("command", command, Some(5))]))
                     && forall i, j :: 0 <= i < |groups| && 0 <= j < |groups[i].hooks|
                                       ==> groups[i].hooks[j].command != "promptlens-claude capture")
  {
    var command, groups := CaptureCommand(execPath, cliPath), GroupsOf(settings);
    CommandIsNotLegacy(execPath, cliPath);
    RewrittenIsStable(groups, command);
    CleaningKeepsHook(groups, command);
    HasHookIff(groups, command);
    HasHookIff(Cleaned(groups), command);
    HasHookIff(Rewritten(groups, command), command);
    hide CaptureCommand, Cleaned, IsInstalled, HasHook;
  }

  lemma HasHookIff(groups: seq<HookGroup>, command: string)
    ensures HasHook(groups, command) <==> IsInstalled(groups, command)
  {
    if i, j :| 0 <= i < |groups| && 0 <= j < |groups[i].hooks| && groups[i].hooks[j].kind == "command" && groups[i].hooks[j].command == command {
      assert RunsCapture(groups[i].hooks[j], command);
    }
  }

  /** Cleaning neither adds nor drops a hook that runs another command. */
  lemma {:induction false} CleaningKeepsHook(groups: seq<HookGroup>, command: string)
    requires command != LEGACY_COMMAND
    ensures IsInstalled(Cleaned(groups), command) <==> IsInstalled(groups, command)
  {
    HookAmong(groups, command);
    HookAmong(Cleaned(groups), command);
    CleanedHooks(groups);
    KeptHook(HooksOf(groups), command);
  }

  predicate Among(hooks: seq<Hook>, command: string) {
    exists k :: 0 <= k < |hooks| && hooks[k].kind == "command" && hooks[k].command == command
  }

  lemma {:induction false} HookAmong(groups: seq<HookGroup>, command: string)
    ensures IsInstalled(groups, command) <==> Among(HooksOf(groups), command)
  {
    if groups != [] {
      HookAmong(groups[1..], command);
      AmongConcat(groups[0].hooks, HooksOf(groups[1..]), command);
      if Among(groups[0].hooks, command) {
        var j :| 0 <= j < |groups[0].hooks| && groups[0].hooks[j].kind == "command" && groups[0].hooks[j].command == command;
        assert groups[0].hooks[j].command == command;
      }
      if IsInstalled(groups[1..], command) {
        var i, j :| 0 <= i < |groups[1..]| && 0 <= j < |groups[1..][i].hooks|
                    && groups[1..][i].hooks[j].kind == "command" && groups[1..][i].hooks[j].command == command;
        assert groups[i + 1].hooks[j].command == command;
      }
      if i, j :| 0 <= i < |groups| && 0 <= j < |groups[i].hooks|
                 && groups[i].hooks[j].kind == "command" && groups[i].hooks[j].command == command {
        if i > 0 { assert groups[1..][i - 1].hooks[j].command == command; }
      }
    }
  }

  lemma AmongConcat(a: seq<Hook>, b: seq<Hook>, command: string)
    ensures Among(a + b, command) <==> Among(a, command) || Among(b, command)
  {
    if k :| 0 <= k < |a| && a[k].kind == "command" && a[k].command == command {
      assert (a + b)[k] == a[k];
    }
    if k :| 0 <= k < |b| && b[k].kind == "command" && b[k].command == command {
      assert (a + b)[|a| + k] == b[k];
    }
  }

  lemma {:induction false} KeptHook(hooks: seq<Hook>, command: string)
    requires command != LEGACY_COMMAND
    ensures Among(WithoutLegacy(hooks), command) <==> Among(hooks, command)
  {
    if hooks != [] {
      KeptHook(hooks[1..], command);
      var head := if hooks[0].command == LEGACY_COMMAND then [] else [hooks[0]];
      AmongConcat(head, WithoutLegacy(hooks[1..]), command);
      AmongConcat([hooks[0]], hooks[1..], command);
      assert [hooks[0]] + hooks[1..] == hooks;
      assert Among([hooks[0]], command) <==> Among(head, command) by {
        if hooks[0].kind == "command" && hooks[0].command == command {
          assert [hooks[0]][0] == hooks[0];
        }
      }
    }
  }
}
