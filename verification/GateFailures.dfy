/**
 * Bodies of `verify` that the gate takes with a checker in them, and that a shell exits zero on
 * with no checker run: after a comment's sign, behind a quoted separator, and after a command
 * that stops the shell.
 */
module GateFailures {
  import opened Options
  import opened PosixShell
  import opened GateShell
  import opened GateAgreement
  import opened Gate

  const CHECK: seq<string> := ["python3", "scripts/a.py"]

  const CHECK_LINE: string := "python3 scripts/a.py"

  function Only(body: string): Scripts { map[VERIFY := Body(body)] }

  /** The gate finds the checker in the body, and an execution of the body exits zero and made no invocation. */
  ghost predicate Hides(body: string, execution: Execution) {
    && Expansion(Only(body), {}, VERIFY, map[]) == Some([Invocation("a.py", CHECK, map[])])
    && ExecutesScript(Only(body), VERIFY, execution) && Exit(execution) == 0
    && MadeByScript(Only(body), VERIFY, execution) == []
  }

  // ------------------------------------------------------------------------------------------
  // The bodies' words.

  predicate IsPlainText(text: string) {
    text != "" && forall i :: 0 <= i < |text| ==> IsOrdinary(text[i]) && !IsSpace(text[i])
  }

  lemma {:induction false} PlainIsSplit(plain: string, word: Option<string>, rest: string)
    requires IsPlainText(plain)
    ensures Split(plain + rest, word) == Split(rest, Some(Known(word) + plain))
  {
    var body, next := plain + rest, Some(Known(word) + [plain[0]]);
    OnePlainIsSplit(body, word);
    if |plain| == 1 {
      assert body[1..] == rest && [plain[0]] == plain;
    } else {
      assert body[1..] == plain[1..] + rest;
      PlainIsSplit(plain[1..], next, rest);
      assert Known(next) + plain[1..] == Known(word) + plain;
    }
  }

  lemma OnePlainIsSplit(body: string, word: Option<string>)
    requires body != "" && IsOrdinary(body[0]) && !IsSpace(body[0])
    ensures Split(body, word) == Split(body[1..], Some(Known(word) + [body[0]]))
  {
  }

  lemma WordIsSplit(plain: string, rest: string)
    requires IsPlainText(plain)
    ensures Split(plain + (" " + rest), None) == Prepended(Some(plain), Split(rest, None))
  {
    hide IsPlainText;
    PlainIsSplit(plain, None, " " + rest);
    assert "" + plain == plain && (" " + rest)[1..] == rest;
  }

  lemma WordIsRead(plain: string, rest: string)
    requires IsPlainText(plain)
    ensures Tokens(plain + (" " + rest), None) == Before(Some(Bared(plain)), Tokens(rest, None))
  {
    hide IsOrdinary, IsSpace;
    OrdinaryIsRead(plain, None, " " + rest);
    assert [] + Bared(plain) == Bared(plain) && (" " + rest)[1..] == rest;
  }

  lemma LastWordIsRead(plain: string)
    requires IsPlainText(plain)
    ensures Split(plain, None) == Some([plain]) && Tokens(plain, None) == Some([Word(Bared(plain))])
  {
    hide IsOrdinary, IsSpace;
    PlainIsSplit(plain, None, "");
    OrdinaryIsRead(plain, None, "");
    assert plain + "" == plain && "" + plain == plain && [] + Bared(plain) == Bared(plain);
    assert [plain] + [] == [plain] && [Word(Bared(plain))] + [] == [Word(Bared(plain))];
  }

  lemma PlainTexts()
    ensures IsPlainText("true") && IsPlainText("python3") && IsPlainText("scripts/a.py")
    ensures IsPlainText("command") && IsPlainText("exit") && IsPlainText("0")
  {
    hide IsPlainText;
    LettersArePlain("true");
    LettersArePlain("python3");
    LettersArePlain("scripts/a.py");
    LettersArePlain("command");
    LettersArePlain("exit");
    LettersArePlain("0");
  }

  lemma LettersArePlain(text: string)
    requires text != ""
    requires forall i :: 0 <= i < |text| ==> IsLetter(text[i]) || IsDecimal(text[i]) || text[i] == '/' || text[i] == '.'
    ensures IsPlainText(text)
  {
  }

  /** Both lexers read the line as the check. */
  ghost predicate IsTheCheck(line: string) {
    && Split(line, None) == Some(CHECK)
    && Tokens(line, None) == Some([Word(Bared("python3"))] + [Word(Bared("scripts/a.py"))])
    && forall i :: 0 <= i < |line| ==> line[i] !in "\n\r$`"
  }

  lemma CheckIsRead()
    ensures IsTheCheck(CHECK_LINE)
  {
    hide Split, Tokens, IsPlainText;
    PlainTexts();
    WordIsSplit("python3", "scripts/a.py");
    WordIsRead("python3", "scripts/a.py");
    LastWordIsRead("scripts/a.py");
    assert ["python3"] + ["scripts/a.py"] == CHECK;
    assert "python3" + (" " + "scripts/a.py") == CHECK_LINE;
  }

  /** A separator and a space, to the split and to the shell. */
  lemma AndIsRead(rest: string)
    ensures Split("&& " + rest, None) == Prepended(Some(AND), Split(rest, None))
    ensures Tokens("&& " + rest, None) == Ahead(And, Tokens(rest, None))
  {
    var body := "&& " + rest;
    assert body[0] == '&' && body[1] == '&' && body[2] == ' ';
    assert body[..2] == AND && body[2..] == " " + rest;
    SpaceIsRead(rest);
    hide IsPunctuation, IsOperator;
    AndIsSplit(body);
    AndIsAToken(body);
  }

  lemma SpaceIsRead(rest: string)
    ensures Split(" " + rest, None) == Split(rest, None) && Tokens(" " + rest, None) == Tokens(rest, None)
  {
    assert (" " + rest)[1..] == rest;
  }

  lemma AndIsSplit(body: string)
    requires |body| > 2 && body[..2] == AND && body[2] == ' '
    ensures Split(body, None) == Prepended(Some(AND), Split(body[2..], None))
  {
    assert body[0] == AND[0] && body[1] == AND[1];
    assert RunOf(body) == 2;
  }

  lemma AndIsAToken(body: string)
    requires |body| > 2 && body[..2] == AND
    ensures Tokens(body, None) == Ahead(And, Tokens(body[2..], None))
  {
    assert body[0] == AND[0];
  }

  // ------------------------------------------------------------------------------------------
  // The gate's part.

  lemma {:induction false} NoSlashIsItsName(path: string, part: string)
    requires '/' !in path && path + part != "."
    ensures FileName(path, part) == path + part
  {
    if path != "" {
      var front, next := path[..|path| - 1], [path[|path| - 1]] + part;
      assert front + next == path + part;
      NoSlashIsItsName(front, next);
    }
  }

  /** A first command and the check are what their words parse to. */
  lemma CheckIsParsed(body: string, first: seq<string>)
    requires '\n' !in body && '\r' !in body && '$' !in body && '`' !in body
    requires Split(body, None) == Some(first + [AND] + CHECK)
    requires first != [] && (forall word :: word in first ==> word != AND && !IsControlOperator(word))
    requires !IsAssignment(first[0]) && first[0] !in CONTROL_COMMANDS && '$' !in first[0]
    ensures ParseOf(body) == Parsed([Command(map[], first), Command(map[], CHECK)])
  {
    hide Split, IsAssignment, IsControlOperator;
    var groups := [first, CHECK];
    CheckIsPlain();
    assert groups[1..] == [CHECK] && Joined(groups) == first + [AND] + CHECK;
    GroupsAreUnique(groups);
    forall token | token in first + [AND] + CHECK ensures !IsControlOperator(token) {
      assert token in first || token == AND || token in CHECK;
    }
    OneCommand(first);
    OneCommand(CHECK);
    assert CommandsOf([CHECK]) == Parsed([Command(map[], CHECK)] + []) by { assert [CHECK][1..] == []; }
    assert CommandsOf(groups) == Parsed([Command(map[], first)] + ([Command(map[], CHECK)] + []));
  }

  lemma OneCommand(words: seq<string>)
    requires words != [] && !IsAssignment(words[0]) && words[0] !in CONTROL_COMMANDS && '$' !in words[0]
    ensures RefusalOf(words).None? && AssignmentRun(words) == 0 && ArgvOf(words) == words
    ensures EnvironmentOf(words[..AssignmentRun(words)], map[]) == map[]
  {
    assert words[..0] == [] && words[0..] == words;
  }

  lemma CheckIsPlain()
    ensures !IsAssignment(CHECK[0]) && CHECK[0] !in CONTROL_COMMANDS && '$' !in CHECK[0]
    ensures AND !in CHECK && !IsControlOperator(AND) && forall word :: word in CHECK ==> !IsControlOperator(word)
  {
    hide IsAssignment, IsControlOperator;
    NameIsPlain(CHECK[0]);
    StartsAWord(CHECK[0]);
    StartsAWord(CHECK[1]);
    assert !IsControlOperator(AND) by { AndIsNone(); }
  }

  lemma AndIsNone()
    ensures !IsControlOperator(AND)
  {
  }

  /** A token that starts with no punctuation is no control operator. */
  lemma StartsAWord(word: string)
    requires word != "" && !IsPunctuation(word[0])
    ensures word != AND && !IsControlOperator(word)
  {
    assert AND[0] == '&';
  }

  lemma NameIsPlain(name: string)
    requires name == "true" || name == "command" || name == "python3"
    ensures !IsAssignment(name) && name !in CONTROL_COMMANDS && '$' !in name
  {
    assert name[1] == 'r' || name[1] == 'o' || name[1] == 'y';
    assert |name| == 4 ==> name[0] == 't';
    assert |name| == 7 ==> name[6] == 'd' || name[6] == '3';
    assert EqualsAt(name) == |name| by { assert '=' !in name; }
  }

  lemma CheckIsExecuted()
    ensures ExecutedScript(CHECK) == Some("a.py")
  {
    hide FileName, ScriptOf;
    NoSlashIsItsName("python3", "");
    PathIsAScript();
    assert "python3"[6..] == "3" && IsVersion("3");
    assert CHECK[1..][0] == "scripts/a.py" && "scripts/a.py"[0] == 's';
  }

  lemma PathIsAScript()
    ensures ScriptOf("scripts/a.py") == Some("a.py")
  {
    var path := "scripts/a.py";
    assert path[8..] == "a.py" && path[..8] == "scripts/";
    assert "a.py"[1..] == ".py";
    assert !("./" <= path) by { assert path[0] == 's'; }
    assert IsScriptName("a.py");
  }

  /** The gate finds the check behind a command that runs no script. */
  lemma CheckIsFound(body: string, first: seq<string>)
    requires ParseOf(body) == Parsed([Command(map[], first), Command(map[], CHECK)])
    requires first != [] && first[0] != "pnpm" && ExecutedScript(first).None?
    ensures Expansion(Only(body), {}, VERIFY, map[]) == Some([Invocation("a.py", CHECK, map[])])
  {
    hide ExecutedScript, ParseOf;
    var scripts := Only(body);
    var commands := [Command(map[], first), Command(map[], CHECK)];
    CheckIsExecuted();
    assert commands[1..] == [commands[1]] && commands[1..][1..] == [];
    var none: map<string, string> := map[];
    assert none + none == none;
    var found := Invocation("a.py", CHECK, map[]);
    assert InvocationsOf(commands[0], none) == [] && InvocationsOf(commands[1], none) == [found];
    assert RefOf(scripts, CHECK).None? && RefOf(scripts, first).None?;
    assert ExpansionOf(scripts, {} + {VERIFY}, commands[1..][1..], none) == Some([]);
    assert ExpansionOf(scripts, {} + {VERIFY}, commands[1..], none) == Some([found] + []);
    assert ExpansionOf(scripts, {} + {VERIFY}, commands, none) == Some([] + ([found] + []));
    assert [] + ([found] + []) == [found];
    assert ParsedScript(scripts, VERIFY) == Some(commands);
  }

  // ------------------------------------------------------------------------------------------
  // The shell's part.

  /** A body whose first command runs no script, and is its last or stops the shell, has an execution that made nothing. */
  lemma NothingIsMade(body: string, first: seq<string>, stops: bool)
    returns (execution: Execution)
    requires ReadBody(body).Some? && ReadBody(body).value != [] && ReadBody(body).value[0] == Command(map[], first)
    requires |ReadBody(body).value| == 1 || stops
    requires first != [] && first[0] != "pnpm" && ExecutedScript(first).None?
    ensures execution == Then(External(0, stops), Ended)
    ensures ExecutesScript(Only(body), VERIFY, execution) && Exit(execution) == 0
    ensures MadeByScript(Only(body), VERIFY, execution) == []
  {
    hide ReadBody, ExecutedScript;
    execution := Then(External(0, stops), Ended);
    var commands := ReadBody(body).value;
    if !stops { assert commands[1..] == []; }
    assert RefOf(Only(body), commands[0].argv).None?;
    assert Executes(Only(body), commands, execution);
    assert MadeByOne(Only(body), commands[0], map[] + commands[0].environment, execution.one) == [];
    if !stops { assert Made(Only(body), commands[1..], map[], execution.more) == []; }
  }

  // ------------------------------------------------------------------------------------------
  // The bodies.

  lemma ShortRunsNothing(name: string, more: seq<string>)
    requires name == "true" || name == "command"
    ensures ExecutedScript([name] + more).None?
  {
    NoSlashIsItsName(name, "");
    assert name[0] == 't' || name[0] == 'c';
    assert !("./" <= name) && !IsInterpreter(name) && ScriptOf(name).None?;
    assert ([name] + more)[0] == name;
  }

  lemma BareIsLiteral(text: string)
    requires forall i :: 0 <= i < |text| ==> text[i] !in "$`*?[~"
    ensures IsLiteral(Bared(text), false) && TextOf(Bared(text)) == text
  {
  }

  lemma OrdinaryCommand(word: seq<Mark>)
    requires TextOf(word) == "true" || TextOf(word) == "command" || TextOf(word) == "python3"
    ensures !IsReserved(word) && !IsAssignmentWord(word)
  {
    var text := TextOf(word);
    assert text[1] == 'r' || text[1] == 'o' || text[1] == 'y';
    assert |text| == 4 ==> text[3] == 'e' && text[0] == 't' && text[2] == 'u';
    assert text !in RESERVED;
    assert EqualsAt(text) == |text| by { assert '=' !in text; }
  }

  /** A line of literal words, `true` the first of them, is the one command. */
  lemma CommandIsRead(line: string, words: seq<seq<Mark>>, comment: seq<Token>)
    requires words != [] && TextOf(words[0]) == "true" && Tokens(line, None) == Some(AsWords(words) + comment)
    requires forall i :: 0 <= i < |words| ==> IsLiteral(words[i], false)
    requires |comment| <= 1 && forall token :: token in comment ==> token.Comment? && '\n' !in token.text
    ensures ReadBody(line) == Some([Command(map[], TextsOf(words))])
  {
    hide Tokens, IsLiteral, TextOf, IsReserved, IsAssignmentWord;
    OrdinaryCommand(words[0]);
    LiteralsAreACommand(words);
    OneCommandIsRead(line, words, comment);
    assert CommandsAt([Simple([], TextsOf(words))]) == [Command(map[], TextsOf(words))];
  }

  // A comment.

  /** `true # && ` and a line. */
  function Commented(line: string): string { "true" + (" " + ("# " + ("&& " + line))) }

  lemma SignIsRead(rest: string)
    ensures Split("# " + rest, None) == Prepended(Some("#"), Split(rest, None))
    ensures Tokens("# " + rest, None) == Some([Comment(" " + rest)])
  {
    assert ("# " + rest)[1..] == " " + rest && (" " + rest)[1..] == rest;
    assert Known(None) + ['#'] == "#";
  }

  lemma CommentIsRead(line: string)
    requires IsTheCheck(line)
    ensures Split(Commented(line), None) == Some(["true", "#"] + [AND] + CHECK)
    ensures ReadBody(Commented(line)) == Some([Command(map[], ["true"])])
  {
    hide Split, Tokens, IsPlainText, IsLiteral, ReadBody;
    PlainTexts();
    AndIsRead(line);
    SignIsRead("&& " + line);
    WordIsSplit("true", "# " + ("&& " + line));
    WordIsRead("true", "# " + ("&& " + line));
    assert ["true"] + (["#"] + ([AND] + CHECK)) == ["true", "#"] + [AND] + CHECK;
    var words := [Bared("true")];
    assert AsWords(words) == [Word(Bared("true"))];
    BareIsLiteral("true");
    CommandIsRead(Commented(line), words, [Comment(" " + ("&& " + line))]);
    assert TextsOf(words) == ["true"];
  }

  /** What follows a comment's sign is words to the gate and nothing to a shell. */
  lemma ACommentHidesACheck() returns (execution: Execution)
    ensures Hides(Commented(CHECK_LINE), execution) && NoneStops(execution)
  {
    hide IsTheCheck, ReadBody, ParseOf, IsAssignment, IsControlOperator;
    var body, first := Commented(CHECK_LINE), ["true"] + ["#"];
    CheckIsRead();
    CommentIsRead(CHECK_LINE);
    FirstIsPlain(["#"]);
    PlainLine(CHECK_LINE);
    assert first == ["true", "#"];
    CheckIsParsed(body, first);
    ShortRunsNothing("true", ["#"]);
    CheckIsFound(body, first);
    ShortRunsNothing("true", []);
    execution := NothingIsMade(body, ["true"] + [], false);
  }

  lemma PlainLine(line: string)
    requires IsTheCheck(line)
    ensures '\n' !in line && '\r' !in line && '$' !in line && '`' !in line
  {
  }

  lemma FirstIsPlain(more: seq<string>)
    requires more == [] || more == ["#"]
    ensures var words := ["true"] + more;
      && (forall word :: word in words ==> word != AND && !IsControlOperator(word))
      && !IsAssignment(words[0]) && words[0] !in CONTROL_COMMANDS && '$' !in words[0]
  {
    hide IsAssignment, IsControlOperator;
    NameIsPlain("true");
    StartsAWord("true");
    StartsAWord("#");
  }

  // A quoted separator.

  /** `true` with a quoted separator for an argument, and a line. */
  function WithQuotes(line: string): string { "true" + (" " + ("'&&' " + line)) }

  const QUOTED_AND: seq<Mark> := [Mark('&', Single), Mark('&', Single)]

  lemma QuotedAndIsRead(rest: string)
    ensures Split("'&&' " + rest, None) == Prepended(Some(AND), Split(rest, None))
    ensures Tokens("'&&' " + rest, None) == Before(Some(QUOTED_AND), Tokens(rest, None))
  {
    var body := "'&&' " + rest;
    var inside, one, end := "&&' " + rest, "&' " + rest, "' " + rest;
    assert body[1..] == inside && inside[1..] == one && one[1..] == end && end[1..] == " " + rest && (" " + rest)[1..] == rest;
    QuotedAndIsSplit(body, inside, one, end, rest);
    QuotedAndIsMarked(body, inside, one, end, rest);
  }

  lemma QuotedAndIsSplit(body: string, inside: string, one: string, end: string, rest: string)
    requires body != "" && body[0] == '\'' && body[1..] == inside && inside != "" && inside[0] == '&' && inside[1..] == one
    requires one != "" && one[0] == '&' && one[1..] == end && end != "" && end[0] == '\'' && end[1..] == " " + rest
    ensures Split(body, None) == Prepended(Some(AND), Split(rest, None))
  {
    assert (" " + rest)[1..] == rest && "" + ['&'] == "&" && "&" + ['&'] == AND;
    assert SplitQuoted(end, '\'', AND) == Split(" " + rest, Some(AND));
    assert SplitQuoted(one, '\'', "&") == SplitQuoted(end, '\'', AND);
  }

  lemma QuotedAndIsMarked(body: string, inside: string, one: string, end: string, rest: string)
    requires body != "" && body[0] == '\'' && body[1..] == inside && inside != "" && inside[0] == '&' && inside[1..] == one
    requires one != "" && one[0] == '&' && one[1..] == end && end != "" && end[0] == '\'' && end[1..] == " " + rest
    ensures Tokens(body, None) == Before(Some(QUOTED_AND), Tokens(rest, None))
  {
    var mark := Mark('&', Single);
    assert (" " + rest)[1..] == rest && [] + [mark] == [mark] && [mark] + [mark] == QUOTED_AND;
    assert InSingle(end, QUOTED_AND) == Tokens(" " + rest, Some(QUOTED_AND));
    assert InSingle(one, [mark]) == InSingle(end, QUOTED_AND);
  }

  lemma QuotedIsRead(line: string)
    requires IsTheCheck(line)
    ensures Split(WithQuotes(line), None) == Some(["true"] + [AND] + CHECK)
    ensures ReadBody(WithQuotes(line)) == Some([Command(map[], ["true"] + ([AND] + CHECK))])
  {
    hide Split, Tokens, IsPlainText, IsLiteral, ReadBody;
    PlainTexts();
    QuotedAndIsRead(line);
    WordIsSplit("true", "'&&' " + line);
    WordIsRead("true", "'&&' " + line);
    assert ["true"] + ([AND] + CHECK) == ["true"] + [AND] + CHECK;
    var words := [Bared("true"), QUOTED_AND, Bared("python3"), Bared("scripts/a.py")];
    assert AsWords(words) + []
        == [Word(words[0])] + ([Word(QUOTED_AND)] + ([Word(Bared("python3"))] + [Word(Bared("scripts/a.py"))]));
    BareIsLiteral("true");
    BareIsLiteral("python3");
    BareIsLiteral("scripts/a.py");
    QuotesAreLiteral();
    CommandIsRead(WithQuotes(line), words, []);
    assert TextsOf(words) == ["true"] + ([AND] + CHECK);
  }

  lemma QuotesAreLiteral()
    ensures IsLiteral(QUOTED_AND, false) && TextOf(QUOTED_AND) == AND
  {
  }

  /** A quoted separator ends a command to the gate, and is an argument of it to a shell. */
  lemma AQuotedAndHidesACheck() returns (execution: Execution)
    ensures Hides(WithQuotes(CHECK_LINE), execution) && NoneStops(execution)
  {
    hide IsTheCheck, ReadBody, ParseOf, IsAssignment, IsControlOperator;
    var body, first := WithQuotes(CHECK_LINE), ["true"] + [];
    CheckIsRead();
    QuotedIsRead(CHECK_LINE);
    FirstIsPlain([]);
    PlainLine(CHECK_LINE);
    assert first == ["true"];
    CheckIsParsed(body, first);
    ShortRunsNothing("true", []);
    CheckIsFound(body, first);
    ShortRunsNothing("true", [AND] + CHECK);
    execution := NothingIsMade(body, ["true"] + ([AND] + CHECK), false);
  }

  // A stopped shell.

  /** `command exit 0 && ` and a line. */
  function Stopping(line: string): string { "command" + (" " + ("exit" + (" " + ("0" + (" " + ("&& " + line)))))) }

  const STOP: seq<string> := ["command", "exit", "0"]

  lemma StopIsRead(line: string)
    requires IsTheCheck(line)
    ensures Split(Stopping(line), None) == Some(STOP + [AND] + CHECK)
    ensures AndList(Stopping(line)) == Some([Simple([], STOP), Simple([], CHECK)])
  {
    hide Split, Tokens, IsPlainText, AndList, SimpleOf;
    var third := "0" + (" " + ("&& " + line));
    var second := "exit" + (" " + third);
    PlainTexts();
    AndIsRead(line);
    WordIsSplit("0", "&& " + line);
    WordIsRead("0", "&& " + line);
    WordIsSplit("exit", third);
    WordIsRead("exit", third);
    WordIsSplit("command", second);
    WordIsRead("command", second);
    assert ["command"] + (["exit"] + (["0"] + ([AND] + CHECK))) == STOP + [AND] + CHECK;
    var stop, check := [Bared("command"), Bared("exit"), Bared("0")], [Bared("python3"), Bared("scripts/a.py")];
    assert AsWords(check) == [Word(Bared("python3"))] + [Word(Bared("scripts/a.py"))];
    assert AsWords(stop) + ([And] + AsWords(check))
        == [Word(Bared("command"))] + ([Word(Bared("exit"))] + ([Word(Bared("0"))] + ([And] + AsWords(check))));
    BothAreCommands(stop, check);
    TwoCommandsAreRead(Stopping(line), stop, check);
    assert [Simple([], STOP)] + [Simple([], CHECK)] == [Simple([], STOP), Simple([], CHECK)];
  }

  lemma BothAreCommands(stop: seq<seq<Mark>>, check: seq<seq<Mark>>)
    requires stop == [Bared("command"), Bared("exit"), Bared("0")] && check == [Bared("python3"), Bared("scripts/a.py")]
    ensures SimpleOf(stop) == Some(Simple([], STOP)) && SimpleOf(check) == Some(Simple([], CHECK))
  {
    hide IsLiteral, IsReserved, IsAssignmentWord;
    BareIsLiteral("command");
    BareIsLiteral("exit");
    BareIsLiteral("0");
    BareIsLiteral("python3");
    BareIsLiteral("scripts/a.py");
    OrdinaryCommand(stop[0]);
    OrdinaryCommand(check[0]);
    LiteralsAreACommand(stop);
    LiteralsAreACommand(check);
    assert TextsOf(stop) == STOP && TextsOf(check) == CHECK;
  }

  lemma StopIsPlain()
    ensures forall word :: word in STOP ==> word != AND && !IsControlOperator(word)
    ensures !IsAssignment(STOP[0]) && STOP[0] !in CONTROL_COMMANDS && '$' !in STOP[0]
  {
    hide IsAssignment, IsControlOperator;
    NameIsPlain(STOP[0]);
    StartsAWord(STOP[0]);
    StartsAWord(STOP[1]);
    StartsAWord(STOP[2]);
  }

  lemma StopIsTransparent(body: string)
    requires Split(body, None) == Some(STOP + [AND] + CHECK) && ParseOf(body).Parsed?
    requires AndList(body) == Some([Simple([], STOP), Simple([], CHECK)])
    ensures IsTransparent(body)
  {
    hide Split, ParseOf, AndList, IsTransparent, IsAssignment, IsControlOperator;
    var groups := [STOP, CHECK];
    StopIsPlain();
    CheckIsPlain();
    assert groups[1..] == [CHECK] && Joined(groups) == STOP + [AND] + CHECK;
    GroupsAreUnique(groups);
    OneCommand(STOP);
    OneCommand(CHECK);
    assert SimplesAt(groups) == [Simple([], STOP), Simple([], CHECK)];
    ReadAlikeExactly(body);
  }

  lemma StopsItsShell()
    ensures !NoneStops(Then(External(0, true), Ended))
  {
  }

  /**
   * A command may stop the shell before the check, behind the guard on control commands; the
   * body is transparent, and its execution is of what the gate read.
   */
  lemma AStoppedShellHidesACheck() returns (execution: Execution)
    ensures Hides(Stopping(CHECK_LINE), execution) && IsTransparent(Stopping(CHECK_LINE)) && !NoneStops(execution)
  {
    hide IsTheCheck, ParseOf, IsAssignment, IsControlOperator, AndList, IsTransparent, Split;
    var body := Stopping(CHECK_LINE);
    CheckIsRead();
    StopIsRead(CHECK_LINE);
    StopIsPlain();
    PlainLine(CHECK_LINE);
    CheckIsParsed(body, STOP);
    ShortRunsNothing("command", ["exit", "0"]);
    assert ["command"] + ["exit", "0"] == STOP;
    CheckIsFound(body, STOP);
    StopIsTransparent(body);
    StopsItsShell();
    execution := NothingIsMade(body, STOP, true);
  }
}
