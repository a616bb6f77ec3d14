/** The small shell language the gate's package scripts are written in: commands joined by `&&`. */
module GateShell {
  import opened Options
  import opened PosixShell

  datatype Command = Command(environment: map<string, string>, argv: seq<string>)

  datatype Refusal =
    | Newline | Substitution | NoTokens | ControlOperator | EmptyBeside | EmptyAtTheEnd
    | OnlyAssignments | ControlCommand | ComputedExecutable

  datatype Parse = Parsed(commands: seq<Command>) | Refused(why: Refusal)

  const AND: string := "&&"

  const CONTROL_COMMANDS: set<string> :=
    {".", "break", "cd", "continue", "eval", "exec", "exit", "false", "return", "source"}

  // ------------------------------------------------------------------------------------------
  // Words.

  predicate IsSpace(c: char) { c == ' ' || c == '\t' || c == '\r' || c == '\n' }

  predicate IsPunctuation(c: char) { c in ";&|()<>" }

  /** How many characters of punctuation a body starts with. */
  function RunOf(body: string): (n: nat)
    ensures n <= |body| && (n < |body| ==> !IsPunctuation(body[n]))
    ensures forall i :: 0 <= i < n ==> IsPunctuation(body[i])
  {
    if body != "" && IsPunctuation(body[0]) then RunOf(body[1..]) + 1 else 0
  }

  function Known(word: Option<string>): string { if word.None? then "" else word.value }

  function Prepended(word: Option<string>, rest: Option<seq<string>>): Option<seq<string>> {
    if word.None? || rest.None? then rest else Some([word.value] + rest.value)
  }

  /**
   * The words `shlex` of Python's library splits a body into, the word now being read given, if
   * one is: in its POSIX mode, split at white space, with runs of these punctuation characters
   * as words of their own and no comments. None where a quote is not closed or a backslash is last.
   */
  function Split(body: string, word: Option<string>): Option<seq<string>>
    decreases |body|
  {
    if body == "" then Prepended(word, Some([]))
    else if IsSpace(body[0]) then Prepended(word, Split(body[1..], None))
    else if IsPunctuation(body[0]) then Prepended(word, Prepended(Some(body[..RunOf(body)]), Split(body[RunOf(body)..], None)))
    else if body[0] == '\'' || body[0] == '"' then SplitQuoted(body[1..], body[0], Known(word))
    else if body[0] == '\\' then
      if |body| < 2 then None else Split(body[2..], Some(Known(word) + [body[1]]))
    else Split(body[1..], Some(Known(word) + [body[0]]))
  }

  /** Between double quotes a backslash escapes itself and the quote, and else both it and what follows stand. */
  function SplitQuoted(body: string, quote: char, word: string): Option<seq<string>>
    decreases |body|
  {
    if body == "" then None
    else if body[0] == quote then Split(body[1..], Some(word))
    else if body[0] == '\\' && quote == '"' then
      if |body| < 2 then None
      else SplitQuoted(body[2..], quote, word + if body[1] == '\\' || body[1] == '"' then [body[1]] else ['\\', body[1]])
    else SplitQuoted(body[1..], quote, word + [body[0]])
  }

  /** A name, an equals sign, and anything. */
  predicate IsAssignment(word: string) {
    var at := EqualsAt(word);
    at < |word| && IsName(word[..at])
  }

  predicate IsControlOperator(token: string) {
    token != "" && token != AND && forall i :: 0 <= i < |token| ==> IsPunctuation(token[i])
  }

  predicate HasSubstitution(body: string) {
    '`' in body || exists i :: 0 <= i < |body| - 1 && body[i] == '$' && body[i + 1] == '('
  }

  // ------------------------------------------------------------------------------------------
  // Groups.

  /** The words between the `&&`s. */
  function Groups(tokens: seq<string>): (groups: seq<seq<string>>)
    ensures |groups| > 0
  {
    if tokens == [] then [[]]
    else if tokens[0] == AND then [[]] + Groups(tokens[1..])
    else
      var rest := Groups(tokens[1..]);
      [[tokens[0]] + rest[0]] + rest[1..]
  }

  function Joined(groups: seq<seq<string>>): seq<string>
    requires |groups| > 0
  {
    if |groups| == 1 then groups[0] else groups[0] + [AND] + Joined(groups[1..])
  }

  ghost predicate NoAnd(groups: seq<seq<string>>) {
    forall k :: 0 <= k < |groups| ==> AND !in groups[k]
  }

  /** The groups are the one way to cut the tokens at each `&&` and nowhere else. */
  lemma {:induction false} GroupsJoin(tokens: seq<string>)
    ensures Joined(Groups(tokens)) == tokens && NoAnd(Groups(tokens))
  {
    if tokens != [] {
      GroupsJoin(tokens[1..]);
      var rest := Groups(tokens[1..]);
      if tokens[0] == AND {
        assert ([[]] + rest)[1..] == rest;
      } else {
        var groups := [[tokens[0]] + rest[0]] + rest[1..];
        assert groups[1..] == rest[1..];
        forall k | 0 <= k < |groups| ensures AND !in groups[k] {
          assert AND !in rest[k];
        }
      }
    }
  }

  lemma {:induction false} GroupsAreUnique(groups: seq<seq<string>>)
    requires |groups| > 0 && NoAnd(groups)
    ensures Groups(Joined(groups)) == groups
    decreases |groups|, |groups[0]|
  {
    var tokens := Joined(groups);
    if groups[0] == [] {
      if |groups| > 1 {
        assert tokens == [AND] + Joined(groups[1..]);
        GroupsAreUnique(groups[1..]);
      }
    } else {
      var shorter := [groups[0][1..]] + groups[1..];
      assert groups[0][0] in groups[0];
      forall k | 0 <= k < |shorter| ensures AND !in shorter[k] {
        assert AND !in groups[k];
      }
      assert shorter[1..] == groups[1..];
      assert tokens[1..] == Joined(shorter);
      GroupsAreUnique(shorter);
      assert [groups[0][0]] + groups[0][1..] == groups[0];
      assert [groups[0]] + groups[1..] == groups;
    }
  }

  lemma {:induction false} JoinedOpens(groups: seq<seq<string>>)
    requires |groups| > 0
    ensures Joined(groups + [[]]) == Joined(groups) + [AND]
  {
    if |groups| > 1 {
      JoinedOpens(groups[1..]);
      assert (groups + [[]])[1..] == groups[1..] + [[]];
    } else {
      assert (groups + [[]])[1..] == [[]];
    }
  }

  lemma {:induction false} JoinedAppends(groups: seq<seq<string>>, token: string)
    requires |groups| > 0
    ensures Joined(groups[..|groups| - 1] + [groups[|groups| - 1] + [token]]) == Joined(groups) + [token]
  {
    var next := groups[..|groups| - 1] + [groups[|groups| - 1] + [token]];
    if |groups| > 1 {
      JoinedAppends(groups[1..], token);
      assert next[1..] == groups[1..][..|groups| - 2] + [groups[|groups| - 1] + [token]];
    }
  }

  // ------------------------------------------------------------------------------------------
  // What a body means.

  /** How many assignments a command starts with. */
  function AssignmentRun(words: seq<string>): (n: nat)
    ensures n <= |words| && (n < |words| ==> !IsAssignment(words[n]))
    ensures forall i :: 0 <= i < n ==> IsAssignment(words[i])
  {
    if words != [] && IsAssignment(words[0]) then AssignmentRun(words[1..]) + 1 else 0
  }

  function NameOf(word: string): string { word[..EqualsAt(word)] }

  function GivenBy(word: string): string { if EqualsAt(word) < |word| then word[EqualsAt(word) + 1..] else "" }

  predicate AreAssignments(words: seq<string>) { forall i :: 0 <= i < |words| ==> IsAssignment(words[i]) }

  /** The assignments taken in turn, over what was there before. */
  function EnvironmentOf(words: seq<string>, before: map<string, string>): map<string, string> {
    if words == [] then before else EnvironmentOf(words[1..], before[NameOf(words[0]) := GivenBy(words[0])])
  }

  function ArgvOf(words: seq<string>): seq<string> { words[AssignmentRun(words)..] }

  function RefusalOf(words: seq<string>): Option<Refusal> {
    var argv := ArgvOf(words);
    if argv == [] then Some(OnlyAssignments)
    else if argv[0] in CONTROL_COMMANDS then Some(ControlCommand)
    else if '$' in argv[0] then Some(ComputedExecutable)
    else None
  }

  function CommandsOf(groups: seq<seq<string>>): Parse {
    if groups == [] then Parsed([])
    else if RefusalOf(groups[0]).Some? then Refused(RefusalOf(groups[0]).value)
    else
      match CommandsOf(groups[1..])
      case Refused(why) => Refused(why)
      case Parsed(rest) => Parsed([Command(EnvironmentOf(groups[0][..AssignmentRun(groups[0])], map[]), ArgvOf(groups[0]))] + rest)
  }

  function ParseOf(body: string): Parse {
    var tokens := Split(body, None);
    if '\n' in body || '\r' in body then Refused(Newline)
    else if HasSubstitution(body) then Refused(Substitution)
    else if tokens.None? then Refused(NoTokens)
    else if exists token :: token in tokens.value && IsControlOperator(token) then Refused(ControlOperator)
    else
      var groups := Groups(tokens.value);
      if exists k :: 0 <= k < |groups| - 1 && groups[k] == [] then Refused(EmptyBeside)
      else if groups[|groups| - 1] == [] then Refused(EmptyAtTheEnd)
      else CommandsOf(groups)
  }

  // ------------------------------------------------------------------------------------------
  // What a parse says of its body.

  /** What the last assignment of a name gives it. */
  function LastGiven(words: seq<string>, name: string): Option<string> {
    if words == [] then None
    else if NameOf(words[|words| - 1]) == name then Some(GivenBy(words[|words| - 1]))
    else LastGiven(words[..|words| - 1], name)
  }

  lemma {:induction false} LastGivenFromTheFront(words: seq<string>, name: string)
    requires words != []
    ensures LastGiven(words, name) ==
      if LastGiven(words[1..], name).Some? then LastGiven(words[1..], name)
      else if NameOf(words[0]) == name then Some(GivenBy(words[0])) else None
  {
    if |words| > 1 {
      LastGivenFromTheFront(words[..|words| - 1], name);
      assert words[..|words| - 1][1..] == words[1..][..|words| - 2];
    }
  }

  /** The environment holds what the last assignment of each name gives it, and else what was there. */
  lemma {:induction false} LastAssignmentStands(words: seq<string>, before: map<string, string>, name: string)
    ensures var environment := EnvironmentOf(words, before);
      (if name in environment then Some(environment[name]) else None)
      == if LastGiven(words, name).Some? then LastGiven(words, name) else if name in before then Some(before[name]) else None
  {
    if words != [] {
      LastGivenFromTheFront(words, name);
      LastAssignmentStands(words[1..], before[NameOf(words[0]) := GivenBy(words[0])], name);
    }
  }

  /** The environment holds just what the last assignments give. */
  ghost predicate HoldsLast(words: seq<string>, environment: map<string, string>) {
    forall name :: (if name in environment then Some(environment[name]) else None) == LastGiven(words, name)
  }

  /** The word leaves its shell, or what runs after it cannot be told. */
  predicate IsControl(word: string) {
    || word == "." || word == "break" || word == "cd" || word == "continue" || word == "eval" || word == "exec"
    || word == "exit" || word == "false" || word == "return" || word == "source"
  }

  /** After `n` assignments, which make the environment, comes an argv that executes something plain. */
  ghost predicate SaysAfter(words: seq<string>, command: Command, n: nat) {
    && n < |words| && words[n..] == command.argv && AreAssignments(words[..n])
    && !IsAssignment(words[n]) && !IsControl(words[n]) && '$' !in words[n]
    && HoldsLast(words[..n], command.environment)
  }

  /** The command is what the words say: assignments, and then an argv. */
  ghost predicate Says(words: seq<string>, command: Command) {
    exists n: nat :: SaysAfter(words, command, n)
  }

  lemma OneSays(words: seq<string>)
    requires RefusalOf(words).None?
    ensures Says(words, Command(EnvironmentOf(words[..AssignmentRun(words)], map[]), ArgvOf(words)))
  {
    var n := AssignmentRun(words);
    forall name
      ensures (if name in EnvironmentOf(words[..n], map[]) then Some(EnvironmentOf(words[..n], map[])[name]) else None)
              == LastGiven(words[..n], name)
    {
      LastAssignmentStands(words[..n], map[], name);
    }
    assert SaysAfter(words, Command(EnvironmentOf(words[..n], map[]), ArgvOf(words)), n);
  }

  lemma {:induction false} EachSays(groups: seq<seq<string>>)
    requires CommandsOf(groups).Parsed?
    ensures var commands := CommandsOf(groups).commands;
      |commands| == |groups| && forall k :: 0 <= k < |groups| ==> Says(groups[k], commands[k])
  {
    if groups != [] {
      EachSays(groups[1..]);
      OneSays(groups[0]);
      var commands, rest := CommandsOf(groups).commands, CommandsOf(groups[1..]).commands;
      forall k | 0 <= k < |groups| ensures Says(groups[k], commands[k]) {
        if k > 0 {
          assert Says(groups[1..][k - 1], rest[k - 1]);
          assert groups[1..][k - 1] == groups[k] && rest[k - 1] == commands[k];
        }
      }
    }
  }

  lemma {:induction false} RunStopsThere(words: seq<string>, n: nat)
    requires n < |words| && AreAssignments(words[..n]) && !IsAssignment(words[n])
    ensures AssignmentRun(words) == n
  {
    if n > 0 {
      assert words[0] == words[..n][0] && words[1..][..n - 1] == words[..n][1..];
      RunStopsThere(words[1..], n - 1);
    }
  }

  lemma OneEnvironment(words: seq<string>, environment: map<string, string>)
    requires HoldsLast(words, environment)
    ensures environment == EnvironmentOf(words, map[])
  {
    hide EnvironmentOf, LastGiven;
    var other := EnvironmentOf(words, map[]);
    forall name ensures (name in other <==> name in environment) && (name in other ==> other[name] == environment[name]) {
      LastAssignmentStands(words, map[], name);
      assert (if name in environment then Some(environment[name]) else None) == LastGiven(words, name);
    }
  }

  /** Words that say a command say no other, and are refused for nothing. */
  lemma WhatIsSaid(words: seq<string>, command: Command)
    requires Says(words, command)
    ensures words != [] && RefusalOf(words).None?
    ensures command == Command(EnvironmentOf(words[..AssignmentRun(words)], map[]), ArgvOf(words))
  {
    hide EnvironmentOf, LastGiven, IsAssignment, HoldsLast;
    var n: nat :| SaysAfter(words, command, n);
    RunStopsThere(words, n);
    OneEnvironment(words[..n], command.environment);
  }

  lemma {:induction false} AllSaid(groups: seq<seq<string>>, commands: seq<Command>)
    requires |groups| == |commands| && forall k :: 0 <= k < |groups| ==> Says(groups[k], commands[k])
    ensures CommandsOf(groups) == Parsed(commands)
  {
    if groups != [] {
      WhatIsSaid(groups[0], commands[0]);
      forall k | 0 <= k < |groups[1..]| ensures Says(groups[1..][k], commands[1..][k]) {
        assert Says(groups[k + 1], commands[k + 1]);
      }
      AllSaid(groups[1..], commands[1..]);
      assert commands == [commands[0]] + commands[1..];
    }
  }

  /**
   * An and-list and nothing else: the words, cut at each `&&`, are the commands one by one, each
   * with its assignments, and no other control operator is among them.
   */
  ghost predicate IsAndList(body: string, commands: seq<Command>) {
    && '\n' !in body && '\r' !in body && !HasSubstitution(body) && Split(body, None).Some?
    && (forall token :: token in Split(body, None).value ==> !IsControlOperator(token))
    && exists groups: seq<seq<string>> ::
         && |groups| == |commands| > 0 && NoAnd(groups) && Joined(groups) == Split(body, None).value
         && forall k :: 0 <= k < |groups| ==> Says(groups[k], commands[k])
  }

  lemma ParsedSays(body: string, commands: seq<Command>)
    requires ParseOf(body) == Parsed(commands)
    ensures IsAndList(body, commands)
  {
    var tokens := Split(body, None).value;
    GroupsJoin(tokens);
    EachSays(Groups(tokens));
  }

  lemma SaidIsParsed(body: string, commands: seq<Command>)
    requires IsAndList(body, commands)
    ensures ParseOf(body) == Parsed(commands)
  {
    hide Split, HasSubstitution, IsControlOperator;
    var groups: seq<seq<string>> :|
      && |groups| == |commands| > 0 && NoAnd(groups) && Joined(groups) == Split(body, None).value
      && forall k :: 0 <= k < |groups| ==> Says(groups[k], commands[k]);
    GroupsAreUnique(groups);
    forall k | 0 <= k < |groups| ensures groups[k] != [] {
      WhatIsSaid(groups[k], commands[k]);
    }
    AllSaid(groups, commands);
  }

  /** A body parses to these commands exactly when its words are the and-list of them. */
  lemma ParsedIsAnAndList(body: string, commands: seq<Command>)
    ensures ParseOf(body) == Parsed(commands) <==> IsAndList(body, commands)
  {
    if ParseOf(body) == Parsed(commands) {
      ParsedSays(body, commands);
    } else if IsAndList(body, commands) {
      SaidIsParsed(body, commands);
    }
  }

  // ------------------------------------------------------------------------------------------
  // The parse.

  method CutAtAnds(tokens: seq<string>) returns (refusal: Option<Refusal>, groups: seq<seq<string>>)
    ensures groups == Groups(tokens) || refusal.Some?
    ensures refusal ==
      if exists k :: 0 <= k < |Groups(tokens)| - 1 && Groups(tokens)[k] == [] then Some(EmptyBeside)
      else if Groups(tokens)[|Groups(tokens)| - 1] == [] then Some(EmptyAtTheEnd) else None
  {
    groups := [[]];
    for i := 0 to |tokens|
      invariant |groups| > 0 && NoAnd(groups) && Joined(groups) == tokens[..i]
      invariant forall k :: 0 <= k < |groups| - 1 ==> groups[k] != []
    {
      assert tokens[..i + 1] == tokens[..i] + [tokens[i]];
      if tokens[i] == AND {
        if groups[|groups| - 1] == [] {
          EmptyBefore(tokens, i, groups);
          return Some(EmptyBeside), groups;
        }
        JoinedOpens(groups);
        groups := groups + [[]];
      } else {
        JoinedAppends(groups, tokens[i]);
        NoAndAppends(groups, tokens[i]);
        groups := groups[..|groups| - 1] + [groups[|groups| - 1] + [tokens[i]]];
      }
    }
    assert tokens[..|tokens|] == tokens;
    GroupsAreUnique(groups);
    refusal := if groups[|groups| - 1] == [] then Some(EmptyAtTheEnd) else None;
  }

  lemma NoAndAppends(groups: seq<seq<string>>, token: string)
    requires |groups| > 0 && NoAnd(groups) && token != AND
    ensures NoAnd(groups[..|groups| - 1] + [groups[|groups| - 1] + [token]])
  {
    var next := groups[..|groups| - 1] + [groups[|groups| - 1] + [token]];
    forall k | 0 <= k < |next| ensures AND !in next[k] {
      assert AND !in groups[k];
    }
  }

  lemma {:induction false} GroupsExtend(groups: seq<seq<string>>, later: seq<string>)
    requires |groups| > 0 && NoAnd(groups)
    ensures Groups(Joined(groups) + [AND] + later) == groups + Groups(later)
  {
    GroupsJoin(later);
    var rest := Groups(later);
    forall k | 0 <= k < |groups + rest| ensures AND !in (groups + rest)[k] {
      if k < |groups| { assert AND !in groups[k]; } else { assert AND !in rest[k - |groups|]; }
    }
    JoinedJoins(groups, rest);
    GroupsAreUnique(groups + rest);
    assert Joined(groups) + [AND] + later == Joined(groups + rest);
  }

  lemma {:induction false} JoinedJoins(groups: seq<seq<string>>, rest: seq<seq<string>>)
    requires |groups| > 0 && |rest| > 0
    ensures Joined(groups + rest) == Joined(groups) + [AND] + Joined(rest)
  {
    assert (groups + rest)[1..] == groups[1..] + rest;
    if |groups| > 1 {
      JoinedJoins(groups[1..], rest);
    } else {
      assert (groups + rest)[1..] == rest;
    }
  }

  /** An `&&` after no word leaves an empty command before it, whatever follows. */
  lemma EmptyBefore(tokens: seq<string>, i: nat, groups: seq<seq<string>>)
    requires i < |tokens| && tokens[i] == AND && |groups| > 0 && NoAnd(groups) && Joined(groups) == tokens[..i]
    requires groups[|groups| - 1] == []
    ensures |groups| < |Groups(tokens)| && Groups(tokens)[|groups| - 1] == []
  {
    assert tokens == tokens[..i] + [AND] + tokens[i + 1..];
    GroupsExtend(groups, tokens[i + 1..]);
  }

  /** One command's words: its assignments are taken from the front, one by one, and what is left is executed. */
  method ReadCommand(words: seq<string>) returns (refusal: Option<Refusal>, command: Command)
    ensures refusal == RefusalOf(words)
    ensures refusal.None? ==> command == Command(EnvironmentOf(words[..AssignmentRun(words)], map[]), ArgvOf(words))
  {
    var environment := map[];
    var left := words;
    ghost var n := 0;
    while left != [] && IsAssignment(left[0])
      invariant n <= |words| && left == words[n..] && n + AssignmentRun(left) == AssignmentRun(words)
      invariant EnvironmentOf(words[..AssignmentRun(words)], map[]) == EnvironmentOf(left[..AssignmentRun(left)], environment)
      decreases |left|
    {
      assert left[..AssignmentRun(left)][1..] == left[1..][..AssignmentRun(left[1..])];
      environment := environment[NameOf(left[0]) := GivenBy(left[0])];
      left := left[1..];
      n := n + 1;
    }
    command := Command(environment, left);
    refusal :=
      if left == [] then Some(OnlyAssignments)
      else if left[0] in CONTROL_COMMANDS then Some(ControlCommand)
      else if '$' in left[0] then Some(ComputedExecutable)
      else None;
  }

  function AfterCommands(commands: seq<Command>, parse: Parse): Parse {
    match parse
    case Refused(why) => Refused(why)
    case Parsed(rest) => Parsed(commands + rest)
  }

  /** Each group's command, until one is refused. */
  method ReadCommands(groups: seq<seq<string>>) returns (parse: Parse)
    ensures parse == CommandsOf(groups)
  {
    hide RefusalOf, EnvironmentOf, AssignmentRun, ArgvOf;
    var commands: seq<Command> := [];
    for k := 0 to |groups|
      invariant CommandsOf(groups) == AfterCommands(commands, CommandsOf(groups[k..]))
    {
      var refusal, command := ReadCommand(groups[k]);
      assert groups[k..][1..] == groups[k + 1..];
      if refusal.Some? { return Refused(refusal.value); }
      commands := commands + [command];
    }
    return Parsed(commands);
  }

  /** Parses a package script's body. */
  method ShellCommands(body: string) returns (parse: Parse)
    ensures parse == ParseOf(body)
  {
    hide HasSubstitution, IsControlOperator, CommandsOf, Groups, Split;
    if '\n' in body || '\r' in body { return Refused(Newline); }
    if HasSubstitution(body) { return Refused(Substitution); }
    var tokens := Split(body, None);
    if tokens.None? { return Refused(NoTokens); }
    if exists token :: token in tokens.value && IsControlOperator(token) { return Refused(ControlOperator); }
    var refusal, groups := CutAtAnds(tokens.value);
    if refusal.Some? { return Refused(refusal.value); }
    parse := ReadCommands(groups);
  }
}
