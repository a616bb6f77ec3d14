/**
 * The scripts a package's `verify` runs, read from the package's scripts alone, and what any
 * execution of `verify` has then run.
 */
module Gate {
  import opened Options
  import opened PosixShell
  import opened GateShell
  import opened GateAgreement

  /** A package script: a body, or a value that is not one. */
  datatype Entry = Body(text: string) | NoBody

  type Scripts = map<string, Entry>

  datatype Invocation = Invocation(name: string, argv: seq<string>, environment: map<string, string>)

  datatype Finding = Recursion(script: string) | Missing(script: string) | Unparsed(why: Refusal) | InvokedTwice(path: string)

  // ------------------------------------------------------------------------------------------
  // One command.

  predicate EndsWith(s: string, end: string) { |end| <= |s| && s[|s| - |end|..] == end }

  /** The last part of a path that is neither empty nor the place it stands in. */
  function FileName(path: string, part: string): string {
    if path == "" then if part == "." then "" else part
    else if path[|path| - 1] == '/' then
      if part == "" || part == "." then FileName(path[..|path| - 1], "") else part
    else FileName(path[..|path| - 1], [path[|path| - 1]] + part)
  }

  /** A version after the name: nothing, or numbers with single points between them. */
  predicate IsVersion(s: string) {
    s == "" || (IsDecimal(s[0]) && IsDecimal(s[|s| - 1]) && (forall i :: 0 <= i < |s| ==> IsDecimal(s[i]) || s[i] == '.')
                && forall i :: 0 <= i < |s| - 1 ==> s[i] != '.' || s[i + 1] != '.')
  }

  predicate IsInterpreter(executable: string) {
    || executable == "bash" || executable == "sh"
    || (|executable| >= 6 && executable[..6] == "python" && IsVersion(executable[6..]))
  }

  predicate IsScriptName(s: string) {
    && |s| > 3 && (EndsWith(s, ".py") || EndsWith(s, ".sh"))
    && forall i :: 0 <= i < |s| ==> IsLetter(s[i]) || IsDecimal(s[i]) || s[i] == '.' || s[i] == '-'
  }

  function AfterPrefix(s: string, prefix: string): Option<string> {
    if prefix <= s then Some(s[|prefix|..]) else None
  }

  /** The script file under scripts/ that a path names. */
  function ScriptOf(path: string): Option<string> {
    var here := AfterPrefix(path, "./");
    var name := AfterPrefix(if here.Some? then here.value else path, "scripts/");
    if name.Some? && IsScriptName(name.value) then name else None
  }

  /** The script a command executes: its executable, or an interpreter's first argument. */
  function ExecutedScript(argv: seq<string>): Option<string>
    requires argv != []
  {
    if IsInterpreter(FileName(argv[0], "")) then
      var arguments := if |argv| > 1 && argv[1] == "--" then argv[2..] else argv[1..];
      if arguments != [] && !("-" <= arguments[0]) then ScriptOf(arguments[0]) else None
    else ScriptOf(argv[0])
  }

  /** The package script a command runs. */
  function RefOf(scripts: Scripts, argv: seq<string>): (ref: Option<string>)
    ensures ref.Some? ==> ref.value in scripts
  {
    if argv == [] || argv[0] != "pnpm" then None
    else if |argv| >= 3 && argv[1] == "run" && argv[2] in scripts then Some(argv[2])
    else if |argv| >= 2 && argv[1] in scripts then Some(argv[1])
    else None
  }

  /** The commands the gate takes a script for. */
  function ParsedScript(scripts: Scripts, name: string): Option<seq<Command>> {
    if name in scripts && scripts[name].Body? && ParseOf(scripts[name].text).Parsed?
    then Some(ParseOf(scripts[name].text).commands) else None
  }

  /** The commands a shell reads it as. */
  function ReadScript(scripts: Scripts, name: string): Option<seq<Command>> {
    if name in scripts && scripts[name].Body? then ReadBody(scripts[name].text) else None
  }

  predicate AreRun(commands: seq<Command>) { forall k :: 0 <= k < |commands| ==> commands[k].argv != [] }

  lemma {:induction false} GroupsAreRun(groups: seq<seq<string>>)
    requires CommandsOf(groups).Parsed?
    ensures AreRun(CommandsOf(groups).commands)
  {
    if groups != [] {
      GroupsAreRun(groups[1..]);
      var commands, rest := CommandsOf(groups).commands, CommandsOf(groups[1..]).commands;
      assert commands[1..] == rest;
      forall k | 0 <= k < |commands| ensures commands[k].argv != [] {
        if k > 0 { assert commands[k] == rest[k - 1]; }
      }
    }
  }

  lemma ScriptsAreRun(scripts: Scripts, name: string)
    ensures ParsedScript(scripts, name).Some? ==> AreRun(ParsedScript(scripts, name).value)
  {
    if ParsedScript(scripts, name).Some? { GroupsAreRun(Groups(Split(scripts[name].text, None).value)); }
  }

  /** A script's own invocation, if the command executes one. */
  function InvocationsOf(command: Command, environment: map<string, string>): seq<Invocation> {
    if command.argv == [] || ExecutedScript(command.argv).None? then []
    else [Invocation(ExecutedScript(command.argv).value, command.argv, environment)]
  }

  // ------------------------------------------------------------------------------------------
  // Executions.

  /** An execution of an and-list: the commands it ran, each on its own or as a whole execution of a package script. */
  datatype Execution = Ended | Then(one: Ran, more: Execution)

  /** A command outside the package exits as it likes, and may stop the shell it runs in, as `exit` does behind `command`. */
  datatype Ran = External(exit: nat, stops: bool) | Called(inner: Execution)

  function ExitOf(one: Ran): nat
    decreases one, 0
  {
    match one case External(exit, _) => exit case Called(inner) => Exit(inner)
  }

  predicate GoesOn(one: Ran)
    decreases one, 1
  {
    ExitOf(one) == 0 && !(one.External? && one.stops)
  }

  /** An and-list exits with the status of the command after which it does not go on. */
  function Exit(execution: Execution): nat {
    if execution.Ended? then 0 else if !GoesOn(execution.one) then ExitOf(execution.one) else Exit(execution.more)
  }

  /** No command stopped the shell it ran in. */
  predicate NoneStops(execution: Execution) {
    execution.Then? ==>
      && (match execution.one case External(_, stops) => !stops case Called(inner) => NoneStops(inner))
      && NoneStops(execution.more)
  }

  /**
   * The execution is one of these commands, as a shell runs an and-list: each runs after the
   * last exited zero and let the shell go on, and none after one that did not. A package script
   * runs in a shell of its own, as that shell reads it.
   */
  predicate Executes(scripts: Scripts, commands: seq<Command>, execution: Execution)
    decreases execution, 0
  {
    if commands == [] then execution.Ended?
    else
      && execution.Then?
      && ExecutesOne(scripts, commands[0], execution.one)
      && if GoesOn(execution.one) then Executes(scripts, commands[1..], execution.more) else execution.more.Ended?
  }

  predicate ExecutesOne(scripts: Scripts, command: Command, one: Ran)
    decreases one, 2
  {
    var ref := RefOf(scripts, command.argv);
    if ref.None? then one.External? else one.Called? && ExecutesScript(scripts, ref.value, one.inner)
  }

  predicate ExecutesScript(scripts: Scripts, name: string, execution: Execution)
    decreases execution, 1
  {
    ReadScript(scripts, name).Some? && Executes(scripts, ReadScript(scripts, name).value, execution)
  }

  /** The script invocations an execution made, in order. */
  function Made(scripts: Scripts, commands: seq<Command>, environment: map<string, string>, execution: Execution): seq<Invocation>
    requires Executes(scripts, commands, execution)
    decreases execution, 0
  {
    if commands == [] then []
    else
      var merged := environment + commands[0].environment;
      MadeByOne(scripts, commands[0], merged, execution.one)
      + if GoesOn(execution.one) then Made(scripts, commands[1..], environment, execution.more) else []
  }

  function MadeByOne(scripts: Scripts, command: Command, merged: map<string, string>, one: Ran): seq<Invocation>
    requires ExecutesOne(scripts, command, one)
    decreases one, 2
  {
    var ref := RefOf(scripts, command.argv);
    if ref.None? then InvocationsOf(command, merged)
    else
      assert ExecutesScript(scripts, ref.value, one.inner);
      Made(scripts, ReadScript(scripts, ref.value).value, merged, one.inner)
  }

  /** The package scripts the commands run are among these. */
  ghost predicate RunsAmong(scripts: Scripts, names: set<string>, commands: seq<Command>) {
    forall k :: 0 <= k < |commands| ==>
      var ref := RefOf(scripts, commands[k].argv);
      ref.Some? ==> ref.value in names
  }

  /** Of these scripts each parses, is transparent, and runs only others of them. */
  ghost predicate AreTransparent(scripts: Scripts, names: set<string>) {
    forall name :: name in names ==>
      && ParsedScript(scripts, name).Some? && IsTransparent(scripts[name].text)
      && RunsAmong(scripts, names, ParsedScript(scripts, name).value)
  }

  lemma RunAmongToo(scripts: Scripts, names: set<string>, commands: seq<Command>)
    requires RunsAmong(scripts, names, commands) && commands != []
    ensures RunsAmong(scripts, names, [commands[0]]) && RunsAmong(scripts, names, commands[1..])
  {
    hide RefOf;
  }

  lemma TransparentIsRead(scripts: Scripts, names: set<string>, name: string)
    requires AreTransparent(scripts, names) && name in names
    ensures ParsedScript(scripts, name).Some? && ReadScript(scripts, name) == ParsedScript(scripts, name)
    ensures RunsAmong(scripts, names, ParsedScript(scripts, name).value)
  {
    hide ParseOf, ReadBody, IsTransparent;
    ReadAlikeExactly(scripts[name].text);
  }

  // ------------------------------------------------------------------------------------------
  // The expansion.

  function Both(first: Option<seq<Invocation>>, rest: Option<seq<Invocation>>): Option<seq<Invocation>> {
    if first.None? || rest.None? then None else Some(first.value + rest.value)
  }

  /**
   * The invocations a package script stands for, none if it reaches a script a second time
   * before the first returns, a script that is missing, or a body that does not parse.
   */
  function Expansion(scripts: Scripts, active: set<string>, name: string,
                     environment: map<string, string>): Option<seq<Invocation>>
    decreases scripts.Keys - active, 0, 0
  {
    if name in active || ParsedScript(scripts, name).None? then None
    else
      assert name in scripts.Keys - active && name !in scripts.Keys - (active + {name});
      ExpansionOf(scripts, active + {name}, ParsedScript(scripts, name).value, environment)
  }

  function ExpansionOf(scripts: Scripts, active: set<string>, commands: seq<Command>,
                       environment: map<string, string>): Option<seq<Invocation>>
    decreases scripts.Keys - active, |commands|, 2
  {
    if commands == [] then Some([])
    else
      var first := ExpansionOfOne(scripts, active, commands[0], environment + commands[0].environment);
      var rest := ExpansionOf(scripts, active, commands[1..], environment);
      Both(first, rest)
  }

  function ExpansionOfOne(scripts: Scripts, active: set<string>, command: Command,
                          merged: map<string, string>): Option<seq<Invocation>>
    decreases scripts.Keys - active, 0, 1
  {
    var ref := RefOf(scripts, command.argv);
    if ref.None? then Some(InvocationsOf(command, merged)) else Expansion(scripts, active, ref.value, merged)
  }

  // ------------------------------------------------------------------------------------------
  // What an execution has run.

  /**
   * Of commands that expand, where the scripts they run are transparent, any execution that
   * stopped no shell made a prefix of the expansion's invocations, with the expansion's own
   * arguments and environments, and all of them if it exits zero.
   */
  lemma {:induction false} ExecutionFollows(scripts: Scripts, names: set<string>, active: set<string>, commands: seq<Command>,
                                            environment: map<string, string>, execution: Execution)
    requires AreTransparent(scripts, names) && RunsAmong(scripts, names, commands)
    requires Executes(scripts, commands, execution) && NoneStops(execution)
    requires ExpansionOf(scripts, active, commands, environment).Some?
    ensures Made(scripts, commands, environment, execution) <= ExpansionOf(scripts, active, commands, environment).value
    ensures Exit(execution) == 0 ==>
      Made(scripts, commands, environment, execution) == ExpansionOf(scripts, active, commands, environment).value
    decreases execution
  {
    hide AreTransparent, RefOf;
    if commands != [] {
      var merged := environment + commands[0].environment;
      var first := ExpansionOfOne(scripts, active, commands[0], merged).value;
      var rest := ExpansionOf(scripts, active, commands[1..], environment).value;
      RunAmongToo(scripts, names, commands);
      OneFollows(scripts, names, active, commands[0], merged, execution.one);
      if GoesOn(execution.one) {
        ExecutionFollows(scripts, names, active, commands[1..], environment, execution.more);
      } else {
        assert MadeByOne(scripts, commands[0], merged, execution.one) <= first + rest;
      }
    }
  }

  lemma {:induction false} OneFollows(scripts: Scripts, names: set<string>, active: set<string>, command: Command,
                                      merged: map<string, string>, one: Ran)
    requires AreTransparent(scripts, names) && RunsAmong(scripts, names, [command])
    requires ExecutesOne(scripts, command, one) && (one.Called? ==> NoneStops(one.inner))
    requires ExpansionOfOne(scripts, active, command, merged).Some?
    ensures MadeByOne(scripts, command, merged, one) <= ExpansionOfOne(scripts, active, command, merged).value
    ensures ExitOf(one) == 0 ==>
      MadeByOne(scripts, command, merged, one) == ExpansionOfOne(scripts, active, command, merged).value
    decreases one
  {
    hide AreTransparent, RefOf, InvocationsOf;
    var ref := RefOf(scripts, command.argv);
    if ref.Some? {
      assert [command][0] == command;
      TransparentIsRead(scripts, names, ref.value);
      assert ExecutesScript(scripts, ref.value, one.inner);
      ExecutionFollows(scripts, names, active + {ref.value}, ParsedScript(scripts, ref.value).value, merged, one.inner);
    }
  }

  /** Commands that expand have an execution that exits zero and stops no shell. */
  lemma {:induction false} PassingExecution(scripts: Scripts, names: set<string>, active: set<string>, commands: seq<Command>,
                                            environment: map<string, string>)
    returns (execution: Execution)
    requires AreTransparent(scripts, names) && RunsAmong(scripts, names, commands)
    requires ExpansionOf(scripts, active, commands, environment).Some?
    ensures Executes(scripts, commands, execution) && Exit(execution) == 0 && NoneStops(execution)
    decreases scripts.Keys - active, |commands|, 2
  {
    hide AreTransparent, RefOf, ExecutesOne, ExpansionOfOne;
    execution := Ended;
    if commands != [] {
      RunAmongToo(scripts, names, commands);
      var one := PassingOne(scripts, names, active, commands[0], environment + commands[0].environment);
      var more := PassingExecution(scripts, names, active, commands[1..], environment);
      execution := Then(one, more);
    }
  }

  lemma {:induction false} PassingOne(scripts: Scripts, names: set<string>, active: set<string>, command: Command,
                                      merged: map<string, string>)
    returns (one: Ran)
    requires AreTransparent(scripts, names) && RunsAmong(scripts, names, [command])
    requires ExpansionOfOne(scripts, active, command, merged).Some?
    ensures ExecutesOne(scripts, command, one) && GoesOn(one) && NoneStops(Then(one, Ended))
    decreases scripts.Keys - active, 0, 1
  {
    hide AreTransparent, RefOf;
    var ref := RefOf(scripts, command.argv);
    one := External(0, false);
    if ref.Some? {
      assert [command][0] == command;
      assert Expansion(scripts, active, ref.value, merged).Some?;
      assert ref.value in scripts.Keys - active && ref.value !in scripts.Keys - (active + {ref.value});
      TransparentIsRead(scripts, names, ref.value);
      var inner := PassingExecution(scripts, names, active + {ref.value}, ParsedScript(scripts, ref.value).value, merged);
      one := Called(inner);
      assert ExecutesScript(scripts, ref.value, inner);
    }
  }

  // ------------------------------------------------------------------------------------------
  // The reader.

  function Names(invocations: seq<Invocation>): (names: seq<string>)
    ensures |names| == |invocations| && forall i :: 0 <= i < |names| ==> names[i] == invocations[i].name
  {
    seq(|invocations|, i requires 0 <= i < |invocations| => invocations[i].name)
  }

  ghost predicate Distinct(names: seq<string>) {
    forall i, j :: 0 <= i < j < |names| ==> names[i] != names[j]
  }

  /** An expansion that names no script twice, nor one already read. */
  ghost predicate Fits(before: seq<Invocation>, expansion: Option<seq<Invocation>>) {
    expansion.Some? && Distinct(Names(before + expansion.value))
  }

  /** What does not fit stays so, whatever is read after it. */
  lemma MisfitStays(before: seq<Invocation>, done: seq<Invocation>, one: Option<seq<Invocation>>, rest: Option<seq<Invocation>>)
    requires !Fits(before + done, one)
    ensures !Fits(before, Both(Some(done), Both(one, rest)))
  {
    if one.Some? && rest.Some? {
      var names, all := Names(before + done + one.value), Names(before + (done + (one.value + rest.value)));
      var i, j :| 0 <= i < j < |names| && names[i] == names[j];
      assert all[i] == names[i] && all[j] == names[j];
    }
  }

  lemma OneMore(invocations: seq<Invocation>, one: Invocation)
    requires Distinct(Names(invocations))
    ensures Names(invocations + [one]) == Names(invocations) + [one.name]
    ensures Distinct(Names(invocations + [one])) <==> one.name !in Names(invocations)
  {
    var names := Names(invocations + [one]);
    assert names == Names(invocations) + [one.name];
    if one.name in Names(invocations) {
      var i :| 0 <= i < |invocations| && Names(invocations)[i] == one.name;
      assert names[i] == names[|invocations|];
    }
  }

  lemma FitsIsSome(before: seq<Invocation>, expansion: Option<seq<Invocation>>)
    requires Fits(before, expansion)
    ensures expansion.Some?
  {
  }

  lemma Regroup(was: seq<Invocation>, done: seq<Invocation>, one: seq<Invocation>, rest: Option<seq<Invocation>>)
    ensures Both(Some(done), Both(Some(one), rest)) == Both(Some(done + one), rest)
    ensures was + done + one == was + (done + one)
  {
    if rest.Some? { assert done + (one + rest.value) == done + one + rest.value; }
  }

  lemma AllIsLeft(all: Option<seq<Invocation>>)
    ensures Both(Some([]), all) == all
  {
    if all.Some? { assert [] + all.value == all.value; }
  }

  lemma Unfolds(scripts: Scripts, active: set<string>, commands: seq<Command>, k: nat,
                environment: map<string, string>)
    requires k < |commands|
    ensures ExpansionOf(scripts, active, commands[k..], environment)
         == Both(ExpansionOfOne(scripts, active, commands[k], environment + commands[k].environment),
                 ExpansionOf(scripts, active, commands[k + 1..], environment))
  {
    assert commands[k..][1..] == commands[k + 1..];
  }

  lemma RunsSomething(commands: seq<Command>, k: nat)
    requires AreRun(commands) && k < |commands|
    ensures commands[k].argv != []
  {
  }

  class GateReader {
    const scripts: Scripts
    var active: set<string>
    var found: set<string>
    var order: seq<string>
    var invocations: seq<Invocation>
    var errors: seq<Finding>

    constructor (scripts: Scripts)
      ensures Valid() && this.scripts == scripts
      ensures active == {} && invocations == [] && errors == []
    {
      this.scripts := scripts;
      active, found, order, invocations, errors := {}, {}, [], [], [];
    }

    ghost predicate Valid()
      reads this
    {
      order == Names(invocations) && Distinct(order) && forall path :: path in found <==> path in order
    }

    /**
     * Reads one package script and those it runs. It ends since the active scripts grow within
     * the table. Nothing is reported exactly when the script expands and names no script twice,
     * and then its invocations are the expansion's, after those read before.
     */
    method Expand(name: string, inherited: map<string, string>)
      requires Valid()
      modifies this`active, this`found, this`order, this`invocations, this`errors
      ensures Valid() && active == old(active) && old(errors) <= errors
      ensures var expansion := Expansion(scripts, active, name, inherited);
        (errors == old(errors) <==> Fits(old(invocations), expansion))
        && (errors == old(errors) ==> invocations == old(invocations) + expansion.value)
      decreases scripts.Keys - active, 0, 0
    {
      if name in active {
        errors := errors + [Recursion(name)];
        return;
      }
      if name !in scripts || scripts[name].NoBody? {
        errors := errors + [Missing(name)];
        return;
      }
      var body := scripts[name].text;
      active := active + {name};
      var parse := ShellCommands(body);
      if parse.Refused? {
        errors := errors + [Unparsed(parse.why)];
        active := active - {name};
        return;
      }
      var commands := parse.commands;
      ScriptsAreRun(scripts, name);
      ReadAll(commands, inherited);
      active := active - {name};
    }

    method ReadAll(commands: seq<Command>, inherited: map<string, string>)
      requires Valid() && AreRun(commands)
      modifies this`active, this`found, this`order, this`invocations, this`errors
      ensures Valid() && active == old(active) && old(errors) <= errors
      ensures var expansion := ExpansionOf(scripts, active, commands, inherited);
        (errors == old(errors) <==> Fits(old(invocations), expansion))
        && (errors == old(errors) ==> invocations == old(invocations) + expansion.value)
      decreases scripts.Keys - active, |commands|, 2
    {
      hide RefOf, ExpansionOfOne, InvocationsOf, Distinct;
      ghost var was, wasErrors := invocations, errors;
      ghost var done: seq<Invocation> := [];
      ghost var left := ExpansionOf(scripts, active, commands, inherited);
      ghost var all := left;
      AllIsLeft(all);
      var k := 0;
      assert commands[0..] == commands;
      while k < |commands|
        invariant k <= |commands| && Valid() && active == old(active) && wasErrors <= errors
        invariant left == ExpansionOf(scripts, active, commands[k..], inherited)
        invariant errors == wasErrors ==> invocations == was + done && all == Both(Some(done), left)
        invariant errors != wasErrors ==> !Fits(was, all)
      {
        hide *;
        var merged := inherited + commands[k].environment;
        Unfolds(scripts, active, commands, k, inherited);
        ghost var one := ExpansionOfOne(scripts, active, commands[k], merged);
        ghost var rest := ExpansionOf(scripts, active, commands[k + 1..], inherited);
        ghost var before, clean := invocations, errors == wasErrors;
        RunsSomething(commands, k);
        ReadOne(commands[k], merged);
        if clean {
          if errors == wasErrors {
            FitsIsSome(before, one);
            Regroup(was, done, one.value, rest);
            done := done + one.value;
          } else {
            MisfitStays(was, done, one, rest);
          }
        }
        k := k + 1;
        left := rest;
      }
      assert commands[k..] == [];
      assert done + [] == done;
      if errors == wasErrors { assert Distinct(Names(was + done)); }
    }

    method ReadOne(command: Command, merged: map<string, string>)
      requires Valid() && command.argv != []
      modifies this`active, this`found, this`order, this`invocations, this`errors
      ensures Valid() && active == old(active) && old(errors) <= errors
      ensures var expansion := ExpansionOfOne(scripts, active, command, merged);
        (errors == old(errors) <==> Fits(old(invocations), expansion))
        && (errors == old(errors) ==> invocations == old(invocations) + expansion.value)
      decreases scripts.Keys - active, 0, 1
    {
      var ref := RefOf(scripts, command.argv);
      if ref.Some? {
        Expand(ref.value, merged);
        return;
      }
      var path := ExecutedScript(command.argv);
      if path.None? {
        assert invocations + [] == invocations;
        return;
      }
      OneMore(invocations, Invocation(path.value, command.argv, merged));
      if path.value in found {
        errors := errors + [InvokedTwice(path.value)];
        return;
      }
      found := found + {path.value};
      order := order + [path.value];
      invocations := invocations + [Invocation(path.value, command.argv, merged)];
    }
  }

  // ------------------------------------------------------------------------------------------
  // The gate.

  const VERIFY: string := "verify"

  function MadeByScript(scripts: Scripts, name: string, execution: Execution): seq<Invocation>
    requires ExecutesScript(scripts, name, execution)
  {
    Made(scripts, ReadScript(scripts, name).value, map[], execution)
  }

  /**
   * Any execution of `verify` in which no command stopped a shell made a prefix of these
   * invocations, and all of them if it exits zero, as one does.
   */
  ghost predicate IsWhatVerifyRuns(scripts: Scripts, invocations: seq<Invocation>) {
    && (forall execution :: ExecutesScript(scripts, VERIFY, execution) && NoneStops(execution) ==>
          && MadeByScript(scripts, VERIFY, execution) <= invocations
          && (Exit(execution) == 0 ==> MadeByScript(scripts, VERIFY, execution) == invocations))
    && exists execution :: ExecutesScript(scripts, VERIFY, execution) && Exit(execution) == 0 && NoneStops(execution)
  }

  lemma ExpansionIsWhatRuns(scripts: Scripts, names: set<string>)
    requires AreTransparent(scripts, names) && VERIFY in names
    requires Expansion(scripts, {}, VERIFY, map[]).Some?
    ensures IsWhatVerifyRuns(scripts, Expansion(scripts, {}, VERIFY, map[]).value)
  {
    hide AreTransparent;
    TransparentIsRead(scripts, names, VERIFY);
    var commands := ParsedScript(scripts, VERIFY).value;
    forall execution | ExecutesScript(scripts, VERIFY, execution) && NoneStops(execution)
      ensures MadeByScript(scripts, VERIFY, execution) <= Expansion(scripts, {}, VERIFY, map[]).value
      ensures Exit(execution) == 0 ==>
        MadeByScript(scripts, VERIFY, execution) == Expansion(scripts, {}, VERIFY, map[]).value
    {
      ExecutionFollows(scripts, names, {} + {VERIFY}, commands, map[], execution);
    }
    var passing := PassingExecution(scripts, names, {} + {VERIFY}, commands, map[]);
    assert ExecutesScript(scripts, VERIFY, passing);
  }

  /**
   * The checkers that `verify` runs. With no finding, the order names each script once and the
   * invocations are the expansion's; and where `verify` and the scripts it reaches are
   * transparent, an execution of it that exits zero with no shell stopped has made exactly
   * these invocations in this order, each with its argv and environment. There is a finding
   * exactly when `verify` does not expand or an expansion names a script twice.
   */
  method GateCheckers(scripts: Scripts)
    returns (order: seq<string>, invocations: seq<Invocation>, errors: seq<Finding>)
    ensures errors == [] <==> Fits([], Expansion(scripts, {}, VERIFY, map[]))
    ensures errors == [] ==>
      && order == Names(invocations) && Distinct(order) && Some(invocations) == Expansion(scripts, {}, VERIFY, map[])
    ensures forall names :: errors == [] && VERIFY in names && AreTransparent(scripts, names) ==>
              IsWhatVerifyRuns(scripts, invocations)
  {
    hide AreTransparent, IsWhatVerifyRuns;
    var reader := new GateReader(scripts);
    reader.Expand(VERIFY, map[]);
    order, invocations, errors := reader.order, reader.invocations, reader.errors;
    if errors == [] {
      var expansion := Expansion(scripts, {}, VERIFY, map[]).value;
      assert [] + expansion == expansion;
      forall names | VERIFY in names && AreTransparent(scripts, names) ensures IsWhatVerifyRuns(scripts, invocations) {
        ExpansionIsWhatRuns(scripts, names);
      }
    }
  }
}
