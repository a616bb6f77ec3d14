/**
 * Which commands execute a script file and which run a package script, said of the words alone,
 * and that the gate's reading is exactly that.
 */
module GateCommands {
  import opened Options
  import opened Gate
  import opened GateShell
  import opened PosixShell

  // ------------------------------------------------------------------------------------------
  // What the words say.

  /** A letter, a digit, an underscore, a point or a hyphen. */
  predicate IsFileChar(c: char) {
    'a' <= c <= 'z' || 'A' <= c <= 'Z' || '0' <= c <= '9' || c == '_' || c == '.' || c == '-'
  }

  /** A Python or a shell file: a stem and its ending. */
  ghost predicate IsScriptFile(name: string) {
    exists stem: string :: stem != "" && (forall i :: 0 <= i < |stem| ==> IsFileChar(stem[i]))
                           && (name == stem + ".py" || name == stem + ".sh")
  }

  /** The word is the file's path from the root of the repository. */
  ghost predicate NamesFile(word: string, name: string) {
    IsScriptFile(name) && (word == "scripts/" + name || word == "./" + "scripts/" + name)
  }

  /** Slashes, and points that stand alone between them or at the end. */
  predicate IsNothing(tail: string) {
    tail != "" ==> tail[0] == '/' && forall i :: 0 <= i < |tail| ==> IsNothingAt(tail, i)
  }

  predicate IsNothingAt(tail: string, i: nat)
    requires i < |tail|
  {
    tail[i] == '/' || (i > 0 && tail[i] == '.' && tail[i - 1] == '/' && (i + 1 < |tail| ==> tail[i + 1] == '/'))
  }

  predicate IsNameAt(path: string, base: string, lead: string, tail: string) {
    && path == lead + base + tail && base != "" && base != "." && '/' !in base
    && (lead == "" || lead[|lead| - 1] == '/') && IsNothing(tail)
  }

  /** The last part of the path that is a name. */
  ghost predicate IsNameOf(path: string, base: string) {
    exists lead, tail :: IsNameAt(path, base, lead, tail)
  }

  /** Numbers with single points between them. */
  ghost predicate IsDotted(s: string)
    decreases |s|
  {
    exists n: nat :: IsNumberTo(s, n) && (n == |s| || IsDotted(s[n + 1..]))
  }

  /** Digits, and then nothing or a point. */
  predicate IsNumberTo(s: string, n: nat) {
    0 < n <= |s| && (forall i :: 0 <= i < n ==> '0' <= s[i] <= '9') && (n == |s| || s[n] == '.')
  }

  /** `bash`, `sh`, or `python` of any version. */
  ghost predicate Interprets(base: string) {
    base == "bash" || base == "sh" || base == "python"
    || (|base| > 6 && base[..6] == "python" && IsDotted(base[6..]))
  }

  /** An interpreter given the file first, perhaps after `--`, or the file itself. */
  ghost predicate RunsFile(argv: seq<string>, name: string) {
    && argv != []
    && if exists base :: IsNameOf(argv[0], base) && Interprets(base)
       then (|argv| > 1 && NamesFile(argv[1], name)) || (|argv| > 2 && argv[1] == "--" && NamesFile(argv[2], name))
       else NamesFile(argv[0], name)
  }

  /** `pnpm run` with a script of the package, or `pnpm` with one. */
  predicate RunsScript(scripts: Scripts, argv: seq<string>, name: string) {
    && |argv| > 1 && argv[0] == "pnpm" && name in scripts
    && if |argv| > 2 && argv[1] == "run" && argv[2] in scripts then name == argv[2] else name == argv[1]
  }

  // ------------------------------------------------------------------------------------------
  // The name of a path.

  /** The characters of a word made of three. */
  lemma CharactersOf(lead: string, base: string, tail: string)
    ensures var word := lead + base + tail;
      && (forall i :: 0 <= i < |lead| ==> word[i] == lead[i])
      && (forall i :: 0 <= i < |base| ==> word[|lead| + i] == base[i])
      && (forall i :: 0 <= i < |tail| ==> word[|lead| + |base| + i] == tail[i])
      && (tail == "" && base != "" ==>
            word[|word| - 1] == base[|base| - 1] && (|base| > 1 ==> word[|word| - 2] == base[|base| - 2]))
  {
  }

  /** Two ways to cut a word at a slash with none after it are one. */
  lemma SameEnd(path: string, part: string, lead: string, base: string)
    requires path + part == lead + base && '/' !in part && '/' !in base
    requires path != "" && path[|path| - 1] == '/' && (lead == "" || lead[|lead| - 1] == '/')
    ensures base == part
  {
    StandsInEnd(path, part, |lead| - 1);
    StandsInEnd(lead, base, |path| - 1);
    assert (path + part)[|path| - 1] == path[|path| - 1];
    assert lead != "" ==> (lead + base)[|lead| - 1] == lead[|lead| - 1];
    assert |lead| == |path|;
    assert (path + part)[|path|..] == part && (lead + base)[|lead|..] == base;
  }

  lemma StandsInEnd(front: string, end: string, i: int)
    ensures |front| <= i < |front + end| ==> (front + end)[i] in end
  {
    if |front| <= i < |front + end| { assert (front + end)[i] == end[i - |front|]; }
  }

  /** What is nothing ends with a slash, or with a point after one. */
  lemma NothingEnds(tail: string)
    requires IsNothing(tail) && tail != ""
    ensures tail[|tail| - 1] == '/' || (tail[|tail| - 1] == '.' && |tail| > 1 && tail[|tail| - 2] == '/')
  {
    assert IsNothingAt(tail, |tail| - 1);
  }

  lemma NameIsLast(path: string, part: string, base: string)
    requires '/' !in part && part != "" && part != "." && path != "" && path[|path| - 1] == '/'
    ensures IsNameOf(path + part, base) <==> base == part
  {
    if base == part {
      assert path + part == path + part + "";
      assert IsNameAt(path + part, base, path, "");
    }
    if lead, tail :| IsNameAt(path + part, base, lead, tail) {
      CharactersOf(path, part, "");
      CharactersOf(lead, base, tail);
      var word := path + part;
      assert word == path + part + "";
      assert |part| == 1 || word[|word| - 2] == part[|part| - 2];
      if tail != "" {
        NothingEnds(tail);
        assert false;
      }
      assert path + part == lead + base;
      SameEnd(path, part, lead, base);
    }
  }

  lemma NothingOn(tail: string, part: string)
    requires IsNothing(tail) && (part == "" || part == ".")
    ensures IsNothing(tail + "/" + part)
  {
    var more := tail + "/" + part;
    forall i | 0 <= i < |more|
      ensures IsNothingAt(more, i)
    {
      if i < |tail| { assert IsNothingAt(tail, i); }
    }
    assert more[0] == if tail == "" then '/' else tail[0];
  }

  lemma NothingLess(tail: string, part: string)
    requires IsNothing(tail + "/" + part)
    ensures IsNothing(tail)
  {
    var more := tail + "/" + part;
    forall i | 0 <= i < |tail|
      ensures IsNothingAt(tail, i)
    {
      assert IsNothingAt(more, i);
      assert more[i] == tail[i] && (i > 0 ==> more[i - 1] == tail[i - 1]) && (i + 1 < |tail| ==> more[i + 1] == tail[i + 1]);
    }
    if tail != "" { assert more[0] == tail[0]; }
  }

  /** The end of a word that ends with a slash, or with a point after one, is nothing's. */
  lemma EndsInNothing(word: string, base: string, lead: string, tail: string)
    requires IsNameAt(word, base, lead, tail)
    requires word[|word| - 1] == '/' || (|word| > 1 && word[|word| - 1] == '.' && word[|word| - 2] == '/')
    ensures tail != "" && tail[|tail| - 1] == word[|word| - 1]
    ensures word[|word| - 1] != '/' ==> |tail| > 1 && tail[|tail| - 2] == '/'
  {
    CharactersOf(lead, base, tail);
    if tail == "" { assert false; }
    NothingEnds(tail);
  }

  /** A slash that ends a word, with a point or nothing after it, is of what comes after the name. */
  lemma NothingIsCut(path: string, part: string, base: string, lead: string, tail: string) returns (less: string)
    requires path != "" && path[|path| - 1] == '/' && (part == "" || part == ".") && IsNameAt(path + part, base, lead, tail)
    ensures tail == less + "/" + part && path[..|path| - 1] == lead + base + less
  {
    hide IsNothing;
    var word := path + part;
    EndsInNothing(word, base, lead, tail);
    less := tail[..|tail| - 1 - |part|];
    assert tail == less + "/" + part;
    assert path[..|path| - 1] == word[..|word| - 1 - |part|] == lead + base + less;
  }

  lemma NameBeforeNothing(path: string, part: string, base: string)
    requires path != "" && path[|path| - 1] == '/' && (part == "" || part == ".")
    ensures IsNameOf(path + part, base) <==> IsNameOf(path[..|path| - 1], base)
  {
    hide IsNothing;
    var before := path[..|path| - 1];
    assert path == before + "/";
    if lead, tail :| IsNameAt(before, base, lead, tail) {
      var more := tail + "/" + part;
      NothingOn(tail, part);
      assert path + part == lead + base + more;
      assert IsNameAt(path + part, base, lead, more);
    }
    if lead, tail :| IsNameAt(path + part, base, lead, tail) {
      var less := NothingIsCut(path, part, base, lead, tail);
      NothingLess(less, part);
      assert IsNameAt(before, base, lead, less);
    }
  }

  lemma NameAlone(part: string, base: string)
    requires '/' !in part
    ensures IsNameOf(part, base) <==> base == part && part != "" && part != "."
  {
    if base == part && part != "" && part != "." {
      assert part == "" + part + "";
      assert IsNameAt(part, base, "", "");
    }
    if lead, tail :| IsNameAt(part, base, lead, tail) {
      CharactersOf(lead, base, tail);
      assert lead == "" && tail == "";
      assert part == base;
    }
  }

  lemma {:induction false} FileNameIsName(path: string, part: string, base: string)
    requires '/' !in part && base != ""
    ensures FileName(path, part) == base <==> IsNameOf(path + part, base)
    decreases |path|
  {
    if path == "" {
      assert path + part == part;
      NameAlone(part, base);
    } else if path[|path| - 1] == '/' {
      if part == "" || part == "." {
        var before := path[..|path| - 1];
        NameBeforeNothing(path, part, base);
        FileNameIsName(before, "", base);
        assert before + "" == before;
      } else {
        NameIsLast(path, part, base);
      }
    } else {
      var more := [path[|path| - 1]] + part;
      assert path[..|path| - 1] + more == path + part;
      FileNameIsName(path[..|path| - 1], more, base);
    }
  }

  // ------------------------------------------------------------------------------------------
  // Interpreters and files.

  lemma VersionIsCut(s: string, n: nat)
    requires IsNumberTo(s, n) && n < |s|
    ensures IsVersion(s) <==> s[n + 1..] != "" && IsVersion(s[n + 1..])
  {
    var rest := s[n + 1..];
    assert forall i :: n < i < |s| ==> s[i] == rest[i - n - 1];
    if rest != "" && IsVersion(rest) {
      forall i | 0 <= i < |s| - 1 ensures s[i] != '.' || s[i + 1] != '.' {
        if i > n { assert rest[i - n - 1] != '.' || rest[i - n] != '.'; }
      }
    }
    if rest != "" && IsVersion(s) {
      forall i | 0 <= i < |rest| - 1 ensures rest[i] != '.' || rest[i + 1] != '.' {
        assert s[n + 1 + i] == rest[i] && s[n + 1 + (i + 1)] == rest[i + 1];
      }
      assert rest[0] == s[n + 1] && s[n + 1] != '.';
    }
  }

  lemma VersionStarts(s: string) returns (n: nat)
    requires s != "" && IsVersion(s)
    ensures IsNumberTo(s, n)
  {
    n := 1;
    while n < |s| && IsDecimal(s[n])
      invariant 0 < n <= |s| && forall i :: 0 <= i < n ==> IsDecimal(s[i])
    {
      n := n + 1;
    }
  }

  lemma AllDigits(s: string)
    requires IsNumberTo(s, |s|)
    ensures IsVersion(s) && IsDotted(s)
  {
  }

  lemma {:induction false} VersionIsDotted(s: string)
    ensures IsVersion(s) <==> s == "" || IsDotted(s)
    decreases |s|
  {
    hide IsVersion;
    if s == "" {
      EmptyIsVersion();
    } else {
      if IsVersion(s) {
        var n := VersionStarts(s);
        if n < |s| {
          VersionIsCut(s, n);
          VersionIsDotted(s[n + 1..]);
        } else {
          AllDigits(s);
        }
      }
      if IsDotted(s) {
        var n: nat :| IsNumberTo(s, n) && (n == |s| || IsDotted(s[n + 1..]));
        if n < |s| {
          VersionIsDotted(s[n + 1..]);
          VersionIsCut(s, n);
        } else {
          AllDigits(s);
        }
      }
    }
  }

  lemma EmptyIsVersion()
    ensures IsVersion("")
  {
  }

  lemma InterpreterInterprets(base: string)
    ensures IsInterpreter(base) <==> Interprets(base)
  {
    if |base| >= 6 && base[..6] == "python" {
      VersionIsDotted(base[6..]);
      if |base| == 6 { assert base == base[..6]; }
    } else {
      assert base != "python";
    }
  }

  lemma EndedName(stem: string, end: string)
    requires end == ".py" || end == ".sh"
    ensures IsScriptName(stem + end) <==> stem != "" && forall i :: 0 <= i < |stem| ==> IsFileChar(stem[i])
  {
    var name := stem + end;
    assert name[|name| - 3..] == end;
    assert forall i :: 0 <= i < |stem| ==> name[i] == stem[i];
    assert forall i :: |stem| <= i < |name| ==> name[i] == end[i - |stem|];
  }

  lemma FileIsScriptName(name: string)
    ensures IsScriptName(name) <==> IsScriptFile(name)
  {
    if IsScriptName(name) {
      assert name == name[..|name| - 3] + name[|name| - 3..];
      EndedName(name[..|name| - 3], name[|name| - 3..]);
    }
    if IsScriptFile(name) {
      hide IsScriptName;
      var stem: string :| stem != "" && (forall i :: 0 <= i < |stem| ==> IsFileChar(stem[i]))
                          && (name == stem + ".py" || name == stem + ".sh");
      EndedName(stem, ".py");
      EndedName(stem, ".sh");
    }
  }

  lemma PathNamesFile(word: string, name: string)
    ensures ScriptOf(word) == Some(name) <==> NamesFile(word, name)
  {
    FileIsScriptName(name);
    var rest := if "./" <= word then word[2..] else word;
    assert "./" <= word ==> word == "./" + rest;
    if NamesFile(word, name) {
      if word == "scripts/" + name { assert word[0] == 's'; } else { assert word[..2] == "./" && word[2..] == "scripts/" + name; }
      assert rest == "scripts/" + name;
      assert rest[..8] == "scripts/" && rest[8..] == name;
    }
    if ScriptOf(word) == Some(name) {
      assert rest == "scripts/" + name;
    }
  }

  /** A file's path is no option. */
  lemma PathIsNoOption(word: string, name: string)
    requires NamesFile(word, name)
    ensures !("-" <= word) && word != "--"
  {
    assert word[0] == 's' || word[0] == '.';
  }

  lemma InterpreterIsNamed(path: string)
    ensures IsInterpreter(FileName(path, "")) <==> exists base :: IsNameOf(path, base) && Interprets(base)
  {
    assert path + "" == path;
    if IsInterpreter(FileName(path, "")) {
      var base := FileName(path, "");
      InterpreterInterprets(base);
      FileNameIsName(path, "", base);
    }
    if base :| IsNameOf(path, base) && Interprets(base) {
      InterpreterInterprets(base);
      FileNameIsName(path, "", base);
    }
  }

  /**
   * The gate takes a command to execute a script file exactly when its words run that file. What
   * it refuses besides, an argument that is an option, names no file anyway.
   */
  lemma ExecutedExactly(argv: seq<string>, name: string)
    requires argv != []
    ensures ExecutedScript(argv) == Some(name) <==> RunsFile(argv, name)
  {
    hide FileName, IsInterpreter, ScriptOf, NamesFile, IsNameOf, Interprets;
    InterpreterIsNamed(argv[0]);
    forall word ensures ScriptOf(word) == Some(name) <==> NamesFile(word, name) {
      PathNamesFile(word, name);
    }
    forall word | NamesFile(word, name) ensures !("-" <= word) && word != "--" {
      PathIsNoOption(word, name);
    }
  }

  /** And a package script exactly when they run that script, a script named `run` behind the others. */
  lemma RefExactly(scripts: Scripts, argv: seq<string>, name: string)
    ensures RefOf(scripts, argv) == Some(name) <==> RunsScript(scripts, argv, name)
  {
  }

  // ------------------------------------------------------------------------------------------
  // The words of a body.

  predicate IsVariable(name: string) {
    && name != "" && !('0' <= name[0] <= '9')
    && forall i :: 0 <= i < |name| ==> 'a' <= name[i] <= 'z' || 'A' <= name[i] <= 'Z' || '0' <= name[i] <= '9' || name[i] == '_'
  }

  lemma {:induction false} FirstEquals(name: string, value: string)
    requires '=' !in name
    ensures EqualsAt(name + "=" + value) == |name|
  {
    var word := name + "=" + value;
    if name != "" {
      FirstEquals(name[1..], value);
      assert word[0] == name[0] && word[1..] == name[1..] + "=" + value;
    }
  }

  /** A word is an assignment exactly when it is a variable, an equals sign, and what the variable is given. */
  lemma AssignmentExactly(word: string, name: string, value: string)
    ensures IsAssignment(word) && NameOf(word) == name && GivenBy(word) == value
       <==> IsVariable(name) && word == name + "=" + value
  {
    var at := EqualsAt(word);
    if IsAssignment(word) && NameOf(word) == name && GivenBy(word) == value {
      assert word == word[..at] + [word[at]] + word[at + 1..];
    }
    if IsVariable(name) && word == name + "=" + value {
      FirstEquals(name, value);
      assert word[..|name|] == name && word[|name| + 1..] == value;
    }
  }

  /** A body substitutes a command exactly when a backtick stands in it, or a dollar before a parenthesis. */
  lemma SubstitutionExactly(body: string)
    ensures HasSubstitution(body)
       <==> exists before: string, after: string :: body == before + "`" + after || body == before + "$(" + after
  {
    if '`' in body {
      var i :| 0 <= i < |body| && body[i] == '`';
      assert body == body[..i] + "`" + body[i + 1..];
    } else if i :| 0 <= i < |body| - 1 && body[i] == '$' && body[i + 1] == '(' {
      assert body == body[..i] + "$(" + body[i + 2..];
    }
    if before: string, after: string :| body == before + "`" + after || body == before + "$(" + after {
      if body == before + "`" + after { assert body[|before|] == '`'; }
      else { assert body[|before|] == '$' && body[|before| + 1] == '('; }
    }
  }
}
