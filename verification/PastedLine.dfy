/** A suggested command as one line to paste, and a POSIX shell's reading of that line. */
module PastedLine {
  import opened Options
  import opened PosixShell

  // ------------------------------------------------------------------------------------------
  // The line.

  /** A character a word may hold with no quoting. */
  predicate IsPlain(c: char) {
    'A' <= c <= 'Z' || 'a' <= c <= 'z' || '0' <= c <= '9' || c in "_@%+=:,./-"
  }

  predicate IsPlainWord(word: string) {
    word != "" && forall i :: 0 <= i < |word| ==> IsPlain(word[i])
  }

  /** Each quote closes the quoting, stands escaped, and opens it again. */
  function Escaped(word: string): string {
    if word == "" then ""
    else if word[0] == '\'' then "'\\''" + Escaped(word[1..])
    else [word[0]] + Escaped(word[1..])
  }

  function ShellWord(word: string): string {
    if IsPlainWord(word) then word else "'" + (Escaped(word) + "'")
  }

  /** A word is pasted as it is exactly when it is not empty and holds nothing a shell takes for more than itself. */
  lemma BareExactly(word: string)
    ensures ShellWord(word) == word
       <==> word != "" && forall c :: c in word ==>
              'A' <= c <= 'Z' || 'a' <= c <= 'z' || '0' <= c <= '9'
              || c == '_' || c == '@' || c == '%' || c == '+' || c == '=' || c == ':' || c == ',' || c == '.' || c == '/' || c == '-'
  {
    EscapedIsNoShorter(word);
    assert ShellWord(word) == word <==> IsPlainWord(word);
    assert forall i :: 0 <= i < |word| ==> word[i] in word;
  }

  lemma {:induction false} EscapedIsNoShorter(word: string)
    ensures |Escaped(word)| >= |word|
  {
    if word != "" { EscapedIsNoShorter(word[1..]); }
  }

  function Spaced(words: seq<string>): string {
    if words == [] then ""
    else if |words| == 1 then ShellWord(words[0])
    else ShellWord(words[0]) + (" " + Spaced(words[1..]))
  }

  function Pasted(argv: seq<string>): string { "pnpm cli " + Spaced(argv) }

  // ------------------------------------------------------------------------------------------
  // The marks of a word's text.

  /** Between quotes each character is single-quoted, and each quote escaped outside them. */
  function Quoted(word: string): (marks: seq<Mark>)
    ensures |marks| == |word|
    ensures forall i :: 0 <= i < |word| ==> marks[i] == Mark(word[i], if word[i] == '\'' then PosixShell.Escaped else Single)
  {
    seq(|word|, i requires 0 <= i < |word| => Mark(word[i], if word[i] == '\'' then PosixShell.Escaped else Single))
  }

  function MarksOf(word: string): (marks: seq<Mark>)
    ensures TextOf(marks) == word
  {
    if IsPlainWord(word) then Bared(word) else Quoted(word)
  }

  function AllMarks(words: seq<string>): (marks: seq<seq<Mark>>)
    ensures |marks| == |words| && forall i :: 0 <= i < |words| ==> marks[i] == MarksOf(words[i])
  {
    seq(|words|, i requires 0 <= i < |words| => MarksOf(words[i]))
  }

  // ------------------------------------------------------------------------------------------
  // The round trip.

  lemma QuotedStep(c: char, tail: string, word: seq<Mark>)
    ensures c != '\'' ==> InSingle([c] + tail, word) == InSingle(tail, word + [Mark(c, Single)])
    ensures c == '\'' ==> InSingle([c] + tail, word) == Tokens(tail, Some(word))
  {
    assert ([c] + tail)[1..] == tail;
  }

  lemma EscapedStep(tail: string, word: seq<Mark>)
    ensures Tokens("\\'" + tail, Some(word)) == Tokens(tail, Some(word + [Mark('\'', PosixShell.Escaped)]))
    ensures Tokens("'" + tail, Some(word)) == InSingle(tail, word)
  {
    assert ("\\'" + tail)[2..] == tail && ("'" + tail)[1..] == tail;
  }

  /** Between quotes, a quote closed, escaped and opened again is one quote. */
  lemma QuoteIsRead(tail: string, word: seq<Mark>)
    ensures InSingle("'\\''" + tail, word) == InSingle(tail, word + [Mark('\'', PosixShell.Escaped)])
  {
    hide Tokens, InSingle;
    assert "'\\''" + tail == ['\''] + ("\\'" + ("'" + tail));
    QuotedStep('\'', "\\'" + ("'" + tail), word);
    EscapedStep("'" + tail, word);
    EscapedStep(tail, word + [Mark('\'', PosixShell.Escaped)]);
  }

  lemma {:induction false} QuotedIsRead(quoted: string, word: seq<Mark>, rest: string)
    ensures InSingle(Escaped(quoted) + ("'" + rest), word) == Tokens(rest, Some(word + Quoted(quoted)))
  {
    hide Tokens, InSingle;
    if quoted == "" {
      assert Escaped(quoted) + ("'" + rest) == ['\''] + rest;
      QuotedStep('\'', rest, word);
      assert word + Quoted(quoted) == word;
    } else {
      var c, tail := quoted[0], Escaped(quoted[1..]) + ("'" + rest);
      var mark := Quoted(quoted)[0];
      if c == '\'' {
        assert Escaped(quoted) + ("'" + rest) == "'\\''" + tail;
        QuoteIsRead(tail, word);
      } else {
        assert Escaped(quoted) + ("'" + rest) == [c] + tail;
        QuotedStep(c, tail, word);
      }
      QuotedIsRead(quoted[1..], word + [mark], rest);
      assert word + [mark] + Quoted(quoted[1..]) == word + Quoted(quoted);
    }
  }

  lemma OpensQuotes(tail: string)
    ensures Tokens("'" + tail, None) == InSingle(tail, [])
  {
    assert ("'" + tail)[1..] == tail;
  }

  lemma PlainIsOrdinary(word: string)
    requires IsPlainWord(word)
    ensures forall i :: 0 <= i < |word| ==> IsOrdinary(word[i])
  {
  }

  lemma WordIsRead(word: string, rest: string)
    ensures Tokens(ShellWord(word) + rest, None) == Tokens(rest, Some(MarksOf(word)))
  {
    hide Tokens, InSingle, IsPlain, Escaped, IsOrdinary;
    if IsPlainWord(word) {
      PlainIsOrdinary(word);
      OrdinaryIsRead(word, None, rest);
      assert So(None) + Bared(word) == Bared(word);
    } else {
      assert ShellWord(word) + rest == "'" + (Escaped(word) + ("'" + rest));
      OpensQuotes(Escaped(word) + ("'" + rest));
      QuotedIsRead(word, [], rest);
      assert [] + Quoted(word) == Quoted(word);
    }
  }

  lemma FirstIsRead(word: string, rest: string)
    ensures Tokens(ShellWord(word) + (" " + rest), None) == Before(Some(MarksOf(word)), Tokens(rest, None))
  {
    hide IsPlainWord, ShellWord, MarksOf;
    WordIsRead(word, " " + rest);
    assert (" " + rest)[1..] == rest;
  }

  lemma {:induction false} SpacedIsRead(words: seq<string>)
    ensures Tokens(Spaced(words), None) == Some(AsWords(AllMarks(words)))
  {
    hide ShellWord, MarksOf;
    if |words| == 0 {
      assert AsWords(AllMarks(words)) == [];
    } else if |words| == 1 {
      WordIsRead(words[0], "");
      assert ShellWord(words[0]) + "" == ShellWord(words[0]);
      assert AsWords(AllMarks(words)) == [Word(MarksOf(words[0]))] + [];
    } else {
      SpacedIsRead(words[1..]);
      FirstIsRead(words[0], Spaced(words[1..]));
      assert AsWords(AllMarks(words)) == [Word(MarksOf(words[0]))] + AsWords(AllMarks(words[1..]));
    }
  }

  /** No character of a word the line holds is one the shell puts something else in the place of. */
  lemma MarksAreLiteral(word: string)
    ensures IsLiteral(MarksOf(word), false)
  {
    var marks := MarksOf(word);
    forall i | 0 <= i < |marks| ensures !IsReplaced(marks, false, i) {
      if IsPlainWord(word) { assert IsPlain(word[i]); }
    }
  }

  /** A line of words, `pnpm` the first of them, is the command they are. */
  lemma WordsAreRead(line: string, words: seq<string>)
    requires words != [] && words[0] == "pnpm" && Tokens(line, None) == Some(AsWords(AllMarks(words)))
    ensures AndList(line) == Some([Simple([], words)])
  {
    hide Tokens, IsLiteral, IsPlainWord, MarksOf;
    var marks := AllMarks(words);
    assert AsWords(marks) + [] == AsWords(marks);
    PnpmIsACommand(marks[0]);
    forall i | 0 <= i < |marks| ensures IsLiteral(marks[i], false) { MarksAreLiteral(words[i]); }
    LiteralsAreACommand(marks);
    OneCommandIsRead(line, marks, []);
    assert TextsOf(marks) == words;
  }

  lemma PnpmIsACommand(word: seq<Mark>)
    requires TextOf(word) == "pnpm"
    ensures !IsReserved(word) && !IsAssignmentWord(word)
  {
    var text := TextOf(word);
    assert text[3] == 'm' && text !in RESERVED;
    assert EqualsAt(text) == 4 by { assert '=' !in text; }
  }

  /** The line's words, read one by one. */
  lemma PastedTokens(argv: seq<string>)
    ensures Tokens(Pasted(argv), None) == Some(AsWords(AllMarks(["pnpm", "cli"] + argv)))
  {
    var rest := "cli" + (" " + Spaced(argv));
    assert Pasted(argv) == "pnpm" + (" " + rest);
    assert ShellWord("pnpm") == "pnpm" && ShellWord("cli") == "cli";
    hide IsPlain, IsPlainWord, ShellWord, Spaced, Tokens, Pasted, MarksOf;
    FirstIsRead("pnpm", rest);
    FirstIsRead("cli", Spaced(argv));
    SpacedIsRead(argv);
    assert AsWords(AllMarks(["pnpm", "cli"] + argv))
        == [Word(MarksOf("pnpm"))] + ([Word(MarksOf("cli"))] + AsWords(AllMarks(argv)));
  }

  /**
   * A shell reads the pasted line back as one simple command, with no assignment before it, that
   * executes `pnpm` with `cli` and exactly the arguments, whatever they hold.
   */
  lemma PastedIsReadBack(argv: seq<string>)
    ensures AndList(Pasted(argv)) == Some([Simple([], ["pnpm", "cli"] + argv)])
  {
    PastedTokens(argv);
    WordsAreRead(Pasted(argv), ["pnpm", "cli"] + argv);
  }
}
