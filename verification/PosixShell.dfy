/**
 * What a POSIX shell reads one line as, where the line alone decides it: the tokens of sections
 * 2.2 and 2.3 of the Shell Command Language of POSIX.1-2017, and the and-list of section 2.9.3.
 */
module PosixShell {
  import opened Options

  // ------------------------------------------------------------------------------------------
  // Tokens.

  /** How a character came to stand for itself: bare, in quotes of a kind, or after a backslash, outside or inside double quotes. */
  datatype Quoting = Bare | Single | Double | Escaped | EscapedInDouble

  datatype Mark = Mark(c: char, quoting: Quoting)

  datatype Token = Word(marks: seq<Mark>) | And | Operator(c: char) | Comment(text: string)

  predicate IsBlank(c: char) { c == ' ' || c == '\t' }

  /** A character an operator starts with. */
  predicate IsOperator(c: char) { c in "|&;<>()\n" }

  function So(word: Option<seq<Mark>>): seq<Mark> { if word.None? then [] else word.value }

  function Before(word: Option<seq<Mark>>, rest: Option<seq<Token>>): Option<seq<Token>> {
    if word.None? || rest.None? then rest else Some([Word(word.value)] + rest.value)
  }

  function Ahead(token: Token, rest: Option<seq<Token>>): Option<seq<Token>> {
    if rest.None? then None else Some([token] + rest.value)
  }

  /** The tokens of a line, the word now being read given, if one is; none where a quote is not closed or a backslash is last. */
  function Tokens(line: string, word: Option<seq<Mark>>): Option<seq<Token>>
    decreases |line|
  {
    if line == "" then Before(word, Some([]))
    else if IsBlank(line[0]) then Before(word, Tokens(line[1..], None))
    else if "&&" <= line then Before(word, Ahead(And, Tokens(line[2..], None)))
    else if IsOperator(line[0]) then Before(word, Ahead(Operator(line[0]), Tokens(line[1..], None)))
    else if line[0] == '#' && word.None? then Some([Comment(line[1..])])
    else if line[0] == '\'' then InSingle(line[1..], So(word))
    else if line[0] == '"' then InDouble(line[1..], So(word))
    else if line[0] == '\\' then
      if |line| < 2 then None
      else if line[1] == '\n' then Tokens(line[2..], word)
      else Tokens(line[2..], Some(So(word) + [Mark(line[1], Escaped)]))
    else Tokens(line[1..], Some(So(word) + [Mark(line[0], Bare)]))
  }

  /** Between single quotes every character stands for itself. */
  function InSingle(line: string, word: seq<Mark>): Option<seq<Token>>
    decreases |line|
  {
    if line == "" then None
    else if line[0] == '\'' then Tokens(line[1..], Some(word))
    else InSingle(line[1..], word + [Mark(line[0], Single)])
  }

  /** Between double quotes a backslash escapes what would mean something there, and else stands for itself. */
  function InDouble(line: string, word: seq<Mark>): Option<seq<Token>>
    decreases |line|
  {
    if line == "" then None
    else if line[0] == '"' then Tokens(line[1..], Some(word))
    else if line[0] == '\\' && |line| > 1 && line[1] == '\n' then InDouble(line[2..], word)
    else if line[0] == '\\' && |line| > 1 && line[1] in "$`\"\\" then InDouble(line[2..], word + [Mark(line[1], EscapedInDouble)])
    else InDouble(line[1..], word + [Mark(line[0], Double)])
  }

  // ------------------------------------------------------------------------------------------
  // Plain text.

  /** A character that means nothing wherever it stands in a word. */
  predicate IsOrdinary(c: char) { !IsBlank(c) && !IsOperator(c) && c !in "'\"\\#" }

  function Bared(text: string): (word: seq<Mark>)
    ensures |word| == |text| && forall i :: 0 <= i < |text| ==> word[i] == Mark(text[i], Bare)
  {
    seq(|text|, i requires 0 <= i < |text| => Mark(text[i], Bare))
  }

  lemma {:induction false} OrdinaryIsRead(plain: string, word: Option<seq<Mark>>, rest: string)
    requires plain != "" && forall i :: 0 <= i < |plain| ==> IsOrdinary(plain[i])
    ensures Tokens(plain + rest, word) == Tokens(rest, Some(So(word) + Bared(plain)))
  {
    hide Tokens, IsOrdinary;
    var line, next := plain + rest, Some(So(word) + [Mark(plain[0], Bare)]);
    OneOrdinaryIsRead(line, word);
    if |plain| == 1 {
      assert line[1..] == rest && Bared(plain) == [Mark(plain[0], Bare)];
    } else {
      assert line[1..] == plain[1..] + rest;
      OrdinaryIsRead(plain[1..], next, rest);
      assert So(next) + Bared(plain[1..]) == So(word) + Bared(plain);
    }
  }

  lemma OneOrdinaryIsRead(line: string, word: Option<seq<Mark>>)
    requires line != "" && IsOrdinary(line[0])
    ensures Tokens(line, word) == Tokens(line[1..], Some(So(word) + [Mark(line[0], Bare)]))
  {
  }

  // ------------------------------------------------------------------------------------------
  // Words.

  function TextOf(word: seq<Mark>): (text: string)
    ensures |text| == |word| && forall i :: 0 <= i < |word| ==> text[i] == word[i].c
  {
    seq(|word|, i requires 0 <= i < |word| => word[i].c)
  }

  predicate IsLetter(c: char) { 'a' <= c <= 'z' || 'A' <= c <= 'Z' || c == '_' }

  predicate IsDecimal(c: char) { '0' <= c <= '9' }

  predicate IsName(text: string) {
    text != "" && IsLetter(text[0]) && forall i :: 0 <= i < |text| ==> IsLetter(text[i]) || IsDecimal(text[i])
  }

  /** Where the first equals sign stands, or the length. */
  function EqualsAt(text: string): (at: nat)
    ensures at <= |text| && (at < |text| ==> text[at] == '=')
    ensures forall i :: 0 <= i < at ==> text[i] != '='
  {
    if text == "" || text[0] == '=' then 0 else EqualsAt(text[1..]) + 1
  }

  predicate IsBare(word: seq<Mark>) { forall i :: 0 <= i < |word| ==> word[i].quoting.Bare? }

  /** A name and an equals sign, no part of them quoted, and anything. */
  predicate IsAssignmentWord(word: seq<Mark>) {
    var at := EqualsAt(TextOf(word));
    at < |word| && IsName(TextOf(word)[..at]) && IsBare(word[..at + 1])
  }

  /** How many assignments a command starts with. */
  function Assigning(words: seq<seq<Mark>>): (n: nat)
    ensures n <= |words|
  {
    if words != [] && IsAssignmentWord(words[0]) then Assigning(words[1..]) + 1 else 0
  }

  /** The reserved words of section 2.4, and those that may be reserved. */
  const RESERVED: set<string> :=
    {"!", "{", "}", "case", "do", "done", "elif", "else", "esac", "fi", "for", "if", "in", "then", "until", "while",
     "[[", "]]", "function", "select"}

  predicate IsReserved(word: seq<Mark>) {
    var text := TextOf(word);
    IsBare(word) && (text in RESERVED || (text != "" && text[|text| - 1] == ':' && IsName(text[..|text| - 1])))
  }

  /** A tilde where the shell may put a home directory: first, or in an assignment after its equals sign or a colon. */
  predicate IsHome(word: seq<Mark>, assigns: bool, i: nat)
    requires i < |word|
  {
    && word[i] == Mark('~', Bare)
    && (i == 0 || (assigns && word[i - 1].quoting.Bare? && (word[i - 1].c == ':' || i - 1 == EqualsAt(TextOf(word)))))
  }

  /** The shell puts something else in the character's place: a parameter's value, the names a pattern matches, a directory. */
  predicate IsReplaced(word: seq<Mark>, assigns: bool, i: nat)
    requires i < |word|
  {
    || (word[i].c in "$`" && (word[i].quoting.Bare? || word[i].quoting.Double?))
    || (word[i].c in "*?[" && word[i].quoting.Bare? && !assigns)
    || IsHome(word, assigns, i)
  }

  predicate IsLiteral(word: seq<Mark>, assigns: bool) { forall i :: 0 <= i < |word| ==> !IsReplaced(word, assigns, i) }

  // ------------------------------------------------------------------------------------------
  // Commands.

  /** A command as its words: the assignments before it, and what it executes with its arguments. */
  datatype Simple = Simple(assignments: seq<string>, argv: seq<string>)

  function TextsOf(words: seq<seq<Mark>>): (texts: seq<string>)
    ensures |texts| == |words| && forall i :: 0 <= i < |words| ==> texts[i] == TextOf(words[i])
  {
    seq(|words|, i requires 0 <= i < |words| => TextOf(words[i]))
  }

  /** Every word of a command stands for its own text. */
  predicate AreLiteral(words: seq<seq<Mark>>) {
    forall i :: 0 <= i < |words| ==> IsLiteral(words[i], i < Assigning(words))
  }

  /** The command words make, none if that takes more than their text. */
  function SimpleOf(words: seq<seq<Mark>>): Option<Simple> {
    if words == [] || IsReserved(words[0]) || !AreLiteral(words) then None
    else Some(Simple(TextsOf(words[..Assigning(words)]), TextsOf(words[Assigning(words)..])))
  }

  function SimplesOf(groups: seq<seq<seq<Mark>>>): Option<seq<Simple>> {
    if groups == [] then Some([])
    else
      var first, rest := SimpleOf(groups[0]), SimplesOf(groups[1..]);
      if first.None? || rest.None? then None else Some([first.value] + rest.value)
  }

  /** The words between the operators. */
  function AtAnds(tokens: seq<Token>): (groups: seq<seq<seq<Mark>>>)
    ensures |groups| > 0
  {
    if tokens == [] then [[]]
    else
      var rest := AtAnds(tokens[1..]);
      if tokens[0].Word? then [[tokens[0].marks] + rest[0]] + rest[1..] else [[]] + rest
  }

  /** Nothing after a comment's sign is read. */
  function Uncommented(tokens: seq<Token>): (read: seq<Token>)
    ensures read <= tokens && forall token :: token in read ==> !token.Comment?
  {
    if tokens == [] || tokens[0].Comment? then [] else [tokens[0]] + Uncommented(tokens[1..])
  }

  /** The and-list the line is, none for a line that is not one or whose reading takes more than its text. */
  function AndList(line: string): Option<seq<Simple>> {
    if Tokens(line, None).None? then None
    else
      var tokens := Tokens(line, None).value;
      if exists token :: token in tokens && (token.Operator? || (token.Comment? && '\n' in token.text)) then None
      else if Uncommented(tokens) == [] then Some([])
      else SimplesOf(AtAnds(Uncommented(tokens)))
  }

  // ------------------------------------------------------------------------------------------
  // Lines of literal words.

  function AsWords(words: seq<seq<Mark>>): (tokens: seq<Token>)
    ensures |tokens| == |words| && forall i :: 0 <= i < |words| ==> tokens[i] == Word(words[i])
  {
    seq(|words|, i requires 0 <= i < |words| => Word(words[i]))
  }

  /** Tokens ahead of others, as they are cut and as they are read. */
  lemma TokenAhead(token: Token, rest: seq<Token>)
    ensures token.Word? ==> AtAnds([token] + rest) == [[token.marks] + AtAnds(rest)[0]] + AtAnds(rest)[1..]
    ensures token.And? ==> AtAnds([token] + rest) == [[]] + AtAnds(rest)
    ensures Uncommented([token] + rest) == if token.Comment? then [] else [token] + Uncommented(rest)
  {
    assert ([token] + rest)[1..] == rest;
  }

  lemma FirstWord(words: seq<seq<Mark>>, rest: seq<Token>)
    requires words != []
    ensures AsWords(words) + rest == [Word(words[0])] + (AsWords(words[1..]) + rest)
    ensures words == [words[0]] + words[1..]
  {
  }

  lemma {:induction false} WordsAhead(words: seq<seq<Mark>>, rest: seq<Token>)
    ensures AtAnds(AsWords(words) + rest) == [words + AtAnds(rest)[0]] + AtAnds(rest)[1..]
    ensures Uncommented(AsWords(words) + rest) == AsWords(words) + Uncommented(rest)
    decreases |words|
  {
    hide AtAnds, Uncommented, AsWords;
    if words == [] {
      assert AsWords(words) + rest == rest && AsWords(words) + Uncommented(rest) == Uncommented(rest);
      assert words + AtAnds(rest)[0] == AtAnds(rest)[0];
    } else {
      WordsAhead(words[1..], rest);
      FirstWord(words, rest);
      TokenAhead(Word(words[0]), AsWords(words[1..]) + rest);
      FirstWord(words, Uncommented(rest));
      OneMoreAhead(words, AtAnds(rest), AtAnds(AsWords(words[1..]) + rest));
    }
  }

  lemma OneMoreAhead(words: seq<seq<Mark>>, cut: seq<seq<seq<Mark>>>, later: seq<seq<seq<Mark>>>)
    requires words != [] && |cut| > 0 && later == [words[1..] + cut[0]] + cut[1..]
    ensures [[words[0]] + later[0]] + later[1..] == [words + cut[0]] + cut[1..]
  {
    assert [words[0]] + (words[1..] + cut[0]) == words + cut[0];
    assert later[1..] == cut[1..];
  }

  lemma WordsAreAGroup(words: seq<seq<Mark>>, comment: seq<Token>)
    requires |comment| <= 1 && forall token :: token in comment ==> token.Comment?
    ensures Uncommented(AsWords(words) + comment) == AsWords(words) && AtAnds(AsWords(words)) == [words]
  {
    hide AtAnds;
    WordsAhead(words, comment);
    WordsAhead(words, []);
    NothingIsOneGroup();
    assert Uncommented(comment) == [];
    assert AsWords(words) + [] == AsWords(words) && words + [] == words && [words] + [[]][1..] == [words];
  }

  lemma NothingIsOneGroup()
    ensures AtAnds([]) == [[]]
  {
  }

  /** A line of words, and perhaps a comment, is one command. */
  lemma OneCommandIsRead(line: string, words: seq<seq<Mark>>, comment: seq<Token>)
    requires words != [] && Tokens(line, None) == Some(AsWords(words) + comment)
    requires |comment| <= 1 && forall token :: token in comment ==> token.Comment? && '\n' !in token.text
    ensures AndList(line) == if SimpleOf(words).Some? then Some([SimpleOf(words).value]) else None
  {
    hide Tokens, SimpleOf;
    WordsAreAGroup(words, comment);
    forall token | token in AsWords(words) + comment ensures token.Word? || (token.Comment? && '\n' !in token.text) {
      if token in AsWords(words) { var i :| 0 <= i < |words| && AsWords(words)[i] == token; }
    }
    OneSimple(words);
    assert AsWords(words) != [];
  }

  lemma OneSimple(words: seq<seq<Mark>>)
    ensures SimplesOf([words]) == if SimpleOf(words).Some? then Some([SimpleOf(words).value]) else None
  {
    hide SimpleOf;
    assert [words][1..] == [];
    if SimpleOf(words).Some? { assert [SimpleOf(words).value] + [] == [SimpleOf(words).value]; }
  }

  lemma LiteralsAreACommand(words: seq<seq<Mark>>)
    requires words != [] && !IsReserved(words[0]) && !IsAssignmentWord(words[0])
    requires forall i :: 0 <= i < |words| ==> IsLiteral(words[i], false)
    ensures SimpleOf(words) == Some(Simple([], TextsOf(words)))
  {
    hide IsLiteral, IsReserved, IsAssignmentWord;
    assert Assigning(words) == 0;
    assert TextsOf(words[..0]) == [] && words[0..] == words;
  }

  lemma WordsBeforeAnd(words: seq<seq<Mark>>, rest: seq<Token>)
    ensures AtAnds(AsWords(words) + ([And] + rest)) == [words] + AtAnds(rest)
    ensures Uncommented(AsWords(words) + ([And] + rest)) == AsWords(words) + ([And] + Uncommented(rest))
  {
    hide AtAnds, Uncommented;
    WordsAhead(words, [And] + rest);
    TokenAhead(And, rest);
    assert words + [] == words && ([[]] + AtAnds(rest))[1..] == AtAnds(rest);
  }

  lemma TwoSimples(first: seq<seq<Mark>>, second: seq<seq<Mark>>)
    requires SimpleOf(first).Some? && SimpleOf(second).Some?
    ensures SimplesOf([first] + [second]) == Some([SimpleOf(first).value] + [SimpleOf(second).value])
  {
    hide SimpleOf;
    OneSimple(second);
    assert ([first] + [second])[1..] == [second];
  }

  /** Two lists of words with a separator between them are two commands. */
  lemma TwoCommandsAreRead(line: string, first: seq<seq<Mark>>, second: seq<seq<Mark>>)
    requires Tokens(line, None) == Some(AsWords(first) + ([And] + AsWords(second)))
    requires SimpleOf(first).Some? && SimpleOf(second).Some?
    ensures AndList(line) == Some([SimpleOf(first).value] + [SimpleOf(second).value])
  {
    hide Tokens, SimpleOf, SimplesOf, AtAnds, Uncommented;
    var tokens := AsWords(first) + ([And] + AsWords(second));
    WordsBeforeAnd(first, AsWords(second));
    assert AsWords(second) + [] == AsWords(second);
    WordsAreAGroup(second, []);
    assert forall token :: token in tokens ==> token in AsWords(first) || token == And || token in AsWords(second);
    TwoSimples(first, second);
  }
}
