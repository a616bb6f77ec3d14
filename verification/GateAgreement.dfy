/**
 * A body as the gate's parse has it and as a POSIX shell reads it: where the two and-lists are
 * the same, exactly.
 */
module GateAgreement {
  import opened Options
  import opened PosixShell
  import opened GateShell

  // ------------------------------------------------------------------------------------------
  // The two lexers, in step.

  /** What the split makes of one character: between double quotes it keeps the backslash of escapes it does not know. */
  function Kept(mark: Mark): string {
    if mark.quoting.EscapedInDouble? && mark.c in "$`" then ['\\', mark.c] else [mark.c]
  }

  function SplitText(word: seq<Mark>): string {
    if word == [] then "" else SplitText(word[..|word| - 1]) + Kept(word[|word| - 1])
  }

  function SplitWord(word: Option<seq<Mark>>): Option<string> {
    if word.None? then None else Some(SplitText(word.value))
  }

  predicate Spells(token: Token, word: string) {
    match token
    case Word(marks) => word == SplitText(marks)
    case And => word == AND
    case Operator(_) => false
    case Comment(_) => false
  }

  /** Each token is one word of the split, as far as a comment; the split knows none and takes what follows for words. */
  predicate InStep(tokens: seq<Token>, words: seq<string>) {
    if tokens == [] then words == []
    else if tokens[0].Comment? then |tokens| == 1 && words != []
    else words != [] && Spells(tokens[0], words[0]) && InStep(tokens[1..], words[1..])
  }

  ghost predicate NoControl(words: seq<string>) { forall word :: word in words ==> !IsControlOperator(word) }

  predicate OneLine(body: string) { '\n' !in body && '\r' !in body }

  lemma Appended(word: seq<Mark>, mark: Mark)
    ensures SplitText(word + [mark]) == SplitText(word) + Kept(mark)
  {
    assert (word + [mark])[..|word|] == word;
  }

  lemma Ahead1(token: Token, tokens: seq<Token>, word: string, words: seq<string>)
    requires Spells(token, word) && InStep(tokens, words)
    ensures InStep([token] + tokens, [word] + words)
  {
    assert ([token] + tokens)[1..] == tokens && ([word] + words)[1..] == words;
  }

  lemma WordAhead(word: Option<seq<Mark>>, tokens: Option<seq<Token>>, words: Option<seq<string>>)
    requires tokens.Some? && words.Some? && InStep(tokens.value, words.value)
    ensures InStep(Before(word, tokens).value, Prepended(SplitWord(word), words).value)
  {
    if word.Some? { Ahead1(Word(word.value), tokens.value, SplitText(word.value), words.value); }
  }

  /** No control operator is among the later words of a split that has none. */
  lemma NoControlAfter(word: Option<string>, rest: Option<seq<string>>)
    requires Prepended(word, rest).Some? && NoControl(Prepended(word, rest).value)
    ensures rest.Some? && NoControl(rest.value)
  {
    if word.Some? {
      forall one | one in rest.value ensures !IsControlOperator(one) {
        assert one in Prepended(word, rest).value;
      }
    }
  }

  lemma {:induction false} AWordIsLeft(body: string, word: string, quote: Option<char>)
    ensures var words := if quote.None? then Split(body, Some(word)) else SplitQuoted(body, quote.value, word);
      words.Some? ==> words.value != []
    decreases |body|
  {
    if body == "" {
    } else if quote.None? {
      if IsSpace(body[0]) || IsPunctuation(body[0]) {
      } else if body[0] == '\'' || body[0] == '"' {
        AWordIsLeft(body[1..], word, Some(body[0]));
      } else if body[0] == '\\' {
        if |body| > 1 { AWordIsLeft(body[2..], word + [body[1]], None); }
      } else {
        AWordIsLeft(body[1..], word + [body[0]], None);
      }
    } else if body[0] == quote.value {
      AWordIsLeft(body[1..], word, None);
    } else if body[0] == '\\' && quote.value == '"' {
      if |body| > 1 {
        AWordIsLeft(body[2..], word + if body[1] == '\\' || body[1] == '"' then [body[1]] else ['\\', body[1]], quote);
      }
    } else {
      AWordIsLeft(body[1..], word + [body[0]], quote);
    }
  }

  /** A run of punctuation that is no control operator is one `&&`, and no more punctuation follows. */
  lemma RunIsAnd(body: string)
    requires body != "" && IsPunctuation(body[0]) && !IsControlOperator(body[..RunOf(body)])
    ensures RunOf(body) == 2 && "&&" <= body && body[..2] == AND
  {
    assert body[..RunOf(body)] == AND;
  }

  /** Where the split finds words and no control operator, the shell finds the same tokens as far as a comment. */
  lemma {:induction false} TokensInStep(body: string, word: Option<seq<Mark>>)
    requires OneLine(body)
    requires Split(body, SplitWord(word)).Some? && NoControl(Split(body, SplitWord(word)).value)
    ensures Tokens(body, word).Some? && InStep(Tokens(body, word).value, Split(body, SplitWord(word)).value)
    decreases |body|, 1
  {
    hide InStep, IsControlOperator, NoControl, Spells, Kept;
    if body == "" {
      assert InStep([], []) by { EmptyInStep(); }
      WordAhead(word, Some([]), Some([]));
    } else if IsSpace(body[0]) {
      NoControlAfter(SplitWord(word), Split(body[1..], None));
      TokensInStep(body[1..], None);
      WordAhead(word, Tokens(body[1..], None), Split(body[1..], None));
    } else if IsPunctuation(body[0]) {
      AndInStep(body, word);
    } else {
      InAWord(body, word);
    }
  }

  lemma EmptyInStep()
    ensures InStep([], [])
  {
  }

  lemma NoControlFirst(word: string, rest: seq<string>)
    requires NoControl([word] + rest)
    ensures !IsControlOperator(word) && NoControl(rest)
  {
    assert word in [word] + rest;
    forall one | one in rest ensures !IsControlOperator(one) {
      assert one in [word] + rest;
    }
  }

  lemma {:induction false} AndInStep(body: string, word: Option<seq<Mark>>)
    requires OneLine(body) && body != "" && IsPunctuation(body[0])
    requires Split(body, SplitWord(word)).Some? && NoControl(Split(body, SplitWord(word)).value)
    ensures Tokens(body, word).Some? && InStep(Tokens(body, word).value, Split(body, SplitWord(word)).value)
    decreases |body|, 0
  {
    hide InStep, IsControlOperator, NoControl, Kept, SplitText;
    var run := body[..RunOf(body)];
    var rest := Split(body[RunOf(body)..], None);
    NoControlAfter(SplitWord(word), Prepended(Some(run), rest));
    NoControlFirst(run, rest.value);
    RunIsAnd(body);
    TokensInStep(body[2..], None);
    Ahead1(And, Tokens(body[2..], None).value, AND, rest.value);
    WordAhead(word, Ahead(And, Tokens(body[2..], None)), Prepended(Some(run), rest));
  }

  lemma {:induction false} InAWord(body: string, word: Option<seq<Mark>>)
    requires OneLine(body) && body != "" && !IsSpace(body[0]) && !IsPunctuation(body[0])
    requires Split(body, SplitWord(word)).Some? && NoControl(Split(body, SplitWord(word)).value)
    ensures Tokens(body, word).Some? && InStep(Tokens(body, word).value, Split(body, SplitWord(word)).value)
    decreases |body|, 0
  {
    hide IsControlOperator, NoControl, SplitText, Kept, Spells, RunOf;
    assert Known(SplitWord(word)) == SplitText(So(word)) by { NothingYet(); }
    if body[0] == '\'' {
      SingleInStep(body[1..], So(word));
    } else if body[0] == '"' {
      DoubleInStep(body[1..], So(word));
    } else if body[0] == '\\' {
      OneMark(So(word), Mark(body[1], Escaped));
      TokensInStep(body[2..], Some(So(word) + [Mark(body[1], Escaped)]));
    } else if body[0] == '#' && word.None? {
      AWordIsLeft(body[1..], Known(None) + [body[0]], None);
    } else {
      OneMark(So(word), Mark(body[0], Bare));
      TokensInStep(body[1..], Some(So(word) + [Mark(body[0], Bare)]));
    }
  }

  lemma NothingYet()
    ensures SplitText([]) == ""
  {
  }

  /** A mark that is no escape between double quotes is split as its character. */
  lemma OneMark(word: seq<Mark>, mark: Mark)
    requires !mark.quoting.EscapedInDouble? || mark.c !in "$`"
    ensures SplitText(word + [mark]) == SplitText(word) + [mark.c]
  {
    Appended(word, mark);
  }

  lemma {:induction false} SingleInStep(body: string, word: seq<Mark>)
    requires OneLine(body)
    requires SplitQuoted(body, '\'', SplitText(word)).Some? && NoControl(SplitQuoted(body, '\'', SplitText(word)).value)
    ensures InSingle(body, word).Some? && InStep(InSingle(body, word).value, SplitQuoted(body, '\'', SplitText(word)).value)
    decreases |body|
  {
    hide InStep, IsControlOperator, NoControl, SplitText, Kept;
    if body[0] == '\'' {
      TokensInStep(body[1..], Some(word));
    } else {
      OneMark(word, Mark(body[0], Single));
      SingleInStep(body[1..], word + [Mark(body[0], Single)]);
    }
  }

  lemma {:induction false} DoubleInStep(body: string, word: seq<Mark>)
    requires OneLine(body)
    requires SplitQuoted(body, '"', SplitText(word)).Some? && NoControl(SplitQuoted(body, '"', SplitText(word)).value)
    ensures InDouble(body, word).Some? && InStep(InDouble(body, word).value, SplitQuoted(body, '"', SplitText(word)).value)
    decreases |body|
  {
    hide InStep, IsControlOperator, NoControl, SplitText;
    if body[0] == '"' {
      TokensInStep(body[1..], Some(word));
    } else if body[0] == '\\' {
      if body[1] in "$`\"\\" {
        Appended(word, Mark(body[1], EscapedInDouble));
        DoubleInStep(body[2..], word + [Mark(body[1], EscapedInDouble)]);
      } else {
        BackslashStands(body, word);
        DoubleInStep(body[2..], word + [Mark('\\', Double)] + [Mark(body[1], Double)]);
      }
    } else {
      OneMark(word, Mark(body[0], Double));
      DoubleInStep(body[1..], word + [Mark(body[0], Double)]);
    }
  }

  /** Before a character it does not escape, a backslash between double quotes stands for itself to both. */
  lemma BackslashStands(body: string, word: seq<Mark>)
    requires |body| > 1 && body[0] == '\\' && body[1] !in "$`\"\\\n"
    ensures var next := word + [Mark('\\', Double)] + [Mark(body[1], Double)];
      && InDouble(body, word) == InDouble(body[2..], next)
      && SplitQuoted(body, '"', SplitText(word)) == SplitQuoted(body[2..], '"', SplitText(next))
  {
    hide SplitText, Kept;
    var one := word + [Mark('\\', Double)];
    OneMark(word, Mark('\\', Double));
    OneMark(one, Mark(body[1], Double));
    assert body[1..][1..] == body[2..];
    assert InDouble(body[1..], one) == InDouble(body[2..], one + [Mark(body[1], Double)]);
    assert SplitText(word) + ['\\', body[1]] == SplitText(word) + ['\\'] + [body[1]];
  }

  // ------------------------------------------------------------------------------------------
  // The two and-lists.

  function SimplesAt(groups: seq<seq<string>>): (simples: seq<Simple>)
    ensures |simples| == |groups|
    ensures forall k :: 0 <= k < |groups| ==>
      simples[k] == Simple(groups[k][..AssignmentRun(groups[k])], groups[k][AssignmentRun(groups[k])..])
  {
    seq(|groups|, k requires 0 <= k < |groups| =>
          Simple(groups[k][..AssignmentRun(groups[k])], groups[k][AssignmentRun(groups[k])..]))
  }

  /** The and-list the gate takes a body for: its words cut at each `&&`, each command's assignments taken from the front. */
  function ParsedList(body: string): seq<Simple>
    requires Split(body, None).Some?
  {
    SimplesAt(Groups(Split(body, None).value))
  }

  function CommandOf(simple: Simple): Command { Command(EnvironmentOf(simple.assignments, map[]), simple.argv) }

  function CommandsAt(simples: seq<Simple>): (commands: seq<Command>)
    ensures |commands| == |simples| && forall k :: 0 <= k < |simples| ==> commands[k] == CommandOf(simples[k])
  {
    seq(|simples|, k requires 0 <= k < |simples| => CommandOf(simples[k]))
  }

  /** The commands a POSIX shell reads a body as, where its text decides them. */
  function ReadBody(body: string): Option<seq<Command>> {
    if AndList(body).None? then None else Some(CommandsAt(AndList(body).value))
  }

  // ------------------------------------------------------------------------------------------
  // Where they are the same.

  /** No dollar sign or backquote is escaped between double quotes, where the split keeps the backslash. */
  predicate SplitsAsRead(word: seq<Mark>) {
    forall i :: 0 <= i < |word| ==> !(word[i].quoting.EscapedInDouble? && word[i].c in "$`")
  }

  /**
   * A command whose first word is not reserved, whose leading assignments have their names and
   * equals signs bare, and whose words the shell puts nothing else in the place of.
   */
  predicate IsPlainCommand(words: seq<seq<Mark>>) {
    var n := AssignmentRun(TextsOf(words));
    && words != [] && !IsReserved(words[0])
    && (forall i :: 0 <= i < n ==> IsAssignmentWord(words[i]))
    && forall i :: 0 <= i < |words| ==> IsLiteral(words[i], i < n)
  }

  /**
   * No word starts with a bare `#`, none is spelled `&&` by quoting, none escapes a dollar sign
   * between double quotes, and every command is plain.
   */
  predicate IsTransparent(body: string) {
    && Tokens(body, None).Some?
    && var tokens := Tokens(body, None).value;
      && (forall token :: token in tokens ==> !token.Comment?)
      && (forall token :: token in tokens && token.Word? ==> TextOf(token.marks) != AND && SplitsAsRead(token.marks))
      && forall words :: words in AtAnds(tokens) ==> IsPlainCommand(words)
  }

  function Spelling(token: Token): string {
    match token case Word(marks) => TextOf(marks) case And => AND case Operator(c) => [c] case Comment(text) => text
  }

  function Spellings(tokens: seq<Token>): (words: seq<string>)
    ensures |words| == |tokens| && forall k :: 0 <= k < |tokens| ==> words[k] == Spelling(tokens[k])
  {
    seq(|tokens|, k requires 0 <= k < |tokens| => Spelling(tokens[k]))
  }

  function GroupTexts(groups: seq<seq<seq<Mark>>>): (texts: seq<seq<string>>)
    ensures |texts| == |groups| && forall k :: 0 <= k < |groups| ==> texts[k] == TextsOf(groups[k])
  {
    seq(|groups|, k requires 0 <= k < |groups| => TextsOf(groups[k]))
  }

  predicate AreWordsAndAnds(tokens: seq<Token>) { forall k :: 0 <= k < |tokens| ==> tokens[k].Word? || tokens[k].And? }

  lemma {:induction false} SplitTextLength(word: seq<Mark>)
    ensures |SplitText(word)| >= |word|
    ensures SplitText(word) == TextOf(word) <==> SplitsAsRead(word)
    ensures |SplitText(word)| == |word| <==> SplitsAsRead(word)
  {
    if word != [] {
      var front, last := word[..|word| - 1], word[|word| - 1];
      SplitTextLength(front);
      assert word == front + [last];
      assert TextOf(word) == TextOf(front) + [last.c];
      if SplitsAsRead(word) { assert SplitsAsRead(front); }
      if SplitsAsRead(front) && |Kept(last)| == 1 {
        forall i | 0 <= i < |word| ensures !(word[i].quoting.EscapedInDouble? && word[i].c in "$`") {
          if i < |front| { assert word[i] == front[i]; }
        }
      }
    } else {
      assert TextOf(word) == "";
    }
  }

  /** Cutting tokens and joining their spellings gives the spellings of the tokens. */
  lemma {:induction false} JoinedSpellings(tokens: seq<Token>)
    requires AreWordsAndAnds(tokens)
    ensures Joined(GroupTexts(AtAnds(tokens))) == Spellings(tokens)
  {
    hide TextOf;
    if tokens == [] {
      assert GroupTexts([[]]) == [[]];
    } else {
      var rest := AtAnds(tokens[1..]);
      assert AreWordsAndAnds(tokens[1..]) by {
        forall k | 0 <= k < |tokens[1..]| ensures tokens[1..][k].Word? || tokens[1..][k].And? {
          assert tokens[1..][k] == tokens[k + 1];
        }
      }
      JoinedSpellings(tokens[1..]);
      assert Spellings(tokens) == [Spelling(tokens[0])] + Spellings(tokens[1..]);
      var texts := GroupTexts(rest);
      if tokens[0].And? {
        assert GroupTexts([[]] + rest) == [[]] + texts;
        assert ([[]] + texts)[1..] == texts;
      } else {
        TextsPrepend(tokens[0].marks, rest);
        JoinedPrepends(TextOf(tokens[0].marks), texts);
      }
    }
  }

  lemma Regrouped(word: string, first: seq<string>, rest: seq<string>)
    ensures [word] + first + [AND] + rest == [word] + (first + [AND] + rest)
  {
  }

  lemma JoinedPrepends(word: string, texts: seq<seq<string>>)
    requires |texts| > 0
    ensures Joined([[word] + texts[0]] + texts[1..]) == [word] + Joined(texts)
  {
    var next := [[word] + texts[0]] + texts[1..];
    if |texts| > 1 {
      assert next[1..] == texts[1..];
      Regrouped(word, texts[0], Joined(texts[1..]));
    }
  }

  lemma TextsPrepend(word: seq<Mark>, groups: seq<seq<seq<Mark>>>)
    requires |groups| > 0
    ensures GroupTexts([[word] + groups[0]] + groups[1..]) == [[TextOf(word)] + GroupTexts(groups)[0]] + GroupTexts(groups)[1..]
  {
    hide TextOf;
    var next := [[word] + groups[0]] + groups[1..];
    assert TextsOf(next[0]) == [TextOf(word)] + TextsOf(groups[0]);
    forall k | 0 < k < |groups| ensures GroupTexts(next)[k] == GroupTexts(groups)[1..][k - 1] {
      assert next[k] == groups[k];
    }
  }

  /** As far as a comment each token is the word at its place, and only a comment leaves words over. */
  lemma {:induction false} WordByWord(tokens: seq<Token>, words: seq<string>)
    requires InStep(tokens, words)
    ensures var read := Uncommented(tokens);
      && AreWordsAndAnds(read) && |read| <= |words| && (forall k :: 0 <= k < |read| ==> Spells(read[k], words[k]))
      && (|read| == |words| ==> read == tokens)
      && ((forall token :: token in tokens ==> !token.Comment?) ==> |read| == |words|)
  {
    if tokens != [] && !tokens[0].Comment? {
      WordByWord(tokens[1..], words[1..]);
      var read, rest := Uncommented(tokens), Uncommented(tokens[1..]);
      forall k | 0 <= k < |read| ensures (read[k].Word? || read[k].And?) && Spells(read[k], words[k]) {
        if k > 0 { assert read[k] == rest[k - 1] && words[k] == words[1..][k - 1]; }
      }
      if |read| == |words| { assert tokens == [tokens[0]] + tokens[1..]; }
      if forall token :: token in tokens ==> !token.Comment? {
        forall token | token in tokens[1..] ensures !token.Comment? { assert token in tokens; }
      }
    } else if tokens != [] {
      assert tokens[0] in tokens;
    }
  }

  // ------------------------------------------------------------------------------------------
  // One command.

  lemma {:induction false} AssigningStopsThere(words: seq<seq<Mark>>, n: nat)
    requires n <= |words| && (forall i :: 0 <= i < n ==> IsAssignmentWord(words[i]))
    requires n < |words| ==> !IsAssignmentWord(words[n])
    ensures Assigning(words) == n
  {
    hide IsAssignmentWord;
    if n > 0 {
      AssigningStopsThere(words[1..], n - 1);
    }
  }

  lemma {:induction false} AssigningAssigns(words: seq<seq<Mark>>)
    ensures forall i :: 0 <= i < Assigning(words) ==> IsAssignmentWord(words[i])
  {
    hide IsAssignmentWord;
    if words != [] && IsAssignmentWord(words[0]) {
      AssigningAssigns(words[1..]);
      forall i | 0 <= i < Assigning(words) ensures IsAssignmentWord(words[i]) {
        if i > 0 { assert words[i] == words[1..][i - 1]; }
      }
    }
  }

  /** What the shell takes for an assignment is spelled as one. */
  lemma AnAssignmentIsSpelled(word: seq<Mark>)
    requires IsAssignmentWord(word)
    ensures IsAssignment(TextOf(word))
  {
  }

  /** A plain command is the same to the shell as to the gate. */
  lemma PlainIsTheSame(words: seq<seq<Mark>>)
    requires IsPlainCommand(words)
    ensures var n := AssignmentRun(TextsOf(words)); SimpleOf(words) == Some(Simple(TextsOf(words)[..n], TextsOf(words)[n..]))
  {
    hide IsAssignmentWord, IsAssignment, IsReserved, IsLiteral, TextOf;
    var texts := TextsOf(words);
    var n := AssignmentRun(texts);
    if n < |words| && IsAssignmentWord(words[n]) { AnAssignmentIsSpelled(words[n]); }
    AssigningStopsThere(words, n);
    assert TextsOf(words[..n]) == texts[..n] && TextsOf(words[n..]) == texts[n..];
  }

  /** And a command that is the same to both is plain. */
  lemma TheSameIsPlain(words: seq<seq<Mark>>, texts: seq<string>)
    requires SimpleOf(words) == Some(Simple(texts[..AssignmentRun(texts)], texts[AssignmentRun(texts)..]))
    ensures texts == TextsOf(words) && IsPlainCommand(words)
  {
    hide IsAssignmentWord, IsAssignment, IsReserved, IsLiteral, TextOf;
    var n := Assigning(words);
    var simple := SimpleOf(words).value;
    assert texts == simple.assignments + simple.argv;
    assert TextsOf(words) == TextsOf(words[..n]) + TextsOf(words[n..]);
    assert |simple.assignments| == n == AssignmentRun(texts);
    AssigningAssigns(words);
  }

  lemma {:induction false} PlainAreTheSame(groups: seq<seq<seq<Mark>>>)
    requires forall words :: words in groups ==> IsPlainCommand(words)
    ensures SimplesOf(groups) == Some(SimplesAt(GroupTexts(groups)))
  {
    hide IsPlainCommand, SimpleOf, TextsOf, AssignmentRun;
    if groups != [] {
      PlainIsTheSame(groups[0]);
      forall words | words in groups[1..] ensures IsPlainCommand(words) { assert words in groups; }
      PlainAreTheSame(groups[1..]);
      assert GroupTexts(groups)[1..] == GroupTexts(groups[1..]);
      assert SimplesAt(GroupTexts(groups)) == [SimpleOf(groups[0]).value] + SimplesAt(GroupTexts(groups[1..]));
    } else {
      assert SimplesAt(GroupTexts(groups)) == [];
    }
  }

  lemma FirstIsTheSame(groups: seq<seq<seq<Mark>>>, texts: seq<seq<string>>)
    requires groups != [] && SimplesOf(groups) == Some(SimplesAt(texts))
    ensures texts != []
    ensures SimpleOf(groups[0]) == Some(Simple(texts[0][..AssignmentRun(texts[0])], texts[0][AssignmentRun(texts[0])..]))
    ensures SimplesOf(groups[1..]) == Some(SimplesAt(texts[1..]))
  {
    hide SimpleOf, AssignmentRun;
    var first, rest := SimpleOf(groups[0]).value, SimplesOf(groups[1..]).value;
    var simples := SimplesAt(texts);
    assert simples == [first] + rest;
    assert first == simples[0] && rest == simples[1..];
    assert simples[1..] == SimplesAt(texts[1..]);
  }

  lemma {:induction false} TheSameArePlain(groups: seq<seq<seq<Mark>>>, texts: seq<seq<string>>)
    requires SimplesOf(groups) == Some(SimplesAt(texts))
    ensures texts == GroupTexts(groups) && forall words :: words in groups ==> IsPlainCommand(words)
  {
    hide IsPlainCommand, SimpleOf, TextsOf, AssignmentRun, SimplesAt, SimplesOf;
    if groups == [] {
      NoneIsTheSame(texts);
    } else {
      FirstIsTheSame(groups, texts);
      TheSameIsPlain(groups[0], texts[0]);
      TheSameArePlain(groups[1..], texts[1..]);
      FirstAndRest(groups, texts);
    }
  }

  lemma FirstAndRest(groups: seq<seq<seq<Mark>>>, texts: seq<seq<string>>)
    requires groups != [] && texts != [] && texts[0] == TextsOf(groups[0]) && texts[1..] == GroupTexts(groups[1..])
    ensures texts == GroupTexts(groups) && groups == [groups[0]] + groups[1..]
  {
    hide TextsOf;
    assert texts == [texts[0]] + texts[1..];
    assert GroupTexts(groups) == [TextsOf(groups[0])] + GroupTexts(groups[1..]);
  }

  lemma NoneIsTheSame(texts: seq<seq<string>>)
    requires SimplesOf([]) == Some(SimplesAt(texts))
    ensures texts == [] == GroupTexts([])
  {
    assert |SimplesAt(texts)| == |texts| == 0;
  }

  // ------------------------------------------------------------------------------------------
  // The body.

  ghost predicate NoneSpelledAnd(tokens: seq<Token>) {
    forall k :: 0 <= k < |tokens| && tokens[k].Word? ==> TextOf(tokens[k].marks) != AND
  }

  lemma {:induction false} NoAndBetween(tokens: seq<Token>)
    requires AreWordsAndAnds(tokens)
    ensures NoAnd(GroupTexts(AtAnds(tokens))) <==> NoneSpelledAnd(tokens)
  {
    hide TextOf, TextsOf;
    if tokens != [] {
      var rest := AtAnds(tokens[1..]);
      NoAndBetween(tokens[1..]);
      assert NoneSpelledAnd(tokens) <==> NoneSpelledAnd(tokens[1..]) && (tokens[0].Word? ==> TextOf(tokens[0].marks) != AND) by {
        SpelledAhead(tokens);
      }
      if tokens[0].And? {
        assert GroupTexts([[]] + rest) == [[]] + GroupTexts(rest);
        assert GroupTexts([[]] + rest)[1..] == GroupTexts(rest);
        NoAndAhead([], GroupTexts(rest));
      } else {
        TextsPrepend(tokens[0].marks, rest);
        NoAndPrepends(TextOf(tokens[0].marks), GroupTexts(rest));
      }
    } else {
      assert GroupTexts([[]]) == [[]];
    }
  }

  lemma SpelledAhead(tokens: seq<Token>)
    requires tokens != []
    ensures NoneSpelledAnd(tokens) <==> NoneSpelledAnd(tokens[1..]) && (tokens[0].Word? ==> TextOf(tokens[0].marks) != AND)
  {
    hide TextOf;
    if NoneSpelledAnd(tokens[1..]) && (tokens[0].Word? ==> TextOf(tokens[0].marks) != AND) {
      forall k | 0 <= k < |tokens| && tokens[k].Word? ensures TextOf(tokens[k].marks) != AND {
        if k > 0 { assert tokens[k] == tokens[1..][k - 1]; }
      }
    }
  }

  lemma NoAndAhead(first: seq<string>, rest: seq<seq<string>>)
    ensures NoAnd([first] + rest) <==> AND !in first && NoAnd(rest)
  {
    var all := [first] + rest;
    if AND !in first && NoAnd(rest) {
      forall k | 0 <= k < |all| ensures AND !in all[k] {
        if k > 0 { assert all[k] == rest[k - 1]; }
      }
    } else if NoAnd(all) {
      assert AND !in all[0];
      forall k | 0 <= k < |rest| ensures AND !in rest[k] {
        assert AND !in all[k + 1];
      }
    }
  }

  lemma NoAndPrepends(word: string, texts: seq<seq<string>>)
    requires |texts| > 0
    ensures NoAnd([[word] + texts[0]] + texts[1..]) <==> word != AND && NoAnd(texts)
  {
    assert [texts[0]] + texts[1..] == texts;
    NoAndAhead(texts[0], texts[1..]);
    NoAndAhead([word] + texts[0], texts[1..]);
  }

  /** The gate's parse is the environment and argv of each command of its and-list. */
  lemma {:induction false} ParsedAreCommands(groups: seq<seq<string>>)
    requires CommandsOf(groups).Parsed?
    ensures CommandsOf(groups).commands == CommandsAt(SimplesAt(groups))
  {
    hide EnvironmentOf, AssignmentRun;
    if groups != [] {
      ParsedAreCommands(groups[1..]);
      assert CommandsAt(SimplesAt(groups))[1..] == CommandsAt(SimplesAt(groups[1..]));
      assert CommandsAt(SimplesAt(groups)) == [CommandsAt(SimplesAt(groups))[0]] + CommandsAt(SimplesAt(groups[1..]));
    }
  }

  lemma WordsAreSpellings(tokens: seq<Token>, words: seq<string>)
    requires |tokens| == |words| && forall k :: 0 <= k < |tokens| ==> Spells(tokens[k], words[k])
    requires forall token :: token in tokens && token.Word? ==> SplitsAsRead(token.marks)
    ensures words == Spellings(tokens)
  {
    hide SplitsAsRead, SplitText, TextOf;
    forall k | 0 <= k < |tokens| ensures words[k] == Spelling(tokens[k]) {
      assert tokens[k] in tokens;
      if tokens[k].Word? { SplitTextLength(tokens[k].marks); }
    }
  }

  lemma TransparentIsReadAlike(body: string)
    requires ParseOf(body).Parsed? && IsTransparent(body)
    ensures AndList(body) == Some(ParsedList(body))
  {
    hide HasSubstitution, CommandsOf, IsControlOperator, IsPlainCommand, TextOf, Split, Tokens, SplitsAsRead, Groups, Joined, Spells,
      InStep, AtAnds, SimplesOf, SplitText;
    var tokens, words := Tokens(body, None).value, Split(body, None).value;
    TokensInStep(body, None);
    WordByWord(tokens, words);
    WordsAreSpellings(tokens, words);
    JoinedSpellings(tokens);
    NoAndBetween(tokens);
    GroupsAreUnique(GroupTexts(AtAnds(tokens)));
    PlainAreTheSame(AtAnds(tokens));
    assert tokens != [] by { PlainIsSomething(tokens); }
  }

  lemma PlainIsSomething(tokens: seq<Token>)
    requires forall words :: words in AtAnds(tokens) ==> IsPlainCommand(words)
    ensures tokens != []
  {
    assert AtAnds(tokens)[0] in AtAnds(tokens);
  }

  lemma ReadAlikeIsTransparent(body: string)
    requires ParseOf(body).Parsed? && AndList(body) == Some(ParsedList(body))
    ensures IsTransparent(body)
  {
    hide HasSubstitution, CommandsOf, IsControlOperator, IsPlainCommand, TextOf, Split, Tokens, SplitsAsRead, Joined, Groups,
      InStep, AtAnds, SplitText;
    var tokens, words := Tokens(body, None).value, Split(body, None).value;
    var read := Uncommented(tokens);
    TokensInStep(body, None);
    WordByWord(tokens, words);
    assert |ParsedList(body)| > 0;
    TheSameArePlain(AtAnds(read), Groups(words));
    GroupsJoin(words);
    JoinedSpellings(read);
    NoAndBetween(read);
    assert words == Spellings(read) && read == tokens;
    forall token | token in tokens && token.Word? ensures TextOf(token.marks) != AND && SplitsAsRead(token.marks) {
      var k :| 0 <= k < |tokens| && tokens[k] == token;
      assert Spells(read[k], words[k]) && words[k] == Spelling(read[k]);
      SplitTextLength(token.marks);
    }
  }

  /**
   * Of a body the gate takes, a POSIX shell reads the same and-list, command by command and word
   * by word, exactly when the body is transparent; and the same environments and arguments then.
   */
  lemma ReadAlikeExactly(body: string)
    requires ParseOf(body).Parsed?
    ensures AndList(body) == Some(ParsedList(body)) <==> IsTransparent(body)
    ensures IsTransparent(body) ==> ReadBody(body) == Some(ParseOf(body).commands)
  {
    hide IsTransparent, HasSubstitution, CommandsOf, AndList;
    if IsTransparent(body) {
      TransparentIsReadAlike(body);
      ParsedAreCommands(Groups(Split(body, None).value));
    } else if AndList(body) == Some(ParsedList(body)) {
      ReadAlikeIsTransparent(body);
    }
  }
}
