/** Matching and splitting over a structure, whose delimiters are all code. */
module Delimiters {
  import opened Options

  // ------------------------------------------------------------------------------------------
  // Balanced text, as a grammar.

  datatype Bracket = Round | Square | Curly

  function Opener(b: Bracket): char {
    match b case Round => '(' case Square => '[' case Curly => '{'
  }

  function Closer(b: Bracket): char {
    match b case Round => ')' case Square => ']' case Curly => '}'
  }

  predicate IsOpener(c: char) { c == '(' || c == '[' || c == '{' }

  predicate IsCloser(c: char) { c == ')' || c == ']' || c == '}' }

  function BracketOf(c: char): Bracket
    requires IsOpener(c) || IsCloser(c)
  {
    if c == '(' || c == ')' then Round else if c == '[' || c == ']' then Square else Curly
  }

  /** A character that is no delimiter, or a bracket around balanced text. */
  datatype Tree = Plain(c: char) | Group(b: Bracket, inner: seq<Tree>)

  predicate Proper(forest: seq<Tree>) {
    forall tree :: tree in forest ==> ProperTree(tree)
  }

  predicate ProperTree(tree: Tree) {
    match tree
    case Plain(c) => c !in "()[]{}"
    case Group(_, inner) => forall child :: child in inner ==> ProperTree(child)
  }

  function Show(forest: seq<Tree>): string {
    if forest == [] then "" else ShowTree(forest[0]) + Show(forest[1..])
  }

  function ShowTree(tree: Tree): string {
    match tree
    case Plain(c) => [c]
    case Group(b, inner) => [Opener(b)] + Show(inner) + [Closer(b)]
  }

  /** The text is a word of the grammar. */
  ghost predicate Balanced(text: string) {
    exists forest :: Proper(forest) && Show(forest) == text
  }

  // ------------------------------------------------------------------------------------------
  // Balanced text, as a stack reads it.

  /** The brackets open after `text`, read with `stack` open; none if one closes that is not the innermost. */
  function Reads(text: string, stack: seq<Bracket>): Option<seq<Bracket>> {
    if text == "" then Some(stack)
    else if IsOpener(text[0]) then Reads(text[1..], stack + [BracketOf(text[0])])
    else if IsCloser(text[0]) then
      if stack != [] && stack[|stack| - 1] == BracketOf(text[0]) then Reads(text[1..], stack[..|stack| - 1]) else None
    else Reads(text[1..], stack)
  }

  lemma {:induction false} ReadsOn(one: string, more: string, stack: seq<Bracket>)
    ensures Reads(one + more, stack) == if Reads(one, stack).Some? then Reads(more, Reads(one, stack).value) else None
    decreases |one|
  {
    if one == "" {
      assert one + more == more;
    } else {
      assert (one + more)[0] == one[0] && (one + more)[1..] == one[1..] + more;
      if IsOpener(one[0]) {
        ReadsOn(one[1..], more, stack + [BracketOf(one[0])]);
      } else if !IsCloser(one[0]) {
        ReadsOn(one[1..], more, stack);
      } else if stack != [] && stack[|stack| - 1] == BracketOf(one[0]) {
        ReadsOn(one[1..], more, stack[..|stack| - 1]);
      }
    }
  }

  /** One character more. */
  lemma ReadsOneMore(text: string, c: char, stack: seq<Bracket>)
    requires Reads(text, stack).Some?
    ensures var open := Reads(text, stack).value;
      Reads(text + [c], stack)
      == if IsOpener(c) then Some(open + [BracketOf(c)])
         else if IsCloser(c) then
           if open != [] && open[|open| - 1] == BracketOf(c) then Some(open[..|open| - 1]) else None
         else Some(open)
  {
    ReadsOn(text, [c], stack);
    var open := Reads(text, stack).value;
    assert [c][1..] == "";
  }

  /** A word of the grammar leaves the stack as it found it. */
  lemma {:induction false} ForestReads(forest: seq<Tree>, stack: seq<Bracket>)
    requires Proper(forest)
    ensures Reads(Show(forest), stack) == Some(stack)
    decreases forest
  {
    if forest != [] {
      TreeReads(forest[0], stack);
      ForestReads(forest[1..], stack);
      ReadsOn(ShowTree(forest[0]), Show(forest[1..]), stack);
    }
  }

  lemma {:induction false} TreeReads(tree: Tree, stack: seq<Bracket>)
    requires ProperTree(tree)
    ensures Reads(ShowTree(tree), stack) == Some(stack)
    decreases tree
  {
    match tree
    case Plain(c) =>
      assert [c][1..] == "";
    case Group(b, inner) =>
      ForestReads(inner, stack + [b]);
      GroupReads(b, Show(inner), stack);
  }

  lemma OpenerReads(b: Bracket, stack: seq<Bracket>)
    ensures Reads([Opener(b)], stack) == Some(stack + [b])
  {
    assert [Opener(b)][1..] == "";
  }

  lemma GroupReads(b: Bracket, inner: string, stack: seq<Bracket>)
    requires Reads(inner, stack + [b]) == Some(stack + [b])
    ensures Reads([Opener(b)] + inner + [Closer(b)], stack) == Some(stack)
  {
    OpenerReads(b, stack);
    ReadsOn([Opener(b)], inner, stack);
    ReadsOneMore([Opener(b)] + inner, Closer(b), stack);
    assert (stack + [b])[..|stack|] == stack;
  }

  lemma {:induction false} ShowBoth(some: seq<Tree>, more: seq<Tree>)
    ensures Show(some + more) == Show(some) + Show(more)
  {
    if some == [] {
      assert some + more == more;
    } else {
      assert (some + more)[0] == some[0] && (some + more)[1..] == some[1..] + more;
      ShowBoth(some[1..], more);
    }
  }

  lemma ReadsStep(text: string, stack: seq<Bracket>)
    requires text != "" && Reads(text, stack).Some?
    ensures IsOpener(text[0]) ==> Reads(text, stack) == Reads(text[1..], stack + [BracketOf(text[0])])
    ensures IsCloser(text[0]) ==>
      && stack != [] && [text[0]] == [Closer(stack[|stack| - 1])] && Reads(text, stack) == Reads(text[1..], stack[..|stack| - 1])
    ensures !IsOpener(text[0]) && !IsCloser(text[0]) ==> Reads(text, stack) == Reads(text[1..], stack)
    ensures text == [text[0]] + text[1..]
  {
  }

  lemma OneMoreTree(tree: Tree, following: seq<Tree>)
    requires ProperTree(tree) && Proper(following)
    ensures Proper([tree] + following) && Show([tree] + following) == ShowTree(tree) + Show(following)
  {
    assert ([tree] + following)[1..] == following;
  }

  lemma GroupShows(c: char, inner: seq<Tree>, following: seq<Tree>, after: string, tail: string)
    requires IsOpener(c) && Proper(inner) && Proper(following) && after == Show(following) + tail
    ensures var group := Group(BracketOf(c), inner);
      Proper([group] + following) && Show([group] + following) + tail == [c] + (Show(inner) + [Closer(BracketOf(c))] + after)
  {
    var group := Group(BracketOf(c), inner);
    OneMoreTree(group, following);
    assert Opener(BracketOf(c)) == c;
    var close := [Closer(BracketOf(c))];
    assert ShowTree(group) == [c] + Show(inner) + close;
    hide Show, ShowTree;
    assert [c] + Show(inner) + close + Show(following) + tail == [c] + (Show(inner) + close + (Show(following) + tail));
  }

  lemma PlainShows(c: char, following: seq<Tree>, tail: string)
    requires !IsOpener(c) && !IsCloser(c) && Proper(following)
    ensures Proper([Plain(c)] + following) && Show([Plain(c)] + following) + tail == [c] + (Show(following) + tail)
  {
    OneMoreTree(Plain(c), following);
    assert [c] + Show(following) + tail == [c] + (Show(following) + tail);
  }

  /** What closes the innermost open bracket, and what follows it: nothing, once all are closed. */
  predicate ClosesInnermost(stack: seq<Bracket>, tail: string, rest: string) {
    if stack == [] then tail == rest == "" else tail == [Closer(stack[|stack| - 1])] + rest
  }

  /** What a stack that ends empty has read: a word, then the innermost open bracket closed, and so on. */
  lemma {:induction false} ReadsAForest(text: string, stack: seq<Bracket>)
    returns (forest: seq<Tree>, tail: string, rest: string)
    requires Reads(text, stack) == Some([])
    ensures Proper(forest) && text == Show(forest) + tail && ClosesInnermost(stack, tail, rest) && |tail| <= |text|
    ensures stack != [] ==> Reads(rest, stack[..|stack| - 1]) == Some([])
    decreases |text|
  {
    hide Reads, Show, ShowTree, Proper;
    EmptyForest(stack);
    if text == "" {
      NothingRead(stack);
      return [], "", "";
    }
    ReadsStep(text, stack);
    var c := text[0];
    if IsOpener(c) {
      var inner, close, after := ReadsAForest(text[1..], stack + [BracketOf(c)]);
      assert (stack + [BracketOf(c)])[..|stack|] == stack;
      var following;
      following, tail, rest := ReadsAForest(after, stack);
      forest := [Group(BracketOf(c), inner)] + following;
      GroupShows(c, inner, following, after, tail);
      assert text[1..] == Show(inner) + [Closer(BracketOf(c))] + after;
    } else if IsCloser(c) {
      forest, tail, rest := [], text, text[1..];
    } else {
      var following;
      following, tail, rest := ReadsAForest(text[1..], stack);
      forest := [Plain(c)] + following;
      PlainShows(c, following, tail);
    }
  }

  lemma EmptyForest(stack: seq<Bracket>)
    ensures Proper([]) && forall tail: string :: Show([]) + tail == tail
  {
  }

  lemma NothingRead(stack: seq<Bracket>)
    requires Reads("", stack) == Some([])
    ensures stack == []
  {
  }

  /** The grammar and the stack agree on what is balanced. */
  lemma BalancedIsReads(text: string)
    ensures Balanced(text) <==> Reads(text, []) == Some([])
  {
    if Balanced(text) {
      var forest :| Proper(forest) && Show(forest) == text;
      ForestReads(forest, []);
    }
    if Reads(text, []) == Some([]) {
      var forest, tail, rest := ReadsAForest(text, []);
      assert Proper(forest) && Show(forest) == text;
    }
  }

  // ------------------------------------------------------------------------------------------
  // `matching_delimiter`.

  /** The opener, and the structure after it up to and with `j`. */
  function WordTo(source: string, structure: string, open: nat, j: nat): string
    requires open <= j < |structure| && open < |source|
  {
    [source[open]] + structure[open + 1..j + 1]
  }

  /** The delimiter at `j` closes the opener: the word that ends there is balanced, and none that ends before is. */
  ghost predicate Closes(source: string, structure: string, open: nat, j: nat)
    requires open < |source| <= |structure|
  {
    && open < j < |source| && Balanced(WordTo(source, structure, open, j))
    && forall k :: open <= k < j ==> !Balanced(WordTo(source, structure, open, k))
  }

  lemma BrokenStaysBroken(one: string, more: string)
    requires Reads(one, []).None?
    ensures !Balanced(one + more)
  {
    ReadsOn(one, more, []);
    BalancedIsReads(one + more);
  }

  /** The mate of the opener at `open`: none exactly when no delimiter closes it. */
  method MatchingDelimiter(source: string, open: nat, structure: string) returns (mate: Option<nat>)
    requires open < |source| <= |structure| && IsOpener(source[open])
    ensures mate.Some? ==> Closes(source, structure, open, mate.value)
    ensures mate.None? ==> forall j :: open <= j < |source| ==> !Balanced(WordTo(source, structure, open, j))
  {
    hide Reads, Balanced;
    var stack := [BracketOf(source[open])];
    OpenerReads(BracketOf(source[open]), []);
    assert WordTo(source, structure, open, open) == [Opener(BracketOf(source[open]))] && [] + stack == stack;
    BalancedIsReads(WordTo(source, structure, open, open));
    for index := open + 1 to |source|
      invariant Reads(WordTo(source, structure, open, index - 1), []) == Some(stack) && stack != []
      invariant forall k :: open <= k < index ==> !Balanced(WordTo(source, structure, open, k))
    {
      var c := structure[index];
      ReadsOneMore(WordTo(source, structure, open, index - 1), c, []);
      assert WordTo(source, structure, open, index - 1) + [c] == WordTo(source, structure, open, index);
      BalancedIsReads(WordTo(source, structure, open, index));
      if c == '(' || c == '[' || c == '{' {
        stack := stack + [BracketOf(c)];
      } else if c == ')' || c == ']' || c == '}' {
        if stack[|stack| - 1] != BracketOf(c) {
          forall j | index <= j < |source| ensures !Balanced(WordTo(source, structure, open, j)) {
            BrokenStaysBroken(WordTo(source, structure, open, index), structure[index + 1..j + 1]);
            assert WordTo(source, structure, open, index) + structure[index + 1..j + 1] == WordTo(source, structure, open, j);
          }
          return None;
        }
        stack := stack[..|stack| - 1];
        if stack == [] { return Some(index); }
      }
    }
    return None;
  }

  // ------------------------------------------------------------------------------------------
  // `split_top_level`.

  datatype Part = Part(lo: nat, hi: nat)

  /** Whitespace and comments, and nothing else. */
  predicate Trivia(text: string, isSpace: char -> bool)
    decreases |text|
  {
    if text == "" then true
    else if isSpace(text[0]) then Trivia(text[1..], isSpace)
    else if |text| >= 2 && text[..2] == "//" then Trivia(AfterLine(text), isSpace)
    else if |text| >= 2 && text[..2] == "/*" then
      var rest := AfterBlock(text[2..]);
      rest.Some? && Trivia(rest.value, isSpace)
    else false
  }

  /** The text from its first line feed on. */
  function AfterLine(text: string): (rest: string)
    requires |text| >= 2 && text[..2] == "//"
    ensures |rest| < |text|
  {
    FromFeed(text[2..])
  }

  function FromFeed(text: string): (rest: string)
    ensures |rest| <= |text|
  {
    if text == "" || text[0] == '\n' then text else FromFeed(text[1..])
  }

  /** The text after the first `*` that a slash follows. */
  function AfterBlock(text: string): (rest: Option<string>)
    ensures rest.Some? ==> |rest.value| < |text|
  {
    if |text| < 2 then None else if text[..2] == "*/" then Some(text[2..]) else AfterBlock(text[1..])
  }

  lemma TriviaStarts(text: string, isSpace: char -> bool, index: nat)
    requires index < |text|
    ensures isSpace(text[index]) ==> Trivia(text[index..], isSpace) == Trivia(text[index + 1..], isSpace)
    ensures !isSpace(text[index]) && index + 2 <= |text| && text[index..index + 2] == "//" ==>
      Trivia(text[index..], isSpace) == Trivia(FromFeed(text[index + 2..]), isSpace)
    ensures !isSpace(text[index]) && index + 2 <= |text| && text[index..index + 2] == "/*" ==>
      var rest := AfterBlock(text[index + 2..]);
      Trivia(text[index..], isSpace) == (rest.Some? && Trivia(rest.value, isSpace))
    ensures !isSpace(text[index]) && !(index + 2 <= |text| && text[index..index + 2] in {"//", "/*"}) ==> !Trivia(text[index..], isSpace)
  {
    var left := text[index..];
    assert left[0] == text[index] && left[1..] == text[index + 1..];
    if index + 2 <= |text| { assert left[..2] == text[index..index + 2] && left[2..] == text[index + 2..]; }
  }

  /** Where the first line feed from `start` on stands, or the end. */
  method FeedFrom(text: string, start: nat) returns (end: nat)
    requires start <= |text|
    ensures start <= end <= |text| && FromFeed(text[start..]) == text[end..]
  {
    end := start;
    while end < |text| && text[end] != '\n'
      invariant start <= end <= |text| && FromFeed(text[start..]) == FromFeed(text[end..])
    {
      assert text[end..][1..] == text[end + 1..];
      end := end + 1;
    }
  }

  /** Where the first block comment's end from `start` on stands, if there is one. */
  method BlockEndFrom(text: string, start: nat) returns (close: Option<nat>)
    requires start <= |text|
    ensures close.None? ==> AfterBlock(text[start..]).None?
    ensures close.Some? ==> start <= close.value && close.value + 2 <= |text| && AfterBlock(text[start..]) == Some(text[close.value + 2..])
  {
    var index := start;
    while index + 2 <= |text|
      invariant start <= index <= |text| && AfterBlock(text[start..]) == AfterBlock(text[index..])
    {
      assert text[index..][..2] == text[index..index + 2] && text[index..][2..] == text[index + 2..];
      if text[index..index + 2] == "*/" { return Some(index); }
      assert text[index..][1..] == text[index + 1..];
      index := index + 1;
    }
    return None;
  }

  /** `trivia_only`. */
  method TriviaOnly(text: string, isSpace: char -> bool) returns (only: bool)
    ensures only <==> Trivia(text, isSpace)
  {
    hide Trivia, FromFeed, AfterBlock;
    var index := 0;
    assert text[0..] == text;
    while index < |text|
      invariant index <= |text| && Trivia(text, isSpace) == Trivia(text[index..], isSpace)
    {
      TriviaStarts(text, isSpace, index);
      if isSpace(text[index]) {
        index := index + 1;
      } else if index + 2 <= |text| && text[index..index + 2] == "//" {
        index := FeedFrom(text, index + 2);
      } else if index + 2 <= |text| && text[index..index + 2] == "/*" {
        var close := BlockEndFrom(text, index + 2);
        if close.None? { return false; }
        index := close.value + 2;
      } else {
        return false;
      }
    }
    NothingIsTrivia(text[index..], isSpace);
    return true;
  }

  lemma NothingIsTrivia(text: string, isSpace: char -> bool)
    requires text == ""
    ensures Trivia(text, isSpace)
  {
  }

  /** A comma of the span outside every bracket. */
  ghost predicate TopComma(structure: string, lo: nat, i: nat)
    requires lo <= i < |structure|
  {
    structure[i] == ',' && Balanced(structure[lo..i])
  }

  /** The parts stand one after another from `lo` to `hi`, a top-level comma between each two, and none inside. */
  ghost predicate Splits(structure: string, lo: nat, hi: nat, parts: seq<Part>)
    requires lo <= hi <= |structure|
  {
    && parts != [] && parts[0].lo == lo && parts[|parts| - 1].hi == hi
    && (forall k :: 0 <= k < |parts| ==> IsPart(structure, lo, parts[k], hi))
    && CommasBetween(structure, parts)
  }

  predicate CommasBetween(structure: string, parts: seq<Part>) {
    |parts| > 1 ==>
      && parts[|parts| - 1].lo == parts[|parts| - 2].hi + 1
      && parts[|parts| - 2].hi < |structure| && structure[parts[|parts| - 2].hi] == ','
      && CommasBetween(structure, parts[..|parts| - 1])
  }

  lemma PartsGrow(structure: string, parts: seq<Part>, next: Part)
    requires CommasBetween(structure, parts)
    requires parts != [] ==>
               && next.lo == parts[|parts| - 1].hi + 1
               && parts[|parts| - 1].hi < |structure| && structure[parts[|parts| - 1].hi] == ','
    ensures CommasBetween(structure, parts + [next])
  {
    assert (parts + [next])[..|parts|] == parts;
  }

  /** The parts found so far, before the one that begins at `from`. */
  ghost predicate Found(structure: string, lo: nat, parts: seq<Part>, from: nat) {
    && lo <= from <= |structure| && CommasBetween(structure, parts)
    && (if parts == [] then from == lo
        else parts[0].lo == lo && from == parts[|parts| - 1].hi + 1 && structure[from - 1] == ',')
    && forall k :: 0 <= k < |parts| ==> IsPart(structure, lo, parts[k], from)
  }

  ghost predicate IsPart(structure: string, lo: nat, part: Part, hi: nat)
    requires hi <= |structure|
  {
    && lo <= part.lo <= part.hi <= hi && Balanced(structure[part.lo..part.hi])
    && forall i :: part.lo <= i < part.hi ==> !TopComma(structure, part.lo, i)
  }

  /** The characters from `from` to `index`, none of them a top-level comma. */
  ghost predicate NoComma(structure: string, from: nat, index: nat) {
    from <= index <= |structure| && forall i :: from <= i < index ==> !TopComma(structure, from, i)
  }

  lemma NoCommaGrows(structure: string, from: nat, index: nat)
    requires NoComma(structure, from, index) && index < |structure|
    requires structure[index] != ',' || Reads(structure[from..index], []) != Some([])
    ensures NoComma(structure, from, index + 1)
  {
    BalancedIsReads(structure[from..index]);
  }

  lemma OneMorePart(structure: string, lo: nat, parts: seq<Part>, from: nat, index: nat)
    requires Found(structure, lo, parts, from) && NoComma(structure, from, index)
    requires index < |structure| && structure[index] == ',' && Reads(structure[from..index], []) == Some([])
    ensures Found(structure, lo, parts + [Part(from, index)], index + 1)
  {
    BalancedIsReads(structure[from..index]);
    PartsGrow(structure, parts, Part(from, index));
  }

  lemma LastPart(structure: string, lo: nat, parts: seq<Part>, from: nat, hi: nat)
    requires Found(structure, lo, parts, from) && NoComma(structure, from, hi)
    requires Reads(structure[from..hi], []) == Some([])
    ensures Splits(structure, lo, hi, parts + [Part(from, hi)])
  {
    BalancedIsReads(structure[from..hi]);
    PartsGrow(structure, parts, Part(from, hi));
  }

  lemma NothingFound(structure: string, lo: nat)
    requires lo <= |structure|
    ensures Found(structure, lo, [], lo) && NoComma(structure, lo, lo) && Reads(structure[lo..lo], []) == Some([])
  {
  }

  /** Splits the span at its top-level commas: refused exactly when the span is not balanced. */
  method SplitTopLevel(source: string, structure: string, start: nat, end: nat, isSpace: char -> bool)
    returns (split: Option<seq<Part>>, ghost all: seq<Part>)
    requires start <= end <= |structure| && |source| == |structure|
    ensures split.Some? <==> Balanced(structure[start..end])
    ensures split.Some? ==> Splits(structure, start, end, all)
    ensures split.Some? ==>
      var last := all[|all| - 1];
      split.value == if Trivia(source[last.lo..last.hi], isSpace) then all[..|all| - 1] else all
  {
    hide Reads, Found, NoComma, Balanced, Trivia;
    NothingFound(structure, start);
    var stack: seq<Bracket> := [];
    var parts: seq<Part> := [];
    var from := start;
    for index := start to end
      invariant start <= from <= index
      invariant Reads(structure[start..index], []) == Some(stack)
      invariant Reads(structure[from..index], []) == Some(stack)
      invariant Found(structure, start, parts, from) && NoComma(structure, from, index)
    {
      var c := structure[index];
      ReadsOneMore(structure[start..index], c, []);
      ReadsOneMore(structure[from..index], c, []);
      assert structure[start..index] + [c] == structure[start..index + 1];
      assert structure[from..index] + [c] == structure[from..index + 1];
      if c == ',' && stack == [] {
        OneMorePart(structure, start, parts, from, index);
        NothingFound(structure, index + 1);
        parts := parts + [Part(from, index)];
        from := index + 1;
        continue;
      }
      NoCommaGrows(structure, from, index);
      if c == '(' || c == '[' || c == '{' {
        stack := stack + [BracketOf(c)];
      } else if c == ')' || c == ']' || c == '}' {
        if stack == [] || stack[|stack| - 1] != BracketOf(c) {
          BrokenStaysBroken(structure[start..index + 1], structure[index + 1..end]);
          assert structure[start..index + 1] + structure[index + 1..end] == structure[start..end];
          return None, [];
        }
        stack := stack[..|stack| - 1];
      }
    }
    BalancedIsReads(structure[start..end]);
    if stack != [] { return None, []; }
    LastPart(structure, start, parts, from, end);
    var every := parts + [Part(from, end)];
    var trivial := TriviaOnly(source[from..end], isSpace);
    if trivial {
      assert every[..|every| - 1] == parts;
      return Some(parts), every;
    }
    return Some(every), every;
  }

  /** The parts' text with the commas put back. */
  function Rejoined(structure: string, parts: seq<Part>): string
    requires forall k :: 0 <= k < |parts| ==> parts[k].lo <= parts[k].hi <= |structure|
  {
    if parts == [] then ""
    else
      var last := parts[|parts| - 1];
      if |parts| == 1 then structure[last.lo..last.hi]
      else Rejoined(structure, parts[..|parts| - 1]) + "," + structure[last.lo..last.hi]
  }

  /** Nothing is lost in the split: the parts with a comma between each two are the span. */
  lemma {:induction false} SplitRejoins(structure: string, lo: nat, parts: seq<Part>)
    requires parts != [] && parts[0].lo == lo && CommasBetween(structure, parts)
    requires forall k :: 0 <= k < |parts| ==> lo <= parts[k].lo <= parts[k].hi <= |structure|
    ensures Rejoined(structure, parts) == structure[lo..parts[|parts| - 1].hi]
    decreases |parts|
  {
    if |parts| > 1 {
      var before := parts[..|parts| - 1];
      var comma := before[|before| - 1].hi;
      SplitRejoins(structure, lo, before);
      assert structure[lo..comma] + "," == structure[lo..comma + 1];
      assert structure[lo..comma + 1] + structure[comma + 1..parts[|parts| - 1].hi] == structure[lo..parts[|parts| - 1].hi];
    }
  }
}
