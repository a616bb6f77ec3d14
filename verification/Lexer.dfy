/**
 * The lexer that blanks what is not code. It works in place: `structure` starts as the source
 * and comments, literals and regular expressions are blanked in it, position for position,
 * while the code inside `${` and `}` of a template stays.
 */
module Lexer {
  import opened Options

  /** What the host language says of one character. */
  datatype Classes = Classes(isSpace: char -> bool, isAlpha: char -> bool, isAlnum: char -> bool, isDigit: char -> bool)

  /** No quote, slash or brace is a space, a letter or a digit. */
  ghost predicate PunctuationApart(classes: Classes) {
    forall c :: classes.isSpace(c) || classes.isAlpha(c) || classes.isAlnum(c) || classes.isDigit(c) ==> !Punctuation(c)
  }

  predicate Punctuation(c: char) {
    c == '\'' || c == '"' || c == '`' || c == '/' || c == '{' || c == '}'
  }

  type Alphabet = classes: Classes | PunctuationApart(classes)
    witness Classes(c => false, c => false, c => false, c => false)

  /** From `lo` up to `hi`, exclusive. */
  datatype Span = Span(lo: nat, hi: nat)

  /** The static text of one string or template: one span, or one between every two interpolations. */
  datatype Literal = Literal(spans: seq<Span>)

  const PREFIX_WORDS: set<string> :=
    {"await", "case", "delete", "else", "in", "instanceof", "new", "of", "return", "throw", "typeof", "void", "yield"}

  predicate LineBreak(c: char) {
    c == '\r' || c == '\n'
  }

  predicate At(text: string, i: int, word: string) {
    0 <= i && i + |word| <= |text| && text[i..i + |word|] == word
  }

  predicate WordChar(alphabet: Alphabet, c: char) {
    alphabet.isAlnum(c) || c == '_' || c == '$'
  }

  // ------------------------------------------------------------------------------------------
  // What a literal is.

  /** Reading escapes two characters at a time, the text from `lo` comes to `hi` and meets no stop before. */
  predicate RunsTo(text: string, lo: nat, hi: nat, stops: nat -> bool)
    decreases hi - lo
  {
    lo == hi
    || (lo < hi <= |text|
        && if text[lo] == '\\' then lo + 2 <= hi && RunsTo(text, lo + 2, hi, stops)
           else !stops(lo) && RunsTo(text, lo + 1, hi, stops))
  }

  lemma {:induction false} RunGrows(text: string, lo: nat, mid: nat, hi: nat, stops: nat -> bool)
    requires RunsTo(text, lo, mid, stops) && RunsTo(text, mid, hi, stops)
    ensures RunsTo(text, lo, hi, stops)
    decreases mid - lo
  {
    if lo < mid {
      RunGrows(text, if text[lo] == '\\' then lo + 2 else lo + 1, mid, hi, stops);
    }
  }

  /** One more character, or one more escape, that is no stop. */
  lemma StepsOn(text: string, lo: nat, index: nat, stops: nat -> bool)
    requires RunsTo(text, lo, index, stops) && index < |text| && (text[index] == '\\' || !stops(index))
    ensures var next := index + if text[index] == '\\' then 2 else 1;
      next <= |text| ==> RunsTo(text, lo, next, stops)
  {
    var next := index + if text[index] == '\\' then 2 else 1;
    if next <= |text| {
      assert RunsTo(text, next, next, stops);
      RunGrows(text, lo, index, next, stops);
    }
  }

  /** Two runs from one place: the shorter is a part of the longer. */
  lemma {:induction false} RunSplits(text: string, lo: nat, mid: nat, hi: nat, stops: nat -> bool)
    requires RunsTo(text, lo, mid, stops) && RunsTo(text, lo, hi, stops) && mid <= hi
    ensures RunsTo(text, mid, hi, stops)
    decreases mid - lo
  {
    if lo < mid {
      RunSplits(text, if text[lo] == '\\' then lo + 2 else lo + 1, mid, hi, stops);
    }
  }

  /** A run that can go no further than `at`, and met no stop before, ends at no other stop. */
  lemma RunsPastNoStop(text: string, lo: nat, at: nat, hi: nat, stops: nat -> bool)
    requires RunsTo(text, lo, at, stops) && at <= |text|
    requires at == |text| || (at == |text| - 1 && text[at] == '\\') || (stops(at) && text[at] != '\\')
    requires hi != at
    ensures !(RunsTo(text, lo, hi, stops) && hi < |text| && stops(hi) && text[hi] != '\\')
  {
    if RunsTo(text, lo, hi, stops) && hi < |text| && stops(hi) && text[hi] != '\\' {
      if hi <= at { RunSplits(text, lo, hi, at, stops); } else { RunSplits(text, lo, at, hi, stops); }
      assert false;
    }
  }

  function QuoteStops(text: string, quote: char): nat -> bool {
    i => 0 <= i < |text| && (text[i] == quote || LineBreak(text[i]))
  }

  function TemplateStops(text: string): nat -> bool {
    i => 0 <= i < |text| && (text[i] == '`' || At(text, i, "${"))
  }

  /** A template's spans, and one more after the interpolation that follows them. */
  lemma RestGrows(text: string, spans: seq<Span>, next: Span)
    requires IsTemplateRest(text, spans) && next.lo <= next.hi <= |text|
    requires RunsTo(text, next.lo, next.hi, TemplateStops(text))
    requires spans != [] ==> Interpolates(text, spans[|spans| - 1], next)
    ensures IsTemplateRest(text, spans + [next])
  {
    assert (spans + [next])[..|spans|] == spans;
  }

  /** A quoted string: its span runs, over one line, from one quote to the next unescaped one. */
  predicate IsQuoted(text: string, literal: Literal) {
    && |literal.spans| == 1
    && var span := literal.spans[0];
    && 0 < span.lo <= span.hi < |text|
    && (text[span.lo - 1] == '\'' || text[span.lo - 1] == '"')
    && text[span.hi] == text[span.lo - 1]
    && RunsTo(text, span.lo, span.hi, QuoteStops(text, text[span.lo - 1]))
  }

  /** The string that opens at `start` closes at `hi`. */
  predicate ClosesAt(text: string, start: nat, hi: nat) {
    IsQuoted(text, Literal([Span(start + 1, hi)]))
  }

  /** A template: from a backtick, through `${` and `}` around every interpolation, to a backtick. */
  ghost predicate IsTemplate(text: string, literal: Literal) {
    && literal.spans != []
    && 0 < literal.spans[0].lo && literal.spans[0].lo <= |text| && text[literal.spans[0].lo - 1] == '`'
    && IsTemplateRest(text, literal.spans)
    && literal.spans[|literal.spans| - 1].hi < |text| && text[literal.spans[|literal.spans| - 1].hi] == '`'
  }

  /** The spans of a template, with what stands between each two. */
  ghost predicate IsTemplateRest(text: string, spans: seq<Span>) {
    && (forall k :: 0 <= k < |spans| ==>
          spans[k].lo <= spans[k].hi <= |text| && RunsTo(text, spans[k].lo, spans[k].hi, TemplateStops(text)))
    && Joined(text, spans)
  }

  /** One interpolation stands between each span and the next. */
  predicate Joined(text: string, spans: seq<Span>) {
    |spans| > 1 ==>
      && Interpolates(text, spans[|spans| - 2], spans[|spans| - 1])
      && Joined(text, spans[..|spans| - 1])
  }

  /** Between two spans stands one interpolation, from its `${` to its `}`. */
  predicate Interpolates(text: string, one: Span, next: Span) {
    one.hi + 2 < next.lo <= |text| && At(text, one.hi, "${") && text[next.lo - 1] == '}'
  }

  ghost predicate IsLiteral(text: string, literal: Literal) {
    IsQuoted(text, literal) || IsTemplate(text, literal)
  }

  /** All the spans of all the literals. */
  function AllSpans(literals: seq<Literal>): seq<Span> {
    if literals == [] then [] else AllSpans(literals[..|literals| - 1]) + literals[|literals| - 1].spans
  }

  lemma AllSpansOfOneMore(literals: seq<Literal>, literal: Literal)
    ensures AllSpans(literals + [literal]) == AllSpans(literals) + literal.spans
  {
    assert (literals + [literal])[..|literals|] == literals;
  }

  predicate Apart(one: Span, other: Span) {
    one.hi <= other.lo || other.hi <= one.lo
  }

  ghost predicate PairwiseApart(spans: seq<Span>) {
    forall i, j :: 0 <= i < j < |spans| ==> Apart(spans[i], spans[j])
  }

  /** No span of one list meets a span of the other. */
  ghost predicate Separate(some: seq<Span>, others: seq<Span>) {
    forall i, j :: 0 <= i < |some| && 0 <= j < |others| ==> Apart(some[i], others[j])
  }

  lemma ApartTogether(some: seq<Span>, others: seq<Span>)
    requires PairwiseApart(some) && PairwiseApart(others) && Separate(some, others)
    ensures PairwiseApart(some + others)
  {
  }

  ghost predicate Within(spans: seq<Span>, lo: nat, hi: nat) {
    forall k :: 0 <= k < |spans| ==> lo <= spans[k].lo <= spans[k].hi <= hi
  }

  /** Whether a regular expression's text, read from `lo` to `hi`, stands in a class there; none if it ended before. */
  function RegexState(text: string, lo: nat, hi: nat, inClass: bool): Option<bool>
    decreases hi - lo
  {
    if lo == hi then Some(inClass)
    else if lo > hi || hi > |text| then None
    else if text[lo] == '\\' then if lo + 2 <= hi then RegexState(text, lo + 2, hi, inClass) else None
    else if LineBreak(text[lo]) || (text[lo] == '/' && !inClass) then None
    else RegexState(text, lo + 1, hi, if text[lo] == '[' then true else if text[lo] == ']' then false else inClass)
  }

  lemma {:induction false} RegexGrows(text: string, lo: nat, mid: nat, hi: nat, inClass: bool)
    requires RegexState(text, lo, mid, inClass).Some? && mid <= hi <= |text|
    ensures RegexState(text, lo, hi, inClass) == RegexState(text, mid, hi, RegexState(text, lo, mid, inClass).value)
    decreases mid - lo
  {
    if lo < mid {
      if text[lo] == '\\' {
        RegexGrows(text, lo + 2, mid, hi, inClass);
      } else {
        RegexGrows(text, lo + 1, mid, hi, if text[lo] == '[' then true else if text[lo] == ']' then false else inClass);
      }
    }
  }

  /** A regular expression: from a slash to the next one outside a class, and all the flags after it. */
  predicate IsRegex(text: string, lo: nat, close: nat, hi: nat, alphabet: Alphabet) {
    && lo < close < hi <= |text| && text[lo] == '/' && text[close] == '/'
    && RegexState(text, lo + 1, close, false) == Some(false)
    && (forall i :: close < i < hi ==> WordChar(alphabet, text[i]))
    && (hi < |text| ==> !WordChar(alphabet, text[hi]))
  }

  /** The slash that closes an expression is the first outside a class, so nothing is read past it. */
  lemma RegexEndsAtItsClose(text: string, lo: nat, close: nat, at: nat)
    requires RegexState(text, lo, close, false) == Some(false) && close < at <= |text| && text[close] == '/'
    ensures RegexState(text, lo, at, false).None?
  {
    RegexGrows(text, lo, close, at, false);
  }

  /** An expression that is read to a place where it can go no further closes nowhere. */
  lemma NoSlashCloses(text: string, lo: nat, at: nat, close: nat)
    requires RegexState(text, lo, at, false).Some? && at <= |text|
    requires at == |text| || LineBreak(text[at]) || (at == |text| - 1 && text[at] == '\\')
    requires close < |text| && text[close] == '/'
    ensures RegexState(text, lo, close, false) != Some(false)
  {
    if RegexState(text, lo, close, false) == Some(false) {
      if close < at { RegexEndsAtItsClose(text, lo, close, at); } else { RegexGrows(text, lo, at, close, false); }
      assert false;
    }
  }

  /** Spans up to one place, and spans from there on: apart, and together within. */
  lemma WithinBoth(some: seq<Span>, others: seq<Span>, lo: nat, hi: nat)
    requires Within(some, 0, lo) && Within(others, lo, hi) && lo <= hi
    ensures Separate(some, others) && Within(some + others, 0, hi) && Extended(some, some + others, lo, hi)
  {
  }

  /** One more span, after the others and beyond every literal recorded. */
  lemma BeyondIsApart(recorded: seq<Span>, spans: seq<Span>, next: Span, lo: nat)
    requires Within(spans, lo, next.lo) && PairwiseApart(spans) && Separate(recorded, spans)
    requires Within(recorded, 0, next.lo) && lo <= next.lo <= next.hi
    ensures PairwiseApart(spans + [next]) && Separate(recorded, spans + [next]) && Within(spans + [next], lo, next.hi)
  {
    ApartTogether(spans, [next]);
  }

  /** Literals recorded inside an interpolation stay clear of the static text before it. */
  lemma SeparateStays(was: seq<Span>, now: seq<Span>, spans: seq<Span>, lo: nat, hi: nat, from: nat, to: nat)
    requires Separate(was, spans) && Within(spans, lo, hi) && hi <= from
    requires Extended(was, now, from, to)
    ensures Separate(now, spans)
  {
    forall i, j | 0 <= i < |now| && 0 <= j < |spans| ensures Apart(now[i], spans[j]) {
      if i < |was| { assert now[i] == now[..|was|][i]; } else { assert now[i] == now[|was|..][i - |was|]; }
    }
  }

  /** More spans than before, the new ones all from `lo` to `hi`. */
  ghost predicate Extended(was: seq<Span>, now: seq<Span>, lo: nat, hi: nat) {
    |was| <= |now| && now[..|was|] == was && Within(now[|was|..], lo, hi)
  }

  lemma ExtendedOn(was: seq<Span>, middle: seq<Span>, now: seq<Span>, lo: nat, mid: nat, from: nat, hi: nat)
    requires Extended(was, middle, lo, mid) && Extended(middle, now, from, hi) && lo <= from && mid <= hi
    ensures Extended(was, now, lo, hi)
  {
    assert now == middle + now[|middle|..];
    assert now[|was|..] == middle[|was|..] + now[|middle|..];
  }

  lemma ExtendedNot(was: seq<Span>, at: nat)
    ensures forall hi :: at <= hi ==> Extended(was, was, at, hi)
  {
  }

  lemma ExtendedFurther(was: seq<Span>, now: seq<Span>, lo: nat, mid: nat, hi: nat)
    requires Extended(was, now, lo, mid) && mid <= hi
    ensures Extended(was, now, lo, hi)
  {
  }

  lemma ExtendedBy(was: seq<Span>, more: seq<Span>, lo: nat, hi: nat)
    requires Within(more, lo, hi)
    ensures Extended(was, was + more, lo, hi)
  {
  }

  // ------------------------------------------------------------------------------------------
  // What is blanked.

  /** Why a stretch of the source is not code. */
  datatype Reason = LineComment | BlockComment | Quoted | Regex | TemplateText

  datatype Region = Region(reason: Reason, lo: nat, hi: nat)

  /** The stretch is what its reason says. */
  ghost predicate IsRegion(text: string, region: Region, alphabet: Alphabet) {
    && region.lo < region.hi <= |text|
    && match region.reason
       case LineComment =>
         && At(text, region.lo, "//") && (forall i :: region.lo <= i < region.hi ==> text[i] != '\n')
         && (region.hi == |text| || text[region.hi] == '\n')
       case BlockComment =>
         && At(text, region.lo, "/*") && At(text, region.hi - 2, "*/") && region.lo + 4 <= region.hi
         && (forall i :: region.lo + 2 <= i < region.hi - 2 ==> !At(text, i, "*/"))
       case Quoted =>
         region.lo + 2 <= region.hi && IsQuoted(text, Literal([Span(region.lo + 1, region.hi - 1)]))
       case Regex => exists close :: IsRegex(text, region.lo, close, region.hi, alphabet)
       case TemplateText =>
         RunsTo(text, region.lo, region.hi - 1, TemplateStops(text))
         && (text[region.hi - 1] == '`' || At(text, region.hi - 1, "${"))
  }

  /** The stretch is the backtick that opens a template, or one of its static texts with what ends it: `` ` `` or `$`. */
  predicate IsStretchOf(text: string, region: Region, open: nat, spans: seq<Span>) {
    && open < |text| && text[open] == '`'
    && (region == Region(TemplateText, open, open + 1)
        || exists j :: 0 <= j < |spans| && region == Region(TemplateText, spans[j].lo, spans[j].hi + 1))
  }

  /** The literal whose stretch it is: of a string, the whole of it with its quotes. */
  predicate IsPartOf(text: string, region: Region, literal: Literal) {
    match region.reason
    case Quoted => region.lo + 2 <= region.hi && literal.spans == [Span(region.lo + 1, region.hi - 1)]
    case TemplateText => literal.spans != [] && literal.spans[0].lo > 0
                         && IsStretchOf(text, region, literal.spans[0].lo - 1, literal.spans)
    case _ => false
  }

  /** A comment, a regular expression, or a stretch of a recorded literal. */
  ghost predicate IsAccounted(text: string, region: Region, literals: seq<Literal>) {
    || region.reason.LineComment? || region.reason.BlockComment? || region.reason.Regex?
    || exists k :: 0 <= k < |literals| && IsPartOf(text, region, literals[k])
  }

  /** The regions added since are accounted for. */
  ghost predicate Settled(text: string, was: seq<Region>, now: seq<Region>, literals: seq<Literal>) {
    was <= now && forall k :: |was| <= k < |now| ==> IsAccounted(text, now[k], literals)
  }

  /** Or they are stretches of the template half read from `open`. */
  ghost predicate SettledBut(text: string, was: seq<Region>, now: seq<Region>, literals: seq<Literal>, open: nat, spans: seq<Span>) {
    was <= now && forall k :: |was| <= k < |now| ==> IsAccounted(text, now[k], literals) || IsStretchOf(text, now[k], open, spans)
  }

  lemma AccountedStays(text: string, region: Region, literals: seq<Literal>, more: seq<Literal>)
    requires IsAccounted(text, region, literals) && literals <= more
    ensures IsAccounted(text, region, more)
  {
    if !(region.reason.LineComment? || region.reason.BlockComment? || region.reason.Regex?) {
      var k :| 0 <= k < |literals| && IsPartOf(text, region, literals[k]);
      assert more[k] == literals[k];
    }
  }

  lemma SettledNot(text: string, regions: seq<Region>, literals: seq<Literal>)
    ensures Settled(text, regions, regions, literals)
  {
  }

  lemma SettledOn(text: string, was: seq<Region>, middle: seq<Region>, now: seq<Region>, literals: seq<Literal>,
                  more: seq<Literal>)
    requires Settled(text, was, middle, literals) && Settled(text, middle, now, more) && literals <= more
    ensures Settled(text, was, now, more)
  {
    forall k | |was| <= k < |now| ensures IsAccounted(text, now[k], more) {
      if k < |middle| { AccountedStays(text, middle[k], literals, more); }
    }
  }

  lemma SettledButOn(text: string, was: seq<Region>, middle: seq<Region>, now: seq<Region>, literals: seq<Literal>,
                     more: seq<Literal>, open: nat, spans: seq<Span>)
    requires SettledBut(text, was, middle, literals, open, spans) && Settled(text, middle, now, more) && literals <= more
    ensures SettledBut(text, was, now, more, open, spans)
  {
    forall k | |was| <= k < |now| ensures IsAccounted(text, now[k], more) || IsStretchOf(text, now[k], open, spans) {
      if k < |middle| && IsAccounted(text, middle[k], literals) { AccountedStays(text, middle[k], literals, more); }
    }
  }

  lemma OneSettles(text: string, was: seq<Region>, region: Region, literals: seq<Literal>)
    requires IsAccounted(text, region, literals)
    ensures Settled(text, was, was + [region], literals)
  {
  }

  /** A template's opening backtick. */
  lemma OpeningSettles(text: string, was: seq<Region>, literals: seq<Literal>, open: nat)
    requires open < |text| && text[open] == '`'
    ensures SettledBut(text, was, was + [Region(TemplateText, open, open + 1)], literals, open, [])
  {
  }

  lemma StretchOfMore(text: string, region: Region, open: nat, spans: seq<Span>, next: Span)
    requires IsStretchOf(text, region, open, spans)
    ensures IsStretchOf(text, region, open, spans + [next])
  {
    if region != Region(TemplateText, open, open + 1) {
      var j :| 0 <= j < |spans| && region == Region(TemplateText, spans[j].lo, spans[j].hi + 1);
      assert (spans + [next])[j] == spans[j];
    }
  }

  /** One more static text of the template. */
  lemma StretchSettles(text: string, was: seq<Region>, now: seq<Region>, literals: seq<Literal>, open: nat, spans: seq<Span>,
                       next: Span)
    requires SettledBut(text, was, now, literals, open, spans) && open < |text| && text[open] == '`'
    ensures SettledBut(text, was, now + [Region(TemplateText, next.lo, next.hi + 1)], literals, open, spans + [next])
  {
    var more, after := spans + [next], now + [Region(TemplateText, next.lo, next.hi + 1)];
    forall k | |was| <= k < |after| ensures IsAccounted(text, after[k], literals) || IsStretchOf(text, after[k], open, more) {
      if k < |now| {
        if IsStretchOf(text, now[k], open, spans) { StretchOfMore(text, now[k], open, spans, next); }
      } else {
        assert more[|spans|] == next;
      }
    }
  }

  /** A template that closed accounts for its stretches. */
  lemma ClosingSettles(text: string, was: seq<Region>, now: seq<Region>, literals: seq<Literal>, open: nat, spans: seq<Span>)
    requires SettledBut(text, was, now, literals, open, spans) && spans != [] && spans[0].lo == open + 1
    ensures Settled(text, was, now, literals + [Literal(spans)])
  {
    var more := literals + [Literal(spans)];
    forall k | |was| <= k < |now| ensures IsAccounted(text, now[k], more) {
      if IsAccounted(text, now[k], literals) {
        AccountedStays(text, now[k], literals, more);
      } else {
        assert now[k].reason == TemplateText;
        assert IsPartOf(text, now[k], more[|literals|]);
      }
    }
  }

  predicate Covers(region: Region, i: int) {
    region.lo <= i < region.hi
  }

  predicate Covered(regions: seq<Region>, i: int) {
    exists k :: 0 <= k < |regions| && Covers(regions[k], i)
  }

  /** Every position of every span lies in a region. */
  ghost predicate SpansCovered(regions: seq<Region>, spans: seq<Span>) {
    forall k, i :: 0 <= k < |spans| && spans[k].lo <= i < spans[k].hi ==> Covered(regions, i)
  }

  lemma CoveredStays(was: seq<Region>, now: seq<Region>, spans: seq<Span>)
    requires was <= now && SpansCovered(was, spans)
    ensures SpansCovered(now, spans)
  {
    forall k, i | 0 <= k < |spans| && spans[k].lo <= i < spans[k].hi ensures Covered(now, i) {
      assert Covered(was, i);
      var r :| 0 <= r < |was| && Covers(was[r], i);
      assert Covers(now[r], i);
    }
  }

  /** A region covers the spans inside it. */
  lemma RegionCovers(regions: seq<Region>, region: Region, spans: seq<Span>)
    requires regions != [] && regions[|regions| - 1] == region && Within(spans, region.lo, region.hi)
    ensures SpansCovered(regions, spans)
  {
    forall k, i | 0 <= k < |spans| && spans[k].lo <= i < spans[k].hi ensures Covered(regions, i) {
      assert Covers(regions[|regions| - 1], i);
    }
  }

  lemma CoveredBoth(regions: seq<Region>, some: seq<Span>, others: seq<Span>)
    requires SpansCovered(regions, some) && SpansCovered(regions, others)
    ensures SpansCovered(regions, some + others)
  {
    forall k, i | 0 <= k < |some + others| && (some + others)[k].lo <= i < (some + others)[k].hi ensures Covered(regions, i) {
      if k < |some| { assert (some + others)[k] == some[k]; } else { assert (some + others)[k] == others[k - |some|]; }
    }
  }

  lemma CoveredByOneMore(regions: seq<Region>, region: Region, i: int)
    ensures Covered(regions + [region], i) <==> Covered(regions, i) || Covers(region, i)
  {
    if Covered(regions, i) {
      var k :| 0 <= k < |regions| && Covers(regions[k], i);
      assert (regions + [region])[k] == regions[k];
    }
    if Covers(region, i) { assert (regions + [region])[|regions|] == region; }
  }

  /** The regions stand one after another. */
  ghost predicate InOrder(regions: seq<Region>) {
    forall i, j :: 0 <= i < j < |regions| ==> regions[i].hi <= regions[j].lo
  }

  /** The structure is the source, blank in the regions but for its line breaks. */
  ghost predicate BlankedIn(text: string, structure: string, regions: seq<Region>) {
    && |structure| == |text|
    && forall i :: 0 <= i < |text| ==>
         structure[i] == if Covered(regions, i) && !LineBreak(text[i]) then ' ' else text[i]
  }

  lemma BlankedOneMore(text: string, before: string, after: string, regions: seq<Region>, region: Region)
    requires BlankedIn(text, before, regions) && |after| == |text| && region.hi <= |text|
    requires forall k :: 0 <= k < |text| ==>
               after[k] == if Covers(region, k) && !LineBreak(before[k]) then ' ' else before[k]
    ensures BlankedIn(text, after, regions + [region])
  {
    forall i | 0 <= i < |text|
      ensures after[i] == if Covered(regions + [region], i) && !LineBreak(text[i]) then ' ' else text[i]
    {
      CoveredByOneMore(regions, region, i);
    }
  }

  // ------------------------------------------------------------------------------------------
  // What is left visible.

  /** A string, a template or a comment opens here. */
  predicate Opener(text: string, i: nat) {
    i < |text| && (text[i] == '\'' || text[i] == '"' || text[i] == '`' || At(text, i, "//") || At(text, i, "/*"))
  }

  /** Nothing opens in what the regions leave visible. */
  ghost predicate Clear(text: string, regions: seq<Region>, lo: nat, hi: nat) {
    forall i :: lo <= i < hi && !Covered(regions, i) ==> !Opener(text, i)
  }

  lemma CoverGrows(was: seq<Region>, now: seq<Region>, i: int)
    requires was <= now && Covered(was, i)
    ensures Covered(now, i)
  {
    var k :| 0 <= k < |was| && Covers(was[k], i);
    assert Covers(now[k], i);
  }

  lemma ClearStays(text: string, was: seq<Region>, now: seq<Region>, lo: nat, hi: nat)
    requires was <= now && Clear(text, was, lo, hi)
    ensures Clear(text, now, lo, hi)
  {
    forall i | lo <= i < hi && !Covered(now, i) ensures !Opener(text, i) {
      if Covered(was, i) { CoverGrows(was, now, i); }
    }
  }

  /** What was clear stays so, and what comes after it is. */
  lemma ClearOn(text: string, was: seq<Region>, now: seq<Region>, lo: nat, mid: nat, hi: nat)
    requires was <= now && Clear(text, was, lo, mid) && Clear(text, now, mid, hi)
    ensures Clear(text, now, lo, hi)
  {
    ClearStays(text, was, now, lo, mid);
  }

  lemma RegionIsClear(text: string, regions: seq<Region>, region: Region)
    requires regions != [] && regions[|regions| - 1] == region
    ensures Clear(text, regions, region.lo, region.hi)
  {
    forall i | region.lo <= i < region.hi ensures Covered(regions, i) {
      assert Covers(regions[|regions| - 1], i);
    }
  }

  lemma ClearNot(text: string, regions: seq<Region>, at: nat)
    ensures Clear(text, regions, at, at)
  {
  }

  lemma TokenIsClear(text: string, regions: seq<Region>, lo: nat, hi: nat)
    requires forall i :: lo <= i < hi ==> !Opener(text, i)
    ensures Clear(text, regions, lo, hi)
  {
  }

  lemma PlainOpensNothing(text: string, i: nat)
    requires i < |text| && !Punctuation(text[i])
    ensures !Opener(text, i)
  {
    SlashOpens(text, i);
  }

  /** A comment opens with a slash. */
  lemma SlashOpens(text: string, i: nat)
    ensures At(text, i, "//") || At(text, i, "/*") ==> i < |text| && text[i] == '/'
  {
    if At(text, i, "//") || At(text, i, "/*") { assert text[i] == text[i..i + 2][0]; }
  }

  lemma OpensNothing(text: string, i: nat)
    requires i < |text| && text[i] != '\'' && text[i] != '"' && text[i] != '`' && !At(text, i, "//") && !At(text, i, "/*")
    ensures !Opener(text, i)
  {
  }

  /** The braces of an interpolation open nothing. */
  lemma HoleIsClear(text: string, was: seq<Region>, now: seq<Region>, start: nat, index: nat, close: nat)
    requires was <= now && start <= index && At(text, index, "${") && close < |text| && text[close] == '}'
    requires Clear(text, was, start, index + 1) && Clear(text, now, index + 2, close)
    ensures Clear(text, now, start, close + 1) && Clear(text, now, index + 2, close + 1)
  {
    ClearStays(text, was, now, start, index + 1);
    assert text[index + 1] == text[index..index + 2][1] == '{';
    SlashOpens(text, index + 1);
    SlashOpens(text, close);
  }

  // ------------------------------------------------------------------------------------------
  // Visible braces.

  function Brace(text: string, regions: seq<Region>, i: nat): int
    requires i < |text|
  {
    if Covered(regions, i) then 0 else if text[i] == '{' then 1 else if text[i] == '}' then -1 else 0
  }

  /** How many more visible braces open than close. */
  function Braces(text: string, regions: seq<Region>, lo: nat, hi: nat): int
    requires hi <= |text|
    decreases hi
  {
    if hi <= lo then 0 else Braces(text, regions, lo, hi - 1) + Brace(text, regions, hi - 1)
  }

  /** No brace closes that did not open. */
  ghost predicate NeverUnder(text: string, regions: seq<Region>, lo: nat, hi: nat) {
    hi <= |text| && forall k: nat :: lo <= k <= hi ==> Braces(text, regions, lo, k) >= 0
  }

  /** The visible braces are nested: each that opens closes, and no other closes. */
  ghost predicate Nested(text: string, regions: seq<Region>, lo: nat, hi: nat) {
    lo <= hi && NeverUnder(text, regions, lo, hi) && Braces(text, regions, lo, hi) == 0
  }

  /** The regions added since stand from `lo` on. */
  ghost predicate From(was: seq<Region>, now: seq<Region>, lo: nat) {
    was <= now && forall k :: |was| <= k < |now| ==> lo <= now[k].lo
  }

  lemma FromOn(was: seq<Region>, middle: seq<Region>, now: seq<Region>, lo: nat, mid: nat)
    requires From(was, middle, lo) && From(middle, now, mid) && lo <= mid
    ensures From(was, now, lo)
  {
  }

  lemma FromNot(regions: seq<Region>, lo: nat)
    ensures From(regions, regions, lo)
  {
  }

  lemma {:induction false} BracesAdd(text: string, regions: seq<Region>, lo: nat, mid: nat, hi: nat)
    requires lo <= mid <= hi <= |text|
    ensures Braces(text, regions, lo, hi) == Braces(text, regions, lo, mid) + Braces(text, regions, mid, hi)
    decreases hi
  {
    if mid < hi { BracesAdd(text, regions, lo, mid, hi - 1); }
  }

  /** Regions from `at` on change no brace before it. */
  lemma {:induction false} BracesStay(text: string, was: seq<Region>, now: seq<Region>, lo: nat, hi: nat, at: nat)
    requires From(was, now, at) && hi <= at && hi <= |text|
    ensures Braces(text, now, lo, hi) == Braces(text, was, lo, hi)
    decreases hi
  {
    if lo < hi {
      BracesStay(text, was, now, lo, hi - 1, at);
      if Covered(was, hi - 1) { CoverGrows(was, now, hi - 1); }
      if Covered(now, hi - 1) {
        var k :| 0 <= k < |now| && Covers(now[k], hi - 1);
        assert Covers(was[k], hi - 1);
      }
    }
  }

  lemma UnderStays(text: string, was: seq<Region>, now: seq<Region>, lo: nat, hi: nat, at: nat)
    requires From(was, now, at) && hi <= at && NeverUnder(text, was, lo, hi)
    ensures NeverUnder(text, now, lo, hi) && Braces(text, now, lo, hi) == Braces(text, was, lo, hi)
  {
    forall k: nat | lo <= k <= hi ensures Braces(text, now, lo, k) >= 0 {
      BracesStay(text, was, now, lo, k, at);
    }
    BracesStay(text, was, now, lo, hi, at);
  }

  /** What is nested on top of what never goes under does not either. */
  lemma UnderOn(text: string, regions: seq<Region>, lo: nat, mid: nat, hi: nat)
    requires lo <= mid && NeverUnder(text, regions, lo, mid) && Nested(text, regions, mid, hi)
    ensures NeverUnder(text, regions, lo, hi) && Braces(text, regions, lo, hi) == Braces(text, regions, lo, mid)
  {
    forall k: nat | lo <= k <= hi ensures Braces(text, regions, lo, k) >= 0 {
      if mid <= k { BracesAdd(text, regions, lo, mid, k); }
    }
    BracesAdd(text, regions, lo, mid, hi);
  }

  lemma NestedOn(text: string, was: seq<Region>, now: seq<Region>, lo: nat, mid: nat, hi: nat)
    requires From(was, now, mid) && Nested(text, was, lo, mid) && Nested(text, now, mid, hi)
    ensures Nested(text, now, lo, hi)
  {
    UnderStays(text, was, now, lo, mid, mid);
    UnderOn(text, now, lo, mid, hi);
  }

  lemma {:induction false} NoBraceIsNested(text: string, regions: seq<Region>, lo: nat, hi: nat)
    requires lo <= hi <= |text| && forall i :: lo <= i < hi ==> Brace(text, regions, i) == 0
    ensures Nested(text, regions, lo, hi)
    decreases hi
  {
    if lo < hi {
      NoBraceIsNested(text, regions, lo, hi - 1);
      forall k: nat | lo <= k <= hi ensures Braces(text, regions, lo, k) >= 0 {
        if k < hi { assert Braces(text, regions, lo, k) >= 0; }
      }
    }
  }

  lemma RegionIsNested(text: string, regions: seq<Region>, region: Region)
    requires regions != [] && regions[|regions| - 1] == region && region.lo <= region.hi <= |text|
    ensures Nested(text, regions, region.lo, region.hi)
  {
    forall i | region.lo <= i < region.hi ensures Brace(text, regions, i) == 0 {
      assert Covers(regions[|regions| - 1], i);
    }
    NoBraceIsNested(text, regions, region.lo, region.hi);
  }

  /** Nothing is covered from `at` on. */
  lemma VisibleFrom(regions: seq<Region>, at: nat, i: int)
    requires (forall k :: 0 <= k < |regions| ==> regions[k].hi <= at) && at <= i
    ensures !Covered(regions, i)
  {
  }

  lemma NotUnderYet(text: string, regions: seq<Region>, at: nat)
    requires at <= |text|
    ensures NeverUnder(text, regions, at, at) && Braces(text, regions, at, at) == 0
  {
  }

  lemma NestedByNow(text: string, regions: seq<Region>, lo: nat, hi: nat)
    requires lo <= hi && NeverUnder(text, regions, lo, hi) && Braces(text, regions, lo, hi) == 0
    ensures Nested(text, regions, lo, hi)
  {
  }

  lemma OneIsCounted(text: string, regions: seq<Region>, start: nat, index: nat, depth: nat, next: nat)
    requires start <= index < |text| && (forall k :: 0 <= k < |regions| ==> regions[k].hi <= index)
    requires NeverUnder(text, regions, start, index) && Braces(text, regions, start, index) == depth
    requires !(text[index] == '}' && depth == 0)
    requires next == if text[index] == '{' then depth + 1 else if text[index] == '}' && depth > 0 then depth - 1 else depth
    ensures NeverUnder(text, regions, start, index + 1) && Braces(text, regions, start, index + 1) == next
  {
    VisibleFrom(regions, index, index);
  }

  lemma ManyAreVisible(text: string, regions: seq<Region>, index: nat, after: nat)
    requires index < after <= |text| && forall i :: index < i < after ==> text[i] != '{' && text[i] != '}'
    ensures forall i :: index + 1 <= i < after ==> Brace(text, regions, i) == 0
  {
  }

  /** A token's own brace is counted, and it holds no other. */
  lemma TokenIsCounted(text: string, regions: seq<Region>, start: nat, index: nat, after: nat, depth: nat, next: nat)
    requires start <= index < after <= |text| && (forall k :: 0 <= k < |regions| ==> regions[k].hi <= index)
    requires forall i :: index < i < after ==> text[i] != '{' && text[i] != '}'
    requires NeverUnder(text, regions, start, index) && Braces(text, regions, start, index) == depth
    requires !(text[index] == '}' && depth == 0)
    requires next == if text[index] == '{' then depth + 1 else if text[index] == '}' && depth > 0 then depth - 1 else depth
    ensures NeverUnder(text, regions, start, after) && Braces(text, regions, start, after) == next
  {
    hide Braces, Covered;
    OneIsCounted(text, regions, start, index, depth, next);
    ManyAreVisible(text, regions, index, after);
    NoBraceIsNested(text, regions, index + 1, after);
    UnderOn(text, regions, start, index + 1, after);
  }

  lemma NestedIsCounted(text: string, was: seq<Region>, now: seq<Region>, start: nat, index: nat, next: nat)
    requires From(was, now, index) && start <= index && NeverUnder(text, was, start, index) && Nested(text, now, index, next)
    ensures NeverUnder(text, now, start, next) && Braces(text, now, start, next) == Braces(text, was, start, index)
  {
    UnderStays(text, was, now, start, index, index);
    UnderOn(text, now, start, index, next);
  }

  /** An interpolation: its braces around code whose braces are nested. */
  lemma HoleIsNested(text: string, was: seq<Region>, now: seq<Region>, start: nat, index: nat, close: nat)
    requires From(was, now, index + 2) && start <= index && index + 2 <= close < |text| && text[index + 1] == '{' && text[close] == '}'
    requires (forall k :: 0 <= k < |was| ==> was[k].hi <= index + 1) && (forall k :: 0 <= k < |now| ==> now[k].hi <= close)
    requires Nested(text, was, start, index + 1) && Nested(text, now, index + 2, close)
    ensures Nested(text, now, start, close + 1)
  {
    VisibleFrom(was, index + 1, index + 1);
    BracesStay(text, was, now, index + 1, index + 2, index + 2);
    assert Braces(text, was, index + 1, index + 2) == Braces(text, was, index + 1, index + 1) + Brace(text, was, index + 1) == 1;
    UnderStays(text, was, now, start, index + 1, index + 2);
    BracesAdd(text, now, start, index + 1, index + 2);
    assert NeverUnder(text, now, start, index + 2);
    UnderOn(text, now, start, index + 2, close);
    VisibleFrom(now, close, close);
    assert Braces(text, now, start, close + 1) == Braces(text, now, start, close) + Brace(text, now, close) == 0;
  }

  /** Between every two spans the code's visible braces are nested, so the interpolation ends at its own brace. */
  ghost predicate HolesClosed(text: string, regions: seq<Region>, spans: seq<Span>) {
    |spans| > 1 ==>
      && spans[|spans| - 1].lo > 0
      && Nested(text, regions, spans[|spans| - 2].hi + 2, spans[|spans| - 1].lo - 1)
      && HolesClosed(text, regions, spans[..|spans| - 1])
  }

  lemma {:induction false} HolesStay(text: string, was: seq<Region>, now: seq<Region>, spans: seq<Span>, at: nat)
    requires From(was, now, at) && Within(spans, 0, at) && HolesClosed(text, was, spans)
    ensures HolesClosed(text, now, spans)
  {
    if |spans| > 1 {
      UnderStays(text, was, now, spans[|spans| - 2].hi + 2, spans[|spans| - 1].lo - 1, at);
      HolesStay(text, was, now, spans[..|spans| - 1], at);
    }
  }

  /** Where the last span ends is nothing to the holes before it. */
  lemma LastSpanEnds(text: string, regions: seq<Region>, spans: seq<Span>, from: nat, one: nat, other: nat)
    requires HolesClosed(text, regions, spans + [Span(from, one)])
    ensures HolesClosed(text, regions, spans + [Span(from, other)])
  {
    var some, others := spans + [Span(from, one)], spans + [Span(from, other)];
    assert some[..|spans|] == spans == others[..|spans|];
  }

  lemma OneMoreHole(text: string, regions: seq<Region>, spans: seq<Span>, next: nat)
    requires spans != [] && next > 0 && HolesClosed(text, regions, spans)
    requires Nested(text, regions, spans[|spans| - 1].hi + 2, next - 1)
    ensures HolesClosed(text, regions, spans + [Span(next, next)])
  {
    assert (spans + [Span(next, next)])[..|spans|] == spans;
  }

  lemma {:induction false} LiteralIsWithin(literals: seq<Literal>, k: nat, lo: nat, hi: nat)
    requires k < |literals| && Within(AllSpans(literals), lo, hi)
    ensures Within(literals[k].spans, lo, hi)
    decreases |literals|
  {
    var spans, last := AllSpans(literals[..|literals| - 1]), literals[|literals| - 1].spans;
    if k < |literals| - 1 {
      forall j | 0 <= j < |spans| ensures lo <= spans[j].lo <= spans[j].hi <= hi {
        assert AllSpans(literals)[j] == spans[j];
      }
      LiteralIsWithin(literals[..|literals| - 1], k, lo, hi);
    } else {
      forall j | 0 <= j < |last| ensures lo <= last[j].lo <= last[j].hi <= hi {
        assert AllSpans(literals)[|spans| + j] == last[j];
      }
    }
  }

  /** The stretch that follows the last hole leaves every hole as it was. */
  lemma StretchHoles(text: string, was: seq<Region>, now: seq<Region>, spans: seq<Span>, from: nat, index: nat)
    requires From(was, now, from) && Within(spans, 0, from) && HolesClosed(text, was, spans + [Span(from, from)])
    ensures HolesClosed(text, now, spans + [Span(from, index)])
  {
    HolesStay(text, was, now, spans + [Span(from, from)], from);
    LastSpanEnds(text, now, spans, from, from, index);
  }

  lemma NoHoles(text: string, regions: seq<Region>, at: nat)
    ensures HolesClosed(text, regions, [] + [Span(at, at)])
  {
  }

  lemma AllHolesStay(text: string, was: seq<Region>, now: seq<Region>, literals: seq<Literal>, at: nat)
    requires From(was, now, at) && Within(AllSpans(literals), 0, at)
    requires forall k :: 0 <= k < |literals| ==> HolesClosed(text, was, literals[k].spans)
    ensures forall k :: 0 <= k < |literals| ==> HolesClosed(text, now, literals[k].spans)
  {
    forall k | 0 <= k < |literals| ensures HolesClosed(text, now, literals[k].spans) {
      LiteralIsWithin(literals, k, 0, at);
      HolesStay(text, was, now, literals[k].spans, at);
    }
  }

  // ------------------------------------------------------------------------------------------
  // Where an expression may begin.

  /** What the source is read as, in order: tokens that stay visible, and regions. */
  datatype Item = Shown(lo: nat, hi: nat) | Hidden(region: Region)

  /** What stands after an operator or an opener is an expression, and what stands after an operand is not. */
  datatype Role = Operator | Operand | Neither

  predicate StartsWord(alphabet: Alphabet, c: char) {
    alphabet.isAlpha(c) || c == '_' || c == '$'
  }

  /** A word that an expression follows. */
  predicate IsPrefixWord(word: string) {
    || word == "await" || word == "case" || word == "delete" || word == "else" || word == "in" || word == "instanceof"
    || word == "new" || word == "of" || word == "return" || word == "throw" || word == "typeof" || word == "void"
    || word == "yield"
  }

  /** Two plus signs or two minus signs. */
  predicate IsIncrement(text: string, lo: nat) {
    At(text, lo, "++") || At(text, lo, "--")
  }

  /** Each sign starts with its own character. */
  lemma SignsStart(text: string, i: nat)
    ensures At(text, i, "++") ==> i < |text| && text[i] == '+'
    ensures At(text, i, "--") ==> i < |text| && text[i] == '-'
  {
    if At(text, i, "++") || At(text, i, "--") { assert text[i] == text[i..i + 2][0]; }
  }

  lemma NotEqualStarts(text: string, i: nat)
    requires At(text, i, "!=") || At(text, i, "!==")
    ensures i + 1 < |text| && text[i] == '!' && text[i + 1] == '=' && At(text, i, "!=")
    ensures At(text, i, "!==") ==> i + 2 < |text| && text[i + 2] == '='
  {
    if At(text, i, "!==") {
      assert text[i] == text[i..i + 3][0] && text[i + 1] == text[i..i + 3][1] && text[i + 2] == text[i..i + 3][2];
      assert text[i..i + 2] == text[i..i + 3][..2] == "!=";
    } else {
      assert text[i] == text[i..i + 2][0] && text[i + 1] == text[i..i + 2][1];
    }
  }

  /** All the characters from `lo` to `hi` after the first, and no more, are of one kind. */
  predicate IsRun(text: string, lo: nat, hi: nat, more: char -> bool) {
    && lo < hi <= |text| && (forall i :: lo < i < hi ==> more(text[i]))
    && (hi < |text| ==> !more(text[hi]))
  }

  /** The longest token that starts at `lo` ends at `hi`. */
  predicate IsToken(text: string, lo: nat, hi: nat, alphabet: Alphabet) {
    && lo < hi <= |text|
    && var c := text[lo];
      if IsIncrement(text, lo) then hi == lo + 2
      else if c == '!' then hi == lo + if At(text, lo, "!==") then 3 else if At(text, lo, "!=") then 2 else 1
      else if c == '/' then hi == lo + if At(text, lo, "/=") then 2 else 1
      else if alphabet.isSpace(c) then hi == lo + 1
      else if StartsWord(alphabet, c) then IsRun(text, lo, hi, x => WordChar(alphabet, x))
      else if alphabet.isDigit(c) then IsRun(text, lo, hi, x => alphabet.isAlnum(x) || x == '.' || x == '_')
      else hi == lo + 1
  }

  /**
   * Increments and a `!` alone are neither, since they stand on either side of an operand; a
   * word is an operand but for those an expression follows, and so is a number, a string, a
   * template or a regular expression; and a comment is nothing.
   */
  function RoleOf(text: string, item: Item, alphabet: Alphabet): Role {
    match item
    case Hidden(region) => if region.reason.LineComment? || region.reason.BlockComment? then Neither else Operand
    case Shown(lo, hi) =>
      if !(lo < hi <= |text|) || IsIncrement(text, lo) then Neither
      else if text[lo] == '!' then if At(text, lo, "!=") then Operator else Neither
      else if text[lo] == '/' then Operator
      else if alphabet.isSpace(text[lo]) then Neither
      else if StartsWord(alphabet, text[lo]) then if IsPrefixWord(text[lo..hi]) then Operator else Operand
      else if alphabet.isDigit(text[lo]) then Operand
      else if text[lo] in "{([,:;=?&|+-*%^~<>." then Operator
      else if text[lo] in "})]" then Operand
      else Neither
  }

  /** An expression may begin after these: the last of them that is an operator or an operand is an operator, or there is none. */
  predicate Expects(text: string, items: seq<Item>, alphabet: Alphabet) {
    items == []
    || (var role := RoleOf(text, items[|items| - 1], alphabet);
        role.Operator? || (role.Neither? && Expects(text, items[..|items| - 1], alphabet)))
  }

  function EndOf(items: seq<Item>): nat {
    if items == [] then 0
    else match items[|items| - 1] case Shown(_, hi) => hi case Hidden(region) => region.hi
  }

  function RegionsOf(items: seq<Item>): seq<Region> {
    if items == [] then []
    else
      RegionsOf(items[..|items| - 1])
      + match items[|items| - 1] case Shown(_, _) => [] case Hidden(region) => [region]
  }

  /** A regular expression stands where an expression may begin, and a slash that stays visible where none may. */
  predicate StandsAfter(text: string, items: seq<Item>, item: Item, alphabet: Alphabet) {
    match item
    case Shown(lo, hi) => lo == EndOf(items) && IsToken(text, lo, hi, alphabet) && (text[lo] == '/' ==> !Expects(text, items, alphabet))
    case Hidden(region) => region.lo == EndOf(items) && (region.reason.Regex? ==> Expects(text, items, alphabet))
  }

  /** The items stand end to end from the start of the source, each where it may. */
  predicate IsReading(text: string, items: seq<Item>, alphabet: Alphabet) {
    items != [] ==>
      && IsReading(text, items[..|items| - 1], alphabet)
      && StandsAfter(text, items[..|items| - 1], items[|items| - 1], alphabet)
  }

  lemma OneMoreItem(text: string, items: seq<Item>, item: Item, alphabet: Alphabet)
    requires IsReading(text, items, alphabet) && StandsAfter(text, items, item, alphabet)
    ensures IsReading(text, items + [item], alphabet) && EndOf(items + [item]) == EndOf([item])
    ensures RegionsOf(items + [item]) == RegionsOf(items) + if item.Hidden? then [item.region] else []
    ensures Expects(text, items + [item], alphabet) <==>
      RoleOf(text, item, alphabet).Operator? || (RoleOf(text, item, alphabet).Neither? && Expects(text, items, alphabet))
  {
    assert (items + [item])[..|items|] == items;
  }

  /** The items that end by `at`. */
  function ItemsTo(items: seq<Item>, at: nat): seq<Item> {
    if items == [] || EndOf(items) <= at then items else ItemsTo(items[..|items| - 1], at)
  }

  /** An expression may begin at this place. */
  predicate ExpectsAt(text: string, items: seq<Item>, at: nat, alphabet: Alphabet) {
    Expects(text, ItemsTo(items, at), alphabet)
  }

  /** No region is empty. */
  ghost predicate NoneEmpty(regions: seq<Region>) {
    forall k :: 0 <= k < |regions| ==> regions[k].lo < regions[k].hi
  }

  lemma FrontRegions(items: seq<Item>)
    requires items != []
    ensures var front := RegionsOf(items[..|items| - 1]);
      front <= RegionsOf(items) && |RegionsOf(items)| <= |front| + 1
      && (|RegionsOf(items)| == |front| + 1 ==>
            items[|items| - 1].Hidden? && RegionsOf(items)[|front|] == items[|items| - 1].region)
      && (items[|items| - 1].Hidden? ==> |RegionsOf(items)| == |front| + 1)
  {
  }

  /** Each item ends after those before it. */
  lemma EndsLater(text: string, items: seq<Item>, alphabet: Alphabet)
    requires items != [] && IsReading(text, items, alphabet) && NoneEmpty(RegionsOf(items))
    ensures EndOf(items[..|items| - 1]) < EndOf(items) && NoneEmpty(RegionsOf(items[..|items| - 1]))
  {
    hide IsToken, Expects;
    FrontRegions(items);
    var last := items[|items| - 1];
    if last.Hidden? {
      assert RegionsOf(items)[|RegionsOf(items)| - 1] == last.region;
    } else {
      assert last.lo < last.hi by { TokenIsSome(text, last.lo, last.hi, alphabet); }
    }
  }

  lemma TokenIsSome(text: string, lo: nat, hi: nat, alphabet: Alphabet)
    requires IsToken(text, lo, hi, alphabet)
    ensures lo < hi <= |text|
  {
  }

  /** A regular expression of a reading stands where an expression may begin. */
  lemma {:induction false} RegexIsExpected(text: string, items: seq<Item>, k: nat, alphabet: Alphabet)
    requires IsReading(text, items, alphabet) && NoneEmpty(RegionsOf(items))
    requires k < |RegionsOf(items)| && RegionsOf(items)[k].reason.Regex?
    ensures RegionsOf(items)[k].hi <= EndOf(items) && ExpectsAt(text, items, RegionsOf(items)[k].lo, alphabet)
    decreases |items|
  {
    hide IsToken, Expects;
    var front, region := items[..|items| - 1], RegionsOf(items)[k];
    FrontRegions(items);
    EndsLater(text, items, alphabet);
    if k < |RegionsOf(front)| {
      RegexIsExpected(text, front, k, alphabet);
    } else {
      assert ItemsTo(items, region.lo) == ItemsTo(front, region.lo) == front;
    }
  }

  /** A slash in a token is its first character. */
  lemma SlashStartsItsToken(text: string, lo: nat, hi: nat, i: nat, alphabet: Alphabet)
    requires IsToken(text, lo, hi, alphabet) && lo <= i < hi && text[i] == '/'
    ensures i == lo
  {
    hide At;
    if i > lo {
      TwoSigns(text, lo);
      assert !WordChar(alphabet, '/') && !alphabet.isAlnum('/') by { assert Punctuation('/'); }
    }
  }

  lemma TwoSigns(text: string, i: nat)
    ensures IsIncrement(text, i) ==> i + 1 < |text| && (text[i + 1] == '+' || text[i + 1] == '-')
    ensures At(text, i, "!=") ==> i + 1 < |text| && text[i + 1] == '='
    ensures At(text, i, "!==") ==> i + 2 < |text| && text[i + 1] == '=' && text[i + 2] == '='
    ensures At(text, i, "/=") ==> i + 1 < |text| && text[i + 1] == '='
  {
    if At(text, i, "!==") || At(text, i, "!=") { NotEqualStarts(text, i); }
    if IsIncrement(text, i) || At(text, i, "/=") { assert text[i + 1] == text[i..i + 2][1]; }
  }

  /** A slash that stays visible stands where no expression may begin. */
  lemma {:induction false} SlashDivides(text: string, items: seq<Item>, i: nat, alphabet: Alphabet)
    requires IsReading(text, items, alphabet) && NoneEmpty(RegionsOf(items)) && i < EndOf(items) && i < |text|
    requires text[i] == '/' && !Covered(RegionsOf(items), i)
    ensures !ExpectsAt(text, items, i, alphabet)
    decreases |items|
  {
    hide IsToken, Expects;
    var front, last := items[..|items| - 1], items[|items| - 1];
    FrontRegions(items);
    EndsLater(text, items, alphabet);
    if Covered(RegionsOf(front), i) { CoverGrows(RegionsOf(front), RegionsOf(items), i); }
    if i < EndOf(front) {
      SlashDivides(text, front, i, alphabet);
    } else if last.Shown? {
      SlashStartsItsToken(text, last.lo, last.hi, i, alphabet);
      assert ItemsTo(items, i) == ItemsTo(front, i) == front;
    } else {
      assert false;
    }
  }

  // ------------------------------------------------------------------------------------------
  // What a text is read as.

  /** A template whose interpolation is being read: so many braces are open in it, and these static texts came before. */
  datatype Hole = Hole(depth: nat, spans: seq<Span>)

  /**
   * Where a reading stands, and the literals it has met: in code, in the static text of a
   * template, or between the `$` and the brace of an interpolation. The holes it stands in are
   * listed outermost first.
   */
  datatype Mode =
    | InCode(holes: seq<Hole>, literals: seq<Literal>)
    | InText(spans: seq<Span>, holes: seq<Hole>, literals: seq<Literal>)
    | AtBrace(spans: seq<Span>, holes: seq<Hole>, literals: seq<Literal>)

  function StartOf(item: Item): nat {
    match item case Shown(lo, _) => lo case Hidden(region) => region.lo
  }

  /** One token more. A brace counts only in an interpolation, and the one that has no partner there ends it. */
  function AfterToken(text: string, mode: Mode, lo: nat): Mode
    requires mode.InCode? && lo < |text|
  {
    if mode.holes == [] then mode
    else
      var outer, hole := mode.holes[..|mode.holes| - 1], mode.holes[|mode.holes| - 1];
      if text[lo] == '{' then InCode(outer + [Hole(hole.depth + 1, hole.spans)], mode.literals)
      else if text[lo] != '}' then mode
      else if hole.depth > 0 then InCode(outer + [Hole(hole.depth - 1, hole.spans)], mode.literals)
      else InText(hole.spans, outer, mode.literals)
  }

  /** A region of code: a comment, a string, the backtick that opens a template, or a regular expression where one may begin. */
  ghost predicate IsHiddenCode(text: string, region: Region, expects: bool, alphabet: Alphabet) {
    match region.reason
    case TemplateText => region.hi == region.lo + 1 && region.lo < |text| && text[region.lo] == '`'
    case Regex => IsRegion(text, region, alphabet) && expects && !At(text, region.lo, "//") && !At(text, region.lo, "/*")
    case _ => IsRegion(text, region, alphabet)
  }

  function AfterHidden(mode: Mode, region: Region): Mode
    requires mode.InCode?
  {
    if region.reason.TemplateText? then InText([], mode.holes, mode.literals)
    else if region.reason.Quoted? && region.lo + 2 <= region.hi
    then InCode(mode.holes, mode.literals + [Literal([Span(region.lo + 1, region.hi - 1)])])
    else mode
  }

  /** Where the item leaves a reading, if it may come there at all. */
  ghost function Then(text: string, mode: Mode, expects: bool, item: Item, alphabet: Alphabet): Option<Mode> {
    match mode
    case InCode(_, _) =>
      (match item
       case Shown(lo, hi) =>
         if IsToken(text, lo, hi, alphabet) && !Opener(text, lo) && !(text[lo] == '/' && expects)
         then Some(AfterToken(text, mode, lo)) else None
       case Hidden(region) =>
         if IsHiddenCode(text, region, expects, alphabet) then Some(AfterHidden(mode, region)) else None)
    case InText(spans, holes, literals) =>
      if item.Hidden? && item.region.reason.TemplateText? && IsRegion(text, item.region, alphabet)
      then
        var more := spans + [Span(item.region.lo, item.region.hi - 1)];
        Some(if text[item.region.hi - 1] == '`' then InCode(holes, literals + [Literal(more)]) else AtBrace(more, holes, literals))
      else None
    case AtBrace(spans, holes, literals) =>
      if item.Shown? && item.hi == item.lo + 1 && item.lo < |text| && text[item.lo] == '{'
      then Some(InCode(holes + [Hole(0, spans)], literals)) else None
  }

  /** Where the items, one after another from the start of the text, leave its reading. */
  ghost function ModeOf(text: string, items: seq<Item>, alphabet: Alphabet): Option<Mode> {
    if items == [] then Some(InCode([], []))
    else
      var front, item := items[..|items| - 1], items[|items| - 1];
      var mode := ModeOf(text, front, alphabet);
      if mode.None? || StartOf(item) != EndOf(front) then None
      else Then(text, mode.value, Expects(text, front, alphabet), item, alphabet)
  }

  /** The items read all of the text, and it ends in code outside every template. */
  ghost predicate IsWhole(text: string, items: seq<Item>, literals: seq<Literal>, alphabet: Alphabet) {
    ModeOf(text, items, alphabet) == Some(InCode([], literals)) && EndOf(items) == |text|
  }

  /** Something opens in code at `at` that never closes: a string, a comment, a regular expression, or the interpolation itself. */
  ghost predicate OpensForever(text: string, at: nat, holes: seq<Hole>, expects: bool, alphabet: Alphabet) {
    || (at < |text| && (text[at] == '\'' || text[at] == '"') && forall hi :: !ClosesAt(text, at, hi))
    || (At(text, at, "/*") && forall i :: at + 2 <= i ==> !At(text, i, "*/"))
    || (at < |text| && text[at] == '/' && expects && !At(text, at, "//") && !At(text, at, "/*")
        && forall close, hi :: !IsRegex(text, at, close, hi, alphabet))
    || (at == |text| && holes != [])
  }

  /** The items read the text up to a place where it opens something that never closes. */
  ghost predicate IsStuck(text: string, items: seq<Item>, alphabet: Alphabet) {
    var at := EndOf(items);
    match ModeOf(text, items, alphabet)
    case None => false
    case Some(mode) =>
      match mode
      case InCode(holes, _) => OpensForever(text, at, holes, Expects(text, items, alphabet), alphabet)
      case InText(_, _, _) => forall hi :: at <= hi ==> !IsRegion(text, Region(TemplateText, at, hi), alphabet)
      case AtBrace(_, _, _) => false
  }

  /** The holes, with so many braces open in the innermost. */
  function Deep(holes: seq<Hole>, depth: nat): seq<Hole> {
    if holes == [] then [] else holes[..|holes| - 1] + [Hole(depth, holes[|holes| - 1].spans)]
  }

  lemma ReadsOne(text: string, items: seq<Item>, item: Item, alphabet: Alphabet)
    requires ModeOf(text, items, alphabet).Some? && StartOf(item) == EndOf(items)
    ensures ModeOf(text, items + [item], alphabet)
         == Then(text, ModeOf(text, items, alphabet).value, Expects(text, items, alphabet), item, alphabet)
  {
    assert (items + [item])[..|items|] == items;
  }

  // ------------------------------------------------------------------------------------------
  // There is one reading.

  lemma OneRun(text: string, lo: nat, hi: nat, other: nat, more: char -> bool)
    requires IsRun(text, lo, hi, more) && IsRun(text, lo, other, more)
    ensures hi == other
  {
  }

  lemma OneToken(text: string, lo: nat, hi: nat, other: nat, alphabet: Alphabet)
    requires IsToken(text, lo, hi, alphabet) && IsToken(text, lo, other, alphabet)
    ensures hi == other
  {
    hide At, IsRun, WordChar, StartsWord;
    var c := text[lo];
    if IsRun(text, lo, hi, x => WordChar(alphabet, x)) && IsRun(text, lo, other, x => WordChar(alphabet, x)) {
      OneRun(text, lo, hi, other, x => WordChar(alphabet, x));
    }
    if IsRun(text, lo, hi, x => alphabet.isAlnum(x) || x == '.' || x == '_')
       && IsRun(text, lo, other, x => alphabet.isAlnum(x) || x == '.' || x == '_') {
      OneRun(text, lo, hi, other, x => alphabet.isAlnum(x) || x == '.' || x == '_');
    }
  }

  /** A string ends at the first quote, and a template's static text at the first stop. */
  lemma OneStop(text: string, lo: nat, hi: nat, other: nat, stops: nat -> bool)
    requires RunsTo(text, lo, hi, stops) && hi < |text| && stops(hi) && text[hi] != '\\'
    requires RunsTo(text, lo, other, stops) && other < |text| && stops(other) && text[other] != '\\'
    ensures hi == other
  {
    if hi != other { RunsPastNoStop(text, lo, hi, other, stops); }
  }

  lemma OneString(text: string, lo: nat, hi: nat, other: nat)
    requires ClosesAt(text, lo, hi) && ClosesAt(text, lo, other)
    ensures hi == other
  {
    OneStop(text, lo + 1, hi, other, QuoteStops(text, text[lo]));
  }

  lemma OneText(text: string, lo: nat, hi: nat, other: nat, alphabet: Alphabet)
    requires IsRegion(text, Region(TemplateText, lo, hi), alphabet) && IsRegion(text, Region(TemplateText, lo, other), alphabet)
    ensures hi == other
  {
    TextStops(text, lo, hi, alphabet);
    TextStops(text, lo, other, alphabet);
    OneStop(text, lo, hi - 1, other - 1, TemplateStops(text));
  }

  lemma TextStops(text: string, lo: nat, hi: nat, alphabet: Alphabet)
    requires IsRegion(text, Region(TemplateText, lo, hi), alphabet)
    ensures lo < hi <= |text| && RunsTo(text, lo, hi - 1, TemplateStops(text)) && TemplateStops(text)(hi - 1)
    ensures text[hi - 1] != '\\'
  {
    if At(text, hi - 1, "${") { assert text[hi - 1] == text[hi - 1..hi - 1 + 2][0]; }
  }

  lemma OneRegex(text: string, lo: nat, close: nat, hi: nat, second: nat, other: nat, alphabet: Alphabet)
    requires IsRegex(text, lo, close, hi, alphabet) && IsRegex(text, lo, second, other, alphabet)
    ensures close == second && hi == other
  {
    hide WordChar;
    if close < second { RegexEndsAtItsClose(text, lo + 1, close, second); }
    if second < close { RegexEndsAtItsClose(text, lo + 1, second, close); }
  }

  lemma OneComment(text: string, region: Region, other: Region, alphabet: Alphabet)
    requires IsRegion(text, region, alphabet) && IsRegion(text, other, alphabet) && region.lo == other.lo
    requires region.reason == other.reason && (region.reason.LineComment? || region.reason.BlockComment?)
    ensures region == other
  {
    hide At;
  }

  /** What the first characters of a region are. */
  lemma RegionOpens(text: string, region: Region, expects: bool, alphabet: Alphabet)
    requires IsHiddenCode(text, region, expects, alphabet)
    ensures region.lo < region.hi <= |text|
    ensures region.reason.LineComment? ==> At(text, region.lo, "//") && text[region.lo] == '/'
    ensures region.reason.BlockComment? ==> At(text, region.lo, "/*") && text[region.lo] == '/' && !At(text, region.lo, "//")
    ensures region.reason.Quoted? ==>
      (text[region.lo] == '\'' || text[region.lo] == '"') && region.lo + 2 <= region.hi && ClosesAt(text, region.lo, region.hi - 1)
    ensures region.reason.Regex? ==>
      text[region.lo] == '/' && expects && !At(text, region.lo, "//") && !At(text, region.lo, "/*")
    ensures region.reason.TemplateText? ==> text[region.lo] == '`' && region.hi == region.lo + 1
    ensures !region.reason.Regex? ==> Opener(text, region.lo)
  {
    if region.reason.LineComment? || region.reason.BlockComment? { SlashOpens(text, region.lo); }
    if region.reason.BlockComment? { assert text[region.lo..region.lo + 2][1] == '*'; }
  }

  lemma OneRegion(text: string, region: Region, other: Region, expects: bool, alphabet: Alphabet)
    requires IsHiddenCode(text, region, expects, alphabet) && IsHiddenCode(text, other, expects, alphabet)
    requires region.lo == other.lo
    ensures region == other
  {
    hide Opener, At;
    RegionOpens(text, region, expects, alphabet);
    RegionOpens(text, other, expects, alphabet);
    SlashOpens(text, region.lo);
    assert region.reason == other.reason;
    match region.reason
    case LineComment => OneComment(text, region, other, alphabet);
    case BlockComment => OneComment(text, region, other, alphabet);
    case Quoted => OneString(text, region.lo, region.hi - 1, other.hi - 1);
    case Regex =>
      var close :| IsRegex(text, region.lo, close, region.hi, alphabet);
      var second :| IsRegex(text, other.lo, second, other.hi, alphabet);
      OneRegex(text, region.lo, close, region.hi, second, other.hi, alphabet);
    case TemplateText =>
  }

  /** What may come next is one thing. */
  lemma OneItem(text: string, mode: Mode, expects: bool, item: Item, other: Item, alphabet: Alphabet)
    requires Then(text, mode, expects, item, alphabet).Some? && Then(text, mode, expects, other, alphabet).Some?
    requires StartOf(item) == StartOf(other)
    ensures item == other
  {
    hide IsRegion, IsToken, IsHiddenCode, AfterToken, AfterHidden, Opener, At;
    if mode.InText? {
      OneText(text, item.region.lo, item.region.hi, other.region.hi, alphabet);
    } else if mode.InCode? {
      if item.Shown? && other.Shown? {
        OneToken(text, item.lo, item.hi, other.hi, alphabet);
      } else if item.Hidden? && other.Hidden? {
        OneRegion(text, item.region, other.region, expects, alphabet);
      } else {
        RegionOpens(text, if item.Hidden? then item.region else other.region, expects, alphabet);
        assert false;
      }
    }
  }

  /** Of two readings of a text the shorter is where the longer began. */
  lemma {:induction false} OneReading(text: string, some: seq<Item>, more: seq<Item>, alphabet: Alphabet)
    requires ModeOf(text, some, alphabet).Some? && ModeOf(text, more, alphabet).Some? && |some| <= |more|
    ensures some <= more
    decreases |more|
  {
    hide Then, Expects;
    if |some| < |more| {
      OneReading(text, some, more[..|more| - 1], alphabet);
    } else if some != [] {
      var front := some[..|some| - 1];
      OneReading(text, front, more[..|more| - 1], alphabet);
      assert front == more[..|more| - 1];
      OneItem(text, ModeOf(text, front, alphabet).value, Expects(text, front, alphabet), some[|some| - 1], more[|more| - 1], alphabet);
      assert some == front + [some[|some| - 1]] && more == front + [more[|more| - 1]];
    }
  }

  lemma {:induction false} ReadingStarts(text: string, some: seq<Item>, more: seq<Item>, alphabet: Alphabet)
    requires ModeOf(text, more, alphabet).Some? && some <= more
    ensures ModeOf(text, some, alphabet).Some?
    decreases |more|
  {
    hide Then, Expects;
    if |some| < |more| {
      ReadingStarts(text, some, more[..|more| - 1], alphabet);
    } else {
      assert some == more;
    }
  }

  lemma ItemIsInText(text: string, mode: Mode, expects: bool, item: Item, alphabet: Alphabet)
    requires Then(text, mode, expects, item, alphabet).Some?
    ensures StartOf(item) < |text|
  {
    if item.Hidden? && mode.InCode? { RegionOpens(text, item.region, expects, alphabet); }
  }

  /** Nothing follows where something opens that never closes. */
  lemma NothingFollows(text: string, at: nat, holes: seq<Hole>, expects: bool, item: Item, literals: seq<Literal>, alphabet: Alphabet)
    requires OpensForever(text, at, holes, expects, alphabet) && StartOf(item) == at
    ensures Then(text, InCode(holes, literals), expects, item, alphabet).None?
  {
    hide IsToken, AfterToken, AfterHidden, At, IsRegex, ClosesAt, IsHiddenCode;
    if Then(text, InCode(holes, literals), expects, item, alphabet).Some? {
      ItemIsInText(text, InCode(holes, literals), expects, item, alphabet);
      SlashOpens(text, at);
      OneComesSecond(text, at);
      if item.Hidden? {
        RegionOpens(text, item.region, expects, alphabet);
        HiddenCloses(text, item.region, expects, alphabet);
      }
      assert false;
    }
  }

  lemma OneComesSecond(text: string, i: nat)
    ensures !(At(text, i, "//") && At(text, i, "/*"))
  {
    if At(text, i, "//") { assert text[i..i + 2][1] == '/'; }
  }

  lemma HiddenCloses(text: string, region: Region, expects: bool, alphabet: Alphabet)
    requires IsHiddenCode(text, region, expects, alphabet)
    ensures region.reason.BlockComment? ==> region.lo + 2 <= region.hi - 2 && At(text, region.hi - 2, "*/")
    ensures region.reason.Regex? ==> exists close :: IsRegex(text, region.lo, close, region.hi, alphabet)
  {
    hide At, IsRegex;
  }

  lemma StuckIsLast(text: string, items: seq<Item>, item: Item, alphabet: Alphabet)
    requires IsStuck(text, items, alphabet)
    ensures ModeOf(text, items + [item], alphabet).None?
  {
    hide OpensForever, IsRegion, IsToken, AfterToken, IsHiddenCode, AfterHidden, Opener, Expects;
    var mode := ModeOf(text, items, alphabet).value;
    assert (items + [item])[..|items|] == items;
    if StartOf(item) == EndOf(items) {
      if mode.InCode? {
        NothingFollows(text, EndOf(items), mode.holes, Expects(text, items, alphabet), item, mode.literals, alphabet);
      } else if item.Hidden? {
        RegionReaches(text, item.region, alphabet);
      }
    }
  }

  lemma RegionReaches(text: string, region: Region, alphabet: Alphabet)
    ensures IsRegion(text, region, alphabet) ==> region.lo <= region.hi
  {
  }

  lemma ReadsFurther(text: string, items: seq<Item>, other: seq<Item>, alphabet: Alphabet)
    requires ModeOf(text, items, alphabet).Some? && ModeOf(text, other, alphabet).Some? && |items| < |other|
    ensures ModeOf(text, items + [other[|items|]], alphabet).Some?
  {
    hide ModeOf;
    OneReading(text, items, other, alphabet);
    assert other[..|items| + 1] == items + [other[|items|]];
    ReadingStarts(text, other[..|items| + 1], other, alphabet);
  }

  /** A reading that cannot go on is the longest there is. */
  lemma LastIsLongest(text: string, items: seq<Item>, other: seq<Item>, alphabet: Alphabet)
    requires ModeOf(text, items, alphabet).Some? && ModeOf(text, other, alphabet).Some?
    requires forall item :: ModeOf(text, items + [item], alphabet).None?
    ensures other <= items
  {
    hide ModeOf;
    if |items| < |other| {
      ReadsFurther(text, items, other, alphabet);
      assert false;
    } else {
      OneReading(text, other, items, alphabet);
    }
  }

  /**
   * A text has one reading end to end, or it opens something that never closes at the end of one
   * reading of its start, and never both.
   */
  lemma WholeOrStuck(text: string, items: seq<Item>, literals: seq<Literal>, other: seq<Item>, alphabet: Alphabet)
    requires IsWhole(text, items, literals, alphabet)
    ensures !IsStuck(text, other, alphabet)
    ensures forall others :: IsWhole(text, other, others, alphabet) ==> other == items && others == literals
  {
    hide ModeOf, IsStuck;
    forall item ensures ModeOf(text, items + [item], alphabet).None? {
      WholeIsLast(text, items, literals, item, alphabet);
    }
    if ModeOf(text, other, alphabet).Some? {
      LastIsLongest(text, items, other, alphabet);
    }
    if IsStuck(text, other, alphabet) {
      forall item ensures ModeOf(text, other + [item], alphabet).None? {
        StuckIsLast(text, other, item, alphabet);
      }
      StuckReads(text, other, alphabet);
      LastIsLongest(text, other, items, alphabet);
      LastIsLongest(text, items, other, alphabet);
      assert items == other;
      WholeIsNotStuck(text, items, literals, alphabet);
      assert false;
    }
    forall others | IsWhole(text, other, others, alphabet) ensures other == items && others == literals {
      forall item ensures ModeOf(text, other + [item], alphabet).None? {
        WholeIsLast(text, other, others, item, alphabet);
      }
      LastIsLongest(text, other, items, alphabet);
    }
  }

  lemma StuckReads(text: string, items: seq<Item>, alphabet: Alphabet)
    requires IsStuck(text, items, alphabet)
    ensures ModeOf(text, items, alphabet).Some?
  {
    hide ModeOf, OpensForever, IsRegion;
  }

  lemma WholeIsLast(text: string, items: seq<Item>, literals: seq<Literal>, item: Item, alphabet: Alphabet)
    requires IsWhole(text, items, literals, alphabet)
    ensures ModeOf(text, items + [item], alphabet).None?
  {
    hide Then, Expects;
    assert (items + [item])[..|items|] == items;
    if ModeOf(text, items + [item], alphabet).Some? {
      ItemIsInText(text, ModeOf(text, items, alphabet).value, Expects(text, items, alphabet), item, alphabet);
      assert false;
    }
  }

  lemma WholeIsNotStuck(text: string, items: seq<Item>, literals: seq<Literal>, alphabet: Alphabet)
    requires IsWhole(text, items, literals, alphabet)
    ensures !IsStuck(text, items, alphabet)
  {
    hide ModeOf, Expects;
    SlashOpens(text, |text|);
  }

  // ------------------------------------------------------------------------------------------
  // A template half read.

  /** The static text read so far, of a template that opened at `start`: its spans, all blank, before `index`. */
  ghost predicate Pending(text: string, recorded: seq<Span>, regions: seq<Region>, start: nat, spans: seq<Span>, index: nat) {
    && start < index <= |text| && text[start] == '`'
    && IsTemplateRest(text, spans) && Within(spans, start + 1, index) && PairwiseApart(spans)
    && Separate(recorded, spans) && SpansCovered(regions, spans)
    && (if spans == [] then index == start + 1
        else spans[0].lo == start + 1 && Interpolates(text, spans[|spans| - 1], Span(index, index)))
  }

  /** The spans with one more stretch, up to where it ends. */
  ghost predicate Stretched(text: string, recorded: seq<Span>, start: nat, more: seq<Span>, index: nat) {
    && more != [] && more[0].lo == start + 1 && more[|more| - 1].hi == index
    && IsTemplateRest(text, more) && Within(more, start + 1, index) && PairwiseApart(more) && Separate(recorded, more)
  }

  /** A template that has just opened. */
  lemma Opens(text: string, recorded: seq<Span>, regions: seq<Region>, start: nat)
    requires start < |text| && text[start] == '`'
    ensures Pending(text, recorded, regions, start, [], start + 1)
    ensures RunsTo(text, start + 1, start + 1, TemplateStops(text)) && Extended(recorded, recorded, start, start + 1)
  {
  }

  lemma Stretches(text: string, recorded: seq<Span>, regions: seq<Region>, start: nat, spans: seq<Span>, from: nat, index: nat)
    requires Pending(text, recorded, regions, start, spans, from) && Within(recorded, 0, from)
    requires from <= index <= |text| && RunsTo(text, from, index, TemplateStops(text))
    ensures Stretched(text, recorded, start, spans + [Span(from, index)], index)
  {
    hide RunsTo, IsTemplateRest, Joined, PairwiseApart, Separate, SpansCovered, TemplateStops, At;
    var next := Span(from, index);
    var more := spans + [next];
    assert more[|more| - 1] == next && more[0].lo == start + 1;
    RestGrows(text, spans, next);
    BeyondIsApart(recorded, spans, next, start + 1);
  }

  lemma PendingIsBlank(text: string, recorded: seq<Span>, regions: seq<Region>, start: nat, spans: seq<Span>, from: nat)
    requires Pending(text, recorded, regions, start, spans, from)
    ensures SpansCovered(regions, spans) && Within(spans, 0, from) && start < from && start < |text| && text[start] == '`'
  {
  }

  lemma StretchedStays(text: string, was: seq<Span>, now: seq<Span>, start: nat, more: seq<Span>, index: nat, to: nat)
    requires Stretched(text, was, start, more, index) && Extended(was, now, index + 2, to)
    ensures Stretched(text, now, start, more, index)
  {
    SeparateStays(was, now, more, start + 1, index, index + 2, to);
  }

  lemma StretchedIsWithin(text: string, recorded: seq<Span>, start: nat, more: seq<Span>, index: nat)
    requires Stretched(text, recorded, start, more, index)
    ensures more != [] && more[|more| - 1].hi == index && Within(more, 0, index + 2)
  {
  }

  lemma StretchedStarts(text: string, recorded: seq<Span>, start: nat, more: seq<Span>, index: nat)
    requires Stretched(text, recorded, start, more, index)
    ensures more != [] && more[0].lo == start + 1
  {
  }

  /** The literal is the template from the backtick at `start` to the one at `close`. */
  ghost predicate IsTemplateFrom(text: string, literal: Literal, start: nat, close: nat) {
    && IsTemplate(text, literal)
    && literal.spans[0].lo == start + 1 && literal.spans[|literal.spans| - 1].hi == close
  }

  lemma StretchedCloses(text: string, recorded: seq<Span>, start: nat, more: seq<Span>, index: nat)
    requires Stretched(text, recorded, start, more, index) && start < |text| && text[start] == '`'
    requires index < |text| && text[index] == '`'
    ensures IsTemplateFrom(text, Literal(more), start, index)
    ensures IsLiteral(text, Literal(more)) && PairwiseApart(more) && Separate(recorded, more) && Within(more, start, index + 1)
  {
  }

  lemma StretchedReopens(text: string, recorded: seq<Span>, regions: seq<Region>, start: nat, more: seq<Span>, index: nat,
                         next: nat)
    requires Stretched(text, recorded, start, more, index) && start < |text| && text[start] == '`'
    requires SpansCovered(regions, more) && At(text, index, "${") && index + 2 < next <= |text| && text[next - 1] == '}'
    ensures Pending(text, recorded, regions, start, more, next)
  {
  }

  lemma BlockIsRegion(text: string, lo: nat, close: nat, alphabet: Alphabet)
    requires At(text, lo, "/*") && lo + 2 <= close && At(text, close, "*/")
    requires forall i :: lo + 2 <= i < close ==> !At(text, i, "*/")
    ensures IsRegion(text, Region(BlockComment, lo, close + 2), alphabet)
  {
  }

  lemma QuotedIsRegion(text: string, lo: nat, hi: nat, alphabet: Alphabet)
    requires lo + 2 <= hi <= |text| && (text[lo] == '\'' || text[lo] == '"') && ClosesAt(text, lo, hi - 1)
    ensures IsRegion(text, Region(Quoted, lo, hi), alphabet) && IsLiteral(text, Literal([Span(lo + 1, hi - 1)]))
  {
  }

  lemma TextIsRegion(text: string, from: nat, index: nat, alphabet: Alphabet)
    requires from <= index < |text| && (from == index || RunsTo(text, from, index, TemplateStops(text)))
    requires text[index] == '`' || At(text, index, "${")
    ensures IsRegion(text, Region(TemplateText, from, index + 1), alphabet)
  {
  }

  /** What lexing yields. */
  datatype Lexed = Lexed(structure: string, literals: seq<Literal>)

  predicate IsBlank(c: char) {
    c == ' ' || LineBreak(c)
  }

  /** Every position keeps its character or is blank, and the line breaks are the source's. */
  ghost predicate PositionPreserving(text: string, structure: string) {
    && |structure| == |text|
    && forall i :: 0 <= i < |text| ==>
         (structure[i] == text[i] || structure[i] == ' ') && (LineBreak(structure[i]) <==> LineBreak(text[i]))
  }

  ghost predicate BlankSpans(text: string, structure: string, spans: seq<Span>) {
    && |structure| == |text| && Within(spans, 0, |text|)
    && forall k, i :: 0 <= k < |spans| && spans[k].lo <= i < spans[k].hi ==> IsBlank(structure[i])
  }

  class TypeScriptLexer {
    const source: string
    const alphabet: Alphabet
    const structure: array<char>
    var literals: seq<Literal>
    ghost var regions: seq<Region>
    ghost var items: seq<Item>

    constructor (source: string, alphabet: Alphabet)
      ensures Valid() && this.source == source && literals == [] && regions == [] && items == [] && fresh(structure)
    {
      this.source := source;
      this.alphabet := alphabet;
      this.structure := new char[|source|](i requires 0 <= i < |source| => source[i]);
      this.literals := [];
      this.regions := [];
      this.items := [];
    }

    /**
     * The structure is exactly the source less its regions, no region or literal is anything but
     * one, and the regions are those of a reading.
     */
    ghost predicate Valid()
      reads this, structure
    {
      && structure.Length == |source|
      && BlankedIn(source, structure[..], regions) && InOrder(regions)
      && (forall k :: 0 <= k < |regions| ==> IsRegion(source, regions[k], alphabet))
      && (forall k :: 0 <= k < |literals| ==> IsLiteral(source, literals[k]))
      && PairwiseApart(AllSpans(literals))
      && SpansCovered(regions, AllSpans(literals))
      && (forall k :: 0 <= k < |literals| ==> HolesClosed(source, regions, literals[k].spans))
      && IsReading(source, items, alphabet) && RegionsOf(items) == regions
    }

    /** The source is read up to `index`, and nothing is blanked or recorded from there on. */
    ghost predicate Before(index: nat)
      reads this
    {
      EndOf(items) == index && (forall k :: 0 <= k < |regions| ==> regions[k].hi <= index) && Within(AllSpans(literals), 0, index)
    }

    /** The reading stands in code, inside these holes, and has met the literals recorded. */
    ghost predicate StandsIn(holes: seq<Hole>)
      reads this`items, this`literals
    {
      ModeOf(source, items, alphabet) == Some(InCode(holes, literals))
    }

    /** The reading stands in the static text of a template, after these of its texts. */
    ghost predicate StandsInText(spans: seq<Span>, holes: seq<Hole>)
      reads this`items, this`literals
    {
      ModeOf(source, items, alphabet) == Some(InText(spans, holes, literals))
    }

    /** The reading stands before the brace of an interpolation. */
    ghost predicate StandsAtBrace(spans: seq<Span>, holes: seq<Hole>)
      reads this`items, this`literals
    {
      ModeOf(source, items, alphabet) == Some(AtBrace(spans, holes, literals))
    }

    /** The reading has come to where something opens that never closes. */
    ghost predicate Stuck()
      reads this`items
    {
      IsStuck(source, items, alphabet)
    }

    /** Blanks the structure from `lo` to `hi`, line breaks excepted. */
    method BlankRange(lo: nat, hi: nat)
      requires lo <= hi <= structure.Length
      modifies structure
      ensures forall k :: 0 <= k < structure.Length ==>
                structure[k] == if lo <= k < hi && !LineBreak(old(structure[k])) then ' ' else old(structure[k])
    {
      for i := lo to hi
        invariant forall k :: 0 <= k < structure.Length ==>
                    structure[k] == if lo <= k < i && !LineBreak(old(structure[k])) then ' ' else old(structure[k])
      {
        if structure[i] != '\r' && structure[i] != '\n' { structure[i] := ' '; }
      }
    }

    /** Blanks one region, and nothing else. */
    method Blank(region: Region)
      requires Valid() && IsRegion(source, region, alphabet) && Before(region.lo)
      requires region.reason.Regex? ==> Expects(source, items, alphabet)
      modifies this`regions, this`items, structure
      ensures Valid() && Before(region.hi) && regions == old(regions) + [region] && From(old(regions), regions, region.lo)
      ensures items == old(items) + [Hidden(region)]
    {
      OneMoreItem(source, items, Hidden(region), alphabet);
      ghost var was, before := regions, structure[..];
      BlankRange(region.lo, region.hi);
      regions, items := regions + [region], items + [Hidden(region)];
      BlankedOneMore(source, before, structure[..], was, region);
      CoveredStays(was, regions, AllSpans(literals));
      AllHolesStay(source, was, regions, literals, region.lo);
    }

    /** Reads one token, which stays visible. */
    ghost method Show(lo: nat, hi: nat)
      requires Valid() && Before(lo) && IsToken(source, lo, hi, alphabet)
      requires source[lo] == '/' ==> !Expects(source, items, alphabet)
      modifies this`items
      ensures Valid() && Before(hi) && items == old(items) + [Shown(lo, hi)]
    {
      OneMoreItem(source, items, Shown(lo, hi), alphabet);
      items := items + [Shown(lo, hi)];
    }

    // ----------------------------------------------------------------------------------------
    // The scanners that only read.

    /** The end of the string that opens at `start`, and none exactly when it does not close on its line. */
    method QuotedEnd(start: nat) returns (end: Option<nat>)
      requires start < |source| && (source[start] == '\'' || source[start] == '"')
      ensures end.Some? ==> start + 2 <= end.value <= |source|
                            && ClosesAt(source, start, end.value - 1)
      ensures end.None? ==> forall hi :: !ClosesAt(source, start, hi)
    {
      var quote := source[start];
      var stops := QuoteStops(source, quote);
      var index := start + 1;
      while index < |source|
        invariant start < index <= |source| + 1
        invariant index <= |source| ==> RunsTo(source, start + 1, index, stops)
        invariant index == |source| + 1 ==>
                    source[|source| - 1] == '\\' && RunsTo(source, start + 1, |source| - 1, stops)
      {
        if source[index] == '\\' {
          if index + 2 <= |source| {
            assert RunsTo(source, index, index + 2, stops);
            RunGrows(source, start + 1, index, index + 2, stops);
          }
          index := index + 2;
        } else if source[index] == quote {
          return Some(index + 1);
        } else if source[index] == '\r' || source[index] == '\n' {
          forall hi ensures !ClosesAt(source, start, hi) {
            if hi != index { RunsPastNoStop(source, start + 1, index, hi, stops); }
          }
          return None;
        } else {
          assert RunsTo(source, index, index + 1, stops);
          RunGrows(source, start + 1, index, index + 1, stops);
          index := index + 1;
        }
      }
      var at := if index <= |source| then index else |source| - 1;
      forall hi ensures !ClosesAt(source, start, hi) {
        if hi != at { RunsPastNoStop(source, start + 1, at, hi, stops); }
      }
      return None;
    }

    /** The end of the regular expression that opens at `start`, and none exactly when no slash closes it on its line. */
    method RegexEnd(start: nat) returns (end: Option<nat>)
      requires start < |source| && source[start] == '/'
      ensures end.Some? ==> exists close :: IsRegex(source, start, close, end.value, alphabet)
      ensures end.None? ==> forall close, hi :: !IsRegex(source, start, close, hi, alphabet)
    {
      var index := start + 1;
      var inClass := false;
      while index < |source|
        invariant start < index <= |source| + 1
        invariant index <= |source| ==> RegexState(source, start + 1, index, false) == Some(inClass)
        invariant index == |source| + 1 ==>
                    source[|source| - 1] == '\\' && RegexState(source, start + 1, |source| - 1, false).Some?
      {
        var c := source[index];
        if c == '\\' {
          if index + 2 <= |source| { RegexGrows(source, start + 1, index, index + 2, false); }
          index := index + 2;
          continue;
        }
        if c == '\r' || c == '\n' {
          NothingCloses(start, index);
          return None;
        }
        if c == '/' && !inClass {
          var close := index;
          index := index + 1;
          while index < |source| && (alphabet.isAlnum(source[index]) || source[index] == '_' || source[index] == '$')
            invariant close < index <= |source|
            invariant forall i :: close < i < index ==> WordChar(alphabet, source[i])
          {
            index := index + 1;
          }
          assert IsRegex(source, start, close, index, alphabet);
          return Some(index);
        }
        RegexGrows(source, start + 1, index, index + 1, false);
        if c == '[' { inClass := true; } else if c == ']' { inClass := false; }
        index := index + 1;
      }
      NothingCloses(start, if index <= |source| then index else |source| - 1);
      return None;
    }

    lemma NothingCloses(start: nat, at: nat)
      requires start < at <= |source| && RegexState(source, start + 1, at, false).Some?
      requires at == |source| || LineBreak(source[at]) || (at == |source| - 1 && source[at] == '\\')
      ensures forall close, hi :: !IsRegex(source, start, close, hi, alphabet)
    {
      forall close, hi ensures !IsRegex(source, start, close, hi, alphabet) {
        if IsRegex(source, start, close, hi, alphabet) { NoSlashCloses(source, start + 1, at, close); }
      }
    }

    /** The first place from `start` on where `word` stands. */
    method FindWord(word: string, start: nat) returns (at: Option<nat>)
      ensures at.Some? ==> start <= at.value && At(source, at.value, word)
      ensures forall i :: start <= i && (at.Some? ==> i < at.value) ==> !At(source, i, word)
    {
      var index := start;
      while index + |word| <= |source|
        invariant start <= index
        invariant forall i :: start <= i < index ==> !At(source, i, word)
      {
        if source[index..index + |word|] == word { return Some(index); }
        index := index + 1;
      }
      return None;
    }

    /** The end of the word that starts at `start`: all its characters and no more. */
    method WordEnd(start: nat, more: char -> bool) returns (end: nat)
      requires start < |source|
      ensures start < end <= |source|
      ensures forall i :: start < i < end ==> more(source[i])
      ensures end < |source| ==> !more(source[end])
    {
      end := start + 1;
      while end < |source| && more(source[end])
        invariant start < end <= |source|
        invariant forall i :: start < i < end ==> more(source[i])
      {
        end := end + 1;
      }
    }

    // ----------------------------------------------------------------------------------------
    // The scanners that blank.

    /** What a scanner that reads from `lo` to `hi` leaves: more regions and literals, all of them in between, and nothing that opens. */
    twostate predicate Scanned(lo: nat, hi: nat)
      reads this, structure
    {
      && Valid() && Before(hi) && lo <= hi <= |source|
      && old(regions) <= regions && old(literals) <= literals
      && Extended(AllSpans(old(literals)), AllSpans(literals), lo, hi)
      && Clear(source, regions, lo, hi) && From(old(regions), regions, lo)
      && Settled(source, old(regions), regions, literals)
    }

    /** One more literal, of text already blanked. */
    method Record(literal: Literal)
      requires Valid() && IsLiteral(source, literal) && SpansCovered(regions, literal.spans)
      requires PairwiseApart(literal.spans) && Separate(AllSpans(literals), literal.spans)
      requires HolesClosed(source, regions, literal.spans)
      modifies this`literals
      ensures Valid() && literals == old(literals) + [literal]
      ensures AllSpans(literals) == old(AllSpans(literals)) + literal.spans
    {
      AllSpansOfOneMore(literals, literal);
      ApartTogether(AllSpans(literals), literal.spans);
      CoveredBoth(regions, AllSpans(literals), literal.spans);
      literals := literals + [literal];
    }

    /** Where a line comment ends: at its line's break, or with the source. */
    method LineEnd(start: nat) returns (end: nat)
      requires At(source, start, "//")
      ensures IsRegion(source, Region(LineComment, start, end), alphabet)
      ensures end < |source| ==> source[end] == '\n'
    {
      var found := FindWord("\n", start + 2);
      end := if found.Some? then found.value else |source|;
      assert source[start] == '/' && source[start + 1] == '/' by {
        assert source[start..start + 2][0] == source[start] && source[start..start + 2][1] == source[start + 1];
      }
      forall i | start <= i < end ensures source[i] != '\n' {
        if i >= start + 2 {
          assert !At(source, i, "\n");
          assert source[i..i + 1] == [source[i]];
        }
      }
    }

    method LineCommentAt(start: nat, ghost holes: seq<Hole>) returns (end: nat)
      requires Valid() && Before(start) && At(source, start, "//") && StandsIn(holes)
      modifies this`regions, this`items, structure
      ensures StandsIn(holes)
      ensures Scanned(start, end) && start < end && Nested(source, regions, start, end)
      ensures Expects(source, items, alphabet) <==> old(Expects(source, items, alphabet))
    {
      end := LineEnd(start);
      BlankWhole(Region(LineComment, start, end), holes);
    }

    /** A region that holds no literal. */
    method BlankWhole(region: Region, ghost holes: seq<Hole>)
      requires Valid() && Before(region.lo) && IsRegion(source, region, alphabet) && StandsIn(holes)
      requires region.reason.LineComment? || region.reason.BlockComment? || region.reason.Regex?
      requires region.reason.Regex? ==>
        Expects(source, items, alphabet) && !At(source, region.lo, "//") && !At(source, region.lo, "/*")
      modifies this`regions, this`items, structure
      ensures StandsIn(holes)
      ensures Scanned(region.lo, region.hi) && Nested(source, regions, region.lo, region.hi)
      ensures Expects(source, items, alphabet) <==> old(Expects(source, items, alphabet)) && !region.reason.Regex?
    {
      ghost var was := regions;
      OneMoreItem(source, items, Hidden(region), alphabet);
      ReadsOne(source, items, Hidden(region), alphabet);
      Blank(region);
      OneSettles(source, was, region, literals);
      RegionIsClear(source, regions, region);
      RegionIsNested(source, regions, region);
    }

    lemma OpenIsStuck(at: nat, holes: seq<Hole>)
      requires Before(at) && StandsIn(holes)
      requires OpensForever(source, at, holes, Expects(source, items, alphabet), alphabet)
      ensures Stuck()
    {
      hide ModeOf, OpensForever, Expects;
    }

    method BlockCommentAt(start: nat, ghost holes: seq<Hole>) returns (end: Option<nat>)
      requires Valid() && Before(start) && At(source, start, "/*") && StandsIn(holes)
      modifies this`regions, this`items, structure
      ensures if end.Some? then StandsIn(holes) else Stuck()
      ensures end.Some? ==> Scanned(start, end.value) && start < end.value && Nested(source, regions, start, end.value)
      ensures Expects(source, items, alphabet) <==> old(Expects(source, items, alphabet))
    {
      hide Valid, Extended, Clear, From, Nested, IsRegion, Settled;
      var close := FindWord("*/", start + 2);
      if close.None? {
        OpenIsStuck(start, holes);
        return None;
      }
      BlockIsRegion(source, start, close.value, alphabet);
      BlankWhole(Region(BlockComment, start, close.value + 2), holes);
      return Some(close.value + 2);
    }

    method StringAt(start: nat, ghost holes: seq<Hole>) returns (end: Option<nat>)
      requires Valid() && Before(start) && start < |source| && (source[start] == '\'' || source[start] == '"') && StandsIn(holes)
      modifies this`regions, this`items, this`literals, structure
      ensures if end.Some? then StandsIn(holes) else Stuck()
      ensures end.Some? ==> Scanned(start, end.value) && start < end.value && Nested(source, regions, start, end.value)
      ensures end.Some? ==> !Expects(source, items, alphabet)
    {
      hide Valid, Extended, Clear, From, Nested, IsRegion, IsLiteral, ClosesAt, Settled, StandsIn, Stuck, Expects, ModeOf, At;
      end := QuotedEnd(start);
      if end.None? {
        OpenIsStuck(start, holes);
        return;
      }
      QuotedIsRegion(source, start, end.value, alphabet);
      BlankLiteral(Region(Quoted, start, end.value), Literal([Span(start + 1, end.value - 1)]), holes);
    }

    /** A literal of one span, and the region around it. */
    method BlankLiteral(region: Region, literal: Literal, ghost holes: seq<Hole>)
      requires Valid() && Before(region.lo) && IsRegion(source, region, alphabet) && IsLiteral(source, literal)
      requires region.reason.Quoted? && IsPartOf(source, region, literal) && StandsIn(holes)
      modifies this`regions, this`items, this`literals, structure
      ensures StandsIn(holes)
      ensures Scanned(region.lo, region.hi) && Nested(source, regions, region.lo, region.hi)
      ensures !Expects(source, items, alphabet)
    {
      OneMoreItem(source, items, Hidden(region), alphabet);
      ReadsOne(source, items, Hidden(region), alphabet);
      ghost var was, blanked, before := AllSpans(literals), regions, literals;
      WithinBoth(was, literal.spans, region.lo, region.hi);
      Blank(region);
      RegionIsClear(source, regions, region);
      RegionIsNested(source, regions, region);
      RegionCovers(regions, region, literal.spans);
      Record(literal);
      assert literals[|before|] == literal;
      OneSettles(source, blanked, region, literals);
    }

    method RegexAt(start: nat, ghost holes: seq<Hole>) returns (end: Option<nat>)
      requires Valid() && Before(start) && start < |source| && source[start] == '/' && Expects(source, items, alphabet)
      requires StandsIn(holes) && !At(source, start, "//") && !At(source, start, "/*")
      modifies this`regions, this`items, structure
      ensures if end.Some? then StandsIn(holes) else Stuck()
      ensures end.Some? ==> Scanned(start, end.value) && start < end.value && Nested(source, regions, start, end.value)
      ensures end.Some? ==> !Expects(source, items, alphabet)
    {
      hide Valid, Extended, Clear, From, Nested, Settled, StandsIn, Stuck, Expects, ModeOf, At;
      end := RegexEnd(start);
      if end.None? {
        OpenIsStuck(start, holes);
        return;
      }
      BlankWhole(Region(Regex, start, end.value), holes);
    }

    // ----------------------------------------------------------------------------------------
    // The two scanners that call each other.

    /** The backtick that opens a template. */
    lemma TextOpens(start: nat, holes: seq<Hole>)
      requires EndOf(items) == start && start < |source| && source[start] == '`' && StandsIn(holes)
      ensures ModeOf(source, items + [Hidden(Region(TemplateText, start, start + 1))], alphabet) == Some(InText([], holes, literals))
    {
      hide ModeOf, Expects;
      ReadsOne(source, items, Hidden(Region(TemplateText, start, start + 1)), alphabet);
    }

    /** Blanks the backtick that opens a template. */
    method BlankOpening(start: nat, ghost holes: seq<Hole>)
      requires Valid() && Before(start) && start < |source| && source[start] == '`' && StandsIn(holes)
      requires IsRegion(source, Region(TemplateText, start, start + 1), alphabet)
      modifies this`regions, this`items, structure
      ensures Valid() && Before(start + 1) && regions == old(regions) + [Region(TemplateText, start, start + 1)]
      ensures From(old(regions), regions, start) && StandsInText([], holes)
    {
      hide Valid, From, ModeOf, IsRegion;
      TextOpens(start, holes);
      Blank(Region(TemplateText, start, start + 1));
    }

    lemma TemplateTextIsAnOperand(region: Region)
      requires Valid() && EndOf(items) == region.lo && region.reason.TemplateText?
      ensures !Expects(source, items + [Hidden(region)], alphabet)
    {
      OneMoreItem(source, items, Hidden(region), alphabet);
    }

    /** Blanks one more stretch of static text, from `from` to `index`, where it meets `${` or the closing backtick. */
    method EndStatic(ghost spans: seq<Span>, from: nat, index: nat, ghost holes: seq<Hole>)
      requires Valid() && Before(from) && SpansCovered(regions, spans) && StandsInText(spans, holes)
      requires from <= index < |source| && RunsTo(source, from, index, TemplateStops(source))
      requires source[index] == '`' || At(source, index, "${")
      modifies this`regions, this`items, structure
      ensures Valid() && Before(index + 1) && old(regions) <= regions
      ensures SpansCovered(regions, spans + [Span(from, index)]) && Clear(source, regions, from, index + 1)
      ensures Nested(source, regions, from, index + 1) && From(old(regions), regions, from)
      ensures regions == old(regions) + [Region(TemplateText, from, index + 1)]
      ensures !Expects(source, items, alphabet)
      ensures ModeOf(source, items, alphabet)
           == Some(if source[index] == '`' then InCode(holes, literals + [Literal(spans + [Span(from, index)])])
                   else AtBrace(spans + [Span(from, index)], holes, literals))
    {
      hide Valid, Clear, Nested, From, IsRegion, SpansCovered, RunsTo, TemplateStops, Expects, IsToken, RoleOf, IsReading,
           ModeOf;
      TemplateTextIsAnOperand(Region(TemplateText, from, index + 1));
      ghost var was := regions;
      TextIsRegion(source, from, index, alphabet);
      ReadsOne(source, items, Hidden(Region(TemplateText, from, index + 1)), alphabet);
      Blank(Region(TemplateText, from, index + 1));
      RegionIsClear(source, regions, Region(TemplateText, from, index + 1));
      RegionIsNested(source, regions, Region(TemplateText, from, index + 1));
      CoveredStays(was, regions, spans);
      RegionCovers(regions, Region(TemplateText, from, index + 1), [Span(from, index)]);
      CoveredBoth(regions, spans, [Span(from, index)]);
    }

    /** The static texts with the last one are the template's. */
    lemma StretchIsTemplate(start: nat, spans: seq<Span>, from: nat, index: nat)
      requires Before(from) && Pending(source, AllSpans(literals), regions, start, spans, from)
      requires from <= index < |source| && RunsTo(source, from, index, TemplateStops(source)) && source[index] == '`'
      ensures var more := spans + [Span(from, index)];
        && IsTemplateFrom(source, Literal(more), start, index) && IsLiteral(source, Literal(more))
        && PairwiseApart(more) && Separate(AllSpans(literals), more) && Within(more, start, index + 1) && Within(more, 0, index + 1)
        && more[0].lo == start + 1
    {
      hide IsTemplateFrom, RunsTo, Stretched, Pending, IsLiteral, TemplateStops, PairwiseApart, Separate;
      PendingIsBlank(source, AllSpans(literals), regions, start, spans, from);
      Stretches(source, AllSpans(literals), regions, start, spans, from, index);
      StretchedCloses(source, AllSpans(literals), start, spans + [Span(from, index)], index);
      StretchedStarts(source, AllSpans(literals), start, spans + [Span(from, index)], index);
    }

    /** What the last stretch leaves of what was read before it. */
    lemma StretchIsLast(was: seq<Region>, first: seq<Region>, start: nat, spans: seq<Span>, from: nat, index: nat)
      requires was <= regions && From(was, regions, from) && Within(spans, 0, from) && start < from <= index < |source|
      requires source[start] == '`' && (spans + [Span(from, index)])[0].lo == start + 1
      requires Clear(source, was, start, from) && Clear(source, regions, from, index + 1)
      requires Nested(source, was, start, from) && Nested(source, regions, from, index + 1)
      requires HolesClosed(source, was, spans + [Span(from, from)]) && SettledBut(source, first, was, literals, start, spans)
      requires regions == was + [Region(TemplateText, from, index + 1)]
      requires Within(spans + [Span(from, index)], start, index + 1)
      ensures var more := spans + [Span(from, index)];
        && Clear(source, regions, start, index + 1) && Nested(source, regions, start, index + 1)
        && HolesClosed(source, regions, more) && Settled(source, first, regions, literals + [Literal(more)])
        && Extended(AllSpans(literals), AllSpans(literals) + more, start, index + 1)
    {
      hide Nested, HolesClosed, From, Clear, Settled, SettledBut, Extended, Within, IsAccounted, IsStretchOf, AllSpans, Covered;
      var more := spans + [Span(from, index)];
      ClearOn(source, was, regions, start, from, index + 1);
      NestedOn(source, was, regions, start, from, index + 1);
      StretchHoles(source, was, regions, spans, from, index);
      ExtendedBy(AllSpans(literals), more, start, index + 1);
      StretchSettles(source, first, was, literals, start, spans, Span(from, index));
      ClosingSettles(source, first, regions, literals, start, more);
    }

    /** The template's last stretch, and the literal it completes. */
    method CloseTemplate(ghost start: nat, spans: seq<Span>, from: nat, index: nat, ghost first: seq<Region>,
                         ghost holes: seq<Hole>)
      requires StandsInText(spans, holes)
      requires Valid() && Before(from) && Pending(source, AllSpans(literals), regions, start, spans, from)
      requires from <= index < |source| && RunsTo(source, from, index, TemplateStops(source)) && source[index] == '`'
      requires Clear(source, regions, start, from) && Nested(source, regions, start, from)
      requires HolesClosed(source, regions, spans + [Span(from, from)])
      requires SettledBut(source, first, regions, literals, start, spans)
      modifies this`regions, this`items, this`literals, structure
      ensures Settled(source, first, regions, literals)
      ensures Valid() && Before(index + 1) && old(regions) <= regions && old(literals) <= literals
      ensures Extended(old(AllSpans(literals)), AllSpans(literals), start, index + 1)
      ensures Clear(source, regions, start, index + 1)
      ensures Nested(source, regions, start, index + 1) && From(old(regions), regions, from)
      ensures literals != [] && IsTemplateFrom(source, literals[|literals| - 1], start, index)
      ensures !Expects(source, items, alphabet) && StandsIn(holes)
    {
      hide IsTemplateFrom, Nested, HolesClosed, From, Valid, Extended, Clear, RunsTo, Stretched, Pending, IsLiteral,
           SpansCovered, TemplateStops, PairwiseApart, Separate, Settled, SettledBut, Expects, IsToken, RoleOf, IsReading,
           ModeOf, StandsIn, StandsInText, Before, At, IsTemplateRest;
      PendingIsBlank(source, AllSpans(literals), regions, start, spans, from);
      var more := spans + [Span(from, index)];
      ghost var was := regions;
      StretchIsTemplate(start, spans, from, index);
      EndStatic(spans, from, index, holes);
      StretchIsLast(was, first, start, spans, from, index);
      RecordTemplate(Literal(more), index + 1, holes);
    }

    /** The literal of a template whose last stretch has just been blanked. */
    method RecordTemplate(literal: Literal, ghost at: nat, ghost holes: seq<Hole>)
      requires Valid() && IsLiteral(source, literal) && SpansCovered(regions, literal.spans)
      requires PairwiseApart(literal.spans) && Separate(AllSpans(literals), literal.spans)
      requires HolesClosed(source, regions, literal.spans)
      requires Before(at) && Within(literal.spans, 0, at)
      requires ModeOf(source, items, alphabet) == Some(InCode(holes, literals + [literal]))
      modifies this`literals
      ensures Valid() && Before(at) && StandsIn(holes) && literals == old(literals) + [literal]
      ensures AllSpans(literals) == old(AllSpans(literals)) + literal.spans
    {
      hide Valid, IsLiteral, SpansCovered, PairwiseApart, Separate, HolesClosed, ModeOf;
      Record(literal);
    }

    /** One interpolation: the static text before it, and the code inside it. It ends at `next`. */
    method Interpolation(ghost start: nat, spans: seq<Span>, from: nat, index: nat, ghost was: seq<Span>,
                         ghost first: seq<Region>, ghost holes: seq<Hole>)
      returns (more: seq<Span>, next: Option<nat>)
      requires StandsInText(spans, holes)
      requires Valid() && Before(from) && Pending(source, AllSpans(literals), regions, start, spans, from)
      requires from <= index && RunsTo(source, from, index, TemplateStops(source)) && At(source, index, "${")
      requires Extended(was, AllSpans(literals), start, from) && Clear(source, regions, start, from)
      requires Nested(source, regions, start, from) && HolesClosed(source, regions, spans + [Span(from, from)])
      requires SettledBut(source, first, regions, literals, start, spans)
      modifies this`regions, this`items, this`literals, structure
      ensures if next.Some? then StandsInText(more, holes) else Stuck()
      ensures next.Some? ==> SettledBut(source, first, regions, literals, start, more)
      ensures next.Some? ==> Clear(source, regions, start, next.value) && Nested(source, regions, start, next.value)
      ensures next.Some? ==> From(old(regions), regions, from)
      ensures next.Some? ==> HolesClosed(source, regions, more + [Span(next.value, next.value)])
      ensures next.Some? ==> index < next.value <= |source| && Valid() && Before(next.value)
      ensures next.Some? ==> old(regions) <= regions && old(literals) <= literals
      ensures next.Some? ==> Extended(was, AllSpans(literals), start, next.value)
      ensures next.Some? ==> Pending(source, AllSpans(literals), regions, start, more, next.value)
      ensures next.Some? ==> RunsTo(source, next.value, next.value, TemplateStops(source))
      decreases |source| - from, 2
    {
      hide Valid, Pending, Extended, SpansCovered, Stretched, Clear, Nested, HolesClosed, From, Settled, SettledBut,
           Expects, IsToken, RoleOf, IsReading, ModeOf, Stuck;
      ghost var blanked, before := regions, literals;
      PendingIsBlank(source, AllSpans(literals), regions, start, spans, from);
      more := spans + [Span(from, index)];
      ghost var middle := AllSpans(literals);
      assert Within(middle, 0, from);
      Stretches(source, middle, regions, start, spans, from, index);
      DollarIsNoBacktick(index);
      EndStatic(spans, from, index, holes);
      ClearOn(source, blanked, regions, start, from, index + 1);
      NestedOn(source, blanked, regions, start, from, index + 1);
      StretchHoles(source, blanked, regions, spans, from, index);
      ghost var stretched := regions;
      StretchSettles(source, first, blanked, literals, start, spans, Span(from, index));
      var close := CodeInside(more, middle, start, index, holes);
      if close.None? { return more, None; }
      SettledButOn(source, first, stretched, regions, before, literals, start, more);
      FromOn(blanked, stretched, regions, from, index + 2);
      ExtendedOn(was, middle, AllSpans(literals), start, from, index + 2, close.value + 1);
      return more, Some(close.value + 1);
    }

    lemma BraceIsAToken(at: nat)
      requires at < |source| && (source[at] == '{' || source[at] == '}')
      ensures IsToken(source, at, at + 1, alphabet)
      ensures RoleOf(source, Shown(at, at + 1), alphabet) == if source[at] == '{' then Operator else Operand
    {
      SignsStart(source, at);
    }

    lemma DollarIsNoBacktick(index: nat)
      requires At(source, index, "${")
      ensures source[index] != '`'
    {
      assert source[index] == source[index..index + 2][0];
    }

    /** The brace of `${`, after which an expression may begin. */
    ghost method OpensHole(index: nat, spans: seq<Span>, holes: seq<Hole>)
      requires Valid() && Before(index + 1) && At(source, index, "${") && StandsAtBrace(spans, holes)
      modifies this`items
      ensures Valid() && Before(index + 2) && Expects(source, items, alphabet)
      ensures StandsIn(holes + [Hole(0, spans)])
    {
      hide Valid, ModeOf;
      assert source[index + 1] == source[index..index + 2][1] == '{';
      BraceIsAToken(index + 1);
      ghost var before := items;
      ReadsOne(source, items, Shown(index + 1, index + 2), alphabet);
      Show(index + 1, index + 2);
      ReadsOn(before, Shown(index + 1, index + 2));
    }

    /** After an operator an expression may begin, after an operand none, and else as before. */
    lemma ReadsOn(before: seq<Item>, item: Item)
      requires items == before + [item]
      ensures Expects(source, items, alphabet) <==>
        RoleOf(source, item, alphabet).Operator? || (RoleOf(source, item, alphabet).Neither? && Expects(source, before, alphabet))
    {
      assert items[..|before|] == before;
    }

    /** The brace with no partner in the interpolation ends it. */
    lemma HoleCloses(close: nat, spans: seq<Span>, holes: seq<Hole>)
      requires StandsIn(holes + [Hole(0, spans)]) && EndOf(items) == close < |source| && source[close] == '}'
      requires IsToken(source, close, close + 1, alphabet)
      ensures ModeOf(source, items + [Shown(close, close + 1)], alphabet) == Some(InText(spans, holes, literals))
    {
      hide ModeOf, Expects, IsToken;
      ReadsOne(source, items, Shown(close, close + 1), alphabet);
      SlashOpens(source, close);
      var open := holes + [Hole(0, spans)];
      assert open[..|open| - 1] == holes;
    }

    /** The braces of an interpolation and the code between them. */
    method Interior(index: nat, ghost spans: seq<Span>, ghost holes: seq<Hole>) returns (close: Option<nat>)
      requires Valid() && Before(index + 1) && At(source, index, "${") && StandsAtBrace(spans, holes)
      modifies this`regions, this`items, this`literals, structure
      ensures if close.Some? then StandsInText(spans, holes) else Stuck()
      ensures close.Some? ==> index + 2 <= close.value < |source| && source[close.value] == '}'
      ensures close.Some? ==> Valid() && Before(close.value + 1) && forall k :: 0 <= k < |regions| ==> regions[k].hi <= close.value
      ensures close.Some? ==> old(regions) <= regions && old(literals) <= literals && From(old(regions), regions, index + 2)
      ensures close.Some? ==> Extended(AllSpans(old(literals)), AllSpans(literals), index + 2, close.value)
      ensures close.Some? ==> Within(AllSpans(literals), 0, close.value)
      ensures close.Some? ==> Clear(source, regions, index + 2, close.value) && Nested(source, regions, index + 2, close.value)
      ensures close.Some? ==> Settled(source, old(regions), regions, literals)
      decreases |source| - index, 0
    {
      hide Valid, Extended, Clear, Nested, From, Settled, Expects, IsToken, RoleOf, IsReading, ModeOf, Stuck;
      OpensHole(index, spans, holes);
      close := Code(index + 2, true, holes + [Hole(0, spans)]);
      if close.None? || close.value >= |source| || source[close.value] != '}' { return None; }
      BraceIsAToken(close.value);
      HoleCloses(close.value, spans, holes);
      Show(close.value, close.value + 1);
    }

    /** The code from just after `${` to its `}`. */
    method CodeInside(ghost more: seq<Span>, ghost was: seq<Span>, ghost start: nat, index: nat, ghost holes: seq<Hole>)
      returns (close: Option<nat>)
      requires StandsAtBrace(more, holes)
      requires Valid() && Before(index + 1) && At(source, index, "${") && was == AllSpans(literals)
      requires SpansCovered(regions, more) && Stretched(source, was, start, more, index)
      requires start < |source| && source[start] == '`' && start <= index && Clear(source, regions, start, index + 1)
      requires Nested(source, regions, start, index + 1) && HolesClosed(source, regions, more)
      modifies this`regions, this`items, this`literals, structure
      ensures if close.Some? then StandsInText(more, holes) else Stuck()
      ensures close.Some? ==> index + 2 <= close.value && Scanned(index + 2, close.value + 1)
      ensures close.Some? ==> Clear(source, regions, start, close.value + 1) && Nested(source, regions, start, close.value + 1)
      ensures close.Some? ==> HolesClosed(source, regions, more + [Span(close.value + 1, close.value + 1)])
      ensures close.Some? ==> Pending(source, AllSpans(literals), regions, start, more, close.value + 1)
      decreases |source| - index, 1
    {
      hide Valid, Pending, Extended, SpansCovered, Stretched, Clear, Nested, HolesClosed, From, Settled, Expects,
           IsToken, RoleOf, IsReading, ModeOf, Stuck, StandsAtBrace, StandsInText;
      ghost var blanked := regions;
      close := Interior(index, more, holes);
      if close.None? { return None; }
      HoleIsClear(source, blanked, regions, start, index, close.value);
      HoleIsNested(source, blanked, regions, start, index, close.value);
      StretchedIsWithin(source, was, start, more, index);
      HolesStay(source, blanked, regions, more, index + 2);
      OneMoreHole(source, regions, more, close.value + 1);
      CoveredStays(blanked, regions, more);
      StretchedStays(source, was, AllSpans(literals), start, more, index, close.value);
      ExtendedFurther(was, AllSpans(literals), index + 2, close.value, close.value + 1);
      StretchedReopens(source, AllSpans(literals), regions, start, more, index, close.value + 1);
    }

    /** The template that opens at `start`. None exactly where it, or something inside it, never closes. */
    method Template(start: nat, ghost holes: seq<Hole>) returns (end: Option<nat>)
      requires Valid() && Before(start) && start < |source| && source[start] == '`' && StandsIn(holes)
      modifies this`regions, this`items, this`literals, structure
      ensures if end.Some? then StandsIn(holes) else Stuck()
      ensures end.Some? ==> Scanned(start, end.value) && start < end.value && Nested(source, regions, start, end.value)
      ensures end.Some? ==> literals != [] && IsTemplateFrom(source, literals[|literals| - 1], start, end.value - 1)
      ensures end.Some? ==> !Expects(source, items, alphabet)
      decreases |source| - start, 1
    {
      hide Valid, Before, Pending, Extended, RunsTo, Clear, Nested, HolesClosed, From, IsTemplateFrom, Settled,
           SettledBut, Expects, IsToken, RoleOf, IsReading, Stuck, StandsIn, StandsInText, IsRegion, TemplateStops, ModeOf;
      OpeningSettles(source, regions, literals, start);
      Opens(source, AllSpans(literals), regions, start);
      TextIsRegion(source, start, start, alphabet);
      BlankOpening(start, holes);
      RegionIsClear(source, regions, Region(TemplateText, start, start + 1));
      RegionIsNested(source, regions, Region(TemplateText, start, start + 1));
      Opens(source, AllSpans(literals), regions, start);
      NoHoles(source, regions, start + 1);
      ghost var was := AllSpans(literals);
      var spans: seq<Span> := [];
      var index := start + 1;
      var from := index;
      while index < |source|
        invariant start < from <= index <= |source| + 1 && from <= |source|
        invariant index <= |source| ==> RunsTo(source, from, index, TemplateStops(source))
        invariant Valid() && Before(from) && old(regions) <= regions && old(literals) <= literals
        invariant StandsInText(spans, holes) && index <= |source| + 1
        invariant index == |source| + 1 ==>
                    source[|source| - 1] == '\\' && from < |source| && RunsTo(source, from, |source| - 1, TemplateStops(source))
        invariant Extended(was, AllSpans(literals), start, from)
        invariant Pending(source, AllSpans(literals), regions, start, spans, from) && Clear(source, regions, start, from)
        invariant Nested(source, regions, start, from) && HolesClosed(source, regions, spans + [Span(from, from)])
        invariant From(old(regions), regions, start) && SettledBut(source, old(regions), regions, literals, start, spans)
        decreases |source| - index
      {
        if source[index] == '\\' {
          StepsOn(source, from, index, TemplateStops(source));
          index := index + 2;
        } else if source[index] == '`' {
          ghost var middle, blanked := AllSpans(literals), regions;
          CloseTemplate(start, spans, from, index, old(regions), holes);
          FromOn(old(regions), blanked, regions, start, from);
          ExtendedOn(was, middle, AllSpans(literals), start, from, start, index + 1);
          return Some(index + 1);
        } else if At(source, index, "${") {
          ghost var blanked := regions;
          var more, next := Interpolation(start, spans, from, index, was, old(regions), holes);
          if next.None? { return None; }
          FromOn(old(regions), blanked, regions, start, from);
          spans, index, from := more, next.value, next.value;
        } else {
          NoStopHere(index);
          StepsOn(source, from, index, TemplateStops(source));
          index := index + 1;
        }
      }
      NeverEnds(from, if index <= |source| then index else |source| - 1, spans, holes);
      return None;
    }

    lemma NoStopHere(index: nat)
      requires index < |source| && source[index] != '`' && !At(source, index, "${")
      ensures !TemplateStops(source)(index)
    {
    }

    /** Static text that is read to a place where it can go no further ends nowhere. */
    lemma NeverEnds(from: nat, at: nat, spans: seq<Span>, holes: seq<Hole>)
      requires Before(from) && StandsInText(spans, holes) && from <= at <= |source|
      requires RunsTo(source, from, at, TemplateStops(source))
      requires at == |source| || (at == |source| - 1 && source[at] == '\\')
      ensures Stuck()
    {
      hide ModeOf, RunsTo, TemplateStops;
      forall hi | from <= hi ensures !IsRegion(source, Region(TemplateText, from, hi), alphabet) {
        if IsRegion(source, Region(TemplateText, from, hi), alphabet) {
          TextStops(source, from, hi, alphabet);
          if hi - 1 != at { RunsPastNoStop(source, from, at, hi - 1, TemplateStops(source)); }
          assert false;
        }
      }
    }

    /** Steps over an increment, or a token that starts with `!` or with a slash. */
    method Sign(index: nat, expects: bool) returns (next: nat, expectsExpression: bool)
      requires index < |source| && (IsIncrement(source, index) || source[index] == '!' || source[index] == '/')
      ensures IsToken(source, index, next, alphabet)
      ensures forall i :: index < i < next ==> source[i] == '+' || source[i] == '-' || source[i] == '='
      ensures var role := RoleOf(source, Shown(index, next), alphabet);
        expectsExpression <==> role.Operator? || (role.Neither? && expects)
    {
      hide WordChar, StartsWord;
      next, expectsExpression := index + 1, expects;
      if IsIncrement(source, index) {
        next := index + 2;
        assert source[index + 1] == source[index..index + 2][1];
      } else if At(source, index, "!==") || At(source, index, "!=") {
        next := index + if At(source, index, "!==") then 3 else 2;
        expectsExpression := true;
        NotEqualStarts(source, index);
      } else if source[index] == '/' {
        next := index + if At(source, index, "/=") then 2 else 1;
        expectsExpression := true;
        assert At(source, index, "/=") ==> source[index + 1] == source[index..index + 2][1];
      }
    }

    /** Steps over a word or a number. */
    method WordAt(index: nat) returns (next: nat, expectsExpression: bool)
      requires index < |source| && !IsIncrement(source, index) && source[index] != '!' && source[index] != '/'
      requires !alphabet.isSpace(source[index]) && (StartsWord(alphabet, source[index]) || alphabet.isDigit(source[index]))
      ensures IsToken(source, index, next, alphabet)
      ensures forall i :: index < i < next ==> alphabet.isAlnum(source[i]) || source[i] in "_$."
      ensures expectsExpression <==> RoleOf(source, Shown(index, next), alphabet).Operator?
      ensures !RoleOf(source, Shown(index, next), alphabet).Neither?
    {
      hide At, IsIncrement;
      var c := source[index];
      if alphabet.isAlpha(c) || c == '_' || c == '$' {
        next := WordEnd(index, x => alphabet.isAlnum(x) || x == '_' || x == '$');
        expectsExpression := source[index..next] in PREFIX_WORDS;
      } else {
        next := WordEnd(index, x => alphabet.isAlnum(x) || x == '.' || x == '_');
        expectsExpression := false;
      }
    }

    /** Steps over one token of code, and says whether an expression may begin after it. */
    method Token(index: nat, depth: nat, expects: bool) returns (next: nat, braceDepth: nat, expectsExpression: bool)
      requires index < |source|
      requires !Opener(source, index)
      ensures index < next <= |source|
      ensures forall i :: index <= i < next ==> !Opener(source, i)
      ensures forall i :: index < i < next ==> source[i] != '{' && source[i] != '}'
      ensures braceDepth == if source[index] == '{' then depth + 1
                            else if source[index] == '}' && depth > 0 then depth - 1 else depth
      ensures IsToken(source, index, next, alphabet)
      ensures var role := RoleOf(source, Shown(index, next), alphabet);
        expectsExpression <==> role.Operator? || (role.Neither? && expects)
    {
      hide Opener, At;
      SignsStart(source, index);
      var c := source[index];
      next, braceDepth, expectsExpression := index + 1, depth, expects;
      if IsIncrement(source, index) || c == '!' || c == '/' {
        next, expectsExpression := Sign(index, expects);
      } else if alphabet.isSpace(c) {
      } else if alphabet.isAlpha(c) || c == '_' || c == '$' || alphabet.isDigit(c) {
        next, expectsExpression := WordAt(index);
      } else if c == '{' {
        braceDepth := depth + 1;
        expectsExpression := true;
      } else if c == '}' {
        braceDepth := if depth > 0 then depth - 1 else 0;
        expectsExpression := false;
      } else if c in "([" {
        expectsExpression := true;
      } else if c in ")]" {
        expectsExpression := false;
      } else if c in ",:;=?&|+-*%^~<>." {
        expectsExpression := true;
      }
      forall i | index < i < next ensures !Opener(source, i) {
        PlainOpensNothing(source, i);
      }
    }

    /** Something that is blanked starts here: a slash starts a regular expression only where an expression may begin. */
    predicate IsBlanked(index: nat, expectsExpression: bool)
      requires index < |source|
    {
      || At(source, index, "//") || At(source, index, "/*")
      || source[index] == '\'' || source[index] == '"' || source[index] == '`'
      || (source[index] == '/' && expectsExpression)
    }

    /** Scans what is blanked: a comment leaves what may come next as it was, and all else completes an expression. */
    method Blanked(index: nat, expects: bool, ghost holes: seq<Hole>) returns (next: Option<nat>, expectsExpression: bool)
      requires Valid() && Before(index) && index < |source| && IsBlanked(index, expects) && StandsIn(holes)
      requires expects == Expects(source, items, alphabet)
      modifies this`regions, this`items, this`literals, structure
      ensures if next.Some? then StandsIn(holes) else Stuck()
      ensures next.Some? ==> Scanned(index, next.value) && index < next.value && Nested(source, regions, index, next.value)
      ensures next.Some? ==> expectsExpression == Expects(source, items, alphabet)
      decreases |source| - index, 2
    {
      hide Valid, Extended, Clear, Opener, From, Nested, Settled, StandsIn, Stuck;
      expectsExpression := false;
      var c := source[index];
      if At(source, index, "//") {
        var lineEnd := LineCommentAt(index, holes);
        next := Some(lineEnd);
        expectsExpression := expects;
      } else if At(source, index, "/*") {
        next := BlockCommentAt(index, holes);
        expectsExpression := expects;
      } else if c == '\'' || c == '"' {
        next := StringAt(index, holes);
      } else if c == '`' {
        next := Template(index, holes);
      } else {
        next := RegexAt(index, holes);
      }
    }

    /** Reads one token of code, which stays visible. */
    method TokenAt(index: nat, depth: nat, expects: bool, ghost start: nat, ghost counted: bool, ghost holes: seq<Hole>)
      returns (next: nat, braceDepth: nat, expectsExpression: bool)
      requires StandsIn(Deep(holes, depth)) && (counted <==> holes != [])
      requires Valid() && Before(index) && index < |source| && !IsBlanked(index, expects)
      requires expects == Expects(source, items, alphabet)
      requires counted ==> Counted(start, index, depth) && !(source[index] == '}' && depth == 0)
      modifies this`items
      ensures Scanned(index, next) && index < next && expectsExpression == Expects(source, items, alphabet)
      ensures counted ==> Counted(start, next, braceDepth)
      ensures StandsIn(Deep(holes, braceDepth))
    {
      hide Valid, Extended, Clear, Opener, From, Settled, IsToken, RoleOf, IsReading, NeverUnder, Braces, Expects, ModeOf,
           Deep;
      OpensNothing(source, index);
      next, braceDepth, expectsExpression := Token(index, depth, expects);
      ghost var before := items;
      TokenReads(index, next, depth, braceDepth, holes);
      Show(index, next);
      ReadsOn(before, Shown(index, next));
      TokenIsClear(source, regions, index, next);
      FromNot(regions, index);
      SettledNot(source, regions, literals);
      ExtendedNot(AllSpans(literals), index);
      if counted { TokenIsCounted(source, regions, start, index, next, depth, braceDepth); }
    }

    /** A token leaves the reading in code, with as many braces open as the scanner counts. */
    lemma TokenReads(index: nat, next: nat, depth: nat, braceDepth: nat, holes: seq<Hole>)
      requires EndOf(items) == index && StandsIn(Deep(holes, depth)) && IsToken(source, index, next, alphabet)
      requires !Opener(source, index) && !(source[index] == '/' && Expects(source, items, alphabet))
      requires holes != [] ==> !(source[index] == '}' && depth == 0)
      requires braceDepth == if source[index] == '{' then depth + 1
                             else if source[index] == '}' && depth > 0 then depth - 1 else depth
      ensures ModeOf(source, items + [Shown(index, next)], alphabet) == Some(InCode(Deep(holes, braceDepth), literals))
    {
      hide ModeOf, Expects, Opener, IsToken;
      ReadsOne(source, items, Shown(index, next), alphabet);
    }

    /** From `start` to `index` no brace closes that did not open, and so many are open. */
    ghost predicate Counted(start: nat, index: nat, depth: nat)
      reads this`regions
    {
      start <= index && NeverUnder(source, regions, start, index) && Braces(source, regions, start, index) == depth
    }

    /** One token of code, or one stretch that is blanked. */
    method Step(index: nat, depth: nat, expects: bool, ghost start: nat, ghost counted: bool, ghost holes: seq<Hole>)
      returns (next: Option<nat>, braceDepth: nat, expectsExpression: bool)
      requires StandsIn(Deep(holes, depth)) && (counted <==> holes != [])
      requires Valid() && Before(index) && index < |source| && expects == Expects(source, items, alphabet)
      requires counted ==> Counted(start, index, depth) && !(source[index] == '}' && depth == 0)
      modifies this`regions, this`items, this`literals, structure
      ensures next.Some? ==> Scanned(index, next.value) && index < next.value
      ensures next.Some? ==> expectsExpression == Expects(source, items, alphabet)
      ensures next.Some? && counted ==> Counted(start, next.value, braceDepth)
      ensures if next.Some? then StandsIn(Deep(holes, braceDepth)) else Stuck()
      decreases |source| - index, 3
    {
      hide Valid, Extended, Clear, Opener, From, Settled, NeverUnder, Braces, Nested, Expects, StandsIn, Stuck, Deep;
      if IsBlanked(index, expects) {
        ghost var was := regions;
        braceDepth := depth;
        next, expectsExpression := Blanked(index, expects, Deep(holes, depth));
        if next.Some? && counted { NestedIsCounted(source, was, regions, start, index, next.value); }
      } else {
        var after: nat;
        after, braceDepth, expectsExpression := TokenAt(index, depth, expects, start, counted, holes);
        next := Some(after);
      }
    }

    lemma DeepOfNone(depth: nat, holes: seq<Hole>)
      requires holes == []
      ensures Deep(holes, depth) == holes
    {
    }

    /** The source ends inside an interpolation. */
    lemma NeverLeft(depth: nat, holes: seq<Hole>)
      requires holes != [] && EndOf(items) == |source| && StandsIn(Deep(holes, depth))
      ensures Stuck()
    {
      hide ModeOf, Expects;
    }

    /**
     * Scans code from `start` to the end of the source, or to the brace that closes an
     * interpolation. A slash opens a regular expression only where an expression may begin.
     * None exactly where something opens that never closes.
     */
    method Code(start: nat, stopOnBrace: bool, ghost holes: seq<Hole>) returns (end: Option<nat>)
      requires Valid() && Before(start) && start <= |source| && Expects(source, items, alphabet)
      requires StandsIn(holes) && (stopOnBrace <==> holes != []) && Deep(holes, 0) == holes
      modifies this`regions, this`items, this`literals, structure
      ensures if end.Some? then StandsIn(holes) else Stuck()
      ensures end.Some? ==> Scanned(start, end.value)
      ensures end.Some? && stopOnBrace ==> end.value < |source| && source[end.value] == '}'
      ensures end.Some? && stopOnBrace ==> Nested(source, regions, start, end.value)
      ensures end.Some? && !stopOnBrace ==> end.value == |source|
      decreases |source| - start, 4
    {
      hide Valid, Extended, Clear, Opener, From, Nested, NeverUnder, Braces, Settled, Expects, StandsIn, Stuck, Deep;
      ghost var was := AllSpans(literals);
      ExtendedNot(was, start);
      ClearNot(source, regions, start);
      NotUnderYet(source, regions, start);
      FromNot(regions, start);
      SettledNot(source, regions, literals);
      var index := start;
      var braceDepth := 0;
      var expectsExpression := true;
      while index < |source|
        invariant start <= index <= |source| && Valid() && Before(index)
        invariant expectsExpression == Expects(source, items, alphabet)
        invariant old(regions) <= regions && old(literals) <= literals && Extended(was, AllSpans(literals), start, index)
        invariant Clear(source, regions, start, index) && From(old(regions), regions, start)
        invariant Settled(source, old(regions), regions, literals)
        invariant stopOnBrace ==> Counted(start, index, braceDepth)
        invariant StandsIn(Deep(holes, braceDepth))
        decreases |source| - index
      {
        if stopOnBrace && source[index] == '}' && braceDepth == 0 {
          NestedByNow(source, regions, start, index);
          return Some(index);
        }
        ghost var middle, blanked, before := AllSpans(literals), regions, literals;
        var next: Option<nat>;
        next, braceDepth, expectsExpression := Step(index, braceDepth, expectsExpression, start, stopOnBrace, holes);
        if next.None? { return None; }
        FromOn(old(regions), blanked, regions, start, index);
        SettledOn(source, old(regions), blanked, regions, before, literals);
        ClearOn(source, blanked, regions, start, index, next.value);
        ExtendedOn(was, middle, AllSpans(literals), start, index, index, next.value);
        index := next.value;
      }
      if stopOnBrace {
        NeverLeft(braceDepth, holes);
        return None;
      }
      DeepOfNone(braceDepth, holes);
      return Some(index);
    }

    /**
     * The whole source. When lexing succeeds, the structure has the source's length and line
     * breaks; every position outside the regions is the source's own character, and every other
     * is blank; every region and every literal is what it is said to be; the source is read in
     * one way as tokens and regions, a regular expression just where a slash stands and an
     * expression may begin; and the literals' spans, those of nested templates included, are
     * blank and apart from each other. It succeeds exactly when the source has a reading end to
     * end, the literals are those of that reading in its order, and where it fails something
     * opens that never closes.
     */
    method Lex() returns (lexed: Option<Lexed>)
      requires Valid() && literals == [] && regions == [] && items == []
      modifies this`regions, this`items, this`literals, structure
      ensures lexed.Some? ==> lexed.value == Lexed(structure[..], literals)
      ensures lexed.Some? ==> IsWhole(source, items, lexed.value.literals, alphabet)
      ensures lexed.None? ==> IsStuck(source, items, alphabet)
      ensures lexed.Some? <==> exists reading, found :: IsWhole(source, reading, found, alphabet)
      ensures lexed.Some? ==> Valid() && PositionPreserving(source, lexed.value.structure)
      ensures lexed.Some? ==> forall i :: 0 <= i < |source| && !Covered(regions, i) ==> lexed.value.structure[i] == source[i]
      ensures lexed.Some? ==> forall k :: 0 <= k < |regions| ==>
                IsRegion(source, regions[k], alphabet) && IsAccounted(source, regions[k], lexed.value.literals)
      ensures lexed.Some? ==> forall i :: !Opener(lexed.value.structure, i)
      ensures lexed.Some? ==> IsReading(source, items, alphabet) && RegionsOf(items) == regions && EndOf(items) == |source|
      ensures lexed.Some? ==>
        forall k :: 0 <= k < |regions| && regions[k].reason.Regex? ==> ExpectsAt(source, items, regions[k].lo, alphabet)
      ensures lexed.Some? ==>
        forall i :: 0 <= i < |source| && lexed.value.structure[i] == '/' ==> !ExpectsAt(source, items, i, alphabet)
      ensures lexed.Some? ==>
        forall k :: 0 <= k < |lexed.value.literals| ==> HolesClosed(lexed.value.structure, [], lexed.value.literals[k].spans)
      ensures lexed.Some? ==> BlankSpans(source, lexed.value.structure, AllSpans(lexed.value.literals))
      ensures lexed.Some? ==> PairwiseApart(AllSpans(lexed.value.literals))
      ensures lexed.Some? ==> forall k :: 0 <= k < |lexed.value.literals| ==> IsLiteral(source, lexed.value.literals[k])
    {
      var end := Code(0, false, []);
      if end.None? {
        NoneIsWhole();
        return None;
      }
      assert end.value == |source|;
      assert IsWhole(source, items, literals, alphabet);
      forall k, i | 0 <= k < |AllSpans(literals)| && AllSpans(literals)[k].lo <= i < AllSpans(literals)[k].hi
        ensures IsBlank(structure[i])
      {
        assert Covered(regions, i);
      }
      NothingOpens(source, structure[..], regions, items, alphabet);
      forall k | 0 <= k < |regions| && regions[k].reason.Regex? ensures ExpectsAt(source, items, regions[k].lo, alphabet) {
        RegexIsExpected(source, items, k, alphabet);
      }
      forall k | 0 <= k < |literals| ensures HolesClosed(structure[..], [], literals[k].spans) {
        HolesAreVisible(source, structure[..], regions, literals[k].spans);
      }
      return Some(Lexed(structure[..], literals));
    }

    lemma NoneIsWhole()
      requires Stuck()
      ensures !exists reading, found :: IsWhole(source, reading, found, alphabet)
    {
      if reading, found :| IsWhole(source, reading, found, alphabet) {
        WholeOrStuck(source, reading, found, items, alphabet);
        assert false;
      }
    }
  }

  lemma {:induction false} BracesAreVisible(text: string, structure: string, regions: seq<Region>, lo: nat, hi: nat)
    requires BlankedIn(text, structure, regions) && hi <= |text|
    ensures Braces(structure, [], lo, hi) == Braces(text, regions, lo, hi)
    decreases hi
  {
    if lo < hi { BracesAreVisible(text, structure, regions, lo, hi - 1); }
  }

  /** The braces that are counted are those the structure shows. */
  lemma {:induction false} HolesAreVisible(text: string, structure: string, regions: seq<Region>, spans: seq<Span>)
    requires BlankedIn(text, structure, regions) && HolesClosed(text, regions, spans)
    ensures HolesClosed(structure, [], spans)
  {
    if |spans| > 1 {
      var lo, hi := spans[|spans| - 2].hi + 2, spans[|spans| - 1].lo - 1;
      forall k: nat | lo <= k <= hi ensures Braces(structure, [], lo, k) >= 0 {
        BracesAreVisible(text, structure, regions, lo, k);
      }
      BracesAreVisible(text, structure, regions, lo, hi);
      HolesAreVisible(text, structure, regions, spans[..|spans| - 1]);
    }
  }

  /**
   * Nothing opens in the structure: a blank is no part of an opener, what is visible opens
   * nothing in the source, and no visible slash stands where an expression may begin.
   */
  lemma NothingOpens(text: string, structure: string, regions: seq<Region>, items: seq<Item>, alphabet: Alphabet)
    requires BlankedIn(text, structure, regions) && Clear(text, regions, 0, |text|)
    requires IsReading(text, items, alphabet) && RegionsOf(items) == regions && NoneEmpty(regions) && EndOf(items) == |text|
    ensures forall i :: !Opener(structure, i)
    ensures forall i :: 0 <= i < |structure| && structure[i] == '/' ==> !ExpectsAt(text, items, i, alphabet)
  {
    forall i | 0 <= i < |structure| && structure[i] == '/' ensures !ExpectsAt(text, items, i, alphabet) {
      SlashDivides(text, items, i, alphabet);
    }
    forall i: nat ensures !Opener(structure, i) {
      if Opener(structure, i) {
        VisibleOpens(text, structure, regions, i);
      }
    }
  }

  lemma VisibleOpens(text: string, structure: string, regions: seq<Region>, i: nat)
    requires BlankedIn(text, structure, regions) && Opener(structure, i)
    ensures i < |text| && !Covered(regions, i) && Opener(text, i)
  {
    if At(structure, i, "//") || At(structure, i, "/*") {
      assert structure[i] == structure[i..i + 2][0] == '/';
      assert structure[i + 1] == structure[i..i + 2][1];
      assert text[i + 1] == structure[i + 1];
      assert text[i..i + 2] == structure[i..i + 2];
    }
  }
}
