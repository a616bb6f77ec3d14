/** The scan for the strings and numbers of a JSON text, and the grammar whose tokens it must find. */
module JsonTokens {
  import opened Options
  import opened Decimals

  // ------------------------------------------------------------------------------------------
  // The scan.

  /** A number in its parts: its sign, the digits before the point, those after it, and the exponent. */
  datatype NumberToken = NumberToken(negative: bool, whole: string, fraction: string, exponent: string)

  datatype Token = StringToken(body: string) | Numeric(number: NumberToken)

  datatype Match = Match(token: Token, length: nat)

  predicate IsLineTerminator(c: char) { c == '\n' || c == '\r' || c == '\U{2028}' || c == '\U{2029}' }

  /** How many characters lie before the quote that ends a string, whose opening quote is already read. */
  function StringBody(s: string): (length: Option<nat>)
    ensures length.Some? ==> length.value < |s| && s[length.value] == '"'
  {
    if s == "" then None
    else if s[0] == '"' then Some(0)
    else if s[0] == '\\' then
      if |s| < 2 || IsLineTerminator(s[1]) then None
      else if StringBody(s[2..]).None? then None else Some(StringBody(s[2..]).value + 2)
    else if StringBody(s[1..]).None? then None else Some(StringBody(s[1..]).value + 1)
  }

  /** How many digits a text starts with. */
  function DigitRun(s: string): (length: nat)
    ensures length <= |s| && AllDigits(s[..length])
    ensures length < |s| ==> !IsDigit(s[length])
  {
    if s == "" || !IsDigit(s[0]) then 0
    else
      var rest := DigitRun(s[1..]);
      assert s[..rest + 1] == [s[0]] + s[1..][..rest];
      rest + 1
  }

  /** The digits before the point: a zero alone, or digits that start with none. */
  function WholeRun(s: string): (length: nat)
    ensures length <= |s| && AllDigits(s[..length])
  {
    if s == "" || !IsDigit(s[0]) then 0 else if s[0] == '0' then 1 else DigitRun(s)
  }

  /** The point and the digits after it, if both are there. */
  function FractionRun(s: string): (length: nat)
    ensures length <= |s|
    ensures length == 0 || (length > 1 && s[0] == '.' && AllDigits(s[1..length]))
  {
    if |s| < 2 || s[0] != '.' || !IsDigit(s[1]) then 0
    else
      assert s[1..DigitRun(s[1..]) + 1] == s[1..][..DigitRun(s[1..])];
      DigitRun(s[1..]) + 1
  }

  predicate IsSign(c: char) { c == '+' || c == '-' }

  predicate IsExponentMark(c: char) { c == 'e' || c == 'E' }

  /** An exponent as it is written: digits, with at most one sign before them. */
  predicate IsExponent(s: string) {
    s != "" && if IsSign(s[0]) then |s| > 1 && AllDigits(s[1..]) else AllDigits(s)
  }

  /** The mark and the exponent, if both are there. */
  function ExponentRun(s: string): (length: nat)
    ensures length <= |s|
    ensures length == 0 || (length > 1 && IsExponentMark(s[0]) && IsExponent(s[1..length]))
  {
    if |s| < 2 || !IsExponentMark(s[0]) then 0
    else if IsSign(s[1]) then
      var digits := DigitRun(s[2..]);
      assert s[1..digits + 2][1..] == s[2..][..digits];
      if digits == 0 then 0 else digits + 2
    else
      var digits := DigitRun(s[1..]);
      assert s[1..digits + 1] == s[1..][..digits];
      if digits == 0 then 0 else digits + 1
  }

  predicate IsNumberToken(n: NumberToken) {
    n.whole != "" && AllDigits(n.whole) && AllDigits(n.fraction) && IsExponent(n.exponent)
  }

  function NumberAt(s: string): (found: Option<Match>)
    ensures found.Some? ==> 0 < found.value.length <= |s| && found.value.token.Numeric?
    ensures found.Some? ==> IsNumberToken(found.value.token.number)
    ensures found.Some? ==>
      |found.value.token.number.whole| + |found.value.token.number.fraction| <= |s|
  {
    var sign := if s != "" && s[0] == '-' then 1 else 0;
    var whole := WholeRun(s[sign..]);
    if whole == 0 then None
    else
      var point := sign + whole;
      var fraction := FractionRun(s[point..]);
      var mark := point + fraction;
      var exponent := ExponentRun(s[mark..]);
      Some(Match(Numeric(NumberToken(sign == 1, s[sign..][..whole],
                                     if fraction == 0 then "" else s[point..][1..fraction],
                                     if exponent == 0 then "0" else s[mark..][1..exponent])), mark + exponent))
  }

  /** The token a text starts with, if it starts with one. */
  function TokenAt(s: string): (found: Option<Match>)
    ensures found.Some? ==> 0 < found.value.length <= |s|
    ensures found.Some? && found.value.token.Numeric? ==> IsNumberToken(found.value.token.number)
    ensures found.Some? && found.value.token.Numeric? ==>
      |found.value.token.number.whole| + |found.value.token.number.fraction| <= |s|
  {
    if s == "" then None
    else if s[0] == '"' then
      var body := StringBody(s[1..]);
      if body.None? then None else Some(Match(StringToken(s[1..][..body.value]), body.value + 2))
    else NumberAt(s)
  }

  /** The tokens of a text: at each place the token it starts with, or else on from the next place. */
  function Scan(s: string): seq<Token> {
    if s == "" then []
    else if TokenAt(s).Some? then [TokenAt(s).value.token] + Scan(s[TokenAt(s).value.length..])
    else Scan(s[1..])
  }

  // ------------------------------------------------------------------------------------------
  // The grammar of section 2 to section 7 of RFC 8259.

  datatype Exponent = Exponent(mark: char, sign: string, digits: string)

  datatype Number = Number(negative: bool, whole: string, fraction: string, exponent: Option<Exponent>)

  datatype Json =
    | Word(word: string)
    | Text(body: string)
    | Num(number: Number)
    | Array(space: string, items: Items)
    | Object(space: string, members: Members)

  datatype Items = NoItem | Item(before: string, value: Json, after: string, more: Items)

  datatype Members =
    | NoMember
    | Member(before: string, key: string, beforeColon: string, afterColon: string, value: Json, after: string, others: Members)

  predicate IsSpace(s: string) {
    forall i :: 0 <= i < |s| ==> s[i] in " \t\n\r"
  }

  /** Each quote and backslash of the body stands after a backslash of its own, and each backslash has its character. */
  predicate IsBody(s: string) {
    s == "" || (s[0] != '"' && if s[0] == '\\' then |s| > 1 && !IsLineTerminator(s[1]) && IsBody(s[2..]) else IsBody(s[1..]))
  }

  predicate IsWrittenExponent(e: Option<Exponent>) {
    e.Some? ==>
      IsExponentMark(e.value.mark) && e.value.digits != "" && AllDigits(e.value.digits) && e.value.sign in ["", "+", "-"]
  }

  predicate IsNumber(n: Number) {
    && n.whole != "" && AllDigits(n.whole) && (n.whole[0] == '0' ==> |n.whole| == 1) && AllDigits(n.fraction)
    && IsWrittenExponent(n.exponent)
  }

  predicate IsJson(json: Json) {
    match json
    case Word(word) => word in ["true", "false", "null"]
    case Text(body) => IsBody(body)
    case Num(number) => IsNumber(number)
    case Array(space, items) => IsSpace(space) && AreItems(items)
    case Object(space, members) => IsSpace(space) && AreMembers(members)
  }

  predicate AreItems(items: Items) {
    items.Item? ==> IsSpace(items.before) && IsJson(items.value) && IsSpace(items.after) && AreItems(items.more)
  }

  predicate AreMembers(members: Members) {
    members.Member? ==>
      && IsSpace(members.before) && IsBody(members.key) && IsSpace(members.beforeColon) && IsSpace(members.afterColon)
      && IsJson(members.value) && IsSpace(members.after) && AreMembers(members.others)
  }

  function ExponentText(e: Option<Exponent>): string {
    if e.None? then "" else [e.value.mark] + e.value.sign + e.value.digits
  }

  function FractionText(fraction: string): string {
    if fraction == "" then "" else "." + fraction
  }

  function Minus(negative: bool): string { if negative then "-" else "" }

  function NumberText(n: Number): string {
    Minus(n.negative) + (n.whole + (FractionText(n.fraction) + ExponentText(n.exponent)))
  }

  function Quoted(body: string): string { "\"" + body + "\"" }

  /** The text of a JSON value. */
  function TextOf(json: Json): string {
    match json
    case Word(word) => word
    case Text(body) => Quoted(body)
    case Num(number) => NumberText(number)
    case Array(space, items) => "[" + (space + (ItemsText(items) + "]"))
    case Object(space, members) => "{" + (space + (MembersText(members) + "}"))
  }

  function Comma(last: bool): string { if last then "" else "," }

  function ItemsText(items: Items): string {
    if items.NoItem? then ""
    else items.before + (TextOf(items.value) + (items.after + (Comma(items.more.NoItem?) + ItemsText(items.more))))
  }

  function MembersText(members: Members): string {
    if members.NoMember? then ""
    else
      members.before + (Quoted(members.key) + (members.beforeColon + (":" + (members.afterColon
      + (TextOf(members.value) + (members.after + (Comma(members.others.NoMember?) + MembersText(members.others))))))))
  }

  function TokenOf(n: Number): NumberToken {
    NumberToken(n.negative, n.whole, n.fraction, if n.exponent.None? then "0" else n.exponent.value.sign + n.exponent.value.digits)
  }

  /** The strings and numbers of a JSON value, in the order they are written. */
  function TokensOf(json: Json): seq<Token> {
    match json
    case Word(_) => []
    case Text(body) => [StringToken(body)]
    case Num(number) => [Numeric(TokenOf(number))]
    case Array(_, items) => ItemsTokens(items)
    case Object(_, members) => MembersTokens(members)
  }

  function ItemsTokens(items: Items): seq<Token> {
    if items.NoItem? then [] else TokensOf(items.value) + ItemsTokens(items.more)
  }

  function MembersTokens(members: Members): seq<Token> {
    if members.NoMember? then []
    else [StringToken(members.key)] + TokensOf(members.value) + MembersTokens(members.others)
  }

  // ------------------------------------------------------------------------------------------
  // The scan finds the grammar's tokens.

  /** No token starts in the text. */
  predicate StartsNoToken(s: string) {
    forall i :: 0 <= i < |s| ==> s[i] != '"' && s[i] != '-' && !IsDigit(s[i])
  }

  /** What follows does not go on with a number. */
  predicate EndsANumber(rest: string) {
    rest == "" || (!IsDigit(rest[0]) && rest[0] != '.' && !IsExponentMark(rest[0]))
  }

  lemma {:induction false} ScanSkips(plain: string, rest: string)
    requires StartsNoToken(plain)
    ensures Scan(plain + rest) == Scan(rest)
  {
    if plain == "" {
      assert plain + rest == rest;
    } else {
      var s := plain + rest;
      assert plain[0] in plain && s[0] == plain[0] && s[1..] == plain[1..] + rest;
      assert s[0..] == s;
      assert TokenAt(s).None?;
      ScanSkips(plain[1..], rest);
    }
  }

  lemma {:induction false} BodyIsRead(body: string, rest: string)
    requires IsBody(body)
    ensures StringBody(body + ("\"" + rest)) == Some(|body|)
  {
    var s := body + ("\"" + rest);
    if body == "" {
      assert s[0] == '"';
    } else if body[0] == '\\' {
      assert s[2..] == body[2..] + ("\"" + rest);
      BodyIsRead(body[2..], rest);
    } else {
      assert s[1..] == body[1..] + ("\"" + rest);
      BodyIsRead(body[1..], rest);
    }
  }

  lemma ScanString(body: string, rest: string)
    requires IsBody(body)
    ensures Scan(Quoted(body) + rest) == [StringToken(body)] + Scan(rest)
  {
    BodyIsRead(body, rest);
    var s := Quoted(body) + rest;
    assert s[1..] == body + ("\"" + rest);
    assert s[1..][..|body|] == body;
    assert s[|body| + 2..] == rest;
  }

  lemma {:induction false} DigitsAreRead(digits: string, rest: string)
    requires AllDigits(digits) && (rest == "" || !IsDigit(rest[0]))
    ensures DigitRun(digits + rest) == |digits|
  {
    var s := digits + rest;
    if digits != "" {
      assert s[1..] == digits[1..] + rest;
      DigitsAreRead(digits[1..], rest);
    }
  }

  lemma WholeIsRead(whole: string, rest: string)
    requires whole != "" && AllDigits(whole) && (whole[0] == '0' ==> |whole| == 1) && (rest == "" || !IsDigit(rest[0]))
    ensures WholeRun(whole + rest) == |whole|
  {
    DigitsAreRead(whole, rest);
  }

  lemma FractionIsRead(fraction: string, rest: string)
    requires AllDigits(fraction) && (rest == "" || (!IsDigit(rest[0]) && rest[0] != '.'))
    ensures FractionRun(FractionText(fraction) + rest) == |FractionText(fraction)|
  {
    var s := FractionText(fraction) + rest;
    if fraction != "" {
      assert s[1..] == fraction + rest;
      DigitsAreRead(fraction, rest);
    }
  }

  lemma UnsignedIsRead(mark: char, digits: string, rest: string)
    requires IsExponentMark(mark) && digits != "" && AllDigits(digits) && (rest == "" || !IsDigit(rest[0]))
    ensures ExponentRun([mark] + digits + rest) == |digits| + 1
  {
    var s := [mark] + digits + rest;
    DigitsAreRead(digits, rest);
    assert s[1..] == digits + rest;
    assert s[1] == digits[0];
  }

  lemma SignedIsRead(mark: char, sign: char, digits: string, rest: string)
    requires IsExponentMark(mark) && IsSign(sign) && digits != "" && AllDigits(digits) && (rest == "" || !IsDigit(rest[0]))
    ensures ExponentRun([mark] + [sign] + digits + rest) == |digits| + 2
  {
    var s := [mark] + [sign] + digits + rest;
    DigitsAreRead(digits, rest);
    assert s[2..] == digits + rest;
  }

  lemma ExponentIsRead(e: Option<Exponent>, rest: string)
    requires IsWrittenExponent(e) && EndsANumber(rest)
    ensures ExponentRun(ExponentText(e) + rest) == |ExponentText(e)|
    ensures var s := ExponentText(e) + rest; s == "" || (!IsDigit(s[0]) && s[0] != '.')
  {
    if e.Some? {
      if e.value.sign == "" {
        UnsignedIsRead(e.value.mark, e.value.digits, rest);
        assert [e.value.mark] + e.value.digits == ExponentText(e);
      } else {
        SignedIsRead(e.value.mark, e.value.sign[0], e.value.digits, rest);
        assert [e.value.sign[0]] == e.value.sign;
      }
    }
  }

  lemma DropThree(a: string, b: string, c: string, rest: string)
    ensures (a + (b + (c + rest)))[|a|..] == b + (c + rest)
    ensures (a + (b + (c + rest)))[|a| + |b|..] == c + rest
    ensures (a + (b + (c + rest)))[|a| + |b| + |c|..] == rest
  {
  }

  lemma Prefixed(first: string, rest: string)
    ensures first <= first + rest
    ensures first != "" ==> (first + rest)[0] == first[0]
  {
  }

  lemma PrefixSlices(s: string, first: string)
    requires first <= s
    ensures s[..|first|] == first
    ensures |first| > 0 ==> s[1..|first|] == first[1..]
  {
  }

  lemma NumberAtParts(s: string, sign: nat, atWhole: string, whole: string, atFraction: string, fraction: string,
                      atExponent: string, exponent: string)
    requires sign == (if s != "" && s[0] == '-' then 1 else 0) && sign <= |s| && s[sign..] == atWhole
    requires whole <= atWhole && WholeRun(atWhole) == |whole| > 0
    requires sign + |whole| <= |s| && s[sign + |whole|..] == atFraction
    requires fraction <= atFraction && FractionRun(atFraction) == |fraction|
    requires sign + |whole| + |fraction| <= |s| && s[sign + |whole| + |fraction|..] == atExponent
    requires exponent <= atExponent && ExponentRun(atExponent) == |exponent|
    ensures NumberAt(s) == Some(Match(Numeric(NumberToken(sign == 1, whole, if |fraction| == 0 then "" else fraction[1..],
                                                          if |exponent| == 0 then "0" else exponent[1..])),
                                      sign + |whole| + |fraction| + |exponent|))
  {
    hide WholeRun, FractionRun, ExponentRun, AllDigits, IsExponent;
    PrefixSlices(atWhole, whole);
    PrefixSlices(atFraction, fraction);
    PrefixSlices(atExponent, exponent);
  }

  lemma NumberOfParts(minus: string, whole: string, fraction: string, exponent: string, rest: string)
    requires (minus == "" || minus == "-") && whole != "" && (minus == "" ==> whole[0] != '-')
    requires WholeRun(whole + (fraction + (exponent + rest))) == |whole|
    requires FractionRun(fraction + (exponent + rest)) == |fraction|
    requires ExponentRun(exponent + rest) == |exponent|
    ensures NumberAt(minus + (whole + (fraction + (exponent + rest)))) ==
      Some(Match(Numeric(NumberToken(minus == "-", whole, if |fraction| == 0 then "" else fraction[1..],
                                     if |exponent| == 0 then "0" else exponent[1..])),
                 |minus| + |whole| + |fraction| + |exponent|))
  {
    hide *;
    DropThree(minus, whole, fraction, exponent + rest);
    Prefixed(minus, whole + (fraction + (exponent + rest)));
    Prefixed(whole, fraction + (exponent + rest));
    Prefixed(fraction, exponent + rest);
    Prefixed(exponent, rest);
    NumberAtParts(minus + (whole + (fraction + (exponent + rest))), |minus|, whole + (fraction + (exponent + rest)), whole,
                  fraction + (exponent + rest), fraction, exponent + rest, exponent);
  }

  lemma TextRegroups(n: Number, rest: string)
    ensures NumberText(n) + rest == Minus(n.negative) + (n.whole + (FractionText(n.fraction) + (ExponentText(n.exponent) + rest)))
    ensures |NumberText(n)| == |Minus(n.negative)| + |n.whole| + |FractionText(n.fraction)| + |ExponentText(n.exponent)|
  {
    hide FractionText, ExponentText, Minus;
  }

  lemma PartsAreWritten(n: Number)
    ensures var f := FractionText(n.fraction); (|f| == 0 <==> n.fraction == "") && (|f| > 0 ==> f[1..] == n.fraction)
    ensures var e := ExponentText(n.exponent);
      (|e| == 0 <==> n.exponent.None?) && (|e| > 0 ==> e[1..] == n.exponent.value.sign + n.exponent.value.digits)
  {
  }

  lemma NumberIsRead(n: Number, rest: string)
    requires IsNumber(n) && EndsANumber(rest)
    ensures NumberAt(NumberText(n) + rest) == Some(Match(Numeric(TokenOf(n)), |NumberText(n)|))
  {
    hide *;
    PartsAreRead(n, rest);
    TextRegroups(n, rest);
    NumberOfParts(Minus(n.negative), n.whole, FractionText(n.fraction), ExponentText(n.exponent), rest);
    TokenIs(n);
  }

  lemma TokenIs(n: Number)
    ensures TokenOf(n) == NumberToken(Minus(n.negative) == "-", n.whole,
                                      if |FractionText(n.fraction)| == 0 then "" else FractionText(n.fraction)[1..],
                                      if |ExponentText(n.exponent)| == 0 then "0" else ExponentText(n.exponent)[1..])
  {
    PartsAreWritten(n);
  }

  lemma PartsAreRead(n: Number, rest: string)
    requires IsNumber(n) && EndsANumber(rest)
    ensures Minus(n.negative) == "" || Minus(n.negative) == "-"
    ensures n.whole != "" && n.whole[0] != '-'
    ensures var fraction, exponent := FractionText(n.fraction), ExponentText(n.exponent);
      && WholeRun(n.whole + (fraction + (exponent + rest))) == |n.whole| > 0
      && FractionRun(fraction + (exponent + rest)) == |fraction|
      && ExponentRun(exponent + rest) == |exponent|
  {
    assert IsDigit(n.whole[0]);
    ExponentIsRead(n.exponent, rest);
    FractionIsRead(n.fraction, ExponentText(n.exponent) + rest);
    WholeIsRead(n.whole, FractionText(n.fraction) + (ExponentText(n.exponent) + rest));
  }

  lemma ScanNumber(n: Number, rest: string)
    requires IsNumber(n) && EndsANumber(rest)
    ensures Scan(NumberText(n) + rest) == [Numeric(TokenOf(n))] + Scan(rest)
  {
    NumberIsRead(n, rest);
    var s := NumberText(n) + rest;
    assert s[0] == if n.negative then '-' else n.whole[0];
    assert s[|NumberText(n)|..] == rest;
  }

  lemma {:induction false} ScanJson(json: Json, rest: string)
    requires IsJson(json) && EndsANumber(rest)
    ensures Scan(TextOf(json) + rest) == TokensOf(json) + Scan(rest)
    decreases json
  {
    match json
    case Word(word) => ScanSkips(word, rest);
    case Text(body) => ScanString(body, rest);
    case Num(number) => ScanNumber(number, rest);
    case Array(space, items) =>
      Bracketed('[', space, ItemsText(items), "]", rest);
      hide Scan, IsSpace;
      ScanSkips(['['] + space, ItemsText(items) + ("]" + rest));
      ScanItems(items, "]" + rest);
      ScanSkips("]", rest);
    case Object(space, members) =>
      Bracketed('{', space, MembersText(members), "}", rest);
      hide Scan, IsSpace;
      ScanSkips(['{'] + space, MembersText(members) + ("}" + rest));
      ScanMembers(members, "}" + rest);
      ScanSkips("}", rest);
  }

  lemma Bracketed(open: char, space: string, inner: string, close: string, rest: string)
    requires IsSpace(space) && (open == '[' || open == '{')
    ensures [open] + (space + (inner + close)) + rest == ([open] + space) + (inner + (close + rest))
    ensures StartsNoToken([open] + space)
  {
  }

  lemma RegroupItem(before: string, value: string, after: string, comma: string, more: string, rest: string)
    ensures before + (value + (after + (comma + more))) + rest == before + (value + ((after + comma) + (more + rest)))
  {
  }

  lemma RegroupMember(before: string, key: string, colon: (string, string), value: string, after: string, comma: string,
                      more: string, rest: string)
    ensures before + (key + (colon.0 + (":" + (colon.1 + (value + (after + (comma + more))))))) + rest
         == before + (key + ((colon.0 + ":" + colon.1) + (value + ((after + comma) + (more + rest)))))
  {
    var tail := value + (after + (comma + more));
    assert colon.0 + (":" + (colon.1 + tail)) == (colon.0 + ":" + colon.1) + tail;
    RegroupItem(key, colon.0 + ":" + colon.1, value + after, comma, more, rest);
    assert tail == (value + after) + (comma + more);
    assert (value + after + comma) + (more + rest) == value + ((after + comma) + (more + rest));
  }

  /** Spaces and commas hold no token, and end a number. */
  lemma BetweenIsPlain(after: string, last: bool, more: string, rest: string)
    requires IsSpace(after) && EndsANumber(rest) && (last ==> more == "")
    ensures StartsNoToken(after) && StartsNoToken(after + Comma(last))
    ensures EndsANumber((after + Comma(last)) + (more + rest))
  {
    assert after != "" ==> after[0] in after;
  }

  lemma {:induction false} ScanItems(items: Items, rest: string)
    requires AreItems(items) && EndsANumber(rest)
    ensures Scan(ItemsText(items) + rest) == ItemsTokens(items) + Scan(rest)
    decreases items
  {
    if items.NoItem? {
      assert ItemsText(items) + rest == rest;
    } else {
      var last, more := items.more.NoItem?, ItemsText(items.more);
      var later := (items.after + Comma(last)) + (more + rest);
      RegroupItem(items.before, TextOf(items.value), items.after, Comma(last), more, rest);
      BetweenIsPlain(items.before, true, "", "");
      BetweenIsPlain(items.after, last, more, rest);
      hide StartsNoToken, EndsANumber, TokenAt, Scan, TextOf, Comma, IsSpace, IsJson;
      ScanSkips(items.before, TextOf(items.value) + later);
      ScanJson(items.value, later);
      ScanSkips(items.after + Comma(last), more + rest);
      ScanItems(items.more, rest);
    }
  }

  lemma ColonIsPlain(before: string, after: string)
    requires IsSpace(before) && IsSpace(after)
    ensures StartsNoToken(before + ":" + after)
  {
  }

  lemma JoinFour(a: seq<Token>, b: seq<Token>, c: seq<Token>, d: seq<Token>)
    ensures a + b + c + d == a + (b + (c + d))
  {
  }

  lemma MembersUnfold(members: Members)
    requires members.Member?
    ensures MembersText(members) ==
      members.before + (Quoted(members.key) + (members.beforeColon + (":" + (members.afterColon
      + (TextOf(members.value) + (members.after + (Comma(members.others.NoMember?) + MembersText(members.others))))))))
    ensures MembersTokens(members) == [StringToken(members.key)] + TokensOf(members.value) + MembersTokens(members.others)
  {
  }

  lemma {:induction false} ScanMembers(members: Members, rest: string)
    requires AreMembers(members) && EndsANumber(rest)
    ensures Scan(MembersText(members) + rest) == MembersTokens(members) + Scan(rest)
    decreases members
  {
    if members.NoMember? {
      assert MembersText(members) + rest == rest;
    } else {
      var last, more := members.others.NoMember?, MembersText(members.others);
      var later := (members.after + Comma(last)) + (more + rest);
      var colon := members.beforeColon + ":" + members.afterColon;
      var value := TextOf(members.value);
      RegroupMember(members.before, Quoted(members.key), (members.beforeColon, members.afterColon), value, members.after,
                    Comma(last), more, rest);
      BetweenIsPlain(members.before, true, "", "");
      BetweenIsPlain(members.after, last, more, rest);
      ColonIsPlain(members.beforeColon, members.afterColon);
      JoinFour([StringToken(members.key)], TokensOf(members.value), MembersTokens(members.others), Scan(rest));
      MembersUnfold(members);
      hide StartsNoToken, EndsANumber, TokenAt, Scan, TextOf, Comma, IsSpace, IsJson, IsBody, Quoted, MembersText, MembersTokens;
      ScanSkips(members.before, Quoted(members.key) + (colon + (value + later)));
      ScanString(members.key, colon + (value + later));
      ScanSkips(colon, value + later);
      ScanJson(members.value, later);
      ScanSkips(members.after + Comma(last), more + rest);
      ScanMembers(members.others, rest);
    }
  }

  /** A JSON text's scan is its strings and numbers, in the order they are written: no digit of a string is one. */
  lemma ScanIsTheGrammar(before: string, json: Json, after: string)
    requires IsSpace(before) && IsJson(json) && IsSpace(after)
    ensures Scan(before + (TextOf(json) + after)) == TokensOf(json)
  {
    BetweenIsPlain(before, true, "", "");
    BetweenIsPlain(after, true, "", "");
    assert after + Comma(true) + ("" + "") == after && after + "" == after;
    ScanSkips(before, TextOf(json) + after);
    ScanJson(json, after);
    ScanSkips(after, "");
  }
}
