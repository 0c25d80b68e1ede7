/**
 The text of a label selector.  A client joins its labels to `key=value,...` without escaping
 anything; the API server reads the text in the grammar of Kubernetes selectors, which also has
 `==`, `!=`, `in (...)`, `notin (...)`, `<`, `>`, bare keys and `!key`.
 */
module LabelSelectors {
  import opened Wrappers
  import opened Selectors
  import opened Timeouts

  // ----- label syntax

  predicate IsAlnum(c: char) {
    'a' <= c <= 'z' || 'A' <= c <= 'Z' || '0' <= c <= '9'
  }

  predicate IsNameChar(c: char) {
    IsAlnum(c) || c == '-' || c == '_' || c == '.'
  }

  /** At most 63 name characters with a letter or digit at both ends. */
  predicate IsName(s: string) {
    1 <= |s| <= 63 && IsAlnum(s[0]) && IsAlnum(s[|s| - 1]) && forall i :: 0 <= i < |s| ==> IsNameChar(s[i])
  }

  predicate IsLowerAlnum(c: char) {
    'a' <= c <= 'z' || '0' <= c <= '9'
  }

  predicate IsSubdomainChar(s: string, i: nat)
    requires i < |s|
  {
    || IsLowerAlnum(s[i])
    || (s[i] == '-' && 0 < i < |s| - 1)
    || (s[i] == '.' && 0 < i < |s| - 1 && IsLowerAlnum(s[i - 1]) && IsLowerAlnum(s[i + 1]))
  }

  /** A DNS subdomain: parts of lower-case letters, digits and inner hyphens, joined by dots. */
  predicate IsSubdomain(s: string) {
    && 1 <= |s| <= 253
    && (forall i :: 0 <= i < |s| ==> IsSubdomainChar(s, i))
  }

  predicate IsLabelKey(s: string) {
    IsName(s) || exists i :: 0 <= i < |s| && s[i] == '/' && IsSubdomain(s[..i]) && IsName(s[i + 1..])
  }

  predicate IsLabelValue(s: string) {
    s == "" || IsName(s)
  }

  // ----- what the client sends

  type Pairs = seq<(string, string)>

  /** The pairs of a map in some order; the client's library sorts them. */
  ghost predicate Enumerates(pairs: Pairs, labels: Labels) {
    && (forall p :: p in pairs ==> p.0 in labels && labels[p.0] == p.1)
    && (forall k :: k in labels ==> (k, labels[k]) in pairs)
  }

  /** `labels.Set.String` */
  function Render(pairs: Pairs): string
    decreases |pairs|, 0
  {
    if pairs == [] then ""
    else pairs[0].0 + ("=" + (pairs[0].1 + RenderTail(pairs[1..])))
  }

  function RenderTail(pairs: Pairs): string
    decreases |pairs|, 1
  {
    if pairs == [] then "" else "," + Render(pairs)
  }

  /** The text for a map, which is joined pair by pair. */
  method SelectorOf(labels: Labels) returns (text: string, ghost pairs: Pairs)
    ensures Enumerates(pairs, labels) && text == Render(pairs)
  {
    text, pairs := "", [];
    var todo := labels.Keys;
    while todo != {}
      invariant todo <= labels.Keys && text == Render(pairs)
      invariant forall p :: p in pairs ==> p.0 in labels && labels[p.0] == p.1
      invariant forall k :: k in labels && k !in todo ==> (k, labels[k]) in pairs
    {
      var k :| k in todo;
      ghost var before := pairs;
      text := k + "=" + labels[k] + if text == "" then "" else "," + text;
      pairs := [(k, labels[k])] + pairs;
      assert pairs[1..] == before;
      EmptyTextIsNoPairs(before);
      todo := todo - {k};
    }
  }

  lemma EmptyTextIsNoPairs(pairs: Pairs)
    ensures Render(pairs) == "" <==> pairs == []
  {
    if pairs != [] {
      assert |Render(pairs)| >= |pairs[0].0| + 1;
    }
  }

  // ----- how the server reads: words and symbols

  datatype Token =
    | Ident(word: string) | Equal | DoubleEqual | Bang | NotEqual | Open | Close | Comma | Greater | Less

  predicate IsBlank(c: char) {
    c == ' ' || c == '\t' || c == '\r' || c == '\n'
  }

  predicate IsSymbol(c: char) {
    c == '=' || c == '!' || c == '(' || c == ')' || c == ',' || c == '>' || c == '<'
  }

  predicate IsWordChar(c: char) {
    c != '\0' && !IsBlank(c) && !IsSymbol(c)
  }

  function WordLength(s: string): (n: nat)
    ensures n <= |s|
    ensures s != "" && IsWordChar(s[0]) ==> n > 0
  {
    if s == "" || !IsWordChar(s[0]) then 0 else 1 + WordLength(s[1..])
  }

  function SymbolOf(c: char): Token
    requires IsSymbol(c)
  {
    match c
    case '=' => Equal
    case '!' => Bang
    case '(' => Open
    case ')' => Close
    case ',' => Comma
    case '>' => Greater
    case _ => Less
  }

  /** The scanner takes a zero byte for the end, and has consumed it when it ends a word or a symbol. */
  function SkipZero(s: string): (r: string)
    ensures |r| <= |s|
  {
    if s != "" && s[0] == '\0' then s[1..] else s
  }

  function Lex(s: string): seq<Token>
    decreases |s|
  {
    if s == "" || s[0] == '\0' then []
    else if IsBlank(s[0]) then Lex(s[1..])
    else if IsSymbol(s[0]) then
      if |s| > 1 && s[1] == '=' && (s[0] == '=' || s[0] == '!')
      then [if s[0] == '=' then DoubleEqual else NotEqual] + Lex(SkipZero(s[2..]))
      else [SymbolOf(s[0])] + Lex(SkipZero(s[1..]))
    else
      [Ident(s[..WordLength(s)])] + Lex(SkipZero(s[WordLength(s)..]))
  }

  // ----- how the server reads: requirements

  datatype Operator = In | NotIn | Exists | DoesNotExist | GreaterThan | LessThan

  /** `=` and `==` are `In` one value, `!=` is `NotIn` one. */
  datatype Requirement = Requirement(key: string, op: Operator, values: set<string>)

  type Selector = seq<Requirement>

  predicate InLabelSyntax(r: Requirement) {
    IsLabelKey(r.key) && forall v :: v in r.values ==> IsLabelValue(v)
  }

  predicate IsValid(r: Requirement) {
    && InLabelSyntax(r)
    && (r.op == GreaterThan || r.op == LessThan ==> forall v :: v in r.values ==> Atoi(v).Some?)
  }

  datatype Parsed<T> = Parsed(value: T, rest: seq<Token>)

  predicate Begins(tokens: seq<Token>, t: Token) {
    tokens != [] && tokens[0] == t
  }

  /** A value stands alone, or is empty before a comma or the end. */
  function ParseExactValue(tokens: seq<Token>): Option<Parsed<set<string>>> {
    if tokens == [] || tokens[0] == Comma then Some(Parsed({""}, tokens))
    else if tokens[0].Ident? then Some(Parsed({tokens[0].word}, tokens[1..]))
    else None
  }

  /** Values between parentheses, up to the closing one; empty ones count. */
  function ParseList(tokens: seq<Token>, values: set<string>): Option<Parsed<set<string>>>
    decreases |tokens|
  {
    if tokens == [] then None
    else
      var rest := tokens[1..];
      match tokens[0]
      case Ident(word) =>
        if Begins(rest, Comma) then ParseList(rest, values + {word})
        else if Begins(rest, Close) then Some(Parsed(values + {word}, rest[1..]))
        else None
      case Comma =>
        var seen := if values == {} then {""} else values;
        if Begins(rest, Close) then Some(Parsed(seen + {""}, rest[1..]))
        else if Begins(rest, Comma) then ParseList(rest[1..], seen + {""})
        else ParseList(rest, seen)
      case _ => None
  }

  function ParseValues(tokens: seq<Token>): Option<Parsed<set<string>>> {
    if !Begins(tokens, Open) then None
    else if Begins(tokens[1..], Close) then Some(Parsed({""}, tokens[2..]))
    else ParseList(tokens[1..], {})
  }

  /** What follows the key: the operator with its values. */
  function ParseOperator(key: string, tokens: seq<Token>): Option<Parsed<Requirement>> {
    if tokens == [] then None
    else
      var rest := tokens[1..];
      match tokens[0]
      case Equal => WithValues(key, In, ParseExactValue(rest))
      case DoubleEqual => WithValues(key, In, ParseExactValue(rest))
      case NotEqual => WithValues(key, NotIn, ParseExactValue(rest))
      case Greater => WithValues(key, GreaterThan, ParseExactValue(rest))
      case Less => WithValues(key, LessThan, ParseExactValue(rest))
      case Ident(word) =>
        if word == "in" then WithValues(key, In, ParseValues(rest))
        else if word == "notin" then WithValues(key, NotIn, ParseValues(rest))
        else None
      case _ => None
  }

  function WithValues(key: string, op: Operator, values: Option<Parsed<set<string>>>): Option<Parsed<Requirement>> {
    if values.None? then None else Checked(Parsed(Requirement(key, op, values.value.value), values.value.rest))
  }

  function Checked(p: Parsed<Requirement>): Option<Parsed<Requirement>> {
    if IsValid(p.value) then Some(p) else None
  }

  function ParseRequirement(tokens: seq<Token>): Option<Parsed<Requirement>> {
    if |tokens| >= 2 && tokens[0] == Bang && tokens[1].Ident? then
      Checked(Parsed(Requirement(tokens[1].word, DoesNotExist, {}), tokens[2..]))
    else if tokens == [] || !tokens[0].Ident? then None
    else if |tokens| == 1 || tokens[1] == Comma then
      Checked(Parsed(Requirement(tokens[0].word, Exists, {}), tokens[1..]))
    else ParseOperator(tokens[0].word, tokens[1..])
  }

  lemma ListIsShorter(tokens: seq<Token>, values: set<string>)
    ensures var r := ParseList(tokens, values); r.Some? ==> |r.value.rest| < |tokens|
    decreases |tokens|
  {
  }

  lemma RequirementIsShorter(tokens: seq<Token>)
    ensures var r := ParseRequirement(tokens); r.Some? ==> |r.value.rest| < |tokens|
  {
    if |tokens| > 3 {
      ListIsShorter(tokens[3..], {});
    }
  }

  function ParseAll(tokens: seq<Token>): Option<Selector>
    decreases |tokens|
  {
    if tokens == [] then Some([])
    else
      RequirementIsShorter(tokens);
      match ParseRequirement(tokens)
      case None => None
      case Some(Parsed(r, rest)) =>
        if rest == [] then Some([r])
        else if rest[0] == Comma && |rest| > 1 && (rest[1].Ident? || rest[1] == Bang) then
          match ParseAll(rest[1..])
          case None => None
          case Some(rs) => Some([r] + rs)
        else None
  }

  /** What the server makes of a text; `None` if it refuses it. */
  function Read(text: string): Option<Selector> {
    ParseAll(Lex(text))
  }

  predicate Matches(r: Requirement, actual: Labels) {
    match r.op
    case In => r.key in actual && actual[r.key] in r.values
    case NotIn => r.key !in actual || actual[r.key] !in r.values
    case Exists => r.key in actual
    case DoesNotExist => r.key !in actual
    case GreaterThan => r.key in actual && Atoi(actual[r.key]).Some? && forall v :: v in r.values && Atoi(v).Some? ==> Atoi(actual[r.key]).value > Atoi(v).value
    case LessThan => r.key in actual && Atoi(actual[r.key]).Some? && forall v :: v in r.values && Atoi(v).Some? ==> Atoi(actual[r.key]).value < Atoi(v).value
  }

  predicate MatchesAll(selector: Selector, actual: Labels) {
    forall i :: 0 <= i < |selector| ==> Matches(selector[i], actual)
  }
}
