/** When the text of a label selector says what the labels say. */
module LabelSelectorProps {
  import opened Wrappers
  import opened Selectors
  import opened Durations
  import opened Timeouts
  import opened LabelSelectors

  // ----- which labels are safe to join

  /** Every key and every value is in label syntax. */
  predicate AllInSyntax(pairs: Pairs) {
    forall i :: 0 <= i < |pairs| ==> IsLabelKey(pairs[i].0) && IsLabelValue(pairs[i].1)
  }

  /** In label syntax but for values that are the wildcard. */
  predicate AllButWildcards(pairs: Pairs) {
    forall i :: 0 <= i < |pairs| ==> IsLabelKey(pairs[i].0) && (IsLabelValue(pairs[i].1) || pairs[i].1 == ANY_VALUE)
  }

  /** A word that the scanner takes as a whole. */
  predicate IsWord(s: string) {
    forall i :: 0 <= i < |s| ==> IsWordChar(s[i])
  }

  lemma NameIsWord(s: string)
    requires IsName(s)
    ensures IsWord(s) && s != ""
  {
    forall i | 0 <= i < |s| ensures IsWordChar(s[i]) {
      assert IsNameChar(s[i]);
    }
  }

  lemma SubdomainIsWord(s: string)
    requires IsSubdomain(s)
    ensures IsWord(s)
  {
    forall i | 0 <= i < |s| ensures IsWordChar(s[i]) {
      assert IsSubdomainChar(s, i);
    }
  }

  lemma KeyIsWord(s: string)
    requires IsLabelKey(s)
    ensures IsWord(s) && s != ""
  {
    if IsName(s) {
      NameIsWord(s);
    } else {
      var i :| 0 <= i < |s| && s[i] == '/' && IsSubdomain(s[..i]) && IsName(s[i + 1..]);
      SubdomainIsWord(s[..i]);
      NameIsWord(s[i + 1..]);
      forall j | 0 <= j < |s| ensures IsWordChar(s[j]) {
        if j < i {
          assert s[j] == s[..i][j];
        } else if j > i {
          assert s[j] == s[i + 1..][j - i - 1];
        }
      }
    }
  }

  lemma ValueIsWord(s: string)
    requires IsLabelValue(s) || s == ANY_VALUE
    ensures IsWord(s)
  {
    if IsName(s) {
      NameIsWord(s);
    }
  }

  lemma WildcardIsNoValue()
    ensures !IsLabelValue(ANY_VALUE)
  {
  }

  // ----- scanning

  /** Nothing, or the comma before the next pair. */
  predicate EndsWord(s: string) {
    s == "" || IsSymbol(s[0])
  }

  lemma {:induction false} WordLengthOf(w: string, rest: string)
    requires IsWord(w) && EndsWord(rest)
    ensures WordLength(w + rest) == |w|
    decreases |w|
  {
    if w == "" {
      assert w + rest == rest;
    } else {
      assert (w + rest)[1..] == w[1..] + rest;
      WordLengthOf(w[1..], rest);
    }
  }

  lemma LexWord(w: string, rest: string)
    requires w != "" && IsWord(w) && EndsWord(rest)
    ensures Lex(w + rest) == [Ident(w)] + Lex(rest)
  {
    WordLengthOf(w, rest);
    var s := w + rest;
    assert s[0] == w[0] && s[..|w|] == w && s[|w|..] == rest;
    assert SkipZero(rest) == rest;
  }

  lemma LexEqual(rest: string)
    requires rest == "" || (rest[0] != '=' && rest[0] != '\0')
    ensures Lex("=" + rest) == [Equal] + Lex(rest)
  {
    var s := "=" + rest;
    assert s[0] == '=' && s[1..] == rest;
  }

  lemma LexComma(rest: string)
    requires rest == "" || rest[0] != '\0'
    ensures Lex("," + rest) == [Comma] + Lex(rest)
  {
    var s := "," + rest;
    assert s[0] == ',' && s[1..] == rest;
  }

  function ValueTokens(v: string): seq<Token> {
    if v == "" then [] else [Ident(v)]
  }

  function PairTokens(pairs: Pairs): seq<Token>
    decreases |pairs|, 0
  {
    if pairs == [] then [] else [Ident(pairs[0].0), Equal] + (ValueTokens(pairs[0].1) + TailTokens(pairs[1..]))
  }

  function TailTokens(pairs: Pairs): seq<Token>
    decreases |pairs|, 1
  {
    if pairs == [] then [] else [Comma] + PairTokens(pairs)
  }

  lemma LexValue(value: string, v: string, rest: string)
    requires value == v + rest && IsWord(v) && EndsWord(rest)
    ensures Lex(value) == ValueTokens(v) + Lex(rest)
  {
    if v == "" {
      assert value == rest;
    } else {
      LexWord(v, rest);
    }
  }

  /** A pair in front of a text; the parts are named to keep them apart. */
  lemma LexPair(text: string, k: string, after: string, v: string, value: string, rest: string)
    requires text == k + after && after == "=" + value && value == v + rest
    requires k != "" && IsWord(k) && IsWord(v) && (rest == "" || rest[0] == ',')
    ensures Lex(text) == [Ident(k)] + Lex(after) && Lex(after) == [Equal] + Lex(value)
    ensures Lex(value) == ValueTokens(v) + Lex(rest)
  {
    LexKey(text, k, after);
    LexSign(after, v, value, rest);
    LexValue(value, v, rest);
  }

  lemma LexKey(text: string, k: string, after: string)
    requires text == k + after && k != "" && IsWord(k) && after != "" && after[0] == '='
    ensures Lex(text) == [Ident(k)] + Lex(after)
  {
    LexWord(k, after);
  }

  lemma LexSign(after: string, v: string, value: string, rest: string)
    requires after == "=" + value && value == v + rest && IsWord(v) && (rest == "" || rest[0] == ',')
    ensures Lex(after) == [Equal] + Lex(value)
  {
    assert value != "" ==> value[0] == if v == "" then rest[0] else v[0];
    LexEqual(value);
  }

  lemma Chain(a: seq<Token>, k: Token, b: seq<Token>, e: Token, c: seq<Token>, v: seq<Token>, d: seq<Token>)
    requires a == [k] + b && b == [e] + c && c == v + d
    ensures a == [k, e] + (v + d)
  {
  }

  lemma LexStep(text: string, k: string, after: string, v: string, value: string, rest: string)
    requires text == k + after && after == "=" + value && value == v + rest
    requires k != "" && IsWord(k) && IsWord(v) && (rest == "" || rest[0] == ',')
    ensures Lex(text) == [Ident(k), Equal] + (ValueTokens(v) + Lex(rest))
  {
    LexPair(text, k, after, v, value, rest);
    Chain(Lex(text), Ident(k), Lex(after), Equal, Lex(value), ValueTokens(v), Lex(rest));
  }

  lemma LexTail(tail: Pairs)
    requires AllButWildcards(tail) && Lex(Render(tail)) == PairTokens(tail)
    ensures Lex(RenderTail(tail)) == TailTokens(tail)
  {
    if tail != [] {
      KeyIsWord(tail[0].0);
      assert Render(tail)[0] == tail[0].0[0];
      LexComma(Render(tail));
    }
  }

  /** The scanner finds the pairs as they were joined. */
  lemma {:induction false} LexOfRendered(pairs: Pairs)
    requires AllButWildcards(pairs)
    ensures Lex(Render(pairs)) == PairTokens(pairs)
    decreases |pairs|
  {
    if pairs != [] {
      var tail := pairs[1..];
      KeyIsWord(pairs[0].0);
      ValueIsWord(pairs[0].1);
      LexOfRendered(tail);
      LexTail(tail);
      var k, v, rest := pairs[0].0, pairs[0].1, RenderTail(tail);
      LexStep(Render(pairs), k, "=" + (v + rest), v, v + rest, rest);
    }
  }

  // ----- reading

  /** What the labels themselves say: one value for each key. */
  function Meant(pairs: Pairs): Selector {
    if pairs == [] then [] else [Requirement(pairs[0].0, In, {pairs[0].1})] + Meant(pairs[1..])
  }

  lemma ParsePair(k: string, v: string, rest: seq<Token>)
    requires IsLabelKey(k) && (rest == [] || rest[0] == Comma)
    ensures ParseRequirement([Ident(k), Equal] + (ValueTokens(v) + rest)) ==
            if IsLabelValue(v) then Some(Parsed(Requirement(k, In, {v}), rest)) else None
  {
    var tokens := [Ident(k), Equal] + (ValueTokens(v) + rest);
    assert tokens[0] == Ident(k) && tokens[1] == Equal;
    assert tokens[1..][1..] == ValueTokens(v) + rest;
    if v != "" {
      assert (ValueTokens(v) + rest)[0] == Ident(v) && (ValueTokens(v) + rest)[1..] == rest;
    } else {
      assert ValueTokens(v) + rest == rest;
    }
    assert ParseExactValue(ValueTokens(v) + rest) == Some(Parsed({v}, rest));
  }

  lemma ParseRefused(tokens: seq<Token>)
    requires tokens != [] && ParseRequirement(tokens).None?
    ensures ParseAll(tokens).None?
  {
  }

  lemma ParseLast(tokens: seq<Token>, r: Requirement)
    requires tokens != [] && ParseRequirement(tokens) == Some(Parsed(r, []))
    ensures ParseAll(tokens) == Some([r])
  {
  }

  lemma ParseFirst(tokens: seq<Token>, r: Requirement, rest: seq<Token>)
    requires tokens != [] && ParseRequirement(tokens) == Some(Parsed(r, [Comma] + rest))
    requires rest != [] && rest[0].Ident?
    ensures ParseAll(tokens) == if ParseAll(rest).None? then None else Some([r] + ParseAll(rest).value)
  {
    assert ([Comma] + rest)[1..] == rest;
  }

  lemma InSyntaxTail(pairs: Pairs)
    requires pairs != []
    ensures AllInSyntax(pairs) <==> IsLabelKey(pairs[0].0) && IsLabelValue(pairs[0].1) && AllInSyntax(pairs[1..])
    ensures AllButWildcards(pairs) ==> AllButWildcards(pairs[1..])
  {
    if AllInSyntax(pairs[1..]) && IsLabelKey(pairs[0].0) && IsLabelValue(pairs[0].1) {
      forall i | 0 <= i < |pairs| ensures IsLabelKey(pairs[i].0) && IsLabelValue(pairs[i].1) {
        assert i > 0 ==> pairs[i] == pairs[1..][i - 1];
      }
    }
  }

  lemma {:induction false} ParseOfPairs(pairs: Pairs)
    requires AllButWildcards(pairs)
    ensures ParseAll(PairTokens(pairs)) == if AllInSyntax(pairs) then Some(Meant(pairs)) else None
    decreases |pairs|
  {
    if pairs != [] {
      var tail, r := pairs[1..], Requirement(pairs[0].0, In, {pairs[0].1});
      InSyntaxTail(pairs);
      ParsePair(pairs[0].0, pairs[0].1, TailTokens(tail));
      ParseOfPairs(tail);
      if !IsLabelValue(pairs[0].1) {
        ParseRefused(PairTokens(pairs));
      } else if tail == [] {
        assert PairTokens(tail) == [] && AllInSyntax(tail) && Meant(pairs) == [r];
        ParseLast(PairTokens(pairs), r);
      } else {
        ParseFirst(PairTokens(pairs), r, PairTokens(tail));
      }
    }
  }

  lemma ReadOfRendered(pairs: Pairs)
    requires AllButWildcards(pairs)
    ensures Read(Render(pairs)) == if AllInSyntax(pairs) then Some(Meant(pairs)) else None
  {
    LexOfRendered(pairs);
    ParseOfPairs(pairs);
  }

  // ----- whatever is read is in label syntax

  lemma RequirementIsValid(tokens: seq<Token>)
    ensures var r := ParseRequirement(tokens); r.Some? ==> IsValid(r.value.value)
  {
  }

  predicate AllValid(selector: Selector) {
    forall i :: 0 <= i < |selector| ==> IsValid(selector[i])
  }

  lemma OneMoreValid(r: Requirement, rest: Selector)
    requires IsValid(r) && AllValid(rest)
    ensures AllValid([r] + rest)
  {
  }

  lemma {:induction false} AllAreValid(tokens: seq<Token>)
    ensures ParseAll(tokens).Some? ==> AllValid(ParseAll(tokens).value)
    decreases |tokens|
  {
    if tokens != [] && ParseAll(tokens).Some? {
      var p := ParseRequirement(tokens).value;
      RequirementIsValid(tokens);
      RequirementIsShorter(tokens);
      if p.rest == [] {
        OneMoreValid(p.value, []);
      } else {
        AllAreValid(p.rest[1..]);
        OneMoreValid(p.value, ParseAll(p.rest[1..]).value);
      }
    }
  }

  lemma {:induction false} MeantAt(pairs: Pairs, i: nat)
    requires i < |pairs|
    ensures |Meant(pairs)| == |pairs| && Meant(pairs)[i] == Requirement(pairs[i].0, In, {pairs[i].1})
  {
    if i > 0 {
      MeantAt(pairs[1..], i - 1);
    } else if |pairs| > 1 {
      MeantAt(pairs[1..], 0);
    }
  }

  /** The server reads back what was meant exactly if every key and every value is in label syntax. */
  lemma ReadsBackIff(pairs: Pairs)
    ensures Read(Render(pairs)) == Some(Meant(pairs)) <==> AllInSyntax(pairs)
  {
    if AllInSyntax(pairs) {
      ReadOfRendered(pairs);
    }
    if Read(Render(pairs)) == Some(Meant(pairs)) {
      AllAreValid(Lex(Render(pairs)));
      forall i | 0 <= i < |pairs| ensures IsLabelKey(pairs[i].0) && IsLabelValue(pairs[i].1) {
        MeantAt(pairs, i);
        assert IsValid(Meant(pairs)[i]);
        assert pairs[i].1 in Meant(pairs)[i].values;
      }
    }
  }

  /** What was meant is equality with the labels, the wildcard taken as any other value. */
  lemma MeantIsEquality(pairs: Pairs, labels: Labels, actual: Labels)
    requires Enumerates(pairs, labels)
    ensures MatchesAll(Meant(pairs), actual) <==> forall k :: k in labels ==> k in actual && actual[k] == labels[k]
  {
    if MatchesAll(Meant(pairs), actual) {
      forall k | k in labels ensures k in actual && actual[k] == labels[k] {
        var i :| 0 <= i < |pairs| && pairs[i] == (k, labels[k]);
        MeantAt(pairs, i);
        assert Matches(Meant(pairs)[i], actual);
      }
    }
    if forall k :: k in labels ==> k in actual && actual[k] == labels[k] {
      forall i | 0 <= i < |Meant(pairs)| ensures Matches(Meant(pairs)[i], actual) {
        MeantLength(pairs);
        MeantAt(pairs, i);
        assert pairs[i] in pairs;
      }
    }
  }

  lemma {:induction false} MeantLength(pairs: Pairs)
    ensures |Meant(pairs)| == |pairs|
  {
    if pairs != [] {
      MeantLength(pairs[1..]);
    }
  }

  // ----- where another selector is read, or none

  lemma SameKeyMatches(r: Requirement, a: Labels, b: Labels)
    requires (r.key in a <==> r.key in b) && (r.key in a ==> a[r.key] == b[r.key])
    ensures Matches(r, a) <==> Matches(r, b)
  {
  }

  lemma SelectorIsValid(text: string)
    requires Read(text).Some?
    ensures AllValid(Read(text).value)
  {
    AllAreValid(Lex(text));
  }

  /** Another string that is no label value either and, if it is a number, is the same number. */
  function Variant(v: string): string {
    if Atoi(v).None? then v + "*"
    else if HasSign(v) then [v[0]] + ("0" + v[1..])
    else "0" + v
  }

  lemma {:induction false} LeadingZero(digits: string)
    requires AllDigits(digits)
    ensures AllDigits("0" + digits) && Value("0" + digits) == Value(digits)
    decreases |digits|
  {
    var s := "0" + digits;
    if digits == "" {
      assert s[..0] == "";
    } else {
      var init := digits[..|digits| - 1];
      LeadingZero(init);
      assert s[..|s| - 1] == "0" + init;
      assert s[|s| - 1] == digits[|digits| - 1];
    }
  }

  lemma DigitsAreName(s: string)
    requires s != "" && AllDigits(s)
    ensures IsName(s) <==> |s| <= 63
  {
    forall i | 0 <= i < |s| ensures IsNameChar(s[i]) && IsAlnum(s[i]) {
      assert IsDigit(s[i]);
    }
  }

  lemma VariantIsNoValue(v: string)
    requires !IsLabelValue(v)
    ensures Variant(v) != v && !IsLabelValue(Variant(v))
  {
    var w := Variant(v);
    if Atoi(v).None? {
      assert w[|w| - 1] == '*';
    } else if HasSign(v) {
      assert w[0] == v[0] && |w| == |v| + 1;
    } else {
      DigitsAreName(v);
      LeadingZero(v);
      DigitsAreName(w);
    }
  }

  lemma VariantIsSameNumber(v: string)
    requires Atoi(v).Some?
    ensures Atoi(Variant(v)) == Atoi(v)
  {
    var w := Variant(v);
    LeadingZero(Unsigned(v));
    if HasSign(v) {
      assert w[0] == v[0] && Unsigned(w) == "0" + Unsigned(v);
    } else {
      assert w[0] == '0' && Unsigned(w) == "0" + v;
    }
  }

  /** No valid requirement tells a string that is no label value from its variant. */
  lemma VariantMatches(r: Requirement, labels: Labels, k: string)
    requires IsValid(r) && k in labels && !IsLabelValue(labels[k]) && Matches(r, labels)
    ensures Matches(r, labels[k := Variant(labels[k])])
  {
    var v := labels[k];
    VariantIsNoValue(v);
    if r.key != k {
      SameKeyMatches(r, labels, labels[k := Variant(v)]);
    } else if Atoi(v).Some? {
      VariantIsSameNumber(v);
    }
  }

  predicate SaysMore(labels: Labels, selector: Selector, actual: Labels) {
    MatchesAll(selector, actual) != Selects(labels, actual)
  }

  /** A pair that is neither in label syntax nor a wildcard at a proper key. */
  predicate OffendsAt(labels: Labels, k: string) {
    k in labels && (!IsLabelKey(k) || (!IsLabelValue(labels[k]) && labels[k] != ANY_VALUE))
  }

  lemma DroppedKeyTells(labels: Labels, selector: Selector, k: string)
    requires AllValid(selector)
    requires k in labels && !IsLabelKey(k) && MatchesAll(selector, labels)
    ensures SaysMore(labels, selector, labels - {k})
  {
    var actual := labels - {k};
    forall i | 0 <= i < |selector| ensures Matches(selector[i], actual) {
      SameKeyMatches(selector[i], labels, actual);
    }
    assert !PairHolds(labels, actual, k);
  }

  lemma VariantTells(labels: Labels, selector: Selector, k: string)
    requires AllValid(selector)
    requires k in labels && !IsLabelValue(labels[k]) && labels[k] != ANY_VALUE && MatchesAll(selector, labels)
    ensures SaysMore(labels, selector, labels[k := Variant(labels[k])])
  {
    var actual := labels[k := Variant(labels[k])];
    VariantIsNoValue(labels[k]);
    forall i | 0 <= i < |selector| ensures Matches(selector[i], actual) {
      VariantMatches(selector[i], labels, k);
    }
    assert !PairHolds(labels, actual, k);
  }

  lemma SelectsItself(labels: Labels)
    ensures Selects(labels, labels)
  {
  }

  /** A selector in label syntax says something else than labels that are not, on some object. */
  lemma OffenceTells(labels: Labels, selector: Selector, k: string) returns (actual: Labels)
    requires AllValid(selector) && OffendsAt(labels, k)
    ensures SaysMore(labels, selector, actual)
  {
    SelectsItself(labels);
    if !MatchesAll(selector, labels) {
      actual := labels;
    } else if !IsLabelKey(k) {
      actual := labels - {k};
      DroppedKeyTells(labels, selector, k);
    } else {
      actual := labels[k := Variant(labels[k])];
      VariantTells(labels, selector, k);
    }
  }

  lemma NoOffence(pairs: Pairs, labels: Labels)
    requires Enumerates(pairs, labels)
    ensures AllButWildcards(pairs) <==> forall k :: !OffendsAt(labels, k)
  {
    if AllButWildcards(pairs) {
      forall k ensures !OffendsAt(labels, k) {
        if k in labels {
          var i :| 0 <= i < |pairs| && pairs[i] == (k, labels[k]);
        }
      }
    }
    if forall k :: !OffendsAt(labels, k) {
      forall i | 0 <= i < |pairs| ensures IsLabelKey(pairs[i].0) && (IsLabelValue(pairs[i].1) || pairs[i].1 == ANY_VALUE) {
        assert pairs[i] in pairs;
        assert !OffendsAt(labels, pairs[i].0);
      }
    }
  }

  // ----- what becomes of labels that are not in label syntax

  /** The server takes the text for a selector other than the one that was meant. */
  predicate ReadsAsAnother(pairs: Pairs) {
    Read(Render(pairs)).Some? && Read(Render(pairs)) != Some(Meant(pairs))
  }

  /** Exactly if it does not refuse the text, although some key or value is not in label syntax. */
  lemma ReadsAsAnotherIff(pairs: Pairs)
    ensures ReadsAsAnother(pairs) <==> Read(Render(pairs)).Some? && !AllInSyntax(pairs)
  {
    ReadsBackIff(pairs);
  }

  /** With a wildcard for a value, and no other offence, the text is refused. */
  lemma WildcardIsRefused(pairs: Pairs)
    requires AllButWildcards(pairs) && !AllInSyntax(pairs)
    ensures Read(Render(pairs)).None?
  {
    ReadOfRendered(pairs);
  }

  lemma LexBareWord(w: string)
    requires w != "" && IsWord(w)
    ensures Lex(w) == [Ident(w)]
  {
    assert w + "" == w;
    LexWord(w, "");
  }

  lemma LexCommaInValue(text: string, k: string, after: string, v: string, value: string, rest: string, w: string)
    requires text == k + after && after == "=" + value && value == v + rest && rest == "," + w
    requires IsLabelKey(k) && IsLabelValue(v) && IsLabelKey(w)
    ensures Lex(text) == [Ident(k), Equal] + (ValueTokens(v) + [Comma, Ident(w)])
  {
    LexProperPair(text, k, after, v, value, rest);
    LexCommaWord(rest, w);
  }

  lemma LexProperPair(text: string, k: string, after: string, v: string, value: string, rest: string)
    requires text == k + after && after == "=" + value && value == v + rest && rest != "" && rest[0] == ','
    requires IsLabelKey(k) && IsLabelValue(v)
    ensures Lex(text) == [Ident(k), Equal] + (ValueTokens(v) + Lex(rest))
  {
    KeyIsWord(k);
    ValueIsWord(v);
    LexStep(text, k, after, v, value, rest);
  }

  lemma LexCommaWord(rest: string, w: string)
    requires rest == "," + w && IsLabelKey(w)
    ensures Lex(rest) == [Comma, Ident(w)]
  {
    KeyIsWord(w);
    LexBareWord(w);
    LexComma(w);
  }

  lemma RenderOne(k: string, v: string)
    ensures Render([(k, v)]) == k + ("=" + v)
  {
    assert v + "" == v;
  }

  lemma ParseBareKey(w: string)
    requires IsLabelKey(w)
    ensures ParseAll([Ident(w)]) == Some([Requirement(w, Exists, {})])
  {
    assert [Ident(w)][1..] == [];
    ParseLast([Ident(w)], Requirement(w, Exists, {}));
  }

  lemma ParseTwo(tokens: seq<Token>, r: Requirement, rest: seq<Token>, r2: Requirement)
    requires tokens != [] && ParseRequirement(tokens) == Some(Parsed(r, [Comma] + rest))
    requires rest != [] && rest[0].Ident? && ParseAll(rest) == Some([r2])
    ensures ParseAll(tokens) == Some([r, r2])
  {
    assert [r] + [r2] == [r, r2];
    ParseFirst(tokens, r, rest);
  }

  lemma ParseCommaInValue(tokens: seq<Token>, k: string, v: string, rest: seq<Token>, w: string)
    requires IsLabelKey(k) && IsLabelValue(v) && IsLabelKey(w)
    requires rest == [Comma, Ident(w)] && tokens == [Ident(k), Equal] + (ValueTokens(v) + rest)
    ensures ParseAll(tokens) == Some([Requirement(k, In, {v}), Requirement(w, Exists, {})])
  {
    ParsePair(k, v, rest);
    ParseBareKey(w);
    assert rest == [Comma] + [Ident(w)];
    ParseTwo(tokens, Requirement(k, In, {v}), [Ident(w)], Requirement(w, Exists, {}));
  }

  /** A comma in a value: what stands behind it becomes a key that has to be there. */
  lemma CommaSplitsTheValue(k: string, v: string, w: string)
    requires IsLabelKey(k) && IsLabelValue(v) && IsLabelKey(w)
    ensures Read(Render([(k, v + ("," + w))])) == Some([Requirement(k, In, {v}), Requirement(w, Exists, {})])
  {
    var rest := "," + w;
    var value := v + rest;
    var text := Render([(k, value)]);
    RenderOne(k, value);
    LexCommaInValue(text, k, "=" + value, v, value, rest, w);
    ParseCommaInValue(Lex(text), k, v, [Comma, Ident(w)], w);
  }

  lemma LexBang(text: string, k: string, after: string, v: string)
    requires IsLabelKey(k) && IsName(v) && text == k + after && after == "!=" + v
    ensures Lex(text) == [Ident(k)] + Lex(after) && Lex(after) == [NotEqual] + Lex(v) && Lex(v) == [Ident(v)]
  {
    KeyIsWord(k);
    NameIsWord(v);
    LexBareWord(v);
    LexNotEqual(after, v);
    LexWord(k, after);
  }

  lemma LexNotEqual(after: string, v: string)
    requires after == "!=" + v && v != "" && v[0] != '\0'
    ensures Lex(after) == [NotEqual] + Lex(v)
  {
    assert after[0] == '!' && after[1] == '=' && after[2..] == v && SkipZero(v) == v;
  }

  lemma ParseNotEqual(k: string, v: string)
    requires IsLabelKey(k) && IsName(v)
    ensures ParseAll([Ident(k), NotEqual, Ident(v)]) == Some([Requirement(k, NotIn, {v})])
  {
    var tokens := [Ident(k), NotEqual, Ident(v)];
    assert tokens[1..][1..] == [Ident(v)] && [Ident(v)][1..] == [];
    assert ParseExactValue([Ident(v)]) == Some(Parsed({v}, []));
    ParseLast(tokens, Requirement(k, NotIn, {v}));
  }

  lemma ChainOfThree(a: seq<Token>, b: seq<Token>, c: seq<Token>, x: Token, y: Token, z: Token)
    requires a == [x] + b && b == [y] + c && c == [z]
    ensures a == [x, y, z]
  {
  }

  /** An exclamation mark at the end of a key: the value is what the label must not have. */
  lemma BangNegates(k: string, v: string)
    requires IsLabelKey(k) && IsName(v)
    ensures Read(Render([(k + "!", v)])) == Some([Requirement(k, NotIn, {v})])
  {
    var text, after := Render([(k + "!", v)]), "!=" + v;
    RenderOne(k + "!", v);
    assert text == k + after;
    LexBang(text, k, after, v);
    ChainOfThree(Lex(text), Lex(after), Lex(v), Ident(k), NotEqual, Ident(v));
    ParseNotEqual(k, v);
  }
}
