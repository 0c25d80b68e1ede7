/**
 Which stream idle timeout a route gets: its own field, else the platform's default, else the
 larger of the two legacy nginx annotations, read as seconds.
 */
module Timeouts {
  import opened Wrappers
  import opened Selectors
  import opened Durations

  const NGINX := "nginx.ingress.kubernetes.io/"
  const PROXY_READ_TIMEOUT := NGINX + "proxy-read-timeout"
  const PROXY_SEND_TIMEOUT := NGINX + "proxy-send-timeout"

  // ----- strings.TrimSpace

  /** The Unicode property White_Space, the one that `strings.TrimSpace` trims. */
  predicate IsSpace(c: char) {
    || '\t' <= c <= '\r' || c == ' ' || c == '\U{85}' || c == '\U{A0}' || c == '\U{1680}'
    || '\U{2000}' <= c <= '\U{200A}' || c == '\U{2028}' || c == '\U{2029}' || c == '\U{202F}'
    || c == '\U{205F}' || c == '\U{3000}'
  }

  predicate AllSpace(s: string) {
    forall i :: 0 <= i < |s| ==> IsSpace(s[i])
  }

  predicate Trimmed(s: string) {
    s == "" || (!IsSpace(s[0]) && !IsSpace(s[|s| - 1]))
  }

  function TrimLeft(s: string): (r: string)
    ensures r == "" || !IsSpace(r[0])
  {
    if s != "" && IsSpace(s[0]) then TrimLeft(s[1..]) else s
  }

  function TrimRight(s: string): (r: string)
    ensures r == "" || !IsSpace(r[|r| - 1])
    ensures |r| <= |s| && r == s[..|r|]
  {
    if s != "" && IsSpace(s[|s| - 1]) then TrimRight(s[..|s| - 1]) else s
  }

  function TrimSpace(s: string): (r: string)
    ensures Trimmed(r)
  {
    TrimRight(TrimLeft(s))
  }

  lemma {:induction false} TrimLeftOf(pre: string, s: string)
    requires AllSpace(pre) && (s == "" || !IsSpace(s[0]))
    ensures TrimLeft(pre + s) == s
    decreases |pre|
  {
    if pre == "" {
      assert pre + s == s;
    } else {
      assert (pre + s)[1..] == pre[1..] + s;
      TrimLeftOf(pre[1..], s);
    }
  }

  lemma {:induction false} TrimRightOf(s: string, post: string)
    requires AllSpace(post) && (s == "" || !IsSpace(s[|s| - 1]))
    ensures TrimRight(s + post) == s
    decreases |post|
  {
    if post == "" {
      assert s + post == s;
    } else {
      var init := post[..|post| - 1];
      assert (s + post)[..|s + post| - 1] == s + init;
      assert (s + post)[|s + post| - 1] == post[|post| - 1];
      TrimRightOf(s, init);
    }
  }

  /** Spaces around a trimmed, non-empty string are exactly what trimming takes away. */
  lemma TrimSpaceOf(pre: string, s: string, post: string)
    requires AllSpace(pre) && AllSpace(post) && Trimmed(s) && s != ""
    ensures TrimSpace(pre + s + post) == s
  {
    assert pre + s + post == pre + (s + post);
    assert (s + post)[0] == s[0];
    TrimLeftOf(pre, s + post);
    TrimRightOf(s, post);
  }

  // ----- strconv.Atoi

  const MIN_INT64: int := -0x8000_0000_0000_0000
  const MAX_INT64: int := 0x7fff_ffff_ffff_ffff

  predicate HasSign(s: string) {
    s != "" && (s[0] == '+' || s[0] == '-')
  }

  function Unsigned(s: string): string {
    if HasSign(s) then s[1..] else s
  }

  /** `strconv.Atoi` with 64-bit integers; `None` stands for both of its errors. */
  function Atoi(s: string): Option<int> {
    var digits := Unsigned(s);
    if digits == "" || !AllDigits(digits) then None
    else
      var v: int := Value(digits);
      var n := if HasSign(s) && s[0] == '-' then -v else v;
      if MIN_INT64 <= n <= MAX_INT64 then Some(n) else None
  }

  /** `parseTimeoutSeconds`: whatever is not a positive number of seconds counts as absent. */
  function ParseTimeoutSeconds(value: string): (sec: nat)
    ensures sec <= MAX_INT64
  {
    var trimmed := TrimSpace(value);
    if trimmed == "" then 0
    else match Atoi(trimmed)
      case None => 0
      case Some(n) => if n <= 0 then 0 else n
  }

  lemma DigitIsNoSpace(c: char)
    requires IsDigit(c)
    ensures !IsSpace(c) && c != '+' && c != '-'
  {
  }

  lemma AtoiOfDecimal(n: nat, plus: bool)
    requires n <= MAX_INT64
    ensures var s := (if plus then "+" else "") + Decimal(n);
            s != "" && Trimmed(s) && Atoi(s) == Some(n)
  {
    var d := Decimal(n);
    var s := (if plus then "+" else "") + d;
    DigitIsNoSpace(d[0]);
    DigitIsNoSpace(d[|d| - 1]);
    assert s[0] == if plus then '+' else d[0];
    assert s[|s| - 1] == d[|d| - 1];
    assert Unsigned(s) == d;
    DecimalRoundTrip(n);
  }

  /** The decimal of a positive 64-bit number is read as that number, with spaces around it or a plus. */
  lemma ParseReadsDecimals(n: nat, pre: string, plus: bool, post: string)
    requires 0 < n <= MAX_INT64 && AllSpace(pre) && AllSpace(post)
    ensures ParseTimeoutSeconds(pre + ((if plus then "+" else "") + Decimal(n)) + post) == n
  {
    var s := (if plus then "+" else "") + Decimal(n);
    AtoiOfDecimal(n, plus);
    TrimSpaceOf(pre, s, post);
  }

  /** Only a string that, trimmed, is digits with at most a plus before them gives a timeout. */
  lemma ParseIsPositive(value: string)
    ensures ParseTimeoutSeconds(value) > 0 <==>
              var t := TrimSpace(value);
              var digits := if t != "" && t[0] == '+' then t[1..] else t;
              digits != "" && AllDigits(digits) && 0 < Value(digits) <= MAX_INT64
    ensures ParseTimeoutSeconds(value) > 0 ==>
              var t := TrimSpace(value);
              var digits := if t[0] == '+' then t[1..] else t;
              AllDigits(digits) && ParseTimeoutSeconds(value) == Value(digits)
  {
    var t := TrimSpace(value);
    if t != "" && t[0] == '-' {
      assert !IsDigit(t[0]);
    }
  }

  // ----- resolveStreamIdleTimeout

  datatype TimeoutError = InvalidField(value: string) | InvalidDefault(value: string) | InvalidLegacy(value: string)

  function Lookup(annotations: Labels, key: string): string {
    if key in annotations then annotations[key] else ""
  }

  function Max(a: nat, b: nat): nat {
    if a < b then b else a
  }

  function LegacySeconds(annotations: Labels): nat {
    Max(ParseTimeoutSeconds(Lookup(annotations, PROXY_READ_TIMEOUT)),
        ParseTimeoutSeconds(Lookup(annotations, PROXY_SEND_TIMEOUT)))
  }

  function ResolveStreamIdleTimeout(field: string, defaultTimeout: string, annotations: Labels): Result<string, TimeoutError> {
    if field != "" then
      if IsValidGatewayAPIDuration(field) then Success(field) else Failure(InvalidField(field))
    else
      var default := TrimSpace(defaultTimeout);
      if default != "" then
        if IsValidGatewayAPIDuration(default) then Success(default) else Failure(InvalidDefault(default))
      else
        var seconds := LegacySeconds(annotations);
        if seconds == 0 then Success("")
        else
          var timeout := Decimal(seconds) + "s";
          if IsValidGatewayAPIDuration(timeout) then Success(timeout) else Failure(InvalidLegacy(timeout))
  }

  /** Whatever the inputs: an error, no timeout, or a string of the grammar. */
  lemma ResolvedIsInGrammar(field: string, defaultTimeout: string, annotations: Labels)
    ensures var r := ResolveStreamIdleTimeout(field, defaultTimeout, annotations);
            r.Success? && r.value != "" ==> InGrammar(r.value)
    ensures ResolveStreamIdleTimeout(field, defaultTimeout, annotations) == Success("") <==>
              field == "" && AllSpace(defaultTimeout) && LegacySeconds(annotations) == 0
  {
    var r := ResolveStreamIdleTimeout(field, defaultTimeout, annotations);
    if r.Success? && r.value != "" {
      MatcherIsGrammar(r.value);
    }
    TrimsToNothing(defaultTimeout);
  }

  lemma {:induction false} TrimLeftToNothing(s: string)
    ensures TrimLeft(s) == "" <==> AllSpace(s)
  {
    if s != "" && IsSpace(s[0]) {
      TrimLeftToNothing(s[1..]);
      assert forall i :: 0 < i < |s| ==> s[i] == s[1..][i - 1];
    }
  }

  lemma TrimsToNothing(s: string)
    ensures TrimSpace(s) == "" <==> AllSpace(s)
  {
    TrimLeftToNothing(s);
    var t := TrimLeft(s);
    if t != "" && TrimRight(t) == "" {
      TrimRightKeepsHead(t);
    }
  }

  lemma {:induction false} TrimRightKeepsHead(s: string)
    requires s != "" && !IsSpace(s[0])
    ensures TrimRight(s) != ""
  {
    if IsSpace(s[|s| - 1]) {
      TrimRightKeepsHead(s[..|s| - 1]);
    }
  }

  /** The field hides the default, and either of them hides the annotations. */
  lemma HigherPriorityHides(field: string, default1: string, default2: string, annotations1: Labels, annotations2: Labels)
    ensures field != "" ==>
              ResolveStreamIdleTimeout(field, default1, annotations1) == ResolveStreamIdleTimeout(field, default2, annotations2)
    ensures !AllSpace(default1) ==>
              ResolveStreamIdleTimeout(field, default1, annotations1) == ResolveStreamIdleTimeout(field, default1, annotations2)
  {
    TrimsToNothing(default1);
  }

  /** What an annotation says in seconds; nothing if it is absent. */
  function SecondsIn(annotations: Labels, key: string): nat {
    if key in annotations then ParseTimeoutSeconds(annotations[key]) else 0
  }

  /** Without field and default, the larger of the two annotations decides, in seconds, up to 99999. */
  lemma LargerAnnotationDecides(defaultTimeout: string, annotations: Labels, r: nat, s: nat)
    requires AllSpace(defaultTimeout)
    requires r == SecondsIn(annotations, "nginx.ingress.kubernetes.io/proxy-read-timeout")
    requires s == SecondsIn(annotations, "nginx.ingress.kubernetes.io/proxy-send-timeout")
    ensures var answer := ResolveStreamIdleTimeout("", defaultTimeout, annotations);
            && (r >= s && 0 < r <= 99999 ==> answer == Success(Decimal(r) + "s"))
            && (s >= r && 0 < s <= 99999 ==> answer == Success(Decimal(s) + "s"))
            && (r >= s && r > 99999 ==> answer == Failure(InvalidLegacy(Decimal(r) + "s")))
            && (s >= r && s > 99999 ==> answer == Failure(InvalidLegacy(Decimal(s) + "s")))
            && (r == s == 0 ==> answer == Success(""))
  {
    TrimsToNothing(defaultTimeout);
    AbsentIsZero();
    ReadName();
    SendName();
    assert LegacySeconds(annotations) == if r >= s then r else s;
    SecondsFitUpTo99999(LegacySeconds(annotations));
  }

  lemma ReadName()
    ensures PROXY_READ_TIMEOUT == "nginx.ingress.kubernetes.io/proxy-read-timeout"
  {
  }

  lemma SendName()
    ensures PROXY_SEND_TIMEOUT == "nginx.ingress.kubernetes.io/proxy-send-timeout"
  {
  }

  lemma AbsentIsZero()
    ensures ParseTimeoutSeconds("") == 0
  {
    assert TrimSpace("") == "";
  }

  /** A field is itself the answer, or the error. */
  lemma FieldDecides(field: string, defaultTimeout: string, annotations: Labels)
    requires field != ""
    ensures ResolveStreamIdleTimeout(field, defaultTimeout, annotations) ==
            if InGrammar(field) then Success(field) else Failure(InvalidField(field))
  {
    MatcherIsGrammar(field);
  }

  /** Without a field, so is a default, without the white space around it. */
  lemma DefaultDecides(before: string, default: string, after: string, annotations: Labels)
    requires AllSpace(before) && AllSpace(after) && Trimmed(default) && default != ""
    ensures ResolveStreamIdleTimeout("", before + default + after, annotations) ==
            if InGrammar(default) then Success(default) else Failure(InvalidDefault(default))
  {
    TrimSpaceOf(before, default, after);
    MatcherIsGrammar(default);
  }

  /** White space, character by character. */
  const WHITE_SPACE: seq<int> := [
    9, 10, 11, 12, 13, 32, 0x85, 0xA0, 0x1680, 0x2000, 0x2001, 0x2002, 0x2003, 0x2004, 0x2005, 0x2006, 0x2007,
    0x2008, 0x2009, 0x200A, 0x2028, 0x2029, 0x202F, 0x205F, 0x3000]

  lemma SpaceIsWhiteSpace(c: char)
    ensures IsSpace(c) <==> c as int in WHITE_SPACE
  {
    var n := c as int;
    if IsSpace(c) && 9 <= n <= 13 {
      assert WHITE_SPACE[n - 9] == n;
    } else if IsSpace(c) && 0x2000 <= n <= 0x200A {
      assert WHITE_SPACE[n - 0x2000 + 9] == n;
    } else if IsSpace(c) {
      assert n in {32, 0x85, 0xA0, 0x1680, 0x2028, 0x2029, 0x202F, 0x205F, 0x3000};
      assert WHITE_SPACE[5] == 32 && WHITE_SPACE[6] == 0x85 && WHITE_SPACE[7] == 0xA0 && WHITE_SPACE[8] == 0x1680;
      assert WHITE_SPACE[20] == 0x2028 && WHITE_SPACE[21] == 0x2029 && WHITE_SPACE[22] == 0x202F;
      assert WHITE_SPACE[23] == 0x205F && WHITE_SPACE[24] == 0x3000;
    }
  }

  /** The legacy answer: the larger value in seconds, which is refused exactly above 99999. */
  lemma LegacyTimeout(defaultTimeout: string, annotations: Labels)
    requires AllSpace(defaultTimeout) && LegacySeconds(annotations) > 0
    ensures var r := ResolveStreamIdleTimeout("", defaultTimeout, annotations);
            var timeout := Decimal(LegacySeconds(annotations)) + "s";
            r == if LegacySeconds(annotations) <= 99999 then Success(timeout) else Failure(InvalidLegacy(timeout))
  {
    TrimsToNothing(defaultTimeout);
    SecondsFitUpTo99999(LegacySeconds(annotations));
  }

  /** A resolved timeout, written into the field, resolves to itself under any default. */
  lemma ResolvedIsStable(field: string, defaultTimeout: string, annotations: Labels, default2: string, annotations2: Labels)
    ensures var r := ResolveStreamIdleTimeout(field, defaultTimeout, annotations);
            r.Success? && r.value != "" ==> ResolveStreamIdleTimeout(r.value, default2, annotations2) == r
  {
  }
}
