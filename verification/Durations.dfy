/**
 The Gateway API duration format (GEP-2257) as the library's regular expression has it: one to
 four groups of one to five digits and a unit.  The grammar is a statement about how a string can
 be spelled; the matcher reads from the left.
 */
module Durations {
  predicate IsDigit(c: char) {
    '0' <= c <= '9'
  }

  predicate AllDigits(s: string) {
    forall i :: 0 <= i < |s| ==> IsDigit(s[i])
  }

  // ----- the grammar

  datatype Group = Group(digits: string, unit: string)

  predicate ValidGroup(g: Group) {
    1 <= |g.digits| <= 5 && AllDigits(g.digits) && (g.unit == "h" || g.unit == "m" || g.unit == "s" || g.unit == "ms")
  }

  predicate ValidGroups(gs: seq<Group>) {
    gs == [] || (ValidGroup(gs[0]) && ValidGroups(gs[1..]))
  }

  function Spell(gs: seq<Group>): string {
    if gs == [] then "" else gs[0].digits + gs[0].unit + Spell(gs[1..])
  }

  ghost predicate SpelledBy(s: string, gs: seq<Group>) {
    1 <= |gs| <= 4 && ValidGroups(gs) && s == Spell(gs)
  }

  /** `^([0-9]{1,5}(h|m|s|ms)){1,4}$` */
  ghost predicate InGrammar(s: string) {
    exists gs :: SpelledBy(s, gs)
  }

  // ----- the matcher

  function DigitRun(s: string): (n: nat)
    ensures n <= |s| && AllDigits(s[..n]) && (n < |s| ==> !IsDigit(s[n]))
  {
    if s == "" || !IsDigit(s[0]) then 0
    else
      var n := DigitRun(s[1..]);
      assert s[..n + 1] == [s[0]] + s[1..][..n];
      n + 1
  }

  /** The length of the unit that a string starts with; 0 if there is none. */
  function UnitLength(s: string): (n: nat)
    ensures n <= |s|
  {
    if s == "" then 0
    else if s[0] == 'm' then if |s| > 1 && s[1] == 's' then 2 else 1
    else if s[0] == 'h' || s[0] == 's' then 1
    else 0
  }

  predicate MatchesGroups(s: string, limit: nat) {
    var d := DigitRun(s);
    var u := UnitLength(s[d..]);
    && limit > 0 && 1 <= d <= 5 && u > 0
    && (d + u == |s| || MatchesGroups(s[d + u..], limit - 1))
  }

  /** `IsValidGatewayAPIDuration` */
  predicate IsValidGatewayAPIDuration(s: string) {
    MatchesGroups(s, 4)
  }

  lemma {:induction false} DigitRunOf(digits: string, rest: string)
    requires AllDigits(digits) && (rest == "" || !IsDigit(rest[0]))
    ensures DigitRun(digits + rest) == |digits|
    decreases |digits|
  {
    if digits == "" {
      assert digits + rest == rest;
    } else {
      DigitRunOf(digits[1..], rest);
      assert (digits + rest)[1..] == digits[1..] + rest;
    }
  }

  lemma {:induction false} MatchedIsSpelled(s: string, limit: nat) returns (gs: seq<Group>)
    requires MatchesGroups(s, limit)
    ensures 1 <= |gs| <= limit && ValidGroups(gs) && s == Spell(gs)
    decreases limit
  {
    var d := DigitRun(s);
    var u := UnitLength(s[d..]);
    var g := Group(s[..d], s[d..d + u]);
    assert s == s[..d] + s[d..d + u] + s[d + u..];
    assert ValidGroup(g);
    if d + u == |s| {
      gs := [g];
      assert gs[1..] == [];
      assert s[d + u..] == "";
    } else {
      var rest := MatchedIsSpelled(s[d + u..], limit - 1);
      gs := [g] + rest;
      assert gs[1..] == rest;
    }
  }

  lemma UnitLengthOf(g: Group, rest: string)
    requires ValidGroup(g) && (rest == "" || IsDigit(rest[0]))
    ensures UnitLength(g.unit + rest) == |g.unit| && !IsDigit((g.unit + rest)[0])
  {
    var tail := g.unit + rest;
    assert tail[0] == g.unit[0];
    if |tail| > 1 {
      assert tail[1] == if |g.unit| == 2 then g.unit[1] else rest[0];
    }
  }

  lemma OneMoreGroup(digits: string, tail: string, limit: nat)
    requires 1 <= |digits| <= 5 && AllDigits(digits) && limit > 0
    requires tail != "" && !IsDigit(tail[0]) && UnitLength(tail) > 0
    requires var rest := tail[UnitLength(tail)..]; rest == "" || MatchesGroups(rest, limit - 1)
    ensures MatchesGroups(digits + tail, limit)
  {
    var s, d, u := digits + tail, |digits|, UnitLength(tail);
    DigitRunOf(digits, tail);
    assert s[d..] == tail;
    assert s[d + u..] == tail[u..];
  }

  lemma OneMoreValidGroup(g: Group, rest: string, limit: nat)
    requires ValidGroup(g) && limit > 0
    requires rest == "" || (IsDigit(rest[0]) && MatchesGroups(rest, limit - 1))
    ensures MatchesGroups(g.digits + (g.unit + rest), limit)
  {
    var tail := g.unit + rest;
    UnitLengthOf(g, rest);
    assert tail[|g.unit|..] == rest;
    OneMoreGroup(g.digits, tail, limit);
  }

  lemma SpelledBegins(gs: seq<Group>)
    requires gs != [] && ValidGroups(gs)
    ensures Spell(gs) != "" && IsDigit(Spell(gs)[0])
    ensures Spell(gs) == gs[0].digits + (gs[0].unit + Spell(gs[1..]))
  {
    assert Spell(gs)[0] == gs[0].digits[0];
  }

  lemma {:induction false} SpelledIsMatched(gs: seq<Group>, limit: nat)
    requires 1 <= |gs| <= limit && ValidGroups(gs)
    ensures MatchesGroups(Spell(gs), limit)
    decreases |gs|
  {
    if |gs| > 1 {
      SpelledIsMatched(gs[1..], limit - 1);
      SpelledBegins(gs[1..]);
    }
    OneMoreValidGroup(gs[0], Spell(gs[1..]), limit);
    SpelledBegins(gs);
  }

  /** The matcher accepts exactly the strings of the grammar. */
  lemma MatcherIsGrammar(s: string)
    ensures IsValidGatewayAPIDuration(s) <==> InGrammar(s)
  {
    if IsValidGatewayAPIDuration(s) {
      var gs := MatchedIsSpelled(s, 4);
      assert SpelledBy(s, gs);
    }
    if InGrammar(s) {
      var gs :| SpelledBy(s, gs);
      SpelledIsMatched(gs, 4);
    }
  }

  // ----- decimal numbers

  function DigitChar(d: nat): (c: char)
    requires d < 10
    ensures IsDigit(c) && DigitValue(c) == d
  {
    '0' + d as char
  }

  function DigitValue(c: char): nat
    requires IsDigit(c)
  {
    c as int - '0' as int
  }

  /** `strconv.Itoa`, for numbers that are not negative. */
  function Decimal(n: nat): (s: string)
    ensures s != "" && AllDigits(s)
  {
    if n < 10 then [DigitChar(n)] else Decimal(n / 10) + [DigitChar(n % 10)]
  }

  function Value(s: string): nat
    requires AllDigits(s)
  {
    if s == "" then 0 else 10 * Value(s[..|s| - 1]) + DigitValue(s[|s| - 1])
  }

  /** The number written is the number read. */
  lemma {:induction false} DecimalRoundTrip(n: nat)
    ensures Value(Decimal(n)) == n
  {
    var s := Decimal(n);
    if n < 10 {
      assert s[..0] == "";
    } else {
      DecimalRoundTrip(n / 10);
      assert s[..|s| - 1] == Decimal(n / 10);
    }
  }

  function Power10(k: nat): nat {
    if k == 0 then 1 else 10 * Power10(k - 1)
  }

  lemma {:induction false} DecimalLength(n: nat, k: nat)
    requires k > 0
    ensures |Decimal(n)| <= k <==> n < Power10(k)
  {
    if n >= 10 {
      if k == 1 {
        assert |Decimal(n / 10)| > 0;
      } else {
        DecimalLength(n / 10, k - 1);
      }
    } else {
      PowerAtLeastTen(k);
    }
  }

  lemma {:induction false} PowerAtLeastTen(k: nat)
    requires k > 0
    ensures Power10(k) >= 10
  {
    if k > 1 {
      PowerAtLeastTen(k - 1);
    }
  }

  /** A number of seconds is a valid duration exactly up to five digits. */
  lemma SecondsFitUpTo99999(n: nat)
    ensures IsValidGatewayAPIDuration(Decimal(n) + "s") <==> n <= 99999
  {
    var s := Decimal(n) + "s";
    DigitRunOf(Decimal(n), "s");
    assert s[|Decimal(n)|..] == "s";
    DecimalLength(n, 5);
    assert Power10(5) == 100000 by {
      assert Power10(2) == 100;
      assert Power10(4) == 10000;
    }
  }

  /** Digits and an `s` are a valid duration exactly if there are one to five of them, whatever their value. */
  lemma DigitsOfSeconds(digits: string)
    requires AllDigits(digits)
    ensures IsValidGatewayAPIDuration(digits + "s") <==> 1 <= |digits| <= 5
  {
    DigitRunOf(digits, "s");
    assert (digits + "s")[|digits|..] == "s";
  }

  // ----- strings that become a duration when an `s` is appended

  ghost predicate AgeSpelledBy(age: string, gs: seq<Group>, digits: string, milli: bool) {
    && |gs| <= 3 && ValidGroups(gs) && 1 <= |digits| <= 5 && AllDigits(digits)
    && age == Spell(gs) + digits + if milli then "m" else ""
  }

  /** At most three groups, and then one to five digits with an `m` behind them or not. */
  ghost predicate AgeInGrammar(age: string) {
    exists gs, digits, milli :: AgeSpelledBy(age, gs, digits, milli)
  }

  lemma {:induction false} SpellOneMore(gs: seq<Group>, g: Group)
    ensures Spell(gs + [g]) == Spell(gs) + g.digits + g.unit
    ensures ValidGroups(gs + [g]) <==> ValidGroups(gs) && ValidGroup(g)
    decreases |gs|
  {
    if gs == [] {
      assert gs + [g] == [g] && [g][1..] == [];
    } else {
      SpellOneMore(gs[1..], g);
      assert (gs + [g])[1..] == gs[1..] + [g];
    }
  }

  lemma LastUnit(g: Group, before: string, age: string)
    requires ValidGroup(g) && before + g.digits + g.unit == age + "s"
    ensures g.unit == "s" || g.unit == "ms"
    ensures age == before + g.digits + if g.unit == "ms" then "m" else ""
  {
    var s := age + "s";
    assert s[|s| - 1] == 's' == g.unit[|g.unit| - 1];
    assert age == s[..|s| - 1];
  }

  lemma AgeBecomesDuration(age: string)
    ensures InGrammar(age + "s") <==> AgeInGrammar(age)
  {
    if InGrammar(age + "s") {
      var gs :| SpelledBy(age + "s", gs);
      var init, g := gs[..|gs| - 1], gs[|gs| - 1];
      assert gs == init + [g];
      SpellOneMore(init, g);
      LastUnit(g, Spell(init), age);
      assert AgeSpelledBy(age, init, g.digits, g.unit == "ms");
    }
    if AgeInGrammar(age) {
      var gs, digits, milli :| AgeSpelledBy(age, gs, digits, milli);
      var g := Group(digits, if milli then "ms" else "s");
      SpellOneMore(gs, g);
      assert age + "s" == Spell(gs + [g]);
      assert SpelledBy(age + "s", gs + [g]);
    }
  }
}
