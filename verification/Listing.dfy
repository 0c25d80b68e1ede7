/** Paged listing with retry, against a server that may answer anything. */
module Listings {
  import opened Wrappers
  import opened Selectors
  import opened LabelSelectors
  import opened WatchTypes

  datatype Answer = Page(items: seq<Resource>, continueToken: string) | Gone | OtherError

  datatype Request = Request(labelSelector: string, continueToken: string)

  /** What all requests of a listing share, and the annotations it filters by itself. */
  datatype ListOptions = ListOptions(selector: string, annotations: Labels)

  /** The answers in the order of the calls; a call past the last of them fails. */
  function At(answers: seq<Answer>, i: nat): Answer {
    if i < |answers| then answers[i] else OtherError
  }

  class ListServer {
    const answers: seq<Answer>
    var requests: seq<Request>

    constructor (answers: seq<Answer>)
      ensures this.answers == answers && requests == []
    {
      this.answers := answers;
      requests := [];
    }

    method List(request: Request) returns (answer: Answer)
      modifies this
      ensures answer == At(answers, old(|requests|)) && requests == old(requests) + [request]
    {
      answer := At(answers, |requests|);
      requests := requests + [request];
    }
  }

  // ----- filtering

  /** The resources that an annotation selector leaves, in their order. */
  function Chosen(items: seq<Resource>, required: Labels): seq<Resource> {
    if items == [] then []
    else
      Chosen(items[..|items| - 1], required) + IfSelected(items[|items| - 1], required)
  }

  function IfSelected(item: Resource, required: Labels): seq<Resource> {
    if Selects(required, item.annotations) then [item] else []
  }

  /** `filterBy` on annotations */
  method FilterBy(resources: seq<Resource>, metaFilter: Labels) returns (result: seq<Resource>)
    ensures result == Chosen(resources, metaFilter)
  {
    result := [];
    for i := 0 to |resources|
      invariant result == Chosen(resources[..i], metaFilter)
    {
      assert resources[..i + 1][..i] == resources[..i];
      var keep := ContainsAll(resources[i].annotations, metaFilter);
      if keep {
        result := result + [resources[i]];
      }
    }
    assert resources[..|resources|] == resources;
  }

  lemma ChosenOfLast(init: seq<Resource>, last: Resource, items: seq<Resource>, required: Labels)
    requires items == init + [last]
    ensures Chosen(items, required) == Chosen(init, required) + IfSelected(last, required)
  {
    assert items[..|items| - 1] == init;
  }

  /** One more item behind the second part `init`, and so behind the whole `left`. */
  lemma OneMoreOfConcatenation(
    a: seq<Resource>, init: seq<Resource>, left: seq<Resource>, last: Resource, more: seq<Resource>, whole: seq<Resource>, required: Labels)
    requires Chosen(left, required) == Chosen(a, required) + Chosen(init, required)
    requires more == init + [last] && whole == left + [last]
    ensures Chosen(whole, required) == Chosen(a, required) + Chosen(more, required)
  {
    ChosenOfLast(left, last, whole, required);
    ChosenOfLast(init, last, more, required);
    Joined(Chosen(a, required), Chosen(init, required), IfSelected(last, required));
  }

  lemma Joined(a: seq<Resource>, b: seq<Resource>, c: seq<Resource>)
    ensures (a + b) + c == a + (b + c)
  {
  }

  lemma Prefixes(a: seq<Resource>, b: seq<Resource>, n: nat)
    requires n < |b|
    ensures b[..n + 1] == b[..n] + [b[n]] && a + b[..n + 1] == (a + b[..n]) + [b[n]]
  {
  }

  /** Up to any place of the second part. */
  lemma {:induction false} ChosenUpTo(a: seq<Resource>, b: seq<Resource>, n: nat, required: Labels)
    requires n <= |b|
    ensures Chosen(a + b[..n], required) == Chosen(a, required) + Chosen(b[..n], required)
    decreases n
  {
    if n == 0 {
      assert a + b[..0] == a;
    } else {
      ChosenUpTo(a, b, n - 1, required);
      Prefixes(a, b, n - 1);
      OneMoreOfConcatenation(a, b[..n - 1], a + b[..n - 1], b[n - 1], b[..n], a + b[..n], required);
    }
  }

  /** Filtering page by page is filtering the whole. */
  lemma ChosenOfConcatenation(a: seq<Resource>, b: seq<Resource>, required: Labels)
    ensures Chosen(a + b, required) == Chosen(a, required) + Chosen(b, required)
  {
    ChosenUpTo(a, b, |b|, required);
    assert b[..|b|] == b;
  }

  function Times(items: seq<Resource>, r: Resource): nat {
    multiset(items)[r]
  }

  lemma TimesOfLast(items: seq<Resource>, x: Resource, r: Resource)
    ensures Times(items + [x], r) == Times(items, r) + if r == x then 1 else 0
  {
  }

  /** What one more item does to both counts. */
  lemma OneMoreCounts(init: seq<Resource>, last: Resource, items: seq<Resource>, required: Labels, r: Resource)
    requires items == init + [last]
    requires Times(Chosen(init, required), r) == if Selects(required, r.annotations) then Times(init, r) else 0
    ensures Times(Chosen(items, required), r) == if Selects(required, r.annotations) then Times(items, r) else 0
  {
    ChosenOfLast(init, last, items, required);
    TimesOfLast(init, last, r);
    TimesOfLast(Chosen(init, required), last, r);
    assert Chosen(init, required) + [] == Chosen(init, required);
  }

  /** Every resource that is selected is there as often as before, and no other. */
  lemma {:induction false} ChosenCounts(items: seq<Resource>, required: Labels, r: Resource)
    ensures Times(Chosen(items, required), r) == if Selects(required, r.annotations) then Times(items, r) else 0
  {
    if items != [] {
      var init, last := items[..|items| - 1], items[|items| - 1];
      ChosenCounts(init, required, r);
      OneMoreCounts(init, last, items, required, r);
    }
  }

  lemma {:induction false} NoSelectorChoosesAll(items: seq<Resource>)
    ensures Chosen(items, map[]) == items
  {
    if items != [] {
      NoSelectorChoosesAll(items[..|items| - 1]);
    }
  }

  // ----- attempts

  predicate Continues(a: Answer) {
    a.Page? && a.continueToken != ""
  }

  /** The attempt that begins with call `i` ends before this call: after the first answer that is no continued page. */
  function AttemptEnd(answers: seq<Answer>, i: nat): (j: nat)
    ensures i < j && !Continues(At(answers, j - 1))
    decreases |answers| - i
  {
    if Continues(At(answers, i)) then AttemptEnd(answers, i + 1) else i + 1
  }

  lemma {:induction false} AttemptIsPagesUpToItsEnd(answers: seq<Answer>, i: nat, x: nat)
    requires i <= x < AttemptEnd(answers, i) - 1
    ensures Continues(At(answers, x))
    decreases |answers| - i
  {
    if i < x {
      AttemptIsPagesUpToItsEnd(answers, i + 1, x);
    }
  }

  /** All items of the pages from `i` up to `j`, in server order. */
  function Items(answers: seq<Answer>, i: nat, j: nat): seq<Resource> {
    if i >= j then []
    else
      var last := At(answers, j - 1);
      Items(answers, i, j - 1) + if last.Page? then last.items else []
  }

  /** The calls of an attempt: the first without a token, each other with that of the page before it. */
  function Requests(answers: seq<Answer>, selector: string, i: nat, j: nat): seq<Request> {
    if i >= j then []
    else Requests(answers, selector, i, j - 1) + [Request(selector, TokenFor(answers, i, j - 1))]
  }

  function TokenFor(answers: seq<Answer>, i: nat, x: nat): string {
    if x > i && At(answers, x - 1).Page? then At(answers, x - 1).continueToken else ""
  }

  datatype ListError = ErrGone | ErrOther

  type ListResult = Result<seq<Resource>, ListError>

  /** What the attempt that begins with call `i` comes to: its last answer decides. */
  function AttemptResult(answers: seq<Answer>, i: nat, required: Labels): ListResult {
    var j := AttemptEnd(answers, i);
    match At(answers, j - 1)
    case Gone => Failure(ErrGone)
    case OtherError => Failure(ErrOther)
    case Page(_, _) => Success(Chosen(Items(answers, i, j), required))
  }

  method FilterPage(items: seq<Resource>, required: Labels) returns (result: seq<Resource>)
    ensures result == Chosen(items, required)
  {
    result := items;
    if required != map[] {
      result := FilterBy(items, required);
    } else {
      NoSelectorChoosesAll(items);
    }
  }

  lemma OneMorePage(answers: seq<Answer>, i: nat, x: nat, required: Labels)
    requires i <= x && At(answers, x).Page?
    ensures Chosen(Items(answers, i, x + 1), required)
              == Chosen(Items(answers, i, x), required) + Chosen(At(answers, x).items, required)
  {
    ChosenOfConcatenation(Items(answers, i, x), At(answers, x).items, required);
  }

  /** A call that goes on: the attempt ends where it would have, and the next call carries this page's token. */
  lemma MiddleCall(answers: seq<Answer>, i: nat, x: nat)
    requires i <= x && Continues(At(answers, x))
    ensures AttemptEnd(answers, x + 1) == AttemptEnd(answers, x)
    ensures TokenFor(answers, i, x + 1) == At(answers, x).continueToken
  {
  }

  /** A call that ends the attempt decides it. */
  lemma LastCall(answers: seq<Answer>, i: nat, x: nat, required: Labels)
    requires i <= x && !Continues(At(answers, x)) && AttemptEnd(answers, i) == AttemptEnd(answers, x)
    ensures AttemptEnd(answers, i) == x + 1
    ensures AttemptResult(answers, i, required) ==
            match At(answers, x)
            case Gone => Failure(ErrGone)
            case OtherError => Failure(ErrOther)
            case Page(_, _) => Success(Chosen(Items(answers, i, x + 1), required))
  {
  }

  /** How far an attempt has come that began behind the calls of `start`. */
  predicate Progress(requests: seq<Request>, answers: seq<Answer>, f: ListOptions, start: seq<Request>, token: string, result: seq<Resource>) {
    && |start| <= |requests|
    && requests == start + Requests(answers, f.selector, |start|, |requests|)
    && AttemptEnd(answers, |requests|) == AttemptEnd(answers, |start|)
    && token == TokenFor(answers, |start|, |requests|)
    && result == Chosen(Items(answers, |start|, |requests|), f.annotations)
  }

  /** The attempt is over: its calls, and what it comes to. */
  predicate Over(requests: seq<Request>, answers: seq<Answer>, f: ListOptions, start: seq<Request>, r: ListResult) {
    && |requests| == AttemptEnd(answers, |start|)
    && requests == start + Requests(answers, f.selector, |start|, |requests|)
    && r == AttemptResult(answers, |start|, f.annotations)
  }

  lemma Begins(start: seq<Request>, answers: seq<Answer>, f: ListOptions)
    ensures Progress(start, answers, f, start, "", [])
  {
  }

  lemma OneMoreRequest(requests: seq<Request>, answers: seq<Answer>, f: ListOptions, start: seq<Request>, token: string, result: seq<Resource>)
    requires Progress(requests, answers, f, start, token, result)
    ensures requests + [Request(f.selector, token)] == start + Requests(answers, f.selector, |start|, |requests| + 1)
  {
  }

  lemma GoesOn(requests: seq<Request>, answers: seq<Answer>, f: ListOptions, start: seq<Request>, token: string, result: seq<Resource>)
    requires Progress(requests, answers, f, start, token, result) && Continues(At(answers, |requests|))
    ensures var page := At(answers, |requests|);
            Progress(requests + [Request(f.selector, token)], answers, f, start, page.continueToken, result + Chosen(page.items, f.annotations))
  {
    OneMoreRequest(requests, answers, f, start, token, result);
    MiddleCall(answers, |start|, |requests|);
    OneMorePage(answers, |start|, |requests|, f.annotations);
  }

  /** What the last answer of an attempt makes of the pages before it. */
  function Outcome(last: Answer, result: seq<Resource>, required: Labels): ListResult {
    match last
    case Gone => Failure(ErrGone)
    case OtherError => Failure(ErrOther)
    case Page(items, _) => Success(result + Chosen(items, required))
  }

  lemma Ends(requests: seq<Request>, answers: seq<Answer>, f: ListOptions, start: seq<Request>, token: string, result: seq<Resource>)
    requires Progress(requests, answers, f, start, token, result) && !Continues(At(answers, |requests|))
    ensures Over(requests + [Request(f.selector, token)], answers, f, start, Outcome(At(answers, |requests|), result, f.annotations))
  {
    OneMoreRequest(requests, answers, f, start, token, result);
    LastCall(answers, |start|, |requests|, f.annotations);
    if At(answers, |requests|).Page? {
      OneMorePage(answers, |start|, |requests|, f.annotations);
    }
  }

  /** `listLimited`: one attempt, each page filtered as it comes. */
  method ListLimited(server: ListServer, f: ListOptions) returns (r: ListResult)
    modifies server
    ensures Over(server.requests, server.answers, f, old(server.requests), r)
  {
    var result: seq<Resource> := [];
    var token := "";
    ghost var answers, start := server.answers, server.requests;
    Begins(start, answers, f);
    while true
      invariant Progress(server.requests, answers, f, start, token, result)
      decreases |answers| - |server.requests|
    {
      ghost var before := server.requests;
      if Continues(At(answers, |before|)) {
        GoesOn(before, answers, f, start, token, result);
      } else {
        Ends(before, answers, f, start, token, result);
      }
      var answer := server.List(Request(f.selector, token));
      match answer
      case Gone => return Failure(ErrGone);
      case OtherError => return Failure(ErrOther);
      case Page(items, continueToken) =>
        var partial := FilterPage(items, f.annotations);
        result := result + partial;
        if continueToken == "" {
          return Success(result);
        }
        token := continueToken;
    }
  }

  const MAX_GONE_ATTEMPTS := 3

  predicate EndsGone(answers: seq<Answer>, i: nat) {
    At(answers, AttemptEnd(answers, i) - 1) == Gone
  }

  /** The call with which attempt `n` begins, if the first begins with call `i`. */
  function AttemptStart(answers: seq<Answer>, i: nat, n: nat): nat
    decreases n
  {
    if n == 0 then i else AttemptStart(answers, AttemptEnd(answers, i), n - 1)
  }

  /** The number of the attempt that answers. */
  function Answering(answers: seq<Answer>, i: nat, left: nat): nat
    decreases left
  {
    if left > 1 && EndsGone(answers, i) then 1 + Answering(answers, AttemptEnd(answers, i), left - 1) else 0
  }

  /** The answer with so many attempts left, the next of which begins with call `i`. */
  function Listed(answers: seq<Answer>, i: nat, left: nat, required: Labels): ListResult
    decreases left
  {
    if left > 1 && EndsGone(answers, i) then Listed(answers, AttemptEnd(answers, i), left - 1, required)
    else AttemptResult(answers, i, required)
  }

  lemma AnswersLater(answers: seq<Answer>, i: nat, left: nat, required: Labels)
    requires left > 1 && EndsGone(answers, i)
    ensures var j, n := AttemptEnd(answers, i), Answering(answers, i, left);
            && n == 1 + Answering(answers, j, left - 1) && AttemptStart(answers, i, n) == AttemptStart(answers, j, n - 1)
            && Listed(answers, i, left, required) == Listed(answers, j, left - 1, required)
  {
  }

  lemma AnswersNow(answers: seq<Answer>, i: nat, left: nat, required: Labels)
    requires !(left > 1 && EndsGone(answers, i))
    ensures AttemptStart(answers, i, Answering(answers, i, left)) == i
    ensures Listed(answers, i, left, required) == AttemptResult(answers, i, required)
  {
  }

  lemma {:induction false} ListedIsAnswering(answers: seq<Answer>, i: nat, left: nat, required: Labels)
    ensures Listed(answers, i, left, required) == AttemptResult(answers, AttemptStart(answers, i, Answering(answers, i, left)), required)
    decreases left
  {
    if left > 1 && EndsGone(answers, i) {
      AnswersLater(answers, i, left, required);
      ListedIsAnswering(answers, AttemptEnd(answers, i), left - 1, required);
    } else {
      AnswersNow(answers, i, left, required);
    }
  }

  function RequestsOfAttempts(answers: seq<Answer>, selector: string, i: nat, left: nat): seq<Request>
    decreases left
  {
    var j := AttemptEnd(answers, i);
    if left == 0 then []
    else
      Requests(answers, selector, i, j) + if EndsGone(answers, i) then RequestsOfAttempts(answers, selector, j, left - 1) else []
  }

  /** After 410 Gone the rest is up to the attempts that are left. */
  lemma GoneAttempt(answers: seq<Answer>, f: ListOptions, i: nat, left: nat)
    requires left > 0 && EndsGone(answers, i)
    ensures AttemptResult(answers, i, f.annotations) == Failure(ErrGone)
    ensures left > 1 ==> Listed(answers, i, left, f.annotations) == Listed(answers, AttemptEnd(answers, i), left - 1, f.annotations)
    ensures left == 1 ==> Listed(answers, i, left, f.annotations) == Failure(ErrGone)
    ensures RequestsOfAttempts(answers, f.selector, i, left)
              == Requests(answers, f.selector, i, AttemptEnd(answers, i)) + RequestsOfAttempts(answers, f.selector, AttemptEnd(answers, i), left - 1)
  {
  }

  /** Any other end decides. */
  lemma DecidingAttempt(answers: seq<Answer>, f: ListOptions, i: nat, left: nat)
    requires left > 0 && !EndsGone(answers, i)
    ensures AttemptResult(answers, i, f.annotations) != Failure(ErrGone)
    ensures Listed(answers, i, left, f.annotations) == AttemptResult(answers, i, f.annotations)
    ensures RequestsOfAttempts(answers, f.selector, i, left) == Requests(answers, f.selector, i, AttemptEnd(answers, i))
  {
  }

  /** What is requested already, and what will be with so many attempts left. */
  function TotalLog(requests: seq<Request>, answers: seq<Answer>, f: ListOptions, left: nat): seq<Request> {
    requests + RequestsOfAttempts(answers, f.selector, |requests|, left)
  }

  lemma GoneLog(before: seq<Request>, after: seq<Request>, answers: seq<Answer>, f: ListOptions, left: nat)
    requires left > 0 && EndsGone(answers, |before|) && |after| == AttemptEnd(answers, |before|)
    requires after == before + Requests(answers, f.selector, |before|, |after|)
    ensures TotalLog(before, answers, f, left) == TotalLog(after, answers, f, left - 1)
  {
    GoneAttempt(answers, f, |before|, left);
    var calls, rest := Requests(answers, f.selector, |before|, |after|), RequestsOfAttempts(answers, f.selector, |after|, left - 1);
    assert before + (calls + rest) == (before + calls) + rest;
  }

  /** One attempt of the loop, with so many left before it. */
  method Attempt(server: ListServer, f: ListOptions, ghost left: nat) returns (r: ListResult)
    requires left > 0
    modifies server
    ensures |server.requests| == AttemptEnd(server.answers, old(|server.requests|))
    ensures r == AttemptResult(server.answers, old(|server.requests|), f.annotations)
    ensures r != Failure(ErrGone) ==> r == Listed(server.answers, old(|server.requests|), left, f.annotations)
    ensures r != Failure(ErrGone) ==> server.requests == TotalLog(old(server.requests), server.answers, f, left)
    ensures r == Failure(ErrGone) ==>
              TotalLog(old(server.requests), server.answers, f, left) == TotalLog(server.requests, server.answers, f, left - 1)
    ensures r == Failure(ErrGone) ==>
              Listed(server.answers, old(|server.requests|), left, f.annotations) ==
              if left == 1 then r else Listed(server.answers, |server.requests|, left - 1, f.annotations)
  {
    ghost var before := server.requests;
    r := ListLimited(server, f);
    assert server.requests == before + Requests(server.answers, f.selector, |before|, |server.requests|);
    if EndsGone(server.answers, |before|) {
      GoneAttempt(server.answers, f, |before|, left);
      GoneLog(before, server.requests, server.answers, f, left);
    } else {
      DecidingAttempt(server.answers, f, |before|, left);
    }
  }

  /** `ListWrapper`: at most three attempts, and the answer is that of the last one alone. */
  method ListWrapper(server: ListServer, metaFilter: Filter) returns (r: ListResult, ghost pairs: Pairs)
    modifies server
    ensures Enumerates(pairs, metaFilter.labels)
    ensures r == Listed(server.answers, old(|server.requests|), 3, metaFilter.annotations)
    ensures server.requests ==
              TotalLog(old(server.requests), server.answers, ListOptions(Render(pairs), metaFilter.annotations), 3)
  {
    var selector;
    selector, pairs := SelectorOf(metaFilter.labels);
    var f := ListOptions(selector, metaFilter.annotations);
    r := Failure(ErrGone);
    var attempt := 0;
    ghost var answers := server.answers;
    ghost var result := Listed(answers, |server.requests|, MAX_GONE_ATTEMPTS, f.annotations);
    ghost var log := TotalLog(server.requests, answers, f, MAX_GONE_ATTEMPTS);
    while attempt < MAX_GONE_ATTEMPTS
      invariant attempt <= MAX_GONE_ATTEMPTS
      invariant result == if attempt == MAX_GONE_ATTEMPTS then r
                          else Listed(answers, |server.requests|, MAX_GONE_ATTEMPTS - attempt, f.annotations)
      invariant log == TotalLog(server.requests, answers, f, MAX_GONE_ATTEMPTS - attempt)
    {
      ghost var left := MAX_GONE_ATTEMPTS - attempt;
      attempt := attempt + 1;
      r := Attempt(server, f, left);
      if r == Failure(ErrGone) {
        continue;
      }
      break;
    }
    assert attempt == MAX_GONE_ATTEMPTS ==> TotalLog(server.requests, answers, f, 0) == server.requests;
  }

  lemma {:induction false} EarlierAreGone(answers: seq<Answer>, i: nat, left: nat, m: nat)
    requires left > 0 && m <= Answering(answers, i, left)
    ensures Answering(answers, i, left) < left
    ensures if m < Answering(answers, i, left) then EndsGone(answers, AttemptStart(answers, i, m))
            else EndsGone(answers, AttemptStart(answers, i, m)) ==> m == left - 1
    decreases left
  {
    if left > 1 && EndsGone(answers, i) {
      EarlierAreGone(answers, AttemptEnd(answers, i), left - 1, if m > 0 then m - 1 else 0);
    }
  }

  /**
   A listing is answered by one attempt: all before it ended in 410 Gone and give nothing to the
   answer, and it did not end so itself, unless it was the last one allowed.
   */
  lemma OneAttemptAnswers(answers: seq<Answer>, i: nat, left: nat, required: Labels) returns (n: nat)
    requires left > 0
    ensures n < left
    ensures Listed(answers, i, left, required) == AttemptResult(answers, AttemptStart(answers, i, n), required)
    ensures EndsGone(answers, AttemptStart(answers, i, n)) ==> n == left - 1
    ensures forall m: nat :: m < n ==> EndsGone(answers, AttemptStart(answers, i, m))
  {
    n := Answering(answers, i, left);
    ListedIsAnswering(answers, i, left, required);
    EarlierAreGone(answers, i, left, n);
    forall m: nat | m < n ensures EndsGone(answers, AttemptStart(answers, i, m)) {
      EarlierAreGone(answers, i, left, m);
    }
  }

  /** A successful listing: the selector applied to all the pages of that attempt, in server order. */
  lemma ListingIsFilterOfPages(answers: seq<Answer>, i: nat, left: nat, required: Labels) returns (start: nat)
    requires left > 0 && Listed(answers, i, left, required).Success?
    ensures var end := AttemptEnd(answers, start);
            Listed(answers, i, left, required) == Success(Chosen(Items(answers, start, end), required))
    ensures forall x: nat :: start <= x < AttemptEnd(answers, start) ==> At(answers, x).Page?
  {
    var n := OneAttemptAnswers(answers, i, left, required);
    start := AttemptStart(answers, i, n);
    forall x: nat | start <= x < AttemptEnd(answers, start) ensures At(answers, x).Page? {
      if x < AttemptEnd(answers, start) - 1 {
        AttemptIsPagesUpToItsEnd(answers, start, x);
      }
    }
  }
}
