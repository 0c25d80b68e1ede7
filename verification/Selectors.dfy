/**
 The metadata selectors of the library: a required set of labels or annotations, where the
 value `*` stands for any value.  Watching and listing each have their own loop over the
 required pairs; both are proved against the one predicate `Selects`.
 */
module Selectors {
  type Labels = map<string, string>

  const ANY_VALUE := "*"

  predicate PairHolds(required: Labels, actual: Labels, k: string)
    requires k in required
  {
    k in actual && (required[k] == ANY_VALUE || actual[k] == required[k])
  }

  /** Every required key is present, with the required value unless that is the wildcard. */
  predicate Selects(required: Labels, actual: Labels) {
    forall k :: k in required ==> PairHolds(required, actual, k)
  }

  /** The watch side: `matchMeta`. */
  method MatchMeta(expected: Labels, actual: Labels) returns (ok: bool)
    ensures ok <==> Selects(expected, actual)
    ensures ok <==> forall k :: k in expected ==> k in actual && (expected[k] == "*" || actual[k] == expected[k])
  {
    var todo := expected.Keys;
    while todo != {}
      invariant todo <= expected.Keys
      invariant forall k :: k in expected && k !in todo ==> PairHolds(expected, actual, k)
    {
      var k :| k in todo;
      if k !in actual || (actual[k] != expected[k] && expected[k] != ANY_VALUE) {
        assert !PairHolds(expected, actual, k);
        return false;
      }
      todo := todo - {k};
    }
    return true;
  }

  /** The list side: `containsAll`, with its arguments the other way round. */
  method ContainsAll(resourceAnns: Labels, requiredAnns: Labels) returns (ok: bool)
    ensures ok <==> Selects(requiredAnns, resourceAnns)
    ensures ok <==> forall k :: k in requiredAnns ==> k in resourceAnns && (requiredAnns[k] == "*" || resourceAnns[k] == requiredAnns[k])
  {
    var todo := requiredAnns.Keys;
    while todo != {}
      invariant todo <= requiredAnns.Keys
      invariant forall k :: k in requiredAnns && k !in todo ==> PairHolds(requiredAnns, resourceAnns, k)
    {
      var k :| k in todo;
      if k !in resourceAnns || (requiredAnns[k] != ANY_VALUE && resourceAnns[k] != requiredAnns[k]) {
        assert !PairHolds(requiredAnns, resourceAnns, k);
        return false;
      }
      todo := todo - {k};
    }
    return true;
  }
}
