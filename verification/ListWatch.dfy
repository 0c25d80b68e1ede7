/**
 Listing against watching.  Both filter annotations by the same predicate; for labels the watch
 compares maps, and the listing sends the API server a text.
 */
module ListWatch {
  import opened Selectors
  import opened WatchTypes
  import opened LabelSelectors
  import opened LabelSelectorProps

  /** An object is listed if the server reads the text, and selects it, and its annotations fit. */
  predicate ListAccepts(obj: Resource, f: Filter, pairs: Pairs) {
    var selector := Read(Render(pairs));
    selector.Some? && MatchesAll(selector.value, obj.labels) && Selects(f.annotations, obj.annotations)
  }

  function WithLabels(labels: Labels, f: Filter): Resource {
    Resource(Key("ns", "r"), "1", 1, labels, f.annotations)
  }

  lemma InSyntaxSelects(f: Filter, pairs: Pairs, obj: Resource)
    requires Enumerates(pairs, f.labels) && AllInSyntax(pairs)
    ensures ListAccepts(obj, f, pairs) <==> AcceptMeta(obj, f)
  {
    ReadsBackIff(pairs);
    MeantIsEquality(pairs, f.labels, obj.labels);
    WildcardIsNoValue();
    forall k | k in f.labels ensures f.labels[k] != ANY_VALUE {
      var i :| 0 <= i < |pairs| && pairs[i] == (k, f.labels[k]);
    }
    if Selects(f.labels, obj.labels) {
      assert forall k :: k in f.labels ==> PairHolds(f.labels, obj.labels, k);
    }
  }

  /** Labels that are not all in label syntax: some object is listed and not watched, or the other way round. */
  lemma OutOfSyntaxTells(f: Filter, pairs: Pairs) returns (obj: Resource)
    requires Enumerates(pairs, f.labels) && !AllInSyntax(pairs)
    ensures ListAccepts(obj, f, pairs) != AcceptMeta(obj, f)
  {
    var labels := f.labels;
    SelectsItself(f.annotations);
    if Read(Render(pairs)).None? {
      SelectsItself(labels);
    } else {
      if AllButWildcards(pairs) {
        WildcardIsRefused(pairs);
        assert false;
      }
      NoOffence(pairs, f.labels);
      var k :| OffendsAt(f.labels, k);
      SelectorIsValid(Render(pairs));
      labels := OffenceTells(f.labels, Read(Render(pairs)).value, k);
    }
    obj := WithLabels(labels, f);
  }

  /**
   Listing and watching accept the same objects exactly if every label key and value of the filter is
   in label syntax, whatever text is joined from them in whatever order.
   */
  lemma ListAndWatchAgreeIff(f: Filter, pairs: Pairs)
    requires Enumerates(pairs, f.labels)
    ensures (forall obj :: ListAccepts(obj, f, pairs) <==> AcceptMeta(obj, f)) <==> AllInSyntax(pairs)
  {
    if AllInSyntax(pairs) {
      forall obj ensures ListAccepts(obj, f, pairs) <==> AcceptMeta(obj, f) {
        InSyntaxSelects(f, pairs, obj);
      }
    } else {
      var obj := OutOfSyntaxTells(f, pairs);
    }
  }

  // ----- objects that a cluster can hold

  /** The labels of an object in a cluster are in label syntax. */
  predicate InCluster(obj: Resource) {
    forall k :: k in obj.labels ==> IsLabelKey(k) && IsLabelValue(obj.labels[k])
  }

  /** Of an offending pair, the watch finds nothing in a cluster. */
  lemma OffenceWatchesNothing(f: Filter, k: string, obj: Resource)
    requires OffendsAt(f.labels, k) && InCluster(obj)
    ensures !AcceptMeta(obj, f)
  {
    assert !PairHolds(f.labels, obj.labels, k);
  }

  /** Of proper keys with values in label syntax or wildcards, it finds something. */
  lemma WildcardsAreWatched(f: Filter, pairs: Pairs) returns (obj: Resource)
    requires Enumerates(pairs, f.labels) && AllButWildcards(pairs)
    ensures InCluster(obj) && AcceptMeta(obj, f)
  {
    var labels := map k | k in f.labels :: if f.labels[k] == ANY_VALUE then "" else f.labels[k];
    obj := WithLabels(labels, f);
    NoOffence(pairs, f.labels);
    SelectsItself(f.annotations);
    forall k | k in labels ensures IsLabelKey(k) && IsLabelValue(labels[k]) {
      assert !OffendsAt(f.labels, k);
    }
    forall k | k in f.labels ensures PairHolds(f.labels, labels, k) {
    }
  }

  /**
   On what a cluster can hold, they agree exactly if the labels are in label syntax, or if the watch can
   find nothing, because some pair offends, and the server refuses the text or finds nothing either.
   */
  lemma AgreeInClusterIff(f: Filter, pairs: Pairs)
    requires Enumerates(pairs, f.labels)
    ensures (forall obj :: InCluster(obj) ==> (ListAccepts(obj, f, pairs) <==> AcceptMeta(obj, f))) <==>
              || AllInSyntax(pairs)
              || (!AllButWildcards(pairs) && forall obj :: InCluster(obj) ==> !ListAccepts(obj, f, pairs))
  {
    if AllInSyntax(pairs) {
      ListAndWatchAgreeIff(f, pairs);
    } else if AllButWildcards(pairs) {
      WildcardIsRefused(pairs);
      var obj := WildcardsAreWatched(f, pairs);
      assert !ListAccepts(obj, f, pairs);
    } else {
      NoOffence(pairs, f.labels);
      var k :| OffendsAt(f.labels, k);
      forall obj | InCluster(obj) ensures !AcceptMeta(obj, f) {
        OffenceWatchesNothing(f, k, obj);
      }
    }
  }

  // ----- cases

  lemma ShortWords()
    ensures IsName("app") && IsName("shop") && IsName("tier") && IsName("gold")
  {
  }

  /** A label required with the wildcard: some object is watched, and the server refuses the listing. */
  lemma WildcardLabelFilter() returns (f: Filter, pairs: Pairs, obj: Resource)
    ensures f == Filter(map["app" := ANY_VALUE], map[], false) && Enumerates(pairs, f.labels)
    ensures InCluster(obj) && AcceptMeta(obj, f) && Read(Render(pairs)).None?
    ensures forall o :: !ListAccepts(o, f, pairs)
  {
    f, pairs := Filter(map["app" := ANY_VALUE], map[], false), [("app", ANY_VALUE)];
    ShortWords();
    WildcardIsNoValue();
    assert !IsLabelValue(pairs[0].1);
    WildcardIsRefused(pairs);
    obj := WithLabels(map["app" := "shop"], f);
  }

  /** A comma in a value: an object is listed that the watch rejects. */
  lemma CommaLabelFilter() returns (f: Filter, pairs: Pairs, obj: Resource)
    ensures f == Filter(map["app" := "shop" + ("," + "tier")], map[], false) && Enumerates(pairs, f.labels)
    ensures obj.labels == map["app" := "shop", "tier" := "gold"]
    ensures InCluster(obj) && ListAccepts(obj, f, pairs) && !AcceptMeta(obj, f)
  {
    var value := "shop" + ("," + "tier");
    f, pairs := Filter(map["app" := value], map[], false), [("app", value)];
    ShortWords();
    CommaSplitsTheValue("app", "shop", "tier");
    obj := WithLabels(map["app" := "shop", "tier" := "gold"], f);
    assert |value| > |"shop"| && !PairHolds(f.labels, obj.labels, "app");
  }

  /** An exclamation mark in a key: an object without labels is listed, and the watch rejects it. */
  lemma BangLabelFilter() returns (f: Filter, pairs: Pairs, obj: Resource)
    ensures f == Filter(map["app" + "!" := "shop"], map[], false) && Enumerates(pairs, f.labels)
    ensures InCluster(obj) && obj.labels == map[] && ListAccepts(obj, f, pairs) && !AcceptMeta(obj, f)
  {
    f, pairs := Filter(map["app" + "!" := "shop"], map[], false), [("app" + "!", "shop")];
    ShortWords();
    BangNegates("app", "shop");
    obj := WithLabels(map[], f);
    assert !PairHolds(f.labels, obj.labels, "app" + "!");
  }
}
