/** The retrieval filter that `construct_vector_search_config` builds from the
    page's checkboxes and episode-number boxes, the wrapping `perform_search`
    adds around it, and a reference semantics of the filter operators that
    says which documents a built filter admits. */
module Filters {
  import opened Wrappers
  import opened Strings

  const ContentTypeKey := "content_type"
  const EpisodeNumberKey := "episode_number"
  const FullEpisodeTag := "ame_full_episode"
  const BlogPostTag := "cloudfix_blogpost"

  /** The result cap `perform_search` adds to the configuration. */
  const NumberOfResults := 5

  /** One node of the filter tree. Range bounds carry the number Python's
      `float()` produced from the episode box; it is kept as a `real`. */
  datatype Cond =
    | Equals(key: string, text: string)
    | GreaterThanOrEquals(key: string, bound: real)
    | LessThanOrEquals(key: string, bound: real)
    | AndAll(conds: seq<Cond>)

  /** The `filter` object: `{}` when `orAll` is absent. */
  datatype Filter = Filter(orAll: Option<seq<Cond>>)

  /** `vectorSearchConfiguration`: `numberOfResults` is only present once
      `perform_search` has added it. */
  datatype VectorSearchConfig = VectorSearchConfig(filter: Filter, numberOfResults: Option<int>)

  datatype RetrievalConfig = RetrievalConfig(vectorSearchConfiguration: VectorSearchConfig)

  /** `float()` raised `ValueError` on this episode-box text. */
  datatype FilterError = InvalidNumber(text: string)

  /** Python's `float()` is a parameter of type `FloatParser`: `None` stands
      for the `ValueError` it raises. */
  type FloatParser = string -> Option<real>

  /** A present episode bound whose text `float()` rejects. */
  predicate Unparsable(bound: Option<string>, parse: FloatParser) {
    Truthy(bound) && parse(bound.value).None?
  }

  /** The number a bound contributes to the filter, or `None` when the box
      is absent or empty. */
  function ParsedBound(bound: Option<string>, parse: FloatParser): (r: Option<real>)
    ensures r.Some? ==> Truthy(bound) && parse(bound.value) == r
    ensures !Truthy(bound) ==> r.None?
  {
    if Truthy(bound) then parse(bound.value) else None
  }

  const FullEpisodeCond := Equals(ContentTypeKey, FullEpisodeTag)
  const BlogPostCond := Equals(ContentTypeKey, BlogPostTag)

  /** `ame_conditions`: the content-type test, then the minimum bound if
      present, then the maximum bound if present. `float()` is applied to the
      minimum first, so an unparsable minimum is the error reported. */
  function EpisodeConditions(minEp: Option<string>, maxEp: Option<string>, parse: FloatParser)
    : (r: Result<seq<Cond>, FilterError>)
    ensures r.Failure? <==> Unparsable(minEp, parse) || Unparsable(maxEp, parse)
    ensures Unparsable(minEp, parse) ==> r == Failure(InvalidNumber(minEp.value))
    ensures r.Success? ==>
      && |r.value| == 1 + (if Truthy(minEp) then 1 else 0) + (if Truthy(maxEp) then 1 else 0)
      && r.value[0] == FullEpisodeCond
    ensures r.Success? && Truthy(minEp) ==> r.value[1] == GreaterThanOrEquals(EpisodeNumberKey, parse(minEp.value).value)
    ensures r.Success? && Truthy(maxEp) ==> r.value[|r.value| - 1] == LessThanOrEquals(EpisodeNumberKey, parse(maxEp.value).value)
  {
    if Unparsable(minEp, parse) then Failure(InvalidNumber(minEp.value))
    else
      var withMin :=
        if Truthy(minEp) then [FullEpisodeCond, GreaterThanOrEquals(EpisodeNumberKey, parse(minEp.value).value)]
        else [FullEpisodeCond];
      if Unparsable(maxEp, parse) then Failure(InvalidNumber(maxEp.value))
      else if Truthy(maxEp) then Success(withMin + [LessThanOrEquals(EpisodeNumberKey, parse(maxEp.value).value)])
      else Success(withMin)
  }

  /** The entries the livestream checkbox contributes to `orAll`: one `andAll`
      group when both bounds are present, otherwise the conditions spliced in
      flat. */
  function LivestreamEntries(minEp: Option<string>, maxEp: Option<string>, parse: FloatParser)
    : (r: Result<seq<Cond>, FilterError>)
    ensures r.Failure? <==> Unparsable(minEp, parse) || Unparsable(maxEp, parse)
    ensures r.Success? && Truthy(minEp) && Truthy(maxEp) ==> |r.value| == 1 && r.value[0].AndAll?
    ensures r.Success? && !(Truthy(minEp) && Truthy(maxEp)) ==> forall c | c in r.value :: !c.AndAll?
    ensures r.Success? && Truthy(minEp) && Truthy(maxEp) ==> r.value == [AndAll(EpisodeConditions(minEp, maxEp, parse).value)]
    ensures r.Success? && !(Truthy(minEp) && Truthy(maxEp)) ==> r.value == EpisodeConditions(minEp, maxEp, parse).value
  {
    var ame :- EpisodeConditions(minEp, maxEp, parse);
    if Truthy(minEp) && Truthy(maxEp) then Success([AndAll(ame)]) else Success(ame)
  }

  /** `construct_vector_search_config`. The bounds are read only when the
      livestream box is ticked. */
  function ConstructVectorSearchConfig(
    livestream: bool, blogPosts: bool, minEp: Option<string>, maxEp: Option<string>, parse: FloatParser)
    : (r: Result<VectorSearchConfig, FilterError>)
    ensures r.Failure? <==> livestream && (Unparsable(minEp, parse) || Unparsable(maxEp, parse))
    ensures r.Success? ==> r.value.numberOfResults.None?
    ensures r.Success? ==> (r.value.filter.orAll.None? <==> !livestream && !blogPosts)
    ensures r.Success? && r.value.filter.orAll.Some? ==> |r.value.filter.orAll.value| > 0
  {
    var live :- if livestream then LivestreamEntries(minEp, maxEp, parse) else Success([]);
    var orConditions := live + (if blogPosts then [BlogPostCond] else []);
    Success(VectorSearchConfig(Filter(if |orConditions| == 0 then None else Some(orConditions)), None))
  }

  /** Lines 159-163 of `perform_search`: add the result cap and wrap the
      configuration under `vectorSearchConfiguration`. */
  function WrapRetrievalConfig(vsc: VectorSearchConfig): (rc: RetrievalConfig)
    ensures rc.vectorSearchConfiguration.filter == vsc.filter
    ensures rc.vectorSearchConfiguration.numberOfResults == Some(NumberOfResults)
  {
    RetrievalConfig(vsc.(numberOfResults := Some(NumberOfResults)))
  }

  // ---------------------------------------------------------------------
  // Shape of the built filter

  /** With neither box ticked the filter is `{}` whatever the bounds say. */
  lemma NoFlagsGiveEmptyFilter(minEp: Option<string>, maxEp: Option<string>, parse: FloatParser)
    ensures ConstructVectorSearchConfig(false, false, minEp, maxEp, parse)
         == Success(VectorSearchConfig(Filter(None), None))
  {
  }

  /** Without the livestream box the episode bounds are never looked at. */
  lemma LivestreamOffIgnoresBounds(
    blogPosts: bool, minEp: Option<string>, maxEp: Option<string>,
    minEp': Option<string>, maxEp': Option<string>, parse: FloatParser)
    ensures ConstructVectorSearchConfig(false, blogPosts, minEp, maxEp, parse)
         == ConstructVectorSearchConfig(false, blogPosts, minEp', maxEp', parse)
    ensures ConstructVectorSearchConfig(false, blogPosts, minEp, maxEp, parse).Success?
  {
  }

  /** Both bounds present and parsable: `orAll` starts with exactly one
      `andAll` of the content-type test and the two range tests, in that
      order. */
  lemma BothBoundsGiveOneAndAll(
    blogPosts: bool, minEp: Option<string>, maxEp: Option<string>, parse: FloatParser, lo: real, hi: real)
    requires Truthy(minEp) && Truthy(maxEp)
    requires parse(minEp.value) == Some(lo) && parse(maxEp.value) == Some(hi)
    ensures ConstructVectorSearchConfig(true, blogPosts, minEp, maxEp, parse)
         == Success(VectorSearchConfig(Filter(Some(
              [AndAll([FullEpisodeCond,
                       GreaterThanOrEquals(EpisodeNumberKey, lo),
                       LessThanOrEquals(EpisodeNumberKey, hi)])]
              + (if blogPosts then [BlogPostCond] else []))), None))
  {
    var ame := [FullEpisodeCond, GreaterThanOrEquals(EpisodeNumberKey, lo)] + [LessThanOrEquals(EpisodeNumberKey, hi)];
    assert ame == [FullEpisodeCond, GreaterThanOrEquals(EpisodeNumberKey, lo), LessThanOrEquals(EpisodeNumberKey, hi)];
    assert EpisodeConditions(minEp, maxEp, parse) == Success(ame);
  }

  /** Only the minimum present: the content-type test and the lower bound are
      two separate `orAll` entries; there is no `andAll`. */
  lemma MinOnlyGivesFlatEntries(
    blogPosts: bool, minEp: Option<string>, maxEp: Option<string>, parse: FloatParser, lo: real)
    requires Truthy(minEp) && !Truthy(maxEp) && parse(minEp.value) == Some(lo)
    ensures ConstructVectorSearchConfig(true, blogPosts, minEp, maxEp, parse)
         == Success(VectorSearchConfig(Filter(Some(
              [FullEpisodeCond, GreaterThanOrEquals(EpisodeNumberKey, lo)]
              + (if blogPosts then [BlogPostCond] else []))), None))
  {
    assert EpisodeConditions(minEp, maxEp, parse) == Success([FullEpisodeCond, GreaterThanOrEquals(EpisodeNumberKey, lo)]);
  }

  /** Only the maximum present: the mirror image of `MinOnlyGivesFlatEntries`. */
  lemma MaxOnlyGivesFlatEntries(
    blogPosts: bool, minEp: Option<string>, maxEp: Option<string>, parse: FloatParser, hi: real)
    requires !Truthy(minEp) && Truthy(maxEp) && parse(maxEp.value) == Some(hi)
    ensures ConstructVectorSearchConfig(true, blogPosts, minEp, maxEp, parse)
         == Success(VectorSearchConfig(Filter(Some(
              [FullEpisodeCond, LessThanOrEquals(EpisodeNumberKey, hi)]
              + (if blogPosts then [BlogPostCond] else []))), None))
  {
    assert [FullEpisodeCond] + [LessThanOrEquals(EpisodeNumberKey, hi)] == [FullEpisodeCond, LessThanOrEquals(EpisodeNumberKey, hi)];
    assert EpisodeConditions(minEp, maxEp, parse) == Success([FullEpisodeCond, LessThanOrEquals(EpisodeNumberKey, hi)]);
  }

  /** Livestream ticked with neither bound present: the content-type test is
      a single flat `orAll` entry. */
  lemma NoBoundsGiveContentTypeOnly(blogPosts: bool, minEp: Option<string>, maxEp: Option<string>, parse: FloatParser)
    requires !Truthy(minEp) && !Truthy(maxEp)
    ensures ConstructVectorSearchConfig(true, blogPosts, minEp, maxEp, parse)
         == Success(VectorSearchConfig(Filter(Some([FullEpisodeCond] + (if blogPosts then [BlogPostCond] else []))), None))
  {
    assert EpisodeConditions(minEp, maxEp, parse) == Success([FullEpisodeCond]);
  }

  /** The number of `orAll` entries, and the blog-post test coming last. */
  lemma EntryCount(livestream: bool, blogPosts: bool, minEp: Option<string>, maxEp: Option<string>, parse: FloatParser)
    requires ConstructVectorSearchConfig(livestream, blogPosts, minEp, maxEp, parse).Success?
    ensures var f := ConstructVectorSearchConfig(livestream, blogPosts, minEp, maxEp, parse).value.filter;
      var live :=
        if !livestream then 0
        else if Truthy(minEp) && Truthy(maxEp) then 1
        else 1 + (if Truthy(minEp) then 1 else 0) + (if Truthy(maxEp) then 1 else 0);
      var n := live + (if blogPosts then 1 else 0);
      && (f.orAll.None? <==> n == 0)
      && (f.orAll.Some? ==> |f.orAll.value| == n)
      && (blogPosts ==> f.orAll.Some? && f.orAll.value[n - 1] == BlogPostCond)
      && (forall i | 0 <= i < n - (if blogPosts then 1 else 0) :: f.orAll.value[i] != BlogPostCond)
  {
    if livestream {
      var ame := EpisodeConditions(minEp, maxEp, parse).value;
      assert forall c | c in ame :: c != BlogPostCond;
    }
  }

  // ---------------------------------------------------------------------
  // Which documents a filter admits

  /** A metadata attribute value as the retrieval service compares it. */
  datatype Attribute = Text(s: string) | Number(n: real)

  type Document = map<string, Attribute>

  /** Reference semantics of one filter node, by the operator names the
      retrieval service documents: string equality, numeric comparison, and
      conjunction. */
  predicate Holds(c: Cond, doc: Document) {
    match c
    case Equals(k, v) => k in doc && doc[k] == Text(v)
    case GreaterThanOrEquals(k, x) => k in doc && doc[k].Number? && doc[k].n >= x
    case LessThanOrEquals(k, x) => k in doc && doc[k].Number? && doc[k].n <= x
    case AndAll(cs) => forall c' | c' in cs :: Holds(c', doc)
  }

  /** Some entry of `cs` holds for `doc`. */
  predicate AnyHolds(cs: seq<Cond>, doc: Document) {
    exists c | c in cs :: Holds(c, doc)
  }

  /** An empty filter admits everything; `orAll` admits a document when one
      of its entries holds. */
  predicate Admits(f: Filter, doc: Document) {
    match f.orAll
    case None => true
    case Some(cs) => AnyHolds(cs, doc)
  }

  predicate HasText(doc: Document, key: string, v: string) {
    key in doc && doc[key] == Text(v)
  }

  predicate AtLeast(doc: Document, lo: real) {
    EpisodeNumberKey in doc && doc[EpisodeNumberKey].Number? && doc[EpisodeNumberKey].n >= lo
  }

  predicate AtMost(doc: Document, hi: real) {
    EpisodeNumberKey in doc && doc[EpisodeNumberKey].Number? && doc[EpisodeNumberKey].n <= hi
  }

  /** The documents the page's choices select, stated directly: everything
      when no box is ticked; otherwise full episodes (restricted to the range
      only when both bounds are given, and otherwise joined with whichever
      one-sided bound is given) or blog posts. */
  predicate Selected(livestream: bool, blogPosts: bool, lo: Option<real>, hi: Option<real>, doc: Document) {
    var episode := HasText(doc, ContentTypeKey, FullEpisodeTag);
    || (!livestream && !blogPosts)
    || (livestream && lo.Some? && hi.Some? && episode && AtLeast(doc, lo.value) && AtMost(doc, hi.value))
    || (livestream && !(lo.Some? && hi.Some?) &&
        (episode || (lo.Some? && AtLeast(doc, lo.value)) || (hi.Some? && AtMost(doc, hi.value))))
    || (blogPosts && HasText(doc, ContentTypeKey, BlogPostTag))
  }


  lemma AnyHoldsConcat(xs: seq<Cond>, ys: seq<Cond>, doc: Document)
    ensures AnyHolds(xs + ys, doc) <==> AnyHolds(xs, doc) || AnyHolds(ys, doc)
  {
    if AnyHolds(xs + ys, doc) {
      var c :| c in xs + ys && Holds(c, doc);
    }
    if AnyHolds(xs, doc) {
      var c :| c in xs && Holds(c, doc);
      assert c in xs + ys;
    }
    if AnyHolds(ys, doc) {
      var c :| c in ys && Holds(c, doc);
      assert c in xs + ys;
    }
  }

  /** The livestream entries hold for a document exactly when it is a full
      episode in range (both bounds), or a full episode or within the one
      given bound (otherwise). */
  lemma LivestreamEntriesSemantics(minEp: Option<string>, maxEp: Option<string>, parse: FloatParser, doc: Document)
    requires LivestreamEntries(minEp, maxEp, parse).Success?
    ensures var lo, hi := ParsedBound(minEp, parse), ParsedBound(maxEp, parse);
      var episode := HasText(doc, ContentTypeKey, FullEpisodeTag);
      var admitted :=
        if lo.Some? && hi.Some? then episode && AtLeast(doc, lo.value) && AtMost(doc, hi.value)
        else episode || (lo.Some? && AtLeast(doc, lo.value)) || (hi.Some? && AtMost(doc, hi.value));
      AnyHolds(LivestreamEntries(minEp, maxEp, parse).value, doc) <==> admitted
  {
    var lo, hi := ParsedBound(minEp, parse), ParsedBound(maxEp, parse);
    var episode := HasText(doc, ContentTypeKey, FullEpisodeTag);
    var live := LivestreamEntries(minEp, maxEp, parse).value;
    if lo.Some? && hi.Some? {
      var ame := [FullEpisodeCond, GreaterThanOrEquals(EpisodeNumberKey, lo.value), LessThanOrEquals(EpisodeNumberKey, hi.value)];
      assert EpisodeConditions(minEp, maxEp, parse).value == ame;
      assert live == [AndAll(ame)];
      assert Holds(AndAll(ame), doc) <==> episode && AtLeast(doc, lo.value) && AtMost(doc, hi.value) by {
        assert ame[0] in ame && ame[1] in ame && ame[2] in ame;
      }
      assert live[0] in live;
    } else if lo.Some? {
      assert live == [FullEpisodeCond, GreaterThanOrEquals(EpisodeNumberKey, lo.value)];
      assert live[0] in live && live[1] in live;
    } else if hi.Some? {
      assert live == [FullEpisodeCond, LessThanOrEquals(EpisodeNumberKey, hi.value)];
      assert live[0] in live && live[1] in live;
    } else {
      assert live == [FullEpisodeCond];
      assert live[0] in live;
    }
  }

  /** The built filter admits exactly the selected documents. */
  lemma FilterSemantics(
    livestream: bool, blogPosts: bool, minEp: Option<string>, maxEp: Option<string>, parse: FloatParser, doc: Document)
    requires ConstructVectorSearchConfig(livestream, blogPosts, minEp, maxEp, parse).Success?
    ensures Admits(ConstructVectorSearchConfig(livestream, blogPosts, minEp, maxEp, parse).value.filter, doc)
        <==> Selected(livestream, blogPosts, ParsedBound(minEp, parse), ParsedBound(maxEp, parse), doc)
  {
    var blog: seq<Cond> := if blogPosts then [BlogPostCond] else [];
    assert AnyHolds(blog, doc) <==> blogPosts && HasText(doc, ContentTypeKey, BlogPostTag) by {
      if blogPosts { assert blog[0] in blog; }
    }
    if livestream {
      var live := LivestreamEntries(minEp, maxEp, parse).value;
      LivestreamEntriesSemantics(minEp, maxEp, parse, doc);
      assert ConstructVectorSearchConfig(livestream, blogPosts, minEp, maxEp, parse).value.filter.orAll
          == Some(live + blog);
      AnyHoldsConcat(live, blog, doc);
    } else if blogPosts {
      assert [] + blog == blog;
      assert ConstructVectorSearchConfig(livestream, blogPosts, minEp, maxEp, parse).value.filter.orAll
          == Some(blog);
    }
  }

  /** The asymmetry of the one-bound case made concrete: with only a minimum
      of 10, a full episode numbered 3 still passes the filter. */
  lemma OneBoundDoesNotRestrictEpisodes(parse: FloatParser)
    requires parse("10") == Some(10.0)
    ensures var doc := map[ContentTypeKey := Text(FullEpisodeTag), EpisodeNumberKey := Number(3.0)];
      var r := ConstructVectorSearchConfig(true, false, Some("10"), Some(""), parse);
      && r.Success?
      && Admits(r.value.filter, doc)
      && !AtLeast(doc, 10.0)
  {
    var doc := map[ContentTypeKey := Text(FullEpisodeTag), EpisodeNumberKey := Number(3.0)];
    FilterSemantics(true, false, Some("10"), Some(""), parse, doc);
  }

  /** With both bounds the same episode is filtered out. */
  lemma BothBoundsRestrictEpisodes(parse: FloatParser)
    requires parse("10") == Some(10.0) && parse("20") == Some(20.0)
    ensures var doc := map[ContentTypeKey := Text(FullEpisodeTag), EpisodeNumberKey := Number(3.0)];
      var r := ConstructVectorSearchConfig(true, false, Some("10"), Some("20"), parse);
      && r.Success?
      && !Admits(r.value.filter, doc)
  {
    var doc := map[ContentTypeKey := Text(FullEpisodeTag), EpisodeNumberKey := Number(3.0)];
    FilterSemantics(true, false, Some("10"), Some("20"), parse, doc);
  }
}
