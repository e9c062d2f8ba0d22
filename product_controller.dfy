/** The admin product listing handler, `index` in controller/admin/product.controller.js.

    The handler starts a query object at `{deleted: false}`, adds `status` when the
    `status` parameter is truthy, adds a case-insensitive `title` pattern built from
    the raw `keyword` parameter when that is truthy, lists the products matching the
    object, and hands the list and the unchanged keyword to the view. */
module ProductController {
  import opened Wrappers
  import opened ProductModel
  import opened RegExp
  import opened ProductStore

  /** The query-string parameters the handler reads; `undefined` is `None`. */
  datatype Query = Query(status: Option<string>, keyword: Option<string>)

  /** The failure the handler can raise: `new RegExp` throwing on the keyword. */
  datatype IndexError = InvalidPattern(source: string)

  /** The part of the view payload this model computes. */
  datatype View = View(products: seq<Product>, keyword: Option<string>)

  /** JavaScript truthiness of an optional string parameter: `undefined` and `""`
      are falsy, every other string ("0" and "false" included) is truthy. */
  predicate Truthy(param: Option<string>)
  {
    param.Some? && param.value != ""
  }

  /** The starting query object `{deleted: false}`. */
  function Base(): (r: Filter)
    ensures forall e, p :: Matches(r, e, p) <==> p.deleted == Some(false)
  {
    Filter(Some(false), None, None)
  }

  /** The status step: `find.status = status` when `status` is truthy. It never
      touches `deleted` or `title`, and the status is taken verbatim. */
  function AddStatus(f: Filter, status: Option<string>): (r: Filter)
    ensures r.deleted == f.deleted && r.title == f.title
    ensures Truthy(status) ==> r.status == status
    ensures !Truthy(status) ==> r == f
  {
    if Truthy(status) then f.(status := status) else f
  }

  /** The search step: `find.title = new RegExp(keyword, "i")` when `keyword` is
      truthy. It never touches `deleted` or `status`; the pattern source is the raw,
      unescaped keyword and the pattern ignores case. */
  function AddKeyword(f: Filter, keyword: Option<string>): (r: Filter)
    ensures r.deleted == f.deleted && r.status == f.status
    ensures Truthy(keyword) ==> r.title == Some(Pattern(keyword.value, true))
    ensures !Truthy(keyword) ==> r == f
  {
    if Truthy(keyword) then f.(title := Some(Pattern(keyword.value, true))) else f
  }

  /** The query object built from `q` when no exception is thrown. */
  function SpecFilter(q: Query): (r: Filter)
    ensures r.deleted == Some(false)
    ensures r.status.Some? <==> Truthy(q.status)
    ensures r.status.Some? ==> r.status == q.status
    ensures r.title.Some? <==> Truthy(q.keyword)
    ensures r.title.Some? ==> r.title.value == Pattern(q.keyword.value, true)
  {
    AddKeyword(AddStatus(Base(), q.status), q.keyword)
  }

  /** `new RegExp(keyword, "i")` runs and throws. A missing or empty keyword never
      reaches the constructor, so it cannot throw. */
  predicate KeywordThrows(q: Query, e: RegexEngine)
  {
    Truthy(q.keyword) && !e.compiles(q.keyword.value)
  }

  /** Builds the query object step by step, as the handler does. */
  method BuildFilter(q: Query, e: RegexEngine) returns (r: Result<Filter, IndexError>)
    ensures r.Failure? <==> KeywordThrows(q, e)
    ensures r.Failure? ==> r.error == InvalidPattern(q.keyword.value)
    ensures r.Success? ==> r.value == SpecFilter(q)
  {
    var find := Filter(Some(false), None, None);
    if Truthy(q.status) {
      find := find.(status := q.status);
    }
    if Truthy(q.keyword) {
      if !e.compiles(q.keyword.value) {
        return Failure(InvalidPattern(q.keyword.value));
      }
      find := find.(title := Some(Pattern(q.keyword.value, true)));
    }
    r := Success(find);
  }

  /** The handler: build the filter, list the matching products of the collection
      `store`, and echo the keyword. */
  method Index(q: Query, e: RegexEngine, store: seq<Product>) returns (r: Result<View, IndexError>)
    ensures r.Failure? <==> KeywordThrows(q, e)
    ensures r.Failure? ==> r.error == InvalidPattern(q.keyword.value)
    ensures r.Success? ==> r.value.products == Listing(SpecFilter(q), e, store)
    ensures r.Success? ==> r.value.keyword == q.keyword
  {
    var find := BuildFilter(q, e);
    match find {
      case Failure(err) =>
        r := Failure(err);
      case Success(f) =>
        var products := Listing(f, e, store);
        r := Success(View(products, q.keyword));
    }
  }

  // ---------------------------------------------------------------------------
  // The steps do not interfere

  /** The two optional steps may be taken in either order. */
  lemma StepsCommute(f: Filter, status: Option<string>, keyword: Option<string>)
    ensures AddKeyword(AddStatus(f, status), keyword) == AddStatus(AddKeyword(f, keyword), status)
  {
  }

  /** Changing the keyword leaves the `deleted` and `status` keys as they were. */
  lemma KeywordKeepsOtherKeys(q: Query, keyword: Option<string>)
    ensures SpecFilter(q.(keyword := keyword)).deleted == SpecFilter(q).deleted
    ensures SpecFilter(q.(keyword := keyword)).status == SpecFilter(q).status
  {
  }

  /** Changing the status leaves the `deleted` and `title` keys as they were. */
  lemma StatusKeepsOtherKeys(q: Query, status: Option<string>)
    ensures SpecFilter(q.(status := status)).deleted == SpecFilter(q).deleted
    ensures SpecFilter(q.(status := status)).title == SpecFilter(q).title
  {
  }

  // ---------------------------------------------------------------------------
  // Which products are listed

  /** A product is listed exactly when it is in the collection, its `deleted` field
      is exactly `false`, its status equals a given status, and its title matches a
      given keyword's pattern. */
  lemma ListedExactly(q: Query, e: RegexEngine, store: seq<Product>, p: Product)
    ensures p in Listing(SpecFilter(q), e, store) <==>
      && p in store
      && p.deleted == Some(false)
      && (Truthy(q.status) ==> p.status == q.status)
      && (Truthy(q.keyword) ==> p.title.Some? && e.test(Pattern(q.keyword.value, true), p.title.value))
  {
  }

  /** A document whose `deleted` is unset or `true` is never listed: the schema
      gives the field no default, and the filter asks for `false` exactly. */
  lemma NotDeletedOnly(q: Query, e: RegexEngine, store: seq<Product>, p: Product)
    requires p.deleted != Some(false)
    ensures p !in Listing(SpecFilter(q), e, store)
  {
  }

  /** A status that no stored product has yields the empty list, not an error. */
  lemma UnknownStatusListsNothing(q: Query, e: RegexEngine, store: seq<Product>)
    requires Truthy(q.status)
    requires forall i :: 0 <= i < |store| ==> store[i].status != q.status
    ensures Listing(SpecFilter(q), e, store) == []
  {
  }

  /** A plain keyword never makes the pattern construction throw. */
  lemma PlainKeywordNeverThrows(q: Query, e: RegexEngine)
    requires Sound(e)
    requires q.keyword.Some? && PlainKeyword(q.keyword.value)
    ensures !KeywordThrows(q, e)
  {
  }

  /** With a plain keyword, a product whose title contains the keyword up to ASCII
      case is listed; a listed product's title contains it up to ASCII case unless
      the title holds a character with an ASCII case variant. */
  lemma PlainKeywordListing(q: Query, e: RegexEngine, store: seq<Product>, p: Product)
    requires Sound(e)
    requires Truthy(q.keyword) && PlainKeyword(q.keyword.value)
    ensures
      && p in store
      && p.deleted == Some(false)
      && (Truthy(q.status) ==> p.status == q.status)
      && p.title.Some? && ContainsIgnoringAsciiCase(p.title.value, q.keyword.value)
      ==> p in Listing(SpecFilter(q), e, store)
    ensures p in Listing(SpecFilter(q), e, store) ==>
      && p in store
      && p.deleted == Some(false)
      && (Truthy(q.status) ==> p.status == q.status)
      && p.title.Some?
      && (FreeOfAsciiCaseVariants(p.title.value) ==> ContainsIgnoringAsciiCase(p.title.value, q.keyword.value))
  {
    ListedExactly(q, e, store, p);
  }

  /** Searching narrows the keyword-less listing: the listing for a keyword is the
      listing without it, filtered further by title alone, in the same order. */
  lemma KeywordNarrowsListing(q: Query, e: RegexEngine, store: seq<Product>)
    ensures Listing(SpecFilter(q), e, store) ==
      Listing(AddKeyword(Everything(), q.keyword), e, Listing(SpecFilter(q.(keyword := None)), e, store))
  {
    ListingComposes(SpecFilter(q.(keyword := None)), AddKeyword(Everything(), q.keyword), SpecFilter(q), e, store);
  }

  /** Filtering by status narrows the status-less listing in the same way. */
  lemma StatusNarrowsListing(q: Query, e: RegexEngine, store: seq<Product>)
    ensures Listing(SpecFilter(q), e, store) ==
      Listing(AddStatus(Everything(), q.status), e, Listing(SpecFilter(q.(status := None)), e, store))
  {
    ListingComposes(SpecFilter(q.(status := None)), AddStatus(Everything(), q.status), SpecFilter(q), e, store);
  }

  /** The search example: keyword "ABC" lists a live product titled "xabcx" and
      leaves out a product whose `deleted` field was never set. */
  lemma SearchExample(e: RegexEngine)
    requires Sound(e)
    ensures
      var live := Product(Some("xabcx"), None, None, None, None, None, None, None, Some(false));
      var unset := Product(Some("ABC"), None, None, None, None, None, None, None, None);
      Listing(SpecFilter(Query(None, Some("ABC"))), e, [live, unset]) == [live]
  {
    assert PlainKeyword("ABC");
    assert OccursAt("xabcx", "ABC", 1);
  }
}
