/** What the document store does with a query object: `Product.find(find)` in
    controller/admin/product.controller.js. The query object is a `Filter`; a
    document is returned when it satisfies every key the filter carries; `find`
    without sort, skip or limit returns all such documents in collection order. */
module ProductStore {
  import opened Wrappers
  import opened ProductModel
  import opened RegExp

  /** A query object over the keys the listing uses. An absent key constrains nothing. */
  datatype Filter = Filter(deleted: Option<bool>, status: Option<string>, title: Option<Pattern>)

  /** The empty query object `{}`, which every document satisfies. */
  function Everything(): Filter
  {
    Filter(None, None, None)
  }

  /** A document satisfies a filter when each key of the filter holds of it: a scalar
      key by equality with the stored value (an unset field equals nothing), a
      pattern key when the stored value is a string the pattern matches. */
  predicate Matches(f: Filter, e: RegexEngine, p: Product)
  {
    && (f.deleted.Some? ==> p.deleted == f.deleted)
    && (f.status.Some? ==> p.status == f.status)
    && (f.title.Some? ==> p.title.Some? && e.test(f.title.value, p.title.value))
  }

  /** `r` is `s` with some elements dropped and the others kept in their order. */
  ghost predicate IsSubsequence(r: seq<Product>, s: seq<Product>)
    decreases |s|
  {
    r == [] ||
    (s != [] && ((r[0] == s[0] && IsSubsequence(r[1..], s[1..])) || IsSubsequence(r, s[1..])))
  }

  /** The documents `find(f)` returns from a collection holding `s`, in order. */
  function Listing(f: Filter, e: RegexEngine, s: seq<Product>): (r: seq<Product>)
    ensures forall p :: p in r <==> p in s && Matches(f, e, p)
    ensures forall p :: multiset(r)[p] == if Matches(f, e, p) then multiset(s)[p] else 0
    ensures IsSubsequence(r, s)
    decreases |s|
  {
    if s == [] then []
    else
      assert s == [s[0]] + s[1..];
      if Matches(f, e, s[0]) then [s[0]] + Listing(f, e, s[1..]) else Listing(f, e, s[1..])
  }

  /** A subsequence holds no element more often than the sequence it is taken from. */
  lemma {:induction false} SubsequenceMultiset(r: seq<Product>, s: seq<Product>)
    requires IsSubsequence(r, s)
    ensures multiset(r) <= multiset(s)
    decreases |s|
  {
    if r != [] {
      assert s == [s[0]] + s[1..];
      if r[0] == s[0] && IsSubsequence(r[1..], s[1..]) {
        SubsequenceMultiset(r[1..], s[1..]);
        assert r == [r[0]] + r[1..];
      } else {
        SubsequenceMultiset(r, s[1..]);
      }
    }
  }

  /** `Listing` is the only order-preserving selection that keeps exactly the
      matching documents, each as often as the collection holds it. */
  lemma {:induction false} ListingIsUnique(f: Filter, e: RegexEngine, s: seq<Product>, r: seq<Product>)
    requires IsSubsequence(r, s)
    requires forall p :: multiset(r)[p] == if Matches(f, e, p) then multiset(s)[p] else 0
    ensures r == Listing(f, e, s)
    decreases |s|
  {
    if s == [] {
    } else {
      var x := s[0];
      assert s == [x] + s[1..];
      if Matches(f, e, x) {
        assert multiset(r)[x] > 0;
        if r[0] == x && IsSubsequence(r[1..], s[1..]) {
          assert r == [x] + r[1..];
          ListingIsUnique(f, e, s[1..], r[1..]);
        } else {
          SubsequenceMultiset(r, s[1..]);
          assert false;
        }
      } else {
        assert x !in r;
        if r != [] {
          assert r[0] != x;
        }
        ListingIsUnique(f, e, s[1..], r);
      }
    }
  }

  /** Filtering by `h` is filtering by `f` and then by `g`, when `h` asks exactly
      what `f` and `g` ask together. */
  lemma {:induction false} ListingComposes(f: Filter, g: Filter, h: Filter, e: RegexEngine, s: seq<Product>)
    requires forall p :: Matches(h, e, p) <==> Matches(f, e, p) && Matches(g, e, p)
    ensures Listing(h, e, s) == Listing(g, e, Listing(f, e, s))
    decreases |s|
  {
    if s != [] {
      ListingComposes(f, g, h, e, s[1..]);
      if Matches(f, e, s[0]) {
        var rest := Listing(f, e, s[1..]);
        assert ([s[0]] + rest)[0] == s[0] && ([s[0]] + rest)[1..] == rest;
      }
    }
  }

  /** Listing twice with the same filter lists the same documents. */
  lemma ListingIdempotent(f: Filter, e: RegexEngine, s: seq<Product>)
    ensures Listing(f, e, Listing(f, e, s)) == Listing(f, e, s)
  {
    ListingComposes(f, f, f, e, s);
  }
}
