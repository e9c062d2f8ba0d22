# Admin product listing filter

A Dafny model of the admin product listing of a small catalog backend: the `index`
handler in `controller/admin/product.controller.js` and the product schema in
`models/product.model.js`.

The handler builds a query object for the document store in three steps:

1. it starts from `{deleted: false}`;
2. it adds `status` verbatim when the `status` query parameter is truthy;
3. it adds `title: new RegExp(keyword, "i")` when the `keyword` parameter is truthy.

It then lists every product that satisfies the object, with no sort, skip or limit,
and passes the list and the raw keyword to the view.

Modules:

- `Wrappers` (`wrappers.dfy`): `Option` and `Result`.
- `ProductModel` (`product_model.dfy`): the `Product` document. Every schema field is
  an `Option`, because the schema sets no `required` and no `default`.
- `RegExp` (`regexp.dfy`): two abstract regular-expression engines. One is
  JavaScript's `RegExp` constructor, which decides which sources compile. The other is
  the store's matcher, which decides whether a pattern matches a stored title.
  `Sound(e)` fixes them only for plain keywords, meaning ASCII keywords with no NUL
  and no metacharacter. A plain keyword always compiles. With the `i` flag it matches
  every title that contains it, ignoring ASCII case. On a title free of the four
  non-ASCII characters that case mappings relate to ASCII letters (U+0130, U+0131,
  U+017F, U+212A), it matches no other title.
- `ProductStore` (`product_store.dfy`): the query object (`Filter`), what it means for
  a document to satisfy it (`Matches`), and what `find` returns (`Listing`). `Listing`
  is proved to be the unique subsequence of the collection that keeps every matching
  document, as often as it occurs, in collection order.
- `ProductController` (`product_controller.dfy`): the query parameters, the three
  steps as functions, the step-by-step `BuildFilter` method, the `Index` handler, and
  the lemmas about which keys the filter carries and which products are listed.

The model follows what the code does, including three behaviours one might expect to be otherwise:

- The keyword is echoed to the view exactly as received. It is not trimmed.
- The handler applies no pagination and no sort.
- The handler does build the regular expression from the unescaped keyword. A
  keyword with metacharacters changes what matches, and an invalid one (`c++`, `(`)
  makes `new RegExp` throw. That throw is not caught in the handler. The model
  returns it as `Failure(InvalidPattern(keyword))`.

## Model

| member | source | states |
|---|---|---|
| `ProductController.Truthy` | controller/admin/product.controller.js:16 | defines JavaScript truthiness of an optional string: `undefined` and `""` are falsy, every other string is truthy, as in the `if` conditions at :16 and :22 |
| `ProductController.Base` | controller/admin/product.controller.js:9-11 | the starting filter matches exactly the documents whose `deleted` is `false` |
| `ProductController.KeywordThrows` | controller/admin/product.controller.js:22-23 | defines the throw: `new RegExp(keyword, "i")` is reached, because the keyword is truthy, and throws |
| `ProductController.AddStatus` | controller/admin/product.controller.js:16-18 | a truthy status is set verbatim, with no check against any enumeration; `deleted` and `title` are untouched; a falsy status leaves the filter unchanged |
| `ProductController.AddKeyword` | controller/admin/product.controller.js:22-25 | a truthy keyword sets `title` to the raw, unescaped keyword with the case-insensitive flag; `deleted` and `status` are untouched; a falsy keyword leaves the filter unchanged |
| `ProductController.SpecFilter` | controller/admin/product.controller.js:9-25 | the built filter always has `deleted == false`; it has a `status` key iff the parameter is present and non-empty, equal to it; it has a `title` key iff the keyword is present and non-empty, equal to the case-insensitive pattern of the raw keyword |
| `ProductController.BuildFilter` | controller/admin/product.controller.js:9-25 | the step-by-step construction throws iff the keyword is truthy and does not compile, with that keyword; otherwise it yields exactly `SpecFilter(q)` |
| `ProductController.Index` | controller/admin/product.controller.js:8-40 | the handler fails, with the keyword, iff `new RegExp` throws on it (store rejections are not modelled); otherwise the products are exactly `Listing(SpecFilter(q))` over the collection and the view keyword is the query keyword unchanged |
| `ProductController.StepsCommute` | controller/admin/product.controller.js:16-25 | the status step and the keyword step give the same filter in either order |
| `ProductController.KeywordKeepsOtherKeys` | controller/admin/product.controller.js:9-25 | changing the keyword never changes the `deleted` or `status` entry |
| `ProductController.StatusKeepsOtherKeys` | controller/admin/product.controller.js:9-25 | changing the status never changes the `deleted` or `title` entry |
| `ProductController.ListedExactly` | controller/admin/product.controller.js:9-31 | a product is listed iff it is stored, its `deleted` is exactly `false`, it has a given status, and its title matches a given keyword's pattern |
| `ProductController.NotDeletedOnly` | controller/admin/product.controller.js:9-11 | a product whose `deleted` is unset or `true` is never listed |
| `ProductController.UnknownStatusListsNothing` | controller/admin/product.controller.js:16-18 | a status that no stored product has yields the empty list, not an error |
| `ProductController.PlainKeywordNeverThrows` | controller/admin/product.controller.js:22-23 | a plain keyword never makes the pattern construction throw |
| `ProductController.PlainKeywordListing` | controller/admin/product.controller.js:22-31 | with a plain keyword, a product meeting the other keys whose title contains the keyword up to ASCII case is listed; a listed product meets the other keys and, unless its title holds a character with an ASCII case variant, its title contains the keyword up to ASCII case |
| `ProductController.KeywordNarrowsListing` | controller/admin/product.controller.js:22-31 | the keyword listing is the keyword-less listing further filtered by title alone, in the same order |
| `ProductController.StatusNarrowsListing` | controller/admin/product.controller.js:16-31 | the status listing is the status-less listing further filtered by status alone, in the same order |
| `ProductController.SearchExample` | controller/admin/product.controller.js:22-31 | keyword "ABC" lists a live product titled "xabcx" and omits one whose `deleted` was never set |
| `ProductStore.Matches` | controller/admin/product.controller.js:30-31 | defines what `find` does with each key: a scalar key is met by an equal stored value (an unset field equals nothing), a `title` pattern by a set title that the store's matcher matches |
| `RegExp.Sound` | controller/admin/product.controller.js:23 | defines the hypothesis on the two engines for a plain keyword: it always compiles; containment up to ASCII case implies a match for every title; a match implies containment on titles free of U+0130, U+0131, U+017F and U+212A (`RegExp.PlainEngineIsSound` shows the hypothesis can be met); the match is the one made by `find` at :30-31 |
| `ProductStore.Listing` | controller/admin/product.controller.js:30-31 | `find` returns exactly the stored documents that satisfy the filter, each as often as stored, as a subsequence of the collection |
| `ProductStore.ListingIsUnique` | controller/admin/product.controller.js:30-31 | any order-preserving selection that keeps exactly the matching documents with their multiplicities equals `Listing`, so no sort, skip or limit is applied |
| `ProductStore.ListingComposes` | controller/admin/product.controller.js:30-31 | listing by a filter that asks what two filters ask together equals listing by one and then the other |
| `ProductStore.ListingIdempotent` | controller/admin/product.controller.js:30-31 | listing the listed documents again by the same filter changes nothing |

## Left out

- The view rendering (`res.render`): the template name, the page title and the payload object. The model returns only the products and the keyword.
- The `filterStatusHelpers` result: its source is not part of this model, and the handler passes it through to the view untouched.
- Mongoose: model registration, schema casting, the asynchronous database call. Only what `find` returns is modelled.
- The meaning of a regular expression beyond plain keywords. This covers metacharacters and Unicode case folding. Which sources compile is also left abstract, except that plain keywords always do.
- `ProductController.PlainKeywordListing`: the concrete meaning is proved for ASCII keywords only, because case-insensitive matching also folds non-ASCII letters. For a title holding U+0130, U+0131, U+017F or U+212A, only "containment implies listed" is promised, since the store may match such a character against an ASCII keyword letter.
- `ProductController.Index`: the model fails only when `new RegExp` throws. Rejections by the store itself are not modelled: a pattern holding NUL, a pattern the store's engine refuses, a lost connection. Each of those makes `await Product.find(find)` reject, leaving the handler failed.
- Result order: with no sort, the store returns documents in an order it chooses. The `store` sequence stands for that order, and `Listing` keeps it.
- Array- and object-valued query parameters: Express may parse repeated parameters into arrays and bracketed ones (`?status[$ne]=active`, `?keyword[a]=b`) into objects, which the store would read as operators or `RegExp` would stringify. Parameters are modelled as optional strings only.
- Products whose fields hold a value of another type than the schema declares; schema `Number` is modelled as a mathematical integer (no floating point or `NaN`), which the listing never inspects.
- Pagination, sorting, bulk updates, create, edit, detail and soft-delete handlers: `controller/admin/product.controller.js` has none of them, so they are not part of this model.
