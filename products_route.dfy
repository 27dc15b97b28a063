/** The backend's product routes: a filtered and paged listing, lookup,
    creation, a partial update, deletion and review submission. The Mongo
    collection is modelled as a sequence of records in the order the store
    returns them; the route handlers are methods of the catalog class, each
    specified by a pure function on the collection. */
module ProductsRoute {
  import opened Seqs
  import opened Http
  import opened Js

  datatype ColorOption = ColorOption(name: string, value: string)

  /** `user` is the reviewer's id. */
  datatype Review = Review(name: string, rating: real, comment: string, user: string)

  /** A product document; the price is in cents. */
  datatype Product = Product(
    id: string,
    user: string,
    name: string,
    price: int,
    description: string,
    image: string,
    brand: string,
    category: string,
    countInStock: int,
    sizes: seq<string>,
    colors: seq<ColorOption>,
    reviews: seq<Review>,
    numReviews: int,
    rating: real)

  predicate UniqueIds(products: seq<Product>)
  {
    forall i, j :: 0 <= i < j < |products| ==> products[i].id != products[j].id
  }

  /** Where `findById` finds a product. */
  function IndexOf(products: seq<Product>, id: string): Option<nat>
  {
    FindIndex(products, (p: Product) => p.id == id)
  }

  /** With unique ids a present product is found at its own index. */
  lemma IndexOfPresent(products: seq<Product>, k: int)
    requires UniqueIds(products) && 0 <= k < |products|
    ensures IndexOf(products, products[k].id) == Some(k)
  {
  }

  // ---------------------------------------------------------------- listing

  const PageSize: int := 10

  /** ASCII lower-casing, the case folding of the keyword match. */
  function Lower(c: char): char
  {
    if 'A' <= c <= 'Z' then (c as int - 'A' as int + 'a' as int) as char else c
  }

  function LowerAll(s: string): (r: string)
    ensures |r| == |s|
  {
    seq(|s|, i requires 0 <= i < |s| => Lower(s[i]))
  }

  /** `word` occurs in `text` at position `i`, ignoring case. */
  predicate OccursAt(text: string, word: string, i: int)
  {
    0 <= i && i + |word| <= |text| && LowerAll(text[i..i + |word|]) == LowerAll(word)
  }

  /** The keyword filter: the name contains the keyword, ignoring case. */
  predicate ContainsIgnoringCase(text: string, word: string)
  {
    exists i :: 0 <= i <= |text| && OccursAt(text, word, i)
  }

  /** A query parameter that is present and not the empty string. */
  predicate Present(param: Option<string>)
  {
    param.Some? && param.value != ""
  }

  /** The filter object `{ ...keyword, ...category }`: each present
      parameter must hold, and an absent one does not constrain. */
  predicate Matches(p: Product, keyword: Option<string>, category: Option<string>)
  {
    (Present(keyword) ==> ContainsIgnoringCase(p.name, keyword.value))
    && (Present(category) ==> p.category == category.value)
  }

  function Matching(products: seq<Product>, keyword: Option<string>, category: Option<string>): seq<Product>
  {
    Filter(products, (p: Product) => Matches(p, keyword, category))
  }

  /** `Number(req.query.pageNumber) || 1`; `None` stands for a missing or
      non-numeric parameter. */
  function RequestedPage(pageNumber: Option<int>): (page: int)
    ensures pageNumber.None? ==> page == 1
    ensures pageNumber.Some? && pageNumber.value == 0 ==> page == 1
    ensures pageNumber.Some? && pageNumber.value != 0 ==> page == pageNumber.value
  {
    if pageNumber.None? || pageNumber.value == 0 then 1 else pageNumber.value
  }

  /** The listing body, or a failure when the store rejects the negative
      skip of a negative page. */
  datatype Listing = Listed(products: seq<Product>, page: int, pages: int) | ListFailed

  /** `find(filter).limit(10).skip(10 * (page - 1))` and
      `Math.ceil(count / 10)`. */
  function ListProducts(products: seq<Product>, keyword: Option<string>, category: Option<string>,
                        pageNumber: Option<int>): Listing
  {
    var page := RequestedPage(pageNumber);
    if page < 1 then ListFailed
    else
      var matching := Matching(products, keyword, category);
      var from := if PageSize * (page - 1) <= |matching| then PageSize * (page - 1) else |matching|;
      var to := if from + PageSize <= |matching| then from + PageSize else |matching|;
      Listed(matching[from..to], page, (|matching| + PageSize - 1) / PageSize)
  }

  /** A listing holds at most ten products: exactly the matching products
      at positions [10 * (page - 1), 10 * page), in store order; the page
      count is the ceiling of the match count over ten. */
  lemma ListingPage(products: seq<Product>, keyword: Option<string>, category: Option<string>, pageNumber: Option<int>)
    requires ListProducts(products, keyword, category, pageNumber).Listed?
    ensures var r := ListProducts(products, keyword, category, pageNumber);
            var m := Matching(products, keyword, category);
            && r.page == RequestedPage(pageNumber) >= 1
            && |r.products| <= PageSize
            && (forall k :: 0 <= k < |r.products| ==> r.products[k] == m[PageSize * (r.page - 1) + k])
            && (PageSize * r.page <= |m| ==> |r.products| == PageSize)
            && (PageSize * (r.page - 1) <= |m| < PageSize * r.page ==> |r.products| == |m| - PageSize * (r.page - 1))
            && (|m| <= PageSize * (r.page - 1) ==> r.products == [])
            && r.pages * PageSize >= |m|
            && (r.pages > 0 ==> (r.pages - 1) * PageSize < |m|)
  {
  }

  /** Only a negative page fails; a missing or zero page is page one. */
  lemma ListingFailsOnlyBelowOne(products: seq<Product>, keyword: Option<string>, category: Option<string>, pageNumber: Option<int>)
    ensures ListProducts(products, keyword, category, pageNumber).ListFailed?
            <==> pageNumber.Some? && pageNumber.value < 0
    ensures pageNumber.None? ==> ListProducts(products, keyword, category, pageNumber).page == 1
  {
  }

  /** Every matching product is listed, at position i % 10 of page
      i / 10 + 1, where i is its position among the matches; every listed
      product matches both filters. */
  lemma EveryMatchListed(products: seq<Product>, keyword: Option<string>, category: Option<string>, i: int)
    requires 0 <= i < |Matching(products, keyword, category)|
    ensures var r := ListProducts(products, keyword, category, Some(i / PageSize + 1));
            r.Listed? && i % PageSize < |r.products|
            && r.products[i % PageSize] == Matching(products, keyword, category)[i]
    ensures forall page :: ListProducts(products, keyword, category, page).Listed?
              ==> forall k :: 0 <= k < |ListProducts(products, keyword, category, page).products|
                    ==> Matches(ListProducts(products, keyword, category, page).products[k], keyword, category)
  {
    forall page | ListProducts(products, keyword, category, page).Listed?
      ensures forall k :: 0 <= k < |ListProducts(products, keyword, category, page).products|
                ==> Matches(ListProducts(products, keyword, category, page).products[k], keyword, category)
    {
      ListingPage(products, keyword, category, page);
    }
  }

  /** Eleven matching products make two pages: ten on the first, the
      eleventh alone on the second. */
  lemma ElevenProducts(products: seq<Product>)
    requires |products| == 11
    requires forall k :: 0 <= k < 11 ==> Matches(products[k], None, None)
    ensures ListProducts(products, None, None, None) == Listed(products[..10], 1, 2)
    ensures ListProducts(products, None, None, Some(2)) == Listed(products[10..], 2, 2)
  {
    FilterKeepsAll(products, (p: Product) => Matches(p, None, None));
  }

  /** Lower-casing is idempotent, so the case of the keyword does not
      matter: a keyword matches exactly when its lower-case form does. */
  lemma KeywordCaseIrrelevant(text: string, word: string)
    ensures ContainsIgnoringCase(text, word) <==> ContainsIgnoringCase(text, LowerAll(word))
  {
    var lowered := LowerAll(word);
    assert LowerAll(lowered) == lowered;
    if ContainsIgnoringCase(text, word) {
      var i :| 0 <= i <= |text| && OccursAt(text, word, i);
      assert OccursAt(text, lowered, i);
    }
    if ContainsIgnoringCase(text, lowered) {
      var i :| 0 <= i <= |text| && OccursAt(text, lowered, i);
      assert OccursAt(text, word, i);
    }
  }

  /** A keyword that occurs literally in the name matches. */
  lemma LiteralOccurrenceMatches(before: string, word: string, after: string)
    ensures ContainsIgnoringCase(before + word + after, word)
  {
    var text := before + word + after;
    assert text[|before|..|before| + |word|] == word;
    assert OccursAt(text, word, |before|);
  }

  // ------------------------------------------------- lookup and mutations

  /** What a handler answers and the collection it leaves. */
  datatype Change = Change(status: Status, products: seq<Product>)

  /** GET /:id. */
  datatype Lookup = Lookup(status: Status, product: Option<Product>)

  function GetProduct(products: seq<Product>, id: string): (r: Lookup)
    ensures r.status == Ok <==> r.product.Some?
    ensures r.status == Ok || r.status == NotFound
    ensures r.product.Some? ==> r.product.value in products && r.product.value.id == id
  {
    match IndexOf(products, id)
    case None => Lookup(NotFound, None)
    case Some(k) => Lookup(Ok, Some(products[k]))
  }

  /** The fields of a create request. */
  datatype ProductInput = ProductInput(
    name: string,
    price: int,
    description: string,
    image: string,
    brand: string,
    category: string,
    countInStock: int,
    sizes: seq<string>,
    colors: seq<ColorOption>)

  /** The new document of POST /: owned by the requesting admin, with no
      reviews, zero reviews counted and a zero rating. */
  function NewProduct(id: string, owner: string, input: ProductInput): Product
  {
    Product(id, owner, input.name, input.price, input.description, input.image, input.brand,
            input.category, input.countInStock, input.sizes, input.colors, [], 0, 0.0)
  }

  /** The fields of an update request; `None` is a field left out. */
  datatype ProductChanges = ProductChanges(
    name: Option<string>,
    price: Option<int>,
    description: Option<string>,
    image: Option<string>,
    brand: Option<string>,
    category: Option<string>,
    countInStock: Option<int>,
    sizes: Option<seq<string>>,
    colors: Option<seq<ColorOption>>)

  function NoChanges(): ProductChanges
  {
    ProductChanges(None, None, None, None, None, None, None, None, None)
  }

  /** The nine assignments of PUT /:id. */
  function Updated(p: Product, c: ProductChanges): Product
  {
    p.(name := TextOr(c.name, p.name),
       price := NumberOr(c.price, p.price),
       description := TextOr(c.description, p.description),
       image := TextOr(c.image, p.image),
       brand := TextOr(c.brand, p.brand),
       category := TextOr(c.category, p.category),
       countInStock := NumberOr(c.countInStock, p.countInStock),
       sizes := ListOr(c.sizes, p.sizes),
       colors := ListOr(c.colors, p.colors))
  }

  /** An update never touches the id, the owner or the reviews; a falsy
      field keeps its old value, so the stock cannot be set to zero and a
      name cannot be cleared; an empty request changes nothing; and the
      same request applied twice has the effect of applying it once. */
  lemma UpdateFallbacks(p: Product, c: ProductChanges)
    ensures var r := Updated(p, c);
            r.id == p.id && r.user == p.user && r.reviews == p.reviews
            && r.numReviews == p.numReviews && r.rating == p.rating
    ensures Updated(p, c).countInStock == if c.countInStock.Some? && c.countInStock.value != 0
                                          then c.countInStock.value else p.countInStock
    ensures c.countInStock == Some(0) ==> Updated(p, c).countInStock == p.countInStock
    ensures c.name == Some("") || c.name == None ==> Updated(p, c).name == p.name
    ensures c.sizes == Some([]) ==> Updated(p, c).sizes == []
    ensures Updated(p, NoChanges()) == p
    ensures Updated(Updated(p, c), c) == Updated(p, c)
  {
  }

  /** PUT /:id. */
  function AfterUpdate(products: seq<Product>, id: string, c: ProductChanges): Change
  {
    match IndexOf(products, id)
    case None => Change(NotFound, products)
    case Some(k) => Change(Ok, products[k := Updated(products[k], c)])
  }

  /** DELETE /:id. */
  function AfterDelete(products: seq<Product>, id: string): Change
  {
    match IndexOf(products, id)
    case None => Change(NotFound, products)
    case Some(k) => Change(Ok, products[..k] + products[k + 1..])
  }

  /** The sum of the review ratings, taken from the last review back so
      that a pushed review adds its rating on the outside. */
  function RatingSum(reviews: seq<Review>): real
  {
    if reviews == [] then 0.0
    else RatingSum(reviews[..|reviews| - 1]) + reviews[|reviews| - 1].rating
  }

  /** The review aggregates agree with the reviews: the count is their
      number and the rating their mean (so rating times count is their
      sum; a product without reviews is rated zero). */
  predicate ReviewsConsistent(p: Product)
  {
    p.numReviews == |p.reviews|
    && p.rating * |p.reviews| as real == RatingSum(p.reviews)
    && (p.reviews == [] ==> p.rating == 0.0)
  }

  predicate AlreadyReviewed(p: Product, user: string)
  {
    exists i :: 0 <= i < |p.reviews| && p.reviews[i].user == user
  }

  /** The three statements after `reviews.push(review)`: the count and
      the mean are recomputed from all the reviews. */
  function WithReview(p: Product, review: Review): Product
  {
    var reviews := p.reviews + [review];
    p.(reviews := reviews,
       numReviews := |reviews|,
       rating := RatingSum(reviews) / |reviews| as real)
  }

  /** POST /:id/reviews. */
  function AfterReview(products: seq<Product>, id: string, review: Review): Change
  {
    match IndexOf(products, id)
    case None => Change(NotFound, products)
    case Some(k) =>
      if AlreadyReviewed(products[k], review.user) then Change(BadRequest, products)
      else Change(Created, products[k := WithReview(products[k], review)])
  }

  /** A review grows the reviews by exactly the new one, at the end, and
      leaves the aggregates consistent whatever they were before, so a
      seeded rating is replaced by the true mean. */
  lemma ReviewAggregates(p: Product, review: Review)
    ensures var r := WithReview(p, review);
            |r.reviews| == |p.reviews| + 1 && r.reviews[..|p.reviews|] == p.reviews
            && r.reviews[|p.reviews|] == review
            && ReviewsConsistent(r)
            && r == p.(reviews := r.reviews, numReviews := r.numReviews, rating := r.rating)
  {
    var r := WithReview(p, review);
    QuotientTimesDivisor(RatingSum(r.reviews), |r.reviews| as real);
  }

  lemma QuotientTimesDivisor(a: real, b: real)
    requires b > 0.0
    ensures (a / b) * b == a
  {
  }

  /** When the aggregates were consistent, the new rating is the old mean
      updated with the new rating. */
  lemma IncrementalMean(p: Product, review: Review)
    requires ReviewsConsistent(p)
    ensures WithReview(p, review).rating
            == (p.rating * |p.reviews| as real + review.rating) / (|p.reviews| + 1) as real
  {
    assert (p.reviews + [review])[..|p.reviews|] == p.reviews;
  }

  /** No product with that id: every handler answers 404 and changes
      nothing. */
  lemma UnknownIdNotFound(products: seq<Product>, id: string, c: ProductChanges, review: Review)
    requires forall k :: 0 <= k < |products| ==> products[k].id != id
    ensures GetProduct(products, id) == Lookup(NotFound, None)
    ensures AfterUpdate(products, id, c) == Change(NotFound, products)
    ensures AfterDelete(products, id) == Change(NotFound, products)
    ensures AfterReview(products, id, review) == Change(NotFound, products)
  {
  }

  /** A user who has reviewed a product is turned away with 400 and the
      collection unchanged; in particular a second review right after a
      first one by the same user is refused. */
  lemma SecondReviewRejected(products: seq<Product>, k: int, first: Review, second: Review)
    requires UniqueIds(products) && 0 <= k < |products|
    requires !AlreadyReviewed(products[k], first.user) && second.user == first.user
    ensures AfterReview(products, products[k].id, first).status == Created
    ensures var after := AfterReview(products, products[k].id, first).products;
            AfterReview(after, products[k].id, second) == Change(BadRequest, after)
  {
    IndexOfPresent(products, k);
    var after := AfterReview(products, products[k].id, first).products;
    var p := WithReview(products[k], first);
    assert after == products[k := p];
    assert UniqueIds(after);
    IndexOfPresent(after, k);
    assert p.reviews[|products[k].reviews|].user == second.user;
  }

  /** Update, delete and review on a present id act on that product only;
      every handler keeps ids unique. */
  lemma MutationsKeepIds(products: seq<Product>, id: string, c: ProductChanges, review: Review)
    requires UniqueIds(products)
    ensures UniqueIds(AfterUpdate(products, id, c).products)
    ensures UniqueIds(AfterDelete(products, id).products)
    ensures UniqueIds(AfterReview(products, id, review).products)
    ensures |AfterDelete(products, id).products| == |products|
            - (if AfterDelete(products, id).status == Ok then 1 else 0)
  {
    match IndexOf(products, id)
    case None =>
    case Some(k) =>
      var r := products[..k] + products[k + 1..];
      forall i, j | 0 <= i < j < |r| ensures r[i].id != r[j].id {
        var i' := if i < k then i else i + 1;
        var j' := if j < k then j else j + 1;
        assert r[i] == products[i'] && r[j] == products[j'];
      }
  }

  /** The product collection. */
  class Catalog {
    var products: seq<Product>

    ghost predicate Valid()
      reads this
    {
      UniqueIds(products)
    }

    constructor (products: seq<Product>)
      requires UniqueIds(products)
      ensures Valid() && this.products == products
    {
      this.products := products;
    }

    /** GET /. */
    method List(keyword: Option<string>, category: Option<string>, pageNumber: Option<int>)
      returns (status: Status, body: Listing)
      ensures body == ListProducts(products, keyword, category, pageNumber)
      ensures status == Ok <==> body.Listed?
      ensures status == ServerError <==> body.ListFailed?
    {
      body := ListProducts(products, keyword, category, pageNumber);
      status := if body.Listed? then Ok else ServerError;
    }

    /** GET /:id. */
    method Get(id: string) returns (r: Lookup)
      ensures r == GetProduct(products, id)
      ensures r.status == NotFound <==> forall k :: 0 <= k < |products| ==> products[k].id != id
    {
      r := GetProduct(products, id);
    }

    /** POST /: the new product, under an id the store has not used, is
        answered with 201. */
    method Create(newId: string, owner: string, input: ProductInput) returns (status: Status, created: Product)
      requires Valid()
      requires forall k :: 0 <= k < |products| ==> products[k].id != newId
      modifies this
      ensures Valid()
      ensures status == Created && created == NewProduct(newId, owner, input)
      ensures products == old(products) + [created]
      ensures created.numReviews == 0 && ReviewsConsistent(created)
    {
      created := NewProduct(newId, owner, input);
      products := products + [created];
      status := Created;
    }

    /** PUT /:id. */
    method Update(id: string, c: ProductChanges) returns (status: Status)
      requires Valid()
      modifies this
      ensures Valid()
      ensures Change(status, products) == AfterUpdate(old(products), id, c)
    {
      MutationsKeepIds(products, id, c, Review("", 0.0, "", ""));
      var r := AfterUpdate(products, id, c);
      status, products := r.status, r.products;
    }

    /** DELETE /:id. */
    method Delete(id: string) returns (status: Status)
      requires Valid()
      modifies this
      ensures Valid()
      ensures Change(status, products) == AfterDelete(old(products), id)
    {
      MutationsKeepIds(products, id, NoChanges(), Review("", 0.0, "", ""));
      var r := AfterDelete(products, id);
      status, products := r.status, r.products;
    }

    /** POST /:id/reviews by the user `userId`, shown as `userName`. */
    method AddReview(id: string, userId: string, userName: string, rating: real, comment: string)
      returns (status: Status)
      requires Valid()
      modifies this
      ensures Valid()
      ensures Change(status, products) == AfterReview(old(products), id, Review(userName, rating, comment, userId))
    {
      var review := Review(userName, rating, comment, userId);
      MutationsKeepIds(products, id, NoChanges(), review);
      var r := AfterReview(products, id, review);
      status, products := r.status, r.products;
    }
  }
}
