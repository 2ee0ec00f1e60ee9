/** The catalogue routes: the public listing (a filter document and a sort
    document built from the query string), the featured products, the
    category list, the single product, and the admin writes — create with
    its defaults, update with its protected fields stripped, the soft delete
    and the availability switch. */
module Products {
  import opened Common
  import opened Text
  import opened Sorting
  import opened Pagination
  import opened ProductModel

  const ProductNotFoundMessage := "Prodotto non trovato"
  const InvalidIdMessage := "ID prodotto non valido"
  const RequiredFieldsMessage := "Nome, descrizione, prezzo, categoria e immagine sono obbligatori"
  const DuplicateNameMessage := "Un prodotto con questo nome esiste già"
  const AvailableTypeMessage := "Il campo available deve essere true o false"

  predicate IsPublished(p: Product) {
    p.status == "published"
  }

  // ---------------------------------------------------------------------
  // The listing

  /** The query string of `GET /api/products`, numbers already parsed. */
  datatype ListQuery = ListQuery(
    category: Option<string>,
    available: Option<string>,
    search: Option<string>,
    sort: Option<string>,
    order: Option<string>,
    page: Option<int>,
    limit: Option<int>,
    dietaryOptions: Option<string>)

  /** The filter document handed to `find` and `countDocuments`. */
  datatype ProductFilter = ProductFilter(
    status: string,
    category: Option<string>,
    available: Option<bool>,
    dietaryIn: Option<seq<string>>,
    search: Option<string>)

  /** How the database evaluates the filter document on one product: an
      equality per field, `$in` against the array of options (any shared
      element), and the `$or` of case-blind matches for the search. */
  predicate Matches(f: ProductFilter, p: Product) {
    && p.status == f.status
    && (f.category.Some? ==> p.category == f.category.value)
    && (f.available.Some? ==> p.available == f.available.value)
    && (f.dietaryIn.Some? ==> exists o :: o in f.dietaryIn.value && o in p.dietaryOptions)
    && (f.search.Some? ==> MatchesTerm(p, f.search.value))
  }

  /** What the query asks for, stated on the product: published only; the
      category when one is given; `available` is true exactly for the text
      `true` and false for any other supplied text; one of the
      comma-separated dietary options; the search term. */
  predicate Wanted(q: ListQuery, p: Product) {
    && IsPublished(p)
    && (Truthy(q.category) ==> p.category == q.category.value)
    && (q.available.Some? ==> (p.available <==> q.available.value == "true"))
    && (Truthy(q.dietaryOptions) ==> exists o :: o in Split(q.dietaryOptions.value, ',') && o in p.dietaryOptions)
    && (Truthy(q.search) ==> MatchesTerm(p, q.search.value))
  }

  function WantedBy(q: ListQuery): Product -> bool {
    (p: Product) => Wanted(q, p)
  }

  /** Builds the filter one field at a time, as the handler does. */
  method BuildFilter(q: ListQuery) returns (f: ProductFilter)
    ensures f.status == "published"
    ensures forall p :: Matches(f, p) <==> Wanted(q, p)
  {
    f := ProductFilter("published", None, None, None, None);
    if Truthy(q.category) {
      f := f.(category := Some(q.category.value));
    }
    if q.available.Some? {
      f := f.(available := Some(q.available.value == "true"));
    }
    if Truthy(q.dietaryOptions) {
      f := f.(dietaryIn := Some(Split(q.dietaryOptions.value, ',')));
    }
    if Truthy(q.search) {
      f := f.(search := Some(q.search.value));
    }
  }

  /** The field of the sort document. */
  datatype SortField = ByPrice | ByRating | ByPopularity | ByNewest | ByName

  datatype SortSpec = SortSpec(field: SortField, descending: bool)

  /** The `switch (sort)`: `popular` and `newest` always sort descending,
      the others follow `order`, and an unknown key sorts by name. */
  function SortSpecOf(sort: string, order: string): (s: SortSpec)
    ensures sort == "popular" ==> s == SortSpec(ByPopularity, true)
    ensures sort == "newest" ==> s == SortSpec(ByNewest, true)
    ensures sort != "popular" && sort != "newest" ==> (s.descending <==> order == "desc")
    ensures sort !in ["price", "rating", "popular", "newest"] ==> s.field == ByName
  {
    var direction := order == "desc";
    if sort == "price" then SortSpec(ByPrice, direction)
    else if sort == "rating" then SortSpec(ByRating, direction)
    else if sort == "popular" then SortSpec(ByPopularity, true)
    else if sort == "newest" then SortSpec(ByNewest, true)
    else SortSpec(ByName, direction)
  }

  /** Ascending order on one field. */
  predicate FieldLe(field: SortField, a: Product, b: Product) {
    match field
    case ByPrice => a.price <= b.price
    case ByRating => a.rating.average <= b.rating.average
    case ByPopularity => a.orderCount <= b.orderCount
    case ByNewest => a.createdAt <= b.createdAt
    case ByName => LexLe(a.name, b.name)
  }

  function SortLe(s: SortSpec): (Product, Product) -> bool {
    (a: Product, b: Product) => if s.descending then FieldLe(s.field, b, a) else FieldLe(s.field, a, b)
  }

  /** Every sort document orders products totally. */
  lemma SortLeIsPreorder(s: SortSpec)
    ensures TotalPreorder(SortLe(s))
  {
    if s.field == ByName {
      forall a: string, b: string ensures LexLe(a, b) || LexLe(b, a) {
        LexLeTotal(a, b);
      }
      forall a: string, b: string, c: string | LexLe(a, b) && LexLe(b, c) ensures LexLe(a, c) {
        LexLeTransitive(a, b, c);
      }
    }
  }

  datatype ProductListing = ProductListing(products: seq<Product>, pagination: PageInfo)

  /** The matched products in the order of the sort document: a permutation
      of them sorted by it. */
  function RankedProducts(matched: seq<Product>, s: SortSpec): (r: seq<Product>)
    ensures multiset(r) == multiset(matched)
    ensures SortedBy(r, SortLe(s))
  {
    SortLeIsPreorder(s);
    InsertionSortSorted(matched, SortLe(s));
    InsertionSort(matched, SortLe(s))
  }

  /** `find(filter).sort().skip().limit()` with `countDocuments(filter)`:
      the requested window of the ranked matches. */
  function ListPage(products: seq<Product>, keep: Product -> bool, s: SortSpec, page: int, limit: int): (r: Reply<ProductListing>)
    ensures r.Fail? <==> Skip(page, limit) < 0
    ensures r.Ok? ==> r.value.pagination == Info(page, limit, |Filter(products, keep)|)
    ensures r.Ok? ==> r.value.products == Window(RankedProducts(Filter(products, keep), s), Skip(page, limit), limit)
    ensures r.Ok? ==> forall x :: x in r.value.products ==> x in products && keep(x)
  {
    var sorted := RankedProducts(Filter(products, keep), s);
    match PageOf(sorted, page, limit)
    case None => Fail(500, "Errore interno del server durante il recupero dei prodotti", [])
    case Some(rows) =>
      assert forall x :: x in rows ==> x in multiset(sorted);
      Ok(200, ProductListing(rows, Info(page, limit, |Filter(products, keep)|)))
  }

  /** A listed page is in the order of the sort document, and full whenever
      enough matches lie past its skip. */
  lemma ListPageSorted(products: seq<Product>, keep: Product -> bool, s: SortSpec, page: int, limit: int)
    requires ListPage(products, keep, s, page, limit).Ok?
    ensures var rows := ListPage(products, keep, s, page, limit).value.products;
      && SortedBy(rows, SortLe(s))
      && (limit != 0 && Skip(page, limit) + Abs(limit) <= |Filter(products, keep)| ==> |rows| == Abs(limit))
  {
    WindowSorted(RankedProducts(Filter(products, keep), s), Skip(page, limit), limit, SortLe(s));
  }

  function OrDefault<A>(v: Option<A>, d: A): A {
    if v.Some? then v.value else d
  }

  /** `GET /api/products`: the products the query wants, in the order it
      asks for, one page of them, and the count of all of them. */
  method ListProducts(products: seq<Product>, q: ListQuery) returns (r: Reply<ProductListing>)
    ensures var page := OrDefault(q.page, 1); var limit := OrDefault(q.limit, 20);
      && (r.Fail? <==> Skip(page, limit) < 0)
      && (r.Ok? ==> r.value.pagination == Info(page, limit, |Filter(products, WantedBy(q))|))
    ensures r.Ok? ==> r.value.products == Window(
      RankedProducts(Filter(products, WantedBy(q)), SortSpecOf(OrDefault(q.sort, "name"), OrDefault(q.order, "asc"))),
      Skip(OrDefault(q.page, 1), OrDefault(q.limit, 20)), OrDefault(q.limit, 20))
    ensures r.Ok? ==> forall x :: x in r.value.products ==> x in products && Wanted(q, x)
    ensures r.Ok? ==> SortedBy(r.value.products, SortLe(SortSpecOf(OrDefault(q.sort, "name"), OrDefault(q.order, "asc"))))
  {
    var f := BuildFilter(q);
    var s := SortSpecOf(OrDefault(q.sort, "name"), OrDefault(q.order, "asc"));
    var keep := (p: Product) => Matches(f, p);
    FilterSame(products, keep, WantedBy(q));
    r := ListPage(products, keep, s, OrDefault(q.page, 1), OrDefault(q.limit, 20));
    if r.Ok? {
      ListPageSorted(products, keep, s, OrDefault(q.page, 1), OrDefault(q.limit, 20));
    }
  }

  // ---------------------------------------------------------------------
  // Featured products and categories

  /** `parseInt(limit) || 6`: an absent, unparsable or zero limit is 6. */
  function FeaturedLimit(limit: Option<int>): (n: int)
    ensures n != 0
    ensures limit.None? ==> n == 6
  {
    if limit.None? || limit.value == 0 then 6 else limit.value
  }

  /** `{orderCount: -1, 'rating.average': -1}`. */
  predicate ByOrderCountThenRating(a: Product, b: Product) {
    a.orderCount > b.orderCount || (a.orderCount == b.orderCount && a.rating.average >= b.rating.average)
  }

  /** `GET /api/products/featured`: the most ordered listed products, the
      best rated first among equals, as many as the limit allows. */
  function Featured(products: seq<Product>, limit: Option<int>): (r: seq<Product>)
    ensures forall x :: x in r ==> x in products && Listed(x)
    ensures multiset(r) <= multiset(Filter(products, Listed))
    ensures |r| == Min(Abs(FeaturedLimit(limit)), |Filter(products, Listed)|)
    ensures SortedBy(r, ByOrderCountThenRating)
    ensures forall x, y :: x in products && Listed(x) && x !in r && y in r ==> ByOrderCountThenRating(y, x)
  {
    var listed := Filter(products, Listed);
    var sorted := InsertionSort(listed, ByOrderCountThenRating);
    InsertionSortSorted(listed, ByOrderCountThenRating);
    var r := sorted[..Min(Abs(FeaturedLimit(limit)), |sorted|)];
    FeaturedTop(listed, sorted, |r|);
    r
  }

  /** The first `n` of the listed products in rank order: drawn from them,
      and none left out ranks above a kept one. */
  lemma FeaturedTop(listed: seq<Product>, sorted: seq<Product>, n: nat)
    requires multiset(sorted) == multiset(listed) && n <= |sorted|
    requires SortedBy(sorted, ByOrderCountThenRating)
    ensures multiset(sorted[..n]) <= multiset(listed)
    ensures forall x :: x in sorted[..n] ==> x in listed
    ensures forall x, y :: x in listed && x !in sorted[..n] && y in sorted[..n] ==> ByOrderCountThenRating(y, x)
  {
    var r := sorted[..n];
    assert sorted == r + sorted[n..];
    assert forall x :: x in listed <==> x in multiset(sorted);
    forall x, y | x in listed && x !in r && y in r ensures ByOrderCountThenRating(y, x) {
      PrefixRanksAbove(sorted, n, x, y);
    }
  }

  /** In a sorted sequence, a member of the first `n` ranks above a member
      that is not among them. */
  lemma PrefixRanksAbove(sorted: seq<Product>, n: nat, x: Product, y: Product)
    requires n <= |sorted| && SortedBy(sorted, ByOrderCountThenRating)
    requires x in sorted && x !in sorted[..n] && y in sorted[..n]
    ensures ByOrderCountThenRating(y, x)
  {
    var j :| 0 <= j < |sorted| && sorted[j] == x;
    var i :| 0 <= i < n && sorted[..n][i] == y;
    assert forall k :: 0 <= k < n ==> sorted[k] in sorted[..n];
  }

  /** The values in `s`, each once, in order of first occurrence. */
  function Distinct(s: seq<string>): (r: seq<string>)
    ensures forall x :: x in r <==> x in s
    ensures NoDuplicates(r)
  {
    if s == [] then []
    else
      var init := s[..|s| - 1];
      assert s == init + [s[|s| - 1]];
      var rest := Distinct(init);
      if s[|s| - 1] in rest then rest else rest + [s[|s| - 1]]
  }

  function CategoryOf(p: Product): string {
    p.category
  }

  function CategoriesOf(products: seq<Product>): seq<string> {
    if products == [] then [] else CategoriesOf(products[..|products| - 1]) + [CategoryOf(products[|products| - 1])]
  }

  lemma {:induction false} CategoriesMembers(products: seq<Product>)
    ensures forall c :: c in CategoriesOf(products) <==> exists p :: p in products && p.category == c
    decreases |products|
  {
    if products != [] {
      var init := products[..|products| - 1];
      CategoriesMembers(init);
      assert products == init + [products[|products| - 1]];
    }
  }

  predicate TextOrder(a: string, b: string) {
    LexLe(a, b)
  }

  /** `GET /api/products/categories`: the categories of listed products,
      each once, sorted. */
  function CategoryList(products: seq<Product>): (r: seq<string>)
    ensures forall c :: c in r <==> exists p :: p in products && Listed(p) && p.category == c
    ensures NoDuplicates(r)
    ensures SortedBy(r, TextOrder)
  {
    var names := Distinct(CategoriesOf(Filter(products, Listed)));
    ListedCategories(products);
    var r := InsertionSort(names, TextOrder);
    assert forall c :: c in r <==> c in multiset(names);
    assert forall c :: c in names <==> c in multiset(names);
    PermutationNoDuplicates(names, r);
    TextOrderIsPreorder();
    InsertionSortSorted(names, TextOrder);
    r
  }

  lemma ListedCategories(products: seq<Product>)
    ensures forall c :: c in Distinct(CategoriesOf(Filter(products, Listed))) <==>
      exists p :: p in products && Listed(p) && p.category == c
  {
    var listed := Filter(products, Listed);
    CategoriesMembers(listed);
    forall c | c in CategoriesOf(listed) ensures exists p :: p in products && Listed(p) && p.category == c {
      var p :| p in listed && p.category == c;
      assert p in products && Listed(p);
    }
  }

  lemma TextOrderIsPreorder()
    ensures TotalPreorder(TextOrder)
  {
    forall a: string, b: string ensures LexLe(a, b) || LexLe(b, a) {
      LexLeTotal(a, b);
    }
    forall a: string, b: string, c: string | LexLe(a, b) && LexLe(b, c) ensures LexLe(a, c) {
      LexLeTransitive(a, b, c);
    }
  }

  // ---------------------------------------------------------------------
  // A single product

  /** `GET /api/products/:id`: the first published product with that id. */
  function GetProduct(products: seq<Product>, id: IdParam): (r: Reply<Product>)
    ensures id.BadId? ==> r == Fail(400, InvalidIdMessage, [])
    ensures id.Id? ==> (r.Ok? <==> exists p :: p in products && p.id == id.n && IsPublished(p))
    ensures id.Id? && r.Fail? ==> r == Fail(404, ProductNotFoundMessage, [])
    ensures r.Ok? ==> r.code == 200 && r.value in products && r.value.id == id.n && IsPublished(r.value)
  {
    if id.BadId? then Fail(400, InvalidIdMessage, [])
    else
      var published := Filter(products, IsPublished);
      match Find(published, id.n)
      case None =>
        assert forall p :: p in published ==> p.id != id.n;
        Fail(404, ProductNotFoundMessage, [])
      case Some(i) =>
        assert published[i] in published;
        Ok(200, published[i])
  }

  // ---------------------------------------------------------------------
  // Create

  /** The body of `POST /api/products`; the price is a number, in cents. */
  datatype CreateRequest = CreateRequest(
    name: Option<string>,
    description: Option<string>,
    price: Option<int>,
    category: Option<string>,
    image: Option<string>,
    cloudinaryId: Option<string>,
    ingredients: Option<seq<string>>,
    allergens: Option<seq<string>>,
    dietaryOptions: Option<seq<string>>,
    preparationTime: Option<int>,
    difficulty: Option<string>,
    servings: Option<int>)

  /** `!name || !description || !price || !category || !image` is false: a
      price of 0 counts as missing. */
  predicate HasRequiredFields(req: CreateRequest) {
    && Truthy(req.name) && Truthy(req.description)
    && req.price.Some? && req.price.value != 0
    && Truthy(req.category) && Truthy(req.image)
  }

  /** A product that is not archived already carries the name. */
  predicate NameTaken(products: seq<Product>, name: string) {
    exists i :: 0 <= i < |products| && products[i].name == name && products[i].status != "archived"
  }

  /** `x || d` for a number: absent or zero gives the default. */
  function NumberOr(v: Option<int>, d: int): int {
    if v.None? || v.value == 0 then d else v.value
  }

  /** `x || d` for a string: absent or empty gives the default. */
  function TextOr(v: Option<string>, d: string): string {
    if Truthy(v) then v.value else d
  }

  /** The document the handler builds, with the schema's own defaults for
      the fields it leaves out; id and creation time come from the insert. */
  function NewProduct(req: CreateRequest): Product
    requires HasRequiredFields(req)
  {
    Product(
      0, Trim(req.name.value), Trim(req.description.value), req.price.value,
      req.category.value, req.image.value, TextOr(req.cloudinaryId, ""),
      true,
      OrDefault(req.ingredients, []), OrDefault(req.allergens, []), OrDefault(req.dietaryOptions, []),
      NumberOr(req.preparationTime, 30), TextOr(req.difficulty, "medio"), NumberOr(req.servings, 1),
      "published", Rating(0.0, 0), 0, "Charlene", 0)
  }

  /** The defaults of a create: 30 minutes, `medio`, one serving, no
      arrays, an empty Cloudinary id; published, available, unrated and
      never ordered. */
  lemma CreateDefaults(req: CreateRequest)
    requires HasRequiredFields(req)
    ensures var p := NewProduct(req);
      && Listed(p) && p.rating == Rating(0.0, 0) && p.orderCount == 0
      && p.price == req.price.value && p.name == Trim(req.name.value)
      && (req.preparationTime.None? ==> p.preparationTime == 30)
      && (req.difficulty.None? ==> p.difficulty == "medio")
      && (req.servings.None? ==> p.servings == 1)
      && (req.ingredients.None? ==> p.ingredients == [])
      && (req.allergens.None? ==> p.allergens == [])
      && (req.dietaryOptions.None? ==> p.dietaryOptions == [])
      && (req.cloudinaryId.None? ==> p.cloudinaryId == "")
  {
  }

  /** Without a Cloudinary id the empty default fails the schema's
      `required`, so such a create is always refused by validation. */
  lemma MissingCloudinaryIdRejected(req: CreateRequest)
    requires HasRequiredFields(req) && !Truthy(req.cloudinaryId)
    ensures CloudinaryIdRequired in ProductErrors(NewProduct(req))
  {
    var p := NewProduct(req);
    var checks := ProductChecks(p);
    assert checks[5] == HeadChecks(p)[5];
    FailureReported(checks, 5);
  }

  /** `POST /api/products`: the presence checks, the duplicate-name check
      against products that are not archived, then the validated insert. */
  method CreateProduct(store: ProductStore, req: CreateRequest, now: int) returns (r: Reply<Product>)
    requires store.Valid()
    modifies store
    ensures store.Valid()
    ensures !HasRequiredFields(req) ==> r == Fail(400, RequiredFieldsMessage, []) && unchanged(store)
    ensures HasRequiredFields(req) && NameTaken(old(store.products), Trim(req.name.value)) ==>
      r == Fail(400, DuplicateNameMessage, []) && unchanged(store)
    ensures HasRequiredFields(req) && !NameTaken(old(store.products), Trim(req.name.value)) ==>
      var p := NewProduct(req);
      && (ProductErrors(p) != [] ==>
        r == Fail(400, ValidationMessage, ProductMessages(ProductErrors(p))) && unchanged(store))
      && (ProductErrors(p) == [] ==>
        && r == Ok(201, p.(id := old(store.nextId), createdAt := now))
        && store.products == old(store.products) + [r.value]
        && store.nextId == old(store.nextId) + 1)
  {
    if !HasRequiredFields(req) {
      return Fail(400, RequiredFieldsMessage, []);
    }
    if NameTaken(store.products, Trim(req.name.value)) {
      return Fail(400, DuplicateNameMessage, []);
    }
    var p := NewProduct(req);
    var errors, id := store.Insert(p, now);
    if errors != [] {
      return Fail(400, ValidationMessage, ProductMessages(errors));
    }
    r := Ok(201, p.(id := id, createdAt := now));
  }

  // ---------------------------------------------------------------------
  // Update

  /** The body of `PUT /api/products/:id`: any schema path may be present,
      including the four the handler deletes. */
  datatype ProductPatch = ProductPatch(
    id: Option<nat>,
    createdAt: Option<int>,
    orderCount: Option<int>,
    rating: Option<Rating>,
    name: Option<string>,
    description: Option<string>,
    price: Option<int>,
    category: Option<string>,
    image: Option<string>,
    cloudinaryId: Option<string>,
    available: Option<bool>,
    ingredients: Option<seq<string>>,
    allergens: Option<seq<string>>,
    dietaryOptions: Option<seq<string>>,
    preparationTime: Option<int>,
    difficulty: Option<string>,
    servings: Option<int>,
    status: Option<string>,
    chef: Option<string>)

  /** The payload without `_id`, `createdAt`, `orderCount` and `rating`. */
  function Stripped(d: ProductPatch): ProductPatch {
    d.(id := None, createdAt := None, orderCount := None, rating := None)
  }

  /** The update applied to a stored product: each supplied path replaces
      the stored value, through the schema's `trim` setters. */
  function Apply(p: Product, d: ProductPatch): Product {
    p.(
      id := OrDefault(d.id, p.id),
      createdAt := OrDefault(d.createdAt, p.createdAt),
      orderCount := OrDefault(d.orderCount, p.orderCount),
      rating := OrDefault(d.rating, p.rating),
      name := if d.name.Some? then Trim(d.name.value) else p.name,
      description := if d.description.Some? then Trim(d.description.value) else p.description,
      price := OrDefault(d.price, p.price),
      category := OrDefault(d.category, p.category),
      image := OrDefault(d.image, p.image),
      cloudinaryId := OrDefault(d.cloudinaryId, p.cloudinaryId),
      available := OrDefault(d.available, p.available),
      ingredients := OrDefault(d.ingredients, p.ingredients),
      allergens := OrDefault(d.allergens, p.allergens),
      dietaryOptions := OrDefault(d.dietaryOptions, p.dietaryOptions),
      preparationTime := OrDefault(d.preparationTime, p.preparationTime),
      difficulty := OrDefault(d.difficulty, p.difficulty),
      servings := OrDefault(d.servings, p.servings),
      status := OrDefault(d.status, p.status),
      chef := if d.chef.Some? then Trim(d.chef.value) else p.chef)
  }

  /** A path the update does not touch is not validated. */
  const Unchecked: Check<ProductViolation> := Check(true, NameRequired)

  /** The update validators of the supplied paths, in schema order. */
  function PatchHead(d: ProductPatch): seq<Check<ProductViolation>> {
    [if d.name.Some? then MaxLength(Trim(d.name.value), 100, NameRequired, NameTooLong) else Unchecked,
     if d.description.Some? then MaxLength(Trim(d.description.value), 500, DescriptionRequired, DescriptionTooLong) else Unchecked,
     if d.price.Some? then PriceCheck(d.price.value) else Unchecked,
     if d.category.Some? then CategoryCheck(d.category.value) else Unchecked,
     if d.image.Some? then Required(d.image.value, ImageRequired) else Unchecked,
     if d.cloudinaryId.Some? then Required(d.cloudinaryId.value, CloudinaryIdRequired) else Unchecked]
  }

  function PatchTail(d: ProductPatch): seq<Check<ProductViolation>> {
    [if d.preparationTime.Some? then PreparationTimeCheck(d.preparationTime.value) else Unchecked,
     if d.difficulty.Some? then EnumCheck(d.difficulty.value, Difficulties, "difficulty") else Unchecked,
     if d.servings.Some? then ServingsCheck(d.servings.value) else Unchecked,
     if d.status.Some? then EnumCheck(d.status.value, ProductStatuses, "status") else Unchecked,
     if d.rating.Some? then AverageCheck(d.rating.value.average) else Unchecked]
  }

  function PatchChecks(d: ProductPatch): seq<Check<ProductViolation>> {
    PatchHead(d)
    + ElementChecks(OrDefault(d.allergens, []), Allergens, "allergens", 0)
    + ElementChecks(OrDefault(d.dietaryOptions, []), DietaryOptions, "dietaryOptions", 0)
    + PatchTail(d)
  }

  /** `runValidators: true`: the violations of the supplied paths. */
  function PatchErrors(d: ProductPatch): seq<ProductViolation> {
    Failures(PatchChecks(d))
  }

  /** An update that passes its validators keeps a valid product valid:
      the paths it leaves alone were valid already. */
  lemma ValidPatchKeepsValid(p: Product, d: ProductPatch)
    requires SchemaValid(p) && PatchErrors(d) == []
    ensures SchemaValid(Apply(p, d))
  {
    var head := PatchHead(d);
    var al := ElementChecks(OrDefault(d.allergens, []), Allergens, "allergens", 0);
    var di := ElementChecks(OrDefault(d.dietaryOptions, []), DietaryOptions, "dietaryOptions", 0);
    var tail := PatchTail(d);
    FailuresEmpty(PatchChecks(d));
    AllHoldAppend(head + al + di, tail);
    AllHoldAppend(head + al, di);
    AllHoldAppend(head, al);
    ElementChecksHold(OrDefault(d.allergens, []), Allergens, "allergens", 0);
    ElementChecksHold(OrDefault(d.dietaryOptions, []), DietaryOptions, "dietaryOptions", 0);
    assert head[0].holds && head[1].holds && head[2].holds && head[3].holds && head[4].holds && head[5].holds;
    assert tail[0].holds && tail[1].holds && tail[2].holds && tail[3].holds && tail[4].holds;
  }

  /** The stripped fields survive any update; every other supplied field
      comes through. */
  lemma UpdateKeepsProtected(p: Product, d: ProductPatch)
    ensures var u := Apply(p, Stripped(d));
      && u.id == p.id && u.createdAt == p.createdAt && u.orderCount == p.orderCount && u.rating == p.rating
      && (d.price.Some? ==> u.price == d.price.value)
      && (d.category.Some? ==> u.category == d.category.value)
      && (d.available.Some? ==> u.available == d.available.value)
      && (d.status.Some? ==> u.status == d.status.value)
      && (d.name.Some? ==> u.name == Trim(d.name.value))
  {
  }

  /** `PUT /api/products/:id`: the id is cast, the stripped payload is
      validated, then the product is looked up and updated. */
  method UpdateProduct(store: ProductStore, id: IdParam, body: ProductPatch) returns (r: Reply<Product>)
    requires store.Valid()
    modifies store`products
    ensures store.Valid()
    ensures id.BadId? ==> r == Fail(400, InvalidIdMessage, []) && unchanged(store)
    ensures id.Id? && PatchErrors(Stripped(body)) != [] ==>
      r == Fail(400, ValidationMessage, ProductMessages(PatchErrors(Stripped(body)))) && unchanged(store)
    ensures id.Id? && PatchErrors(Stripped(body)) == [] ==>
      match Find(old(store.products), id.n)
      case None => r == Fail(404, ProductNotFoundMessage, []) && unchanged(store)
      case Some(i) =>
        var u := Apply(old(store.products)[i], Stripped(body));
        r == Ok(200, u) && store.products == old(store.products)[i := u]
  {
    if id.BadId? {
      return Fail(400, InvalidIdMessage, []);
    }
    var data := body;
    data := data.(id := None);
    data := data.(createdAt := None);
    data := data.(orderCount := None);
    data := data.(rating := None);
    var errors := PatchErrors(data);
    if errors != [] {
      return Fail(400, ValidationMessage, ProductMessages(errors));
    }
    var found := Find(store.products, id.n);
    if found.None? {
      return Fail(404, ProductNotFoundMessage, []);
    }
    var i := found.value;
    var u := Apply(store.products[i], data);
    ValidPatchKeepsValid(store.products[i], data);
    store.Put(i, u);
    r := Ok(200, u);
  }

  // ---------------------------------------------------------------------
  // Soft delete and availability

  /** `DELETE /api/products/:id`: archived and unavailable, nothing else
      changes; the product is then hidden from the public single-product
      route. */
  method ArchiveProduct(store: ProductStore, id: IdParam) returns (r: Reply<Product>)
    requires store.Valid()
    modifies store`products
    ensures store.Valid()
    ensures id.BadId? ==> r == Fail(400, InvalidIdMessage, []) && unchanged(store)
    ensures id.Id? ==>
      match Find(old(store.products), id.n)
      case None => r == Fail(404, ProductNotFoundMessage, []) && unchanged(store)
      case Some(i) =>
        var u := old(store.products)[i].(status := "archived", available := false);
        r == Ok(200, u) && store.products == old(store.products)[i := u]
    ensures r.Ok? ==> GetProduct(store.products, id) == Fail(404, ProductNotFoundMessage, [])
  {
    if id.BadId? {
      return Fail(400, InvalidIdMessage, []);
    }
    var found := Find(store.products, id.n);
    if found.None? {
      return Fail(404, ProductNotFoundMessage, []);
    }
    var i := found.value;
    var u := store.products[i].(status := "archived", available := false);
    store.Put(i, u);
    r := Ok(200, u);
    forall p | p in store.products && p.id == id.n ensures !IsPublished(p) {
      var j :| 0 <= j < |store.products| && store.products[j] == p;
      assert j == i;
    }
  }

  /** The reply of the availability switch: only these three fields. */
  datatype Availability = Availability(message: string, id: nat, name: string, available: bool)

  function AvailabilityMessage(available: bool): string {
    "Prodotto " + (if available then "reso disponibile" else "reso non disponibile")
  }

  /** `PATCH /api/products/:id/availability`: a non-boolean value is
      refused first; a malformed id then ends as a server error, since this
      handler has no cast-error branch. Only `available` changes. */
  method SetAvailability(store: ProductStore, id: IdParam, available: Option<bool>) returns (r: Reply<Availability>)
    requires store.Valid()
    modifies store`products
    ensures store.Valid()
    ensures available.None? ==> r == Fail(400, AvailableTypeMessage, []) && unchanged(store)
    ensures available.Some? && id.BadId? ==> r == Fail(500, ServerErrorMessage, []) && unchanged(store)
    ensures available.Some? && id.Id? ==>
      match Find(old(store.products), id.n)
      case None => r == Fail(404, ProductNotFoundMessage, []) && unchanged(store)
      case Some(i) =>
        var p := old(store.products)[i];
        && store.products == old(store.products)[i := p.(available := available.value)]
        && r == Ok(200, Availability(AvailabilityMessage(available.value), p.id, p.name, available.value))
  {
    if available.None? {
      return Fail(400, AvailableTypeMessage, []);
    }
    if id.BadId? {
      return Fail(500, ServerErrorMessage, []);
    }
    var found := Find(store.products, id.n);
    if found.None? {
      return Fail(404, ProductNotFoundMessage, []);
    }
    var i := found.value;
    var p := store.products[i];
    store.Put(i, p.(available := available.value));
    r := Ok(200, Availability(AvailabilityMessage(available.value), p.id, p.name, available.value));
  }
}
