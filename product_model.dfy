/** The product document: its enumerations and range constraints, the price
    string validator, the running-average `updateRating`, the
    `getByCategory` and `searchProducts` statics, and the collection of
    products as a store whose every write goes through validation. Prices
    are integer cents; ratings are reals. */
module ProductModel {
  import opened Common
  import opened Text
  import opened Sorting

  const Categories: seq<string> := ["antipasti", "primi", "secondi", "contorni", "dolci", "bevande", "vini"]
  const Allergens: seq<string> :=
    ["glutine", "uova", "latte", "noci", "arachidi", "soia", "pesce", "molluschi", "sedano", "senape", "sesamo", "solfiti", "lupini"]
  const DietaryOptions: seq<string> := ["vegetariano", "vegano", "senza glutine", "senza lattosio"]
  const Difficulties: seq<string> := ["facile", "medio", "difficile"]
  const ProductStatuses: seq<string> := ["draft", "published", "archived"]

  datatype Rating = Rating(average: real, count: nat)

  /** A stored product. `category`, `difficulty` and `status` hold the
      strings the schema's enums check. */
  datatype Product = Product(
    id: nat,
    name: string,
    description: string,
    price: int,
    category: string,
    image: string,
    cloudinaryId: string,
    available: bool,
    ingredients: seq<string>,
    allergens: seq<string>,
    dietaryOptions: seq<string>,
    preparationTime: int,
    difficulty: string,
    servings: int,
    status: string,
    rating: Rating,
    orderCount: int,
    chef: string,
    createdAt: int)

  predicate Listed(p: Product) {
    p.available && p.status == "published"
  }

  // ---------------------------------------------------------------------
  // The price validator

  function FractionPart(r: nat): string
    requires r < 100
  {
    if r == 0 then ""
    else if r % 10 == 0 then ['.', DigitChar(r / 10)]
    else ['.', DigitChar(r / 10), DigitChar(r % 10)]
  }

  /** `price.toString()` for a price of `cents / 100`: no trailing zeros in
      the fraction and no point for a whole amount. */
  function PriceToString(cents: int): string {
    if cents < 0 then "-" + UnsignedPrice(-cents) else UnsignedPrice(cents)
  }

  function UnsignedPrice(n: nat): string {
    NatToString(n / 100) + FractionPart(n % 100)
  }

  /** The test `/^\d+(\.\d{1,2})?$/`: one or more digits, optionally a point
      and one or two digits. */
  predicate PriceValid(s: string) {
    var k := IndexOf(s, '.');
    && k >= 1 && AllDigits(s[..k])
    && (k == |s| || (1 <= |s| - k - 1 <= 2 && AllDigits(s[k + 1..])))
  }

  /** The amount in cents a valid price string denotes. */
  function ParsePrice(s: string): nat
    requires PriceValid(s)
  {
    var k := IndexOf(s, '.');
    var whole := DigitsValue(s[..k]) * 100;
    if k == |s| then whole
    else if |s| - k - 1 == 1 then whole + 10 * DigitsValue(s[k + 1..])
    else whole + DigitsValue(s[k + 1..])
  }

  /** Three decimals, a negative sign and a trailing point are refused. */
  lemma PriceValidExamples()
    ensures PriceValid("12") && PriceValid("8.5") && PriceValid("8.05")
    ensures !PriceValid("12.345") && !PriceValid("-3") && !PriceValid("5.") && !PriceValid(".5")
  {
    assert IndexOf("12", '.') == 2;
    assert IndexOf("8.5", '.') == 1;
    assert IndexOf("8.05", '.') == 1;
    assert IndexOf("12.345", '.') == 2;
    assert IndexOf("5.", '.') == 1;
    assert IndexOf(".5", '.') == 0;
    assert !IsDigit("-3"[0]);
  }

  lemma FractionFacts(r: nat)
    requires r < 100
    ensures r == 0 ==> FractionPart(r) == []
    ensures r != 0 ==> |FractionPart(r)| in {2, 3} && FractionPart(r)[0] == '.'
    ensures r != 0 ==> AllDigits(FractionPart(r)[1..])
    ensures r != 0 && |FractionPart(r)| == 2 ==> 10 * DigitsValue(FractionPart(r)[1..]) == r
    ensures r != 0 && |FractionPart(r)| == 3 ==> DigitsValue(FractionPart(r)[1..]) == r
  {
    if r != 0 {
      var f := FractionPart(r);
      if r % 10 == 0 {
        assert f[1..] == [DigitChar(r / 10)];
        assert DigitsValue(f[1..]) == 10 * DigitsValue([]) + DigitValue(DigitChar(r / 10));
      } else {
        var t := f[1..];
        assert t == [DigitChar(r / 10), DigitChar(r % 10)];
        assert t[..1] == [DigitChar(r / 10)];
        assert DigitsValue(t[..1]) == r / 10;
      }
    }
  }

  lemma {:induction false} UnsignedPriceParts(n: nat)
    ensures var s := UnsignedPrice(n); var w := NatToString(n / 100);
      IndexOf(s, '.') == |w| && s[..|w|] == w && s[|w|..] == FractionPart(n % 100)
  {
    var w := NatToString(n / 100);
    var f := FractionPart(n % 100);
    assert forall i :: 0 <= i < |w| ==> w[i] != '.' by {
      forall i | 0 <= i < |w| ensures w[i] != '.' { assert IsDigit(w[i]); }
    }
    IndexOfAppend(w, f, '.');
    FractionFacts(n % 100);
    if f != [] {
      assert f[0] == '.';
    }
  }

  /** The validator accepts the string form of a price exactly when the price
      is not negative; with prices held in whole cents a third decimal cannot
      arise. */
  lemma {:induction false} PriceStringValid(cents: int)
    ensures PriceValid(PriceToString(cents)) <==> cents >= 0
  {
    if cents < 0 {
      var s := PriceToString(cents);
      assert s[0] == '-';
      var k := IndexOf(s, '.');
      if k >= 1 {
        assert s[..k][0] == '-';
        assert !IsDigit(s[..k][0]);
      }
    } else {
      var n: nat := cents;
      var s := UnsignedPrice(n);
      var w := NatToString(n / 100);
      var f := FractionPart(n % 100);
      UnsignedPriceParts(n);
      FractionFacts(n % 100);
      if f != [] {
        assert s[|w| + 1..] == f[1..];
      }
    }
  }

  /** Parsing the string form gives the price back. */
  lemma {:induction false} PriceRoundTrip(cents: nat)
    ensures PriceValid(PriceToString(cents)) && ParsePrice(PriceToString(cents)) == cents
  {
    PriceStringValid(cents);
    var s := UnsignedPrice(cents);
    var w := NatToString(cents / 100);
    var f := FractionPart(cents % 100);
    UnsignedPriceParts(cents);
    FractionFacts(cents % 100);
    NatToStringRoundTrip(cents / 100);
    if f != [] {
      assert s[|w| + 1..] == f[1..];
    }
  }

  // ---------------------------------------------------------------------
  // Schema validation, one check per path (the first failing validator)

  /** A violated schema constraint of a product, one per path. */
  datatype ProductViolation =
    | NameRequired | NameTooLong
    | DescriptionRequired | DescriptionTooLong
    | NegativePrice | PriceDecimals
    | CategoryRequired | UnknownCategory
    | ImageRequired | CloudinaryIdRequired
    | UnknownEnumValue(value: string, path: string)
    | PreparationTooShort | PreparationTooLong
    | ServingsBelowOne
    | AverageBelowZero | AverageAboveFive

  /** The message Mongoose reports: the schema's custom message, or the
      default one for `required`, `min`, `max` and `enum`. */
  function ProductViolationMessage(v: ProductViolation): string {
    match v
    case NameRequired => "Il nome del prodotto è obbligatorio"
    case NameTooLong => "Il nome non può superare i 100 caratteri"
    case DescriptionRequired => "La descrizione è obbligatoria"
    case DescriptionTooLong => "La descrizione non può superare i 500 caratteri"
    case NegativePrice => "Il prezzo non può essere negativo"
    case PriceDecimals => "Il prezzo deve avere massimo 2 decimali"
    case CategoryRequired => "La categoria è obbligatoria"
    case UnknownCategory => "Categoria non valida"
    case ImageRequired => "L'immagine è obbligatoria"
    case CloudinaryIdRequired => "Path `cloudinaryId` is required."
    case UnknownEnumValue(value, path) => "`" + value + "` is not a valid enum value for path `" + path + "`."
    case PreparationTooShort => "Il tempo di preparazione deve essere almeno 1 minuto"
    case PreparationTooLong => "Il tempo di preparazione non può superare 3 ore"
    case ServingsBelowOne => "Path `servings` is less than minimum allowed value (1)."
    case AverageBelowZero => "Path `rating.average` is less than minimum allowed value (0)."
    case AverageAboveFive => "Path `rating.average` is more than maximum allowed value (5)."
  }

  /** The `errors` list of a validation reply: one message per violation. */
  function ProductMessages(vs: seq<ProductViolation>): (r: seq<string>)
    ensures |r| == |vs| && forall i :: 0 <= i < |vs| ==> r[i] == ProductViolationMessage(vs[i])
  {
    seq(|vs|, i requires 0 <= i < |vs| => ProductViolationMessage(vs[i]))
  }

  function Required(value: string, v: ProductViolation): Check<ProductViolation> {
    Check(value != "", v)
  }

  function MaxLength(value: string, max: nat, required: ProductViolation, tooLong: ProductViolation): Check<ProductViolation> {
    if value == "" then Check(false, required) else Check(Utf16Length(value) <= max, tooLong)
  }

  function PriceCheck(price: int): Check<ProductViolation> {
    if price < 0 then Check(false, NegativePrice)
    else Check(PriceValid(PriceToString(price)), PriceDecimals)
  }

  function CategoryCheck(category: string): Check<ProductViolation> {
    if category == "" then Check(false, CategoryRequired)
    else Check(category in Categories, UnknownCategory)
  }

  function EnumCheck(value: string, values: seq<string>, path: string): Check<ProductViolation> {
    Check(value in values, UnknownEnumValue(value, path))
  }

  /** One enum check per array element, at path `path.i`. */
  function ElementChecks(values: seq<string>, allowed: seq<string>, path: string, from: nat): (r: seq<Check<ProductViolation>>)
    ensures |r| == |values|
    ensures forall i :: 0 <= i < |values| ==> r[i].holds == (values[i] in allowed)
    decreases |values|
  {
    if values == [] then []
    else
      [EnumCheck(values[0], allowed, path + "." + NatToString(from))]
      + ElementChecks(values[1..], allowed, path, from + 1)
  }

  function PreparationTimeCheck(t: int): Check<ProductViolation> {
    if t < 1 then Check(false, PreparationTooShort)
    else Check(t <= 180, PreparationTooLong)
  }

  function ServingsCheck(n: int): Check<ProductViolation> {
    Check(n >= 1, ServingsBelowOne)
  }

  function AverageCheck(a: real): Check<ProductViolation> {
    if a < 0.0 then Check(false, AverageBelowZero)
    else Check(a <= 5.0, AverageAboveFive)
  }

  function HeadChecks(p: Product): seq<Check<ProductViolation>> {
    [MaxLength(p.name, 100, NameRequired, NameTooLong),
     MaxLength(p.description, 500, DescriptionRequired, DescriptionTooLong),
     PriceCheck(p.price),
     CategoryCheck(p.category),
     Required(p.image, ImageRequired),
     Required(p.cloudinaryId, CloudinaryIdRequired)]
  }

  function TailChecks(p: Product): seq<Check<ProductViolation>> {
    [PreparationTimeCheck(p.preparationTime),
     EnumCheck(p.difficulty, Difficulties, "difficulty"),
     ServingsCheck(p.servings),
     EnumCheck(p.status, ProductStatuses, "status"),
     AverageCheck(p.rating.average)]
  }

  /** The paths in schema order. */
  function ProductChecks(p: Product): seq<Check<ProductViolation>> {
    HeadChecks(p)
    + ElementChecks(p.allergens, Allergens, "allergens", 0)
    + ElementChecks(p.dietaryOptions, DietaryOptions, "dietaryOptions", 0)
    + TailChecks(p)
  }

  function ProductErrors(p: Product): seq<ProductViolation> {
    Failures(ProductChecks(p))
  }

  /** The schema's constraints, stated directly. */
  predicate SchemaValid(p: Product) {
    && p.name != "" && Utf16Length(p.name) <= 100
    && p.description != "" && Utf16Length(p.description) <= 500
    && p.price >= 0
    && p.category in Categories
    && p.image != "" && p.cloudinaryId != ""
    && (forall i :: 0 <= i < |p.allergens| ==> p.allergens[i] in Allergens)
    && (forall i :: 0 <= i < |p.dietaryOptions| ==> p.dietaryOptions[i] in DietaryOptions)
    && 1 <= p.preparationTime <= 180
    && p.difficulty in Difficulties
    && p.servings >= 1
    && p.status in ProductStatuses
    && 0.0 <= p.rating.average <= 5.0
  }

  lemma ElementChecksHold(values: seq<string>, allowed: seq<string>, path: string, from: nat)
    ensures AllHold(ElementChecks(values, allowed, path, from)) <==> forall i :: 0 <= i < |values| ==> values[i] in allowed
  {
  }

  /** A product passes validation exactly when it meets every schema
      constraint: required fields non-empty, lengths, a non-negative
      two-decimal price, the enumerations, preparation time in 1..180,
      at least one serving and an average in [0, 5]. */
  lemma ProductErrorsEmpty(p: Product)
    ensures ProductErrors(p) == [] <==> SchemaValid(p)
  {
    var head := HeadChecks(p);
    var al := ElementChecks(p.allergens, Allergens, "allergens", 0);
    var di := ElementChecks(p.dietaryOptions, DietaryOptions, "dietaryOptions", 0);
    var tail := TailChecks(p);
    FailuresEmpty(ProductChecks(p));
    AllHoldAppend(head + al + di, tail);
    AllHoldAppend(head + al, di);
    AllHoldAppend(head, al);
    ElementChecksHold(p.allergens, Allergens, "allergens", 0);
    ElementChecksHold(p.dietaryOptions, DietaryOptions, "dietaryOptions", 0);
    HeadChecksHold(p);
    TailChecksHold(p);
  }

  lemma HeadChecksHold(p: Product)
    ensures AllHold(HeadChecks(p)) <==>
      && p.name != "" && Utf16Length(p.name) <= 100
      && p.description != "" && Utf16Length(p.description) <= 500
      && p.price >= 0 && p.category in Categories
      && p.image != "" && p.cloudinaryId != ""
  {
    var h := HeadChecks(p);
    PriceStringValid(p.price);
    assert AllHold(h) <==> h[0].holds && h[1].holds && h[2].holds && h[3].holds && h[4].holds && h[5].holds;
  }

  lemma TailChecksHold(p: Product)
    ensures AllHold(TailChecks(p)) <==>
      && 1 <= p.preparationTime <= 180
      && p.difficulty in Difficulties
      && p.servings >= 1
      && p.status in ProductStatuses
      && 0.0 <= p.rating.average <= 5.0
  {
    var t := TailChecks(p);
    assert AllHold(t) <==> t[0].holds && t[1].holds && t[2].holds && t[3].holds && t[4].holds;
  }

  // ---------------------------------------------------------------------
  // Rating

  /** `updateRating(r)`: one more vote, and the average re-weighted. */
  function Rated(rating: Rating, r: real): (n: Rating)
    ensures n.count == rating.count + 1
    ensures n.average * (n.count as real) == rating.average * (rating.count as real) + r
  {
    var total := rating.average * (rating.count as real);
    var count := rating.count + 1;
    Rating((total + r) / (count as real), count)
  }

  function Sum(rs: seq<real>): real {
    if rs == [] then 0.0 else Sum(rs[..|rs| - 1]) + rs[|rs| - 1]
  }

  /** The ratings applied one after the other. */
  function RateAll(rating: Rating, rs: seq<real>): Rating {
    if rs == [] then rating else Rated(RateAll(rating, rs[..|rs| - 1]), rs[|rs| - 1])
  }

  /** From no votes, the average after `n` votes is their arithmetic mean. */
  lemma {:induction false} RateAllIsMean(rs: seq<real>)
    ensures RateAll(Rating(0.0, 0), rs).count == |rs|
    ensures RateAll(Rating(0.0, 0), rs).average * (|rs| as real) == Sum(rs)
    ensures |rs| > 0 ==> RateAll(Rating(0.0, 0), rs).average == Sum(rs) / (|rs| as real)
  {
    if rs != [] {
      RateAllIsMean(rs[..|rs| - 1]);
      var n := RateAll(Rating(0.0, 0), rs);
      assert n.average * (|rs| as real) == Sum(rs);
    }
  }

  /** An average and a vote in [0, 5] keep the average in [0, 5]. */
  lemma RatedInRange(rating: Rating, r: real)
    requires 0.0 <= rating.average <= 5.0 && 0.0 <= r <= 5.0
    ensures 0.0 <= Rated(rating, r).average <= 5.0
  {
    var c := rating.count as real;
    var n := Rated(rating, r);
    var ac := rating.average * c;
    AtMostFiveScaled(rating.average, c);
    assert 0.0 <= ac <= 5.0 * c;
    assert (n.count as real) == c + 1.0;
    var scaled := n.average * (c + 1.0);
    assert scaled == ac + r;
    assert 0.0 * (c + 1.0) <= scaled <= 5.0 * (c + 1.0);
    ScaledBound(n.average, c + 1.0, 5.0);
    ScaledBound(0.0, c + 1.0, n.average);
  }

  lemma AtMostFiveScaled(a: real, c: real)
    requires 0.0 <= a <= 5.0 && c >= 0.0
    ensures 0.0 <= a * c <= 5.0 * c
  {
    assert 5.0 * c - a * c == (5.0 - a) * c;
  }

  /** `x * d <= b * d` with `d > 0` bounds `x` by `b`. */
  lemma ScaledBound(x: real, d: real, b: real)
    requires d > 0.0 && x * d <= b * d
    ensures x <= b
  {
  }

  /** An out-of-range vote can push the average past the schema bound, so the
      save that follows `updateRating` fails. */
  lemma RatedOutOfRange()
    ensures Rated(Rating(5.0, 1), 7.0).average == 6.0
    ensures AverageCheck(6.0).holds == false
  {
  }

  // ---------------------------------------------------------------------
  // Statics

  /** Comparator for `{orderCount: -1, createdAt: -1}`. */
  predicate ByOrderCountThenNewest(a: Product, b: Product) {
    a.orderCount > b.orderCount || (a.orderCount == b.orderCount && a.createdAt >= b.createdAt)
  }

  lemma ByOrderCountThenNewestTotal()
    ensures TotalPreorder(ByOrderCountThenNewest)
  {
  }

  /** `getByCategory(c)`: listed products of that category, most ordered
      first, newest first among equals. */
  function GetByCategory(products: seq<Product>, category: string): (r: seq<Product>)
    ensures forall p :: p in r <==> p in products && Listed(p) && p.category == category
    ensures forall p :: multiset(r)[p] == if Listed(p) && p.category == category then multiset(products)[p] else 0
    ensures SortedBy(r, ByOrderCountThenNewest)
  {
    var found := Filter(products, (p: Product) => Listed(p) && p.category == category);
    FilterCounts(products, (p: Product) => Listed(p) && p.category == category);
    ByOrderCountThenNewestTotal();
    InsertionSortSorted(found, ByOrderCountThenNewest);
    var r := InsertionSort(found, ByOrderCountThenNewest);
    assert forall p :: p in r <==> p in multiset(r);
    assert forall p :: p in found <==> p in multiset(found);
    r
  }

  /** A product matches a search term when its name, description or one of
      its ingredients contains the term, ignoring case. */
  predicate MatchesTerm(p: Product, term: string) {
    || ContainsIgnoreCase(p.name, term)
    || ContainsIgnoreCase(p.description, term)
    || exists i :: 0 <= i < |p.ingredients| && ContainsIgnoreCase(p.ingredients[i], term)
  }

  /** `searchProducts(term)`: the listed products matching the term. */
  function SearchProducts(products: seq<Product>, term: string): (r: seq<Product>)
    ensures forall p :: p in r <==> p in products && Listed(p) && MatchesTerm(p, term)
    ensures |r| <= |products|
  {
    Filter(products, (p: Product) => Listed(p) && MatchesTerm(p, term))
  }

  /** Matching is case-blind: a term and its lower-case form pick the same
      products. */
  lemma SearchIgnoresCase(products: seq<Product>, term: string)
    ensures SearchProducts(products, term) == SearchProducts(products, ToLower(term))
  {
    ToLowerIdempotent(term);
    FilterSame(products, (p: Product) => Listed(p) && MatchesTerm(p, term),
      (p: Product) => Listed(p) && MatchesTerm(p, ToLower(term)));
  }

  // ---------------------------------------------------------------------
  // The collection

  /** The position of the product with the given id, if any. */
  function Find(products: seq<Product>, id: nat): (r: Option<nat>)
    ensures r.Some? ==> r.value < |products| && products[r.value].id == id
    ensures r.Some? ==> forall i :: 0 <= i < r.value ==> products[i].id != id
    ensures r.None? ==> forall i :: 0 <= i < |products| ==> products[i].id != id
  {
    if products == [] then None
    else if products[0].id == id then Some(0)
    else match Find(products[1..], id)
      case None => None
      case Some(k) => Some(k + 1)
  }

  class ProductStore {
    var products: seq<Product>
    var nextId: nat

    /** Every stored product has passed validation and has its own id. */
    ghost predicate Valid()
      reads this
    {
      && (forall i :: 0 <= i < |products| ==> SchemaValid(products[i]) && products[i].id < nextId)
      && (forall i, j :: 0 <= i < j < |products| ==> products[i].id != products[j].id)
    }

    constructor()
      ensures products == [] && nextId == 0 && Valid()
    {
      products := [];
      nextId := 0;
    }

    /** `product.save()` of a new document: validation, then an insert with
        a fresh id and the creation time. */
    method Insert(p: Product, now: int) returns (errors: seq<ProductViolation>, id: nat)
      requires Valid()
      modifies this
      ensures Valid()
      ensures errors == ProductErrors(p)
      ensures errors != [] ==> unchanged(this)
      ensures errors == [] ==> id == old(nextId) && nextId == old(nextId) + 1
      ensures errors == [] ==> products == old(products) + [p.(id := id, createdAt := now)]
    {
      errors := ProductErrors(p);
      id := nextId;
      if errors != [] {
        return;
      }
      ProductErrorsEmpty(p);
      var stored := p.(id := id, createdAt := now);
      assert SchemaValid(stored);
      products := products + [stored];
      nextId := nextId + 1;
    }

    /** A write of an already-validated document at position `i`. */
    method Put(i: nat, p: Product)
      requires Valid() && i < |products| && SchemaValid(p) && p.id == products[i].id
      modifies this`products
      ensures Valid()
      ensures products == old(products)[i := p]
    {
      products := products[i := p];
    }

    /** `product.orderCount += q; product.save()`: no validator reads the
        count, so the save of a valid product succeeds. */
    method BumpOrderCount(i: nat, q: int)
      requires Valid() && i < |products|
      modifies this`products
      ensures Valid()
      ensures products == old(products)[i := old(products)[i].(orderCount := old(products)[i].orderCount + q)]
    {
      Put(i, products[i].(orderCount := products[i].orderCount + q));
    }

    /** `updateRating(r)` on the product at position `i`, then `save()`,
        which refuses an average outside [0, 5]. */
    method UpdateRating(i: nat, r: real) returns (errors: seq<ProductViolation>)
      requires Valid() && i < |products|
      modifies this`products
      ensures Valid()
      ensures var updated := old(products)[i].(rating := Rated(old(products)[i].rating, r));
        && errors == ProductErrors(updated)
        && (errors == [] ==> products == old(products)[i := updated])
        && (errors != [] ==> products == old(products))
      ensures 0.0 <= r <= 5.0 ==> errors == []
    {
      var updated := products[i].(rating := Rated(products[i].rating, r));
      errors := ProductErrors(updated);
      ProductErrorsEmpty(updated);
      assert SchemaValid(products[i]);
      if 0.0 <= r <= 5.0 {
        RatedInRange(products[i].rating, r);
      }
      if errors == [] {
        Put(i, updated);
      }
    }
  }
}
