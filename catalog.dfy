/** The product catalog of `utils/api.js`: the normalisation of raw records from
    the spreadsheet API, search, the category and flag filters, the multi-key
    sort, the distinct category lists, product validation and discount pricing. */
module Catalog {
  import opened Options
  import opened Text
  import opened Sequences

  /** A product id as it comes from the API (a number or a string) or from the
      random fallback (a string). `===` is equality of `Id` values; `String(id)`
      is `IdString`, under which `NumId(7)` and `StrId("7")` are the same. */
  datatype Id = NumId(n: int) | StrId(s: string)

  /** JavaScript truthiness of an id: `0` and `''` are falsy. */
  predicate IdTruthy(id: Id) {
    match id
    case NumId(n) => n != 0
    case StrId(s) => s != ""
  }

  /** `String(id)`, which is also what `id.toString()` gives. */
  function IdString(id: Id): string {
    match id
    case NumId(n) => IntToString(n)
    case StrId(s) => s
  }

  /** A normalised product record; field names follow the app's records. */
  datatype Product = Product(
    id: Id,
    nombre: string,
    descripcion: string,
    precio: real,
    categoria: string,
    subcategoria: string,
    imagen: string,
    disponible: bool,
    agotado: bool,
    masVendido: bool,
    delaCasa: bool,
    enOferta: bool,
    recomendado: bool,
    rating: int,
    descuento: real,
    cantidad: string,
    itebis: string,
    enCarrito: bool,
    agregarAdicionales: bool)

  /** A record as the API sends it. An absent text field is `None`; a numeric
      field is `None` when `parseFloat`/`parseInt` gives `NaN`; a flag holds the
      truthiness of whatever the API sent. */
  datatype RawProduct = RawProduct(
    idProducto: Option<Id>,
    nombre: Option<string>,
    categoria: Option<string>,
    subcategoria: Option<string>,
    precio: Option<real>,
    imagen: Option<string>,
    agotado: bool,
    masVendidos: bool,
    delaCasa: bool,
    enOferta: bool,
    recomendados: bool,
    rating: Option<int>,
    descuento: Option<real>,
    cantidad: Option<string>,
    itebis: Option<string>,
    carrito: bool,
    agregarediccion: bool)

  const DefaultName := "Producto sin nombre"
  const DefaultDescription := "Sin descripci\U{F3}n"
  const DefaultCategory := "Sin categor\U{ED}a"
  const PlaceholderImage := "https://via.placeholder.com/300x200?text=Sin+Imagen"

  /** JavaScript truthiness of an optional text field. */
  predicate TextTruthy(o: Option<string>) {
    o.Some? && o.value != ""
  }

  /** `o || fallback` on an optional text field. */
  function TextOr(o: Option<string>, fallback: string): (r: string)
    ensures TextTruthy(o) ==> r == o.value
    ensures !TextTruthy(o) ==> r == fallback
    ensures fallback != "" ==> r != ""
  {
    if TextTruthy(o) then o.value else fallback
  }

  /** What a template literal prints for an optional text field: an absent one
      prints as `undefined`. */
  function Interpolate(o: Option<string>): string {
    match o
    case None => "undefined"
    case Some(s) => s
  }

  /** `parseFloat(x) || 0` and `parseInt(x) || 0`. */
  function RealOrZero(o: Option<real>): real {
    if o.Some? then o.value else 0.0
  }

  function IntOrZero(o: Option<int>): int {
    if o.Some? then o.value else 0
  }

  /** The `descripcion` rule of `mapProductData`: "categoria - subcategoria" when
      there is a subcategory (an absent category prints as `undefined`), else the
      category, else a fixed text. */
  function Description(categoria: Option<string>, subcategoria: Option<string>): (r: string)
    ensures TextTruthy(subcategoria) ==> r == Interpolate(categoria) + " - " + subcategoria.value
    ensures !TextTruthy(subcategoria) && TextTruthy(categoria) ==> r == categoria.value
    ensures !TextTruthy(subcategoria) && !TextTruthy(categoria) ==> r == DefaultDescription
  {
    if TextTruthy(subcategoria) then Interpolate(categoria) + " - " + subcategoria.value
    else TextOr(categoria, DefaultDescription)
  }

  /** `idProducto || Math.random().toString()`. */
  function MappedId(o: Option<Id>, randomId: string): (id: Id)
    requires randomId != ""
    ensures IdTruthy(id)
    ensures o.Some? && IdTruthy(o.value) ==> id == o.value
  {
    if o.Some? && IdTruthy(o.value) then o.value else StrId(randomId)
  }

  /** `mapProductData`. `randomId` stands for `Math.random().toString()`, the
      fallback id, which is never empty. */
  function MapProductData(raw: RawProduct, randomId: string): (p: Product)
    requires randomId != ""
    ensures IdTruthy(p.id) && p.nombre != ""
    ensures raw.idProducto.Some? && IdTruthy(raw.idProducto.value) ==> p.id == raw.idProducto.value
    ensures p.disponible == !p.agotado
    ensures raw.precio.None? ==> p.precio == 0.0
    ensures p.descripcion == Description(raw.categoria, raw.subcategoria)
  {
    Product(
      id := MappedId(raw.idProducto, randomId),
      nombre := TextOr(raw.nombre, DefaultName),
      descripcion := Description(raw.categoria, raw.subcategoria),
      precio := RealOrZero(raw.precio),
      categoria := TextOr(raw.categoria, DefaultCategory),
      subcategoria := TextOr(raw.subcategoria, ""),
      imagen := TextOr(raw.imagen, PlaceholderImage),
      disponible := !raw.agotado,
      agotado := raw.agotado,
      masVendido := raw.masVendidos,
      delaCasa := raw.delaCasa,
      enOferta := raw.enOferta,
      recomendado := raw.recomendados,
      rating := IntOrZero(raw.rating),
      descuento := RealOrZero(raw.descuento),
      cantidad := TextOr(raw.cantidad, ""),
      itebis := TextOr(raw.itebis, ""),
      enCarrito := raw.carrito,
      agregarAdicionales := raw.agregarediccion)
  }

  /** The test `product.id && product.nombre` that `fetchProducts` filters by. */
  predicate HasIdAndName(p: Product) {
    IdTruthy(p.id) && p.nombre != ""
  }

  /** The fallback ids a fetch draws, one per raw record. */
  predicate RandomIdsFor(raws: seq<RawProduct>, randomIds: seq<string>) {
    |randomIds| == |raws| && forall i :: 0 <= i < |randomIds| ==> randomIds[i] != ""
  }

  /** `productsData.map(mapProductData).filter(product => product.id && product.nombre)`:
      the defaults make the filter keep every record, so the catalog has one
      product per raw record, in the same order. */
  function NormalizeProducts(raws: seq<RawProduct>, randomIds: seq<string>): (r: seq<Product>)
    requires RandomIdsFor(raws, randomIds)
    ensures |r| == |raws|
    ensures forall i :: 0 <= i < |r| ==> r[i] == MapProductData(raws[i], randomIds[i])
    ensures forall p :: p in r ==> HasIdAndName(p) && p.disponible == !p.agotado
  {
    var mapped := seq(|raws|, i requires 0 <= i < |raws| => MapProductData(raws[i], randomIds[i]));
    FilterKeepsAll(mapped, HasIdAndName);
    Filter(mapped, HasIdAndName)
  }

  /** The four fields `searchProducts` looks in, lowered, contain `term`. */
  predicate MatchesTerm(p: Product, term: string) {
    || Contains(Lower(p.nombre), term)
    || Contains(Lower(p.categoria), term)
    || Contains(Lower(p.subcategoria), term)
    || Contains(Lower(p.descripcion), term)
  }

  /** `searchProducts`: a blank term keeps the catalog as it is; otherwise the
      products in which some field contains the lowered, trimmed term, in order. */
  function SearchProducts(products: seq<Product>, searchTerm: string): (r: seq<Product>)
    ensures |r| <= |products|
    ensures Trim(searchTerm) == "" ==> r == products
    ensures Trim(searchTerm) != "" ==>
              && IsSubsequence(r, products)
              && (forall p :: p in r <==> p in products && MatchesTerm(p, Trim(Lower(searchTerm))))
              && forall p :: multiset(r)[p] == if MatchesTerm(p, Trim(Lower(searchTerm))) then multiset(products)[p] else 0
  {
    if searchTerm == "" || Trim(searchTerm) == "" then products
    else
      var term := Trim(Lower(searchTerm));
      FilterMultiplicity(products, (p: Product) => MatchesTerm(p, term));
      Filter(products, (p: Product) => MatchesTerm(p, term))
  }

  /** `filterProductsByCategory`: case-insensitive equality on `categoria`;
      an empty value or `'all'` keeps everything. */
  function FilterProductsByCategory(products: seq<Product>, category: string): (r: seq<Product>)
    ensures category == "" || category == "all" ==> r == products
    ensures category != "" && category != "all" ==>
              && IsSubsequence(r, products)
              && (forall p :: p in r <==> p in products && Lower(p.categoria) == Lower(category))
              && forall p :: multiset(r)[p] == if Lower(p.categoria) == Lower(category) then multiset(products)[p] else 0
  {
    if category == "" || category == "all" then products
    else
      FilterMultiplicity(products, (p: Product) => Lower(p.categoria) == Lower(category));
      Filter(products, (p: Product) => Lower(p.categoria) == Lower(category))
  }

  /** `filterProductsBySubcategory`: the same on `subcategoria`. */
  function FilterProductsBySubcategory(products: seq<Product>, subcategory: string): (r: seq<Product>)
    ensures subcategory == "" || subcategory == "all" ==> r == products
    ensures subcategory != "" && subcategory != "all" ==>
              && IsSubsequence(r, products)
              && (forall p :: p in r <==> p in products && Lower(p.subcategoria) == Lower(subcategory))
              && forall p :: multiset(r)[p] == if Lower(p.subcategoria) == Lower(subcategory) then multiset(products)[p] else 0
  {
    if subcategory == "" || subcategory == "all" then products
    else
      FilterMultiplicity(products, (p: Product) => Lower(p.subcategoria) == Lower(subcategory));
      Filter(products, (p: Product) => Lower(p.subcategoria) == Lower(subcategory))
  }

  /** The entries of `advancedFilters`. */
  datatype AdvancedFilter =
    | Disponibles | Agotados | MasVendidos | DelaCasa | EnOferta | Recomendados | ConDescuento
    | PorRating(minRating: int)

  /** The default threshold of `advancedFilters.porRating`. */
  const DefaultMinRating := 4

  predicate PassesAdvanced(f: AdvancedFilter, p: Product) {
    match f
    case Disponibles => p.disponible
    case Agotados => p.agotado
    case MasVendidos => p.masVendido
    case DelaCasa => p.delaCasa
    case EnOferta => p.enOferta
    case Recomendados => p.recomendado
    case ConDescuento => p.descuento > 0.0
    case PorRating(minRating) => p.rating >= minRating
  }

  function AdvancedTest(f: AdvancedFilter): Product -> bool {
    (p: Product) => PassesAdvanced(f, p)
  }

  /** `advancedFilters[f](products)`: the products that pass `f`, in order. */
  function ApplyAdvancedFilter(products: seq<Product>, f: AdvancedFilter): (r: seq<Product>)
    ensures IsSubsequence(r, products)
    ensures forall p :: p in r <==> p in products && PassesAdvanced(f, p)
    ensures forall p :: multiset(r)[p] == if PassesAdvanced(f, p) then multiset(products)[p] else 0
  {
    FilterMultiplicity(products, AdvancedTest(f));
    Filter(products, AdvancedTest(f))
  }

  /** The `sortBy` values `sortProducts` knows. */
  datatype SortKey = ByName | PriceAsc | PriceDesc | ByCategory | ByRating | Popular | Offers

  function ParseSortKey(sortBy: string): (k: Option<SortKey>)
    ensures k.None? <==>
              sortBy !in {"name", "price-asc", "price-desc", "category", "rating", "popular", "offers"}
  {
    if sortBy == "name" then Some(ByName)
    else if sortBy == "price-asc" then Some(PriceAsc)
    else if sortBy == "price-desc" then Some(PriceDesc)
    else if sortBy == "category" then Some(ByCategory)
    else if sortBy == "rating" then Some(ByRating)
    else if sortBy == "popular" then Some(Popular)
    else if sortBy == "offers" then Some(Offers)
    else None
  }

  /** The sign of a comparator's result, which is all `sort` looks at. */
  function Sign(x: real): int {
    if x < 0.0 then -1 else if x > 0.0 then 1 else 0
  }

  function IntSign(x: int): int {
    if x < 0 then -1 else if x > 0 then 1 else 0
  }

  /** A boolean in arithmetic (`true - false == 1`). */
  function BoolNum(b: bool): int {
    if b then 1 else 0
  }

  /** The sign of the comparator `sortProducts` passes to `sort` for `key`. */
  function Compare(key: SortKey, a: Product, b: Product): int {
    match key
    case ByName => LexCompare(a.nombre, b.nombre)
    case PriceAsc => Sign(a.precio - b.precio)
    case PriceDesc => Sign(b.precio - a.precio)
    case ByCategory => LexCompare(a.categoria, b.categoria)
    case ByRating => IntSign(b.rating - a.rating)
    case Popular =>
      if a.masVendido != b.masVendido then BoolNum(b.masVendido) - BoolNum(a.masVendido)
      else if a.recomendado != b.recomendado then BoolNum(b.recomendado) - BoolNum(a.recomendado)
      else if a.rating != b.rating then IntSign(b.rating - a.rating)
      else LexCompare(a.nombre, b.nombre)
    case Offers =>
      if a.enOferta != b.enOferta then BoolNum(b.enOferta) - BoolNum(a.enOferta)
      else if a.descuento != b.descuento then Sign(b.descuento - a.descuento)
      else Sign(a.precio - b.precio)
  }

  /** "`a` may stay before `b`" under `key`. */
  function NotAfter(key: SortKey): (Product, Product) -> bool {
    (a: Product, b: Product) => Compare(key, a, b) <= 0
  }

  lemma CompareAntisymmetric(key: SortKey, a: Product, b: Product)
    ensures Compare(key, a, b) == -Compare(key, b, a)
  {
    LexCompareAntisymmetric(a.nombre, b.nombre);
    LexCompareAntisymmetric(a.categoria, b.categoria);
  }

  lemma CompareTransitive(key: SortKey, a: Product, b: Product, c: Product)
    requires Compare(key, a, b) <= 0 && Compare(key, b, c) <= 0
    ensures Compare(key, a, c) <= 0
  {
    if LexLe(a.nombre, b.nombre) && LexLe(b.nombre, c.nombre) {
      LexLeTransitive(a.nombre, b.nombre, c.nombre);
    }
    if LexLe(a.categoria, b.categoria) && LexLe(b.categoria, c.categoria) {
      LexLeTransitive(a.categoria, b.categoria, c.categoria);
    }
  }

  /** Every comparator of `sortProducts` is consistent: a total preorder. */
  lemma NotAfterIsTotalPreorder(key: SortKey)
    ensures TotalPreorder(NotAfter(key))
  {
    forall a, b ensures NotAfter(key)(a, b) || NotAfter(key)(b, a) {
      CompareAntisymmetric(key, a, b);
    }
    forall a, b, c | NotAfter(key)(a, b) && NotAfter(key)(b, c) ensures NotAfter(key)(a, c) {
      CompareTransitive(key, a, b, c);
    }
  }

  /** `sortProducts`: a sorted copy for a known key (the argument itself is
      never reordered), the input order for any other value. */
  function SortProducts(products: seq<Product>, sortBy: string): (r: seq<Product>)
    ensures multiset(r) == multiset(products)
    ensures ParseSortKey(sortBy).None? ==> r == products
  {
    match ParseSortKey(sortBy)
    case None => products
    case Some(key) => SortBy(products, NotAfter(key))
  }

  /** For a known key, no product of the result compares greater than one after it. */
  lemma SortProductsSorted(products: seq<Product>, sortBy: string, key: SortKey)
    requires ParseSortKey(sortBy) == Some(key)
    ensures forall i, j :: 0 <= i < j < |SortProducts(products, sortBy)| ==>
              Compare(key, SortProducts(products, sortBy)[i], SortProducts(products, sortBy)[j]) <= 0
  {
    NotAfterIsTotalPreorder(key);
    SortByIsSorted(products, NotAfter(key));
  }

  /** `price-asc` orders by non-decreasing price, `price-desc` and `rating` by
      non-increasing price and rating. */
  lemma SortProductsByNumericKeys(products: seq<Product>)
    ensures var r := SortProducts(products, "price-asc");
            forall i, j :: 0 <= i < j < |r| ==> r[i].precio <= r[j].precio
    ensures var r := SortProducts(products, "price-desc");
            forall i, j :: 0 <= i < j < |r| ==> r[i].precio >= r[j].precio
    ensures var r := SortProducts(products, "rating");
            forall i, j :: 0 <= i < j < |r| ==> r[i].rating >= r[j].rating
  {
    SortProductsSorted(products, "price-asc", PriceAsc);
    SortProductsSorted(products, "price-desc", PriceDesc);
    SortProductsSorted(products, "rating", ByRating);
  }

  /** `popular`: best sellers first, then recommended ones, then higher rating,
      then names in ascending order. */
  lemma SortProductsPopular(products: seq<Product>)
    ensures var r := SortProducts(products, "popular");
            forall i, j :: 0 <= i < j < |r| ==>
              && (r[j].masVendido ==> r[i].masVendido)
              && (r[i].masVendido == r[j].masVendido && r[j].recomendado ==> r[i].recomendado)
              && (r[i].masVendido == r[j].masVendido && r[i].recomendado == r[j].recomendado ==>
                  r[i].rating >= r[j].rating)
              && ((r[i].masVendido == r[j].masVendido && r[i].recomendado == r[j].recomendado &&
                   r[i].rating == r[j].rating) ==> LexLe(r[i].nombre, r[j].nombre))
  {
    SortProductsSorted(products, "popular", Popular);
  }

  /** `offers`: products on offer first, then larger discount, then lower price. */
  lemma SortProductsOffers(products: seq<Product>)
    ensures var r := SortProducts(products, "offers");
            forall i, j :: 0 <= i < j < |r| ==>
              && (r[j].enOferta ==> r[i].enOferta)
              && (r[i].enOferta == r[j].enOferta ==> r[i].descuento >= r[j].descuento)
              && (r[i].enOferta == r[j].enOferta && r[i].descuento == r[j].descuento ==>
                  r[i].precio <= r[j].precio)
  {
    SortProductsSorted(products, "offers", Offers);
  }

  /** The values that are not blank, trimmed: the `filter`/`map` steps of
      `getCategories` and `getSubcategories`. */
  function NonBlankTrimmed(values: seq<string>): (r: seq<string>)
    ensures forall x :: x in r <==> exists i :: 0 <= i < |values| && Trim(values[i]) != "" && x == Trim(values[i])
    decreases |values|
  {
    if values == [] then []
    else
      var rest := NonBlankTrimmed(values[1..]);
      assert forall i :: 1 <= i < |values| ==> values[i] == values[1..][i - 1];
      if Trim(values[0]) != "" then [Trim(values[0])] + rest else rest
  }

  function LexLeFn(): (string, string) -> bool {
    (a: string, b: string) => LexLe(a, b)
  }

  /** `[...new Set(values)].sort()` after the blank-dropping and trimming. */
  function UniqueSorted(values: seq<string>): (r: seq<string>)
    ensures forall i, j :: 0 <= i < j < |r| ==> LexCompare(r[i], r[j]) < 0
    ensures forall x :: x in r <==> exists i :: 0 <= i < |values| && Trim(values[i]) != "" && x == Trim(values[i])
  {
    var d := Dedup(NonBlankTrimmed(values));
    var r := SortBy(d, LexLeFn());
    UniqueSortedFacts(d, r);
    r
  }

  lemma UniqueSortedFacts(d: seq<string>, r: seq<string>)
    requires Distinct(d) && r == SortBy(d, LexLeFn())
    ensures forall i, j :: 0 <= i < j < |r| ==> LexCompare(r[i], r[j]) < 0
    ensures forall x :: x in r <==> x in d
  {
    assert TotalPreorder(LexLeFn()) by {
      forall a, b ensures LexLe(a, b) || LexLe(b, a) {
        LexCompareAntisymmetric(a, b);
      }
      forall a, b, c | LexLe(a, b) && LexLe(b, c) ensures LexLe(a, c) {
        LexLeTransitive(a, b, c);
      }
    }
    SortByIsSorted(d, LexLeFn());
    DistinctIffSingleOccurrences(d);
    DistinctIffSingleOccurrences(r);
    forall i, j | 0 <= i < j < |r| ensures LexCompare(r[i], r[j]) < 0 {
      LexCompareZeroIffEqual(r[i], r[j]);
    }
    forall x ensures x in r <==> x in d {
      assert x in r <==> x in multiset(r);
      assert x in d <==> x in multiset(d);
    }
  }

  function Categorias(products: seq<Product>): (r: seq<string>)
    ensures |r| == |products| && forall i :: 0 <= i < |r| ==> r[i] == products[i].categoria
  {
    seq(|products|, i requires 0 <= i < |products| => products[i].categoria)
  }

  function Subcategorias(products: seq<Product>): (r: seq<string>)
    ensures |r| == |products| && forall i :: 0 <= i < |r| ==> r[i] == products[i].subcategoria
  {
    seq(|products|, i requires 0 <= i < |products| => products[i].subcategoria)
  }

  /** `getCategories`: every non-blank category, trimmed, once, in ascending order. */
  function GetCategories(products: seq<Product>): (r: seq<string>)
    ensures forall i, j :: 0 <= i < j < |r| ==> LexCompare(r[i], r[j]) < 0
    ensures forall x :: x in r <==>
              exists i :: 0 <= i < |products| && Trim(products[i].categoria) != "" && x == Trim(products[i].categoria)
  {
    UniqueSorted(Categorias(products))
  }

  function CategoryIs(category: string): Product -> bool {
    (p: Product) => Lower(p.categoria) == Lower(category)
  }

  /** The products `getSubcategories` looks at: those whose category matches
      `category` case-insensitively, or all of them for an empty `category`. */
  function ProductsInCategory(products: seq<Product>, category: string): (chosen: seq<Product>)
    ensures forall p :: p in chosen <==> p in products && (category == "" || Lower(p.categoria) == Lower(category))
  {
    if category != "" then Filter(products, CategoryIs(category)) else products
  }

  lemma SubcategoryMembers(chosen: seq<Product>)
    ensures forall x :: x in UniqueSorted(Subcategorias(chosen)) <==>
              exists p :: p in chosen && Trim(p.subcategoria) != "" && x == Trim(p.subcategoria)
  {
    var r := UniqueSorted(Subcategorias(chosen));
    forall x ensures x in r ==> exists p :: p in chosen && Trim(p.subcategoria) != "" && x == Trim(p.subcategoria) {
      if x in r {
        var i :| 0 <= i < |chosen| && Trim(chosen[i].subcategoria) != "" && x == Trim(chosen[i].subcategoria);
        assert chosen[i] in chosen;
      }
    }
    forall x | exists p :: p in chosen && Trim(p.subcategoria) != "" && x == Trim(p.subcategoria) ensures x in r {
      var p :| p in chosen && Trim(p.subcategoria) != "" && x == Trim(p.subcategoria);
      var i :| 0 <= i < |chosen| && chosen[i] == p;
      assert Subcategorias(chosen)[i] == p.subcategoria;
    }
  }

  /** `getSubcategories`: the same on `subcategoria`, over the products whose
      category matches `category` case-insensitively when one is given. */
  function GetSubcategories(products: seq<Product>, category: string): (r: seq<string>)
    ensures forall i, j :: 0 <= i < j < |r| ==> LexCompare(r[i], r[j]) < 0
    ensures forall x :: x in r <==>
              exists p :: p in products && (category == "" || Lower(p.categoria) == Lower(category))
                          && Trim(p.subcategoria) != "" && x == Trim(p.subcategoria)
  {
    SubcategoryMembers(ProductsInCategory(products, category));
    UniqueSorted(Subcategorias(ProductsInCategory(products, category)))
  }

  /** `validateProduct`: a product with `id` and `nombre` that are not `''`
      (`precio` is a number, which is never `''`). It accepts every product that
      `fetchProducts` keeps, and a product it accepts has a non-empty string id. */
  predicate ValidateProduct(product: Option<Product>): (v: bool)
    ensures product.Some? && HasIdAndName(product.value) ==> v
    ensures v ==> product.Some? && IdString(product.value.id) != ""
  {
    product.Some? && product.value.id != StrId("") && product.value.nombre != ""
  }

  /** Every normalised record passes `validateProduct`. */
  lemma NormalizedProductsValidate(raws: seq<RawProduct>, randomIds: seq<string>)
    requires RandomIdsFor(raws, randomIds)
    ensures forall p :: p in NormalizeProducts(raws, randomIds) ==> ValidateProduct(Some(p))
  {
  }

  /** `calculateDiscountedPrice`: the price is kept unless the discount is
      positive, and a discount of at most 100% never makes it negative or larger. */
  function CalculateDiscountedPrice(price: real, discount: real): (r: real)
    ensures discount <= 0.0 ==> r == price
    ensures discount > 0.0 ==> r == price - price * discount / 100.0
    ensures 0.0 <= discount <= 100.0 && 0.0 <= price ==> 0.0 <= r <= price
  {
    if discount <= 0.0 then price else price * (1.0 - discount / 100.0)
  }
}
