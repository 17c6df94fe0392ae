/** The records shared by the catalogue store, the cart store and the view
    components: products, cart lines, filter criteria and the sort key.
    Prices and ratings are exact reals; the source uses JavaScript numbers. */
module ProductTypes {

  datatype Option<+T> = None | Some(value: T) {
    function GetOr(default: T): T {
      match this
      case Some(v) => v
      case None => default
    }
  }

  /** One catalogue entry. */
  datatype Product = Product(
    id: string,
    name: string,
    description: string,
    price: real,
    originalPrice: Option<real>,
    image: string,
    images: Option<seq<string>>,
    category: string,
    rating: real,
    reviewCount: int,
    inStock: bool,
    brand: string,
    tags: seq<string>)

  /** One line of the cart: a product and how many of it. */
  datatype CartItem = CartItem(product: Product, quantity: int)

  /** The filter criteria; `priceRange` is the inclusive pair [low, high]. */
  datatype Filter = Filter(
    categories: seq<string>,
    priceRange: (real, real),
    brands: seq<string>,
    rating: real,
    inStockOnly: bool)

  /** A partial filter record: the fields a `setFilters` payload supplies. */
  datatype FilterPatch = FilterPatch(
    categories: Option<seq<string>>,
    priceRange: Option<(real, real)>,
    brands: Option<seq<string>>,
    rating: Option<real>,
    inStockOnly: Option<bool>)

  /** The five sort keys: 'name' | 'price-asc' | 'price-desc' | 'rating' | 'newest'. */
  datatype SortBy = Name | PriceAsc | PriceDesc | Rating | Newest

  /** True when `r` can be obtained from `s` by deleting elements. */
  predicate IsSubsequence<T(==)>(r: seq<T>, s: seq<T>)
    decreases |s|
  {
    if r == [] then true
    else if s == [] then false
    else (r[0] == s[0] && IsSubsequence(r[1..], s[1..])) || IsSubsequence(r, s[1..])
  }

  /** Upper end of the default price range. */
  const MaxPrice: real := 1000.0

  /** The filter record of the store's initial state. */
  const DefaultFilter: Filter := Filter([], (0.0, MaxPrice), [], 0.0, false)

  /** A patch that supplies no field. */
  const EmptyPatch: FilterPatch := FilterPatch(None, None, None, None, None)
}
