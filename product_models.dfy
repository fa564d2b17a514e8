/** The catalog records: categories, brands, products and product images,
    with the two derived properties a product offers (in stock, primary
    image) and the field constraints the tables enforce. */
module ProductModels {
  import opened Base

  datatype Category = Category(id: nat, name: string, description: string)

  datatype Brand = Brand(id: nat, name: string, description: string)

  /** `stock` is a non-negative count (a positive-integer column);
      `createdAt` is the creation time stamp that orders the catalog. */
  datatype Product = Product(
    id: nat,
    name: string,
    description: string,
    price: Cents,
    categoryId: nat,
    brandId: nat,
    stock: nat,
    isFeatured: bool,
    isActive: bool,
    createdAt: nat)

  /** An uploaded picture of a product; the file itself is not modelled. */
  datatype ProductImage = ProductImage(id: nat, productId: nat, isPrimary: bool)

  /** A price column with at most 10 digits, 2 of them after the point,
      holds fewer than 10^10 cents either side of zero. */
  const PriceBound: int := 10_000_000_000

  predicate ValidPrice(c: Cents) {
    -PriceBound < c < PriceBound
  }

  /** `Product.is_in_stock`. */
  predicate IsInStock(p: Product) {
    p.stock > 0
  }

  /** Category names are unique across the table. */
  predicate UniqueCategoryNames(cs: seq<Category>) {
    forall i, j :: 0 <= i < j < |cs| ==> cs[i].name != cs[j].name
  }

  /** Brand names are unique across the table. */
  predicate UniqueBrandNames(bs: seq<Brand>) {
    forall i, j :: 0 <= i < j < |bs| ==> bs[i].name != bs[j].name
  }

  /** No product has two images flagged primary. */
  predicate AtMostOnePrimary(images: seq<ProductImage>) {
    forall i, j ::
      (0 <= i < |images| && 0 <= j < |images| && images[i].isPrimary && images[j].isPrimary
       && images[i].productId == images[j].productId) ==> i == j
  }

  /** Some image of product `pid` is flagged primary. */
  predicate HasPrimary(images: seq<ProductImage>, pid: nat) {
    exists k :: 0 <= k < |images| && images[k].productId == pid && images[k].isPrimary
  }

  /** The images of product `pid`, in table order. */
  function ImagesOf(images: seq<ProductImage>, pid: nat): (r: seq<ProductImage>)
    ensures forall x :: x in r <==> x in images && x.productId == pid
    ensures r == [] <==> forall k :: 0 <= k < |images| ==> images[k].productId != pid
    ensures |r| <= |images|
  {
    if images == [] then []
    else (if images[0].productId == pid then [images[0]] else []) + ImagesOf(images[1..], pid)
  }

  /** The position of the first image flagged primary, if any. */
  function FirstPrimary(own: seq<ProductImage>): (r: Option<nat>)
    ensures r.Some? ==> r.value < |own| && own[r.value].isPrimary
    ensures r.Some? ==> forall k :: 0 <= k < r.value ==> !own[k].isPrimary
    ensures r.None? ==> forall k :: 0 <= k < |own| ==> !own[k].isPrimary
  {
    if own == [] then None
    else if own[0].isPrimary then Some(0)
    else match FirstPrimary(own[1..])
      case None => None
      case Some(k) => Some(k + 1)
  }

  /** `Product.primary_image`: the first image flagged primary; failing
      that, the first image; failing that, none. */
  function PrimaryImage(images: seq<ProductImage>, pid: nat): (r: Option<ProductImage>)
    ensures r.None? <==> ImagesOf(images, pid) == []
    ensures r.Some? ==> r.value in images && r.value.productId == pid
    ensures HasPrimary(images, pid) ==> r.Some? && r.value.isPrimary
    ensures !HasPrimary(images, pid) && r.Some? ==> r.value == ImagesOf(images, pid)[0]
  {
    var own := ImagesOf(images, pid);
    assert HasPrimary(images, pid) ==> exists x :: x in own && x.isPrimary;
    match FirstPrimary(own)
    case Some(k) => assert own[k] in own; Some(own[k])
    case None => if own == [] then None else assert own[0] in own; Some(own[0])
  }

  /** The position of product `id` in the table, if present. */
  function IndexOfProduct(ps: seq<Product>, id: nat): (r: Option<nat>)
    ensures r.Some? ==> r.value < |ps| && ps[r.value].id == id
    ensures r.None? ==> forall k :: 0 <= k < |ps| ==> ps[k].id != id
  {
    if ps == [] then None
    else if ps[0].id == id then Some(0)
    else match IndexOfProduct(ps[1..], id)
      case None => None
      case Some(k) => Some(k + 1)
  }

  /** The position of image `id` in the table, if present. */
  function IndexOfImage(images: seq<ProductImage>, id: nat): (r: Option<nat>)
    ensures r.Some? ==> r.value < |images| && images[r.value].id == id
    ensures r.None? ==> forall k :: 0 <= k < |images| ==> images[k].id != id
  {
    if images == [] then None
    else if images[0].id == id then Some(0)
    else match IndexOfImage(images[1..], id)
      case None => None
      case Some(k) => Some(k + 1)
  }

  /** The position of the first image of product `pid`, if any. */
  function FirstImageOf(images: seq<ProductImage>, pid: nat): (r: Option<nat>)
    ensures r.Some? ==> r.value < |images| && images[r.value].productId == pid
    ensures r.Some? ==> forall k :: 0 <= k < r.value ==> images[k].productId != pid
    ensures r.None? ==> forall k :: 0 <= k < |images| ==> images[k].productId != pid
  {
    if images == [] then None
    else if images[0].productId == pid then Some(0)
    else match FirstImageOf(images[1..], pid)
      case None => None
      case Some(k) => Some(k + 1)
  }

  function FindProduct(ps: seq<Product>, id: nat): (r: Option<Product>)
    ensures r.Some? ==> r.value in ps && r.value.id == id
    ensures r.None? ==> forall k :: 0 <= k < |ps| ==> ps[k].id != id
  {
    if ps == [] then None
    else if ps[0].id == id then Some(ps[0])
    else FindProduct(ps[1..], id)
  }

  function FindCategory(cs: seq<Category>, id: nat): (r: Option<Category>)
    ensures r.Some? ==> r.value in cs && r.value.id == id
    ensures r.None? ==> forall k :: 0 <= k < |cs| ==> cs[k].id != id
  {
    if cs == [] then None
    else if cs[0].id == id then Some(cs[0])
    else FindCategory(cs[1..], id)
  }

  function FindBrand(bs: seq<Brand>, id: nat): (r: Option<Brand>)
    ensures r.Some? ==> r.value in bs && r.value.id == id
    ensures r.None? ==> forall k :: 0 <= k < |bs| ==> bs[k].id != id
  {
    if bs == [] then None
    else if bs[0].id == id then Some(bs[0])
    else FindBrand(bs[1..], id)
  }

  /** The current price of product `id`; 0 for an id the catalog does not
      hold (a dangling reference the foreign keys rule out). */
  function ProductPrice(ps: seq<Product>, id: nat): (r: Cents)
    ensures FindProduct(ps, id).Some? ==> r == FindProduct(ps, id).value.price
  {
    match FindProduct(ps, id)
    case Some(p) => p.price
    case None => 0
  }
}
