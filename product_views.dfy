/** The catalog views: the customer product list with its filters and sort,
    related products on a product page, and the staff views that add and
    edit products, categories and brands and keep the primary-image flags. */
module ProductViews {
  import opened Base
  import opened Text
  import opened Sorting
  import opened ProductModels

  // ---------------------------------------------------------------------
  // Customer product list
  // ---------------------------------------------------------------------

  /** The list's query parameters. An absent or empty parameter is `None`
      (or the empty string); `sort` defaults to newest first. */
  datatype ListQuery = ListQuery(
    category: Option<nat>,
    brand: Option<nat>,
    search: string,
    minPrice: Option<Cents>,
    maxPrice: Option<Cents>,
    sort: string)

  /** The search box is applied unless it is empty, only white space (its
      `strip()` is empty), or the literal text `None`. */
  predicate SearchApplies(q: string) {
    q != "" && Strip(q) != [] && q != "None"
  }

  /** Product `p` passes every filter of the query. */
  predicate Matches(p: Product, q: ListQuery) {
    && p.isActive
    && (q.category.Some? ==> p.categoryId == q.category.value)
    && (q.brand.Some? ==> p.brandId == q.brand.value)
    && (SearchApplies(q.search) ==> ContainsIgnoreCase(p.name, q.search))
    && (q.minPrice.Some? ==> q.minPrice.value <= p.price)
    && (q.maxPrice.Some? ==> p.price <= q.maxPrice.value)
  }

  /** The products that pass the query's filters, in table order. */
  function FilterProducts(ps: seq<Product>, q: ListQuery): (r: seq<Product>)
    ensures forall p :: p in r <==> p in ps && Matches(p, q)
    ensures forall p :: p in multiset(r) ==> multiset(r)[p] == multiset(ps)[p]
  {
    if ps == [] then []
    else
      assert ps == [ps[0]] + ps[1..];
      (if Matches(ps[0], q) then [ps[0]] else []) + FilterProducts(ps[1..], q)
  }

  /** The order the `sort` parameter asks for: `price_low`, `price_high`,
      `name`, and newest first for anything else. */
  function ProductOrder(sort: string): (Product, Product) -> bool {
    if sort == "price_low" then (a: Product, b: Product) => a.price <= b.price
    else if sort == "price_high" then (a: Product, b: Product) => a.price >= b.price
    else if sort == "name" then (a: Product, b: Product) => NameLe(a.name, b.name)
    else (a: Product, b: Product) => a.createdAt >= b.createdAt
  }

  lemma ProductOrderIsPreorder(sort: string)
    ensures TotalPreorder(ProductOrder(sort))
  {
    if sort == "name" {
      var le := ProductOrder(sort);
      forall a: Product, b: Product ensures le(a, b) || le(b, a) {
        NameLeTotal(a.name, b.name);
      }
      forall a: Product, b: Product, c: Product | le(a, b) && le(b, c) ensures le(a, c) {
        NameLeTransitive(a.name, b.name, c.name);
      }
    }
  }

  /** `customer_product_list_view`: the active products passing the
      filters, in the order the `sort` parameter names. */
  function CustomerProductList(ps: seq<Product>, q: ListQuery): (r: seq<Product>)
    ensures forall p :: p in r <==> p in ps && Matches(p, q)
    ensures multiset(r) == multiset(FilterProducts(ps, q))
    ensures Sorted(r, ProductOrder(q.sort))
  {
    ProductOrderIsPreorder(q.sort);
    var f := FilterProducts(ps, q);
    var r := SortBy(f, ProductOrder(q.sort));
    assert forall p :: p in r <==> p in multiset(r);
    assert forall p :: p in f <==> p in multiset(f);
    r
  }

  /** The list is ordered by price ascending, price descending, name, or
      newest first, as `sort` asks. */
  lemma CustomerListOrder(ps: seq<Product>, q: ListQuery)
    ensures var r := CustomerProductList(ps, q);
      && (q.sort == "price_low" ==> forall i, j :: 0 <= i < j < |r| ==> r[i].price <= r[j].price)
      && (q.sort == "price_high" ==> forall i, j :: 0 <= i < j < |r| ==> r[i].price >= r[j].price)
      && (q.sort == "name" ==> forall i, j :: 0 <= i < j < |r| ==> NameLe(r[i].name, r[j].name))
      && (q.sort !in {"price_low", "price_high", "name"} ==>
           forall i, j :: 0 <= i < j < |r| ==> r[i].createdAt >= r[j].createdAt)
  {
    var r := CustomerProductList(ps, q);
    var le := ProductOrder(q.sort);
    assert forall i, j :: 0 <= i < j < |r| ==> le(r[i], r[j]);
  }

  // ---------------------------------------------------------------------
  // Related products
  // ---------------------------------------------------------------------

  /** Active products of `p`'s category other than `p`, in table order. */
  function RelatedCandidates(ps: seq<Product>, p: Product): (r: seq<Product>)
    ensures forall x :: x in r <==> x in ps && x.categoryId == p.categoryId && x.isActive && x.id != p.id
  {
    if ps == [] then []
    else
      var x := ps[0];
      (if x.categoryId == p.categoryId && x.isActive && x.id != p.id then [x] else [])
        + RelatedCandidates(ps[1..], p)
  }

  function NewestFirst(): (Product, Product) -> bool {
    (a: Product, b: Product) => a.createdAt >= b.createdAt
  }

  /** The four newest related products of `p`, or all of them when there
      are fewer. */
  function NewestRelated(ps: seq<Product>, p: Product): (r: seq<Product>)
    ensures |r| <= 4
    ensures forall x :: x in r ==> x in ps && x.isActive && x.id != p.id && x.categoryId == p.categoryId
    ensures Sorted(r, NewestFirst())
    ensures multiset(r) <= multiset(RelatedCandidates(ps, p))
  {
    var le := NewestFirst();
    assert TotalPreorder(le);
    var cands := RelatedCandidates(ps, p);
    var sorted := SortBy(cands, le);
    var shown := Take(sorted, 4);
    forall x | x in shown ensures x in cands {
      assert x in sorted;
      assert x in multiset(cands);
    }
    forall i, j | 0 <= i < j < |shown| ensures le(shown[i], shown[j]) {
      assert shown[i] == sorted[i] && shown[j] == sorted[j];
    }
    shown
  }

  /** The related products shown are newest first, and a related product
      left out is no newer than any shown, which happens only when four are
      shown. */
  lemma NewestRelatedAreNewest(ps: seq<Product>, p: Product)
    ensures var r := NewestRelated(ps, p);
      && (forall i, j :: 0 <= i < j < |r| ==> r[i].createdAt >= r[j].createdAt)
      && forall x ::
           (x in ps && x !in r && x.isActive && x.id != p.id && x.categoryId == p.categoryId) ==>
             |r| == 4 && forall i :: 0 <= i < 4 ==> r[i].createdAt >= x.createdAt
  {
    var r := NewestRelated(ps, p);
    var le := NewestFirst();
    assert forall i, j :: 0 <= i < j < |r| ==> le(r[i], r[j]);
    assert TotalPreorder(le);
    var cands := RelatedCandidates(ps, p);
    var sorted := SortBy(cands, le);
    assert r == Take(sorted, 4);
    forall x | x in ps && x !in r && x.isActive && x.id != p.id && x.categoryId == p.categoryId
      ensures |r| == 4 && forall i :: 0 <= i < 4 ==> r[i].createdAt >= x.createdAt
    {
      assert x in multiset(cands);
      assert x in sorted;
      TakeKeepsTop(sorted, 4, le, x);
    }
  }

  /** `product_detail_view`: the page of an active product shows at most
      four related products, the newest ones. */
  function RelatedProducts(ps: seq<Product>, pid: nat): (r: Result<seq<Product>>)
    ensures r.Err? <==> FindProduct(ps, pid).None? || !FindProduct(ps, pid).value.isActive
    ensures r.Err? ==> r.error == NotFound
    ensures r.Ok? ==> r.value == NewestRelated(ps, FindProduct(ps, pid).value)
    ensures r.Ok? ==> |r.value| <= 4 && multiset(r.value) <= multiset(RelatedCandidates(ps, FindProduct(ps, pid).value))
  {
    match FindProduct(ps, pid)
    case None => Err(NotFound)
    case Some(p) => if !p.isActive then Err(NotFound) else Ok(NewestRelated(ps, p))
  }

  // ---------------------------------------------------------------------
  // Staff views: forms and image flags
  // ---------------------------------------------------------------------

  /** The add and edit product form; an absent or empty field is `None`
      (or the empty string), a ticked check box is `true`. */
  datatype ProductForm = ProductForm(
    name: string,
    description: string,
    price: Option<Cents>,
    category: Option<nat>,
    brand: Option<nat>,
    stock: Option<int>,
    isFeatured: bool,
    isActive: bool)

  predicate HasRequiredFields(f: ProductForm) {
    f.name != "" && f.description != "" && f.price.Some? && f.category.Some? && f.brand.Some?
  }

  /** `stock_quantity or 0`. */
  function StockOf(f: ProductForm): int {
    f.stock.GetOr(0)
  }

  /** A product saved from the form is in stock exactly when the form gave
      a positive stock: a blank stock field saves 0, which is out of stock. */
  lemma FormStockShown(f: ProductForm, id: nat, createdAt: nat)
    requires HasRequiredFields(f) && StockOf(f) >= 0
    ensures IsInStock(FormProduct(f, id, createdAt)) <==> f.stock.Some? && f.stock.value > 0
  {
  }

  /** The row the form describes fits the product table: the price column
      and the non-negative stock column accept it. */
  predicate Storable(f: ProductForm)
    requires HasRequiredFields(f)
  {
    ValidPrice(f.price.value) && StockOf(f) >= 0
  }

  /** Why a submitted product form is refused, in the order the views check:
      a missing required field, then an unknown category or brand, then a
      row the table does not accept; `None` when the form is accepted. */
  function CheckProductForm(f: ProductForm, cs: seq<Category>, bs: seq<Brand>): (e: Option<Error>)
    ensures e.None? <==>
      HasRequiredFields(f) && FindCategory(cs, f.category.value).Some?
      && FindBrand(bs, f.brand.value).Some? && Storable(f)
    ensures !HasRequiredFields(f) ==> e == Some(MissingFields)
    ensures (HasRequiredFields(f) &&
             (FindCategory(cs, f.category.value).None? || FindBrand(bs, f.brand.value).None?)) ==>
        e == Some(InvalidReference)
    ensures e.Some? ==> e.value in {MissingFields, InvalidReference, IntegrityError}
  {
    if !HasRequiredFields(f) then Some(MissingFields)
    else if FindCategory(cs, f.category.value).None? || FindBrand(bs, f.brand.value).None? then
      Some(InvalidReference)
    else if !Storable(f) then Some(IntegrityError)
    else None
  }

  /** The product row an accepted form describes. */
  function FormProduct(f: ProductForm, id: nat, createdAt: nat): Product
    requires HasRequiredFields(f) && StockOf(f) >= 0
  {
    Product(id, f.name, f.description, f.price.value, f.category.value, f.brand.value,
            StockOf(f) as nat, f.isFeatured, f.isActive, createdAt)
  }

  /** `count` uploaded images of product `pid`, numbered from `firstId`;
      the first is primary exactly when `firstPrimary` holds. */
  function NewImages(firstId: nat, pid: nat, count: nat, firstPrimary: bool): (r: seq<ProductImage>)
    ensures |r| == count
    ensures forall k :: 0 <= k < count ==> r[k] == ProductImage(firstId + k, pid, k == 0 && firstPrimary)
  {
    if count == 0 then []
    else NewImages(firstId, pid, count - 1, firstPrimary)
         + [ProductImage(firstId + count - 1, pid, count == 1 && firstPrimary)]
  }

  /** Uploading keeps "at most one primary image per product" as long as the
      first upload is flagged only when the product has no primary yet, and
      then the product has one. */
  lemma UploadKeepsOnePrimary(images: seq<ProductImage>, firstId: nat, pid: nat, count: nat, firstPrimary: bool)
    requires AtMostOnePrimary(images)
    requires firstPrimary ==> !HasPrimary(images, pid)
    ensures AtMostOnePrimary(images + NewImages(firstId, pid, count, firstPrimary))
    ensures count > 0 && firstPrimary ==> HasPrimary(images + NewImages(firstId, pid, count, firstPrimary), pid)
  {
    var added := NewImages(firstId, pid, count, firstPrimary);
    var all := images + added;
    assert forall t :: |images| <= t < |all| ==> all[t] == added[t - |images|];
    assert forall t :: 0 <= t < |images| ==> all[t] == images[t];
    assert forall t :: |images| <= t < |all| && all[t].isPrimary ==>
      t == |images| && firstPrimary && all[t].productId == pid;
    if count > 0 && firstPrimary {
      assert all[|images|] == added[0];
    }
  }

  /** Uploaded images get fresh, increasing ids below the new counter and
      refer to a product the catalog holds. */
  lemma UploadKeepsImageTable(images: seq<ProductImage>, firstId: nat, pid: nat, count: nat, firstPrimary: bool, nextProductId: nat)
    requires forall i :: 0 <= i < |images| ==> images[i].id < firstId
    requires forall i, j :: 0 <= i < j < |images| ==> images[i].id < images[j].id
    requires forall i :: 0 <= i < |images| ==> images[i].productId < nextProductId
    requires pid < nextProductId
    ensures var all := images + NewImages(firstId, pid, count, firstPrimary);
      && (forall i :: 0 <= i < |all| ==> all[i].id < firstId + count)
      && (forall i, j :: 0 <= i < j < |all| ==> all[i].id < all[j].id)
      && (forall i :: 0 <= i < |all| ==> all[i].productId < nextProductId)
  {
    var added := NewImages(firstId, pid, count, firstPrimary);
    var all := images + added;
    assert forall t :: 0 <= t < |all| ==>
      all[t] == if t < |images| then images[t] else ProductImage(firstId + t - |images|, pid, t == |images| && firstPrimary);
  }

  /** The manage-images page's repair: when a product has images but none
      is primary, its first image becomes primary. */
  function AutoFixed(images: seq<ProductImage>, pid: nat): seq<ProductImage> {
    if HasPrimary(images, pid) then images
    else match FirstImageOf(images, pid)
      case None => images
      case Some(k) => images[k := images[k].(isPrimary := true)]
  }

  /** The repair keeps at most one primary image per product and leaves a
      product with images holding a primary one. */
  lemma AutoFixKeepsOnePrimary(images: seq<ProductImage>, pid: nat)
    requires AtMostOnePrimary(images)
    ensures AtMostOnePrimary(AutoFixed(images, pid))
    ensures ImagesOf(images, pid) != [] ==> HasPrimary(AutoFixed(images, pid), pid)
  {
    var fixed := AutoFixed(images, pid);
    if !HasPrimary(images, pid) && FirstImageOf(images, pid).Some? {
      var k := FirstImageOf(images, pid).value;
      assert fixed[k].isPrimary && fixed[k].productId == pid;
      assert forall t :: 0 <= t < |fixed| && t != k ==> fixed[t] == images[t];
      assert forall t :: 0 <= t < |images| && images[t].productId == pid ==> !images[t].isPrimary;
    }
  }

  /** The repair touches no other product's images and does not change
      which image the product shows as its primary one. */
  lemma AutoFixKeepsShownImage(images: seq<ProductImage>, pid: nat)
    ensures forall q :: q != pid ==> ImagesOf(AutoFixed(images, pid), q) == ImagesOf(images, q)
    ensures PrimaryImage(images, pid).Some? <==> PrimaryImage(AutoFixed(images, pid), pid).Some?
    ensures PrimaryImage(images, pid).Some? ==>
      PrimaryImage(AutoFixed(images, pid), pid).value.id == PrimaryImage(images, pid).value.id
  {
    if !HasPrimary(images, pid) && FirstImageOf(images, pid).Some? {
      var k := FirstImageOf(images, pid).value;
      var fixed := images[k := images[k].(isPrimary := true)];
      ImagesOfUpdate(images, k, pid, true);
      ImagesOfFirst(images, pid);
      FirstPrimaryIsFirst(fixed, pid, k);
    }
  }

  /** Changing the flag of one image leaves the image lists of the other
      products as they were. */
  lemma {:induction false} ImagesOfUpdate(images: seq<ProductImage>, k: nat, pid: nat, flag: bool)
    requires k < |images| && images[k].productId == pid
    ensures forall q :: q != pid ==>
      ImagesOf(images[k := images[k].(isPrimary := flag)], q) == ImagesOf(images, q)
  {
    var updated := images[k := images[k].(isPrimary := flag)];
    if k > 0 {
      ImagesOfUpdate(images[1..], k - 1, pid, flag);
      assert updated[1..] == images[1..][k - 1 := images[k].(isPrimary := flag)];
    } else {
      assert updated[1..] == images[1..];
    }
  }

  /** The first image of a product heads its image list. */
  lemma {:induction false} ImagesOfFirst(images: seq<ProductImage>, pid: nat)
    requires FirstImageOf(images, pid).Some?
    ensures ImagesOf(images, pid) != []
    ensures ImagesOf(images, pid)[0] == images[FirstImageOf(images, pid).value]
  {
    if images[0].productId == pid {
      assert ImagesOf(images, pid) == [images[0]] + ImagesOf(images[1..], pid);
    } else {
      ImagesOfFirst(images[1..], pid);
      var k := FirstImageOf(images[1..], pid).value;
      assert FirstImageOf(images, pid) == Some(k + 1);
      assert ImagesOf(images, pid) == ImagesOf(images[1..], pid);
      assert images[1..][k] == images[k + 1];
    }
  }

  /** Once the first image of a product is primary, it is the product's
      primary image. */
  lemma FirstPrimaryIsFirst(images: seq<ProductImage>, pid: nat, k: nat)
    requires k < |images| && images[k].productId == pid && images[k].isPrimary
    requires forall i :: 0 <= i < k ==> images[i].productId != pid
    ensures PrimaryImage(images, pid) == Some(images[k])
  {
    FirstImageOfIsK(images, pid, k);
    ImagesOfFirst(images, pid);
  }

  lemma {:induction false} FirstImageOfIsK(images: seq<ProductImage>, pid: nat, k: nat)
    requires k < |images| && images[k].productId == pid
    requires forall i :: 0 <= i < k ==> images[i].productId != pid
    ensures FirstImageOf(images, pid) == Some(k)
  {
    if k > 0 {
      FirstImageOfIsK(images[1..], pid, k - 1);
    }
  }

  /** The image table facts the catalog keeps survive deleting one row. */
  lemma DeleteKeepsImageTable(images: seq<ProductImage>, k: nat, nextImageId: nat, nextProductId: nat)
    requires k < |images|
    requires forall i :: 0 <= i < |images| ==> images[i].id < nextImageId
    requires forall i, j :: 0 <= i < j < |images| ==> images[i].id < images[j].id
    requires forall i :: 0 <= i < |images| ==> images[i].productId < nextProductId
    requires AtMostOnePrimary(images)
    ensures var rest := images[..k] + images[k + 1..];
      && (forall i :: 0 <= i < |rest| ==> rest[i].id < nextImageId)
      && (forall i, j :: 0 <= i < j < |rest| ==> rest[i].id < rest[j].id)
      && (forall i :: 0 <= i < |rest| ==> rest[i].productId < nextProductId)
      && AtMostOnePrimary(rest)
  {
    var rest := images[..k] + images[k + 1..];
    assert forall i :: 0 <= i < |rest| ==> rest[i] == images[if i < k then i else i + 1];
  }

  /** `ProductImage.objects.filter(product=...).update(is_primary=False)`:
      the table with every image of product `pid` unflagged. */
  function FlagsCleared(images: seq<ProductImage>, pid: nat): (r: seq<ProductImage>)
    ensures |r| == |images|
    ensures forall k :: 0 <= k < |r| ==>
      r[k] == if images[k].productId == pid then images[k].(isPrimary := false) else images[k]
  {
    if images == [] then []
    else
      var x := images[0];
      [if x.productId == pid then x.(isPrimary := false) else x] + FlagsCleared(images[1..], pid)
  }

  /** Changing only flags keeps the ids and owners the catalog checks. */
  lemma SameIdsKeepImageTable(before: seq<ProductImage>, after: seq<ProductImage>, nextImageId: nat, nextProductId: nat)
    requires |after| == |before|
    requires forall k :: 0 <= k < |after| ==> after[k].id == before[k].id && after[k].productId == before[k].productId
    requires forall i :: 0 <= i < |before| ==> before[i].id < nextImageId
    requires forall i, j :: 0 <= i < j < |before| ==> before[i].id < before[j].id
    requires forall i :: 0 <= i < |before| ==> before[i].productId < nextProductId
    ensures forall i :: 0 <= i < |after| ==> after[i].id < nextImageId
    ensures forall i, j :: 0 <= i < j < |after| ==> after[i].id < after[j].id
    ensures forall i :: 0 <= i < |after| ==> after[i].productId < nextProductId
  {
  }

  /** Clearing the flags of product `pid` and then flagging image `chosen`
      leaves it the product's only primary image, and the one it shows;
      ids and owners of all images stay as they were. */
  lemma ReflagFacts(before: seq<ProductImage>, cleared: seq<ProductImage>, pid: nat, chosen: nat)
    requires chosen < |before| == |cleared| && before[chosen].productId == pid
    requires forall i, j :: 0 <= i < j < |before| ==> before[i].id < before[j].id
    requires AtMostOnePrimary(before)
    requires forall k :: 0 <= k < |cleared| ==>
      cleared[k] == if before[k].productId == pid then before[k].(isPrimary := false) else before[k]
    ensures var after := cleared[chosen := cleared[chosen].(isPrimary := true)];
      && (forall k :: 0 <= k < |after| ==> after[k].id == before[k].id && after[k].productId == before[k].productId)
      && AtMostOnePrimary(after)
      && (forall k :: 0 <= k < |after| ==>
            after[k] == if before[k].productId == pid
                        then before[k].(isPrimary := before[k].id == before[chosen].id) else before[k])
      && (forall k :: 0 <= k < |after| && after[k].productId == pid ==>
            (after[k].isPrimary <==> after[k].id == before[chosen].id))
      && PrimaryImage(after, pid) == Some(ProductImage(before[chosen].id, pid, true))
  {
    var after := cleared[chosen := cleared[chosen].(isPrimary := true)];
    var imageId := before[chosen].id;
    forall k | 0 <= k < |after|
      ensures after[k] == if before[k].productId == pid then before[k].(isPrimary := before[k].id == imageId) else before[k]
    {
      if k != chosen {
        if k < chosen { assert before[k].id < before[chosen].id; }
        if k > chosen { assert before[chosen].id < before[k].id; }
      }
    }
    forall i, j | 0 <= i < |after| && 0 <= j < |after| && after[i].isPrimary && after[j].isPrimary
                  && after[i].productId == after[j].productId
      ensures i == j
    {
      if after[i].productId == pid {
        assert before[i].id == imageId == before[j].id;
      } else {
        assert after[i] == before[i] && after[j] == before[j];
      }
    }
    assert after[chosen] == ProductImage(imageId, pid, true);
    SetPrimaryShown(after, pid, imageId, chosen);
  }

  lemma SetPrimaryShown(images: seq<ProductImage>, pid: nat, imageId: nat, chosen: nat)
    requires chosen < |images| && images[chosen] == ProductImage(imageId, pid, true)
    requires forall k :: 0 <= k < |images| && images[k].productId == pid ==>
      (images[k].isPrimary <==> images[k].id == imageId)
    ensures PrimaryImage(images, pid) == Some(ProductImage(imageId, pid, true))
  {
    assert HasPrimary(images, pid);
    var shown := PrimaryImage(images, pid).value;
    var k :| 0 <= k < |images| && images[k] == shown;
  }

  /** A category or brand with this name exists. */
  predicate CategoryNameTaken(cs: seq<Category>, name: string) {
    exists i :: 0 <= i < |cs| && cs[i].name == name
  }

  predicate BrandNameTaken(bs: seq<Brand>, name: string) {
    exists i :: 0 <= i < |bs| && bs[i].name == name
  }

  /** The catalog tables. Rows are kept in primary-key order, which is the
      order an unordered query returns (`.first()` picks the smallest key). */
  class Catalog {
    var categories: seq<Category>
    var brands: seq<Brand>
    var products: seq<Product>
    var images: seq<ProductImage>
    var nextCategoryId: nat
    var nextBrandId: nat
    var nextProductId: nat
    var nextImageId: nat

    /** Every id is below the next one to hand out, image ids grow with
        table order, category and brand names are unique, every price fits
        its column, every image belongs to a product id already handed out,
        and no product has two primary images. */
    ghost predicate Valid()
      reads this
    {
      && (forall i :: 0 <= i < |categories| ==> categories[i].id < nextCategoryId)
      && (forall i :: 0 <= i < |brands| ==> brands[i].id < nextBrandId)
      && (forall i :: 0 <= i < |products| ==> products[i].id < nextProductId)
      && (forall i :: 0 <= i < |images| ==> images[i].id < nextImageId)
      && (forall i, j :: 0 <= i < j < |images| ==> images[i].id < images[j].id)
      && UniqueCategoryNames(categories)
      && UniqueBrandNames(brands)
      && (forall i :: 0 <= i < |products| ==> ValidPrice(products[i].price))
      && (forall i :: 0 <= i < |images| ==> images[i].productId < nextProductId)
      && AtMostOnePrimary(images)
    }

    constructor ()
      ensures Valid()
      ensures categories == [] && brands == [] && products == [] && images == []
    {
      categories, brands, products, images := [], [], [], [];
      nextCategoryId, nextBrandId, nextProductId, nextImageId := 1, 1, 1, 1;
    }

    /** `add_category_view`. */
    method AddCategory(isSuperuser: bool, verb: HttpMethod, name: string, description: string)
      returns (r: Result<nat>)
      requires Valid()
      modifies this
      ensures Valid()
      ensures !isSuperuser ==> r == Err(AccessDenied)
      ensures isSuperuser && verb != Post ==> r == Err(NotSubmitted)
      ensures isSuperuser && verb == Post && name == "" ==> r == Err(MissingFields)
      ensures isSuperuser && verb == Post && name != "" ==>
        if CategoryNameTaken(old(categories), name) then r == Err(IntegrityError)
        else r == Ok(old(nextCategoryId))
      ensures r.Err? ==> unchanged(this)
      ensures r.Ok? ==>
        && categories == old(categories) + [Category(r.value, name, description)]
        && nextCategoryId == old(nextCategoryId) + 1
        && brands == old(brands) && products == old(products) && images == old(images)
        && nextBrandId == old(nextBrandId) && nextProductId == old(nextProductId)
        && nextImageId == old(nextImageId)
    {
      if !isSuperuser { return Err(AccessDenied); }
      if verb != Post { return Err(NotSubmitted); }
      if name == "" { return Err(MissingFields); }
      if CategoryNameTaken(categories, name) { return Err(IntegrityError); }
      r := Ok(nextCategoryId);
      categories := categories + [Category(nextCategoryId, name, description)];
      nextCategoryId := nextCategoryId + 1;
    }

    /** `add_brand_view`. */
    method AddBrand(isSuperuser: bool, verb: HttpMethod, name: string, description: string)
      returns (r: Result<nat>)
      requires Valid()
      modifies this
      ensures Valid()
      ensures !isSuperuser ==> r == Err(AccessDenied)
      ensures isSuperuser && verb != Post ==> r == Err(NotSubmitted)
      ensures isSuperuser && verb == Post && name == "" ==> r == Err(MissingFields)
      ensures isSuperuser && verb == Post && name != "" ==>
        if BrandNameTaken(old(brands), name) then r == Err(IntegrityError)
        else r == Ok(old(nextBrandId))
      ensures r.Err? ==> unchanged(this)
      ensures r.Ok? ==>
        && brands == old(brands) + [Brand(r.value, name, description)]
        && nextBrandId == old(nextBrandId) + 1
        && categories == old(categories) && products == old(products) && images == old(images)
        && nextCategoryId == old(nextCategoryId) && nextProductId == old(nextProductId)
        && nextImageId == old(nextImageId)
    {
      if !isSuperuser { return Err(AccessDenied); }
      if verb != Post { return Err(NotSubmitted); }
      if name == "" { return Err(MissingFields); }
      if BrandNameTaken(brands, name) { return Err(IntegrityError); }
      r := Ok(nextBrandId);
      brands := brands + [Brand(nextBrandId, name, description)];
      nextBrandId := nextBrandId + 1;
    }

    /** The upload loop shared by the add, edit and manage views: one image
        row per uploaded file, the first flagged primary exactly when
        `firstPrimary` holds. */
    method UploadImages(pid: nat, count: nat, firstPrimary: bool)
      requires Valid() && pid < nextProductId
      requires firstPrimary ==> !HasPrimary(images, pid)
      modifies this
      ensures Valid()
      ensures images == old(images) + NewImages(old(nextImageId), pid, count, firstPrimary)
      ensures nextImageId == old(nextImageId) + count
      ensures categories == old(categories) && brands == old(brands) && products == old(products)
      ensures nextCategoryId == old(nextCategoryId) && nextBrandId == old(nextBrandId)
      ensures nextProductId == old(nextProductId)
    {
      ghost var start := nextImageId;
      var i := 0;
      while i < count
        invariant 0 <= i <= count
        invariant nextImageId == start + i
        invariant images == old(images) + NewImages(start, pid, i, firstPrimary)
        invariant categories == old(categories) && brands == old(brands) && products == old(products)
        invariant nextCategoryId == old(nextCategoryId) && nextBrandId == old(nextBrandId)
        invariant nextProductId == old(nextProductId)
      {
        images := images + [ProductImage(nextImageId, pid, i == 0 && firstPrimary)];
        nextImageId := nextImageId + 1;
        i := i + 1;
      }
      UploadKeepsOnePrimary(old(images), start, pid, count, firstPrimary);
      UploadKeepsImageTable(old(images), start, pid, count, firstPrimary, nextProductId);
    }

    /** `add_product_view`: a valid form adds the product, and of its
        uploaded images only the first is primary. */
    method AddProduct(isSuperuser: bool, verb: HttpMethod, form: ProductForm, uploads: nat, now: nat)
      returns (r: Result<nat>)
      requires Valid()
      modifies this
      ensures Valid()
      ensures !isSuperuser ==> r == Err(AccessDenied)
      ensures isSuperuser && verb != Post ==> r == Err(NotSubmitted)
      ensures isSuperuser && verb == Post ==>
        match CheckProductForm(form, old(categories), old(brands))
        case Some(e) => r == Err(e)
        case None => r == Ok(old(nextProductId))
      ensures r.Err? ==> unchanged(this)
      ensures r.Ok? ==> HasRequiredFields(form) && StockOf(form) >= 0
      ensures r.Ok? ==>
        && products == old(products) + [FormProduct(form, r.value, now)]
        && images == old(images) + NewImages(old(nextImageId), r.value, uploads, true)
        && categories == old(categories) && brands == old(brands)
      ensures r.Ok? ==>
        && nextProductId == old(nextProductId) + 1 && nextImageId == old(nextImageId) + uploads
        && nextCategoryId == old(nextCategoryId) && nextBrandId == old(nextBrandId)
    {
      if !isSuperuser { return Err(AccessDenied); }
      if verb != Post { return Err(NotSubmitted); }
      var e := CheckProductForm(form, categories, brands);
      if e.Some? { return Err(e.value); }
      var id := nextProductId;
      products := products + [FormProduct(form, id, now)];
      nextProductId := nextProductId + 1;
      UploadImages(id, uploads, true);
      r := Ok(id);
    }

    /** `edit_product_view`: a valid form overwrites the product's fields
        (keeping its id and creation time), and the first uploaded image is
        primary only when the product had no primary image. */
    method EditProduct(isSuperuser: bool, productId: nat, verb: HttpMethod, form: ProductForm, uploads: nat)
      returns (r: Result<nat>)
      requires Valid()
      modifies this
      ensures Valid()
      ensures !isSuperuser ==> r == Err(AccessDenied)
      ensures isSuperuser && IndexOfProduct(old(products), productId).None? ==> r == Err(NotFound)
      ensures isSuperuser && IndexOfProduct(old(products), productId).Some? && verb != Post ==>
        r == Err(NotSubmitted)
      ensures isSuperuser && IndexOfProduct(old(products), productId).Some? && verb == Post ==>
        match CheckProductForm(form, old(categories), old(brands))
        case Some(e) => r == Err(e)
        case None => r == Ok(productId)
      ensures r.Err? ==> unchanged(this)
      ensures r.Ok? ==> HasRequiredFields(form) && StockOf(form) >= 0
      ensures r.Ok? ==>
        var k := IndexOfProduct(old(products), productId).value;
        && products == old(products)[k := FormProduct(form, productId, old(products)[k].createdAt)]
        && images == old(images)
             + NewImages(old(nextImageId), productId, uploads, !HasPrimary(old(images), productId))
        && categories == old(categories) && brands == old(brands)
      ensures r.Ok? ==>
        && nextProductId == old(nextProductId) && nextImageId == old(nextImageId) + uploads
        && nextCategoryId == old(nextCategoryId) && nextBrandId == old(nextBrandId)
    {
      if !isSuperuser { return Err(AccessDenied); }
      var found := IndexOfProduct(products, productId);
      if found.None? { return Err(NotFound); }
      if verb != Post { return Err(NotSubmitted); }
      var e := CheckProductForm(form, categories, brands);
      if e.Some? { return Err(e.value); }
      var k := found.value;
      products := products[k := FormProduct(form, productId, products[k].createdAt)];
      var hasPrimary := HasPrimary(images, productId);
      UploadImages(productId, uploads, !hasPrimary);
      r := Ok(productId);
    }

    /** `manage_product_images_view`: a POST uploads images (the first is
        primary only when the product had none) and answers the number
        uploaded; any other call repairs a missing primary flag. */
    method ManageImages(isSuperuser: bool, productId: nat, verb: HttpMethod, uploads: nat)
      returns (r: Result<nat>)
      requires Valid()
      modifies this
      ensures Valid()
      ensures !isSuperuser ==> r == Err(AccessDenied)
      ensures isSuperuser && IndexOfProduct(old(products), productId).None? ==> r == Err(NotFound)
      ensures isSuperuser && IndexOfProduct(old(products), productId).Some? ==> r.Ok?
      ensures r.Err? ==> unchanged(this)
      ensures r.Ok? && verb == Post ==>
        && r.value == uploads
        && images == old(images)
             + NewImages(old(nextImageId), productId, uploads, !HasPrimary(old(images), productId))
      ensures r.Ok? && verb != Post ==> r.value == 0 && images == AutoFixed(old(images), productId)
      ensures r.Ok? ==>
        && IndexOfProduct(old(products), productId).Some?
        && categories == old(categories) && brands == old(brands) && products == old(products)
      ensures r.Ok? ==>
        && nextProductId == old(nextProductId) && nextImageId == old(nextImageId) + r.value
        && nextCategoryId == old(nextCategoryId) && nextBrandId == old(nextBrandId)
    {
      if !isSuperuser { return Err(AccessDenied); }
      var found := IndexOfProduct(products, productId);
      if found.None? { return Err(NotFound); }
      if verb == Post {
        var hasPrimary := HasPrimary(images, productId);
        UploadImages(productId, uploads, !hasPrimary);
        return Ok(uploads);
      }
      RepairPrimary(productId);
      r := Ok(0);
    }

    /** The manage view's repair: a product with images but no primary one
        gets its first image flagged. */
    method RepairPrimary(pid: nat)
      requires Valid()
      modifies this
      ensures Valid()
      ensures images == AutoFixed(old(images), pid)
      ensures categories == old(categories) && brands == old(brands) && products == old(products)
      ensures nextCategoryId == old(nextCategoryId) && nextBrandId == old(nextBrandId)
      ensures nextProductId == old(nextProductId) && nextImageId == old(nextImageId)
    {
      AutoFixKeepsOnePrimary(images, pid);
      if !HasPrimary(images, pid) {
        var first := FirstImageOf(images, pid);
        if first.Some? {
          var k := first.value;
          ghost var before := images;
          images := images[k := images[k].(isPrimary := true)];
          assert forall t :: 0 <= t < |images| ==>
            images[t].id == before[t].id && images[t].productId == before[t].productId;
        }
      }
    }

    /** `delete_image_view`: a POST deletes the image and answers its
        product's id. */
    method DeleteImage(isSuperuser: bool, imageId: nat, verb: HttpMethod) returns (r: Result<nat>)
      requires Valid()
      modifies this
      ensures Valid()
      ensures !isSuperuser ==> r == Err(AccessDenied)
      ensures isSuperuser && IndexOfImage(old(images), imageId).None? ==> r == Err(NotFound)
      ensures isSuperuser && IndexOfImage(old(images), imageId).Some? && verb != Post ==>
        r == Err(NotSubmitted)
      ensures isSuperuser && IndexOfImage(old(images), imageId).Some? && verb == Post ==> r.Ok?
      ensures r.Err? ==> unchanged(this)
      ensures r.Ok? ==>
        var k := IndexOfImage(old(images), imageId).value;
        && verb == Post
        && r.value == old(images)[k].productId
        && images == old(images)[..k] + old(images)[k + 1..]
        && categories == old(categories) && brands == old(brands) && products == old(products)
      ensures nextCategoryId == old(nextCategoryId) && nextBrandId == old(nextBrandId)
      ensures nextProductId == old(nextProductId) && nextImageId == old(nextImageId)
    {
      if !isSuperuser { return Err(AccessDenied); }
      var found := IndexOfImage(images, imageId);
      if found.None? { return Err(NotFound); }
      if verb != Post { return Err(NotSubmitted); }
      var k := found.value;
      r := Ok(images[k].productId);
      DeleteKeepsImageTable(images, k, nextImageId, nextProductId);
      images := images[..k] + images[k + 1..];
    }

    /** `set_primary_image_view`: every image of the chosen image's product
        loses its primary flag, then the chosen one is flagged. */
    method SetPrimaryImage(isSuperuser: bool, imageId: nat) returns (r: Result<nat>)
      requires Valid()
      modifies this
      ensures Valid()
      ensures !isSuperuser ==> r == Err(AccessDenied)
      ensures isSuperuser && IndexOfImage(old(images), imageId).None? ==> r == Err(NotFound)
      ensures isSuperuser && IndexOfImage(old(images), imageId).Some? ==> r.Ok?
      ensures r.Err? ==> unchanged(this)
      ensures r.Ok? ==>
        && IndexOfImage(old(images), imageId).Some?
        && r.value == old(images)[IndexOfImage(old(images), imageId).value].productId
        && |images| == |old(images)|
        && (forall k :: 0 <= k < |images| ==>
              images[k] == if old(images)[k].productId == r.value
                           then old(images)[k].(isPrimary := old(images)[k].id == imageId)
                           else old(images)[k])
        && categories == old(categories) && brands == old(brands) && products == old(products)
      ensures r.Ok? ==> forall k :: 0 <= k < |images| && images[k].productId == r.value ==>
        (images[k].isPrimary <==> images[k].id == imageId)
      ensures r.Ok? ==> PrimaryImage(images, r.value) == Some(ProductImage(imageId, r.value, true))
      ensures nextCategoryId == old(nextCategoryId) && nextBrandId == old(nextBrandId)
      ensures nextProductId == old(nextProductId) && nextImageId == old(nextImageId)
    {
      if !isSuperuser { return Err(AccessDenied); }
      var found := IndexOfImage(images, imageId);
      if found.None? { return Err(NotFound); }
      var chosen := found.value;
      var pid := images[chosen].productId;
      MakePrimary(chosen);
      r := Ok(pid);
    }

    /** Clears the flags of the product of image `chosen`, then flags that
        image. */
    method MakePrimary(chosen: nat)
      requires Valid() && chosen < |images|
      modifies this
      ensures Valid()
      ensures var pid := old(images)[chosen].productId;
        && |images| == |old(images)|
        && (forall k :: 0 <= k < |images| ==>
              images[k] == if old(images)[k].productId == pid
                           then old(images)[k].(isPrimary := old(images)[k].id == old(images)[chosen].id)
                           else old(images)[k])
        && (forall k :: 0 <= k < |images| && images[k].productId == pid ==>
              (images[k].isPrimary <==> images[k].id == old(images)[chosen].id))
        && PrimaryImage(images, pid) == Some(ProductImage(old(images)[chosen].id, pid, true))
      ensures categories == old(categories) && brands == old(brands) && products == old(products)
      ensures nextCategoryId == old(nextCategoryId) && nextBrandId == old(nextBrandId)
      ensures nextProductId == old(nextProductId) && nextImageId == old(nextImageId)
    {
      var pid := images[chosen].productId;
      ghost var before := images;
      ClearPrimaryFlags(pid);
      ReflagFacts(before, images, pid, chosen);
      var after := images[chosen := images[chosen].(isPrimary := true)];
      SameIdsKeepImageTable(before, after, nextImageId, nextProductId);
      images := after;
    }

    /** `ProductImage.objects.filter(product=...).update(is_primary=False)`:
        every image of product `pid` loses its primary flag, in one
        statement. */
    method ClearPrimaryFlags(pid: nat)
      modifies this
      ensures |images| == |old(images)|
      ensures forall k :: 0 <= k < |images| ==>
        images[k] == if old(images)[k].productId == pid then old(images)[k].(isPrimary := false) else old(images)[k]
      ensures categories == old(categories) && brands == old(brands) && products == old(products)
      ensures nextCategoryId == old(nextCategoryId) && nextBrandId == old(nextBrandId)
      ensures nextProductId == old(nextProductId) && nextImageId == old(nextImageId)
    {
      images := FlagsCleared(images, pid);
    }
  }
}
