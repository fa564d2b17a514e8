/** The cart views: add a product, view, change a line's quantity, remove a
    line, clear the cart, and the item count shown in the page header. A
    user has at most one cart; a cart holds at most one line per product. */
module CartViews {
  import opened Base
  import opened ProductModels

  /** A cart line: `quantity` of product `productId` in cart `cartId`. */
  datatype CartItem = CartItem(id: nat, cartId: nat, productId: nat, quantity: nat)

  /** What adding to the cart answers: the cart's item count and total. */
  datatype CartSummary = CartSummary(count: int, total: Cents)

  // ---------------------------------------------------------------------
  // Cart contents as functions of the line table
  // ---------------------------------------------------------------------

  /** The lines of cart `cartId`, in the order they were added. */
  function ItemsOfCart(items: seq<CartItem>, cartId: nat): (r: seq<CartItem>)
    ensures forall x :: x in r <==> x in items && x.cartId == cartId
    ensures r == [] <==> forall k :: 0 <= k < |items| ==> items[k].cartId != cartId
    ensures |r| <= |items|
  {
    if items == [] then []
    else
      var last := items[|items| - 1];
      ItemsOfCart(items[..|items| - 1], cartId) + (if last.cartId == cartId then [last] else [])
  }

  /** Line ids increase along the table, so the lines lie in the order they
      were added. */
  predicate LineIdsIncreasing(items: seq<CartItem>) {
    forall i, j :: 0 <= i < j < |items| ==> items[i].id < items[j].id
  }

  /** A cart's lines keep the table's order: their ids still increase. */
  lemma {:induction false} ItemsOfCartKeepsOrder(items: seq<CartItem>, c: nat)
    requires LineIdsIncreasing(items)
    ensures LineIdsIncreasing(ItemsOfCart(items, c))
  {
    if items != [] {
      var init, last := items[..|items| - 1], items[|items| - 1];
      ItemsOfCartKeepsOrder(init, c);
      var r := ItemsOfCart(init, c);
      if last.cartId == c {
        forall i | 0 <= i < |r| ensures r[i].id < last.id {
          assert r[i] in init;
          var j :| 0 <= j < |init| && init[j] == r[i];
          assert items[j] == r[i];
        }
        var rl := r + [last];
        assert ItemsOfCart(items, c) == rl;
        forall i, j | 0 <= i < j < |rl| ensures rl[i].id < rl[j].id {
          if j < |r| { assert rl[i] == r[i] && rl[j] == r[j]; }
        }
      }
    }
  }

  /** `Cart.total_items`: the summed quantities of the lines. */
  function TotalItems(lines: seq<CartItem>): int {
    if lines == [] then 0 else TotalItems(lines[..|lines| - 1]) + lines[|lines| - 1].quantity
  }

  /** `Cart.total_price`: the summed current price times quantity. */
  function TotalPrice(lines: seq<CartItem>, products: seq<Product>): Cents {
    if lines == [] then 0
    else
      var last := lines[|lines| - 1];
      TotalPrice(lines[..|lines| - 1], products) + ProductPrice(products, last.productId) * last.quantity
  }

  /** A cart line holding at least one unit. */
  lemma {:induction false} TotalItemsAtLeastLines(lines: seq<CartItem>)
    requires forall x :: x in lines ==> x.quantity > 0
    ensures TotalItems(lines) >= |lines|
  {
    if lines != [] {
      assert forall x :: x in lines[..|lines| - 1] ==> x in lines;
      TotalItemsAtLeastLines(lines[..|lines| - 1]);
    }
  }

  /** The number of lines of cart `c` for product `p`. */
  function Lines(items: seq<CartItem>, c: nat, p: nat): nat {
    if items == [] then 0
    else
      var last := items[|items| - 1];
      Lines(items[..|items| - 1], c, p) + (if last.cartId == c && last.productId == p then 1 else 0)
  }

  /** The summed quantity of product `p` in cart `c`. */
  function QuantityOf(items: seq<CartItem>, c: nat, p: nat): (r: int)
    ensures Lines(items, c, p) == 0 ==> r == 0
  {
    if items == [] then 0
    else
      var last := items[|items| - 1];
      QuantityOf(items[..|items| - 1], c, p) + (if last.cartId == c && last.productId == p then last.quantity else 0)
  }

  lemma {:induction false} CountsAppend(a: seq<CartItem>, b: seq<CartItem>, c: nat, p: nat)
    ensures Lines(a + b, c, p) == Lines(a, c, p) + Lines(b, c, p)
    ensures QuantityOf(a + b, c, p) == QuantityOf(a, c, p) + QuantityOf(b, c, p)
  {
    if b == [] {
      assert a + b == a;
    } else {
      assert (a + b)[..|a + b| - 1] == a + b[..|b| - 1];
      CountsAppend(a, b[..|b| - 1], c, p);
    }
  }

  /** The counts of one line on its own. */
  lemma CountsOne(x: CartItem, c: nat, p: nat)
    ensures Lines([x], c, p) == if x.cartId == c && x.productId == p then 1 else 0
    ensures QuantityOf([x], c, p) == if x.cartId == c && x.productId == p then x.quantity else 0
  {
    assert [x][..0] == [];
  }

  /** How replacing line `k` by `y` changes the counts. */
  lemma CountsReplace(items: seq<CartItem>, k: nat, y: CartItem, c: nat, p: nat)
    requires k < |items|
    ensures Lines(items[k := y], c, p) == Lines(items, c, p) - Lines([items[k]], c, p) + Lines([y], c, p)
    ensures QuantityOf(items[k := y], c, p)
         == QuantityOf(items, c, p) - QuantityOf([items[k]], c, p) + QuantityOf([y], c, p)
  {
    var pre, post := items[..k], items[k + 1..];
    assert items == pre + [items[k]] + post;
    assert items[k := y] == pre + [y] + post;
    CountsAppend(pre + [items[k]], post, c, p);
    CountsAppend(pre, [items[k]], c, p);
    CountsAppend(pre + [y], post, c, p);
    CountsAppend(pre, [y], c, p);
  }

  /** Deleting line `k` removes its counts. */
  lemma CountsDelete(items: seq<CartItem>, k: nat, c: nat, p: nat)
    requires k < |items|
    ensures Lines(items[..k] + items[k + 1..], c, p) == Lines(items, c, p) - Lines([items[k]], c, p)
  {
    var pre, post := items[..k], items[k + 1..];
    assert items == pre + [items[k]] + post;
    CountsAppend(pre + [items[k]], post, c, p);
    CountsAppend(pre, [items[k]], c, p);
    CountsAppend(pre, post, c, p);
  }

  /** The position of the line of cart `c` for product `p`, if any. */
  function FindLine(items: seq<CartItem>, c: nat, p: nat): (r: Option<nat>)
    ensures r.Some? ==> r.value < |items| && items[r.value].cartId == c && items[r.value].productId == p
    ensures r.Some? ==> forall j :: 0 <= j < r.value ==> !(items[j].cartId == c && items[j].productId == p)
    ensures r.None? ==> forall k :: 0 <= k < |items| ==> !(items[k].cartId == c && items[k].productId == p)
    ensures r.None? <==> Lines(items, c, p) == 0
  {
    if items == [] then None
    else
      var init := items[..|items| - 1];
      var last := items[|items| - 1];
      match FindLine(init, c, p)
      case Some(k) => Some(k)
      case None => if last.cartId == c && last.productId == p then Some(|items| - 1) else None
  }

  /** The lines after adding product `p` to cart `c` once: an existing line
      gains one unit, otherwise a line of one unit is appended. */
  function AddLine(items: seq<CartItem>, c: nat, p: nat, newId: nat): seq<CartItem> {
    match FindLine(items, c, p)
    case Some(k) => items[k := items[k].(quantity := items[k].quantity + 1)]
    case None => items + [CartItem(newId, c, p, 1)]
  }

  /** Adding once gives product `p` exactly one line in cart `c` with one
      more unit, and leaves every other (cart, product) pair as it was. */
  lemma AddLineCounts(items: seq<CartItem>, c: nat, p: nat, newId: nat)
    requires Lines(items, c, p) <= 1
    ensures Lines(AddLine(items, c, p, newId), c, p) == 1
    ensures QuantityOf(AddLine(items, c, p, newId), c, p) == QuantityOf(items, c, p) + 1
    ensures forall c', p' :: (c' != c || p' != p) ==>
      Lines(AddLine(items, c, p, newId), c', p') == Lines(items, c', p') &&
      QuantityOf(AddLine(items, c, p, newId), c', p') == QuantityOf(items, c', p')
  {
    var added := CartItem(newId, c, p, 1);
    match FindLine(items, c, p)
    case Some(k) =>
      var y := items[k].(quantity := items[k].quantity + 1);
      forall c': nat, p': nat ensures
        && Lines(items[k := y], c', p') == Lines(items, c', p') - Lines([items[k]], c', p') + Lines([y], c', p')
        && QuantityOf(items[k := y], c', p') == QuantityOf(items, c', p') - QuantityOf([items[k]], c', p') + QuantityOf([y], c', p')
        && Lines([items[k]], c', p') == Lines([y], c', p')
        && (c' != c || p' != p ==> QuantityOf([items[k]], c', p') == 0 && QuantityOf([y], c', p') == 0)
      {
        CountsReplace(items, k, y, c', p');
        CountsOne(items[k], c', p');
        CountsOne(y, c', p');
      }
      CountsOne(items[k], c, p);
      CountsOne(y, c, p);
    case None =>
      forall c': nat, p': nat ensures
        && Lines(items + [added], c', p') == Lines(items, c', p') + Lines([added], c', p')
        && QuantityOf(items + [added], c', p') == QuantityOf(items, c', p') + QuantityOf([added], c', p')
      {
        CountsAppend(items, [added], c', p');
      }
      forall c': nat, p': nat ensures
        && Lines([added], c', p') == (if c' == c && p' == p then 1 else 0)
        && QuantityOf([added], c', p') == (if c' == c && p' == p then 1 else 0)
      {
        CountsOne(added, c', p');
      }
  }

  /** Every line holds at least one unit and has an id and a cart id handed
      out already, no cart has two lines for one product, and the lines lie
      in the order they were added. */
  ghost predicate LinesValid(items: seq<CartItem>, nextItemId: nat, nextCartId: nat) {
    && LineIdsIncreasing(items)
    && (forall x :: x in items ==> x.id < nextItemId && x.cartId < nextCartId && x.quantity > 0)
    && (forall c, p :: Lines(items, c, p) <= 1)
  }

  /** Adding to a cart handed out already keeps the line table valid. */
  lemma AddLineKeepsValid(items: seq<CartItem>, c: nat, p: nat, newId: nat, nextCartId: nat)
    requires LinesValid(items, newId, nextCartId) && c < nextCartId
    ensures var next := if FindLine(items, c, p).Some? then newId else newId + 1;
      LinesValid(AddLine(items, c, p, newId), next, nextCartId)
  {
    AddLineCounts(items, c, p, newId);
    AddLineKeepsOrder(items, c, p, newId);
    AddLineKeepsBounds(items, c, p, newId, nextCartId);
  }

  /** Deleting line `k` keeps the line table valid. */
  lemma DeleteKeepsValid(items: seq<CartItem>, k: nat, nextItemId: nat, nextCartId: nat)
    requires LinesValid(items, nextItemId, nextCartId) && k < |items|
    ensures LinesValid(items[..k] + items[k + 1..], nextItemId, nextCartId)
  {
    var rest := items[..k] + items[k + 1..];
    forall c, p ensures Lines(rest, c, p) <= 1 {
      CountsDelete(items, k, c, p);
    }
    assert forall x :: x in rest ==> x in items;
    forall i, j | 0 <= i < j < |rest| ensures rest[i].id < rest[j].id {
      var i', j' := if i < k then i else i + 1, if j < k then j else j + 1;
      assert rest[i] == items[i'] && rest[j] == items[j'];
    }
  }

  /** Setting line `k` to a positive quantity keeps the line table valid. */
  lemma SetQuantityKeepsValid(items: seq<CartItem>, k: nat, q: int, nextItemId: nat, nextCartId: nat)
    requires LinesValid(items, nextItemId, nextCartId) && k < |items| && q > 0
    ensures LinesValid(items[k := items[k].(quantity := q)], nextItemId, nextCartId)
  {
    var y := items[k].(quantity := q);
    var updated := items[k := y];
    forall c, p ensures Lines(updated, c, p) <= 1 {
      CountsReplace(items, k, y, c, p);
      CountsOne(items[k], c, p);
      CountsOne(y, c, p);
    }
    assert forall j :: 0 <= j < |updated| ==> updated[j].id == items[j].id;
    forall x | x in updated ensures x.id < nextItemId && x.cartId < nextCartId && x.quantity > 0 {
      var j :| 0 <= j < |updated| && updated[j] == x;
      if j != k { assert items[j] in items; } else { assert items[k] in items; }
    }
  }

  /** Clearing a cart keeps the line table valid. */
  lemma WithoutCartKeepsValid(items: seq<CartItem>, c: nat, nextItemId: nat, nextCartId: nat)
    requires LinesValid(items, nextItemId, nextCartId)
    ensures LinesValid(WithoutCart(items, c), nextItemId, nextCartId)
  {
    WithoutCartFacts(items, c);
    WithoutCartKeepsOrder(items, c);
  }

  /** Adding keeps the lines in the order they were added when the new
      line's id is above every existing one. */
  lemma AddLineKeepsOrder(items: seq<CartItem>, c: nat, p: nat, newId: nat)
    requires LineIdsIncreasing(items)
    requires forall x :: x in items ==> x.id < newId
    ensures LineIdsIncreasing(AddLine(items, c, p, newId))
  {
    var r := AddLine(items, c, p, newId);
    assert |r| >= |items|;
    forall i, j | 0 <= i < j < |r| ensures r[i].id < r[j].id {
      if j < |items| {
        assert r[i].id == items[i].id && r[j].id == items[j].id;
      } else {
        assert items[i] in items && r[i].id == items[i].id;
      }
    }
  }

  /** Adding keeps every line's id and cart id below the next ones to hand
      out, and at least one unit in every line. */
  lemma AddLineKeepsBounds(items: seq<CartItem>, c: nat, p: nat, newId: nat, nextCartId: nat)
    requires c < nextCartId
    requires forall x :: x in items ==> x.id < newId && x.cartId < nextCartId && x.quantity > 0
    ensures var next := if FindLine(items, c, p).Some? then newId else newId + 1;
      forall x :: x in AddLine(items, c, p, newId) ==> x.id < next && x.cartId < nextCartId && x.quantity > 0
  {
    match FindLine(items, c, p)
    case Some(k) =>
      var y := items[k].(quantity := items[k].quantity + 1);
      var updated := items[k := y];
      forall x | x in updated ensures x == y || x in items {
        var j :| 0 <= j < |updated| && updated[j] == x;
        if j != k { assert items[j] in items; }
      }
    case None =>
  }

  /** `n` successive additions of product `p` to cart `c`, with the new-line
      ids the store would hand out. */
  function AddTimes(items: seq<CartItem>, c: nat, p: nat, firstId: nat, n: nat): seq<CartItem> {
    if n == 0 then items else AddLine(AddTimes(items, c, p, firstId, n - 1), c, p, firstId + n - 1)
  }

  /** Adding a product `n` times to a cart without it gives one line of
      quantity `n`, never a duplicate line. */
  lemma {:induction false} RepeatedAdds(items: seq<CartItem>, c: nat, p: nat, firstId: nat, n: nat)
    requires Lines(items, c, p) == 0
    ensures Lines(AddTimes(items, c, p, firstId, n), c, p) == if n == 0 then 0 else 1
    ensures QuantityOf(AddTimes(items, c, p, firstId, n), c, p) == n
  {
    if n > 0 {
      var prev := AddTimes(items, c, p, firstId, n - 1);
      RepeatedAdds(items, c, p, firstId, n - 1);
      AddLineCounts(prev, c, p, firstId + n - 1);
      assert AddTimes(items, c, p, firstId, n) == AddLine(prev, c, p, firstId + n - 1);
    }
  }

  /** The lines left after deleting every line of cart `c`. */
  function WithoutCart(items: seq<CartItem>, c: nat): (r: seq<CartItem>)
    ensures forall x :: x in r <==> x in items && x.cartId != c
  {
    if items == [] then []
    else
      var last := items[|items| - 1];
      WithoutCart(items[..|items| - 1], c) + (if last.cartId != c then [last] else [])
  }

  /** Clearing a cart empties it, keeps every other cart's lines in order,
      and never creates a duplicate line. */
  lemma WithoutCartFacts(items: seq<CartItem>, c: nat)
    ensures ItemsOfCart(WithoutCart(items, c), c) == []
    ensures forall c' :: c' != c ==> ItemsOfCart(WithoutCart(items, c), c') == ItemsOfCart(items, c')
    ensures forall c', p :: Lines(WithoutCart(items, c), c', p) <= Lines(items, c', p)
  {
    var w := WithoutCart(items, c);
    forall k | 0 <= k < |w| ensures w[k].cartId != c {
      assert w[k] in w;
    }
    forall c' | c' != c ensures ItemsOfCart(w, c') == ItemsOfCart(items, c') {
      WithoutCartKeepsOthers(items, c, c');
    }
    forall c', p ensures Lines(w, c', p) <= Lines(items, c', p) {
      WithoutCartLines(items, c, c', p);
    }
  }

  /** Clearing cart `c` keeps the lines of cart `c'` in order. */
  lemma {:induction false} WithoutCartKeepsOthers(items: seq<CartItem>, c: nat, c': nat)
    requires c' != c
    ensures ItemsOfCart(WithoutCart(items, c), c') == ItemsOfCart(items, c')
  {
    if items != [] {
      var init, last := items[..|items| - 1], items[|items| - 1];
      WithoutCartKeepsOthers(init, c, c');
      var w := WithoutCart(init, c);
      var tail := if last.cartId == c' then [last] else [];
      assert ItemsOfCart(items, c') == ItemsOfCart(init, c') + tail;
      if last.cartId != c {
        var wl := w + [last];
        assert WithoutCart(items, c) == wl;
        assert wl[..|wl| - 1] == w && wl[|wl| - 1] == last;
        assert ItemsOfCart(wl, c') == ItemsOfCart(w, c') + tail;
      } else {
        assert WithoutCart(items, c) == w;
      }
    }
  }

  /** Clearing a cart keeps the remaining lines in the order they were
      added. */
  lemma {:induction false} WithoutCartKeepsOrder(items: seq<CartItem>, c: nat)
    requires LineIdsIncreasing(items)
    ensures LineIdsIncreasing(WithoutCart(items, c))
  {
    if items != [] {
      var init, last := items[..|items| - 1], items[|items| - 1];
      WithoutCartKeepsOrder(init, c);
      var r := WithoutCart(init, c);
      if last.cartId != c {
        forall i | 0 <= i < |r| ensures r[i].id < last.id {
          assert r[i] in init;
          var j :| 0 <= j < |init| && init[j] == r[i];
          assert items[j] == r[i];
        }
        var rl := r + [last];
        assert WithoutCart(items, c) == rl;
        forall i, j | 0 <= i < j < |rl| ensures rl[i].id < rl[j].id {
          if j < |r| { assert rl[i] == r[i] && rl[j] == r[j]; }
        }
      }
    }
  }

  /** Clearing a cart never adds a line. */
  lemma {:induction false} WithoutCartLines(items: seq<CartItem>, c: nat, c': nat, p: nat)
    ensures Lines(WithoutCart(items, c), c', p) <= Lines(items, c', p)
  {
    if items != [] {
      var init, last := items[..|items| - 1], items[|items| - 1];
      WithoutCartLines(init, c, c', p);
      var w := WithoutCart(init, c);
      var one := if last.cartId == c' && last.productId == p then 1 else 0;
      assert Lines(items, c', p) == Lines(init, c', p) + one;
      if last.cartId != c {
        var wl := w + [last];
        assert WithoutCart(items, c) == wl;
        assert wl[..|wl| - 1] == w && wl[|wl| - 1] == last;
        assert Lines(wl, c', p) == Lines(w, c', p) + one;
      } else {
        assert WithoutCart(items, c) == w;
      }
    }
  }

  /** Clearing a cart that holds no line of `c` changes nothing. */
  lemma {:induction false} WithoutCartNoLines(items: seq<CartItem>, c: nat)
    requires forall k :: 0 <= k < |items| ==> items[k].cartId != c
    ensures WithoutCart(items, c) == items
  {
    if items != [] {
      var init, last := items[..|items| - 1], items[|items| - 1];
      WithoutCartNoLines(init, c);
      assert WithoutCart(items, c) == WithoutCart(init, c) + [last];
      assert items == init + [last];
    }
  }

  /** Clearing a cleared cart changes nothing. */
  lemma WithoutCartIdempotent(items: seq<CartItem>, c: nat)
    ensures WithoutCart(WithoutCart(items, c), c) == WithoutCart(items, c)
  {
    var w := WithoutCart(items, c);
    assert forall k :: 0 <= k < |w| ==> w[k] in w;
    WithoutCartNoLines(w, c);
  }

  /** The position of line `itemId` when it lies in `user`'s cart. */
  function OwnedIndex(items: seq<CartItem>, carts: map<nat, nat>, user: nat, itemId: nat): (r: Option<nat>)
    ensures r.Some? ==>
      (user in carts && r.value < |items| && items[r.value].id == itemId && items[r.value].cartId == carts[user])
    ensures r.None? ==>
      (user !in carts || forall k :: 0 <= k < |items| ==> !(items[k].id == itemId && items[k].cartId == carts[user]))
  {
    if user !in carts then None
    else OwnedFrom(items, carts[user], itemId, 0)
  }

  function OwnedFrom(items: seq<CartItem>, c: nat, itemId: nat, from: nat): (r: Option<nat>)
    requires from <= |items|
    ensures r.Some? ==> from <= r.value < |items| && items[r.value].id == itemId && items[r.value].cartId == c
    ensures r.None? ==> forall k :: from <= k < |items| ==> !(items[k].id == itemId && items[k].cartId == c)
    decreases |items| - from
  {
    if from == |items| then None
    else if items[from].id == itemId && items[from].cartId == c then Some(from)
    else OwnedFrom(items, c, itemId, from + 1)
  }

  // ---------------------------------------------------------------------
  // The cart tables
  // ---------------------------------------------------------------------

  class CartStore {
    /** The user each cart belongs to, mapped to the cart's id. */
    var carts: map<nat, nat>
    /** All cart lines, in the order they were added. */
    var items: seq<CartItem>
    var nextCartId: nat
    var nextItemId: nat

    /** Cart ids are distinct and below the next one to hand out, and the
        line table is valid. */
    ghost predicate Valid()
      reads this
    {
      && (forall u :: u in carts ==> carts[u] < nextCartId)
      && (forall u, v :: u in carts && v in carts && u != v ==> carts[u] != carts[v])
      && LinesValid(items, nextItemId, nextCartId)
    }

    constructor ()
      ensures Valid() && carts == map[] && items == []
    {
      carts, items := map[], [];
      nextCartId, nextItemId := 1, 1;
    }

    /** The lines of `user`'s cart; none when the user has no cart. */
    function CartLines(user: nat): seq<CartItem>
      reads this
    {
      if user in carts then ItemsOfCart(items, carts[user]) else []
    }

    /** `Cart.objects.get_or_create(user=...)`. */
    method GetOrCreateCart(user: nat) returns (c: nat)
      requires Valid()
      modifies this
      ensures Valid()
      ensures carts == if user in old(carts) then old(carts) else old(carts)[user := old(nextCartId)]
      ensures c == carts[user] && c < nextCartId
      ensures items == old(items) && nextItemId == old(nextItemId)
      ensures user !in old(carts) ==> ItemsOfCart(items, c) == []
      ensures nextCartId == if user in old(carts) then old(nextCartId) else old(nextCartId) + 1
    {
      if user !in carts {
        assert forall k :: 0 <= k < |items| ==> items[k] in items && items[k].cartId != nextCartId;
        carts := carts[user := nextCartId];
        nextCartId := nextCartId + 1;
      }
      c := carts[user];
    }

    /** `add_to_cart`: an active product gains one unit in the user's cart
        (which is created when missing); the answer is the cart's new item
        count and total at current prices. */
    method AddToCart(user: nat, productId: nat, products: seq<Product>) returns (r: Result<CartSummary>)
      requires Valid()
      modifies this
      ensures Valid()
      ensures r.Err? <==> FindProduct(products, productId).None? || !FindProduct(products, productId).value.isActive
      ensures r.Err? ==> r.error == NotFound && unchanged(this)
      ensures r.Ok? ==>
        && carts == (if user in old(carts) then old(carts) else old(carts)[user := old(nextCartId)])
        && items == AddLine(old(items), carts[user], productId, old(nextItemId))
        && r.value == CartSummary(TotalItems(CartLines(user)), TotalPrice(CartLines(user), products))
      ensures r.Ok? ==>
        && (nextCartId == if user in old(carts) then old(nextCartId) else old(nextCartId) + 1)
        && nextItemId == if FindLine(old(items), carts[user], productId).Some? then old(nextItemId)
                         else old(nextItemId) + 1
    {
      var product := FindProduct(products, productId);
      if product.None? || !product.value.isActive {
        return Err(NotFound);
      }
      var c := GetOrCreateCart(user);
      AddOne(c, productId);
      r := Ok(CartSummary(TotalItems(CartLines(user)), TotalPrice(CartLines(user), products)));
    }

    /** `CartItem.objects.get_or_create(cart=..., product=...)` followed by
        the increment: the cart's line for the product gains one unit, or a
        line of one unit is created. */
    method AddOne(c: nat, productId: nat)
      requires Valid() && c < nextCartId
      modifies this
      ensures Valid()
      ensures items == AddLine(old(items), c, productId, old(nextItemId))
      ensures carts == old(carts) && nextCartId == old(nextCartId)
      ensures nextItemId == if FindLine(old(items), c, productId).Some? then old(nextItemId)
                           else old(nextItemId) + 1
    {
      ghost var added := AddLine(items, c, productId, nextItemId);
      AddLineKeepsValid(items, c, productId, nextItemId, nextCartId);
      match FindLine(items, c, productId) {
        case Some(k) =>
          items := items[k := items[k].(quantity := items[k].quantity + 1)];
        case None =>
          items := items + [CartItem(nextItemId, c, productId, 1)];
          nextItemId := nextItemId + 1;
      }
      assert items == added;
    }

    /** `view_cart`: the user's lines, newest first; a missing cart is
        created empty. */
    method ViewCart(user: nat) returns (shown: seq<CartItem>)
      requires Valid()
      modifies this
      ensures Valid()
      ensures carts == if user in old(carts) then old(carts) else old(carts)[user := old(nextCartId)]
      ensures items == old(items)
      ensures shown == Reverse(CartLines(user))
      ensures forall i, j :: 0 <= i < j < |shown| ==> shown[i].id > shown[j].id
      ensures user !in old(carts) ==> shown == []
      ensures (nextCartId == if user in old(carts) then old(nextCartId) else old(nextCartId) + 1) && nextItemId == old(nextItemId)
    {
      var c := GetOrCreateCart(user);
      ItemsOfCartKeepsOrder(items, c);
      shown := Reverse(ItemsOfCart(items, c));
    }

    /** `update_cart_item`: a POST sets the line's quantity (the form's
        default is 1), and a quantity of zero or less deletes the line. */
    method UpdateCartItem(user: nat, itemId: nat, verb: HttpMethod, quantity: Option<int>)
      returns (r: Result<()>)
      requires Valid()
      modifies this
      ensures Valid()
      ensures OwnedIndex(old(items), old(carts), user, itemId).None? ==> r == Err(NotFound)
      ensures OwnedIndex(old(items), old(carts), user, itemId).Some? ==>
        r == if verb == Post then Ok(()) else Err(NotSubmitted)
      ensures r.Err? ==> unchanged(this)
      ensures r.Ok? ==>
        var k := OwnedIndex(old(items), old(carts), user, itemId).value;
        var q := quantity.GetOr(1);
        && carts == old(carts)
        && items == if q <= 0 then old(items)[..k] + old(items)[k + 1..]
                    else old(items)[k := old(items)[k].(quantity := q)]
      ensures nextCartId == old(nextCartId) && nextItemId == old(nextItemId)
    {
      var found := OwnedIndex(items, carts, user, itemId);
      if found.None? { return Err(NotFound); }
      if verb != Post { return Err(NotSubmitted); }
      var k := found.value;
      var q := quantity.GetOr(1);
      if q <= 0 {
        DeleteLine(k);
      } else {
        SetQuantityKeepsValid(items, k, q, nextItemId, nextCartId);
        items := items[k := items[k].(quantity := q)];
      }
      r := Ok(());
    }

    /** `remove_from_cart`: deletes the line when it is in the user's cart. */
    method RemoveFromCart(user: nat, itemId: nat) returns (r: Result<()>)
      requires Valid()
      modifies this
      ensures Valid()
      ensures r.Err? <==> OwnedIndex(old(items), old(carts), user, itemId).None?
      ensures r.Err? ==> r.error == NotFound && unchanged(this)
      ensures r.Ok? ==>
        var k := OwnedIndex(old(items), old(carts), user, itemId).value;
        carts == old(carts) && items == old(items)[..k] + old(items)[k + 1..]
      ensures nextCartId == old(nextCartId) && nextItemId == old(nextItemId)
    {
      var found := OwnedIndex(items, carts, user, itemId);
      if found.None? { return Err(NotFound); }
      DeleteLine(found.value);
      r := Ok(());
    }

    /** Deletes line `k`. */
    method DeleteLine(k: nat)
      requires Valid() && k < |items|
      modifies this
      ensures Valid()
      ensures items == old(items)[..k] + old(items)[k + 1..]
      ensures carts == old(carts) && nextCartId == old(nextCartId) && nextItemId == old(nextItemId)
    {
      DeleteKeepsValid(items, k, nextItemId, nextCartId);
      items := items[..k] + items[k + 1..];
    }

    /** `cart.items.all().delete()`: deletes every line of cart `c` in one
        statement, keeping the other lines in order. */
    method DeleteLinesOf(c: nat)
      requires Valid()
      modifies this
      ensures Valid()
      ensures items == WithoutCart(old(items), c)
      ensures carts == old(carts) && nextCartId == old(nextCartId) && nextItemId == old(nextItemId)
    {
      WithoutCartKeepsValid(items, c, nextItemId, nextCartId);
      items := WithoutCart(items, c);
    }

    /** `clear_cart`: deletes every line of the user's cart; a user without
        a cart gets not-found. */
    method ClearCart(user: nat) returns (r: Result<()>)
      requires Valid()
      modifies this
      ensures Valid()
      ensures r.Err? <==> user !in old(carts)
      ensures r.Err? ==> r.error == NotFound && unchanged(this)
      ensures r.Ok? ==> carts == old(carts) && items == WithoutCart(old(items), carts[user])
      ensures r.Ok? ==> CartLines(user) == []
      ensures nextCartId == old(nextCartId) && nextItemId == old(nextItemId)
    {
      if user !in carts { return Err(NotFound); }
      DeleteLinesOf(carts[user]);
      WithoutCartFacts(old(items), carts[user]);
      r := Ok(());
    }

    /** `cart_count`: the summed quantities of the user's cart, 0 without a
        cart; never less than the number of lines. */
    function CartCount(user: nat): (n: int)
      reads this
      requires Valid()
      ensures user !in carts ==> n == 0
      ensures n == TotalItems(CartLines(user))
      ensures n >= |CartLines(user)|
    {
      assert forall x :: x in CartLines(user) ==> x.quantity > 0;
      TotalItemsAtLeastLines(CartLines(user));
      TotalItems(CartLines(user))
    }
  }
}
