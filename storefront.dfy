/**
 * The storefront's local logic (components/Storefront.tsx): the cart, the
 * category filter of the catalog, and the add-product form. Every operation
 * builds a new value from the old one, as the component's state setters do.
 */
module Storefront {
  import opened Types
  import opened Seqs

  // ---------------------------------------------------------------- cart

  /** Some line of the cart is for product `id` (`prev.find(item => item.id === id)`). */
  predicate InCart(cart: seq<CartItem>, id: string) {
    exists i :: 0 <= i < |cart| && cart[i].product.id == id
  }

  /** No two lines are for the same product. */
  predicate UniqueIds(cart: seq<CartItem>) {
    forall i, j :: 0 <= i < j < |cart| ==> cart[i].product.id != cart[j].product.id
  }

  /** The cart invariant: one line per product, and every line holds at least one unit. */
  predicate ValidCart(cart: seq<CartItem>) {
    UniqueIds(cart) && forall i :: 0 <= i < |cart| ==> cart[i].quantity >= 1
  }

  /** The per-line step of the `map` in `addToCart`. */
  function Bump(item: CartItem, id: string): CartItem {
    if item.product.id == id then item.(quantity := item.quantity + 1) else item
  }

  /** `prev.map(...)` in `addToCart`: every line for `id` gains one unit. */
  function Increment(cart: seq<CartItem>, id: string): (r: seq<CartItem>)
    ensures |r| == |cart|
    ensures forall i :: 0 <= i < |cart| ==> r[i] == Bump(cart[i], id)
  {
    if cart == [] then [] else [Bump(cart[0], id)] + Increment(cart[1..], id)
  }

  /**
   * `addToCart`: a product already in the cart gets one more unit on its line
   * (the line keeps the product snapshot it was created with); otherwise a new
   * line with one unit is appended.
   */
  function AddToCart(cart: seq<CartItem>, p: Product): (r: seq<CartItem>)
    ensures InCart(r, p.id)
    ensures InCart(cart, p.id) ==>
      && |r| == |cart|
      && forall i :: 0 <= i < |cart| ==>
           && r[i].product == cart[i].product
           && r[i].quantity == cart[i].quantity + (if cart[i].product.id == p.id then 1 else 0)
    ensures !InCart(cart, p.id) ==>
      |r| == |cart| + 1 && r[..|cart|] == cart && r[|cart|] == CartItem(p, 1)
  {
    if InCart(cart, p.id) then
      var r := Increment(cart, p.id);
      assert exists i :: 0 <= i < |cart| && r[i].product.id == p.id;
      r
    else
      var r := cart + [CartItem(p, 1)];
      assert r[|cart|].product.id == p.id;
      r
  }

  /** The predicate of the `filter` in `removeFromCart`. */
  function KeepOther(id: string): CartItem -> bool {
    (item: CartItem) => item.product.id != id
  }

  /** `removeFromCart`: drops the lines for `id` and keeps the others, in order. */
  function RemoveFromCart(cart: seq<CartItem>, id: string): (r: seq<CartItem>)
    ensures !InCart(r, id)
    ensures IsSubsequence(r, cart)
    ensures forall x :: x in r <==> x in cart && x.product.id != id
    ensures forall x :: multiset(r)[x] == if x.product.id == id then 0 else multiset(cart)[x]
    ensures !InCart(cart, id) ==> r == cart
  {
    FilterIsSubsequence(cart, KeepOther(id));
    FilterMembers(cart, KeepOther(id));
    Filter(cart, KeepOther(id))
  }

  /** The amount one line contributes to the total. */
  function LineTotal(item: CartItem): int {
    item.product.price * item.quantity
  }

  function Quantity(item: CartItem): int {
    item.quantity
  }

  /** The sum of `weight` over the lines: the reference the folds are measured against. */
  function SumBy(cart: seq<CartItem>, weight: CartItem -> int): int {
    if cart == [] then 0 else weight(cart[0]) + SumBy(cart[1..], weight)
  }

  /**
   * `cart.reduce((sum, item) => sum + weight(item), acc)`: a left fold, which
   * comes to the start value plus the sum of the weights.
   */
  function Reduce(acc: int, cart: seq<CartItem>, weight: CartItem -> int): (r: int)
    ensures r == acc + SumBy(cart, weight)
    decreases |cart|
  {
    if cart == [] then acc else Reduce(acc + weight(cart[0]), cart[1..], weight)
  }

  lemma {:induction false} SumByAppend(a: seq<CartItem>, b: seq<CartItem>, weight: CartItem -> int)
    ensures SumBy(a + b, weight) == SumBy(a, weight) + SumBy(b, weight)
  {
    if a == [] {
      assert a + b == b;
    } else {
      assert (a + b)[1..] == a[1..] + b;
      SumByAppend(a[1..], b, weight);
    }
  }

  /** `cartTotal`: the sum of price times quantity over the lines; 0 for the empty cart. */
  function CartTotal(cart: seq<CartItem>): (r: int)
    ensures r == SumBy(cart, LineTotal)
    ensures cart == [] ==> r == 0
  {
    Reduce(0, cart, LineTotal)
  }

  /** With every quantity at least 1, the quantities add up to at least the number of lines. */
  lemma {:induction false} QuantitiesAtLeastLines(cart: seq<CartItem>)
    ensures (forall i :: 0 <= i < |cart| ==> cart[i].quantity >= 1) ==> SumBy(cart, Quantity) >= |cart|
  {
    if cart != [] {
      QuantitiesAtLeastLines(cart[1..]);
      if forall i :: 0 <= i < |cart| ==> cart[i].quantity >= 1 {
        assert forall i :: 0 <= i < |cart[1..]| ==> cart[1..][i].quantity >= 1 by {
          forall i | 0 <= i < |cart[1..]| ensures cart[1..][i].quantity >= 1 { assert cart[1..][i] == cart[i + 1]; }
        }
      }
    }
  }

  /** The number on the cart badge: the sum of the quantities. */
  function BadgeCount(cart: seq<CartItem>): (r: int)
    ensures r == SumBy(cart, Quantity)
    ensures ValidCart(cart) ==> r >= |cart|
  {
    QuantitiesAtLeastLines(cart);
    Reduce(0, cart, Quantity)
  }

  /** The badge is drawn only when the cart has lines. */
  function Badge(cart: seq<CartItem>): (r: Option<int>)
    ensures r.Some? <==> |cart| > 0
    ensures r.Some? ==> r.value == SumBy(cart, Quantity)
    ensures ValidCart(cart) && r.Some? ==> r.value >= |cart| >= 1
  {
    if |cart| > 0 then Some(BadgeCount(cart)) else None
  }

  /** Incrementing the one line for `id` changes a sum by that line's change alone. */
  lemma {:induction false} IncrementSum(cart: seq<CartItem>, id: string, i: nat, weight: CartItem -> int)
    requires UniqueIds(cart)
    requires i < |cart| && cart[i].product.id == id
    ensures SumBy(Increment(cart, id), weight)
         == SumBy(cart, weight) - weight(cart[i]) + weight(Bump(cart[i], id))
  {
    var r := Increment(cart, id);
    assert r[1..] == Increment(cart[1..], id);
    if i == 0 {
      assert Increment(cart[1..], id) == cart[1..];
    } else {
      assert Bump(cart[0], id) == cart[0];
      IncrementSum(cart[1..], id, i - 1, weight);
    }
  }

  /**
   * Adding a product raises the total by the price of the line it lands on: the
   * price recorded on the existing line, or the product's own price for a new line.
   */
  lemma AddToCartTotal(cart: seq<CartItem>, p: Product)
    requires UniqueIds(cart)
    ensures forall i :: 0 <= i < |cart| && cart[i].product.id == p.id ==>
      CartTotal(AddToCart(cart, p)) == CartTotal(cart) + cart[i].product.price
    ensures !InCart(cart, p.id) ==> CartTotal(AddToCart(cart, p)) == CartTotal(cart) + p.price
  {
    forall i | 0 <= i < |cart| && cart[i].product.id == p.id
      ensures CartTotal(AddToCart(cart, p)) == CartTotal(cart) + cart[i].product.price
    {
      IncrementSum(cart, p.id, i, LineTotal);
      var q := cart[i].quantity;
      var price := cart[i].product.price;
      assert LineTotal(Bump(cart[i], p.id)) == price * (q + 1) == price * q + price;
    }
    if !InCart(cart, p.id) {
      SumByAppend(cart, [CartItem(p, 1)], LineTotal);
      assert [CartItem(p, 1)][1..] == [];
    }
  }

  /** Each `addToCart` raises the badge count by exactly one. */
  lemma AddToCartBadge(cart: seq<CartItem>, p: Product)
    requires UniqueIds(cart)
    ensures BadgeCount(AddToCart(cart, p)) == BadgeCount(cart) + 1
  {
    if InCart(cart, p.id) {
      var i :| 0 <= i < |cart| && cart[i].product.id == p.id;
      IncrementSum(cart, p.id, i, Quantity);
    } else {
      SumByAppend(cart, [CartItem(p, 1)], Quantity);
      assert [CartItem(p, 1)][1..] == [];
    }
  }

  /** Removing the one line for `id` lowers a sum by that line's weight. */
  lemma {:induction false} RemoveSum(cart: seq<CartItem>, id: string, i: nat, weight: CartItem -> int)
    requires UniqueIds(cart)
    requires i < |cart| && cart[i].product.id == id
    ensures |RemoveFromCart(cart, id)| == |cart| - 1
    ensures SumBy(RemoveFromCart(cart, id), weight) == SumBy(cart, weight) - weight(cart[i])
  {
    if i == 0 {
      assert RemoveFromCart(cart, id) == RemoveFromCart(cart[1..], id);
      assert !InCart(cart[1..], id);
    } else {
      var rest := RemoveFromCart(cart[1..], id);
      assert RemoveFromCart(cart, id) == [cart[0]] + rest;
      assert ([cart[0]] + rest)[1..] == rest;
      RemoveSum(cart[1..], id, i - 1, weight);
    }
  }

  /** Removing a product's line lowers the total by that line's amount and the badge by its quantity. */
  lemma RemoveFromCartTotal(cart: seq<CartItem>, id: string)
    requires UniqueIds(cart)
    ensures forall i :: 0 <= i < |cart| && cart[i].product.id == id ==>
      && |RemoveFromCart(cart, id)| == |cart| - 1
      && CartTotal(RemoveFromCart(cart, id)) == CartTotal(cart) - LineTotal(cart[i])
      && BadgeCount(RemoveFromCart(cart, id)) == BadgeCount(cart) - cart[i].quantity
    ensures !InCart(cart, id) ==> CartTotal(RemoveFromCart(cart, id)) == CartTotal(cart)
  {
    forall i | 0 <= i < |cart| && cart[i].product.id == id
      ensures && |RemoveFromCart(cart, id)| == |cart| - 1
              && CartTotal(RemoveFromCart(cart, id)) == CartTotal(cart) - LineTotal(cart[i])
              && BadgeCount(RemoveFromCart(cart, id)) == BadgeCount(cart) - cart[i].quantity
    {
      RemoveSum(cart, id, i, LineTotal);
      RemoveSum(cart, id, i, Quantity);
    }
  }

  lemma AddToCartValid(cart: seq<CartItem>, p: Product)
    requires ValidCart(cart)
    ensures ValidCart(AddToCart(cart, p))
  {
  }

  lemma {:induction false} RemoveFromCartUnique(cart: seq<CartItem>, id: string)
    requires UniqueIds(cart)
    ensures UniqueIds(RemoveFromCart(cart, id))
  {
    if cart != [] {
      var rest := RemoveFromCart(cart[1..], id);
      assert UniqueIds(cart[1..]);
      RemoveFromCartUnique(cart[1..], id);
      if cart[0].product.id != id {
        assert RemoveFromCart(cart, id) == [cart[0]] + rest;
        forall j | 0 <= j < |rest| ensures rest[j].product.id != cart[0].product.id {
          assert rest[j] in cart[1..];
        }
      } else {
        assert RemoveFromCart(cart, id) == rest;
      }
    }
  }

  lemma RemoveFromCartValid(cart: seq<CartItem>, id: string)
    requires ValidCart(cart)
    ensures ValidCart(RemoveFromCart(cart, id))
  {
    RemoveFromCartUnique(cart, id);
    var r := RemoveFromCart(cart, id);
    forall i | 0 <= i < |r| ensures r[i].quantity >= 1 {
      assert r[i] in cart;
    }
  }

  /** A click in the storefront that changes the cart. */
  datatype CartAction = Add(product: Product) | Remove(id: string)

  function Apply(cart: seq<CartItem>, action: CartAction): seq<CartItem> {
    match action
    case Add(p) => AddToCart(cart, p)
    case Remove(id) => RemoveFromCart(cart, id)
  }

  function ApplyAll(cart: seq<CartItem>, actions: seq<CartAction>): seq<CartItem>
    decreases |actions|
  {
    if actions == [] then cart else ApplyAll(Apply(cart, actions[0]), actions[1..])
  }

  /** Under any sequence of adds and removes, ids stay unique and quantities stay at least 1. */
  lemma {:induction false} ApplyAllValid(cart: seq<CartItem>, actions: seq<CartAction>)
    requires ValidCart(cart)
    ensures ValidCart(ApplyAll(cart, actions))
    decreases |actions|
  {
    if actions != [] {
      match actions[0] {
        case Add(p) => AddToCartValid(cart, p);
        case Remove(id) => RemoveFromCartValid(cart, id);
      }
      ApplyAllValid(Apply(cart, actions[0]), actions[1..]);
    }
  }

  // ------------------------------------------------------ catalog filter

  function InCategory(c: string): Product -> bool {
    (p: Product) => p.categoryId == Some(c)
  }

  /**
   * `filteredProducts`: with no selection (JavaScript-falsy, so also the empty
   * string) the whole list; otherwise the products of that category, in order.
   */
  function FilteredProducts(products: seq<Product>, selected: Option<string>): (r: seq<Product>)
    ensures !Truthy(selected) ==> r == products
    ensures Truthy(selected) ==>
      && IsSubsequence(r, products)
      && (forall p :: p in r <==> p in products && p.categoryId == selected)
      && (forall p :: multiset(r)[p] == if p.categoryId == selected then multiset(products)[p] else 0)
  {
    if Truthy(selected) then
      FilterIsSubsequence(products, InCategory(selected.value));
      FilterMembers(products, InCategory(selected.value));
      Filter(products, InCategory(selected.value))
    else
      products
  }

  // ------------------------------------------------ store state and form

  /** The add-product form; every field is the text typed into it. */
  datatype ProductForm = ProductForm(
    name: string,
    description: string,
    price: string,
    stock: string,
    imageUrl: string,
    categoryId: string)

  const EmptyForm := ProductForm("", "", "", "", "", "")

  /** The component's state hooks. */
  datatype StoreState = StoreState(
    products: seq<Product>,
    categories: seq<Category>,
    selectedCategory: Option<string>,
    cart: seq<CartItem>,
    isCartOpen: bool,
    isAddProductOpen: bool,
    loading: bool,
    form: ProductForm)

  const InitialStore := StoreState([], [], None, [], false, false, true, EmptyForm)

  /**
   * The first render: an empty, valid cart, an empty listing and an empty form;
   * the mount-time fetch then ends loading whatever it returns.
   */
  lemma InitialStoreFacts(prodData: Option<seq<Product>>, catData: Option<seq<Category>>)
    ensures ValidCart(InitialStore.cart) && CartTotal(InitialStore.cart) == 0
    ensures Badge(InitialStore.cart) == None
    ensures FilteredProducts(InitialStore.products, InitialStore.selectedCategory) == []
    ensures InitialStore.loading && InitialStore.form == EmptyForm
    ensures !FetchComplete(InitialStore, prodData, catData).loading
  {
  }

  /** `categories[0]?.id || ''`: the first category's id, or the empty string when there is none. */
  function DefaultCategory(categories: seq<Category>): (r: string)
    ensures r == if |categories| > 0 then categories[0].id else ""
  {
    if |categories| > 0 && categories[0].id != "" then categories[0].id else ""
  }

  /**
   * The end of `fetchData`: each query that returned rows replaces its list
   * wholesale; returned categories also preselect the first one in the form.
   */
  function FetchComplete(s: StoreState, prodData: Option<seq<Product>>, catData: Option<seq<Category>>): (r: StoreState)
    ensures !r.loading
    ensures r.products == if prodData.Some? then prodData.value else s.products
    ensures r.categories == if catData.Some? then catData.value else s.categories
    ensures r.form == if catData.Some? && |catData.value| > 0
                      then s.form.(categoryId := catData.value[0].id) else s.form
    ensures r.cart == s.cart && r.selectedCategory == s.selectedCategory
    ensures r.isCartOpen == s.isCartOpen && r.isAddProductOpen == s.isAddProductOpen
  {
    var s1 := if prodData.Some? then s.(products := prodData.value) else s;
    var s2 := match catData
      case Some(rows) =>
        var withRows := s1.(categories := rows);
        if |rows| > 0 then withRows.(form := withRows.form.(categoryId := rows[0].id)) else withRows
      case None => s1;
    s2.(loading := false)
  }

  /** What the insert of `handleAddProduct` reports. */
  datatype InsertOutcome = Inserted | InsertFailed(message: string)

  /**
   * `handleAddProduct` after its insert: on error the state is left as it was
   * (the alert is not modelled); on success the form is cleared with the first
   * category preselected, the dialog closes and a re-fetch starts.
   */
  function HandleAddProduct(s: StoreState, outcome: InsertOutcome): (r: StoreState)
    ensures outcome.InsertFailed? ==> r == s
    ensures outcome.Inserted? ==>
      && r.form == EmptyForm.(categoryId := DefaultCategory(s.categories))
      && !r.isAddProductOpen && r.loading
      && r.products == s.products && r.categories == s.categories
      && r.cart == s.cart && r.selectedCategory == s.selectedCategory && r.isCartOpen == s.isCartOpen
  {
    match outcome
    case InsertFailed(_) => s
    case Inserted =>
      s.(form := ProductForm("", "", "", "", "", DefaultCategory(s.categories)),
         isAddProductOpen := false,
         loading := true)
  }

  /** The click handler of "ADD TO BAG": the cart changes and the drawer opens. */
  function OnAddToCart(s: StoreState, p: Product): (r: StoreState)
    ensures r.cart == AddToCart(s.cart, p) && r.isCartOpen
    ensures r.(cart := s.cart, isCartOpen := s.isCartOpen) == s
  {
    s.(cart := AddToCart(s.cart, p), isCartOpen := true)
  }

  /**
   * A successful add followed by the re-fetch it starts leaves an empty form
   * preselecting the first category of the newest list, or of the old list when
   * the re-fetch returned none.
   */
  lemma AddThenFetchForm(s: StoreState, prodData: Option<seq<Product>>, catData: Option<seq<Category>>)
    ensures var r := FetchComplete(HandleAddProduct(s, Inserted), prodData, catData);
      && r.form.name == "" && r.form.description == "" && r.form.price == ""
      && r.form.stock == "" && r.form.imageUrl == ""
      && r.form.categoryId == (if catData.Some? && |catData.value| > 0 then catData.value[0].id
                               else DefaultCategory(s.categories))
      && !r.loading && !r.isAddProductOpen && r.cart == s.cart
  {
  }
}
