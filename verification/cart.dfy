/**
 * The storefront's shopping cart (Store.tsx): the `cart` and `isCartOpen`
 * state cells, the `addToCart` / `removeFromCart` updaters, the derived
 * `cartTotal` and `cartCount`, and the view rules that depend on them.
 *
 * Prices are whole numbers here; the updaters are pure functions on the
 * list of items, and the class `Store` holds the two state cells.
 */
module Cart {
  import opened Optional

  /** A catalogue entry. Only `id` and `price` take part in the cart logic. */
  datatype Product = Product(
    id: string,
    title: string,
    description: string,
    price: int,
    image: string,
    tags: seq<string>)

  /** A cart line: the fields of a product plus how many copies are selected. */
  datatype CartItem = CartItem(product: Product, quantity: int)

  /** Target of the checkout anchor: its `href` and its `target`. */
  datatype Link = Link(href: string, target: string)

  const CheckoutUrl: string := "https://buy.stripe.com/test_eVq5kCfUW55C0LXduf4ZG00"

  // ---------------------------------------------------------------------
  // Invariants of a cart
  // ---------------------------------------------------------------------

  predicate HasItem(cart: seq<CartItem>, id: string) {
    exists i :: 0 <= i < |cart| && cart[i].product.id == id
  }

  /** At most one line per product id. */
  predicate UniqueIds(cart: seq<CartItem>) {
    forall i, j :: 0 <= i < j < |cart| ==> cart[i].product.id != cart[j].product.id
  }

  /** The cart invariant: one line per product id, every quantity at least 1. */
  predicate WellFormed(cart: seq<CartItem>) {
    UniqueIds(cart) && forall i :: 0 <= i < |cart| ==> cart[i].quantity >= 1
  }

  // ---------------------------------------------------------------------
  // The updaters
  // ---------------------------------------------------------------------

  /** `prev.find(item => item.id === id)`: the first line with that id, if any. */
  function FindItem(cart: seq<CartItem>, id: string): (r: Option<CartItem>)
    ensures r.Some? <==> HasItem(cart, id)
    ensures r.Some? ==> r.value in cart && r.value.product.id == id
  {
    if cart == [] then None
    else if cart[0].product.id == id then Some(cart[0])
    else
      assert forall i :: 1 <= i < |cart| ==> cart[i] == cart[1..][i - 1];
      FindItem(cart[1..], id)
  }

  /** The `prev.map(...)` branch of `addToCart`: every line with that id gets one more copy. */
  function Incremented(cart: seq<CartItem>, id: string): seq<CartItem> {
    seq(|cart|, i requires 0 <= i < |cart| =>
      if cart[i].product.id == id then cart[i].(quantity := cart[i].quantity + 1) else cart[i])
  }

  /** The updater passed to `setCart` by `addToCart`. */
  function Added(cart: seq<CartItem>, p: Product): seq<CartItem> {
    if FindItem(cart, p.id).Some? then Incremented(cart, p.id)
    else cart + [CartItem(p, 1)]
  }

  /** The updater passed to `setCart` by `removeFromCart`: `prev.filter(item => item.id !== id)`. */
  function Removed(cart: seq<CartItem>, id: string): (r: seq<CartItem>)
    ensures |r| <= |cart|
    ensures !HasItem(r, id)
  {
    if cart == [] then []
    else if cart[0].product.id == id then Removed(cart[1..], id)
    else [cart[0]] + Removed(cart[1..], id)
  }

  /** A run of `addToCart` calls, one per product of `ps`, in order. */
  function AddAll(cart: seq<CartItem>, ps: seq<Product>): seq<CartItem>
    decreases |ps|
  {
    if ps == [] then cart else AddAll(Added(cart, ps[0]), ps[1..])
  }

  // ---------------------------------------------------------------------
  // Derived values
  // ---------------------------------------------------------------------

  /** Sum of the quantities of the lines. */
  function Quantities(cart: seq<CartItem>): int {
    if cart == [] then 0 else cart[0].quantity + Quantities(cart[1..])
  }

  /** What one line costs: `item.price * item.quantity`. */
  function LineTotal(item: CartItem): int {
    item.product.price * item.quantity
  }

  /** Sum of price times quantity over the lines. */
  function Value(cart: seq<CartItem>): int {
    if cart == [] then 0 else LineTotal(cart[0]) + Value(cart[1..])
  }

  /** `cart.reduce((sum, item) => sum + item.quantity, sum)`. */
  function CountFrom(sum: int, cart: seq<CartItem>): (r: int)
    ensures r == sum + Quantities(cart)
    decreases |cart|
  {
    if cart == [] then sum else CountFrom(sum + cart[0].quantity, cart[1..])
  }

  /** `cart.reduce((sum, item) => sum + (item.price * item.quantity), sum)`. */
  function TotalFrom(sum: int, cart: seq<CartItem>): (r: int)
    ensures r == sum + Value(cart)
    decreases |cart|
  {
    if cart == [] then sum else TotalFrom(sum + LineTotal(cart[0]), cart[1..])
  }

  /** `cartCount`, the number shown on the cart badge. */
  function CartCount(cart: seq<CartItem>): int {
    CountFrom(0, cart)
  }

  /** `cartTotal`, the amount shown in the cart panel. */
  function CartTotal(cart: seq<CartItem>): int {
    TotalFrom(0, cart)
  }

  /** The quantity the cart holds of product `id` (0 when it has no such line). */
  function QuantityOf(cart: seq<CartItem>, id: string): int {
    match FindItem(cart, id)
    case Some(item) => item.quantity
    case None => 0
  }

  /** The checkout anchor: the hosted checkout page in a new tab, or an inert `#`. */
  function CheckoutLink(cart: seq<CartItem>): (r: Link)
    ensures r.href == CheckoutUrl <==> |cart| > 0
    ensures r.target == "_blank" <==> |cart| > 0
    ensures |cart| == 0 ==> r == Link("#", "_self")
  {
    if |cart| > 0 then Link(CheckoutUrl, "_blank") else Link("#", "_self")
  }

  // ---------------------------------------------------------------------
  // The component's state cells
  // ---------------------------------------------------------------------

  class Store {
    var cart: seq<CartItem>
    var isCartOpen: bool

    ghost predicate Valid()
      reads this
    {
      WellFormed(cart)
    }

    /** The state cells at mount: an empty cart and a closed panel. */
    constructor ()
      ensures Valid()
      ensures cart == [] && !isCartOpen
    {
      cart := [];
      isCartOpen := false;
    }

    /** `addToCart(product)`: updates the cart and always opens the panel. */
    method AddToCart(product: Product)
      requires Valid()
      modifies this
      ensures Valid()
      ensures cart == Added(old(cart), product)
      ensures isCartOpen
      ensures CartCount(cart) == CartCount(old(cart)) + 1
    {
      AddPreservesWellFormed(cart, product);
      CountAfterAdd(cart, product);
      cart := Added(cart, product);
      isCartOpen := true;
    }

    /** `removeFromCart(productId)`: the panel is left as it was. */
    method RemoveFromCart(productId: string)
      requires Valid()
      modifies this
      ensures Valid()
      ensures cart == Removed(old(cart), productId)
      ensures !HasItem(cart, productId)
      ensures isCartOpen == old(isCartOpen)
    {
      RemovePreservesWellFormed(cart, productId);
      cart := Removed(cart, productId);
    }

    /** The cart button: `setIsCartOpen(!isCartOpen)`. */
    method ToggleCart()
      modifies this
      ensures isCartOpen == !old(isCartOpen)
      ensures cart == old(cart)
    {
      isCartOpen := !isCartOpen;
    }

    /** The panel's close button and the backdrop: `setIsCartOpen(false)`. */
    method CloseCart()
      modifies this
      ensures !isCartOpen
      ensures cart == old(cart)
    {
      isCartOpen := false;
    }
  }

  // ---------------------------------------------------------------------
  // Lemmas: structure of the updaters
  // ---------------------------------------------------------------------

  /** The tail of a cart with unique ids has unique ids and no line for the head's id. */
  lemma UniqueTail(cart: seq<CartItem>)
    requires UniqueIds(cart) && cart != []
    ensures UniqueIds(cart[1..])
    ensures !HasItem(cart[1..], cart[0].product.id)
  {
    var rest := cart[1..];
    forall i, j | 0 <= i < j < |rest| ensures rest[i].product.id != rest[j].product.id {
      assert rest[i] == cart[i + 1] && rest[j] == cart[j + 1];
    }
    forall i | 0 <= i < |rest| ensures rest[i].product.id != cart[0].product.id {
      assert rest[i] == cart[i + 1];
    }
  }

  /** In a cart with unique ids, finding a line's id yields that line. */
  lemma {:induction false} FindAt(cart: seq<CartItem>, k: nat)
    requires UniqueIds(cart) && k < |cart|
    ensures FindItem(cart, cart[k].product.id) == Some(cart[k])
  {
    if k > 0 {
      assert cart[0].product.id != cart[k].product.id;
      UniqueTail(cart);
      FindAt(cart[1..], k - 1);
    }
  }

  /** Filtering out an id that no line has leaves the cart as it was. */
  lemma {:induction false} RemoveAbsent(cart: seq<CartItem>, id: string)
    requires !HasItem(cart, id)
    ensures Removed(cart, id) == cart
  {
    if cart != [] {
      assert cart[0].product.id != id;
      assert !HasItem(cart[1..], id) by {
        forall i | 0 <= i < |cart[1..]| ensures cart[1..][i].product.id != id {
          assert cart[1..][i] == cart[i + 1];
        }
      }
      RemoveAbsent(cart[1..], id);
      assert cart == [cart[0]] + cart[1..];
    }
  }

  /** Removing a line's id from a cart with unique ids drops exactly that line, keeping the order of the rest. */
  lemma {:induction false} RemoveAt(cart: seq<CartItem>, k: nat)
    requires UniqueIds(cart) && k < |cart|
    ensures Removed(cart, cart[k].product.id) == cart[..k] + cart[k + 1..]
  {
    var id := cart[k].product.id;
    var rest := cart[1..];
    UniqueTail(cart);
    if k == 0 {
      RemoveAbsent(rest, id);
    } else {
      assert cart[0].product.id != id;
      assert rest[k - 1] == cart[k];
      RemoveAt(rest, k - 1);
      assert cart[..k] == [cart[0]] + rest[..k - 1];
      assert cart[k + 1..] == rest[k..];
    }
  }

  /** With unique ids, incrementing a line's id changes that line's quantity and nothing else. */
  lemma IncrementAt(cart: seq<CartItem>, k: nat)
    requires UniqueIds(cart) && k < |cart|
    ensures Incremented(cart, cart[k].product.id) == cart[k := cart[k].(quantity := cart[k].quantity + 1)]
  {
  }

  /**
   * Adding a product that already has a line raises that line's quantity by exactly one;
   * the length, the order and every other line are unchanged.
   */
  lemma AddExisting(cart: seq<CartItem>, p: Product, k: nat)
    requires UniqueIds(cart) && k < |cart| && cart[k].product.id == p.id
    ensures Added(cart, p) == cart[k := cart[k].(quantity := cart[k].quantity + 1)]
  {
    assert HasItem(cart, p.id);
    IncrementAt(cart, k);
  }

  /** Adding a product with no line appends one line of quantity 1 at the end. */
  lemma AddNew(cart: seq<CartItem>, p: Product)
    requires !HasItem(cart, p.id)
    ensures Added(cart, p) == cart + [CartItem(p, 1)]
  {
  }

  /** `addToCart` keeps the cart invariant. */
  lemma AddPreservesWellFormed(cart: seq<CartItem>, p: Product)
    requires WellFormed(cart)
    ensures WellFormed(Added(cart, p))
  {
    if HasItem(cart, p.id) {
      var k :| 0 <= k < |cart| && cart[k].product.id == p.id;
      AddExisting(cart, p, k);
    }
  }

  /** A line survives the filter exactly when it was in the cart and has another id. */
  lemma {:induction false} RemovedMembers(cart: seq<CartItem>, id: string)
    ensures forall x :: x in Removed(cart, id) <==> x in cart && x.product.id != id
  {
    if cart != [] {
      RemovedMembers(cart[1..], id);
      assert cart == [cart[0]] + cart[1..];
    }
  }

  /** Filtering a cart with unique ids gives a cart with unique ids. */
  lemma {:induction false} RemovePreservesUnique(cart: seq<CartItem>, id: string)
    requires UniqueIds(cart)
    ensures UniqueIds(Removed(cart, id))
  {
    if cart != [] {
      var rest := cart[1..];
      UniqueTail(cart);
      RemovePreservesUnique(rest, id);
      RemovedMembers(rest, id);
      var tail := Removed(rest, id);
      if cart[0].product.id != id {
        forall x | x in tail ensures x.product.id != cart[0].product.id {
          var j :| 0 <= j < |rest| && rest[j] == x;
          assert rest[j] == cart[j + 1];
        }
        var r := [cart[0]] + tail;
        forall i, j | 0 <= i < j < |r| ensures r[i].product.id != r[j].product.id {
          assert r[j] == tail[j - 1];
          if i > 0 {
            assert r[i] == tail[i - 1];
          } else {
            assert tail[j - 1] in tail;
          }
        }
      }
    }
  }

  /** `removeFromCart` keeps the cart invariant. */
  lemma RemovePreservesWellFormed(cart: seq<CartItem>, id: string)
    requires WellFormed(cart)
    ensures WellFormed(Removed(cart, id))
  {
    RemovePreservesUnique(cart, id);
    RemovedMembers(cart, id);
    var r := Removed(cart, id);
    forall i | 0 <= i < |r| ensures r[i].quantity >= 1 {
      assert r[i] in cart;
    }
  }

  /** `removeFromCart` applied twice equals applying it once. */
  lemma RemoveIdempotent(cart: seq<CartItem>, id: string)
    ensures Removed(Removed(cart, id), id) == Removed(cart, id)
  {
    RemoveAbsent(Removed(cart, id), id);
  }

  // ---------------------------------------------------------------------
  // Lemmas: the derived totals
  // ---------------------------------------------------------------------

  lemma {:induction false} QuantitiesAppend(a: seq<CartItem>, b: seq<CartItem>)
    ensures Quantities(a + b) == Quantities(a) + Quantities(b)
  {
    if a != [] {
      assert (a + b)[1..] == a[1..] + b;
      QuantitiesAppend(a[1..], b);
    } else {
      assert a + b == b;
    }
  }

  lemma {:induction false} ValueAppend(a: seq<CartItem>, b: seq<CartItem>)
    ensures Value(a + b) == Value(a) + Value(b)
  {
    if a != [] {
      assert (a + b)[1..] == a[1..] + b;
      ValueAppend(a[1..], b);
    } else {
      assert a + b == b;
    }
  }

  /** A line in the middle of a cart contributes its own share to both sums. */
  lemma SumsAround(pre: seq<CartItem>, x: CartItem, post: seq<CartItem>)
    ensures Quantities(pre + [x] + post) == Quantities(pre + post) + x.quantity
    ensures Value(pre + [x] + post) == Value(pre + post) + LineTotal(x)
  {
    var left := pre + [x];
    QuantitiesAppend(left, post);
    QuantitiesAppend(pre, [x]);
    QuantitiesAppend(pre, post);
    ValueAppend(left, post);
    ValueAppend(pre, [x]);
    ValueAppend(pre, post);
  }

  /** Replacing one line changes both sums by the difference of the two lines. */
  lemma SumsAfterReplace(cart: seq<CartItem>, k: nat, x: CartItem)
    requires k < |cart|
    ensures Quantities(cart[k := x]) == Quantities(cart) - cart[k].quantity + x.quantity
    ensures Value(cart[k := x]) == Value(cart) - LineTotal(cart[k]) + LineTotal(x)
  {
    var pre, post := cart[..k], cart[k + 1..];
    assert cart == pre + [cart[k]] + post;
    assert cart[k := x] == pre + [x] + post;
    SumsAround(pre, cart[k], post);
    SumsAround(pre, x, post);
  }

  /** Each `addToCart` raises `cartCount` by exactly one. */
  lemma CountAfterAdd(cart: seq<CartItem>, p: Product)
    requires UniqueIds(cart)
    ensures CartCount(Added(cart, p)) == CartCount(cart) + 1
  {
    if HasItem(cart, p.id) {
      var k :| 0 <= k < |cart| && cart[k].product.id == p.id;
      AddExisting(cart, p, k);
      SumsAfterReplace(cart, k, cart[k].(quantity := cart[k].quantity + 1));
    } else {
      QuantitiesAppend(cart, [CartItem(p, 1)]);
    }
  }

  /** One more copy in line `k` adds that line's price to the value of the cart. */
  lemma ValueAfterIncrement(cart: seq<CartItem>, k: nat)
    requires k < |cart|
    ensures Value(cart[k := cart[k].(quantity := cart[k].quantity + 1)]) == Value(cart) + cart[k].product.price
  {
    var item := cart[k];
    SumsAfterReplace(cart, k, item.(quantity := item.quantity + 1));
    assert item.product.price * (item.quantity + 1) == item.product.price * item.quantity + item.product.price;
  }

  /**
   * Each `addToCart` raises `cartTotal` by one copy's price: the price stored
   * in the existing line when there is one, otherwise the product's.
   */
  lemma TotalAfterAdd(cart: seq<CartItem>, p: Product)
    requires UniqueIds(cart)
    ensures CartTotal(Added(cart, p)) == CartTotal(cart) + match FindItem(cart, p.id)
      case Some(item) => item.product.price
      case None => p.price
  {
    if HasItem(cart, p.id) {
      var k :| 0 <= k < |cart| && cart[k].product.id == p.id;
      AddExisting(cart, p, k);
      FindAt(cart, k);
      ValueAfterIncrement(cart, k);
    } else {
      ValueAppend(cart, [CartItem(p, 1)]);
      assert Value([CartItem(p, 1)]) == p.price;
    }
  }

  /** When every line for `p.id` holds `p` itself, adding `p` raises `cartTotal` by `p.price`. */
  lemma TotalAfterAddCatalogue(cart: seq<CartItem>, p: Product)
    requires UniqueIds(cart)
    requires forall i :: 0 <= i < |cart| && cart[i].product.id == p.id ==> cart[i].product == p
    ensures CartTotal(Added(cart, p)) == CartTotal(cart) + p.price
  {
    TotalAfterAdd(cart, p);
  }

  /** Removing a line lowers `cartCount` by its quantity and `cartTotal` by its price times quantity. */
  lemma TotalsAfterRemove(cart: seq<CartItem>, k: nat)
    requires UniqueIds(cart) && k < |cart|
    ensures CartCount(Removed(cart, cart[k].product.id)) == CartCount(cart) - cart[k].quantity
    ensures CartTotal(Removed(cart, cart[k].product.id)) == CartTotal(cart) - LineTotal(cart[k])
  {
    RemoveAt(cart, k);
    SumsWithout(cart, k);
  }

  /** Dropping line `k` lowers both sums by that line's share. */
  lemma SumsWithout(cart: seq<CartItem>, k: nat)
    requires k < |cart|
    ensures Quantities(cart[..k] + cart[k + 1..]) == Quantities(cart) - cart[k].quantity
    ensures Value(cart[..k] + cart[k + 1..]) == Value(cart) - LineTotal(cart[k])
  {
    var pre, from, post := cart[..k], cart[k..], cart[k + 1..];
    assert cart == pre + from;
    assert from[1..] == post;
    QuantitiesAppend(pre, from);
    QuantitiesAppend(pre, post);
    ValueAppend(pre, from);
    ValueAppend(pre, post);
  }

  /** With every quantity at least 1, the badge count is at least the number of lines. */
  lemma {:induction false} CountAtLeastLines(cart: seq<CartItem>)
    requires forall i :: 0 <= i < |cart| ==> cart[i].quantity >= 1
    ensures Quantities(cart) >= |cart|
  {
    if cart != [] {
      assert forall i :: 0 <= i < |cart[1..]| ==> cart[1..][i] == cart[i + 1];
      CountAtLeastLines(cart[1..]);
    }
  }

  /** The checkout link is live exactly when the cart badge shows a positive count. */
  lemma CheckoutLiveIffCount(cart: seq<CartItem>)
    requires WellFormed(cart)
    ensures CheckoutLink(cart).target == "_blank" <==> CartCount(cart) > 0
  {
    CountAtLeastLines(cart);
  }

  // ---------------------------------------------------------------------
  // Lemmas: runs of adds
  // ---------------------------------------------------------------------

  /** How many products of `ps` have id `id`. */
  function Occurrences(ps: seq<Product>, id: string): nat {
    if ps == [] then 0 else (if ps[0].id == id then 1 else 0) + Occurrences(ps[1..], id)
  }

  /** Raising the quantity of line `k` by one raises the quantity held of its id by one, and no other. */
  lemma QuantityAfterIncrement(cart: seq<CartItem>, k: nat, id: string)
    requires WellFormed(cart) && k < |cart|
    ensures QuantityOf(cart[k := cart[k].(quantity := cart[k].quantity + 1)], id)
         == QuantityOf(cart, id) + (if cart[k].product.id == id then 1 else 0)
  {
    var after := cart[k := cart[k].(quantity := cart[k].quantity + 1)];
    assert forall i :: 0 <= i < |after| ==> after[i].product == cart[i].product;
    assert UniqueIds(after);
    if cart[k].product.id == id {
      FindAt(cart, k);
      FindAt(after, k);
    } else if HasItem(cart, id) {
      var j :| 0 <= j < |cart| && cart[j].product.id == id;
      FindAt(cart, j);
      FindAt(after, j);
    } else {
      assert !HasItem(after, id);
    }
  }

  /** Appending a new line of quantity 1 raises the quantity held of its id by one, and no other. */
  lemma QuantityAfterAppend(cart: seq<CartItem>, p: Product, id: string)
    requires WellFormed(cart) && !HasItem(cart, p.id)
    ensures QuantityOf(cart + [CartItem(p, 1)], id) == QuantityOf(cart, id) + (if p.id == id then 1 else 0)
  {
    var after := cart + [CartItem(p, 1)];
    AddPreservesWellFormed(cart, p);
    assert Added(cart, p) == after;
    if HasItem(cart, id) {
      var j :| 0 <= j < |cart| && cart[j].product.id == id;
      FindAt(cart, j);
      FindAt(after, j);
    } else if p.id == id {
      FindAt(after, |cart|);
    } else {
      assert !HasItem(after, id) by {
        forall i | 0 <= i < |after| ensures after[i].product.id != id {
          if i < |cart| { assert after[i] == cart[i]; }
        }
      }
    }
  }

  /** `addToCart(p)` adds one copy to `p.id`'s quantity and leaves every other id's quantity alone. */
  lemma QuantityAfterAdd(cart: seq<CartItem>, p: Product, id: string)
    requires WellFormed(cart)
    ensures QuantityOf(Added(cart, p), id) == QuantityOf(cart, id) + (if p.id == id then 1 else 0)
  {
    if HasItem(cart, p.id) {
      var k :| 0 <= k < |cart| && cart[k].product.id == p.id;
      AddExisting(cart, p, k);
      QuantityAfterIncrement(cart, k, id);
    } else {
      QuantityAfterAppend(cart, p, id);
    }
  }

  /**
   * After any run of adds, the cart still has one line per id with quantities at least 1,
   * and each id's quantity has grown by the number of times that id was added.
   */
  lemma {:induction false} AddAllTally(cart: seq<CartItem>, ps: seq<Product>, id: string)
    requires WellFormed(cart)
    ensures WellFormed(AddAll(cart, ps))
    ensures QuantityOf(AddAll(cart, ps), id) == QuantityOf(cart, id) + Occurrences(ps, id)
    decreases |ps|
  {
    if ps != [] {
      AddPreservesWellFormed(cart, ps[0]);
      QuantityAfterAdd(cart, ps[0], id);
      AddAllTally(Added(cart, ps[0]), ps[1..], id);
    }
  }

  /**
   * Starting from the empty cart, a run of adds leaves a line for an id exactly when
   * that id was added, with quantity equal to the number of times it was added.
   */
  lemma AddAllFromEmpty(ps: seq<Product>, id: string)
    ensures WellFormed(AddAll([], ps))
    ensures HasItem(AddAll([], ps), id) <==> Occurrences(ps, id) > 0
    ensures QuantityOf(AddAll([], ps), id) == Occurrences(ps, id)
  {
    AddAllTally([], ps, id);
    var c := AddAll([], ps);
    if HasItem(c, id) {
      var k :| 0 <= k < |c| && c[k].product.id == id;
      FindAt(c, k);
    }
  }

  function Repeat(p: Product, n: nat): seq<Product> {
    seq(n, _ => p)
  }

  /** Adding the same product `n` times to a cart holding only it with quantity `q` gives quantity `q + n`. */
  lemma {:induction false} AddRepeatedFrom(p: Product, q: int, n: nat)
    ensures AddAll([CartItem(p, q)], Repeat(p, n)) == [CartItem(p, q + n)]
    decreases n
  {
    if n > 0 {
      assert Repeat(p, n)[0] == p;
      assert Repeat(p, n)[1..] == Repeat(p, n - 1);
      assert Added([CartItem(p, q)], p) == [CartItem(p, q + 1)] by {
        assert [CartItem(p, q)][0].product.id == p.id;
      }
      AddRepeatedFrom(p, q + 1, n - 1);
    }
  }

  /** Adding one product `n >= 1` times to the empty cart gives the single line with quantity `n`. */
  lemma AddRepeated(p: Product, n: nat)
    requires n >= 1
    ensures AddAll([], Repeat(p, n)) == [CartItem(p, n)]
  {
    assert Repeat(p, n)[0] == p;
    assert Repeat(p, n)[1..] == Repeat(p, n - 1);
    assert Added([], p) == [CartItem(p, 1)];
    AddRepeatedFrom(p, 1, n - 1);
  }

  // ---------------------------------------------------------------------
  // A concrete scenario with catalogue prices
  // ---------------------------------------------------------------------

  const P1: Product := Product("p1", "Freelance OS 2.0 (Notion)",
    "The ultimate dashboard for client management, invoices, and AI project planning.",
    49, "https://picsum.photos/400/300?grayscale&blur=2", ["Notion", "System"])
  const P2: Product := Product("p2", "2025 AI Content Workflow",
    "A complete system of prompts and automations to scale your content marketing.",
    39, "https://picsum.photos/400/301?grayscale&blur=2", ["AI", "Marketing"])

  /** Adding p1 once and p2 twice gives two lines, a count of 3 and a total of 127. */
  lemma ScenarioP1P2P2()
    ensures |AddAll([], [P1, P2, P2])| == 2
    ensures CartCount(AddAll([], [P1, P2, P2])) == 3
    ensures CartTotal(AddAll([], [P1, P2, P2])) == 127
  {
    var c1 := Added([], P1);
    assert c1 == [CartItem(P1, 1)];
    var c2 := Added(c1, P2);
    assert !HasItem(c1, P2.id);
    assert c2 == [CartItem(P1, 1), CartItem(P2, 1)];
    AddExisting(c2, P2, 1);
    var c3 := Added(c2, P2);
    assert c3 == [CartItem(P1, 1), CartItem(P2, 2)];
    calc {
      AddAll([], [P1, P2, P2]);
      { assert [P1, P2, P2][1..] == [P2, P2]; }
      AddAll(c1, [P2, P2]);
      { assert [P2, P2][1..] == [P2]; }
      AddAll(c2, [P2]);
      { assert [P2][1..] == []; }
      AddAll(c3, []);
      c3;
    }
    var last := [CartItem(P2, 2)];
    assert c3[1..] == last && last[1..] == [];
    assert Quantities(last) == 2 && Value(last) == 78;
    assert Quantities(c3) == 3;
    assert Value(c3) == 127;
  }

  /** Removing from the empty cart leaves it empty. */
  lemma RemoveFromEmpty(id: string)
    ensures Removed([], id) == []
  {
  }
}
