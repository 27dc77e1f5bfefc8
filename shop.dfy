/**
 The shop page's cart logic (static/main.js) over mutable state: the catalog
 `Items` is an array of product objects whose `quantity` fields the page
 mutates, and `localStorage` is an object with one field per key the page
 uses. Each top-level function of the script is a method here.
 */
module Shop {
  import opened Storage

  /** A catalog entry of `Items`: name and price never change, quantity does. */
  class Product {
    const name: string
    const price: nat
    var quantity: int

    constructor (entry: Record)
      ensures name == entry.name && price == entry.price && quantity == entry.quantity
    {
      name := entry.name;
      price := entry.price;
      quantity := entry.quantity;
    }

    /** The object as `JSON.stringify` writes it. */
    function Snapshot(): Record
      reads this
    {
      Record(name, price, quantity)
    }
  }

  /** The three keys of `localStorage` the page reads and writes; None is a missing key. */
  class LocalStorage {
    var counter: Option<Num>                 // 'cartProducts'
    var cart: Option<map<string, Record>>    // 'productsCart'
    var total: Option<Num>                   // 'calculateTotal'

    /** Storage of a browser that has never visited the shop. */
    constructor ()
      ensures counter.None? && cart.None? && total.None?
    {
      counter, cart, total := None, None, None;
    }

    /** `localStorage.clear()`: every key is removed. */
    method Clear()
      modifies this
      ensures counter.None? && cart.None? && total.None?
    {
      counter, cart, total := None, None, None;
    }
  }

  /** The array holds the catalog's products, in the catalog's order. */
  ghost predicate IsCatalog(items: array<Product>)
    reads items
  {
    && items.Length == |Catalog|
    && forall i :: 0 <= i < items.Length ==>
         items[i].name == Catalog[i].name && items[i].price == Catalog[i].price
  }

  /**
   The page is consistent with storage: the stored keys agree with each other,
   and every catalog object whose product is not in the stored cart still
   holds quantity 0, so that inserting it records quantity 1.
   */
  ghost predicate Consistent(s: LocalStorage, items: array<Product>)
    reads s, items, items[..]
  {
    && IsCatalog(items)
    && StoreConsistent(s.counter, s.cart, s.total)
    && PricesAgree(s.cart)
    && forall i :: 0 <= i < items.Length && !InCart(s.cart, items[i].name) ==> items[i].quantity == 0
  }

  /**
   Loading the page builds the `Items` catalog afresh, every quantity 0
   (the array literal is built here entry by entry from `Catalog`); storage
   survives the load, and consistent storage stays consistent with the new
   catalog.
   */
  method LoadPage(s: LocalStorage) returns (items: array<Product>)
    ensures fresh(items) && items.Length == 12
    ensures forall i :: 0 <= i < items.Length ==> fresh(items[i])
    ensures forall i :: 0 <= i < items.Length ==> items[i].quantity == 0
    ensures IsCatalog(items)
    ensures StoreConsistent(s.counter, s.cart, s.total) && PricesAgree(s.cart) ==> Consistent(s, items)
  {
    var products: seq<Product> := [];
    for k := 0 to |Catalog|
      invariant |products| == k
      invariant forall j :: 0 <= j < k ==> fresh(products[j])
      invariant forall j :: 0 <= j < k ==> products[j].Snapshot() == Catalog[j]
    {
      var product := new Product(Catalog[k]);
      products := products + [product];
    }
    items := new Product[|products|](i requires 0 <= i < |products| => products[i]);
  }

  /** `cartProducts`: bump the item counter, then record the product in the cart. */
  method CartProducts(s: LocalStorage, product: Product)
    modifies s`counter, s`cart, product`quantity
    ensures s.counter == Some(Int(NextCount(old(s.counter))))
    ensures s.cart == Some(AddToCart(old(s.cart), old(product.Snapshot())))
    ensures product.quantity == CatalogQuantityAfterAdd(old(s.cart), old(product.Snapshot()))
    ensures s.total == old(s.total)
  {
    var item := ParseInt(s.counter);
    if Truthy(item) {
      s.counter := Some(Int(item.n + 1));
    } else {
      s.counter := Some(Int(1));
    }
    SetItems(s, product);
  }

  /**
   `setItems`: a product new to a stored cart is inserted as the catalog
   object itself, so the increment that follows lands on that object; with no
   stored cart the object's quantity is overwritten with 1.
   */
  method SetItems(s: LocalStorage, product: Product)
    modifies s`cart, product`quantity
    ensures s.cart == Some(AddToCart(old(s.cart), old(product.Snapshot())))
    ensures product.quantity == CatalogQuantityAfterAdd(old(s.cart), old(product.Snapshot()))
    ensures s.counter == old(s.counter) && s.total == old(s.total)
  {
    var cartItems: map<string, Record>;
    var aliased: bool;  // whether cartItems[product.name] is the catalog object itself
    if s.cart != None {
      cartItems := s.cart.value;
      aliased := product.name !in cartItems;
      if aliased {
        product.quantity := product.quantity + 1;
      } else {
        cartItems := cartItems[product.name :=
          cartItems[product.name].(quantity := cartItems[product.name].quantity + 1)];
      }
    } else {
      product.quantity := 1;
      cartItems := map[];
      aliased := true;
    }
    if aliased {
      cartItems := cartItems[product.name := product.Snapshot()];
    }
    s.cart := Some(cartItems);
  }

  /** `calculateTotal`: add the product's price to the stored total. */
  method CalculateTotal(s: LocalStorage, product: Product)
    modifies s`total
    ensures s.total == Some(NextTotal(old(s.total), product.price))
    ensures s.counter == old(s.counter) && s.cart == old(s.cart)
  {
    var cartTotal := s.total;
    if cartTotal != None {
      s.total := Some(Plus(ParseInt(cartTotal), product.price));
    } else {
      s.total := Some(Int(product.price));
    }
  }

  /** A click on "add to cart" button `i`, wired to `Items[i]`. */
  method Click(s: LocalStorage, items: array<Product>, i: nat)
    requires i < items.Length
    modifies s, items[i]
    ensures s.counter == Some(Int(NextCount(old(s.counter))))
    ensures s.cart == Some(AddToCart(old(s.cart), old(items[i].Snapshot())))
    ensures s.total == Some(NextTotal(old(s.total), items[i].price))
    ensures items[i].quantity == CatalogQuantityAfterAdd(old(s.cart), old(items[i].Snapshot()))
    ensures old(Consistent(s, items)) ==> Consistent(s, items)
  {
    ghost var wasConsistent := Consistent(s, items);
    ghost var counter0, cart0, total0, q0 := s.counter, s.cart, s.total, items[i].quantity;
    CartProducts(s, items[i]);
    CalculateTotal(s, items[i]);
    if wasConsistent {
      CatalogNamesDistinct();
      assert old(items[i].Snapshot()) == Catalog[i].(quantity := q0);
      assert PriceMatches(cart0, Catalog[i]);
      AddKeepsStoreConsistent(counter0, cart0, total0, Catalog[i].(quantity := q0));
      AddKeepsPricesAgree(cart0, i, q0);
      forall j | 0 <= j < items.Length && !InCart(s.cart, items[j].name)
        ensures items[j].quantity == 0
      {
        assert j != i;
        assert items[j] != items[i];
      }
    }
  }

  /** `removeFromCart`: clear storage and reload the page. */
  method RemoveFromCart(s: LocalStorage) returns (items: array<Product>)
    modifies s
    ensures s.counter.None? && s.cart.None? && s.total.None?
    ensures fresh(items) && Consistent(s, items)
  {
    s.Clear();
    items := LoadPage(s);
  }

  /**
   `payment`: report the stored total (the alert) and clear storage. The page
   is not reloaded, so the catalog objects keep their quantities.
   */
  method Payment(s: LocalStorage) returns (paid: Option<Num>)
    modifies s
    ensures paid == old(s.total)
    ensures s.counter.None? && s.cart.None? && s.total.None?
  {
    paid := s.total;
    s.Clear();
  }

  /**
   A visit to a freshly loaded page with empty storage, clicking the buttons
   `clicks` in order with no clear in between: storage stays consistent, so
   the counter, which counts the clicks, is the cart's item count and the
   total is the cart's value.
   */
  method ShoppingSession(clicks: seq<nat>) returns (s: LocalStorage, items: array<Product>)
    requires forall k :: 0 <= k < |clicks| ==> clicks[k] < |Catalog|
    ensures Consistent(s, items)
    ensures clicks == [] <==> s.cart.None?
    ensures clicks == [] ==> s.counter.None? && s.total.None?
    ensures clicks != [] ==> s.counter == Some(Int(|clicks|)) && ItemCount(s.cart.value) == |clicks|
  {
    s := new LocalStorage();
    items := LoadPage(s);
    var n := 0;
    while n < |clicks|
      invariant 0 <= n <= |clicks|
      invariant fresh(s) && fresh(items) && items.Length == |Catalog|
      invariant forall k :: 0 <= k < items.Length ==> fresh(items[k])
      invariant Consistent(s, items)
      invariant n == 0 <==> s.cart.None?
      invariant n != 0 ==> s.counter == Some(Int(n))
    {
      Click(s, items, clicks[n]);
      n := n + 1;
    }
  }

  /**
   Clicking product 1, paying, then clicking products 0 and 1 on the same page:
   product 1's catalog object still holds quantity 1 from before the payment,
   so the cart records 3 items worth 300 while the counter says 2 and the
   total 200.
   */
  method PaymentLeak() returns (counter: Option<Num>, cart: Option<map<string, Record>>, total: Option<Num>)
    ensures counter == Some(Int(2)) && total == Some(Int(200))
    ensures cart.Some? && ItemCount(cart.value) == 3 && CartValue(cart.value) == 300
  {
    var s := new LocalStorage();
    var items := LoadPage(s);
    CatalogNamesDistinct();
    var n0, n1 := Catalog[0].name, Catalog[1].name;
    assert items[0].name == n0 && items[1].name == n1 && n0 != n1;
    assert items[0].price == 100 && items[1].price == 100;
    Click(s, items, 1);
    assert items[1].quantity == 1;
    var _ := Payment(s);
    Click(s, items, 0);
    var m := map[n0 := Record(n0, 100, 1)];
    assert s.cart == Some(m) && s.counter == Some(Int(1)) && s.total == Some(Int(100));
    assert items[1].quantity == 1;
    Click(s, items, 1);
    assert s.cart == Some(m[n1 := Record(n1, 100, 2)]);
    counter, cart, total := s.counter, s.cart, s.total;
    SumByUpdate(map[], Quantity, n0, Record(n0, 100, 1));
    SumByUpdate(map[], Amount, n0, Record(n0, 100, 1));
    SumByUpdate(m, Quantity, n1, Record(n1, 100, 2));
    SumByUpdate(m, Amount, n1, Record(n1, 100, 2));
  }
}
