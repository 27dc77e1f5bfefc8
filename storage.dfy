/**
 The values the shop page keeps in the browser's `localStorage`, and the
 pure transitions that `cartProducts`, `setItems` and `calculateTotal` apply
 to them (static/main.js). JSON encoding of the cart is taken to be the
 identity on these flat records, so the stored cart is a map of records.
 */
module Storage {

  datatype Option<T> = None | Some(value: T)

  /** A JavaScript number as `parseInt` produces it: a whole number or NaN. */
  datatype Num = NaN | Int(n: int)

  /** A product as JSON keeps it: the catalog fields, copied by value. */
  datatype Record = Record(name: string, price: nat, quantity: int)

  /** The catalog `Items` as the page loads it: twelve products, quantity 0. */
  const Catalog: seq<Record> := [
    Record("Headwrap & Earrings", 100, 0),
    Record("Men Mbhaco Pants", 100, 0),
    Record("Skirt & Scarf & Headwrap", 400, 0),
    Record("Men's 3pc attire", 400, 0),
    Record("Modern Mbhaco Dress", 300, 0),
    Record("Indlovukazi Dress", 2500, 0),
    Record("Men's Black & White 3pc", 600, 0),
    Record("Modern Ball Gown ", 2000, 0),
    Record("Elegant New pattern", 1000, 0),
    Record("King's 2pc", 300, 0),
    Record("Queen's 2pc Dress", 2000, 0),
    Record("Unisex Scarf", 200, 0)
  ]

  /** No two catalog products share a name, so a name identifies a product. */
  lemma CatalogNamesDistinct()
    ensures |Catalog| == 12
    ensures forall i, j :: 0 <= i < j < |Catalog| ==> Catalog[i].name != Catalog[j].name
    ensures forall i :: 0 <= i < |Catalog| ==> Catalog[i].quantity == 0
  {
  }

  /** `parseInt(localStorage.getItem(key))`: a missing key (null) reads as NaN. */
  function ParseInt(cell: Option<Num>): Num
  {
    if cell.Some? then cell.value else NaN
  }

  /** JavaScript truthiness of a number: NaN and 0 are falsy. */
  predicate Truthy(x: Num)
  {
    x.Int? && x.n != 0
  }

  /** `x + y` on JavaScript numbers: NaN absorbs the addition. */
  function Plus(x: Num, y: int): Num
  {
    if x.NaN? then NaN else Int(x.n + y)
  }

  /**
   The number `cartProducts` writes under 'cartProducts'. The test is on
   truthiness, but a stored 0 gives 1 = 0 + 1 as well, so every stored
   integer is incremented and only a missing or unreadable one restarts at 1.
   */
  function NextCount(stored: Option<Num>): (r: int)
    ensures stored.Some? && stored.value.Int? ==> r == stored.value.n + 1
    ensures stored.None? || stored.value.NaN? ==> r == 1
  {
    var item := ParseInt(stored);
    if Truthy(item) then item.n + 1 else 1
  }

  /**
   The number `calculateTotal` writes under 'calculateTotal': the stored
   total plus the price, exactly the price when nothing is stored, and NaN
   for ever once the stored text is not a number.
   */
  function NextTotal(stored: Option<Num>, price: nat): (r: Num)
    ensures stored.None? ==> r == Int(price)
    ensures stored.Some? && stored.value.Int? ==> r == Int(stored.value.n + price)
    ensures stored.Some? && stored.value.NaN? ==> r == NaN
  {
    if stored != None then Plus(ParseInt(stored), price) else Int(price)
  }

  /** Whether the stored cart holds an entry under `name`. */
  predicate InCart(cart: Option<map<string, Record>>, name: string)
  {
    cart.Some? && name in cart.value
  }

  /**
   The cart `setItems` writes under 'productsCart' when `product` is the state
   of the catalog object passed in. An absent product is inserted as the
   catalog object itself, so its entry carries that object's quantity + 1;
   a product already in the cart gets its own entry's quantity + 1; with no
   stored cart the result holds the product alone, with quantity 1.
   */
  function AddToCart(cart: Option<map<string, Record>>, product: Record): (r: map<string, Record>)
    ensures cart.None? ==> r == map[product.name := product.(quantity := 1)]
    ensures cart.Some? ==> r.Keys == cart.value.Keys + {product.name}
    ensures cart.Some? ==> forall k :: k in cart.value && k != product.name ==> r[k] == cart.value[k]
    ensures InCart(cart, product.name) ==>
      r[product.name] == cart.value[product.name].(quantity := cart.value[product.name].quantity + 1)
    ensures cart.Some? && product.name !in cart.value ==>
      r[product.name] == product.(quantity := product.quantity + 1)
  {
    match cart
    case None => map[product.name := product.(quantity := 1)]
    case Some(m) =>
      if product.name in m then
        m[product.name := m[product.name].(quantity := m[product.name].quantity + 1)]
      else
        m[product.name := product.(quantity := product.quantity + 1)]
  }

  /**
   The quantity the catalog object holds after `setItems`: set to 1 when no
   cart is stored, incremented when it was inserted into a stored cart, and
   left alone when the cart already had the product (then the parsed copy
   is what changes).
   */
  function CatalogQuantityAfterAdd(cart: Option<map<string, Record>>, product: Record): (q: int)
    ensures cart.None? ==> q == 1
    ensures InCart(cart, product.name) ==> q == product.quantity
    ensures cart.Some? && !InCart(cart, product.name) ==> q == product.quantity + 1
    ensures !InCart(cart, product.name) ==> q == AddToCart(cart, product)[product.name].quantity
  {
    match cart
    case None => 1
    case Some(m) => if product.name in m then product.quantity else product.quantity + 1
  }

  /** The sum of `f` over the entries of a cart. */
  ghost function SumBy(m: map<string, Record>, f: Record -> int): int
    decreases |m|
  {
    if m == map[] then 0
    else
      var k :| k in m;
      assert |m - {k}| < |m| by { assert (m - {k}).Keys == m.Keys - {k}; }
      f(m[k]) + SumBy(m - {k}, f)
  }

  function Quantity(r: Record): int { r.quantity }

  function Amount(r: Record): int { r.price * r.quantity }

  /** The number of items a cart holds, counting each entry's quantity. */
  ghost function ItemCount(m: map<string, Record>): int { SumBy(m, Quantity) }

  /** What a cart costs: the sum of price × quantity over its entries. */
  ghost function CartValue(m: map<string, Record>): int { SumBy(m, Amount) }

  /** The sum may be taken by removing any entry first, not only the chosen one. */
  lemma {:induction false} SumByRemove(m: map<string, Record>, f: Record -> int, k: string)
    requires k in m
    ensures SumBy(m, f) == f(m[k]) + SumBy(m - {k}, f)
    decreases |m|
  {
    var j :| j in m && SumBy(m, f) == f(m[j]) + SumBy(m - {j}, f);
    if j != k {
      assert (m - {j}).Keys == m.Keys - {j};
      assert (m - {k}).Keys == m.Keys - {k};
      SumByRemove(m - {j}, f, k);
      SumByRemove(m - {k}, f, j);
      assert m - {j} - {k} == m - {k} - {j};
    }
  }

  /** Setting one entry changes the sum by the difference of its two weights. */
  lemma SumByUpdate(m: map<string, Record>, f: Record -> int, k: string, r: Record)
    ensures SumBy(m[k := r], f) == SumBy(m, f) - (if k in m then f(m[k]) else 0) + f(r)
  {
    SumByRemove(m[k := r], f, k);
    assert m[k := r] - {k} == m - {k};
    if k in m {
      SumByRemove(m, f, k);
    } else {
      assert m - {k} == m;
    }
  }

  /**
   The three keys agree with each other: no cart means no counter and no
   total; a cart means the counter is its item count and the total its value.
   */
  ghost predicate StoreConsistent(counter: Option<Num>, cart: Option<map<string, Record>>, total: Option<Num>)
  {
    match cart
    case None => counter.None? && total.None?
    case Some(m) => counter == Some(Int(ItemCount(m))) && total == Some(Int(CartValue(m)))
  }

  /** The cart's entry for `product`, if any, is at the product's price. */
  predicate PriceMatches(cart: Option<map<string, Record>>, product: Record)
  {
    InCart(cart, product.name) ==> cart.value[product.name].price == product.price
  }

  /**
   One click on `product` keeps the three keys consistent, provided its
   cart entry has its price and its catalog object holds quantity 0 when
   the product is not yet in a stored cart (as on a freshly loaded page).
   */
  lemma AddKeepsStoreConsistent(counter: Option<Num>, cart: Option<map<string, Record>>, total: Option<Num>, product: Record)
    requires StoreConsistent(counter, cart, total)
    requires PriceMatches(cart, product)
    requires cart.Some? && product.name !in cart.value ==> product.quantity == 0
    ensures StoreConsistent(Some(Int(NextCount(counter))),
                            Some(AddToCart(cart, product)),
                            Some(NextTotal(total, product.price)))
  {
    var m := if cart.Some? then cart.value else map[];
    var before := if InCart(cart, product.name) then m[product.name] else product.(quantity := 0);
    var after := before.(quantity := before.quantity + 1);
    assert AddToCart(cart, product) == m[product.name := after];
    SumByUpdate(m, Quantity, product.name, after);
    SumByUpdate(m, Amount, product.name, after);
    assert Amount(after) == Amount(before) + product.price by {
      assert product.price * (before.quantity + 1) == product.price * before.quantity + product.price;
    }
    if cart.None? {
      assert ItemCount(m) == 0 && CartValue(m) == 0;
    }
  }

  /**
   With a stale catalog quantity q != 0 for a product not in the stored cart,
   the click adds q + 1 items to the cart while the counter grows by 1: the
   three keys no longer agree.
   */
  lemma StaleQuantityBreaksCount(counter: Option<Num>, m: map<string, Record>, total: Option<Num>, product: Record)
    requires StoreConsistent(counter, Some(m), total)
    requires product.name !in m && product.quantity != 0
    ensures ItemCount(AddToCart(Some(m), product)) == NextCount(counter) + product.quantity
    ensures !StoreConsistent(Some(Int(NextCount(counter))),
                             Some(AddToCart(Some(m), product)),
                             Some(NextTotal(total, product.price)))
  {
    SumByUpdate(m, Quantity, product.name, product.(quantity := product.quantity + 1));
  }

  /** Every catalog product found in the cart is recorded at its catalog price. */
  ghost predicate PricesAgree(cart: Option<map<string, Record>>)
  {
    forall j :: 0 <= j < |Catalog| ==> PriceMatches(cart, Catalog[j])
  }

  /** Adding a catalog product, whatever its quantity, keeps every catalog price in the cart. */
  lemma AddKeepsPricesAgree(cart: Option<map<string, Record>>, j: nat, q: int)
    requires PricesAgree(cart)
    requires j < |Catalog|
    ensures PricesAgree(Some(AddToCart(cart, Catalog[j].(quantity := q))))
  {
  }

  /**
   The cart update as evidently intended: a product new to the cart is
   recorded with quantity 1, whatever its catalog object holds.
   */
  function AddToCartFixed(cart: Option<map<string, Record>>, product: Record): (r: map<string, Record>)
    ensures product.name in r
    ensures !InCart(cart, product.name) ==> r[product.name].quantity == 1
    ensures r == AddToCart(cart, product.(quantity := 0))
  {
    match cart
    case None => map[product.name := product.(quantity := 1)]
    case Some(m) =>
      if product.name in m then
        m[product.name := m[product.name].(quantity := m[product.name].quantity + 1)]
      else
        m[product.name := product.(quantity := 1)]
  }

  /** With the intended update, a click keeps the keys consistent whatever the catalog quantity. */
  lemma FixedAddKeepsStoreConsistent(counter: Option<Num>, cart: Option<map<string, Record>>, total: Option<Num>, product: Record)
    requires StoreConsistent(counter, cart, total)
    requires PriceMatches(cart, product)
    ensures StoreConsistent(Some(Int(NextCount(counter))),
                            Some(AddToCartFixed(cart, product)),
                            Some(NextTotal(total, product.price)))
  {
    AddKeepsStoreConsistent(counter, cart, total, product.(quantity := 0));
  }
}
