/** The client shopping cart (hooks/cart/use-cart.ts): an ordered list of items keyed by
    product id, loaded once from the browser's local storage and written back after every
    change once loading is over. Each operation's new list is given by a pure function on
    lists; the `Cart` class holds the hook's state. Prices are integer cents. */
module Cart {
  import opened Js

  datatype CartItem = CartItem(produtoId: string, nome: string, preco: int, quantidade: int, foto: Option<string>)

  /** What `addItem` receives: an item without its quantity. */
  datatype Product = Product(produtoId: string, nome: string, preco: int, foto: Option<string>)

  predicate Contains(items: seq<CartItem>, id: string) {
    exists i :: 0 <= i < |items| && items[i].produtoId == id
  }

  /** At most one item per product id. */
  predicate UniqueIds(items: seq<CartItem>) {
    forall i, j :: 0 <= i < j < |items| ==> items[i].produtoId != items[j].produtoId
  }

  /** The summed quantity of the items that carry the id. */
  function QuantityOf(items: seq<CartItem>, id: string): int {
    if items == [] then 0
    else QuantityOf(items[..|items| - 1], id) + (if items[|items| - 1].produtoId == id then items[|items| - 1].quantidade else 0)
  }

  /** `total`: `items.reduce((sum, item) => sum + item.preco * item.quantidade, 0)` */
  function CartTotal(items: seq<CartItem>): int {
    if items == [] then 0 else CartTotal(items[..|items| - 1]) + items[|items| - 1].preco * items[|items| - 1].quantidade
  }

  /** `itemCount`: `items.reduce((sum, item) => sum + item.quantidade, 0)` */
  function ItemCount(items: seq<CartItem>): int {
    if items == [] then 0 else ItemCount(items[..|items| - 1]) + items[|items| - 1].quantidade
  }

  /** `items.map(item => item.produtoId === id ? { ...item, quantidade: item.quantidade + q } : item)` */
  function Bump(items: seq<CartItem>, id: string, q: int): (r: seq<CartItem>)
    ensures |r| == |items|
    ensures forall i :: 0 <= i < |items| ==>
      r[i] == if items[i].produtoId == id then items[i].(quantidade := items[i].quantidade + q) else items[i]
  {
    if items == [] then []
    else
      var last := items[|items| - 1];
      Bump(items[..|items| - 1], id, q) + [if last.produtoId == id then last.(quantidade := last.quantidade + q) else last]
  }

  /** `items.map(item => item.produtoId === id ? { ...item, quantidade: q } : item)` */
  function Assign(items: seq<CartItem>, id: string, q: int): (r: seq<CartItem>)
    ensures |r| == |items|
    ensures forall i :: 0 <= i < |items| ==>
      r[i] == if items[i].produtoId == id then items[i].(quantidade := q) else items[i]
  {
    if items == [] then []
    else
      var last := items[|items| - 1];
      Assign(items[..|items| - 1], id, q) + [if last.produtoId == id then last.(quantidade := q) else last]
  }

  /** `addItem(product, quantidade)` on the list: bump every item of the product if there is
      one, otherwise append a new item. The sign of `quantidade` is not checked. */
  function AddTo(items: seq<CartItem>, product: Product, quantidade: int): seq<CartItem> {
    if Contains(items, product.produtoId) then Bump(items, product.produtoId, quantidade)
    else items + [CartItem(product.produtoId, product.nome, product.preco, quantidade, product.foto)]
  }

  /** `removeItem(id)` on the list: `items.filter(item => item.produtoId !== id)`. */
  function RemoveFrom(items: seq<CartItem>, id: string): (r: seq<CartItem>)
    ensures |r| <= |items|
    ensures forall x :: x in r <==> x in items && x.produtoId != id
    ensures !Contains(r, id)
    ensures !Contains(items, id) ==> r == items
  {
    if items == [] then []
    else
      var rest := RemoveFrom(items[..|items| - 1], id);
      assert items == items[..|items| - 1] + [items[|items| - 1]];
      if items[|items| - 1].produtoId == id then rest else rest + [items[|items| - 1]]
  }

  /** `updateQuantity(id, q)` on the list: a quantity of zero or less removes the product. */
  function SetQuantity(items: seq<CartItem>, id: string, quantidade: int): seq<CartItem> {
    if quantidade <= 0 then RemoveFrom(items, id) else Assign(items, id, quantidade)
  }

  /** A new product lands at the end with the given quantity; earlier items are unchanged. */
  lemma AddNewAppends(items: seq<CartItem>, product: Product, quantidade: int)
    requires !Contains(items, product.produtoId)
    ensures var r := AddTo(items, product, quantidade);
      |r| == |items| + 1 && r[..|items|] == items
      && r[|items|] == CartItem(product.produtoId, product.nome, product.preco, quantidade, product.foto)
  {
  }

  /** A product already present is bumped in place: same length, same order, only the
      product's quantity changes. */
  lemma AddExistingBumps(items: seq<CartItem>, product: Product, quantidade: int)
    requires Contains(items, product.produtoId)
    ensures var r := AddTo(items, product, quantidade);
      |r| == |items|
      && forall i :: 0 <= i < |items| ==>
        r[i].produtoId == items[i].produtoId
        && (items[i].produtoId != product.produtoId ==> r[i] == items[i])
        && (items[i].produtoId == product.produtoId ==>
              r[i] == items[i].(quantidade := items[i].quantidade + quantidade))
  {
  }

  /** Dropping the last item of a list. */
  lemma {:induction false} QuantityOfAppend(items: seq<CartItem>, x: CartItem, id: string)
    ensures QuantityOf(items + [x], id) == QuantityOf(items, id) + (if x.produtoId == id then x.quantidade else 0)
    ensures ItemCount(items + [x]) == ItemCount(items) + x.quantidade
    ensures CartTotal(items + [x]) == CartTotal(items) + x.preco * x.quantidade
  {
    assert (items + [x])[..|items|] == items;
  }

  /** Splitting off the last item: the id occurs in the list exactly when it occurs in the
      rest or is the last item's; with unique ids, the last item's id occurs nowhere else. */
  lemma LastSplit(items: seq<CartItem>, id: string)
    requires items != []
    ensures var init := items[..|items| - 1];
      && (Contains(items, id) <==> Contains(init, id) || items[|items| - 1].produtoId == id)
      && (UniqueIds(items) ==> UniqueIds(init))
      && (UniqueIds(items) && items[|items| - 1].produtoId == id ==> !Contains(init, id))
  {
    var init := items[..|items| - 1];
    if Contains(items, id) && items[|items| - 1].produtoId != id {
      var i :| 0 <= i < |items| && items[i].produtoId == id;
      assert init[i].produtoId == id;
    }
    if Contains(init, id) {
      var i :| 0 <= i < |init| && init[i].produtoId == id;
      assert items[i].produtoId == id;
    }
  }

  /** With one item per product, bumping a product adds the quantity once to the item count
      and to that product's quantity (nothing when it is absent), and nothing to any other
      product's quantity. */
  lemma {:induction false} BumpUnique(items: seq<CartItem>, id: string, q: int, k: string)
    requires UniqueIds(items)
    ensures ItemCount(Bump(items, id, q)) == ItemCount(items) + (if Contains(items, id) then q else 0)
    ensures QuantityOf(Bump(items, id, q), k) == QuantityOf(items, k) + (if k == id && Contains(items, id) then q else 0)
  {
    if items != [] {
      var init := items[..|items| - 1];
      var last := items[|items| - 1];
      LastSplit(items, id);
      BumpUnique(init, id, q, k);
      var bumped := if last.produtoId == id then last.(quantidade := last.quantidade + q) else last;
      assert Bump(items, id, q) == Bump(init, id, q) + [bumped];
      QuantityOfAppend(Bump(init, id, q), bumped, k);
      assert items == init + [last];
      QuantityOfAppend(init, last, k);
    }
  }

  /** `addItem` keeps the ids unique, adds the quantity to that product's total and nothing to
      any other product's. */
  lemma AddToQuantity(items: seq<CartItem>, product: Product, q: int, k: string)
    requires UniqueIds(items)
    ensures UniqueIds(AddTo(items, product, q))
    ensures QuantityOf(AddTo(items, product, q), k) == QuantityOf(items, k) + (if k == product.produtoId then q else 0)
    ensures ItemCount(AddTo(items, product, q)) == ItemCount(items) + q
  {
    var id := product.produtoId;
    if Contains(items, id) {
      BumpUnique(items, id, q, k);
    } else {
      var x := CartItem(id, product.nome, product.preco, q, product.foto);
      QuantityOfAppend(items, x, k);
    }
  }

  /** After `addItem` the cart holds exactly the products it held before and the added one. */
  lemma AddToContains(items: seq<CartItem>, product: Product, q: int, k: string)
    ensures Contains(AddTo(items, product, q), k) <==> Contains(items, k) || k == product.produtoId
  {
    var r := AddTo(items, product, q);
    if Contains(items, product.produtoId) {
      if Contains(items, k) {
        var i :| 0 <= i < |items| && items[i].produtoId == k;
        assert r[i].produtoId == k;
      }
      if Contains(r, k) {
        var i :| 0 <= i < |r| && r[i].produtoId == k;
        assert items[i].produtoId == k;
      }
    } else {
      assert r[|items|].produtoId == product.produtoId;
      if Contains(items, k) {
        var i :| 0 <= i < |items| && items[i].produtoId == k;
        assert r[i].produtoId == k;
      }
    }
  }

  /** One call of `addItem`. */
  datatype Addition = Addition(product: Product, quantidade: int)

  /** A run of `addItem` calls, in order. */
  function AddAll(items: seq<CartItem>, adds: seq<Addition>): seq<CartItem>
    decreases |adds|
  {
    if adds == [] then items else AddAll(AddTo(items, adds[0].product, adds[0].quantidade), adds[1..])
  }

  /** Some call of the run adds the product. */
  predicate AddsProduct(adds: seq<Addition>, id: string) {
    exists i :: 0 <= i < |adds| && adds[i].product.produtoId == id
  }

  /** The quantities a run of calls adds for one product. */
  function AddedFor(adds: seq<Addition>, id: string): int {
    if adds == [] then 0 else (if adds[0].product.produtoId == id then adds[0].quantidade else 0) + AddedFor(adds[1..], id)
  }

  /** Starting from a cart with one item per product, any run of `addItem` keeps it so, each
      product's quantity grows by exactly the sum of the quantities added for it, and the cart
      holds a product exactly when it held it before or some call added it. */
  lemma {:induction false} AddAllQuantity(items: seq<CartItem>, adds: seq<Addition>, id: string)
    requires UniqueIds(items)
    ensures UniqueIds(AddAll(items, adds))
    ensures QuantityOf(AddAll(items, adds), id) == QuantityOf(items, id) + AddedFor(adds, id)
    ensures Contains(AddAll(items, adds), id) <==> Contains(items, id) || AddsProduct(adds, id)
    decreases |adds|
  {
    if adds != [] {
      var next := AddTo(items, adds[0].product, adds[0].quantidade);
      AddToQuantity(items, adds[0].product, adds[0].quantidade, id);
      AddToContains(items, adds[0].product, adds[0].quantidade, id);
      AddAllQuantity(next, adds[1..], id);
      if AddsProduct(adds, id) && adds[0].product.produtoId != id {
        var i :| 0 <= i < |adds| && adds[i].product.produtoId == id;
        assert adds[1..][i - 1].product.produtoId == id;
      }
      if AddsProduct(adds[1..], id) {
        var i :| 0 <= i < |adds[1..]| && adds[1..][i].product.produtoId == id;
        assert adds[i + 1].product.produtoId == id;
      }
    } else {
      assert !AddsProduct(adds, id);
    }
  }

  /** Removing a product takes its whole quantity out of the item count. */
  lemma {:induction false} RemoveCount(items: seq<CartItem>, id: string)
    ensures ItemCount(RemoveFrom(items, id)) == ItemCount(items) - QuantityOf(items, id)
    ensures QuantityOf(RemoveFrom(items, id), id) == 0
  {
    if items != [] {
      var init := items[..|items| - 1];
      var last := items[|items| - 1];
      RemoveCount(init, id);
      if last.produtoId != id {
        QuantityOfAppend(RemoveFrom(init, id), last, id);
      }
    }
  }

  /** `updateQuantity` with a positive quantity sets the product's quantity, never adds or
      removes an item and touches no other item; with zero or less it is `removeItem`. */
  lemma SetQuantityEffect(items: seq<CartItem>, id: string, q: int)
    ensures q <= 0 ==> SetQuantity(items, id, q) == RemoveFrom(items, id)
    ensures q > 0 ==>
      var r := SetQuantity(items, id, q);
      |r| == |items| && (Contains(r, id) <==> Contains(items, id))
      && forall i :: 0 <= i < |items| ==>
        r[i].produtoId == items[i].produtoId
        && (items[i].produtoId != id ==> r[i] == items[i])
        && (items[i].produtoId == id ==> r[i].quantidade == q)
  {
    if q > 0 {
      var r := SetQuantity(items, id, q);
      if Contains(r, id) {
        var i :| 0 <= i < |r| && r[i].produtoId == id;
        assert items[i].produtoId == id;
      }
      if Contains(items, id) {
        var i :| 0 <= i < |items| && items[i].produtoId == id;
        assert r[i].produtoId == id;
      }
    }
  }

  /** `filter` works piecewise: removing from a concatenation removes from each part and keeps
      the parts in order. */
  lemma {:induction false} RemoveFromAppend(a: seq<CartItem>, b: seq<CartItem>, id: string)
    ensures RemoveFrom(a + b, id) == RemoveFrom(a, id) + RemoveFrom(b, id)
    decreases |b|
  {
    if b == [] {
      assert a + b == a;
    } else {
      var init := b[..|b| - 1];
      assert (a + b)[..|a + b| - 1] == a + init;
      assert (a + b)[|a + b| - 1] == b[|b| - 1];
      RemoveFromAppend(a, init, id);
    }
  }

  /** `removeItem` keeps one item per product. */
  lemma {:induction false} RemoveKeepsUnique(items: seq<CartItem>, id: string)
    requires UniqueIds(items)
    ensures UniqueIds(RemoveFrom(items, id))
  {
    if items != [] {
      var init := items[..|items| - 1];
      var last := items[|items| - 1];
      LastSplit(items, last.produtoId);
      RemoveKeepsUnique(init, id);
      var rest := RemoveFrom(init, id);
      if last.produtoId != id {
        forall i | 0 <= i < |rest|
          ensures rest[i].produtoId != last.produtoId
        {
          assert rest[i] in init;
          var j :| 0 <= j < |init| && init[j] == rest[i];
        }
        assert RemoveFrom(items, id) == rest + [last];
      }
    }
  }

  /** `updateQuantity` keeps one item per product, whatever the quantity. */
  lemma SetQuantityKeepsUnique(items: seq<CartItem>, id: string, q: int)
    requires UniqueIds(items)
    ensures UniqueIds(SetQuantity(items, id, q))
  {
    if q <= 0 {
      RemoveKeepsUnique(items, id);
    }
  }

  /** An empty cart costs nothing and counts nothing. */
  lemma EmptyCartTotals()
    ensures CartTotal([]) == 0 && ItemCount([]) == 0
  {
  }

  const CartKey := "delivery_cart"

  /** A local-storage entry: a list written by the cart (`JSON.stringify(items)`), or some
      text that `JSON.parse` rejects (the empty string included). */
  datatype Stored = Items(items: seq<CartItem>) | Unparsable(text: string)

  /** The browser's local storage. */
  class LocalStorage {
    var entries: map<string, Stored>

    constructor (entries: map<string, Stored>)
      ensures this.entries == entries
    {
      this.entries := entries;
    }
  }

  /** What the load effect leaves: a missing or empty entry keeps the current list, a list is
      taken as it is, and text that does not parse empties the cart. */
  function Loaded(entries: map<string, Stored>, current: seq<CartItem>): (r: seq<CartItem>)
    ensures CartKey !in entries ==> r == current
    ensures CartKey in entries && entries[CartKey].Items? ==> r == entries[CartKey].items
    ensures CartKey in entries && entries[CartKey].Unparsable? ==>
      r == if entries[CartKey].text == "" then current else []
  {
    if CartKey !in entries then current
    else match entries[CartKey]
      case Items(saved) => saved
      case Unparsable(text) => if text == "" then current else []
  }

  /** What a saved list reads back as: the same list. */
  lemma SaveThenLoad(entries: map<string, Stored>, items: seq<CartItem>, current: seq<CartItem>)
    ensures Loaded(entries[CartKey := Items(items)], current) == items
  {
  }

  /** The state of `useCart`. */
  class Cart {
    var items: seq<CartItem>
    var isLoading: bool
    const storage: LocalStorage

    /** Once loading is over, the storage holds the current list under the cart's key. */
    predicate Valid()
      reads this, storage
    {
      !isLoading ==> CartKey in storage.entries && storage.entries[CartKey] == Items(items)
    }

    /** The first render: an empty list, still loading, nothing written. */
    constructor (storage: LocalStorage)
      ensures items == [] && isLoading && this.storage == storage
      ensures Valid()
    {
      items := [];
      isLoading := true;
      this.storage := storage;
    }

    /** The save effect: the whole list under the cart's key, only once loading is over. */
    method Persist()
      modifies storage
      ensures storage.entries == if isLoading then old(storage.entries) else old(storage.entries)[CartKey := Items(items)]
      ensures Valid() || isLoading
    {
      if !isLoading {
        storage.entries := storage.entries[CartKey := Items(items)];
      }
    }

    /** The load effect, which runs once while loading; the save effect follows it. */
    method Load()
      requires isLoading
      modifies this, storage
      ensures items == Loaded(old(storage.entries), old(items))
      ensures !isLoading
      ensures storage.entries == old(storage.entries)[CartKey := Items(items)]
      ensures Valid()
    {
      items := Loaded(storage.entries, items);
      isLoading := false;
      Persist();
    }

    /** `addItem(product, quantidade = 1)` */
    method AddItem(product: Product, quantidade: int := 1)
      requires Valid()
      modifies this, storage
      ensures items == AddTo(old(items), product, quantidade) && isLoading == old(isLoading)
      ensures storage.entries == if isLoading then old(storage.entries) else old(storage.entries)[CartKey := Items(items)]
      ensures Valid()
    {
      items := AddTo(items, product, quantidade);
      Persist();
    }

    /** `removeItem(produtoId)` */
    method RemoveItem(produtoId: string)
      requires Valid()
      modifies this, storage
      ensures items == RemoveFrom(old(items), produtoId) && isLoading == old(isLoading)
      ensures storage.entries == if isLoading then old(storage.entries) else old(storage.entries)[CartKey := Items(items)]
      ensures Valid()
    {
      items := RemoveFrom(items, produtoId);
      Persist();
    }

    /** `updateQuantity(produtoId, quantidade)` */
    method UpdateQuantity(produtoId: string, quantidade: int)
      requires Valid()
      modifies this, storage
      ensures items == SetQuantity(old(items), produtoId, quantidade) && isLoading == old(isLoading)
      ensures storage.entries == if isLoading then old(storage.entries) else old(storage.entries)[CartKey := Items(items)]
      ensures Valid()
    {
      if quantidade <= 0 {
        RemoveItem(produtoId);
        return;
      }
      items := Assign(items, produtoId, quantidade);
      Persist();
    }

    /** `clearCart()` */
    method ClearCart()
      requires Valid()
      modifies this, storage
      ensures items == [] && isLoading == old(isLoading)
      ensures CartTotal(items) == 0 && ItemCount(items) == 0
      ensures storage.entries == if isLoading then old(storage.entries) else old(storage.entries)[CartKey := Items([])]
      ensures Valid()
    {
      items := [];
      Persist();
    }
  }
}
