/** The cart store of the shop front-end: the cart list, the copy of it kept in
    the browser's storage slot, and the three operations that change them.
    The answers of the stock and product endpoints are parameters (`None` when
    the request failed), and the error notification an operation would show is
    its returned outcome. */
module CartState {
  import opened CartItems

  /** How an operation ended. `Done` rewrote the cart and the storage slot
      with the new list (which an update of an absent id leaves as it was); `Ignored` returned without a word; the others show a notification. */
  datatype Outcome = Done | Ignored | OutOfStock | NotFound | LookupFailed

  datatype Operation = Add | Remove | Update

  const OutOfStockMessage := "Quantidade solicitada fora de estoque"
  const AddErrorMessage := "Erro na adi\U{E7}\U{E3}o do produto"
  const RemoveErrorMessage := "Erro na remo\U{E7}\U{E3}o do produto"
  const UpdateErrorMessage := "Erro na altera\U{E7}\U{E3}o de quantidade do produto"

  /** The notification shown for an outcome of an operation, if any. */
  function Notification(op: Operation, outcome: Outcome): (m: Option<string>)
    ensures m.None? <==> outcome == Done || outcome == Ignored
    ensures outcome == OutOfStock ==> m == Some(OutOfStockMessage)
    ensures op == Remove && (outcome == NotFound || outcome == LookupFailed) ==> m == Some(RemoveErrorMessage)
    ensures op == Add && outcome == LookupFailed ==> m == Some(AddErrorMessage)
    ensures op == Update && outcome == LookupFailed ==> m == Some(UpdateErrorMessage)
  {
    match outcome
    case Done => None
    case Ignored => None
    case OutOfStock => Some(OutOfStockMessage)
    case NotFound => Some(RemoveErrorMessage)
    case LookupFailed =>
      match op
      case Add => Some(AddErrorMessage)
      case Remove => Some(RemoveErrorMessage)
      case Update => Some(UpdateErrorMessage)
  }

  /** The product endpoint answered with the product it was asked for. */
  predicate Answers(product: Option<ProductData>, productId: int)
  {
    product.Some? ==> product.value.id == productId
  }

  class CartStore {
    /** The cart as the UI sees it, in the order the products were added. */
    var cart: seq<Product>
    /** The storage slot; `None` when it is empty (absent or an empty string). */
    var stored: Option<seq<Product>>

    ghost predicate Valid()
      reads this
    {
      WellFormed(cart)
    }

    /** The storage slot holds the current cart. */
    ghost predicate Synced()
      reads this
    {
      stored == Some(cart)
    }

    /** The initial state: the saved list when the slot holds one, else empty. */
    constructor (saved: Option<seq<Product>>)
      ensures stored == saved
      ensures cart == (if saved.Some? then saved.value else [])
      ensures saved.Some? ==> Synced()
      ensures saved.None? ==> Valid()
    {
      cart := if saved.Some? then saved.value else [];
      stored := saved;
    }

    /** Adds one unit of productId, given the stock endpoint's answer and the
        product endpoint's answer (asked only when the id is new). */
    method AddProduct(productId: int, stock: Option<Stock>, product: Option<ProductData>) returns (outcome: Outcome)
      modifies this
      ensures stock.None? ==> outcome == LookupFailed
      ensures stock.Some? && stock.value.amount < Quantity(old(cart), productId) + 1 ==> outcome == OutOfStock
      ensures stock.Some? && stock.value.amount >= Quantity(old(cart), productId) + 1 ==>
        if InCart(old(cart), productId) then
          outcome == Done && cart == Bump(old(cart), productId)
        else if product.Some? then
          outcome == Done && cart == old(cart) + [Entry(product.value, 1)]
        else
          outcome == LookupFailed
      ensures outcome == Done ==> Synced()
      ensures outcome != Done ==> cart == old(cart) && stored == old(stored)
      ensures old(Valid()) && Answers(product, productId) ==> Valid()
    {
      if stock.None? {
        return LookupFailed;
      }
      var existing := Find(cart, productId);
      var productAmount := if existing.Some? then existing.value.amount else 0;
      if stock.value.amount < productAmount + 1 {
        return OutOfStock;
      }
      var updatedCart;
      if existing.None? {
        if product.None? {
          return LookupFailed;
        }
        updatedCart := cart + [Entry(product.value, 1)];
        if Valid() && Answers(product, productId) {
          AppendPreservesWellFormed(cart, product.value);
        }
      } else {
        updatedCart := Bump(cart, productId);
        if Valid() {
          BumpPreservesWellFormed(cart, productId);
        }
      }
      cart := updatedCart;
      stored := Some(updatedCart);
      outcome := Done;
    }

    /** Removes the entries of productId; an id not in the cart is an error. */
    method RemoveProduct(productId: int) returns (outcome: Outcome)
      modifies this
      ensures outcome == Done <==> InCart(old(cart), productId)
      ensures outcome != Done ==> outcome == NotFound && cart == old(cart) && stored == old(stored)
      ensures outcome == Done ==> cart == Without(old(cart), productId) && Synced()
      ensures old(Valid()) ==> Valid()
      ensures old(Valid()) && outcome == Done ==> |cart| == |old(cart)| - 1
    {
      var existing := Find(cart, productId);
      if existing.None? {
        return NotFound;
      }
      var updatedCart := Without(cart, productId);
      if Valid() {
        WithoutPreservesWellFormed(cart, productId);
        var k :| 0 <= k < |cart| && cart[k].id == productId;
        WithoutUnique(cart, productId, k);
      }
      cart := updatedCart;
      stored := Some(updatedCart);
      outcome := Done;
    }

    /** Sets the amount of productId, given the stock endpoint's answer. The
        stock is asked before the amount is looked at, and an id not in the
        cart is not an error. */
    method UpdateProductAmount(productId: int, amount: int, stock: Option<Stock>) returns (outcome: Outcome)
      modifies this
      ensures stock.None? ==> outcome == LookupFailed
      ensures stock.Some? && amount < 1 ==> outcome == Ignored
      ensures stock.Some? && 1 <= amount && stock.value.amount < amount ==> outcome == OutOfStock
      ensures stock.Some? && 1 <= amount <= stock.value.amount ==> outcome == Done
      ensures outcome == Done ==> cart == Assign(old(cart), productId, amount) && Synced()
      ensures outcome == Done && !InCart(old(cart), productId) ==> cart == old(cart)
      ensures outcome != Done ==> cart == old(cart) && stored == old(stored)
      ensures old(Valid()) ==> Valid()
    {
      if stock.None? {
        return LookupFailed;
      }
      if amount < 1 {
        return Ignored;
      }
      if amount > stock.value.amount {
        return OutOfStock;
      }
      var updatedCart := Assign(cart, productId, amount);
      if Valid() {
        AssignPreservesWellFormed(cart, productId, amount);
      }
      if !InCart(cart, productId) {
        AssignAbsent(cart, productId, amount);
      }
      cart := updatedCart;
      stored := Some(updatedCart);
      outcome := Done;
    }

    /** A fresh store started from this store's storage slot. Right after a
        successful operation it holds the same cart. */
    method Reload() returns (store: CartStore)
      ensures fresh(store)
      ensures store.stored == stored
      ensures Synced() ==> store.cart == cart && store.Synced()
    {
      store := new CartStore(stored);
    }
  }

  /** A session of additions: two products, one of them out of stock at
      first, then the first again until its stock runs out. */
  method AddSession(a: ProductData, b: ProductData)
    requires a.id != b.id
  {
    var store := new CartStore(None);
    var outcome := store.AddProduct(a.id, Some(Stock(a.id, 2)), Some(a));
    assert outcome == Done && store.cart == [Entry(a, 1)];
    outcome := store.AddProduct(b.id, Some(Stock(b.id, 0)), Some(b));
    assert outcome == OutOfStock;
    outcome := store.AddProduct(b.id, Some(Stock(b.id, 5)), Some(b));
    assert store.cart == [Entry(a, 1), Entry(b, 1)];
    outcome := store.AddProduct(a.id, Some(Stock(a.id, 2)), None);
    assert outcome == Done && store.cart == [Entry(a, 2), Entry(b, 1)];
    outcome := store.AddProduct(a.id, Some(Stock(a.id, 2)), None);
    assert outcome == OutOfStock;
  }

  /** A session on a saved cart: drop a product, drop it again, update it
      after it is gone, and start again from storage. */
  method RemoveSession(a: ProductData, b: ProductData)
    requires a.id != b.id
  {
    var saved := [Entry(a, 2), Entry(b, 1)];
    var store := new CartStore(Some(saved));
    assert saved[1].id == b.id;
    WithoutUnique(saved, b.id, 1);
    var outcome := store.RemoveProduct(b.id);
    assert outcome == Done && store.cart == [Entry(a, 2)];
    outcome := store.RemoveProduct(b.id);
    assert outcome == NotFound;
    outcome := store.UpdateProductAmount(b.id, 0, None);
    assert outcome == LookupFailed;
    outcome := store.UpdateProductAmount(b.id, 3, Some(Stock(b.id, 3)));
    assert outcome == Done && store.cart == [Entry(a, 2)];
    var reloaded := store.Reload();
    assert reloaded.cart == [Entry(a, 2)];
  }
}
