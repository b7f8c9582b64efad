/** The values the cart store works on, and the pure list computations its
    operations are built from: looking an entry up by id (`find`), dropping
    the entries with an id (`filter`) and rewriting the amount of the entries
    with an id (`map`). */
module CartItems {

  datatype Option<+T> = None | Some(value: T)

  /** A product as the product endpoint describes it. */
  datatype ProductData = ProductData(id: int, name: string, price: real, imageUrl: string)

  /** A cart entry: the product's data and the quantity held in the cart. */
  datatype Product = Product(id: int, name: string, price: real, imageUrl: string, amount: int)

  /** What the stock endpoint answers: the quantity available for a product id. */
  datatype Stock = Stock(id: int, amount: int)

  /** The entry built from fetched product data, `{ ...data, amount }`. */
  function Entry(data: ProductData, amount: int): (p: Product)
    ensures Data(p) == data && p.amount == amount
  {
    Product(data.id, data.name, data.price, data.imageUrl, amount)
  }

  /** The product data an entry carries, without its amount. */
  function Data(p: Product): ProductData
  {
    ProductData(p.id, p.name, p.price, p.imageUrl)
  }

  /** Some entry of the cart carries the id. */
  predicate InCart(cart: seq<Product>, id: int)
  {
    exists i :: 0 <= i < |cart| && cart[i].id == id
  }

  /** At most one entry per product id. */
  predicate UniqueIds(cart: seq<Product>)
  {
    forall i, j :: 0 <= i < j < |cart| ==> cart[i].id != cart[j].id
  }

  /** The cart's invariant: ids are unique and every entry holds at least one unit. */
  predicate WellFormed(cart: seq<Product>)
  {
    UniqueIds(cart) && forall i :: 0 <= i < |cart| ==> cart[i].amount >= 1
  }

  /** `cart.find(product => product.id === id)`: the first entry with the id. */
  function Find(cart: seq<Product>, id: int): (r: Option<Product>)
    ensures r.Some? <==> InCart(cart, id)
    ensures r.Some? ==> r.value in cart && r.value.id == id
  {
    if cart == [] then None
    else if cart[0].id == id then Some(cart[0])
    else
      assert forall i :: 0 <= i < |cart| - 1 ==> cart[1..][i] == cart[i + 1];
      Find(cart[1..], id)
  }

  /** `product?.amount || 0`: the quantity the cart already holds of the id. */
  function Quantity(cart: seq<Product>, id: int): (r: int)
    ensures !InCart(cart, id) ==> r == 0
    ensures InCart(cart, id) ==> r == Find(cart, id).value.amount
    ensures WellFormed(cart) && InCart(cart, id) ==> r >= 1
  {
    match Find(cart, id)
    case Some(p) => p.amount
    case None => 0
  }

  /** `cart.filter(item => item.id !== id)`. */
  function Without(cart: seq<Product>, id: int): (r: seq<Product>)
    ensures !InCart(r, id)
    ensures |r| <= |cart|
  {
    if cart == [] then []
    else
      var rest := Without(cart[1..], id);
      if cart[0].id == id then rest
      else
        [cart[0]] + rest
  }

  /** `cart.map(item => { if (item.id === id) item.amount++; return item; })`. */
  function Bump(cart: seq<Product>, id: int): (r: seq<Product>)
    ensures |r| == |cart|
    ensures forall i :: 0 <= i < |cart| && cart[i].id == id ==> r[i] == cart[i].(amount := cart[i].amount + 1)
    ensures forall i :: 0 <= i < |cart| && cart[i].id != id ==> r[i] == cart[i]
  {
    if cart == [] then []
    else
      var head := if cart[0].id == id then cart[0].(amount := cart[0].amount + 1) else cart[0];
      [head] + Bump(cart[1..], id)
  }

  /** `cart.map(item => { if (item.id === id) item.amount = amount; return item; })`. */
  function Assign(cart: seq<Product>, id: int, amount: int): (r: seq<Product>)
    ensures |r| == |cart|
    ensures forall i :: 0 <= i < |cart| && cart[i].id == id ==> r[i] == cart[i].(amount := amount)
    ensures forall i :: 0 <= i < |cart| && cart[i].id != id ==> r[i] == cart[i]
  {
    if cart == [] then []
    else
      var head := if cart[0].id == id then cart[0].(amount := amount) else cart[0];
      [head] + Assign(cart[1..], id, amount)
  }

  /** The first entry with the id is the one `Find` answers, so in a cart with
      unique ids `Find` answers the only entry with that id. */
  lemma {:induction false} FindFirst(cart: seq<Product>, id: int, k: nat)
    requires k < |cart| && cart[k].id == id
    requires forall j :: 0 <= j < k ==> cart[j].id != id
    ensures Find(cart, id) == Some(cart[k])
  {
    if k > 0 {
      FindFirst(cart[1..], id, k - 1);
    }
  }

  lemma FindUnique(cart: seq<Product>, id: int, k: nat)
    requires UniqueIds(cart)
    requires k < |cart| && cart[k].id == id
    ensures Find(cart, id) == Some(cart[k]) && Quantity(cart, id) == cart[k].amount
  {
    FindFirst(cart, id, k);
  }

  /** Filtering keeps every entry whose id differs, as often as the cart holds
      it, and nothing else. */
  lemma {:induction false} WithoutCount(cart: seq<Product>, id: int, p: Product)
    ensures multiset(Without(cart, id))[p] == if p.id == id then 0 else multiset(cart)[p]
  {
    if cart != [] {
      assert cart == [cart[0]] + cart[1..];
      WithoutCount(cart[1..], id, p);
    }
  }

  /** Filtering an id that is not in the cart gives back the cart itself. */
  lemma {:induction false} WithoutAbsent(cart: seq<Product>, id: int)
    requires !InCart(cart, id)
    ensures Without(cart, id) == cart
  {
    if cart != [] {
      assert forall i :: 0 <= i < |cart| - 1 ==> cart[1..][i] == cart[i + 1];
      WithoutAbsent(cart[1..], id);
    }
  }

  /** Filtering distributes over concatenation: the entries that survive keep
      their relative order. */
  lemma {:induction false} WithoutAppend(a: seq<Product>, b: seq<Product>, id: int)
    ensures Without(a + b, id) == Without(a, id) + Without(b, id)
  {
    if a != [] {
      assert (a + b)[1..] == a[1..] + b;
      WithoutAppend(a[1..], b, id);
    } else {
      assert a + b == b;
    }
  }

  /** With unique ids, removing the id held at position k removes exactly that
      entry and leaves the others in their order. */
  lemma {:induction false} WithoutUnique(cart: seq<Product>, id: int, k: nat)
    requires UniqueIds(cart)
    requires k < |cart| && cart[k].id == id
    ensures Without(cart, id) == cart[..k] + cart[k + 1..]
    ensures |Without(cart, id)| == |cart| - 1
  {
    var tail := cart[1..];
    if k == 0 {
      assert !InCart(tail, id);
      WithoutAbsent(tail, id);
    } else {
      WithoutUnique(tail, id, k - 1);
      assert cart[..k] == [cart[0]] + tail[..k - 1];
      assert cart[k + 1..] == tail[k..];
    }
  }

  /** Rewriting the amount of an id that is not in the cart changes nothing. */
  lemma AssignAbsent(cart: seq<Product>, id: int, amount: int)
    requires !InCart(cart, id)
    ensures Assign(cart, id, amount) == cart
  {
  }

  /** When every entry with the id holds n - 1, incrementing them sets them to n. */
  lemma {:induction false} BumpAsAssign(cart: seq<Product>, id: int, n: int)
    requires forall i :: 0 <= i < |cart| && cart[i].id == id ==> cart[i].amount + 1 == n
    ensures Bump(cart, id) == Assign(cart, id, n)
  {
    if cart != [] {
      BumpAsAssign(cart[1..], id, n);
    }
  }

  /** With unique ids, incrementing an entry is setting it to its quantity plus one. */
  lemma BumpIsAssign(cart: seq<Product>, id: int)
    requires UniqueIds(cart) && InCart(cart, id)
    ensures Bump(cart, id) == Assign(cart, id, Quantity(cart, id) + 1)
  {
    var k :| 0 <= k < |cart| && cart[k].id == id;
    FindUnique(cart, id, k);
    var n := cart[k].amount + 1;
    assert Quantity(cart, id) + 1 == n;
    forall i | 0 <= i < |cart| && cart[i].id == id ensures cart[i].amount + 1 == n {
      assert !(i < k) && !(k < i);
    }
    BumpAsAssign(cart, id, n);
  }

  /** Appending the entry of a new id, with amount one, keeps the invariant. */
  lemma AppendPreservesWellFormed(cart: seq<Product>, data: ProductData)
    requires WellFormed(cart) && !InCart(cart, data.id)
    ensures WellFormed(cart + [Entry(data, 1)])
  {
  }

  lemma BumpPreservesWellFormed(cart: seq<Product>, id: int)
    requires WellFormed(cart)
    ensures WellFormed(Bump(cart, id))
  {
  }

  lemma AssignPreservesWellFormed(cart: seq<Product>, id: int, amount: int)
    requires WellFormed(cart) && amount >= 1
    ensures WellFormed(Assign(cart, id, amount))
  {
  }

  lemma {:induction false} WithoutPreservesWellFormed(cart: seq<Product>, id: int)
    requires WellFormed(cart)
    ensures WellFormed(Without(cart, id))
  {
    if cart != [] {
      var tail := cart[1..];
      WithoutPreservesWellFormed(tail, id);
      var rest := Without(tail, id);
      if cart[0].id != id {
        forall p | p in rest ensures p.id != cart[0].id {
          WithoutCount(tail, id, p);
          assert p in multiset(tail);
        }
        var r := [cart[0]] + rest;
        assert forall i :: 1 <= i < |r| ==> r[i] == rest[i - 1] && r[i] in rest;
      }
    }
  }
}
