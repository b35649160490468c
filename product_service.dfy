/**
 * The catalogue/cart store of the storefront (src/services/productService.tsx):
 * the Category, Product and CartItem types, the pure values each store
 * operation builds (append, map, filter, a reduce for each total), the lemmas
 * about them, and the Store class whose methods replace its `products` and
 * `cart` fields with those values.
 *
 * Money is integer cents and `createdAt` an integer timestamp.
 */
module ProductService {
  import opened Wrappers

  // ---------------------------------------------------------------------------
  // Data model
  // ---------------------------------------------------------------------------

  /** The closed category list; `Todos` ("all") is the filter pseudo-category. */
  datatype Category = Todos | Vestidos | Saias | Blusas | Calcas | Acessorios

  /** The string value the source uses for each category. */
  function CategoryName(c: Category): string
  {
    match c
    case Todos => "todos"
    case Vestidos => "vestidos"
    case Saias => "saias"
    case Blusas => "blusas"
    case Calcas => "calças"
    case Acessorios => "acessórios"
  }

  /** The store's `categories` list, "todos" first. */
  const AllCategories: seq<Category> := [Todos, Vestidos, Saias, Blusas, Calcas, Acessorios]

  datatype Product = Product(
    id: string,
    name: string,
    description: string,
    price: int,
    discountPrice: Option<int>,
    image: string,
    category: Category,
    featured: bool,
    inStock: bool,
    createdAt: int)

  /** A cart line holds a copy of the product as it was when it was added. */
  datatype CartItem = CartItem(product: Product, quantity: int)

  /** The argument of addProduct: every product field but `id` and `createdAt`. */
  datatype ProductData = ProductData(
    name: string,
    description: string,
    price: int,
    discountPrice: Option<int>,
    image: string,
    category: Category,
    featured: bool,
    inStock: bool)

  /**
   * The argument of updateProduct, a partial product: `None` means the field
   * was not supplied. `discountPrice` has two levels because a supplied
   * `discountPrice: undefined` still overwrites the old discount when spread.
   */
  datatype Patch = Patch(
    id: Option<string>,
    name: Option<string>,
    description: Option<string>,
    price: Option<int>,
    discountPrice: Option<Option<int>>,
    image: Option<string>,
    category: Option<Category>,
    featured: Option<bool>,
    inStock: Option<bool>,
    createdAt: Option<int>)

  /** A patch that supplies no field at all. */
  const EmptyPatch := Patch(None, None, None, None, None, None, None, None, None, None)

  // ---------------------------------------------------------------------------
  // Effective price
  // ---------------------------------------------------------------------------

  /**
   * `discountPrice || price`: a discount that is present and non-zero is
   * used, whatever its relation to `price`.
   */
  function EffectivePrice(p: Product): int
  {
    if p.discountPrice.Some? && p.discountPrice.value != 0 then p.discountPrice.value else p.price
  }

  /** A discount that is strictly between zero and the base price. */
  predicate HasValidDiscount(p: Product)
  {
    p.discountPrice.Some? && 0 < p.discountPrice.value < p.price
  }

  /** Either no discount or a valid one: what the admin form writes. */
  predicate DiscountWellFormed(p: Product)
  {
    p.discountPrice.None? || HasValidDiscount(p)
  }

  /** The price under the admin form's rule: the discount counts only when `0 < d < price`. */
  function ValidDiscountPrice(p: Product): int
  {
    if HasValidDiscount(p) then p.discountPrice.value else p.price
  }

  /**
   * The store's rule agrees with the admin form's rule exactly when the discount
   * is absent, zero, valid, or equal to the price.
   */
  lemma EffectivePriceAgreesWithValidDiscount(p: Product)
    ensures EffectivePrice(p) == ValidDiscountPrice(p) <==>
            (p.discountPrice.None? || p.discountPrice.value == 0 || HasValidDiscount(p)
             || p.discountPrice.value == p.price)
    ensures DiscountWellFormed(p) ==> EffectivePrice(p) == ValidDiscountPrice(p)
    ensures HasValidDiscount(p) ==> 0 < EffectivePrice(p) < p.price
  {
  }

  // ---------------------------------------------------------------------------
  // Cart values
  // ---------------------------------------------------------------------------

  /** What one cart line contributes to getTotalPrice. */
  function LinePrice(line: CartItem): int
  {
    EffectivePrice(line.product) * line.quantity
  }

  predicate InCart(cart: seq<CartItem>, id: string)
  {
    exists i :: 0 <= i < |cart| && cart[i].product.id == id
  }

  /** The cart invariant: no two lines share a product id. */
  predicate UniqueLines(cart: seq<CartItem>)
  {
    forall i, j :: 0 <= i < j < |cart| ==> cart[i].product.id != cart[j].product.id
  }

  /** `cart.find(item => item.product.id === id)`. */
  function FindLine(cart: seq<CartItem>, id: string): (r: Option<CartItem>)
    ensures r.Some? ==> r.value in cart && r.value.product.id == id
    ensures r.None? <==> !InCart(cart, id)
  {
    if cart == [] then None
    else if cart[0].product.id == id then Some(cart[0])
    else
      var r := FindLine(cart[1..], id);
      assert InCart(cart, id) ==> InCart(cart[1..], id) by {
        if InCart(cart, id) {
          var i :| 0 <= i < |cart| && cart[i].product.id == id;
          assert cart[1..][i - 1].product.id == id;
        }
      }
      assert InCart(cart[1..], id) ==> InCart(cart, id) by {
        if InCart(cart[1..], id) {
          var i :| 0 <= i < |cart[1..]| && cart[1..][i].product.id == id;
          assert cart[i + 1].product.id == id;
        }
      }
      r
  }

  /** The map of addToCart for a product already in the cart. */
  function AddQuantity(cart: seq<CartItem>, id: string, q: int): seq<CartItem>
  {
    seq(|cart|, i requires 0 <= i < |cart| =>
      if cart[i].product.id == id then cart[i].(quantity := cart[i].quantity + q) else cart[i])
  }

  /** The cart after addToCart(product, q); `find` finds a line exactly when InCart holds (FindLine). */
  function AddedToCart(cart: seq<CartItem>, product: Product, q: int): seq<CartItem>
  {
    if InCart(cart, product.id) then AddQuantity(cart, product.id, q)
    else cart + [CartItem(product, q)]
  }

  /** The filter of removeFromCart: every line of another product, in order. */
  function WithoutProduct(cart: seq<CartItem>, id: string): (r: seq<CartItem>)
    ensures |r| <= |cart|
    ensures forall line :: line in r <==> line in cart && line.product.id != id
  {
    if cart == [] then []
    else (if cart[0].product.id != id then [cart[0]] else []) + WithoutProduct(cart[1..], id)
  }

  /** The map of updateCartQuantity for a positive quantity. */
  function SetQuantity(cart: seq<CartItem>, id: string, q: int): seq<CartItem>
  {
    seq(|cart|, i requires 0 <= i < |cart| =>
      if cart[i].product.id == id then cart[i].(quantity := q) else cart[i])
  }

  /** getTotalPrice: the sum of effective price times quantity over the lines. */
  function TotalPrice(cart: seq<CartItem>): int
  {
    if cart == [] then 0 else LinePrice(cart[0]) + TotalPrice(cart[1..])
  }

  /** getTotalItems: the sum of the quantities (not the number of lines). */
  function TotalItems(cart: seq<CartItem>): int
  {
    if cart == [] then 0 else cart[0].quantity + TotalItems(cart[1..])
  }

  // ---------------------------------------------------------------------------
  // Lemmas about the cart
  // ---------------------------------------------------------------------------

  /** In a cart without duplicates, find returns the one line of that product. */
  lemma {:induction false} FindLineAt(cart: seq<CartItem>, k: int)
    requires UniqueLines(cart) && 0 <= k < |cart|
    ensures FindLine(cart, cart[k].product.id) == Some(cart[k])
  {
    if k > 0 {
      assert cart[0].product.id != cart[k].product.id;
      assert cart[1..][k - 1] == cart[k];
      FindLineAt(cart[1..], k - 1);
    }
  }

  /** In a cart without duplicates, the map of addToCart changes the one matching line only. */
  lemma AddQuantityAt(cart: seq<CartItem>, k: int, q: int)
    requires UniqueLines(cart) && 0 <= k < |cart|
    ensures var r := AddQuantity(cart, cart[k].product.id, q);
      && |r| == |cart|
      && r[k] == CartItem(cart[k].product, cart[k].quantity + q)
      && forall i :: 0 <= i < |cart| && i != k ==> r[i] == cart[i]
  {
    forall i | 0 <= i < |cart| && i != k ensures cart[i].product.id != cart[k].product.id {
      if i < k {
        assert cart[i].product.id != cart[k].product.id;
      } else {
        assert cart[k].product.id != cart[i].product.id;
      }
    }
  }

  /**
   * addToCart on a product already in the cart adds the quantity to that
   * line only and keeps length and order; otherwise it appends exactly one
   * new line at the end.
   */
  lemma AddToCartShape(cart: seq<CartItem>, product: Product, q: int)
    requires UniqueLines(cart)
    ensures var r := AddedToCart(cart, product, q);
      && (InCart(cart, product.id) ==>
            |r| == |cart| &&
            exists k :: 0 <= k < |cart| && cart[k].product.id == product.id &&
              r[k] == CartItem(cart[k].product, cart[k].quantity + q) &&
              forall i :: 0 <= i < |cart| && i != k ==> r[i] == cart[i])
      && (!InCart(cart, product.id) ==> r == cart + [CartItem(product, q)])
  {
    if InCart(cart, product.id) {
      var k :| 0 <= k < |cart| && cart[k].product.id == product.id;
      AddQuantityAt(cart, k, q);
    }
  }

  lemma UniqueAfterAdd(cart: seq<CartItem>, product: Product, q: int)
    requires UniqueLines(cart)
    ensures UniqueLines(AddedToCart(cart, product, q))
  {
  }

  lemma {:induction false} UniqueAfterRemove(cart: seq<CartItem>, id: string)
    requires UniqueLines(cart)
    ensures UniqueLines(WithoutProduct(cart, id))
  {
    if cart != [] {
      var rest := WithoutProduct(cart[1..], id);
      assert UniqueLines(cart[1..]) by {
        forall i, j | 0 <= i < j < |cart[1..]|
          ensures cart[1..][i].product.id != cart[1..][j].product.id
        {
          assert cart[1..][i] == cart[i + 1] && cart[1..][j] == cart[j + 1];
        }
      }
      UniqueAfterRemove(cart[1..], id);
      if cart[0].product.id != id {
        forall j | 0 <= j < |rest| ensures rest[j].product.id != cart[0].product.id {
          assert rest[j] in cart[1..];
          var m :| 0 <= m < |cart[1..]| && cart[1..][m] == rest[j];
          assert cart[m + 1] == rest[j];
        }
        assert WithoutProduct(cart, id) == [cart[0]] + rest;
      } else {
        assert WithoutProduct(cart, id) == rest;
      }
    }
  }

  lemma UniqueAfterSetQuantity(cart: seq<CartItem>, id: string, q: int)
    requires UniqueLines(cart)
    ensures UniqueLines(SetQuantity(cart, id, q))
  {
  }

  /** removeFromCart of an id that has no line leaves the cart as it is. */
  lemma {:induction false} RemoveAbsent(cart: seq<CartItem>, id: string)
    requires !InCart(cart, id)
    ensures WithoutProduct(cart, id) == cart
  {
    if cart != [] {
      assert cart[0].product.id != id;
      RemoveAbsent(cart[1..], id);
      assert cart == [cart[0]] + cart[1..];
    }
  }

  /** The filter keeps relative order: it distributes over concatenation. */
  /** The head and tail of a + b when a is not empty. */
  lemma TailOfAppend<T>(a: seq<T>, b: seq<T>)
    requires a != []
    ensures (a + b)[0] == a[0] && (a + b)[1..] == a[1..] + b
  {
  }

  /** If l is h + x and r is h + (x + y), then r is l + y. */
  lemma ConsAppend<T>(h: seq<T>, x: seq<T>, y: seq<T>, l: seq<T>, r: seq<T>)
    requires l == h + x && r == h + (x + y)
    ensures r == l + y
  {
  }

  lemma {:induction false} RemoveAppend(a: seq<CartItem>, b: seq<CartItem>, id: string)
    ensures WithoutProduct(a + b, id) == WithoutProduct(a, id) + WithoutProduct(b, id)
  {
    if a == [] {
      assert a + b == b;
    } else {
      var head := if a[0].product.id != id then [a[0]] else [];
      TailOfAppend(a, b);
      RemoveAppend(a[1..], b, id);
      ConsAppend(head, WithoutProduct(a[1..], id), WithoutProduct(b, id),
                 WithoutProduct(a, id), WithoutProduct(a + b, id));
    }
  }

  /** In a cart without duplicates, no line before or after the k-th has its product id. */
  lemma NoOtherLine(cart: seq<CartItem>, k: int)
    requires UniqueLines(cart) && 0 <= k < |cart|
    ensures !InCart(cart[..k], cart[k].product.id)
    ensures !InCart(cart[k + 1..], cart[k].product.id)
  {
    var id := cart[k].product.id;
    var pre, post := cart[..k], cart[k + 1..];
    forall i | 0 <= i < |pre| ensures pre[i].product.id != id {
      assert pre[i] == cart[i];
    }
    forall i | 0 <= i < |post| ensures post[i].product.id != id {
      assert post[i] == cart[k + 1 + i];
    }
  }

  /** In a cart without duplicates, removeFromCart drops exactly the one line of that product. */
  lemma RemoveLineAt(cart: seq<CartItem>, k: int)
    requires UniqueLines(cart) && 0 <= k < |cart|
    ensures WithoutProduct(cart, cart[k].product.id) == cart[..k] + cart[k + 1..]
  {
    var id := cart[k].product.id;
    var pre, tail, post := cart[..k], cart[k..], cart[k + 1..];
    assert cart == pre + tail;
    RemoveAppend(pre, tail, id);
    assert tail[0] == cart[k] && tail[1..] == post;
    assert WithoutProduct(tail, id) == WithoutProduct(post, id);
    NoOtherLine(cart, k);
    RemoveAbsent(pre, id);
    RemoveAbsent(post, id);
  }

  lemma {:induction false} TotalsAppend(a: seq<CartItem>, b: seq<CartItem>)
    ensures TotalPrice(a + b) == TotalPrice(a) + TotalPrice(b)
    ensures TotalItems(a + b) == TotalItems(a) + TotalItems(b)
  {
    if a == [] {
      assert a + b == b;
    } else {
      assert (a + b)[0] == a[0] && (a + b)[1..] == a[1..] + b;
      TotalsAppend(a[1..], b);
    }
  }

  /** Changing one line changes each total by that line's difference. */
  lemma TotalsPointUpdate(c: seq<CartItem>, d: seq<CartItem>, k: int)
    requires |c| == |d| && 0 <= k < |c|
    requires forall i :: 0 <= i < |c| && i != k ==> d[i] == c[i]
    ensures TotalPrice(d) == TotalPrice(c) - LinePrice(c[k]) + LinePrice(d[k])
    ensures TotalItems(d) == TotalItems(c) - c[k].quantity + d[k].quantity
  {
    assert c == c[..k] + [c[k]] + c[k + 1..];
    assert d == d[..k] + [d[k]] + d[k + 1..];
    assert d[..k] == c[..k] && d[k + 1..] == c[k + 1..];
    TotalsAppend(c[..k] + [c[k]], c[k + 1..]);
    TotalsAppend(c[..k], [c[k]]);
    TotalsAppend(d[..k] + [d[k]], d[k + 1..]);
    TotalsAppend(d[..k], [d[k]]);
  }

  /** The product whose price addToCart adds: the cart's own snapshot when one exists. */
  function PricedSnapshot(cart: seq<CartItem>, product: Product): Product
  {
    match FindLine(cart, product.id)
    case Some(line) => line.product
    case None => product
  }

  /**
   * addToCart raises getTotalItems by exactly the quantity, and getTotalPrice
   * by that quantity times the effective price of the snapshot already in the
   * cart (not of the product passed in) when there is one.
   */
  lemma TotalsAfterAdd(cart: seq<CartItem>, product: Product, q: int)
    requires UniqueLines(cart)
    ensures TotalItems(AddedToCart(cart, product, q)) == TotalItems(cart) + q
    ensures TotalPrice(AddedToCart(cart, product, q)) ==
            TotalPrice(cart) + q * EffectivePrice(PricedSnapshot(cart, product))
  {
    if InCart(cart, product.id) {
      var k :| 0 <= k < |cart| && cart[k].product.id == product.id;
      FindLineAt(cart, k);
      AddQuantityAt(cart, k, q);
      var r := AddQuantity(cart, product.id, q);
      TotalsPointUpdate(cart, r, k);
      LinePriceAfterAdd(cart[k], q);
    } else {
      TotalsAppend(cart, [CartItem(product, q)]);
      assert TotalPrice([CartItem(product, q)]) == EffectivePrice(product) * q;
    }
  }

  lemma LinePriceAfterAdd(line: CartItem, q: int)
    ensures LinePrice(CartItem(line.product, line.quantity + q)) ==
            LinePrice(line) + q * EffectivePrice(line.product)
  {
    var e := EffectivePrice(line.product);
    assert e * (line.quantity + q) == e * line.quantity + e * q;
  }

  /** removeFromCart lowers each total by exactly what the removed line contributed. */
  lemma TotalsAfterRemove(cart: seq<CartItem>, id: string)
    requires UniqueLines(cart)
    ensures TotalItems(WithoutProduct(cart, id)) ==
            TotalItems(cart) - (match FindLine(cart, id) case Some(l) => l.quantity case None => 0)
    ensures TotalPrice(WithoutProduct(cart, id)) ==
            TotalPrice(cart) - (match FindLine(cart, id) case Some(l) => LinePrice(l) case None => 0)
  {
    if InCart(cart, id) {
      var k :| 0 <= k < |cart| && cart[k].product.id == id;
      FindLineAt(cart, k);
      RemoveLineAt(cart, k);
      TotalsWithoutLine(cart, k);
    } else {
      RemoveAbsent(cart, id);
    }
  }

  /** Dropping the k-th line lowers each total by that line's contribution. */
  lemma TotalsWithoutLine(cart: seq<CartItem>, k: int)
    requires 0 <= k < |cart|
    ensures TotalItems(cart[..k] + cart[k + 1..]) == TotalItems(cart) - cart[k].quantity
    ensures TotalPrice(cart[..k] + cart[k + 1..]) == TotalPrice(cart) - LinePrice(cart[k])
  {
    var pre, tail, post := cart[..k], cart[k..], cart[k + 1..];
    assert cart == pre + tail;
    assert tail[0] == cart[k] && tail[1..] == post;
    TotalsAppend(pre, tail);
    TotalsAppend(pre, post);
  }

  /** updateCartQuantity with a positive quantity replaces that line's quantity in the totals. */
  lemma TotalsAfterSetQuantity(cart: seq<CartItem>, id: string, q: int)
    requires UniqueLines(cart)
    ensures TotalItems(SetQuantity(cart, id, q)) ==
            TotalItems(cart) + (match FindLine(cart, id) case Some(l) => q - l.quantity case None => 0)
    ensures TotalPrice(SetQuantity(cart, id, q)) ==
            TotalPrice(cart) + (match FindLine(cart, id)
                                case Some(l) => LinePrice(CartItem(l.product, q)) - LinePrice(l)
                                case None => 0)
  {
    var r := SetQuantity(cart, id, q);
    if InCart(cart, id) {
      var k :| 0 <= k < |cart| && cart[k].product.id == id;
      FindLineAt(cart, k);
      forall i | 0 <= i < |cart| && i != k ensures r[i] == cart[i] {
        if i < k {
          assert cart[i].product.id != cart[k].product.id;
        } else {
          assert cart[k].product.id != cart[i].product.id;
        }
      }
      TotalsPointUpdate(cart, r, k);
    } else {
      assert r == cart;
    }
  }

  /** Sum of a list of quantities. */
  function Sum(qs: seq<int>): int
  {
    if qs == [] then 0 else qs[0] + Sum(qs[1..])
  }

  /** A series of addToCart calls with the same product. */
  function AddAll(cart: seq<CartItem>, product: Product, qs: seq<int>): seq<CartItem>
    decreases |qs|
  {
    if qs == [] then cart else AddAll(AddedToCart(cart, product, qs[0]), product, qs[1..])
  }

  /** addToCart on a cart whose last line is the only one of that product bumps that line. */
  lemma AddToLastLine(base: seq<CartItem>, product: Product, n: int, q: int)
    requires !InCart(base, product.id)
    ensures AddedToCart(base + [CartItem(product, n)], product, q) == base + [CartItem(product, n + q)]
  {
    var cart := base + [CartItem(product, n)];
    assert cart[|base|].product.id == product.id;
    var r := AddQuantity(cart, product.id, q);
    forall i | 0 <= i < |base| ensures r[i] == base[i] {
      assert cart[i] == base[i];
    }
    assert r == base + [CartItem(product, n + q)];
  }

  /** One step of AddAll: the first quantity is added, the rest follow. */
  lemma AddAllStep(cart: seq<CartItem>, next: seq<CartItem>, product: Product, qs: seq<int>)
    requires qs != [] && AddedToCart(cart, product, qs[0]) == next
    ensures AddAll(cart, product, qs) == AddAll(next, product, qs[1..])
  {
  }

  lemma {:induction false} AddAllToLastLine(base: seq<CartItem>, product: Product, n: int, qs: seq<int>)
    requires !InCart(base, product.id)
    ensures AddAll(base + [CartItem(product, n)], product, qs) == base + [CartItem(product, n + Sum(qs))]
    decreases |qs|
  {
    if qs != [] {
      AddToLastLine(base, product, n, qs[0]);
      AddAllStep(base + [CartItem(product, n)], base + [CartItem(product, n + qs[0])], product, qs);
      AddAllToLastLine(base, product, n + qs[0], qs[1..]);
      assert n + qs[0] + Sum(qs[1..]) == n + Sum(qs);
    }
  }

  /**
   * Adding one product several times to a cart that does not hold it yields
   * exactly one new line, at the end, whose quantity is the sum of the
   * quantities passed.
   */
  lemma RepeatedAdds(cart: seq<CartItem>, product: Product, qs: seq<int>)
    requires !InCart(cart, product.id) && qs != []
    ensures AddAll(cart, product, qs) == cart + [CartItem(product, Sum(qs))]
  {
    assert FindLine(cart, product.id).None?;
    var first := AddedToCart(cart, product, qs[0]);
    assert first == cart + [CartItem(product, qs[0])];
    assert AddAll(cart, product, qs) == AddAll(first, product, qs[1..]);
    AddAllToLastLine(cart, product, qs[0], qs[1..]);
    assert Sum(qs) == qs[0] + Sum(qs[1..]);
  }

  /** A two-line cart: two of a 100-cent product and three of a 50-cent product discounted to 40. */
  lemma TotalsExample()
    ensures var a := Product("a", "A", "", 100, None, "", Vestidos, false, true, 0);
            var b := Product("b", "B", "", 50, Some(40), "", Saias, false, true, 0);
            var cart := [CartItem(a, 2), CartItem(b, 3)];
            TotalPrice(cart) == 320 && TotalItems(cart) == 5
  {
    var a := Product("a", "A", "", 100, None, "", Vestidos, false, true, 0);
    var b := Product("b", "B", "", 50, Some(40), "", Saias, false, true, 0);
    var cart := [CartItem(a, 2), CartItem(b, 3)];
    assert cart[1..] == [CartItem(b, 3)] && cart[1..][1..] == [];
    assert TotalPrice(cart[1..]) == 120 && TotalItems(cart[1..]) == 3;
  }

  // ---------------------------------------------------------------------------
  // Product values
  // ---------------------------------------------------------------------------

  predicate HasProductId(ps: seq<Product>, id: string)
  {
    exists i :: 0 <= i < |ps| && ps[i].id == id
  }

  predicate UniqueProductIds(ps: seq<Product>)
  {
    forall i, j :: 0 <= i < j < |ps| ==> ps[i].id != ps[j].id
  }

  /** `{...productData, id, createdAt}`. */
  function NewProduct(data: ProductData, id: string, createdAt: int): Product
  {
    Product(id, data.name, data.description, data.price, data.discountPrice, data.image,
            data.category, data.featured, data.inStock, createdAt)
  }

  function Override<T>(supplied: Option<T>, current: T): T
  {
    match supplied
    case Some(v) => v
    case None => current
  }

  /** `{...product, ...productData}`: each supplied field overwrites the old one. */
  function Patched(p: Product, patch: Patch): Product
  {
    Product(
      Override(patch.id, p.id),
      Override(patch.name, p.name),
      Override(patch.description, p.description),
      Override(patch.price, p.price),
      Override(patch.discountPrice, p.discountPrice),
      Override(patch.image, p.image),
      Override(patch.category, p.category),
      Override(patch.featured, p.featured),
      Override(patch.inStock, p.inStock),
      Override(patch.createdAt, p.createdAt))
  }

  /** The map of updateProduct. */
  function UpdatedProducts(ps: seq<Product>, id: string, patch: Patch): seq<Product>
  {
    seq(|ps|, i requires 0 <= i < |ps| => if ps[i].id == id then Patched(ps[i], patch) else ps[i])
  }

  /** The filter of deleteProduct. */
  function WithoutProductId(ps: seq<Product>, id: string): (r: seq<Product>)
    ensures |r| <= |ps|
    ensures forall p :: p in r <==> p in ps && p.id != id
  {
    if ps == [] then []
    else (if ps[0].id != id then [ps[0]] else []) + WithoutProductId(ps[1..], id)
  }

  // ---------------------------------------------------------------------------
  // Lemmas about products
  // ---------------------------------------------------------------------------

  /**
   * A patch changes nothing the caller did not supply: the empty patch is the
   * identity, and a patch of the price alone changes the price alone.
   */
  lemma PatchOnlySuppliedFields(p: Product, price: int)
    ensures Patched(p, EmptyPatch) == p
    ensures Patched(p, EmptyPatch.(price := Some(price))) == p.(price := price)
    ensures Patched(p, EmptyPatch.(discountPrice := Some(None))).discountPrice == None
  {
  }

  /**
   * updateProduct changes only products with that id, to the patched value;
   * it is a no-op for an unknown id; without a supplied id or createdAt the
   * identities and timestamps, and so their distinctness, are kept.
   */
  lemma UpdateProductSpec(ps: seq<Product>, id: string, patch: Patch)
    ensures var r := UpdatedProducts(ps, id, patch);
      && |r| == |ps|
      && (forall i :: 0 <= i < |ps| && ps[i].id != id ==> r[i] == ps[i])
      && (forall i :: 0 <= i < |ps| && ps[i].id == id ==> r[i] == Patched(ps[i], patch))
      && (!HasProductId(ps, id) ==> r == ps)
      && (patch.id.None? && patch.createdAt.None? ==>
            forall i :: 0 <= i < |ps| ==> r[i].id == ps[i].id && r[i].createdAt == ps[i].createdAt)
      && (patch.id.None? && UniqueProductIds(ps) ==> UniqueProductIds(r))
  {
  }

  lemma {:induction false} DeleteAbsent(ps: seq<Product>, id: string)
    requires !HasProductId(ps, id)
    ensures WithoutProductId(ps, id) == ps
  {
    if ps != [] {
      var tail := ps[1..];
      assert ps[0].id != id;
      assert !HasProductId(tail, id) by {
        forall i | 0 <= i < |tail| ensures tail[i].id != id {
          assert tail[i] == ps[i + 1];
        }
      }
      DeleteAbsent(tail, id);
      assert WithoutProductId(ps, id) == [ps[0]] + tail;
      assert ps == [ps[0]] + tail;
    }
  }

  lemma {:induction false} DeleteAppend(a: seq<Product>, b: seq<Product>, id: string)
    ensures WithoutProductId(a + b, id) == WithoutProductId(a, id) + WithoutProductId(b, id)
  {
    if a == [] {
      assert a + b == b;
    } else {
      var head := if a[0].id != id then [a[0]] else [];
      TailOfAppend(a, b);
      DeleteAppend(a[1..], b, id);
      ConsAppend(head, WithoutProductId(a[1..], id), WithoutProductId(b, id),
                 WithoutProductId(a, id), WithoutProductId(a + b, id));
    }
  }

  /** With distinct ids, no product before or after the k-th has its id. */
  lemma NoOtherProduct(ps: seq<Product>, k: int)
    requires UniqueProductIds(ps) && 0 <= k < |ps|
    ensures !HasProductId(ps[..k], ps[k].id)
    ensures !HasProductId(ps[k + 1..], ps[k].id)
  {
    var id := ps[k].id;
    var pre, post := ps[..k], ps[k + 1..];
    forall i | 0 <= i < |pre| ensures pre[i].id != id {
      assert pre[i] == ps[i];
    }
    forall i | 0 <= i < |post| ensures post[i].id != id {
      assert post[i] == ps[k + 1 + i];
    }
  }

  /** With distinct ids, deleteProduct removes exactly the one product with that id. */
  lemma DeleteAt(ps: seq<Product>, k: int)
    requires UniqueProductIds(ps) && 0 <= k < |ps|
    ensures WithoutProductId(ps, ps[k].id) == ps[..k] + ps[k + 1..]
  {
    var id := ps[k].id;
    var pre, tail, post := ps[..k], ps[k..], ps[k + 1..];
    assert ps == pre + tail;
    DeleteAppend(pre, tail, id);
    assert tail[0] == ps[k] && tail[1..] == post;
    assert WithoutProductId(tail, id) == WithoutProductId(post, id);
    NoOtherProduct(ps, k);
    DeleteAbsent(pre, id);
    DeleteAbsent(post, id);
  }

  /** addProduct with a fresh id keeps product ids distinct and makes the new id present. */
  lemma AddProductKeepsIdsUnique(ps: seq<Product>, data: ProductData, id: string, now: int)
    requires UniqueProductIds(ps) && !HasProductId(ps, id)
    ensures UniqueProductIds(ps + [NewProduct(data, id, now)])
    ensures HasProductId(ps + [NewProduct(data, id, now)], id)
  {
    var r := ps + [NewProduct(data, id, now)];
    assert r[|ps|].id == id;
    forall i, j | 0 <= i < j < |r| ensures r[i].id != r[j].id {
      if j == |ps| {
        assert r[i] == ps[i];
      }
    }
  }

  // ---------------------------------------------------------------------------
  // The store
  // ---------------------------------------------------------------------------

  /** useProductStore: the one mutable state container. */
  class Store {
    var products: seq<Product>
    var cart: seq<CartItem>
    const categories: seq<Category> := AllCategories

    /** The cart invariant every operation keeps. */
    ghost predicate Valid()
      reads this
    {
      UniqueLines(cart)
    }

    /** The store starts from a given product list and an empty cart. */
    constructor (initial: seq<Product>)
      ensures Valid()
      ensures products == initial && cart == []
      ensures categories == [Todos, Vestidos, Saias, Blusas, Calcas, Acessorios]
    {
      products := initial;
      cart := [];
    }

    /** addProduct: append the product with a fresh id and the current time. */
    method AddProduct(data: ProductData, freshId: string, now: int)
      requires Valid()
      requires !HasProductId(products, freshId)
      modifies this
      ensures Valid()
      ensures products == old(products) + [NewProduct(data, freshId, now)]
      ensures cart == old(cart)
    {
      products := products + [NewProduct(data, freshId, now)];
    }

    method UpdateProduct(id: string, patch: Patch)
      requires Valid()
      modifies this
      ensures Valid()
      ensures products == UpdatedProducts(old(products), id, patch)
      ensures cart == old(cart)
    {
      products := UpdatedProducts(products, id, patch);
    }

    /** deleteProduct does not touch the cart: a line for the deleted product stays. */
    method DeleteProduct(id: string)
      requires Valid()
      modifies this
      ensures Valid()
      ensures products == WithoutProductId(old(products), id)
      ensures cart == old(cart)
    {
      products := WithoutProductId(products, id);
    }

    method AddToCart(product: Product, quantity: int)
      requires Valid()
      modifies this
      ensures Valid()
      ensures cart == AddedToCart(old(cart), product, quantity)
      ensures products == old(products)
    {
      UniqueAfterAdd(cart, product, quantity);
      cart := AddedToCart(cart, product, quantity);
    }

    method RemoveFromCart(productId: string)
      requires Valid()
      modifies this
      ensures Valid()
      ensures cart == WithoutProduct(old(cart), productId)
      ensures products == old(products)
    {
      UniqueAfterRemove(cart, productId);
      cart := WithoutProduct(cart, productId);
    }

    /**
     * A quantity of zero or less acts exactly as removeFromCart; a positive
     * one sets the matching line's quantity to that value, in place.
     */
    method UpdateCartQuantity(productId: string, quantity: int)
      requires Valid()
      modifies this
      ensures Valid()
      ensures quantity <= 0 ==> cart == WithoutProduct(old(cart), productId)
      ensures quantity > 0 ==> cart == SetQuantity(old(cart), productId, quantity)
      ensures quantity > 0 ==>
        |cart| == |old(cart)| &&
        forall i :: 0 <= i < |cart| ==>
          cart[i].product == old(cart)[i].product &&
          cart[i].quantity == (if cart[i].product.id == productId then quantity else old(cart)[i].quantity)
      ensures !InCart(old(cart), productId) ==> cart == old(cart)
      ensures products == old(products)
    {
      if quantity <= 0 {
        RemoveFromCart(productId);
        if !InCart(old(cart), productId) {
          RemoveAbsent(old(cart), productId);
        }
        return;
      }
      UniqueAfterSetQuantity(cart, productId, quantity);
      cart := SetQuantity(cart, productId, quantity);
    }

    method ClearCart()
      requires Valid()
      modifies this
      ensures Valid()
      ensures cart == [] && products == old(products)
      ensures GetTotalPrice() == 0 && GetTotalItems() == 0
    {
      cart := [];
    }

    function GetTotalPrice(): int
      reads this
    {
      TotalPrice(cart)
    }

    function GetTotalItems(): int
      reads this
    {
      TotalItems(cart)
    }
  }
}
