/**
 * The e-commerce suite: a product catalogue with search, a shopping cart,
 * product creation, and restocking from a scanned manifest.
 */
module Shop {
  import opened Common
  import opened Types
  import opened Text
  import Seqs

  datatype Variant = Variant(id: string, title: string, sku: string, price: int, inventoryQuantity: int)

  datatype Product = Product(
    id: string, title: string, handle: string, subtitle: string, status: string,
    inventoryQuantity: int, variants: seq<Variant>, thumbnail: string)

  datatype CartItem = CartItem(
    productId: string, variantId: string, title: string, quantity: int, price: int, thumbnail: string)

  /** The create-product form, with price and inventory already read as numbers. */
  datatype ProductForm = ProductForm(
    title: string, subtitle: string, price: int, inventory: int, sku: string, thumbnail: string)

  const MockProducts: seq<Product> := [
    Product("prod_1", "Elite Logistics Terminal", "elite-logistics-terminal", "Enterprise Edition",
      "published", 142, [Variant("var_1", "Default", "LOG-EL-001", 1200, 142)],
      "https://images.unsplash.com/photo-1518770660439-4636190af475?auto=format&fit=crop&q=80&w=200"),
    Product("prod_2", "Sika Node Tracker", "sika-node-tracker", "GPS High Precision",
      "published", 8, [Variant("var_2", "Default", "GPS-SW-058", 450, 8)],
      "https://images.unsplash.com/photo-1555664424-778a1e5e1b48?auto=format&fit=crop&q=80&w=200")
  ]

  // ---------------------------------------------------------------- cart

  predicate InCart(cart: seq<CartItem>, productId: string) {
    exists i :: 0 <= i < |cart| && cart[i].productId == productId
  }

  /** No product appears on two lines of the cart. */
  predicate UniqueProductIds(cart: seq<CartItem>) {
    forall i, j :: 0 <= i < j < |cart| ==> cart[i].productId != cart[j].productId
  }

  /** The line a product gets when it first enters the cart: its first variant, quantity 1. */
  function NewCartItem(product: Product): CartItem
    requires |product.variants| > 0
  {
    CartItem(product.id, product.variants[0].id, product.title, 1,
             product.variants[0].price, product.thumbnail)
  }

  function Incremented(cart: seq<CartItem>, productId: string): seq<CartItem> {
    seq(|cart|, i requires 0 <= i < |cart| =>
      if cart[i].productId == productId then cart[i].(quantity := cart[i].quantity + 1) else cart[i])
  }

  /**
   * The cart updater of `addToCart`. A product already in the cart has its
   * quantity raised; otherwise a new line is appended. `None` when the product
   * is new to the cart and has no variant (reading the first variant's id
   * throws).
   */
  function AddedToCart(cart: seq<CartItem>, product: Product): (r: Option<seq<CartItem>>)
    ensures r.None? <==> !InCart(cart, product.id) && |product.variants| == 0
  {
    if InCart(cart, product.id) then Some(Incremented(cart, product.id))
    else if |product.variants| == 0 then None
    else Some(cart + [NewCartItem(product)])
  }

  /** The cart updater of `removeFromCart`. */
  function RemovedFromCart(cart: seq<CartItem>, productId: string): seq<CartItem> {
    Seqs.Filter(cart, (item: CartItem) => item.productId != productId)
  }

  function LineTotal(item: CartItem): int {
    item.price * item.quantity
  }

  /** `cart.reduce((sum, item) => sum + item.price * item.quantity, 0)`. */
  function CartTotal(cart: seq<CartItem>): int {
    Seqs.Sum(cart, LineTotal)
  }

  /** A product not yet in the cart is appended as one line: quantity 1, its first variant's id and price. */
  lemma AddNewProduct(cart: seq<CartItem>, product: Product)
    requires !InCart(cart, product.id) && |product.variants| > 0
    ensures AddedToCart(cart, product) == Some(cart + [NewCartItem(product)])
    ensures NewCartItem(product).quantity == 1
    ensures NewCartItem(product).variantId == product.variants[0].id
    ensures NewCartItem(product).price == product.variants[0].price
  {
  }

  /**
   * A product already in the cart: the cart keeps its length, the product's
   * line gains exactly one unit and nothing else changes.
   */
  lemma AddExistingProduct(cart: seq<CartItem>, product: Product, k: nat)
    requires UniqueProductIds(cart)
    requires k < |cart| && cart[k].productId == product.id
    ensures AddedToCart(cart, product).Some?
    ensures var r := AddedToCart(cart, product).value;
      && |r| == |cart|
      && r[k] == cart[k].(quantity := cart[k].quantity + 1)
      && forall i :: 0 <= i < |cart| && i != k ==> r[i] == cart[i]
  {
    assert InCart(cart, product.id);
  }

  /** Adding never puts the same product on two lines. */
  lemma AddKeepsUnique(cart: seq<CartItem>, product: Product)
    requires UniqueProductIds(cart)
    requires AddedToCart(cart, product).Some?
    ensures UniqueProductIds(AddedToCart(cart, product).value)
  {
    if !InCart(cart, product.id) {
      var r := AddedToCart(cart, product).value;
      assert r[|cart|].productId == product.id;
      forall i, j | 0 <= i < j < |r| ensures r[i].productId != r[j].productId {
        if j == |cart| {
          assert r[i] == cart[i];
        }
      }
    }
  }

  /** Adding a product raises the cart total by that product's unit price in the cart. */
  lemma AddCartTotal(cart: seq<CartItem>, product: Product, k: nat)
    requires UniqueProductIds(cart)
    requires k < |cart| && cart[k].productId == product.id
    ensures CartTotal(AddedToCart(cart, product).value) == CartTotal(cart) + cart[k].price
  {
    assert InCart(cart, product.id);
    IncrementedTotal(cart, product.id, k);
  }

  lemma AddNewCartTotal(cart: seq<CartItem>, product: Product)
    requires !InCart(cart, product.id) && |product.variants| > 0
    ensures CartTotal(AddedToCart(cart, product).value) == CartTotal(cart) + product.variants[0].price
  {
    Seqs.SumAppend(cart, [NewCartItem(product)], LineTotal);
  }

  lemma {:induction false} IncrementedTotal(cart: seq<CartItem>, productId: string, k: nat)
    requires UniqueProductIds(cart)
    requires k < |cart| && cart[k].productId == productId
    ensures CartTotal(Incremented(cart, productId)) == CartTotal(cart) + cart[k].price
    decreases |cart|
  {
    var r := Incremented(cart, productId);
    assert r[1..] == Incremented(cart[1..], productId);
    if k == 0 {
      NoOtherLine(cart[1..], productId);
    } else {
      IncrementedTotal(cart[1..], productId, k - 1);
    }
  }

  lemma {:induction false} NoOtherLine(cart: seq<CartItem>, productId: string)
    requires !InCart(cart, productId)
    ensures Incremented(cart, productId) == cart
  {
  }

  /** Removing drops exactly the product's lines and keeps the others in order. */
  lemma RemoveFromCartSpec(cart: seq<CartItem>, productId: string)
    ensures !InCart(RemovedFromCart(cart, productId), productId)
    ensures Seqs.IsSublist(RemovedFromCart(cart, productId), cart)
    ensures forall x :: x in RemovedFromCart(cart, productId) <==> x in cart && x.productId != productId
    ensures forall x ::
      multiset(RemovedFromCart(cart, productId))[x] == (if x.productId != productId then multiset(cart)[x] else 0)
  {
    var p := (item: CartItem) => item.productId != productId;
    Seqs.FilterIsSublist(cart, p);
    forall x ensures x in RemovedFromCart(cart, productId) <==> x in cart && x.productId != productId {
      Seqs.FilterMembership(cart, p, x);
    }
    forall x ensures multiset(RemovedFromCart(cart, productId))[x] ==
      if x.productId != productId then multiset(cart)[x] else 0 {
      Seqs.FilterCount(cart, p, x);
    }
  }

  /** Removing a product that is not in the cart is a no-op. */
  lemma RemoveAbsent(cart: seq<CartItem>, productId: string)
    requires !InCart(cart, productId)
    ensures RemovedFromCart(cart, productId) == cart
  {
    Seqs.FilterKeepsAll(cart, (item: CartItem) => item.productId != productId);
  }

  lemma {:induction false} RemoveKeepsUnique(cart: seq<CartItem>, productId: string)
    requires UniqueProductIds(cart)
    ensures UniqueProductIds(RemovedFromCart(cart, productId))
  {
    var p := (item: CartItem) => item.productId != productId;
    Seqs.FilterIsSublist(cart, p);
    SublistKeepsUnique(Seqs.Filter(cart, p), cart);
  }

  lemma {:induction false} SublistKeepsUnique(a: seq<CartItem>, b: seq<CartItem>)
    requires Seqs.IsSublist(a, b) && UniqueProductIds(b)
    ensures UniqueProductIds(a)
    decreases |b|
  {
    if a != [] && b != [] {
      if a[0] == b[0] {
        SublistKeepsUnique(a[1..], b[1..]);
        SublistMembers(a[1..], b[1..]);
        forall j | 0 < j < |a| ensures a[0].productId != a[j].productId {
          assert a[j] == a[1..][j - 1];
          assert a[j] in b[1..];
          var m :| 0 <= m < |b[1..]| && b[1..][m] == a[j];
          assert b[m + 1] == a[j];
        }
      } else {
        SublistKeepsUnique(a, b[1..]);
      }
    }
  }

  lemma {:induction false} SublistMembers<T>(a: seq<T>, b: seq<T>)
    requires Seqs.IsSublist(a, b)
    ensures forall x :: x in a ==> x in b
    decreases |b|
  {
    if a != [] && b != [] {
      if a[0] == b[0] {
        SublistMembers(a[1..], b[1..]);
        assert a == [a[0]] + a[1..];
      } else {
        SublistMembers(a, b[1..]);
      }
    }
  }

  /** The empty cart totals 0; every added line contributes its price times its quantity. */
  lemma CartTotalAppend(cart: seq<CartItem>, item: CartItem)
    ensures CartTotal([]) == 0
    ensures CartTotal(cart + [item]) == CartTotal(cart) + item.price * item.quantity
  {
    Seqs.SumAppend(cart, [item], LineTotal);
  }

  // ------------------------------------------------------------ catalogue

  /** A product matches a search when its title or one of its SKUs contains the query, ignoring case. */
  predicate ProductMatches(product: Product, query: string) {
    Contains(Lower(product.title), Lower(query))
    || exists i :: 0 <= i < |product.variants| && Contains(Lower(product.variants[i].sku), Lower(query))
  }

  function FilteredProducts(products: seq<Product>, query: string): seq<Product> {
    Seqs.Filter(products, (p: Product) => ProductMatches(p, query))
  }

  /** The search keeps, in order, exactly the matching products; an empty query keeps them all. */
  lemma FilteredProductsSpec(products: seq<Product>, query: string)
    ensures Seqs.IsSublist(FilteredProducts(products, query), products)
    ensures forall p :: p in FilteredProducts(products, query) <==> p in products && ProductMatches(p, query)
    ensures forall p ::
      multiset(FilteredProducts(products, query))[p] == (if ProductMatches(p, query) then multiset(products)[p] else 0)
    ensures query == "" ==> FilteredProducts(products, query) == products
  {
    var m := (p: Product) => ProductMatches(p, query);
    Seqs.FilterIsSublist(products, m);
    forall p ensures p in FilteredProducts(products, query) <==> p in products && ProductMatches(p, query) {
      Seqs.FilterMembership(products, m, p);
    }
    forall p ensures multiset(FilteredProducts(products, query))[p] ==
      if ProductMatches(p, query) then multiset(products)[p] else 0 {
      Seqs.FilterCount(products, m, p);
    }
    if query == "" {
      forall i | 0 <= i < |products| ensures m(products[i]) {
        assert Contains(Lower(products[i].title), "");
      }
      Seqs.FilterKeepsAll(products, m);
    }
  }

  /**
   * The product `handleCreateProduct` builds from the form; `productStamp` and
   * `variantStamp` stand for the two `Date.now()` readings.
   */
  function NewProduct(form: ProductForm, productStamp: string, variantStamp: string): (p: Product)
    ensures p.handle == Slugify(form.title)
    ensures |p.variants| == 1 && p.variants[0].inventoryQuantity == p.inventoryQuantity
    ensures p.variants[0].price == form.price && p.variants[0].sku == form.sku
    ensures p.inventoryQuantity == form.inventory && p.title == form.title
    ensures p.id == "prod_" + productStamp && p.variants[0].id == "var_" + variantStamp
    ensures p.variants[0].title == "Default" && p.status == "published"
    ensures p.subtitle == form.subtitle && p.thumbnail == form.thumbnail
  {
    Product("prod_" + productStamp, form.title, Slugify(form.title), form.subtitle, "published", form.inventory,
            [Variant("var_" + variantStamp, "Default", form.sku, form.price, form.inventory)], form.thumbnail)
  }

  // ----------------------------------------------------- manifest restock

  /**
   * A product matches a scanned manifest when its lower-cased title contains
   * the lower-cased vendor (the empty string when there is none), or when one
   * of its SKUs equals the extracted description.
   */
  predicate ScanMatches(product: Product, data: OcrResult) {
    Contains(Lower(product.title), Lower(TextOr(data.vendor, "")))
    || exists i :: 0 <= i < |product.variants| && data.description == Some(product.variants[i].sku)
  }

  function MatchProduct(products: seq<Product>, data: OcrResult): Option<Product> {
    Seqs.Find(products, (p: Product) => ScanMatches(p, data))
  }

  /** Ten more units when the extracted amount is positive; every variant's price becomes the amount unless it is 0. */
  function Restocked(p: Product, amount: int): Product {
    p.(inventoryQuantity := p.inventoryQuantity + (if amount > 0 then 10 else 0),
       variants := seq(|p.variants|, i requires 0 <= i < |p.variants| =>
         p.variants[i].(price := if amount != 0 then amount else p.variants[i].price)))
  }

  /**
   * The catalogue after `handleInventoryUpload` read `data`: the match is looked
   * up in the catalogue `captured` when the file was chosen, and the products of
   * the `current` catalogue that carry its id are restocked.
   */
  function AppliedScan(captured: seq<Product>, current: seq<Product>, data: OcrResult): seq<Product> {
    match MatchProduct(captured, data)
    case None => current
    case Some(m) =>
      seq(|current|, i requires 0 <= i < |current| =>
        if current[i].id == m.id then Restocked(current[i], data.amount) else current[i])
  }

  /** The restock itself: stock and prices move as the amount says, and nothing else does. */
  lemma RestockedSpec(p: Product, amount: int)
    ensures Restocked(p, amount).inventoryQuantity - p.inventoryQuantity == (if amount > 0 then 10 else 0)
    ensures |Restocked(p, amount).variants| == |p.variants|
    ensures forall i :: 0 <= i < |p.variants| ==>
      Restocked(p, amount).variants[i] == p.variants[i].(price := if amount != 0 then amount else p.variants[i].price)
    ensures Restocked(p, amount).(inventoryQuantity := p.inventoryQuantity, variants := p.variants) == p
  {
  }

  /**
   * The products sharing the matched product's id are restocked, every other
   * product is unchanged; with no match the catalogue is unchanged.
   */
  lemma AppliedScanSpec(captured: seq<Product>, current: seq<Product>, data: OcrResult)
    ensures |AppliedScan(captured, current, data)| == |current|
    ensures MatchProduct(captured, data).None? ==> AppliedScan(captured, current, data) == current
    ensures MatchProduct(captured, data).Some? ==>
      MatchProduct(captured, data).value in captured && ScanMatches(MatchProduct(captured, data).value, data)
    ensures MatchProduct(captured, data).Some? ==>
      exists k :: 0 <= k < |captured| && MatchProduct(captured, data).value == captured[k]
        && ScanMatches(captured[k], data) && forall j :: 0 <= j < k ==> !ScanMatches(captured[j], data)
    ensures MatchProduct(captured, data).Some? ==> forall i :: 0 <= i < |current| ==>
      AppliedScan(captured, current, data)[i] ==
        (if current[i].id == MatchProduct(captured, data).value.id
         then Restocked(current[i], data.amount) else current[i])
  {
  }

  /**
   * A product whose id the captured catalogue does not have, such as one
   * created while the scan was pending, is never restocked by it.
   */
  lemma NewerProductUntouched(captured: seq<Product>, current: seq<Product>, data: OcrResult, k: nat)
    requires k < |current|
    requires forall j :: 0 <= j < |captured| ==> captured[j].id != current[k].id
    ensures AppliedScan(captured, current, data)[k] == current[k]
  {
    AppliedScanSpec(captured, current, data);
  }

  /** Without a vendor the empty string is contained in every title, so the first product always matches. */
  lemma NoVendorMatchesFirst(products: seq<Product>, data: OcrResult)
    requires data.vendor.None? || data.vendor == Some("")
    requires |products| > 0
    ensures MatchProduct(products, data) == Some(products[0])
  {
    assert Lower("") == "";
    assert Contains(Lower(products[0].title), "");
    assert ScanMatches(products[0], data);
  }

  // ---------------------------------------------------------------- state

  /** The suite's `products` and `cart` state. */
  class EcommerceSuite {
    var products: seq<Product>
    var cart: seq<CartItem>
    var isCartOpen: bool
    /** The catalogues captured by uploads whose OCR call has not settled, oldest first. */
    var pendingScans: seq<seq<Product>>

    ghost predicate Valid()
      reads this
    {
      UniqueProductIds(cart)
    }

    constructor ()
      ensures Valid()
      ensures products == MockProducts && cart == [] && !isCartOpen && pendingScans == []
    {
      products := MockProducts;
      cart := [];
      isCartOpen := false;
      pendingScans := [];
    }

    /** `addToCart`; on failure (a new product with no variant) nothing changes. */
    method AddToCart(product: Product) returns (ok: bool)
      requires Valid()
      modifies this
      ensures Valid()
      ensures ok == AddedToCart(old(cart), product).Some?
      ensures ok ==> cart == AddedToCart(old(cart), product).value && isCartOpen
      ensures !ok ==> cart == old(cart) && isCartOpen == old(isCartOpen)
      ensures products == old(products) && pendingScans == old(pendingScans)
    {
      var r := AddedToCart(cart, product);
      if r.Some? {
        AddKeepsUnique(cart, product);
        cart := r.value;
        isCartOpen := true;
      }
      ok := r.Some?;
    }

    method RemoveFromCart(productId: string)
      requires Valid()
      modifies this`cart
      ensures Valid()
      ensures cart == RemovedFromCart(old(cart), productId)
    {
      RemoveKeepsUnique(cart, productId);
      cart := RemovedFromCart(cart, productId);
    }

    /** `handleCreateProduct`: the new product goes first. */
    method CreateProduct(form: ProductForm, productStamp: string, variantStamp: string)
      modifies this`products
      ensures products == [NewProduct(form, productStamp, variantStamp)] + old(products)
    {
      products := [NewProduct(form, productStamp, variantStamp)] + products;
    }

    /** `handleInventoryUpload` up to the OCR call: the catalogue its closure sees is queued. */
    method StartUpload()
      modifies this`pendingScans
      ensures pendingScans == old(pendingScans) + [products]
    {
      pendingScans := pendingScans + [products];
    }

    /**
     * The oldest upload's OCR call settled; `scan` is `None` when it failed,
     * which changes nothing. The match comes from the catalogue captured at the
     * upload, the restock applies to the current catalogue.
     */
    method ReceiveScan(scan: Option<OcrResult>)
      modifies this`products, this`pendingScans
      ensures old(pendingScans) == [] ==> unchanged(this)
      ensures old(pendingScans) != [] ==>
        && pendingScans == old(pendingScans)[1..]
        && products == if scan.Some? then AppliedScan(old(pendingScans)[0], old(products), scan.value) else old(products)
    {
      if pendingScans != [] {
        if scan.Some? {
          products := AppliedScan(pendingScans[0], products, scan.value);
        }
        pendingScans := pendingScans[1..];
      }
    }
  }
}
