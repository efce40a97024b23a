/** The records the backend keeps (products, orders, users) and the pure computations the
    route handlers and the start-up code apply to them: load-time normalisation, the
    public projection of a product, order totals, request-body defaults and merges,
    and checkout line normalisation. Ids and timestamps, which the backend draws from
    `nanoid()` and `new Date()`, are parameters. */
module Catalog {
  import opened Common
  import opened Money
  import opened Text

  // ================================================================ products

  /** A catalog product as held in memory after normalisation. */
  datatype Product = Product(
    id: string, sku: string, name: string, shortDesc: string, fullDesc: string,
    category: string, tags: seq<string>, price: real, salePrice: Option<real>,
    taxRate: real, imageUrl: string, images: seq<string>, costPrice: real,
    available: bool, stockQty: int, maxOrderQty: int, prepTimeMins: int,
    active: bool, sortOrder: int, createdAt: string, updatedAt: string)

  /** A product record as read back from disk, before normalisation. An `Option` member is
      `None` when the member is null or undefined (members defaulted with `??`) or is not a
      number (members tested with `typeof ... === 'number'`); `available` is the truthiness
      of the stored member and `active` is `None` only when it is undefined. */
  datatype StoredProduct = StoredProduct(
    id: Option<string>, sku: Option<string>, name: string, shortDesc: Option<string>,
    fullDesc: Option<string>, category: Option<string>, tags: ArrayField<string>,
    price: Option<real>, salePrice: Option<real>, taxRate: Option<real>,
    imageUrl: Option<string>, images: ArrayField<string>, costPrice: Option<real>,
    available: bool, stockQty: Option<int>, maxOrderQty: Option<int>,
    prepTimeMins: Option<int>, active: Option<bool>, sortOrder: Option<int>,
    createdAt: Option<string>)

  /** The elements of an array member, or `[]` when it is not an array. */
  function ArrayOr<T>(f: ArrayField<T>): seq<T> {
    if f.Array? then f.elems else []
  }

  /** Load-time normalisation of one product: every member gets a value of its type,
      `updatedAt` is refreshed. */
  function NormalizeProduct(raw: StoredProduct, freshId: string, now: string): (p: Product)
    ensures p.id == raw.id.GetOr(freshId) && p.createdAt == raw.createdAt.GetOr(now)
    ensures p.updatedAt == now
    ensures p.active == raw.active.GetOr(true)
  {
    Product(
      raw.id.GetOr(freshId), raw.sku.GetOr(""), raw.name, raw.shortDesc.GetOr(""),
      raw.fullDesc.GetOr(""), raw.category.GetOr(""), ArrayOr(raw.tags),
      raw.price.GetOr(0.0), raw.salePrice, raw.taxRate.GetOr(0.0),
      raw.imageUrl.GetOr(""), ArrayOr(raw.images), raw.costPrice.GetOr(0.0),
      raw.available, raw.stockQty.GetOr(0), raw.maxOrderQty.GetOr(0),
      raw.prepTimeMins.GetOr(0), raw.active.GetOr(true), raw.sortOrder.GetOr(0),
      raw.createdAt.GetOr(now), now)
  }

  /** The member defaults of load-time normalisation: a stored member is kept, a missing
      text member becomes empty, a missing number 0, a non-array member `[]`. */
  lemma NormalizeProductMembers(raw: StoredProduct, freshId: string, now: string)
    ensures var p := NormalizeProduct(raw, freshId, now);
      && p.name == raw.name && p.salePrice == raw.salePrice && p.available == raw.available
      && Takes("", raw.sku, p.sku) && Takes("", raw.shortDesc, p.shortDesc)
      && Takes("", raw.fullDesc, p.fullDesc) && Takes("", raw.category, p.category)
      && Takes("", raw.imageUrl, p.imageUrl)
      && Takes(0.0, raw.price, p.price) && Takes(0.0, raw.taxRate, p.taxRate)
      && Takes(0.0, raw.costPrice, p.costPrice)
      && Takes(0, raw.stockQty, p.stockQty) && Takes(0, raw.maxOrderQty, p.maxOrderQty)
      && Takes(0, raw.prepTimeMins, p.prepTimeMins) && Takes(0, raw.sortOrder, p.sortOrder)
      && (raw.tags.Array? ==> p.tags == raw.tags.elems) && (!raw.tags.Array? ==> p.tags == [])
      && (raw.images.Array? ==> p.images == raw.images.elems) && (!raw.images.Array? ==> p.images == [])
  {
  }

  /** What saving a product to disk and reading it back yields. */
  function Stored(p: Product): StoredProduct {
    StoredProduct(
      Some(p.id), Some(p.sku), p.name, Some(p.shortDesc), Some(p.fullDesc),
      Some(p.category), Array(p.tags), Some(p.price), p.salePrice, Some(p.taxRate),
      Some(p.imageUrl), Array(p.images), Some(p.costPrice), p.available,
      Some(p.stockQty), Some(p.maxOrderQty), Some(p.prepTimeMins), Some(p.active),
      Some(p.sortOrder), Some(p.createdAt))
  }

  /** A restart keeps every product as it was, except that `updatedAt` is refreshed. */
  lemma ReloadKeepsProduct(p: Product, freshId: string, now: string)
    ensures NormalizeProduct(Stored(p), freshId, now) == p.(updatedAt := now)
  {
  }

  /** The three products the server starts with when no products file exists. */
  function SeedProducts(newId: nat -> string, now: string): seq<Product> {
    [ Product(newId(0), "PZ-MARG", "Margherita Pizza", "Classic cheese and tomato", "",
              "Pizza", ["vegetarian"], 8.99, None, 0.0, "", [], 4.20,
              true, 100, 5, 15, true, 0, now, now),
      Product(newId(1), "PZ-PEPP", "Pepperoni Pizza", "Spicy pepperoni", "",
              "Pizza", ["spicy"], 10.49, Some(9.49), 0.0, "", [], 5.10,
              true, 100, 5, 15, true, 1, now, now),
      Product(newId(2), "SD-GBRD", "Garlic Bread", "Buttery garlic bread", "",
              "Sides", [], 4.25, None, 0.0, "", [], 1.60,
              true, 100, 10, 5, true, 2, now, now) ]
  }

  /** The product list after start-up: the loaded records, or the seed products when there
      is no file, each normalised. Product `i` that lacks an id gets `newId(3 + i)`. */
  function InitialProducts(loaded: Option<seq<StoredProduct>>, newId: nat -> string, now: string): (ps: seq<Product>)
    ensures loaded.Some? ==> |ps| == |loaded.value|
    ensures loaded.Some? ==> forall i :: 0 <= i < |ps| ==> ps[i] == NormalizeProduct(loaded.value[i], newId(3 + i), now)
    ensures loaded.None? ==> |ps| == 3
  {
    var raw := if loaded.Some? then loaded.value else
      var seed := SeedProducts(newId, now); [Stored(seed[0]), Stored(seed[1]), Stored(seed[2])];
    seq(|raw|, i requires 0 <= i < |raw| => NormalizeProduct(raw[i], newId(3 + i), now))
  }

  // ================================================================ public projection

  /** What the public product list shows: no cost price, tax rate, stock, preparation time,
      active flag, timestamps or SKU, and two tax-inclusive prices. */
  datatype PublicProduct = PublicProduct(
    id: string, name: string, shortDesc: string, fullDesc: string, category: string,
    tags: seq<string>, price: real, salePrice: Option<real>, imageUrl: string,
    images: seq<string>, available: bool, maxOrderQty: int, sortOrder: int,
    priceWithTax: real, salePriceWithTax: Option<real>)

  /** An amount with `taxRate` percent added, exactly. */
  function Taxed(amount: real, taxRate: real): real {
    amount * (1.0 + taxRate / 100.0)
  }

  /** An amount with `taxRate` percent added, to two decimals. */
  function WithTax(amount: real, taxRate: real): (r: real)
    ensures NearestPence(Taxed(amount, taxRate), r)
  {
    ToFixed2(Taxed(amount, taxRate))
  }

  /** `toPublicProduct`. */
  function ToPublic(p: Product): (r: PublicProduct)
    ensures r.id == p.id && r.price == p.price && r.salePrice == p.salePrice
    ensures && r.name == p.name && r.shortDesc == p.shortDesc && r.fullDesc == p.fullDesc
            && r.category == p.category && r.tags == p.tags && r.imageUrl == p.imageUrl
            && r.images == p.images && r.available == p.available
            && r.maxOrderQty == p.maxOrderQty && r.sortOrder == p.sortOrder
    ensures r.salePriceWithTax.None? <==> p.salePrice.None?
    ensures NearestPence(Taxed(p.price, p.taxRate), r.priceWithTax)
    ensures p.salePrice.Some? ==> NearestPence(Taxed(p.salePrice.value, p.taxRate), r.salePriceWithTax.value)
  {
    PublicProduct(
      p.id, p.name, p.shortDesc, p.fullDesc, p.category, p.tags, p.price, p.salePrice,
      p.imageUrl, p.images, p.available, p.maxOrderQty, p.sortOrder,
      WithTax(p.price, p.taxRate),
      if p.salePrice.Some? then Some(WithTax(p.salePrice.value, p.taxRate)) else None)
  }

  /** Without tax, a price in whole pence is shown unchanged. */
  lemma ToPublicUntaxed(p: Product)
    requires p.taxRate == 0.0 && WholePence(p.price)
    ensures ToPublic(p).priceWithTax == p.price
  {
    assert Taxed(p.price, p.taxRate) == p.price;
    ToFixed2OfWholePence(p.price);
  }

  // ================================================================ admin product payloads

  /** The body of an admin create or update request. An `Option` member is `None` when the
      member is undefined; `salePrice` tells undefined from null; `available` and `active`
      carry the truthiness of a present member. */
  datatype ProductPayload = ProductPayload(
    sku: Option<string>, name: Option<string>, shortDesc: Option<string>,
    fullDesc: Option<string>, category: Option<string>, tags: ArrayField<string>,
    price: Option<real>, salePrice: Field<real>, imageUrl: Option<string>,
    images: ArrayField<string>, costPrice: Option<real>, available: Option<bool>,
    taxRate: Option<real>, stockQty: Option<int>, maxOrderQty: Option<int>,
    prepTimeMins: Option<int>, active: Option<bool>, sortOrder: Option<int>)

  /** The product an admin create request makes, or `None` when the name or the price is
      missing (the 400 answer). */
  function NewProduct(body: ProductPayload, id: string, now: string): (r: Option<Product>)
    ensures r.Some? <==> body.name.Some? && body.price.Some?
    ensures r.Some? ==> r.value.id == id && r.value.createdAt == now && r.value.updatedAt == now
    ensures r.Some? ==> r.value.name == body.name.value && r.value.price == body.price.value
  {
    if body.name.None? || body.price.None? then None
    else Some(Product(
      id, body.sku.GetOr(""), body.name.value, body.shortDesc.GetOr(""),
      body.fullDesc.GetOr(""), body.category.GetOr(""), ArrayOr(body.tags),
      body.price.value, if body.salePrice.Given? then Some(body.salePrice.value) else None,
      body.taxRate.GetOr(0.0), body.imageUrl.GetOr(""), ArrayOr(body.images),
      body.costPrice.GetOr(0.0), body.available.GetOr(false), body.stockQty.GetOr(0),
      body.maxOrderQty.GetOr(0), body.prepTimeMins.GetOr(0), body.active.GetOr(true),
      body.sortOrder.GetOr(0), now, now))
  }

  /** The members of a create request: each supplied member is used, and a missing one
      takes its default: no sale price, active, not available, numbers 0, strings empty,
      arrays `[]`. */
  lemma NewProductDefaults(body: ProductPayload, id: string, now: string)
    requires body.name.Some? && body.price.Some?
    ensures var p := NewProduct(body, id, now).value;
      && (p.salePrice.None? <==> !body.salePrice.Given?)
      && (body.salePrice.Given? ==> p.salePrice == Some(body.salePrice.value))
      && Takes(true, body.active, p.active) && Takes(false, body.available, p.available)
      && Takes(0, body.stockQty, p.stockQty) && Takes(0, body.maxOrderQty, p.maxOrderQty)
      && Takes(0, body.prepTimeMins, p.prepTimeMins) && Takes(0, body.sortOrder, p.sortOrder)
      && Takes(0.0, body.costPrice, p.costPrice) && Takes(0.0, body.taxRate, p.taxRate)
      && (body.tags.Array? ==> p.tags == body.tags.elems) && (!body.tags.Array? ==> p.tags == [])
      && (body.images.Array? ==> p.images == body.images.elems) && (!body.images.Array? ==> p.images == [])
      && Takes("", body.sku, p.sku) && Takes("", body.shortDesc, p.shortDesc)
      && Takes("", body.fullDesc, p.fullDesc) && Takes("", body.category, p.category)
      && Takes("", body.imageUrl, p.imageUrl)
  {
  }

  /** The new value of an array member on update: unchanged when undefined, `[]` when it is
      not an array. */
  function MergeArray<T>(current: seq<T>, f: ArrayField<T>): seq<T> {
    match f
    case Missing => current
    case NotArray => []
    case Array(e) => e
  }

  /** A member that takes the supplied value when there is one, otherwise `stored` (the
      value already held on update, the default on create or load). */
  predicate Takes<T(==)>(stored: T, supplied: Option<T>, result: T) {
    (supplied.Some? ==> result == supplied.value) && (supplied.None? ==> result == stored)
  }

  /** An admin update: the supplied members replace the stored ones, `updatedAt` is
      refreshed, and the id and creation time are kept. */
  function MergeProduct(p: Product, body: ProductPayload, now: string): (r: Product)
    ensures r.id == p.id && r.createdAt == p.createdAt && r.updatedAt == now
  {
    p.(sku := body.sku.GetOr(p.sku), name := body.name.GetOr(p.name),
       shortDesc := body.shortDesc.GetOr(p.shortDesc), fullDesc := body.fullDesc.GetOr(p.fullDesc),
       category := body.category.GetOr(p.category), tags := MergeArray(p.tags, body.tags),
       price := body.price.GetOr(p.price),
       salePrice := (match body.salePrice
                     case Absent => p.salePrice
                     case Null => None
                     case Given(v) => Some(v)),
       imageUrl := body.imageUrl.GetOr(p.imageUrl), images := MergeArray(p.images, body.images),
       costPrice := body.costPrice.GetOr(p.costPrice), available := body.available.GetOr(p.available),
       taxRate := body.taxRate.GetOr(p.taxRate), stockQty := body.stockQty.GetOr(p.stockQty),
       maxOrderQty := body.maxOrderQty.GetOr(p.maxOrderQty),
       prepTimeMins := body.prepTimeMins.GetOr(p.prepTimeMins), active := body.active.GetOr(p.active),
       sortOrder := body.sortOrder.GetOr(p.sortOrder), updatedAt := now)
  }

  /** The text members of an update: each supplied one replaces the stored one. */
  lemma MergeTextMembers(p: Product, body: ProductPayload, now: string)
    ensures var r := MergeProduct(p, body, now);
      && Takes(p.sku, body.sku, r.sku) && Takes(p.name, body.name, r.name)
      && Takes(p.shortDesc, body.shortDesc, r.shortDesc) && Takes(p.fullDesc, body.fullDesc, r.fullDesc)
      && Takes(p.category, body.category, r.category) && Takes(p.imageUrl, body.imageUrl, r.imageUrl)
  {
  }

  /** The numeric and flag members of an update: each supplied one replaces the stored one. */
  lemma MergeNumberMembers(p: Product, body: ProductPayload, now: string)
    ensures var r := MergeProduct(p, body, now);
      && Takes(p.price, body.price, r.price) && Takes(p.costPrice, body.costPrice, r.costPrice)
      && Takes(p.taxRate, body.taxRate, r.taxRate) && Takes(p.available, body.available, r.available)
      && Takes(p.active, body.active, r.active) && Takes(p.stockQty, body.stockQty, r.stockQty)
      && Takes(p.maxOrderQty, body.maxOrderQty, r.maxOrderQty)
      && Takes(p.prepTimeMins, body.prepTimeMins, r.prepTimeMins) && Takes(p.sortOrder, body.sortOrder, r.sortOrder)
  {
  }

  /** The sale price and array members of an update: an explicit `null` sale price clears
      it, and an array member that is present but not an array becomes `[]`. */
  lemma MergeOtherMembers(p: Product, body: ProductPayload, now: string)
    ensures var r := MergeProduct(p, body, now);
      && (body.salePrice.Absent? ==> r.salePrice == p.salePrice)
      && (body.salePrice.Null? ==> r.salePrice.None?)
      && (body.salePrice.Given? ==> r.salePrice == Some(body.salePrice.value))
      && (body.tags.Missing? ==> r.tags == p.tags)
      && (body.tags.NotArray? ==> r.tags == [])
      && (body.tags.Array? ==> r.tags == body.tags.elems)
      && (body.images.Missing? ==> r.images == p.images)
      && (body.images.NotArray? ==> r.images == [])
      && (body.images.Array? ==> r.images == body.images.elems)
  {
  }

  /** The payload with no members. */
  const EmptyPayload := ProductPayload(None, None, None, None, None, Missing, None, Absent,
    None, Missing, None, None, None, None, None, None, None, None)

  /** An update that supplies nothing only refreshes `updatedAt`. */
  lemma MergeEmptyPayload(p: Product, now: string)
    ensures MergeProduct(p, EmptyPayload, now) == p.(updatedAt := now)
  {
  }

  /** Repeating an update changes nothing more. */
  lemma MergeIdempotent(p: Product, body: ProductPayload, now: string)
    ensures MergeProduct(MergeProduct(p, body, now), body, now) == MergeProduct(p, body, now)
  {
  }

  /** A payload that supplies every member (as the admin panel's form does). */
  predicate CompletePayload(body: ProductPayload) {
    && body.sku.Some? && body.name.Some? && body.shortDesc.Some? && body.fullDesc.Some?
    && body.category.Some? && body.tags.Array? && body.price.Some? && !body.salePrice.Absent?
    && body.imageUrl.Some? && body.images.Array? && body.costPrice.Some?
    && body.available.Some? && body.taxRate.Some? && body.stockQty.Some?
    && body.maxOrderQty.Some? && body.prepTimeMins.Some? && body.active.Some?
    && body.sortOrder.Some?
  }

  /** Updating with a complete payload gives the product a create request with that payload
      would have made, under the old id and creation time. */
  lemma MergeCompleteIsCreate(p: Product, body: ProductPayload, now: string)
    requires CompletePayload(body)
    ensures NewProduct(body, p.id, now).Some?
    ensures MergeProduct(p, body, now) == NewProduct(body, p.id, now).value.(createdAt := p.createdAt)
  {
  }

  // ================================================================ orders

  /** A line quantity after `Math.max(1, parseInt(...))`: a count, or `NaN`. */
  datatype Qty = Count(n: int) | NotANumber

  /** One line of an order. */
  datatype LineItem = LineItem(productId: Option<string>, name: string, qty: Qty, price: real)

  datatype Customer = Customer(name: string, phone: string)
  datatype Address = Address(line1: string, line2: string, city: string, postcode: string)

  /** An order. `status` is free text: the server accepts any value on update. */
  datatype Order = Order(
    id: string, createdAt: string, status: string, customer: Customer, address: Address,
    items: seq<LineItem>, notes: string, total: real)

  /** `(i.qty || 0) * (i.price || 0)`: a `NaN` quantity counts as 0. */
  function LineValue(i: LineItem): real {
    match i.qty
    case Count(n) => n as real * i.price
    case NotANumber => 0.0
  }

  /** The `reduce` over the lines, from the left. */
  function ItemsSum(items: seq<LineItem>): real {
    if |items| == 0 then 0.0 else ItemsSum(items[..|items| - 1]) + LineValue(items[|items| - 1])
  }

  lemma {:induction false} ItemsSumAppend(a: seq<LineItem>, b: seq<LineItem>)
    ensures ItemsSum(a + b) == ItemsSum(a) + ItemsSum(b)
  {
    if |b| > 0 {
      assert (a + b)[..|a + b| - 1] == a + b[..|b| - 1];
      ItemsSumAppend(a, b[..|b| - 1]);
    } else {
      assert a + b == a;
    }
  }

  /** Two line lists whose lines are worth the same have the same sum. */
  lemma {:induction false} ItemsSumPointwise(a: seq<LineItem>, b: seq<LineItem>)
    requires |a| == |b|
    requires forall k :: 0 <= k < |a| ==> LineValue(a[k]) == LineValue(b[k])
    ensures ItemsSum(a) == ItemsSum(b)
  {
    if |a| > 0 {
      ItemsSumPointwise(a[..|a| - 1], b[..|b| - 1]);
    }
  }

  /** The order total: the sum of quantity times price, to two decimals. */
  function OrderTotal(items: seq<LineItem>): (t: real)
    ensures NearestPence(ItemsSum(items), t)
  {
    ToFixed2(ItemsSum(items))
  }

  /** An order whose recorded total is the one its lines give. */
  predicate TotalConsistent(o: Order) {
    o.total == OrderTotal(o.items)
  }

  /** Load-time total: a positive recorded total is kept, anything else is recomputed. */
  function NormalizeLoadedOrder(o: Order): (r: Order)
    ensures r == o.(total := r.total)
    ensures o.total > 0.0 ==> r.total == o.total
    ensures o.total <= 0.0 ==> TotalConsistent(r)
  {
    o.(total := if o.total > 0.0 then o.total else OrderTotal(o.items))
  }

  /** Normalising the totals of loaded orders a second time changes nothing, and it never
      turns a consistent order into an inconsistent one. */
  lemma NormalizeLoadedOrderStable(o: Order)
    ensures NormalizeLoadedOrder(NormalizeLoadedOrder(o)) == NormalizeLoadedOrder(o)
    ensures TotalConsistent(o) ==> TotalConsistent(NormalizeLoadedOrder(o))
  {
  }

  /** A line of the example order, built from product `k` if there is one. */
  function SeedLine(ps: seq<Product>, k: nat, qty: int, fallbackPrice: real): LineItem {
    if k < |ps| then
      LineItem(Some(if ps[k].id != "" then ps[k].id else ""),
               if ps[k].name != "" then ps[k].name else "Item",
               Count(qty), if ps[k].price != 0.0 then ps[k].price else fallbackPrice)
    else LineItem(Some(""), "Item", Count(qty), fallbackPrice)
  }

  /** The example order the server starts with when no orders file exists. */
  function SeedOrder(ps: seq<Product>, id: string, now: string): Order {
    Order(id, now, "new", Customer("John Doe", "+44 7700 900123"),
          Address("221B Baker Street", "", "London", "NW1 6XE"),
          [SeedLine(ps, 0, 1, 9.99), SeedLine(ps, 2, 2, 3.49)], "Leave at the door", 0.0)
  }

  /** The order list after start-up, totals normalised. */
  function InitialOrders(loaded: Option<seq<Order>>, ps: seq<Product>, id: string, now: string): (os: seq<Order>)
    ensures loaded.None? ==> |os| == 1 && os[0] == NormalizeLoadedOrder(SeedOrder(ps, id, now))
    ensures loaded.Some? ==> |os| == |loaded.value|
    ensures loaded.Some? ==> forall i :: 0 <= i < |os| ==> os[i] == NormalizeLoadedOrder(loaded.value[i])
  {
    var raw := if loaded.Some? then loaded.value else [SeedOrder(ps, id, now)];
    seq(|raw|, i requires 0 <= i < |raw| => NormalizeLoadedOrder(raw[i]))
  }

  /** On a first start the catalog is exactly the three seed products. */
  lemma FirstStartProducts(newId: nat -> string, now: string)
    ensures InitialProducts(None, newId, now) == SeedProducts(newId, now)
  {
    var seed := SeedProducts(newId, now);
    var ps := InitialProducts(None, newId, now);
    ReloadKeepsProduct(seed[0], newId(3), now);
    ReloadKeepsProduct(seed[1], newId(4), now);
    ReloadKeepsProduct(seed[2], newId(5), now);
    assert ps[0] == seed[0] && ps[1] == seed[1] && ps[2] == seed[2];
  }

  /** On a first start the example order is priced from the seed catalog:
      one Margherita (8.99) and two garlic breads (4.25) come to 17.49. */
  lemma FirstStartOrderTotal(newId: nat -> string, now: string)
    ensures var os := InitialOrders(None, InitialProducts(None, newId, now), newId(6), now);
      os[0].total == 17.49 && TotalConsistent(os[0])
  {
    var ps := InitialProducts(None, newId, now);
    FirstStartProducts(newId, now);
    var seed := SeedOrder(ps, newId(6), now);
    var items := seed.items;
    assert ItemsSum(items) == 17.49 by {
      assert items[..1] == [items[0]];
      assert ItemsSum(items[..1]) == 8.99;
    }
    assert WholePence(17.49);
    ToFixed2OfWholePence(17.49);
    var os := InitialOrders(None, ps, newId(6), now);
    assert os[0] == NormalizeLoadedOrder(seed);
  }

  /** The body of an admin order create request. */
  datatype OrderRequest = OrderRequest(
    customer: Option<Customer>, address: Option<Address>, items: ArrayField<LineItem>, notes: string)

  /** The order an admin create request makes. */
  function AdminOrder(req: OrderRequest, id: string, now: string): (o: Order)
    ensures o.id == id && o.createdAt == now && o.status == "new"
    ensures o.customer == req.customer.GetOr(Customer("", ""))
    ensures o.address == req.address.GetOr(Address("", "", "", ""))
    ensures o.notes == req.notes
    ensures o.items == ArrayOr(req.items)
    ensures TotalConsistent(o)
  {
    var items := ArrayOr(req.items);
    Order(id, now, "new", req.customer.GetOr(Customer("", "")),
          req.address.GetOr(Address("", "", "", "")), items, req.notes, OrderTotal(items))
  }

  /** The body of an admin order update request; `None` members are undefined. */
  datatype OrderPatch = OrderPatch(
    status: Option<string>, customer: Option<Customer>, address: Option<Address>,
    items: ArrayField<LineItem>, notes: Option<string>)

  /** An admin order update: supplied members replace the stored ones and the total is
      recomputed. `None` when `items` is present but not an array: the total's `reduce`
      throws and the request fails. */
  function PatchOrder(o: Order, patch: OrderPatch): (r: Option<Order>)
    ensures r.None? <==> patch.items.NotArray?
    ensures r.Some? ==> TotalConsistent(r.value)
    ensures r.Some? ==> r.value.id == o.id && r.value.createdAt == o.createdAt
    ensures r.Some? && patch.items.Missing? ==> r.value.items == o.items
    ensures r.Some? && patch.items.Array? ==> r.value.items == patch.items.elems
    ensures r.Some? ==> Takes(o.status, patch.status, r.value.status) && Takes(o.notes, patch.notes, r.value.notes)
    ensures r.Some? ==> Takes(o.customer, patch.customer, r.value.customer) && Takes(o.address, patch.address, r.value.address)
  {
    if patch.items.NotArray? then None
    else
      var items := if patch.items.Array? then patch.items.elems else o.items;
      Some(o.(status := patch.status.GetOr(o.status), customer := patch.customer.GetOr(o.customer),
              address := patch.address.GetOr(o.address), items := items,
              notes := patch.notes.GetOr(o.notes), total := OrderTotal(items)))
  }

  // ================================================================ checkout

  /** A line quantity as sent: falsy (absent, 0, empty), a value `parseInt` reads as `n`, or
      one it cannot read. */
  datatype RawQty = Falsy | Parses(n: int) | Unparsable

  /** The quantity member of a basket line when the client sends it as text: the empty string
      is falsy, any other text goes through `parseInt`. */
  function RawQtyOfText(s: string): (q: RawQty)
    ensures q.Falsy? <==> s == ""
    ensures q.Parses? ==> ParseInt(s) == Some(q.n)
    ensures q.Unparsable? <==> s != "" && ParseInt(s).None?
  {
    if s == "" then Falsy
    else match ParseInt(s)
      case Some(n) => Parses(n)
      case None => Unparsable
  }

  /** A quantity typed as the decimal text of a positive count is recorded as that count. */
  lemma TextQtyRoundTrip(n: int)
    requires n >= 1
    ensures CheckoutQty(RawQtyOfText(IntToString(n))) == Count(n)
  {
    ParseIntToString(n);
  }

  /** A basket line as sent by the client; `name` is empty when absent, `price` is `None`
      unless it is a number. `NullLine` is a `null` element. */
  datatype CheckoutLine =
    | NullLine
    | Line(productId: Option<string>, name: string, qty: RawQty, price: Option<real>)

  /** The body of a checkout request. */
  datatype CheckoutRequest = CheckoutRequest(
    customer: Option<Customer>, address: Option<Address>, items: ArrayField<CheckoutLine>, notes: string)

  /** `products.find(p => p.id === productId)`. */
  function FindProduct(catalog: seq<Product>, productId: Option<string>): (r: Option<Product>)
    ensures r.None? <==> forall k :: 0 <= k < |catalog| ==> Some(catalog[k].id) != productId
    ensures r.Some? ==> r.value in catalog && Some(r.value.id) == productId
    ensures r.Some? ==> exists k :: (0 <= k < |catalog| && catalog[k] == r.value
                                     && forall j :: 0 <= j < k ==> Some(catalog[j].id) != productId)
  {
    var k := FindIndex(catalog, (p: Product) => Some(p.id) == productId);
    if k == -1 then None else Some(catalog[k])
  }

  /** `Math.max(1, parseInt(qty || 1))`. */
  function CheckoutQty(q: RawQty): Qty {
    match q
    case Falsy => Count(1)
    case Parses(n) => Count(if n < 1 then 1 else n)
    case Unparsable => NotANumber
  }

  /** One basket line as the order records it: the catalog's price and name win over the
      client's. */
  function NormalizeLine(line: CheckoutLine, catalog: seq<Product>): LineItem
    requires line.Line?
  {
    var product := FindProduct(catalog, line.productId);
    LineItem(
      line.productId,
      if product.Some? && product.value.name != "" then product.value.name
      else if line.name != "" then line.name else "Item",
      CheckoutQty(line.qty),
      if product.Some? then product.value.price else line.price.GetOr(0.0))
  }

  /** The rules for one checkout line: price from the catalog when the id matches, else the
      client's numeric price, else 0; name from the catalog, else the client's, else "Item";
      quantity at least 1 unless it cannot be parsed, and 1 when falsy. */
  lemma NormalizeLineRules(line: CheckoutLine, catalog: seq<Product>)
    requires line.Line?
    ensures var item := NormalizeLine(line, catalog);
      var product := FindProduct(catalog, line.productId);
      && item.productId == line.productId
      && (product.Some? ==> item.price == product.value.price)
      && (product.None? && line.price.Some? ==> item.price == line.price.value)
      && (product.None? && line.price.None? ==> item.price == 0.0)
      && (product.Some? && product.value.name != "" ==> item.name == product.value.name)
      && ((product.None? || product.value.name == "") && line.name != "" ==> item.name == line.name)
      && ((product.None? || product.value.name == "") && line.name == "" ==> item.name == "Item")
      && (item.name != "")
      && (line.qty.Falsy? ==> item.qty == Count(1))
      && (line.qty.Parses? ==> item.qty.Count? && item.qty.n >= 1 && item.qty.n >= line.qty.n)
      && (line.qty.Parses? && line.qty.n >= 1 ==> item.qty == Count(line.qty.n))
      && (line.qty.Parses? && line.qty.n < 1 ==> item.qty == Count(1))
      && (line.qty.Unparsable? ==> item.qty == NotANumber)
  {
  }

  /** The lines of an accepted basket, normalised one by one. */
  function NormalizeLines(lines: seq<CheckoutLine>, catalog: seq<Product>): (items: seq<LineItem>)
    requires NullLine !in lines
    ensures |items| == |lines|
    ensures forall k :: 0 <= k < |lines| ==> items[k] == NormalizeLine(lines[k], catalog)
  {
    seq(|lines|, k requires 0 <= k < |lines| => NormalizeLine(lines[k], catalog))
  }

  /** What a checkout request does to the order list. */
  datatype CheckoutOutcome = Accepted(order: Order) | Rejected(status: int, error: string)

  /** The checkout handler's decision: 400 without a non-empty `items` array, 500 when a line
      is `null` (the mapping throws), otherwise a new order in status "new". */
  function CheckoutOrder(req: CheckoutRequest, catalog: seq<Product>, id: string, now: string): (r: CheckoutOutcome)
    ensures r.Rejected? && r.status == 400 <==> !req.items.Array? || |req.items.elems| == 0
    ensures r.Rejected? && r.status == 500 <==>
      req.items.Array? && |req.items.elems| > 0 && NullLine in req.items.elems
    ensures r.Rejected? ==> r.status == 400 || r.status == 500
    ensures r.Accepted? <==> req.items.Array? && |req.items.elems| > 0 && NullLine !in req.items.elems
    ensures r.Accepted? ==> r.order.id == id && r.order.createdAt == now && r.order.status == "new" && TotalConsistent(r.order)
    ensures r.Accepted? ==>
      && r.order.customer == req.customer.GetOr(Customer("", ""))
      && r.order.address == req.address.GetOr(Address("", "", "", ""))
      && r.order.notes == req.notes
    ensures r.Accepted? ==> r.order.items == NormalizeLines(req.items.elems, catalog)
  {
    if !req.items.Array? || |req.items.elems| == 0 then Rejected(400, "No items provided")
    else if NullLine in req.items.elems then Rejected(500, "Checkout failed")
    else
      var items := NormalizeLines(req.items.elems, catalog);
      Accepted(Order(id, now, "new", req.customer.GetOr(Customer("", "")),
                     req.address.GetOr(Address("", "", "", "")), items, req.notes, OrderTotal(items)))
  }

  /** Two baskets with the same product ids and quantities, every id known to the catalog,
      give the same total whatever prices and names the client sent. */
  lemma CheckoutIgnoresClientPrices(a: CheckoutRequest, b: CheckoutRequest, catalog: seq<Product>, id: string, now: string)
    requires a.items.Array? && b.items.Array? && |a.items.elems| == |b.items.elems| > 0
    requires forall k :: 0 <= k < |a.items.elems| ==>
      a.items.elems[k].Line? && b.items.elems[k].Line?
      && a.items.elems[k].productId == b.items.elems[k].productId
      && a.items.elems[k].qty == b.items.elems[k].qty
      && FindProduct(catalog, a.items.elems[k].productId).Some?
    ensures CheckoutOrder(a, catalog, id, now).Accepted? && CheckoutOrder(b, catalog, id, now).Accepted?
    ensures CheckoutOrder(a, catalog, id, now).order.total == CheckoutOrder(b, catalog, id, now).order.total
  {
    var la, lb := a.items.elems, b.items.elems;
    assert NullLine !in la && NullLine !in lb by {
      forall k | 0 <= k < |la| ensures la[k] != NullLine && lb[k] != NullLine { }
    }
    var ia, ib := NormalizeLines(la, catalog), NormalizeLines(lb, catalog);
    ItemsSumPointwise(ia, ib);
  }

  /** Two Margheritas at 8.99 come to 17.98 in a new order, whatever price the client sent. */
  lemma CheckoutTwoMargheritas(catalog: seq<Product>, pid: string, clientPrice: Option<real>, id: string, now: string)
    requires FindProduct(catalog, Some(pid)).Some? && FindProduct(catalog, Some(pid)).value.price == 8.99
    ensures var r := CheckoutOrder(CheckoutRequest(None, None, Array([Line(Some(pid), "", Parses(2), clientPrice)]), ""), catalog, id, now);
      r.Accepted? && r.order.status == "new" && r.order.total == 17.98
  {
    var line := Line(Some(pid), "", Parses(2), clientPrice);
    var item := NormalizeLine(line, catalog);
    assert item.qty == Count(2) && item.price == 8.99;
    assert ItemsSum([item]) == 17.98 by {
      assert [item][..0] == [];
    }
    assert WholePence(17.98);
    ToFixed2OfWholePence(17.98);
  }

  // ================================================================ users

  /** A registered user. */
  datatype User = User(
    id: string, email: string, name: string, provider: string, providerId: string,
    profileImageURL: Option<string>, createdAt: string, lastLoginAt: string)

  /** The body of a login request; an empty string is an absent member. */
  datatype LoginRequest = LoginRequest(email: string, name: string, provider: string, providerId: string)

  /** The user a first login creates. */
  function NewUser(req: LoginRequest, id: string, freshProviderId: string, now: string): (u: User)
    ensures u.id == id && u.email == req.email && u.name == req.name && u.provider == req.provider
    ensures u.providerId == (if req.providerId != "" then req.providerId else freshProviderId)
    ensures u.profileImageURL.None? && u.createdAt == now && u.lastLoginAt == now
  {
    User(id, req.email, req.name, req.provider,
         if req.providerId != "" then req.providerId else freshProviderId, None, now, now)
  }

  /** The user view a login and a profile update answer with. */
  datatype UserSummary = UserSummary(
    id: string, email: string, name: string, profileImageURL: Option<string>, provider: string)

  function Summary(u: User): UserSummary {
    UserSummary(u.id, u.email, u.name, u.profileImageURL, u.provider)
  }

  /** The user view the profile request answers with. */
  datatype Profile = Profile(
    id: string, email: string, name: string, profileImageURL: Option<string>, provider: string,
    createdAt: string, lastLoginAt: string)

  function ProfileOf(u: User): Profile {
    Profile(u.id, u.email, u.name, u.profileImageURL, u.provider, u.createdAt, u.lastLoginAt)
  }

  /** The body of a profile update; empty name or email is ignored. */
  datatype ProfilePatch = ProfilePatch(name: string, email: string, profileImageURL: Field<string>)

  /** A profile update: a non-empty name or email replaces the stored one, and a supplied
      image URL (possibly `null`) replaces the stored one; nothing else changes. */
  function PatchUser(u: User, patch: ProfilePatch): (r: User)
    ensures r.id == u.id && r.provider == u.provider && r.providerId == u.providerId
    ensures r.createdAt == u.createdAt && r.lastLoginAt == u.lastLoginAt
    ensures r.name == (if patch.name == "" then u.name else patch.name)
    ensures r.email == (if patch.email == "" then u.email else patch.email)
    ensures patch.profileImageURL.Absent? ==> r.profileImageURL == u.profileImageURL
    ensures patch.profileImageURL.Null? ==> r.profileImageURL.None?
    ensures patch.profileImageURL.Given? ==> r.profileImageURL == Some(patch.profileImageURL.value)
  {
    u.(name := if patch.name != "" then patch.name else u.name,
       email := if patch.email != "" then patch.email else u.email,
       profileImageURL := match patch.profileImageURL
                          case Absent => u.profileImageURL
                          case Null => None
                          case Given(url) => Some(url))
  }

  /** Sending the same profile update twice has the effect of sending it once. */
  lemma PatchUserIdempotent(u: User, patch: ProfilePatch)
    ensures PatchUser(PatchUser(u, patch), patch) == PatchUser(u, patch)
  {
  }

  /** `generateToken`: the user id framed by a prefix and the clock reading. */
  function Token(userId: string, clock: string): (t: string)
    ensures "token_" + userId <= t
  {
    "token_" + userId + "_" + clock
  }
}
