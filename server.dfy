/** The backend's in-memory state and its HTTP route handlers. Each handler is a method of
    `Store` that updates the product, order and user lists the way the route does and
    returns the status and body it answers with; the effect on the lists is stated through
    functions of the old lists, about which the lemmas below speak. Writing the lists back
    to disk after each change is not part of this model. */
module Server {
  import opened Common
  import opened Catalog

  /** An HTTP answer: a status with a JSON body, an empty 204, an error body, or an
      exception escaping the handler (Express then answers 500 with its error page). */
  datatype Reply<+T> = Ok(status: int, body: T) | NoContent | Failed(status: int, error: string) | Thrown

  /** The body of a successful login. */
  datatype LoginAnswer = LoginAnswer(user: UserSummary, token: string)

  // ================================================================ list operations

  /** `products.findIndex(p => p.id === id)`. */
  function ProductIndex(ps: seq<Product>, id: string): (k: int)
    ensures -1 <= k < |ps|
    ensures k == -1 <==> forall j :: 0 <= j < |ps| ==> ps[j].id != id
    ensures 0 <= k ==> ps[k].id == id && forall j :: 0 <= j < k ==> ps[j].id != id
  {
    FindIndex(ps, (p: Product) => p.id == id)
  }

  /** `orders.findIndex(o => o.id === id)`. */
  function OrderIndex(os: seq<Order>, id: string): (k: int)
    ensures -1 <= k < |os|
    ensures k == -1 <==> forall j :: 0 <= j < |os| ==> os[j].id != id
    ensures 0 <= k ==> os[k].id == id && forall j :: 0 <= j < k ==> os[j].id != id
  {
    FindIndex(os, (o: Order) => o.id == id)
  }

  /** `users.find(u => u.email === email)`, as an index. */
  function UserIndexByEmail(us: seq<User>, email: string): (k: int)
    ensures -1 <= k < |us|
    ensures k == -1 <==> forall j :: 0 <= j < |us| ==> us[j].email != email
    ensures 0 <= k ==> us[k].email == email && forall j :: 0 <= j < k ==> us[j].email != email
  {
    FindIndex(us, (u: User) => u.email == email)
  }

  /** `users.find(u => u.id === id)`, as an index. */
  function UserIndexById(us: seq<User>, id: string): (k: int)
    ensures -1 <= k < |us|
    ensures k == -1 <==> forall j :: 0 <= j < |us| ==> us[j].id != id
    ensures 0 <= k ==> us[k].id == id && forall j :: 0 <= j < k ==> us[j].id != id
  {
    FindIndex(us, (u: User) => u.id == id)
  }

  /** `products.filter(p => p.id !== id)`. */
  function WithoutProduct(ps: seq<Product>, id: string): (r: seq<Product>)
    ensures forall j :: 0 <= j < |r| ==> r[j].id != id && r[j] in ps
    ensures forall j :: 0 <= j < |ps| && ps[j].id != id ==> ps[j] in r
    ensures IsSubsequence(r, ps)
    ensures |r| == |ps| <==> ProductIndex(ps, id) == -1
  {
    FilterIsSubsequence(ps, (p: Product) => p.id != id);
    FilterMembers(ps, (p: Product) => p.id != id);
    Filter(ps, (p: Product) => p.id != id)
  }

  /** `orders.filter(o => o.id !== id)`. */
  function WithoutOrder(os: seq<Order>, id: string): (r: seq<Order>)
    ensures forall j :: 0 <= j < |r| ==> r[j].id != id && r[j] in os
    ensures forall j :: 0 <= j < |os| && os[j].id != id ==> os[j] in r
    ensures IsSubsequence(r, os)
    ensures |r| == |os| <==> OrderIndex(os, id) == -1
  {
    FilterIsSubsequence(os, (o: Order) => o.id != id);
    FilterMembers(os, (o: Order) => o.id != id);
    Filter(os, (o: Order) => o.id != id)
  }

  /** Adding a product under an id no other product has and then deleting that id gives
      back the list as it was. */
  lemma CreateThenDeleteRestores(ps: seq<Product>, p: Product)
    requires ProductIndex(ps, p.id) == -1
    ensures WithoutProduct(ps + [p], p.id) == ps
  {
    var f := (q: Product) => q.id != p.id;
    FilterAppend(ps, [p], f);
    FilterKeepsAll(ps, f);
  }

  /** Deleting twice: the second delete finds nothing. */
  lemma DeleteProductTwice(ps: seq<Product>, id: string)
    ensures ProductIndex(WithoutProduct(ps, id), id) == -1
    ensures WithoutProduct(WithoutProduct(ps, id), id) == WithoutProduct(ps, id)
  {
    var once := WithoutProduct(ps, id);
    FilterKeepsAll(once, (q: Product) => q.id != id);
  }

  /** Deleting an order leaves the other orders in their order. */
  lemma DeleteOrderSplits(a: seq<Order>, b: seq<Order>, id: string)
    ensures WithoutOrder(a + b, id) == WithoutOrder(a, id) + WithoutOrder(b, id)
  {
    FilterAppend(a, b, (o: Order) => o.id != id);
  }

  // ================================================================ orders invariant

  /** No order shows a total of zero or less that disagrees with its lines: totals are
      recomputed on load unless positive, and every create or update recomputes them. */
  predicate TotalsSound(os: seq<Order>) {
    forall k :: 0 <= k < |os| ==> os[k].total > 0.0 || TotalConsistent(os[k])
  }

  lemma InitialOrdersSound(loaded: Option<seq<Order>>, ps: seq<Product>, id: string, now: string)
    ensures TotalsSound(InitialOrders(loaded, ps, id, now))
  {
    var os := InitialOrders(loaded, ps, id, now);
    forall k | 0 <= k < |os| ensures os[k].total > 0.0 || TotalConsistent(os[k]) {
      var raw := if loaded.Some? then loaded.value else [SeedOrder(ps, id, now)];
      assert os[k] == NormalizeLoadedOrder(raw[k]);
    }
  }

  // ================================================================ users

  /** The login fields the handler insists on. */
  predicate LoginComplete(req: LoginRequest) {
    req.email != "" && req.name != "" && req.provider != ""
  }

  /** Two user lists with the same emails in the same places find the same user by email. */
  lemma SameEmailsSameIndex(us: seq<User>, r: seq<User>, email: string)
    requires |r| == |us| && forall j :: 0 <= j < |us| ==> r[j].email == us[j].email
    ensures UserIndexByEmail(r, email) == UserIndexByEmail(us, email)
  {
  }

  /** The user list after a login: a new user is appended when no user has the email,
      otherwise the first user with it gets a new `lastLoginAt`. */
  function AfterLogin(us: seq<User>, req: LoginRequest, id: string, freshProviderId: string, now: string): (r: seq<User>)
    ensures UserIndexByEmail(us, req.email) == -1 ==> r == us + [NewUser(req, id, freshProviderId, now)]
    ensures UserIndexByEmail(us, req.email) != -1 ==> |r| == |us|
  {
    var k := UserIndexByEmail(us, req.email);
    if k == -1 then us + [NewUser(req, id, freshProviderId, now)]
    else us[k := us[k].(lastLoginAt := now)]
  }

  /** The user a login answers for: the new user, or the returning one with a new
      `lastLoginAt`. */
  function LoggedIn(us: seq<User>, req: LoginRequest, id: string, freshProviderId: string, now: string): (u: User)
    ensures u.email == req.email && u.lastLoginAt == now
  {
    var k := UserIndexByEmail(us, req.email);
    if k == -1 then NewUser(req, id, freshProviderId, now) else us[k].(lastLoginAt := now)
  }

  /** After a login, looking the email up in the new list finds the user the login answered
      for; a returning user keeps their id, name, provider and creation time, and the other
      users are untouched. */
  lemma LoginFindsAnsweredUser(us: seq<User>, req: LoginRequest, id: string, freshProviderId: string, now: string)
    ensures var r := AfterLogin(us, req, id, freshProviderId, now);
      var k := UserIndexByEmail(r, req.email);
      k != -1 && r[k] == LoggedIn(us, req, id, freshProviderId, now)
    ensures var k := UserIndexByEmail(us, req.email);
      k != -1 ==> LoggedIn(us, req, id, freshProviderId, now) == us[k].(lastLoginAt := now)
                  && AfterLogin(us, req, id, freshProviderId, now) == us[k := LoggedIn(us, req, id, freshProviderId, now)]
  {
    var r := AfterLogin(us, req, id, freshProviderId, now);
    var k := UserIndexByEmail(us, req.email);
    if k == -1 {
      assert r[|us|].email == req.email;
    } else {
      SameEmailsSameIndex(us, r, req.email);
    }
  }

  /** Logging in twice with the same email registers one user, and both logins answer for
      the same user id. */
  lemma {:induction false} LoginTwiceOneUser(us: seq<User>, req1: LoginRequest, req2: LoginRequest,
                                             id1: string, id2: string, p1: string, p2: string, t1: string, t2: string)
    requires req1.email == req2.email
    ensures var us1 := AfterLogin(us, req1, id1, p1, t1);
      && |AfterLogin(us1, req2, id2, p2, t2)| == |us1|
      && LoggedIn(us1, req2, id2, p2, t2).id == LoggedIn(us, req1, id1, p1, t1).id
  {
    LoginFindsAnsweredUser(us, req1, id1, p1, t1);
  }

  /** No two users share an email. */
  predicate UniqueEmails(us: seq<User>) {
    forall i, j :: 0 <= i < j < |us| ==> us[i].email != us[j].email
  }

  /** Logins never register a second user with the same email. */
  lemma LoginKeepsEmailsUnique(us: seq<User>, req: LoginRequest, id: string, freshProviderId: string, now: string)
    requires UniqueEmails(us)
    ensures UniqueEmails(AfterLogin(us, req, id, freshProviderId, now))
  {
    var r := AfterLogin(us, req, id, freshProviderId, now);
    if UserIndexByEmail(us, req.email) != -1 {
      forall i, j | 0 <= i < j < |r| ensures r[i].email != r[j].email {
        assert r[i].email == us[i].email && r[j].email == us[j].email;
      }
    }
  }

  // ================================================================ the store

  /** The three in-memory lists the server keeps. */
  class Store {
    var products: seq<Product>
    var orders: seq<Order>
    var users: seq<User>

    predicate Valid()
      reads this
    {
      TotalsSound(orders)
    }

    /** Start-up: the loaded lists (or the seed data when a file is missing), normalised. */
    constructor (loadedProducts: Option<seq<StoredProduct>>, loadedOrders: Option<seq<Order>>,
                 loadedUsers: seq<User>, newId: nat -> string, seedOrderId: string, now: string)
      ensures products == InitialProducts(loadedProducts, newId, now)
      ensures orders == InitialOrders(loadedOrders, products, seedOrderId, now)
      ensures users == loadedUsers
      ensures Valid()
    {
      var ps := InitialProducts(loadedProducts, newId, now);
      InitialOrdersSound(loadedOrders, ps, seedOrderId, now);
      products := ps;
      orders := InitialOrders(loadedOrders, ps, seedOrderId, now);
      users := loadedUsers;
    }

    /** GET /api/products. */
    method PublicProducts() returns (r: seq<PublicProduct>)
      ensures |r| == |products|
      ensures forall k :: 0 <= k < |r| ==> r[k] == ToPublic(products[k])
    {
      r := seq(|products|, k requires 0 <= k < |products| reads this => ToPublic(products[k]));
    }

    /** POST /api/admin/products. */
    method CreateProduct(body: ProductPayload, id: string, now: string) returns (reply: Reply<Product>)
      requires Valid()
      modifies this
      ensures Valid() && orders == old(orders) && users == old(users)
      ensures NewProduct(body, id, now).None? ==>
        reply == Failed(400, "Invalid product payload") && products == old(products)
      ensures NewProduct(body, id, now).Some? ==>
        reply == Ok(201, NewProduct(body, id, now).value) && products == old(products) + [reply.body]
    {
      var p := NewProduct(body, id, now);
      if p.None? {
        return Failed(400, "Invalid product payload");
      }
      products := products + [p.value];
      reply := Ok(201, p.value);
    }

    /** PUT /api/admin/products/:id. */
    method UpdateProduct(id: string, body: ProductPayload, now: string) returns (reply: Reply<Product>)
      requires Valid()
      modifies this
      ensures Valid() && orders == old(orders) && users == old(users)
      ensures ProductIndex(old(products), id) == -1 ==>
        reply == Failed(404, "Not found") && products == old(products)
      ensures var k := ProductIndex(old(products), id);
        k != -1 ==> products == old(products)[k := MergeProduct(old(products)[k], body, now)]
                    && reply == Ok(200, products[k])
    {
      var k := ProductIndex(products, id);
      if k == -1 {
        return Failed(404, "Not found");
      }
      products := products[k := MergeProduct(products[k], body, now)];
      reply := Ok(200, products[k]);
    }

    /** DELETE /api/admin/products/:id. */
    method DeleteProduct(id: string) returns (reply: Reply<Product>)
      requires Valid()
      modifies this
      ensures Valid() && orders == old(orders) && users == old(users)
      ensures products == WithoutProduct(old(products), id)
      ensures reply == (if ProductIndex(old(products), id) == -1 then Failed(404, "Not found") else NoContent)
    {
      var before := |products|;
      products := WithoutProduct(products, id);
      if |products| == before {
        return Failed(404, "Not found");
      }
      reply := NoContent;
    }

    /** GET /api/admin/orders: the list as it is, where every total that is not positive
        agrees with the order's lines. */
    method AdminOrders() returns (r: seq<Order>)
      requires Valid()
      ensures r == orders
      ensures forall k :: 0 <= k < |r| ==> r[k].total > 0.0 || r[k].total == OrderTotal(r[k].items)
    {
      r := orders;
    }

    /** POST /api/admin/orders: the new order goes first. */
    method CreateOrder(req: OrderRequest, id: string, now: string) returns (reply: Reply<Order>)
      requires Valid()
      modifies this
      ensures Valid() && products == old(products) && users == old(users)
      ensures orders == [AdminOrder(req, id, now)] + old(orders)
      ensures reply == Ok(201, AdminOrder(req, id, now))
    {
      var o := AdminOrder(req, id, now);
      orders := [o] + orders;
      reply := Ok(201, o);
    }

    /** PUT /api/admin/orders/:id. */
    method UpdateOrder(id: string, patch: OrderPatch) returns (reply: Reply<Order>)
      requires Valid()
      modifies this
      ensures Valid() && products == old(products) && users == old(users)
      ensures OrderIndex(old(orders), id) == -1 ==>
        reply == Failed(404, "Not found") && orders == old(orders)
      ensures var k := OrderIndex(old(orders), id);
        k != -1 && patch.items.NotArray? ==> reply == Thrown && orders == old(orders)
      ensures var k := OrderIndex(old(orders), id);
        k != -1 && !patch.items.NotArray? ==>
          orders == old(orders)[k := PatchOrder(old(orders)[k], patch).value] && reply == Ok(200, orders[k])
    {
      var k := OrderIndex(orders, id);
      if k == -1 {
        return Failed(404, "Not found");
      }
      var updated := PatchOrder(orders[k], patch);
      if updated.None? {
        return Thrown;
      }
      orders := orders[k := updated.value];
      reply := Ok(200, orders[k]);
    }

    /** DELETE /api/admin/orders/:id. */
    method DeleteOrder(id: string) returns (reply: Reply<Order>)
      requires Valid()
      modifies this
      ensures Valid() && products == old(products) && users == old(users)
      ensures orders == WithoutOrder(old(orders), id)
      ensures reply == (if OrderIndex(old(orders), id) == -1 then Failed(404, "Not found") else NoContent)
    {
      var before := |orders|;
      orders := WithoutOrder(orders, id);
      if |orders| == before {
        return Failed(404, "Not found");
      }
      reply := NoContent;
    }

    /** POST /api/checkout: answers with the new order's id. */
    method Checkout(req: CheckoutRequest, id: string, now: string) returns (reply: Reply<string>)
      requires Valid()
      modifies this
      ensures Valid() && products == old(products) && users == old(users)
      ensures match CheckoutOrder(req, old(products), id, now)
        case Accepted(o) => orders == [o] + old(orders) && reply == Ok(201, id)
        case Rejected(s, e) => orders == old(orders) && reply == Failed(s, e)
    {
      match CheckoutOrder(req, products, id, now)
      case Accepted(o) =>
        orders := [o] + orders;
        reply := Ok(201, o.id);
      case Rejected(s, e) =>
        reply := Failed(s, e);
    }

    /** POST /api/auth/login. */
    method Login(req: LoginRequest, id: string, freshProviderId: string, now: string, clock: string)
      returns (reply: Reply<LoginAnswer>)
      requires Valid()
      modifies this
      ensures Valid() && products == old(products) && orders == old(orders)
      ensures !LoginComplete(req) ==>
        reply == Failed(400, "Email, name, and provider are required") && users == old(users)
      ensures LoginComplete(req) ==>
        var u := LoggedIn(old(users), req, id, freshProviderId, now);
        users == AfterLogin(old(users), req, id, freshProviderId, now)
        && reply == Ok(200, LoginAnswer(Summary(u), Token(u.id, clock)))
    {
      if !LoginComplete(req) {
        return Failed(400, "Email, name, and provider are required");
      }
      var k := UserIndexByEmail(users, req.email);
      var u;
      if k == -1 {
        u := NewUser(req, id, freshProviderId, now);
        users := users + [u];
      } else {
        u := users[k].(lastLoginAt := now);
        users := users[k := u];
      }
      reply := Ok(200, LoginAnswer(Summary(u), Token(u.id, clock)));
    }

    /** GET /api/auth/profile/:userId. */
    method GetProfile(userId: string) returns (reply: Reply<Profile>)
      ensures UserIndexById(users, userId) == -1 ==> reply == Failed(404, "User not found")
      ensures UserIndexById(users, userId) != -1 ==>
        reply == Ok(200, ProfileOf(users[UserIndexById(users, userId)]))
    {
      var k := UserIndexById(users, userId);
      if k == -1 {
        return Failed(404, "User not found");
      }
      reply := Ok(200, ProfileOf(users[k]));
    }

    /** PUT /api/auth/profile/:userId. */
    method UpdateProfile(userId: string, patch: ProfilePatch) returns (reply: Reply<UserSummary>)
      requires Valid()
      modifies this
      ensures Valid() && products == old(products) && orders == old(orders)
      ensures UserIndexById(old(users), userId) == -1 ==>
        reply == Failed(404, "User not found") && users == old(users)
      ensures var k := UserIndexById(old(users), userId);
        k != -1 ==> users == old(users)[k := PatchUser(old(users)[k], patch)]
                    && reply == Ok(200, Summary(users[k]))
    {
      var k := UserIndexById(users, userId);
      if k == -1 {
        return Failed(404, "User not found");
      }
      users := users[k := PatchUser(users[k], patch)];
      reply := Ok(200, Summary(users[k]));
    }
  }
}
