/** The admin routes: login, the order list and the order status update. */
module AdminRoutes {
  import opened Wrappers
  import opened Strings
  import opened Db

  /**
   * POST /admin/login. `passwordMatches` stands for bcrypt's compare of the password with the
   * stored hash, `sign` for signing a JWT carrying the admin id with the secret.
   */
  function Login(admins: map<string, Admin>, email: Option<string>, password: Option<string>,
                 jwtSecret: Option<string>, passwordMatches: (string, string) -> bool,
                 sign: (string, string) -> string): (r: Reply<string>)
    ensures !Truthy(email) || !Truthy(password) ==> r == Fail(400, "Email and password required")
    ensures r.Ok? <==>
      Truthy(email) && Truthy(password) && email.value in admins
      && passwordMatches(password.value, admins[email.value].password)
    ensures r.Ok? ==> r.body == sign(admins[email.value].id, SecretOr(jwtSecret))
    ensures Truthy(email) && Truthy(password) && r.Fail? ==> r == Fail(401, "Invalid credentials")
  {
    if !Truthy(email) || !Truthy(password) then Fail(400, "Email and password required")
    else if email.value !in admins then Fail(401, "Invalid credentials")
    else
      var admin := admins[email.value];
      if !passwordMatches(password.value, admin.password) then Fail(401, "Invalid credentials")
      else Ok(sign(admin.id, SecretOr(jwtSecret)))
  }

  /** `process.env.JWT_SECRET || "secret"`. */
  function SecretOr(jwtSecret: Option<string>): string {
    if Truthy(jwtSecret) then jwtSecret.value else "secret"
  }

  /** An unknown e-mail and a wrong password are answered alike. */
  lemma LoginDoesNotRevealEmails(admins: map<string, Admin>, unknown: string, known: string, password: string,
                                 jwtSecret: Option<string>, passwordMatches: (string, string) -> bool,
                                 sign: (string, string) -> string)
    requires unknown != "" && unknown !in admins
    requires known != "" && known in admins && password != "" && !passwordMatches(password, admins[known].password)
    ensures Login(admins, Some(unknown), Some(password), jwtSecret, passwordMatches, sign)
         == Login(admins, Some(known), Some(password), jwtSecret, passwordMatches, sign)
  {
  }

  /** Newest first: creation times never increase along the list. */
  predicate NewestFirst(list: seq<Order>) {
    forall i, j :: 0 <= i < j < |list| ==> list[i].createdAt >= list[j].createdAt
  }

  predicate DistinctIds(list: seq<Order>) {
    forall i, j :: 0 <= i < j < |list| ==> list[i].id != list[j].id
  }

  lemma NewestFirstTail(list: seq<Order>)
    requires list != [] && NewestFirst(list)
    ensures NewestFirst(list[1..])
  {
    forall i, j | 0 <= i < j < |list[1..]|
      ensures list[1..][i].createdAt >= list[1..][j].createdAt
    {
      assert list[1..][i] == list[i + 1] && list[1..][j] == list[j + 1];
    }
  }

  lemma NewestFirstCons(o: Order, list: seq<Order>)
    requires NewestFirst(list) && (list != [] ==> o.createdAt >= list[0].createdAt)
    ensures NewestFirst([o] + list)
  {
    var r := [o] + list;
    forall i, j | 0 <= i < j < |r|
      ensures r[i].createdAt >= r[j].createdAt
    {
      assert r[j] == list[j - 1];
      if i == 0 {
        assert list[0].createdAt >= list[j - 1].createdAt;
      } else {
        assert r[i] == list[i - 1];
      }
    }
  }

  /** Insert an order before the first one that is not newer. */
  function InsertByDate(list: seq<Order>, o: Order): (r: seq<Order>)
    requires NewestFirst(list)
    ensures |r| == |list| + 1
    ensures r[0] == o || (list != [] && r[0] == list[0])
    ensures NewestFirst(r)
    ensures multiset(r) == multiset(list) + multiset{o}
    decreases |list|
  {
    if list == [] || o.createdAt >= list[0].createdAt then
      NewestFirstCons(o, list);
      [o] + list
    else
      NewestFirstTail(list);
      var rest := InsertByDate(list[1..], o);
      NewestFirstCons(list[0], rest);
      assert list == [list[0]] + list[1..];
      [list[0]] + rest
  }

  /** A value that occurs at two positions is counted at least twice. */
  lemma {:induction false} CountedTwice(list: seq<Order>, i: nat, j: nat)
    requires i < j < |list| && list[i] == list[j]
    ensures multiset(list)[list[i]] >= 2
  {
    var x := list[i];
    assert list == list[..i] + [x] + list[i + 1..j] + [x] + list[j + 1..];
    assert multiset(list) == multiset(list[..i]) + multiset{x} + multiset(list[i + 1..j]) + multiset{x} + multiset(list[j + 1..]);
  }

  /** The loop invariant of the listing: `list` holds, newest first, exactly the orders under `taken`. */
  ghost predicate ListsTaken(list: seq<Order>, orders: map<string, Order>, taken: set<string>) {
    && taken <= orders.Keys
    && NewestFirst(list)
    && (forall o :: o in multiset(list) ==> o.id in taken && o.id in orders && orders[o.id] == o)
    && (forall k :: k in taken ==> orders[k] in multiset(list))
    && (forall o :: multiset(list)[o] <= 1)
    && |list| == |taken|
  }

  /** The multiset facts of one listing step, on the multiset alone. */
  lemma TakenAfterAdd(ms: multiset<Order>, orders: map<string, Order>, taken: set<string>, k: string)
    requires OrdersKeyed(orders) && taken <= orders.Keys && k in orders && k !in taken
    requires forall o :: o in ms ==> o.id in taken && o.id in orders && orders[o.id] == o
    requires forall k' :: k' in taken ==> orders[k'] in ms
    requires forall o :: ms[o] <= 1
    ensures forall o :: o in ms + multiset{orders[k]} ==> o.id in taken + {k} && o.id in orders && orders[o.id] == o
    ensures forall k' :: k' in taken + {k} ==> orders[k'] in ms + multiset{orders[k]}
    ensures forall o :: (ms + multiset{orders[k]})[o] <= 1
  {
    var o := orders[k];
    assert o.id == k;
    assert ms[o] == 0;
    var m := ms + multiset{o};
    forall x | x in m
      ensures x.id in taken + {k} && x.id in orders && orders[x.id] == x
    {
      if x != o {
        assert x in ms;
      }
    }
    forall x
      ensures m[x] <= 1
    {
      assert m[x] == ms[x] + multiset{o}[x];
    }
  }

  /** One step of the listing: the order under `k` moves from `remaining` into the list. */
  lemma InsertTaken(list: seq<Order>, orders: map<string, Order>, remaining: set<string>, k: string)
    requires OrdersKeyed(orders) && remaining <= orders.Keys && k in remaining
    requires ListsTaken(list, orders, orders.Keys - remaining)
    ensures ListsTaken(InsertByDate(list, orders[k]), orders, orders.Keys - (remaining - {k}))
  {
    var taken := orders.Keys - remaining;
    assert orders.Keys - (remaining - {k}) == taken + {k};
    TakenAfterAdd(multiset(list), orders, taken, k);
    assert |taken + {k}| == |taken| + 1;
  }

  /** Before the listing nothing is taken. */
  lemma ListsNothing(orders: map<string, Order>)
    ensures ListsTaken([], orders, orders.Keys - orders.Keys)
  {
    assert orders.Keys - orders.Keys == {};
  }

  /** GET /admin/orders: every order once, ordered by `createdAt` descending. */
  method ListOrders(db: Database) returns (list: seq<Order>)
    requires db.Valid()
    ensures NewestFirst(list)
    ensures DistinctIds(list)
    ensures |list| == |db.orders|
    ensures forall o :: o in list <==> o in db.orders.Values
  {
    var orders := db.orders;
    var remaining := orders.Keys;
    list := [];
    ListsNothing(orders);
    while remaining != {}
      invariant remaining <= orders.Keys
      invariant ListsTaken(list, orders, orders.Keys - remaining)
      decreases remaining
    {
      var k :| k in remaining;
      InsertTaken(list, orders, remaining, k);
      list := InsertByDate(list, orders[k]);
      remaining := remaining - {k};
    }
    assert orders.Keys - remaining == orders.Keys;
    ListedOnce(list, orders);
  }

  /** A list whose multiset holds every order of the table exactly once lists each order once. */
  lemma ListedOnce(list: seq<Order>, orders: map<string, Order>)
    requires OrdersKeyed(orders) && ListsTaken(list, orders, orders.Keys)
    ensures NewestFirst(list)
    ensures DistinctIds(list)
    ensures |list| == |orders|
    ensures forall o :: o in list <==> o in orders.Values
  {
    forall i, j | 0 <= i < j < |list|
      ensures list[i].id != list[j].id
    {
      if list[i].id == list[j].id {
        assert list[i] in multiset(list) && list[j] in multiset(list);
        CountedTwice(list, i, j);
      }
    }
    forall o
      ensures o in list <==> o in orders.Values
    {
      assert o in list <==> o in multiset(list);
      if o in orders.Values {
        var k :| k in orders && orders[k] == o;
      }
    }
  }

  /**
   * PATCH /admin/orders/:id/status: any member of the enum is accepted, whatever the current status;
   * an unknown id makes the update throw (500).
   */
  function UpdateStatusStep(orders: map<string, Order>, id: string, status: string): (out: (Reply<Order>, map<string, Order>))
    ensures ParseStatus(status).None? ==> out == (Fail(400, "Invalid status"), orders)
    ensures ParseStatus(status).Some? && id !in orders ==> out == (Fail(500, "Failed to update order status"), orders)
    ensures out.0.Ok? <==> ParseStatus(status).Some? && id in orders
    ensures out.0.Ok? ==>
      && out.0.body == orders[id].(status := ParseStatus(status).value)
      && StatusName(out.0.body.status) == status
      && out.1 == orders[id := out.0.body]
    ensures out.0.Fail? ==> out.1 == orders
  {
    match ParseStatus(status)
    case None => (Fail(400, "Invalid status"), orders)
    case Some(s) =>
      if id !in orders then (Fail(500, "Failed to update order status"), orders)
      else
        var updated := orders[id].(status := s);
        (Ok(updated), orders[id := updated])
  }

  /** A status update never touches a payment id, so payment ids stay unique. */
  lemma UpdateStatusKeepsPaymentIdsUnique(orders: map<string, Order>, id: string, status: string)
    requires PaymentIdsUnique(orders)
    ensures PaymentIdsUnique(UpdateStatusStep(orders, id, status).1)
  {
    var r := UpdateStatusStep(orders, id, status).1;
    assert forall k :: k in r ==> r[k].paymentId == orders[k].paymentId;
  }

  method UpdateOrderStatus(db: Database, id: string, status: string) returns (reply: Reply<Order>)
    requires db.Valid()
    modifies db
    ensures db.Valid()
    ensures (reply, db.orders) == UpdateStatusStep(old(db.orders), id, status)
    ensures db.products == old(db.products) && db.admins == old(db.admins)
  {
    var parsed := ParseStatus(status);
    if parsed.None? {
      return Fail(400, "Invalid status");
    }
    if id !in db.orders {
      return Fail(500, "Failed to update order status");
    }
    var updated := db.orders[id].(status := parsed.value);
    db.orders := db.orders[id := updated];
    reply := Ok(updated);
  }
}
