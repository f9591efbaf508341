/**
 The server record of erlang-eshop/e_shop.erl and what the callbacks do with it once the
 caller's name is known.
 */
module EshopServer {
  import opened Text

  /** The Erlang terms that travel as names and states; names are text or atoms. */
  datatype Term = Chars(chars: string) | Ok | Placed | Packaged | Shipped | Delivered

  /** An Erlang number. */
  datatype Price = Whole(n: int) | Float(x: real)

  datatype UserData = UserData(password: string, orders: seq<nat>)
  datatype Item = Item(id: nat, addedBy: Term, name: string, description: string, price: Price)
  datatype OrderItem = OrderItem(itemId: nat, quantity: nat, price: Price)
  /** keeper is the process that keeps the order's state. */
  datatype Order = Order(id: nat, user: Term, items: seq<OrderItem>, keeper: nat)

  datatype Shop = Shop(users: map<Term, UserData>, items: seq<Item>, itemCount: nat, orders: seq<Order>,
        orderCount: nat)

  const EMPTY := Shop(map[], [], 0, [], 0)

  /** lists:filter. */
  function Select<T>(xs: seq<T>, p: T -> bool): seq<T> {
    if xs == [] then [] else (if p(xs[0]) then [xs[0]] else []) + Select(xs[1..], p)
  }

  // ---------- Callbacks ----------

  function GetPasswordForUser(user: Term, shop: Shop): Option<string> {
    if user in shop.users then Some(shop.users[user].password) else None
  }

  /** The register call; None when the user exists. */
  function Register(user: Term, password: string, shop: Shop): Option<Shop> {
    if user in shop.users then None else Some(shop.(users := shop.users[user := UserData(password, [])]))
  }

  function AddNewItem(user: Term, name: string, description: string, price: Price, shop: Shop): Shop {
    var id := shop.itemCount + 1;
    shop.(items := [Item(id, user, name, description, price)] + shop.items, itemCount := id)
  }

  /** make_order; None when dict:update does not find the user. */
  function MakeOrder(user: Term, items: seq<OrderItem>, keeper: nat, shop: Shop): Option<Shop> {
    var id := shop.orderCount + 1;
    if user !in shop.users then None
    else
      var data := shop.users[user];
      Some(shop.(users := shop.users[user := data.(orders := [id] + data.orders)],
                 orders := [Order(id, user, items, keeper)] + shop.orders,
                 orderCount := id))
  }

  /** get_my_orders; None when dict:fetch does not find the user. */
  function GetMyOrders(user: Term, shop: Shop): Option<seq<Order>> {
    if user !in shop.users then None
    else
      var ids := shop.users[user].orders;
      Some(Select(shop.orders, (order: Order) => order.id in ids))
  }

  /** get_order_data; None when not exactly one order matches. */
  function GetOrderData(shop: Shop, id: nat): Option<Order> {
    var found := Select(shop.orders, (order: Order) => order.id == id);
    if |found| == 1 then Some(found[0]) else None
  }

  /** item_list_to_string formats prices with ~.2f, which fails on an integer. */
  predicate ItemsPrint(items: seq<Item>) {
    forall i | 0 <= i < |items| :: items[i].price.Float?
  }

  // ---------- Bookkeeping ----------

  /** The ids of a user's orders, newest first. */
  function IdsOf(orders: seq<Order>, user: Term): seq<nat> {
    if orders == [] then []
    else (if orders[0].user == user then [orders[0].id] else []) + IdsOf(orders[1..], user)
  }

  /** Ids count down to 1, every order has a registered user, and each user's list is the ids of their orders. */
  ghost predicate Books(shop: Shop) {
    && shop.orderCount == |shop.orders| && shop.itemCount == |shop.items|
    && (forall i | 0 <= i < |shop.orders| ::
          shop.orders[i].id == shop.orderCount - i && shop.orders[i].user in shop.users)
    && (forall i | 0 <= i < |shop.items| :: shop.items[i].id == shop.itemCount - i)
    && (forall user | user in shop.users :: shop.users[user].orders == IdsOf(shop.orders, user))
  }

  lemma EmptyBooks()
    ensures Books(EMPTY)
  {
  }

  lemma {:induction false} NoOrdersNoIds(orders: seq<Order>, user: Term)
    requires forall order | order in orders :: order.user != user
    ensures IdsOf(orders, user) == []
  {
    if orders != [] {
      NoOrdersNoIds(orders[1..], user);
    }
  }

  lemma RegisterKeepsBooks(user: Term, password: string, shop: Shop)
    requires Books(shop)
    ensures Register(user, password, shop) == None <==> user in shop.users
    ensures user !in shop.users ==>
              var shop' := Register(user, password, shop).value;
              Books(shop') && GetPasswordForUser(user, shop') == Some(password)
    ensures user !in shop.users ==> forall u | u in shop.users ::
              u in Register(user, password, shop).value.users
                  && Register(user, password, shop).value.users[u] == shop.users[u]
  {
    if user !in shop.users {
      forall order | order in shop.orders ensures order.user != user {
        assert order.user in shop.users;
      }
      NoOrdersNoIds(shop.orders, user);
      hide IdsOf;
    }
  }

  lemma AddNewItemKeepsBooks(user: Term, name: string, description: string, price: Price, shop: Shop)
    requires Books(shop)
    ensures var shop' := AddNewItem(user, name, description, price, shop);
            && Books(shop') && shop'.users == shop.users && shop'.orders == shop.orders
            && shop'.items == [Item(|shop.items| + 1, user, name, description, price)] + shop.items
  {
  }

  lemma IdsOfFirst(order: Order, orders: seq<Order>, user: Term)
    ensures IdsOf([order] + orders, user)
         == if order.user == user then [order.id] + IdsOf(orders, user) else IdsOf(orders, user)
  {
    assert ([order] + orders)[1..] == orders;
    assert [] + IdsOf(orders, user) == IdsOf(orders, user);
  }

  lemma MakeOrderKeepsBooks(user: Term, items: seq<OrderItem>, keeper: nat, shop: Shop)
    requires Books(shop)
    ensures MakeOrder(user, items, keeper, shop) == None <==> user !in shop.users
    ensures user in shop.users ==>
              var shop' := MakeOrder(user, items, keeper, shop).value;
              && Books(shop') && shop'.users.Keys == shop.users.Keys && shop'.items == shop.items
              && shop'.orders == [Order(|shop.orders| + 1, user, items, keeper)] + shop.orders
              && forall u | u in shop.users :: shop'.users[u].password == shop.users[u].password
  {
    if user in shop.users {
      var shop' := MakeOrder(user, items, keeper, shop).value;
      var order := shop'.orders[0];
      hide IdsOf;
      forall u | u in shop'.users ensures shop'.users[u].orders == IdsOf(shop'.orders, u) {
        assert shop.users[u].orders == IdsOf(shop.orders, u);
        IdsOfFirst(order, shop.orders, u);
      }
    }
  }

  lemma {:induction false} IdsOfMembers(orders: seq<Order>, user: Term, id: nat)
    ensures id in IdsOf(orders, user) <==> exists order | order in orders :: order.id == id && order.user == user
  {
    if orders != [] {
      IdsOfMembers(orders[1..], user, id);
      if id in IdsOf(orders[1..], user) {
        var order :| order in orders[1..] && order.id == id && order.user == user;
        assert order in orders;
      }
      if exists order | order in orders :: order.id == id && order.user == user {
        var order :| order in orders && order.id == id && order.user == user;
        assert order == orders[0] || order in orders[1..];
      }
    }
  }

  lemma {:induction false} SelectAgrees<T>(xs: seq<T>, p: T -> bool, q: T -> bool)
    requires forall x | x in xs :: p(x) == q(x)
    ensures Select(xs, p) == Select(xs, q)
  {
    if xs != [] {
      SelectAgrees(xs[1..], p, q);
    }
  }

  /** An id is in a user's list exactly if the order with that id is the user's. */
  lemma OwnIds(shop: Shop, user: Term, id: nat)
    requires Books(shop) && user in shop.users
    ensures id in shop.users[user].orders <==>
              1 <= id <= shop.orderCount && shop.orders[shop.orderCount - id].user == user
  {
    IdsOfMembers(shop.orders, user, id);
    if 1 <= id <= shop.orderCount && shop.orders[shop.orderCount - id].user == user {
      assert shop.orders[shop.orderCount - id].id == id;
    }
    if id in shop.users[user].orders {
      var order :| order in shop.orders && order.id == id && order.user == user;
      var i :| 0 <= i < |shop.orders| && shop.orders[i] == order;
      assert i == shop.orderCount - id;
    }
  }

  /** The users' lists partition the order ids by owner. */
  lemma IdsPartitioned(shop: Shop, id: nat, u: Term, v: Term)
    requires Books(shop) && 1 <= id <= shop.orderCount
    ensures exists owner | owner in shop.users :: id in shop.users[owner].orders
    ensures u in shop.users && v in shop.users && id in shop.users[u].orders && id in shop.users[v].orders ==> u == v
  {
    var owner := shop.orders[shop.orderCount - id].user;
    OwnIds(shop, owner, id);
    if u in shop.users && v in shop.users {
      OwnIds(shop, u, id);
      OwnIds(shop, v, id);
    }
  }

  /** get_my_orders answers with exactly the caller's orders, newest first. */
  lemma MyOrdersAreMine(user: Term, shop: Shop)
    requires Books(shop) && user in shop.users
    ensures GetMyOrders(user, shop) == Some(Select(shop.orders, (order: Order) => order.user == user))
  {
    var ids := shop.users[user].orders;
    var byId, byUser := (order: Order) => order.id in ids, (order: Order) => order.user == user;
    forall order | order in shop.orders ensures byId(order) == byUser(order) {
      var i :| 0 <= i < |shop.orders| && shop.orders[i] == order;
      OwnIds(shop, user, order.id);
      assert i == shop.orderCount - order.id;
    }
    SelectAgrees(shop.orders, byId, byUser);
    assert GetMyOrders(user, shop).value == Select(shop.orders, byUser);
  }

  lemma {:induction false} SelectNone<T>(xs: seq<T>, p: T -> bool)
    requires forall x | x in xs :: !p(x)
    ensures Select(xs, p) == []
  {
    if xs != [] {
      SelectNone(xs[1..], p);
    }
  }

  lemma {:induction false} SelectOne<T>(xs: seq<T>, p: T -> bool, k: nat)
    requires k < |xs| && p(xs[k])
    requires forall i | 0 <= i < |xs| && i != k :: !p(xs[i])
    ensures Select(xs, p) == [xs[k]]
  {
    if k == 0 {
      SelectNone(xs[1..], p);
    } else {
      SelectOne(xs[1..], p, k - 1);
    }
  }

  /** Exactly one order matches an id that was given out, and none matches any other. */
  lemma OrderDataFound(shop: Shop, id: nat)
    requires Books(shop)
    ensures GetOrderData(shop, id) ==
            if 1 <= id <= shop.orderCount then Some(shop.orders[shop.orderCount - id]) else None
  {
    var byId := (order: Order) => order.id == id;
    var found := Select(shop.orders, byId);
    assert GetOrderData(shop, id) == if |found| == 1 then Some(found[0]) else None;
    if 1 <= id <= shop.orderCount {
      SelectOne(shop.orders, byId, shop.orderCount - id);
    } else {
      SelectNone(shop.orders, byId);
    }
  }
}
