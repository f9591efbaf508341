/**
 What holds when replies are timely: the server never takes a reply for another one, never
 fails, and answers each call in the name of the owner of its session.
 */
module EshopReplies {
  import opened Text
  import opened EshopServer
  import opened EshopActors
  import opened EshopOrders

  // ---------- The queues ----------

  predicate SessionQuiet(session: Session) { session.inbox == [] && session.outbox == [] }

  predicate KeeperQuiet(keeper: Keeper) { keeper.inbox == [] && keeper.outbox == [] }

  /** Asked whether it exists: the question or its one answer is under way, or the session has ended unasked. */
  predicate SessionQueried(session: Session) {
    || (session.alive && session.inbox == [CheckExistence] && session.outbox == [])
    || (session.inbox == [] && session.outbox == [session.owner])
    || (!session.alive && session.inbox == [] && session.outbox == [])
  }

  /** Asked to end. */
  predicate SessionEnding(session: Session) {
    || (session.alive && session.inbox == [DestroySession] && session.outbox == [])
    || (!session.alive && session.inbox == [] && (session.outbox == [Ok] || session.outbox == []))
  }

  predicate StateAsked(keeper: Keeper) {
    || (keeper.inbox == [GetState] && keeper.outbox == [])
    || (keeper.inbox == [] && keeper.outbox == [keeper.state])
  }

  predicate ChangeAsked(keeper: Keeper) {
    || (|keeper.inbox| == 1 && keeper.inbox[0].ChangeState? && keeper.outbox == [])
    || (keeper.inbox == [] && keeper.outbox == [Ok])
  }

  predicate SessionInOrder(session: Session, i: nat, mode: Mode) {
    match mode
    case AwaitAuth(call) => if HasSession(call) && call.sid == i then SessionQueried(session) else SessionQuiet(session)
    case AwaitLogOut(call, _) =>
      if HasSession(call) && call.sid == i then SessionEnding(session) else SessionQuiet(session)
    case _ => SessionQuiet(session)
  }

  predicate KeeperInOrder(keeper: Keeper, k: nat, mode: Mode) {
    match mode
    case AwaitOrderState(_, _, awaited) => if awaited == k then StateAsked(keeper) else KeeperQuiet(keeper)
    case AwaitChange(awaited) => if awaited == k then ChangeAsked(keeper) else KeeperQuiet(keeper)
    case _ => KeeperQuiet(keeper)
  }

  /** An order by its id. */
  function OrderOf(orders: seq<Order>, id: nat): Option<Order> {
    if 1 <= id <= |orders| then Some(orders[|orders| - id]) else None
  }

  predicate OwnOrder(shop: Shop, id: nat, user: Term) {
    OrderOf(shop.orders, id).Some? && OrderOf(shop.orders, id).value.user == user
  }

  /** A callback that went past authentication works for the owner of its session. */
  predicate CallerKnown(s: System) {
    match s.mode
    case AwaitLogOut(call, user) => HasSession(call) && call.sid < |s.sessions| && user == s.sessions[call.sid].owner
    case AwaitOrderState(call, user, _) =>
      && call.OrderState? && call.sid < |s.sessions| && user == s.sessions[call.sid].owner
      && OwnOrder(s.shop, call.orderId, user)
    case _ => true
  }

  predicate Queues(s: System) {
    && s.mode != Crashed
    && (forall i | 0 <= i < |s.sessions| :: SessionInOrder(s.sessions[i], i, s.mode))
    && (forall k | 0 <= k < |s.keepers| :: KeeperInOrder(s.keepers[k], k, s.mode))
    && CallerKnown(s)
  }

  /** Nothing is under way in either direction. */
  predicate AllQuiet(s: System) {
    && (forall i | 0 <= i < |s.sessions| :: SessionQuiet(s.sessions[i]))
    && (forall k | 0 <= k < |s.keepers| :: KeeperQuiet(s.keepers[k]))
  }

  lemma LogOutQueues(s: System, call: Call)
    requires Sound(s) && AllQuiet(s) && s.mode == AwaitAuth(call) && call.LogOut?
    ensures Queues(Act(s, call, s.sessions[call.sid].owner))
  {
    hide Books, ActorsSound, OrdersSound;
    var user := s.sessions[call.sid].owner;
    var t := Act(s, call, user);
    assert t.mode == AwaitLogOut(call, user) && t.keepers == s.keepers;
    forall i | 0 <= i < |t.sessions| ensures SessionInOrder(t.sessions[i], i, t.mode) {
      assert SessionQuiet(s.sessions[i]);
    }
    forall k | 0 <= k < |t.keepers| ensures KeeperInOrder(t.keepers[k], k, t.mode) {
      assert KeeperQuiet(s.keepers[k]);
    }
  }

  lemma OrderStateQueues(s: System, call: Call)
    requires Sound(s) && AllQuiet(s) && s.mode == AwaitAuth(call) && call.OrderState?
    ensures Queues(Act(s, call, s.sessions[call.sid].owner))
  {
    var user := s.sessions[call.sid].owner;
    OwnIds(s.shop, user, call.orderId);
    OrderDataFound(s.shop, call.orderId);
    hide Books, GetOrderData;
    if call.orderId in s.shop.users[user].orders {
      assert s.shop.orders[s.shop.orderCount - call.orderId].keeper == call.orderId - 1;
    }
  }

  /** With nothing else under way, an action for the session's owner does not fail and leaves the queues in order. */
  lemma ActQueues(s: System, call: Call)
    requires Sound(s) && AllQuiet(s) && s.mode == AwaitAuth(call) && !PrintFails(s, ReplyTaken)
    ensures Queues(Act(s, call, s.sessions[call.sid].owner))
  {
    var user := s.sessions[call.sid].owner;
    assert user in s.shop.users;
    match call
    case LogOut(_) => LogOutQueues(s, call);
    case OrderState(_, _) => OrderStateQueues(s, call);
    case _ => hide Books, ActorsSound, OrdersSound, SessionsSound;
  }

  lemma StartCallQueues(s: System, call: Call)
    requires Sound(s) && Queues(s) && Enabled(s, CallStarts(call))
    ensures Queues(StartCall(s, call))
  {
    hide Books, ActorsSound, OrdersSound, SessionsSound;
  }

  lemma StartCastQueues(s: System, n: nat)
    requires Sound(s) && Queues(s) && Enabled(s, CastStarts(n))
    ensures Queues(StartCast(s, n))
  {
    StartCastSound(s, n);
    hide Books, ActorsSound, OrdersSound, SessionsSound, StartCast;
  }

  lemma RemovedOk()
    ensures WithoutFirst([Ok], Ok) == []
  {
  }

  lemma AuthReplyQueues(s: System, call: Call)
    requires Sound(s) && Queues(s) && HasReply(s) && s.mode == AwaitAuth(call) && !PrintFails(s, ReplyTaken)
    ensures Queues(TakeReply(s))
  {
    AuthCall(s);
    var outbox := s.sessions[call.sid].outbox;
    OutboxSound(s, call.sid, outbox[1..]);
    AuthQuiet(s, call);
    hide Sound, Queues, Act, AllQuiet;
    ActQueues(SetSessionOutbox(s, call.sid, outbox[1..]), call);
  }

  lemma AuthCall(s: System)
    requires HasReply(s) && s.mode.AwaitAuth?
    ensures s.mode.call.sid < |s.sessions|
  {
  }

  lemma LogOutReplyQueues(s: System)
    requires Queues(s) && HasReply(s) && s.mode.AwaitLogOut?
    ensures Queues(TakeReply(s))
  {
    RemovedOk();
    var sid := s.mode.call.sid;
    assert SessionInOrder(s.sessions[sid], sid, s.mode);
    hide WithoutFirst;
  }

  lemma KeeperReplyQueues(s: System)
    requires Queues(s) && HasReply(s) && (s.mode.AwaitOrderState? || s.mode.AwaitChange?)
    ensures Queues(TakeReply(s))
  {
    RemovedOk();
    var keeper := s.mode.keeper;
    assert KeeperInOrder(s.keepers[keeper], keeper, s.mode);
    hide WithoutFirst;
  }

  lemma TakeReplyQueues(s: System)
    requires Sound(s) && Queues(s) && HasReply(s) && !PrintFails(s, ReplyTaken)
    ensures Queues(TakeReply(s))
  {
    hide Sound, Queues, TakeReply, PrintFails;
    match s.mode
    case AwaitAuth(call) => AuthReplyQueues(s, call);
    case AwaitLogOut(_, _) => LogOutReplyQueues(s);
    case AwaitOrderState(_, _, _) => KeeperReplyQueues(s);
    case AwaitChange(_) => KeeperReplyQueues(s);
  }

  lemma AuthQuiet(s: System, call: Call)
    requires Queues(s) && s.mode == AwaitAuth(call) && HasReply(s)
    ensures s.sessions[call.sid].outbox == [s.sessions[call.sid].owner]
    ensures AllQuiet(SetSessionOutbox(s, call.sid, s.sessions[call.sid].outbox[1..]))
  {
    assert SessionInOrder(s.sessions[call.sid], call.sid, s.mode);
    var s' := SetSessionOutbox(s, call.sid, s.sessions[call.sid].outbox[1..]);
    forall i | 0 <= i < |s'.sessions| ensures SessionQuiet(s'.sessions[i]) {
      assert SessionInOrder(s.sessions[i], i, s.mode);
    }
    forall k | 0 <= k < |s'.keepers| ensures KeeperQuiet(s'.keepers[k]) {
      assert KeeperInOrder(s.keepers[k], k, s.mode);
    }
  }

  lemma TimeoutQueues(s: System)
    requires Sound(s) && Queues(s) && Enabled(s, ReplyTimesOut) && !AnswerMayCome(s)
    ensures Queues(ReplyTimeout(s))
  {
    hide Books, ActorsSound, OrdersSound, SessionsSound;
  }

  lemma ActorStepQueues(s: System, e: Event)
    requires Sound(s) && Queues(s) && Enabled(s, e)
    requires e.SessionStep? || e.SessionTimesOut? || e.KeeperStep? || e.ChangerStep?
    ensures Queues(Apply(s, e))
  {
    hide Books, ActorsSound, OrdersSound;
    match e
    case SessionStep(sid) => assert SessionInOrder(s.sessions[sid], sid, s.mode);
    case SessionTimesOut(sid) => assert SessionInOrder(s.sessions[sid], sid, s.mode);
    case KeeperStep(k) => assert KeeperInOrder(s.keepers[k], k, s.mode);
    case ChangerStep(_) =>
  }

  lemma IdleIsQuiet(s: System)
    requires Queues(s) && s.mode == Idle
    ensures AllQuiet(s)
  {
    forall i | 0 <= i < |s.sessions| ensures SessionQuiet(s.sessions[i]) {
      assert SessionInOrder(s.sessions[i], i, s.mode);
    }
    forall k | 0 <= k < |s.keepers| ensures KeeperQuiet(s.keepers[k]) {
      assert KeeperInOrder(s.keepers[k], k, s.mode);
    }
  }

  lemma StepQueues(s: System, e: Event)
    requires Sound(s) && Queues(s) && Enabled(s, e) && Timely(s, e) && !PrintFails(s, e)
    ensures Queues(Apply(s, e))
  {
    match e
    case CallStarts(call) =>
      StartCallQueues(s, call);
      hide Sound, Queues, StartCall;
    case CastStarts(changer) =>
      StartCastQueues(s, changer);
      hide Sound, Queues, StartCast;
    case StraySessionReply(sid) =>
      IdleIsQuiet(s);
      assert false;
    case StrayKeeperReply(keeper) =>
      IdleIsQuiet(s);
      assert false;
    case ReplyTaken =>
      TakeReplyQueues(s);
      hide Sound, Queues, TakeReply;
    case ReplyTimesOut =>
      TimeoutQueues(s);
      hide Sound, Queues;
    case _ =>
      ActorStepQueues(s, e);
      hide Sound, Queues;
  }

  // ---------- The answers ----------

  /** How far an order is. */
  function Stage(state: Term): nat {
    match state
    case Placed => 0
    case Packaged => 1
    case Shipped => 2
    case _ => 3
  }

  /** Lists grow at the front, so xs is what ys was at some time. */
  predicate Earlier<T(==)>(xs: seq<T>, ys: seq<T>) {
    |xs| <= |ys| && ys[|ys| - |xs|..] == xs
  }

  /** All orders of the user, at some time. */
  ghost predicate Listed(listed: seq<Order>, user: Term, orders: seq<Order>) {
    exists past: seq<Order> :: Earlier(past, orders) && listed == Select(past, (order: Order) => order.user == user)
  }

  /** The items have one that the user added with this call. */
  ghost predicate Added(items: seq<Item>, call: Call, user: Term)
    requires call.AddItem?
  {
    exists item | item in items ::
      item.addedBy == user && item.name == call.name && item.description == call.description && item.price == call.price
  }

  /** The kinds of answer a call can get. */
  predicate Fits(call: Call, reply: Reply) {
    match call
    case RegisterUser(_, _) => reply == RegistrationOk || reply == UserAlreadyExists
    case LogIn(_, _) => reply.LoggedIn? || reply == InvalidPassword || reply == NoSuchUser
    case LogOut(_) => reply == LogOutOk || reply == LogOutError || reply == NoSuchSession
    case GetAllItems(_) => reply.AllItems? || reply == NoSuchSession
    case AddItem(_, _, _, _) => reply == ItemAdded || reply == NoSuchSession
    case PlaceOrder(_, _) => reply.OrderPlaced? || reply == NoSuchSession
    case MyOrders(_) => reply.Orders? || reply == NoSuchSession
    case OrderState(_, _) => reply.StateIs? || reply == StateUnknown || reply == NoSuchOrder || reply == NoSuchSession
  }

  /** A call that was answered, judged by the system as it is now. */
  ghost predicate WellAnswered(s: System, h: Handled) {
    && Fits(h.call, h.reply) && (HasSession(h.call) ==> h.call.sid < |s.sessions|)
    // An action ran exactly if the session was found, and then for its owner.
    && (h.user.Some? <==> HasSession(h.call) && h.reply != NoSuchSession)
    && (h.user.Some? ==> h.user.value == s.sessions[h.call.sid].owner)
    // A session that was not found, or was asked to end, has ended.
    && (h.reply == NoSuchSession ==> HasSession(h.call))
    && (h.reply in {NoSuchSession, LogOutOk, LogOutError} ==> HasSession(h.call) && !s.sessions[h.call.sid].alive)
    // A keeper always answers, with a state the caller's own order has had.
    && h.reply != StateUnknown
    && (h.reply.StateIs? ==>
          && h.call.OrderState? && 1 <= h.call.orderId <= |s.keepers|
          && h.user.Some? && OwnOrder(s.shop, h.call.orderId, h.user.value)
          && h.reply.state in PROGRESS && Stage(h.reply.state) <= |s.keepers[h.call.orderId - 1].past|)
    // The lists are complete, and items and orders are filed as they were given.
    && (h.reply.ItemAdded? ==> h.call.AddItem? && h.user.Some? && Added(s.shop.items, h.call, h.user.value))
    && (h.reply.Orders? ==> h.user.Some? && Listed(h.reply.orders, h.user.value, s.shop.orders))
    && (h.reply.AllItems? ==> Earlier(h.reply.items, s.shop.items))
    && (h.reply.OrderPlaced? ==>
          && h.user.Some? && OwnOrder(s.shop, h.reply.id, h.user.value)
          && h.call.PlaceOrder? && OrderOf(s.shop.orders, h.reply.id).value.items == h.call.items)
  }

  /** Later answers about an order never show an earlier state. */
  ghost predicate NeverBack(log: seq<Handled>) {
    forall i, j | 0 <= i < j < |log| && log[i].reply.StateIs? && log[j].reply.StateIs?
        && log[i].call.OrderState? && log[j].call.OrderState? && log[i].call.orderId == log[j].call.orderId
      :: Stage(log[i].reply.state) <= Stage(log[j].reply.state)
  }

  ghost predicate LogRight(s: System) {
    (forall h | h in s.log :: WellAnswered(s, h)) && NeverBack(s.log)
  }

  ghost predicate Disciplined(s: System) { Queues(s) && LogRight(s) }

  /** What a step never takes back. */
  ghost predicate Extends(s: System, t: System) {
    && |s.sessions| <= |t.sessions| && |s.keepers| <= |t.keepers|
    && (forall i | 0 <= i < |s.sessions| ::
          t.sessions[i].owner == s.sessions[i].owner && (t.sessions[i].alive ==> s.sessions[i].alive))
    && (forall k | 0 <= k < |s.keepers| :: |s.keepers[k].past| <= |t.keepers[k].past|)
    && Earlier(s.shop.orders, t.shop.orders) && Earlier(s.shop.items, t.shop.items)
  }

  lemma EarlierYet<T>(xs: seq<T>, ys: seq<T>, zs: seq<T>)
    requires Earlier(xs, ys) && Earlier(ys, zs)
    ensures Earlier(xs, zs)
  {
    assert zs[|zs| - |xs|..] == zs[|zs| - |ys|..][|ys| - |xs|..];
  }

  lemma StillAdded(xs: seq<Item>, ys: seq<Item>, call: Call, user: Term)
    requires call.AddItem? && Earlier(xs, ys) && Added(xs, call, user)
    ensures Added(ys, call, user)
  {
    var item :| item in xs && item.addedBy == user && item.name == call.name
             && item.description == call.description && item.price == call.price;
    assert item in ys[|ys| - |xs|..];
  }

  lemma JustAdded(shop: Shop, call: Call, user: Term)
    requires call.AddItem?
    ensures Added(AddNewItem(user, call.name, call.description, call.price, shop).items, call, user)
  {
    var items := AddNewItem(user, call.name, call.description, call.price, shop).items;
    assert items[0] in items;
  }

  lemma SameOrder(xs: seq<Order>, ys: seq<Order>, id: nat)
    requires Earlier(xs, ys) && OrderOf(xs, id).Some?
    ensures OrderOf(ys, id) == OrderOf(xs, id)
  {
    assert ys[|ys| - |xs|..][|xs| - id] == ys[|ys| - id];
  }

  lemma StillListed(listed: seq<Order>, user: Term, xs: seq<Order>, ys: seq<Order>)
    requires Listed(listed, user, xs) && Earlier(xs, ys)
    ensures Listed(listed, user, ys)
  {
    var past: seq<Order> :| Earlier(past, xs) && listed == Select(past, (order: Order) => order.user == user);
    EarlierYet(past, xs, ys);
  }

  lemma SameLists(s: System)
    ensures Earlier(s.shop.orders, s.shop.orders) && Earlier(s.shop.items, s.shop.items)
  {
  }

  lemma ListsGrow(shop: Shop, user: Term, items: seq<OrderItem>, keeper: nat, name: string, description: string,
        price: Price)
    ensures Earlier(shop.items, AddNewItem(user, name, description, price, shop).items)
    ensures AddNewItem(user, name, description, price, shop).orders == shop.orders
    ensures var shop' := MakeOrder(user, items, keeper, shop);
            shop'.Some? ==> Earlier(shop.orders, shop'.value.orders) && shop'.value.items == shop.items
  {
  }

  lemma NothingChangedExtends(s: System, t: System)
    requires t.sessions == s.sessions && t.keepers == s.keepers && t.shop == s.shop
    ensures Extends(s, t)
  {
    SameLists(s);
    hide Earlier;
  }

  lemma ToSessionExtends(s: System, sid: nat, request: SessionRequest, mode: Mode)
    ensures Extends(s, ToSession(s, sid, request).(mode := mode))
  {
    SameLists(s);
    hide Earlier;
  }

  lemma ToKeeperExtends(s: System, keeper: nat, request: KeeperRequest, mode: Mode)
    ensures Extends(s, ToKeeper(s, keeper, request).(mode := mode))
  {
    SameLists(s);
    hide Earlier;
  }

  /** Lists that grew, and perhaps one more keeper. */
  lemma GrownExtends(s: System, t: System)
    requires t.sessions == s.sessions && s.keepers <= t.keepers
    requires Earlier(s.shop.orders, t.shop.orders) && Earlier(s.shop.items, t.shop.items)
    ensures Extends(s, t)
  {
    hide Earlier;
  }

  lemma ActExtends(s: System, call: Call, user: Term)
    requires HasSession(call)
    ensures Extends(s, Act(s, call, user))
  {
    hide Extends, Earlier, ToSession, ToKeeper, AddNewItem, MakeOrder, GetMyOrders, GetOrderData;
    var t := Act(s, call, user);
    SameLists(s);
    match call
    case LogOut(sid) =>
      ToSessionExtends(s, sid, DestroySession, t.mode);
    case AddItem(_, name, description, price) =>
      ListsGrow(s.shop, user, [], 0, name, description, price);
      GrownExtends(s, t);
    case PlaceOrder(_, items) =>
      ListsGrow(s.shop, user, items, |s.keepers|, "", "", Whole(0));
      GrownExtends(s, t);
    case OrderState(_, orderId) =>
      if t.mode.AwaitOrderState? {
        ToKeeperExtends(s, t.mode.keeper, GetState, t.mode);
      } else {
        NothingChangedExtends(s, t);
      }
    case _ =>
      NothingChangedExtends(s, t);
  }

  lemma OutboxExtends(s: System, sid: nat, outbox: seq<Term>, t: System)
    requires sid < |s.sessions| && Extends(SetSessionOutbox(s, sid, outbox), t)
    ensures Extends(s, t)
  {
    hide Earlier;
    var s' := SetSessionOutbox(s, sid, outbox);
    forall i | 0 <= i < |s.sessions|
      ensures t.sessions[i].owner == s.sessions[i].owner && (t.sessions[i].alive ==> s.sessions[i].alive)
    {
      assert s'.sessions[i].owner == s.sessions[i].owner && s'.sessions[i].alive == s.sessions[i].alive;
    }
  }

  lemma KeeperOutboxExtends(s: System, keeper: nat, outbox: seq<Term>, t: System)
    requires keeper < |s.keepers| && Extends(SetKeeperOutbox(s, keeper, outbox), t)
    ensures Extends(s, t)
  {
    hide Earlier;
    var s' := SetKeeperOutbox(s, keeper, outbox);
    forall k | 0 <= k < |s.keepers| ensures |s.keepers[k].past| <= |t.keepers[k].past| {
      assert s'.keepers[k].past == s.keepers[k].past;
    }
  }

  lemma TakeReplyExtends(s: System)
    requires HasReply(s)
    ensures Extends(s, TakeReply(s))
  {
    hide Act, Extends, WithoutFirst, SetSessionOutbox, SetKeeperOutbox;
    var t := TakeReply(s);
    match s.mode
    case AwaitAuth(call) =>
      var outbox := s.sessions[call.sid].outbox;
      ActExtends(SetSessionOutbox(s, call.sid, outbox[1..]), call, outbox[0]);
      OutboxExtends(s, call.sid, outbox[1..], t);
    case AwaitLogOut(call, _) =>
      var outbox := WithoutFirst(s.sessions[call.sid].outbox, Ok);
      NothingChangedExtends(SetSessionOutbox(s, call.sid, outbox), t);
      OutboxExtends(s, call.sid, outbox, t);
    case AwaitOrderState(_, _, keeper) =>
      var outbox := s.keepers[keeper].outbox[1..];
      NothingChangedExtends(SetKeeperOutbox(s, keeper, outbox), t);
      KeeperOutboxExtends(s, keeper, outbox, t);
    case AwaitChange(keeper) =>
      var outbox := WithoutFirst(s.keepers[keeper].outbox, Ok);
      NothingChangedExtends(SetKeeperOutbox(s, keeper, outbox), t);
      KeeperOutboxExtends(s, keeper, outbox, t);
  }

  lemma StartExtends(s: System, e: Event)
    requires Enabled(s, e) && (e.CallStarts? || e.CastStarts?)
    ensures Extends(s, Apply(s, e))
  {
    hide Register, GetOrderData, Earlier;
    SameLists(s);
    if e.CallStarts? && e.call.RegisterUser? {
      RegisterKeepsLists(e.call.user, e.call.password, s.shop);
    }
  }

  lemma RegisterKeepsLists(user: Term, password: string, shop: Shop)
    ensures var shop' := Register(user, password, shop);
            shop'.Some? ==> shop'.value.orders == shop.orders && shop'.value.items == shop.items
  {
  }

  lemma StepExtends(s: System, e: Event)
    requires Enabled(s, e)
    ensures Extends(s, Apply(s, e))
  {
    match e
    case CallStarts(_) =>
      StartExtends(s, e);
      hide Apply, Extends;
    case CastStarts(_) =>
      StartExtends(s, e);
      hide Apply, Extends;
    case ReplyTaken =>
      TakeReplyExtends(s);
      hide TakeReply, Extends;
    case _ =>
      SameLists(s);
      hide Earlier;
  }

  lemma StillWellAnswered(s: System, t: System, h: Handled)
    requires WellAnswered(s, h) && Extends(s, t)
    ensures WellAnswered(t, h)
  {
    if h.reply.Orders? {
      StillListed(h.reply.orders, h.user.value, s.shop.orders, t.shop.orders);
    } else if h.reply.AllItems? {
      EarlierYet(h.reply.items, s.shop.items, t.shop.items);
    } else if h.reply.ItemAdded? {
      StillAdded(s.shop.items, t.shop.items, h.call, h.user.value);
    } else if h.reply.OrderPlaced? {
      SameOrder(s.shop.orders, t.shop.orders, h.reply.id);
    } else if h.reply.StateIs? {
      SameOrder(s.shop.orders, t.shop.orders, h.call.orderId);
    }
    hide Listed, Earlier, OrderOf, Stage, Added;
  }

  lemma HeldIsPrefix(keeper: Keeper, changer: Changer, id: nat)
    requires PairSound(keeper, changer, id)
    ensures Held(keeper) <= PROGRESS && |Held(keeper)| == |keeper.past| + 1
    ensures Held(keeper)[|keeper.past|] == keeper.state
  {
    hide Changes;
  }

  lemma StageOfLast(held: seq<Term>)
    requires held <= PROGRESS && held != []
    ensures held[|held| - 1] in PROGRESS && Stage(held[|held| - 1]) == |held| - 1
  {
    assert held[|held| - 1] == PROGRESS[|held| - 1];
  }

  lemma StateStage(keeper: Keeper, changer: Changer, id: nat)
    requires PairSound(keeper, changer, id)
    ensures keeper.state in PROGRESS && Stage(keeper.state) == |keeper.past|
  {
    HeldIsPrefix(keeper, changer, id);
    hide *;
    StageOfLast(Held(keeper));
  }

  lemma MyOrdersListed(user: Term, shop: Shop)
    requires Books(shop) && user in shop.users
    ensures GetMyOrders(user, shop).Some? && Listed(GetMyOrders(user, shop).value, user, shop.orders)
    ensures GetMyOrders(user, shop).value == Select(shop.orders, (order: Order) => Some(order.user) == Some(user))
  {
    MyOrdersAreMine(user, shop);
    SelectAgrees(shop.orders, (order: Order) => order.user == user, (order: Order) => Some(order.user) == Some(user));
    hide GetMyOrders, Books, Select;
    assert Earlier(shop.orders, shop.orders);
  }

  /** The step from s to t answered nothing, or one call, and that one well. */
  ghost predicate AnswersWell(s: System, t: System) {
    || t.log == s.log
    || (exists h: Handled :: t.log == s.log + [h] && AnsweredNow(t, h))
  }

  /** The answer is the present state of things. */
  ghost predicate AnsweredNow(t: System, h: Handled) {
    && WellAnswered(t, h)
    && (h.reply.StateIs? ==> Stage(h.reply.state) == |t.keepers[h.call.orderId - 1].past|)
    && (h.reply.AllItems? ==> h.reply.items == t.shop.items)
    && (h.reply.Orders? ==> h.reply.orders == Select(t.shop.orders, (order: Order) => Some(order.user) == h.user))
    && (h.reply.OrderPlaced? ==> h.reply.id == t.shop.orderCount)
    && (h.reply == NoSuchOrder ==>
          h.call.OrderState? && h.user.Some? && !OwnOrder(t.shop, h.call.orderId, h.user.value))
  }

  lemma Answered(s: System, t: System, h: Handled)
    requires t.log == s.log + [h] && AnsweredNow(t, h)
    ensures AnswersWell(s, t)
  {
  }

  lemma NothingAnswered(s: System, t: System)
    requires t.log == s.log
    ensures AnswersWell(s, t)
  {
  }

  lemma OrderStateAnswers(s: System, call: Call)
    requires Sound(s) && s.mode == AwaitAuth(call) && call.OrderState?
    ensures AnswersWell(s, Act(s, call, s.sessions[call.sid].owner))
  {
    var user := s.sessions[call.sid].owner;
    assert user in s.shop.users && s.shop.orderCount == |s.shop.orders|;
    OwnIds(s.shop, user, call.orderId);
    OrderDataFound(s.shop, call.orderId);
    hide Books, ActorsSound, OrdersSound, SessionsSound, GetOrderData, AnswersWell;
    var t := Act(s, call, user);
    if call.orderId in s.shop.users[user].orders {
      NothingAnswered(s, t);
    } else {
      Answered(s, t, Handled(call, Some(user), NoSuchOrder));
    }
  }

  lemma ListAnswers(s: System, call: Call)
    requires Sound(s) && s.mode == AwaitAuth(call)
    requires call.MyOrders? || (call.GetAllItems? && ItemsPrint(s.shop.items))
    ensures AnswersWell(s, Act(s, call, s.sessions[call.sid].owner))
  {
    var user := s.sessions[call.sid].owner;
    assert user in s.shop.users;
    SameLists(s);
    MyOrdersListed(user, s.shop);
    hide Books, ActorsSound, OrdersSound, SessionsSound, GetMyOrders, AnswersWell, Listed, Earlier, Select;
    var t := Act(s, call, user);
    Answered(s, t, t.log[|s.log|]);
  }

  lemma ActAnswers(s: System, call: Call)
    requires Sound(s) && s.mode == AwaitAuth(call)
    ensures AnswersWell(s, Act(s, call, s.sessions[call.sid].owner))
  {
    var user := s.sessions[call.sid].owner;
    var t := Act(s, call, user);
    match call
    case OrderState(_, _) => OrderStateAnswers(s, call);
    case MyOrders(_) => ListAnswers(s, call);
    case GetAllItems(_) =>
      if ItemsPrint(s.shop.items) {
        ListAnswers(s, call);
      } else {
        hide Sound, AnswersWell;
        NothingAnswered(s, t);
      }
    case LogOut(_) =>
      hide Sound, AnswersWell;
      NothingAnswered(s, t);
    case AddItem(_, name, description, price) =>
      JustAdded(s.shop, call, user);
      hide Books, ActorsSound, OrdersSound, SessionsSound, AddNewItem, Added, AnswersWell;
      Answered(s, t, t.log[|s.log|]);
    case PlaceOrder(_, _) =>
      assert user in s.shop.users && s.shop.orderCount == |s.shop.orders|;
      hide Books, ActorsSound, OrdersSound, SessionsSound, AnswersWell;
      Answered(s, t, t.log[|s.log|]);
  }

  lemma TakeReplyAnswers(s: System)
    requires Sound(s) && Queues(s) && HasReply(s)
    ensures AnswersWell(s, TakeReply(s))
  {
    var t := TakeReply(s);
    match s.mode
    case AwaitAuth(call) =>
      var outbox := s.sessions[call.sid].outbox;
      AuthQuiet(s, call);
      OutboxSound(s, call.sid, outbox[1..]);
      ActAnswers(SetSessionOutbox(s, call.sid, outbox[1..]), call);
      hide Sound, Queues, Act, WellAnswered;
    case AwaitLogOut(call, user) =>
      assert SessionInOrder(s.sessions[call.sid], call.sid, s.mode);
      hide Books, ActorsSound, OrdersSound, SessionsSound, AnswersWell;
      Answered(s, t, Handled(call, Some(user), LogOutOk));
    case AwaitOrderState(call, user, keeper) =>
      assert KeeperInOrder(s.keepers[keeper], keeper, s.mode);
      StateStage(s.keepers[keeper], s.changers[keeper], keeper + 1);
      hide Books, ActorsSound, OrdersSound, SessionsSound, AnswersWell, Stage;
      Answered(s, t, Handled(call, Some(user), StateIs(s.keepers[keeper].state)));
    case AwaitChange(keeper) =>
      hide Sound, Queues;
      NothingAnswered(s, t);
  }

  lemma TimeoutAnswers(s: System)
    requires Sound(s) && Queues(s) && Enabled(s, ReplyTimesOut) && !AnswerMayCome(s)
    ensures AnswersWell(s, ReplyTimeout(s))
  {
    hide Books, ActorsSound, OrdersSound, SessionsSound, AnswersWell;
    var t := ReplyTimeout(s);
    match s.mode
    case AwaitAuth(call) => Answered(s, t, Handled(call, None, NoSuchSession));
    case AwaitLogOut(call, user) => Answered(s, t, Handled(call, Some(user), LogOutError));
    case _ =>
  }

  lemma StartCallAnswers(s: System, call: Call)
    requires Enabled(s, CallStarts(call))
    ensures AnswersWell(s, StartCall(s, call))
  {
    hide AnswersWell;
    var t := StartCall(s, call);
    if t.log != s.log {
      Answered(s, t, t.log[|s.log|]);
    } else {
      NothingAnswered(s, t);
    }
  }

  lemma StepAnswers(s: System, e: Event)
    requires Sound(s) && Queues(s) && Enabled(s, e) && Timely(s, e)
    ensures AnswersWell(s, Apply(s, e))
  {
    hide Sound, Queues, AnswersWell, StartCall, TakeReply, ReplyTimeout;
    match e
    case CallStarts(call) => StartCallAnswers(s, call);
    case ReplyTaken => TakeReplyAnswers(s);
    case ReplyTimesOut => TimeoutAnswers(s);
    case CastStarts(n) => NothingAnswered(s, StartCast(s, n));
    case _ => NothingAnswered(s, Apply(s, e));
  }

  lemma StepDisciplined(s: System, e: Event)
    requires Sound(s) && Disciplined(s) && Enabled(s, e) && Timely(s, e) && !PrintFails(s, e)
    ensures Disciplined(Apply(s, e))
  {
    StepQueues(s, e);
    StepExtends(s, e);
    StepAnswers(s, e);
    hide Apply, Extends, AnswersWell, LogRight, Queues;
    LogExtends(s, Apply(s, e));
  }

  lemma LogExtends(s: System, t: System)
    requires LogRight(s) && Extends(s, t) && AnswersWell(s, t)
    ensures LogRight(t)
  {
    hide Extends, Stage, WellAnswered;
    forall h | h in s.log ensures WellAnswered(t, h) {
      StillWellAnswered(s, t, h);
    }
    if t.log != s.log {
      var h: Handled :| t.log == s.log + [h] && AnsweredNow(t, h);
      forall g | g in t.log ensures WellAnswered(t, g) {
        assert g == h || g in s.log;
      }
      NeverBackYet(s, t, h);
    }
  }

  lemma NeverBackYet(s: System, t: System, h: Handled)
    requires LogRight(s) && Extends(s, t) && t.log == s.log + [h] && AnsweredNow(t, h)
    ensures NeverBack(t.log)
  {
    hide Stage, Earlier, Listed;
    forall i | 0 <= i < |s.log| && s.log[i].reply.StateIs? && h.reply.StateIs?
        && s.log[i].call.OrderState? && h.call.OrderState? && s.log[i].call.orderId == h.call.orderId
      ensures Stage(s.log[i].reply.state) <= Stage(h.reply.state)
    {
      assert s.log[i] in s.log;
    }
  }

  // ---------- Whole runs ----------

  /** The queues are in order unless the server has failed; the log is right in any case. */
  ghost predicate DisciplinedIfUp(s: System) {
    LogRight(s) && (s.mode != Crashed ==> Queues(s))
  }

  lemma DownStep(s: System, e: Event)
    requires s.mode == Crashed && Enabled(s, e) && LogRight(s)
    ensures Apply(s, e).mode == Crashed && LogRight(Apply(s, e))
  {
    StepExtends(s, e);
    hide LogRight, AnswersWell, Extends, Stage;
    assert Apply(s, e).log == s.log;
    NothingAnswered(s, Apply(s, e));
    LogExtends(s, Apply(s, e));
  }

  lemma PrintFailure(s: System, e: Event)
    requires Sound(s) && Disciplined(s) && Enabled(s, e) && PrintFails(s, e)
    ensures Apply(s, e).mode == Crashed && LogRight(Apply(s, e))
  {
    StepExtends(s, e);
    hide Sound, Queues, LogRight, AnswersWell, Extends, Stage;
    assert Apply(s, e).log == s.log;
    NothingAnswered(s, Apply(s, e));
    LogExtends(s, Apply(s, e));
  }

  lemma {:induction false} RunDown(s: System, events: seq<Event>)
    requires s.mode == Crashed && LogRight(s) && Legal(s, events)
    ensures After(s, events).mode == Crashed && LogRight(After(s, events))
    decreases |events|
  {
    hide Enabled, Apply, LogRight;
    if events != [] {
      DownStep(s, events[0]);
      RunDown(Apply(s, events[0]), events[1..]);
    }
  }

  /** In a timely run the server fails exactly if it comes to print an integer price. */
  lemma {:induction false} RunDisciplined(s: System, events: seq<Event>)
    requires Sound(s) && Disciplined(s) && Legal(s, events) && TimelyRun(s, events)
    ensures Sound(After(s, events)) && DisciplinedIfUp(After(s, events))
    ensures After(s, events).mode == Crashed <==> !Prints(s, events)
    decreases |events|
  {
    UpNow(s);
    hide Sound, Disciplined, Enabled, Apply, Timely, PrintFails, DisciplinedIfUp;
    if events != [] {
      StepSound(s, events[0]);
      if PrintFails(s, events[0]) {
        PrintFailure(s, events[0]);
        RunSound(Apply(s, events[0]), events[1..]);
        RunDown(Apply(s, events[0]), events[1..]);
        DownIsFine(After(s, events));
      } else {
        StepDisciplined(s, events[0]);
        RunDisciplined(Apply(s, events[0]), events[1..]);
      }
    }
  }

  lemma UpNow(s: System)
    requires Disciplined(s)
    ensures s.mode != Crashed && DisciplinedIfUp(s)
  {
    hide LogRight;
  }

  lemma DownIsFine(s: System)
    requires s.mode == Crashed && LogRight(s)
    ensures DisciplinedIfUp(s)
  {
    hide LogRight;
  }
}
