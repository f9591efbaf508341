/**
 The e-shop as one sequential service: whatever way its processes interleave, timely or not,
 each call is answered once, in the order the calls were made, and each answer follows from
 the answers before it.
 */
module EshopLog {
  import opened Text
  import opened EshopServer
  import opened EshopActors
  import opened EshopOrders

  // ---------- What a log of answers says ----------

  /** The password a name was first registered with. */
  function PasswordIn(log: seq<Handled>, user: Term): Option<string> {
    if log == [] then None
    else
      var before, h := PasswordIn(log[..|log| - 1], user), log[|log| - 1];
      if before == None && h.call.RegisterUser? && h.call.user == user then Some(h.call.password) else before
  }

  /** The owners of the sessions opened, in order; the place is the session id. */
  function OwnersIn(log: seq<Handled>): seq<Term> {
    if log == [] then []
    else
      var before, h := OwnersIn(log[..|log| - 1]), log[|log| - 1];
      if h.call.LogIn? && h.reply.LoggedIn? then before + [h.call.user] else before
  }

  /** The items added, newest first, numbered from 1. */
  function ItemsIn(log: seq<Handled>): seq<Item> {
    if log == [] then []
    else
      var before, h := ItemsIn(log[..|log| - 1]), log[|log| - 1];
      if h.call.AddItem? && h.user.Some? then
        [Item(|before| + 1, h.user.value, h.call.name, h.call.description, h.call.price)] + before
      else before
  }

  /** The orders placed, newest first, numbered from 1; the keepers were started in the same order. */
  function OrdersIn(log: seq<Handled>): seq<Order> {
    if log == [] then []
    else
      var before, h := OrdersIn(log[..|log| - 1]), log[|log| - 1];
      if h.call.PlaceOrder? && h.user.Some? then
        [Order(|before| + 1, h.user.value, h.call.items, |before|)] + before
      else before
  }

  /** The order with that id is the user's. */
  predicate IsOrderOf(orders: seq<Order>, id: nat, user: Term) {
    1 <= id <= |orders| && orders[|orders| - id].user == user
  }

  function OrdersOf(orders: seq<Order>, user: Term): seq<Order> {
    Select(orders, (order: Order) => order.user == user)
  }

  /** What the call is answered when its action runs with the name user, after the answers in before. */
  predicate ActionFits(before: seq<Handled>, call: Call, user: Term, reply: Reply) {
    match call
    case LogOut(_) => reply == LogOutOk || reply == LogOutError
    case GetAllItems(_) => reply == AllItems(ItemsIn(before))
    case AddItem(_, _, _, _) => reply == ItemAdded
    case PlaceOrder(_, _) => reply == OrderPlaced(|OrdersIn(before)| + 1)
    case MyOrders(_) => reply == Orders(OrdersOf(OrdersIn(before), user))
    case OrderState(_, id) =>
      if IsOrderOf(OrdersIn(before), id, user) then reply.StateIs? || reply == StateUnknown else reply == NoSuchOrder
    case _ => false
  }

  /** The answer follows from those before it. */
  predicate Follows(before: seq<Handled>, h: Handled) {
    match h.call
    case RegisterUser(user, _) =>
      h.user == None && h.reply == if PasswordIn(before, user) == None then RegistrationOk else UserAlreadyExists
    case LogIn(user, password) =>
      && h.user == None
      && h.reply == if PasswordIn(before, user) == None then NoSuchUser
                    else if PasswordIn(before, user) == Some(password) then LoggedIn(|OwnersIn(before)|)
                    else InvalidPassword
    case _ => if h.user == None then h.reply == NoSuchSession else ActionFits(before, h.call, h.user.value, h.reply)
  }

  predicate LogFollows(log: seq<Handled>) {
    forall i | 0 <= i < |log| :: Follows(log[..i], log[i])
  }

  // ---------- The system keeps to its log ----------

  ghost predicate UsersRecorded(s: System) {
    forall user :: GetPasswordForUser(user, s.shop) == PasswordIn(s.log, user)
  }

  ghost predicate SessionsRecorded(s: System) {
    && |s.sessions| == |OwnersIn(s.log)|
    && forall i | 0 <= i < |s.sessions| :: s.sessions[i].owner == OwnersIn(s.log)[i]
  }

  ghost predicate ListsRecorded(s: System) {
    && s.shop.items == ItemsIn(s.log) && s.shop.orders == OrdersIn(s.log)
    && (s.mode.AwaitOrderState? ==>
          s.mode.call.OrderState? && IsOrderOf(OrdersIn(s.log), s.mode.call.orderId, s.mode.user))
  }

  ghost predicate Recorded(s: System) {
    UsersRecorded(s) && SessionsRecorded(s) && ListsRecorded(s) && LogFollows(s.log)
  }

  lemma OneMore(log: seq<Handled>, h: Handled)
    ensures (log + [h])[..|log|] == log && (log + [h])[|log|] == h
  {
  }

  lemma LogFollowsMore(log: seq<Handled>, h: Handled)
    requires LogFollows(log) && Follows(log, h)
    ensures LogFollows(log + [h])
  {
    hide Follows;
    var all := log + [h];
    forall i | 0 <= i < |all| ensures Follows(all[..i], all[i]) {
      if i < |log| {
        assert all[..i] == log[..i];
      } else {
        OneMore(log, h);
      }
    }
  }

  /** What one more answer adds. */
  lemma RecordsMore(log: seq<Handled>, h: Handled, user: Term)
    ensures PasswordIn(log + [h], user)
         == if PasswordIn(log, user) == None && h.call.RegisterUser? && h.call.user == user then Some(h.call.password)
            else PasswordIn(log, user)
    ensures OwnersIn(log + [h])
         == if h.call.LogIn? && h.reply.LoggedIn? then OwnersIn(log) + [h.call.user] else OwnersIn(log)
    ensures !(h.call.AddItem? && h.user.Some?) ==> ItemsIn(log + [h]) == ItemsIn(log)
    ensures h.call.AddItem? && h.user.Some? ==>
              var item := Item(|ItemsIn(log)| + 1, h.user.value, h.call.name, h.call.description, h.call.price);
              ItemsIn(log + [h]) == [item] + ItemsIn(log)
    ensures !(h.call.PlaceOrder? && h.user.Some?) ==> OrdersIn(log + [h]) == OrdersIn(log)
    ensures h.call.PlaceOrder? && h.user.Some? ==>
              var order := Order(|OrdersIn(log)| + 1, h.user.value, h.call.items, |OrdersIn(log)|);
              OrdersIn(log + [h]) == [order] + OrdersIn(log)
  {
    OneMore(log, h);
  }

  /** Nothing was answered, and neither the shop nor the owners of sessions changed. */
  lemma StillRecorded(s: System, t: System)
    requires Recorded(s) && t.log == s.log && t.shop == s.shop && |t.sessions| == |s.sessions|
    requires forall i | 0 <= i < |s.sessions| :: t.sessions[i].owner == s.sessions[i].owner
    requires t.mode.AwaitOrderState? ==>
               t.mode.call.OrderState? && IsOrderOf(OrdersIn(s.log), t.mode.call.orderId, t.mode.user)
    ensures Recorded(t)
  {
    hide LogFollows, GetPasswordForUser, IsOrderOf;
  }

  /** A call with a session was answered, and changed neither users nor sessions. */
  lemma AnswerRecorded(s: System, t: System, h: Handled)
    requires Recorded(s) && t.log == s.log + [h] && Follows(s.log, h) && HasSession(h.call)
    requires |t.sessions| == |s.sessions|
    requires forall i | 0 <= i < |s.sessions| :: t.sessions[i].owner == s.sessions[i].owner
    requires forall user :: GetPasswordForUser(user, t.shop) == GetPasswordForUser(user, s.shop)
    requires t.shop.items == ItemsIn(t.log) && t.shop.orders == OrdersIn(t.log) && t.mode == Idle
    ensures Recorded(t)
  {
    hide LogFollows, GetPasswordForUser, IsOrderOf, PasswordIn, OwnersIn, ItemsIn, OrdersIn, Follows;
    LogFollowsMore(s.log, h);
    forall user ensures PasswordIn(t.log, user) == PasswordIn(s.log, user) && OwnersIn(t.log) == OwnersIn(s.log) {
      RecordsMore(s.log, h, user);
    }
    RecordsMore(s.log, h, Ok);
  }

  // ---------- Calls about accounts ----------

  lemma RegisterRecorded(s: System, call: Call)
    requires Recorded(s) && s.mode == Idle && call.RegisterUser?
    ensures Recorded(StartCall(s, call))
  {
    hide LogFollows, PasswordIn, OwnersIn, ItemsIn, OrdersIn;
    var t := StartCall(s, call);
    var h := t.log[|s.log|];
    assert t.log == s.log + [h];
    assert GetPasswordForUser(call.user, s.shop) == PasswordIn(s.log, call.user);
    LogFollowsMore(s.log, h);
    forall user ensures GetPasswordForUser(user, t.shop) == PasswordIn(t.log, user) {
      assert GetPasswordForUser(user, s.shop) == PasswordIn(s.log, user);
      RecordsMore(s.log, h, user);
    }
    RecordsMore(s.log, h, call.user);
  }

  lemma LogInRecorded(s: System, call: Call)
    requires Recorded(s) && s.mode == Idle && call.LogIn?
    ensures Recorded(StartCall(s, call))
  {
    hide LogFollows, PasswordIn, OwnersIn, ItemsIn, OrdersIn;
    var t := StartCall(s, call);
    var h := t.log[|s.log|];
    assert t.log == s.log + [h];
    assert GetPasswordForUser(call.user, s.shop) == PasswordIn(s.log, call.user);
    LogFollowsMore(s.log, h);
    forall user ensures GetPasswordForUser(user, t.shop) == PasswordIn(t.log, user) {
      assert GetPasswordForUser(user, s.shop) == PasswordIn(s.log, user);
      RecordsMore(s.log, h, user);
    }
    RecordsMore(s.log, h, call.user);
  }

  // ---------- Actions ----------

  lemma AddItemRecorded(s: System, call: Call, user: Term)
    requires Recorded(s) && Sound(s) && s.mode == AwaitAuth(call) && call.AddItem?
    ensures Recorded(Act(s, call, user))
  {
    var t, h := Act(s, call, user), Handled(call, Some(user), ItemAdded);
    assert s.shop.itemCount == |s.shop.items|;
    hide Sound, Recorded, ItemsIn, OrdersIn, Follows;
    assert ListsRecorded(s) by { RecordedLists(s); }
    RecordsMore(s.log, h, user);
    ItemAddedFits(s.log, call, user);
    AnswerRecorded(s, t, h);
  }

  lemma RecordedLists(s: System)
    requires Recorded(s)
    ensures s.shop.items == ItemsIn(s.log) && s.shop.orders == OrdersIn(s.log) && ListsRecorded(s)
  {
    hide UsersRecorded, SessionsRecorded, LogFollows, IsOrderOf;
  }

  lemma ItemAddedFits(log: seq<Handled>, call: Call, user: Term)
    requires call.AddItem?
    ensures Follows(log, Handled(call, Some(user), ItemAdded))
  {
  }

  lemma PlaceOrderRecorded(s: System, call: Call, user: Term)
    requires Recorded(s) && Sound(s) && s.mode == AwaitAuth(call) && call.PlaceOrder? && user in s.shop.users
    ensures Recorded(Act(s, call, user))
  {
    var t := Act(s, call, user);
    assert s.shop.orderCount == |s.shop.orders| == |s.keepers|;
    hide Sound, Recorded, ItemsIn, OrdersIn, Follows;
    RecordedLists(s);
    var h := Handled(call, Some(user), OrderPlaced(|OrdersIn(s.log)| + 1));
    RecordsMore(s.log, h, user);
    OrderPlacedFits(s.log, call, user);
    AnswerRecorded(s, t, h);
  }

  lemma OrderPlacedFits(log: seq<Handled>, call: Call, user: Term)
    requires call.PlaceOrder?
    ensures Follows(log, Handled(call, Some(user), OrderPlaced(|OrdersIn(log)| + 1)))
  {
    hide OrdersIn;
  }

  lemma ListingRecorded(s: System, call: Call, user: Term)
    requires Recorded(s) && Sound(s) && s.mode == AwaitAuth(call)
    requires (call.GetAllItems? && ItemsPrint(s.shop.items)) || (call.MyOrders? && user in s.shop.users)
    ensures Recorded(Act(s, call, user))
  {
    RecordedLists(s);
    if call.MyOrders? {
      MyOrdersAreMine(user, s.shop);
    }
    hide Sound, Recorded, ItemsIn, OrdersIn, Follows, GetMyOrders, Books;
    var t := Act(s, call, user);
    var h := t.log[|s.log|];
    assert t.log == s.log + [h];
    RecordsMore(s.log, h, user);
    ListingFits(s.log, call, user, h.reply);
    AnswerRecorded(s, t, h);
  }

  lemma ListingFits(log: seq<Handled>, call: Call, user: Term, reply: Reply)
    requires (call.GetAllItems? && reply == AllItems(ItemsIn(log)))
             || (call.MyOrders? && reply == Orders(OrdersOf(OrdersIn(log), user)))
    ensures Follows(log, Handled(call, Some(user), reply))
  {
    hide OrdersIn, ItemsIn, OrdersOf;
  }

  lemma AskStateRecorded(s: System, call: Call, user: Term)
    requires Recorded(s) && Sound(s) && s.mode == AwaitAuth(call) && call.OrderState? && user in s.shop.users
    ensures Recorded(Act(s, call, user))
  {
    RecordedLists(s);
    OwnByIds(s, user, call.orderId);
    hide Sound, Recorded, ItemsIn, OrdersIn, Follows, Books, GetOrderData, ToKeeper, IsOrderOf;
    var t := Act(s, call, user);
    if call.orderId in s.shop.users[user].orders {
      ToKeeperKeeps(s, GetOrderData(s.shop, call.orderId).value.keeper);
      StillRecorded(s, t);
    } else {
      var h := Handled(call, Some(user), NoSuchOrder);
      NoOrderFits(s.log, call, user);
      RecordsMore(s.log, h, user);
      AnswerRecorded(s, t, h);
    }
  }

  lemma OwnByIds(s: System, user: Term, id: nat)
    requires Sound(s) && user in s.shop.users
    ensures id in s.shop.users[user].orders <==> IsOrderOf(s.shop.orders, id, user)
    ensures IsOrderOf(s.shop.orders, id, user) ==> GetOrderData(s.shop, id).Some?
  {
    OwnIds(s.shop, user, id);
    OrderDataFound(s.shop, id);
    assert s.shop.orderCount == |s.shop.orders|;
    hide Sound, Books, GetOrderData;
  }

  lemma ToKeeperKeeps(s: System, keeper: nat)
    ensures var t := ToKeeper(s, keeper, GetState); t.log == s.log && t.shop == s.shop && t.sessions == s.sessions
  {
  }

  lemma NoOrderFits(log: seq<Handled>, call: Call, user: Term)
    requires call.OrderState? && !IsOrderOf(OrdersIn(log), call.orderId, user)
    ensures Follows(log, Handled(call, Some(user), NoSuchOrder))
  {
    hide OrdersIn, IsOrderOf;
  }

  lemma LogOutAsked(s: System, call: Call, user: Term)
    requires Recorded(s) && s.mode == AwaitAuth(call) && call.LogOut?
    ensures Recorded(Act(s, call, user))
  {
    hide Recorded;
    StillRecorded(s, Act(s, call, user));
  }

  lemma FailRecorded(s: System, call: Call, user: Term)
    requires Recorded(s) && s.mode == AwaitAuth(call) && HasSession(call)
    requires Act(s, call, user).mode == Crashed
    ensures Recorded(Act(s, call, user))
  {
    hide Recorded, GetMyOrders, GetOrderData, ToKeeper, ToSession;
    StillRecorded(s, Act(s, call, user));
  }

  lemma ActRecorded(s: System, call: Call, user: Term)
    requires Recorded(s) && Sound(s) && s.mode == AwaitAuth(call) && HasSession(call)
    ensures Recorded(Act(s, call, user))
  {
    if Act(s, call, user).mode == Crashed {
      FailRecorded(s, call, user);
    } else {
      ActRuns(s, call, user);
      hide Recorded, Sound, Act;
      match call
      case LogOut(_) => LogOutAsked(s, call, user);
      case GetAllItems(_) => ListingRecorded(s, call, user);
      case AddItem(_, _, _, _) => AddItemRecorded(s, call, user);
      case PlaceOrder(_, _) => PlaceOrderRecorded(s, call, user);
      case MyOrders(_) => ListingRecorded(s, call, user);
      case OrderState(_, _) => AskStateRecorded(s, call, user);
    }
  }

  lemma ActRuns(s: System, call: Call, user: Term)
    requires HasSession(call) && Act(s, call, user).mode != Crashed
    ensures call.PlaceOrder? || call.MyOrders? || call.OrderState? ==> user in s.shop.users
    ensures call.GetAllItems? ==> ItemsPrint(s.shop.items)
  {
    hide GetOrderData, ItemsPrint;
  }

  // ---------- Steps ----------

  lemma OutboxRecorded(s: System, sid: nat, outbox: seq<Term>)
    requires Recorded(s) && sid < |s.sessions|
    ensures Recorded(SetSessionOutbox(s, sid, outbox))
  {
    hide Recorded;
    SameRecorded(s, SetSessionOutbox(s, sid, outbox));
  }

  lemma SameRecorded(s: System, t: System)
    requires Recorded(s) && t.log == s.log && t.shop == s.shop && |t.sessions| == |s.sessions| && t.mode == s.mode
    requires forall i | 0 <= i < |s.sessions| :: t.sessions[i].owner == s.sessions[i].owner
    ensures Recorded(t)
  {
    hide LogFollows, GetPasswordForUser, IsOrderOf;
  }

  lemma WaitedFor(s: System, t: System, h: Handled)
    requires Recorded(s) && t.log == s.log + [h] && Follows(s.log, h) && HasSession(h.call) && t.mode == Idle
    requires !(h.call.AddItem? && h.user.Some?) && !(h.call.PlaceOrder? && h.user.Some?)
    requires t.shop == s.shop && |t.sessions| == |s.sessions|
    requires forall i | 0 <= i < |s.sessions| :: t.sessions[i].owner == s.sessions[i].owner
    ensures Recorded(t)
  {
    hide Recorded, Follows, ItemsIn, OrdersIn;
    RecordedLists(s);
    RecordsMore(s.log, h, Ok);
    AnswerRecorded(s, t, h);
  }

  lemma AuthReplyRecorded(s: System, call: Call)
    requires Recorded(s) && Sound(s) && HasReply(s) && s.mode == AwaitAuth(call)
    ensures Recorded(TakeReply(s))
  {
    AuthWaits(s, call);
    hide Recorded, Sound, Act;
    var outbox := s.sessions[call.sid].outbox;
    OutboxSound(s, call.sid, outbox[1..]);
    OutboxRecorded(s, call.sid, outbox[1..]);
    ActRecorded(SetSessionOutbox(s, call.sid, outbox[1..]), call, outbox[0]);
  }

  lemma AuthWaits(s: System, call: Call)
    requires HasReply(s) && s.mode == AwaitAuth(call)
    ensures HasSession(call) && call.sid < |s.sessions|
  {
  }

  lemma OkRecorded(s: System, call: Call, user: Term)
    requires Recorded(s) && ModeSound(s) && HasReply(s) && s.mode == AwaitLogOut(call, user)
    ensures Recorded(TakeReply(s))
  {
    hide Recorded, WithoutFirst;
    WaitedFor(s, TakeReply(s), Handled(call, Some(user), LogOutOk));
  }

  lemma StateRecorded(s: System, call: Call, user: Term, keeper: nat)
    requires Recorded(s) && HasReply(s) && s.mode == AwaitOrderState(call, user, keeper)
    ensures Recorded(TakeReply(s))
  {
    RecordedLists(s);
    hide Recorded, OrdersIn, IsOrderOf;
    WaitedFor(s, TakeReply(s), Handled(call, Some(user), StateIs(s.keepers[keeper].outbox[0])));
  }

  lemma ChangeRecorded(s: System, keeper: nat)
    requires Recorded(s) && HasReply(s) && s.mode == AwaitChange(keeper)
    ensures Recorded(TakeReply(s))
  {
    hide Recorded, WithoutFirst;
    StillRecorded(s, TakeReply(s));
  }

  lemma TakeReplyRecorded(s: System)
    requires Recorded(s) && Sound(s) && HasReply(s)
    ensures Recorded(TakeReply(s))
  {
    assert ModeSound(s);
    hide Recorded, Sound, TakeReply, ModeSound;
    match s.mode
    case AwaitAuth(call) => AuthReplyRecorded(s, call);
    case AwaitLogOut(call, user) => OkRecorded(s, call, user);
    case AwaitOrderState(call, user, keeper) => StateRecorded(s, call, user, keeper);
    case AwaitChange(keeper) => ChangeRecorded(s, keeper);
  }

  lemma TimeoutRecorded(s: System)
    requires Recorded(s) && Sound(s) && Enabled(s, ReplyTimesOut)
    ensures Recorded(ReplyTimeout(s))
  {
    assert ModeSound(s);
    RecordedLists(s);
    hide Recorded, Sound, OrdersIn, IsOrderOf;
    var t := ReplyTimeout(s);
    match s.mode
    case AwaitAuth(call) => WaitedFor(s, t, Handled(call, None, NoSuchSession));
    case AwaitLogOut(call, user) => WaitedFor(s, t, Handled(call, Some(user), LogOutError));
    case AwaitOrderState(call, user, _) => WaitedFor(s, t, Handled(call, Some(user), StateUnknown));
    case AwaitChange(_) => StillRecorded(s, t);
  }

  lemma StartCallRecorded(s: System, call: Call)
    requires Recorded(s) && Enabled(s, CallStarts(call))
    ensures Recorded(StartCall(s, call))
  {
    hide Recorded;
    match call
    case RegisterUser(_, _) => hide StartCall; RegisterRecorded(s, call);
    case LogIn(_, _) => hide StartCall; LogInRecorded(s, call);
    case _ => StillRecorded(s, StartCall(s, call));
  }

  lemma ActorRecorded(s: System, e: Event)
    requires Recorded(s) && Enabled(s, e) && (e.SessionStep? || e.SessionTimesOut? || e.KeeperStep? || e.ChangerStep?)
    ensures Recorded(Apply(s, e))
  {
    hide Recorded, KeeperReceives, ChangerSends;
    SameRecorded(s, Apply(s, e));
  }

  lemma StepRecorded(s: System, e: Event)
    requires Recorded(s) && Sound(s) && Enabled(s, e)
    ensures Recorded(Apply(s, e))
  {
    match e
    case CallStarts(call) =>
      hide Recorded, Sound, StartCall;
      StartCallRecorded(s, call);
    case CastStarts(n) =>
      hide Recorded, Sound, GetOrderData;
      StillRecorded(s, Apply(s, e));
    case StraySessionReply(sid) =>
      hide Recorded, Sound;
      StillRecorded(s, Apply(s, e));
    case StrayKeeperReply(_) =>
      hide Recorded, Sound;
      StillRecorded(s, Apply(s, e));
    case ReplyTaken =>
      hide Recorded, Sound, TakeReply;
      TakeReplyRecorded(s);
    case ReplyTimesOut =>
      hide Recorded, Sound, ReplyTimeout;
      TimeoutRecorded(s);
    case _ =>
      hide Recorded, Sound, Apply;
      ActorRecorded(s, e);
  }

  lemma {:induction false} RunRecorded(s: System, events: seq<Event>)
    requires Recorded(s) && Sound(s) && Legal(s, events)
    ensures Recorded(After(s, events))
    decreases |events|
  {
    hide Recorded, Sound, Enabled, Apply;
    if events != [] {
      StepSound(s, events[0]);
      StepRecorded(s, events[0]);
      RunRecorded(Apply(s, events[0]), events[1..]);
    }
  }

  lemma InitialRecorded()
    ensures Recorded(INITIAL) && Sound(INITIAL)
  {
    EmptyBooks();
  }

  /**
   In every interleaving each answer follows from those before it, and the shop and the owners
   of sessions are what the log says.
   */
  lemma AnswersFollowLog(events: seq<Event>)
    requires Legal(INITIAL, events)
    ensures var s := After(INITIAL, events);
            && LogFollows(s.log)
            && s.shop.items == ItemsIn(s.log) && s.shop.orders == OrdersIn(s.log)
            && (forall user :: GetPasswordForUser(user, s.shop) == PasswordIn(s.log, user))
            && |s.sessions| == |OwnersIn(s.log)|
            && (forall i | 0 <= i < |s.sessions| :: s.sessions[i].owner == OwnersIn(s.log)[i])
  {
    hide LogFollows, After, ItemsIn, OrdersIn, PasswordIn, OwnersIn, Sound, GetPasswordForUser, IsOrderOf;
    InitialRecorded();
    RunRecorded(INITIAL, events);
  }

  // ---------- Each call is answered once, in order ----------

  function CallsOf(log: seq<Handled>): (calls: seq<Call>)
    ensures |calls| == |log|
  {
    seq(|log|, i requires 0 <= i < |log| => log[i].call)
  }

  /** The call the server is busy with. */
  function Pending(mode: Mode): seq<Call> {
    match mode
    case AwaitAuth(call) => [call]
    case AwaitLogOut(call, _) => [call]
    case AwaitOrderState(call, _, _) => [call]
    case _ => []
  }

  function Started(events: seq<Event>): seq<Call> {
    if events == [] then [] else (if events[0].CallStarts? then [events[0].call] else []) + Started(events[1..])
  }

  /** The calls started are those answered and the one under way, which is lost when the server ends. */
  predicate CallsKept(s: System, started: seq<Call>) {
    if s.mode == Crashed then CallsOf(s.log) <= started && |started| <= |s.log| + 1
    else CallsOf(s.log) + Pending(s.mode) == started
  }

  lemma CallsOfMore(log: seq<Handled>, h: Handled)
    ensures CallsOf(log + [h]) == CallsOf(log) + [h.call]
  {
  }

  /** A step answers the pending call, or goes on with it, or ends the server. */
  ghost predicate OneCall(s: System, t: System, started: seq<Call>) {
    || (t.mode == Crashed && t.log == s.log && started == [])
    || (t.log == s.log && Pending(t.mode) == Pending(s.mode) + started)
    || (exists h: Handled :: t.log == s.log + [h] && Pending(t.mode) == [] && [h.call] == Pending(s.mode) + started)
  }

  lemma ActOneCall(s: System, call: Call, user: Term)
    requires HasSession(call) && s.mode == AwaitAuth(call)
    ensures OneCall(s, Act(s, call, user), [])
  {
    hide AddNewItem, MakeOrder, GetMyOrders, GetOrderData, ToKeeper, ToSession;
    ToSessionLog(s, call.sid, DestroySession);
    var order := if call.OrderState? then GetOrderData(s.shop, call.orderId) else None;
    if order.Some? {
      ToKeeperLog(s, order.value.keeper, GetState);
    }
    var t := Act(s, call, user);
    assert t.log != s.log ==> t.log == s.log + [t.log[|s.log|]];
  }

  lemma ToSessionLog(s: System, sid: nat, request: SessionRequest)
    ensures ToSession(s, sid, request).log == s.log
  {
  }

  lemma ToKeeperLog(s: System, keeper: nat, request: KeeperRequest)
    ensures ToKeeper(s, keeper, request).log == s.log
  {
  }

  lemma StepOneCall(s: System, e: Event)
    requires Enabled(s, e)
    ensures OneCall(s, Apply(s, e), if e.CallStarts? then [e.call] else [])
    ensures s.mode == Crashed ==> Apply(s, e).mode == Crashed && !e.CallStarts?
  {
    match e
    case CallStarts(call) =>
      StartOneCall(s, call);
      hide OneCall, StartCall;
    case ReplyTaken =>
      TakeReplyOneCall(s);
      hide OneCall, TakeReply;
    case ReplyTimesOut =>
      TimeoutOneCall(s);
      hide OneCall, ReplyTimeout;
    case _ =>
      hide GetOrderData, SessionReceives, KeeperReceives, ChangerSends;
  }

  lemma StartOneCall(s: System, call: Call)
    requires s.mode == Idle
    ensures OneCall(s, StartCall(s, call), [call])
  {
    hide GetPasswordForUser, Register;
    var t := StartCall(s, call);
    assert t.log != s.log ==> t.log == s.log + [t.log[|s.log|]];
  }

  lemma TimeoutOneCall(s: System)
    requires s.mode != Idle && s.mode != Crashed
    ensures OneCall(s, ReplyTimeout(s), [])
  {
    var t := ReplyTimeout(s);
    assert t.log != s.log ==> t.log == s.log + [t.log[|s.log|]];
  }

  lemma TakeReplyOneCall(s: System)
    requires HasReply(s)
    ensures OneCall(s, TakeReply(s), [])
  {
    var t := TakeReply(s);
    if s.mode.AwaitAuth? {
      var call := s.mode.call;
      var outbox := s.sessions[call.sid].outbox;
      ActOneCall(SetSessionOutbox(s, call.sid, outbox[1..]), call, outbox[0]);
      hide Act;
    } else {
      hide WithoutFirst;
      assert t.log != s.log ==> t.log == s.log + [t.log[|s.log|]];
    }
  }

  lemma StepCallsKept(s: System, e: Event, started: seq<Call>)
    requires Enabled(s, e) && CallsKept(s, started)
    ensures CallsKept(Apply(s, e), started + if e.CallStarts? then [e.call] else [])
  {
    StepOneCall(s, e);
    hide Enabled, Apply, CallsOf;
    var t, more := Apply(s, e), if e.CallStarts? then [e.call] else [];
    if t.log != s.log {
      var h: Handled :| t.log == s.log + [h] && Pending(t.mode) == [] && [h.call] == Pending(s.mode) + more;
      CallsOfMore(s.log, h);
      assert CallsOf(s.log) + Pending(s.mode) + more == CallsOf(s.log) + (Pending(s.mode) + more);
    }
  }

  lemma {:induction false} RunCallsKept(s: System, events: seq<Event>, started: seq<Call>)
    requires Legal(s, events) && CallsKept(s, started)
    ensures CallsKept(After(s, events), started + Started(events))
    decreases |events|
  {
    hide Enabled, Apply, CallsKept;
    if events == [] {
      assert started + [] == started;
    } else {
      var first := if events[0].CallStarts? then [events[0].call] else [];
      StepCallsKept(s, events[0], started);
      RunCallsKept(Apply(s, events[0]), events[1..], started + first);
      assert started + (first + Started(events[1..])) == started + first + Started(events[1..]);
    }
  }

  /**
   In every interleaving the calls made are, in order, those answered and the one under way;
   when the server has failed, the last one may have been lost.
   */
  lemma CallsAnsweredInOrder(events: seq<Event>)
    requires Legal(INITIAL, events)
    ensures CallsKept(After(INITIAL, events), Started(events))
  {
    hide After, Started;
    NothingStarted();
    RunCallsKept(INITIAL, events, []);
    assert [] + Started(events) == Started(events);
  }

  lemma NothingStarted()
    ensures CallsKept(INITIAL, [])
  {
  }

  // ---------- Log out ----------

  /** The answer to a log out, by what happened: the session was not found, its ok was taken, or was given up. */
  lemma LogOutAnswer(events: seq<Event>, e: Event, h: Handled)
    requires Legal(INITIAL, events) && Enabled(After(INITIAL, events), e) && h.call.LogOut?
    requires Apply(After(INITIAL, events), e).log == After(INITIAL, events).log + [h]
    ensures var s, t := After(INITIAL, events), Apply(After(INITIAL, events), e);
            && h.call.sid < |s.sessions| == |t.sessions|
            && var had, has := s.sessions[h.call.sid].outbox, t.sessions[h.call.sid].outbox;
            && (h.reply == LogOutOk <==> multiset(had) == multiset(has) + multiset{Ok})
            && (h.reply == LogOutOk || h.reply == LogOutError <==> s.mode.AwaitLogOut?)
            && (h.reply == LogOutError || h.reply == NoSuchSession <==> e == ReplyTimesOut)
  {
    InitialRecorded();
    RunSound(INITIAL, events);
    hide After, Legal;
    var s := After(INITIAL, events);
    assert ModeSound(s);
    hide Sound;
    LogOutStep(s, e, h);
  }

  lemma {:induction false} OneOkLess(terms: seq<Term>)
    requires Ok in terms
    ensures multiset(terms) == multiset(WithoutFirst(terms, Ok)) + multiset{Ok}
  {
    assert terms == [terms[0]] + terms[1..];
    if terms[0] != Ok {
      OneOkLess(terms[1..]);
    }
  }

  lemma LogOutStep(s: System, e: Event, h: Handled)
    requires ModeSound(s) && Enabled(s, e) && h.call.LogOut? && Apply(s, e).log == s.log + [h]
    ensures var t := Apply(s, e);
            && h.call.sid < |s.sessions| == |t.sessions|
            && var had, has := s.sessions[h.call.sid].outbox, t.sessions[h.call.sid].outbox;
            && (h.reply == LogOutOk <==> multiset(had) == multiset(has) + multiset{Ok})
            && (h.reply == LogOutOk || h.reply == LogOutError <==> s.mode.AwaitLogOut?)
            && (h.reply == LogOutError || h.reply == NoSuchSession <==> e == ReplyTimesOut)
  {
    LogOutWaits(s, e, h);
    hide Apply;
    if e == ReplyTaken {
      OkTaken(s, h);
    } else {
      GivenUp(s, h);
      SameTerms(s.sessions[h.call.sid].outbox);
    }
    assert Apply(s, e) == if e == ReplyTaken then TakeReply(s) else ReplyTimeout(s) by { Waits(s, e); }
  }

  lemma Waits(s: System, e: Event)
    requires Enabled(s, e) && (e == ReplyTaken || e == ReplyTimesOut)
    ensures Apply(s, e) == if e == ReplyTaken then TakeReply(s) else ReplyTimeout(s)
  {
    hide TakeReply, ReplyTimeout, HasReply;
  }

  lemma SameTerms(terms: seq<Term>)
    ensures multiset(terms) != multiset(terms) + multiset{Ok}
  {
    assert (multiset(terms) + multiset{Ok})[Ok] == multiset(terms)[Ok] + 1;
  }

  lemma OkTaken(s: System, h: Handled)
    requires s.mode.AwaitLogOut? && HasReply(s) && TakeReply(s).log == s.log + [h]
    ensures h.reply == LogOutOk && h.call == s.mode.call && |TakeReply(s).sessions| == |s.sessions|
    ensures h.call.sid < |s.sessions|
    ensures multiset(s.sessions[h.call.sid].outbox)
         == multiset(TakeReply(s).sessions[h.call.sid].outbox) + multiset{Ok}
  {
    assert TakeReply(s).log[|s.log|] == h;
    OneOkLess(s.sessions[s.mode.call.sid].outbox);
    hide WithoutFirst;
  }

  lemma GivenUp(s: System, h: Handled)
    requires (s.mode.AwaitLogOut? || s.mode.AwaitAuth?) && ReplyTimeout(s).log == s.log + [h]
    ensures h.reply == if s.mode.AwaitLogOut? then LogOutError else NoSuchSession
    ensures h.call == s.mode.call && ReplyTimeout(s).sessions == s.sessions
  {
    assert ReplyTimeout(s).log[|s.log|] == h;
  }

  /** A log out is answered in a receive only. */
  lemma LogOutWaits(s: System, e: Event, h: Handled)
    requires ModeSound(s) && Enabled(s, e) && h.call.LogOut? && Apply(s, e).log == s.log + [h]
    ensures (e == ReplyTaken && s.mode.AwaitLogOut? && s.mode.call == h.call)
         || (e == ReplyTimesOut && (s.mode.AwaitLogOut? || s.mode.AwaitAuth?) && s.mode.call == h.call)
  {
    assert Apply(s, e).log[|s.log|] == h;
    if e == ReplyTaken {
      LogOutTaken(s, h);
      hide TakeReply;
    } else {
      hide Register, GetPasswordForUser, GetOrderData, SessionReceives, KeeperReceives, ChangerSends;
    }
  }

  lemma LogOutTaken(s: System, h: Handled)
    requires ModeSound(s) && HasReply(s) && h.call.LogOut? && TakeReply(s).log == s.log + [h]
    ensures s.mode.AwaitLogOut? && s.mode.call == h.call
  {
    assert TakeReply(s).log[|s.log|] == h;
    hide WithoutFirst, GetMyOrders, GetOrderData, AddNewItem, MakeOrder, ToKeeper;
  }
}
