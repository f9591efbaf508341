/**
 What holds in every interleaving, whether replies are timely or not: the books are right,
 and the state of an order only moves forward, one step at a time.
 */
module EshopOrders {
  import opened Text
  import opened EshopServer
  import opened EshopActors

  // ---------- The invariant ----------

  /** The states a keeper has held. */
  function Held(keeper: Keeper): seq<Term> { keeper.past + [keeper.state] }

  /** The changes a keeper has not yet made. */
  function Changes(inbox: seq<KeeperRequest>): seq<Term> {
    if inbox == [] then []
    else (if inbox[0].ChangeState? then [inbox[0].to] else []) + Changes(inbox[1..])
  }

  /** Held, requested, cast and unsent states make up the whole progress of the order, in order. */
  ghost predicate PairSound(keeper: Keeper, changer: Changer, id: nat) {
    && keeper.orderId == id && changer.orderId == id && changer.sent <= 3
    && Held(keeper) + Changes(keeper.inbox) + changer.outbox + PROGRESS[1 + changer.sent..] == PROGRESS
  }

  /** Before its changer exists, a keeper has the first state and no changes to make. */
  ghost predicate OnlyPlaced(keeper: Keeper) {
    Held(keeper) == [Placed] && Changes(keeper.inbox) == []
  }

  ghost predicate ActorsSound(keepers: seq<Keeper>, changers: seq<Changer>) {
    && |changers| <= |keepers|
    && (forall n | 0 <= n < |changers| :: PairSound(keepers[n], changers[n], n + 1))
    && (forall n | |changers| <= n < |keepers| :: OnlyPlaced(keepers[n]))
  }

  ghost predicate SessionsSound(sessions: seq<Session>, users: set<Term>) {
    forall i | 0 <= i < |sessions| :: sessions[i].owner in users && (!sessions[i].alive ==> sessions[i].inbox == [])
  }

  ghost predicate OrdersSound(orders: seq<Order>) {
    forall i | 0 <= i < |orders| :: orders[i].keeper == orders[i].id - 1
  }

  ghost predicate ModeSound(s: System) {
    match s.mode
    case AwaitAuth(call) => HasSession(call) && call.sid < |s.sessions|
    case AwaitLogOut(call, _) => call.LogOut? && call.sid < |s.sessions|
    case AwaitOrderState(call, _, keeper) =>
      call.OrderState? && call.sid < |s.sessions| && call.orderId == keeper + 1 && keeper < |s.changers|
    case AwaitChange(keeper) => keeper < |s.changers|
    case _ => true
  }

  ghost predicate Sound(s: System) {
    && Books(s.shop) && OrdersSound(s.shop.orders)
    && |s.changers| == s.shop.orderCount && (s.mode != Crashed ==> |s.keepers| == |s.changers|)
    && ActorsSound(s.keepers, s.changers)
    && SessionsSound(s.sessions, s.shop.users.Keys)
    && ModeSound(s)
  }

  // ---------- The actors keep it ----------

  lemma {:induction false} ChangesConcat(x: seq<KeeperRequest>, y: seq<KeeperRequest>)
    ensures Changes(x + y) == Changes(x) + Changes(y)
  {
    if x == [] {
      assert x + y == y;
    } else {
      ChangesConcat(x[1..], y);
      assert (x + y)[0] == x[0] && (x + y)[1..] == x[1..] + y;
      Associative(if x[0].ChangeState? then [x[0].to] else [], Changes(x[1..]), Changes(y));
    }
  }

  lemma ChangesAppended(inbox: seq<KeeperRequest>, request: KeeperRequest)
    ensures Changes(inbox + [request]) == if request.ChangeState? then Changes(inbox) + [request.to] else Changes(inbox)
  {
    ChangesConcat(inbox, [request]);
    assert [request][1..] == [];
  }

  /** A change moves from the keeper's inbox to the states it has held. */
  lemma KeeperReceivesHeld(keeper: Keeper)
    requires keeper.inbox != []
    ensures Held(KeeperReceives(keeper)) + Changes(KeeperReceives(keeper).inbox) == Held(keeper) + Changes(keeper.inbox)
    ensures KeeperReceives(keeper).orderId == keeper.orderId
  {
  }

  lemma KeeperReceivesSound(keeper: Keeper, changer: Changer, id: nat)
    requires keeper.inbox != []
    ensures PairSound(keeper, changer, id) ==> PairSound(KeeperReceives(keeper), changer, id)
    ensures OnlyPlaced(keeper) ==> OnlyPlaced(KeeperReceives(keeper))
  {
    KeeperReceivesHeld(keeper);
    hide KeeperReceives;
    if OnlyPlaced(keeper) {
      var next := KeeperReceives(keeper);
      assert |Held(next) + Changes(next.inbox)| == 1;
    }
  }

  /** A state moves from the unsent ones to the casts. */
  lemma ChangerSendsSound(keeper: Keeper, changer: Changer, id: nat)
    requires PairSound(keeper, changer, id) && changer.sent < 3
    ensures PairSound(keeper, ChangerSends(changer), id)
  {
    var front := Held(keeper) + Changes(keeper.inbox);
    var next := PROGRESS[changer.sent + 1];
    hide Held, Changes;
    assert PROGRESS[1 + changer.sent..] == [next] + PROGRESS[2 + changer.sent..];
    assert front + changer.outbox + ([next] + PROGRESS[2 + changer.sent..])
        == front + (changer.outbox + [next]) + PROGRESS[2 + changer.sent..];
  }

  /** A state moves from the casts to the changes requested of the keeper. */
  lemma CastTakenSound(keeper: Keeper, changer: Changer, id: nat)
    requires PairSound(keeper, changer, id) && changer.outbox != []
    ensures PairSound(keeper.(inbox := keeper.inbox + [ChangeState(changer.outbox[0])]),
          changer.(outbox := changer.outbox[1..]), id)
  {
    var to := changer.outbox[0];
    ChangesAppended(keeper.inbox, ChangeState(to));
    hide Changes;
    assert changer.outbox == [to] + changer.outbox[1..];
    FirstMoves(Held(keeper), Changes(keeper.inbox), to, changer.outbox[1..]);
  }

  lemma FirstMoves(held: seq<Term>, changes: seq<Term>, to: Term, rest: seq<Term>)
    ensures held + changes + ([to] + rest) == held + (changes + [to]) + rest
  {
  }

  lemma GetStateSound(keeper: Keeper, changer: Changer, id: nat)
    requires PairSound(keeper, changer, id)
    ensures PairSound(keeper.(inbox := keeper.inbox + [GetState]), changer, id)
  {
    ChangesAppended(keeper.inbox, GetState);
    hide Changes;
  }

  lemma NewPairSound(id: nat)
    ensures PairSound(Keeper(id, [], Placed, [], []), Changer(id, 0, []), id)
    ensures OnlyPlaced(Keeper(id, [], Placed, [], []))
  {
  }

  lemma OneKeeper(keepers: seq<Keeper>, changers: seq<Changer>, n: nat, keeper: Keeper)
    requires ActorsSound(keepers, changers) && n < |keepers|
    requires if n < |changers| then PairSound(keeper, changers[n], n + 1) else OnlyPlaced(keeper)
    ensures ActorsSound(keepers[n := keeper], changers)
  {
    hide PairSound, OnlyPlaced;
  }

  lemma OneChanger(keepers: seq<Keeper>, changers: seq<Changer>, n: nat, changer: Changer)
    requires ActorsSound(keepers, changers) && n < |changers| && PairSound(keepers[n], changer, n + 1)
    ensures ActorsSound(keepers, changers[n := changer])
  {
    hide PairSound, OnlyPlaced;
  }

  lemma ActorAt(keepers: seq<Keeper>, changers: seq<Changer>, n: nat)
    requires ActorsSound(keepers, changers) && n < |keepers|
    ensures if n < |changers| then PairSound(keepers[n], changers[n], n + 1) else OnlyPlaced(keepers[n])
  {
    hide PairSound, OnlyPlaced;
  }

  lemma WithActors(s: System, keepers: seq<Keeper>, changers: seq<Changer>)
    requires Sound(s) && |keepers| == |s.keepers| && |changers| == |s.changers| && ActorsSound(keepers, changers)
    ensures Sound(s.(keepers := keepers, changers := changers))
  {
    hide Books, OrdersSound, SessionsSound;
  }

  lemma KeeperStepSound(s: System, n: nat)
    requires Sound(s) && Enabled(s, KeeperStep(n))
    ensures Sound(Apply(s, KeeperStep(n)))
  {
    var keeper := KeeperReceives(s.keepers[n]);
    KeeperReceivesSound(s.keepers[n], if n < |s.changers| then s.changers[n] else Changer(0, 0, []), n + 1);
    ActorAt(s.keepers, s.changers, n);
    hide PairSound, OnlyPlaced, KeeperReceives, Sound, ActorsSound;
    OneKeeper(s.keepers, s.changers, n, keeper);
    WithActors(s, s.keepers[n := keeper], s.changers);
  }

  lemma ChangerStepSound(s: System, n: nat)
    requires Sound(s) && Enabled(s, ChangerStep(n))
    ensures Sound(Apply(s, ChangerStep(n)))
  {
    var changer := ChangerSends(s.changers[n]);
    ActorAt(s.keepers, s.changers, n);
    ChangerSendsSound(s.keepers[n], s.changers[n], n + 1);
    hide PairSound, OnlyPlaced, ChangerSends, Sound, ActorsSound;
    OneChanger(s.keepers, s.changers, n, changer);
    WithActors(s, s.keepers, s.changers[n := changer]);
  }

  lemma SessionStepSound(s: System, e: Event)
    requires Sound(s) && Enabled(s, e) && (e.SessionStep? || e.SessionTimesOut?)
    ensures Sound(Apply(s, e))
  {
    hide ActorsSound, Books, OrdersSound;
  }

  // ---------- The server keeps it ----------

  lemma ToSessionSound(s: System, sid: nat, request: SessionRequest)
    requires Sound(s)
    ensures Sound(ToSession(s, sid, request))
  {
    hide ActorsSound, Books, OrdersSound;
  }

  lemma GetStateSentSound(s: System, keeper: nat)
    requires Sound(s) && keeper < |s.changers|
    ensures Sound(ToKeeper(s, keeper, GetState))
  {
    GetStateSound(s.keepers[keeper], s.changers[keeper], keeper + 1);
    hide PairSound, OnlyPlaced, Books, SessionsSound, OrdersSound;
  }

  lemma OutboxSound(s: System, i: nat, outbox: seq<Term>)
    requires Sound(s)
    ensures i < |s.sessions| ==> Sound(SetSessionOutbox(s, i, outbox))
    ensures i < |s.keepers| ==> Sound(SetKeeperOutbox(s, i, outbox))
  {
    hide Books, OrdersSound;
  }

  lemma StartCallSound(s: System, call: Call)
    requires Sound(s) && Enabled(s, CallStarts(call))
    ensures Sound(StartCall(s, call))
  {
    match call
    case RegisterUser(user, password) =>
      RegisterKeepsBooks(user, password, s.shop);
      hide Books, ActorsSound;
    case LogIn(user, password) =>
      hide Books, ActorsSound, OrdersSound;
    case _ =>
      ToSessionSound(s, call.sid, CheckExistence);
      hide Books, ActorsSound, OrdersSound;
  }

  /** The order a cast names is found, and its keeper is the one its changer belongs to. */
  lemma StartCastSound(s: System, n: nat)
    requires Sound(s) && Enabled(s, CastStarts(n))
    ensures Sound(StartCast(s, n))
    ensures StartCast(s, n) ==
            ToKeeper(SetChangerOutbox(s, n, s.changers[n].outbox[1..]), n,
                  ChangeState(s.changers[n].outbox[0])).(mode := AwaitChange(n))
  {
    ActorAt(s.keepers, s.changers, n);
    CastFound(s, n);
    var keeper, changer := s.keepers[n], s.changers[n];
    CastTakenSound(keeper, changer, n + 1);
    var keeper' := keeper.(inbox := keeper.inbox + [ChangeState(changer.outbox[0])]);
    var changer' := changer.(outbox := changer.outbox[1..]);
    hide Sound, ActorsSound, PairSound, OnlyPlaced, GetOrderData;
    OnePair(s.keepers, s.changers, n, keeper', changer');
    WithActors(s, s.keepers[n := keeper'], s.changers[n := changer']);
    InMode(s.(keepers := s.keepers[n := keeper'], changers := s.changers[n := changer']), AwaitChange(n));
  }

  /** get_order_data finds the order of a changer, whose keeper has the same number. */
  lemma CastFound(s: System, n: nat)
    requires Sound(s) && n < |s.changers|
    ensures n < |s.keepers|
    ensures var order := GetOrderData(s.shop, s.changers[n].orderId);
            order.Some? && order.value.keeper == n && order.value.id == n + 1
  {
    ActorAt(s.keepers, s.changers, n);
    OrderDataFound(s.shop, n + 1);
    hide GetOrderData, ActorsSound, SessionsSound;
  }

  lemma OnePair(keepers: seq<Keeper>, changers: seq<Changer>, n: nat, keeper: Keeper, changer: Changer)
    requires ActorsSound(keepers, changers) && n < |changers| && PairSound(keeper, changer, n + 1)
    ensures ActorsSound(keepers[n := keeper], changers[n := changer])
  {
    hide PairSound, OnlyPlaced;
  }

  lemma InMode(s: System, mode: Mode)
    requires Sound(s) && s.mode != Crashed && ModeSound(s.(mode := mode))
    ensures Sound(s.(mode := mode))
  {
    hide Books, OrdersSound, ActorsSound, SessionsSound;
  }

  lemma PlaceOrderSound(s: System, call: Call, user: Term)
    requires Sound(s) && s.mode == AwaitAuth(call) && call.PlaceOrder?
    ensures Sound(Act(s, call, user))
  {
    MakeOrderKeepsBooks(user, call.items, |s.keepers|, s.shop);
    NewPairSound(s.shop.orderCount + 1);
    hide PairSound, OnlyPlaced, Books, IdsOf;
  }

  lemma OrderStateSound(s: System, call: Call, user: Term)
    requires Sound(s) && s.mode == AwaitAuth(call) && call.OrderState?
    ensures Sound(Act(s, call, user))
  {
    if user in s.shop.users && call.orderId in s.shop.users[user].orders {
      OwnIds(s.shop, user, call.orderId);
      OrderDataFound(s.shop, call.orderId);
      GetStateSentSound(s, call.orderId - 1);
    }
    hide ActorsSound, SessionsSound, GetOrderData;
  }

  lemma ActSound(s: System, call: Call, user: Term)
    requires Sound(s) && s.mode == AwaitAuth(call)
    ensures Sound(Act(s, call, user))
  {
    match call
    case LogOut(sid) =>
      ToSessionSound(s, sid, DestroySession);
      hide Books, ActorsSound, SessionsSound, OrdersSound;
    case AddItem(_, name, description, price) =>
      AddNewItemKeepsBooks(user, name, description, price, s.shop);
      hide Books, ActorsSound, SessionsSound, OrdersSound;
    case PlaceOrder(_, items) =>
      PlaceOrderSound(s, call, user);
    case OrderState(_, orderId) =>
      OrderStateSound(s, call, user);
    case _ =>
      hide Books, ActorsSound, SessionsSound, OrdersSound, GetMyOrders;
  }

  lemma TakeReplySound(s: System)
    requires Sound(s) && HasReply(s)
    ensures Sound(TakeReply(s))
  {
    match s.mode
    case AwaitAuth(call) =>
      var outbox := s.sessions[call.sid].outbox;
      OutboxSound(s, call.sid, outbox[1..]);
      ActSound(SetSessionOutbox(s, call.sid, outbox[1..]), call, outbox[0]);
      hide Sound, Act;
    case AwaitLogOut(call, _) =>
      OutboxSound(s, call.sid, WithoutFirst(s.sessions[call.sid].outbox, Ok));
      hide Books, ActorsSound, SessionsSound, OrdersSound;
    case AwaitOrderState(_, _, keeper) =>
      OutboxSound(s, keeper, s.keepers[keeper].outbox[1..]);
      hide Books, ActorsSound, SessionsSound, OrdersSound;
    case AwaitChange(keeper) =>
      OutboxSound(s, keeper, WithoutFirst(s.keepers[keeper].outbox, Ok));
      hide Books, ActorsSound, SessionsSound, OrdersSound;
  }

  lemma FailSound(s: System)
    requires Sound(s)
    ensures Sound(Fail(s))
  {
    hide Books, ActorsSound, SessionsSound, OrdersSound;
  }

  lemma StepSound(s: System, e: Event)
    requires Sound(s) && Enabled(s, e)
    ensures Sound(Apply(s, e))
  {
    match e
    case CallStarts(call) =>
      StartCallSound(s, call);
      hide Sound, StartCall;
    case CastStarts(changer) =>
      StartCastSound(s, changer);
      hide Sound, StartCast;
    case StraySessionReply(sid) =>
      OutboxSound(s, sid, s.sessions[sid].outbox[1..]);
      FailSound(SetSessionOutbox(s, sid, s.sessions[sid].outbox[1..]));
      hide Sound;
    case StrayKeeperReply(keeper) =>
      OutboxSound(s, keeper, s.keepers[keeper].outbox[1..]);
      FailSound(SetKeeperOutbox(s, keeper, s.keepers[keeper].outbox[1..]));
      hide Sound;
    case ReplyTaken =>
      TakeReplySound(s);
      hide Sound, TakeReply;
    case ReplyTimesOut =>
      hide Books, ActorsSound, SessionsSound, OrdersSound;
    case KeeperStep(keeper) =>
      KeeperStepSound(s, keeper);
      hide Sound;
    case ChangerStep(changer) =>
      ChangerStepSound(s, changer);
      hide Sound;
    case _ =>
      SessionStepSound(s, e);
      hide Sound;
  }

  // ---------- All runs ----------

  lemma {:induction false} RunSound(s: System, events: seq<Event>)
    requires Sound(s) && Legal(s, events)
    ensures Sound(After(s, events))
    decreases |events|
  {
    hide Sound, Enabled, Apply;
    if events != [] {
      StepSound(s, events[0]);
      RunSound(Apply(s, events[0]), events[1..]);
    }
  }

  /** In every interleaving the books are right: ids without gaps, every user's list exactly their orders. */
  lemma BooksAlwaysRight(events: seq<Event>)
    requires Legal(INITIAL, events)
    ensures Books(After(INITIAL, events).shop)
  {
    EmptyBooks();
    assert Sound(INITIAL);
    RunSound(INITIAL, events);
    hide Books, After;
  }

  /**
   In every interleaving, with or without timeouts at the server or its end, the states
   that any keeper has held are a prefix of placed, packaged, shipped, delivered.
   */
  lemma OrderProgress(events: seq<Event>, n: nat)
    requires Legal(INITIAL, events) && n < |After(INITIAL, events).keepers|
    ensures Held(After(INITIAL, events).keepers[n]) <= PROGRESS
  {
    EmptyBooks();
    assert Sound(INITIAL);
    RunSound(INITIAL, events);
    var s := After(INITIAL, events);
    hide Books, After, Changes, Held;
    if n < |s.changers| {
      assert PairSound(s.keepers[n], s.changers[n], n + 1);
    } else {
      assert OnlyPlaced(s.keepers[n]);
    }
  }
}
