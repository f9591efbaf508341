/**
 The processes of erlang-eshop/e_shop.erl as a transition system: the server, the session
 actors, and for each order a state keeper and a state changer.

 Between each process and the server there is one queue in each direction.  It holds the
 messages on their way and those in the receiver's mailbox; a selective receive takes the
 first message in it that matches.  Every step of one process is an event, so a run is
 any interleaving; a call may arrive whenever the server is idle.
 */
module EshopActors {
  import opened Text
  import opened EshopServer

  // ---------- Processes and their messages ----------

  datatype SessionRequest = CheckExistence | DestroySession

  datatype KeeperRequest = GetState | ChangeState(to: Term)

  /** outbox: the answers to the server, each sent as a pair of the session's pid and the term. */
  datatype Session = Session(owner: Term, alive: bool, inbox: seq<SessionRequest>, outbox: seq<Term>)

  /** past is a history: the states held before the present one. */
  datatype Keeper = Keeper(orderId: nat, past: seq<Term>, state: Term, inbox: seq<KeeperRequest>, outbox: seq<Term>)

  /** sent counts the casts so far; outbox holds those the server has not taken. */
  datatype Changer = Changer(orderId: nat, sent: nat, outbox: seq<Term>)

  const PROGRESS: seq<Term> := [Placed, Packaged, Shipped, Delivered]

  /** session_actor, one message. */
  function SessionReceives(session: Session): Session
    requires session.inbox != []
  {
    match session.inbox[0]
    case CheckExistence => session.(inbox := session.inbox[1..], outbox := session.outbox + [session.owner])
    case DestroySession => session.(alive := false, inbox := [], outbox := session.outbox + [Ok])
  }

  /** order_state_keeping_actor, one message. */
  function KeeperReceives(keeper: Keeper): Keeper
    requires keeper.inbox != []
  {
    var rest := keeper.inbox[1..];
    match keeper.inbox[0]
    case GetState => keeper.(inbox := rest, outbox := keeper.outbox + [keeper.state])
    case ChangeState(to) =>
      keeper.(inbox := rest, outbox := keeper.outbox + [Ok], past := keeper.past + [keeper.state], state := to)
  }

  /** order_state_changing_actor, the next cast. */
  function ChangerSends(changer: Changer): Changer
    requires changer.sent < 3
  {
    changer.(sent := changer.sent + 1, outbox := changer.outbox + [PROGRESS[changer.sent + 1]])
  }

  // ---------- The server ----------

  datatype Call =
    | RegisterUser(user: Term, password: string)
    | LogIn(user: Term, password: string)
    | LogOut(sid: nat)
    | GetAllItems(sid: nat)
    | AddItem(sid: nat, name: string, description: string, price: Price)
    | PlaceOrder(sid: nat, items: seq<OrderItem>)
    | MyOrders(sid: nat)
    | OrderState(sid: nat, orderId: nat)

  predicate HasSession(call: Call) { !call.RegisterUser? && !call.LogIn? }

  datatype Reply =
    | UserAlreadyExists | RegistrationOk | LoggedIn(sid: nat) | InvalidPassword | NoSuchUser
    | NoSuchSession | LogOutOk | LogOutError
    | AllItems(items: seq<Item>) | ItemAdded | OrderPlaced(id: nat) | Orders(orders: seq<Order>)
    | StateIs(state: Term) | StateUnknown | NoSuchOrder

  /** A call that was answered, and the name its action ran with, if it got that far. */
  datatype Handled = Handled(call: Call, user: Option<Term>, reply: Reply)

  /** Where the server is: in its main loop, in a receive of a callback, or dead. */
  datatype Mode =
    | Idle
    | AwaitAuth(call: Call)
    | AwaitLogOut(call: Call, user: Term)
    | AwaitOrderState(call: Call, user: Term, keeper: nat)
    | AwaitChange(keeper: nat)
    | Crashed

  datatype System = System(
    shop: Shop, mode: Mode,
    sessions: seq<Session>, keepers: seq<Keeper>, changers: seq<Changer>,
    log: seq<Handled>)

  const INITIAL := System(EMPTY, Idle, [], [], [], [])

  function Answer(s: System, call: Call, user: Option<Term>, reply: Reply): System {
    s.(mode := Idle, log := s.log + [Handled(call, user, reply)])
  }

  /** A callback that fails, or returns what gen_server does not accept, ends the server. */
  function Fail(s: System): System { s.(mode := Crashed) }

  /** A message to a process that has exited is lost. */
  function ToSession(s: System, sid: nat, request: SessionRequest): System {
    if sid < |s.sessions| && s.sessions[sid].alive then
      s.(sessions := s.sessions[sid := s.sessions[sid].(inbox := s.sessions[sid].inbox + [request])])
    else s
  }

  function ToKeeper(s: System, keeper: nat, request: KeeperRequest): System {
    if keeper < |s.keepers| then
      s.(keepers := s.keepers[keeper := s.keepers[keeper].(inbox := s.keepers[keeper].inbox + [request])])
    else s
  }

  function SetSessionOutbox(s: System, sid: nat, outbox: seq<Term>): System
    requires sid < |s.sessions|
  {
    s.(sessions := s.sessions[sid := s.sessions[sid].(outbox := outbox)])
  }

  function SetKeeperOutbox(s: System, keeper: nat, outbox: seq<Term>): System
    requires keeper < |s.keepers|
  {
    s.(keepers := s.keepers[keeper := s.keepers[keeper].(outbox := outbox)])
  }

  function SetChangerOutbox(s: System, changer: nat, outbox: seq<Term>): System
    requires changer < |s.changers|
  {
    s.(changers := s.changers[changer := s.changers[changer].(outbox := outbox)])
  }

  /** handle_call, up to the first receive. */
  function StartCall(s: System, call: Call): System {
    match call
    case RegisterUser(user, password) =>
      var shop := Register(user, password, s.shop);
      if shop == None then Answer(s, call, None, UserAlreadyExists)
      else Answer(s.(shop := shop.value), call, None, RegistrationOk)
    case LogIn(user, password) =>
      var stored := GetPasswordForUser(user, s.shop);
      if stored == None then Answer(s, call, None, NoSuchUser)
      else if stored.value != password then Answer(s, call, None, InvalidPassword)
      else Answer(s.(sessions := s.sessions + [Session(user, true, [], [])]), call, None, LoggedIn(|s.sessions|))
    case _ => ToSession(s, call.sid, CheckExistence).(mode := AwaitAuth(call))
  }

  /** The Action of check_auth_and_perform_action. */
  function Act(s: System, call: Call, user: Term): System
    requires HasSession(call)
  {
    match call
    case LogOut(sid) => ToSession(s, sid, DestroySession).(mode := AwaitLogOut(call, user))
    case GetAllItems(_) =>
      if ItemsPrint(s.shop.items) then Answer(s, call, Some(user), AllItems(s.shop.items)) else Fail(s)
    case AddItem(_, name, description, price) =>
      Answer(s.(shop := AddNewItem(user, name, description, price, s.shop)), call, Some(user), ItemAdded)
    case PlaceOrder(_, items) =>
      var id := s.shop.orderCount + 1;
      var s' := s.(keepers := s.keepers + [Keeper(id, [], Placed, [], [])]);
      var shop := MakeOrder(user, items, |s.keepers|, s.shop);
      if shop == None then Fail(s')
      else Answer(s'.(shop := shop.value, changers := s.changers + [Changer(id, 0, [])]), call, Some(user),
            OrderPlaced(id))
    case MyOrders(_) =>
      var orders := GetMyOrders(user, s.shop);
      if orders == None then Fail(s) else Answer(s, call, Some(user), Orders(orders.value))
    case OrderState(_, orderId) =>
      if user !in s.shop.users then Fail(s)
      else if orderId !in s.shop.users[user].orders then Answer(s, call, Some(user), NoSuchOrder)
      else
        var order := GetOrderData(s.shop, orderId);
        if order == None then Fail(s)
        else ToKeeper(s, order.value.keeper, GetState).(mode := AwaitOrderState(call, user, order.value.keeper))
  }

  /** handle_cast, up to its receive. */
  function StartCast(s: System, changer: nat): System
    requires changer < |s.changers| && s.changers[changer].outbox != []
  {
    var c := s.changers[changer];
    var s' := SetChangerOutbox(s, changer, c.outbox[1..]);
    var order := GetOrderData(s.shop, c.orderId);
    if order == None then Fail(s')
    else ToKeeper(s', order.value.keeper, ChangeState(c.outbox[0])).(mode := AwaitChange(order.value.keeper))
  }

  function WithoutFirst(terms: seq<Term>, t: Term): seq<Term> {
    if terms == [] then [] else if terms[0] == t then terms[1..] else [terms[0]] + WithoutFirst(terms[1..], t)
  }

  /** Is there a message that the receive the server is in takes? */
  predicate HasReply(s: System) {
    match s.mode
    case AwaitAuth(call) => HasSession(call) && call.sid < |s.sessions| && s.sessions[call.sid].outbox != []
    case AwaitLogOut(call, _) => HasSession(call) && call.sid < |s.sessions| && Ok in s.sessions[call.sid].outbox
    case AwaitOrderState(_, _, keeper) => keeper < |s.keepers| && s.keepers[keeper].outbox != []
    case AwaitChange(keeper) => keeper < |s.keepers| && Ok in s.keepers[keeper].outbox
    case _ => false
  }

  /** The receive takes the first such message. */
  function TakeReply(s: System): System
    requires HasReply(s)
  {
    match s.mode
    case AwaitAuth(call) =>
      var outbox := s.sessions[call.sid].outbox;
      Act(SetSessionOutbox(s, call.sid, outbox[1..]), call, outbox[0])
    case AwaitLogOut(call, user) =>
      var outbox := s.sessions[call.sid].outbox;
      Answer(SetSessionOutbox(s, call.sid, WithoutFirst(outbox, Ok)), call, Some(user), LogOutOk)
    case AwaitOrderState(call, user, keeper) =>
      var outbox := s.keepers[keeper].outbox;
      Answer(SetKeeperOutbox(s, keeper, outbox[1..]), call, Some(user), StateIs(outbox[0]))
    case AwaitChange(keeper) =>
      SetKeeperOutbox(s, keeper, WithoutFirst(s.keepers[keeper].outbox, Ok)).(mode := Idle)
  }

  /** The after branch of the receive. */
  function ReplyTimeout(s: System): System {
    match s.mode
    case AwaitAuth(call) => Answer(s, call, None, NoSuchSession)
    case AwaitLogOut(call, user) => Answer(s, call, Some(user), LogOutError)
    case AwaitOrderState(call, user, _) => Answer(s, call, Some(user), StateUnknown)
    case AwaitChange(_) => s.(mode := Idle)
    case _ => s
  }

  // ---------- Events and runs ----------

  datatype Event =
    | CallStarts(call: Call)
    | CastStarts(changer: nat)
    | StraySessionReply(sid: nat)
    | StrayKeeperReply(keeper: nat)
    | ReplyTaken
    | ReplyTimesOut
    | SessionStep(sid: nat)
    | SessionTimesOut(sid: nat)
    | KeeperStep(keeper: nat)
    | ChangerStep(changer: nat)

  /** Calls come with session ids that log_in returned. */
  predicate Enabled(s: System, e: Event) {
    match e
    case CallStarts(call) => s.mode == Idle && (HasSession(call) ==> call.sid < |s.sessions|)
    case CastStarts(changer) => s.mode == Idle && changer < |s.changers| && s.changers[changer].outbox != []
    case StraySessionReply(sid) => s.mode == Idle && sid < |s.sessions| && s.sessions[sid].outbox != []
    case StrayKeeperReply(keeper) => s.mode == Idle && keeper < |s.keepers| && s.keepers[keeper].outbox != []
    case ReplyTaken => HasReply(s)
    case ReplyTimesOut => s.mode != Idle && s.mode != Crashed
    case SessionStep(sid) => sid < |s.sessions| && s.sessions[sid].alive && s.sessions[sid].inbox != []
    case SessionTimesOut(sid) => sid < |s.sessions| && s.sessions[sid].alive
    case KeeperStep(keeper) => keeper < |s.keepers| && s.keepers[keeper].inbox != []
    case ChangerStep(changer) => changer < |s.changers| && s.changers[changer].sent < 3
  }

  /** A stray reply goes to handle_info, which returns ok: not a valid return, so the server ends. */
  function Apply(s: System, e: Event): System
    requires Enabled(s, e)
  {
    match e
    case CallStarts(call) => StartCall(s, call)
    case CastStarts(changer) => StartCast(s, changer)
    case StraySessionReply(sid) => Fail(SetSessionOutbox(s, sid, s.sessions[sid].outbox[1..]))
    case StrayKeeperReply(keeper) => Fail(SetKeeperOutbox(s, keeper, s.keepers[keeper].outbox[1..]))
    case ReplyTaken => TakeReply(s)
    case ReplyTimesOut => ReplyTimeout(s)
    case SessionStep(sid) => s.(sessions := s.sessions[sid := SessionReceives(s.sessions[sid])])
    case SessionTimesOut(sid) => s.(sessions := s.sessions[sid := s.sessions[sid].(alive := false, inbox := [])])
    case KeeperStep(keeper) => s.(keepers := s.keepers[keeper := KeeperReceives(s.keepers[keeper])])
    case ChangerStep(changer) => s.(changers := s.changers[changer := ChangerSends(s.changers[changer])])
  }

  /** The events can happen one after the other. */
  predicate Legal(s: System, events: seq<Event>)
    decreases |events|
  {
    events == [] || (Enabled(s, events[0]) && Legal(Apply(s, events[0]), events[1..]))
  }

  function After(s: System, events: seq<Event>): System
    requires Legal(s, events)
    decreases |events|
  {
    if events == [] then s else After(Apply(s, events[0]), events[1..])
  }

  // ---------- Timely replies ----------

  /** The process the server waits for lives, or its answer is on the way. */
  predicate AnswerMayCome(s: System) {
    match s.mode
    case AwaitAuth(call) =>
      HasSession(call) && call.sid < |s.sessions| && (s.sessions[call.sid].alive || s.sessions[call.sid].outbox != [])
    case AwaitLogOut(call, _) =>
      HasSession(call) && call.sid < |s.sessions| && (s.sessions[call.sid].alive || Ok in s.sessions[call.sid].outbox)
    case AwaitOrderState(_, _, keeper) => keeper < |s.keepers|
    case AwaitChange(keeper) => keeper < |s.keepers|
    case _ => false
  }

  /** Every answer of a live process arrives within TIME_UNIT: the wait ends only when none will come. */
  predicate Timely(s: System, e: Event) {
    e.ReplyTimesOut? ==> !AnswerMayCome(s)
  }

  /** A callback resumes to format a list of items with an integer price. */
  predicate PrintFails(s: System, e: Event) {
    e.ReplyTaken? && s.mode.AwaitAuth? && s.mode.call.GetAllItems? && !ItemsPrint(s.shop.items)
  }

  /** No step of the run fails so. */
  predicate Prints(s: System, events: seq<Event>)
    requires Legal(s, events)
    decreases |events|
  {
    events == [] || (!PrintFails(s, events[0]) && Prints(Apply(s, events[0]), events[1..]))
  }

  predicate TimelyRun(s: System, events: seq<Event>)
    requires Legal(s, events)
    decreases |events|
  {
    events == [] || (Timely(s, events[0]) && TimelyRun(Apply(s, events[0]), events[1..]))
  }
}
