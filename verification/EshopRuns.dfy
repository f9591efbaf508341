/**
 The e-shop's guarantees over whole runs, and exactly what they need of the clock.
 */
module EshopRuns {
  import opened Text
  import opened EshopServer
  import opened EshopActors
  import opened EshopOrders
  import opened EshopReplies
  import opened EshopLog

  lemma InitialDisciplined()
    ensures Sound(INITIAL) && Disciplined(INITIAL)
  {
    EmptyBooks();
  }

  /**
   With timely replies, in every interleaving: the server fails only by printing an integer
   price; until then no reply is left when a callback has returned; each action ran for the
   owner of the session that was asked, and a session reported as missing or logged out has ended.
   */
  lemma ReplyDiscipline(events: seq<Event>)
    requires Legal(INITIAL, events) && TimelyRun(INITIAL, events)
    ensures var s := After(INITIAL, events);
            && (s.mode == Crashed <==> !Prints(INITIAL, events))
            && (s.mode == Idle ==> AllQuiet(s))
            && (forall h | h in s.log :: WellAnswered(s, h))
            && NeverBack(s.log)
  {
    InitialDisciplined();
    RunDisciplined(INITIAL, events);
    hide After, WellAnswered, NeverBack, Sound;
    var s := After(INITIAL, events);
    if s.mode == Idle {
      IdleIsQuiet(s);
    }
  }

  // ---------- Prices ----------

  /** Every call that adds an item gives a float. */
  predicate FloatsOnly(events: seq<Event>) {
    forall i | 0 <= i < |events| && events[i].CallStarts? && events[i].call.AddItem? :: events[i].call.price.Float?
  }

  predicate FloatsSoFar(s: System) {
    ItemsPrint(s.shop.items) && (s.mode.AwaitAuth? && s.mode.call.AddItem? ==> s.mode.call.price.Float?)
  }

  lemma FloatAct(s: System, call: Call, user: Term)
    requires HasSession(call) && ItemsPrint(s.shop.items) && (call.AddItem? ==> call.price.Float?)
        && s.mode == AwaitAuth(call)
    ensures FloatsSoFar(Act(s, call, user))
  {
    hide MakeOrder, GetMyOrders, GetOrderData;
    MakeOrderKeepsItems(user, if call.PlaceOrder? then call.items else [], |s.keepers|, s.shop);
  }

  lemma MakeOrderKeepsItems(user: Term, items: seq<OrderItem>, keeper: nat, shop: Shop)
    ensures MakeOrder(user, items, keeper, shop).Some?
        ==> MakeOrder(user, items, keeper, shop).value.items == shop.items
  {
  }

  lemma FloatStep(s: System, e: Event)
    requires FloatsSoFar(s) && Enabled(s, e) && (e.CallStarts? && e.call.AddItem? ==> e.call.price.Float?)
    ensures FloatsSoFar(Apply(s, e)) && !PrintFails(s, e)
  {
    hide GetOrderData;
    if e.ReplyTaken? && s.mode.AwaitAuth? {
      var call := s.mode.call;
      var outbox := s.sessions[call.sid].outbox;
      FloatAct(SetSessionOutbox(s, call.sid, outbox[1..]), call, outbox[0]);
      hide Act;
    }
  }

  lemma {:induction false} FloatsPrint(s: System, events: seq<Event>)
    requires FloatsSoFar(s) && Legal(s, events) && FloatsOnly(events)
    ensures Prints(s, events)
    decreases |events|
  {
    hide Enabled, Apply, PrintFails, FloatsSoFar;
    if events != [] {
      FloatStep(s, events[0]);
      assert forall i | 0 <= i < |events[1..]| :: events[1..][i] == events[i + 1];
      FloatsPrint(Apply(s, events[0]), events[1..]);
    }
  }

  /** With timely replies and float prices only, the server never fails. */
  lemma ServerStaysUp(events: seq<Event>)
    requires Legal(INITIAL, events) && TimelyRun(INITIAL, events) && FloatsOnly(events)
    ensures After(INITIAL, events).mode != Crashed
  {
    ReplyDiscipline(events);
    hide Legal, After, TimelyRun, Prints, FloatsOnly;
    FloatsPrint(INITIAL, events);
  }

  /** Once an item has an integer price, the next live session to list the items ends the server. */
  lemma IntegerPriceEndsServer(s: System, sid: nat) returns (run: seq<Event>, t: System)
    requires s.mode == Idle && sid < |s.sessions| && s.sessions[sid].alive && SessionQuiet(s.sessions[sid])
    requires !ItemsPrint(s.shop.items)
    ensures Runs(s, run, t, true) && t.mode == Crashed
  {
    var call, owner := GetAllItems(sid), s.sessions[sid].owner;
    var s1 := Apply(s, CallStarts(call));
    assert s1.sessions[sid] == Session(owner, true, [CheckExistence], []) && s1.mode == AwaitAuth(call)
        && s1.shop == s.shop;
    var s2 := Apply(s1, SessionStep(sid));
    assert s2.sessions[sid] == Session(owner, true, [], [owner]) && s2.mode == AwaitAuth(call) && s2.shop == s.shop;
    t := Apply(s2, ReplyTaken);
    assert t.mode == Crashed;
    hide Apply, Enabled;
    RunsTwo(s1, SessionStep(sid), ReplyTaken, true);
    run := [SessionStep(sid)] + ([ReplyTaken] + []);
    RunsFrom(s, CallStarts(call), run, t, true);
    run := [CallStarts(call)] + run;
  }

  /** Every state the server reported is one that the order has been in. */
  lemma ReportedStateWasHeld(events: seq<Event>, h: Handled)
    requires Legal(INITIAL, events) && TimelyRun(INITIAL, events)
    requires h in After(INITIAL, events).log && h.reply.StateIs?
    ensures var s := After(INITIAL, events);
            h.call.OrderState? && 1 <= h.call.orderId <= |s.keepers|
                && h.reply.state in Held(s.keepers[h.call.orderId - 1])
  {
    hide *;
    ReplyDiscipline(events);
    var s := After(INITIAL, events);
    WellReported(s, h);
    var keeper := s.keepers[h.call.orderId - 1];
    OrderProgress(events, h.call.orderId - 1);
    StageOf(h.reply.state);
    HeldLength(keeper);
    assert Held(keeper)[Stage(h.reply.state)] == h.reply.state;
  }

  lemma WellReported(s: System, h: Handled)
    requires WellAnswered(s, h) && h.reply.StateIs?
    ensures h.call.OrderState? && 1 <= h.call.orderId <= |s.keepers|
    ensures h.reply.state in PROGRESS && Stage(h.reply.state) <= |s.keepers[h.call.orderId - 1].past|
  {
    hide Stage, OwnOrder;
  }

  lemma StageOf(state: Term)
    requires state in PROGRESS
    ensures Stage(state) < |PROGRESS| && PROGRESS[Stage(state)] == state
  {
  }

  lemma HeldLength(keeper: Keeper)
    ensures |Held(keeper)| == |keeper.past| + 1
  {
  }

  // ---------- Lookups ----------

  /** In every interleaving, get_order_data finds the one order of a cast, and through it the right keeper. */
  lemma CastsFindTheirOrder(events: seq<Event>, n: nat)
    requires Legal(INITIAL, events) && n < |After(INITIAL, events).changers|
    ensures var s := After(INITIAL, events);
            var order := GetOrderData(s.shop, s.changers[n].orderId);
            order.Some? && order.value.id == s.changers[n].orderId && order.value.keeper == n
  {
    InitialDisciplined();
    RunSound(INITIAL, events);
    hide After;
    var s := After(INITIAL, events);
    assert PairSound(s.keepers[n], s.changers[n], n + 1);
    OrderDataFound(s.shop, n + 1);
    hide GetOrderData, PairSound;
  }

  /**
   With timely replies, when a callback resumes with a name, that name is registered, and
   each order id in its list leads to exactly one order, its own.
   */
  lemma LookupsSucceed(events: seq<Event>, id: nat)
    requires Legal(INITIAL, events) && TimelyRun(INITIAL, events)
    requires After(INITIAL, events).mode.AwaitAuth? && HasReply(After(INITIAL, events))
    ensures var s := After(INITIAL, events);
            var session := s.sessions[s.mode.call.sid];
            var name := session.outbox[0];
            && name == session.owner && name in s.shop.users
            && (id in s.shop.users[name].orders ==>
                  var order := GetOrderData(s.shop, id);
                  order.Some? && order.value.id == id && order.value.user == name)
  {
    InitialDisciplined();
    RunDisciplined(INITIAL, events);
    hide After;
    var s := After(INITIAL, events);
    AuthQuiet(s, s.mode.call);
    var name := s.sessions[s.mode.call.sid].owner;
    OwnIds(s.shop, name, id);
    OrderDataFound(s.shop, id);
    hide GetOrderData;
  }

  /** With timely replies, each call that is answered is answered with the state of things at that moment. */
  lemma NextAnswerIsCurrent(events: seq<Event>, e: Event)
    requires Legal(INITIAL, events) && TimelyRun(INITIAL, events)
    requires Enabled(After(INITIAL, events), e) && Timely(After(INITIAL, events), e)
    ensures AnswersWell(After(INITIAL, events), Apply(After(INITIAL, events), e))
  {
    InitialDisciplined();
    RunDisciplined(INITIAL, events);
    hide After, Sound, AnswersWell;
    var s := After(INITIAL, events);
    if s.mode == Crashed {
      NothingAnswered(s, Apply(s, e));
    } else {
      StepAnswers(s, e);
    }
  }

  /**
   With timely replies each answer follows from those before it, and each action ran with the
   name that logged in to its session; the keeper of an order always answers.
   */
  lemma TimelyAnswersFollow(events: seq<Event>, i: nat)
    requires Legal(INITIAL, events) && TimelyRun(INITIAL, events) && i < |After(INITIAL, events).log|
    ensures var log := After(INITIAL, events).log;
            && Follows(log[..i], log[i]) && Fits(log[i].call, log[i].reply) && log[i].reply != StateUnknown
            && (log[i].user.Some? ==>
                  && HasSession(log[i].call) && log[i].call.sid < |OwnersIn(log)|
                  && log[i].user.value == OwnersIn(log)[log[i].call.sid])
  {
    ReplyDiscipline(events);
    AnswersFollowLog(events);
    hide *;
    var s := After(INITIAL, events);
    FollowsAt(s.log, i);
    assert s.log[i] in s.log;
    WellNamed(s, s.log[i]);
  }

  lemma FollowsAt(log: seq<Handled>, i: nat)
    requires LogFollows(log) && i < |log|
    ensures Follows(log[..i], log[i])
  {
    hide Follows;
  }

  lemma WellNamed(s: System, h: Handled)
    requires WellAnswered(s, h)
    ensures Fits(h.call, h.reply) && h.reply != StateUnknown
    ensures h.user.Some? ==>
              HasSession(h.call) && h.call.sid < |s.sessions| && h.user.value == s.sessions[h.call.sid].owner
  {
    hide Fits, Listed, Earlier, OrderOf, Stage, Added, OwnOrder;
  }

  // ---------- Casts that were handled ----------

  lemma PrefixOf(x: seq<Term>, y: seq<Term>, z: seq<Term>, all: seq<Term>)
    requires x + y + z == all
    ensures x <= all && |x| == |all| - |y| - |z|
  {
  }

  /** With timely replies, between callbacks every cast that the server has handled has changed the order's state. */
  lemma HandledCastsTookEffect(events: seq<Event>, n: nat)
    requires Legal(INITIAL, events) && TimelyRun(INITIAL, events)
    requires After(INITIAL, events).mode == Idle && n < |After(INITIAL, events).changers|
    ensures var s := After(INITIAL, events);
            var changer := s.changers[n];
            n < |s.keepers| && Held(s.keepers[n]) <= PROGRESS
                && |Held(s.keepers[n])| == 1 + changer.sent - |changer.outbox|
  {
    InitialDisciplined();
    RunSound(INITIAL, events);
    ReplyDiscipline(events);
    hide After;
    var s := After(INITIAL, events);
    var keeper, changer := s.keepers[n], s.changers[n];
    assert PairSound(keeper, changer, n + 1) && KeeperQuiet(keeper);
    hide Sound, AllQuiet;
    assert Held(keeper) + Changes([]) == Held(keeper);
    PrefixOf(Held(keeper), changer.outbox, PROGRESS[1 + changer.sent..], PROGRESS);
  }

  // ---------- Ended sessions ----------

  /** The session has ended and no answer of it is left. */
  predicate Gone(s: System, sid: nat) {
    && sid < |s.sessions| && !s.sessions[sid].alive && SessionQuiet(s.sessions[sid])
    && !(s.mode.AwaitLogOut? && HasSession(s.mode.call) && s.mode.call.sid == sid)
    && !(s.mode.AwaitOrderState? && HasSession(s.mode.call) && s.mode.call.sid == sid)
  }

  /** The calls answered from s on refuse the session. */
  predicate Refuses(log: seq<Handled>, from: nat, sid: nat) {
    forall i | from <= i < |log| && HasSession(log[i].call) && log[i].call.sid == sid ::
      log[i].user == None && log[i].reply == NoSuchSession
  }

  /** The session is as it was, the log too, and the server is not past asking it. */
  lemma GoneUnchanged(s: System, t: System, from: nat, sid: nat)
    requires Gone(s, sid) && Refuses(s.log, from, sid) && t.log == s.log
    requires sid < |t.sessions| && t.sessions[sid] == s.sessions[sid]
    requires t.mode == s.mode || t.mode == Idle || t.mode == Crashed || t.mode.AwaitAuth? || t.mode.AwaitChange?
    ensures Gone(t, sid) && Refuses(t.log, from, sid)
  {
  }

  lemma GoneCall(s: System, call: Call, from: nat, sid: nat)
    requires Enabled(s, CallStarts(call)) && Gone(s, sid) && Refuses(s.log, from, sid)
    ensures Gone(StartCall(s, call), sid) && Refuses(StartCall(s, call).log, from, sid)
  {
    hide Register, GetPasswordForUser;
    if HasSession(call) {
      hide Gone, Refuses;
      StillQuiet(s, call.sid, sid);
      GoneUnchanged(s, StartCall(s, call), from, sid);
    }
  }

  /** A message for it is lost. */
  lemma StillQuiet(s: System, to: nat, sid: nat)
    requires Gone(s, sid)
    ensures sid < |s.sessions| && ToSession(s, to, CheckExistence).sessions[sid] == s.sessions[sid]
    ensures |ToSession(s, to, CheckExistence).sessions| == |s.sessions|
  {
  }

  lemma GoneTimeout(s: System, from: nat, sid: nat)
    requires Enabled(s, ReplyTimesOut) && ModeSound(s) && Gone(s, sid) && Refuses(s.log, from, sid)
    ensures Gone(ReplyTimeout(s), sid) && Refuses(ReplyTimeout(s).log, from, sid)
  {
  }

  lemma GoneSession(s: System, e: Event, from: nat, sid: nat)
    requires Enabled(s, e) && (e.SessionStep? || e.SessionTimesOut?) && Gone(s, sid) && Refuses(s.log, from, sid)
    ensures Gone(Apply(s, e), sid) && Refuses(Apply(s, e).log, from, sid)
  {
    hide SessionReceives;
  }

  lemma GoneStep(s: System, e: Event, from: nat, sid: nat)
    requires Sound(s) && Enabled(s, e) && Gone(s, sid) && Refuses(s.log, from, sid)
    ensures Gone(Apply(s, e), sid) && Refuses(Apply(s, e).log, from, sid)
  {
    assert ModeSound(s) && sid < |s.sessions|;
    match e
    case CallStarts(call) =>
      hide Sound, StartCall, Gone, Refuses;
      GoneCall(s, call, from, sid);
    case CastStarts(n) =>
      StartCastSound(s, n);
      hide StartCast, Sound, Gone, Refuses;
      GoneUnchanged(s, Apply(s, e), from, sid);
    case ReplyTaken =>
      GoneReply(s, from, sid);
      hide TakeReply, Sound, Gone, Refuses;
    case ReplyTimesOut =>
      hide Sound, ReplyTimeout, Gone, Refuses;
      GoneTimeout(s, from, sid);
    case SessionStep(_) =>
      hide Sound, Apply, Gone, Refuses;
      GoneSession(s, e, from, sid);
    case SessionTimesOut(_) =>
      hide Sound, Apply, Gone, Refuses;
      GoneSession(s, e, from, sid);
    case StraySessionReply(other) =>
      assert other != sid;
      hide Sound, Gone, Refuses;
      GoneUnchanged(s, Apply(s, e), from, sid);
    case _ =>
      hide Sound, Gone, Refuses;
      GoneUnchanged(s, Apply(s, e), from, sid);
  }

  lemma GoneReply(s: System, from: nat, sid: nat)
    requires Sound(s) && HasReply(s) && Gone(s, sid) && Refuses(s.log, from, sid)
    ensures Gone(TakeReply(s), sid) && Refuses(TakeReply(s).log, from, sid)
  {
    hide Books, ActorsSound, OrdersSound, SessionsSound;
    if s.mode.AwaitAuth? {
      var call := s.mode.call;
      var outbox := s.sessions[call.sid].outbox;
      assert call.sid != sid;
      GoneAct(SetSessionOutbox(s, call.sid, outbox[1..]), call, outbox[0], from, sid);
      hide Act;
    }
  }

  lemma GoneAct(s: System, call: Call, user: Term, from: nat, sid: nat)
    requires HasSession(call) && call.sid != sid && s.mode == AwaitAuth(call) && Gone(s, sid)
        && Refuses(s.log, from, sid)
    ensures Gone(Act(s, call, user), sid) && Refuses(Act(s, call, user).log, from, sid)
  {
    hide MakeOrder, GetMyOrders, GetOrderData, AddNewItem;
  }

  lemma {:induction false} GoneForEver(s: System, events: seq<Event>, from: nat, sid: nat)
    requires Sound(s) && Legal(s, events) && Gone(s, sid) && Refuses(s.log, from, sid)
    ensures Gone(After(s, events), sid) && Refuses(After(s, events).log, from, sid)
    decreases |events|
  {
    hide Sound, Enabled, Apply, Gone, Refuses;
    if events != [] {
      StepSound(s, events[0]);
      GoneStep(s, events[0], from, sid);
      GoneForEver(Apply(s, events[0]), events[1..], from, sid);
    }
  }

  /**
   After a timely run, a session that has ended, by log out or by its timeout, never
   authenticates in a callback that starts later, however the replies come from then on.
   */
  lemma EndedSessionRefused(events: seq<Event>, more: seq<Event>, sid: nat)
    requires Legal(INITIAL, events) && TimelyRun(INITIAL, events)
    requires var s := After(INITIAL, events);
             s.mode == Idle && sid < |s.sessions| && !s.sessions[sid].alive
    requires Legal(After(INITIAL, events), more)
    ensures var s := After(INITIAL, events);
            Refuses(After(s, more).log, |s.log|, sid)
  {
    InitialDisciplined();
    RunSound(INITIAL, events);
    ReplyDiscipline(events);
    hide After, Sound;
    var s := After(INITIAL, events);
    assert SessionQuiet(s.sessions[sid]);
    GoneForEver(s, more, |s.log|, sid);
  }

  // ---------- Why replies have to be timely ----------

  /** When the server gives up waiting, its queues stay in order exactly if no answer can come any more. */
  lemma TimeoutSafeIffTimely(s: System)
    requires Sound(s) && Disciplined(s) && Enabled(s, ReplyTimesOut)
    ensures Disciplined(ReplyTimeout(s)) <==> Timely(s, ReplyTimesOut)
  {
    if Timely(s, ReplyTimesOut) {
      StepDisciplined(s, ReplyTimesOut);
    } else if Queues(ReplyTimeout(s)) {
      IdleIsQuiet(ReplyTimeout(s));
      NotQuiet(s);
    }
  }

  /** The discipline holds after every step of the run. */
  ghost predicate AlwaysDisciplined(s: System, events: seq<Event>)
    requires Legal(s, events)
    decreases |events|
  {
    Disciplined(s) && (events != [] ==> AlwaysDisciplined(Apply(s, events[0]), events[1..]))
  }

  lemma StepDisciplinedIff(s: System, e: Event)
    requires Sound(s) && Disciplined(s) && Enabled(s, e)
    ensures Disciplined(Apply(s, e)) <==> Timely(s, e) && !PrintFails(s, e)
  {
    hide Sound, Disciplined, Enabled, Apply, Timely, PrintFails;
    if Timely(s, e) && !PrintFails(s, e) {
      StepDisciplined(s, e);
    } else if PrintFails(s, e) {
      PrintFailure(s, e);
      DownUndisciplined(Apply(s, e));
    } else {
      UntimelyIsTimeout(s, e);
      TimeoutSafeIffTimely(s);
    }
  }

  lemma DownUndisciplined(s: System)
    requires s.mode == Crashed
    ensures !Disciplined(s)
  {
    hide LogRight;
  }

  lemma UntimelyIsTimeout(s: System, e: Event)
    requires Enabled(s, e) && !Timely(s, e)
    ensures e == ReplyTimesOut && Apply(s, e) == ReplyTimeout(s)
  {
    hide ReplyTimeout;
  }

  lemma {:induction false} RunDisciplinedIff(s: System, events: seq<Event>)
    requires Sound(s) && Disciplined(s) && Legal(s, events)
    ensures AlwaysDisciplined(s, events) <==> TimelyRun(s, events) && Prints(s, events)
    decreases |events|
  {
    hide Sound, Disciplined, Enabled, Apply, Timely, PrintFails;
    if events != [] {
      StepSound(s, events[0]);
      StepDisciplinedIff(s, events[0]);
      if Disciplined(Apply(s, events[0])) {
        RunDisciplinedIff(Apply(s, events[0]), events[1..]);
      } else {
        UndisciplinedNow(Apply(s, events[0]), events[1..]);
      }
    }
  }

  lemma UndisciplinedNow(s: System, events: seq<Event>)
    requires Legal(s, events) && !Disciplined(s)
    ensures !AlwaysDisciplined(s, events)
  {
    hide Disciplined, Enabled, Apply;
  }

  /**
   The exact condition on a run: the discipline holds after each of its steps if and only if
   the server gives up waiting only when no answer can come, and never prints an integer price.
   */
  lemma DisciplineIffTimely(events: seq<Event>)
    requires Legal(INITIAL, events)
    ensures AlwaysDisciplined(INITIAL, events) <==> TimelyRun(INITIAL, events) && Prints(INITIAL, events)
  {
    InitialDisciplined();
    hide *;
    RunDisciplinedIff(INITIAL, events);
  }

  lemma NotQuiet(s: System)
    requires Sound(s) && Queues(s) && AnswerMayCome(s)
    ensures !AllQuiet(ReplyTimeout(s))
  {
    hide Books, ActorsSound, OrdersSound, SessionsSound;
    var t := ReplyTimeout(s);
    match s.mode
    case AwaitAuth(call) => assert SessionInOrder(s.sessions[call.sid], call.sid, s.mode)
        && !SessionQuiet(t.sessions[call.sid]);
    case AwaitLogOut(call, _) => assert SessionInOrder(s.sessions[call.sid], call.sid, s.mode)
        && !SessionQuiet(t.sessions[call.sid]);
    case AwaitOrderState(_, _, keeper) => assert KeeperInOrder(s.keepers[keeper], keeper, s.mode)
        && !KeeperQuiet(t.keepers[keeper]);
    case AwaitChange(keeper) => assert KeeperInOrder(s.keepers[keeper], keeper, s.mode)
        && !KeeperQuiet(t.keepers[keeper]);
  }

  /** The events lead from s to t, with timely replies if so stated. */
  ghost predicate Runs(s: System, events: seq<Event>, t: System, timely: bool) {
    Legal(s, events) && After(s, events) == t && (timely ==> TimelyRun(s, events))
  }

  lemma RunsNow(s: System, timely: bool)
    ensures Runs(s, [], s, timely)
  {
  }

  lemma RunsFrom(s: System, e: Event, events: seq<Event>, t: System, timely: bool)
    requires Enabled(s, e) && (timely ==> Timely(s, e)) && Runs(Apply(s, e), events, t, timely)
    ensures Runs(s, [e] + events, t, timely)
  {
    hide Enabled, Apply, Timely;
    assert ([e] + events)[1..] == events;
  }

  lemma RunsTwo(s: System, d: Event, e: Event, timely: bool)
    requires Enabled(s, d) && Enabled(Apply(s, d), e)
    requires timely ==> Timely(s, d) && Timely(Apply(s, d), e)
    ensures Runs(s, [d] + ([e] + []), Apply(Apply(s, d), e), timely)
  {
    hide Enabled, Apply, Timely, Runs;
    var t := Apply(Apply(s, d), e);
    RunsNow(t, timely);
    RunsFrom(Apply(s, d), e, [], t, timely);
    RunsFrom(s, d, [e] + [], t, timely);
  }

  /** One answer that arrives late ends the server: the next callback it would be taken in is handle_info. */
  lemma LateAnswerCrashes(s: System) returns (more: seq<Event>)
    requires Sound(s) && Disciplined(s) && Enabled(s, ReplyTimesOut) && !Timely(s, ReplyTimesOut)
    ensures Legal(ReplyTimeout(s), more) && TimelyRun(ReplyTimeout(s), more)
        && After(ReplyTimeout(s), more).mode == Crashed
  {
    hide Books, ActorsSound, OrdersSound, SessionsSound, WellAnswered, NeverBack;
    var t := ReplyTimeout(s);
    if s.mode.AwaitAuth? || s.mode.AwaitLogOut? {
      var sid := s.mode.call.sid;
      assert SessionInOrder(s.sessions[sid], sid, s.mode);
      more := SessionCrash(t, sid);
    } else {
      var keeper := s.mode.keeper;
      assert KeeperInOrder(s.keepers[keeper], keeper, s.mode);
      more := KeeperCrash(t, keeper);
    }
  }

  lemma SessionCrash(t: System, sid: nat) returns (more: seq<Event>)
    requires t.mode == Idle && sid < |t.sessions|
    requires t.sessions[sid].outbox != [] || (t.sessions[sid].alive && t.sessions[sid].inbox != [])
    ensures Legal(t, more) && TimelyRun(t, more) && After(t, more).mode == Crashed
  {
    if t.sessions[sid].outbox != [] {
      more := [StraySessionReply(sid)];
    } else {
      more := [SessionStep(sid)] + ([StraySessionReply(sid)] + []);
      RunsTwo(t, SessionStep(sid), StraySessionReply(sid), true);
    }
  }

  lemma KeeperCrash(t: System, keeper: nat) returns (more: seq<Event>)
    requires t.mode == Idle && keeper < |t.keepers|
    requires t.keepers[keeper].outbox != [] || t.keepers[keeper].inbox != []
    ensures Legal(t, more) && TimelyRun(t, more) && After(t, more).mode == Crashed
  {
    if t.keepers[keeper].outbox != [] {
      more := [StrayKeeperReply(keeper)];
    } else {
      more := [KeeperStep(keeper)] + ([StrayKeeperReply(keeper)] + []);
      RunsTwo(t, KeeperStep(keeper), StrayKeeperReply(keeper), true);
    }
  }

  /** The server is in the mode, the session in the given state, and the shop as before. */
  predicate Scene(s: System, t: System, sid: nat, mode: Mode, session: Session) {
    && t.mode == mode && t.shop == s.shop && |t.sessions| == |s.sessions|
    && sid < |s.sessions| && t.sessions[sid] == session
  }

  lemma QuestionSent(s: System, sid: nat)
    requires s.mode == Idle && sid < |s.sessions| && s.sessions[sid].alive && SessionQuiet(s.sessions[sid])
    ensures var call, owner := LogOut(sid), s.sessions[sid].owner;
            && Enabled(s, CallStarts(call))
            && Scene(s, Apply(s, CallStarts(call)), sid, AwaitAuth(call), Session(owner, true, [CheckExistence], []))
  {
  }

  lemma SessionAnswers(s: System, t: System, sid: nat, mode: Mode, session: Session)
    requires Scene(s, t, sid, mode, session) && session.alive && session.inbox != []
    ensures Enabled(t, SessionStep(sid)) && Scene(s, Apply(t, SessionStep(sid)), sid, mode, SessionReceives(session))
  {
    hide SessionReceives;
  }

  lemma OwnerTaken(s: System, t: System, sid: nat, owner: Term)
    requires Scene(s, t, sid, AwaitAuth(LogOut(sid)), Session(owner, true, [], [owner]))
    ensures Enabled(t, ReplyTaken)
    ensures Scene(s, Apply(t, ReplyTaken), sid,
                  AwaitLogOut(LogOut(sid), owner), Session(owner, true, [DestroySession], []))
  {
  }

  lemma GivenUp(s: System, t: System, sid: nat, owner: Term, session: Session)
    requires Scene(s, t, sid, AwaitLogOut(LogOut(sid), owner), session)
    ensures Enabled(t, ReplyTimesOut) && Scene(s, Apply(t, ReplyTimesOut), sid, Idle, session)
  {
  }

  lemma AnswerOf(owner: Term)
    ensures SessionReceives(Session(owner, true, [CheckExistence], [])) == Session(owner, true, [], [owner])
    ensures SessionReceives(Session(owner, true, [DestroySession], [])) == Session(owner, false, [], [Ok])
  {
  }

  /** A session is asked to end and does so, but the server has stopped waiting. */
  lemma LogOutAnsweredLate(s: System, sid: nat) returns (run: seq<Event>, t: System)
    requires s.mode == Idle && sid < |s.sessions| && s.sessions[sid].alive && SessionQuiet(s.sessions[sid])
    ensures Runs(s, run, t, false) && t.mode == Idle && t.shop == s.shop && |t.sessions| == |s.sessions|
    ensures !t.sessions[sid].alive && t.sessions[sid].inbox == [] && t.sessions[sid].outbox == [Ok]
  {
    hide Apply, Enabled, SessionReceives, Runs, SessionQuiet;
    var call, owner := LogOut(sid), s.sessions[sid].owner;
    AnswerOf(owner);
    QuestionSent(s, sid);
    var s1 := Apply(s, CallStarts(call));
    SessionAnswers(s, s1, sid, AwaitAuth(call), s1.sessions[sid]);
    var s2 := Apply(s1, SessionStep(sid));
    OwnerTaken(s, s2, sid, owner);
    var s3 := Apply(s2, ReplyTaken);
    SessionAnswers(s, s3, sid, AwaitLogOut(call, owner), s3.sessions[sid]);
    var s4 := Apply(s3, SessionStep(sid));
    GivenUp(s, s4, sid, owner, s4.sessions[sid]);
    t := Apply(s4, ReplyTimesOut);
    RunsNow(t, false);
    RunsFrom(s4, ReplyTimesOut, [], t, false);
    RunsFrom(s3, SessionStep(sid), [ReplyTimesOut] + [], t, false);
    RunsFrom(s2, ReplyTaken, [SessionStep(sid)] + ([ReplyTimesOut] + []), t, false);
    RunsFrom(s1, SessionStep(sid), [ReplyTaken] + ([SessionStep(sid)] + ([ReplyTimesOut] + [])), t, false);
    run := [SessionStep(sid)] + ([ReplyTaken] + ([SessionStep(sid)] + ([ReplyTimesOut] + [])));
    RunsFrom(s, CallStarts(call), run, t, false);
    run := [CallStarts(call)] + run;
  }

  /** The next call with the ended session is then done in the name of the atom ok. */
  lemma LateOkIsTakenForName(t: System, sid: nat, name: string, description: string, price: Price)
      returns (run: seq<Event>, u: System)
    requires t.mode == Idle && sid < |t.sessions|
    requires !t.sessions[sid].alive && t.sessions[sid].inbox == [] && t.sessions[sid].outbox == [Ok]
    ensures Runs(t, run, u, true)
    ensures u.shop == AddNewItem(Ok, name, description, price, t.shop)
    ensures u.log == t.log + [Handled(AddItem(sid, name, description, price), Some(Ok), ItemAdded)]
  {
    var call := AddItem(sid, name, description, price);
    run := [CallStarts(call)] + ([ReplyTaken] + []);
    RunsTwo(t, CallStarts(call), ReplyTaken, true);
    u := Apply(Apply(t, CallStarts(call)), ReplyTaken);
  }

  /** Without timely replies the discipline fails: a session that has ended adds an item, as nobody. */
  lemma UntimelyEndedSessionActs(s: System, sid: nat, name: string, description: string, price: Price)
    requires s.mode == Idle && sid < |s.sessions| && s.sessions[sid].alive && SessionQuiet(s.sessions[sid])
    ensures exists before: seq<Event>, t: System, after: seq<Event>, u: System ::
              && Runs(s, before, t, false) && t.mode == Idle && sid < |t.sessions| && !t.sessions[sid].alive
              && Runs(t, after, u, true)
              && u.log == t.log + [Handled(AddItem(sid, name, description, price), Some(Ok), ItemAdded)]
  {
    var before, t := LogOutAnsweredLate(s, sid);
    var after, u := LateOkIsTakenForName(t, sid, name, description, price);
  }
}
