/**
 What the e-shop can always still do: a live session gets its answer, and every order can come
 to be delivered, whatever has happened so far in a timely run.
 */
module EshopProgress {
  import opened Text
  import opened EshopServer
  import opened EshopActors
  import opened EshopOrders
  import opened EshopReplies
  import opened EshopRuns

  lemma {:induction false} RunsThen(s: System, first: seq<Event>, t: System, second: seq<Event>, u: System)
    requires Runs(s, first, t, true) && Runs(t, second, u, true)
    ensures Runs(s, first + second, u, true)
    decreases |first|
  {
    hide Enabled, Apply, Timely;
    if first == [] {
      assert first + second == second;
    } else {
      assert (first + second)[1..] == first[1..] + second;
      RunsThen(Apply(s, first[0]), first[1..], t, second, u);
    }
  }

  /** Between callbacks of a timely run. */
  ghost predicate Ready(s: System) {
    Sound(s) && Disciplined(s) && s.mode == Idle
  }

  lemma ReadyIsQuiet(s: System)
    requires Ready(s)
    ensures AllQuiet(s) && |s.keepers| == |s.changers|
  {
    hide LogRight, SessionsSound, ActorsSound, OrdersSound, Books;
    IdleIsQuiet(s);
  }

  /** One event of a timely run that does not end the server. */
  lemma Goes(s: System, e: Event)
    requires Sound(s) && Disciplined(s) && Enabled(s, e) && Timely(s, e) && !PrintFails(s, e)
    ensures Sound(Apply(s, e)) && Disciplined(Apply(s, e)) && Runs(s, [e], Apply(s, e), true)
  {
    hide Sound, Disciplined, Enabled, Apply, Timely, PrintFails, Runs;
    StepSound(s, e);
    StepDisciplined(s, e);
    RunsNow(Apply(s, e), true);
    RunsFrom(s, e, [], Apply(s, e), true);
    assert [e] + [] == [e];
  }

  // ---------- Orders ----------

  /** The server takes a cast, the keeper makes the change, and the server takes its answer. */
  lemma CastHandled(s: System, n: nat) returns (run: seq<Event>, t: System)
    requires Ready(s) && n < |s.changers| && s.changers[n].outbox != []
    ensures Runs(s, run, t, true) && Ready(t) && n < |t.changers| && n < |s.keepers| && n < |t.keepers|
    ensures |t.keepers[n].past| == |s.keepers[n].past| + 1
  {
    ReadyIsQuiet(s);
    CastAsked(s, n);
    var s1 := Apply(s, CastStarts(n));
    Goes(s, CastStarts(n));
    ChangeMade(s1, n);
    var s2 := Apply(s1, KeeperStep(n));
    Goes(s1, KeeperStep(n));
    ChangeAnswered(s2, n);
    t := Apply(s2, ReplyTaken);
    Goes(s2, ReplyTaken);
    hide Apply, Enabled, Sound, Disciplined, Runs;
    RunsThen(s1, [KeeperStep(n)], s2, [ReplyTaken], t);
    RunsThen(s, [CastStarts(n)], s1, [KeeperStep(n)] + [ReplyTaken], t);
    run := [CastStarts(n)] + ([KeeperStep(n)] + [ReplyTaken]);
  }

  lemma CastAsked(s: System, n: nat)
    requires Ready(s) && AllQuiet(s) && n < |s.changers| == |s.keepers| && s.changers[n].outbox != []
    ensures var t := Apply(s, CastStarts(n));
            && t.mode == AwaitChange(n) && |t.keepers| == |s.keepers| && |t.changers| == |s.changers|
            && t.keepers[n] == s.keepers[n].(inbox := [ChangeState(s.changers[n].outbox[0])])
            && s.keepers[n].outbox == []
  {
    hide Disciplined, LogRight, SessionsSound;
    assert PairSound(s.keepers[n], s.changers[n], n + 1) && KeeperQuiet(s.keepers[n]);
    hide PairSound;
    assert n + 1 <= s.shop.orderCount == |s.shop.orders|;
    OrderDataFound(s.shop, n + 1);
    hide GetOrderData;
    var place := s.shop.orderCount - (n + 1);
    assert s.shop.orders[place].id == n + 1 && s.shop.orders[place].keeper == n;
  }

  lemma ChangeMade(s: System, n: nat)
    requires n < |s.keepers| && s.mode == AwaitChange(n) && s.keepers[n].outbox == []
    requires |s.keepers[n].inbox| == 1 && s.keepers[n].inbox[0].ChangeState?
    ensures Enabled(s, KeeperStep(n))
    ensures var t := Apply(s, KeeperStep(n));
            && t.mode == AwaitChange(n) && |t.keepers| == |s.keepers| && |t.changers| == |s.changers|
            && t.keepers[n].outbox == [Ok] && |t.keepers[n].past| == |s.keepers[n].past| + 1
  {
  }

  lemma ChangeAnswered(s: System, n: nat)
    requires n < |s.keepers| && s.mode == AwaitChange(n) && s.keepers[n].outbox == [Ok]
    ensures Enabled(s, ReplyTaken) && !PrintFails(s, ReplyTaken)
    ensures var t := Apply(s, ReplyTaken);
            && t.mode == Idle && |t.keepers| == |s.keepers| && |t.changers| == |s.changers|
            && t.keepers[n].past == s.keepers[n].past
  {
    hide WithoutFirst;
  }

  lemma CastSent(s: System, n: nat)
    requires Ready(s) && n < |s.changers| && s.changers[n].sent < 3
    ensures Enabled(s, ChangerStep(n))
    ensures var t := Apply(s, ChangerStep(n));
            Ready(t) && t.keepers == s.keepers && |t.changers| == |s.changers| && t.changers[n].outbox != []
                && Runs(s, [ChangerStep(n)], t, true)
  {
    var t := Apply(s, ChangerStep(n));
    assert t.mode == Idle && t.keepers == s.keepers && t.changers[n].outbox != [];
    hide Sound, Disciplined, Apply, Runs;
    Goes(s, ChangerStep(n));
  }

  lemma AllSentAndTaken(s: System, n: nat)
    requires Ready(s) && AllQuiet(s) && n < |s.changers| == |s.keepers|
    ensures |s.keepers[n].past| <= 3 && s.changers[n].sent <= 3
    ensures s.changers[n].outbox == [] && s.changers[n].sent == 3 ==> s.keepers[n].state == Delivered
    ensures |s.keepers[n].past| == 3 ==> s.changers[n].outbox == [] && s.changers[n].sent == 3
  {
    hide Disciplined, LogRight, SessionsSound, Books, OrdersSound;
    var keeper, changer := s.keepers[n], s.changers[n];
    assert PairSound(keeper, changer, n + 1) && KeeperQuiet(keeper);
    hide Sound, AllQuiet;
    HeldLength(keeper);
    var unsent := PROGRESS[1 + changer.sent..];
    assert Held(keeper) + changer.outbox + unsent == PROGRESS by {
      assert Held(keeper) + [] == Held(keeper);
    }
    assert |Held(keeper)| + |changer.outbox| + |unsent| == 4;
    if changer.outbox == [] && changer.sent == 3 {
      assert Held(keeper) == PROGRESS;
      assert Held(keeper)[3] == keeper.state;
    }
  }

  /** From any moment of a timely run between callbacks, any order can still come to be delivered. */
  lemma {:induction false} OrderCanBeDelivered(s: System, n: nat) returns (run: seq<Event>, t: System)
    requires Ready(s) && n < |s.changers|
    ensures Runs(s, run, t, true) && Ready(t) && n < |t.keepers| && t.keepers[n].state == Delivered
    decreases 3 - if n < |s.keepers| then |s.keepers[n].past| else 0
  {
    ReadyIsQuiet(s);
    AllSentAndTaken(s, n);
    hide Ready, Runs, Enabled, Apply, AllQuiet;
    if |s.keepers[n].past| == 3 {
      RunsNow(s, true);
      return [], s;
    }
    var first, s1 := [], s;
    RunsNow(s, true);
    if s.changers[n].outbox == [] {
      if s.changers[n].sent == 3 {
        return [], s;
      }
      CastSent(s, n);
      first, s1 := [ChangerStep(n)], Apply(s, ChangerStep(n));
    }
    var second, s2 := CastHandled(s1, n);
    ReadyIsQuiet(s2);
    AllSentAndTaken(s2, n);
    RunsThen(s, first, s1, second, s2);
    var third;
    third, t := OrderCanBeDelivered(s2, n);
    RunsThen(s, first + second, s2, third, t);
    run := first + second + third;
  }

  // ---------- Calls ----------

  /** The answer of a call that found its session. */
  ghost predicate AnsweredFor(s: System, t: System, call: Call) {
    t.mode == Idle && exists h: Handled :: t.log == s.log + [h] && h.call == call && h.reply != NoSuchSession
  }

  lemma Asked(s: System, call: Call)
    requires s.mode == Idle && AllQuiet(s) && HasSession(call) && call.sid < |s.sessions| && s.sessions[call.sid].alive
    ensures Enabled(s, CallStarts(call))
    ensures var t := Apply(s, CallStarts(call));
            && t.mode == AwaitAuth(call) && t.log == s.log && t.shop == s.shop && |t.sessions| == |s.sessions|
            && t.sessions[call.sid].alive && t.sessions[call.sid].inbox == [CheckExistence]
            && t.sessions[call.sid].outbox == [] && t.sessions[call.sid].owner == s.sessions[call.sid].owner
  {
    assert SessionQuiet(s.sessions[call.sid]);
  }

  lemma Exists(s: System, call: Call)
    requires s.mode == AwaitAuth(call) && HasSession(call) && call.sid < |s.sessions|
    requires s.sessions[call.sid].alive && s.sessions[call.sid].inbox == [CheckExistence]
    requires s.sessions[call.sid].outbox == []
    ensures Enabled(s, SessionStep(call.sid))
    ensures var t := Apply(s, SessionStep(call.sid));
            && t.mode == s.mode && t.log == s.log && t.shop == s.shop && |t.sessions| == |s.sessions|
            && t.sessions[call.sid] == s.sessions[call.sid].(inbox := [], outbox := [s.sessions[call.sid].owner])
  {
  }

  /** After the owner's name was taken, the call is answered or another answer is awaited. */
  lemma Acted(s: System, call: Call)
    requires s.mode == AwaitAuth(call) && HasSession(call) && call.sid < |s.sessions|
    requires s.sessions[call.sid].outbox == [s.sessions[call.sid].owner]
    requires s.sessions[call.sid].alive && s.sessions[call.sid].inbox == []
    requires Apply(s, ReplyTaken).mode != Crashed
    ensures Enabled(s, ReplyTaken)
    ensures var t := Apply(s, ReplyTaken);
            || AnsweredFor(s, t, call)
            || (&& t.log == s.log && t.mode.AwaitLogOut? && t.mode.call == call && |t.sessions| == |s.sessions|
                && t.sessions[call.sid].alive && t.sessions[call.sid].inbox == [DestroySession]
                && t.sessions[call.sid].outbox == [])
            || (t.log == s.log && t.mode.AwaitOrderState? && t.mode.call == call)
  {
    var s' := SetSessionOutbox(s, call.sid, []);
    assert s.sessions[call.sid].outbox[1..] == [];
    var t := Act(s', call, s.sessions[call.sid].owner);
    assert Apply(s, ReplyTaken) == t;
    hide AddNewItem, MakeOrder, GetMyOrders, GetOrderData;
    if t.log != s.log {
      assert t.log == s.log + [t.log[|s.log|]];
    }
  }

  lemma Ended(s: System, call: Call)
    requires s.mode.AwaitLogOut? && s.mode.call == call && HasSession(call) && call.sid < |s.sessions|
    requires s.sessions[call.sid].alive && s.sessions[call.sid].inbox == [DestroySession]
    requires s.sessions[call.sid].outbox == []
    ensures Enabled(s, SessionStep(call.sid))
    ensures var t := Apply(s, SessionStep(call.sid));
            && t.mode == s.mode && t.log == s.log && Enabled(t, ReplyTaken) && !PrintFails(t, ReplyTaken)
            && AnsweredFor(s, Apply(t, ReplyTaken), call)
  {
    hide WithoutFirst;
    var t := Apply(s, SessionStep(call.sid));
    assert t.sessions[call.sid].outbox == [Ok];
    var u := Apply(t, ReplyTaken);
    assert u.log == s.log + [u.log[|s.log|]];
  }

  lemma StateGiven(s: System, call: Call)
    requires Sound(s) && Disciplined(s) && s.mode.AwaitOrderState? && s.mode.call == call
    ensures s.mode.keeper < |s.keepers|
    ensures s.keepers[s.mode.keeper].outbox == [] ==> Enabled(s, KeeperStep(s.mode.keeper))
    ensures s.keepers[s.mode.keeper].outbox == [] ==>
              var t := Apply(s, KeeperStep(s.mode.keeper));
              t.mode == s.mode && t.log == s.log && t.keepers[s.mode.keeper].outbox != []
    ensures s.keepers[s.mode.keeper].outbox != [] ==>
              Enabled(s, ReplyTaken) && !PrintFails(s, ReplyTaken) && AnsweredFor(s, Apply(s, ReplyTaken), call)
  {
    hide LogRight, SessionsSound, OrdersSound, Books, ActorsSound;
    var k := s.mode.keeper;
    assert ModeSound(s) && k < |s.changers| == |s.keepers|;
    assert KeeperInOrder(s.keepers[k], k, s.mode);
    if s.keepers[k].outbox != [] {
      var u := Apply(s, ReplyTaken);
      assert u.log == s.log + [u.log[|s.log|]];
    }
  }

  lemma AnswerComes(s: System, call: Call) returns (run: seq<Event>, t: System)
    requires Sound(s) && Disciplined(s)
    requires || (&& s.mode.AwaitLogOut? && s.mode.call == call && HasSession(call) && call.sid < |s.sessions|
                 && s.sessions[call.sid].alive && s.sessions[call.sid].inbox == [DestroySession]
                 && s.sessions[call.sid].outbox == [])
             || (s.mode.AwaitOrderState? && s.mode.call == call)
    ensures Runs(s, run, t, true) && Sound(t) && Disciplined(t) && AnsweredFor(s, t, call)
  {
    if s.mode.AwaitLogOut? {
      Ended(s, call);
      var s1 := Apply(s, SessionStep(call.sid));
      hide Sound, Disciplined, Runs, Apply, Enabled, AnsweredFor, PrintFails;
      StepPrints(s, SessionStep(call.sid));
      Goes(s, SessionStep(call.sid));
      t := Apply(s1, ReplyTaken);
      Goes(s1, ReplyTaken);
      RunsThen(s, [SessionStep(call.sid)], s1, [ReplyTaken], t);
      run := [SessionStep(call.sid)] + [ReplyTaken];
    } else {
      StateGiven(s, call);
      var k := s.mode.keeper;
      hide Sound, Disciplined, Runs, Apply, Enabled, AnsweredFor, PrintFails;
      if s.keepers[k].outbox != [] {
        t := Apply(s, ReplyTaken);
        Goes(s, ReplyTaken);
        run := [ReplyTaken];
      } else {
        StepPrints(s, KeeperStep(k));
        Goes(s, KeeperStep(k));
        var s1 := Apply(s, KeeperStep(k));
        StateGiven(s1, call);
        t := Apply(s1, ReplyTaken);
        Goes(s1, ReplyTaken);
        RunsThen(s, [KeeperStep(k)], s1, [ReplyTaken], t);
        SameStart(s, s1, t, call);
        run := [KeeperStep(k)] + [ReplyTaken];
      }
    }
  }

  lemma StepPrints(s: System, e: Event)
    requires e.SessionStep? || e.KeeperStep? || e.CallStarts?
    ensures !PrintFails(s, e) && Timely(s, e)
  {
  }

  lemma SameStart(s: System, s1: System, t: System, call: Call)
    requires s1.log == s.log && AnsweredFor(s1, t, call)
    ensures AnsweredFor(s, t, call)
  {
  }

  /** The server asks the session, which answers with its owner's name. */
  lemma NameComes(s: System, call: Call) returns (run: seq<Event>, t: System)
    requires Ready(s) && HasSession(call) && call.sid < |s.sessions| && s.sessions[call.sid].alive
    ensures Runs(s, run, t, true) && Sound(t) && Disciplined(t) && t.log == s.log && t.shop == s.shop
    ensures t.mode == AwaitAuth(call) && |t.sessions| == |s.sessions| && t.sessions[call.sid].alive
    ensures t.sessions[call.sid].inbox == [] && t.sessions[call.sid].outbox == [t.sessions[call.sid].owner]
  {
    ReadyIsQuiet(s);
    Asked(s, call);
    hide AllQuiet, Runs, Apply, Enabled, PrintFails, Timely, Sound, Disciplined;
    var s1 := Apply(s, CallStarts(call));
    StepPrints(s, CallStarts(call));
    Goes(s, CallStarts(call));
    Exists(s1, call);
    t := Apply(s1, SessionStep(call.sid));
    StepPrints(s1, SessionStep(call.sid));
    Goes(s1, SessionStep(call.sid));
    RunsThen(s, [CallStarts(call)], s1, [SessionStep(call.sid)], t);
    run := [CallStarts(call)] + [SessionStep(call.sid)];
  }

  lemma NameCanBeTaken(s: System, call: Call)
    requires s.mode == AwaitAuth(call) && HasSession(call) && call.sid < |s.sessions|
    requires s.sessions[call.sid].outbox != [] && (call.GetAllItems? ==> ItemsPrint(s.shop.items))
    ensures Enabled(s, ReplyTaken) && !PrintFails(s, ReplyTaken) && Timely(s, ReplyTaken)
  {
    hide ItemsPrint;
  }

  /**
   From any moment of a timely run between callbacks, a call with a live session can be answered
   at once by what its session and keepers do, and not with no_such_session, unless it would
   print an integer price.
   */
  lemma CallCanBeAnswered(s: System, call: Call) returns (run: seq<Event>, t: System)
    requires Ready(s) && HasSession(call) && call.sid < |s.sessions| && s.sessions[call.sid].alive
    requires call.GetAllItems? ==> ItemsPrint(s.shop.items)
    ensures Runs(s, run, t, true) && Ready(t) && AnsweredFor(s, t, call)
  {
    var s1;
    run, s1 := NameComes(s, call);
    NameCanBeTaken(s1, call);
    hide Sound, Disciplined, Runs, Apply, Enabled, PrintFails, AnsweredFor;
    Goes(s1, ReplyTaken);
    t := Apply(s1, ReplyTaken);
    UpNow(t);
    Acted(s1, call);
    RunsThen(s, run, s1, [ReplyTaken], t);
    run := run + [ReplyTaken];
    if !AnsweredFor(s1, t, call) {
      var s2, more := t, [];
      more, t := AnswerComes(s2, call);
      RunsThen(s, run, s2, more, t);
      run := run + more;
      SameStart(s, s2, t, call);
    } else {
      SameStart(s, s1, t, call);
    }
    IdleWhenAnswered(s, t, call);
  }

  /** A log in with the right password opens a live session, which can then be used. */
  lemma LoggedInSessionLives(s: System, user: Term, password: string)
    requires Ready(s) && GetPasswordForUser(user, s.shop) == Some(password)
    ensures Enabled(s, CallStarts(LogIn(user, password)))
    ensures var t := Apply(s, CallStarts(LogIn(user, password)));
            && Ready(t) && Runs(s, [CallStarts(LogIn(user, password))], t, true)
            && t.log == s.log + [Handled(LogIn(user, password), None, LoggedIn(|s.sessions|))]
            && |t.sessions| == |s.sessions| + 1 && t.sessions[|s.sessions|] == Session(user, true, [], [])
            && forall i | 0 <= i < |s.sessions| :: t.sessions[i] == s.sessions[i]
  {
    var e := CallStarts(LogIn(user, password));
    assert Apply(s, e).mode == Idle;
    StepPrints(s, e);
    hide Sound, Disciplined, Runs;
    Goes(s, e);
  }

  lemma IdleWhenAnswered(s: System, t: System, call: Call)
    requires AnsweredFor(s, t, call)
    ensures t.mode == Idle
  {
  }
}
