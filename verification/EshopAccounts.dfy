/**
 Registration and log in, in every interleaving, in terms of the calls answered before.
 */
module EshopAccounts {
  import opened Text
  import opened EshopServer
  import opened EshopActors
  import opened EshopLog

  /** Entry k registers the name, successfully or not. */
  predicate RegistersAt(log: seq<Handled>, k: nat, user: Term)
    requires k < |log|
  {
    log[k].call.RegisterUser? && log[k].call.user == user
  }

  /** Among the first n entries one registers the name. */
  ghost predicate Registered(log: seq<Handled>, n: nat, user: Term)
    requires n <= |log|
  {
    exists k :: 0 <= k < n && RegistersAt(log, k, user)
  }

  ghost predicate FirstRegistration(log: seq<Handled>, k: nat, user: Term)
    requires k < |log|
  {
    RegistersAt(log, k, user) && !Registered(log, k, user)
  }

  lemma {:induction false} PasswordOfFirst(log: seq<Handled>, n: nat, user: Term)
    requires n <= |log|
    ensures PasswordIn(log[..n], user) == None <==> !Registered(log, n, user)
    ensures forall k | 0 <= k < n && FirstRegistration(log, k, user) ::
              PasswordIn(log[..n], user) == Some(log[k].call.password)
    decreases n
  {
    if n > 0 {
      PasswordOfFirst(log, n - 1, user);
      assert log[..n][..n - 1] == log[..n - 1];
      if RegistersAt(log, n - 1, user) {
        assert Registered(log, n, user);
      } else if Registered(log, n, user) {
        var k :| 0 <= k < n && RegistersAt(log, k, user);
        assert k < n - 1;
      }
      hide PasswordIn, RegistersAt;
      forall k | 0 <= k < n - 1 && FirstRegistration(log, k, user)
        ensures PasswordIn(log[..n - 1], user) == Some(log[k].call.password)
      {
      }
    }
  }

  lemma {:induction false} FirstExists(log: seq<Handled>, n: nat, user: Term) returns (k: nat)
    requires n <= |log| && Registered(log, n, user)
    ensures k < n && FirstRegistration(log, k, user)
    decreases n
  {
    hide RegistersAt;
    var j :| 0 <= j < n && RegistersAt(log, j, user);
    if Registered(log, j, user) {
      k := FirstExists(log, j, user);
    } else {
      k := j;
    }
  }

  /** The owners of sessions stay as they are. */
  lemma {:induction false} OwnersGrow(log: seq<Handled>, n: nat)
    requires n <= |log|
    ensures OwnersIn(log[..n]) <= OwnersIn(log)
    decreases |log| - n
  {
    if n == |log| {
      assert log[..n] == log;
    } else {
      OwnersGrow(log, n + 1);
      assert log[..n + 1][..n] == log[..n];
    }
  }

  lemma OwnersOfPart(log: seq<Handled>, n: nat, i: nat)
    requires n <= i <= |log|
    ensures OwnersIn(log[..n]) <= OwnersIn(log[..i])
  {
    OwnersGrow(log[..i], n);
    assert log[..i][..n] == log[..n];
  }

  /** And so do passwords: a name keeps the one it was first registered with. */
  lemma {:induction false} PasswordStays(log: seq<Handled>, n: nat, user: Term)
    requires n <= |log| && PasswordIn(log[..n], user).Some?
    ensures PasswordIn(log, user) == PasswordIn(log[..n], user)
    decreases |log| - n
  {
    if n == |log| {
      assert log[..n] == log;
    } else {
      assert log[..n + 1][..n] == log[..n];
      PasswordStays(log, n + 1, user);
    }
  }

  /** What a registration is told, by the entries before it. */
  ghost predicate RegistrationRight(log: seq<Handled>, i: nat)
    requires i < |log| && log[i].call.RegisterUser?
  {
    var h := log[i];
    && (h.reply == RegistrationOk <==> !Registered(log, i, h.call.user))
    && (h.reply == UserAlreadyExists <==> Registered(log, i, h.call.user))
  }

  /** What a log in is told: it succeeds exactly with the password of the first registration of the name. */
  ghost predicate LogInRight(log: seq<Handled>, i: nat)
    requires i < |log| && log[i].call.LogIn?
  {
    var h := log[i];
    var right := exists k :: 0 <= k < i && FirstRegistration(log, k, h.call.user)
                             && log[k].call.password == h.call.password;
    && (h.reply == NoSuchUser <==> !Registered(log, i, h.call.user))
    && (h.reply.LoggedIn? <==> right)
    && (h.reply == InvalidPassword <==> Registered(log, i, h.call.user) && !right)
  }

  lemma AccountsByLog(log: seq<Handled>, i: nat)
    requires i < |log| && Follows(log[..i], log[i])
    ensures log[i].call.RegisterUser? ==> RegistrationRight(log, i)
    ensures log[i].call.LogIn? ==> LogInRight(log, i)
  {
    hide PasswordIn, RegistersAt, OwnersIn, Registered, FirstRegistration;
    if log[i].call.RegisterUser? || log[i].call.LogIn? {
      var user := log[i].call.user;
      PasswordOfFirst(log, i, user);
      if Registered(log, i, user) {
        var k := FirstExists(log, i, user);
        assert FirstRegistration(log, k, user);
      }
    }
  }

  /** A session that a log in opened is new and belongs to the name. */
  lemma NewSession(log: seq<Handled>, i: nat)
    requires LogFollows(log) && i < |log| && log[i].call.LogIn? && log[i].reply.LoggedIn?
    ensures log[i].reply.sid < |OwnersIn(log)| && OwnersIn(log)[log[i].reply.sid] == log[i].call.user
    ensures forall j | 0 <= j < i && log[j].call.LogIn? && log[j].reply.LoggedIn? ::
              log[j].reply.sid < log[i].reply.sid
  {
    hide OwnersIn, Follows;
    OpenedAt(log, i);
    OwnersGrow(log, i + 1);
    forall j | 0 <= j < i && log[j].call.LogIn? && log[j].reply.LoggedIn?
      ensures log[j].reply.sid < log[i].reply.sid
    {
      OpenedAt(log, j);
      OwnersOfPart(log, j + 1, i);
    }
  }

  lemma OpenedAt(log: seq<Handled>, i: nat)
    requires LogFollows(log) && i < |log| && log[i].call.LogIn? && log[i].reply.LoggedIn?
    ensures log[i].reply.sid == |OwnersIn(log[..i])|
    ensures OwnersIn(log[..i + 1]) == OwnersIn(log[..i]) + [log[i].call.user]
  {
    hide PasswordIn;
    assert Follows(log[..i], log[i]);
    assert log[..i + 1][..i] == log[..i];
  }

  /**
   In every interleaving: a name is registered by the first call that gives it, and from then on
   exactly the password given then logs in, to a new session of that user; without a registration
   the name is not known.
   */
  lemma LogInIffPassword(events: seq<Event>, i: nat)
    requires Legal(INITIAL, events) && i < |After(INITIAL, events).log|
    ensures var s := After(INITIAL, events);
            && (s.log[i].call.RegisterUser? ==> RegistrationRight(s.log, i))
            && (s.log[i].call.LogIn? ==> LogInRight(s.log, i))
            && (s.log[i].call.LogIn? && s.log[i].reply.LoggedIn? ==>
                  && s.log[i].reply.sid < |s.sessions|
                  && s.sessions[s.log[i].reply.sid].owner == s.log[i].call.user
                  && forall j | 0 <= j < i && s.log[j].call.LogIn? && s.log[j].reply.LoggedIn? ::
                       s.log[j].reply.sid < s.log[i].reply.sid)
  {
    AnswersFollowLog(events);
    hide After, Legal, RegistrationRight, LogInRight, OwnersIn, Follows;
    var log := After(INITIAL, events).log;
    assert Follows(log[..i], log[i]);
    AccountsByLog(log, i);
    if log[i].call.LogIn? && log[i].reply.LoggedIn? {
      NewSession(log, i);
    }
  }

  /** No step of any run changes a password or the owner of a session. */
  lemma AccountsStay(events: seq<Event>, n: nat, user: Term)
    requires Legal(INITIAL, events) && n <= |After(INITIAL, events).log|
    ensures var s := After(INITIAL, events);
            && (PasswordIn(s.log[..n], user).Some? ==>
                  GetPasswordForUser(user, s.shop) == PasswordIn(s.log[..n], user))
            && |OwnersIn(s.log[..n])| <= |s.sessions|
            && forall sid | 0 <= sid < |OwnersIn(s.log[..n])| ::
                 s.sessions[sid].owner == OwnersIn(s.log[..n])[sid]
  {
    AnswersFollowLog(events);
    hide After, Legal, LogFollows, OwnersIn, PasswordIn, GetPasswordForUser;
    var log := After(INITIAL, events).log;
    OwnersGrow(log, n);
    if PasswordIn(log[..n], user).Some? {
      PasswordStays(log, n, user);
    }
  }
}
