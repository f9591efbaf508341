/**
 What forwarding does to the header lines other than Via and Max-Forwards: which are kept,
 in order, and what the INVITE form replaces.
 */
module SipOthers {
  import opened Text
  import opened SipText
  import opened SipForwarding
  import opened SipVia
  import opened SipChain

  // ---------- Forwarded messages ----------

  /** Lines that forwarding does not touch. */
  predicate IsOther(line: string) {
    line != "" && !("Via:" <= line) && !("Route" <= line) && !("Max-Forwards:" <= line)
  }

  function Others(lines: seq<string>): seq<string> {
    if lines == [] then [] else (if IsOther(lines[0]) then [lines[0]] else []) + Others(lines[1..])
  }

  lemma {:induction false} OthersConcat(x: seq<string>, y: seq<string>)
    ensures Others(x + y) == Others(x) + Others(y)
  {
    hide IsOther;
    if x == [] {
      assert x + y == y;
    } else {
      OthersConcat(x[1..], y);
      assert (x + y)[1..] == x[1..] + y;
      Associative(if IsOther(x[0]) then [x[0]] else [], Others(x[1..]), Others(y));
    }
  }

  lemma OthersOfTwo(x: string, y: string)
    ensures Others([x]) == if IsOther(x) then [x] else []
    ensures Others([x, y]) == Others([x]) + Others([y]) && Others([]) == []
  {
    hide IsOther;
    assert [x][1..] == [] && [x, y][1..] == [y];
  }

  lemma RewrittenOthers(line: string, own: string, maxForw: Option<int>)
    requires IsVia(own) && Rewritten(line, own, maxForw).Some?
    ensures Others(Rewritten(line, own, maxForw).value) == if IsOther(line) then [line] else []
  {
    hide *;
    RewrittenShape(line, own, maxForw);
    OthersOfTwo(own, line);
    OthersOfTwo(line, "");
    OthersOfTwo("", "");
    OtherKinds(line);
    OtherKinds(own);
    OtherKinds("");
    if maxForw.Some? {
      PrintedScans(maxForw.value);
      OtherKinds(MaxForwardsLine(maxForw.value));
      OthersOfTwo(MaxForwardsLine(maxForw.value), "");
    }
  }

  lemma OtherKinds(line: string)
    ensures "Route" <= line || MAX_FORWARDS <= line || IsVia(line) || line == "" ==> !IsOther(line)
  {
  }

  /** A request keeps all its other lines, in order. */
  lemma {:induction false} RequestKeepsOthers(lines: seq<string>, own: string, maxForw: Option<int>)
    requires IsVia(own) && Forwarded(lines, true, own, maxForw).Some?
    ensures Others(Forwarded(lines, true, own, maxForw).value) == Others(lines)
    decreases |lines|
  {
    hide IsVia, IsOther, AfterLine, Rewritten;
    if lines != [] {
      var after := AfterLine(lines[0], maxForw);
      RequestKeepsOthers(lines[1..], own, after);
      RewrittenOthers(lines[0], own, after);
      OthersConcat(Rewritten(lines[0], own, after).value, Forwarded(lines[1..], true, own, after).value);
    }
  }

  /** So does a response with an even number of contiguous Via lines. */
  lemma {:induction false} StatusKeepsOthers(lines: seq<string>, own: string, maxForw: Option<int>)
    requires IsVia(own) && Forwarded(lines, false, own, maxForw).Some?
    requires Contiguous(lines) && |Vias(lines)| % 2 == 0
    ensures Others(Forwarded(lines, false, own, maxForw).value) == Others(lines)
    decreases |lines|
  {
    if lines == [] {
    } else if IsVia(lines[0]) {
      EvenVias(lines);
      StatusKeepsOthers(lines[2..], own, maxForw);
      assert lines[1..][1..] == lines[2..] && !IsOther(lines[0]) && !IsOther(lines[1]);
      var out := Forwarded(lines[2..], false, own, maxForw).value;
      assert ([lines[1]] + out)[1..] == out;
      hide IsVia, IsOther, Contiguous, Vias;
    } else {
      var after := AfterLine(lines[0], maxForw);
      RestEven(lines);
      StatusKeepsOthers(lines[1..], own, after);
      RewrittenOthers(lines[0], own, after);
      hide IsVia, IsOther, AfterLine, Rewritten, Contiguous, Vias;
      OthersConcat(Rewritten(lines[0], own, after).value, Forwarded(lines[1..], false, own, after).value);
    }
  }

  predicate NoRoutes(lines: seq<string>) {
    forall i | 0 <= i < |lines| :: !("Route" <= lines[i])
  }

  lemma RewrittenHasNoRoute(line: string, own: string, maxForw: Option<int>)
    requires IsVia(own) && Rewritten(line, own, maxForw).Some?
    ensures NoRoutes(Rewritten(line, own, maxForw).value)
  {
    RewrittenShape(line, own, maxForw);
    assert "Via:"[0] == 'V' && "Route"[0] == 'R';
    if maxForw.Some? {
      PrintedScans(maxForw.value);
      NamesDiffer(MaxForwardsLine(maxForw.value));
    }
    hide Rewritten, MaxForwardsLine, ScanInt;
  }

  lemma NoRoutesConcat(x: seq<string>, y: seq<string>)
    requires NoRoutes(x) && NoRoutes(y)
    ensures NoRoutes(x + y)
  {
  }

  /** No line that begins "Route" is left in a request. */
  lemma {:induction false} RequestDropsRoutes(lines: seq<string>, own: string, maxForw: Option<int>)
    requires IsVia(own) && Forwarded(lines, true, own, maxForw).Some?
    ensures NoRoutes(Forwarded(lines, true, own, maxForw).value)
    decreases |lines|
  {
    hide IsVia, NoRoutes, AfterLine, Rewritten;
    if lines == [] {
      assert NoRoutes([]) by { NoLinesNoRoutes(); }
    } else {
      var after := AfterLine(lines[0], maxForw);
      RequestDropsRoutes(lines[1..], own, after);
      RewrittenHasNoRoute(lines[0], own, after);
      NoRoutesConcat(Rewritten(lines[0], own, after).value, Forwarded(lines[1..], true, own, after).value);
    }
  }

  lemma NoLinesNoRoutes()
    ensures NoRoutes([])
  {
  }

  lemma RestEven(lines: seq<string>)
    requires lines != [] && !IsVia(lines[0]) && Contiguous(lines) && |Vias(lines)| % 2 == 0
    ensures Contiguous(lines[1..]) && |Vias(lines[1..])| % 2 == 0
  {
    ViasOfFirst(lines);
    if ViasFirst(lines) {
      NoViasAreContiguous(lines[1..]);
    }
    hide IsVia;
  }

  lemma {:induction false} NonEmptyOthers(lines: seq<string>)
    ensures Others(NonEmpty(lines)) == Others(lines)
  {
    if lines != [] {
      NonEmptyOthers(lines[1..]);
      assert !IsOther("");
      hide IsOther;
      var rest := NonEmpty(lines[1..]);
      if lines[0] != "" {
        assert ([lines[0]] + rest)[1..] == rest;
      } else {
        assert [] + rest == rest && [] + Others(lines[1..]) == Others(lines[1..]);
      }
    }
  }

  /** On the datagrams: a request other than an INVITE reaches the next proxy with its other lines. */
  lemma RelayKeepsOthers(hop: Hop, request: string)
    requires PlainHop(hop) && !("INVITE" <= request) && Relay(hop, request).Some?
    ensures Others(Lines(Relay(hop, request).value)) == Others(Lines(request))
  {
    hide *;
    var lines, own := Lines(request), ServerVia(hop.serverIp);
    PlainServer(hop);
    ServerViaIsVia(hop.serverIp);
    LinesAreLines(request);
    PlainRelay(hop, request);
    var out := Forwarded(lines, true, own, None).value;
    RequestKeepsOthers(lines, own, None);
    RequestLines(lines, true, own, None);
    DatagramLines(out);
    NonEmptyOthers(out);
  }

  lemma PlainRelay(hop: Hop, request: string)
    requires !("INVITE" <= request) && Relay(hop, request).Some?
    ensures var out := Forwarded(Lines(request), true, ServerVia(hop.serverIp), None);
            out.Some? && Relay(hop, request).value == Unlines(out.value + [""])
  {
    hide Lines, Forwarded, ServerVia, Unlines;
  }

  /** And a response with an even number of contiguous Via lines. */
  lemma StatusRelayKeepsOthers(text: string, serverIp: string)
    requires NoLineEnds(serverIp) && Contiguous(Lines(text)) && |Vias(Lines(text))| % 2 == 0
    requires ForwardedText(text, false, serverIp).Some?
    ensures Others(Lines(ForwardedText(text, false, serverIp).value)) == Others(Lines(text))
  {
    hide *;
    var lines, own := Lines(text), ServerVia(serverIp);
    ServerViaIsVia(serverIp);
    LinesAreLines(text);
    StatusSent(text, serverIp);
    var out := Forwarded(lines, false, own, None).value;
    StatusKeepsOthers(lines, own, None);
    RequestLines(lines, false, own, None);
    DatagramLines(out);
    NonEmptyOthers(out);
  }

  lemma StatusSent(text: string, serverIp: string)
    requires ForwardedText(text, false, serverIp).Some?
    ensures var out := Forwarded(Lines(text), false, ServerVia(serverIp), None);
            out.Some? && ForwardedText(text, false, serverIp).value == Unlines(out.value + [""])
  {
    hide Lines, Forwarded, ServerVia, Unlines;
  }

  // ---------- Both forms, through a chain ----------

  /** Lines that neither form replaces, removes or adds. */
  predicate IsUntouched(line: string) {
    && IsOther(line) && !("Route:" <= line) && !("Supported:" <= line) && !("User-Agent:" <= line)
    && !("Allow:" <= line) && !("Record-Route:" <= line) && !("INVITE" <= line)
  }

  function Untouched(lines: seq<string>): seq<string> {
    if lines == [] then [] else (if IsUntouched(lines[0]) then [lines[0]] else []) + Untouched(lines[1..])
  }

  lemma {:induction false} UntouchedConcat(x: seq<string>, y: seq<string>)
    ensures Untouched(x + y) == Untouched(x) + Untouched(y)
  {
    hide IsUntouched;
    if x == [] {
      assert x + y == y;
    } else {
      UntouchedConcat(x[1..], y);
      assert (x + y)[1..] == x[1..] + y;
      Associative(if IsUntouched(x[0]) then [x[0]] else [], Untouched(x[1..]), Untouched(y));
    }
  }

  lemma UntouchedOfFew(x: string, y: string)
    ensures Untouched([]) == [] && Untouched([x]) == if IsUntouched(x) then [x] else []
    ensures Untouched([x, y]) == Untouched([x]) + Untouched([y])
  {
    hide IsUntouched;
    assert [x][1..] == [] && [x, y][1..] == [y];
  }

  /** The untouched lines are among the others. */
  lemma {:induction false} UntouchedOfOthers(lines: seq<string>)
    ensures Untouched(lines) == Untouched(Others(lines))
  {
    if lines != [] {
      UntouchedOfOthers(lines[1..]);
      var rest := Others(lines[1..]);
      assert ([lines[0]] + rest)[1..] == rest && [] + rest == rest;
      assert !IsOther(lines[0]) ==> !IsUntouched(lines[0]);
      hide IsOther, IsUntouched;
    }
  }

  const RECORD_ROUTE := "Record-Route:"

  lemma RecordRouteLiteral()
    ensures "Record-Route: <sip:" == RECORD_ROUTE + " <sip:"
  {
  }

  lemma AllowLiteral()
    ensures ALLOW_LINE == ALLOW + " INVITE, ACK, CANCEL, BYE"
  {
  }

  lemma InviteLiteral()
    ensures "INVITE sip:" == "INVITE" + " sip:"
  {
  }

  lemma AddedBegin(n: int, serverIp: string)
    ensures MAX_FORWARDS <= MaxForwardsLine(n) && RECORD_ROUTE <= RecordRouteLine(serverIp) && ALLOW <= ALLOW_LINE
  {
    hide *;
    AllowLiteral();
    PrintedScans(n);
    RecordRouteBegins(serverIp);
    Begins(ALLOW, " INVITE, ACK, CANCEL, BYE", ALLOW_LINE, "", "");
  }

  lemma RecordRouteBegins(serverIp: string)
    ensures RECORD_ROUTE <= RecordRouteLine(serverIp)
  {
    RecordRouteLiteral();
    Begins(RECORD_ROUTE, " <sip:", "Record-Route: <sip:", serverIp, ";lr>");
  }

  lemma InviteBegins(client: Client)
    ensures "INVITE" <= InviteLine(client)
  {
    InviteLiteral();
    assert "INVITE" <= "INVITE sip:" <= InviteLine(client);
  }

  lemma ReplacementsAreTouched(n: int, serverIp: string, own: string, client: Client)
    requires IsVia(own)
    ensures !IsUntouched(MaxForwardsLine(n)) && !IsUntouched(RecordRouteLine(serverIp)) && !IsUntouched(ALLOW_LINE)
    ensures !IsUntouched("") && !IsUntouched(own) && !IsUntouched(InviteLine(client))
  {
    AddedBegin(n, serverIp);
    InviteBegins(client);
    hide MaxForwardsLine, RecordRouteLine, InviteLine;
  }

  lemma InviteRewrittenUntouched(line: string, serverIp: string, maxForw: Option<int>)
    requires IsVia(ServerVia(serverIp)) && InviteRewritten(line, serverIp, maxForw).Some?
    ensures Untouched(InviteRewritten(line, serverIp, maxForw).value) == if IsUntouched(line) then [line] else []
  {
    hide *;
    var own, n := ServerVia(serverIp), if maxForw.Some? then maxForw.value else 0;
    InviteShape(line, serverIp, maxForw);
    ReplacementsAreTouched(n, serverIp, own, Client("", "", 0));
    UntouchedOfFew(own, line);
    UntouchedOfFew(line, "");
    UntouchedOfFew("", "");
    UntouchedOfFew(ALLOW_LINE, "");
    UntouchedOfFew(MaxForwardsLine(n), RecordRouteLine(serverIp));
    UntouchedOfFew(RecordRouteLine(serverIp), "");
    TouchedKinds(line);
  }

  lemma TouchedKinds(line: string)
    ensures IsDropped(line) || MAX_FORWARDS <= line || IsVia(line) || ALLOW <= line ==> !IsUntouched(line)
  {
    hide IsOther;
    OtherKinds(line);
  }

  /** An INVITE keeps all its other lines, in order, but for Supported, User-Agent, Allow and Record-Route. */
  lemma {:induction false} InviteKeepsUntouched(lines: seq<string>, serverIp: string, maxForw: Option<int>)
    requires IsVia(ServerVia(serverIp)) && Invited(lines, serverIp, maxForw).Some?
    ensures Untouched(Invited(lines, serverIp, maxForw).value) == Untouched(lines)
    decreases |lines|
  {
    hide IsVia, IsUntouched, AfterLine, InviteRewritten, ServerVia;
    if lines != [] {
      var after := AfterLine(lines[0], maxForw);
      InviteKeepsUntouched(lines[1..], serverIp, after);
      InviteRewrittenUntouched(lines[0], serverIp, after);
      UntouchedConcat(InviteRewritten(lines[0], serverIp, after).value, Invited(lines[1..], serverIp, after).value);
    }
  }

  /** How many lines begin so. */
  function Count(lines: seq<string>, start: string): nat {
    if lines == [] then 0 else (if start <= lines[0] then 1 else 0) + Count(lines[1..], start)
  }

  lemma {:induction false} CountConcat(x: seq<string>, y: seq<string>, start: string)
    ensures Count(x + y, start) == Count(x, start) + Count(y, start)
  {
    if x == [] {
      assert x + y == y;
    } else {
      CountConcat(x[1..], y, start);
      assert (x + y)[1..] == x[1..] + y;
    }
  }

  lemma CountOfFew(x: string, y: string, start: string)
    ensures Count([], start) == 0 && Count([x], start) == if start <= x then 1 else 0
    ensures Count([x, y], start) == Count([x], start) + Count([y], start)
  {
    assert [x][1..] == [] && [x, y][1..] == [y];
  }

  /**
   Nothing left of the dropped fields, every Allow line is the proxy's, and Record-Route lines
   are the proxy's or were there.
   */
  predicate InvitedForm(line: string, before: seq<string>, serverIp: string) {
    && !("Route:" <= line) && !("Supported:" <= line) && !("User-Agent:" <= line)
    && ("Allow:" <= line ==> line == "Allow: INVITE, ACK, CANCEL, BYE")
    && ("Record-Route:" <= line ==> line == RecordRouteLine(serverIp) || line in before)
  }

  predicate AsInvited(lines: seq<string>, before: seq<string>, serverIp: string) {
    forall i | 0 <= i < |lines| :: InvitedForm(lines[i], before, serverIp)
  }

  lemma AsInvitedMore(front: seq<string>, rest: seq<string>, line: string, before: seq<string>, serverIp: string)
    requires AsInvited(front, [line], serverIp) && AsInvited(rest, before, serverIp)
    ensures AsInvited(front + rest, [line] + before, serverIp)
  {
    hide RecordRouteLine;
  }

  lemma InvitedFormOf(line: string, before: seq<string>, serverIp: string)
    requires !IsDropped(line) && (ALLOW <= line ==> line == ALLOW_LINE)
    requires RECORD_ROUTE <= line ==> line == RecordRouteLine(serverIp) || line in before
    ensures InvitedForm(line, before, serverIp)
  {
    hide RecordRouteLine;
  }

  lemma StartsApart(line: string)
    ensures RECORD_ROUTE <= line || ALLOW <= line || IsVia(line) || "Content-Length:" <= line || line == "" ==>
              !(MAX_FORWARDS <= line) && !IsDropped(line)
    ensures MAX_FORWARDS <= line || ALLOW <= line || IsVia(line) || line == "" || "Content-Length:" <= line ==>
              !(RECORD_ROUTE <= line)
    ensures MAX_FORWARDS <= line || RECORD_ROUTE <= line || IsVia(line) || line == "" || "Content-Length:" <= line ==>
              !(ALLOW <= line)
    ensures IsDropped(line) ==> !(RECORD_ROUTE <= line) && !(ALLOW <= line) && !(MAX_FORWARDS <= line)
  {
    assert RECORD_ROUTE[0] == 'R' && RECORD_ROUTE[1] == 'e' && "Route:"[0] == 'R' && "Route:"[1] == 'o';
    assert ALLOW[0] == 'A' && "Via:"[0] == 'V' && MAX_FORWARDS[0] == 'M' && "Content-Length:"[0] == 'C'
        && "Supported:"[0] == 'S' && "User-Agent:"[0] == 'U';
  }

  lemma InviteRewrittenCounts(line: string, serverIp: string, maxForw: Option<int>)
    requires IsVia(ServerVia(serverIp)) && InviteRewritten(line, serverIp, maxForw).Some?
    ensures var front := InviteRewritten(line, serverIp, maxForw).value;
            && AsInvited(front, [line], serverIp)
            && Count(front, ALLOW) == Count([line], ALLOW)
            && Count(front, RECORD_ROUTE) == Count([line], RECORD_ROUTE) + Count([line], MAX_FORWARDS)
  {
    hide *;
    InviteShape(line, serverIp, maxForw);
    StartsApart(line);
    CountsOf(line, "");
    if IsDropped(line) {
      NothingInvited([line], serverIp);
    } else if MAX_FORWARDS <= line {
      var max, route := MaxForwardsLine(maxForw.value), RecordRouteLine(serverIp);
      AddedBegin(maxForw.value, serverIp);
      StartsApart(max);
      StartsApart(route);
      CountsOf(max, route);
      InvitedTwo(max, route, [line], serverIp);
    } else if IsVia(line) {
      StartsApart(ServerVia(serverIp));
      CountsOf(ServerVia(serverIp), line);
      InvitedTwo(ServerVia(serverIp), line, [line], serverIp);
    } else if ALLOW <= line {
      AddedBegin(0, serverIp);
      StartsApart(ALLOW_LINE);
      CountsOf(ALLOW_LINE, "");
      InvitedTwo(ALLOW_LINE, ALLOW_LINE, [line], serverIp);
    } else {
      StartsApart("");
      InvitedTwo(line, "", [line], serverIp);
    }
  }

  lemma NothingInvited(before: seq<string>, serverIp: string)
    ensures AsInvited([], before, serverIp) && Count([], ALLOW) == 0 && Count([], RECORD_ROUTE) == 0
  {
  }

  lemma InvitedTwo(x: string, y: string, before: seq<string>, serverIp: string)
    requires !IsDropped(x) && (ALLOW <= x ==> x == ALLOW_LINE)
    requires !IsDropped(y) && (ALLOW <= y ==> y == ALLOW_LINE)
    requires RECORD_ROUTE <= x ==> x == RecordRouteLine(serverIp) || x in before
    requires RECORD_ROUTE <= y ==> y == RecordRouteLine(serverIp) || y in before
    ensures AsInvited([x], before, serverIp) && AsInvited([x, y], before, serverIp)
  {
    InvitedFormOf(x, before, serverIp);
    InvitedFormOf(y, before, serverIp);
    hide InvitedForm;
  }

  lemma CountsOf(x: string, y: string)
    ensures Count([], ALLOW) == Count([], RECORD_ROUTE) == 0
    ensures Count([x], ALLOW) == (if ALLOW <= x then 1 else 0) && Count([y], ALLOW) == (if ALLOW <= y then 1 else 0)
    ensures Count([x], RECORD_ROUTE) == (if RECORD_ROUTE <= x then 1 else 0)
    ensures Count([y], RECORD_ROUTE) == (if RECORD_ROUTE <= y then 1 else 0)
    ensures Count([x], MAX_FORWARDS) == (if MAX_FORWARDS <= x then 1 else 0)
    ensures Count([y], MAX_FORWARDS) == (if MAX_FORWARDS <= y then 1 else 0)
    ensures Count([x, y], ALLOW) == Count([x], ALLOW) + Count([y], ALLOW)
    ensures Count([x, y], RECORD_ROUTE) == Count([x], RECORD_ROUTE) + Count([y], RECORD_ROUTE)
  {
    CountOfFew(x, y, ALLOW);
    CountOfFew(y, x, ALLOW);
    CountOfFew(x, y, RECORD_ROUTE);
    CountOfFew(y, x, RECORD_ROUTE);
    CountOfFew(x, y, MAX_FORWARDS);
    CountOfFew(y, x, MAX_FORWARDS);
    hide Count;
  }

  /**
   What the INVITE form does to the fields it does not keep: no Route, Supported or
   User-Agent line is left, every Allow line is the proxy's, and each Max-Forwards line
   brings one Record-Route line of the proxy.
   */
  lemma {:induction false} InviteReplaces(lines: seq<string>, serverIp: string, maxForw: Option<int>)
    requires IsVia(ServerVia(serverIp)) && Invited(lines, serverIp, maxForw).Some?
    ensures var out := Invited(lines, serverIp, maxForw).value;
            && AsInvited(out, lines, serverIp)
            && Count(out, "Allow:") == Count(lines, "Allow:")
            && Count(out, "Record-Route:") == Count(lines, "Record-Route:") + Count(lines, "Max-Forwards:")
    decreases |lines|
  {
    hide IsVia, IsDropped, AfterLine, InviteRewritten, ServerVia, InvitedForm;
    if lines != [] {
      var after := AfterLine(lines[0], maxForw);
      var front, rest := InviteRewritten(lines[0], serverIp, after).value, Invited(lines[1..], serverIp, after).value;
      InviteReplaces(lines[1..], serverIp, after);
      InviteRewrittenCounts(lines[0], serverIp, after);
      CountConcat(front, rest, ALLOW);
      CountConcat(front, rest, RECORD_ROUTE);
      assert lines == [lines[0]] + lines[1..];
      AsInvitedMore(front, rest, lines[0], lines[1..], serverIp);
      CountConcat([lines[0]], lines[1..], ALLOW);
      CountConcat([lines[0]], lines[1..], RECORD_ROUTE);
      CountConcat([lines[0]], lines[1..], MAX_FORWARDS);
      hide Count;
    }
  }

  lemma {:induction false} NonEmptyUntouched(lines: seq<string>)
    ensures Untouched(NonEmpty(lines)) == Untouched(lines)
  {
    if lines != [] {
      NonEmptyUntouched(lines[1..]);
      assert !IsUntouched("");
      hide IsUntouched;
      var rest := NonEmpty(lines[1..]);
      if lines[0] != "" {
        assert ([lines[0]] + rest)[1..] == rest;
      } else {
        assert [] + rest == rest && [] + Untouched(lines[1..]) == Untouched(lines[1..]);
      }
    }
  }

  lemma FirstIsTouched(line: string, rest: seq<string>)
    requires !IsUntouched(line)
    ensures Untouched([line] + rest) == Untouched(rest)
  {
    hide IsUntouched;
    assert ([line] + rest)[1..] == rest;
    assert [] + Untouched(rest) == Untouched(rest);
  }

  lemma InviteRelay(hop: Hop, request: string)
    requires "INVITE" <= request && Relay(hop, request).Some?
    ensures Lines(request) != [] && "INVITE" <= Lines(request)[0]
    ensures var tail := Invited(Lines(request)[1..], hop.serverIp, None);
            tail.Some? && Relay(hop, request).value == Unlines([InviteLine(hop.client)] + tail.value + [""])
  {
    InviteToken(request);
    hide Lines, Invited, Unlines, InviteLine;
  }

  lemma InviteToken(request: string)
    requires "INVITE" <= request
    ensures Lines(request) != [] && "INVITE" <= Lines(request)[0]
  {
    var n := TokenLength(request, LINE_ENDS);
    assert request[0] == 'I' && request[1] == 'N' && request[2] == 'V' && request[3] == 'I' && request[4] == 'T'
        && request[5] == 'E';
    assert n >= 6;
  }

  /** On the datagrams, for either form. */
  lemma RelayKeepsUntouched(hop: Hop, request: string)
    requires PlainHop(hop) && Relay(hop, request).Some?
    ensures Untouched(Lines(Relay(hop, request).value)) == Untouched(Lines(request))
  {
    hide *;
    var lines := Lines(request);
    if "INVITE" <= request {
      var first := InviteLine(hop.client);
      PlainServer(hop);
      PlainClient(hop);
      ServerViaIsVia(hop.serverIp);
      LinesAreLines(request);
      InviteRelay(hop, request);
      InviteLineIsLine(hop.client);
      ReplacementsAreTouched(0, "", ServerVia(hop.serverIp), hop.client);
      var tail := Invited(lines[1..], hop.serverIp, None).value;
      RestAreLines(lines, first);
      InviteKeepsUntouched(lines[1..], hop.serverIp, None);
      InvitedAreLines(lines[1..], hop.serverIp, None);
      ConcatLines([first], tail);
      DatagramLines([first] + tail);
      NonEmptyUntouched([first] + tail);
      FirstIsTouched(first, tail);
      InviteIsTouched(lines[0]);
      assert lines == [lines[0]] + lines[1..];
      FirstIsTouched(lines[0], lines[1..]);
    } else {
      RelayKeepsOthers(hop, request);
      UntouchedOfOthers(lines);
      UntouchedOfOthers(Lines(Relay(hop, request).value));
    }
  }

  lemma InviteIsTouched(line: string)
    requires "INVITE" <= line
    ensures !IsUntouched(line)
  {
  }

  lemma PlainClient(hop: Hop)
    requires PlainHop(hop)
    ensures NoLineEnds(hop.client.extension) && NoLineEnds(hop.client.ip)
  {
  }

  lemma RestAreLines(lines: seq<string>, first: string)
    requires lines != [] && AllLines(lines) && IsLine(first)
    ensures AllLines(lines[1..]) && AllLines([first])
  {
    hide IsLine;
  }

  /** Through any chain the untouched lines arrive, in order. */
  lemma {:induction false} UntouchedArrive(hops: seq<Hop>, request: string)
    requires (forall hop | hop in hops :: PlainHop(hop)) && RequestThrough(hops, request).Some?
    ensures Untouched(Lines(RequestThrough(hops, request).value)) == Untouched(Lines(request))
  {
    hide Lines, Relay, PlainHop, Untouched;
    if hops != [] {
      RelayKeepsUntouched(hops[0], request);
      UntouchedArrive(hops[1..], Relay(hops[0], request).value);
    }
  }
}
