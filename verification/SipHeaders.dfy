/**
 Max-Forwards goes down by one at every proxy, as item 3 of section 16.6 of RFC 3261 asks.
 */
module SipHeaders {
  import opened Text
  import opened SipText
  import opened SipForwarding
  import opened SipChain

  // ---------- Max-Forwards ----------

  /** The numbers in the Max-Forwards lines. */
  function Budgets(lines: seq<string>): seq<int> {
    if lines == [] then [] else Budget(lines[0]) + Budgets(lines[1..])
  }

  function Budget(line: string): seq<int> {
    if "Max-Forwards:" <= line then
      var n := ScanInt(line[|"Max-Forwards:"|..]);
      if n.Some? then [n.value] else []
    else []
  }

  function Lowered(budgets: seq<int>, amount: int): (r: seq<int>)
    ensures |r| == |budgets|
  {
    seq(|budgets|, i requires 0 <= i < |budgets| => budgets[i] - amount)
  }

  /** isspace in the C locale: the space, and the codes from tab to carriage return. */
  predicate AllSpaces(s: string) {
    forall i | 0 <= i < |s| :: s[i] == ' ' || 9 <= s[i] as int <= 13
  }

  lemma {:induction false} SkipSpaces(blanks: string, rest: string)
    requires AllSpaces(blanks) && (rest == "" || !AllSpaces(rest[..1]))
    ensures SkipBlanks(blanks + rest) == rest
  {
    if blanks == "" {
      assert blanks + rest == rest;
      assert rest != "" ==> rest[..1][0] == rest[0];
    } else {
      assert (blanks + rest)[1..] == blanks[1..] + rest;
      SkipSpaces(blanks[1..], rest);
    }
  }

  /** %d reads a number after any blanks, with a sign or without, up to the first other character, or else nothing. */
  lemma ScanReads(blanks: string, sign: string, digits: string, rest: string)
    requires AllSpaces(blanks) && sign in {"", "+", "-"} && AllDigits(digits)
    requires rest == "" || !IsDigit(rest[0])
    requires sign + digits == "" ==> rest == "" || (rest[0] !in {'+', '-'} && !AllSpaces(rest[..1]))
    ensures ScanInt(blanks + (sign + (digits + rest)))
         == if digits == "" then None else Some(if sign == "-" then -(Number(digits) as int) else Number(digits))
  {
    hide *;
    var tail := sign + (digits + rest);
    NoSpaceFirst(sign, digits, rest);
    SkipSpaces(blanks, tail);
    AfterSign(sign, digits, rest);
    LeadingDigitsOfNumber(digits, rest);
    ScanFrom(blanks + tail, tail, digits + rest);
  }

  /** What %d reads, once blanks and sign are skipped. */
  lemma ScanFrom(s: string, tail: string, unsigned: string)
    requires SkipBlanks(s) == tail
    requires unsigned == if tail != "" && (tail[0] == '-' || tail[0] == '+') then tail[1..] else tail
    ensures var digits := LeadingDigits(unsigned);
            var n: int := Number(digits);
            ScanInt(s) == if digits == "" then None else Some(if tail[0] == '-' then -n else n)
  {
    hide SkipBlanks, LeadingDigits, Number;
  }

  lemma AfterSign(sign: string, digits: string, rest: string)
    requires sign in {"", "+", "-"} && AllDigits(digits)
    requires sign + digits == "" ==> rest == "" || rest[0] !in {'+', '-'}
    ensures var tail := sign + (digits + rest);
            && digits + rest == (if tail != "" && (tail[0] == '-' || tail[0] == '+') then tail[1..] else tail)
            && (digits != "" ==> tail != "" && (tail[0] == '-' <==> sign == "-"))
  {
    var tail := sign + (digits + rest);
    if sign == "" {
      assert tail == digits + rest;
      assert digits != "" ==> tail[0] == digits[0] && IsDigit(digits[0]);
    } else {
      assert tail[1..] == digits + rest && tail[0] == sign[0];
    }
  }

  lemma NoSpaceFirst(sign: string, digits: string, rest: string)
    requires sign in {"", "+", "-"} && AllDigits(digits)
    requires sign + digits == "" ==> rest == "" || !AllSpaces(rest[..1])
    ensures var tail := sign + (digits + rest); tail == "" || !AllSpaces(tail[..1])
  {
    var tail := sign + (digits + rest);
    if sign != "" {
      assert tail[..1][0] == sign[0];
    } else if digits != "" {
      assert tail[..1][0] == digits[0];
    } else {
      assert tail == rest;
    }
  }

  lemma {:induction false} BudgetsConcat(x: seq<string>, y: seq<string>)
    ensures Budgets(x + y) == Budgets(x) + Budgets(y)
  {
    hide Budget;
    if x == [] {
      assert x + y == y;
    } else {
      BudgetsConcat(x[1..], y);
      assert (x + y)[1..] == x[1..] + y;
      Associative(Budget(x[0]), Budgets(x[1..]), Budgets(y));
    }
  }

  lemma BudgetsOfTwo(x: string, y: string)
    ensures Budgets([x]) == Budget(x) && Budgets([x, y]) == Budget(x) + Budget(y)
  {
    hide Budget;
    assert [x][1..] == [] && [x, y][1..] == [y] && [y][1..] == [];
    assert Budgets([y]) == Budget(y) + [];
    assert Budget(y) + [] == Budget(y) && Budget(x) + [] == Budget(x);
  }

  lemma NoBudget(line: string)
    requires !(MAX_FORWARDS <= line)
    ensures Budget(line) == [] && Lowered([], 1) == []
  {
  }

  lemma OneLowered(n: int)
    ensures Budget(MaxForwardsLine(n)) == [n - 1] == Lowered([n], 1)
  {
    PrintedScans(n);
    hide ScanInt, MaxForwardsLine;
  }

  lemma RecordRouteHasNone(serverIp: string)
    ensures !(MAX_FORWARDS <= RecordRouteLine(serverIp)) && !(MAX_FORWARDS <= ALLOW_LINE) && !(MAX_FORWARDS <= "")
  {
    assert RecordRouteLine(serverIp)[0] == 'R' && ALLOW_LINE[0] == 'A' && MAX_FORWARDS[0] == 'M';
  }

  lemma ScannedBudget(line: string, maxForw: Option<int>)
    requires MAX_FORWARDS <= line && HasNumber(line)
    ensures AfterLine(line, maxForw).Some? && Budget(line) == [AfterLine(line, maxForw).value]
  {
  }

  lemma OtherNamesHaveNone(line: string)
    ensures "Content-Length:" <= line || ALLOW <= line || IsDropped(line) ==> !(MAX_FORWARDS <= line)
  {
    NamesDiffer(line);
    assert "Content-Length:"[0] == 'C' && ALLOW[0] == 'A' && MAX_FORWARDS[0] == 'M';
  }

  lemma NoBudgets()
    ensures Budgets([]) == []
  {
  }

  lemma RewrittenBudget(line: string, own: string, maxForw: Option<int>)
    requires HasNumber(line) && IsVia(own)
    ensures var after := AfterLine(line, maxForw);
            && Rewritten(line, own, after).Some?
            && Budgets(Rewritten(line, own, after).value) == Lowered(Budget(line), 1)
  {
    hide *;
    var after := AfterLine(line, maxForw);
    NamesDiffer(line);
    OtherNamesHaveNone(line);
    RewrittenShape(line, own, after);
    if MAX_FORWARDS <= line {
      ScannedBudget(line, maxForw);
      OneLowered(after.value);
      BudgetsOfTwo(MaxForwardsLine(after.value), "");
    } else {
      RecordRouteHasNone("");
      NamesDiffer(own);
      NoBudget(line);
      NoBudget(own);
      NoBudget("");
      BudgetsOfTwo(own, line);
      BudgetsOfTwo(line, "");
      NoBudgets();
    }
  }

  lemma InviteRewrittenBudget(line: string, serverIp: string, maxForw: Option<int>)
    requires HasNumber(line)
    ensures var after := AfterLine(line, maxForw);
            && InviteRewritten(line, serverIp, after).Some?
            && Budgets(InviteRewritten(line, serverIp, after).value) == Lowered(Budget(line), 1)
  {
    hide *;
    var own, after := ServerVia(serverIp), AfterLine(line, maxForw);
    NamesDiffer(line);
    OtherNamesHaveNone(line);
    InviteShape(line, serverIp, after);
    RecordRouteHasNone(serverIp);
    if MAX_FORWARDS <= line {
      ScannedBudget(line, maxForw);
      OneLowered(after.value);
      NoBudget(RecordRouteLine(serverIp));
      BudgetsOfTwo(MaxForwardsLine(after.value), RecordRouteLine(serverIp));
    } else {
      ServerViaIsVia(serverIp);
      NamesDiffer(own);
      NoBudget(line);
      NoBudget(own);
      NoBudget(ALLOW_LINE);
      NoBudget("");
      BudgetsOfTwo(own, line);
      BudgetsOfTwo(line, "");
      BudgetsOfTwo(ALLOW_LINE, "");
      NoBudgets();
    }
  }

  lemma LoweredConcat(x: seq<int>, y: seq<int>, amount: int)
    ensures Lowered(x, amount) + Lowered(y, amount) == Lowered(x + y, amount)
  {
  }

  lemma LoweredTwice(x: seq<int>, a: int, b: int)
    ensures Lowered(Lowered(x, a), b) == Lowered(x, a + b) && Lowered(x, 0) == x
  {
  }

  /** A request whose numbers scan is forwarded, with every number one lower. */
  lemma {:induction false} RequestLowers(lines: seq<string>, own: string, maxForw: Option<int>)
    requires Scannable(lines) && IsVia(own)
    ensures Forwarded(lines, true, own, maxForw).Some?
    ensures var out := Forwarded(lines, true, own, maxForw).value;
            Scannable(out) && Budgets(out) == Lowered(Budgets(lines), 1)
    decreases |lines|
  {
    hide HasNumber, AfterLine, Rewritten, Budget, IsVia;
    if lines != [] {
      var after := AfterLine(lines[0], maxForw);
      RewrittenBudget(lines[0], own, maxForw);
      RewrittenScans(lines[0], own, maxForw);
      RequestLowers(lines[1..], own, after);
      var front, rest := Rewritten(lines[0], own, after).value, Forwarded(lines[1..], true, own, after).value;
      BudgetsConcat(front, rest);
      LoweredConcat(Budget(lines[0]), Budgets(lines[1..]), 1);
      hide Lowered;
    }
  }

  lemma InviteRewrittenScans(line: string, serverIp: string, maxForw: Option<int>)
    requires HasNumber(line)
    ensures var after := AfterLine(line, maxForw);
            InviteRewritten(line, serverIp, after).Some? && Scannable(InviteRewritten(line, serverIp, after).value)
  {
    hide *;
    var own, after := ServerVia(serverIp), AfterLine(line, maxForw);
    NumberKnown(line, maxForw);
    ServerViaIsVia(serverIp);
    NamesDiffer(own);
    RecordRouteHasNone(serverIp);
    InviteShape(line, serverIp, after);
    NoMaxHasNumber("");
    NoMaxHasNumber(ALLOW_LINE);
    NoMaxHasNumber(RecordRouteLine(serverIp));
    NoMaxHasNumber(own);
    if after.Some? {
      PrintedScans(after.value);
      ScannableFew(MaxForwardsLine(after.value), RecordRouteLine(serverIp));
    }
    ScannableFew(own, line);
    ScannableFew(line, "");
    ScannableFew(ALLOW_LINE, "");
  }

  lemma {:induction false} InviteLowers(lines: seq<string>, serverIp: string, maxForw: Option<int>)
    requires Scannable(lines)
    ensures Invited(lines, serverIp, maxForw).Some?
    ensures var out := Invited(lines, serverIp, maxForw).value;
            Scannable(out) && Budgets(out) == Lowered(Budgets(lines), 1)
    decreases |lines|
  {
    hide HasNumber, AfterLine, InviteRewritten, Budget;
    if lines != [] {
      var after := AfterLine(lines[0], maxForw);
      InviteRewrittenBudget(lines[0], serverIp, maxForw);
      InviteRewrittenScans(lines[0], serverIp, maxForw);
      InviteLowers(lines[1..], serverIp, after);
      var front, rest := InviteRewritten(lines[0], serverIp, after).value, Invited(lines[1..], serverIp, after).value;
      BudgetsConcat(front, rest);
      LoweredConcat(Budget(lines[0]), Budgets(lines[1..]), 1);
      hide Lowered;
    }
  }

  lemma {:induction false} NonEmptyBudgets(lines: seq<string>)
    ensures Budgets(NonEmpty(lines)) == Budgets(lines)
  {
    if lines != [] {
      NonEmptyBudgets(lines[1..]);
      RecordRouteHasNone("");
      NoBudget("");
      hide Budget;
      if lines[0] != "" {
        assert ([lines[0]] + NonEmpty(lines[1..]))[1..] == NonEmpty(lines[1..]);
      } else {
        assert [] + NonEmpty(lines[1..]) == NonEmpty(lines[1..]);
      }
    }
  }

  lemma InviteLineHasNone(request: string, client: Client)
    requires "INVITE" <= request
    ensures Lines(request) != [] && !(MAX_FORWARDS <= Lines(request)[0]) && !(MAX_FORWARDS <= InviteLine(client))
  {
    assert request[0] == 'I' && InviteLine(client)[0] == 'I' && MAX_FORWARDS[0] == 'M';
  }

  /** One proxy, on the datagram. */
  lemma RelayLowers(hop: Hop, request: string)
    requires PlainHop(hop) && Scannable(Lines(request))
    ensures Relay(hop, request).Some?
    ensures var out := Lines(Relay(hop, request).value);
            Scannable(out) && Budgets(out) == Lowered(Budgets(Lines(request)), 1)
  {
    var lines, own := Lines(request), ServerVia(hop.serverIp);
    ServerViaIsVia(hop.serverIp);
    LinesAreLines(request);
    if "INVITE" <= request {
      var first := InviteLine(hop.client);
      InviteLineIsLine(hop.client);
      InviteLineHasNone(request, hop.client);
      NoBudget(first);
      NoBudget(lines[0]);
      assert HasNumber(first);
      hide Lines, Invited, ServerVia, Unlines, NonEmpty, IsVia, InviteLine, IsLine, NoLineEnds, HasNumber, Budget;
      InviteLowers(lines[1..], hop.serverIp, None);
      var tail := Invited(lines[1..], hop.serverIp, None).value;
      InvitedAreLines(lines[1..], hop.serverIp, None);
      BudgetsAfterNone(lines);
      BudgetsAfterNone([first] + tail);
      assert ([first] + tail)[1..] == tail;
      ConcatLines([first], tail);
      DatagramLines([first] + tail);
      NonEmptyBudgets([first] + tail);
      NonEmptyScannable([first] + tail);
    } else {
      hide Lines, Forwarded, ServerVia, Unlines, NonEmpty, IsVia, IsLine, NoLineEnds, HasNumber, Budget;
      RequestLowers(lines, own, None);
      var out := Forwarded(lines, true, own, None).value;
      RequestLines(lines, true, own, None);
      DatagramLines(out);
      NonEmptyBudgets(out);
      NonEmptyScannable(out);
    }
  }

  lemma BudgetsAfterNone(lines: seq<string>)
    requires lines != [] && Budget(lines[0]) == []
    ensures Budgets(lines) == Budgets(lines[1..])
  {
    hide Budget;
    assert [] + Budgets(lines[1..]) == Budgets(lines[1..]);
  }

  /** A request whose numbers scan passes any chain of proxies, and each number falls by one per proxy. */
  lemma {:induction false} MaxForwardsCountsProxies(hops: seq<Hop>, request: string)
    requires (forall hop | hop in hops :: PlainHop(hop)) && Scannable(Lines(request))
    ensures RequestThrough(hops, request).Some?
    ensures Budgets(Lines(RequestThrough(hops, request).value)) == Lowered(Budgets(Lines(request)), |hops|)
  {
    hide Lines, Relay, PlainHop, Scannable, Budgets, Lowered;
    if hops == [] {
      LoweredTwice(Budgets(Lines(request)), 0, 0);
    } else {
      RelayLowers(hops[0], request);
      var next := Relay(hops[0], request).value;
      MaxForwardsCountsProxies(hops[1..], next);
      LoweredTwice(Budgets(Lines(request)), 1, |hops| - 1);
    }
  }
}
