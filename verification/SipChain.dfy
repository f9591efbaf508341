/**
 Requests through a chain of proxies and the response back, on the datagrams themselves:
 what each proxy sends is tokenised by the next one.
 */
module SipChain {
  import opened Text
  import opened SipText
  import opened SipForwarding
  import opened SipVia

  // ---------- Reading the datagrams back ----------

  predicate NoLineEnds(s: string) {
    forall i | 0 <= i < |s| :: s[i] !in LINE_ENDS
  }

  lemma NoEndsConcat(x: string, y: string)
    requires NoLineEnds(x) && NoLineEnds(y)
    ensures NoLineEnds(x + y)
  {
  }

  lemma ReplacementsAreLines(n: int, serverIp: string)
    requires NoLineEnds(serverIp)
    ensures IsLine(MaxForwardsLine(n)) && IsLine(RecordRouteLine(serverIp)) && IsLine(ALLOW_LINE)
  {
    hide *;
    MaxForwardsIsLine(n);
    RecordRouteIsLine(serverIp);
    AllowIsLine();
  }

  lemma MaxForwardsIsLine(n: int)
    ensures IsLine(MaxForwardsLine(n))
  {
    hide PrintInt;
    PrintedInt(n - 1);
    NoEndsConcat(MAX_FORWARDS, " ");
    NoEndsConcat(MAX_FORWARDS + " ", PrintInt(n - 1));
  }

  lemma RecordRouteIsLine(serverIp: string)
    requires NoLineEnds(serverIp)
    ensures IsLine(RecordRouteLine(serverIp))
  {
    NoEndsConcat("Record-Route: <sip:", serverIp);
    NoEndsConcat("Record-Route: <sip:" + serverIp, ";lr>");
  }

  lemma AllowIsLine()
    ensures IsLine(ALLOW_LINE)
  {
  }

  lemma ServerViaIsVia(serverIp: string)
    ensures IsVia(ServerVia(serverIp))
    ensures NoLineEnds(serverIp) ==> IsLine(ServerVia(serverIp))
  {
    ViaHead(serverIp);
    if NoLineEnds(serverIp) {
      NoEndsConcat("Via: SIP/2.0/UDP ", serverIp);
      NoEndsConcat("Via: SIP/2.0/UDP " + serverIp, ":5060;branch=z9hG4bK1234");
      hide IsVia;
    }
  }

  lemma ViaHead(serverIp: string)
    ensures IsVia(ServerVia(serverIp))
  {
    assert "Via: SIP/2.0/UDP " == "Via:" + " SIP/2.0/UDP ";
    Begins("Via:", " SIP/2.0/UDP ", "Via: SIP/2.0/UDP ", serverIp, ":5060;branch=z9hG4bK1234");
  }

  lemma Begins(start: string, rest: string, whole: string, a: string, b: string)
    requires whole == start + rest
    ensures start <= whole && start <= whole + a + b
  {
  }

  lemma PrintedInt(n: int)
    ensures NoLineEnds(PrintInt(n))
  {
    var s := Decimal(if n < 0 then -n else n);
    assert forall i | 0 <= i < |s| :: IsDigit(s[i]);
  }

  lemma ConcatLines(x: seq<string>, y: seq<string>)
    requires AllLines(x) && AllLines(y)
    ensures AllLines(x + y)
  {
    hide IsLine;
  }

  lemma {:induction false} RequestLines(lines: seq<string>, request: bool, own: string, maxForw: Option<int>)
    requires AllLines(lines) && IsLine(own) && Forwarded(lines, request, own, maxForw).Some?
    ensures AllLines(Forwarded(lines, request, own, maxForw).value)
    decreases |lines|
  {
    hide IsLine;
    if lines == [] {
    } else if IsVia(lines[0]) && !request {
      RequestLines(lines[2..], request, own, maxForw);
      assert lines[1..][1..] == lines[2..];
      hide Forwarded, IsVia;
      ConcatLines([lines[1]], Forwarded(lines[2..], request, own, maxForw).value);
    } else {
      var after := AfterLine(lines[0], maxForw);
      RequestLines(lines[1..], request, own, after);
      RewrittenLines(lines[0], own, after);
      hide Rewritten, AfterLine, IsVia;
      ConcatLines(Rewritten(lines[0], own, after).value, Forwarded(lines[1..], request, own, after).value);
    }
  }

  lemma RewrittenLines(line: string, own: string, maxForw: Option<int>)
    requires (line == "" || IsLine(line)) && IsLine(own) && Rewritten(line, own, maxForw).Some?
    ensures AllLines(Rewritten(line, own, maxForw).value)
  {
    if maxForw.Some? {
      ReplacementsAreLines(maxForw.value, "");
    }
    hide IsLine, MaxForwardsLine, IsVia;
  }

  lemma InviteRewrittenLines(line: string, serverIp: string, maxForw: Option<int>)
    requires (line == "" || IsLine(line)) && NoLineEnds(serverIp) && InviteRewritten(line, serverIp, maxForw).Some?
    ensures AllLines(InviteRewritten(line, serverIp, maxForw).value)
  {
    ReplacementsAreLines(if maxForw.Some? then maxForw.value else 0, serverIp);
    ServerViaIsVia(serverIp);
    hide IsLine, MaxForwardsLine, RecordRouteLine, ServerVia, IsVia, IsDropped, NoLineEnds;
  }

  lemma {:induction false} InvitedAreLines(lines: seq<string>, serverIp: string, maxForw: Option<int>)
    requires AllLines(lines) && NoLineEnds(serverIp) && Invited(lines, serverIp, maxForw).Some?
    ensures AllLines(Invited(lines, serverIp, maxForw).value)
    decreases |lines|
  {
    hide IsLine, NoLineEnds, InviteRewritten, AfterLine;
    if lines != [] {
      var after := AfterLine(lines[0], maxForw);
      InvitedAreLines(lines[1..], serverIp, after);
      InviteRewrittenLines(lines[0], serverIp, after);
      ConcatLines(InviteRewritten(lines[0], serverIp, after).value, Invited(lines[1..], serverIp, after).value);
    }
  }

  lemma LinesAreLines(text: string)
    ensures AllLines(Lines(text))
  {
    TokensAreTokens(text, LINE_ENDS);
  }

  // ---------- Empty lines do not matter ----------

  lemma {:induction false} NonEmptyConcat(x: seq<string>, y: seq<string>)
    ensures NonEmpty(x + y) == NonEmpty(x) + NonEmpty(y)
  {
    if x == [] {
      assert x + y == y;
    } else {
      NonEmptyConcat(x[1..], y);
      assert (x + y)[1..] == x[1..] + y;
      Associative(if x[0] == "" then [] else [x[0]], NonEmpty(x[1..]), NonEmpty(y));
    }
  }

  lemma {:induction false} NonEmptyVias(lines: seq<string>)
    ensures Vias(NonEmpty(lines)) == Vias(lines)
    ensures ViasFirst(lines) ==> ViasFirst(NonEmpty(lines))
    ensures Contiguous(lines) ==> Contiguous(NonEmpty(lines))
  {
    if lines != [] {
      NonEmptyVias(lines[1..]);
      ViasOfFirst(lines);
      ReplacementsAreNoVias(0, "");
      hide IsVia;
      var rest := NonEmpty(lines[1..]);
      if lines[0] != "" {
        var kept := [lines[0]] + rest;
        ViasOfFirst(kept);
        assert kept[1..] == rest;
      } else {
        assert [] + rest == rest;
        EmptyFirst(lines);
      }
    }
  }

  lemma EmptyFirst(lines: seq<string>)
    requires lines != [] && lines[0] == ""
    ensures !IsVia("") && Vias(lines) == Vias(lines[1..])
    ensures ViasFirst(lines) ==> ViasFirst(lines[1..])
    ensures Contiguous(lines) ==> Contiguous(lines[1..])
  {
    ViasOfFirst(lines);
    hide Vias;
    if Vias(lines[1..]) == [] {
      NoViasAreContiguous(lines[1..]);
    }
  }

  /** The datagram carries the lines it was printed from. */
  lemma DatagramLines(out: seq<string>)
    requires AllLines(out)
    ensures Lines(Unlines(out + [""])) == NonEmpty(out)
  {
    ConcatLines(out, [""]);
    LinesOfUnlines(out + [""]);
    NonEmptyConcat(out, [""]);
    assert [""][1..] == [];
    assert NonEmpty([""]) == [];
    assert NonEmpty(out) + [] == NonEmpty(out);
  }

  // ---------- A status through one proxy ----------

  predicate HasNumber(line: string) {
    MAX_FORWARDS <= line ==> ScanInt(line[|MAX_FORWARDS|..]).Some?
  }

  /** sscanf finds a number in every Max-Forwards line. */
  predicate Scannable(lines: seq<string>) {
    forall line | line in lines :: HasNumber(line)
  }

  lemma SkipOneBlank(t: string)
    requires t != "" && !IsBlank(t[0])
    ensures SkipBlanks(" " + t) == t
  {
    assert (" " + t)[1..] == t && SkipBlanks(t) == t;
  }

  lemma AllLeading(d: string)
    requires AllDigits(d)
    ensures LeadingDigits(d) == d
  {
    LeadingDigitsOfNumber(d, "");
    assert d + "" == d;
  }

  lemma ScanUnsigned(d: string)
    requires d != "" && AllDigits(d)
    ensures ScanInt(" " + d) == Some(Number(d) as int)
  {
    hide Number, LeadingDigits, SkipBlanks;
    assert IsDigit(d[0]);
    SkipOneBlank(d);
    AllLeading(d);
  }

  lemma ScanNegative(d: string)
    requires d != "" && AllDigits(d)
    ensures ScanInt(" " + ("-" + d)) == Some(-(Number(d) as int))
  {
    hide Number, LeadingDigits, SkipBlanks;
    SkipOneBlank("-" + d);
    assert ("-" + d)[1..] == d;
    AllLeading(d);
  }

  /** sscanf reads the number that sprintf wrote. */
  lemma ScanPrinted(n: int)
    ensures ScanInt(" " + PrintInt(n)) == Some(n)
  {
    var d := Decimal(if n < 0 then -n else n);
    NumberOfDecimal(if n < 0 then -n else n);
    hide ScanInt, Number, Decimal;
    if n < 0 {
      ScanNegative(d);
    } else {
      ScanUnsigned(d);
    }
  }

  lemma PrintedScans(n: int)
    ensures MAX_FORWARDS <= MaxForwardsLine(n) && ScanInt(MaxForwardsLine(n)[|MAX_FORWARDS|..]) == Some(n - 1)
    ensures HasNumber(MaxForwardsLine(n))
  {
    ScanPrinted(n - 1);
    hide ScanInt, PrintInt;
    assert MaxForwardsLine(n)[|MAX_FORWARDS|..] == " " + PrintInt(n - 1);
  }

  lemma RewrittenScans(line: string, own: string, maxForw: Option<int>)
    requires HasNumber(line) && IsVia(own)
    ensures var after := AfterLine(line, maxForw);
            Rewritten(line, own, after).Some? && Scannable(Rewritten(line, own, after).value)
  {
    hide *;
    var after := AfterLine(line, maxForw);
    NumberKnown(line, maxForw);
    NamesDiffer(own);
    RewrittenShape(line, own, after);
    NoMaxHasNumber("");
    NoMaxHasNumber(own);
    if after.Some? {
      PrintedScans(after.value);
      ScannableFew(MaxForwardsLine(after.value), "");
    }
    ScannableFew(own, line);
    ScannableFew(line, "");
  }

  lemma NumberKnown(line: string, maxForw: Option<int>)
    requires HasNumber(line)
    ensures MAX_FORWARDS <= line ==> AfterLine(line, maxForw).Some?
  {
    hide ScanInt;
  }

  lemma NoMaxHasNumber(line: string)
    ensures !(MAX_FORWARDS <= line) ==> HasNumber(line)
    ensures HasNumber("")
  {
  }

  lemma ScannableFew(x: string, y: string)
    requires HasNumber(x) && HasNumber(y)
    ensures Scannable([]) && Scannable([x]) && Scannable([x, y])
  {
    hide HasNumber;
  }

  /** Each popped Via line has a line after it, and every number scans: no undefined behaviour. */
  lemma {:induction false} StatusDefined(lines: seq<string>, own: string, maxForw: Option<int>)
    requires Contiguous(lines) && |Vias(lines)| % 2 == 0 && Scannable(lines) && IsVia(own)
    ensures Forwarded(lines, false, own, maxForw).Some?
    ensures Scannable(Forwarded(lines, false, own, maxForw).value)
    decreases |lines|
  {
    if lines == [] {
    } else if IsVia(lines[0]) {
      EvenVias(lines);
      StatusDefined(lines[2..], own, maxForw);
      assert lines[1..][1..] == lines[2..];
      hide IsVia, HasNumber;
    } else {
      var after := AfterLine(lines[0], maxForw);
      ViasOfFirst(lines);
      if ViasFirst(lines) {
        NoViasAreContiguous(lines[1..]);
      }
      StatusDefined(lines[1..], own, after);
      RewrittenScans(lines[0], own, maxForw);
      hide IsVia, HasNumber, Rewritten, AfterLine;
    }
  }

  lemma FirstVia(lines: seq<string>)
    requires Contiguous(lines) && lines != [] && IsVia(lines[0])
    ensures ViasFirst(lines[1..]) && Contiguous(lines[1..]) && |Vias(lines)| == 1 + |Vias(lines[1..])|
  {
    ViasOfFirst(lines);
    hide IsVia, Vias;
    assert ViasFirst(lines);
  }

  lemma EvenVias(lines: seq<string>)
    requires Contiguous(lines) && |Vias(lines)| % 2 == 0 && lines != [] && IsVia(lines[0])
    ensures |lines| >= 2 && IsVia(lines[1]) && Contiguous(lines[2..]) && |Vias(lines[2..])| % 2 == 0
  {
    hide *;
    FirstVia(lines);
    NextIsVia(lines[1..]);
    FirstVia(lines[1..]);
    assert lines[1..][1..] == lines[2..];
  }

  lemma NextIsVia(lines: seq<string>)
    requires ViasFirst(lines) && |Vias(lines)| % 2 == 1
    ensures lines != [] && IsVia(lines[0])
  {
    hide IsVia;
  }

  lemma {:induction false} NonEmptyScannable(lines: seq<string>)
    requires Scannable(lines)
    ensures Scannable(NonEmpty(lines))
  {
    hide HasNumber;
    if lines != [] {
      NonEmptyScannable(lines[1..]);
    }
  }

  /** A response that a proxy can take: its Via lines together, its numbers readable. */
  predicate Wellformed(lines: seq<string>) {
    Contiguous(lines) && Scannable(lines)
  }

  lemma StatusPopsText(text: string, serverIp: string)
    requires Wellformed(Lines(text)) && |Vias(Lines(text))| % 2 == 0 && NoLineEnds(serverIp)
    ensures ForwardedText(text, false, serverIp).Some?
    ensures var out := Lines(ForwardedText(text, false, serverIp).value);
            Wellformed(out) && Vias(out) == Pop(Vias(Lines(text)))
  {
    var lines, own := Lines(text), ServerVia(serverIp);
    ServerViaIsVia(serverIp);
    LinesAreLines(text);
    StatusDefined(lines, own, None);
    StatusPops(lines, own, None);
    RequestLines(lines, false, own, None);
    hide Lines, Forwarded, ServerVia, Unlines, NonEmpty, Contiguous, Scannable, AllLines, NoLineEnds;
    var out := Forwarded(lines, false, own, None).value;
    DatagramLines(out);
    NonEmptyVias(out);
    NonEmptyScannable(out);
  }

  // ---------- The chain ----------

  /** A proxy on the path of a request, and the client it has registered for the request's destination. */
  datatype Hop = Hop(serverIp: string, client: Client)

  /** The configured address and the registered client contain no line ends. */
  predicate PlainHop(hop: Hop) {
    NoLineEnds(hop.serverIp) && NoLineEnds(hop.client.extension) && NoLineEnds(hop.client.ip)
  }

  /** process_request: an INVITE has its own form. */
  function Relay(hop: Hop, request: string): Option<string> {
    if "INVITE" <= request then InvitedText(request, hop.client, hop.serverIp)
    else ForwardedText(request, true, hop.serverIp)
  }

  function RequestThrough(hops: seq<Hop>, request: string): Option<string> {
    if hops == [] then Some(request)
    else
      var next := Relay(hops[0], request);
      if next == None then None else RequestThrough(hops[1..], next.value)
  }

  /** The response takes the hops in reverse. */
  function StatusThrough(hops: seq<Hop>, status: string): Option<string> {
    if hops == [] then Some(status)
    else
      var next := StatusThrough(hops[1..], status);
      if next == None then None else ForwardedText(next.value, false, hops[0].serverIp)
  }

  lemma InviteFirst(request: string)
    requires "INVITE" <= request
    ensures Lines(request) != [] && !IsVia(Lines(request)[0])
  {
    assert request[0] == 'I' && "Via:"[0] == 'V';
  }

  lemma InviteLineIsLine(client: Client)
    requires NoLineEnds(client.extension) && NoLineEnds(client.ip)
    ensures IsLine(InviteLine(client)) && !IsVia(InviteLine(client))
  {
    var a := "INVITE sip:" + client.extension;
    var b := a + "@" + client.ip;
    var c := b + ":" + Decimal(client.port);
    PrintedInt(client.port);
    assert PrintInt(client.port) == Decimal(client.port);
    NoEndsConcat("INVITE sip:", client.extension);
    NoEndsConcat(a, "@");
    NoEndsConcat(a + "@", client.ip);
    NoEndsConcat(b, ":");
    NoEndsConcat(b + ":", Decimal(client.port));
    NoEndsConcat(c, " SIP/2.0");
    assert InviteLine(client)[0] == 'I' && "Via:"[0] == 'V';
  }

  lemma RelayPushes(hop: Hop, request: string)
    requires PlainHop(hop) && Relay(hop, request).Some?
    ensures Vias(Lines(Relay(hop, request).value)) == Push(Vias(Lines(request)), ServerVia(hop.serverIp))
  {
    var lines, own := Lines(request), ServerVia(hop.serverIp);
    ServerViaIsVia(hop.serverIp);
    LinesAreLines(request);
    if "INVITE" <= request {
      InviteFirst(request);
      InviteLineIsLine(hop.client);
      hide Lines, Invited, ServerVia, Unlines, NonEmpty, IsVia, InviteLine, IsLine, NoLineEnds;
      var first, tail := InviteLine(hop.client), Invited(lines[1..], hop.serverIp, None).value;
      InvitePushes(lines[1..], hop.serverIp, None);
      InvitedAreLines(lines[1..], hop.serverIp, None);
      ViasOfFirst(lines);
      ViasOfFirst([first] + tail);
      assert ([first] + tail)[1..] == tail;
      ConcatLines([first], tail);
      DatagramLines([first] + tail);
      NonEmptyVias([first] + tail);
    } else {
      hide Lines, Forwarded, ServerVia, Unlines, NonEmpty, IsVia, IsLine, NoLineEnds;
      RequestPushes(lines, own, None);
      RequestLines(lines, true, own, None);
      DatagramLines(Forwarded(lines, true, own, None).value);
      NonEmptyVias(Forwarded(lines, true, own, None).value);
    }
  }

  /**
   The far end copies the Via lines of the request it got into its response, in order and
   together.  Then the response passes the same proxies back, each one defined, and arrives
   with the Via lines the request set out with.
   */
  lemma {:induction false} ViaRoundTrip(hops: seq<Hop>, request: string, status: string)
    requires forall hop | hop in hops :: PlainHop(hop)
    requires RequestThrough(hops, request).Some?
    requires Vias(Lines(status)) == Vias(Lines(RequestThrough(hops, request).value))
    requires Wellformed(Lines(status))
    ensures StatusThrough(hops, status).Some?
    ensures var back := Lines(StatusThrough(hops, status).value);
            Vias(back) == Vias(Lines(request)) && Wellformed(back)
  {
    hide Lines, Relay, ForwardedText, Wellformed, PlainHop, ServerVia;
    if hops != [] {
      var next := Relay(hops[0], request).value;
      var vias, own := Vias(Lines(request)), ServerVia(hops[0].serverIp);
      RelayPushes(hops[0], request);
      ViaRoundTrip(hops[1..], next, status);
      PushLength(vias, own);
      PopUndoesPush(vias, own);
      PlainServer(hops[0]);
      StatusPopsText(StatusThrough(hops[1..], status).value, hops[0].serverIp);
    }
  }

  lemma PlainServer(hop: Hop)
    requires PlainHop(hop)
    ensures NoLineEnds(hop.serverIp)
  {
  }
}
