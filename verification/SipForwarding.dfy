/**
 How the proxy rewrites a message line by line: send_message_to_other_side in
 sip-proxy/src/forwarding.c and invite_other_client in sip-proxy/src/invite.c.
 */
module SipForwarding {
  import opened Text
  import opened SipText

  // ---------- Pieces of header lines ----------

  /** isspace. */
  predicate IsBlank(c: char) { c == ' ' || '\t' <= c <= '\r' }

  function SkipBlanks(s: string): string {
    if s != "" && IsBlank(s[0]) then SkipBlanks(s[1..]) else s
  }

  /** %d of sscanf: blanks, an optional sign, at least one digit. */
  function ScanInt(s: string): Option<int> {
    var t := SkipBlanks(s);
    var digits := if t != "" && (t[0] == '-' || t[0] == '+') then t[1..] else t;
    var n: int := Number(LeadingDigits(digits));
    if LeadingDigits(digits) == "" then None else Some(if t[0] == '-' then -n else n)
  }

  /** %d of sprintf. */
  function PrintInt(n: int): string {
    if n < 0 then "-" + Decimal(-n) else Decimal(n)
  }

  const MAX_FORWARDS := "Max-Forwards:"

  /** What max_forw holds after sscanf(line, "Max-Forwards: %d", &max_forw); None while it is uninitialised. */
  function ScanMaxForwards(line: string, maxForw: Option<int>): Option<int>
    requires MAX_FORWARDS <= line
  {
    var scanned := ScanInt(line[|MAX_FORWARDS|..]);
    if scanned.Some? then scanned else maxForw
  }

  function MaxForwardsLine(maxForw: int): string {
    MAX_FORWARDS + " " + PrintInt(maxForw - 1)
  }

  /** get_server_via without its line end. */
  function ServerVia(serverIp: string): string {
    "Via: SIP/2.0/UDP " + serverIp + ":5060;branch=z9hG4bK1234"
  }

  predicate IsVia(line: string) { "Via:" <= line }

  // ---------- Forwarding, as a function of the lines ----------

  function Prepend(front: seq<string>, rest: Option<seq<string>>): Option<seq<string>> {
    if rest == None then None else Some(front + rest.value)
  }

  /** max_forw after the given line. */
  function AfterLine(line: string, maxForw: Option<int>): Option<int> {
    if MAX_FORWARDS <= line then ScanMaxForwards(line, maxForw) else maxForw
  }

  /**
   The lines appended for one header line; an empty one is the blank line after
   Content-Length.  None: max_forw would be used uninitialised.
   */
  function Rewritten(line: string, own: string, maxForw: Option<int>): Option<seq<string>> {
    if "Route" <= line then Some([])
    else if IsVia(line) then Some([own, line])
    else if MAX_FORWARDS <= line then
      if maxForw == None then None else Some([MaxForwardsLine(maxForw.value)])
    else if "Content-Length:" <= line then Some([line, ""])
    else Some([line])
  }

  /** What is appended, by the kind of line. */
  lemma RewrittenShape(line: string, own: string, maxForw: Option<int>)
    ensures Rewritten(line, own, maxForw) == None ==> MAX_FORWARDS <= line && maxForw == None
    ensures Rewritten(line, own, maxForw).Some? ==>
              var front := Rewritten(line, own, maxForw).value;
              if "Route" <= line then front == []
              else if IsVia(line) then front == [own, line]
              else if MAX_FORWARDS <= line then maxForw.Some? && front == [MaxForwardsLine(maxForw.value)]
              else if "Content-Length:" <= line then front == [line, ""]
              else front == [line]
  {
    hide IsVia, MaxForwardsLine;
  }

  /**
   The lines send_message_to_other_side appends for the given header lines.  None is
   undefined behaviour: max_forw is used uninitialised, or a status ends with a Via line,
   so that strtok returns NULL for the line to keep in its place.
   */
  function Forwarded(lines: seq<string>, request: bool, own: string, maxForw: Option<int>): Option<seq<string>>
    decreases |lines|
  {
    if lines == [] then Some([])
    else
      var line, rest := lines[0], lines[1..];
      if IsVia(line) && !request then
        if rest == [] then None else Prepend([rest[0]], Forwarded(rest[1..], request, own, maxForw))
      else
        var after := AfterLine(line, maxForw);
        var front := Rewritten(line, own, after);
        if front == None then None else Prepend(front.value, Forwarded(rest, request, own, after))
  }

  /** The datagram: the forwarded lines and the final empty one. */
  function Datagram(lines: Option<seq<string>>): Option<string> {
    if lines == None then None else Some(Unlines(lines.value + [""]))
  }

  function ForwardedText(buffer: string, request: bool, serverIp: string): Option<string> {
    Datagram(Forwarded(Lines(buffer), request, ServerVia(serverIp), None))
  }

  /** The loop has appended done, and has the lines todo to go. */
  ghost predicate Progress(all: Option<seq<string>>, done: seq<string>, todo: Option<seq<string>>) {
    all == Prepend(done, todo)
  }

  lemma NothingPrepended(todo: Option<seq<string>>)
    ensures Prepend([], todo) == todo && Progress(todo, [], todo)
    ensures Unlines([]) == ""
  {
    if todo.Some? {
      assert [] + todo.value == todo.value;
    }
  }

  lemma AllDone(all: Option<seq<string>>, done: seq<string>)
    requires Progress(all, done, Some([]))
    ensures all == Some(done)
  {
    assert done + [] == done;
  }

  lemma NothingToPrepend(all: Option<seq<string>>, done: seq<string>)
    requires Progress(all, done, None)
    ensures all == None
  {
  }

  /** The lines of front were appended to the text of done. */
  lemma Appended(all: Option<seq<string>>, done: seq<string>, front: seq<string>, todo: Option<seq<string>>)
    requires Progress(all, done, Prepend(front, todo))
    ensures Progress(all, done + front, todo)
    ensures Unlines(done + front) == Unlines(done) + Unlines(front)
  {
    hide Unlines;
    UnlinesConcat(done, front);
    if todo.Some? {
      assert done + (front + todo.value) == done + front + todo.value;
    }
  }

  /** No line starts with two of these names. */
  lemma NamesDiffer(line: string)
    ensures "Route" <= line || "Route:" <= line || "Supported:" <= line || "User-Agent:" <= line || IsVia(line) ==>
              !(MAX_FORWARDS <= line)
  {
    assert "Max-Forwards:"[0] == 'M' && "Route"[0] == 'R' && "Route:"[0] == 'R' && "Supported:"[0] == 'S'
        && "User-Agent:"[0] == 'U' && "Via:"[0] == 'V';
  }

  lemma OneOrTwoLines(x: string, y: string)
    ensures Unlines([x]) == x + "\r\n"
    ensures Unlines([x, y]) == Unlines([x]) + Unlines([y])
  {
    assert [x][1..] == [];
    UnlinesConcat([x], [y]);
    assert [x] + [y] == [x, y];
  }

  /** Appending one line and its end, then maybe a second one. */
  method AppendLine(response: string, line: string, resLen: nat) returns (response': string, resLen': nat)
    requires resLen == |response|
    ensures response' == response + Unlines([line]) && resLen' == |response'|
  {
    OneOrTwoLines(line, line);
    response', resLen' := AppendToString(response, line, resLen);
    response', resLen' := AppendToString(response', "\r\n", resLen');
    assert response' == response + (line + "\r\n");
  }

  /**
   The loop body of send_message_to_other_side, except for the Via line of a status.
   Not defined: max_forw would be printed uninitialised.
   */
  method AppendRewritten(line: string, own: string, maxForw: Option<int>, response: string, resLen: nat)
    returns (defined: bool, maxForw': Option<int>, response': string, resLen': nat)
    requires resLen == |response|
    ensures maxForw' == AfterLine(line, maxForw)
    ensures defined == Rewritten(line, own, maxForw').Some? && resLen' == |response'|
    ensures defined ==> response' == response + Unlines(Rewritten(line, own, maxForw').value)
  {
    NamesDiffer(line);
    hide Unlines, ScanMaxForwards, MaxForwardsLine;
    defined, maxForw', response', resLen' := true, maxForw, response, resLen;
    var isRoute := StringBegins(line, "Route");
    if isRoute {
      NothingPrepended(None);
      return;
    }
    var isVia := StringBegins(line, "Via:");
    if isVia {
      OneOrTwoLines(own, line);
      response', resLen' := AppendLine(response, own, resLen);
      response', resLen' := AppendLine(response', line, resLen');
      Associative(response, Unlines([own]), Unlines([line]));
      return;
    }
    var isMaxForwards := StringBegins(line, MAX_FORWARDS);
    if isMaxForwards {
      maxForw' := ScanMaxForwards(line, maxForw);
      if maxForw' == None {
        defined := false;
      } else {
        response', resLen' := AppendLine(response, MaxForwardsLine(maxForw'.value), resLen);
      }
      return;
    }
    response', resLen' := AppendLine(response, line, resLen);
    var isContentLength := StringBegins(line, "Content-Length:");
    if isContentLength {
      OneOrTwoLines(line, "");
      response', resLen' := AppendLine(response', "", resLen');
      Associative(response, Unlines([line]), Unlines([""]));
    }
  }

  /**
   send_message_to_other_side: nothing is sent when the destination is not registered.
   Otherwise sent is the datagram; not defined: the behaviour is undefined.
   */
  method SendMessageToOtherSide(buffer: string, request: bool, serverIp: string, registered: bool)
    returns (defined: bool, sent: Option<string>)
    ensures !registered ==> defined && sent == None
    ensures registered ==> defined == ForwardedText(buffer, request, serverIp).Some?
    ensures registered ==> sent == ForwardedText(buffer, request, serverIp)
  {
    if !registered {
      return true, None;
    }
    sent := ForwardRegistered(buffer, request, serverIp);
    defined := sent.Some?;
  }

  /** The loop of send_message_to_other_side; None for undefined behaviour. */
  method ForwardRegistered(buffer: string, request: bool, serverIp: string) returns (sent: Option<string>)
    ensures sent == ForwardedText(buffer, request, serverIp)
  {
    hide Lines, Rewritten, AfterLine, ServerVia, Unlines, Prepend, Progress;
    var strtok := new Tokenizer();
    var response, resLen := "", 0;
    var maxForw: Option<int> := None;
    var own := ServerVia(serverIp);
    ghost var all := Forwarded(Lines(buffer), request, own, None);
    ghost var done: seq<string> := [];
    NothingPrepended(all);
    var line := strtok.First(buffer);
    ghost var todo := Lines(buffer);
    while line.Some?
      invariant strtok.Valid() && fresh(strtok)
      invariant line == if todo == [] then None else Some(todo[0])
      invariant todo != [] ==> strtok.Remaining() == todo[1..]
      invariant response == Unlines(done) && resLen == |response|
      invariant Progress(all, done, Forwarded(todo, request, own, maxForw))
      decreases |todo|
    {
      ghost var next := todo[1..];
      var isVia := StringBegins(line.value, "Via:");
      if isVia && !request {
        line := strtok.Next();
        if line == None {
          NothingToPrepend(all, done);
          return None;
        }
        response, resLen := AppendLine(response, line.value, resLen);
        Appended(all, done, [line.value], Forwarded(next[1..], request, own, maxForw));
        done, todo := done + [line.value], next[1..];
      } else {
        ghost var front := Rewritten(line.value, own, AfterLine(line.value, maxForw));
        var defined;
        defined, maxForw, response, resLen := AppendRewritten(line.value, own, maxForw, response, resLen);
        if !defined {
          NothingToPrepend(all, done);
          return None;
        }
        Appended(all, done, front.value, Forwarded(next, request, own, maxForw));
        done, todo := done + front.value, next;
      }
      line := strtok.Next();
    }
    AllDone(all, done);
    UnlinesConcat(done, [""]);
    response, resLen := AppendLine(response, "", resLen);
    sent := Some(response);
  }

  // ---------- The INVITE form ----------

  /** Where the invited client is reached. */
  datatype Client = Client(extension: string, ip: string, port: nat)

  function InviteLine(client: Client): string {
    "INVITE sip:" + client.extension + "@" + client.ip + ":" + Decimal(client.port) + " SIP/2.0"
  }

  function RecordRouteLine(serverIp: string): string {
    "Record-Route: <sip:" + serverIp + ";lr>"
  }

  const ALLOW := "Allow:"
  const ALLOW_LINE := "Allow: INVITE, ACK, CANCEL, BYE"

  /** Header lines invite_other_client leaves out. */
  predicate IsDropped(line: string) {
    "Route:" <= line || "Supported:" <= line || "User-Agent:" <= line
  }

  /** The lines invite_other_client appends for one header line. */
  function InviteRewritten(line: string, serverIp: string, maxForw: Option<int>): Option<seq<string>> {
    if IsDropped(line) then Some([])
    else if MAX_FORWARDS <= line then
      if maxForw == None then None else Some([MaxForwardsLine(maxForw.value), RecordRouteLine(serverIp)])
    else if IsVia(line) then Some([ServerVia(serverIp), line])
    else if ALLOW <= line then Some([ALLOW_LINE])
    else if "Content-Length:" <= line then Some([line, ""])
    else Some([line])
  }

  lemma InviteShape(line: string, serverIp: string, maxForw: Option<int>)
    ensures InviteRewritten(line, serverIp, maxForw) == None ==> MAX_FORWARDS <= line && maxForw == None
    ensures InviteRewritten(line, serverIp, maxForw).Some? ==>
              var front := InviteRewritten(line, serverIp, maxForw).value;
              if IsDropped(line) then front == []
              else if MAX_FORWARDS <= line then
                maxForw.Some? && front == [MaxForwardsLine(maxForw.value), RecordRouteLine(serverIp)]
              else if IsVia(line) then front == [ServerVia(serverIp), line]
              else if ALLOW <= line then front == [ALLOW_LINE]
              else if "Content-Length:" <= line then front == [line, ""]
              else front == [line]
  {
    hide IsVia, IsDropped, MaxForwardsLine, RecordRouteLine, ServerVia;
  }

  /** What it appends for all lines after the first. */
  function Invited(lines: seq<string>, serverIp: string, maxForw: Option<int>): Option<seq<string>>
    decreases |lines|
  {
    if lines == [] then Some([])
    else
      var after := AfterLine(lines[0], maxForw);
      var front := InviteRewritten(lines[0], serverIp, after);
      if front == None then None else Prepend(front.value, Invited(lines[1..], serverIp, after))
  }

  function InvitedLines(lines: seq<string>, client: Client, serverIp: string): Option<seq<string>> {
    Prepend([InviteLine(client)], Invited(if lines == [] then [] else lines[1..], serverIp, None))
  }

  function InvitedText(buffer: string, client: Client, serverIp: string): Option<string> {
    Datagram(InvitedLines(Lines(buffer), client, serverIp))
  }

  /** The loop body of invite_other_client. */
  method AppendInviteRewritten(line: string, serverIp: string, maxForw: Option<int>, response: string, resLen: nat)
    returns (defined: bool, maxForw': Option<int>, response': string, resLen': nat)
    requires resLen == |response|
    ensures maxForw' == AfterLine(line, maxForw)
    ensures defined == InviteRewritten(line, serverIp, maxForw').Some? && resLen' == |response'|
    ensures defined ==> response' == response + Unlines(InviteRewritten(line, serverIp, maxForw').value)
  {
    NamesDiffer(line);
    hide Unlines, ScanMaxForwards, MaxForwardsLine, RecordRouteLine, ServerVia;
    defined, maxForw', response', resLen' := true, maxForw, response, resLen;
    var isRoute := StringBegins(line, "Route:");
    var isSupported := StringBegins(line, "Supported:");
    var isUserAgent := StringBegins(line, "User-Agent:");
    if isRoute || isSupported || isUserAgent {
      NothingPrepended(None);
      return;
    }
    var isMaxForwards := StringBegins(line, MAX_FORWARDS);
    if isMaxForwards {
      maxForw' := ScanMaxForwards(line, maxForw);
      if maxForw' == None {
        defined := false;
      } else {
        var decremented, recordRoute := MaxForwardsLine(maxForw'.value), RecordRouteLine(serverIp);
        OneOrTwoLines(decremented, recordRoute);
        response', resLen' := AppendLine(response, decremented, resLen);
        response', resLen' := AppendLine(response', recordRoute, resLen');
        Associative(response, Unlines([decremented]), Unlines([recordRoute]));
      }
      return;
    }
    var isVia := StringBegins(line, "Via:");
    if isVia {
      var own := ServerVia(serverIp);
      OneOrTwoLines(own, line);
      response', resLen' := AppendLine(response, own, resLen);
      response', resLen' := AppendLine(response', line, resLen');
      Associative(response, Unlines([own]), Unlines([line]));
      return;
    }
    var isAllow := StringBegins(line, ALLOW);
    if isAllow {
      response', resLen' := AppendLine(response, ALLOW_LINE, resLen);
      return;
    }
    response', resLen' := AppendLine(response, line, resLen);
    var isContentLength := StringBegins(line, "Content-Length:");
    if isContentLength {
      OneOrTwoLines(line, "");
      response', resLen' := AppendLine(response', "", resLen');
      Associative(response, Unlines([line]), Unlines([""]));
    }
  }

  /** invite_other_client; None for undefined behaviour. */
  method InviteOtherClient(buffer: string, client: Client, serverIp: string) returns (sent: Option<string>)
    ensures sent == InvitedText(buffer, client, serverIp)
  {
    hide Lines, InviteRewritten, AfterLine, InviteLine, Unlines, Prepend, Progress;
    var strtok := new Tokenizer();
    var maxForw: Option<int> := None;
    ghost var todo := if Lines(buffer) == [] then [] else Lines(buffer)[1..];
    ghost var all := InvitedLines(Lines(buffer), client, serverIp);
    ghost var done := [InviteLine(client)];
    var response, resLen := AppendLine("", InviteLine(client), 0);
    FirstLine(InviteLine(client), Invited(todo, serverIp, maxForw));
    var line := strtok.First(buffer); // skip first line
    line := strtok.Next();
    while line.Some?
      invariant strtok.Valid() && fresh(strtok)
      invariant line == if todo == [] then None else Some(todo[0])
      invariant todo != [] ==> strtok.Remaining() == todo[1..]
      invariant response == Unlines(done) && resLen == |response|
      invariant Progress(all, done, Invited(todo, serverIp, maxForw))
      decreases |todo|
    {
      ghost var front := InviteRewritten(line.value, serverIp, AfterLine(line.value, maxForw));
      var defined;
      defined, maxForw, response, resLen := AppendInviteRewritten(line.value, serverIp, maxForw, response, resLen);
      if !defined {
        NothingToPrepend(all, done);
        return None;
      }
      Appended(all, done, front.value, Invited(todo[1..], serverIp, maxForw));
      done, todo := done + front.value, todo[1..];
      line := strtok.Next();
    }
    AllDone(all, done);
    UnlinesConcat(done, [""]);
    response, resLen := AppendLine(response, "", resLen);
    sent := Some(response);
  }

  lemma FirstLine(line: string, todo: Option<seq<string>>)
    ensures Progress(Prepend([line], todo), [line], todo)
    ensures "" + Unlines([line]) == Unlines([line])
  {
  }
}
