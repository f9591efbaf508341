/**
 What the invited client is sent, read back: get_string_between_chars and the readers made of
 it in sip-proxy/src/misc.c, on the request line and the Record-Route line that
 invite_other_client prints.
 */
module SipInvite {
  import opened Text
  import opened SipText
  import opened SipForwarding
  import opened SipChain

  // ---------- Readers ----------

  /** What stands before the first c2; None if there is none. */
  function UpTo(src: string, c2: char, inclC2: bool): Option<string> {
    if src == "" then None
    else if src[0] == c2 then Some(if inclC2 then [c2] else "")
    else
      var rest := UpTo(src[1..], c2, inclC2);
      if rest == None then None else Some([src[0]] + rest.value)
  }

  /** What stands between the first c1 and the first c2 after it; None if one is missing. */
  function Between(src: string, c1: char, c2: char, inclC2: bool): Option<string> {
    if src == "" then None
    else if src[0] == c1 then UpTo(src[1..], c2, inclC2)
    else Between(src[1..], c1, c2, inclC2)
  }

  lemma NothingFound(c1: char, c2: char, inclC2: bool)
    ensures Between("", c1, c2, inclC2) == None && UpTo("", c2, inclC2) == None
  {
  }

  /**
   get_string_between_chars.  None: a character is missing, and what the static buffer held
   before shows through.
   */
  method GetStringBetweenChars(src: string, c1: char, c2: char, inclC2: bool) returns (result: Option<string>)
    ensures result == Between(src, c1, c2, inclC2)
    ensures result.Some? ==> exists x, y, z ::
              src == x + [c1] + y + [c2] + z && c1 !in x && c2 !in y && result.value == if inclC2 then y + [c2] else y
  {
    var copying, copied := false, "";
    var i, start := 0, 0;
    assert src[0..] == src;
    while i < |src|
      invariant 0 <= i <= |src|
      invariant !copying ==> copied == "" && Between(src, c1, c2, inclC2) == Between(src[i..], c1, c2, inclC2)
      invariant !copying ==> c1 !in src[..i]
      invariant copying ==> 0 < start <= i && src[start - 1] == c1 && c1 !in src[..start - 1]
      invariant copying ==> copied == src[start..i] && c2 !in copied
      invariant copying ==> Between(src, c1, c2, inclC2) == Continued(copied, UpTo(src[i..], c2, inclC2))
    {
      assert src[i..][1..] == src[i + 1..];
      if copying {
        if src[i] == c2 {
          result := Some(if inclC2 then copied + [c2] else copied);
          Parts(src, start, i);
          assert copied + "" == copied;
          return;
        }
        OneMoreCopied(copied, src[i], UpTo(src[i + 1..], c2, inclC2));
        copied := copied + [src[i]];
      } else if src[i] == c1 {
        copying, start := true, i + 1;
        NothingCopied(UpTo(src[i + 1..], c2, inclC2));
      }
      i := i + 1;
    }
    NothingFound(c1, c2, inclC2);
    result := None;
  }

  lemma Parts(src: string, start: nat, i: nat)
    requires 0 < start <= i < |src|
    ensures src == src[..start - 1] + [src[start - 1]] + src[start..i] + [src[i]] + src[i + 1..]
  {
  }

  function Continued(copied: string, rest: Option<string>): Option<string> {
    if rest == None then None else Some(copied + rest.value)
  }

  lemma OneMoreCopied(copied: string, c: char, rest: Option<string>)
    ensures Continued(copied, Continued([c], rest)) == Continued(copied + [c], rest)
  {
    if rest.Some? {
      assert copied + ([c] + rest.value) == copied + [c] + rest.value;
    }
  }

  lemma NothingCopied(rest: Option<string>)
    ensures Continued("", rest) == rest
  {
    if rest.Some? {
      assert "" + rest.value == rest.value;
    }
  }

  lemma UpToFirst(s: string, c2: char, inclC2: bool)
    requires s != "" && s[0] != c2
    ensures UpTo(s, c2, inclC2) == Continued([s[0]], UpTo(s[1..], c2, inclC2))
  {
  }

  lemma {:induction false} UpToIs(y: string, c2: char, z: string, inclC2: bool)
    requires c2 !in y
    ensures UpTo(y + [c2] + z, c2, inclC2) == Some(if inclC2 then y + [c2] else y)
  {
    var s := y + [c2] + z;
    if y == "" {
      assert s[0] == c2 && y + [c2] == [c2];
    } else {
      assert s[0] == y[0] && s[1..] == y[1..] + [c2] + z;
      UpToIs(y[1..], c2, z, inclC2);
      hide UpTo;
      assert [y[0]] + (y[1..] + [c2]) == y + [c2] && [y[0]] + y[1..] == y;
      UpToFirst(s, c2, inclC2);
    }
  }

  lemma {:induction false} BetweenIs(x: string, c1: char, y: string, c2: char, z: string, inclC2: bool)
    requires c1 !in x && c2 !in y
    ensures Between(x + [c1] + (y + [c2] + z), c1, c2, inclC2) == Some(if inclC2 then y + [c2] else y)
  {
    var rest := y + [c2] + z;
    if x == "" {
      assert (x + [c1] + rest)[1..] == rest;
      UpToIs(y, c2, z, inclC2);
    } else {
      assert (x + [c1] + rest)[1..] == x[1..] + [c1] + rest;
      BetweenIs(x[1..], c1, y, c2, z, inclC2);
    }
  }

  /** get_extension_from_line. */
  function ExtensionOf(line: string): Option<string> {
    var tmp := Between(line, 's', '@', true);
    if tmp == None then None else Between(tmp.value, ':', '@', false)
  }

  function FirstWhich(lines: seq<string>, pre: string): Option<string> {
    if lines == [] then None else if pre <= lines[0] then Some(lines[0]) else FirstWhich(lines[1..], pre)
  }

  /** get_line_which_begins. */
  function LineWhichBegins(buffer: string, pre: string): Option<string> { FirstWhich(Lines(buffer), pre) }

  /** get_extension_from_message(buffer, "INVITE"). */
  function InvitedUser(buffer: string): Option<string> {
    var line := LineWhichBegins(buffer, "INVITE");
    if line == None then None else ExtensionOf(line.value)
  }

  /** What stands after the last c, or all if there is none. */
  function AfterLast(s: string, c: char): string {
    if c in s then AfterLast(s[1..], c) else s
  }

  // ---------- The request line ----------

  lemma {:induction false} AfterLastIs(x: string, c: char, y: string)
    requires c !in y
    ensures AfterLast(x + [c] + y, c) == y
  {
    var s := x + [c] + y;
    assert s[|x|] == c;
    if x == "" {
      assert s[1..] == y;
    } else {
      assert s[1..] == x[1..] + [c] + y;
      AfterLastIs(x[1..], c, y);
    }
  }

  lemma Regrouped(extension: string, ip: string, port: string)
    ensures var line := "INVITE sip:" + extension + "@" + ip + ":" + port + " SIP/2.0";
            && line == "INVITE " + ['s'] + ("ip:" + extension + ['@'] + (ip + ":" + port + " SIP/2.0"))
            && line == "INVITE sip:" + extension + ['@'] + (ip + [':'] + (port + " SIP/2.0"))
            && line == "INVITE sip:" + extension + "@" + ip + [':'] + (port + " SIP/2.0")
  {
    assert "INVITE sip:" == "INVITE " + ['s'] + "ip:";
  }

  lemma ExtensionReadsBack(extension: string, rest: string)
    requires '@' !in extension
    ensures ExtensionOf("INVITE " + ['s'] + ("ip:" + extension + ['@'] + rest)) == Some(extension)
  {
    assert 's' !in "INVITE " && '@' !in "ip:" && ':' !in "ip" && "ip:" == "ip" + [':'];
    BetweenIs("INVITE ", 's', "ip:" + extension, '@', rest, true);
    BetweenIs("ip", ':', extension, '@', "", false);
    hide Between;
    assert "ip:" + extension + ['@'] == "ip" + [':'] + (extension + ['@'] + "");
  }

  lemma PortReadsBack(front: string, port: nat)
    ensures ToI(AfterLast(front + [':'] + (Decimal(port) + " SIP/2.0"), ':')) == port
  {
    hide Decimal, Number, AfterLast;
    assert ':' !in " SIP/2.0" && !IsDigit(" SIP/2.0"[0]);
    NoColonIn(Decimal(port), " SIP/2.0");
    AfterLastIs(front, ':', Decimal(port) + " SIP/2.0");
    LeadingDigitsOfNumber(Decimal(port), " SIP/2.0");
    NumberOfDecimal(port);
  }

  lemma NoColonIn(digits: string, rest: string)
    requires AllDigits(digits) && ':' !in rest
    ensures ':' !in digits + rest
  {
  }

  /**
   The request line of an INVITE that was sent names the registered client: its extension,
   read as the proxy itself reads it, its address and its port.
   */
  lemma InviteReadsBack(buffer: string, client: Client, serverIp: string)
    requires NoLineEnds(client.extension) && NoLineEnds(client.ip) && NoLineEnds(serverIp)
    requires '@' !in client.extension && ':' !in client.ip
    requires InvitedText(buffer, client, serverIp).Some?
    ensures var sent := InvitedText(buffer, client, serverIp).value;
            && Lines(sent) != [] && InvitedUser(sent) == Some(client.extension)
            && Between(Lines(sent)[0], '@', ':', false) == Some(client.ip)
            && ToI(AfterLast(Lines(sent)[0], ':')) == client.port
  {
    hide *;
    FirstLineSent(buffer, client, serverIp);
    InviteLineReads(client);
    InviteLineBegins(client);
    var sent := InvitedText(buffer, client, serverIp).value;
    FirstInvited(sent);
  }

  lemma FirstInvited(sent: string)
    requires Lines(sent) != [] && "INVITE" <= Lines(sent)[0]
    ensures InvitedUser(sent) == ExtensionOf(Lines(sent)[0])
  {
    hide Lines, ExtensionOf;
  }

  lemma InviteLineBegins(client: Client)
    ensures "INVITE" <= InviteLine(client) && InviteLine(client) != ""
  {
    assert "INVITE sip:" == "INVITE" + " sip:";
    assert "INVITE" <= "INVITE sip:" <= InviteLine(client);
  }

  lemma InviteLineReads(client: Client)
    requires '@' !in client.extension && ':' !in client.ip
    ensures ExtensionOf(InviteLine(client)) == Some(client.extension)
    ensures Between(InviteLine(client), '@', ':', false) == Some(client.ip)
    ensures ToI(AfterLast(InviteLine(client), ':')) == client.port
  {
    hide ExtensionOf, Between, ToI, AfterLast, Decimal;
    var extension, ip, port := client.extension, client.ip, Decimal(client.port);
    Regrouped(extension, ip, port);
    ExtensionReadsBack(extension, ip + ":" + port + " SIP/2.0");
    NoAtIn(extension);
    BetweenIs("INVITE sip:" + extension, '@', ip, ':', port + " SIP/2.0", false);
    PortReadsBack("INVITE sip:" + extension + "@" + ip, client.port);
  }

  lemma NoAtIn(extension: string)
    requires '@' !in extension
    ensures '@' !in "INVITE sip:" + extension
  {
    assert '@' !in "INVITE sip:";
  }

  lemma FirstLineSent(buffer: string, client: Client, serverIp: string)
    requires NoLineEnds(client.extension) && NoLineEnds(client.ip) && NoLineEnds(serverIp)
    requires InvitedText(buffer, client, serverIp).Some?
    ensures Lines(InvitedText(buffer, client, serverIp).value) != []
    ensures Lines(InvitedText(buffer, client, serverIp).value)[0] == InviteLine(client)
  {
    hide *;
    var lines := Lines(buffer);
    var todo := if lines == [] then [] else lines[1..];
    LinesAreLines(buffer);
    ServerViaIsVia(serverIp);
    InvitedParts(buffer, client, serverIp, todo);
    var tail := Invited(todo, serverIp, None).value;
    InviteLineIsLine(client);
    TailLines(lines);
    InvitedAreLines(todo, serverIp, None);
    OneLine(InviteLine(client));
    ConcatLines([InviteLine(client)], tail);
    DatagramLines([InviteLine(client)] + tail);
    InviteLineBegins(client);
    FirstNonEmpty(InviteLine(client), tail);
  }

  lemma OneLine(line: string)
    requires IsLine(line)
    ensures AllLines([line])
  {
    hide IsLine;
  }

  lemma TailLines(lines: seq<string>)
    requires AllLines(lines)
    ensures AllLines(if lines == [] then [] else lines[1..])
  {
    hide IsLine;
  }

  lemma InvitedParts(buffer: string, client: Client, serverIp: string, todo: seq<string>)
    requires InvitedText(buffer, client, serverIp).Some?
    requires todo == if Lines(buffer) == [] then [] else Lines(buffer)[1..]
    ensures Invited(todo, serverIp, None).Some?
    ensures InvitedText(buffer, client, serverIp).value
         == Unlines([InviteLine(client)] + Invited(todo, serverIp, None).value + [""])
  {
    hide Lines, Invited, InviteLine, Unlines;
  }

  lemma FirstNonEmpty(line: string, tail: seq<string>)
    requires line != ""
    ensures NonEmpty([line] + tail) != [] && NonEmpty([line] + tail)[0] == line
  {
  }

  // ---------- The Record-Route line ----------

  /** The added Record-Route line holds the proxy's address, as a loose router (section 16.6 item 4 of RFC 3261). */
  lemma RecordRouteNamesProxy(serverIp: string)
    requires '<' !in serverIp && ';' !in serverIp
    ensures "Record-Route:" <= RecordRouteLine(serverIp)
    ensures Between(RecordRouteLine(serverIp), '<', ';', false) == Some("sip:" + serverIp)
    ensures Between(RecordRouteLine(serverIp), ';', '>', false) == Some("lr")
  {
    hide Between;
    var name := "Record-Route: ";
    RecordRouteParts(serverIp);
    BetweenIs(name, '<', "sip:" + serverIp, ';', "lr>", false);
    BetweenIs(name + "<sip:" + serverIp, ';', "lr", '>', "", false);
  }

  lemma RecordRouteParts(serverIp: string)
    requires '<' !in serverIp && ';' !in serverIp
    ensures var name, line := "Record-Route: ", RecordRouteLine(serverIp);
            && line == name + ['<'] + ("sip:" + serverIp + [';'] + "lr>")
            && line == name + "<sip:" + serverIp + [';'] + ("lr" + ['>'] + "")
            && '<' !in name && ';' !in "sip:" + serverIp && ';' !in name + "<sip:" + serverIp && '>' !in "lr"
            && "Record-Route:" <= line
  {
    RecordRouteTexts();
    Joined("Record-Route: ", serverIp);
  }

  lemma RecordRouteTexts()
    ensures "Record-Route: <sip:" == "Record-Route: " + "<sip:" && "<sip:" == ['<'] + "sip:"
    ensures ";lr>" == [';'] + "lr>" && "lr>" == "lr" + ['>'] && '>' !in "lr"
    ensures '<' !in "Record-Route: " && ';' !in "Record-Route: <sip:" && ';' !in "sip:"
    ensures "Record-Route:" <= "Record-Route: <sip:"
  {
  }

  lemma Joined(name: string, serverIp: string)
    ensures name + "<sip:" + serverIp + ";lr>" == name + ("<sip:" + serverIp + ";lr>")
  {
  }
}
