/**
 The conformance results on datagrams: what a receiver that splits the text at CR LF and
 takes the lines up to the first empty one for the header finds there.
 */
module SipDatagrams {
  import opened Text
  import opened SipText
  import opened SipForwarding
  import opened SipVia
  import opened SipChain
  import opened SipConformance
  import opened SipResponses

  function CrLfLines(text: string): (lines: seq<string>)
    ensures lines != []
    decreases |text|
  {
    if text == "" then [""]
    else if |text| >= 2 && text[0] == '\r' && text[1] == '\n' then [""] + CrLfLines(text[2..])
    else
      var rest := CrLfLines(text[1..]);
      [[text[0]] + rest[0]] + rest[1..]
  }

  lemma {:induction false} FirstCrLf(line: string, rest: string)
    requires NoLineEnds(line)
    ensures CrLfLines(line + ("\r\n" + rest)) == [line] + CrLfLines(rest)
  {
    var text := line + ("\r\n" + rest);
    if line == "" {
      assert text[2..] == rest && text[0] == '\r' && text[1] == '\n';
    } else {
      assert text[0] == line[0] && line[0] !in LINE_ENDS;
      assert text[1..] == line[1..] + ("\r\n" + rest);
      FirstCrLf(line[1..], rest);
      Rejoined(line, CrLfLines(rest));
    }
  }

  lemma Rejoined(line: string, rest: seq<string>)
    requires line != ""
    ensures ([line[1..]] + rest)[0] == line[1..] && ([line[1..]] + rest)[1..] == rest && [line[0]] + line[1..] == line
  {
  }

  lemma {:induction false} CrLfOfUnlines(lines: seq<string>, rest: string)
    requires AllLines(lines)
    ensures CrLfLines(Unlines(lines) + rest) == lines + CrLfLines(rest)
  {
    hide CrLfLines;
    if lines == [] {
      assert Unlines(lines) + rest == rest && lines + CrLfLines(rest) == CrLfLines(rest);
    } else {
      var more := Unlines(lines[1..]) + rest;
      CrLfOfUnlines(lines[1..], rest);
      FirstCrLf(lines[0], more);
      Associative(lines[0] + "\r\n", Unlines(lines[1..]), rest);
      Associative(lines[0], "\r\n", more);
      assert lines == [lines[0]] + lines[1..];
      Associative([lines[0]], lines[1..], CrLfLines(rest));
    }
  }

  lemma {:induction false} HeaderEnds(x: seq<string>, y: seq<string>)
    ensures RfcVias(x + ([""] + y)) == RfcVias(x)
  {
    hide LineValues;
    if x == [] {
      assert x + ([""] + y) == [""] + y;
    } else if x[0] != "" {
      HeaderEnds(x[1..], y);
      assert (x + ([""] + y))[1..] == x[1..] + ([""] + y);
    }
  }

  /** A message: its header lines, an empty one, and the body. */
  function Message(header: seq<string>, body: string): string { Unlines(header + [""]) + body }

  lemma MessageVias(header: seq<string>, body: string)
    requires AllLines(header)
    ensures RfcVias(CrLfLines(Message(header, body))) == RfcVias(header)
  {
    ConcatLines(header, [""]);
    CrLfOfUnlines(header + [""], body);
    hide CrLfLines, Unlines, RfcVias, AllLines;
    Associative(header, [""], CrLfLines(body));
    HeaderEnds(header, CrLfLines(body));
  }

  lemma MessageLines(header: seq<string>, body: string)
    requires AllLines(header) && NoneEmpty(header)
    ensures Lines(Message(header, body)) == header + Lines(body)
  {
    hide Unlines, Lines, AllLines, NoneEmpty;
    UnlinesConcat(header, [""]);
    EmptyLine();
    Associative(Unlines(header), "\r\n", body);
    TokensOfUnlines(header, "\r\n" + body);
    SkipLineEnd(body);
  }

  lemma EmptyLine()
    ensures Unlines([""]) == "\r\n"
  {
    assert [""][1..] == [];
    assert "" + "\r\n" + "" == "\r\n";
  }

  lemma {:induction false} TokensOfUnlines(lines: seq<string>, rest: string)
    requires AllLines(lines) && NoneEmpty(lines)
    ensures Lines(Unlines(lines) + rest) == lines + Lines(rest)
  {
    if lines == [] {
      assert Unlines(lines) + rest == rest && lines + Lines(rest) == Lines(rest);
    } else {
      var more := Unlines(lines[1..]) + rest;
      assert lines[0] in lines && IsLine(lines[0]);
      TokensOfUnlines(lines[1..], rest);
      TokensAfterToken(lines[0], "\r\n" + more, LINE_ENDS);
      hide Unlines;
      SkipLineEnd(more);
      UnlinesFirst(lines);
      Associative(lines[0] + "\r\n", Unlines(lines[1..]), rest);
      Associative(lines[0], "\r\n", more);
      hide Tokens;
      assert lines == [lines[0]] + lines[1..];
      Associative([lines[0]], lines[1..], Lines(rest));
    }
  }

  /** A datagram shows the Via values of the lines it was made of. */
  lemma DatagramVias(out: seq<string>)
    requires AllLines(out)
    ensures RfcVias(CrLfLines(Unlines(out + [""]))) == RfcVias(out)
  {
    hide *;
    MessageVias(out, "");
    MessageWithoutBody(out);
  }

  lemma MessageWithoutBody(out: seq<string>)
    ensures Message(out, "") == Unlines(out + [""])
  {
    hide Unlines;
  }

  // ---------- Requests and responses ----------

  /** The body cannot be taken for header lines: there is none, or a Content-Length line closes the header. */
  ghost predicate BodyApart(header: seq<string>, body: string, request: bool) {
    Closes(header, request) || Lines(body) == []
  }

  lemma HeaderAlone(header: seq<string>, body: string, request: bool)
    requires BodyApart(header, body, request)
    ensures HeaderPart(header + Lines(body), request) == HeaderPart(header, request)
  {
    hide Lines, HeaderPart, Closes;
    if Closes(header, request) {
      BodySeparated(header, Lines(body), request);
    } else {
      assert header + [] == header;
    }
  }

  lemma BodyFields(header: seq<string>, body: string)
    requires NoneEmpty(header)
    ensures NoneEmpty(header + Lines(body))
  {
    TokensAreTokens(body, LINE_ENDS);
    hide Tokens;
    forall i | 0 <= i < |Lines(body)| ensures Lines(body)[i] != "" {
      assert Lines(body)[i] in Lines(body);
    }
  }

  /**
   A request as a datagram gets the proxy's own value above those it has if and only if
   PushesTopmost holds of its header lines.
   */
  lemma RequestConformsIff(header: seq<string>, body: string, serverIp: string)
    requires AllLines(header) && WholeFields(header) && BodyApart(header, body, true)
    requires NoLineEnds(serverIp) && |LineValues(ServerVia(serverIp))| == 1
    requires ForwardedText(Message(header, body), true, serverIp).Some?
    ensures var own := LineValues(ServerVia(serverIp));
            var before := RfcVias(CrLfLines(Message(header, body)));
            var after := RfcVias(CrLfLines(ForwardedText(Message(header, body), true, serverIp).value));
            after == own + before <==> PushesTopmost(header, own[0])
  {
    hide *;
    FieldsNotEmpty(header);
    var lines, own := header + Lines(body), ServerVia(serverIp);
    MessageLines(header, body);
    MessageVias(header, body);
    BodyFields(header, body);
    HeaderAlone(header, body, true);
    ServerViaIsVia(serverIp);
    LinesAreLines(Message(header, body));
    SentText(Message(header, body), true, serverIp);
    RequestValues(lines, own, None);
    RequestLines(lines, true, own, None);
    DatagramVias(Forwarded(lines, true, own, None).value);
    PushIff(header, own);
  }

  lemma SentText(buffer: string, request: bool, serverIp: string)
    requires ForwardedText(buffer, request, serverIp).Some?
    ensures var out := Forwarded(Lines(buffer), request, ServerVia(serverIp), None);
            out.Some? && ForwardedText(buffer, request, serverIp).value == Unlines(out.value + [""])
  {
    hide Lines, Forwarded, ServerVia, Unlines;
  }

  /** A response as a datagram meets section 16.7 item 3 iff it has two values and PopsTopmost holds of its header. */
  lemma ResponseConformsIff(header: seq<string>, body: string, serverIp: string)
    requires AllLines(header) && WholeFields(header) && BodyApart(header, body, false) && NoLineEnds(serverIp)
    requires ForwardedText(Message(header, body), false, serverIp).Some?
    ensures var before := RfcVias(CrLfLines(Message(header, body)));
            var after := RfcVias(CrLfLines(ForwardedText(Message(header, body), false, serverIp).value));
            && before == RfcVias(header)
            && (before != [] ==> (after == before[1..] <==> PopsTopmost(header)))
            && (MeetsItem3(before, Some(after)) <==> PopsTopmost(header) && |before| >= 2)
  {
    hide *;
    FieldsNotEmpty(header);
    var lines, own := header + Lines(body), ServerVia(serverIp);
    MessageLines(header, body);
    MessageVias(header, body);
    BodyFields(header, body);
    HeaderAlone(header, body, false);
    ServerViaIsVia(serverIp);
    LinesAreLines(Message(header, body));
    SentText(Message(header, body), false, serverIp);
    StatusValues(lines, own, None);
    RequestLines(lines, false, own, None);
    DatagramVias(Forwarded(lines, false, own, None).value);
    Item3Sent(RfcVias(header), RfcVias(Forwarded(lines, false, own, None).value));
    if RfcVias(header) != [] {
      PopIff(header);
    }
  }
}
