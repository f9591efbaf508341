/**
 What RFC 3261 sees of the Via header fields: a list of values, whatever lines they are on,
 and exactly when forwarding pushes and pops that list as sections 16.6 and 16.7 ask.
 The proxy itself looks for lines that begin "Via:" only.
 */
module SipConformance {
  import opened Text
  import opened SipForwarding
  import opened SipVia

  // ---------- Via header fields by section 7.3 ----------

  predicate IsLws(c: char) { c == ' ' || c == '\t' }

  function LowerCase(s: string): (r: string)
    ensures |r| == |s|
  {
    if s == "" then ""
    else [if 'A' <= s[0] <= 'Z' then s[0] - 'A' + 'a' else s[0]] + LowerCase(s[1..])
  }

  function TrimRight(s: string): (r: string)
    ensures r <= s
  {
    if s != "" && IsLws(s[|s| - 1]) then TrimRight(s[..|s| - 1]) else s
  }

  function TrimLeft(s: string): string {
    if s != "" && IsLws(s[0]) then TrimLeft(s[1..]) else s
  }

  function Trim(s: string): string { TrimLeft(TrimRight(s)) }

  function BeforeColon(line: string): (name: string)
    ensures name <= line
  {
    if line == "" || line[0] == ':' then "" else [line[0]] + BeforeColon(line[1..])
  }

  /** Field names are case-insensitive, "v" is the compact form, and blanks may stand before the colon. */
  predicate IsViaField(line: string) {
    |BeforeColon(line)| < |line| && LowerCase(TrimRight(BeforeColon(line))) in {"via", "v"}
  }

  /** The text between commas, except those in quoted strings. */
  function Pieces(text: string, quoted: bool): (pieces: seq<string>)
    ensures pieces != []
    decreases |text|
  {
    if text == "" then [""]
    else if quoted && text[0] == '\\' && |text| > 1 then
      var rest := Pieces(text[2..], quoted);
      [text[..2] + rest[0]] + rest[1..]
    else if !quoted && text[0] == ',' then [""] + Pieces(text[1..], quoted)
    else
      var rest := Pieces(text[1..], if text[0] == '"' then !quoted else quoted);
      [[text[0]] + rest[0]] + rest[1..]
  }

  function Trimmed(pieces: seq<string>): (r: seq<string>)
    ensures |r| == |pieces|
  {
    seq(|pieces|, i requires 0 <= i < |pieces| => Trim(pieces[i]))
  }

  /** The Via values of one header line. */
  function LineValues(line: string): seq<string> {
    if IsViaField(line) then Trimmed(Pieces(line[|BeforeColon(line)| + 1..], false)) else []
  }

  /** The Via values of a message: its header ends at the first empty line. */
  function RfcVias(lines: seq<string>): seq<string> {
    if lines == [] || lines[0] == "" then [] else LineValues(lines[0]) + RfcVias(lines[1..])
  }

  predicate NoneEmpty(lines: seq<string>) {
    forall i | 0 <= i < |lines| :: lines[i] != ""
  }

  /** Header fields on one line each. */
  predicate WholeFields(lines: seq<string>) {
    forall i | 0 <= i < |lines| :: lines[i] != "" && !IsLws(lines[i][0])
  }

  lemma FieldsNotEmpty(lines: seq<string>)
    requires WholeFields(lines)
    ensures NoneEmpty(lines)
  {
  }

  lemma FirstField(lines: seq<string>)
    requires NoneEmpty(lines) && lines != []
    ensures lines[0] != "" && NoneEmpty(lines[1..])
    ensures RfcVias(lines) == LineValues(lines[0]) + RfcVias(lines[1..])
  {
    hide LineValues;
    assert lines[0] in lines;
  }

  // ---------- The lines the proxy tells apart ----------

  lemma LowerFirst(s: string)
    requires s != ""
    ensures LowerCase(s)[0] == 'v' ==> s[0] == 'v' || s[0] == 'V'
  {
  }

  lemma ViaFieldsBeginWithV(line: string)
    ensures LineValues(line) != [] ==> line != "" && (line[0] == 'v' || line[0] == 'V')
  {
    if IsViaField(line) {
      var name := TrimRight(BeforeColon(line));
      assert "via"[0] == 'v' && "v"[0] == 'v' && |"via"| == 3 && |"v"| == 1;
      assert name != "";
      LowerFirst(name);
      hide LowerCase, TrimRight, BeforeColon;
    }
    hide Pieces;
  }

  lemma OtherLinesHaveNone(line: string)
    ensures "Route" <= line || MAX_FORWARDS <= line || "Content-Length:" <= line || ALLOW <= line || IsDropped(line) ==>
              LineValues(line) == []
  {
    ViaFieldsBeginWithV(line);
    hide LineValues;
    assert "Route"[0] == 'R' && "Max-Forwards:"[0] == 'M' && "Content-Length:"[0] == 'C' && ALLOW[0] == 'A'
        && "Route:"[0] == 'R' && "Supported:"[0] == 'S' && "User-Agent:"[0] == 'U';
  }

  lemma AddedLinesHaveNone(n: int, serverIp: string, client: Client)
    ensures MaxForwardsLine(n) != "" && LineValues(MaxForwardsLine(n)) == []
    ensures RecordRouteLine(serverIp) != "" && LineValues(RecordRouteLine(serverIp)) == []
    ensures ALLOW_LINE != "" && LineValues(ALLOW_LINE) == []
    ensures InviteLine(client) != "" && LineValues(InviteLine(client)) == []
  {
    ViaFieldsBeginWithV(MaxForwardsLine(n));
    ViaFieldsBeginWithV(RecordRouteLine(serverIp));
    ViaFieldsBeginWithV(ALLOW_LINE);
    ViaFieldsBeginWithV(InviteLine(client));
    hide LineValues;
    assert MaxForwardsLine(n)[0] == 'M' && RecordRouteLine(serverIp)[0] == 'R' && ALLOW_LINE[0] == 'A'
        && InviteLine(client)[0] == 'I';
  }

  lemma ViaName(line: string)
    requires IsVia(line)
    ensures BeforeColon(line) == "Via" && line[4..] == line[|BeforeColon(line)| + 1..]
  {
    assert line[0] == 'V' && line[1] == 'i' && line[2] == 'a' && line[3] == ':';
    assert BeforeColon(line[3..]) == "";
    assert line[2..][1..] == line[3..] && BeforeColon(line[2..]) == "a";
    assert line[1..][1..] == line[2..] && BeforeColon(line[1..]) == "ia";
  }

  lemma ViaLowerCase()
    ensures LowerCase(TrimRight("Via")) == "via"
  {
    assert TrimRight("Via") == "Via";
    assert "a"[1..] == "" && LowerCase("a") == "a";
    assert "ia"[1..] == "a" && LowerCase("ia") == "ia";
    assert "Via"[1..] == "ia";
  }

  /** A line that begins "Via:" is a Via field. */
  lemma ViaLinesHaveValues(line: string)
    requires IsVia(line)
    ensures LineValues(line) == Trimmed(Pieces(line[4..], false)) != [] && line != ""
  {
    ViaName(line);
    ViaLowerCase();
    hide Pieces, LowerCase, TrimRight, BeforeColon;
  }

  lemma {:induction false} NoComma(text: string)
    requires ',' !in text && '"' !in text
    ensures Pieces(text, false) == [text]
  {
    if text != "" {
      NoComma(text[1..]);
      assert [text[0]] + text[1..] == text && [text[1..]][1..] == [];
    }
  }

  /** The proxy's own line has one value. */
  lemma OwnViaHasOneValue(serverIp: string)
    requires ',' !in serverIp && '"' !in serverIp
    ensures IsVia(ServerVia(serverIp)) && |LineValues(ServerVia(serverIp))| == 1
  {
    hide *;
    OwnValueText(serverIp);
  }

  lemma OwnTail(serverIp: string)
    ensures IsVia(ServerVia(serverIp))
    ensures ServerVia(serverIp)[4..] == " SIP/2.0/UDP " + serverIp + ":5060;branch=z9hG4bK1234"
  {
    assert "Via: SIP/2.0/UDP " == "Via:" + " SIP/2.0/UDP ";
    Associative("Via:", " SIP/2.0/UDP ", serverIp);
    Associative("Via:", " SIP/2.0/UDP " + serverIp, ":5060;branch=z9hG4bK1234");
    Cut("Via:", " SIP/2.0/UDP " + serverIp + ":5060;branch=z9hG4bK1234");
  }

  lemma Cut(x: string, y: string)
    ensures x <= x + y && (x + y)[|x|..] == y
  {
  }

  // ---------- The header that is sent ----------

  /** The proxy puts an empty line after it, whatever follows. */
  predicate EndsHeader(line: string) { "Content-Length:" <= line }

  /** The lines whose rewriting becomes the header of the message sent; the others end up in its body. */
  function HeaderPart(lines: seq<string>, request: bool): seq<string>
    decreases |lines|
  {
    if lines == [] then []
    else if IsVia(lines[0]) && !request then
      if |lines| < 2 then lines else lines[..2] + HeaderPart(lines[2..], request)
    else if EndsHeader(lines[0]) then [lines[0]]
    else [lines[0]] + HeaderPart(lines[1..], request)
  }

  lemma {:induction false} HeaderPartIsPrefix(lines: seq<string>, request: bool)
    ensures HeaderPart(lines, request) <= lines
    decreases |lines|
  {
    hide IsVia, EndsHeader;
    if lines == [] {
    } else if IsVia(lines[0]) && !request {
      if |lines| >= 2 {
        HeaderPartIsPrefix(lines[2..], request);
        assert lines == lines[..2] + lines[2..];
      }
    } else {
      HeaderPartIsPrefix(lines[1..], request);
      assert lines == [lines[0]] + lines[1..];
    }
  }

  /** The Via values that are left over for the body. */
  function ValuesBelow(lines: seq<string>, request: bool): seq<string> {
    HeaderPartIsPrefix(lines, request);
    RfcVias(lines[|HeaderPart(lines, request)|..])
  }

  lemma {:induction false} RfcViasConcat(x: seq<string>, y: seq<string>)
    requires NoneEmpty(x)
    ensures RfcVias(x + y) == RfcVias(x) + RfcVias(y)
  {
    hide LineValues;
    if x == [] {
      assert x + y == y;
    } else {
      FirstField(x);
      RfcViasConcat(x[1..], y);
      assert (x + y)[1..] == x[1..] + y;
      Associative(LineValues(x[0]), RfcVias(x[1..]), RfcVias(y));
    }
  }

  lemma PrefixNotEmpty(x: seq<string>, y: seq<string>)
    requires x <= y && NoneEmpty(y)
    ensures NoneEmpty(x) && y == x + y[|x|..]
  {
  }

  lemma ValuesSplit(lines: seq<string>, request: bool)
    requires NoneEmpty(lines)
    ensures NoneEmpty(HeaderPart(lines, request))
    ensures RfcVias(lines) == RfcVias(HeaderPart(lines, request)) + ValuesBelow(lines, request)
  {
    hide HeaderPart, RfcVias, NoneEmpty;
    HeaderPartIsPrefix(lines, request);
    var header := HeaderPart(lines, request);
    PrefixNotEmpty(header, lines);
    RfcViasConcat(header, lines[|header|..]);
  }

  // ---------- Requests ----------

  /** The values of a header in which own stands before every line that begins "Via:". */
  function Pushed(header: seq<string>, own: string): seq<string> {
    if header == [] then []
    else (if IsVia(header[0]) then LineValues(own) else []) + LineValues(header[0]) + Pushed(header[1..], own)
  }

  lemma ValuesOfFront(front: seq<string>, rest: seq<string>)
    requires |front| <= 2 && (|front| > 0 ==> front[0] != "")
    ensures |front| == 0 ==> RfcVias(front + rest) == RfcVias(rest)
    ensures |front| == 1 ==> RfcVias(front + rest) == LineValues(front[0]) + RfcVias(rest)
    ensures |front| == 2 && front[1] != "" ==>
              RfcVias(front + rest) == LineValues(front[0]) + LineValues(front[1]) + RfcVias(rest)
    ensures |front| == 2 && front[1] == "" ==> RfcVias(front + rest) == LineValues(front[0])
  {
    hide LineValues;
    if |front| == 0 {
      assert front + rest == rest;
    } else if |front| == 1 {
      assert (front + rest)[1..] == rest;
    } else {
      assert (front + rest)[1..][1..] == rest;
      assert (front + rest)[1..][0] == front[1];
      if front[1] != "" {
        Associative(LineValues(front[0]), LineValues(front[1]), RfcVias(rest));
      } else {
        assert LineValues(front[0]) + [] == LineValues(front[0]);
      }
    }
  }

  lemma NamesApart(line: string)
    ensures EndsHeader(line) ==> !("Route" <= line) && !IsVia(line) && !(MAX_FORWARDS <= line) && !IsDropped(line)
                                 && !(ALLOW <= line)
  {
    assert "Content-Length:"[0] == 'C' && "Route"[0] == 'R' && "Via:"[0] == 'V' && "Max-Forwards:"[0] == 'M'
        && "Route:"[0] == 'R' && "Supported:"[0] == 'S' && "User-Agent:"[0] == 'U' && ALLOW[0] == 'A';
  }

  /** The values that one rewritten line contributes. */
  lemma RewrittenValues(line: string, own: string, maxForw: Option<int>, rest: seq<string>)
    requires line != "" && IsVia(own) && Rewritten(line, own, maxForw).Some?
    ensures RfcVias(Rewritten(line, own, maxForw).value + rest)
         == (if IsVia(line) then LineValues(own) else []) + LineValues(line)
            + (if EndsHeader(line) then [] else RfcVias(rest))
  {
    hide *;
    RewrittenShape(line, own, maxForw);
    NamesApart(line);
    OtherNames(line);
    OtherLinesHaveNone(line);
    ViaLinesHaveValues(own);
    if maxForw.Some? {
      AddedLinesHaveNone(maxForw.value, "", Client("", "", 0));
    }
    EndsByLength(line);
    ValuesOfFront(Rewritten(line, own, maxForw).value, rest);
    NothingBefore(LineValues(line));
    NothingBefore(RfcVias(rest));
  }

  lemma EndsByLength(line: string)
    ensures EndsHeader(line) <==> "Content-Length:" <= line
  {
  }

  lemma NothingBefore(x: seq<string>)
    ensures [] + x == x == x + []
  {
  }

  lemma {:induction false} RequestValues(lines: seq<string>, own: string, maxForw: Option<int>)
    requires NoneEmpty(lines) && IsVia(own) && Forwarded(lines, true, own, maxForw).Some?
    ensures RfcVias(Forwarded(lines, true, own, maxForw).value) == Pushed(HeaderPart(lines, true), own)
    decreases |lines|
  {
    hide IsVia, EndsHeader, AfterLine, Rewritten, LineValues, RfcVias;
    if lines == [] {
      NoLinesNoValues();
    } else {
      var after := AfterLine(lines[0], maxForw);
      var rest := Forwarded(lines[1..], true, own, after).value;
      FirstField(lines);
      RequestValues(lines[1..], own, after);
      RewrittenValues(lines[0], own, after, rest);
      PushedFirst(lines[0], HeaderPart(lines[1..], true), own);
    }
  }

  lemma NoLinesNoValues()
    ensures RfcVias([]) == []
  {
  }

  lemma PushedFirst(line: string, rest: seq<string>, own: string)
    ensures Pushed([line] + rest, own)
         == (if IsVia(line) then LineValues(own) else []) + LineValues(line) + Pushed(rest, own)
    ensures Pushed([line], own) == (if IsVia(line) then LineValues(own) else []) + LineValues(line)
  {
    hide IsVia, LineValues;
    assert ([line] + rest)[1..] == rest && [line][1..] == [];
    NothingBefore((if IsVia(line) then LineValues(own) else []) + LineValues(line));
  }

  lemma InviteRewrittenValues(line: string, serverIp: string, maxForw: Option<int>, rest: seq<string>)
    requires line != "" && IsVia(ServerVia(serverIp)) && InviteRewritten(line, serverIp, maxForw).Some?
    ensures RfcVias(InviteRewritten(line, serverIp, maxForw).value + rest)
         == (if IsVia(line) then LineValues(ServerVia(serverIp)) else []) + LineValues(line)
            + (if EndsHeader(line) then [] else RfcVias(rest))
  {
    hide *;
    InviteShape(line, serverIp, maxForw);
    NamesApart(line);
    NamesDiffer(line);
    OtherNames(line);
    OtherLinesHaveNone(line);
    ViaLinesHaveValues(ServerVia(serverIp));
    AddedLinesHaveNone(if maxForw.Some? then maxForw.value else 0, serverIp, Client("", "", 0));
    EndsByLength(line);
    ValuesOfFront(InviteRewritten(line, serverIp, maxForw).value, rest);
    NothingBefore(LineValues(line));
    NothingBefore(RfcVias(rest));
  }

  lemma {:induction false} InviteValues(lines: seq<string>, serverIp: string, maxForw: Option<int>)
    requires NoneEmpty(lines) && IsVia(ServerVia(serverIp)) && Invited(lines, serverIp, maxForw).Some?
    ensures RfcVias(Invited(lines, serverIp, maxForw).value) == Pushed(HeaderPart(lines, true), ServerVia(serverIp))
    decreases |lines|
  {
    hide IsVia, EndsHeader, AfterLine, InviteRewritten, LineValues, RfcVias, ServerVia;
    if lines == [] {
      NoLinesNoValues();
    } else {
      var after := AfterLine(lines[0], maxForw);
      var rest := Invited(lines[1..], serverIp, after).value;
      FirstField(lines);
      InviteValues(lines[1..], serverIp, after);
      InviteRewrittenValues(lines[0], serverIp, after, rest);
      PushedFirst(lines[0], HeaderPart(lines[1..], true), ServerVia(serverIp));
    }
  }

  /** The values above the first line that begins "Via:", that is, of Via fields spelled otherwise. */
  function AboveVia(header: seq<string>): seq<string> {
    if header == [] || IsVia(header[0]) then [] else LineValues(header[0]) + AboveVia(header[1..])
  }

  lemma {:induction false} PushedLength(header: seq<string>, own: string)
    requires |LineValues(own)| == 1 && NoneEmpty(header)
    ensures |Pushed(header, own)| == |RfcVias(header)| + |Vias(header)|
  {
    hide IsVia, LineValues, RfcVias, NoneEmpty;
    if header == [] {
      NoLinesNoValues();
    } else {
      FirstField(header);
      PushedLength(header[1..], own);
    }
  }

  lemma {:induction false} AboveIsPrefix(header: seq<string>)
    requires NoneEmpty(header)
    ensures AboveVia(header) <= RfcVias(header)
  {
    hide IsVia, LineValues, RfcVias, NoneEmpty;
    if header != [] {
      FirstField(header);
      AboveIsPrefix(header[1..]);
    }
  }

  /** The values from the first line that begins "Via:" on. */
  function FromVia(header: seq<string>): seq<string> {
    if header == [] then [] else if IsVia(header[0]) then RfcVias(header) else FromVia(header[1..])
  }

  /** And from the second such line on. */
  function FromSecondVia(header: seq<string>): seq<string> {
    if header == [] then [] else if IsVia(header[0]) then FromVia(header[1..]) else FromSecondVia(header[1..])
  }

  predicate AllEqual(values: seq<string>, value: string) {
    forall i | 0 <= i < |values| :: values[i] == value
  }

  /**
   The input condition.  As a rule: in the header that is sent one line begins "Via:", no
   Via field spelled otherwise stands above it, and no Via field is left below for the
   body.  Where the request carries the own value already, further copies can make the
   list come out the same.
   */
  predicate PushesTopmost(lines: seq<string>, value: string) {
    var header, below := HeaderPart(lines, true), ValuesBelow(lines, true);
    && |Vias(header)| == 1 + |below| && AllEqual(AboveVia(header), value)
    && (below != [] ==> AllEqual(FromSecondVia(header) + below, value))
  }

  // ---------- Runs of one value ----------

  lemma AllEqualConcat(x: seq<string>, y: seq<string>, value: string)
    ensures AllEqual(x + y, value) <==> AllEqual(x, value) && AllEqual(y, value)
    ensures AllEqual([value], value) && AllEqual([], value)
  {
    assert forall i | 0 <= i < |y| :: (x + y)[|x| + i] == y[i];
    assert forall i | 0 <= i < |x| :: (x + y)[i] == x[i];
  }

  lemma SameRun(x: seq<string>, y: seq<string>, value: string)
    requires AllEqual(x, value) && AllEqual(y, value) && |x| == |y|
    ensures x == y
  {
  }

  lemma {:induction false} RunAt(c: seq<string>, l: seq<string>, x: seq<string>, y: seq<string>, value: string, i: nat)
    requires c != [] && AllEqual(c, value) && c + (l + x) == l + y && i < |l|
    ensures l[i] == value
    decreases i
  {
    assert (l + y)[i] == l[i];
    if i < |c| {
      assert (c + (l + x))[i] == c[i];
    } else {
      assert (c + (l + x))[i] == l[i - |c|];
      RunAt(c, l, x, y, value, i - |c|);
    }
  }

  /** What is shifted by a run of a value and stays the same consists of that value. */
  lemma ShiftedByRun(c: seq<string>, l: seq<string>, x: seq<string>, y: seq<string>, value: string)
    requires c != [] && AllEqual(c, value) && c + (l + x) == l + y
    ensures AllEqual(l, value) && c + x == y
  {
    forall i | 0 <= i < |l| ensures l[i] == value {
      RunAt(c, l, x, y, value, i);
    }
    AllEqualConcat(c, l, value);
    AllEqualConcat(l, c, value);
    SameRun(c + l, l + c, value);
    Associative(c, l, x);
    Associative(l, c, x);
    SameRest(l, c + x, y);
  }

  lemma SameRest(l: seq<string>, x: seq<string>, y: seq<string>)
    ensures l + x == l + y <==> x == y
  {
    assert (l + x)[|l|..] == x && (l + y)[|l|..] == y;
  }

  lemma {:induction false} PushedIntoRun(header: seq<string>, own: string, value: string)
    requires LineValues(own) == [value] && NoneEmpty(header) && AllEqual(RfcVias(header), value)
    ensures AllEqual(Pushed(header, own), value)
  {
    hide IsVia, LineValues, RfcVias, NoneEmpty, AllEqual;
    if header == [] {
      AllEqualConcat([], [], value);
    } else {
      FirstField(header);
      var first, rest := LineValues(header[0]), header[1..];
      AllEqualConcat(first, RfcVias(rest), value);
      PushedIntoRun(rest, own, value);
      AllEqualConcat([value], first, value);
      AllEqualConcat([], first, value);
      AllEqualConcat([value] + first, Pushed(rest, own), value);
      AllEqualConcat([] + first, Pushed(rest, own), value);
    }
  }

  lemma {:induction false} OnlyRuns(header: seq<string>, own: string, value: string, c: seq<string>, below: seq<string>)
    requires LineValues(own) == [value] && NoneEmpty(header) && c != [] && AllEqual(c, value)
    requires c + Pushed(header, own) == RfcVias(header) + below
    ensures AllEqual(RfcVias(header), value) && AllEqual(below, value)
  {
    hide IsVia, LineValues, RfcVias, NoneEmpty, AllEqual;
    if header == [] {
      NoLinesNoValues();
      NothingBefore(c);
      NothingBefore(below);
      AllEqualConcat([], [], value);
    } else {
      FirstField(header);
      var first, rest := LineValues(header[0]), header[1..];
      var d := if IsVia(header[0]) then c + [value] else c;
      AllEqualConcat(c, [value], value);
      PushedUnfolds(header, own);
      Associative(c, [value], first + Pushed(rest, own));
      Associative(first, RfcVias(rest), below);
      ShiftedByRun(d, first, Pushed(rest, own), RfcVias(rest) + below, value);
      OnlyRuns(rest, own, value, d, below);
      AllEqualConcat(first, RfcVias(rest), value);
    }
  }

  lemma PushedUnfolds(header: seq<string>, own: string)
    requires header != []
    ensures IsVia(header[0]) ==>
              Pushed(header, own) == LineValues(own) + (LineValues(header[0]) + Pushed(header[1..], own))
    ensures !IsVia(header[0]) ==> Pushed(header, own) == LineValues(header[0]) + Pushed(header[1..], own)
  {
    hide IsVia, LineValues;
    NothingBefore(LineValues(header[0]));
    Associative(LineValues(own), LineValues(header[0]), Pushed(header[1..], own));
  }

  /** Pushing into a list and appending to it come to the same only with runs of the own value. */
  lemma {:induction false} PushedIsAppended(header: seq<string>, own: string, value: string, below: seq<string>)
    requires LineValues(own) == [value] && NoneEmpty(header)
    ensures Pushed(header, own) == RfcVias(header) + below
       <==> |Vias(header)| == |below| && (below != [] ==> AllEqual(FromVia(header) + below, value))
  {
    hide IsVia, LineValues, RfcVias, NoneEmpty, AllEqual;
    PushedLength(header, own);
    if header == [] {
      NoLinesNoValues();
      NothingBefore(below);
    } else {
      FirstField(header);
      ViasOfFirst(header);
      PushedUnfolds(header, own);
      var first, rest := LineValues(header[0]), header[1..];
      Associative(first, RfcVias(rest), below);
      if !IsVia(header[0]) {
        PushedIsAppended(rest, own, value, below);
        SameRest(first, Pushed(rest, own), RfcVias(rest) + below);
      } else {
        AllEqualConcat(RfcVias(header), below, value);
        if Pushed(header, own) == RfcVias(header) + below {
          AllEqualConcat([value], [], value);
          ShiftedByRun([value], first, Pushed(rest, own), RfcVias(rest) + below, value);
          OnlyRuns(rest, own, value, [value], below);
          AllEqualConcat(first, RfcVias(rest), value);
        }
        if |Vias(header)| == |below| && AllEqual(RfcVias(header) + below, value) {
          PushedIntoRun(header, own, value);
          SameRun(Pushed(header, own), RfcVias(header) + below, value);
        }
      }
    }
  }

  lemma {:induction false} PushedOnTop(header: seq<string>, own: string, value: string, below: seq<string>)
    requires LineValues(own) == [value] && NoneEmpty(header)
    ensures Pushed(header, own) == [value] + (RfcVias(header) + below)
       <==> |Vias(header)| == 1 + |below| && AllEqual(AboveVia(header), value)
            && (below != [] ==> AllEqual(FromSecondVia(header) + below, value))
  {
    hide IsVia, LineValues, RfcVias, NoneEmpty, AllEqual;
    if header != [] {
      FirstField(header);
      ViasOfFirst(header);
      PushedUnfolds(header, own);
      AllEqualConcat([], [], value);
      var first, rest := LineValues(header[0]), header[1..];
      Associative(first, RfcVias(rest), below);
      if IsVia(header[0]) {
        PushedIsAppended(rest, own, value, below);
        SameRest([value], first + Pushed(rest, own), first + (RfcVias(rest) + below));
        SameRest(first, Pushed(rest, own), RfcVias(rest) + below);
      } else {
        PushedOnTop(rest, own, value, below);
        AllEqualConcat(first, AboveVia(rest), value);
        BeforeRun(first, Pushed(rest, own), RfcVias(rest) + below, value);
      }
    }
  }

  lemma BeforeRun(first: seq<string>, x: seq<string>, y: seq<string>, value: string)
    ensures first + x == [value] + (first + y) <==> AllEqual(first, value) && x == [value] + y
  {
    AllEqualConcat([value], first, value);
    AllEqualConcat(first, [value], value);
    if first + x == [value] + (first + y) {
      ShiftedByRun([value], first, y, x, value);
    }
    if AllEqual(first, value) && x == [value] + y {
      SameRun([value] + first, first + [value], value);
      Associative([value], first, y);
      Associative(first, [value], y);
    }
  }

  lemma PushIff(lines: seq<string>, own: string)
    requires NoneEmpty(lines) && |LineValues(own)| == 1
    ensures Pushed(HeaderPart(lines, true), own) == LineValues(own) + RfcVias(lines)
       <==> PushesTopmost(lines, LineValues(own)[0])
  {
    hide HeaderPart, Pushed, RfcVias, LineValues, AboveVia, Vias, ValuesBelow, NoneEmpty, FromSecondVia, AllEqual;
    var value := LineValues(own)[0];
    assert LineValues(own) == [value];
    ValuesSplit(lines, true);
    PushedOnTop(HeaderPart(lines, true), own, value, ValuesBelow(lines, true));
  }

  /** For a request without the own value the condition is the rule. */
  lemma PushesTopmostAsARule(lines: seq<string>, value: string)
    requires NoneEmpty(lines) && value !in RfcVias(lines)
    ensures PushesTopmost(lines, value) <==>
              var header := HeaderPart(lines, true);
              |Vias(header)| == 1 && AboveVia(header) == [] && ValuesBelow(lines, true) == []
  {
    hide HeaderPart, RfcVias, AboveVia, Vias, ValuesBelow, NoneEmpty, FromSecondVia;
    var header, below := HeaderPart(lines, true), ValuesBelow(lines, true);
    ValuesSplit(lines, true);
    AboveIsPrefix(header);
    if AboveVia(header) != [] {
      assert AboveVia(header)[0] == RfcVias(header)[0] && RfcVias(header)[0] in RfcVias(lines);
    }
    if below != [] {
      assert below[0] in RfcVias(lines);
      assert (FromSecondVia(header) + below)[|FromSecondVia(header)|] == below[0];
    }
  }

  /**
   Section 16.6 item 8 puts one Via value above the existing ones.  It goes there, and nowhere else,
   if and only if the condition holds; for the branch of that value see BranchRepeats.
   */
  lemma PushConformsIff(lines: seq<string>, own: string, maxForw: Option<int>)
    requires WholeFields(lines) && IsVia(own) && |LineValues(own)| == 1
    requires Forwarded(lines, true, own, maxForw).Some?
    ensures RfcVias(Forwarded(lines, true, own, maxForw).value) == LineValues(own) + RfcVias(lines)
       <==> PushesTopmost(lines, LineValues(own)[0])
  {
    hide *;
    FieldsNotEmpty(lines);
    RequestValues(lines, own, maxForw);
    PushIff(lines, own);
  }

  /** The same for an INVITE; lines are those after the request line. */
  lemma InvitePushConformsIff(lines: seq<string>, serverIp: string)
    requires WholeFields(lines) && IsVia(ServerVia(serverIp)) && |LineValues(ServerVia(serverIp))| == 1
    requires Invited(lines, serverIp, None).Some?
    ensures var own := LineValues(ServerVia(serverIp));
            RfcVias(Invited(lines, serverIp, None).value) == own + RfcVias(lines) <==> PushesTopmost(lines, own[0])
  {
    hide *;
    FieldsNotEmpty(lines);
    InviteValues(lines, serverIp, None);
    PushIff(lines, ServerVia(serverIp));
  }

  /** The proxy's own value. */
  function OwnValue(serverIp: string): string { "SIP/2.0/UDP " + serverIp + ":5060;branch=z9hG4bK1234" }

  lemma OwnValueText(serverIp: string)
    requires ',' !in serverIp && '"' !in serverIp
    ensures IsVia(ServerVia(serverIp)) && LineValues(ServerVia(serverIp)) == [OwnValue(serverIp)]
  {
    hide *;
    OwnTail(serverIp);
    OwnPieces(serverIp);
    ViaLinesHaveValues(ServerVia(serverIp));
    TrimmedOwn(OwnValue(serverIp));
  }

  lemma OwnPieces(serverIp: string)
    requires ',' !in serverIp && '"' !in serverIp
    ensures Pieces(" SIP/2.0/UDP " + serverIp + ":5060;branch=z9hG4bK1234", false) == [" " + OwnValue(serverIp)]
    ensures OwnValue(serverIp) != "" && OwnValue(serverIp)[0] == 'S'
    ensures OwnValue(serverIp)[|OwnValue(serverIp)| - 1] == '4'
  {
    hide Pieces;
    OwnTexts();
    OnePiece("SIP/2.0/UDP ", serverIp, ":5060;branch=z9hG4bK1234");
  }

  lemma OwnTexts()
    ensures var name, tail := "SIP/2.0/UDP ", ":5060;branch=z9hG4bK1234";
            && " SIP/2.0/UDP " == " " + name && ',' !in name && '"' !in name && ',' !in tail && '"' !in tail
            && name[0] == 'S' && tail[|tail| - 1] == '4'
  {
  }

  lemma OnePiece(x: string, y: string, z: string)
    requires x != "" && z != ""
    requires ',' !in x && '"' !in x && ',' !in y && '"' !in y && ',' !in z && '"' !in z
    ensures Pieces((" " + x) + y + z, false) == [" " + (x + y + z)]
    ensures (x + y + z)[0] == x[0] && (x + y + z)[|x + y + z| - 1] == z[|z| - 1]
  {
    hide Pieces;
    Between(x, y, z);
    NoCommaIn(x, y, z);
    NoComma(" " + (x + y + z));
  }

  lemma Between(x: string, y: string, z: string)
    requires x != "" && z != ""
    ensures (" " + x) + y + z == " " + (x + y + z)
    ensures (x + y + z)[0] == x[0] && (x + y + z)[|x + y + z| - 1] == z[|z| - 1]
  {
  }

  lemma NoCommaIn(x: string, y: string, z: string)
    requires ',' !in x && '"' !in x && ',' !in y && '"' !in y && ',' !in z && '"' !in z
    ensures ',' !in " " + (x + y + z) && '"' !in " " + (x + y + z)
  {
  }

  lemma TrimmedOwn(text: string)
    requires text != "" && text[0] == 'S' && text[|text| - 1] == '4'
    ensures Trimmed([" " + text]) == [text]
  {
    var line := " " + text;
    assert line[|line| - 1] == '4' && TrimRight(line) == line;
    assert line[1..] == text && TrimLeft(line) == text;
  }

  /**
   Item 8 also asks for a branch that is new with every request.  The proxy never gives one: wherever
   its value goes on top, it is the same for any two requests.
   */
  lemma BranchRepeats(lines: seq<string>, others: seq<string>, serverIp: string, maxForw: Option<int>)
    requires ',' !in serverIp && '"' !in serverIp && WholeFields(lines) && WholeFields(others)
    requires Forwarded(lines, true, ServerVia(serverIp), maxForw).Some? && PushesTopmost(lines, OwnValue(serverIp))
    requires Forwarded(others, true, ServerVia(serverIp), maxForw).Some? && PushesTopmost(others, OwnValue(serverIp))
    ensures var sent := RfcVias(Forwarded(lines, true, ServerVia(serverIp), maxForw).value);
            var sentToo := RfcVias(Forwarded(others, true, ServerVia(serverIp), maxForw).value);
            sent != [] && sentToo != [] && sent[0] == sentToo[0] == OwnValue(serverIp)
  {
    hide *;
    OwnValueText(serverIp);
    PushConformsIff(lines, ServerVia(serverIp), maxForw);
    PushConformsIff(others, ServerVia(serverIp), maxForw);
  }
}
