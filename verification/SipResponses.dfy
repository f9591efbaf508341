/**
 Exactly when forwarding a response meets item 3 of section 16.7 of RFC 3261, which asks that the
 topmost Via value and no other be removed, and that nothing be sent when none is left; and inputs
 on which forwarding does not conform.
 */
module SipResponses {
  import opened Text
  import opened SipForwarding
  import opened SipVia
  import opened SipChain
  import opened SipConformance

  // ---------- What is kept and what goes ----------

  /** The values that stay: a line that begins "Via:" goes, the line after it stays whatever it is. */
  function Kept(header: seq<string>): seq<string>
    decreases |header|
  {
    if header == [] then []
    else if IsVia(header[0]) then if |header| < 2 then [] else LineValues(header[1]) + Kept(header[2..])
    else LineValues(header[0]) + Kept(header[1..])
  }

  function Removed(header: seq<string>): seq<string>
    decreases |header|
  {
    if header == [] then []
    else if IsVia(header[0]) then LineValues(header[0]) + if |header| < 2 then [] else Removed(header[2..])
    else Removed(header[1..])
  }

  lemma TwoFields(lines: seq<string>)
    requires NoneEmpty(lines) && |lines| >= 2
    ensures lines[0] != "" && lines[1] != "" && NoneEmpty(lines[2..]) && NoneEmpty(lines[1..])
    ensures RfcVias(lines) == LineValues(lines[0]) + (LineValues(lines[1]) + RfcVias(lines[2..]))
  {
    hide LineValues, RfcVias, NoneEmpty;
    FirstField(lines);
    FirstField(lines[1..]);
    assert lines[1..][1..] == lines[2..];
  }

  lemma {:induction false} StatusValues(lines: seq<string>, own: string, maxForw: Option<int>)
    requires NoneEmpty(lines) && IsVia(own) && Forwarded(lines, false, own, maxForw).Some?
    ensures RfcVias(Forwarded(lines, false, own, maxForw).value) == Kept(HeaderPart(lines, false))
    decreases |lines|
  {
    hide IsVia, EndsHeader, AfterLine, Rewritten, LineValues, RfcVias, NoneEmpty;
    if lines == [] {
      NoLinesNoValues();
    } else if IsVia(lines[0]) {
      TwoFields(lines);
      assert lines[1..][1..] == lines[2..];
      var rest := Forwarded(lines[2..], false, own, maxForw).value;
      StatusValues(lines[2..], own, maxForw);
      ValuesOfFront([lines[1]], rest);
      KeptAfterTwo(lines[0], lines[1], HeaderPart(lines[2..], false));
    } else {
      FirstField(lines);
      var after := AfterLine(lines[0], maxForw);
      var rest := Forwarded(lines[1..], false, own, after).value;
      StatusValues(lines[1..], own, after);
      RewrittenValues(lines[0], own, after, rest);
      KeptFirst(lines[0], HeaderPart(lines[1..], false));
      NothingBefore(LineValues(lines[0]));
    }
  }

  lemma KeptAfterTwo(x: string, y: string, rest: seq<string>)
    requires IsVia(x)
    ensures Kept([x, y] + rest) == LineValues(y) + Kept(rest)
  {
    hide IsVia, LineValues;
    assert ([x, y] + rest)[2..] == rest && ([x, y] + rest)[1] == y;
  }

  lemma KeptFirst(line: string, rest: seq<string>)
    requires !IsVia(line)
    ensures Kept([line] + rest) == LineValues(line) + Kept(rest)
    ensures Kept([line]) == LineValues(line)
  {
    hide IsVia, LineValues;
    assert ([line] + rest)[1..] == rest && [line][1..] == [];
    NothingBefore(LineValues(line));
  }

  lemma {:induction false} KeptAndRemoved(header: seq<string>)
    requires NoneEmpty(header)
    ensures |Kept(header)| + |Removed(header)| == |RfcVias(header)|
    ensures Removed(header) == [] ==> Kept(header) == RfcVias(header) && Vias(header) == []
    decreases |header|
  {
    hide IsVia, LineValues, RfcVias, NoneEmpty;
    if header == [] {
      NoLinesNoValues();
    } else if IsVia(header[0]) {
      ViaLinesHaveValues(header[0]);
      FirstField(header);
      if |header| >= 2 {
        TwoFields(header);
        KeptAndRemoved(header[2..]);
      } else {
        assert header[1..] == [];
        NoLinesNoValues();
      }
    } else {
      FirstField(header);
      KeptAndRemoved(header[1..]);
    }
  }

  /** If one value goes, the others keep their order around its place. */
  lemma {:induction false} OneRemoved(header: seq<string>, value: string)
    requires NoneEmpty(header) && Removed(header) == [value]
    ensures AboveVia(header) <= RfcVias(header)
    ensures exists below ::
              RfcVias(header) == AboveVia(header) + ([value] + below) && Kept(header) == AboveVia(header) + below
    decreases |header|
  {
    hide IsVia, LineValues, RfcVias, NoneEmpty;
    AboveIsPrefix(header);
    FirstField(header);
    var first, rest := LineValues(header[0]), header[1..];
    if IsVia(header[0]) {
      ViaLinesHaveValues(header[0]);
      if |header| < 2 {
        assert rest == [];
        NoLinesNoValues();
        NothingBefore(first);
        assert RfcVias(header) == [] + ([value] + []);
      } else {
        TwoFields(header);
        KeptAndRemoved(header[2..]);
        assert first == [value];
        var below := LineValues(header[1]) + RfcVias(header[2..]);
        NothingBefore([value] + below);
        NothingBefore(below);
        assert RfcVias(header) == [] + ([value] + below);
      }
    } else {
      OneRemoved(rest, value);
      var below :| RfcVias(rest) == AboveVia(rest) + ([value] + below) && Kept(rest) == AboveVia(rest) + below;
      Associative(first, AboveVia(rest), [value] + below);
      Associative(first, AboveVia(rest), below);
    }
  }

  // ---------- Removing the topmost ----------

  lemma {:induction false} RemovesTopmostIff(above: seq<string>, value: string, below: seq<string>)
    ensures (above + ([value] + below))[1..] == above + below <==> AllEqual(above, value)
  {
    var all := above + ([value] + below);
    if above == [] {
      assert all[1..] == below == above + below;
    } else {
      var n := |above| - 1;
      var front, last := above[..n], above[n];
      RemovesTopmostIff(front, last, [value] + below);
      assert front + ([last] + ([value] + below)) == all;
      assert all[1..][n] == value && (above + below)[n] == last;
      if last == value {
        assert front + ([value] + below) == above + below;
      }
      LastToo(front, last, value);
      assert above == front + [last];
    }
  }

  lemma LastToo(front: seq<string>, last: string, value: string)
    ensures AllEqual(front + [last], value) <==> last == value && AllEqual(front, value)
  {
    AllEqualConcat(front, [last], value);
    assert [last][0] == last;
  }

  /** The values that the message sent has lost: those removed, and those left over for its body. */
  function Gone(lines: seq<string>): seq<string> {
    Removed(HeaderPart(lines, false)) + ValuesBelow(lines, false)
  }

  /** The values above the first one that is gone. */
  function AboveGone(lines: seq<string>): seq<string> {
    var header := HeaderPart(lines, false);
    if Removed(header) != [] then AboveVia(header) else RfcVias(header)
  }

  /** The input condition: one value goes, and those above it, if any, are the same as it. */
  predicate PopsTopmost(lines: seq<string>) {
    |Gone(lines)| == 1 && AllEqual(AboveGone(lines), Gone(lines)[0])
  }

  lemma PopIff(lines: seq<string>)
    requires NoneEmpty(lines) && RfcVias(lines) != []
    ensures Kept(HeaderPart(lines, false)) == RfcVias(lines)[1..] <==> PopsTopmost(lines)
  {
    hide HeaderPart, Kept, Removed, RfcVias, AboveVia, ValuesBelow, NoneEmpty, Vias, AllEqual;
    var header, left := HeaderPart(lines, false), ValuesBelow(lines, false);
    ValuesSplit(lines, false);
    KeptAndRemoved(header);
    if |Gone(lines)| == 1 {
      if Removed(header) == [] {
        RemovesTopmostIff(RfcVias(header), left[0], []);
        assert left == [left[0]] + [];
        NothingBefore(RfcVias(header));
      } else {
        assert left == [] && Gone(lines) == Removed(header) == [Removed(header)[0]];
        var above, value := AboveVia(header), Removed(header)[0];
        OneRemoved(header, value);
        var below :| RfcVias(header) == above + ([value] + below) && Kept(header) == above + below;
        RemovesTopmostIff(above, value, below);
        NothingBefore(RfcVias(header));
      }
    }
  }

  /** Section 16.7 item 3, for the Via values received and those of the message sent, if one is. */
  predicate MeetsItem3(before: seq<string>, sent: Option<seq<string>>) {
    if |before| <= 1 then sent == None else sent == Some(before[1..])
  }

  /**
   The topmost value goes and no other if and only if PopsTopmost holds.  Since the message is sent
   in any case, all of item 3 is met if and only if there are two values or more besides.
   */
  lemma PopConformsIff(lines: seq<string>, own: string, maxForw: Option<int>)
    requires WholeFields(lines) && IsVia(own) && Forwarded(lines, false, own, maxForw).Some?
    ensures var before, after := RfcVias(lines), RfcVias(Forwarded(lines, false, own, maxForw).value);
            && (before != [] ==> (after == before[1..] <==> PopsTopmost(lines)))
            && (MeetsItem3(before, Some(after)) <==> PopsTopmost(lines) && |before| >= 2)
  {
    FieldsNotEmpty(lines);
    hide *;
    StatusValues(lines, own, maxForw);
    if RfcVias(lines) != [] {
      PopIff(lines);
    }
    Item3Sent(RfcVias(lines), RfcVias(Forwarded(lines, false, own, maxForw).value));
  }

  lemma Item3Sent(before: seq<string>, after: seq<string>)
    ensures MeetsItem3(before, Some(after)) <==> |before| >= 2 && after == before[1..]
  {
  }

  // ---------- With contiguous lines that begin "Via:" ----------

  /** The values of the first, third, fifth ... of the lines. */
  function EverySecond(vias: seq<string>): seq<string> {
    if vias == [] then [] else LineValues(vias[0]) + if |vias| < 2 then [] else EverySecond(vias[2..])
  }

  lemma {:induction false} NoViasNoneRemoved(header: seq<string>)
    requires Vias(header) == []
    ensures Removed(header) == []
    decreases |header|
  {
    hide IsVia, LineValues;
    if header != [] {
      ViasOfFirst(header);
      NoViasNoneRemoved(header[1..]);
    }
  }

  lemma {:induction false} ContiguousRemoved(header: seq<string>)
    requires Contiguous(header)
    ensures Removed(header) == EverySecond(Vias(header))
    decreases |header|
  {
    if Vias(header) == [] {
      NoViasNoneRemoved(header);
    } else if IsVia(header[0]) {
      FirstVia(header);
      ViasOfFirst(header);
      if |header| >= 2 {
        SecondVia(header);
        ContiguousRemoved(header[2..]);
      }
      hide IsVia, LineValues, Contiguous, ViasFirst;
      NothingBefore(LineValues(header[0]));
    } else {
      ViasOfFirst(header);
      assert Contiguous(header[1..]);
      ContiguousRemoved(header[1..]);
    }
  }

  lemma SecondVia(header: seq<string>)
    requires |header| >= 2 && Contiguous(header) && IsVia(header[0])
    ensures Contiguous(header[2..])
    ensures |Vias(header)| >= 2 ==> Vias(header)[2..] == Vias(header[2..])
    ensures |Vias(header)| < 2 ==> Vias(header[2..]) == []
  {
    var rest := header[1..];
    FirstVia(header);
    ViasOfFirst(header);
    ViasOfFirst(rest);
    assert rest[1..] == header[2..];
    if IsVia(rest[0]) {
      FirstVia(rest);
    } else {
      assert Vias(rest) == [];
      NoViasAreContiguous(header[2..]);
    }
    hide IsVia, Contiguous, ViasFirst;
  }

  lemma {:induction false} ViasFirstPrefix(x: seq<string>, y: seq<string>)
    requires ViasFirst(x + y)
    ensures ViasFirst(x)
  {
    hide IsVia;
    ViasConcat(x, y);
    if x != [] && Vias(x) != [] {
      assert (x + y)[1..] == x[1..] + y;
      ViasFirstPrefix(x[1..], y);
    }
  }

  lemma {:induction false} ContiguousPrefix(x: seq<string>, y: seq<string>)
    requires Contiguous(x + y)
    ensures Contiguous(x)
  {
    hide IsVia;
    if x == [] {
      NoViasAreContiguous(x);
    } else if ViasFirst(x + y) {
      ViasFirstPrefix(x, y);
    } else {
      assert (x + y)[1..] == x[1..] + y;
      ContiguousPrefix(x[1..], y);
    }
  }

  lemma {:induction false} NoValuesNoVias(lines: seq<string>)
    requires NoneEmpty(lines) && RfcVias(lines) == []
    ensures Vias(lines) == []
  {
    hide LineValues, RfcVias, NoneEmpty, IsVia;
    if lines != [] {
      FirstField(lines);
      NoValuesNoVias(lines[1..]);
      if IsVia(lines[0]) {
        ViaLinesHaveValues(lines[0]);
      }
    }
  }

  lemma {:induction false} ViasAreVias(lines: seq<string>)
    ensures forall v | v in Vias(lines) :: IsVia(v)
  {
    hide IsVia;
    if lines != [] {
      ViasAreVias(lines[1..]);
    }
  }

  lemma OneOfEverySecond(vias: seq<string>)
    requires vias != [] && forall v | v in vias :: IsVia(v)
    ensures |EverySecond(vias)| == 1 <==> |vias| <= 2 && |LineValues(vias[0])| == 1
    ensures |EverySecond(vias)| == 1 ==> EverySecond(vias) == LineValues(vias[0])
    ensures LineValues(vias[0]) != []
  {
    assert vias[0] in vias;
    ViaLinesHaveValues(vias[0]);
    if |vias| > 2 {
      assert vias[2] in vias && vias[2..][0] == vias[2];
      ViaLinesHaveValues(vias[2]);
    } else if |vias| == 2 {
      assert vias[2..] == [];
    }
    hide LineValues, IsVia;
    NothingBefore(LineValues(vias[0]));
  }

  /**
   In a response whose lines that begin "Via:" are contiguous, with no Via field below
   Content-Length, the topmost value goes and no other if and only if there are at most two
   such lines, the first has one value, and Via fields spelled otherwise above it repeat it.
   Item 3 is met if and only if there is also a second value.
   */
  lemma PopConformsIffTwoVias(lines: seq<string>, own: string)
    requires WholeFields(lines) && Contiguous(lines) && Vias(lines) != [] && ValuesBelow(lines, false) == []
    requires IsVia(own) && Forwarded(lines, false, own, None).Some?
    ensures RfcVias(lines) != []
    ensures var before, after := RfcVias(lines), RfcVias(Forwarded(lines, false, own, None).value);
            var first := LineValues(Vias(lines)[0]);
            var pops := |Vias(lines)| <= 2 && |first| == 1 && AllEqual(AboveVia(HeaderPart(lines, false)), first[0]);
            && (after == before[1..] <==> pops)
            && (MeetsItem3(before, Some(after)) <==> pops && |before| >= 2)
  {
    hide *;
    FieldsNotEmpty(lines);
    SomeValues(lines);
    ViasInHeader(lines);
    var header := HeaderPart(lines, false);
    ContiguousRemoved(header);
    ViasAreVias(header);
    OneOfEverySecond(Vias(header));
    PopConformsIff(lines, own, None);
    PopsTopmostOf(lines, LineValues(Vias(lines)[0]));
  }

  /** No Via field is spelled otherwise than the proxy expects. */
  predicate PlainVias(lines: seq<string>) {
    forall i | 0 <= i < |lines| :: IsViaField(lines[i]) ==> IsVia(lines[i])
  }

  lemma PlainTail(lines: seq<string>)
    requires PlainVias(lines) && lines != []
    ensures PlainVias(lines[1..]) && (LineValues(lines[0]) != [] ==> IsVia(lines[0]))
  {
    hide IsVia, IsViaField, Pieces, Trimmed;
    assert forall i | 0 <= i < |lines[1..]| :: lines[1..][i] == lines[i + 1];
  }

  lemma {:induction false} PlainValues(lines: seq<string>)
    requires NoneEmpty(lines) && PlainVias(lines)
    ensures AboveVia(lines) == []
    ensures |RfcVias(lines)| >= |Vias(lines)| && (Vias(lines) == [] ==> RfcVias(lines) == [])
    ensures |Vias(lines)| == 1 ==> RfcVias(lines) == LineValues(Vias(lines)[0])
  {
    hide IsVia, LineValues, RfcVias, NoneEmpty, PlainVias;
    if lines == [] {
      NoLinesNoValues();
    } else {
      FirstField(lines);
      PlainTail(lines);
      PlainValues(lines[1..]);
      ViasOfFirst(lines);
      if IsVia(lines[0]) {
        ViaLinesHaveValues(lines[0]);
      }
    }
  }

  lemma PlainPrefix(x: seq<string>, y: seq<string>)
    requires PlainVias(x + y)
    ensures PlainVias(x)
  {
    hide IsVia, IsViaField;
    forall i | 0 <= i < |x| ensures IsViaField(x[i]) ==> IsVia(x[i]) {
      assert (x + y)[i] == x[i];
    }
  }

  lemma PlainHeader(lines: seq<string>)
    requires NoneEmpty(lines) && PlainVias(lines)
    ensures AboveVia(HeaderPart(lines, false)) == []
  {
    hide *;
    var header := HeaderPart(lines, false);
    ValuesSplit(lines, false);
    HeaderPartIsPrefix(lines, false);
    assert lines == header + lines[|header|..];
    PlainPrefix(header, lines[|header|..]);
    PlainValues(header);
  }

  /**
   In such a response without Via fields spelled otherwise, item 3 is met if and only if exactly
   two lines begin "Via:" and the first has one value.
   */
  lemma PopConformsIffPlain(lines: seq<string>, own: string)
    requires WholeFields(lines) && Contiguous(lines) && PlainVias(lines) && ValuesBelow(lines, false) == []
    requires IsVia(own) && Forwarded(lines, false, own, None).Some?
    ensures MeetsItem3(RfcVias(lines), Some(RfcVias(Forwarded(lines, false, own, None).value))) <==>
              |Vias(lines)| == 2 && |LineValues(Vias(lines)[0])| == 1
  {
    hide *;
    FieldsNotEmpty(lines);
    PlainValues(lines);
    PlainHeader(lines);
    if Vias(lines) == [] {
      PopConformsIff(lines, own, None);
    } else {
      PopConformsIffTwoVias(lines, own);
      NoneUnequal(LineValues(Vias(lines)[0]));
    }
  }

  lemma NoneUnequal(values: seq<string>)
    ensures values != [] ==> AllEqual([], values[0])
  {
  }

  lemma ViasInHeader(lines: seq<string>)
    requires NoneEmpty(lines) && Contiguous(lines) && ValuesBelow(lines, false) == []
    ensures Contiguous(HeaderPart(lines, false)) && Vias(HeaderPart(lines, false)) == Vias(lines)
  {
    hide HeaderPart, RfcVias, NoneEmpty, Vias, Contiguous;
    HeaderPartIsPrefix(lines, false);
    var header := HeaderPart(lines, false);
    var left := lines[|header|..];
    assert lines == header + left;
    LeftFields(header, left);
    NoValuesNoVias(left);
    ViasConcat(header, left);
    NothingBefore(Vias(header));
    ContiguousPrefix(header, left);
  }

  lemma PopsTopmostOf(lines: seq<string>, first: seq<string>)
    requires ValuesBelow(lines, false) == [] && first != []
    requires |Removed(HeaderPart(lines, false))| == 1 ==> Removed(HeaderPart(lines, false)) == first
    requires |first| > 1 ==> |Removed(HeaderPart(lines, false))| != 1
    ensures PopsTopmost(lines) <==>
              |Removed(HeaderPart(lines, false))| == 1 && AllEqual(AboveVia(HeaderPart(lines, false)), first[0])
  {
    hide HeaderPart, Removed, RfcVias, AboveVia, AllEqual, ValuesBelow;
    NothingBefore(Removed(HeaderPart(lines, false)));
  }

  lemma LeftFields(header: seq<string>, left: seq<string>)
    requires NoneEmpty(header + left)
    ensures NoneEmpty(left)
  {
    forall i | 0 <= i < |left| ensures left[i] != "" {
      assert (header + left)[|header| + i] == left[i];
    }
  }

  lemma SomeValues(lines: seq<string>)
    requires NoneEmpty(lines) && Vias(lines) != []
    ensures RfcVias(lines) != []
  {
    if RfcVias(lines) == [] {
      NoValuesNoVias(lines);
    }
  }

  // ---------- The body ----------

  /** A Content-Length line, other than one kept after a removed line, separates the body. */
  predicate Closes(lines: seq<string>, request: bool)
    decreases |lines|
  {
    lines != [] &&
    if IsVia(lines[0]) && !request then |lines| >= 2 && Closes(lines[2..], request)
    else EndsHeader(lines[0]) || Closes(lines[1..], request)
  }

  lemma {:induction false} BodySeparated(lines: seq<string>, body: seq<string>, request: bool)
    requires Closes(lines, request)
    ensures HeaderPart(lines + body, request) == HeaderPart(lines, request)
    decreases |lines|
  {
    hide IsVia, EndsHeader;
    assert (lines + body)[0] == lines[0];
    if IsVia(lines[0]) && !request {
      assert (lines + body)[2..] == lines[2..] + body && (lines + body)[..2] == lines[..2];
      BodySeparated(lines[2..], body, request);
    } else if !EndsHeader(lines[0]) {
      assert (lines + body)[1..] == lines[1..] + body;
      BodySeparated(lines[1..], body, request);
    }
  }

  /** So no line of the body counts for the header, even if it begins "Via:". */
  lemma BodyDoesNotMatter(lines: seq<string>, body: seq<string>, request: bool, own: string)
    requires NoneEmpty(lines) && NoneEmpty(lines + body) && Closes(lines, request) && IsVia(own)
    requires Forwarded(lines, request, own, None).Some? && Forwarded(lines + body, request, own, None).Some?
    ensures RfcVias(Forwarded(lines + body, request, own, None).value)
        == RfcVias(Forwarded(lines, request, own, None).value)
  {
    hide *;
    BodySeparated(lines, body, request);
    if request {
      RequestValues(lines, own, None);
      RequestValues(lines + body, own, None);
    } else {
      StatusValues(lines, own, None);
      StatusValues(lines + body, own, None);
    }
  }

  // ---------- Inputs that fail ----------

  lemma {:induction false} PiecesSplit(x: string, y: string)
    requires ',' !in x && '"' !in x
    ensures Pieces(x + "," + y, false) == [x] + Pieces(y, false)
  {
    var text := x + "," + y;
    if x == "" {
      assert text[1..] == y;
    } else {
      assert text[1..] == x[1..] + "," + y;
      PiecesSplit(x[1..], y);
      assert [x[0]] + x[1..] == x;
      assert ([x[1..]] + Pieces(y, false))[1..] == Pieces(y, false);
    }
  }

  lemma ValuesAfterVia(rest: string)
    ensures IsVia("Via:" + rest) && LineValues("Via:" + rest) == Trimmed(Pieces(rest, false))
  {
    Cut("Via:", rest);
    hide Pieces, LineValues;
    ViaLinesHaveValues("Via:" + rest);
  }

  lemma OneLetter(c: char)
    requires 'a' <= c <= 'z'
    ensures Pieces([c], false) == [[c]] && Trim([c]) == [c] && Trimmed([[c]]) == [[c]]
  {
    NoComma([c]);
    hide Pieces;
  }

  lemma CommaValues()
    ensures IsVia("Via:p,c") && LineValues("Via:p,c") == ["p", "c"]
  {
    hide *;
    ValuesAfterVia("p,c");
    assert "Via:p,c" == "Via:" + "p,c" && "p,c" == "p" + "," + "c";
    PiecesSplit("p", "c");
    OneLetter('p');
    OneLetter('c');
    TwoTrimmed("p", "c");
  }

  lemma TwoTrimmed(x: string, y: string)
    ensures Trimmed([x] + [y]) == [Trim(x), Trim(y)]
  {
    hide Trim;
  }

  lemma StartsOtherwise(line: string, own: string)
    requires line != "" && line[0] in {'S', 'F', 'B'}
    ensures LineValues(line) == [] && !IsVia(line) && !EndsHeader(line) && AfterLine(line, None) == None
    ensures Rewritten(line, own, None) == Some([line])
  {
    ViaFieldsBeginWithV(line);
    hide LineValues;
    assert "Via:"[0] == 'V' && "Content-Length:"[0] == 'C' && "Route"[0] == 'R' && "Max-Forwards:"[0] == 'M';
  }

  lemma OfOne(line: string)
    requires line != ""
    ensures RfcVias([line]) == LineValues(line) && Vias([line]) == if IsVia(line) then [line] else []
  {
    hide LineValues, IsVia;
    assert [line][1..] == [];
    NothingBefore(LineValues(line));
  }

  lemma OfThree(x: string, y: string, z: string)
    requires x != "" && y != "" && z != ""
    ensures RfcVias([x, z]) == LineValues(x) + LineValues(z)
    ensures RfcVias([x, y, z]) == LineValues(x) + (LineValues(y) + LineValues(z))
  {
    hide LineValues;
    OfOne(z);
    assert [x, z][1..] == [z] && [y, z][1..] == [z] && [x, y, z][1..] == [y, z];
  }

  lemma StatusOfThree(status: string, via: string, from: string, own: string)
    requires status != "" && !IsVia(status) && IsVia(via)
    requires Rewritten(status, own, None) == Some([status]) && AfterLine(status, None) == None
    ensures Forwarded([status, via, from], false, own, None) == Some([status, from])
    ensures Vias([status, via, from]) == [via] + Vias([from])
  {
    hide IsVia, Rewritten, AfterLine;
    var lines := [status, via, from];
    var none: seq<string> := [];
    assert lines[1..] == [via, from] && [via, from][1..] == [from] && [from][1..] == none;
    assert Forwarded(none, false, own, None) == Some(none);
    assert [from] + none == [from] && [status] + [from] == [status, from];
    assert Forwarded([via, from], false, own, None) == Some([from]);
    assert Vias([via, from]) == [via] + Vias([from]);
  }

  /** Two values on the one line that begins "Via:": both go, the one below the proxy's own too. */
  lemma CommaListIsLost(own: string)
    ensures var lines := ["SIP/2.0 200 OK", "Via:p,c", "From:x"];
            var out := Forwarded(lines, false, own, None);
            && |Vias(lines)| == 1 && RfcVias(lines) == ["p", "c"]
            && out == Some(["SIP/2.0 200 OK", "From:x"]) && RfcVias(out.value) == []
  {
    var status, via, from := "SIP/2.0 200 OK", "Via:p,c", "From:x";
    CommaValues();
    StartsOtherwise(status, own);
    StartsOtherwise(from, own);
    hide LineValues, Rewritten, AfterLine, IsVia, Forwarded, RfcVias, Vias;
    OfThree(status, via, from);
    OfOne(from);
    StatusOfThree(status, via, from, own);
    NothingBefore(["p", "c"]);
  }

  /** The one value of the one line that begins "Via:" goes, as it should, but the rest is sent. */
  lemma LastValueGoes(own: string)
    requires IsVia(own)
    ensures var lines := ["SIP/2.0 200 OK", "Via:b", "From:x"];
            var out := Forwarded(lines, false, own, None);
            && RfcVias(lines) == ["b"] && PopsTopmost(lines)
            && out == Some(["SIP/2.0 200 OK", "From:x"]) && RfcVias(out.value) == []
            && !MeetsItem3(RfcVias(lines), Some(RfcVias(out.value)))
  {
    hide *;
    var status, via, from := "SIP/2.0 200 OK", "Via:b", "From:x";
    ViaValues();
    StartsOtherwise(status, own);
    StartsOtherwise(from, own);
    OfThree(status, via, from);
    StatusOfThree(status, via, from, own);
    OneOfThree([], "b");
    WholeThree();
    assert [status, via, from] == ["SIP/2.0 200 OK", "Via:b", "From:x"];
    PopConformsIff([status, via, from], own, None);
    Item3Sent(["b"], []);
  }

  lemma OneOfThree(none: seq<string>, value: string)
    requires none == []
    ensures none + ([value] + none) == [value] && none + none == none && [value][1..] == none
  {
  }

  lemma WholeThree()
    ensures WholeFields(["SIP/2.0 200 OK", "Via:b", "From:x"])
  {
    assert "SIP/2.0 200 OK"[0] == 'S' && "Via:b"[0] == 'V' && "From:x"[0] == 'F';
  }

  lemma CompactValues()
    ensures !IsVia("v:a") && !EndsHeader("v:a") && LineValues("v:a") == ["a"]
  {
    assert "v:a"[1..] == ":a" && BeforeColon(":a") == "" && BeforeColon("v:a") == "v";
    assert "v"[1..] == "" && LowerCase("v") == "v" && TrimRight("v") == "v";
    assert "v:a"[2..] == "a" && "a"[1..] == "";
    OneLetter('a');
    assert "Via:"[0] == 'V' && "Content-Length:"[0] == 'C';
    hide Trim, Pieces;
  }

  lemma ViaValues()
    ensures IsVia("Via:b") && LineValues("Via:b") == ["b"]
  {
    hide *;
    ValuesAfterVia("b");
    assert "Via:b" == "Via:" + "b";
    OneLetter('b');
  }

  lemma RequestOfThree(bye: string, compact: string, via: string, own: string)
    requires bye != "" && LineValues(bye) == [] && !IsVia(bye) && !IsVia(compact) && IsVia(via)
    requires Rewritten(bye, own, None) == Some([bye]) && AfterLine(bye, None) == None
    requires Rewritten(compact, own, None) == Some([compact]) && AfterLine(compact, None) == None
    requires Rewritten(via, own, None) == Some([own, via]) && AfterLine(via, None) == None
    ensures Forwarded([bye, compact, via], true, own, None) == Some([bye, compact, own, via])
    ensures RfcVias([bye, compact, own, via]) == RfcVias([compact, own, via])
    ensures Vias([bye, compact, via]) == [via]
  {
    LastIsVia(bye, compact, via);
    hide Vias, IsVia, Rewritten, AfterLine, LineValues;
    var none: seq<string> := [];
    assert [bye, compact, via][1..] == [compact, via] && [compact, via][1..] == [via] && [via][1..] == none;
    assert Forwarded(none, true, own, None) == Some(none);
    assert [own, via] + none == [own, via] && [compact] + [own, via] == [compact, own, via];
    assert Forwarded([via], true, own, None) == Some([own, via]);
    assert Forwarded([compact, via], true, own, None) == Some([compact, own, via]);
    assert [bye] + [compact, own, via] == [bye, compact, own, via];
    assert [bye, compact, own, via][1..] == [compact, own, via];
    NothingBefore(RfcVias([compact, own, via]));
  }

  lemma LastIsVia(x: string, y: string, via: string)
    requires !IsVia(x) && !IsVia(y) && IsVia(via)
    ensures Vias([x, y, via]) == [via]
  {
    hide *;
    ViasOfFirst([x, y, via]);
    ViasOfFirst([y, via]);
    ViasOfFirst([via]);
    assert [x, y, via][1..] == [y, via] && [y, via][1..] == [via];
  }

  lemma ThreeKept(own: string)
    ensures Rewritten("v:a", own, None) == Some(["v:a"]) && AfterLine("v:a", None) == None
    ensures Rewritten("Via:b", own, None) == Some([own, "Via:b"]) && AfterLine("Via:b", None) == None
  {
    assert "Via:b" == "Via:" + "b";
    Cut("Via:", "b");
    assert "Via:"[0] == 'V' && "Content-Length:"[0] == 'C' && "Route"[0] == 'R' && "Max-Forwards:"[0] == 'M';
  }

  /** A field in compact form above the one line that begins "Via:": the own value lands below it. */
  lemma OwnValueBelow(own: string)
    requires IsVia(own) && |LineValues(own)| == 1
    ensures var lines := ["BYE sip:b SIP/2.0", "v:a", "Via:b"];
            var value := LineValues(own)[0];
            && |Vias(lines)| == 1 && RfcVias(lines) == ["a", "b"] && Forwarded(lines, true, own, None).Some?
            && RfcVias(Forwarded(lines, true, own, None).value) == ["a", value, "b"]
  {
    hide *;
    CompactValues();
    ViaValues();
    StartsOtherwise("BYE sip:b SIP/2.0", own);
    ThreeKept(own);
    BelowOther("BYE sip:b SIP/2.0", "v:a", "Via:b", own, "a", LineValues(own)[0], "b");
  }

  lemma BelowOther(bye: string, compact: string, via: string, own: string, a: string, value: string, b: string)
    requires bye != "" && LineValues(bye) == [] && !IsVia(bye) && !IsVia(compact) && IsVia(via) && IsVia(own)
    requires LineValues(compact) == [a] && LineValues(via) == [b] && LineValues(own) == [value]
    requires Rewritten(bye, own, None) == Some([bye]) && AfterLine(bye, None) == None
    requires Rewritten(compact, own, None) == Some([compact]) && AfterLine(compact, None) == None
    requires Rewritten(via, own, None) == Some([own, via]) && AfterLine(via, None) == None
    ensures var lines := [bye, compact, via];
            && |Vias(lines)| == 1 && RfcVias(lines) == [a, b]
            && Forwarded(lines, true, own, None).Some?
            && RfcVias(Forwarded(lines, true, own, None).value) == [a, value, b]
  {
    hide *;
    ViaFieldsBeginWithV(compact);
    ViaFieldsBeginWithV(via);
    ViaLinesHaveValues(own);
    OfThree(bye, compact, via);
    OfThree(compact, own, via);
    RequestOfThree(bye, compact, via, own);
    Three(a, value, b);
  }

  lemma Three(a: string, value: string, b: string)
    ensures [] + ([a] + [b]) == [a, b] && [a] + ([value] + [b]) == [a, value, b]
  {
  }
}
