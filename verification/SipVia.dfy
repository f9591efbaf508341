/**
 The Via header lines of a message that passes through proxies and back: pushing and
 popping are inverse for any number of Via lines.
 */
module SipVia {
  import opened Text
  import opened SipForwarding

  function Vias(lines: seq<string>): seq<string> {
    if lines == [] then [] else (if IsVia(lines[0]) then [lines[0]] else []) + Vias(lines[1..])
  }

  /** A request gets the proxy's own Via before every Via line. */
  function Push(vias: seq<string>, own: string): seq<string> {
    if vias == [] then [] else [own, vias[0]] + Push(vias[1..], own)
  }

  /** A response loses the first, third, fifth ... Via line. */
  function Pop(vias: seq<string>): seq<string> {
    if |vias| < 2 then [] else [vias[1]] + Pop(vias[2..])
  }

  lemma {:induction false} PopUndoesPush(vias: seq<string>, own: string)
    ensures Pop(Push(vias, own)) == vias
  {
    if vias != [] {
      PopUndoesPush(vias[1..], own);
      var rest := Push(vias[1..], own);
      assert Push(vias, own)[1] == vias[0] && Push(vias, own)[2..] == rest;
    }
  }

  lemma ViasOfFirst(lines: seq<string>)
    requires lines != []
    ensures Vias([lines[0]]) == if IsVia(lines[0]) then [lines[0]] else []
    ensures Vias(lines) == Vias([lines[0]]) + Vias(lines[1..])
    ensures !IsVia(lines[0]) ==> Vias(lines) == Vias(lines[1..])
  {
    hide IsVia;
    assert [lines[0]][1..] == [];
  }

  lemma {:induction false} ViasConcat(x: seq<string>, y: seq<string>)
    ensures Vias(x + y) == Vias(x) + Vias(y)
  {
    hide IsVia;
    if x == [] {
      assert x + y == y;
    } else {
      ViasConcat(x[1..], y);
      assert (x + y)[1..] == x[1..] + y;
      Associative(Vias([x[0]]), Vias(x[1..]), Vias(y));
      ViasOfFirst(x);
      ViasOfFirst(x + y);
    }
  }

  lemma {:induction false} PushConcat(x: seq<string>, y: seq<string>, own: string)
    ensures Push(x + y, own) == Push(x, own) + Push(y, own)
  {
    if x == [] {
      assert x + y == y;
    } else {
      PushConcat(x[1..], y, own);
      assert (x + y)[1..] == x[1..] + y;
    }
  }

  lemma ViasOfTwo(x: string, y: string)
    ensures Vias([x]) == if IsVia(x) then [x] else []
    ensures Vias([x, y]) == Vias([x]) + Vias([y]) && Vias([]) == []
  {
    hide IsVia;
    assert [x][1..] == [];
    ViasConcat([x], [y]);
    assert [x] + [y] == [x, y];
  }

  lemma PushOne(x: string, own: string)
    ensures Push([], own) == [] && Push([x], own) == [own, x]
  {
    assert [x][1..] == [];
  }


  // ---------- Requests ----------

  lemma ReplacementsAreNoVias(n: int, serverIp: string)
    ensures !IsVia(MaxForwardsLine(n)) && !IsVia(RecordRouteLine(serverIp)) && !IsVia(ALLOW_LINE) && !IsVia("")
  {
    assert MaxForwardsLine(n)[0] == 'M' && RecordRouteLine(serverIp)[0] == 'R' && ALLOW_LINE[0] == 'A'
        && "Via:"[0] == 'V';
  }

  lemma OtherNames(line: string)
    ensures IsVia(line) ==> !("Route" <= line) && !("Content-Length:" <= line) && !(ALLOW <= line) && !IsDropped(line)
  {
    assert "Route"[0] == 'R' && "Content-Length:"[0] == 'C' && ALLOW[0] == 'A' && "Via:"[0] == 'V'
        && "Route:"[0] == 'R' && "Supported:"[0] == 'S' && "User-Agent:"[0] == 'U';
  }

  /** Rewriting one line touches its Via line only by adding the proxy's own. */
  lemma RewrittenVias(line: string, own: string, maxForw: Option<int>)
    requires IsVia(own) && Rewritten(line, own, maxForw).Some?
    ensures Vias(Rewritten(line, own, maxForw).value) == Push(Vias([line]), own)
  {
    hide *;
    RewrittenShape(line, own, maxForw);
    OtherNames(line);
    ReplacementsAreNoVias(if maxForw.Some? then maxForw.value else 0, "");
    ViasOfTwo(line, "");
    ViasOfTwo("", "");
    PushOne(line, own);
    if IsVia(line) {
      ViasOfTwo(own, line);
    } else if maxForw.Some? {
      ViasOfTwo(MaxForwardsLine(maxForw.value), "");
    }
  }

  lemma InviteRewrittenVias(line: string, serverIp: string, maxForw: Option<int>)
    requires IsVia(ServerVia(serverIp)) && InviteRewritten(line, serverIp, maxForw).Some?
    ensures Vias(InviteRewritten(line, serverIp, maxForw).value) == Push(Vias([line]), ServerVia(serverIp))
  {
    hide *;
    var own := ServerVia(serverIp);
    InviteShape(line, serverIp, maxForw);
    NamesDiffer(line);
    OtherNames(line);
    ReplacementsAreNoVias(if maxForw.Some? then maxForw.value else 0, serverIp);
    ViasOfTwo(line, "");
    ViasOfTwo("", "");
    ViasOfTwo(ALLOW_LINE, "");
    PushOne(line, own);
    if IsVia(line) {
      ViasOfTwo(own, line);
    } else if maxForw.Some? {
      ViasOfTwo(MaxForwardsLine(maxForw.value), RecordRouteLine(serverIp));
      ViasOfTwo(RecordRouteLine(serverIp), "");
    }
  }

  lemma {:induction false} RequestPushes(lines: seq<string>, own: string, maxForw: Option<int>)
    requires IsVia(own) && Forwarded(lines, true, own, maxForw).Some?
    ensures Vias(Forwarded(lines, true, own, maxForw).value) == Push(Vias(lines), own)
    decreases |lines|
  {
    hide IsVia, AfterLine, Rewritten;
    if lines != [] {
      var after := AfterLine(lines[0], maxForw);
      var front := Rewritten(lines[0], own, after).value;
      RequestPushes(lines[1..], own, after);
      RewrittenVias(lines[0], own, after);
      ViasConcat(front, Forwarded(lines[1..], true, own, after).value);
      ViasOfFirst(lines);
      PushConcat(Vias([lines[0]]), Vias(lines[1..]), own);
    }
  }

  lemma {:induction false} InvitePushes(lines: seq<string>, serverIp: string, maxForw: Option<int>)
    requires IsVia(ServerVia(serverIp)) && Invited(lines, serverIp, maxForw).Some?
    ensures Vias(Invited(lines, serverIp, maxForw).value) == Push(Vias(lines), ServerVia(serverIp))
    decreases |lines|
  {
    hide IsVia, AfterLine, InviteRewritten, ServerVia;
    if lines != [] {
      var own, after := ServerVia(serverIp), AfterLine(lines[0], maxForw);
      var front := InviteRewritten(lines[0], serverIp, after).value;
      InvitePushes(lines[1..], serverIp, after);
      InviteRewrittenVias(lines[0], serverIp, after);
      ViasConcat(front, Invited(lines[1..], serverIp, after).value);
      ViasOfFirst(lines);
      PushConcat(Vias([lines[0]]), Vias(lines[1..]), own);
    }
  }

  lemma {:induction false} PushLength(vias: seq<string>, own: string)
    ensures |Push(vias, own)| == 2 * |vias|
  {
    if vias != [] {
      PushLength(vias[1..], own);
    }
  }

  // ---------- Responses ----------

  /** The Via lines come first, one after the other. */
  predicate ViasFirst(lines: seq<string>) {
    Vias(lines) == [] || (IsVia(lines[0]) && ViasFirst(lines[1..]))
  }

  /** The Via lines follow each other, as section 8.2.6.2 has them copied. */
  predicate Contiguous(lines: seq<string>) {
    ViasFirst(lines) || (lines != [] && !IsVia(lines[0]) && Contiguous(lines[1..]))
  }

  lemma {:induction false} NoViasBefore(front: seq<string>, out: seq<string>)
    requires Vias(front) == []
    ensures Vias(front + out) == Vias(out)
    ensures Contiguous(out) ==> Contiguous(front + out)
  {
    hide IsVia;
    ViasConcat(front, out);
    if front == [] {
      assert front + out == out;
    } else {
      assert (front + out)[1..] == front[1..] + out;
      NoViasBefore(front[1..], out);
    }
  }

  lemma ViaBefore(line: string, out: seq<string>)
    requires IsVia(line)
    ensures Vias([line] + out) == [line] + Vias(out)
    ensures ViasFirst(out) ==> ViasFirst([line] + out)
  {
    hide IsVia;
    assert ([line] + out)[1..] == out;
  }

  lemma NoViasAreContiguous(lines: seq<string>)
    requires Vias(lines) == []
    ensures ViasFirst(lines) && Contiguous(lines)
  {
  }

  /** Without Via lines a status is rewritten like a request, and gets none. */
  lemma {:induction false} StatusAddsNone(lines: seq<string>, own: string, maxForw: Option<int>)
    requires Vias(lines) == [] && Forwarded(lines, false, own, maxForw).Some?
    ensures Vias(Forwarded(lines, false, own, maxForw).value) == []
    decreases |lines|
  {
    if lines != [] {
      var after := AfterLine(lines[0], maxForw);
      var front := Rewritten(lines[0], own, after).value;
      StatusAddsNone(lines[1..], own, after);
      LineWithoutVia(lines[0], own, after);
      ViasConcat(front, Forwarded(lines[1..], false, own, after).value);
      hide IsVia, AfterLine, Rewritten;
    }
  }

  lemma LineWithoutVia(line: string, own: string, maxForw: Option<int>)
    requires !IsVia(line) && Rewritten(line, own, maxForw).Some?
    ensures Vias(Rewritten(line, own, maxForw).value) == []
  {
    assert Rewritten(line, own, maxForw) == Rewritten(line, "Via:", maxForw);
    RewrittenVias(line, "Via:", maxForw);
    ViasOfTwo(line, "");
    PushOne(line, "Via:");
    hide IsVia, Rewritten;
  }

  /** From the first Via line on: every second Via line goes. */
  lemma {:induction false} StatusPopsFirst(lines: seq<string>, own: string, maxForw: Option<int>)
    requires ViasFirst(lines) && Forwarded(lines, false, own, maxForw).Some?
    ensures var out := Forwarded(lines, false, own, maxForw).value;
            Vias(out) == Pop(Vias(lines)) && ViasFirst(out)
    decreases |lines|
  {
    if Vias(lines) == [] {
      StatusAddsNone(lines, own, maxForw);
    } else {
      var rest := lines[1..];
      var out := Forwarded(rest[1..], false, own, maxForw).value;
      ViasOfFirst(lines);
      ViasOfFirst(rest);
      ViasOfTwo(lines[0], rest[0]);
      if IsVia(rest[0]) {
        StatusPopsFirst(rest[1..], own, maxForw);
        hide IsVia, Forwarded;
        ViaBefore(rest[0], out);
        PopTwo(lines[0], rest[0], Vias(rest[1..]));
      } else {
        ViasOfTwo(rest[0], "");
        StatusAddsNone(rest[1..], own, maxForw);
        hide IsVia, Forwarded;
        NoViasBefore([rest[0]], out);
      }
    }
  }

  lemma NotFirst(lines: seq<string>)
    requires Contiguous(lines) && !ViasFirst(lines)
    ensures lines != [] && !IsVia(lines[0]) && Contiguous(lines[1..])
  {
  }

  /** What a response loses: its Via lines one, three, five ...  The others stay contiguous. */
  lemma {:induction false} StatusPops(lines: seq<string>, own: string, maxForw: Option<int>)
    requires Contiguous(lines) && Forwarded(lines, false, own, maxForw).Some?
    ensures var out := Forwarded(lines, false, own, maxForw).value;
            Vias(out) == Pop(Vias(lines)) && Contiguous(out)
    decreases |lines|
  {
    if ViasFirst(lines) {
      StatusPopsFirst(lines, own, maxForw);
    } else {
      var after := AfterLine(lines[0], maxForw);
      var front := Rewritten(lines[0], own, after).value;
      StatusPops(lines[1..], own, after);
      ViasOfFirst(lines);
      NotFirst(lines);
      LineWithoutVia(lines[0], own, after);
      hide Rewritten, AfterLine, IsVia, ViasFirst, Contiguous, Vias;
      NoViasBefore(front, Forwarded(lines[1..], false, own, after).value);
    }
  }

  lemma PopTwo(x: string, y: string, vias: seq<string>)
    ensures Pop([x] + ([y] + vias)) == [y] + Pop(vias)
  {
    assert ([x] + ([y] + vias))[2..] == vias;
  }
}
