/**
 The reading of Via header fields by section 7.3 of RFC 3261, against what that section says of
 case, the compact form, blanks, commas and quoted strings.
 */
module SipFields {
  import opened SipConformance

  // ---------- Field names ----------

  predicate SameLetter(c: char, lower: char) {
    c == lower || ('a' <= lower <= 'z' && c == lower - 'a' + 'A')
  }

  predicate AllLws(s: string) {
    forall i | 0 <= i < |s| :: s[i] == ' ' || s[i] == '\t'
  }

  lemma {:induction false} TrimRightOf(s: string, blanks: string)
    requires AllLws(blanks) && (s == "" || !IsLws(s[|s| - 1]))
    ensures TrimRight(s + blanks) == s
    decreases |blanks|
  {
    if blanks == "" {
      assert s + blanks == s;
    } else {
      var n := |blanks| - 1;
      assert (s + blanks)[..|s| + n] == s + blanks[..n];
      TrimRightOf(s, blanks[..n]);
    }
  }

  lemma {:induction false} TrimLeftOf(blanks: string, s: string)
    requires AllLws(blanks) && (s == "" || !IsLws(s[0]))
    ensures TrimLeft(blanks + s) == s
  {
    if blanks == "" {
      assert blanks + s == s;
    } else {
      assert (blanks + s)[1..] == blanks[1..] + s;
      TrimLeftOf(blanks[1..], s);
    }
  }

  /** Blanks around a value do not belong to it. */
  lemma TrimOf(before: string, value: string, after: string)
    requires AllLws(before) && AllLws(after) && value != "" && !IsLws(value[0]) && !IsLws(value[|value| - 1])
    ensures Trim(before + value + after) == value
  {
    TrimRightOf(before + value, after);
    TrimLeftOf(before, value);
  }

  lemma {:induction false} BeforeColonOf(name: string, rest: string)
    requires ':' !in name
    ensures BeforeColon(name + ":" + rest) == name
  {
    if name != "" {
      assert (name + ":" + rest)[1..] == name[1..] + ":" + rest;
      BeforeColonOf(name[1..], rest);
    }
  }

  lemma LowerVia(name: string)
    requires |name| == 3 && SameLetter(name[0], 'v') && SameLetter(name[1], 'i') && SameLetter(name[2], 'a')
    ensures LowerCase(name) == "via"
  {
    var second, third := name[1..], name[2..];
    assert second[1..] == third && third[1..] == "";
    assert LowerCase(third) == "a";
    assert LowerCase(second) == "i" + "a";
    assert LowerCase(name) == "v" + ("i" + "a");
  }

  /** "Via" in any case, and "v" or "V", with blanks before the colon or none, begin a Via field. */
  lemma ViaFieldOf(name: string, blanks: string, rest: string)
    requires AllLws(blanks) && |name| in {1, 3} && SameLetter(name[0], 'v')
    requires |name| == 3 ==> SameLetter(name[1], 'i') && SameLetter(name[2], 'a')
    ensures IsViaField(name + blanks + ":" + rest)
    ensures LineValues(name + blanks + ":" + rest) == Trimmed(Pieces(rest, false))
  {
    var line := name + blanks + ":" + rest;
    assert forall i | 0 <= i < |name| :: name[i] != ':' && !IsLws(name[i]);
    assert ':' !in name + blanks;
    BeforeColonOf(name + blanks, rest);
    TrimRightOf(name, blanks);
    if |name| == 3 {
      LowerVia(name);
    } else {
      assert name[1..] == "" && LowerCase(name) == "v";
    }
    hide LowerCase, TrimRight, BeforeColon, Pieces, Trimmed;
    assert line[|name + blanks| + 1..] == rest;
  }

  // ---------- Values ----------

  function Joined(pieces: seq<string>): string
    requires pieces != []
  {
    if |pieces| == 1 then pieces[0] else pieces[0] + "," + Joined(pieces[1..])
  }

  /** The pieces with commas between them are the text: nothing is lost. */
  lemma {:induction false} PiecesJoined(text: string, quoted: bool)
    ensures Joined(Pieces(text, quoted)) == text
    decreases |text|
  {
    if text == "" {
    } else if quoted && text[0] == '\\' && |text| > 1 {
      PiecesJoined(text[2..], quoted);
      FrontJoined(text[..2], Pieces(text[2..], quoted));
      assert text == text[..2] + text[2..];
    } else if !quoted && text[0] == ',' {
      var rest := Pieces(text[1..], quoted);
      PiecesJoined(text[1..], quoted);
      assert ([""] + rest)[1..] == rest;
      assert text == "" + "," + text[1..];
    } else {
      var next := if text[0] == '"' then !quoted else quoted;
      PiecesJoined(text[1..], next);
      FrontJoined([text[0]], Pieces(text[1..], next));
      assert text == [text[0]] + text[1..];
    }
  }

  lemma FrontJoined(front: string, pieces: seq<string>)
    requires pieces != []
    ensures Joined([front + pieces[0]] + pieces[1..]) == front + Joined(pieces)
  {
    var all := [front + pieces[0]] + pieces[1..];
    assert all[1..] == pieces[1..] && all[0] == front + pieces[0];
    if |pieces| > 1 {
      FrontGrows(front, pieces[0], Joined(pieces[1..]));
    }
  }

  lemma FrontGrows(front: string, piece: string, others: string)
    ensures front + piece + "," + others == front + (piece + "," + others)
  {
  }

  /** The inside of a quoted string: no quote or backslash but after a backslash. */
  predicate QuotedText(x: string)
    decreases |x|
  {
    x == "" || (if x[0] == '\\' then |x| > 1 && QuotedText(x[2..]) else x[0] != '"' && QuotedText(x[1..]))
  }

  /** Text outside quotes without comma. */
  predicate PlainText(x: string) { ',' !in x && '"' !in x }

  lemma PieceGrows(front: string, piece: string, others: seq<string>)
    ensures [front + ([piece] + others)[0]] + ([piece] + others)[1..] == [front + piece] + others
  {
  }

  lemma QuoteCloses(x: string, rest: string)
    requires x == ""
    ensures var after := Pieces(rest, false);
            Pieces(x + ("\"" + rest), true) == [x + ("\"" + after[0])] + after[1..]
  {
    var text, after := x + ("\"" + rest), Pieces(rest, false);
    assert text[1..] == rest && text[0] == '"';
    assert x + ("\"" + after[0]) == ['"'] + after[0];
  }

  lemma PiecesInQuotes(text: string, n: nat)
    requires text != "" && n == Unit(text) <= |text| && text[0] != '"'
    ensures Pieces(text, true) == [text[..n] + Pieces(text[n..], true)[0]] + Pieces(text[n..], true)[1..]
  {
    assert text[..1] == [text[0]];
  }

  /** How much of the quoted text goes together: a backslash and what follows it, or one character. */
  function Unit(x: string): nat
    requires x != ""
  {
    if x[0] == '\\' then 2 else 1
  }

  lemma QuotedTail(x: string)
    requires x != "" && QuotedText(x)
    ensures x[0] != '"' && Unit(x) <= |x| && QuotedText(x[Unit(x)..])
  {
  }

  lemma Regrouped(x: string, n: nat, rest: string)
    requires n <= |x|
    ensures (x + rest)[..n] == x[..n] && (x + rest)[n..] == x[n..] + rest && x[..n] + (x[n..] + rest) == x + rest
  {
  }

  lemma {:induction false} QuotedStays(x: string, rest: string)
    requires QuotedText(x)
    ensures var after := Pieces(rest, false);
            Pieces(x + ("\"" + rest), true) == [x + ("\"" + after[0])] + after[1..]
    decreases |x|
  {
    hide *;
    if x == "" {
      QuoteCloses(x, rest);
    } else {
      var after, n := Pieces(rest, false), Unit(x);
      QuotedTail(x);
      UnitPositive(x);
      QuotedStays(x[n..], rest);
      Regrouped(x, n, "\"" + rest);
      FirstOf(x, "\"" + rest);
      PiecesInQuotes(x + ("\"" + rest), n);
      PieceGrows(x[..n], x[n..] + ("\"" + after[0]), after[1..]);
      Regrouped(x, n, "\"" + after[0]);
    }
  }

  lemma UnitPositive(x: string)
    requires x != ""
    ensures Unit(x) > 0
  {
  }

  lemma FirstOf(x: string, rest: string)
    requires x != ""
    ensures (x + rest)[0] == x[0] && Unit(x + rest) == Unit(x)
  {
  }

  lemma {:induction false} PlainStays(x: string, rest: string)
    requires PlainText(x)
    ensures var after := Pieces(rest, false);
            Pieces(x + rest, false) == [x + after[0]] + after[1..]
  {
    var after := Pieces(rest, false);
    if x == "" {
      assert x + rest == rest && x + after[0] == after[0] && after == [after[0]] + after[1..];
    } else {
      assert (x + rest)[1..] == x[1..] + rest;
      PlainStays(x[1..], rest);
      PieceGrows([x[0]], x[1..] + after[0], after[1..]);
      assert [x[0]] + (x[1..] + after[0]) == x + after[0];
    }
  }

  /** A comma after the value ends it, one inside a quoted string of it does not. */
  lemma ValueEnds(x: string, quotation: string, y: string, rest: string)
    requires PlainText(x) && QuotedText(quotation) && PlainText(y)
    ensures var value := x + ("\"" + (quotation + ("\"" + y)));
            Pieces(x + ("\"" + (quotation + ("\"" + (y + ("," + rest))))), false) == [value] + Pieces(rest, false)
  {
    var third := y + ("," + rest);
    var second := quotation + ("\"" + third);
    assert ("," + rest)[1..] == rest && Pieces("," + rest, false) == [""] + Pieces(rest, false);
    PlainStays(y, "," + rest);
    assert y + "" == y;
    QuotedStays(quotation, third);
    assert ("\"" + second)[1..] == second && ("\"" + second)[0] == '"';
    PlainStays(x, "\"" + second);
    hide Pieces;
    assert ['"'] + (quotation + ("\"" + y)) == "\"" + (quotation + ("\"" + y));
  }
}
