/**
 The string helpers of sip-proxy/src/misc.c that the message loops are written with.
 */
module SipText {
  import opened Text

  const LINE_ENDS: set<char> := {'\r', '\n'}

  /** A header line as strtok(buffer, "\r\n") yields it. */
  predicate IsLine(s: string) { IsToken(s, LINE_ENDS) }

  function Lines(text: string): seq<string> { Tokens(text, LINE_ENDS) }

  /** string_begins. */
  method StringBegins(str: string, pre: string) returns (begins: bool)
    ensures begins <==> pre <= str
  {
    var i := 0;
    while i < |pre|
      invariant 0 <= i <= |pre| && i <= |str|
      invariant forall k | 0 <= k < i :: str[k] == pre[k]
    {
      if i < |str| && str[i] == pre[i] {
        i := i + 1;
      } else {
        return false;
      }
    }
    return true;
  }

  /** append_to_string: strcpy at the end of what dst holds so far. */
  method AppendToString(dst: string, src: string, dstLen: nat) returns (dst': string, dstLen': nat)
    requires dstLen == |dst|
    ensures dst' == dst + src && dstLen' == |dst'|
  {
    dst' := dst[..dstLen] + src;
    dstLen' := dstLen + |src|;
  }

  /** How many characters strtok skips before a token. */
  function LeadingEnds(s: string): (n: nat)
    ensures n <= |s| && forall i | 0 <= i < n :: s[i] in LINE_ENDS
    ensures n == |s| || s[n] !in LINE_ENDS
  {
    if s == "" || s[0] !in LINE_ENDS then 0 else 1 + LeadingEnds(s[1..])
  }

  /** my_strtok: the static copy s_str and the position strtok keeps in it. */
  class Tokenizer {
    var text: string
    var pos: nat

    ghost predicate Valid()
      reads this
    {
      pos <= |text|
    }

    /** The lines still to come. */
    ghost function Remaining(): seq<string>
      requires Valid()
      reads this
    {
      Lines(text[pos..])
    }

    constructor ()
      ensures Valid()
    {
      text, pos := "", 0;
    }

    /** my_strtok(str, "\r\n"). */
    method First(str: string) returns (line: Option<string>)
      modifies this
      ensures Valid()
      ensures line == if Lines(str) == [] then None else Some(Lines(str)[0])
      ensures Remaining() == if Lines(str) == [] then [] else Lines(str)[1..]
    {
      text, pos := str, 0;
      assert text[0..] == str;
      line := Next();
    }

    /** my_strtok(NULL, "\r\n"). */
    method Next() returns (line: Option<string>)
      requires Valid()
      modifies this
      ensures Valid()
      ensures line == if old(Remaining()) == [] then None else Some(old(Remaining())[0])
      ensures Remaining() == if old(Remaining()) == [] then [] else old(Remaining())[1..]
    {
      var s := text[pos..];
      var skip := LeadingEnds(s);
      assert s == s[..skip] + s[skip..];
      TokensSkipDelimiters(s[..skip], s[skip..], LINE_ENDS);
      var t := s[skip..];
      if t == "" {
        pos := |text|;
        line := None;
      } else {
        var n := TokenLength(t, LINE_ENDS);
        line := Some(t[..n]);
        pos := pos + skip + n;
        assert text[pos..] == t[n..];
      }
    }
  }

  // ---------- Appended lines read back ----------

  /** Every line followed by CR LF. */
  function Unlines(lines: seq<string>): string {
    if lines == [] then "" else lines[0] + "\r\n" + Unlines(lines[1..])
  }

  lemma {:induction false} UnlinesConcat(x: seq<string>, y: seq<string>)
    ensures Unlines(x + y) == Unlines(x) + Unlines(y)
  {
    if x == [] {
      assert x + y == y;
    } else {
      UnlinesConcat(x[1..], y);
      assert (x + y)[0] == x[0] && (x + y)[1..] == x[1..] + y;
      Associative(x[0] + "\r\n", Unlines(x[1..]), Unlines(y));
    }
  }

  function NonEmpty(lines: seq<string>): seq<string> {
    if lines == [] then [] else (if lines[0] == "" then [] else [lines[0]]) + NonEmpty(lines[1..])
  }

  /** Lines, some of them empty. */
  predicate AllLines(lines: seq<string>) {
    forall i | 0 <= i < |lines| :: lines[i] == "" || IsLine(lines[i])
  }

  /** Tokenising the appended text returns its non-empty lines. */
  lemma {:induction false} LinesOfUnlines(lines: seq<string>)
    requires AllLines(lines)
    ensures Lines(Unlines(lines)) == NonEmpty(lines)
  {
    hide Tokens, IsToken;
    if lines == [] {
      NoTokens();
    } else {
      var rest := Unlines(lines[1..]);
      LinesOfUnlines(lines[1..]);
      hide Unlines;
      SkipLineEnd(rest);
      UnlinesFirst(lines);
      Associative(lines[0], "\r\n", rest);
      if lines[0] == "" {
        assert "" + ("\r\n" + rest) == "\r\n" + rest;
        assert [] + NonEmpty(lines[1..]) == NonEmpty(lines[1..]);
      } else {
        TokensAfterToken(lines[0], "\r\n" + rest, LINE_ENDS);
      }
    }
  }

  lemma NoTokens()
    ensures Lines(Unlines([])) == []
  {
  }

  lemma SkipLineEnd(rest: string)
    ensures Lines("\r\n" + rest) == Lines(rest)
  {
    TokensSkipDelimiters("\r\n", rest, LINE_ENDS);
  }

  lemma UnlinesFirst(lines: seq<string>)
    requires lines != []
    ensures Unlines(lines) == lines[0] + "\r\n" + Unlines(lines[1..])
  {
  }
}
