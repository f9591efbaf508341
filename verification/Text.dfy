/**
 The string operations of Ruby and C that the router's advertisements and the proxy's
 messages go through: decimal numbers, split on a separator, and tokens.
 */
module Text {

  datatype Option<+T> = None | Some(value: T)

  lemma Associative<T>(x: seq<T>, y: seq<T>, z: seq<T>)
    ensures x + y + z == x + (y + z)
  {
  }

  // ---------- Decimal numbers ----------

  predicate IsDigit(c: char) { '0' <= c <= '9' }

  predicate AllDigits(s: string) {
    forall i | 0 <= i < |s| :: IsDigit(s[i])
  }

  function DigitChar(n: nat): char
    requires n < 10
  {
    '0' + n as char
  }

  function Decimal(n: nat): (s: string)
    ensures s != "" && AllDigits(s)
  {
    if n < 10 then [DigitChar(n)] else Decimal(n / 10) + [DigitChar(n % 10)]
  }

  /** The value of a string of digits. */
  function Number(s: string): nat
    requires AllDigits(s)
  {
    if s == "" then 0 else 10 * Number(s[..|s| - 1]) + (s[|s| - 1] as nat - '0' as nat)
  }

  lemma {:induction false} NumberOfDecimal(n: nat)
    ensures Number(Decimal(n)) == n
  {
    var s := Decimal(n);
    if n >= 10 {
      NumberOfDecimal(n / 10);
      assert s[..|s| - 1] == Decimal(n / 10);
    }
  }

  function LeadingDigits(s: string): (d: string)
    ensures AllDigits(d) && d <= s
  {
    if s == "" || !IsDigit(s[0]) then "" else [s[0]] + LeadingDigits(s[1..])
  }

  /** String#to_i of Ruby on text without sign or underscores: the leading digits, 0 if there are none. */
  function ToI(s: string): nat {
    Number(LeadingDigits(s))
  }

  lemma {:induction false} LeadingDigitsOfNumber(s: string, rest: string)
    requires AllDigits(s) && (rest == "" || !IsDigit(rest[0]))
    ensures LeadingDigits(s + rest) == s
  {
    if s == "" {
      assert s + rest == rest;
    } else {
      assert (s + rest)[1..] == s[1..] + rest;
      LeadingDigitsOfNumber(s[1..], rest);
    }
  }

  lemma ToIOfDecimal(n: nat)
    ensures ToI(Decimal(n)) == n
  {
    LeadingDigitsOfNumber(Decimal(n), "");
    assert Decimal(n) + "" == Decimal(n);
    NumberOfDecimal(n);
  }

  // ---------- Splitting on a separator ----------

  /** The pieces between separators, empty ones included. */
  function SplitAll(s: string, sep: char): (pieces: seq<string>)
    ensures pieces != []
    ensures forall p | p in pieces :: sep !in p
  {
    if s == "" then [""]
    else
      var rest := SplitAll(s[1..], sep);
      if s[0] == sep then [""] + rest else [[s[0]] + rest[0]] + rest[1..]
  }

  function DropTrailingEmpty(pieces: seq<string>): seq<string> {
    if pieces != [] && pieces[|pieces| - 1] == "" then DropTrailingEmpty(pieces[..|pieces| - 1]) else pieces
  }

  /** String#split(sep) of Ruby: trailing empty pieces are dropped. */
  function Split(s: string, sep: char): seq<string> {
    DropTrailingEmpty(SplitAll(s, sep))
  }

  lemma {:induction false} SplitAllOfPiece(x: string, sep: char)
    requires sep !in x
    ensures SplitAll(x, sep) == [x]
  {
    if x != "" {
      SplitAllOfPiece(x[1..], sep);
      assert [x[0]] + x[1..] == x;
    }
  }

  lemma {:induction false} SplitAllAfterPiece(x: string, y: string, sep: char)
    requires sep !in x
    ensures SplitAll(x + [sep] + y, sep) == [x] + SplitAll(y, sep)
  {
    if x == "" {
      assert (x + [sep] + y)[1..] == y;
    } else {
      SplitAllAfterPiece(x[1..], y, sep);
      assert (x + [sep] + y)[1..] == x[1..] + [sep] + y;
      assert [x[0]] + x[1..] == x;
    }
  }

  // ---------- Tokens: strtok, and split(' ') of Ruby ----------

  function TokenLength(s: string, delimiters: set<char>): (n: nat)
    ensures n <= |s| && forall i | 0 <= i < n :: s[i] !in delimiters
    ensures n == |s| || s[n] in delimiters
  {
    if s == "" || s[0] in delimiters then 0 else 1 + TokenLength(s[1..], delimiters)
  }

  /** The maximal runs of characters that are not delimiters. */
  function Tokens(s: string, delimiters: set<char>): seq<string>
    decreases |s|
  {
    if s == "" then []
    else if s[0] in delimiters then Tokens(s[1..], delimiters)
    else
      var n := TokenLength(s, delimiters);
      [s[..n]] + Tokens(s[n..], delimiters)
  }

  predicate IsToken(t: string, delimiters: set<char>) {
    t != "" && forall i | 0 <= i < |t| :: t[i] !in delimiters
  }

  lemma {:induction false} TokensAreTokens(s: string, delimiters: set<char>)
    ensures forall t | t in Tokens(s, delimiters) :: IsToken(t, delimiters)
    decreases |s|
  {
    if s == "" {
    } else if s[0] in delimiters {
      TokensAreTokens(s[1..], delimiters);
    } else {
      var n := TokenLength(s, delimiters);
      TokensAreTokens(s[n..], delimiters);
    }
  }

  lemma {:induction false} TokenLengthOf(t: string, rest: string, delimiters: set<char>)
    requires forall i | 0 <= i < |t| :: t[i] !in delimiters
    requires rest == "" || rest[0] in delimiters
    ensures TokenLength(t + rest, delimiters) == |t|
  {
    if t == "" {
      assert t + rest == rest;
    } else {
      assert (t + rest)[1..] == t[1..] + rest;
      TokenLengthOf(t[1..], rest, delimiters);
    }
  }

  lemma TokensAfterToken(t: string, rest: string, delimiters: set<char>)
    requires IsToken(t, delimiters)
    requires rest == "" || rest[0] in delimiters
    ensures Tokens(t + rest, delimiters) == [t] + Tokens(rest, delimiters)
  {
    TokenLengthOf(t, rest, delimiters);
    assert (t + rest)[..|t|] == t && (t + rest)[|t|..] == rest;
  }

  lemma {:induction false} TokensSkipDelimiters(x: string, y: string, delimiters: set<char>)
    requires forall i | 0 <= i < |x| :: x[i] in delimiters
    ensures Tokens(x + y, delimiters) == Tokens(y, delimiters)
  {
    if x == "" {
      assert x + y == y;
    } else {
      assert (x + y)[1..] == x[1..] + y;
      TokensSkipDelimiters(x[1..], y, delimiters);
    }
  }
}
