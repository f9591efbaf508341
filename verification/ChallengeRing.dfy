/**
 The ring of one-use digest responses in sip-proxy/src/database.c: open_challenges,
 cur_challenge_index, create_challenge_for_user and is_response_valid.
 */
module ChallengeRing {
  import opened Rfc1321
  import opened Md5Hash
  import opened Text

  const MAX_CHALLENGES := 20

  /** The non-empty strings of a sequence, counted. */
  function Bag(s: seq<string>): multiset<string> {
    if s == [] then multiset{} else Bag(s[..|s| - 1]) + One(s[|s| - 1])
  }

  function One(r: string): multiset<string> {
    if r == "" then multiset{} else multiset{r}
  }

  lemma {:induction false} BagUpdate(s: seq<string>, i: nat, r: string)
    requires i < |s|
    ensures One(s[i]) <= Bag(s) && Bag(s[i := r]) == Bag(s) - One(s[i]) + One(r)
  {
    hide *;
    var n := |s| - 1;
    if i < n {
      BagUpdate(s[..n], i, r);
      BagUpdateFront(s, i, r);
    } else {
      BagUpdateLast(s, r);
    }
  }

  lemma BagUpdateFront(s: seq<string>, i: nat, r: string)
    requires i < |s| - 1
    requires var front := s[..|s| - 1];
             One(front[i]) <= Bag(front) && Bag(front[i := r]) == Bag(front) - One(front[i]) + One(r)
    ensures One(s[i]) <= Bag(s) && Bag(s[i := r]) == Bag(s) - One(s[i]) + One(r)
  {
    hide *;
    var n := |s| - 1;
    BagOfLast(s);
    BagOfLast(s[i := r]);
    assert s[i := r][..n] == s[..n][i := r];
    Exchanged(Bag(s[..n]), One(s[i]), One(r), One(s[n]));
  }

  lemma BagUpdateLast(s: seq<string>, r: string)
    requires s != []
    ensures var n := |s| - 1;
            One(s[n]) <= Bag(s) && Bag(s[n := r]) == Bag(s) - One(s[n]) + One(r)
  {
    hide *;
    var n := |s| - 1;
    BagOfLast(s);
    BagOfLast(s[n := r]);
    assert s[n := r][..n] == s[..n];
    Replaced(Bag(s[..n]), One(s[n]), One(r));
  }

  lemma Replaced(bag: multiset<string>, gone: multiset<string>, added: multiset<string>)
    ensures gone <= bag + gone && bag + added == bag + gone - gone + added
  {
  }

  lemma BagOfLast(s: seq<string>)
    requires s != []
    ensures Bag(s) == Bag(s[..|s| - 1]) + One(s[|s| - 1])
  {
  }

  lemma Exchanged(bag: multiset<string>, gone: multiset<string>, added: multiset<string>, last: multiset<string>)
    requires gone <= bag
    ensures bag - gone + added + last == bag + last - gone + added && gone <= bag + last
  {
  }

  lemma {:induction false} BagOfEmpties(s: seq<string>)
    requires forall i | 0 <= i < |s| :: s[i] == ""
    ensures Bag(s) == multiset{}
  {
    if s != [] {
      BagOfEmpties(s[..|s| - 1]);
    }
  }

  /** Challenge j is among the 20 most recent of n. */
  predicate Recent(j: nat, n: nat) {
    j < n <= j + MAX_CHALLENGES
  }

  /** Challenge j can still be answered with response. */
  ghost predicate Open(issued: seq<string>, acceptedAt: seq<nat>, j: nat, response: string) {
    Recent(j, |issued|) && j !in acceptedAt && issued[j] == response
  }

  /** Accepted challenges are challenges. */
  predicate Within(acceptedAt: seq<nat>, n: nat) {
    forall k | 0 <= k < |acceptedAt| :: acceptedAt[k] < n
  }

  /** The responses accepted so far. */
  function Accepted(issued: seq<string>, acceptedAt: seq<nat>): seq<string>
    requires Within(acceptedAt, |issued|)
  {
    seq(|acceptedAt|, k requires 0 <= k < |acceptedAt| => issued[acceptedAt[k]])
  }

  /** The ring holds the 20 most recent challenges, those accepted since replaced by the empty string. */
  ghost predicate HoldsRecent(slots: seq<string>, issued: seq<string>, acceptedAt: seq<nat>) {
    && |slots| == MAX_CHALLENGES
    && (forall j: nat | Recent(j, |issued|) :: slots[j % MAX_CHALLENGES] == if j in acceptedAt then "" else issued[j])
    && (forall i | |issued| <= i < MAX_CHALLENGES :: slots[i] == "")
  }

  /** Every issued response is open, accepted or overwritten, and is so once. */
  ghost predicate Conserved(slots: seq<string>, issued: seq<string>, acceptedAt: seq<nat>,
        overwritten: multiset<string>)
    requires Within(acceptedAt, |issued|)
  {
    multiset(issued) == Bag(slots) + multiset(Accepted(issued, acceptedAt)) + overwritten
  }

  /** Fewer challenges than slots so far, or one of the recent ones was accepted. */
  ghost predicate SomeSlotEmpty(issued: seq<string>, acceptedAt: seq<nat>) {
    |issued| < MAX_CHALLENGES || exists j: nat :: Recent(j, |issued|) && j in acceptedAt
  }

  /** The slot i of a ring that has issued n challenges holds this one of them. */
  lemma SlotHolds(n: nat, i: nat) returns (j: nat)
    requires i < MAX_CHALLENGES && (i < n || MAX_CHALLENGES <= n)
    ensures Recent(j, n) && j % MAX_CHALLENGES == i
  {
    j := if n < MAX_CHALLENGES then i else n - MAX_CHALLENGES + (i - n) % MAX_CHALLENGES;
  }

  lemma EmptySlots(slots: seq<string>, issued: seq<string>, acceptedAt: seq<nat>)
    requires HoldsRecent(slots, issued, acceptedAt) && forall k | 0 <= k < |issued| :: issued[k] != ""
    ensures "" in slots <==> SomeSlotEmpty(issued, acceptedAt)
  {
    if "" in slots && MAX_CHALLENGES <= |issued| {
      var i: nat :| i < |slots| && slots[i] == "";
      var j := SlotHolds(|issued|, i);
      assert Recent(j, |issued|) && j in acceptedAt;
    }
    if |issued| < MAX_CHALLENGES {
      assert slots[|issued|] == "";
    } else if j: nat :| Recent(j, |issued|) && j in acceptedAt {
      assert slots[j % MAX_CHALLENGES] == "";
    }
  }

  lemma OwnSlots(j: nat, k: nat)
    requires k < j + MAX_CHALLENGES && j < k + MAX_CHALLENGES && j % MAX_CHALLENGES == k % MAX_CHALLENGES
    ensures j == k
  {
  }

  lemma IssueHolds(slots: seq<string>, issued: seq<string>, acceptedAt: seq<nat>, response: string)
    requires HoldsRecent(slots, issued, acceptedAt) && Within(acceptedAt, |issued|)
    ensures HoldsRecent(slots[|issued| % MAX_CHALLENGES := response], issued + [response], acceptedAt)
  {
    var n := |issued|;
    forall j: nat | Recent(j, n + 1) && j % MAX_CHALLENGES == n % MAX_CHALLENGES
      ensures j == n
    {
      OwnSlots(j, n);
    }
    assert n !in acceptedAt;
  }

  lemma IssueConserves(slots: seq<string>, issued: seq<string>, acceptedAt: seq<nat>, overwritten: multiset<string>,
                       i: nat, response: string)
    requires Within(acceptedAt, |issued|) && Conserved(slots, issued, acceptedAt, overwritten)
    requires i < |slots| && response != ""
    ensures Conserved(slots[i := response], issued + [response], acceptedAt, overwritten + One(slots[i]))
  {
    hide Accepted, Bag, One;
    BagUpdate(slots, i, response);
    BagOfResponse(response);
    SameAccepted(issued, acceptedAt, response);
    assert multiset(issued + [response]) == multiset(issued) + multiset{response};
  }

  lemma BagOfResponse(response: string)
    requires response != ""
    ensures One(response) == multiset{response}
  {
  }

  lemma SameAccepted(issued: seq<string>, acceptedAt: seq<nat>, response: string)
    requires Within(acceptedAt, |issued|)
    ensures Within(acceptedAt, |issued + [response]|)
    ensures Accepted(issued + [response], acceptedAt) == Accepted(issued, acceptedAt)
  {
  }

  lemma AcceptHolds(slots: seq<string>, issued: seq<string>, acceptedAt: seq<nat>, i: nat, j: nat)
    requires HoldsRecent(slots, issued, acceptedAt) && Recent(j, |issued|) && j % MAX_CHALLENGES == i
    ensures HoldsRecent(slots[i := ""], issued, acceptedAt + [j])
  {
    forall k: nat | Recent(k, |issued|) && k % MAX_CHALLENGES == i
      ensures k == j
    {
      OwnSlots(j, k);
    }
    assert forall k :: k in acceptedAt + [j] <==> k in acceptedAt || k == j;
  }

  lemma AcceptedOneMore(issued: seq<string>, acceptedAt: seq<nat>, j: nat)
    requires Within(acceptedAt, |issued|) && j < |issued|
    ensures Within(acceptedAt + [j], |issued|)
    ensures multiset(Accepted(issued, acceptedAt + [j])) == multiset(Accepted(issued, acceptedAt)) + multiset{issued[j]}
  {
    assert Accepted(issued, acceptedAt + [j]) == Accepted(issued, acceptedAt) + [issued[j]];
  }

  lemma AcceptConserves(slots: seq<string>, issued: seq<string>, acceptedAt: seq<nat>, overwritten: multiset<string>,
                        i: nat, j: nat)
    requires Within(acceptedAt, |issued|) && Conserved(slots, issued, acceptedAt, overwritten)
    requires i < |slots| && j < |issued| && slots[i] == issued[j] != ""
    ensures Within(acceptedAt + [j], |issued|)
    ensures Conserved(slots[i := ""], issued, acceptedAt + [j], overwritten)
  {
    BagUpdate(slots, i, "");
    AcceptedOneMore(issued, acceptedAt, j);
    hide Accepted, Bag;
  }

  class Ring {
    const responses: array<string>
    var current: nat

    /** Every response issued, and which of them were accepted, in that order. */
    ghost var issued: seq<string>
    ghost var acceptedAt: seq<nat>
    /** The open responses that later challenges replaced. */
    ghost var overwritten: multiset<string>

    ghost predicate Valid()
      reads this, responses
    {
      && HoldsRecent(responses[..], issued, acceptedAt)
      && current == |issued| % MAX_CHALLENGES
      && (forall k | 0 <= k < |issued| :: issued[k] != "")
      && Within(acceptedAt, |issued|)
      && (forall k, l | 0 <= k < l < |acceptedAt| :: acceptedAt[k] != acceptedAt[l])
      && Conserved(responses[..], issued, acceptedAt, overwritten)
    }

    /** The globals as C initialises them. */
    constructor ()
      ensures Valid() && fresh(responses) && issued == [] && acceptedAt == [] && overwritten == multiset{}
    {
      responses := new string[MAX_CHALLENGES](_ => "");
      current := 0;
      issued, acceptedAt, overwritten := [], [], multiset{};
      new;
      BagOfEmpties(responses[..]);
    }

    /** The end of create_challenge_for_user: store the expected response, advance the index. */
    method Issue(response: string)
      requires Valid() && response != ""
      modifies this, responses
      ensures Valid()
      ensures issued == old(issued) + [response] && acceptedAt == old(acceptedAt)
    {
      hide Conserved, HoldsRecent;
      IssueHolds(responses[..], issued, acceptedAt, response);
      assert responses.Length == MAX_CHALLENGES by { SlotCount(responses[..], issued, acceptedAt); }
      IssueConserves(responses[..], issued, acceptedAt, overwritten, current, response);
      ghost var updated := responses[..][current := response];
      overwritten := overwritten + One(responses[current]);
      responses[current] := response;
      assert responses[..] == updated;
      issued := issued + [response];
      current := (current + 1) % MAX_CHALLENGES;
    }

    /** is_response_valid. */
    method IsResponseValid(response: string) returns (ok: bool)
      requires Valid()
      modifies this`acceptedAt, responses
      ensures Valid()
      ensures response != "" ==> (ok <==> exists j :: Open(issued, old(acceptedAt), j, response))
      ensures response != "" && ok ==>
                exists j :: Open(issued, old(acceptedAt), j, response) && acceptedAt == old(acceptedAt) + [j]
      ensures response == "" ==> (ok <==> SomeSlotEmpty(issued, old(acceptedAt)))
      ensures !ok || response == "" ==> acceptedAt == old(acceptedAt) && responses[..] == old(responses[..])
    {
      hide Conserved, SomeSlotEmpty;
      EmptySlots(responses[..], issued, acceptedAt);
      var i := 0;
      while i < MAX_CHALLENGES
        invariant 0 <= i <= MAX_CHALLENGES
        invariant forall k | 0 <= k < i :: responses[k] != response
      {
        if responses[i] == response {
          if response == "" {
            responses[i] := "";
            assert responses[..] == old(responses[..]);
          } else {
            ghost var j := Accept(i, response);
          }
          return true;
        }
        i := i + 1;
      }
      ok := false;
      assert forall j: nat | Recent(j, |issued|) && j !in acceptedAt :: responses[..][j % MAX_CHALLENGES] == issued[j];
    }

    /** memset(open_challenges[i].response, 0, 33) for a slot in use, which holds challenge j. */
    method Accept(i: nat, response: string) returns (ghost j: nat)
      requires Valid() && i < MAX_CHALLENGES && responses[i] == response && response != ""
      modifies this`acceptedAt, responses
      ensures Valid()
      ensures Open(issued, old(acceptedAt), j, response) && acceptedAt == old(acceptedAt) + [j]
    {
      hide Conserved;
      assert responses[..][i] == response;
      j := SlotHolds(|issued|, i);
      assert Open(issued, acceptedAt, j, response);
      AcceptHolds(responses[..], issued, acceptedAt, i, j);
      AcceptConserves(responses[..], issued, acceptedAt, overwritten, i, j);
      hide HoldsRecent;
      ghost var updated := responses[..][i := ""];
      responses[i] := "";
      assert responses[..] == updated;
      acceptedAt := acceptedAt + [j];
    }

    /** create_challenge_for_user, given the stored HA1 and the fresh nonce. */
    method CreateChallengeForUser(ha1: string, nonce: string, serverIp: string) returns (given: string)
      requires Valid() && |ha1| + |nonce| + |serverIp| < 0x1000_0000
      modifies this, responses
      ensures Valid() && given == nonce
      ensures issued == old(issued) + [ExpectedResponse(ha1, nonce, serverIp)] && acceptedAt == old(acceptedAt)
    {
      hide HashString, Conserved, HoldsRecent;
      var ha2 := GetHash("REGISTER:sip:" + serverIp);
      var response := GetHash(ha1 + ":" + nonce + ":" + ha2);
      Issue(response);
      given := nonce;
    }
  }

  lemma SlotCount(slots: seq<string>, issued: seq<string>, acceptedAt: seq<nat>)
    requires HoldsRecent(slots, issued, acceptedAt)
    ensures |slots| == MAX_CHALLENGES
  {
  }

  // ---------- The expected response ----------

  /** A C string in memory: its bytes and a terminating zero. */
  function Memory(s: string): (m: seq<Byte>)
    ensures |m| == |s| + 1 && m[|s|] == 0
  {
    seq(|s|, i requires 0 <= i < |s| => LowByte(s[i] as nat)) + [0]
  }

  function HashString(s: string): (h: string)
    ensures |h| == 32
  {
    Hex(Md5(CString(Memory(s))))
  }

  method GetHash(s: string) returns (h: string)
    requires |s| < 0xffff_ffff
    ensures h == HashString(s)
  {
    hide Md5, Hex;
    h := GetMd5Hash(Memory(s), 0x1_0000_0000, false);
  }

  /** The digest response a client must give: MD5 of HA1, nonce and HA2. */
  function ExpectedResponse(ha1: string, nonce: string, serverIp: string): (r: string)
    ensures |r| == 32
  {
    HashString(ha1 + ":" + nonce + ":" + HashString("REGISTER:sip:" + serverIp))
  }

  /** Characters of one byte, and no zero among them. */
  predicate IsPlain(s: string) {
    forall i | 0 <= i < |s| :: 0 < s[i] as nat < 0x100
  }

  lemma {:induction false} WholeCString(s: seq<Byte>)
    requires 0 !in s
    ensures CString(s + [0]) == s
  {
    if s == [] {
      assert s + [0] == [0];
    } else {
      assert (s + [0])[1..] == s[1..] + [0] && 0 !in s[1..];
      WholeCString(s[1..]);
    }
  }

  lemma CodeOf(n: nat)
    requires n < 0x100
    ensures LowByte(n) as nat == n
  {
    assert n % 0x100 == n;
  }

  /** What is hashed of a string are the codes of its characters. */
  lemma HashedCodes(s: string)
    requires IsPlain(s)
    ensures |CString(Memory(s))| == |s|
    ensures forall i | 0 <= i < |s| :: CString(Memory(s))[i] as nat == s[i] as nat
  {
    hide LowByte;
    var bytes := Memory(s)[..|s|];
    forall i | 0 <= i < |s| ensures bytes[i] as nat == s[i] as nat && bytes[i] != 0 {
      CodeOf(s[i] as nat);
    }
    assert Memory(s) == bytes + [0];
    WholeCString(bytes);
  }

  /** The text is these parts with a colon between each two. */
  lemma SplitsAtColons(x: string, y: string, z: string)
    requires ':' !in x && ':' !in y && ':' !in z
    ensures SplitAll(x + ":" + y + ":" + z, ':') == [x, y, z]
  {
    hide SplitAll;
    assert x + ":" + y + ":" + z == x + [':'] + (y + [':'] + z);
    SplitAllAfterPiece(x, y + [':'] + z, ':');
    SplitAllAfterPiece(y, z, ':');
    SplitAllOfPiece(z, ':');
  }

  lemma HashHasNoColon(s: string)
    ensures ':' !in HashString(s)
  {
    hide Hex, Md5;
  }

  /**
   The digest of RFC 2617, section 3.2.2.1: the hash of HA1, the nonce and HA2 with colons
   between them, where HA2 is the hash of the method REGISTER and the URI sip:address.
   */
  lemma ResponseIsDigest(ha1: string, nonce: string, serverIp: string)
    requires ':' !in ha1 && ':' !in nonce && ':' !in serverIp
    ensures exists text, a2 ::
              && ExpectedResponse(ha1, nonce, serverIp) == HashString(text)
              && SplitAll(text, ':') == [ha1, nonce, HashString(a2)]
              && SplitAll(a2, ':') == ["REGISTER", "sip", serverIp]
  {
    hide HashString, SplitAll;
    var a2 := "REGISTER:sip:" + serverIp;
    assert "REGISTER:sip:" == "REGISTER" + ":" + "sip" + ":" && ':' !in "REGISTER" && ':' !in "sip";
    SplitsAtColons("REGISTER", "sip", serverIp);
    HashHasNoColon(a2);
    SplitsAtColons(ha1, nonce, HashString(a2));
    assert ExpectedResponse(ha1, nonce, serverIp) == HashString(ha1 + ":" + nonce + ":" + HashString(a2));
  }

  // ---------- What this means for distinct responses ----------

  ghost predicate Distinct(issued: seq<string>) {
    forall j, k | 0 <= j < k < |issued| :: issued[j] != issued[k]
  }

  /** The 20 most recently issued responses. */
  function Latest(issued: seq<string>): seq<string> {
    if |issued| <= 20 then issued else issued[|issued| - 20..]
  }

  lemma AcceptedAtIndex(issued: seq<string>, acceptedAt: seq<nat>, k: nat)
    requires Distinct(issued) && Within(acceptedAt, |issued|) && k < |issued|
    ensures k in acceptedAt <==> issued[k] in Accepted(issued, acceptedAt)
  {
    var accepted := Accepted(issued, acceptedAt);
    if k in acceptedAt {
      var l :| 0 <= l < |acceptedAt| && acceptedAt[l] == k;
      assert accepted[l] == issued[k];
    }
    if issued[k] in accepted {
      var l :| 0 <= l < |accepted| && accepted[l] == issued[k];
      assert acceptedAt[l] == k;
    }
  }

  lemma LatestAre(issued: seq<string>, response: string)
    ensures response in Latest(issued) <==> exists j: nat :: Recent(j, |issued|) && issued[j] == response
  {
    var from := |issued| - |Latest(issued)|;
    if response in Latest(issued) {
      var k :| 0 <= k < |Latest(issued)| && Latest(issued)[k] == response;
      assert Recent(from + k, |issued|) && issued[from + k] == response;
    }
    if j: nat :| Recent(j, |issued|) && issued[j] == response {
      assert Latest(issued)[j - from] == response;
    }
  }

  /** With distinct responses a challenge is open exactly when it is recent and was not yet accepted. */
  lemma OpenIffRecentAndUnused(issued: seq<string>, acceptedAt: seq<nat>, response: string)
    requires Distinct(issued) && Within(acceptedAt, |issued|)
    ensures (exists j :: Open(issued, acceptedAt, j, response))
       <==> response in Latest(issued) && response !in Accepted(issued, acceptedAt)
  {
    hide Distinct, Latest, Accepted;
    LatestAre(issued, response);
    if response in Latest(issued) && response !in Accepted(issued, acceptedAt) {
      var j: nat :| Recent(j, |issued|) && issued[j] == response;
      AcceptedAtIndex(issued, acceptedAt, j);
      assert Open(issued, acceptedAt, j, response);
    }
    if j: nat :| Open(issued, acceptedAt, j, response) {
      AcceptedAtIndex(issued, acceptedAt, j);
    }
  }

  /** None is accepted twice. */
  lemma AcceptedOnce(issued: seq<string>, acceptedAt: seq<nat>, k: nat, l: nat)
    requires Distinct(issued) && Within(acceptedAt, |issued|)
    requires forall x, y | 0 <= x < y < |acceptedAt| :: acceptedAt[x] != acceptedAt[y]
    requires k < l < |acceptedAt|
    ensures Accepted(issued, acceptedAt)[k] != Accepted(issued, acceptedAt)[l]
  {
    assert acceptedAt[k] != acceptedAt[l];
  }

  /** One event of a run: a response issued, or one checked with its outcome. */
  datatype Event = Issued(response: string) | Checked(response: string, ok: bool)

  function IssuedIn(run: seq<Event>): seq<string> {
    if run == [] then []
    else
      var e, front := run[|run| - 1], IssuedIn(run[..|run| - 1]);
      if e.Issued? then front + [e.response] else front
  }

  function AcceptedIn(run: seq<Event>): seq<string> {
    if run == [] then []
    else
      var e, front := run[|run| - 1], AcceptedIn(run[..|run| - 1]);
      if e.Checked? && e.ok then front + [e.response] else front
  }

  /** Each check of the run accepts exactly when the response is recent and was not accepted before. */
  ghost predicate OneUse(run: seq<Event>) {
    forall i | 0 <= i < |run| && run[i].Checked? ::
      run[i].ok <==> run[i].response in Latest(IssuedIn(run[..i])) && run[i].response !in AcceptedIn(run[..i])
  }

  /** run answers requests, whose own outcomes do not matter. */
  predicate Answers(run: seq<Event>, requests: seq<Event>) {
    && |run| == |requests|
    && forall i | 0 <= i < |run| :: run[i].response == requests[i].response && run[i].Issued? == requests[i].Issued?
  }

  lemma OneUseOneMore(run: seq<Event>, e: Event)
    requires OneUse(run)
    requires e.Checked? ==> (e.ok <==> e.response in Latest(IssuedIn(run)) && e.response !in AcceptedIn(run))
    ensures OneUse(run + [e])
  {
    hide Latest, IssuedIn, AcceptedIn;
    forall i | 0 <= i <= |run|
      ensures (run + [e])[..i] == run[..i]
    {
    }
    assert run[..|run|] == run;
  }

  /** One call, with the run so far as the ring has seen it. */
  method Answer(ring: Ring, request: Event, ghost run: seq<Event>) returns (e: Event)
    requires ring.Valid() && request.response != "" && Distinct(ring.issued)
    requires IssuedIn(run) == ring.issued && AcceptedIn(run) == Accepted(ring.issued, ring.acceptedAt)
    modifies ring, ring.responses
    ensures ring.Valid() && e.response == request.response && e.Issued? == request.Issued?
    ensures e.Checked? ==> (e.ok <==> e.response in Latest(IssuedIn(run)) && e.response !in AcceptedIn(run))
    ensures IssuedIn(run + [e]) == ring.issued && AcceptedIn(run + [e]) == Accepted(ring.issued, ring.acceptedAt)
  {
    hide HoldsRecent, Conserved;
    ghost var issued, acceptedAt := ring.issued, ring.acceptedAt;
    if request.Issued? {
      ring.Issue(request.response);
      e := request;
    } else {
      OpenIffRecentAndUnused(issued, acceptedAt, request.response);
      var ok := ring.IsResponseValid(request.response);
      e := Checked(request.response, ok);
      if ok {
        ghost var j: nat :| Open(issued, acceptedAt, j, request.response) && ring.acceptedAt == acceptedAt + [j];
        assert Accepted(issued, ring.acceptedAt) == Accepted(issued, acceptedAt) + [issued[j]];
      }
    }
    assert (run + [e])[..|run|] == run;
    assert Accepted(ring.issued, acceptedAt) == Accepted(issued, acceptedAt);
  }

  /**
   Any run of issues and checks with distinct non-empty responses: each check accepts
   exactly when the response is among the 20 latest issued before and was not accepted before.
   */
  method Replay(requests: seq<Event>) returns (run: seq<Event>)
    requires Distinct(IssuedIn(requests))
    requires forall i | 0 <= i < |requests| :: requests[i].response != ""
    ensures Answers(run, requests) && OneUse(run)
  {
    hide OneUse, Distinct, Accepted;
    var ring := new Ring();
    run := [];
    var i := 0;
    assert OneUse(run) && AcceptedIn(run) == Accepted([], []) by { EmptyRun(); }
    while i < |requests|
      invariant 0 <= i <= |requests|
      invariant ring.Valid() && fresh(ring) && fresh(ring.responses)
      invariant Answers(run, requests[..i]) && OneUse(run)
      invariant IssuedIn(run) == ring.issued == IssuedIn(requests[..i])
      invariant AcceptedIn(run) == Accepted(ring.issued, ring.acceptedAt)
    {
      IssuedPrefix(requests, i);
      var e := Answer(ring, requests[i], run);
      OneUseOneMore(run, e);
      IssuedAlike(requests, run, e, i);
      run := run + [e];
      i := i + 1;
    }
    assert requests[..|requests|] == requests;
  }

  lemma EmptyRun()
    ensures OneUse([]) && AcceptedIn([]) == Accepted([], [])
  {
  }

  lemma IssuedAlike(requests: seq<Event>, run: seq<Event>, e: Event, i: nat)
    requires i < |requests| && Answers(run, requests[..i]) && IssuedIn(run) == IssuedIn(requests[..i])
    requires e.response == requests[i].response && e.Issued? == requests[i].Issued?
    ensures Answers(run + [e], requests[..i + 1]) && IssuedIn(run + [e]) == IssuedIn(requests[..i + 1])
  {
    assert requests[..i + 1][..i] == requests[..i];
    assert (run + [e])[..i] == run;
  }

  lemma {:induction false} IssuedPrefix(requests: seq<Event>, i: nat)
    requires i <= |requests| && Distinct(IssuedIn(requests))
    ensures IssuedIn(requests[..i]) <= IssuedIn(requests) && Distinct(IssuedIn(requests[..i]))
    decreases |requests|
  {
    if i == |requests| {
      assert requests[..i] == requests;
    } else {
      var front := requests[..|requests| - 1];
      assert IssuedIn(front) <= IssuedIn(requests);
      assert front[..i] == requests[..i];
      IssuedPrefix(front, i);
    }
  }
}
