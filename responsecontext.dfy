/**
 * ResponseContext: the final responses a stateful proxy has collected for
 * one server transaction, and the choice of the response it forwards
 * upstream once every branch has finished (RFC 3261 section 16.7, steps 6
 * and 7).
 */
module ResponseContexts {
  import opened Common
  import opened Sip

  /** The 4xx codes that carry resubmission information, in the order they are preferred. */
  const PREFERRED_CODES: seq<int> := [401, 407, 415, 420, 484]

  /** What a filter keeps: a whole status class, or one status code. */
  datatype Key = Class(statusClass: int) | Code(code: int)

  predicate Matches(r: Response, key: Key) {
    match key
    case Class(c) => StatusClass(r.status) == c
    case Code(c) => r.status == c
  }

  /** The responses that match `key`, in their original order. */
  function Matching(rs: seq<Response>, key: Key): (r: seq<Response>)
    ensures |r| <= |rs|
    ensures forall x :: x in r <==> x in rs && Matches(x, key)
    decreases |rs|
  {
    if |rs| == 0 then []
    else
      var last := rs[|rs| - 1];
      var rest := Matching(rs[..|rs| - 1], key);
      assert forall x :: x in rs <==> x in rs[..|rs| - 1] || x == last;
      if Matches(last, key) then rest + [last] else rest
  }

  /** Null for no match, otherwise the matches. */
  function NonEmpty(s: seq<Response>): (r: Option<seq<Response>>)
    ensures r.None? <==> s == []
    ensures r.Some? ==> r.value == s
  {
    if s == [] then None else Some(s)
  }

  /** Nothing matches, so the filter is empty. */
  lemma NoneMatch(rs: seq<Response>, key: Key)
    requires forall j :: 0 <= j < |rs| ==> !Matches(rs[j], key)
    ensures Matching(rs, key) == []
  {
  }

  /** The first match is the first response, in the original order, that matches. */
  lemma {:induction false} MatchingHead(rs: seq<Response>, key: Key, i: nat)
    requires i < |rs| && Matches(rs[i], key)
    requires forall j :: 0 <= j < i ==> !Matches(rs[j], key)
    ensures Matching(rs, key) != [] && Matching(rs, key)[0] == rs[i]
    decreases |rs|
  {
    if i < |rs| - 1 {
      var front := rs[..|rs| - 1];
      MatchingHead(front, key, i);
    } else {
      NoneMatch(rs[..|rs| - 1], key);
    }
  }

  /** The first code of `codes` that some response in `rs` carries. */
  function FirstPresent(rs: seq<Response>, codes: seq<int>): (r: Option<int>)
    ensures r.Some? ==> r.value in codes && Matching(rs, Code(r.value)) != []
    ensures r.None? <==> forall k :: 0 <= k < |codes| ==> Matching(rs, Code(codes[k])) == []
  {
    if |codes| == 0 then None
    else if Matching(rs, Code(codes[0])) != [] then Some(codes[0])
    else
      var r := FirstPresent(rs, codes[1..]);
      assert forall k :: 1 <= k < |codes| ==> codes[k] == codes[1..][k - 1];
      r
  }

  /** A preferred code is chosen only when no code before it in the list was received. */
  lemma {:induction false} FirstPresentIsFirst(rs: seq<Response>, codes: seq<int>, k: nat)
    requires FirstPresent(rs, codes).Some? && k < |codes| && codes[k] == FirstPresent(rs, codes).value
    requires forall j, l :: 0 <= j < l < |codes| ==> codes[j] != codes[l]
    ensures forall j :: 0 <= j < k ==> Matching(rs, Code(codes[j])) == []
  {
    if Matching(rs, Code(codes[0])) == [] && k > 0 {
      assert forall j, l :: 0 <= j < l < |codes[1..]| ==> codes[1..][j] != codes[1..][l];
      FirstPresentIsFirst(rs, codes[1..], k - 1);
    }
  }

  /** The code `getBestResponse` answers with, and whether the 4xx branch aggregates challenges into it. */
  datatype Choice = Choice(code: int, aggregate: bool)

  /**
   * `getBestResponse`'s choice: 408 when nothing was received; otherwise the
   * first 6xx, else the first 2xx, else the first 3xx; in the 4xx class the
   * first of 401, 407, 415, 420, 484 received, else the first 4xx; in the
   * 5xx class 500 when every 5xx is a 503, else the first 5xx; and nothing
   * (null) when no response has a class from 2 to 6.
   */
  function Choose(finals: seq<Response>): Option<Choice> {
    if finals == [] then Some(Choice(408, false))
    else
      var six := Matching(finals, Class(6));
      var two := Matching(finals, Class(2));
      var three := Matching(finals, Class(3));
      var four := Matching(finals, Class(4));
      var five := Matching(finals, Class(5));
      if six != [] then Some(Choice(six[0].status, false))
      else if two != [] then Some(Choice(two[0].status, false))
      else if three != [] then Some(Choice(three[0].status, false))
      else if four != [] then
        match FirstPresent(four, PREFERRED_CODES)
        case Some(p) => Some(Choice(Matching(four, Code(p))[0].status, true))
        case None => Some(Choice(four[0].status, true))
      else if five != [] then
        var unavailable := Matching(five, Code(503));
        if unavailable != [] && |unavailable| == |five| then Some(Choice(500, false))
        else Some(Choice(five[0].status, false))
      else None
  }

  // ---------------------------------------------------------------------
  // Aggregation of challenges (step 7)

  /**
   * One turn of `aggregateAuthHeaders`' loop: a stored response equal to the
   * response being built, or of another code, is skipped; otherwise its
   * WWW-Authenticate values (for a 401) or Proxy-Authenticate values (for a
   * 407) are appended.
   */
  function AggregateStep(acc: Response, f: Response): (r: Response)
    ensures r.status == acc.status
  {
    if f == acc || f.status != acc.status then acc
    else if acc.status == 401 then acc.(wwwAuthenticate := acc.wwwAuthenticate + f.wwwAuthenticate)
    else acc.(proxyAuthenticate := acc.proxyAuthenticate + f.proxyAuthenticate)
  }

  /** The loop over the stored responses, front to back. */
  function Gather(acc: Response, fs: seq<Response>): (r: Response)
    ensures r.status == acc.status
    decreases |fs|
  {
    if |fs| == 0 then acc else Gather(AggregateStep(acc, fs[0]), fs[1..])
  }

  /** `aggregateAuthHeaders`: only a 401 or a 407 gathers challenges; any other response is returned as it is. */
  function Aggregated(best: Response, finals: seq<Response>): (r: Response)
    ensures r.status == best.status
  {
    if best.status == 401 || best.status == 407 then Gather(best, finals) else best
  }

  /** The response `getBestResponse` returns, built from the request with the chosen code. */
  function BestResponse(request: Request, finals: seq<Response>): (r: Option<Response>)
    ensures r.None? <==> Choose(finals).None?
    ensures r.Some? ==> r.value.status == Choose(finals).value.code
  {
    match Choose(finals)
    case None => None
    case Some(choice) =>
      var response := CreateResponse(choice.code, request);
      Some(if choice.aggregate then Aggregated(response, finals) else response)
  }

  /** Gathering for a 401 touches only WWW-Authenticate; everything else of the response stays. */
  lemma {:induction false} GatherTouchesOnlyChallenges(acc: Response, fs: seq<Response>)
    requires acc.status == 401
    ensures Gather(acc, fs) == acc.(wwwAuthenticate := Gather(acc, fs).wwwAuthenticate)
    ensures |acc.wwwAuthenticate| <= |Gather(acc, fs).wwwAuthenticate|
    ensures Gather(acc, fs).wwwAuthenticate[..|acc.wwwAuthenticate|] == acc.wwwAuthenticate
    decreases |fs|
  {
    if |fs| > 0 {
      var next := AggregateStep(acc, fs[0]);
      GatherTouchesOnlyChallenges(next, fs[1..]);
      assert next.wwwAuthenticate[..|acc.wwwAuthenticate|] == acc.wwwAuthenticate;
    }
  }

  /**
   * Every WWW-Authenticate value of every stored 401 ends up in the
   * aggregated 401: appended, or already there when the stored response
   * equalled the one being built.
   */
  lemma {:induction false} GatherCollects(acc: Response, fs: seq<Response>)
    requires acc.status == 401
    ensures forall c :: c in acc.wwwAuthenticate ==> c in Gather(acc, fs).wwwAuthenticate
    ensures forall i, c :: 0 <= i < |fs| && fs[i].status == 401 && c in fs[i].wwwAuthenticate ==>
              c in Gather(acc, fs).wwwAuthenticate
    decreases |fs|
  {
    GatherTouchesOnlyChallenges(acc, fs);
    var result := Gather(acc, fs).wwwAuthenticate;
    forall c | c in acc.wwwAuthenticate
      ensures c in result
    {
      var k :| 0 <= k < |acc.wwwAuthenticate| && acc.wwwAuthenticate[k] == c;
      assert result[..|acc.wwwAuthenticate|][k] == c;
    }
    if |fs| > 0 {
      var next := AggregateStep(acc, fs[0]);
      GatherCollects(next, fs[1..]);
      forall i, c | 0 <= i < |fs| && fs[i].status == 401 && c in fs[i].wwwAuthenticate
        ensures c in result
      {
        if i > 0 {
          assert fs[1..][i - 1] == fs[i];
        } else {
          assert c in next.wwwAuthenticate;
        }
      }
    }
  }

  /** Conversely, every value in the aggregated 401 was in the new response or in a stored 401. */
  lemma {:induction false} GatherOnlyFromStored(acc: Response, fs: seq<Response>)
    requires acc.status == 401
    ensures forall c :: c in Gather(acc, fs).wwwAuthenticate ==>
              c in acc.wwwAuthenticate || exists i :: 0 <= i < |fs| && fs[i].status == 401 && c in fs[i].wwwAuthenticate
    decreases |fs|
  {
    if |fs| > 0 {
      var next := AggregateStep(acc, fs[0]);
      GatherOnlyFromStored(next, fs[1..]);
      forall c | c in Gather(acc, fs).wwwAuthenticate
        ensures c in acc.wwwAuthenticate || exists i :: 0 <= i < |fs| && fs[i].status == 401 && c in fs[i].wwwAuthenticate
      {
        if !(c in next.wwwAuthenticate) {
          var i :| 0 <= i < |fs[1..]| && fs[1..][i].status == 401 && c in fs[1..][i].wwwAuthenticate;
          assert fs[i + 1] == fs[1..][i];
        } else if c !in acc.wwwAuthenticate {
          assert fs[0].status == 401 && c in fs[0].wwwAuthenticate;
        }
      }
    }
  }

  /**
   * The aggregated 401 holds exactly the WWW-Authenticate values of the
   * stored 401 responses, and no Proxy-Authenticate value: the challenges of
   * stored 407 responses are not carried over.
   */
  lemma Aggregated401(request: Request, finals: seq<Response>)
    ensures var r := Aggregated(CreateResponse(401, request), finals);
            r.status == 401 && r.proxyAuthenticate == []
            && forall c :: c in r.wwwAuthenticate <==>
                 exists i :: 0 <= i < |finals| && finals[i].status == 401 && c in finals[i].wwwAuthenticate
  {
    var best := CreateResponse(401, request);
    GatherCollects(best, finals);
    GatherOnlyFromStored(best, finals);
    GatherTouchesOnlyChallenges(best, finals);
  }

  /** Gathering for a 407 touches only Proxy-Authenticate; everything else of the response stays. */
  lemma {:induction false} ProxyGatherTouchesOnlyChallenges(acc: Response, fs: seq<Response>)
    requires acc.status == 407
    ensures Gather(acc, fs) == acc.(proxyAuthenticate := Gather(acc, fs).proxyAuthenticate)
    ensures |acc.proxyAuthenticate| <= |Gather(acc, fs).proxyAuthenticate|
    ensures Gather(acc, fs).proxyAuthenticate[..|acc.proxyAuthenticate|] == acc.proxyAuthenticate
    decreases |fs|
  {
    if |fs| > 0 {
      var next := AggregateStep(acc, fs[0]);
      ProxyGatherTouchesOnlyChallenges(next, fs[1..]);
      assert next.proxyAuthenticate[..|acc.proxyAuthenticate|] == acc.proxyAuthenticate;
    }
  }

  /** Every Proxy-Authenticate value of every stored 407 ends up in the aggregated 407. */
  lemma {:induction false} ProxyGatherCollects(acc: Response, fs: seq<Response>)
    requires acc.status == 407
    ensures forall c :: c in acc.proxyAuthenticate ==> c in Gather(acc, fs).proxyAuthenticate
    ensures forall i, c :: 0 <= i < |fs| && fs[i].status == 407 && c in fs[i].proxyAuthenticate ==>
              c in Gather(acc, fs).proxyAuthenticate
    decreases |fs|
  {
    ProxyGatherTouchesOnlyChallenges(acc, fs);
    var result := Gather(acc, fs).proxyAuthenticate;
    forall c | c in acc.proxyAuthenticate
      ensures c in result
    {
      var k :| 0 <= k < |acc.proxyAuthenticate| && acc.proxyAuthenticate[k] == c;
      assert result[..|acc.proxyAuthenticate|][k] == c;
    }
    if |fs| > 0 {
      var next := AggregateStep(acc, fs[0]);
      ProxyGatherCollects(next, fs[1..]);
      forall i, c | 0 <= i < |fs| && fs[i].status == 407 && c in fs[i].proxyAuthenticate
        ensures c in result
      {
        if i > 0 {
          assert fs[1..][i - 1] == fs[i];
        } else {
          assert c in next.proxyAuthenticate;
        }
      }
    }
  }

  /** Conversely, every value in the aggregated 407 was in the new response or in a stored 407. */
  lemma {:induction false} ProxyGatherOnlyFromStored(acc: Response, fs: seq<Response>)
    requires acc.status == 407
    ensures forall c :: c in Gather(acc, fs).proxyAuthenticate ==>
              c in acc.proxyAuthenticate || exists i :: 0 <= i < |fs| && fs[i].status == 407 && c in fs[i].proxyAuthenticate
    decreases |fs|
  {
    if |fs| > 0 {
      var next := AggregateStep(acc, fs[0]);
      ProxyGatherOnlyFromStored(next, fs[1..]);
      forall c | c in Gather(acc, fs).proxyAuthenticate
        ensures c in acc.proxyAuthenticate || exists i :: 0 <= i < |fs| && fs[i].status == 407 && c in fs[i].proxyAuthenticate
      {
        if !(c in next.proxyAuthenticate) {
          var i :| 0 <= i < |fs[1..]| && fs[1..][i].status == 407 && c in fs[1..][i].proxyAuthenticate;
          assert fs[i + 1] == fs[1..][i];
        } else if c !in acc.proxyAuthenticate {
          assert fs[0].status == 407 && c in fs[0].proxyAuthenticate;
        }
      }
    }
  }

  /**
   * The aggregated 407 holds exactly the Proxy-Authenticate values of the
   * stored 407 responses, and no WWW-Authenticate value.
   */
  lemma Aggregated407(request: Request, finals: seq<Response>)
    ensures var r := Aggregated(CreateResponse(407, request), finals);
            r.status == 407 && r.wwwAuthenticate == []
            && forall c :: c in r.proxyAuthenticate <==>
                 exists i :: 0 <= i < |finals| && finals[i].status == 407 && c in finals[i].proxyAuthenticate
  {
    var best := CreateResponse(407, request);
    ProxyGatherCollects(best, finals);
    ProxyGatherOnlyFromStored(best, finals);
    ProxyGatherTouchesOnlyChallenges(best, finals);
  }

  /** Responses other than 401 and 407 are not changed by aggregation. */
  lemma AggregatedOtherCodes(best: Response, finals: seq<Response>)
    requires best.status != 401 && best.status != 407
    ensures Aggregated(best, finals) == best
  {
  }

  // ---------------------------------------------------------------------
  // What the choice promises

  lemma NothingReceived(request: Request)
    ensures BestResponse(request, []) == Some(CreateResponse(408, request))
  {
  }

  /** Any 6xx wins over every other class, with the code of the first 6xx stored. */
  lemma SixWins(finals: seq<Response>, i: nat)
    requires i < |finals| && StatusClass(finals[i].status) == 6
    requires forall j :: 0 <= j < i ==> StatusClass(finals[j].status) != 6
    ensures Choose(finals) == Some(Choice(finals[i].status, false))
  {
    MatchingHead(finals, Class(6), i);
  }

  /** Without a 6xx, the first 2xx wins. */
  lemma TwoWins(finals: seq<Response>, i: nat)
    requires i < |finals| && StatusClass(finals[i].status) == 2
    requires forall j :: 0 <= j < i ==> StatusClass(finals[j].status) != 2
    requires forall j :: 0 <= j < |finals| ==> StatusClass(finals[j].status) != 6
    ensures Choose(finals) == Some(Choice(finals[i].status, false))
  {
    MatchingHead(finals, Class(2), i);
    NoneMatch(finals, Class(6));
  }

  /** Without a 6xx or a 2xx, the first 3xx wins. */
  lemma ThreeWins(finals: seq<Response>, i: nat)
    requires i < |finals| && StatusClass(finals[i].status) == 3
    requires forall j :: 0 <= j < i ==> StatusClass(finals[j].status) != 3
    requires forall j :: 0 <= j < |finals| ==> StatusClass(finals[j].status) != 6 && StatusClass(finals[j].status) != 2
    ensures Choose(finals) == Some(Choice(finals[i].status, false))
  {
    MatchingHead(finals, Class(3), i);
    NoneMatch(finals, Class(6)); NoneMatch(finals, Class(2));
  }

  /** The classes above 4 are absent ahead of the 4xx branch. */
  predicate NoBetterThanFour(finals: seq<Response>) {
    forall j :: 0 <= j < |finals| ==>
      StatusClass(finals[j].status) != 6 && StatusClass(finals[j].status) != 2 && StatusClass(finals[j].status) != 3
  }

  /**
   * In the 4xx class a preferred code wins when one was received: the first
   * of 401, 407, 415, 420, 484 that was, none before it in that list having been received.
   */
  lemma PreferredCodeWins(finals: seq<Response>, k: nat, i: nat)
    requires NoBetterThanFour(finals)
    requires k < |PREFERRED_CODES| && i < |finals| && finals[i].status == PREFERRED_CODES[k]
    requires forall j, l :: 0 <= j < k && 0 <= l < |finals| ==> finals[l].status != PREFERRED_CODES[j]
    ensures Choose(finals) == Some(Choice(PREFERRED_CODES[k], true))
  {
    var four := Matching(finals, Class(4));
    NoneMatch(finals, Class(6)); NoneMatch(finals, Class(2)); NoneMatch(finals, Class(3));
    assert finals[i] in four;
    assert Matching(four, Code(PREFERRED_CODES[k])) != [];
    forall j | 0 <= j < k
      ensures Matching(four, Code(PREFERRED_CODES[j])) == []
    {
      forall t | 0 <= t < |four|
        ensures four[t].status != PREFERRED_CODES[j]
      {
        assert four[t] in finals;
      }
      NoneMatch(four, Code(PREFERRED_CODES[j]));
    }
    PreferredPrefix(four, k);
    var m := Matching(four, Code(PREFERRED_CODES[k]));
    assert m[0] in m;
  }

  /** With the first `k` preferred codes absent and the `k`-th present, it is the one chosen. */
  lemma PreferredPrefix(four: seq<Response>, k: nat)
    requires k < |PREFERRED_CODES|
    requires forall j :: 0 <= j < k ==> Matching(four, Code(PREFERRED_CODES[j])) == []
    requires Matching(four, Code(PREFERRED_CODES[k])) != []
    ensures FirstPresent(four, PREFERRED_CODES) == Some(PREFERRED_CODES[k])
  {
    FirstPresentAt(four, PREFERRED_CODES, k);
  }

  lemma {:induction false} FirstPresentAt(rs: seq<Response>, codes: seq<int>, k: nat)
    requires k < |codes|
    requires forall j :: 0 <= j < k ==> Matching(rs, Code(codes[j])) == []
    requires Matching(rs, Code(codes[k])) != []
    ensures FirstPresent(rs, codes) == Some(codes[k])
  {
    if k > 0 {
      assert Matching(rs, Code(codes[0])) == [];
      assert forall j :: 0 <= j < k - 1 ==> codes[1..][j] == codes[j + 1];
      FirstPresentAt(rs, codes[1..], k - 1);
    }
  }

  /** In the 4xx class without a preferred code, the first 4xx wins. */
  lemma FirstFourWins(finals: seq<Response>, i: nat)
    requires NoBetterThanFour(finals)
    requires i < |finals| && StatusClass(finals[i].status) == 4
    requires forall j :: 0 <= j < i ==> StatusClass(finals[j].status) != 4
    requires forall l :: 0 <= l < |finals| ==> finals[l].status !in PREFERRED_CODES
    ensures Choose(finals) == Some(Choice(finals[i].status, true))
  {
    MatchingHead(finals, Class(4), i);
    var four := Matching(finals, Class(4));
    NoneMatch(finals, Class(6)); NoneMatch(finals, Class(2)); NoneMatch(finals, Class(3));
    forall k | 0 <= k < |PREFERRED_CODES|
      ensures Matching(four, Code(PREFERRED_CODES[k])) == []
    {
      forall t | 0 <= t < |four|
        ensures four[t].status != PREFERRED_CODES[k]
      {
        assert four[t] in finals;
      }
      NoneMatch(four, Code(PREFERRED_CODES[k]));
    }
  }

  /** In the 5xx class, when every 5xx is a 503 the proxy answers 500. */
  lemma OnlyUnavailable(finals: seq<Response>, i: nat)
    requires i < |finals| && StatusClass(finals[i].status) == 5
    requires forall j :: 0 <= j < |finals| ==> StatusClass(finals[j].status) !in {2, 3, 4, 6}
    requires forall j :: 0 <= j < |finals| && StatusClass(finals[j].status) == 5 ==> finals[j].status == 503
    ensures Choose(finals) == Some(Choice(500, false))
  {
    var five := Matching(finals, Class(5));
    assert finals[i] in five;
    NoneMatch(finals, Class(6)); NoneMatch(finals, Class(2)); NoneMatch(finals, Class(3));
    NoneMatch(finals, Class(4));
    AllMatch(five, Code(503));
  }

  /** Filtering a list all of whose members match keeps the list. */
  lemma {:induction false} AllMatch(rs: seq<Response>, key: Key)
    requires forall x :: x in rs ==> Matches(x, key)
    ensures Matching(rs, key) == rs
    decreases |rs|
  {
    if |rs| > 0 {
      AllMatch(rs[..|rs| - 1], key);
      assert rs[..|rs| - 1] + [rs[|rs| - 1]] == rs;
    }
  }

  /** In the 5xx class with some 5xx other than 503, the first 5xx wins. */
  lemma FirstFiveWins(finals: seq<Response>, i: nat, other: nat)
    requires i < |finals| && StatusClass(finals[i].status) == 5
    requires forall j :: 0 <= j < i ==> StatusClass(finals[j].status) != 5
    requires forall j :: 0 <= j < |finals| ==> StatusClass(finals[j].status) !in {2, 3, 4, 6}
    requires other < |finals| && StatusClass(finals[other].status) == 5 && finals[other].status != 503
    ensures Choose(finals) == Some(Choice(finals[i].status, false))
  {
    MatchingHead(finals, Class(5), i);
    var five := Matching(finals, Class(5));
    NoneMatch(finals, Class(6)); NoneMatch(finals, Class(2)); NoneMatch(finals, Class(3));
    NoneMatch(finals, Class(4));
    assert finals[other] in five;
    SubsetShorter(five, Code(503), finals[other]);
  }

  /** A filter that drops some element is shorter than the list. */
  lemma {:induction false} SubsetShorter(rs: seq<Response>, key: Key, x: Response)
    requires x in rs && !Matches(x, key)
    ensures |Matching(rs, key)| < |rs|
    decreases |rs|
  {
    var front := rs[..|rs| - 1];
    if rs[|rs| - 1] != x {
      assert x in front;
      SubsetShorter(front, key, x);
    }
  }

  /** Null comes back exactly when responses were stored but none has a class from 2 to 6. */
  lemma NoChoice(finals: seq<Response>)
    ensures Choose(finals).None? <==>
              finals != [] && forall j :: 0 <= j < |finals| ==> StatusClass(finals[j].status) !in {2, 3, 4, 5, 6}
  {
    if finals != [] && exists j :: 0 <= j < |finals| && StatusClass(finals[j].status) in {2, 3, 4, 5, 6} {
      var j :| 0 <= j < |finals| && StatusClass(finals[j].status) in {2, 3, 4, 5, 6};
      assert finals[j] in Matching(finals, Class(StatusClass(finals[j].status)));
    }
    if finals != [] && forall j :: 0 <= j < |finals| ==> StatusClass(finals[j].status) !in {2, 3, 4, 5, 6} {
      NoneMatch(finals, Class(6)); NoneMatch(finals, Class(2)); NoneMatch(finals, Class(3));
      NoneMatch(finals, Class(4)); NoneMatch(finals, Class(5));
    }
  }

  /** With every stored code a real status code, a response is always chosen and its class is one received. */
  lemma ChoiceIsFinal(finals: seq<Response>)
    requires forall j :: 0 <= j < |finals| ==> 200 <= finals[j].status < 700
    ensures Choose(finals).Some?
    ensures 200 <= Choose(finals).value.code < 700
  {
    NoChoice(finals);
    if finals != [] {
      assert StatusClass(finals[0].status) in {2, 3, 4, 5, 6};
      var c := Choose(finals).value.code;
      var six := Matching(finals, Class(6));
      var two := Matching(finals, Class(2));
      var three := Matching(finals, Class(3));
      var four := Matching(finals, Class(4));
      var five := Matching(finals, Class(5));
      if six != [] { assert six[0] in six; }
      else if two != [] { assert two[0] in two; }
      else if three != [] { assert three[0] in three; }
      else if four != [] {
        match FirstPresent(four, PREFERRED_CODES)
        case Some(p) => var m := Matching(four, Code(p)); assert m[0] in m;
        case None => assert four[0] in four;
      }
      else if five != [] { assert five[0] in five; }
    }
  }

  // ---------------------------------------------------------------------
  // The context object

  class ResponseContext {
    /** The request the server transaction received. */
    const request: Request
    var finalResponses: seq<Response>

    /** Every stored response is final. */
    predicate Valid()
      reads this
    {
      forall i :: 0 <= i < |finalResponses| ==> IsFinal(finalResponses[i].status)
    }

    constructor (request: Request)
      ensures Valid() && this.request == request && finalResponses == []
    {
      this.request := request;
      finalResponses := [];
    }

    /** `addFinalResponse`: a final response is appended; a provisional one is ignored. */
    method AddFinalResponse(response: Response)
      modifies this`finalResponses
      ensures finalResponses == if IsFinal(response.status) then old(finalResponses) + [response] else old(finalResponses)
      ensures old(Valid()) ==> Valid()
    {
      if IsFinal(response.status) {
        finalResponses := finalResponses + [response];
      }
    }

    /** `getBestResponse`: the choice of RFC 3261 section 16.7, built on the request. */
    method GetBestResponse() returns (best: Option<Response>)
      ensures best == BestResponse(request, finalResponses)
    {
      if |finalResponses| == 0 {
        return Some(CreateResponse(408, request));
      }
      var six := GetResponsesByStatusCodeClass(finalResponses, 6);
      if six.Some? && |six.value| > 0 {
        return Some(CreateResponse(six.value[0].status, request));
      }
      var two := GetResponsesByStatusCodeClass(finalResponses, 2);
      if two.Some? && |two.value| > 0 {
        return Some(CreateResponse(two.value[0].status, request));
      }
      var three := GetResponsesByStatusCodeClass(finalResponses, 3);
      if three.Some? && |three.value| > 0 {
        return Some(CreateResponse(three.value[0].status, request));
      }
      var four := GetResponsesByStatusCodeClass(finalResponses, 4);
      if four.Some? && |four.value| > 0 {
        var chosen := PreferredResponse(four.value);
        var response := AggregateAuthHeaders(CreateResponse(chosen, request));
        return Some(response);
      }
      var five := GetResponsesByStatusCodeClass(finalResponses, 5);
      if five.Some? && |five.value| > 0 {
        var unavailable := GetResponsesByStatusCode(five.value, 503);
        if unavailable.Some? && |unavailable.value| > 0 && |unavailable.value| == |five.value| {
          return Some(CreateResponse(500, request));
        }
        return Some(CreateResponse(five.value[0].status, request));
      }
      return None;
    }

    /** The loop over the preferred codes inside the 4xx branch. */
    method PreferredResponse(four: seq<Response>) returns (code: int)
      requires four != []
      ensures code == match FirstPresent(four, PREFERRED_CODES)
                      case Some(p) => Matching(four, Code(p))[0].status
                      case None => four[0].status
    {
      for k := 0 to |PREFERRED_CODES|
        invariant forall j :: 0 <= j < k ==> Matching(four, Code(PREFERRED_CODES[j])) == []
      {
        var responses := GetResponsesByStatusCode(four, PREFERRED_CODES[k]);
        if responses.Some? && |responses.value| > 0 {
          PreferredPrefix(four, k);
          return responses.value[0].status;
        }
      }
      return four[0].status;
    }

    /** `aggregateAuthHeaders`: the loop over the stored responses for a 401 or a 407. */
    method AggregateAuthHeaders(best: Response) returns (r: Response)
      ensures r == Aggregated(best, finalResponses)
    {
      r := best;
      if best.status == 401 || best.status == 407 {
        var i := 0;
        while i < |finalResponses|
          invariant 0 <= i <= |finalResponses|
          invariant Gather(r, finalResponses[i..]) == Gather(best, finalResponses)
        {
          assert finalResponses[i..][1..] == finalResponses[i + 1..];
          var finalResponse := finalResponses[i];
          if !(finalResponse == r || finalResponse.status != best.status) {
            if best.status == 401 {
              r := r.(wwwAuthenticate := r.wwwAuthenticate + finalResponse.wwwAuthenticate);
            } else {
              r := r.(proxyAuthenticate := r.proxyAuthenticate + finalResponse.proxyAuthenticate);
            }
          }
          i := i + 1;
        }
      }
    }
  }

  /** `getResponsesByStatusCodeClass`: null when no response has that class, else those that do, in order. */
  method GetResponsesByStatusCodeClass(responses: seq<Response>, statusClass: int) returns (v: Option<seq<Response>>)
    ensures v == NonEmpty(Matching(responses, Class(statusClass)))
  {
    v := Filter(responses, Class(statusClass));
  }

  /** `getResponsesByStatusCode`: null when no response has that code, else those that do, in order. */
  method GetResponsesByStatusCode(responses: seq<Response>, statusCode: int) returns (v: Option<seq<Response>>)
    ensures v == NonEmpty(Matching(responses, Code(statusCode)))
  {
    v := Filter(responses, Code(statusCode));
  }

  /** The loop both filters share: the vector is created on the first match. */
  method Filter(responses: seq<Response>, key: Key) returns (v: Option<seq<Response>>)
    ensures v == NonEmpty(Matching(responses, key))
  {
    v := None;
    for i := 0 to |responses|
      invariant v == NonEmpty(Matching(responses[..i], key))
    {
      assert responses[..i + 1][..i] == responses[..i] && responses[..i + 1][i] == responses[i];
      ghost var m := Matching(responses[..i], key);
      assert Matching(responses[..i + 1], key) == if Matches(responses[i], key) then m + [responses[i]] else m;
      if Matches(responses[i], key) {
        if v.None? {
          assert m == [] && m + [responses[i]] == [responses[i]];
          v := Some([responses[i]]);
        } else {
          v := Some(v.value + [responses[i]]);
        }
      }
    }
    assert responses[..|responses|] == responses;
  }
}
