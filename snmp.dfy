/**
 * SNMPAssistant: the table of statistics counters each server exports over
 * SNMP, and the agent callbacks answering get and get-next requests.
 * The table has one row per OID; column 0 is the OID text (never changed),
 * column 1 an integer object updated in place, modelled as an array cell.
 */
module Snmp {
  import opened Common

  /** The first index holding `x`, or -1. */
  function FirstIndex(s: seq<string>, x: string): (r: int)
    ensures r == -1 <==> x !in s
    ensures r != -1 ==> 0 <= r < |s| && s[r] == x && x !in s[..r]
  {
    if |s| == 0 then -1
    else if s[0] == x then 0
    else
      var k := FirstIndex(s[1..], x);
      assert k != -1 ==> s[1..][..k] == s[1..k + 1];
      if k == -1 then -1 else k + 1
  }

  /** The first index whose OID starts with `prefix`, or |s| when there is none. */
  function FirstWithPrefix(s: seq<string>, prefix: string): (r: nat)
    ensures r <= |s|
    ensures r < |s| ==> StartsWith(s[r], prefix)
    ensures forall j :: 0 <= j < r ==> !StartsWith(s[j], prefix)
  {
    if |s| == 0 then 0
    else if StartsWith(s[0], prefix) then 0
    else 1 + FirstWithPrefix(s[1..], prefix)
  }

  datatype PduType = GetRequest | SetRequest | GetNextRequest | OtherPdu

  /** A request PDU: its type and the OIDs of its variable bindings. */
  datatype Pdu = Pdu(pduType: PduType, oids: seq<string>)

  /** A get-next answer: the requested OID and the (following OID, its value) pair. */
  datatype NextPair = NextPair(requested: string, next: string, value: Option<int>)

  class SNMPAssistant {
    const communityName: string
    const oids: seq<string>
    const values: array<int>

    ghost predicate Valid()
    {
      values.Length == |oids|
    }

    constructor (communityName: string, oids: seq<string>, initial: seq<int>)
      requires |initial| == |oids|
      ensures Valid() && fresh(values)
      ensures this.communityName == communityName && this.oids == oids && values[..] == initial
    {
      this.communityName := communityName;
      this.oids := oids;
      var a := new int[|initial|];
      forall i | 0 <= i < |initial| { a[i] := initial[i]; }
      assert a[..] == initial;
      values := a;
    }

    /** The value stored under `oid` (the first row holding it), if any. */
    function ValueOf(oid: string): (r: Option<int>)
      requires Valid()
      reads values
      ensures r.None? <==> oid !in oids
      ensures r.Some? ==> r.value == values[FirstIndex(oids, oid)]
    {
      var i := FirstIndex(oids, oid);
      if i == -1 then None else Some(values[i])
    }

    /** `findSnmpOID`: linear scan for the first row holding `oid`. */
    method FindSnmpOID(oid: string) returns (index: int)
      requires Valid()
      ensures index == -1 <==> oid !in oids
      ensures index != -1 ==> 0 <= index < |oids| && oids[index] == oid && oid !in oids[..index]
    {
      var i := 0;
      while i < |oids|
        invariant 0 <= i <= |oids|
        invariant oid !in oids[..i]
      {
        if oids[i] == oid {
          return i;
        }
        assert oids[..i + 1] == oids[..i] + [oids[i]];
        i := i + 1;
      }
      assert oids[..i] == oids;
      return -1;
    }

    /** `getSnmpOIDValue`: null exactly when the OID is not in the table. */
    method GetSnmpOIDValue(oid: string) returns (value: Option<int>)
      requires Valid()
      ensures value.None? <==> oid !in oids
      ensures value == ValueOf(oid)
    {
      var index := FindSnmpOID(oid);
      FirstIndexUnique(oids, oid, index);
      value := if index != -1 then Some(values[index]) else None;
    }

    /** `getSnmpInteger(oid, default)`: the stored value, or `default` for an unknown OID (nothing is stored). */
    method GetSnmpInteger(oid: string, defaultValue: int) returns (value: int)
      requires Valid()
      ensures oid in oids ==> value == values[FirstIndex(oids, oid)]
      ensures oid !in oids ==> value == defaultValue
    {
      var v := GetSnmpOIDValue(oid);
      value := match v case Some(x) => x case None => defaultValue;
    }

    /** The table after the row of `oid` is set to `newValue`; an unknown OID leaves it as it is. */
    ghost function Updated(before: seq<int>, oid: string, newValue: int): seq<int>
      requires |before| == |oids|
    {
      var i := FirstIndex(oids, oid);
      if i == -1 then before else before[i := newValue]
    }

    /** `setSnmpInteger`: a no-op for an unknown OID. */
    method SetSnmpInteger(oid: string, newValue: int)
      requires Valid()
      modifies values
      ensures values[..] == Updated(old(values[..]), oid, newValue)
    {
      var index := FindSnmpOID(oid);
      if index != -1 {
        values[index] := newValue;
      }
    }

    /**
     * `incrementSnmpInteger`: `setValue(+1)` on the object `getSnmpInteger`
     * returns, which is the row of `oid` when it is known and otherwise a
     * default object nobody keeps, so an unknown OID changes nothing.
     */
    method IncrementSnmpInteger(oid: string)
      requires Valid()
      modifies values
      ensures oid in oids ==> values[..] == old(values[..])[FirstIndex(oids, oid) := old(values[FirstIndex(oids, oid)]) + 1]
      ensures oid !in oids ==> values[..] == old(values[..])
    {
      var index := FindSnmpOID(oid);
      var v := GetSnmpInteger(oid, 0);
      if index != -1 {
        values[index] := v + 1;
      }
    }

    /** `decrementSnmpInteger`: the same with -1. */
    method DecrementSnmpInteger(oid: string)
      requires Valid()
      modifies values
      ensures oid in oids ==> values[..] == old(values[..])[FirstIndex(oids, oid) := old(values[FirstIndex(oids, oid)]) - 1]
      ensures oid !in oids ==> values[..] == old(values[..])
    {
      var index := FindSnmpOID(oid);
      var v := GetSnmpInteger(oid, 0);
      if index != -1 {
        values[index] := v - 1;
      }
    }

    /** The answer to a get request: the known OIDs of the bindings with their values, in request order. */
    function GetAnswer(request: seq<string>): (r: seq<(string, int)>)
      requires Valid()
      reads values
      ensures |r| <= |request|
      ensures forall p :: p in r ==> p.0 in request && ValueOf(p.0) == Some(p.1)
      ensures forall o :: o in request && o in oids ==> (o, values[FirstIndex(oids, o)]) in r
    {
      if |request| == 0 then []
      else
        var rest := GetAnswer(request[..|request| - 1]);
        var last := request[|request| - 1];
        match ValueOf(last)
        case None => rest
        case Some(v) => rest + [(last, v)]
    }

    /**
     * `processRequest`: a foreign community gets nothing; a get request gets
     * the pairs of the OIDs this table knows; a set request is ignored.
     */
    method ProcessRequest(pdu: Pdu, community: string) returns (response: seq<(string, int)>)
      requires Valid()
      ensures community != communityName ==> response == []
      ensures pdu.pduType != GetRequest ==> response == []
      ensures community == communityName && pdu.pduType == GetRequest ==> response == GetAnswer(pdu.oids)
    {
      response := [];
      for i := 0 to |pdu.oids|
        invariant community != communityName || pdu.pduType != GetRequest ==> response == []
        invariant community == communityName && pdu.pduType == GetRequest ==> response == GetAnswer(pdu.oids[..i])
      {
        assert pdu.oids[..i + 1][..i] == pdu.oids[..i];
        if community != communityName {
          continue;
        }
        if pdu.pduType == GetRequest {
          var value := GetSnmpOIDValue(pdu.oids[i]);
          if value.Some? {
            response := response + [(pdu.oids[i], value.value)];
          }
        }
        if pdu.pduType == SetRequest {
          // set requests are not served
        }
      }
      assert pdu.oids[..|pdu.oids|] == pdu.oids;
    }

    /**
     * The row get-next answers for `requested`: the first row whose OID starts
     * with it, moved one row on when that OID is `requested` itself (equal
     * length); nothing when no row matches or the match is the last row.
     */
    function NextIndex(requested: string): (r: Option<nat>)
      ensures r.Some? ==> r.value < |oids|
    {
      var index := FirstWithPrefix(oids, requested);
      if index < |oids| - 1 then
        Some(if |requested| == |oids[index]| then index + 1 else index)
      else None
    }

    function GetNextAnswer(request: seq<string>): seq<NextPair>
      requires Valid()
      reads values
    {
      if |request| == 0 then []
      else
        var rest := GetNextAnswer(request[..|request| - 1]);
        var last := request[|request| - 1];
        match NextIndex(last)
        case None => rest
        case Some(k) => rest + [NextPair(last, oids[k], ValueOf(oids[k]))]
    }

    /** `processGetNextRequest`: one linear prefix scan per requested OID. */
    method ProcessGetNextRequest(pdu: Pdu, community: string) returns (response: seq<NextPair>)
      requires Valid()
      ensures community != communityName || pdu.pduType != GetNextRequest ==> response == []
      ensures community == communityName && pdu.pduType == GetNextRequest ==> response == GetNextAnswer(pdu.oids)
    {
      response := [];
      for i := 0 to |pdu.oids|
        invariant community != communityName || pdu.pduType != GetNextRequest ==> response == []
        invariant community == communityName && pdu.pduType == GetNextRequest ==> response == GetNextAnswer(pdu.oids[..i])
      {
        assert pdu.oids[..i + 1][..i] == pdu.oids[..i];
        var requested := pdu.oids[i];
        if community != communityName {
          continue;
        }
        if pdu.pduType == GetNextRequest {
          var index := 0;
          while index < |oids|
            invariant 0 <= index <= |oids|
            invariant forall j :: 0 <= j < index ==> !StartsWith(oids[j], requested)
          {
            if StartsWith(oids[index], requested) {
              break;
            }
            index := index + 1;
          }
          assert index == FirstWithPrefix(oids, requested);
          if index < |oids| - 1 {
            if |requested| == |oids[index]| {
              index := index + 1;
            }
            if index < |oids| {
              var value := GetSnmpOIDValue(oids[index]);
              response := response + [NextPair(requested, oids[index], value)];
            }
          }
        }
      }
      assert pdu.oids[..|pdu.oids|] == pdu.oids;
    }
  }

  lemma FirstIndexUnique(s: seq<string>, x: string, i: int)
    requires i == -1 <==> x !in s
    requires i != -1 ==> 0 <= i < |s| && s[i] == x && x !in s[..i]
    ensures i == FirstIndex(s, x)
  {
  }

  /**
   * Get-next of an OID in the table (not the last row, and no earlier row
   * starting with it) answers the row right after it.
   */
  lemma NextOfExact(a: SNMPAssistant, k: nat)
    requires k < |a.oids| - 1
    requires forall j :: 0 <= j < k ==> !StartsWith(a.oids[j], a.oids[k])
    ensures a.NextIndex(a.oids[k]) == Some(k + 1)
  {
    assert StartsWith(a.oids[k], a.oids[k]);
  }

  /**
   * Get-next of a strict prefix of the first row that starts with it (not the
   * last row) answers that row itself.
   */
  lemma NextOfPrefix(a: SNMPAssistant, requested: string, k: nat)
    requires k < |a.oids| - 1
    requires StartsWith(a.oids[k], requested) && |requested| < |a.oids[k]|
    requires forall j :: 0 <= j < k ==> !StartsWith(a.oids[j], requested)
    ensures a.NextIndex(requested) == Some(k)
  {
    FirstWithPrefixIs(a.oids, requested, k);
  }

  /** The first index with the prefix is the one before which no OID has it. */
  lemma FirstWithPrefixIs(s: seq<string>, prefix: string, k: nat)
    requires k < |s| && StartsWith(s[k], prefix)
    requires forall j :: 0 <= j < k ==> !StartsWith(s[j], prefix)
    ensures FirstWithPrefix(s, prefix) == k
  {
  }

  lemma NextOfLast(a: SNMPAssistant, requested: string)
    requires FirstWithPrefix(a.oids, requested) >= |a.oids| - 1
    ensures a.NextIndex(requested).None?
  {
  }
}
