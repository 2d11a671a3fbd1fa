/**
 * The proxy's state as values: the layout of its SNMP table, and what the
 * forwarding loop of `Proxy.java` does to the outbox, the transaction
 * handles, the client-transaction gauge, the Timer C schedule and the
 * mappings, step by step and over all its targets.
 */
module ProxyState {
  import opened Common
  import opened Sip
  import opened Snmp
  import opened SipStack
  import opened TimerC
  import opened TransactionsMappings

  /** The proxy's SNMP table, in the order its constructor lists the counters. */
  const PROXY_OIDS: seq<string> := [
    SNMP_OID_NUM_REQUESTS_PROCESSED, SNMP_OID_NUM_RESPONSES_PROCESSED,
    SNMP_OID_NUM_REQUEST_PROCESSING_ERRORS, SNMP_OID_NUM_RESPONSE_PROCESSING_ERRORS,
    SNMP_OID_NUM_SERVER_TRANSACTIONS, SNMP_OID_NUM_CLIENT_TRANSACTIONS]

  const REQUESTS_ROW: nat := 0
  const RESPONSES_ROW: nat := 1
  const REQUEST_ERRORS_ROW: nat := 2
  const RESPONSE_ERRORS_ROW: nat := 3
  const SERVER_ROW: nat := 4
  const CLIENT_ROW: nat := 5

  /** Timer C: three minutes and one second, in milliseconds. */
  const TIMER_C_PERIOD: int := 3 * 60 * 1000 + 1000

  /** Each counter of the proxy's table has a row of its own. */
  lemma RowOf(row: nat)
    requires row < |PROXY_OIDS|
    ensures FirstIndex(PROXY_OIDS, PROXY_OIDS[row]) == row
  {
    var k := |TimerC.SNMP_ROOT_OID| + 2;
    assert forall i :: 0 <= i < 6 ==> |PROXY_OIDS[i]| == k + 1 && PROXY_OIDS[i][k] == "123456"[i];
    var r := FirstIndex(PROXY_OIDS, PROXY_OIDS[row]);
    assert PROXY_OIDS[r][k] == PROXY_OIDS[row][k];
  }

  /** The table with `n` added to one row. */
  function Add(values: seq<int>, row: nat, n: int): (r: seq<int>)
    requires row < |values|
    ensures |r| == |values| && r[row] == values[row] + n
    ensures forall i :: 0 <= i < |r| && i != row ==> r[i] == values[i]
  {
    values[row := values[row] + n]
  }

  lemma AddTwice(values: seq<int>, row: nat, a: int, b: int)
    requires row < |values|
    ensures Add(Add(values, row, a), row, b) == Add(values, row, a + b)
  {
  }

  /** What `forwardRequest` hands to the stack for a copy: on client transaction `ct` when `onTx`, to the provider otherwise. */
  function Message(copy: Request, onTx: bool, ct: TxId): Outgoing
  {
    if onTx then OnClientTransaction(ct, copy) else StatelessRequest(copy)
  }

  /** What `forwardRequest` hands to the stack for each of `copies` in turn: on consecutive client transactions from `ct` when `onTx`. */
  function Forwards(copies: seq<Request>, onTx: bool, ct: TxId): (r: seq<Outgoing>)
    decreases |copies|
  {
    if |copies| == 0 then []
    else
      var n := |copies| - 1;
      Forwards(copies[..n], onTx, ct) + [Message(copies[n], onTx, ct + n)]
  }

  /** The `i`-th message is the `i`-th copy, on the `i`-th new client transaction when `onTx`. */
  lemma {:induction false} ForwardsAt(copies: seq<Request>, onTx: bool, ct: TxId)
    ensures var r := Forwards(copies, onTx, ct);
            |r| == |copies| && forall i :: 0 <= i < |copies| ==> r[i] == Message(copies[i], onTx, ct + i)
    decreases |copies|
  {
    if |copies| > 0 {
      var n := |copies| - 1;
      ForwardsAt(copies[..n], onTx, ct);
    }
  }

  /** Forwarding `a` and then `b` sends what forwarding `a + b` sends. */
  lemma {:induction false} ForwardsAppend(a: seq<Request>, b: seq<Request>, onTx: bool, ct: TxId)
    ensures Forwards(a + b, onTx, ct) == Forwards(a, onTx, ct) + Forwards(b, onTx, ct + |a|)
    decreases |b|
  {
    if |b| == 0 {
      assert a + b == a;
    } else {
      var n := |b| - 1;
      assert (a + b)[..|a| + n] == a + b[..n];
      ForwardsAppend(a, b[..n], onTx, ct);
      ConcatAssoc(Forwards(a, onTx, ct), Forwards(b[..n], onTx, ct + |a|), [Message(b[n], onTx, ct + |a| + n)]);
    }
  }

  /** The copy `forwardRequest` sends, if any, as a sequence; likewise the Timer C it starts. */
  function CopiesOf(copy: Option<Request>): seq<Request>
  {
    if copy.Some? then [copy.value] else []
  }

  function TimersOf(timer: Timer?): seq<Timer>
  {
    if timer != null then [timer] else []
  }

  /** `n` client transactions from `lo` on mapped to `m`. */
  function Fan(clients: map<TxId, TransactionsMapping>, lo: TxId, n: nat, m: TransactionsMapping?): map<TxId, TransactionsMapping>
    requires n > 0 ==> m != null
  {
    if n == 0 then clients else Fan(clients, lo, n - 1, m)[lo + n - 1 := m]
  }

  /** After a fan, the transactions in the range map to `m` and every other one keeps its mapping. */
  lemma {:induction false} FanAt(clients: map<TxId, TransactionsMapping>, lo: TxId, n: nat, m: TransactionsMapping?)
    requires n > 0 ==> m != null
    ensures var f := Fan(clients, lo, n, m);
            && (forall ct :: lo <= ct < lo + n ==> ct in f && f[ct] == m)
            && (forall ct :: !(lo <= ct < lo + n) ==> (ct in f <==> ct in clients) && (ct in clients ==> f[ct] == clients[ct]))
  {
    if n > 0 {
      FanAt(clients, lo, n - 1, m);
      var g, top := Fan(clients, lo, n - 1, m), lo + n - 1;
      assert Fan(clients, lo, n, m) == g[top := m];
      forall ct | ct != top
        ensures (ct in g[top := m] <==> ct in g) && (ct in g ==> g[top := m][ct] == g[ct])
      {
      }
    }
  }

  /** Two fans in a row, the second starting where the first ends, are one fan. */
  lemma {:induction false} FanAppend(clients: map<TxId, TransactionsMapping>, lo: TxId, a: nat, b: nat, m: TransactionsMapping?)
    requires a + b > 0 ==> m != null
    ensures Fan(Fan(clients, lo, a, m), lo + a, b, m) == Fan(clients, lo, a + b, m)
  {
    if b > 0 {
      FanAppend(clients, lo, a, b - 1, m);
    }
  }

  /** The part of a proxy's state that forwarding changes, as values: outbox, next handle, table, timers, mappings. */
  datatype Snapshot = Snapshot(
    sent: seq<Outgoing>, nextId: TxId, values: seq<int>, scheduled: seq<Timer>,
    servers: map<TxId, TransactionsMapping>, clients: map<TxId, TransactionsMapping>, mappings: set<TransactionsMapping>)

  /** The requirements of `Forwarding`. */
  predicate CanForward(s: Snapshot, st: Option<TxId>, onTx: bool, copies: seq<Request>, m: TransactionsMapping?)
  {
    CLIENT_ROW < |s.values| && (onTx && |copies| > 0 ==> st.Some? && m != null)
  }

  /**
   * One copy sent by `forwardRequest`: on the next client transaction when
   * `onTx`, which is counted in the CLIENT row and mapped to `m`, the mapping
   * of server transaction `st`; to the provider otherwise.
   */
  function Step(s: Snapshot, st: Option<TxId>, onTx: bool, copy: Request, m: TransactionsMapping?): Snapshot
    requires CLIENT_ROW < |s.values| && (onTx ==> st.Some? && m != null)
  {
    if onTx then
      Snapshot(s.sent + [Message(copy, true, s.nextId)], s.nextId + 1, Add(s.values, CLIENT_ROW, 1), s.scheduled,
               s.servers[st.value := m], s.clients[s.nextId := m], s.mappings + {m})
    else
      s.(sent := s.sent + [Message(copy, false, s.nextId)])
  }

  /** The state after `forwardRequest` has sent each of `copies` in turn from `s`, with `timers` scheduled. */
  function Forwarding(s: Snapshot, st: Option<TxId>, onTx: bool, copies: seq<Request>, m: TransactionsMapping?, timers: seq<Timer>): (t: Snapshot)
    requires CanForward(s, st, onTx, copies, m)
    ensures |t.values| == |s.values|
    decreases |copies|
  {
    if |copies| == 0 then s.(scheduled := s.scheduled + timers)
    else
      var n := |copies| - 1;
      Step(Forwarding(s, st, onTx, copies[..n], m, timers), st, onTx, copies[n], m)
  }

  /**
   * The Timer C timers of forwarding `copies` from handle `base`: one for
   * each new client transaction of an INVITE, for that transaction, none
   * otherwise.
   */
  predicate TimersFor(timers: seq<Timer>, onTx: bool, invite: bool, copies: seq<Request>, base: TxId)
  {
    |timers| == (if onTx && invite then |copies| else 0)
    && forall k {:trigger TaskAt(timers, k)} :: 0 <= k < |timers| ==> TaskAt(timers, k) == base + k
  }

  /** The `k`-th timer. */
  function TimerAt(timers: seq<Timer>, k: nat): Timer
    requires k < |timers|
  {
    timers[k]
  }

  /** The client transaction the `k`-th timer cancels. */
  function TaskAt(timers: seq<Timer>, k: nat): TxId
    requires k < |timers|
  {
    timers[k].task
  }

  /** The timers of two forwardings in a row, the second from the handle the first reached, are those of both. */
  lemma TimersForAppend(ta: seq<Timer>, tb: seq<Timer>, onTx: bool, invite: bool, a: seq<Request>, b: seq<Request>, base: TxId)
    requires TimersFor(ta, onTx, invite, a, base)
    requires TimersFor(tb, onTx, invite, b, base + (if onTx then |a| else 0))
    ensures TimersFor(ta + tb, onTx, invite, a + b, base)
  {
    var both := ta + tb;
    forall k | 0 <= k < |both|
      ensures TaskAt(both, k) == base + k
    {
      if k < |ta| {
        assert TaskAt(both, k) == TaskAt(ta, k);
      } else {
        assert TaskAt(both, k) == TaskAt(tb, k - |ta|);
      }
    }
  }

  /** Nothing forwarded leaves the state as it was. */
  lemma ForwardedNone(s: Snapshot, st: Option<TxId>, onTx: bool, m: TransactionsMapping?)
    requires CLIENT_ROW < |s.values|
    ensures Forwarding(s, st, onTx, [], m, []) == s
  {
    assert s.scheduled + [] == s.scheduled;
  }

  /** Forwarding one copy is one step, after scheduling its timers. */
  lemma ForwardedOne(s: Snapshot, st: Option<TxId>, onTx: bool, copy: Request, m: TransactionsMapping?, timers: seq<Timer>)
    requires CanForward(s, st, onTx, [copy], m)
    ensures Forwarding(s, st, onTx, [copy], m, timers) == Step(s.(scheduled := s.scheduled + timers), st, onTx, copy, m)
  {
    assert [copy][..0] == [];
  }

  /** Timers scheduled after a forwarding might as well have been scheduled with it. */
  lemma {:induction false} ForwardingTimers(s: Snapshot, st: Option<TxId>, onTx: bool, copies: seq<Request>, m: TransactionsMapping?,
                                            ta: seq<Timer>, tb: seq<Timer>)
    requires CanForward(s, st, onTx, copies, m)
    ensures var t := Forwarding(s, st, onTx, copies, m, ta);
            t.(scheduled := t.scheduled + tb) == Forwarding(s, st, onTx, copies, m, ta + tb)
    decreases |copies|
  {
    if |copies| == 0 {
      ConcatAssoc(s.scheduled, ta, tb);
    } else {
      ForwardingTimers(s, st, onTx, copies[..|copies| - 1], m, ta, tb);
    }
  }

  /** Without client transactions the mapping plays no part. */
  lemma {:induction false} ForwardingStateless(s: Snapshot, st: Option<TxId>, copies: seq<Request>, m: TransactionsMapping?, m': TransactionsMapping?,
                                               timers: seq<Timer>)
    requires CLIENT_ROW < |s.values|
    ensures Forwarding(s, st, false, copies, m, timers) == Forwarding(s, st, false, copies, m', timers)
    decreases |copies|
  {
    if |copies| > 0 {
      ForwardingStateless(s, st, copies[..|copies| - 1], m, m', timers);
    }
  }

  /**
   * Forwarding `a` and then `b` is forwarding `a + b`, provided the second
   * part uses the mapping the first part left for `st` (the one
   * `getApplicationData` then returns).
   */
  lemma {:induction false} ForwardingAppend(s: Snapshot, st: Option<TxId>, onTx: bool, a: seq<Request>, m: TransactionsMapping?, ta: seq<Timer>,
                                            b: seq<Request>, m': TransactionsMapping?, tb: seq<Timer>)
    requires CanForward(s, st, onTx, a, m) && CanForward(s, st, onTx, b, m')
    requires onTx && |a| > 0 && |b| > 0 ==> m' == m
    ensures var mid := Forwarding(s, st, onTx, a, m, ta);
            var both := if onTx && |a| > 0 then m else m';
            CanForward(mid, st, onTx, b, m') && CanForward(s, st, onTx, a + b, both)
            && Forwarding(mid, st, onTx, b, m', tb) == Forwarding(s, st, onTx, a + b, both, ta + tb)
    decreases |b|
  {
    var both := if onTx && |a| > 0 then m else m';
    if |b| == 0 {
      assert a + b == a;
      ForwardingTimers(s, st, onTx, a, m, ta, tb);
      if !onTx {
        ForwardingStateless(s, st, a, m, both, ta + tb);
      }
    } else {
      var n := |b| - 1;
      assert (a + b)[..|a| + n] == a + b[..n];
      assert (a + b)[|a| + n] == b[n];
      ForwardingAppend(s, st, onTx, a, m, ta, b[..n], m', tb);
    }
  }

  /**
   * One more `forwardRequest` after forwarding `copies`: its mapping `step`
   * is the one the first copies left for `st`, if any, so the two add up to
   * a forwarding of all the copies with one mapping, which is still `st`'s
   * own from before when it had one.
   */
  lemma ForwardingStep(s0: Snapshot, st: Option<TxId>, onTx: bool, copies: seq<Request>, m: TransactionsMapping?, timers: seq<Timer>,
                       x: Snapshot, c: seq<Request>, step: TransactionsMapping?, tc: seq<Timer>, y: Snapshot)
    requires CanForward(s0, st, onTx, copies, m) && x == Forwarding(s0, st, onTx, copies, m, timers)
    requires CanForward(x, st, onTx, c, step) && y == Forwarding(x, st, onTx, c, step, tc)
    requires m != null ==> st.Some? && (st.value in s0.servers ==> m == s0.servers[st.value])
    requires step != null ==> st.Some? && (st.value in x.servers ==> step == x.servers[st.value])
    ensures var m' := if onTx && |copies| > 0 then m else step;
            && CanForward(s0, st, onTx, copies + c, m')
            && y == Forwarding(s0, st, onTx, copies + c, m', timers + tc)
            && (m' != null ==> st.Some? && (st.value in s0.servers ==> m' == s0.servers[st.value]))
  {
    ForwardingHandles(s0, st, onTx, copies, m, timers);
    ForwardingAppend(s0, st, onTx, copies, m, timers, c, step, tc);
  }

  /** `Forwarding` in closed form: the outbox grows by `Forwards`, the client transactions by a `Fan`. */
  lemma {:induction false} ForwardingClosed(s: Snapshot, st: Option<TxId>, onTx: bool, copies: seq<Request>, m: TransactionsMapping?, timers: seq<Timer>)
    requires CanForward(s, st, onTx, copies, m)
    ensures var n := if onTx then |copies| else 0;
            Forwarding(s, st, onTx, copies, m, timers) ==
            Snapshot(s.sent + Forwards(copies, onTx, s.nextId), s.nextId + n, Add(s.values, CLIENT_ROW, n), s.scheduled + timers,
                     if n > 0 then s.servers[st.value := m] else s.servers,
                     Fan(s.clients, s.nextId, n, m),
                     if n > 0 then s.mappings + {m} else s.mappings)
    decreases |copies|
  {
    if |copies| == 0 {
      AddZero(s.values, CLIENT_ROW);
      assert s.sent + [] == s.sent;
    } else {
      var k := |copies| - 1;
      ForwardingClosed(s, st, onTx, copies[..k], m, timers);
      ConcatAssoc(s.sent, Forwards(copies[..k], onTx, s.nextId), [Message(copies[k], onTx, s.nextId + k)]);
      if onTx {
        AddTwice(s.values, CLIENT_ROW, k, 1);
        if k > 0 {
          UpdateTwice(s.servers, st.value, m, m);
          assert s.mappings + {m} + {m} == s.mappings + {m};
        } else {
          AddZero(s.values, CLIENT_ROW);
        }
      }
    }
  }

  /**
   * The next handle, the server transactions and the mappings after a
   * forwarding: the handle moves by the client transactions, and only `st`'s
   * mapping, `m`, can have changed or been added.
   */
  lemma {:induction false} ForwardingHandles(s: Snapshot, st: Option<TxId>, onTx: bool, copies: seq<Request>, m: TransactionsMapping?, timers: seq<Timer>)
    requires CanForward(s, st, onTx, copies, m)
    ensures var t := Forwarding(s, st, onTx, copies, m, timers);
            && t.nextId == s.nextId + (if onTx then |copies| else 0)
            && t.servers == (if onTx && |copies| > 0 then s.servers[st.value := m] else s.servers)
            && t.mappings == (if onTx && |copies| > 0 then s.mappings + {m} else s.mappings)
    decreases |copies|
  {
    if |copies| > 0 {
      var k := |copies| - 1;
      ForwardingHandles(s, st, onTx, copies[..k], m, timers);
      if onTx && k > 0 {
        UpdateTwice(s.servers, st.value, m, m);
        assert s.mappings + {m} + {m} == s.mappings + {m};
      }
    }
  }

  lemma AddZero(values: seq<int>, row: nat)
    requires row < |values|
    ensures Add(values, row, 0) == values
  {
  }

  /**
   * What a forwarding did: the copies follow the old outbox in order, the
   * gauge and the handles moved by the number of client transactions, and
   * those were linked to `m`, the only mapping added, while every other
   * client transaction keeps its mapping; without client transactions no
   * mapping changed.
   */
  lemma ForwardingEffect(s: Snapshot, st: Option<TxId>, onTx: bool, copies: seq<Request>, m: TransactionsMapping?, timers: seq<Timer>)
    requires CanForward(s, st, onTx, copies, m)
    ensures var t := Forwarding(s, st, onTx, copies, m, timers);
            var n := if onTx then |copies| else 0;
            && |t.sent| == |s.sent| + |copies| && t.sent[..|s.sent|] == s.sent
            && (forall i :: 0 <= i < |copies| ==> t.sent[|s.sent| + i] == Message(copies[i], onTx, s.nextId + i))
            && t.nextId == s.nextId + n && t.values[CLIENT_ROW] == s.values[CLIENT_ROW] + n
            && (forall i :: 0 <= i < |t.values| && i != CLIENT_ROW ==> t.values[i] == s.values[i])
            && t.scheduled == s.scheduled + timers
            && (n > 0 ==> st.value in t.servers && t.servers[st.value] == m && t.mappings == s.mappings + {m}
                          && (forall ct :: s.nextId <= ct < t.nextId ==> ct in t.clients && t.clients[ct] == m))
            && (forall ct :: !(s.nextId <= ct < t.nextId) ==>
                  (ct in t.clients <==> ct in s.clients) && (ct in s.clients ==> t.clients[ct] == s.clients[ct]))
            && (n == 0 ==> t.servers == s.servers && t.clients == s.clients && t.mappings == s.mappings)
  {
    var t := Forwarding(s, st, onTx, copies, m, timers);
    var n := if onTx then |copies| else 0;
    ForwardingClosed(s, st, onTx, copies, m, timers);
    ForwardsAt(copies, onTx, s.nextId);
    FanAt(s.clients, s.nextId, n, m);
    assert t.nextId == s.nextId + n;
    assert t.sent[..|s.sent|] == s.sent;
    forall i | 0 <= i < |copies|
      ensures t.sent[|s.sent| + i] == Message(copies[i], onTx, s.nextId + i)
    {
      assert t.sent[|s.sent| + i] == Forwards(copies, onTx, s.nextId)[i];
    }
  }
}
