/**
 * The proxy core of `Proxy.java`: the event handlers of a proxy that is
 * stateless, or stateful with one TransactionsMapping per server
 * transaction (RFC 3261 section 16). The rules it applies are in
 * ProxyRules; this module holds the state they act on and the order in
 * which the handlers apply them.
 */
module Proxies {
  import opened Common
  import opened Sip
  import opened SipUtils
  import opened Digest
  import opened Snmp
  import opened Bindings
  import opened UserProfiles
  import opened LocationServices
  import opened Registrars
  import opened SipStack
  import opened ResponseContexts
  import opened TransactionsMappings
  import opened TimerC
  import opened ProxyRules
  import opened ProxyState

  /** `SipUtils.sendResponse` and its inline copies: through the server transaction when there is one. */
  function Reply(response: Response, st: Option<TxId>): (o: Outgoing)
    ensures o.OnServerTransaction? <==> st.Some?
    ensures o.OnServerTransaction? ==> o.serverTx == st.value
    ensures o.OnServerTransaction? || o.StatelessResponse?
    ensures o.response == response
  {
    match st
    case Some(tx) => OnServerTransaction(tx, response)
    case None => StatelessResponse(response)
  }

  /**
   * `sendResponseImmediately`'s choice of route: the server transaction
   * while it has not completed, the provider afterwards.
   */
  function SentBy(response: Response, serverTx: TxId, states: TxId -> TxState): (o: Outgoing)
    ensures o.OnServerTransaction? || o.StatelessResponse?
    ensures o.response == response
    ensures o.OnServerTransaction? <==> !IsCompleted(states(serverTx))
  {
    if !IsCompleted(states(serverTx)) then OnServerTransaction(serverTx, response) else StatelessResponse(response)
  }

  /**
   * What `checkResponseContext` sends for a context on `request` with
   * `finals` stored: once the server transaction is still open and every
   * client transaction has completed, the best response, when there is
   * one, on the server transaction.
   */
  function BestOf(serverTx: TxId, clientTxs: set<TxId>, request: Request, finals: seq<Response>, states: TxId -> TxState): (r: seq<Outgoing>)
    ensures |r| <= 1
    ensures |r| == 1 <==> ContextReady(serverTx, clientTxs, states) && BestResponse(request, finals).Some?
    ensures |r| == 1 ==> r[0] == OnServerTransaction(serverTx, BestResponse(request, finals).value)
  {
    var best := BestResponse(request, finals);
    if ContextReady(serverTx, clientTxs, states) && best.Some? then [OnServerTransaction(serverTx, best.value)] else []
  }

  /** `BestOf` for the mapping's own context. */
  ghost function BestNote(m: TransactionsMapping, states: TxId -> TxState): seq<Outgoing>
    reads m`clientTransactions, m.responseContext`finalResponses
  {
    BestOf(m.serverTransaction, m.clientTransactions, m.responseContext.request, m.responseContext.finalResponses, states)
  }

  /** What `processResponseStatelessly` sends: the response without the proxy's own Via, when another Via remains. */
  function StatelessNote(cfg: Config, p: Provider, resp: Response): seq<Outgoing>
    requires |p.points| > 0
  {
    match StatelesslyRelayed(cfg, p, resp)
    case Some(relayed) => [StatelessResponse(relayed)]
    case None => []
  }

  /**
   * What `processIncomingResponse` sends for its reaction `r` to the
   * response `popped` (its own Via removed), on a mapping with server
   * transaction `serverTx`, client transactions `clientTxs`, the request
   * `request` and `finals` stored before: an immediate send with the
   * CANCELs of the client transactions in `order` after it, the CANCELs
   * and then the best response, or the best response alone.
   */
  function Reacted(r: Reaction, popped: Response, serverTx: TxId, clientTxs: set<TxId>, request: Request, finals: seq<Response>,
                   states: TxId -> TxState, nextId: TxId, order: seq<TxId>): seq<Outgoing>
  {
    match r
    case Consult => BestOf(serverTx, clientTxs, request, finals, states)
    case Drop => []
    case Relay => [SentBy(popped, serverTx, states)] + CancelsFor(order, states, nextId)
    case StoreRelay => [SentBy(popped, serverTx, states)] + CancelsFor(order, states, nextId)
    case StoreCancel => CancelsFor(order, states, nextId) + BestOf(serverTx, clientTxs, request, finals + [popped], states)
    case Store => BestOf(serverTx, clientTxs, request, finals + [popped], states)
  }

  /** The reactions that store the response in the context. */
  predicate Stores(r: Reaction) {
    r == StoreRelay || r == StoreCancel || r == Store
  }

  /** The reactions that go through the client transactions in `order`: a final response sent at once, and a 6xx. */
  predicate Cancels(r: Reaction, popped: Response) {
    ((r == Relay || r == StoreRelay) && IsFinal(popped.status)) || r == StoreCancel
  }

  /**
   * A 2xx goes on at once (to an INVITE even after the server transaction
   * has completed), and after it exactly one CANCEL for each pending
   * branch, each on a new transaction.
   */
  lemma TwoHundredRelayedAtOnce(request: Request, finals: seq<Response>, popped: Response, serverTx: TxId, clientTxs: set<TxId>,
                                states: TxId -> TxState, nextId: TxId, order: seq<TxId>)
    requires |popped.vias| > 0 && 200 <= popped.status <= 299
    requires !IsCompleted(states(serverTx)) || popped.cseqMethod == INVITE
    ensures var out := Reacted(React(popped, states(serverTx)), popped, serverTx, clientTxs, request, finals, states, nextId, order);
            |out| == 1 + |ProceedingOnes(order, states)| && out[0] == SentBy(popped, serverTx, states)
            && forall i :: 1 <= i < |out| ==> out[i] == CancelOf(nextId + i - 1, ProceedingOnes(order, states)[i - 1])
  {
    var r := React(popped, states(serverTx));
    assert r == Relay || r == StoreRelay;
    CancelsForSpec(order, states, nextId);
  }

  /**
   * Once the server transaction has completed, nothing but a 2xx to an
   * INVITE goes on; before that, a 100 is never forwarded.
   */
  lemma HeldBack(request: Request, finals: seq<Response>, popped: Response, serverTx: TxId, clientTxs: set<TxId>,
                 states: TxId -> TxState, nextId: TxId, order: seq<TxId>)
    requires |popped.vias| > 0
    requires (IsCompleted(states(serverTx)) && !(200 <= popped.status <= 299 && popped.cseqMethod == INVITE)) || popped.status == 100
    ensures Reacted(React(popped, states(serverTx)), popped, serverTx, clientTxs, request, finals, states, nextId, order) == []
  {
  }

  /**
   * A 6xx received while the server transaction is open is stored and
   * cancels the pending branches; once every branch has completed, the
   * response sent on the server transaction has the 6xx's code when no
   * other 6xx came first.
   */
  lemma SixHundredWins(request: Request, finals: seq<Response>, popped: Response, serverTx: TxId, clientTxs: set<TxId>,
                       states: TxId -> TxState, nextId: TxId, order: seq<TxId>)
    requires |popped.vias| > 0 && !IsCompleted(states(serverTx)) && 600 <= popped.status <= 699
    requires forall j :: 0 <= j < |finals| ==> StatusClass(finals[j].status) != 6
    requires ContextReady(serverTx, clientTxs, states) && forall ct :: ct in order ==> ct in clientTxs
    ensures var out := Reacted(React(popped, states(serverTx)), popped, serverTx, clientTxs, request, finals, states, nextId, order);
            React(popped, states(serverTx)) == StoreCancel
            && |out| == 1 && out[0].OnServerTransaction? && out[0].serverTx == serverTx && out[0].response.status == popped.status
  {
    var stored := finals + [popped];
    assert stored[|finals|] == popped;
    SixWins(stored, |finals|);
    NothingPending(order, states, nextId);
  }

  /** When every branch has completed without a final response, the server transaction gets a 408. */
  lemma NothingFinalTimesOut(request: Request, serverTx: TxId, clientTxs: set<TxId>, states: TxId -> TxState)
    requires ContextReady(serverTx, clientTxs, states)
    ensures BestOf(serverTx, clientTxs, request, [], states) == [OnServerTransaction(serverTx, CreateResponse(408, request))]
  {
    NothingReceived(request);
  }

  /** With every client transaction completed, no CANCEL is due. */
  lemma NothingPending(order: seq<TxId>, states: TxId -> TxState, nextId: TxId)
    requires forall ct :: ct in order ==> IsCompleted(states(ct))
    ensures ProceedingOnes(order, states) == [] && CancelsFor(order, states, nextId) == []
  {
    var p := ProceedingOnes(order, states);
    assert forall i :: 0 <= i < |p| ==> p[i] in p;
    CancelsForSpec(order, states, nextId);
  }

  /** A new mapping for a server transaction and its request. */
  ghost predicate NewMapping(m: TransactionsMapping, st: TxId, req: Request)
    reads m, m.responseContext
  {
    m.serverTransaction == st && m.clientTransactions == {} && m.timers == map[]
    && m.responseContext.request == req && m.responseContext.finalResponses == []
  }

  /** What `getContactHeaders` answers for each key: the contacts of the subscriber's bindings. */
  function ContactsOf(db: map<string, seq<BindingValue>>): map<string, seq<ContactValue>> {
    map k | k in db :: Contacts(db[k])
  }

  /**
   * The intermediate values of one `processIncomingRequest`: whether the
   * location service answered, the authorization outcome and the contacts
   * it held, how admission ended, the server transaction, the state once
   * that was opened, the plan, and what carrying the plan out made (the
   * copies and timers of a forward with their mapping, the client
   * transactions a CANCEL went through).
   */
  datatype Handling = Handling(
    reachable: bool, auth: AuthOutcome, bindings: map<string, seq<BindingValue>>, admission: Admission,
    st: Option<TxId>, mid: Snapshot, plan: Plan,
    copies: seq<Request>, timers: seq<Timer>, m: TransactionsMapping?, order: seq<TxId>)

  /**
   * The intermediate values of one `processIncomingResponse`: the mapping
   * of the response's client transaction (null when the response goes the
   * stateless way), that mapping's client transactions, its stored final
   * responses before and after, the new Timer C when one was started, and
   * the client transactions a CANCEL went through.
   */
  datatype Reception = Reception(m: TransactionsMapping?, clientTxs: set<TxId>, before: seq<Response>, after: seq<Response>,
                                 timer: Timer?, order: seq<TxId>)

  class Proxy {
    const cfg: Config
    const dsam: DigestServerAuthenticationMethod
    /** The location service, or null when it cannot be reached. */
    const locationService: LocationService?
    /** The method plugins by method name; each answers, declines (null) or throws. */
    const plugins: map<string, Request -> PluginReply>
    /** The successive values of the random source of `generateBranchId`. */
    const randomStream: nat -> int
    var draws: nat
    const stack: Stack
    const snmp: SNMPAssistant
    /** The application data of the server transactions: their mappings. */
    var serverMappings: map<TxId, TransactionsMapping>
    /** The application data of the client transactions: their server transaction's mapping. */
    var clientMappings: map<TxId, TransactionsMapping>
    /** Every mapping the proxy has made. */
    ghost var Mappings: set<TransactionsMapping>

    ghost function Contexts(): set<ResponseContext>
      reads this`Mappings
    {
      set m | m in Mappings :: m.responseContext
    }

    /** The SNMP table is the proxy's own. */
    ghost predicate TableValid() {
      snmp.Valid() && snmp.oids == PROXY_OIDS
    }

    /**
     * A server transaction's mapping is its own, a client transaction's
     * mapping lists it, and no mapping stores a Timer C timer (the order of
     * the calls in `forwardRequest` and `processIncomingResponse` keeps them
     * out).
     */
    ghost predicate MappingsValid()
      reads this`serverMappings, this`clientMappings, this`Mappings, Mappings`clientTransactions, Mappings`timers
    {
      MappingsLinked() && NoTimerStored()
    }

    ghost predicate MappingsLinked()
      reads this`serverMappings, this`clientMappings, this`Mappings, Mappings`clientTransactions
    {
      (forall st :: st in serverMappings ==> serverMappings[st] in Mappings && serverMappings[st].serverTransaction == st)
      && (forall ct :: ct in clientMappings ==> clientMappings[ct] in Mappings && ct in clientMappings[ct].clientTransactions)
    }

    ghost predicate NoTimerStored()
      reads this`Mappings, Mappings`timers
    {
      forall m :: m in Mappings ==> m.timers == map[]
    }

    /**
     * The configuration is sane, the digest method has a preferred
     * algorithm, the SNMP table is the proxy's, and the mappings are
     * consistent.
     */
    ghost predicate Valid()
      reads this`serverMappings, this`clientMappings, this`Mappings, Mappings`clientTransactions, Mappings`timers
    {
      WellConfigured(cfg) && dsam.Valid() && dsam.GetPreferredAlgorithm().Some? && TableValid() && MappingsValid()
    }

    /**
     * The constructor's logic once the configuration is read: a digest
     * method whose realm is the default domain (the first the domain set's
     * iterator yields) and whose only
     * algorithm is MD5, an SNMP table with every counter at zero, and no
     * mapping.
     */
    constructor (cfg: Config, md5: HashFunction, locationService: LocationService?,
                 plugins: map<string, Request -> PluginReply>, randomStream: nat -> int, nonceStream: nat -> int,
                 communityName: string)
      requires WellConfigured(cfg)
      ensures Valid()
      ensures this.cfg == cfg && this.locationService == locationService && this.plugins == plugins
      ensures this.randomStream == randomStream && draws == 0
      ensures fresh(dsam) && dsam.defaultRealm == cfg.defaultDomain && dsam.algorithms == map["MD5" := md5] && dsam.draws == 0
      ensures fresh(stack) && stack.sent == [] && stack.nextId == 0 && stack.scheduled == []
      ensures fresh(snmp) && fresh(snmp.values) && snmp.communityName == communityName && snmp.values[..] == [0, 0, 0, 0, 0, 0]
      ensures serverMappings == map[] && clientMappings == map[] && Mappings == {}
    {
      var auth := new DigestServerAuthenticationMethod(cfg.defaultDomain, map["MD5" := md5], ["MD5"], nonceStream);
      var table := new SNMPAssistant(communityName, PROXY_OIDS, [0, 0, 0, 0, 0, 0]);
      var sipStack := new Stack();
      this.cfg, this.locationService, this.plugins := cfg, locationService, plugins;
      this.randomStream, draws := randomStream, 0;
      dsam, snmp, stack := auth, table, sipStack;
      serverMappings, clientMappings, Mappings := map[], map[], {};
    }

    /** `incrementSnmpInteger` (`delta` 1) / `decrementSnmpInteger` (`delta` -1) on one of the proxy's counters. */
    method Count(row: nat, delta: int)
      requires TableValid() && row < |PROXY_OIDS| && (delta == 1 || delta == -1)
      modifies snmp.values
      ensures snmp.values[..] == Add(old(snmp.values[..]), row, delta)
    {
      RowOf(row);
      if delta == 1 {
        snmp.IncrementSnmpInteger(PROXY_OIDS[row]);
      } else {
        snmp.DecrementSnmpInteger(PROXY_OIDS[row]);
      }
    }

    /**
     * `checkServerTransaction`: a stateful proxy opens a server transaction
     * for a request that came without one, unless it is an ACK or the stack
     * refuses it (it already exists: a retransmission); the new transaction
     * is counted and gets a new mapping. A stateless proxy has none.
     */
    method CheckServerTransaction(req: Request, current: Option<TxId>, retransmission: bool) returns (st: Option<TxId>)
      requires TableValid() && MappingsValid()
      modifies this`serverMappings, this`Mappings, stack`nextId, snmp.values
      ensures MappingsValid()
      ensures var opens := cfg.stateful && current.None? && req.verb != ACK && !retransmission;
              (opens ==>
                 st == Some(old(stack.nextId)) && stack.nextId == old(stack.nextId) + 1
                 && snmp.values[..] == Add(old(snmp.values[..]), SERVER_ROW, 1)
                 && st.value in serverMappings && serverMappings == old(serverMappings)[st.value := serverMappings[st.value]]
                 && fresh(serverMappings[st.value]) && fresh(serverMappings[st.value].responseContext)
                 && NewMapping(serverMappings[st.value], st.value, req)
                 && Mappings == old(Mappings) + {serverMappings[st.value]})
              && (!opens ==>
                 st == (if cfg.stateful then current else None) && stack.nextId == old(stack.nextId)
                 && snmp.values[..] == old(snmp.values[..]) && serverMappings == old(serverMappings) && Mappings == old(Mappings))
    {
      if !cfg.stateful {
        return None;
      }
      st := current;
      if st.None? && req.verb != ACK && !retransmission {
        var tx := stack.NewTransaction();
        Count(SERVER_ROW, 1);
        var m := new TransactionsMapping(tx, req);
        serverMappings := serverMappings[tx := m];
        Mappings := Mappings + {m};
        st := Some(tx);
      }
    }

    /**
     * `cancelPendingTransactions` over `getClientTransactionsArray`: in the
     * array's order (`order`, each client transaction of the mapping once),
     * every client transaction in PROCEEDING gets a CANCEL on a new client
     * transaction, which the client gauge counts.
     */
    method CancelPending(m: TransactionsMapping, states: TxId -> TxState) returns (ghost order: seq<TxId>)
      requires TableValid()
      modifies stack`sent, stack`nextId, snmp.values
      ensures Distinct(order) && forall ct :: ct in order <==> ct in m.clientTransactions
      ensures stack.sent == old(stack.sent) + CancelsFor(order, states, old(stack.nextId))
      ensures stack.nextId == old(stack.nextId) + |ProceedingOnes(order, states)|
      ensures snmp.values[..] == Add(old(snmp.values[..]), CLIENT_ROW, |ProceedingOnes(order, states)|)
    {
      var cts := m.GetClientTransactionsArray();
      var pending := cts[..];
      order := pending;
      var i := 0;
      ghost var log, k := [], 0;
      while i < |pending|
        invariant 0 <= i <= |pending|
        invariant log == CancelsFor(pending[..i], states, old(stack.nextId)) && k == |ProceedingOnes(pending[..i], states)|
        invariant stack.sent == old(stack.sent) + log
        invariant stack.nextId == old(stack.nextId) + k
        invariant snmp.values[..] == Add(old(snmp.values[..]), CLIENT_ROW, k)
      {
        ghost var done := pending[..i];
        assert pending[..i + 1] == done + [pending[i]];
        ghost var n := if states(pending[i]) == Proceeding then 1 else 0;
        ghost var extra := if states(pending[i]) == Proceeding then [CancelOf(stack.nextId, pending[i])] else [];
        ProceedingOnesSnoc(done, pending[i], states);
        CancelsForSnoc(done, pending[i], states, old(stack.nextId));
        AddTwice(old(snmp.values[..]), CLIENT_ROW, k, n);
        ConcatAssoc(old(stack.sent), log, extra);
        CancelOne(pending[i], states);
        log, k := log + extra, k + n;
        i := i + 1;
      }
      assert pending[..i] == pending;
    }

    /** One step of `cancelPendingTransactions`: `createCancel`, a new client transaction, the gauge, `sendRequest`. */
    method CancelOne(ct: TxId, states: TxId -> TxState)
      requires TableValid()
      modifies stack`sent, stack`nextId, snmp.values
      ensures stack.sent == old(stack.sent) + (if states(ct) == Proceeding then [CancelOf(old(stack.nextId), ct)] else [])
      ensures var n := if states(ct) == Proceeding then 1 else 0;
              stack.nextId == old(stack.nextId) + n && snmp.values[..] == Add(old(snmp.values[..]), CLIENT_ROW, n)
    {
      if states(ct) == Proceeding {
        var cancelTransaction := stack.NewTransaction();
        Count(CLIENT_ROW, 1);
        stack.Send(CancelOf(cancelTransaction, ct));
      }
    }

    /**
     * `sendResponseImmediately`: the response goes out on the server
     * transaction, or statelessly once that has completed; a final response
     * then cancels the pending client transactions.
     */
    method SendResponseImmediately(response: Response, m: TransactionsMapping, states: TxId -> TxState)
      returns (ghost order: seq<TxId>)
      requires Valid() && m in Mappings
      modifies stack`sent, stack`nextId, snmp.values
      ensures IsFinal(response.status) ==> Distinct(order) && forall ct :: ct in order <==> ct in m.clientTransactions
      ensures !IsFinal(response.status) ==> order == []
      ensures stack.sent == old(stack.sent) + [SentBy(response, m.serverTransaction, states)]
                            + CancelsFor(order, states, old(stack.nextId))
      ensures stack.nextId == old(stack.nextId) + |ProceedingOnes(order, states)|
      ensures snmp.values[..] == Add(old(snmp.values[..]), CLIENT_ROW, |ProceedingOnes(order, states)|)
    {
      stack.Send(SentBy(response, m.serverTransaction, states));
      order := [];
      if IsFinal(response.status) {
        order := CancelPending(m, states);
      }
    }

    /**
     * `checkResponseContext`: once the server transaction is still open and
     * every client transaction has completed, the best response of the
     * context (none when no rule picks one) is sent; no CANCEL follows,
     * since no client transaction is pending.
     */
    method CheckResponseContext(m: TransactionsMapping, states: TxId -> TxState)
      requires Valid() && m in Mappings
      modifies stack`sent, stack`nextId, snmp.values
      ensures stack.sent == old(stack.sent) + BestNote(m, states)
      ensures stack.nextId == old(stack.nextId) && snmp.values[..] == old(snmp.values[..])
    {
      if IsCompleted(states(m.serverTransaction)) {
        return;
      }
      var cts := m.GetClientTransactionsArray();
      for i := 0 to cts.Length
        invariant forall j :: 0 <= j < i ==> IsCompleted(states(cts[j]))
      {
        if !IsCompleted(states(cts[i])) {
          return;
        }
      }
      assert forall ct :: ct in m.clientTransactions ==> IsCompleted(states(ct));
      var best := m.responseContext.GetBestResponse();
      if best.None? {
        return;
      }
      ghost var order := SendResponseImmediately(best.value, m, states);
      NothingPending(order, states, old(stack.nextId) );
    }

    /**
     * The `getApplicationData` / `setApplicationData` pattern of
     * `forwardRequest`: the server transaction's mapping, made for the
     * request when it has none.
     */
    method MappingFor(st: TxId, req: Request) returns (m: TransactionsMapping)
      requires MappingsValid()
      modifies this`serverMappings, this`Mappings
      ensures MappingsValid() && m in Mappings && serverMappings == old(serverMappings)[st := m] && Mappings == old(Mappings) + {m}
      ensures st in old(serverMappings) ==> m == old(serverMappings)[st] && serverMappings == old(serverMappings)
      ensures st !in old(serverMappings) ==> fresh(m) && fresh(m.responseContext) && NewMapping(m, st, req)
    {
      if st in serverMappings {
        return serverMappings[st];
      }
      m := new TransactionsMapping(st, req);
      serverMappings := serverMappings[st := m];
      Mappings := Mappings + {m};
    }

    /**
     * Since the old state, the client transactions `cts` were forked from
     * server transaction `st`: its mapping `m` (the old one, or a new one on
     * `req`) lists them as well, each of them maps to `m`, and no other
     * mapping changed.
     */
    twostate predicate Forked(st: TxId, req: Request, new m: TransactionsMapping, ct: TxId)
      reads this`serverMappings, this`clientMappings, this`Mappings, Mappings`clientTransactions, m`clientTransactions,
            m.responseContext`finalResponses
    {
      serverMappings == old(serverMappings)[st := m]
      && clientMappings == old(clientMappings)[ct := m]
      && Mappings == old(Mappings) + {m}
      && (st in old(serverMappings) ==>
            m == old(serverMappings[st]) && m.clientTransactions == old(serverMappings[st].clientTransactions) + {ct})
      && (st !in old(serverMappings) ==>
            fresh(m) && fresh(m.responseContext) && m.serverTransaction == st && m.clientTransactions == {ct}
            && m.responseContext.request == req && m.responseContext.finalResponses == [])
    }

    /**
     * The stateful end of `forwardRequest`: a new client transaction,
     * counted, added to the server transaction's mapping (made when
     * missing); for an INVITE a Timer C is scheduled, which the mapping does
     * not keep since the transaction is already in it; then the copy is sent
     * on the transaction.
     */
    method SendOnClientTransaction(st: TxId, req: Request, copy: Request) returns (ct: TxId, m: TransactionsMapping, timer: Timer?)
      requires TableValid() && MappingsValid()
      modifies this`serverMappings, this`clientMappings, this`Mappings, Mappings`clientTransactions, Mappings`timers
      modifies stack`nextId, stack`sent, stack`scheduled, snmp.values
      ensures MappingsValid() && m in Mappings && Forked(st, req, m, ct)
      ensures ct == old(stack.nextId) && stack.nextId == ct + 1
      ensures snmp.values[..] == Add(old(snmp.values[..]), CLIENT_ROW, 1)
      ensures stack.sent == old(stack.sent) + [OnClientTransaction(ct, copy)]
      ensures timer != null <==> copy.verb == INVITE
      ensures timer != null ==> fresh(timer) && timer.task == ct
      ensures stack.scheduled == old(stack.scheduled) + (if timer != null then [timer] else [])
    {
      ct := stack.NewTransaction();
      Count(CLIENT_ROW, 1);
      m, timer := Fork(st, req, ct, copy.verb == INVITE);
      stack.Send(OnClientTransaction(ct, copy));
    }

    /**
     * A new Timer C for a client transaction of a mapping is registered and
     * scheduled; since the transaction is already in the mapping,
     * `registerTimerC` does not store it.
     */
    method StartTimerC(m: TransactionsMapping, ct: TxId) returns (timer: Timer)
      requires ct in m.clientTransactions
      modifies m`timers, stack`scheduled
      ensures fresh(timer) && timer.task == ct && !timer.cancelled
      ensures m.timers == old(m.timers) && stack.scheduled == old(stack.scheduled) + [timer]
    {
      timer := new Timer(ct);
      m.RegisterTimerC(timer, ct);
      stack.Schedule(timer);
    }

    /** The mapping side of `forwardRequest`: the client transaction is linked, and for an INVITE a Timer C started. */
    method Fork(st: TxId, req: Request, ct: TxId, invite: bool) returns (m: TransactionsMapping, timer: Timer?)
      requires MappingsValid()
      modifies this`serverMappings, this`clientMappings, this`Mappings, Mappings`clientTransactions, Mappings`timers, stack`scheduled
      ensures MappingsValid() && m in Mappings && Forked(st, req, m, ct)
      ensures timer != null <==> invite
      ensures timer != null ==> fresh(timer) && timer.task == ct
      ensures stack.scheduled == old(stack.scheduled) + (if timer != null then [timer] else [])
    {
      m := Link(st, req, ct);
      timer := null;
      if invite {
        timer := StartTimerC(m, ct);
      }
    }

    /** `addClientTransaction` and `setApplicationData` on the server transaction's mapping (made when missing). */
    method Link(st: TxId, req: Request, ct: TxId) returns (m: TransactionsMapping)
      requires MappingsValid()
      modifies this`serverMappings, this`clientMappings, this`Mappings, Mappings`clientTransactions
      ensures MappingsValid() && m in Mappings && Forked(st, req, m, ct)
    {
      m := MappingFor(st, req);
      m.AddClientTransaction(ct);
      clientMappings := clientMappings[ct := m];
    }

    /**
     * The copy `forwardRequest` makes for `target` with the `draw`-th random
     * value: none when the Request-URI is not a SIP URI (nothing is drawn
     * then) or when the branch computation raises.
     */
    function CopyFor(p: Provider, req: Request, target: Uri, draw: nat, now: int): (r: Option<Request>)
      requires |p.points| > 0
      ensures r.None? <==> !req.requestUri.SipUri? || BranchRaises(cfg, req)
      ensures r.Some? ==> r.value.verb == req.verb
    {
      if !req.requestUri.SipUri? then None
      else ForwardedCopy(cfg, p, req, target, BranchId(cfg.md5, randomStream(draw), now))
    }

    /**
     * `forwardRequest`: nothing is sent when the request's Request-URI is
     * not a SIP URI. Otherwise the copy for the target, with the `draw`-th
     * random value in its branch, goes out: statelessly, or, when
     * `statefulForwarding` and there is a server transaction, on a new
     * client transaction linked to the server transaction's mapping `m`
     * (its old one, or a new one), with a new Timer C for an INVITE.
     * `raised` is the exception the stateless branch computation throws on
     * a request without a branch, To or From. The caller owns the count of
     * random values drawn.
     */
    method ForwardRequest(target: Uri, req: Request, p: Provider, st: Option<TxId>, statefulForwarding: bool, now: int, draw: nat)
      returns (raised: bool, ghost copy: Option<Request>, timer: Timer?, ghost m: TransactionsMapping?)
      requires TableValid() && MappingsValid() && |p.points| > 0
      modifies this`serverMappings, this`clientMappings, this`Mappings, Mappings`clientTransactions, Mappings`timers
      modifies stack`nextId, stack`sent, stack`scheduled, snmp.values
      ensures MappingsValid()
      ensures copy == CopyFor(p, req, target, draw, now)
      ensures raised <==> req.requestUri.SipUri? && BranchRaises(cfg, req)
      ensures CanForward(old(Snap()), st, statefulForwarding && st.Some?, CopiesOf(copy), m)
      ensures Snap() == Forwarding(old(Snap()), st, statefulForwarding && st.Some?, CopiesOf(copy), m, TimersOf(timer))
      ensures TimersFor(TimersOf(timer), statefulForwarding && st.Some?, req.verb == INVITE, CopiesOf(copy), old(stack.nextId))
      ensures timer != null ==> fresh(timer)
      ensures m != null ==> st.Some? && (st.value in old(serverMappings) ==> m == old(serverMappings)[st.value]) && (m in old(Mappings) || fresh(m))
      ensures m == null ==> Mappings == old(Mappings) && unchanged(Mappings)
      ensures forall x :: x in Mappings ==> x in old(Mappings) || fresh(x)
    {
      var made := CopyFor(p, req, target, draw, now);
      copy := made;
      raised := req.requestUri.SipUri? && made.None?;
      timer, m := Deliver(req, made, st, statefulForwarding && st.Some?);
    }

    /** The end of `forwardRequest` once the copy is made: `sendRequest` on the provider, or on a new client transaction. */
    method Deliver(req: Request, copy: Option<Request>, st: Option<TxId>, onTx: bool) returns (timer: Timer?, ghost m: TransactionsMapping?)
      requires TableValid() && MappingsValid() && (onTx ==> st.Some?) && (copy.Some? ==> copy.value.verb == req.verb)
      modifies this`serverMappings, this`clientMappings, this`Mappings, Mappings`clientTransactions, Mappings`timers
      modifies stack`nextId, stack`sent, stack`scheduled, snmp.values
      ensures MappingsValid()
      ensures CanForward(old(Snap()), st, onTx, CopiesOf(copy), m)
      ensures Snap() == Forwarding(old(Snap()), st, onTx, CopiesOf(copy), m, TimersOf(timer))
      ensures TimersFor(TimersOf(timer), onTx, req.verb == INVITE, CopiesOf(copy), old(stack.nextId))
      ensures timer != null ==> fresh(timer)
      ensures m != null ==> st.Some? && (st.value in old(serverMappings) ==> m == old(serverMappings)[st.value]) && (m in old(Mappings) || fresh(m))
      ensures m == null ==> Mappings == old(Mappings) && unchanged(Mappings)
      ensures forall x :: x in Mappings ==> x in old(Mappings) || fresh(x)
    {
      timer, m := null, null;
      match copy
      case None =>
        ForwardedNone(Snap(), st, onTx, m);
      case Some(c) =>
        ghost var s0 := Snap();
        if !onTx {
          stack.Send(StatelessRequest(c));
          ForwardedOne(s0, st, onTx, c, m, []);
          assert s0.scheduled + [] == s0.scheduled;
        } else {
          var ct, mapping, t := SendOnClientTransaction(st.value, req, c);
          timer, m := t, mapping;
          ForwardedOne(s0, st, onTx, c, m, TimersOf(timer));
        }
    }

    /** Every target gets a copy: the Request-URI is a SIP URI and the branch computation does not raise. */
    predicate Sends(req: Request)
    {
      req.requestUri.SipUri? && !BranchRaises(cfg, req)
    }

    /** The part of the proxy's state that forwarding changes. */
    ghost function Snap(): Snapshot
      reads this`serverMappings, this`clientMappings, this`Mappings, stack`sent, stack`nextId, stack`scheduled, snmp.values
    {
      Snapshot(stack.sent, stack.nextId, snmp.values[..], stack.scheduled, serverMappings, clientMappings, Mappings)
    }

    /** The copy for the `k`-th target, made with the `k`-th draw from `draw` on. */
    ghost function CopyAt(p: Provider, req: Request, targets: seq<Uri>, draw: nat, now: int, k: nat): Option<Request>
      requires |p.points| > 0
    {
      if k < |targets| then CopyFor(p, req, targets[k], draw + k, now) else None
    }

    /** `CopyAt` as a function of `k`. */
    ghost function Maker(p: Provider, req: Request, targets: seq<Uri>, draw: nat, now: int): nat -> Option<Request>
      requires |p.points| > 0
    {
      (k: nat) => CopyAt(p, req, targets, draw, now, k)
    }

    /** The copies made for the first targets, in order, each with its own draw. */
    ghost predicate CopiesFor(p: Provider, req: Request, targets: seq<Uri>, draw: nat, now: int, copies: seq<Request>)
      requires |p.points| > 0
    {
      |copies| <= |targets|
      && forall k {:trigger CopyAt(p, req, targets, draw, now, k)} :: 0 <= k < |copies| ==> CopyAt(p, req, targets, draw, now, k) == Some(copies[k])
    }

    /** What `CopiesFor` says of each copy. */
    lemma CopiesForAt(p: Provider, req: Request, targets: seq<Uri>, draw: nat, now: int, copies: seq<Request>, k: nat)
      requires |p.points| > 0 && CopiesFor(p, req, targets, draw, now, copies) && k < |copies|
      ensures CopyFor(p, req, targets[k], draw + k, now) == Some(copies[k])
    {
      assert CopyAt(p, req, targets, draw, now, k) == Some(copies[k]);
    }

    /** `CopiesFor` is `Agrees` with `Maker`. */
    lemma CopiesAgree(p: Provider, req: Request, targets: seq<Uri>, draw: nat, now: int, copies: seq<Request>, f: nat -> Option<Request>)
      requires |p.points| > 0 && f == Maker(p, req, targets, draw, now)
      ensures CopiesFor(p, req, targets, draw, now, copies) <==> |copies| <= |targets| && Agrees(f, copies)
    {
      if |copies| <= |targets| && Agrees(f, copies) {
        forall k | 0 <= k < |copies|
          ensures CopyAt(p, req, targets, draw, now, k) == Some(copies[k])
        {
          assert f(k) == CopyAt(p, req, targets, draw, now, k);
        }
      }
      if CopiesFor(p, req, targets, draw, now, copies) {
        forall k | 0 <= k < |copies|
          ensures f(k) == Some(copies[k])
        {
          assert f(k) == CopyAt(p, req, targets, draw, now, k);
        }
      }
    }

    /** Sending the copy for the next target extends the copies by one. */
    lemma CopiesStep(p: Provider, req: Request, targets: seq<Uri>, draw: nat, now: int, copies: seq<Request>, copy: Option<Request>)
      requires |p.points| > 0 && |copies| < |targets| && CopiesFor(p, req, targets, draw, now, copies)
      requires copy == CopyAt(p, req, targets, draw, now, |copies|) && copy.Some?
      ensures CopiesFor(p, req, targets, draw, now, copies + [copy.value])
    {
      var f, c := Maker(p, req, targets, draw, now), copy.value;
      CopiesAgree(p, req, targets, draw, now, copies, f);
      assert f(|copies|) == Some(c);
      AgreesSnoc(f, copies, c);
      CopiesAgree(p, req, targets, draw, now, copies + [c], f);
    }

    /**
     * The forwarding loop after its first `i` targets: every one of them got
     * its copy or none did, `raised` only on the first, and the state moved
     * from `s0` as `Forwarding` them says, with their timers.
     */
    ghost predicate Forwarded(targets: seq<Uri>, i: nat, raised: bool, req: Request, p: Provider, st: Option<TxId>, statefulForwarding: bool,
                              now: int, d: nat, s0: Snapshot, copies: seq<Request>, timers: seq<Timer>, m: TransactionsMapping?)
      reads this`serverMappings, this`clientMappings, this`Mappings, Mappings`clientTransactions, Mappings`timers
      reads stack`sent, stack`nextId, stack`scheduled, snmp.values
    {
      && i <= |targets| && TableValid() && MappingsValid() && |p.points| > 0
      && (raised ==> i == 1 && req.requestUri.SipUri? && BranchRaises(cfg, req))
      && (!raised && i > 0 ==> !(req.requestUri.SipUri? && BranchRaises(cfg, req)))
      && |copies| == (if Sends(req) then i else 0)
      && CopiesFor(p, req, targets, d, now, copies)
      && CanForward(s0, st, statefulForwarding && st.Some?, copies, m)
      && Snap() == Forwarding(s0, st, statefulForwarding && st.Some?, copies, m, timers)
      && TimersFor(timers, statefulForwarding && st.Some?, req.verb == INVITE, copies, s0.nextId)
      && (m != null ==> st.Some? && (st.value in s0.servers ==> m == s0.servers[st.value]))
    }

    /**
     * One turn of the forwarding loop: `forwardRequest` for the `i`-th target
     * with the `d + i`-th draw, which extends the copies made so far and the
     * forwarding they amount to by one target.
     */
    method ForwardNext(targets: seq<Uri>, i: nat, req: Request, p: Provider, st: Option<TxId>, statefulForwarding: bool, now: int, d: nat,
                       ghost s0: Snapshot, ghost copies: seq<Request>, ghost timers: seq<Timer>, ghost m: TransactionsMapping?)
      returns (raised: bool, ghost copies': seq<Request>, timer: Timer?, ghost m': TransactionsMapping?)
      requires i < |targets| && Forwarded(targets, i, false, req, p, st, statefulForwarding, now, d, s0, copies, timers, m)
      modifies this`serverMappings, this`clientMappings, this`Mappings, Mappings`clientTransactions, Mappings`timers
      modifies stack`nextId, stack`sent, stack`scheduled, snmp.values
      ensures Forwarded(targets, i + 1, raised, req, p, st, statefulForwarding, now, d, s0, copies', timers + TimersOf(timer), m')
      ensures timer != null ==> fresh(timer)
      ensures forall x :: x in Mappings ==> x in old(Mappings) || fresh(x)
      ensures m' == m || m' == null || m' in old(Mappings) || fresh(m')
    {
      ghost var x := Snap();
      ghost var copy, step;
      var target, draw := targets[i], d + i;
      raised, copy, timer, step := ForwardRequest(target, req, p, st, statefulForwarding, now, draw);
      assert copy == CopyAt(p, req, targets, d, now, i);
      copies' := copies + CopiesOf(copy);
      m' := if statefulForwarding && st.Some? && |copies| > 0 then m else step;
      ForwardedStep(targets, i, req, p, st, statefulForwarding, now, d, s0, copies, timers, m, x, raised, copy, timer, step);
    }

    /** What one turn of the forwarding loop adds up to, with the state `x` it started from. */
    lemma ForwardedStep(targets: seq<Uri>, i: nat, req: Request, p: Provider, st: Option<TxId>, statefulForwarding: bool, now: int, d: nat,
                        s0: Snapshot, copies: seq<Request>, timers: seq<Timer>, m: TransactionsMapping?, x: Snapshot,
                        raised: bool, copy: Option<Request>, timer: Timer?, step: TransactionsMapping?)
      requires i < |targets| && |p.points| > 0
      requires i > 0 ==> !(req.requestUri.SipUri? && BranchRaises(cfg, req))
      requires |copies| == (if Sends(req) then i else 0)
      requires CopiesFor(p, req, targets, d, now, copies)
      requires CanForward(s0, st, statefulForwarding && st.Some?, copies, m)
      requires x == Forwarding(s0, st, statefulForwarding && st.Some?, copies, m, timers)
      requires TimersFor(timers, statefulForwarding && st.Some?, req.verb == INVITE, copies, s0.nextId)
      requires m != null ==> st.Some? && (st.value in s0.servers ==> m == s0.servers[st.value])
      requires TableValid() && MappingsValid()
      requires copy == CopyAt(p, req, targets, d, now, i)
      requires raised <==> req.requestUri.SipUri? && BranchRaises(cfg, req)
      requires CanForward(x, st, statefulForwarding && st.Some?, CopiesOf(copy), step)
      requires Snap() == Forwarding(x, st, statefulForwarding && st.Some?, CopiesOf(copy), step, TimersOf(timer))
      requires TimersFor(TimersOf(timer), statefulForwarding && st.Some?, req.verb == INVITE, CopiesOf(copy), x.nextId)
      requires step != null ==> st.Some? && (st.value in x.servers ==> step == x.servers[st.value])
      ensures var m' := if statefulForwarding && st.Some? && |copies| > 0 then m else step;
              Forwarded(targets, i + 1, raised, req, p, st, statefulForwarding, now, d, s0, copies + CopiesOf(copy), timers + TimersOf(timer), m')
    {
      var onTx := statefulForwarding && st.Some?;
      var c, tc, y := CopiesOf(copy), TimersOf(timer), Snap();
      ForwardingStep(s0, st, onTx, copies, m, timers, x, c, step, tc, y);
      ForwardingHandles(s0, st, onTx, copies, m, timers);
      TimersForAppend(timers, tc, onTx, req.verb == INVITE, copies, c, s0.nextId);
      if copy.Some? {
        assert Sends(req);
        CopiesStep(p, req, targets, d, now, copies, copy);
      } else {
        assert copies + CopiesOf(copy) == copies;
      }
    }

    /**
     * The forwarding loop of `processIncomingRequest`: `forwardRequest` for
     * each target in order, the first exception ending the loop. Each call
     * draws one random value when the Request-URI is a SIP URI. Every target
     * gets its copy or none does, and the state moves as `Forwarding` says:
     * when the copies go out on client transactions, those are linked to
     * `m`, the server transaction's mapping (its old one, or a new one), and
     * an INVITE gets one new Timer C per client transaction.
     */
    method ForwardToTargets(targets: seq<Uri>, req: Request, p: Provider, st: Option<TxId>, statefulForwarding: bool, now: int)
      returns (raised: bool, timers: seq<Timer>, ghost copies: seq<Request>, ghost m: TransactionsMapping?)
      requires TableValid() && MappingsValid() && |p.points| > 0
      modifies this`draws, this`serverMappings, this`clientMappings, this`Mappings, Mappings`clientTransactions, Mappings`timers
      modifies stack`nextId, stack`sent, stack`scheduled, snmp.values
      ensures MappingsValid()
      ensures raised <==> |targets| > 0 && req.requestUri.SipUri? && BranchRaises(cfg, req)
      ensures draws == old(draws) + (if !req.requestUri.SipUri? then 0 else if raised then 1 else |targets|)
      ensures |copies| == (if Sends(req) then |targets| else 0)
      ensures CopiesFor(p, req, targets, old(draws), now, copies)
      ensures CanForward(old(Snap()), st, statefulForwarding && st.Some?, copies, m)
      ensures Snap() == Forwarding(old(Snap()), st, statefulForwarding && st.Some?, copies, m, timers)
      ensures TimersFor(timers, statefulForwarding && st.Some?, req.verb == INVITE, copies, old(Snap()).nextId)
      ensures m != null ==> st.Some? && (st.value in old(Snap()).servers ==> m == old(Snap()).servers[st.value])
      ensures forall t :: t in timers ==> fresh(t)
      ensures m != null ==> m in old(Snap()).mappings || fresh(m)
    {
      var d := draws;
      ghost var s0 := Snap();
      ForwardedNone(s0, st, statefulForwarding && st.Some?, null);
      raised, timers, copies, m := ForwardEach(targets, req, p, st, statefulForwarding, now, d, s0);
      forall t | t in timers
        ensures fresh(t)
      {
        var k :| 0 <= k < |timers| && timers[k] == t;
        assert TimerAt(timers, k) == t;
      }
      draws := draws + (if !req.requestUri.SipUri? then 0 else if raised then 1 else |targets|);
    }

    /** The loop itself, with the draws from `d` on. */
    method ForwardEach(targets: seq<Uri>, req: Request, p: Provider, st: Option<TxId>, statefulForwarding: bool, now: int, d: nat, ghost s0: Snapshot)
      returns (raised: bool, timers: seq<Timer>, ghost copies: seq<Request>, ghost m: TransactionsMapping?)
      requires s0 == Snap() && Forwarded(targets, 0, false, req, p, st, statefulForwarding, now, d, s0, [], [], null)
      modifies this`serverMappings, this`clientMappings, this`Mappings, Mappings`clientTransactions, Mappings`timers
      modifies stack`nextId, stack`sent, stack`scheduled, snmp.values
      ensures Forwarded(targets, if raised then 1 else |targets|, raised, req, p, st, statefulForwarding, now, d, s0, copies, timers, m)
      ensures forall k: nat {:trigger TimerAt(timers, k)} :: k < |timers| ==> fresh(TimerAt(timers, k))
      ensures m != null ==> m in s0.mappings || fresh(m)
    {
      raised, timers, copies, m := false, [], [], null;
      var i := 0;
      while i < |targets| && !raised
        invariant i <= |targets| && (raised ==> i == 1)
        invariant Forwarded(targets, i, raised, req, p, st, statefulForwarding, now, d, s0, copies, timers, m)
        invariant forall x :: x in Mappings ==> x in s0.mappings || fresh(x)
        invariant forall k: nat {:trigger TimerAt(timers, k)} :: k < |timers| ==> fresh(TimerAt(timers, k))
        invariant m != null ==> m in s0.mappings || fresh(m)
        decreases |targets| - i
      {
        var timer;
        raised, copies, timer, m := ForwardNext(targets, i, req, p, st, statefulForwarding, now, d, s0, copies, timers, m);
        ghost var before := timers;
        timers := timers + TimersOf(timer);
        forall k | 0 <= k < |timers|
          ensures fresh(TimerAt(timers, k))
        {
          if k < |before| {
            assert TimerAt(timers, k) == TimerAt(before, k);
          }
        }
        i := i + 1;
      }
    }
    // -------------------------------------------------------------------
    // Requests: `processRequest` and `processIncomingRequest`

    /** The method plugin's reply to the request, when its method has a plugin. */
    function PluginOf(req: Request): Option<PluginReply> {
      if req.verb in plugins then Some(plugins[req.verb](req)) else None
    }

    /**
     * The authorization step of `validateRequest`: `checkProxyAuthorization`,
     * as written, on the request with the proxy's own host replaced by the
     * default domain.
     */
    function Authorization(req: Request, remoteDown: bool): AuthOutcome
      requires locationService != null && locationService.Valid() && dsam.Valid()
      reads locationService`database, locationService`Profiles, locationService`keyOf
    {
      var subject := AuthSubject(cfg, req);
      var check := if subject.Some? then CheckProxyAuthorizationAsWritten(subject.value, dsam, locationService) else AuthRaises;
      AuthStep(subject, check, remoteDown)
    }

    /** `Authorization` with the digest checked against the name the client sent. */
    function AuthorizationIntended(req: Request, remoteDown: bool): AuthOutcome
      requires locationService != null && locationService.Valid() && dsam.Valid()
      reads locationService`database, locationService`Profiles, locationService`keyOf
    {
      var subject := AuthSubject(cfg, req);
      var check := if subject.Some? then CheckProxyAuthorization(subject.value, dsam, locationService) else AuthRaises;
      AuthStep(subject, check, remoteDown)
    }

    /**
     * As written, a request whose credentials name the subscriber as
     * "user@domain" never passes validation, even with the right digest;
     * checked against the name the client sent, it does.
     */
    lemma QualifiedNameNeverPasses(p: Provider, req: Request, creds: Credentials, name: string, key: string, algorithm: string)
      requires locationService != null && locationService.Valid() && dsam.Valid() && |p.points| > 0
      requires cfg.authenticationEnabled && AuthSubject(cfg, req) == Some(req)
      requires SchemeSupported(req.requestUri) && !TooManyHops(req) && !LoopDetected(req, p) && req.proxyRequire.None?
      requires req.proxyAuthorization == Some(creds) && creds.username == Some(name) && '@' in name
      requires RequestKey(req) == Some(key) && key in locationService.Aors()
      requires locationService.Aors()[key].user == Some(StripDomain(name))
      requires creds.uri.Some? && creds.algorithm == Some(algorithm) && algorithm in dsam.algorithms
      requires creds.response == Some(RequestDigest(dsam.algorithms[algorithm], name, dsam.RealmOf(creds),
                 PasswordText(locationService.Aors()[key].password), ToUpper(req.verb), UriString(creds.uri.value),
                 Text(creds.nonce), creds.cnonce))
      ensures Validate(cfg, p, req, Authorization(req, false)) == Challenges
      ensures Validate(cfg, p, req, AuthorizationIntended(req, false)) == Passes
    {
      QualifiedProxyNameAccepted(req, dsam, locationService, creds, name, key, algorithm);
    }

    /** The 407 of `validateRequest`: the default realm, a nonce from the `draw`-th random value, the preferred algorithm. */
    function ChallengeFor(req: Request, draw: nat, now: int): Response
      requires dsam.Valid() && dsam.GetPreferredAlgorithm().Some?
    {
      var algorithm := dsam.GetPreferredAlgorithm().value;
      ProxyChallenged(req, dsam.defaultRealm, NonceOf(dsam.algorithms[algorithm], now, dsam.randomStream(draw)), algorithm)
    }

    /** What `validateRequest` sends for its outcome `v`: the rejection, the 407, or nothing. */
    function Refusal(v: Validation, req: Request, st: Option<TxId>, draw: nat, now: int): seq<Outgoing>
      requires dsam.Valid() && dsam.GetPreferredAlgorithm().Some?
    {
      match v
      case Rejects(response) => [Reply(response, st)]
      case Challenges => [Reply(ChallengeFor(req, draw, now), st)]
      case _ => []
    }

    /**
     * `validateRequest`: the checks of section 16.3 of RFC 3261 in order,
     * each failure answered on the server transaction or statelessly; with
     * authentication on, a request that is not authorized gets a 407 with
     * a new nonce, a remote failure a 500, and a request whose To header
     * cannot be rewritten raises.
     */
    method ValidateRequest(req: Request, p: Provider, st: Option<TxId>, remoteDown: bool, now: int, ghost auth: AuthOutcome) returns (v: Validation)
      requires dsam.Valid() && dsam.GetPreferredAlgorithm().Some? && |p.points| > 0
      requires locationService != null && locationService.Valid() && auth == Authorization(req, remoteDown)
      modifies stack`sent, dsam`draws
      ensures v == Validate(cfg, p, req, auth)
      ensures stack.sent == old(stack.sent) + Refusal(v, req, st, old(dsam.draws), now)
      ensures dsam.draws == old(dsam.draws) + (if v == Challenges then 1 else 0)
      ensures v == Passes ==> Snap() == old(Snap()) && locationService.Snapshot() == old(locationService.Snapshot())
    {
      if !SchemeSupported(req.requestUri) {
        v := Rejects(CreateResponse(416, req));
      } else if TooManyHops(req) {
        v := Rejects(CreateResponse(483, req));
      } else if LoopDetected(req, p) {
        v := Rejects(CreateResponse(482, req));
      } else if req.proxyRequire.Some? {
        v := Rejects(CreateResponse(420, req).(unsupported := req.proxyRequire));
      } else {
        v := Passes;
      }
      if v.Rejects? {
        stack.Send(Reply(v.response, st));
        return;
      }
      if cfg.authenticationEnabled {
        v := Authenticate(req, p, st, remoteDown, now, auth);
      }
    }

    /** The authentication half of `validateRequest`, once the checks before it have passed. */
    method Authenticate(req: Request, p: Provider, st: Option<TxId>, remoteDown: bool, now: int, ghost auth: AuthOutcome) returns (v: Validation)
      requires dsam.Valid() && dsam.GetPreferredAlgorithm().Some? && |p.points| > 0
      requires locationService != null && locationService.Valid() && cfg.authenticationEnabled && auth == Authorization(req, remoteDown)
      requires SchemeSupported(req.requestUri) && !TooManyHops(req) && !LoopDetected(req, p) && req.proxyRequire.None?
      modifies stack`sent, dsam`draws
      ensures v == Validate(cfg, p, req, auth)
      ensures stack.sent == old(stack.sent) + Refusal(v, req, st, old(dsam.draws), now)
      ensures dsam.draws == old(dsam.draws) + (if v == Challenges then 1 else 0)
      ensures v == Passes ==> Snap() == old(Snap()) && locationService.Snapshot() == old(locationService.Snapshot())
    {
      var outcome := Authorization(req, remoteDown);
      match outcome
      case AuthPassed =>
        v := Passes;
      case AuthFaulted =>
        v := Fails;
      case AuthUnreachable =>
        v := Rejects(CreateResponse(500, req));
        stack.Send(Reply(v.response, st));
      case AuthChallenged =>
        var algorithm := dsam.GetPreferredAlgorithm().value;
        var nonce := dsam.GenerateNonce(algorithm, now);
        stack.Send(Reply(ProxyChallenged(req, dsam.defaultRealm, nonce, algorithm), st));
        v := Challenges;
    }

    /**
     * Target determination in `processIncomingRequest` (section 16.5): the
     * predetermined target, the stateful CANCEL of a known INVITE, the
     * method plugin, or the contacts `getContactHeaders` holds for the To
     * header's key.
     */
    method PlanFor(req: Request, st: Option<TxId>, cancelled: Option<TxId>, remoteDown: bool, ghost bindings: map<string, seq<BindingValue>>)
      returns (plan: Plan)
      requires locationService != null && locationService.Valid() && bindings == locationService.Snapshot()
      ensures plan == Dispatch(cfg, req, st, cancelled, serverMappings.Keys, PluginOf(req), remoteDown, ContactsOf(bindings))
    {
      var mustBeStateless := cfg.stateful && req.verb == CANCEL;
      var reply := if req.verb in plugins then plugins[req.verb](req) else Declined;
      var key := TargetKey(cfg, req);
      if Predetermined(cfg, req) {
        plan := ForwardTo([req.requestUri], st.Some?);
      } else if mustBeStateless && st.None? {
        plan := PlanRaises;
      } else if mustBeStateless && cancelled.Some? && cancelled.value in serverMappings {
        plan := CancelContext(cancelled.value);
      } else if reply.Answers? {
        plan := Answer(reply.response);
      } else if reply.PluginFails? {
        plan := Answer(CreateResponse(500, req));
      } else if key.NoToHeader? {
        plan := PlanRaises;
      } else if remoteDown {
        plan := Answer(CreateResponse(500, req));
      } else if key.key.None? {
        plan := PlanRaises;
      } else {
        var contacts := locationService.GetContactHeaders(key.key.value);
        if contacts.UserNotFound? {
          plan := Answer(CreateResponse(404, req));
        } else if |contacts.value| == 0 {
          plan := Answer(CreateResponse(480, req));
        } else {
          plan := ForwardTo(UrisOf(Targets(cfg, contacts.value)), st.Some? && !mustBeStateless);
        }
      }
    }

    /**
     * What carrying out `plan` does, from state `s0` with `d0` random
     * values drawn: a forward sends the copies as `Forwarding` says, an
     * answer is one reply, a CANCEL of a known INVITE is answered with a
     * 200 and cancels the INVITE's pending client transactions in `order`,
     * and an exception changes nothing.
     */
    ghost predicate Carried(plan: Plan, req: Request, p: Provider, st: Option<TxId>, states: TxId -> TxState, now: int,
                            s0: Snapshot, d0: nat, copies: seq<Request>, timers: seq<Timer>, m: TransactionsMapping?, order: seq<TxId>,
                            raised: bool, s1: Snapshot, d1: nat)
      requires |p.points| > 0
    {
      match plan
      case ForwardTo(targets, stateful) =>
        var onTx := stateful && st.Some?;
        && (raised <==> |targets| > 0 && req.requestUri.SipUri? && BranchRaises(cfg, req))
        && d1 == d0 + (if !req.requestUri.SipUri? then 0 else if raised then 1 else |targets|)
        && |copies| == (if Sends(req) then |targets| else 0)
        && CopiesFor(p, req, targets, d0, now, copies)
        && CanForward(s0, st, onTx, copies, m)
        && s1 == Forwarding(s0, st, onTx, copies, m, timers)
        && TimersFor(timers, onTx, req.verb == INVITE, copies, s0.nextId)
      case Answer(response) =>
        !raised && d1 == d0 && s1 == s0.(sent := s0.sent + [Reply(response, st)])
      case CancelContext(_) =>
        var n := |ProceedingOnes(order, states)|;
        && !raised && d1 == d0 && st.Some? && CLIENT_ROW < |s0.values| && Distinct(order)
        && s1 == s0.(sent := s0.sent + [OnServerTransaction(st.value, CreateResponse(200, req))] + CancelsFor(order, states, s0.nextId),
                     nextId := s0.nextId + n, values := Add(s0.values, CLIENT_ROW, n))
      case PlanRaises =>
        raised && d1 == d0 && s1 == s0
    }

    /** The end of `processIncomingRequest`: the plan carried out. */
    method Carry(plan: Plan, req: Request, p: Provider, st: Option<TxId>, states: TxId -> TxState, now: int)
      returns (raised: bool, ghost copies: seq<Request>, ghost timers: seq<Timer>, ghost m: TransactionsMapping?, ghost order: seq<TxId>)
      requires Valid() && |p.points| > 0
      requires plan.CancelContext? ==> st.Some? && plan.invite in serverMappings
      modifies this`draws, this`serverMappings, this`clientMappings, this`Mappings, Mappings`clientTransactions, Mappings`timers
      modifies stack`nextId, stack`sent, stack`scheduled, snmp.values
      ensures Valid()
      ensures Carried(plan, req, p, st, states, now, old(Snap()), old(draws), copies, timers, m, order, raised, Snap(), draws)
      ensures plan.CancelContext? ==>
                plan.invite in serverMappings && forall ct :: ct in order <==> ct in serverMappings[plan.invite].clientTransactions
    {
      copies, timers, m, order := [], [], null, [];
      match plan
      case ForwardTo(targets, stateful) =>
        var ts;
        raised, ts, copies, m := ForwardToTargets(targets, req, p, st, stateful, now);
        timers := ts;
      case Answer(response) =>
        raised := false;
        stack.Send(Reply(response, st));
      case CancelContext(invite) =>
        raised := false;
        stack.Send(OnServerTransaction(st.value, CreateResponse(200, req)));
        order := CancelPending(serverMappings[invite], states);
      case PlanRaises =>
        raised := true;
    }
    /**
     * `checkServerTransaction` as values: the state `mid` after it, from
     * `s0`, and the server transaction `st` it leaves.
     */
    ghost predicate Opened(req: Request, current: Option<TxId>, retransmission: bool, s0: Snapshot, st: Option<TxId>, mid: Snapshot)
    {
      var opens := cfg.stateful && current.None? && req.verb != ACK && !retransmission;
      && SERVER_ROW < |s0.values|
      && (opens ==>
            st == Some(s0.nextId) && st.value in mid.servers
            && mid == s0.(nextId := s0.nextId + 1, values := Add(s0.values, SERVER_ROW, 1),
                          servers := s0.servers[st.value := mid.servers[st.value]], mappings := s0.mappings + {mid.servers[st.value]}))
      && (!opens ==> st == (if cfg.stateful then current else None) && mid == s0)
    }

    /**
     * What `processIncomingRequest` does, as values: from state `s0` with
     * `d0` branch values and `n0` nonce values drawn to `s1`, `d1`, `n1`.
     * Without a location service the reply is a 500. Otherwise the request
     * is admitted on `h.auth`: a failed validation sends its refusal (an
     * exception for `Fails`), a strict router's request is handed back
     * rewritten, and any other request is preprocessed, given its server
     * transaction, dispatched on the contacts of `h.bindings` and the plan carried out.
     */
    ghost predicate RequestHandled(req: Request, p: Provider, current: Option<TxId>, retransmission: bool, cancelled: Option<TxId>,
                                   remoteDown: bool, states: TxId -> TxState, now: int, h: Handling,
                                   s0: Snapshot, d0: nat, n0: nat, raised: bool, reentered: Option<Request>, s1: Snapshot, d1: nat, n1: nat)
      requires |p.points| > 0 && dsam.Valid() && dsam.GetPreferredAlgorithm().Some?
    {
      var st0 := if cfg.stateful then current else None;
      && h.admission == (if h.reachable then Admit(cfg, p, req, true, h.auth) else Unreachable)
      && match h.admission
         case Unreachable =>
           !raised && reentered.None? && s1 == s0.(sent := s0.sent + [Reply(CreateResponse(500, req), st0)]) && d1 == d0 && n1 == n0
         case Refused(v) =>
           raised == (v == Fails) && reentered.None? && s1 == s0.(sent := s0.sent + Refusal(v, req, st0, n0, now))
           && d1 == d0 && n1 == n0 + (if v == Challenges then 1 else 0)
         case Reentered(next) =>
           !raised && reentered == Some(next) && s1 == s0 && d1 == d0 && n1 == n0
         case Proceeds(next) =>
           && reentered.None? && n1 == n0
           && Opened(next, current, retransmission, s0, h.st, h.mid)
           && h.plan == Dispatch(cfg, next, h.st, cancelled, h.mid.servers.Keys, PluginOf(next), remoteDown, ContactsOf(h.bindings))
           && Carried(h.plan, next, p, h.st, states, now, h.mid, d0, h.copies, h.timers, h.m, h.order, raised, s1, d1)
    }

    /**
     * `processIncomingRequest`, with the stack's view of the event as
     * inputs: `current` the server transaction the event came with,
     * `retransmission` whether the stack refuses a new one, `cancelled`
     * the INVITE transaction a CANCEL matches, `remoteDown` whether calls
     * to the location service fail, `states` the transactions' states.
     * `raised` is the exception it ends with; `reentered` the request a
     * strict router sent, to be processed again.
     */
    method ProcessIncomingRequest(req: Request, p: Provider, current: Option<TxId>, retransmission: bool, cancelled: Option<TxId>,
                                  remoteDown: bool, states: TxId -> TxState, now: int)
      returns (raised: bool, reentered: Option<Request>, ghost h: Handling)
      requires Valid() && |p.points| > 0 && (locationService != null ==> locationService.Valid())
      modifies this`draws, this`serverMappings, this`clientMappings, this`Mappings, Mappings`clientTransactions, Mappings`timers
      modifies stack`nextId, stack`sent, stack`scheduled, snmp.values, dsam`draws
      ensures Valid()
      ensures h.reachable == (locationService != null)
      ensures h.reachable ==> h.auth == old(Authorization(req, remoteDown)) && h.bindings == old(locationService.Snapshot())
      ensures RequestHandled(req, p, current, retransmission, cancelled, remoteDown, states, now, h,
                             old(Snap()), old(draws), old(dsam.draws), raised, reentered, Snap(), draws, dsam.draws) == true
      ensures h.admission.Proceeds? && h.plan.CancelContext? ==>
                h.plan.invite in serverMappings && forall ct :: ct in h.order <==> ct in serverMappings[h.plan.invite].clientTransactions
    {
      var st0 := if cfg.stateful then current else None;
      ghost var s0, d0, n0 := Snap(), draws, dsam.draws;
      reentered := None;
      if locationService == null {
        stack.Send(Reply(CreateResponse(500, req), st0));
        raised := false;
        h := Handling(false, AuthFaulted, map[], Unreachable, st0, s0, PlanRaises, [], [], null, []);
        HandledAt(req, p, current, retransmission, cancelled, remoteDown, states, now, h, s0, d0, n0, raised, reentered, Snap(), draws, dsam.draws);
        return;
      }
      raised, reentered, h := Admitted(req, p, current, retransmission, cancelled, remoteDown, states, now);
    }

    /** `processIncomingRequest` once the location service is reached. */
    method Admitted(req: Request, p: Provider, current: Option<TxId>, retransmission: bool, cancelled: Option<TxId>,
                    remoteDown: bool, states: TxId -> TxState, now: int)
      returns (raised: bool, reentered: Option<Request>, ghost h: Handling)
      requires Valid() && |p.points| > 0 && locationService != null && locationService.Valid()
      modifies this`draws, this`serverMappings, this`clientMappings, this`Mappings, Mappings`clientTransactions, Mappings`timers
      modifies stack`nextId, stack`sent, stack`scheduled, snmp.values, dsam`draws
      ensures Valid()
      ensures h.reachable && h.auth == old(Authorization(req, remoteDown)) && h.bindings == old(locationService.Snapshot())
      ensures RequestHandled(req, p, current, retransmission, cancelled, remoteDown, states, now, h,
                             old(Snap()), old(draws), old(dsam.draws), raised, reentered, Snap(), draws, dsam.draws) == true
      ensures h.admission.Proceeds? && h.plan.CancelContext? ==>
                h.plan.invite in serverMappings && forall ct :: ct in h.order <==> ct in serverMappings[h.plan.invite].clientTransactions
    {
      ghost var auth, db := Authorization(req, remoteDown), locationService.Snapshot();
      var v;
      v, h := Screen(req, p, current, retransmission, cancelled, remoteDown, states, now, auth, db);
      if v != Passes {
        raised, reentered := v == Fails, None;
        return;
      }
      raised, reentered, h := Routed(req, p, current, retransmission, cancelled, remoteDown, states, now, auth, db);
    }

    /** `validateRequest` in `processIncomingRequest`: a request it refuses is handled. */
    method Screen(req: Request, p: Provider, current: Option<TxId>, retransmission: bool, cancelled: Option<TxId>,
                  remoteDown: bool, states: TxId -> TxState, now: int, ghost auth: AuthOutcome, ghost db: map<string, seq<BindingValue>>)
      returns (v: Validation, ghost h: Handling)
      requires Valid() && |p.points| > 0 && locationService != null && locationService.Valid()
      requires auth == Authorization(req, remoteDown) && db == locationService.Snapshot()
      modifies stack`sent, dsam`draws
      ensures v == Validate(cfg, p, req, auth)
      ensures v != Passes ==>
                h.reachable && h.auth == auth && h.bindings == db && h.admission == Refused(v)
                && RequestHandled(req, p, current, retransmission, cancelled, remoteDown, states, now, h,
                                  old(Snap()), old(draws), old(dsam.draws), v == Fails, None, Snap(), draws, dsam.draws) == true
      ensures v == Passes ==> Snap() == old(Snap()) && dsam.draws == old(dsam.draws) && locationService.Snapshot() == old(locationService.Snapshot())
    {
      var st0 := if cfg.stateful then current else None;
      ghost var s0, n0 := Snap(), dsam.draws;
      v := ValidateRequest(req, p, st0, remoteDown, now, auth);
      h := Handling(true, auth, db, Refused(v), st0, s0, PlanRaises, [], [], null, []);
      if v != Passes {
        HandledAt(req, p, current, retransmission, cancelled, remoteDown, states, now, h, s0, draws, n0, v == Fails, None, Snap(), draws, dsam.draws);
      }
    }

    /** `processIncomingRequest` once the request has passed validation. */
    method Routed(req: Request, p: Provider, current: Option<TxId>, retransmission: bool, cancelled: Option<TxId>,
                  remoteDown: bool, states: TxId -> TxState, now: int, ghost auth: AuthOutcome, ghost db: map<string, seq<BindingValue>>)
      returns (raised: bool, reentered: Option<Request>, ghost h: Handling)
      requires Valid() && |p.points| > 0 && locationService != null && locationService.Valid()
      requires Validate(cfg, p, req, auth) == Passes && db == locationService.Snapshot()
      modifies this`draws, this`serverMappings, this`clientMappings, this`Mappings, Mappings`clientTransactions, Mappings`timers
      modifies stack`nextId, stack`sent, stack`scheduled, snmp.values
      ensures Valid()
      ensures h.reachable && h.auth == auth && h.bindings == db
      ensures RequestHandled(req, p, current, retransmission, cancelled, remoteDown, states, now, h,
                             old(Snap()), old(draws), dsam.draws, raised, reentered, Snap(), draws, dsam.draws) == true
      ensures h.admission.Proceeds? && h.plan.CancelContext? ==>
                h.plan.invite in serverMappings && forall ct :: ct in h.order <==> ct in serverMappings[h.plan.invite].clientTransactions
    {
      var st0 := if cfg.stateful then current else None;
      ghost var s0, d0, n0 := Snap(), draws, dsam.draws;
      var strict := StrictRouted(p, req);
      if strict.Some? {
        raised, reentered := false, strict;
        h := Handling(true, auth, db, Reentered(strict.value), st0, s0, PlanRaises, [], [], null, []);
        HandledAt(req, p, current, retransmission, cancelled, remoteDown, states, now, h, old(Snap()), old(draws), dsam.draws, raised, reentered, Snap(), draws, dsam.draws);
        return;
      }
      raised, reentered, h := Onward(req, p, current, retransmission, cancelled, remoteDown, states, now, auth, db);
    }

    /** `processIncomingRequest` once the request has passed validation and was not strictly routed. */
    method Onward(req: Request, p: Provider, current: Option<TxId>, retransmission: bool, cancelled: Option<TxId>,
                  remoteDown: bool, states: TxId -> TxState, now: int, ghost auth: AuthOutcome, ghost db: map<string, seq<BindingValue>>)
      returns (raised: bool, reentered: Option<Request>, ghost h: Handling)
      requires Valid() && |p.points| > 0 && locationService != null && locationService.Valid()
      requires Validate(cfg, p, req, auth) == Passes && StrictRouted(p, req).None? && db == locationService.Snapshot()
      modifies this`draws, this`serverMappings, this`clientMappings, this`Mappings, Mappings`clientTransactions, Mappings`timers
      modifies stack`nextId, stack`sent, stack`scheduled, snmp.values
      ensures Valid()
      ensures h.reachable && h.auth == auth && h.bindings == db
      ensures RequestHandled(req, p, current, retransmission, cancelled, remoteDown, states, now, h,
                             old(Snap()), old(draws), dsam.draws, raised, reentered, Snap(), draws, dsam.draws) == true
      ensures h.admission.Proceeds? && h.plan.CancelContext? ==>
                h.plan.invite in serverMappings && forall ct :: ct in h.order <==> ct in serverMappings[h.plan.invite].clientTransactions
    {
      reentered := None;
      var next := Preprocessed(cfg, p, req);
      ghost var st, mid, plan, bindings, copies, timers, m, order;
      raised, st, mid, plan, bindings, copies, timers, m, order := Proceed(next, p, current, retransmission, cancelled, remoteDown, states, now);
      h := Handling(true, auth, db, Proceeds(next), st, mid, plan, copies, timers, m, order);
      HandledAt(req, p, current, retransmission, cancelled, remoteDown, states, now, h, old(Snap()), old(draws), dsam.draws, raised, reentered, Snap(), draws, dsam.draws);
    }

    /** `RequestHandled` from the facts of each way out of `processIncomingRequest`. */
    lemma HandledAt(req: Request, p: Provider, current: Option<TxId>, retransmission: bool, cancelled: Option<TxId>,
                    remoteDown: bool, states: TxId -> TxState, now: int, h: Handling,
                    s0: Snapshot, d0: nat, n0: nat, raised: bool, reentered: Option<Request>, s1: Snapshot, d1: nat, n1: nat)
      requires |p.points| > 0 && dsam.Valid() && dsam.GetPreferredAlgorithm().Some?
      requires var st0 := if cfg.stateful then current else None;
               match h.admission
               case Unreachable =>
                 !h.reachable && !raised && reentered.None? && s1 == s0.(sent := s0.sent + [Reply(CreateResponse(500, req), st0)])
                 && d1 == d0 && n1 == n0
               case Refused(v) =>
                 h.reachable && v == Validate(cfg, p, req, h.auth) && v != Passes
                 && raised == (v == Fails) && reentered.None? && s1 == s0.(sent := s0.sent + Refusal(v, req, st0, n0, now))
                 && d1 == d0 && n1 == n0 + (if v == Challenges then 1 else 0)
               case Reentered(next) =>
                 h.reachable && Validate(cfg, p, req, h.auth) == Passes && StrictRouted(p, req) == Some(next)
                 && !raised && reentered == Some(next) && s1 == s0 && d1 == d0 && n1 == n0
               case Proceeds(next) =>
                 h.reachable && Validate(cfg, p, req, h.auth) == Passes && StrictRouted(p, req).None? && next == Preprocessed(cfg, p, req)
                 && reentered.None? && n1 == n0
                 && Opened(next, current, retransmission, s0, h.st, h.mid)
                 && h.plan == Dispatch(cfg, next, h.st, cancelled, h.mid.servers.Keys, PluginOf(next), remoteDown, ContactsOf(h.bindings))
                 && Carried(h.plan, next, p, h.st, states, now, h.mid, d0, h.copies, h.timers, h.m, h.order, raised, s1, d1)
      ensures RequestHandled(req, p, current, retransmission, cancelled, remoteDown, states, now, h, s0, d0, n0, raised, reentered, s1, d1, n1)
    {
    }

    /**
     * The part of `processIncomingRequest` after admission: the server
     * transaction, the targets, the forwarding.
     */
    method Proceed(next: Request, p: Provider, current: Option<TxId>, retransmission: bool, cancelled: Option<TxId>,
                   remoteDown: bool, states: TxId -> TxState, now: int)
      returns (raised: bool, ghost st: Option<TxId>, ghost mid: Snapshot, ghost plan: Plan, ghost bindings: map<string, seq<BindingValue>>,
               ghost copies: seq<Request>, ghost timers: seq<Timer>, ghost m: TransactionsMapping?, ghost order: seq<TxId>)
      requires Valid() && |p.points| > 0 && locationService != null && locationService.Valid()
      modifies this`draws, this`serverMappings, this`clientMappings, this`Mappings, Mappings`clientTransactions, Mappings`timers
      modifies stack`nextId, stack`sent, stack`scheduled, snmp.values
      ensures Valid()
      ensures Opened(next, current, retransmission, old(Snap()), st, mid)
      ensures bindings == old(locationService.Snapshot())
      ensures plan == Dispatch(cfg, next, st, cancelled, mid.servers.Keys, PluginOf(next), remoteDown, ContactsOf(bindings))
      ensures Carried(plan, next, p, st, states, now, mid, old(draws), copies, timers, m, order, raised, Snap(), draws)
      ensures plan.CancelContext? ==>
                plan.invite in serverMappings && forall ct :: ct in order <==> ct in serverMappings[plan.invite].clientTransactions
    {
      var tx, chosen;
      tx, chosen, bindings := Target(next, current, retransmission, cancelled, remoteDown);
      st, mid, plan := tx, Snap(), chosen;
      raised, copies, timers, m, order := Carry(chosen, next, p, tx, states, now);
    }

    /** `checkServerTransaction`, then the targets. */
    method Target(next: Request, current: Option<TxId>, retransmission: bool, cancelled: Option<TxId>, remoteDown: bool)
      returns (st: Option<TxId>, plan: Plan, ghost bindings: map<string, seq<BindingValue>>)
      requires TableValid() && MappingsValid() && locationService != null && locationService.Valid()
      modifies this`serverMappings, this`Mappings, stack`nextId, snmp.values
      ensures MappingsValid() && fresh(Mappings - old(Mappings))
      ensures Opened(next, current, retransmission, old(Snap()), st, Snap())
      ensures plan == Dispatch(cfg, next, st, cancelled, serverMappings.Keys, PluginOf(next), remoteDown, ContactsOf(bindings))
      ensures bindings == old(locationService.Snapshot())
    {
      bindings := locationService.Snapshot();
      st := CheckServerTransaction(next, current, retransmission);
      assert locationService.Snapshot() == bindings;
      plan := PlanFor(next, st, cancelled, remoteDown, bindings);
    }

    /**
     * A stateless proxy sends a request it admits and forwards exactly one
     * copy (section 16.11 of RFC 3261): through the provider, for the single
     * target, with no server or client transaction, mapping or timer.
     */
    lemma StatelessSendsOneCopy(req: Request, p: Provider, current: Option<TxId>, retransmission: bool, cancelled: Option<TxId>,
                                remoteDown: bool, states: TxId -> TxState, now: int, h: Handling,
                                s0: Snapshot, d0: nat, n0: nat, raised: bool, reentered: Option<Request>, s1: Snapshot, d1: nat, n1: nat)
      requires |p.points| > 0 && dsam.Valid() && dsam.GetPreferredAlgorithm().Some?
      requires RequestHandled(req, p, current, retransmission, cancelled, remoteDown, states, now, h, s0, d0, n0, raised, reentered, s1, d1, n1)
      requires !cfg.stateful && h.admission.Proceeds? && h.plan.ForwardTo? && Sends(h.admission.next)
      ensures |h.plan.targets| == 1 && !raised && d1 == d0 + 1
      ensures |h.copies| == 1 && CopiesFor(p, h.admission.next, h.plan.targets, d0, now, h.copies)
      ensures s1 == s0.(sent := s0.sent + [StatelessRequest(h.copies[0])])
    {
      var next := h.admission.next;
      ProceedsAt(req, p, current, retransmission, cancelled, remoteDown, states, now, h, s0, d0, n0, raised, reentered, s1, d1, n1);
      assert h.st.None? && h.mid == s0;
      OneStatelessCopy(next, p, h.plan.targets, now, s0, d0, h.copies, h.timers, h.m, s1);
    }

    /** The `Proceeds` case of `RequestHandled` for a forward. */
    lemma ProceedsAt(req: Request, p: Provider, current: Option<TxId>, retransmission: bool, cancelled: Option<TxId>,
                     remoteDown: bool, states: TxId -> TxState, now: int, h: Handling,
                     s0: Snapshot, d0: nat, n0: nat, raised: bool, reentered: Option<Request>, s1: Snapshot, d1: nat, n1: nat)
      requires |p.points| > 0 && dsam.Valid() && dsam.GetPreferredAlgorithm().Some?
      requires RequestHandled(req, p, current, retransmission, cancelled, remoteDown, states, now, h, s0, d0, n0, raised, reentered, s1, d1, n1)
      requires h.admission.Proceeds? && h.plan.ForwardTo? && Sends(h.admission.next)
      ensures var onTx := h.plan.stateful && h.st.Some?;
              && Opened(h.admission.next, current, retransmission, s0, h.st, h.mid)
              && |h.plan.targets| > 0 && (h.plan.stateful ==> h.st.Some?) && (!cfg.stateful ==> |h.plan.targets| == 1)
              && !raised && d1 == d0 + |h.plan.targets|
              && |h.copies| == |h.plan.targets| && CopiesFor(p, h.admission.next, h.plan.targets, d0, now, h.copies)
              && CanForward(h.mid, h.st, onTx, h.copies, h.m) && s1 == Forwarding(h.mid, h.st, onTx, h.copies, h.m, h.timers)
              && TimersFor(h.timers, onTx, h.admission.next.verb == INVITE, h.copies, h.mid.nextId)
    {
    }

    /**
     * A stateful forward of a request it admits sends one copy per target,
     * in order, on consecutive new client transactions (`Forwards`; see
     * `ProxyState.ForwardsAt`), links them all to the server transaction's
     * one mapping (`Fan`; see `ProxyState.FanAt`), counts them in the CLIENT
     * gauge, and for an INVITE starts one Timer C per client transaction
     * (sections 16.6 and 16.8 of RFC 3261).
     */
    lemma StatefulForksEachTarget(req: Request, p: Provider, current: Option<TxId>, retransmission: bool, cancelled: Option<TxId>,
                                  remoteDown: bool, states: TxId -> TxState, now: int, h: Handling,
                                  s0: Snapshot, d0: nat, n0: nat, raised: bool, reentered: Option<Request>, s1: Snapshot, d1: nat, n1: nat)
      requires |p.points| > 0 && dsam.Valid() && dsam.GetPreferredAlgorithm().Some?
      requires RequestHandled(req, p, current, retransmission, cancelled, remoteDown, states, now, h, s0, d0, n0, raised, reentered, s1, d1, n1) == true
      requires h.admission.Proceeds? && h.plan.ForwardTo? && h.plan.stateful && Sends(h.admission.next)
      ensures var n, mid := |h.plan.targets|, h.mid;
              && h.st.Some? && !raised && d1 == d0 + n && |h.copies| == n && h.m != null
              && CopiesFor(p, h.admission.next, h.plan.targets, d0, now, h.copies)
              && s1.sent == mid.sent + Forwards(h.copies, true, mid.nextId)
              && s1.nextId == mid.nextId + n && s1.values == Add(mid.values, CLIENT_ROW, n)
              && s1.servers == mid.servers[h.st.value := h.m] && s1.clients == Fan(mid.clients, mid.nextId, n, h.m)
              && s1.scheduled == mid.scheduled + h.timers
              && TimersFor(h.timers, true, h.admission.next.verb == INVITE, h.copies, mid.nextId)
    {
      ProceedsAt(req, p, current, retransmission, cancelled, remoteDown, states, now, h, s0, d0, n0, raised, reentered, s1, d1, n1);
      ForwardingClosed(h.mid, h.st, true, h.copies, h.m, h.timers);
    }

    /** One copy forwarded statelessly is one message through the provider. */
    lemma OneStatelessCopy(next: Request, p: Provider, targets: seq<Uri>, now: int, s0: Snapshot, d0: nat,
                           copies: seq<Request>, timers: seq<Timer>, m: TransactionsMapping?, s1: Snapshot)
      requires |p.points| > 0 && |targets| == 1 && |copies| == 1 && timers == []
      requires CopiesFor(p, next, targets, d0, now, copies)
      requires CanForward(s0, None, false, copies, m) && s1 == Forwarding(s0, None, false, copies, m, timers)
      ensures s1 == s0.(sent := s0.sent + [StatelessRequest(copies[0])])
    {
      ForwardedOne(s0, None, false, copies[0], m, timers);
      assert s0.scheduled + [] == s0.scheduled;
    }

    /** `processRequest`: the request is handled and counted, as an error when its handling raised. */
    method ProcessRequest(req: Request, p: Provider, current: Option<TxId>, retransmission: bool, cancelled: Option<TxId>,
                          remoteDown: bool, states: TxId -> TxState, now: int)
      returns (reentered: Option<Request>, ghost raised: bool, ghost h: Handling, ghost s: Snapshot, ghost d: nat, ghost n: nat)
      requires Valid() && |p.points| > 0 && (locationService != null ==> locationService.Valid())
      modifies this`draws, this`serverMappings, this`clientMappings, this`Mappings, Mappings`clientTransactions, Mappings`timers
      modifies stack`nextId, stack`sent, stack`scheduled, snmp.values, dsam`draws
      ensures Valid()
      ensures h.reachable == (locationService != null)
      ensures h.reachable ==> h.auth == old(Authorization(req, remoteDown)) && h.bindings == old(locationService.Snapshot())
      ensures RequestHandled(req, p, current, retransmission, cancelled, remoteDown, states, now, h,
                             old(Snap()), old(draws), old(dsam.draws), raised, reentered, s, d, n) == true
      ensures draws == d && dsam.draws == n
      ensures |s.values| == |PROXY_OIDS| && Snap() == s.(values := Add(s.values, if raised then REQUEST_ERRORS_ROW else REQUESTS_ROW, 1))
    {
      var failed;
      failed, reentered, h := ProcessIncomingRequest(req, p, current, retransmission, cancelled, remoteDown, states, now);
      raised, s, d, n := failed, Snap(), draws, dsam.draws;
      Count(if failed then REQUEST_ERRORS_ROW else REQUESTS_ROW, 1);
    }

    // -------------------------------------------------------------------
    // Responses: `processResponse`, `processIncomingResponse`, timeouts and terminations

    /**
     * `processResponseStatelessly`: a response whose top Via is the proxy's
     * own (one of its interfaces, and the provider's port, 5060 when the
     * Via has none) loses that Via and goes on when another Via remains;
     * any other response is discarded.
     */
    method ProcessResponseStatelessly(resp: Response, p: Provider)
      requires |p.points| > 0
      modifies stack`sent
      ensures stack.sent == old(stack.sent) + StatelessNote(cfg, p, resp)
    {
      if |resp.vias| > 0 {
        var via := resp.vias[0];
        var viaPort := if via.port == NO_PORT then DEFAULT_SIP_PORT else via.port;
        if AddrMatchesInterface(cfg, via.host) && viaPort == p.points[0].port {
          var relayed := resp.(vias := resp.vias[1..]);
          if |relayed.vias| > 0 {
            stack.Send(StatelessResponse(relayed));
          }
        }
      }
    }

    /**
     * Step 2 of section 16.7 of RFC 3261 in `processIncomingResponse`: for a
     * 101 to 199 to an INVITE, the client transaction's Timer C is cancelled
     * and a new one scheduled; the mapping stores none.
     */
    method UpdateTimerC(resp: Response, m: TransactionsMapping, ct: TxId) returns (timer: Timer?)
      requires Valid() && ct in clientMappings && m == clientMappings[ct]
      modifies m`timers, stack`scheduled
      ensures Valid()
      ensures timer != null <==> RearmsTimerC(resp)
      ensures timer != null ==> fresh(timer) && timer.task == ct && !timer.cancelled
      ensures Snap() == old(Snap()).(scheduled := old(stack.scheduled) + (if timer != null then [timer] else []))
    {
      timer := null;
      if 101 <= resp.status <= 199 && resp.cseqMethod == INVITE {
        assert m.TimerOf(ct) == {};
        m.CancelTimerC(ct);
        timer := StartTimerC(m, ct);
      }
    }

    /**
     * Steps 3 to 10 of section 16.7 of RFC 3261 in `processIncomingResponse`,
     * on the response `popped` whose own Via is gone: with no Via left only
     * the context is consulted; once the server transaction has completed
     * only a 2xx to INVITE goes on; a 100 stays, other provisional responses
     * go on; a final response is stored, a 2xx goes on at once, a 6xx
     * cancels the pending branches, and the context is consulted. What it
     * sends is `Reacted` for the reaction `React` picks.
     */
    method Respond(m: TransactionsMapping, popped: Response, states: TxId -> TxState) returns (ghost order: seq<TxId>)
      requires Valid() && m in Mappings
      modifies stack`sent, stack`nextId, snmp.values, m.responseContext`finalResponses
      ensures var r := React(popped, states(m.serverTransaction));
              && m.responseContext.finalResponses == old(m.responseContext.finalResponses) + (if Stores(r) then [popped] else [])
              && stack.sent == old(stack.sent) + Reacted(r, popped, m.serverTransaction, m.clientTransactions, m.responseContext.request,
                                                         old(m.responseContext.finalResponses), states, old(stack.nextId), order)
              && (Cancels(r, popped) ==> Distinct(order) && forall ct :: ct in order <==> ct in m.clientTransactions)
              && (!Cancels(r, popped) ==> order == [])
      ensures stack.nextId == old(stack.nextId) + |ProceedingOnes(order, states)|
      ensures snmp.values[..] == Add(old(snmp.values[..]), CLIENT_ROW, |ProceedingOnes(order, states)|)
    {
      order := [];
      if |popped.vias| == 0 {
        CheckResponseContext(m, states);
      } else if IsCompleted(states(m.serverTransaction)) {
        if 200 <= popped.status <= 299 && popped.cseqMethod == INVITE {
          order := SendResponseImmediately(popped, m, states);
        }
      } else if !IsFinal(popped.status) {
        if popped.status != 100 {
          order := SendResponseImmediately(popped, m, states);
        }
      } else {
        order := Store(m, popped, states);
      }
    }

    /** The final-response steps of `Respond`: the response is stored, then sent on (2xx) or the context consulted. */
    method Store(m: TransactionsMapping, popped: Response, states: TxId -> TxState) returns (ghost order: seq<TxId>)
      requires Valid() && m in Mappings && |popped.vias| > 0 && !IsCompleted(states(m.serverTransaction)) && IsFinal(popped.status)
      modifies stack`sent, stack`nextId, snmp.values, m.responseContext`finalResponses
      ensures var r := React(popped, states(m.serverTransaction));
              && m.responseContext.finalResponses == old(m.responseContext.finalResponses) + (if Stores(r) then [popped] else [])
              && stack.sent == old(stack.sent) + Reacted(r, popped, m.serverTransaction, m.clientTransactions, m.responseContext.request,
                                                         old(m.responseContext.finalResponses), states, old(stack.nextId), order)
              && (Cancels(r, popped) ==> Distinct(order) && forall ct :: ct in order <==> ct in m.clientTransactions)
              && (!Cancels(r, popped) ==> order == [])
      ensures stack.nextId == old(stack.nextId) + |ProceedingOnes(order, states)|
      ensures snmp.values[..] == Add(old(snmp.values[..]), CLIENT_ROW, |ProceedingOnes(order, states)|)
    {
      ghost var r := React(popped, states(m.serverTransaction));
      ghost var finals, nextId := m.responseContext.finalResponses, stack.nextId;
      if 200 <= popped.status <= 299 {
        assert r == Reaction.StoreRelay;
        m.responseContext.AddFinalResponse(popped);
        order := SendResponseImmediately(popped, m, states);
        assert Reacted(r, popped, m.serverTransaction, m.clientTransactions, m.responseContext.request, finals, states, nextId, order)
            == [SentBy(popped, m.serverTransaction, states)] + CancelsFor(order, states, nextId);
      } else {
        assert r == if popped.status >= 600 then Reaction.StoreCancel else Reaction.Store;
        order := Settle(m, popped, states);
      }
    }

    /** The final responses `Store` keeps back: stored, a 6xx cancels the pending branches, then the context is consulted. */
    method Settle(m: TransactionsMapping, popped: Response, states: TxId -> TxState) returns (ghost order: seq<TxId>)
      requires Valid() && m in Mappings && IsFinal(popped.status) && !(200 <= popped.status <= 299)
      modifies stack`sent, stack`nextId, snmp.values, m.responseContext`finalResponses
      ensures m.responseContext.finalResponses == old(m.responseContext.finalResponses) + [popped]
      ensures stack.sent == old(stack.sent) + (if popped.status >= 600 then CancelsFor(order, states, old(stack.nextId)) else [])
                            + BestOf(m.serverTransaction, m.clientTransactions, m.responseContext.request, m.responseContext.finalResponses, states)
      ensures popped.status >= 600 ==> Distinct(order) && forall ct :: ct in order <==> ct in m.clientTransactions
      ensures popped.status < 600 ==> order == []
      ensures stack.nextId == old(stack.nextId) + |ProceedingOnes(order, states)|
      ensures snmp.values[..] == Add(old(snmp.values[..]), CLIENT_ROW, |ProceedingOnes(order, states)|)
    {
      m.responseContext.AddFinalResponse(popped);
      order := [];
      if popped.status >= 600 {
        order := CancelPending(m, states);
      }
      CheckResponseContext(m, states);
    }

    /**
     * What `processIncomingResponse` makes of the state `s0`, giving `s1`:
     * without a mapping, the stateless relay; with one, a 101 to 199 to an
     * INVITE re-arms the client transaction's Timer C, and the response,
     * its own Via removed, gets the reaction `React` picks, with the
     * messages `Reacted` lists, the CANCELs counted, and the final
     * responses stored.
     */
    ghost predicate ResponseHandled(resp: Response, p: Provider, clientTx: Option<TxId>, states: TxId -> TxState,
                                    g: Reception, s0: Snapshot, s1: Snapshot)
      requires |p.points| > 0 && |s0.values| == |PROXY_OIDS|
    {
      if g.m == null then
        g.timer == null && g.order == [] && s1 == s0.(sent := s0.sent + StatelessNote(cfg, p, resp))
      else
        var popped := PopVia(resp);
        var r := React(popped, states(g.m.serverTransaction));
        var n := |ProceedingOnes(g.order, states)|;
        && clientTx.Some?
        && (g.timer != null <==> RearmsTimerC(resp))
        && (g.timer != null ==> g.timer.task == clientTx.value)
        && g.after == g.before + (if Stores(r) then [popped] else [])
        && (Cancels(r, popped) ==> Distinct(g.order) && forall ct :: ct in g.order <==> ct in g.clientTxs)
        && (!Cancels(r, popped) ==> g.order == [])
        && s1 == s0.(sent := s0.sent + Reacted(r, popped, g.m.serverTransaction, g.clientTxs, g.m.responseContext.request,
                                               g.before, states, s0.nextId, g.order),
                     nextId := s0.nextId + n, values := Add(s0.values, CLIENT_ROW, n),
                     scheduled := s0.scheduled + (if g.timer != null then [g.timer] else []))
    }

    /**
     * `processIncomingResponse`: a stateless proxy, or a response without a
     * client transaction or without a mapping, takes the stateless way;
     * otherwise the mapping's context is the only one that changes.
     */
    method ProcessIncomingResponse(resp: Response, p: Provider, clientTx: Option<TxId>, states: TxId -> TxState)
      returns (ghost g: Reception)
      requires Valid() && |p.points| > 0
      modifies stack`sent, stack`nextId, stack`scheduled, snmp.values, Mappings`timers, Contexts()`finalResponses
      ensures Valid()
      ensures var ct := if cfg.stateful then clientTx else None;
              if ct.Some? && ct.value in clientMappings then
                g.m == clientMappings[ct.value] && g.clientTxs == g.m.clientTransactions
                && g.before == old(clientMappings[ct.value].responseContext.finalResponses) && g.after == g.m.responseContext.finalResponses
              else g.m == null
      ensures forall c :: c in Contexts() && (g.m == null || c != g.m.responseContext) ==> c.finalResponses == old(c.finalResponses)
      ensures g.timer != null ==> fresh(g.timer) && !g.timer.cancelled
      ensures ResponseHandled(resp, p, clientTx, states, g, old(Snap()), Snap()) == true
    {
      var ct := if cfg.stateful then clientTx else None;
      if ct.None? || ct.value !in clientMappings {
        ProcessResponseStatelessly(resp, p);
        g := Reception(null, {}, [], [], null, []);
        return;
      }
      var m := clientMappings[ct.value];
      assert m.responseContext in Contexts();
      g := Correlated(resp, p, ct.value, m, states);
    }

    /** `processIncomingResponse` on the mapping `m` of the response's client transaction `ct`. */
    method Correlated(resp: Response, p: Provider, ct: TxId, m: TransactionsMapping, states: TxId -> TxState)
      returns (ghost g: Reception)
      requires Valid() && |p.points| > 0 && ct in clientMappings && m == clientMappings[ct]
      modifies stack`sent, stack`nextId, stack`scheduled, snmp.values, m`timers, m.responseContext`finalResponses
      ensures Valid()
      ensures g.m == m && g.clientTxs == m.clientTransactions
      ensures g.before == old(m.responseContext.finalResponses) && g.after == m.responseContext.finalResponses
      ensures g.timer != null ==> fresh(g.timer) && !g.timer.cancelled
      ensures ResponseHandled(resp, p, Some(ct), states, g, old(Snap()), Snap()) == true
    {
      var timer := UpdateTimerC(resp, m, ct);
      ghost var s1 := Snap();
      var popped := PopVia(resp);
      ghost var before := m.responseContext.finalResponses;
      ghost var r := React(popped, states(m.serverTransaction));
      ghost var order := Respond(m, popped, states);
      g := Reception(m, m.clientTransactions, before, m.responseContext.finalResponses, timer, order);
      ghost var n := |ProceedingOnes(order, states)|;
      ReceivedAt(resp, p, Some(ct), states, g, old(Snap()), Snap(), popped, r,
                 s1.(sent := s1.sent + Reacted(r, popped, m.serverTransaction, m.clientTransactions, m.responseContext.request, before, states, s1.nextId, order),
                     nextId := s1.nextId + n, values := Add(s1.values, CLIENT_ROW, n)));
    }

    /** `ResponseHandled` for a response with a mapping, from the steps `Correlated` takes. */
    lemma ReceivedAt(resp: Response, p: Provider, clientTx: Option<TxId>, states: TxId -> TxState, g: Reception,
                     s0: Snapshot, s1: Snapshot, popped: Response, r: Reaction, expected: Snapshot)
      requires |p.points| > 0 && |s0.values| == |PROXY_OIDS| && g.m != null && clientTx.Some?
      requires popped == PopVia(resp) && r == React(popped, states(g.m.serverTransaction))
      requires (g.timer != null <==> RearmsTimerC(resp)) && (g.timer != null ==> g.timer.task == clientTx.value)
      requires g.after == g.before + (if Stores(r) then [popped] else [])
      requires Cancels(r, popped) ==> Distinct(g.order) && forall ct :: ct in g.order <==> ct in g.clientTxs
      requires !Cancels(r, popped) ==> g.order == []
      requires var n := |ProceedingOnes(g.order, states)|;
               expected == s0.(sent := s0.sent + Reacted(r, popped, g.m.serverTransaction, g.clientTxs, g.m.responseContext.request,
                                                        g.before, states, s0.nextId, g.order),
                               nextId := s0.nextId + n, values := Add(s0.values, CLIENT_ROW, n),
                               scheduled := s0.scheduled + (if g.timer != null then [g.timer] else []))
      requires s1 == expected
      ensures ResponseHandled(resp, p, clientTx, states, g, s0, s1)
    {
    }

    /**
     * A 2xx to an INVITE on a client transaction with a mapping goes on at
     * once, followed by exactly one CANCEL, each on a new client
     * transaction, for every sibling still in PROCEEDING (steps 5 and 10 of
     * section 16.7 of RFC 3261).
     */
    lemma TwoHundredForwarded(resp: Response, p: Provider, clientTx: Option<TxId>, states: TxId -> TxState, g: Reception,
                              s0: Snapshot, s1: Snapshot)
      requires |p.points| > 0 && |s0.values| == |PROXY_OIDS|
      requires ResponseHandled(resp, p, clientTx, states, g, s0, s1)
      requires g.m != null && |resp.vias| >= 2 && 200 <= resp.status <= 299 && resp.cseqMethod == INVITE
      ensures var popped, cancelled := PopVia(resp), ProceedingOnes(g.order, states);
              && |s1.sent| == |s0.sent| + 1 + |cancelled| && s1.sent[..|s0.sent|] == s0.sent
              && s1.sent[|s0.sent|] == SentBy(popped, g.m.serverTransaction, states)
              && (forall i :: 0 <= i < |cancelled| ==> s1.sent[|s0.sent| + 1 + i] == CancelOf(s0.nextId + i, cancelled[i]))
              && (forall ct :: ct in cancelled <==> ct in g.clientTxs && states(ct) == Proceeding)
              && s1.nextId == s0.nextId + |cancelled|
    {
      var popped := PopVia(resp);
      var r := React(popped, states(g.m.serverTransaction));
      var out := Reacted(r, popped, g.m.serverTransaction, g.clientTxs, g.m.responseContext.request, g.before, states, s0.nextId, g.order);
      TwoHundredRelayedAtOnce(g.m.responseContext.request, g.before, popped, g.m.serverTransaction, g.clientTxs, states, s0.nextId, g.order);
      assert Cancels(r, popped);
      assert s1.sent == s0.sent + out;
      forall i | 0 <= i < |ProceedingOnes(g.order, states)|
        ensures s1.sent[|s0.sent| + 1 + i] == CancelOf(s0.nextId + i, ProceedingOnes(g.order, states)[i])
      {
        assert s1.sent[|s0.sent| + 1 + i] == out[1 + i];
      }
    }

    /** `processResponse`: the response is handled and counted. */
    method ProcessResponse(resp: Response, p: Provider, clientTx: Option<TxId>, states: TxId -> TxState)
      returns (ghost g: Reception, ghost s: Snapshot)
      requires Valid() && |p.points| > 0
      modifies stack`sent, stack`nextId, stack`scheduled, snmp.values, Mappings`timers, Contexts()`finalResponses
      ensures Valid()
      ensures var ct := if cfg.stateful then clientTx else None;
              if ct.Some? && ct.value in clientMappings then
                g.m == clientMappings[ct.value] && g.clientTxs == g.m.clientTransactions
                && g.before == old(clientMappings[ct.value].responseContext.finalResponses) && g.after == g.m.responseContext.finalResponses
              else g.m == null
      ensures forall c :: c in Contexts() && (g.m == null || c != g.m.responseContext) ==> c.finalResponses == old(c.finalResponses)
      ensures g.timer != null ==> fresh(g.timer) && !g.timer.cancelled
      ensures ResponseHandled(resp, p, clientTx, states, g, old(Snap()), s) == true
      ensures |s.values| == |PROXY_OIDS| && Snap() == s.(values := Add(s.values, RESPONSES_ROW, 1))
    {
      g := ProcessIncomingResponse(resp, p, clientTx, states);
      s := Snap();
      Count(RESPONSES_ROW, 1);
    }

    /**
     * `processTimeout`: for a client transaction with a mapping, its Timer C
     * is cancelled (the mapping stores none) and the context consulted.
     */
    method ProcessTimeout(clientTx: Option<TxId>, states: TxId -> TxState)
      requires Valid()
      modifies stack`sent, stack`nextId, snmp.values, Mappings`timers
      ensures Valid()
      ensures clientTx.Some? && clientTx.value in clientMappings ==>
                Snap() == old(Snap()).(sent := old(stack.sent) + BestNote(clientMappings[clientTx.value], states))
      ensures !(clientTx.Some? && clientTx.value in clientMappings) ==> Snap() == old(Snap())
    {
      if clientTx.Some? && clientTx.value in clientMappings {
        var m := clientMappings[clientTx.value];
        assert m.TimerOf(clientTx.value) == {};
        m.CancelTimerC(clientTx.value);
        CheckResponseContext(m, states);
      }
    }

    /**
     * `processTransactionTerminated`: the server or the client gauge goes
     * down by one, then a client transaction is treated as on a timeout. The
     * stack's event for a server transaction carries no client transaction.
     */
    method ProcessTransactionTerminated(isServerTransaction: bool, clientTx: Option<TxId>, states: TxId -> TxState)
      requires Valid() && (isServerTransaction ==> clientTx.None?)
      modifies stack`sent, stack`nextId, snmp.values, Mappings`timers
      ensures Valid()
      ensures var counted := old(Snap()).(values := Add(old(snmp.values[..]), if isServerTransaction then SERVER_ROW else CLIENT_ROW, -1));
              Snap() == if clientTx.Some? && clientTx.value in clientMappings
                        then counted.(sent := counted.sent + BestNote(clientMappings[clientTx.value], states))
                        else counted
    {
      Count(if isServerTransaction then SERVER_ROW else CLIENT_ROW, -1);
      ProcessTimeout(clientTx, states);
    }
  }
}
