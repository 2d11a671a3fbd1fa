/**
 * TransactionsMapping: for one server transaction of a stateful proxy, the
 * client transactions it forked, their Timer C timers and the response
 * context collecting their final responses.
 */
module TransactionsMappings {
  import opened Sip
  import opened SipStack
  import opened ResponseContexts

  class TransactionsMapping {
    const serverTransaction: TxId
    const responseContext: ResponseContext
    var clientTransactions: set<TxId>
    var timers: map<TxId, Timer>

    /**
     * A new mapping has no client transaction, no timer, and an empty
     * response context on the server transaction's request. (The server
     * transaction is a handle, so the null the source rejects cannot occur.)
     */
    constructor (serverTransaction: TxId, request: Request)
      ensures this.serverTransaction == serverTransaction
      ensures clientTransactions == {} && timers == map[]
      ensures fresh(responseContext) && responseContext.Valid()
      ensures responseContext.request == request && responseContext.finalResponses == []
    {
      this.serverTransaction := serverTransaction;
      clientTransactions := {};
      timers := map[];
      responseContext := new ResponseContext(request);
    }

    function Contains(clientTransaction: TxId): (r: bool)
      reads this`clientTransactions
      ensures r <==> clientTransaction in clientTransactions
    {
      clientTransaction in clientTransactions
    }

    /** `hasClientTransactions`: some client transaction is mapped. */
    function HasClientTransactions(): (r: bool)
      reads this`clientTransactions
      ensures r <==> exists ct :: ct in clientTransactions
    {
      clientTransactions != {}
    }

    /** `getClientTransactionsArray`: a new array holding each client transaction once, in no particular order. */
    method GetClientTransactionsArray() returns (cts: array<TxId>)
      ensures fresh(cts) && cts.Length == |clientTransactions|
      ensures forall ct :: ct in clientTransactions <==> ct in cts[..]
      ensures forall i, j :: 0 <= i < j < cts.Length ==> cts[i] != cts[j]
    {
      cts := new TxId[|clientTransactions|];
      var rest := clientTransactions;
      var i := 0;
      while rest != {}
        invariant 0 <= i <= cts.Length && i + |rest| == cts.Length
        invariant rest <= clientTransactions
        invariant forall ct :: ct in clientTransactions <==> ct in rest || ct in cts[..i]
        invariant forall k :: 0 <= k < i ==> cts[k] !in rest
        invariant forall k, l :: 0 <= k < l < i ==> cts[k] != cts[l]
        decreases |rest|
      {
        var ct :| ct in rest;
        cts[i] := ct;
        rest := rest - {ct};
        assert cts[..i + 1] == cts[..i] + [ct];
        i := i + 1;
      }
      assert cts[..i] == cts[..];
    }

    /** `addClientTransaction`: set insertion, so adding twice is adding once. */
    method AddClientTransaction(clientTransaction: TxId)
      modifies this`clientTransactions
      ensures clientTransactions == old(clientTransactions) + {clientTransaction}
    {
      clientTransactions := clientTransactions + {clientTransaction};
    }

    /** `removeMapping`: only that client transaction leaves the set. */
    method RemoveMapping(clientTransaction: TxId)
      modifies this`clientTransactions
      ensures clientTransactions == old(clientTransactions) - {clientTransaction}
    {
      clientTransactions := clientTransactions - {clientTransaction};
    }

    /**
     * `registerTimerC`: the timer is stored only when there is one and the
     * transaction is not (yet) among the mapped client transactions.
     */
    method RegisterTimerC(timer: Timer?, clientTransaction: TxId)
      modifies this`timers
      ensures timers == if timer != null && clientTransaction !in clientTransactions
                        then old(timers)[clientTransaction := timer] else old(timers)
    {
      if timer != null && !Contains(clientTransaction) {
        timers := timers[clientTransaction := timer];
      }
    }

    /**
     * `registerTimerC` with the guard it evidently means: the timer is stored
     * unless that transaction already has a timer of its own.
     */
    method RegisterTimerCIntended(timer: Timer?, clientTransaction: TxId)
      modifies this`timers
      ensures timers == if timer != null && clientTransaction !in old(timers)
                        then old(timers)[clientTransaction := timer] else old(timers)
    {
      if timer != null && clientTransaction !in timers {
        timers := timers[clientTransaction := timer];
      }
    }

    /** The timer stored for a client transaction, as a frame. */
    function TimerOf(clientTransaction: TxId): set<Timer>
      reads this`timers
    {
      if clientTransaction in timers then {timers[clientTransaction]} else {}
    }

    /**
     * `cancelTimerC`: a stored timer is cancelled and forgotten; without one
     * nothing happens, so a second call changes nothing.
     */
    method CancelTimerC(clientTransaction: TxId)
      modifies this`timers, TimerOf(clientTransaction)
      ensures clientTransaction in old(timers) ==>
                old(timers)[clientTransaction].cancelled && timers == old(timers) - {clientTransaction}
      ensures clientTransaction !in old(timers) ==> timers == old(timers)
      ensures clientTransaction !in timers
    {
      if clientTransaction in timers {
        var timer := timers[clientTransaction];
        timer.Cancel();
        timers := timers - {clientTransaction};
      }
    }
  }

  /**
   * The order the proxy uses when it forks an INVITE or re-arms Timer C on a
   * provisional response: the client transaction is added first, so the
   * guard of `registerTimerC` never lets the new timer in.
   */
  method AddThenRegister(mapping: TransactionsMapping, clientTransaction: TxId, timer: Timer)
    modifies mapping`clientTransactions, mapping`timers
    ensures mapping.clientTransactions == old(mapping.clientTransactions) + {clientTransaction}
    ensures mapping.timers == old(mapping.timers)
  {
    mapping.AddClientTransaction(clientTransaction);
    mapping.RegisterTimerC(timer, clientTransaction);
  }

  /** With the intended guard the same order stores the new timer. */
  method AddThenRegisterIntended(mapping: TransactionsMapping, clientTransaction: TxId, timer: Timer)
    requires clientTransaction !in mapping.timers
    modifies mapping`clientTransactions, mapping`timers
    ensures mapping.clientTransactions == old(mapping.clientTransactions) + {clientTransaction}
    ensures mapping.timers == old(mapping.timers)[clientTransaction := timer]
  {
    mapping.AddClientTransaction(clientTransaction);
    mapping.RegisterTimerCIntended(timer, clientTransaction);
  }

  /**
   * The Timer C reset on a provisional response, with the intended guard:
   * the running timer is cancelled and the new one takes its place, so a
   * later reset or final response cancels the timer that is actually armed.
   */
  method RearmIntended(mapping: TransactionsMapping, clientTransaction: TxId, timer: Timer)
    requires clientTransaction in mapping.clientTransactions
    modifies mapping`timers, mapping.TimerOf(clientTransaction)
    ensures clientTransaction in old(mapping.timers) ==> old(mapping.timers)[clientTransaction].cancelled
    ensures mapping.timers == (old(mapping.timers) - {clientTransaction})[clientTransaction := timer]
  {
    mapping.CancelTimerC(clientTransaction);
    mapping.RegisterTimerCIntended(timer, clientTransaction);
  }

  /** As written, the same reset cancels the running timer, if any, and stores nothing. */
  method RearmAsWritten(mapping: TransactionsMapping, clientTransaction: TxId, timer: Timer)
    requires clientTransaction in mapping.clientTransactions
    modifies mapping`timers, mapping.TimerOf(clientTransaction)
    ensures clientTransaction in old(mapping.timers) ==> old(mapping.timers)[clientTransaction].cancelled
    ensures mapping.timers == old(mapping.timers) - {clientTransaction}
  {
    mapping.CancelTimerC(clientTransaction);
    mapping.RegisterTimerC(timer, clientTransaction);
  }
}
