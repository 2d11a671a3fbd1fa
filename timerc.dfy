/**
 * TimerCTask: what happens when Timer C of an INVITE client transaction
 * fires (RFC 3261 section 16.8).
 */
module TimerC {
  import opened Common
  import opened Sip
  import opened SipStack
  import opened Snmp

  /** The proxy's SNMP table. */
  const SNMP_ROOT_OID: string := "1.3.6.1.4.1.1937.3."
  const SNMP_OID_NUM_REQUESTS_PROCESSED: string := SNMP_ROOT_OID + "1.1"
  const SNMP_OID_NUM_RESPONSES_PROCESSED: string := SNMP_ROOT_OID + "1.2"
  const SNMP_OID_NUM_REQUEST_PROCESSING_ERRORS: string := SNMP_ROOT_OID + "1.3"
  const SNMP_OID_NUM_RESPONSE_PROCESSING_ERRORS: string := SNMP_ROOT_OID + "1.4"
  const SNMP_OID_NUM_SERVER_TRANSACTIONS: string := SNMP_ROOT_OID + "1.5"
  const SNMP_OID_NUM_CLIENT_TRANSACTIONS: string := SNMP_ROOT_OID + "1.6"

  /** The table after `incrementSnmpInteger(oid)` (`delta` 1) or `decrementSnmpInteger(oid)` (`delta` -1). */
  ghost function Bumped(snmp: SNMPAssistant, before: seq<int>, oid: string, delta: int): seq<int>
    requires snmp.Valid() && |before| == |snmp.oids|
  {
    if oid in snmp.oids then before[FirstIndex(snmp.oids, oid) := before[FirstIndex(snmp.oids, oid)] + delta] else before
  }

  class TimerCTask {
    const clientTransaction: TxId
    const stack: Stack
    /** The proxy's SNMP table (`proxy.getSnmpAssistant()`). */
    const snmp: SNMPAssistant

    constructor (clientTransaction: TxId, stack: Stack, snmp: SNMPAssistant)
      ensures this.clientTransaction == clientTransaction && this.stack == stack && this.snmp == snmp
    {
      this.clientTransaction := clientTransaction;
      this.stack := stack;
      this.snmp := snmp;
    }

    /**
     * `run`: only a client transaction in PROCEEDING gets a CANCEL, on one new
     * client transaction, and the client-transaction gauge goes down by one
     * once that transaction exists. In any other state nothing is sent. A
     * SipException ends the task quietly; nothing is rescheduled.
     */
    method Run(state: TxState, fault: Fault)
      requires snmp.Valid()
      modifies stack`sent, stack`nextId, snmp.values
      ensures state != Proceeding ==> stack.sent == old(stack.sent) && stack.nextId == old(stack.nextId)
      ensures state == Proceeding && fault == NoFault ==>
                stack.sent == old(stack.sent) + [CancelOf(old(stack.nextId), clientTransaction)]
      ensures fault != NoFault ==> stack.sent == old(stack.sent)
      ensures stack.nextId == if state == Proceeding && (fault == NoFault || fault == SendFails)
                              then old(stack.nextId) + 1 else old(stack.nextId)
      ensures snmp.values[..] ==
                if state == Proceeding && (fault == NoFault || fault == SendFails)
                then Bumped(snmp, old(snmp.values[..]), SNMP_OID_NUM_CLIENT_TRANSACTIONS, -1)
                else old(snmp.values[..])
    {
      if state == Proceeding {
        if fault == CreateCancelFails || fault == NewTransactionFails {
          return;
        }
        var cancelTransaction := stack.NewTransaction();
        snmp.DecrementSnmpInteger(SNMP_OID_NUM_CLIENT_TRANSACTIONS);
        if fault == SendFails {
          return;
        }
        stack.Send(CancelOf(cancelTransaction, clientTransaction));
      }
    }
  }
}
