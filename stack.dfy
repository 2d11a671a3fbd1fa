/**
 * The part of the JAIN-SIP stack the proxy drives: it hands out new
 * transactions, takes the messages to send, and runs the timers scheduled
 * on it. Its own transaction state machines are not modelled; the states
 * the proxy consults are inputs of each event.
 */
module SipStack {
  import opened Sip

  /** What the proxy hands to the stack to send. */
  datatype Outgoing =
    | OnServerTransaction(serverTx: TxId, response: Response)
    | StatelessResponse(response: Response)
    | StatelessRequest(request: Request)
    | OnClientTransaction(clientTx: TxId, request: Request)
    | CancelOf(cancelTx: TxId, cancelled: TxId)

  /** Where a SipException interrupts a sequence of stack calls, if anywhere. */
  datatype Fault = NoFault | CreateCancelFails | NewTransactionFails | SendFails

  /** A `java.util.Timer` carrying the Timer C task of one client transaction. */
  class Timer {
    /** The client transaction the task cancels. */
    const task: TxId
    var cancelled: bool

    constructor (task: TxId)
      ensures this.task == task && !cancelled
    {
      this.task := task;
      cancelled := false;
    }

    /** `Timer.cancel`: the task will not run. */
    method Cancel()
      modifies this`cancelled
      ensures cancelled
    {
      cancelled := true;
    }
  }

  class Stack {
    /** Everything sent so far, in order. */
    var sent: seq<Outgoing>
    /** The handle the next new transaction gets. */
    var nextId: TxId
    /** The timers scheduled so far, in order. */
    var scheduled: seq<Timer>

    constructor ()
      ensures sent == [] && nextId == 0 && scheduled == []
    {
      sent, nextId, scheduled := [], 0, [];
    }

    /** `getNewClientTransaction` / `getNewServerTransaction`: a handle not given out before. */
    method NewTransaction() returns (tx: TxId)
      modifies this`nextId
      ensures tx == old(nextId) && nextId == old(nextId) + 1
    {
      tx := nextId;
      nextId := nextId + 1;
    }

    method Send(message: Outgoing)
      modifies this`sent
      ensures sent == old(sent) + [message]
    {
      sent := sent + [message];
    }

    /** `Timer.schedule`: the timer's task will run once its period has passed. */
    method Schedule(timer: Timer)
      modifies this`scheduled
      ensures scheduled == old(scheduled) + [timer]
    {
      scheduled := scheduled + [timer];
    }
  }
}
