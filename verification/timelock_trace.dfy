/**
 Sequences of public calls into the TimeLock contract. A call that returns an
 error is reverted by the host, so it leaves the state it started from; this
 module states what holds over every such sequence.
 */
module TimeLockTrace {
  import opened TimeLockTypes
  import opened TimeLock

  /**
   One external call, with its caller and the block timestamp it runs at. An
   `execute` carries the answer its own outbound call gets, so the same call
   may fail at one point of a sequence and succeed at another.
   */
  datatype Call =
    | InitializeCall(sender: Address)
    | DepositCall(sender: Address, value: nat)
    | QueueCall(sender: Address, tx: Descriptor, now: nat)
    | ExecuteCall(sender: Address, tx: Descriptor, now: nat, outcome: Host)
    | ExecuteV2Call(sender: Address, target: Address)
    | CancelCall(sender: Address, tx: Descriptor)

  function Step(c: Crypto, s: State, call: Call): Result<State> {
    match call
    case InitializeCall(sender) => Initialize(s, sender)
    case DepositCall(sender, value) => Ok(Deposit(s, sender, value))
    case QueueCall(sender, tx, now) => Queue(c, s, sender, tx, now)
    case ExecuteCall(sender, tx, now, outcome) => Execute(c, outcome, s, sender, tx, now)
    case ExecuteV2Call(sender, target) => ExecuteV2(s, sender, target)
    case CancelCall(sender, tx) => Cancel(c, s, sender, tx)
  }

  /** The state after a call: on an error the host reverts to the state before it. */
  function Apply(c: Crypto, s: State, call: Call): State {
    match Step(c, s, call)
    case Ok(t) => t
    case Err(_) => s
  }

  /** The state after running `calls` in order from `s`. */
  function Run(c: Crypto, s: State, calls: seq<Call>): State
    decreases |calls|
  {
    if |calls| == 0 then s
    else Apply(c, Run(c, s, calls[..|calls| - 1]), calls[|calls| - 1])
  }

  /**
   An `execute` whose outbound call fails is reverted as a whole: the flag it
   cleared is set again, so the same descriptor can be executed later.
   */
  lemma FailedExecuteIsReverted(c: Crypto, host: Host, s: State, sender: Address, tx: Descriptor, now: nat)
    requires ExecuteChecks(c, s, sender, tx, now).Ok?
    requires !host(ExecuteChecks(c, s, sender, tx, now).value, ExecuteOutcall(c, tx))
    ensures Step(c, s, ExecuteCall(sender, tx, now, host)) == Err(TxFailedError)
    ensures Apply(c, s, ExecuteCall(sender, tx, now, host)) == s
    ensures IsQueued(Apply(c, s, ExecuteCall(sender, tx, now, host)), c.txId(tx))
  {
  }

  /** `deposit` and `executeV2` succeed for any caller and never change the state. */
  lemma DepositAndExecuteV2ChangeNothing(c: Crypto, s: State, call: Call)
    requires call.DepositCall? || call.ExecuteV2Call?
    ensures Step(c, s, call) == Ok(s)
  {
  }

  /** The value-carrying call a public call sends out, if any. */
  function Dispatched(c: Crypto, s: State, call: Call): Option<OutboundCall> {
    match call
    case ExecuteCall(sender, tx, now, _) =>
      if ExecuteChecks(c, s, sender, tx, now).Ok? then Some(ExecuteOutcall(c, tx)) else None
    case ExecuteV2Call(_, target) => Some(ExecuteV2Outcall(target))
    case _ => None
  }

  /**
   Who can make the contract send value. A queued descriptor's call, carrying
   its value, leaves only on an `execute` by the owner that passed every check,
   and the success of that `execute` is exactly the success of that call. An
   `executeV2`, by anyone, sends one unit with empty calldata and succeeds
   whatever becomes of it. No other call sends anything.
   */
  lemma OutboundCallsAreGated(c: Crypto, s: State, call: Call)
    ensures Dispatched(c, s, call).Some? ==> call.ExecuteCall? || call.ExecuteV2Call?
    ensures call.ExecuteCall? && Dispatched(c, s, call).Some? ==>
              && call.sender == s.owner
              && IsQueued(s, c.txId(call.tx))
              && InGraceWindow(call.now, call.tx.timestamp)
              && Dispatched(c, s, call).value.target == call.tx.target
              && Dispatched(c, s, call).value.value == call.tx.value
    ensures call.ExecuteCall? ==>
              (Step(c, s, call).Ok? <==>
                 && Dispatched(c, s, call).Some?
                 && call.outcome(ExecuteChecks(c, s, call.sender, call.tx, call.now).value, Dispatched(c, s, call).value))
    ensures call.ExecuteV2Call? ==>
              && Dispatched(c, s, call).Some?
              && Dispatched(c, s, call).value.target == call.target
              && Dispatched(c, s, call).value.value == 1
              && Dispatched(c, s, call).value.calldata == []
              && Step(c, s, call) == Ok(s)
  {
  }

  /**
   Recovery after a failed call: an `execute` whose call fails is reverted, a
   `deposit` follows, and the same `execute` retried inside the grace window
   with a call that succeeds runs and clears the flag.
   */
  lemma RetryAfterFailedExecute(c: Crypto, s: State, tx: Descriptor, firstTry: nat, retry: nat, value: nat)
    requires ExecuteChecks(c, s, s.owner, tx, firstTry).Ok?
    requires InGraceWindow(retry, tx.timestamp)
    ensures var calls := [ExecuteCall(s.owner, tx, firstTry, (_, _) => false),
                          DepositCall(s.owner, value),
                          ExecuteCall(s.owner, tx, retry, (_, _) => true)];
            && Step(c, s, calls[0]) == Err(TxFailedError)
            && Run(c, s, calls[..2]) == s
            && Step(c, s, calls[2]).Ok?
            && !IsQueued(Run(c, s, calls), c.txId(tx))
  {
    var calls := [ExecuteCall(s.owner, tx, firstTry, (_, _) => false),
                  DepositCall(s.owner, value),
                  ExecuteCall(s.owner, tx, retry, (_, _) => true)];
    assert calls[..2][..1] == calls[..1];
    assert calls[..1][..0] == [];
    assert Run(c, s, calls[..1]) == s;
    assert calls[..3] == calls;
  }

  /** The owner changes in one call only when an unset owner is initialized. */
  lemma OwnerStep(c: Crypto, s: State, call: Call)
    ensures var t := Apply(c, s, call);
            t.owner == s.owner || (s.owner == ZERO_ADDRESS && call.InitializeCall? && t.owner == call.sender)
  {
  }

  /** Once the owner is set to a non-zero address, no sequence of calls changes it. */
  lemma {:induction false} OwnerFixedOnceSet(c: Crypto, s: State, calls: seq<Call>)
    requires s.owner != ZERO_ADDRESS
    ensures Run(c, s, calls).owner == s.owner
    decreases |calls|
  {
    if |calls| > 0 {
      OwnerFixedOnceSet(c, s, calls[..|calls| - 1]);
      OwnerStep(c, Run(c, s, calls[..|calls| - 1]), calls[|calls| - 1]);
    }
  }

  /** Calls by anyone other than an initialized owner leave the state exactly as it was. */
  lemma {:induction false} OutsidersChangeNothing(c: Crypto, s: State, calls: seq<Call>)
    requires s.owner != ZERO_ADDRESS
    requires forall i :: 0 <= i < |calls| ==> calls[i].sender != s.owner
    ensures Run(c, s, calls) == s
    decreases |calls|
  {
    if |calls| > 0 {
      var prefix := calls[..|calls| - 1];
      OutsidersChangeNothing(c, s, prefix);
    }
  }

  /**
   A flag goes from false to true only through a successful `queue` by the
   owner of a descriptor with that id, inside the delay window.
   */
  lemma FlagRaisedOnlyByQueue(c: Crypto, s: State, call: Call, id: TxId)
    requires !IsQueued(s, id) && IsQueued(Apply(c, s, call), id)
    ensures call.QueueCall? && c.txId(call.tx) == id && call.sender == s.owner
    ensures InDelayWindow(call.now, call.tx.timestamp)
    ensures Step(c, s, call).Ok?
  {
  }

  /**
   A flag goes from true to false only through a successful `execute` (inside
   the grace window) or `cancel` by the owner of a descriptor with that id.
   */
  lemma FlagClearedOnlyByExecuteOrCancel(c: Crypto, s: State, call: Call, id: TxId)
    requires IsQueued(s, id) && !IsQueued(Apply(c, s, call), id)
    ensures (call.ExecuteCall? || call.CancelCall?) && c.txId(call.tx) == id && call.sender == s.owner
    ensures call.ExecuteCall? ==> InGraceWindow(call.now, call.tx.timestamp)
    ensures Step(c, s, call).Ok?
    ensures call.ExecuteCall? ==>
              call.outcome(ExecuteChecks(c, s, call.sender, call.tx, call.now).value, ExecuteOutcall(c, call.tx))
  {
  }

  /** Without a `queue` of a descriptor with that id, an id that is not queued stays so. */
  lemma {:induction false} StaysUnqueuedWithoutQueue(c: Crypto, s: State, calls: seq<Call>, id: TxId)
    requires !IsQueued(s, id)
    requires forall i :: 0 <= i < |calls| && calls[i].QueueCall? ==> c.txId(calls[i].tx) != id
    ensures !IsQueued(Run(c, s, calls), id)
    decreases |calls|
  {
    if |calls| > 0 {
      var prefix := calls[..|calls| - 1];
      StaysUnqueuedWithoutQueue(c, s, prefix, id);
      if IsQueued(Run(c, s, calls), id) {
        FlagRaisedOnlyByQueue(c, Run(c, s, prefix), calls[|calls| - 1], id);
      }
    }
  }

  /** The first `k` calls, run from `s`, raise the flag of `id` only through a successful `queue` among them. */
  lemma {:induction false} RaisedBySomeQueue(c: Crypto, s: State, calls: seq<Call>, k: nat, id: TxId)
    requires k <= |calls|
    requires !IsQueued(s, id)
    ensures IsQueued(Run(c, s, calls[..k]), id) ==>
              exists j :: 0 <= j < k && calls[j].QueueCall? && c.txId(calls[j].tx) == id
                          && InDelayWindow(calls[j].now, calls[j].tx.timestamp)
                          && Step(c, Run(c, s, calls[..j]), calls[j]).Ok?
    decreases k
  {
    if k > 0 && IsQueued(Run(c, s, calls[..k]), id) {
      var before := Run(c, s, calls[..k - 1]);
      assert calls[..k][..k - 1] == calls[..k - 1];
      assert Run(c, s, calls[..k]) == Apply(c, before, calls[k - 1]);
      if IsQueued(before, id) {
        RaisedBySomeQueue(c, s, calls, k - 1, id);
      } else {
        FlagRaisedOnlyByQueue(c, before, calls[k - 1], id);
      }
    }
  }

  /**
   Starting from a state where its id is not queued, an `execute` that succeeds
   at position `i` of a sequence of calls was preceded by a successful `queue`
   of a descriptor with the same id, inside that queue's delay window.
   */
  lemma ExecutionRequiresEarlierQueue(c: Crypto, s: State, calls: seq<Call>, i: nat)
    requires i < |calls| && calls[i].ExecuteCall?
    requires !IsQueued(s, c.txId(calls[i].tx))
    requires Step(c, Run(c, s, calls[..i]), calls[i]).Ok?
    ensures exists j :: 0 <= j < i && calls[j].QueueCall? && c.txId(calls[j].tx) == c.txId(calls[i].tx)
                        && InDelayWindow(calls[j].now, calls[j].tx.timestamp)
                        && Step(c, Run(c, s, calls[..j]), calls[j]).Ok?
  {
    RaisedBySomeQueue(c, s, calls, i, c.txId(calls[i].tx));
  }

  /**
   The delay the contract exists to enforce: if no earlier `queue` in the
   sequence names a different descriptor with a colliding id, a successful
   `execute` at position `i` runs at least MIN_DELAY after a successful `queue`
   of the same descriptor.
   */
  lemma DelayIsEnforced(c: Crypto, s: State, calls: seq<Call>, i: nat)
    requires i < |calls| && calls[i].ExecuteCall?
    requires !IsQueued(s, c.txId(calls[i].tx))
    requires Step(c, Run(c, s, calls[..i]), calls[i]).Ok?
    requires forall j :: 0 <= j < i && calls[j].QueueCall? && c.txId(calls[j].tx) == c.txId(calls[i].tx) ==>
               calls[j].tx == calls[i].tx
    ensures exists j :: 0 <= j < i && calls[j].QueueCall? && calls[j].tx == calls[i].tx
                        && calls[j].now + MIN_DELAY <= calls[i].now
                        && Step(c, Run(c, s, calls[..j]), calls[j]).Ok?
  {
    ExecutionRequiresEarlierQueue(c, s, calls, i);
    var j :| 0 <= j < i && calls[j].QueueCall? && c.txId(calls[j].tx) == c.txId(calls[i].tx)
             && InDelayWindow(calls[j].now, calls[j].tx.timestamp)
             && Step(c, Run(c, s, calls[..j]), calls[j]).Ok?;
    assert calls[j].tx == calls[i].tx;
  }
}
