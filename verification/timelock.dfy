/**
 The TimeLock contract as pure transitions over an immutable state: an owner
 slot and a map from transaction id to a "queued" flag. Each public method is a
 function returning either the new state or the error it reverts with; the
 clock, the caller, the hashing and the outcome of the outbound call are
 parameters.
 */
module TimeLock {
  import opened TimeLockTypes

  /** The two storage slots of the contract. A missing key reads as `false`. */
  datatype State = State(owner: Address, queued: map<TxId, bool>)

  /** The state of a freshly deployed contract. */
  const Deployed: State := State(ZERO_ADDRESS, map[])

  predicate IsQueued(s: State, id: TxId) {
    id in s.queued && s.queued[id]
  }

  /** `t` agrees with `s` on the owner and on every flag except the one for `id`. */
  ghost predicate SameExcept(s: State, t: State, id: TxId) {
    && t.owner == s.owner
    && forall k :: k != id ==> IsQueued(t, k) == IsQueued(s, k)
  }

  /** A value-carrying call the contract sends to another address. */
  datatype OutboundCall = OutboundCall(target: Address, value: nat, calldata: seq<byte>)

  /**
   The environment's answer to an outbound call: whether it succeeded, given the
   call and the contract state the callee can observe while it runs.
   */
  type Host = (State, OutboundCall) -> bool

  /** The public `owner()` read. */
  function Owner(s: State): Address {
    s.owner
  }

  /** Sets the caller as owner, once. */
  function Initialize(s: State, sender: Address): (r: Result<State>)
    ensures r.Ok? <==> s.owner == ZERO_ADDRESS
    ensures r.Err? ==> r.error == AlreadyInitialized
    ensures r.Ok? ==> r.value.owner == sender && r.value.queued == s.queued
  {
    if s.owner != ZERO_ADDRESS then Err(AlreadyInitialized)
    else Ok(s.(owner := sender))
  }

  /** The payable entry point: accepts value and touches no contract storage. */
  function Deposit(s: State, sender: Address, value: nat): (r: State)
    ensures r.owner == s.owner && r.queued == s.queued
  {
    s
  }

  /** Commits to running `tx` at `tx.timestamp`. */
  function Queue(c: Crypto, s: State, sender: Address, tx: Descriptor, now: nat): (r: Result<State>)
    ensures sender != s.owner ==> r == Err(NotOwnerError)
    ensures sender == s.owner && IsQueued(s, c.txId(tx)) ==> r == Err(AlreadyQueuedError(c.txId(tx)))
    ensures sender == s.owner && !IsQueued(s, c.txId(tx)) && !InDelayWindow(now, tx.timestamp) ==>
              r == Err(TimestampNotInRangeError(now, tx.timestamp))
    ensures r.Ok? <==> sender == s.owner && !IsQueued(s, c.txId(tx)) && InDelayWindow(now, tx.timestamp)
    ensures r.Ok? ==> IsQueued(r.value, c.txId(tx)) && SameExcept(s, r.value, c.txId(tx))
  {
    if s.owner != sender then Err(NotOwnerError)
    else
      var id := c.txId(tx);
      if IsQueued(s, id) then Err(AlreadyQueuedError(id))
      else if tx.timestamp < now + MIN_DELAY || tx.timestamp > now + MAX_DELAY then
        Err(TimestampNotInRangeError(now, tx.timestamp))
      else
        Ok(s.(queued := s.queued[id := true]))
  }

  /**
   The checks and effects of `execute`: everything it does before the outbound
   call. The resulting state is the one the callee observes.
   */
  function ExecuteChecks(c: Crypto, s: State, sender: Address, tx: Descriptor, now: nat): (r: Result<State>)
    ensures sender != s.owner ==> r == Err(NotOwnerError)
    ensures sender == s.owner && !IsQueued(s, c.txId(tx)) ==> r == Err(NotQueuedError(c.txId(tx)))
    ensures sender == s.owner && IsQueued(s, c.txId(tx)) && now < tx.timestamp ==>
              r == Err(TimestampNotPassedError(now, tx.timestamp))
    ensures sender == s.owner && IsQueued(s, c.txId(tx)) && now > tx.timestamp + GRACE_PERIOD ==>
              r == Err(TimestampExpiredError(now, tx.timestamp + GRACE_PERIOD))
    ensures r.Ok? <==> sender == s.owner && IsQueued(s, c.txId(tx)) && InGraceWindow(now, tx.timestamp)
    ensures r.Ok? ==> !IsQueued(r.value, c.txId(tx)) && SameExcept(s, r.value, c.txId(tx))
  {
    if s.owner != sender then Err(NotOwnerError)
    else
      var id := c.txId(tx);
      if !IsQueued(s, id) then Err(NotQueuedError(id))
      else if now < tx.timestamp then Err(TimestampNotPassedError(now, tx.timestamp))
      else if now > tx.timestamp + GRACE_PERIOD then
        Err(TimestampExpiredError(now, tx.timestamp + GRACE_PERIOD))
      else
        Ok(s.(queued := s.queued[id := false]))
  }

  /** The first four bytes of the signature's hash followed by the arguments. */
  function Calldata(selectorHash: Bytes32, data: seq<byte>): (r: seq<byte>)
    ensures |r| == 4 + |data|
    ensures r[..4] == selectorHash[..4] && r[4..] == data
  {
    selectorHash[..4] + data
  }

  /** Splits calldata into its 4-byte selector and its argument bytes. */
  function SplitCalldata(calldata: seq<byte>): (r: (seq<byte>, seq<byte>))
    requires |calldata| >= 4
    ensures |r.0| == 4 && r.0 + r.1 == calldata
  {
    (calldata[..4], calldata[4..])
  }

  /** The call `execute` dispatches for `tx`. */
  function ExecuteOutcall(c: Crypto, tx: Descriptor): (r: OutboundCall)
    ensures r.target == tx.target && r.value == tx.value
    ensures |r.calldata| == 4 + |tx.data|
    ensures SplitCalldata(r.calldata) == (c.keccak(tx.func)[..4], tx.data)
  {
    OutboundCall(tx.target, tx.value, Calldata(c.keccak(tx.func), tx.data))
  }

  /**
   Runs a queued transaction: the checks and the clearing of the flag, then the
   outbound call, whose callee sees the cleared flag. Nothing is written after
   the call, so on success the final state is the one the callee observed.
   */
  function Execute(c: Crypto, host: Host, s: State, sender: Address, tx: Descriptor, now: nat): (r: Result<State>)
    ensures ExecuteChecks(c, s, sender, tx, now).Err? ==> r == ExecuteChecks(c, s, sender, tx, now)
    ensures r.Ok? <==>
              && ExecuteChecks(c, s, sender, tx, now).Ok?
              && host(ExecuteChecks(c, s, sender, tx, now).value, ExecuteOutcall(c, tx))
    ensures ExecuteChecks(c, s, sender, tx, now).Ok? && r.Err? ==> r.error == TxFailedError
    ensures r.Ok? ==> r.value == ExecuteChecks(c, s, sender, tx, now).value
  {
    match ExecuteChecks(c, s, sender, tx, now)
    case Err(e) => Err(e)
    case Ok(observed) =>
      if host(observed, ExecuteOutcall(c, tx)) then Ok(observed) else Err(TxFailedError)
  }

  /**
   Sends `ExecuteV2Outcall(target)` with no owner or id check and ignores
   whether that call succeeded, so its outcome is not a parameter here.
   */
  function ExecuteV2(s: State, sender: Address, target: Address): (r: Result<State>)
    ensures r == Ok(s)
  {
    Ok(s)
  }

  /** The call `executeV2` dispatches: one unit of value and no calldata. */
  function ExecuteV2Outcall(target: Address): (r: OutboundCall)
    ensures r.target == target && r.value == 1 && |r.calldata| == 0
  {
    OutboundCall(target, 1, [])
  }

  /** Withdraws a queued transaction; there is no timing check. */
  function Cancel(c: Crypto, s: State, sender: Address, tx: Descriptor): (r: Result<State>)
    ensures sender != s.owner ==> r == Err(NotOwnerError)
    ensures sender == s.owner && !IsQueued(s, c.txId(tx)) ==> r == Err(NotQueuedError(c.txId(tx)))
    ensures r.Ok? <==> sender == s.owner && IsQueued(s, c.txId(tx))
    ensures r.Ok? ==> !IsQueued(r.value, c.txId(tx)) && SameExcept(s, r.value, c.txId(tx))
  {
    if s.owner != sender then Err(NotOwnerError)
    else
      var id := c.txId(tx);
      if !IsQueued(s, id) then Err(NotQueuedError(id))
      else Ok(s.(queued := s.queued[id := false]))
  }
}
