/**
 Properties relating several calls of the TimeLock contract: one-shot
 initialization, the inclusive boundaries of both time windows, the ordering of
 the failure checks, and the absence of double execution, both re-entrant and
 sequential.
 */
module TimeLockProperties {
  import opened TimeLockTypes
  import opened TimeLock

  /**
   The first successful `initialize` makes its caller the owner; once the owner
   is a non-zero address every later `initialize`, by anyone, fails and so
   leaves the state as it was. A zero-address caller leaves the contract
   uninitialized.
   */
  lemma InitializeIsOneShot(s: State, first: Address, later: Address)
    requires Initialize(s, first).Ok?
    ensures Owner(Initialize(s, first).value) == first
    ensures first != ZERO_ADDRESS ==> Initialize(Initialize(s, first).value, later) == Err(AlreadyInitialized)
    ensures first == ZERO_ADDRESS ==> Initialize(Initialize(s, first).value, later).Ok?
  {
  }

  /** A caller other than the owner is refused by every guarded operation before any other check. */
  lemma NonOwnerIsRefused(c: Crypto, host: Host, s: State, sender: Address, tx: Descriptor, now: nat)
    requires sender != Owner(s)
    ensures Queue(c, s, sender, tx, now) == Err(NotOwnerError)
    ensures Execute(c, host, s, sender, tx, now) == Err(NotOwnerError)
    ensures Cancel(c, s, sender, tx) == Err(NotOwnerError)
  {
  }

  /** Both ends of the queueing window are accepted and the values just outside it are refused. */
  lemma QueueWindowBoundaries(c: Crypto, s: State, tx: Descriptor, now: nat)
    requires !IsQueued(s, c.txId(tx))
    ensures tx.timestamp == now + MIN_DELAY ==> Queue(c, s, s.owner, tx, now).Ok?
    ensures tx.timestamp == now + MAX_DELAY ==> Queue(c, s, s.owner, tx, now).Ok?
    ensures tx.timestamp + 1 == now + MIN_DELAY ==>
              Queue(c, s, s.owner, tx, now) == Err(TimestampNotInRangeError(now, tx.timestamp))
    ensures tx.timestamp == now + MAX_DELAY + 1 ==>
              Queue(c, s, s.owner, tx, now) == Err(TimestampNotInRangeError(now, tx.timestamp))
  {
  }

  /**
   Queueing the same descriptor twice fails the second time with the
   duplicate error, whatever the clock says then, and that failure changes
   nothing.
   */
  lemma QueueTwiceFails(c: Crypto, s: State, sender: Address, tx: Descriptor, now: nat, later: nat)
    requires Queue(c, s, sender, tx, now).Ok?
    ensures Queue(c, Queue(c, s, sender, tx, now).value, sender, tx, later) == Err(AlreadyQueuedError(c.txId(tx)))
  {
  }

  /**
   For a queued descriptor and the owner as caller, execution is allowed exactly
   at the timestamp and exactly at the end of the grace period, and refused one
   unit before and one unit after, with the deadline carried in the error.
   */
  lemma ExecuteWindowBoundaries(c: Crypto, s: State, tx: Descriptor, now: nat)
    requires IsQueued(s, c.txId(tx))
    ensures now == tx.timestamp ==> ExecuteChecks(c, s, s.owner, tx, now).Ok?
    ensures now == tx.timestamp + GRACE_PERIOD ==> ExecuteChecks(c, s, s.owner, tx, now).Ok?
    ensures now + 1 == tx.timestamp ==>
              ExecuteChecks(c, s, s.owner, tx, now) == Err(TimestampNotPassedError(now, tx.timestamp))
    ensures now == tx.timestamp + GRACE_PERIOD + 1 ==>
              ExecuteChecks(c, s, s.owner, tx, now) == Err(TimestampExpiredError(now, tx.timestamp + GRACE_PERIOD))
  {
  }

  /**
   Checks-effects-interactions: in the state the outbound call observes, a
   re-entrant `execute` of the same descriptor fails, whoever calls and
   whatever the clock and the nested call's outcome, with the not-queued error
   when the caller is the owner.
   */
  lemma ReentrantExecuteFails(c: Crypto, s: State, sender: Address, tx: Descriptor, now: nat,
                              host: Host, reSender: Address, reNow: nat)
    requires ExecuteChecks(c, s, sender, tx, now).Ok?
    ensures var observed := ExecuteChecks(c, s, sender, tx, now).value;
            Execute(c, host, observed, reSender, tx, reNow) ==
              if reSender == observed.owner then Err(NotQueuedError(c.txId(tx))) else Err(NotOwnerError)
  {
  }

  /** After a successful `execute`, executing the same descriptor again fails: it is no longer queued. */
  lemma NoDoubleExecution(c: Crypto, host: Host, s: State, sender: Address, tx: Descriptor, now: nat,
                          host2: Host, later: nat)
    requires Execute(c, host, s, sender, tx, now).Ok?
    ensures Execute(c, host2, Execute(c, host, s, sender, tx, now).value, sender, tx, later)
              == Err(NotQueuedError(c.txId(tx)))
  {
  }

  /** After a successful `cancel`, executing or cancelling the same descriptor fails: it is no longer queued. */
  lemma CancelThenExecuteFails(c: Crypto, host: Host, s: State, sender: Address, tx: Descriptor, later: nat)
    requires Cancel(c, s, sender, tx).Ok?
    ensures Execute(c, host, Cancel(c, s, sender, tx).value, sender, tx, later) == Err(NotQueuedError(c.txId(tx)))
    ensures Cancel(c, Cancel(c, s, sender, tx).value, sender, tx) == Err(NotQueuedError(c.txId(tx)))
  {
  }

  /**
   A descriptor that was queued at `queuedAt` can only pass the execution
   checks at least MIN_DELAY and at most MAX_DELAY + GRACE_PERIOD later.
   */
  lemma QueueThenExecuteTiming(c: Crypto, s: State, s': State, sender: Address, sender': Address,
                               tx: Descriptor, queuedAt: nat, now: nat)
    requires Queue(c, s, sender, tx, queuedAt).Ok?
    requires ExecuteChecks(c, s', sender', tx, now).Ok?
    ensures queuedAt + MIN_DELAY <= now <= queuedAt + MAX_DELAY + GRACE_PERIOD
  {
  }

  /** Splitting built calldata gives back the selector and the arguments unchanged. */
  lemma CalldataRoundTrip(selectorHash: Bytes32, data: seq<byte>)
    ensures SplitCalldata(Calldata(selectorHash, data)) == (selectorHash[..4], data)
  {
  }

  /**
   Every calldata of at least four bytes is what `execute` builds from its
   arguments and any hash whose first four bytes are its selector.
   */
  lemma CalldataFromSplit(calldata: seq<byte>, selectorHash: Bytes32)
    requires |calldata| >= 4 && selectorHash[..4] == calldata[..4]
    ensures Calldata(selectorHash, SplitCalldata(calldata).1) == calldata
  {
  }

  /**
   The worked example: the owner queues at time 1000 for time 1010, execution
   at 1009 is too early, at 1010 it succeeds, a second execution at 1500 finds
   nothing queued, and queueing for time 2001 at time 1000 is out of range.
   */
  lemma Scenario(c: Crypto, owner: Address, target: Address) returns (s0: State, s1: State, s2: State)
    ensures var tx := Descriptor(target, 0, "foo()", [], 1010);
            && Initialize(Deployed, owner) == Ok(s0)
            && Queue(c, s0, owner, tx, 1000) == Ok(s1)
            && Execute(c, (_, _) => true, s1, owner, tx, 1009) == Err(TimestampNotPassedError(1009, 1010))
            && Execute(c, (_, _) => true, s1, owner, tx, 1010) == Ok(s2)
            && !IsQueued(s2, c.txId(tx))
            && Execute(c, (_, _) => true, s2, owner, tx, 1500) == Err(NotQueuedError(c.txId(tx)))
            && Queue(c, s0, owner, tx.(timestamp := 2001), 1000) == Err(TimestampNotInRangeError(1000, 2001))
  {
    var tx := Descriptor(target, 0, "foo()", [], 1010);
    s0 := Initialize(Deployed, owner).value;
    s1 := Queue(c, s0, owner, tx, 1000).value;
    s2 := Execute(c, (_, _) => true, s1, owner, tx, 1010).value;
  }
}
