# TimeLock, modelled in Dafny

`TimeLock` is a single-owner, delayed-execution gate written as one Stylus
(Arbitrum, Rust) contract. Its owner must first **queue** a call (target,
value, function signature, argument bytes, scheduled timestamp). The scheduled
timestamp must lie between `MIN_DELAY` = 10 and `MAX_DELAY` = 1000 time units
after the queueing time. The call may then be **executed** from its timestamp
until `GRACE_PERIOD` = 1000 units after it, or **cancelled** at any time. The
contract stores two things: an `owner` address and a map from transaction id
to a "queued" flag.

The model has four modules:

- `TimeLockTypes` (`timelock_types.dfy`): addresses (160-bit, zero meaning "no
  owner"), 32-byte digests, the transaction `Descriptor`, the error variants of
  `TimeLockError`, the three constants, and the two inclusive windows.
- `TimeLock` (`timelock.dfy`): the contract state and one pure function per
  public method. The state-changing ones return `Ok(new state)` or
  `Err(error)` and check their failure conditions in the same order as the
  contract; `Deposit` returns the state itself and `Owner`, the `owner()` read
  (src/lib.rs:95-97), returns the stored address. `execute` has two
  stages. `ExecuteChecks` does the checks and clears the flag; its result is
  the state the outbound call observes. `Execute` then asks the host for the
  call's outcome.
- `TimeLockProperties` (`timelock_properties.dfy`): lemmas relating several
  calls. They cover window boundaries, ordering of checks, re-entrancy, double
  execution, the calldata round trip and the worked example of a queue at time
  1000.
- `TimeLockTrace` (`timelock_trace.dfy`): arbitrary sequences of public calls,
  with inductive invariants. These say the owner is set at most once, outsiders
  change nothing, flags change only through the right operations, and every
  successful execution follows a queue made at least `MIN_DELAY` earlier.

Abstractions:

- The transaction id (Keccak-256 of the ABI encoding of the five parameters)
  and the Keccak-256 of the function signature are the two function fields of
  a `Crypto` value. Both are uninterpreted. Ids are not assumed injective,
  because a 32-byte digest of unbounded descriptors cannot be. The one lemma
  that needs distinct ids (`DelayIsEnforced`) states that as a precondition on
  the descriptors it talks about.
- The block timestamp is a `now: nat` argument and the caller is a `sender`
  argument.
- The outcome of `execute`'s outbound call is a `Host` function. It receives
  the state the callee can observe and the exact `OutboundCall` (target, value,
  calldata), and answers whether the call succeeded. In a call sequence each
  `execute` carries its own `Host`, so the same transaction can fail once and
  succeed when retried (`RetryAfterFailedExecute`).
- Host atomicity: a call that returns an error is reverted by the host, so its
  state is the state before the call (`TimeLockTrace.Apply`).

Read on its own, the contract text suggests that a failed outbound call in
`execute` leaves the flag cleared, so the transaction would have to be queued
again: the flag is cleared before the call (src/lib.rs:212-213) and
`TxFailedError` is returned without restoring it (src/lib.rs:241). But a Stylus
method that returns `Err` reverts all of its storage writes, so after such a
failure the flag is set again and the transaction can be retried. The model
follows the code under that host semantics (`FailedExecuteIsReverted`).

Two more behaviours of the code are modelled as written:

- `executeV2` sends one unit of value with empty calldata to any address
  (`ExecuteV2Outcall`), with no owner or id check, and ignores the outcome.
  `TimeLockTrace.Dispatched` gives the call each public call sends out, and
  `OutboundCallsAreGated` contrasts the two: a descriptor's value leaves only
  on an owner's `execute` that passed every check, while `executeV2` sends for
  every caller.
- Before `initialize`, the stored owner is the zero address. So a caller whose
  address is zero would pass the owner check, and initializing with a zero
  caller leaves the contract uninitialized (`InitializeIsOneShot`). On the EVM
  no transaction comes from the zero address.

## Model

| member | source | states |
|---|---|---|
| TimeLock.Initialize | src/lib.rs:87-93 | succeeds exactly when the owner is the zero address; it then sets the owner to the caller and leaves the flags alone, otherwise fails `AlreadyInitialized` |
| TimeLock.Deposit | src/lib.rs:126-129 | the payable entry point changes neither the owner nor any flag |
| TimeLock.Queue | src/lib.rs:132-162 | a non-owner gets `NotOwnerError`; then an already queued id gets `AlreadyQueuedError(id)`; then a timestamp outside the inclusive delay window gets `TimestampNotInRangeError(now, timestamp)`; it succeeds exactly when all three checks pass, and then sets only this id's flag |
| TimeLock.ExecuteChecks | src/lib.rs:184-213 | refuses a non-owner, then an id that is not queued, then a time before the timestamp, then a time after timestamp + `GRACE_PERIOD` (with that deadline in the error); it succeeds exactly inside the inclusive window, and the observed state has only this id's flag cleared |
| TimeLock.Calldata | src/lib.rs:218-224 | the calldata is four bytes longer than the data, starts with the first four bytes of the signature hash and continues with the argument bytes unchanged |
| TimeLock.SplitCalldata | src/lib.rs:224 | splits calldata into a 4-byte selector and a rest that concatenate back to it |
| TimeLock.ExecuteOutcall | src/lib.rs:218-227 | the dispatched call goes to the descriptor's target with its value, and its calldata splits into the selector of `func` and the descriptor's data |
| TimeLock.Execute | src/lib.rs:177-243 | a failed check is returned as is; otherwise it succeeds exactly when the host reports success for the call dispatched from the observed state, failing `TxFailedError` otherwise; on success the final state is the observed state, since nothing is written after the call |
| TimeLock.ExecuteV2 | src/lib.rs:245-252 | for every caller it returns `Ok` and leaves the state unchanged; the outcome of its call is discarded, so it is no input |
| TimeLock.ExecuteV2Outcall | src/lib.rs:246-250 | the call `executeV2` dispatches goes to the given target with value 1 and empty calldata |
| TimeLock.Cancel | src/lib.rs:254-286 | refuses a non-owner, then an id that is not queued, with no timing check; on success only this id's flag is cleared |
| TimeLockProperties.InitializeIsOneShot | src/lib.rs:87-97 | after a successful `initialize` the owner read returns the caller; once that caller is non-zero, every later `initialize` fails `AlreadyInitialized` |
| TimeLockProperties.NonOwnerIsRefused | src/lib.rs:140-144 | `queue`, `execute` and `cancel` called by anyone but the owner fail `NotOwnerError` before any other check (the same guard is at lines 186-189 and 263-266) |
| TimeLockProperties.QueueWindowBoundaries | src/lib.rs:153-158 | a timestamp of exactly now + `MIN_DELAY` or now + `MAX_DELAY` is accepted; one unit below the first or above the second is refused |
| TimeLockProperties.QueueTwiceFails | src/lib.rs:148-151 | queueing the same descriptor a second time fails `AlreadyQueuedError(id)` at any later time |
| TimeLockProperties.ExecuteWindowBoundaries | src/lib.rs:201-209 | execution at exactly the timestamp and at exactly timestamp + `GRACE_PERIOD` passes the checks; one unit before is `TimestampNotPassedError`, one unit after is `TimestampExpiredError` carrying the deadline |
| TimeLockProperties.ReentrantExecuteFails | src/lib.rs:211-227 | in the state the outbound call observes, a re-entrant `execute` of the same descriptor fails: `NotQueuedError` for the owner, `NotOwnerError` for anyone else |
| TimeLockProperties.NoDoubleExecution | src/lib.rs:193-213 | after a successful `execute`, executing the same descriptor again fails `NotQueuedError`, at any time and for any call outcome |
| TimeLockProperties.CancelThenExecuteFails | src/lib.rs:270-277 | after a successful `cancel`, both `execute` and `cancel` of the same descriptor fail `NotQueuedError` |
| TimeLockProperties.QueueThenExecuteTiming | src/lib.rs:153-209 | a descriptor queued at time q passes the execution checks only between q + `MIN_DELAY` and q + `MAX_DELAY` + `GRACE_PERIOD` |
| TimeLockProperties.CalldataRoundTrip | src/lib.rs:224 | splitting built calldata returns the 4-byte selector and the data unchanged |
| TimeLockProperties.CalldataFromSplit | src/lib.rs:224 | any calldata of at least four bytes is rebuilt from its split parts and a hash with that selector |
| TimeLockProperties.Scenario | src/lib.rs:132-243 | the worked example: queue at 1000 for 1010, too early at 1009, success at 1010, `NotQueuedError` at 1500, and queueing for 2001 at 1000 out of range |
| TimeLockTrace.FailedExecuteIsReverted | src/lib.rs:240-241 | when the outbound call fails, `execute` reports `TxFailedError` and the reverted state still has the id queued |
| TimeLockTrace.OutboundCallsAreGated | src/lib.rs:218-252 | only `execute` and `executeV2` send a call; an `execute` sends one (to the descriptor's target, with its value) only for the owner, a queued id and a time in the grace window, and succeeds exactly when that call does; `executeV2` sends value 1 with empty calldata to the given target for every caller and returns `Ok` with the state unchanged |
| TimeLockTrace.RetryAfterFailedExecute | src/lib.rs:211-241 | an `execute` whose call fails reports `TxFailedError` and, with a `deposit` after it, leaves the state as it was; retried in the grace window with a call that succeeds, it runs and clears the flag |
| TimeLockTrace.DepositAndExecuteV2ChangeNothing | src/lib.rs:245-252 | `deposit` and `executeV2` succeed for every caller and leave owner and flags untouched |
| TimeLockTrace.OwnerStep | src/lib.rs:88-91 | one call changes the owner only by initializing an unset owner to the caller |
| TimeLockTrace.OwnerFixedOnceSet | src/lib.rs:88-91 | once the owner is non-zero, no sequence of calls changes it |
| TimeLockTrace.OutsidersChangeNothing | src/lib.rs:140-144 | after initialization, any sequence of calls by non-owners leaves the whole state unchanged |
| TimeLockTrace.FlagRaisedOnlyByQueue | src/lib.rs:160-162 | a flag turns true only through a successful owner `queue` of a descriptor with that id, inside the delay window |
| TimeLockTrace.FlagClearedOnlyByExecuteOrCancel | src/lib.rs:211-213 | a flag turns false only through a successful owner `execute` inside the grace window (whose outbound call the host accepted) or a successful owner `cancel` of a descriptor with that id |
| TimeLockTrace.StaysUnqueuedWithoutQueue | src/lib.rs:160-162 | an id that is not queued stays so over any sequence of calls that queues no descriptor with that id |
| TimeLockTrace.RaisedBySomeQueue | src/lib.rs:160-162 | if a prefix of a call sequence leaves an id queued that was not queued at the start, one of its calls was a successful `queue` for that id |
| TimeLockTrace.ExecutionRequiresEarlierQueue | src/lib.rs:193-196 | a successful `execute` in a sequence was preceded by a successful `queue` of a descriptor with the same id |
| TimeLockTrace.DelayIsEnforced | src/lib.rs:153-204 | when ids do not collide, a successful `execute` runs at least `MIN_DELAY` after a successful `queue` of the same descriptor |

## Left out

- The transaction id (src/lib.rs:100-124) is left uninterpreted. It is the ABI encoding of the five parameters hashed with Keccak-256, and both are foreign library code. The model does not prove collision resistance.
- The Keccak-256 of the function signature is also uninterpreted. Only its first four bytes and the concatenation are modelled.
- The outbound calls of `execute` and `executeV2` (dispatch, value transfer, code run by the target) are replaced by the `Host` outcome function for `execute` and by nothing for `executeV2`, whose outcome is ignored; nested call sequences run by the target are not modelled. Re-entrant calls are covered only by a lemma about the observed state (`ReentrantExecuteFails`). A callee could re-enter with the owner's rights, for example an owner contract that receives `executeV2`'s one unit of value and calls `queue`, `cancel` or, while the owner is unset, `initialize`. Therefore every statement about the state after a single `Execute` or `ExecuteV2`, and every lemma about `Apply` or `Run`, holds only when the callee makes no nested calls into the contract. That covers `TimeLock.Execute` ("the final state is the observed state"), `TimeLock.ExecuteV2`, `TimeLockProperties.NoDoubleExecution`, `TimeLockProperties.Scenario` and every lemma of `TimeLockTrace`: `FailedExecuteIsReverted`, `DepositAndExecuteV2ChangeNothing`, `OutboundCallsAreGated`, `RetryAfterFailedExecute`, `OwnerStep`, `OwnerFixedOnceSet`, `OutsidersChangeNothing`, `FlagRaisedOnlyByQueue`, `FlagClearedOnlyByExecuteOrCancel`, `StaysUnqueuedWithoutQueue`, `RaisedBySomeQueue`, `ExecutionRequiresEarlierQueue` and `DelayIsEnforced`.
- The state of other contracts is not modelled. Whatever it decides about an `execute`'s outbound call is folded into that call's own `Host`, chosen per call in a sequence.
- Events (`Queue`, `Execute`, `Cancel`) are not modelled. They change no contract state.
- Storage layout, ABI plumbing and the host's revert machinery are left out. The only host behaviour kept is "an error leaves the pre-call state".
- 256-bit and 64-bit widths are not modelled. Values and timestamps are unbounded `nat`.
  - The sums at src/lib.rs:154-155 add small constants to a 64-bit clock and cannot overflow.
  - The sum at src/lib.rs:207 can only overflow for a timestamp within 1000 of 2^256. Such a timestamp is never accepted by `queue`.
