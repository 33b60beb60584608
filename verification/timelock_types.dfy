/**
 Values the TimeLock contract works with: addresses, byte strings, the
 transaction descriptor, the abstract hashing it relies on, the error
 variants it reports and the delay constants.
 */
module TimeLockTypes {

  type byte = bv8

  /** An EVM address is a 160-bit value; the all-zero address means "no owner". */
  const ADDRESS_BOUND: nat := 0x1_0000_0000_0000_0000_0000_0000_0000_0000_0000_0000
  type Address = a: nat | a < ADDRESS_BOUND

  const ZERO_ADDRESS: Address := 0

  /** A 32-byte digest, used both as transaction id and as Keccak-256 output. */
  type Bytes32 = s: seq<byte> | |s| == 32 witness seq(32, _ => 0 as byte)

  type TxId = Bytes32

  /** Minimum delay between queueing time and the scheduled timestamp. */
  const MIN_DELAY: nat := 10
  /** Maximum delay between queueing time and the scheduled timestamp. */
  const MAX_DELAY: nat := 1000
  /** How long after its timestamp a queued transaction may still be executed. */
  const GRACE_PERIOD: nat := 1000

  /** The five parameters every queue/execute/cancel call takes. */
  datatype Descriptor = Descriptor(
    target: Address,
    value: nat,
    func: string,
    data: seq<byte>,
    timestamp: nat)

  /**
   The foreign hashing the contract calls. `txId` stands for Keccak-256 of the
   ABI encoding of a descriptor; `keccak` for Keccak-256 of a function
   signature's bytes. Both are left uninterpreted.
   */
  datatype Crypto = Crypto(txId: Descriptor -> TxId, keccak: string -> Bytes32)

  /** The revert reasons of the contract, with the values they carry. */
  datatype TimeLockError =
    | AlreadyInitialized
    | NotOwnerError
    | AlreadyQueuedError(txId: TxId)
    | TimestampNotInRangeError(blockTimestamp: nat, timestamp: nat)
    | NotQueuedError(txId: TxId)
    | TimestampNotPassedError(blockTimestamp: nat, timestamp: nat)
    | TimestampExpiredError(blockTimestamp: nat, expiresAt: nat)
    | TxFailedError

  datatype Result<+T> = Ok(value: T) | Err(error: TimeLockError)

  datatype Option<+T> = None | Some(value: T)

  /** The inclusive window a timestamp must fall in when it is queued at `now`. */
  predicate InDelayWindow(now: nat, timestamp: nat) {
    now + MIN_DELAY <= timestamp <= now + MAX_DELAY
  }

  /** The inclusive window in which a transaction scheduled at `timestamp` may run. */
  predicate InGraceWindow(now: nat, timestamp: nat) {
    timestamp <= now <= timestamp + GRACE_PERIOD
  }
}
