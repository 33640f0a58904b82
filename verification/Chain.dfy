/** The parts of a Sequentia transaction the platform builds, and lock times. */
module Chain {
  /** Hashes and identifiers are opaque; numbers stand for them. */
  type Txid = nat
  type Asset = nat
  type SubId = nat
  type Script = nat

  /** The empty script, which marks a fee output and a missing payout script. */
  const NO_SCRIPT: Script := 0

  datatype Outpoint = Outpoint(txid: Txid, vout: nat)

  datatype TxIn = TxIn(prevout: Outpoint, sequence: nat)

  datatype Value = Explicit(atoms: nat) | Confidential

  datatype TxOut = TxOut(asset: Asset, value: Value, nonce: seq<nat>, script: Script)

  datatype Tx = Tx(lockTime: nat, ins: seq<TxIn>, outs: seq<TxOut>)

  const NULL_NONCE: seq<nat> := [0]
  const FINAL_SEQUENCE: nat := 0xffff_ffff
  const ESCROW_SEQUENCE: nat := 0xffff_fffe

  /** A lock below this is a block height, at or above it a unix time. */
  const LOCKTIME_THRESHOLD: nat := 500_000_000

  /** An explicit output with a null nonce. */
  function PlainOut(asset: Asset, atoms: nat, script: Script): TxOut {
    TxOut(asset, Explicit(atoms), NULL_NONCE, script)
  }

  function OutAtoms(outs: seq<TxOut>): (r: seq<nat>)
    ensures |r| == |outs|
    ensures forall i :: 0 <= i < |outs| && outs[i].value.Explicit? ==> r[i] == outs[i].value.atoms
  {
    seq(|outs|, i requires 0 <= i < |outs| =>
      if outs[i].value.Explicit? then outs[i].value.atoms else 0)
  }

  // ---- lock times ----

  predicate SameUnit(a: nat, b: nat) {
    a < LOCKTIME_THRESHOLD <==> b < LOCKTIME_THRESHOLD
  }

  /** The platform's test that a transaction locked at lock can be mined next. */
  predicate LockReached(lock: nat, tip: int, mtp: int) {
    if lock < LOCKTIME_THRESHOLD then tip >= lock else mtp > lock
  }

  /** The consensus finality rule for a block on top of tip: its height exceeds a
      height lock, or the median time past exceeds a time lock. */
  predicate FinalInNextBlock(tx: Tx, tip: int, mtp: int) {
    || tx.lockTime == 0
    || (if tx.lockTime < LOCKTIME_THRESHOLD then tx.lockTime < tip + 1 else tx.lockTime < mtp)
    || (forall i :: 0 <= i < |tx.ins| ==> tx.ins[i].sequence == FINAL_SEQUENCE)
  }

  /** OP_CHECKLOCKTIMEVERIFY, as the Summary of BIP 65 lists it: the operand and
      the transaction's lock time are of one unit, the operand is not above it,
      and the input's sequence is not final. */
  predicate CheckLockTime(operand: nat, tx: Tx, k: nat)
    requires k < |tx.ins|
  {
    && SameUnit(operand, tx.lockTime)
    && operand <= tx.lockTime
    && tx.ins[k].sequence != FINAL_SEQUENCE
  }
}
