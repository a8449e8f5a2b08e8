/** The backward scan of CShroudnode::UpdateLastPaid, as a function on an
    abstract chain. `chain[0]` is the block the scan starts from and
    `chain[i + 1]` is the predecessor (pprev) of `chain[i]`; the last element
    has no predecessor. The per-height payee-vote tally, the block read from
    disk and the scheduled payment are carried by each block. */
module Payout {
  import opened ShroudTypes

  datatype TxOut = TxOut(script: Script, value: int)

  datatype Block = Block(
    height: int,
    time: int,
    payeeVotes: map<Script, nat>,  // mnpayments.mapShroudnodeBlocks at this height
    readOk: bool,                  // ReadBlockFromDisk succeeded
    coinbase: seq<TxOut>,          // block.vtx[0].vout
    scheduledPayment: int)         // GetShroudnodePayment(height)

  /** At least two votes name this payee at the block's height. */
  predicate HasPayeeWithVotes(b: Block, payee: Script)
  {
    payee in b.payeeVotes && b.payeeVotes[payee] >= 2
  }

  /** The coinbase has an output paying the payee exactly the scheduled amount. */
  predicate PaysExactly(b: Block, payee: Script)
  {
    exists k :: 0 <= k < |b.coinbase| && b.coinbase[k] == TxOut(payee, b.scheduledPayment)
  }

  /** A payment the scan accepts: voted for, readable, and really paid. */
  predicate ConfirmedPayment(b: Block, payee: Script)
  {
    HasPayeeWithVotes(b, payee) && b.readOk && PaysExactly(b, payee)
  }

  /** The index of the block the scan stops at, starting at `cur` with
      `budget` iterations left, or None when it finds nothing. A voted block
      that cannot be read costs an iteration without moving to the
      predecessor, as the source's `continue` does. */
  function FindPaidBlock(chain: seq<Block>, cur: nat, budget: nat, lastPaid: int, payee: Script): (r: Option<nat>)
    ensures r.Some? ==> cur <= r.value < |chain| && r.value - cur < budget
    ensures r.Some? ==> ConfirmedPayment(chain[r.value], payee)
    ensures r.Some? ==> forall j :: cur <= j <= r.value ==> chain[j].height > lastPaid
    ensures r.Some? ==> forall j :: cur <= j < r.value ==> !ConfirmedPayment(chain[j], payee)
    decreases budget
  {
    if cur >= |chain| || budget == 0 || chain[cur].height <= lastPaid then None
    else if HasPayeeWithVotes(chain[cur], payee) && !chain[cur].readOk then
      FindPaidBlock(chain, cur, budget - 1, lastPaid, payee)
    else if HasPayeeWithVotes(chain[cur], payee) && PaysExactly(chain[cur], payee) then Some(cur)
    else if cur + 1 == |chain| then None
    else FindPaidBlock(chain, cur + 1, budget - 1, lastPaid, payee)
  }

  /** With every block readable, the scan misses no confirmed payment that
      lies within its budget above the last known paid height. */
  lemma {:induction false} NoPaymentMissed(chain: seq<Block>, cur: nat, budget: nat, lastPaid: int,
                                           payee: Script, j: nat)
    requires forall k :: 0 <= k < |chain| ==> chain[k].readOk
    requires cur <= j < |chain| && j - cur < budget
    requires forall k :: cur <= k <= j ==> chain[k].height > lastPaid
    requires ConfirmedPayment(chain[j], payee)
    ensures FindPaidBlock(chain, cur, budget, lastPaid, payee).Some?
    decreases j - cur
  {
    if !ConfirmedPayment(chain[cur], payee) {
      assert cur < j;
      NoPaymentMissed(chain, cur + 1, budget - 1, lastPaid, payee, j);
    }
  }

  /** A voted block that cannot be read ends the scan without a result:
      every remaining iteration re-reads the same block. */
  lemma {:induction false} StuckOnUnreadableBlock(chain: seq<Block>, cur: nat, budget: nat, lastPaid: int, payee: Script)
    requires cur < |chain| && HasPayeeWithVotes(chain[cur], payee) && !chain[cur].readOk
    ensures FindPaidBlock(chain, cur, budget, lastPaid, payee) == None
    decreases budget
  {
    if budget > 0 && chain[cur].height > lastPaid {
      StuckOnUnreadableBlock(chain, cur, budget - 1, lastPaid, payee);
    }
  }
}
