/** What the models share: the reference to one output of one transaction, and queries that may fail. */
module Outpoints {

  type Txid = string

  datatype Outpoint = Outpoint(txid: Txid, vout: nat)

  datatype Option<+T> = None | Some(value: T)

  /** Whether a query fails this time; it does not while what it asks is up. */
  method Fails(up: bool) returns (fails: bool)
    ensures up ==> !fails
  {
    fails := *;
    fails := fails && !up;
  }
}
