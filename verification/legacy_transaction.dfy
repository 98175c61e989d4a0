/** The older transaction (lib/Transaction.js): a plain three-field record whose one method
    builds a details object. It carries no hash, timestamp or signature, and it defines no
    `validateSignature`. */
module LegacyTransactions {
  import opened Js

  /** `new Transaction(sender, receiver, amount)`: the constructor stores the three values
      unchanged, and no method assigns them afterwards. */
  datatype Transaction = Transaction(sender: Address, receiver: Address, amount: int)

  /** The object `generateTransactionDetails` returns: exactly the keys sender, receiver, amount. */
  datatype Details = Details(sender: Address, receiver: Address, amount: int)

  function GenerateTransactionDetails(t: Transaction): (d: Details)
    ensures d.sender == t.sender && d.receiver == t.receiver && d.amount == t.amount
  {
    Details(t.sender, t.receiver, t.amount)
  }

  /** Building the record back from its details: the inverse of `GenerateTransactionDetails`. */
  function FromDetails(d: Details): Transaction
  {
    Transaction(d.sender, d.receiver, d.amount)
  }

  /** The details lose nothing: they convert back to the same record, and vice versa. */
  lemma DetailsRoundTrip(t: Transaction, d: Details)
    ensures FromDetails(GenerateTransactionDetails(t)) == t
    ensures GenerateTransactionDetails(FromDetails(d)) == d
  {
  }
}
