/** The newer transaction (src/Transaction.js): sender, receiver, amount and creation time,
    a hash computed once at construction, and a signature that `sign` may set. The object
    is the class below; pools and blocks hold its value, `Tx`. */
module Transactions {
  import opened Js

  /** The signing key: its public id (`getPublic`) and its signing operation
      (`generateSignature`), both opaque here. */
  datatype Signer = Signer(publicKey: string, generateSignature: string -> string)

  /** The hasher applied to sender, receiver, amount and timestamp at construction. Which of
      the four arguments the library really digests is not visible, so nothing is assumed of it. */
  type TxHasher = (Address, Address, int, string) -> string

  /** The state of a transaction object. */
  datatype Tx = Tx(sender: Address, receiver: Address, amount: int, timestamp: string,
                   hash: string, signature: Option<string>)

  /** The object `generateTransactionDetails` builds: every field but the hash. */
  datatype Details = Details(sender: Address, receiver: Address, amount: int, timestamp: string,
                             signature: Option<string>)

  /** JavaScript truthiness of the signature slot: `undefined` and `''` are falsy. */
  predicate Truthy(signature: Option<string>)
  {
    signature.Some? && signature.value != ""
  }

  const NoSignatureNeeded := "No signature required for this transaction"
  const InvalidSignaturePrefix := "INVALID SIGNATURE. HASH: "

  /** `validateSignature`: transactions from `null` need no signature; any other needs a
      truthy signature, which is returned as the message. Only presence is checked: the
      signature is never verified against the sender or the hash. */
  function ValidateSignature(t: Tx): (r: Check)
    ensures t.sender == NullAddress ==> r == Check(true, NoSignatureNeeded)
    ensures t.sender != NullAddress ==> (r.ok <==> Truthy(t.signature))
    ensures t.sender != NullAddress && r.ok ==> r.message == t.signature.value
    ensures !r.ok ==> |r.message| >= |t.hash| && r.message[|r.message| - |t.hash|..] == t.hash
  {
    if t.sender == NullAddress then Check(true, NoSignatureNeeded)
    else if !Truthy(t.signature) then Check(false, InvalidSignaturePrefix + t.hash)
    else Check(true, t.signature.value)
  }

  /** The effect of `sign(key)` on a transaction's state. A key whose public id is not the
      sender changes nothing (the error is only logged); a matching key stores its signature
      of the hash. */
  function Signed(t: Tx, key: Signer): (r: Tx)
    ensures r.sender == t.sender && r.receiver == t.receiver && r.amount == t.amount
    ensures r.timestamp == t.timestamp && r.hash == t.hash
    ensures Address(key.publicKey) != t.sender ==> r == t
    ensures Address(key.publicKey) == t.sender ==> r.signature == Some(key.generateSignature(t.hash))
  {
    if Address(key.publicKey) != t.sender then t
    else t.(signature := Some(key.generateSignature(t.hash)))
  }

  /** `generateTransactionDetails`: the stored fields, without the hash. */
  function DetailsOf(t: Tx): (d: Details)
    ensures d.sender == t.sender && d.receiver == t.receiver && d.amount == t.amount
    ensures d.signature == t.signature && d.timestamp == t.timestamp
  {
    Details(t.sender, t.receiver, t.amount, t.timestamp, t.signature)
  }

  /** The details together with the hash give back the whole transaction: the details
      leave out the hash and nothing else. */
  lemma DetailsAndHashDetermine(t: Tx, u: Tx)
    ensures DetailsOf(t) == DetailsOf(u) && t.hash == u.hash <==> t == u
  {
  }

  /** Signing with the sender's own key makes the transaction pass `validateSignature`,
      provided the signer produced a non-empty signature. */
  lemma SignedBySenderValidates(t: Tx, key: Signer)
    requires t.sender == Address(key.publicKey)
    requires key.generateSignature(t.hash) != ""
    ensures ValidateSignature(Signed(t, key)) == Check(true, key.generateSignature(t.hash))
  {
  }

  /** Signing an unsigned transaction with somebody else's key leaves it unsigned, and it
      then fails validation with a message naming its hash. */
  lemma MismatchedSignerLeavesInvalid(t: Tx, key: Signer)
    requires t.sender != NullAddress && t.signature == None
    requires Address(key.publicKey) != t.sender
    ensures Signed(t, key).signature == None
    ensures ValidateSignature(Signed(t, key)) == Check(false, InvalidSignaturePrefix + t.hash)
  {
  }

  /** A reward or genesis transaction is valid whatever its signature slot holds. */
  lemma NullSenderValidWhateverSignature(t: Tx, s: Option<string>)
    requires t.sender == NullAddress
    ensures ValidateSignature(t.(signature := s)).ok
  {
  }

  /** A transaction object. Everything but the signature is constant after construction, so
      `getHash()` returns the same value for the object's whole life. */
  class Transaction {
    const timestamp: string
    const sender: Address
    const receiver: Address
    const amount: int
    const hash: string
    var signature: Option<string>

    function Value(): Tx
      reads this
    {
      Tx(sender, receiver, amount, timestamp, hash, signature)
    }

    /** `new Transaction(sender, receiver, amount)` at time `now`. */
    constructor (sender: Address, receiver: Address, amount: int, now: string, calculateHash: TxHasher)
      ensures Value() == Tx(sender, receiver, amount, now, calculateHash(sender, receiver, amount, now), None)
    {
      this.timestamp := now;
      this.sender := sender;
      this.receiver := receiver;
      this.amount := amount;
      this.hash := calculateHash(sender, receiver, amount, now);
      this.signature := None;
    }

    /** `sign(signingKey)`: never throws; on a key mismatch the state is unchanged. */
    method Sign(key: Signer)
      modifies this`signature
      ensures Value() == Signed(old(Value()), key)
      ensures Address(key.publicKey) != sender ==> signature == old(signature)
    {
      if Address(key.publicKey) == sender {
        signature := Some(key.generateSignature(hash));
      }
    }
  }
}
