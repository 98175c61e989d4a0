/** A block (lib/Block.js): a batch of transactions linked to its predecessor by hash, with a
    nonce that proof-of-work raises until the hash starts with enough zeros, and a `next`
    slot set once a successor exists. Both chains are built from this block. */
module Blocks {
  import opened Js

  /** What a block carries in `#transactions`: a list of transactions, or, for the older
      chain's genesis block, a text. */
  datatype Payload<T> = Note(text: string) | Batch(items: seq<T>)

  /** SHA-256 and `JSON.stringify`, both opaque and deterministic. */
  datatype Hashing<!T> = Hashing(sha256: string -> string, stringify: Payload<T> -> string)

  /** The string `generateHash()` digests: prev, timestamp, serialized transactions and
      nonce, concatenated with `+`, the nonce rendered as `nonceText`. */
  function Preimage<T>(h: Hashing<T>, prev: Link, timestamp: string, payload: Payload<T>, nonceText: string): string
  {
    LinkText(prev) + timestamp + h.stringify(payload) + nonceText
  }

  /** `generateHash()`: the digest of the preimage. */
  function HashWith<T>(h: Hashing<T>, prev: Link, timestamp: string, payload: Payload<T>, nonceText: string): string
  {
    h.sha256(Preimage(h, prev, timestamp, payload, nonceText))
  }

  /** The hash of a block whose nonce is `n`. */
  function HashAtNonce<T>(h: Hashing<T>, prev: Link, timestamp: string, payload: Payload<T>, n: nat): string
  {
    HashWith(h, prev, timestamp, payload, NatToString(n))
  }

  /** The hash the constructor stores: it is computed before `#nonce` is assigned, so the
      nonce renders as "undefined" rather than "0". */
  function ConstructionHash<T>(h: Hashing<T>, prev: Link, timestamp: string, payload: Payload<T>): string
  {
    HashWith(h, prev, timestamp, payload, "undefined")
  }

  /** Every nonce puts a different string under the digest: the nonce is the last thing
      concatenated, and distinct counters render as distinct digit strings. */
  lemma NoncePreimagesDistinct<T>(h: Hashing<T>, prev: Link, timestamp: string, payload: Payload<T>, m: nat, n: nat)
    ensures Preimage(h, prev, timestamp, payload, NatToString(m)) == Preimage(h, prev, timestamp, payload, NatToString(n)) <==> m == n
  {
    CommonPrefixCancels(LinkText(prev) + timestamp + h.stringify(payload), NatToString(m), NatToString(n));
    NatToStringInjective(m, n);
  }

  /** The constructor's "undefined" nonce text is no counter's rendering, so the
      construction hash digests a string that no mined nonce reproduces. */
  lemma ConstructionPreimageIsNoNonce<T>(h: Hashing<T>, prev: Link, timestamp: string, payload: Payload<T>, n: nat)
    ensures Preimage(h, prev, timestamp, payload, "undefined") != Preimage(h, prev, timestamp, payload, NatToString(n))
  {
    CommonPrefixCancels(LinkText(prev) + timestamp + h.stringify(payload), "undefined", NatToString(n));
    assert "undefined"[0] == 'u';
  }

  /** No nonce strictly between 0 and `nonce` gives a hash that meets `d`, checked from the
      top down. */
  ghost predicate NoneMeetsBelow<T>(h: Hashing<T>, prev: Link, timestamp: string, payload: Payload<T>,
                                    d: nat, nonce: nat)
    decreases nonce
  {
    nonce <= 1 ||
    (!HasZeroPrefix(HashAtNonce(h, prev, timestamp, payload, nonce - 1), d)
     && NoneMeetsBelow(h, prev, timestamp, payload, d, nonce - 1))
  }

  /** The top-down check says the same as the quantified one. */
  lemma {:induction false} NoneMeetsBelowMeans<T>(h: Hashing<T>, prev: Link, timestamp: string, payload: Payload<T>,
                                                  d: nat, nonce: nat)
    ensures NoneMeetsBelow(h, prev, timestamp, payload, d, nonce) <==>
            forall n :: 0 < n < nonce ==> !HasZeroPrefix(HashAtNonce(h, prev, timestamp, payload, n), d)
    decreases nonce
  {
    if nonce > 1 {
      NoneMeetsBelowMeans(h, prev, timestamp, payload, d, nonce - 1);
      var top := !HasZeroPrefix(HashAtNonce(h, prev, timestamp, payload, nonce - 1), d);
      assert (forall n :: 0 < n < nonce ==> !HasZeroPrefix(HashAtNonce(h, prev, timestamp, payload, n), d)) <==>
             top && forall n :: 0 < n < nonce - 1 ==> !HasZeroPrefix(HashAtNonce(h, prev, timestamp, payload, n), d);
    }
  }

  /** The outcome of `mineBlock(d)` on a freshly constructed block: `hash` meets `d`; if the
      construction hash already met it the block is untouched (nonce 0, construction hash),
      otherwise `nonce` is the first positive nonce whose hash meets `d` and `hash` is its
      hash. */
  ghost predicate MinedFrom<T>(h: Hashing<T>, prev: Link, timestamp: string, payload: Payload<T>,
                               d: nat, nonce: nat, hash: string)
  {
    && HasZeroPrefix(hash, d)
    && (if HasZeroPrefix(ConstructionHash(h, prev, timestamp, payload), d)
        then nonce == 0 && hash == ConstructionHash(h, prev, timestamp, payload)
        else 0 < nonce && hash == HashAtNonce(h, prev, timestamp, payload, nonce)
             && NoneMeetsBelow(h, prev, timestamp, payload, d, nonce))
  }

  /** Mining a block in state (`hash`, `nonce`) at difficulty `d` ends: either the hash already
      meets `d`, or nonce `bound`, which the loop reaches, meets it. The source loops for ever
      otherwise. */
  ghost predicate Mineable<T>(h: Hashing<T>, prev: Link, timestamp: string, payload: Payload<T>,
                              hash: string, nonce: nat, d: nat, bound: nat)
  {
    HasZeroPrefix(hash, d) || (nonce < bound && HasZeroPrefix(HashAtNonce(h, prev, timestamp, payload, bound), d))
  }

  /** `expect`/`actual` of a failed `validateBlock`. */
  datatype Mismatch = Mismatch(expectPrev: Link, expectNext: Link, actualPrev: Link, actualNext: Link)

  /** `validateBlock`'s result: `[isValid, message]`, plus the mismatch on failure. */
  datatype PositionCheck = PositionCheck(ok: bool, message: string, detail: Option<Mismatch>)

  const LinksValid := "Previous and next block hashes are all valid"
  const LinksInvalid := "Invalid previous or next block hashes"
  const AllValid := "All transactions are valid"

  /** The fields of a block at one moment. */
  datatype BlockView<T> = BlockView(prev: Link, payload: Payload<T>, timestamp: string,
                                    nonce: nat, hash: string, next: Link)
  {
    /** `validateBlock(prev, next)`: both stored links must equal (`===`) the expected ones;
        a failure reports the expected and the actual pair. */
    function ValidateBlock(expectPrev: Link, expectNext: Link): (r: PositionCheck)
      ensures r.ok <==> prev == expectPrev && next == expectNext
      ensures r.ok ==> r == PositionCheck(true, LinksValid, None)
      ensures !r.ok ==> r == PositionCheck(false, LinksInvalid, Some(Mismatch(expectPrev, expectNext, prev, next)))
    {
      if prev == expectPrev && next == expectNext then PositionCheck(true, LinksValid, None)
      else PositionCheck(false, LinksInvalid, Some(Mismatch(expectPrev, expectNext, prev, next)))
    }
  }

  /** The object `generateBlockData` returns. */
  datatype BlockData<T> = BlockData(prev: Link, next: Link, transactions: Payload<T>, timestamp: string, hash: string)

  /** The index of the first transaction that fails `validate`, or `|items|` when none does. */
  function FirstInvalid<T>(items: seq<T>, validate: T -> Check): (k: nat)
    ensures k <= |items|
    ensures forall j :: 0 <= j < k ==> validate(items[j]).ok
    ensures k < |items| ==> !validate(items[k]).ok
  {
    if |items| == 0 then 0
    else if !validate(items[0]).ok then 0
    else 1 + FirstInvalid(items[1..], validate)
  }

  /** What `validateTransactions` returns for a list: success when every transaction is valid
      (an empty list included), otherwise the message of the first one that is not. */
  function TransactionsVerdict<T>(items: seq<T>, validate: T -> Check): (r: Check)
    ensures r.ok <==> forall i :: 0 <= i < |items| ==> validate(items[i]).ok
    ensures r.ok ==> r.message == AllValid
    ensures !r.ok ==> exists i :: 0 <= i < |items| && !validate(items[i]).ok
                                && r.message == validate(items[i]).message
                                && forall j :: 0 <= j < i ==> validate(items[j]).ok
  {
    var k := FirstInvalid(items, validate);
    if k == |items| then Check(true, AllValid) else Check(false, validate(items[k]).message)
  }

  /** The fields of a sequence of blocks. */
  function ViewsOf<T>(bs: seq<Block<T>>): (vs: seq<BlockView<T>>)
    reads bs
    ensures |vs| == |bs|
    ensures forall i :: 0 <= i < |bs| ==> vs[i] == bs[i].View()
  {
    if |bs| == 0 then [] else ViewsOf(bs[..|bs| - 1]) + [bs[|bs| - 1].View()]
  }

  /** A block object. prev, transactions and timestamp never change; mining changes the
      nonce and the hash, and `setNext` the next link. */
  class Block<T> {
    const prev: Link
    const payload: Payload<T>
    const timestamp: string
    const hashing: Hashing<T>
    var nonce: nat
    var hash: string
    var next: Link

    function View(): BlockView<T>
      reads this
    {
      BlockView(prev, payload, timestamp, nonce, hash, next)
    }

    /** `generateHash()` of this block were its nonce `n`. */
    function HashAt(n: nat): string
    {
      HashAtNonce(hashing, prev, timestamp, payload, n)
    }

    /** `new Block(prev, transactions)` at time `now`. `next` stays `undefined`. */
    constructor (prev: Link, payload: Payload<T>, now: string, hashing: Hashing<T>)
      ensures this.hashing == hashing
      ensures View() == BlockView(prev, payload, now, 0, ConstructionHash(hashing, prev, now, payload), Undefined)
    {
      this.prev := prev;
      this.payload := payload;
      this.timestamp := now;
      this.hashing := hashing;
      this.hash := ConstructionHash(hashing, prev, now, payload);
      this.nonce := 0;
      this.next := Undefined;
    }

    /** `mine(difficulty)`: raise the nonce one at a time, rehashing after each step, until the
        hash starts with `difficulty` zeros. The result is the first nonce from the start that
        meets the target; a hash that already meets it is left alone, so `mine(0)` changes
        nothing. The ghost `bound` is a nonce known to meet the target, without which the
        loop would not end. */
    method Mine(difficulty: nat, ghost bound: nat)
      requires Mineable(hashing, prev, timestamp, payload, hash, nonce, difficulty, bound)
      modifies this`nonce, this`hash
      ensures HasZeroPrefix(hash, difficulty)
      ensures HasZeroPrefix(old(hash), difficulty) ==> nonce == old(nonce) && hash == old(hash)
      ensures !HasZeroPrefix(old(hash), difficulty) ==> old(nonce) < nonce && hash == HashAt(nonce)
      ensures forall n :: old(nonce) < n < nonce ==> !HasZeroPrefix(HashAt(n), difficulty)
      ensures difficulty == 0 ==> nonce == old(nonce) && hash == old(hash)
    {
      ZeroDifficultyAlwaysMet(hash);
      ghost var nonce0, hash0 := nonce, hash;
      var zeros := Zeros(difficulty);
      while Prefix(hash, difficulty) != zeros
        invariant nonce0 <= nonce
        invariant nonce == nonce0 ==> hash == hash0
        invariant nonce0 < nonce ==> hash == HashAt(nonce)
        invariant forall n :: nonce0 < n < nonce ==> !HasZeroPrefix(HashAt(n), difficulty)
        invariant !HasZeroPrefix(hash0, difficulty) ==> nonce <= bound && HasZeroPrefix(HashAt(bound), difficulty)
        invariant HasZeroPrefix(hash0, difficulty) ==> nonce == nonce0
        decreases bound - nonce
      {
        ghost var failed := nonce;
        assert nonce0 < failed ==> !HasZeroPrefix(HashAt(failed), difficulty);
        nonce := nonce + 1;
        hash := HashAt(nonce);
        assert forall n :: nonce0 < n < nonce ==> !HasZeroPrefix(HashAt(n), difficulty) by {
          forall n | nonce0 < n < nonce ensures !HasZeroPrefix(HashAt(n), difficulty) {
            if n < failed {
            } else {
              assert n == failed;
            }
          }
        }
      }
    }

    /** `setNext(next)`: only the next link changes. */
    method SetNext(n: Link)
      modifies this`next
      ensures next == n
    {
      next := n;
    }

    /** `generateBlockData()`: the stored links, transactions, timestamp and current hash. */
    function GenerateBlockData(): (d: BlockData<T>)
      reads this
      ensures d.prev == View().prev && d.next == View().next && d.hash == View().hash
      ensures d.transactions == View().payload && d.timestamp == View().timestamp
    {
      BlockData(prev, next, payload, timestamp, hash)
    }

    /** `validateTransactions()`: checks the transactions in order and stops at the first
        failure. A text payload is iterated character by character: the empty text passes,
        any other throws a TypeError at the first character, which has no `validateSignature`
        (`None`). */
    method ValidateTransactions(validate: T -> Check) returns (r: Option<Check>)
      ensures payload.Batch? ==> r == Some(TransactionsVerdict(payload.items, validate))
      ensures payload.Note? ==> (r.Some? <==> payload.text == "")
      ensures payload.Note? && r.Some? ==> r.value == Check(true, AllValid)
    {
      if payload.Note? {
        if payload.text == "" {
          return Some(Check(true, AllValid));
        }
        return None;
      }
      var items := payload.items;
      var i := 0;
      while i < |items|
        invariant 0 <= i <= |items|
        invariant forall j :: 0 <= j < i ==> validate(items[j]).ok
      {
        var c := validate(items[i]);
        if !c.ok {
          return Some(Check(false, c.message));
        }
        i := i + 1;
      }
      return Some(Check(true, AllValid));
    }
  }
}
