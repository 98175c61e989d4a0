/** The older chain (lib/BlockChain.js): the same mining round, pool, supply, observers
    and `validator` walk as the newer chain, over the plain three-field transaction record.
    Its genesis block holds a text, the observer snapshot has no pool, and pool admission
    has no debug bypass. lib/Transaction.js defines no `validateSignature`, so the check the
    chain calls is a parameter of the model. */
module LegacyLedger {
  import opened Js
  import opened LegacyTransactions
  import opened Blocks
  import opened ChainSpec

  /** The snapshot `generateChainData` builds: no pending list. */
  datatype ChainData = ChainData(name: string, timestamp: string, difficulty: nat, payout: int, supply: int,
                                 chain: seq<BlockView<Transaction>>)

  /** What `getAddressTotal` reads from `generateTransactionDetails()`. */
  function PartiesOf(t: Transaction): Parties
  {
    var d := GenerateTransactionDetails(t);
    Parties(d.sender, d.receiver, d.amount)
  }

  /** The genesis data: `Genesis block of ${name} chain`. */
  function GenesisText(name: string): string
  {
    "Genesis block of " + name + " chain"
  }

  /** `generateGenesisBlock()`: prev `0` and a text instead of a list; not mined. */
  method GenerateGenesisBlock(name: string, blockTime: string, hashing: Hashing<Transaction>)
    returns (b: Block<Transaction>)
    ensures fresh(b) && b.hashing == hashing
    ensures b.View() == BlockView(Zero, Note(GenesisText(name)), blockTime, 0,
                                  ConstructionHash(hashing, Zero, blockTime, Note(GenesisText(name))), Undefined)
  {
    b := new Block(Zero, Note(GenesisText(name)), blockTime, hashing);
  }

  class BlockChain {
    const name: string
    const difficulty: nat
    const payout: int
    const timestamp: string
    const hashing: Hashing<Transaction>
    /** The check `validateSignature` the chain calls on each transaction. */
    const validateSignature: Transaction -> Check
    var supply: int
    var chain: seq<Block<Transaction>>
    var pending: seq<Transaction>
    var observers: seq<nat>
    /** The observer calls made so far, in order. */
    var notices: seq<Notice<ChainData>>

    /** The fields of the blocks, genesis first. */
    function Blocks(): seq<BlockView<Transaction>>
      reads this`chain, chain
    {
      ViewsOf(chain)
    }

    /** The chain is non-empty, its blocks are distinct objects, and every block after
        genesis holds a list of transactions. */
    ghost predicate Valid()
      reads this`chain
    {
      && |chain| >= 1
      && (forall i, j :: 0 <= i < j < |chain| ==> chain[i] != chain[j])
      && (forall i :: 1 <= i < |chain| ==> chain[i].payload.Batch?)
    }

    /** `generateChainData()`: the snapshot of name, timestamp, settings, supply and chain. */
    function GenerateChainData(): (d: ChainData)
      reads this, chain
      ensures d.chain == Blocks()
      ensures d.name == name && d.difficulty == difficulty && d.payout == payout
      ensures d.supply == supply && d.timestamp == timestamp
    {
      ChainData(name, timestamp, difficulty, payout, supply, Blocks())
    }

    /** `new BlockChain(name, difficulty, payout, supply)`: one genesis block holding
        `Genesis block of ${name} chain`, nothing pending, no observers. */
    constructor (name: string, difficulty: nat, payout: int, supply: int, now: string, genesisTime: string,
                 hashing: Hashing<Transaction>, validateSignature: Transaction -> Check)
      ensures Valid() && fresh(chain[0])
      ensures this.name == name && this.difficulty == difficulty && this.payout == payout
      ensures this.supply == supply && this.timestamp == now
      ensures this.hashing == hashing && this.validateSignature == validateSignature
      ensures Blocks() == [BlockView(Zero, Note(GenesisText(name)), genesisTime, 0,
                                     ConstructionHash(hashing, Zero, genesisTime, Note(GenesisText(name))), Undefined)]
      ensures Linked(Blocks())
      ensures pending == [] && observers == [] && notices == []
    {
      this.name := name;
      this.difficulty := difficulty;
      this.payout := payout;
      this.supply := supply;
      this.timestamp := now;
      this.hashing := hashing;
      this.validateSignature := validateSignature;
      var genesis := GenerateGenesisBlock(name, genesisTime, hashing);
      this.chain := [genesis];
      this.pending := [];
      this.observers := [];
      this.notices := [];
    }

    /** `subscribe(obs)`: the observer joins the end of the list. */
    method Subscribe(obs: nat)
      modifies this`observers
      ensures observers == old(observers) + [obs]
    {
      observers := observers + [obs];
    }

    /** `executeObservers()`: each observer once, in subscription order, with one snapshot. */
    method ExecuteObservers()
      modifies this`notices
      ensures notices == old(notices) + Deliveries(observers, GenerateChainData())
    {
      var data := GenerateChainData();
      var k := 0;
      while k < |observers|
        invariant 0 <= k <= |observers|
        invariant notices == old(notices) + Deliveries(observers[..k], data)
      {
        assert observers[..k + 1][..k] == observers[..k];
        notices := notices + [Notice(observers[k], data)];
        k := k + 1;
      }
      assert observers[..k] == observers;
    }

    /** `addBlockToChain(block)`: push, then notify the observers, who see the new block. A
        block object already in the chain is not accepted here (the model has no aliasing). */
    method AddBlockToChain(block: Block<Transaction>)
      requires Valid() && block.payload.Batch? && block !in chain
      modifies this
      ensures Valid()
      ensures chain == old(chain) + [block]
      ensures Blocks() == old(Blocks()) + [block.View()]
      ensures notices == old(notices) + Deliveries(observers, GenerateChainData())
      ensures pending == old(pending) && supply == old(supply) && observers == old(observers)
    {
      chain := chain + [block];
      assert Blocks() == old(Blocks()) + [block.View()];
      ExecuteObservers();
    }

    /** `addTransactionToPending(transaction)`: the pool takes the transaction exactly when
        its check passes; there is no debug bypass. */
    method AddTransactionToPending(t: Transaction)
      modifies this`pending
      ensures validateSignature(t).ok ==> pending == old(pending) + [t]
      ensures !validateSignature(t).ok ==> pending == old(pending)
    {
      var c := validateSignature(t);
      if !c.ok {
        return;
      }
      pending := pending + [t];
    }

    /** `resetPending()`: a new empty list replaces the old one, which the last mined block
        still holds. */
    method ResetPending()
      modifies this`pending
      ensures pending == []
    {
      pending := [];
    }

    /** `calculateNewSupply()`: no lower bound. */
    method CalculateNewSupply()
      modifies this`supply
      ensures supply == old(supply) - payout
    {
      supply := supply - payout;
    }

    /** `generateNewBlock(data)`: an unmined block at time `now` whose prev is the tip's hash. */
    method GenerateNewBlock(data: Payload<Transaction>, now: string) returns (b: Block<Transaction>)
      requires Valid()
      ensures fresh(b) && b.hashing == hashing
      ensures var prev := Hash(chain[|chain| - 1].hash);
              b.View() == BlockView(prev, data, now, 0, ConstructionHash(hashing, prev, now, data), Undefined)
    {
      var tip := chain[|chain| - 1];
      b := new Block(Hash(tip.hash), data, now, hashing);
    }

    /** `generateNewBlock(data)` followed by `block.mine(difficulty)`: a fresh block on the
        tip whose hash meets the target, its nonce 0 if the construction hash already did and
        otherwise the first nonce that does; nothing that existed before changes. */
    method MineNewBlock(data: Payload<Transaction>, now: string, ghost bound: nat) returns (b: Block<Transaction>)
      requires Valid()
      requires Mineable(hashing, Hash(chain[|chain| - 1].hash), now, data,
                        ConstructionHash(hashing, Hash(chain[|chain| - 1].hash), now, data), 0, difficulty, bound)
      ensures fresh(b) && b.hashing == hashing
      ensures b.View() == BlockView(Hash(chain[|chain| - 1].hash), data, now, b.nonce, b.hash, Undefined)
      ensures MinedFrom(hashing, Hash(chain[|chain| - 1].hash), now, data, difficulty, b.nonce, b.hash)
    {
      b := GenerateNewBlock(data, now);
      b.Mine(difficulty, bound);
      forall n | 0 < n < b.nonce
        ensures !HasZeroPrefix(HashAtNonce(hashing, b.prev, now, data, n), difficulty)
      {
        assert b.HashAt(n) == HashAtNonce(hashing, b.prev, now, data, n);
      }
      NoneMeetsBelowMeans(hashing, b.prev, now, data, difficulty, b.nonce);
    }

    /** `setLastBlockNext(hash)`: only the tip's next link changes. */
    method SetLastBlockNext(h: string)
      requires Valid()
      modifies chain[|chain| - 1]
      ensures Valid()
      ensures |Blocks()| == |old(Blocks())|
      ensures Blocks() == old(Blocks())[..|chain| - 1] + [old(Blocks())[|chain| - 1].(next := Hash(h))]
    {
      ghost var before := Blocks();
      var tip := chain[|chain| - 1];
      tip.SetNext(Hash(h));
      forall i | 0 <= i < |chain| - 1 ensures chain[i].View() == before[i] {
        assert chain[i] != tip;
      }
    }

    /** The first half of `minePending`: build a block of the pool on the tip, mine it, link
        the tip forward to it and push it, which notifies the observers. */
    method PushMinedBlock(blockTime: string, ghost bound: nat) returns (ghost b: BlockView<Transaction>)
      requires Valid()
      requires Mineable(hashing, Hash(chain[|chain| - 1].hash), blockTime, Batch(pending),
                        ConstructionHash(hashing, Hash(chain[|chain| - 1].hash), blockTime, Batch(pending)),
                        0, difficulty, bound)
      modifies this, chain
      ensures Valid()
      ensures MinedAfter(old(Blocks()), Blocks(), b, hashing, Batch(pending), blockTime, difficulty)
      ensures Linked(old(Blocks())) ==> Linked(Blocks())
      ensures pending == old(pending) && supply == old(supply) && observers == old(observers)
      ensures notices == old(notices) +
                Deliveries(observers, ChainData(name, timestamp, difficulty, payout, supply, Blocks()))
    {
      ghost var before := Blocks();
      var block := MineNewBlock(Batch(pending), blockTime, bound);
      b := block.View();
      assert Blocks() == before;
      SetLastBlockNext(block.hash);
      assert Blocks() == before[..|before| - 1] + [before[|before| - 1].(next := Hash(b.hash))];
      RelinkThenPush(before, Blocks(), b);
      ExtendKeepsBatches(before, b);
      AddBlockToChain(block);
      if Linked(before) {
        ExtendKeepsLinked(before, b);
      }
    }

    /** The second half of `minePending`: a fresh pool that takes the reward transaction
        if it passes the check, then the supply update. */
    method PayReward(payoutAddress: Address)
      modifies this`pending, this`supply
      ensures var reward := Transaction(NullAddress, payoutAddress, payout);
              pending == if validateSignature(reward).ok then [reward] else []
      ensures supply == old(supply) - payout
      ensures Blocks() == old(Blocks())
    {
      ResetPending();
      var reward := Transaction(NullAddress, payoutAddress, payout);
      AddTransactionToPending(reward);
      CalculateNewSupply();
    }

    /** `minePending(payoutAddress)`: mine the whole pool into one block linked to the tip,
        link the tip forward to it, push it (observers see the new chain and the old supply),
        replace the pool with the reward transaction (if it passes the check), and lower the
        supply by the payout.
        The ghost `bound` is a nonce at which mining succeeds. */
    method MinePending(payoutAddress: Address, blockTime: string, ghost bound: nat)
      returns (ghost b: BlockView<Transaction>)
      requires Valid()
      requires Mineable(hashing, Hash(chain[|chain| - 1].hash), blockTime, Batch(pending),
                        ConstructionHash(hashing, Hash(chain[|chain| - 1].hash), blockTime, Batch(pending)),
                        0, difficulty, bound)
      modifies this, chain
      ensures Valid()
      ensures MinedAfter(old(Blocks()), Blocks(), b, hashing, Batch(old(pending)), blockTime, difficulty)
      ensures Linked(old(Blocks())) ==> Linked(Blocks())
      ensures var reward := Transaction(NullAddress, payoutAddress, payout);
              pending == if validateSignature(reward).ok then [reward] else []
      ensures supply == old(supply) - payout
      ensures observers == old(observers)
      ensures notices == old(notices) +
                Deliveries(observers, ChainData(name, timestamp, difficulty, payout, old(supply), Blocks()))
    {
      b := PushMinedBlock(blockTime, bound);
      PayReward(payoutAddress);
    }

    /** `getAddressTotal(address)` as written: it reads `this.chain[i].transactions`, but a
        block keeps its list in the private `#transactions`, so the property is `undefined`
        and `reduce` throws a TypeError (`None`) as soon as there is a block after genesis.
        With genesis alone the loop body never runs and the total is 0. */
    method GetAddressTotal(address: Address) returns (r: Option<int>)
      requires Valid()
      ensures r.None? <==> |chain| >= 2
      ensures r.Some? ==> r.value == 0
    {
      var total := 0;
      var i := 1;
      if i < |chain| {
        return None;
      }
      return Some(total);
    }

    /** `getAddressTotal(address)` as evidently intended, reading each block's list through
        `getTransactions()` as the newer chain does: over every block but genesis, minus what
        the address sent plus what it received. */
    method IntendedAddressTotal(address: Address) returns (total: int)
      requires Valid()
      ensures total == AddressTotal(Blocks(), PartiesOf, address)
    {
      ghost var vs := Blocks();
      total := 0;
      var i := 1;
      while i < |chain|
        invariant 1 <= i <= |chain|
        invariant total == TotalBefore(vs, PartiesOf, address, i)
      {
        var items := chain[i].payload.items;
        var acc := 0;
        var k := 0;
        while k < |items|
          invariant 0 <= k <= |items|
          invariant acc == BatchTotal(items[..k], PartiesOf, address)
        {
          assert items[..k + 1][..k] == items[..k];
          var d := GenerateTransactionDetails(items[k]);
          if d.sender == address {
            acc := acc - d.amount;
          }
          if d.receiver == address {
            acc := acc + d.amount;
          }
          k := k + 1;
        }
        assert items[..k] == items;
        total := total + acc;
        i := i + 1;
      }
    }

    /** `validateBlockPosition(block, prev, next)`, given the hash of `next` (`undefined`
        when there is no next block). */
    method ValidateBlockPosition(block: Block<Transaction>, prev: Block<Transaction>, nextHash: Link) returns (r: Verdict)
      ensures r == RunCheck(BlockPosition, prev.View(), block.View(), nextHash, validateSignature)
      ensures r == Pass <==> block.prev == Hash(prev.hash) && block.next == nextHash
      ensures r.Fail? ==> r.message == LinksInvalid
    {
      var c := block.View().ValidateBlock(Hash(prev.hash), nextHash);
      r := if c.ok then Pass else Fail(c.message);
    }

    /** `validateBlockTransactions(block)`: passes when every transaction passes
        `validateSignature`, and otherwise carries the first failure's message. */
    method ValidateBlockTransactions(block: Block<Transaction>) returns (r: Verdict)
      requires block.payload.Batch?
      ensures r == RunCheck(BlockTransactions, block.View(), block.View(), Undefined, validateSignature)
      ensures r == Pass <==> forall k :: 0 <= k < |block.payload.items| ==> validateSignature(block.payload.items[k]).ok
      ensures r.Fail? ==> r.message == TransactionsVerdict(block.payload.items, validateSignature).message
    {
      var c := block.ValidateTransactions(validateSignature);
      r := if c.value.ok then Pass else Fail(c.value.message);
    }

    /** The inner loop of `validator`: the checks in order on (block, prev, undefined),
        stopping at the first that fails. */
    method RunChecksAt(cs: seq<ChainCheck>, i: nat) returns (v: Verdict)
      requires Valid() && 1 <= i < |chain|
      ensures v == RunChecks(cs, Blocks()[i - 1], Blocks()[i], Undefined, validateSignature)
    {
      var prev, block := chain[i - 1], chain[i];
      ghost var pv, bv := prev.View(), block.View();
      assert bv == Blocks()[i];
      var k := 0;
      while k < |cs|
        invariant 0 <= k <= |cs|
        invariant forall m :: 0 <= m < k ==> RunCheck(cs[m], pv, bv, Undefined, validateSignature) == Pass
      {
        match cs[k] {
          case BlockPosition =>
            v := ValidateBlockPosition(block, prev, Undefined);
          case BlockTransactions =>
            v := ValidateBlockTransactions(block);
        }
        if v.Fail? {
          assert FirstFailingCheck(cs, pv, bv, Undefined, validateSignature) == k;
          return;
        }
        k := k + 1;
      }
      v := Pass;
    }

    /** `validator(methods)`: walk indices 1 to `length - 1`, run the checks in order on
        (block, prev, next), and stop at the first failure. `chain.slice(i - 1, i + 1)` has
        two elements, so `next` is always `undefined`. */
    method Validator(cs: seq<ChainCheck>) returns (r: Report)
      requires Valid()
      ensures r == ChainSpec.Validator(Blocks(), cs, validateSignature)
    {
      ghost var vs := Blocks();
      var i := 1;
      while i < |chain|
        invariant 1 <= i <= |chain|
        invariant FirstFailingIndex(vs, cs, validateSignature, false, 1) == FirstFailingIndex(vs, cs, validateSignature, false, i)
      {
        var v := RunChecksAt(cs, i);
        if v.Fail? {
          assert vs[i - 1].hash == chain[i - 1].hash && vs[i].hash == chain[i].hash;
          assert FirstFailingIndex(vs, cs, validateSignature, false, i) == i;
          WalkStopsAt(vs, cs, validateSignature, false, i);
          return Failure(v.message, Context(chain[i - 1].hash, chain[i].hash, Undefined, i));
        }
        i := i + 1;
      }
      assert FirstFailingIndex(vs, cs, validateSignature, false, i) == |vs|;
      WalkStopsAt(vs, cs, validateSignature, false, i);
      return Success(SuccessMessage(|chain| - 1));
    }

    /** `validateChainIntegrity()`: the position check alone. On a linked chain it passes
        only while the chain has at most two blocks, and otherwise fails at index 1. */
    method ValidateChainIntegrity() returns (r: Report)
      requires Valid()
      ensures r == ChainSpec.Validator(Blocks(), [BlockPosition], validateSignature)
      ensures Linked(Blocks()) ==> (r.Success? <==> |chain| <= 2)
      ensures Linked(Blocks()) && |chain| >= 3 ==> r.Failure? && r.context.index == 1
    {
      r := Validator([BlockPosition]);
      if Linked(Blocks()) {
        IntegrityRejectsLongChains(Blocks(), validateSignature);
      }
    }

    /** `validateTransactions()`: passes exactly when every transaction after genesis
        passes `validateSignature`. */
    method ValidateTransactions() returns (r: Report)
      requires Valid()
      ensures r == ChainSpec.Validator(Blocks(), [BlockTransactions], validateSignature)
      ensures r.Success? <==> forall i, k :: 1 <= i < |Blocks()| && 0 <= k < |Blocks()[i].payload.items| ==>
                                             validateSignature(Blocks()[i].payload.items[k]).ok
    {
      r := Validator([BlockTransactions]);
      TransactionsWalkMeans(Blocks(), validateSignature);
    }

    /** `validateAll()`: position first, then transactions, at each index. */
    method ValidateAll() returns (r: Report)
      requires Valid()
      ensures r == ChainSpec.Validator(Blocks(), [BlockPosition, BlockTransactions], validateSignature)
    {
      r := Validator([BlockPosition, BlockTransactions]);
    }
  }
}
