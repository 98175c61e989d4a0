/** The oldest version (app.js): a `Block` class with public fields and a `BlockChain` class
    that mines single data items, pops a pushed block that breaks `validateChain()`, and
    keeps a list of pending payout records. */
module App {
  import opened Js
  import opened AppSpec
  import ChainSpec

  /** The object `generateMetaData()` returns. */
  datatype MetaData = MetaData(name: string, timestamp: string, difficulty: nat, payout: int, total: int,
                               chain: seq<AppBlockView>)

  /** The genesis data: `Genesis block of ${name} chain`. */
  function GenesisText(name: string): string
  {
    "Genesis block of " + name + " chain"
  }

  /** The fields of a sequence of blocks. */
  function ViewsOf(bs: seq<Block>): (vs: seq<AppBlockView>)
    reads bs
    ensures |vs| == |bs|
    ensures forall i {:trigger vs[i]} :: 0 <= i < |bs| ==> vs[i] == bs[i].View()
  {
    if |bs| == 0 then [] else ViewsOf(bs[..|bs| - 1]) + [bs[|bs| - 1].View()]
  }

  /** A block object. prev, data and timestamp are never reassigned by the class; mining
      changes the nonce and the hash, and `setNext` the next link. */
  class Block {
    const prev: Link
    const data: AppData
    const timestamp: string
    const hashing: AppHashing
    var nonce: nat
    var hash: string
    var next: Link

    function View(): AppBlockView
      reads this
    {
      AppBlockView(prev, data, timestamp, nonce, hash, next)
    }

    /** `generateHash()` of this block were its nonce `n`. */
    function HashAt(n: nat): string
    {
      AppHashAt(hashing, prev, timestamp, data, n)
    }

    /** `new Block(prev, data)` at time `now`: the hash is computed while the nonce is still
        unset, then the nonce becomes 0; `next` is never assigned, so it reads `undefined`. */
    constructor (prev: Link, data: AppData, now: string, hashing: AppHashing)
      ensures this.hashing == hashing
      ensures View() == AppBlockView(prev, data, now, 0, AppConstructionHash(hashing, prev, now, data), Undefined)
    {
      this.prev := prev;
      this.data := data;
      this.timestamp := now;
      this.hashing := hashing;
      this.hash := AppConstructionHash(hashing, prev, now, data);
      this.nonce := 0;
      this.next := Undefined;
    }

    /** `mineBlock(difficulty)`: raise the nonce one at a time, rehashing after each step,
        until the hash starts with `difficulty` zeros. It stops at the first nonce past the
        start that meets the target, and leaves a hash that already meets it alone. The ghost
        `bound` is a nonce known to meet the target. */
    method MineBlock(difficulty: nat, ghost bound: nat)
      requires AppMineable(hashing, prev, timestamp, data, hash, nonce, difficulty, bound)
      modifies this`nonce, this`hash
      ensures HasZeroPrefix(hash, difficulty)
      ensures HasZeroPrefix(old(hash), difficulty) ==> nonce == old(nonce) && hash == old(hash)
      ensures !HasZeroPrefix(old(hash), difficulty) ==> old(nonce) < nonce && hash == HashAt(nonce)
      ensures forall n :: old(nonce) < n < nonce ==> !HasZeroPrefix(HashAt(n), difficulty)
    {
      ghost var nonce0, hash0 := nonce, hash;
      while Prefix(hash, difficulty) != Zeros(difficulty)
        invariant nonce0 <= nonce
        invariant nonce == nonce0 ==> hash == hash0
        invariant nonce0 < nonce ==> hash == HashAt(nonce)
        invariant forall n :: nonce0 < n < nonce ==> !HasZeroPrefix(HashAt(n), difficulty)
        invariant !HasZeroPrefix(hash0, difficulty) ==> nonce <= bound && HasZeroPrefix(HashAt(bound), difficulty)
        invariant HasZeroPrefix(hash0, difficulty) ==> nonce == nonce0
        decreases bound - nonce
      {
        ghost var failed := nonce;
        assert nonce0 < failed ==> !HasZeroPrefix(HashAt(failed), difficulty);
        nonce := nonce + 1;
        hash := HashAt(nonce);
        assert forall n :: nonce0 < n < nonce ==> !HasZeroPrefix(HashAt(n), difficulty) by {
          forall n | nonce0 < n < nonce ensures !HasZeroPrefix(HashAt(n), difficulty) {
            if n < failed {
            } else {
              assert n == failed;
            }
          }
        }
      }
    }

    /** `setNext(next)`: only the next link changes. */
    method SetNext(n: Link)
      modifies this`next
      ensures next == n
    {
      next := n;
    }
  }

  class BlockChain {
    const name: string
    const difficulty: nat
    const payout: int
    const timestamp: string
    const hashing: AppHashing
    var total: int
    var chain: seq<Block>
    var pending: seq<AppData>
    var observers: seq<nat>
    /** The observer calls made so far, in order. */
    var notices: seq<ChainSpec.Notice<MetaData>>

    /** The fields of the blocks, genesis first. */
    function Blocks(): seq<AppBlockView>
      reads this`chain, chain
    {
      ViewsOf(chain)
    }

    /** The chain is non-empty and its tip is not shared with an earlier position, so
        relinking the tip leaves every other block as it was. */
    ghost predicate Valid()
      reads this`chain
    {
      && |chain| >= 1
      && (forall i :: 0 <= i < |chain| - 1 ==> chain[i] != chain[|chain| - 1])
    }

    /** `generateMetaData()`. */
    function GenerateMetaData(): (m: MetaData)
      reads this, chain
      ensures m.chain == Blocks() && m.total == total
      ensures m.name == name && m.difficulty == difficulty && m.payout == payout && m.timestamp == timestamp
    {
      MetaData(name, timestamp, difficulty, payout, total, Blocks())
    }

    /** `new BlockChain(name, difficulty, payout, total)`: one genesis block with prev `0`
        holding `Genesis block of ${name} chain`, nothing pending, no observers. */
    constructor (name: string, difficulty: nat, payout: int, total: int, now: string, genesisTime: string,
                 hashing: AppHashing)
      ensures Valid() && fresh(chain[0])
      ensures this.name == name && this.difficulty == difficulty && this.payout == payout
      ensures this.total == total && this.timestamp == now && this.hashing == hashing
      ensures Blocks() == [AppBlockView(Zero, Text(GenesisText(name)), genesisTime, 0,
                                        AppConstructionHash(hashing, Zero, genesisTime, Text(GenesisText(name))), Undefined)]
      ensures ChainValid(Blocks())
      ensures pending == [] && observers == [] && notices == []
    {
      this.name := name;
      this.difficulty := difficulty;
      this.payout := payout;
      this.total := total;
      this.timestamp := now;
      this.hashing := hashing;
      var genesis := new Block(Zero, Text(GenesisText(name)), genesisTime, hashing);
      this.chain := [genesis];
      this.pending := [];
      this.observers := [];
      this.notices := [];
    }

    /** `subscribe(obs)`: the observer joins the end of the list. */
    method Subscribe(obs: nat)
      modifies this`observers
      ensures observers == old(observers) + [obs]
    {
      observers := observers + [obs];
    }

    /** `executeObservers()`: each observer once, in subscription order, with one snapshot. */
    method ExecuteObservers()
      modifies this`notices
      ensures notices == old(notices) + ChainSpec.Deliveries(observers, GenerateMetaData())
    {
      var data := GenerateMetaData();
      var k := 0;
      while k < |observers|
        invariant 0 <= k <= |observers|
        invariant notices == old(notices) + ChainSpec.Deliveries(observers[..k], data)
      {
        assert observers[..k + 1][..k] == observers[..k];
        notices := notices + [ChainSpec.Notice(observers[k], data)];
        k := k + 1;
      }
      assert observers[..k] == observers;
    }

    /** `addDataToPending(data)`: the item joins the end of the list. */
    method AddDataToPending(data: AppData)
      modifies this`pending
      ensures pending == old(pending) + [data]
    {
      pending := pending + [data];
    }

    /** `calculateNewTotal()`: no lower bound. */
    method CalculateNewTotal()
      modifies this`total
      ensures total == old(total) - payout
    {
      total := total - payout;
    }

    /** `validateChain()`: true exactly when every block after genesis names its
        predecessor's hash as prev and is named by its predecessor's next. */
    method ValidateChain() returns (r: bool)
      ensures r == ChainValid(Blocks())
    {
      ghost var vs := Blocks();
      var i := 1;
      while i < |chain|
        invariant 1 <= i <= |chain| || |chain| == 0
        invariant forall j :: 1 <= j < i && j < |vs| ==> PairValid(vs, j)
      {
        var block, prev := chain[i], chain[i - 1];
        if block.prev != Hash(prev.hash) || prev.next != Hash(block.hash) {
          assert !PairValid(vs, i);
          return false;
        }
        i := i + 1;
      }
      return true;
    }

    /** `addBlockToChain(block)`: push, pop again if the chain then fails `validateChain()`,
        and notify the observers either way. A block object already in the chain is not
        accepted here (the model has no aliasing). */
    method AddBlockToChain(block: Block)
      requires Valid() && block !in chain
      modifies this
      ensures Valid()
      ensures Blocks() == Push(old(Blocks()), block.View())
      ensures ChainValid(old(Blocks()) + [block.View()]) ==> chain == old(chain) + [block]
      ensures !ChainValid(old(Blocks()) + [block.View()]) ==> chain == old(chain)
      ensures notices == old(notices) + ChainSpec.Deliveries(observers, GenerateMetaData())
      ensures pending == old(pending) && total == old(total) && observers == old(observers)
    {
      chain := chain + [block];
      assert Blocks() == old(Blocks()) + [block.View()];
      var ok := ValidateChain();
      if !ok {
        chain := chain[..|chain| - 1];
        assert Blocks() == old(Blocks());
      }
      ExecuteObservers();
    }

    /** `generateNewBlock(prevBlock, data)` with the tip as `prevBlock`: unmined, at time `now`. */
    method GenerateNewBlock(data: AppData, now: string) returns (b: Block)
      requires Valid()
      ensures fresh(b) && b.hashing == hashing
      ensures b.View() == NewBlockOn(Blocks(), data, now, hashing)
    {
      var tip := chain[|chain| - 1];
      b := new Block(Hash(tip.hash), data, now, hashing);
    }

    /** `generateNewBlock` followed by `block.mineBlock(difficulty)`: a fresh block on the tip
        whose nonce is 0 if the construction hash already met the target and otherwise the
        first nonce that does; nothing that existed before changes. */
    method GenerateMinedBlock(data: AppData, now: string, ghost bound: nat) returns (block: Block)
      requires Valid()
      requires AppMineable(hashing, Hash(chain[|chain| - 1].hash), now, data,
                           AppConstructionHash(hashing, Hash(chain[|chain| - 1].hash), now, data), 0, difficulty, bound)
      ensures fresh(block) && block.hashing == hashing
      ensures block.View() == AppBlockView(Hash(chain[|chain| - 1].hash), data, now, block.nonce, block.hash, Undefined)
      ensures AppMinedFrom(hashing, Hash(chain[|chain| - 1].hash), now, data, difficulty, block.nonce, block.hash)
    {
      block := GenerateNewBlock(data, now);
      block.MineBlock(difficulty, bound);
      forall n | 0 < n < block.nonce
        ensures !HasZeroPrefix(AppHashAt(hashing, block.prev, now, data, n), difficulty)
      {
        assert block.HashAt(n) == AppHashAt(hashing, block.prev, now, data, n);
      }
      AppNoneMeetsBelowMeans(hashing, block.prev, now, data, difficulty, block.nonce);
    }

    /** `setLastBlockNext(hash)`: only the tip's next link changes. */
    method SetLastBlockNext(h: string)
      requires Valid()
      modifies chain[|chain| - 1]
      ensures Valid()
      ensures Blocks() == Relink(old(Blocks()), h)
    {
      ghost var before := Blocks();
      var tip := chain[|chain| - 1];
      tip.SetNext(Hash(h));
      forall i | 0 <= i < |chain| - 1 ensures chain[i].View() == before[i] {
        assert chain[i] != tip;
      }
    }

    /** The first part of `mineNewBlock`: a block of `data` on the tip, mined, the tip linked
        forward to it, and the push that `addBlockToChain` may undo. */
    method PushMinedBlock(data: AppData, now: string, ghost bound: nat) returns (ghost b: AppBlockView)
      requires Valid()
      requires AppMineable(hashing, Hash(chain[|chain| - 1].hash), now, data,
                           AppConstructionHash(hashing, Hash(chain[|chain| - 1].hash), now, data), 0, difficulty, bound)
      modifies this, chain
      ensures Valid()
      ensures b.prev == Hash(old(Blocks())[|old(Blocks())| - 1].hash) && b.data == data && b.timestamp == now
      ensures b.next == Undefined
      ensures AppMinedFrom(hashing, b.prev, now, data, difficulty, b.nonce, b.hash)
      ensures Blocks() == Push(Relink(old(Blocks()), b.hash), b)
      ensures pending == old(pending) && total == old(total) && observers == old(observers)
      ensures notices == old(notices) + ChainSpec.Deliveries(observers, GenerateMetaData())
    {
      ghost var before := Blocks();
      var block := GenerateMinedBlock(data, now, bound);
      b := block.View();
      assert Blocks() == before;
      SetLastBlockNext(block.hash);
      ghost var relinked := Blocks();
      assert relinked == Relink(before, b.hash);
      assert block.View() == b && block !in chain;
      AddBlockToChain(block);
      assert Blocks() == Push(relinked, b);
    }

    /** `mineNewBlock(data, address)`: mine `data` into a block on the tip, link the tip to
        it and push it (observers see the old total), lower the total by the payout and queue
        `{address, value: payout}`. On a valid chain the block is kept and the chain stays
        valid; on an invalid one the block is dropped but the tip keeps its new next link.
        The ghost `bound` is a nonce at which mining succeeds. */
    method MineNewBlock(data: AppData, address: string, now: string, ghost bound: nat)
      returns (ghost b: AppBlockView)
      requires Valid()
      requires AppMineable(hashing, Hash(chain[|chain| - 1].hash), now, data,
                           AppConstructionHash(hashing, Hash(chain[|chain| - 1].hash), now, data), 0, difficulty, bound)
      modifies this, chain
      ensures Valid()
      ensures b.prev == Hash(old(Blocks())[|old(Blocks())| - 1].hash) && b.data == data && b.timestamp == now
      ensures b.next == Undefined
      ensures AppMinedFrom(hashing, b.prev, now, data, difficulty, b.nonce, b.hash)
      ensures ChainValid(old(Blocks())) ==> Blocks() == Relink(old(Blocks()), b.hash) + [b] && ChainValid(Blocks())
      ensures !ChainValid(old(Blocks())) ==> Blocks() == Relink(old(Blocks()), b.hash)
      ensures total == old(total) - payout
      ensures pending == old(pending) + [Payment(address, payout)]
      ensures observers == old(observers)
      ensures notices == old(notices) +
                ChainSpec.Deliveries(observers, MetaData(name, timestamp, difficulty, payout, old(total), Blocks()))
    {
      ghost var before := Blocks();
      b := PushMinedBlock(data, now, bound);
      PushOnTip(before, b);
      CalculateNewTotal();
      AddDataToPending(Payment(address, payout));
    }

    /** One step of `minePending`: an unmined block of `data` on the tip, the tip linked
        forward to it, and the push that `addBlockToChain` may undo. */
    method AppendPendingItem(data: AppData, now: string) returns (block: Block)
      requires Valid()
      modifies this, chain[|chain| - 1]
      ensures Valid() && fresh(block)
      ensures Blocks() == PendingStep(old(Blocks()), data, now, hashing)
      ensures chain[|chain| - 1] == old(chain[|chain| - 1]) || chain[|chain| - 1] == block
      ensures pending == old(pending) && total == old(total) && observers == old(observers)
      ensures |notices| == |old(notices)| + |observers|
    {
      block := GenerateNewBlock(data, now);
      SetLastBlockNext(block.hash);
      AddBlockToChain(block);
    }

    /** The `k`th turn of `minePending`'s loop, stated against the blocks `before` the loop:
        after it the chain holds the first `k + 1` pending items mined as `MineAll` says. */
    method MinePendingItem(stamps: seq<string>, k: nat, ghost before: seq<AppBlockView>) returns (added: Block)
      requires Valid() && |stamps| == |pending| && k < |pending| && |before| >= 1
      requires Blocks() == MineAll(before, pending[..k], stamps[..k], hashing)
      modifies this, chain[|chain| - 1]
      ensures Valid() && fresh(added)
      ensures chain[|chain| - 1] == old(chain[|chain| - 1]) || chain[|chain| - 1] == added
      ensures pending == old(pending) && total == old(total) && observers == old(observers)
      ensures Blocks() == MineAll(before, pending[..k + 1], stamps[..k + 1], hashing)
    {
      MineAllPrefixStep(before, pending, stamps, hashing, k);
      added := AppendPendingItem(pending[k], stamps[k]);
    }

    /** `minePending()`: for each pending item in order, an unmined block on the current tip,
        linked and pushed as `addBlockToChain` does; the pending list is not cleared. Block
        `k` is stamped `stamps[k]`. Only the current tip and new blocks are written. On a
        valid chain every block is kept and the chain stays valid; on an invalid one no
        block is kept. */
    method MinePending(stamps: seq<string>)
      requires Valid() && |stamps| == |pending|
      modifies this, chain[|chain| - 1]
      ensures Valid()
      ensures pending == old(pending) && total == old(total) && observers == old(observers)
      ensures Blocks() == MineAll(old(Blocks()), pending, stamps, hashing)
      ensures ChainValid(old(Blocks())) ==> |chain| == |old(chain)| + |pending| && ChainValid(Blocks())
      ensures !ChainValid(old(Blocks())) ==> |chain| == |old(chain)|
    {
      ghost var before, tip0 := Blocks(), chain[|chain| - 1];
      var k := 0;
      while k < |pending|
        invariant 0 <= k <= |pending|
        invariant Valid()
        invariant chain[|chain| - 1] == tip0 || fresh(chain[|chain| - 1])
        invariant pending == old(pending) && total == old(total) && observers == old(observers)
        invariant Blocks() == MineAll(before, pending[..k], stamps[..k], hashing)
      {
        var added := MinePendingItem(stamps, k, before);
        k := k + 1;
      }
      assert pending[..k] == pending && stamps[..k] == stamps;
      if ChainValid(before) {
        MineAllAppends(before, pending, stamps, hashing);
      } else {
        MineAllOnInvalidChain(before, pending, stamps, hashing);
      }
    }

    /** `getBlockData(hash)`: the data of the first block with that hash; `None` stands for
        the TypeError `find(...).data` throws when there is none. */
    method GetBlockData(h: string) returns (r: Option<AppData>)
      ensures r.None? <==> forall i :: 0 <= i < |chain| ==> chain[i].hash != h
      ensures r.Some? ==> exists i :: 0 <= i < |chain| && chain[i].hash == h && r.value == chain[i].data
                                      && forall j :: 0 <= j < i ==> chain[j].hash != h
    {
      var i := 0;
      while i < |chain|
        invariant 0 <= i <= |chain|
        invariant forall j :: 0 <= j < i ==> chain[j].hash != h
      {
        if chain[i].hash == h {
          return Some(chain[i].data);
        }
        i := i + 1;
      }
      return None;
    }

    /** `getAddressTotal(address)`: the values of every block, genesis included, whose data
        is an object with that address. */
    method GetAddressTotal(address: string) returns (sum: int)
      ensures sum == AppAddressTotal(Blocks(), address)
    {
      ghost var vs := Blocks();
      sum := 0;
      var i := 0;
      while i < |chain|
        invariant 0 <= i <= |chain|
        invariant sum == AppAddressTotal(vs[..i], address)
      {
        assert vs[..i + 1][..i] == vs[..i];
        var d := chain[i].data;
        if d.Payment? && d.address == address {
          sum := sum + d.value;
        }
        i := i + 1;
      }
      assert vs[..i] == vs;
    }
  }
}
