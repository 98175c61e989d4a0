/** The oldest chain (app.js): blocks whose data is either a text (genesis) or a payment
    object `{address, value}`, a `validateChain` that compares only links, an
    `addBlockToChain` that undoes a push the chain then fails, and a `minePending` that
    appends one unmined block per pending item. This module holds the block state as values
    and what each chain operation does to the sequence of blocks. */
module AppSpec {
  import opened Js

  /** What a block's `data` holds: the genesis text, or a payment object. Addresses are
      compared with `===` only, so any value with equality serves; they are strings here. */
  datatype AppData = Text(text: string) | Payment(address: string, value: int)

  /** SHA-256 and `JSON.stringify` of a block's data, opaque and deterministic. */
  datatype AppHashing = AppHashing(sha256: string -> string, stringify: AppData -> string)

  /** The fields of a block at one moment. */
  datatype AppBlockView = AppBlockView(prev: Link, data: AppData, timestamp: string,
                                       nonce: nat, hash: string, next: Link)

  /** The string `generateHash()` digests: prev, timestamp, serialized data and nonce,
      concatenated with `+`. */
  function AppPreimage(h: AppHashing, prev: Link, timestamp: string, data: AppData, nonceText: string): string
  {
    LinkText(prev) + timestamp + h.stringify(data) + nonceText
  }

  /** `generateHash()`: the digest of the preimage. */
  function AppHashWith(h: AppHashing, prev: Link, timestamp: string, data: AppData, nonceText: string): string
  {
    h.sha256(AppPreimage(h, prev, timestamp, data, nonceText))
  }

  /** The hash of a block whose nonce is `n`. */
  function AppHashAt(h: AppHashing, prev: Link, timestamp: string, data: AppData, n: nat): string
  {
    AppHashWith(h, prev, timestamp, data, NatToString(n))
  }

  /** The hash the constructor stores: `this.nonce` is still unset when it is computed. */
  function AppConstructionHash(h: AppHashing, prev: Link, timestamp: string, data: AppData): string
  {
    AppHashWith(h, prev, timestamp, data, "undefined")
  }

  /** Every nonce puts a different string under the digest. */
  lemma AppNoncePreimagesDistinct(h: AppHashing, prev: Link, timestamp: string, data: AppData, m: nat, n: nat)
    ensures AppPreimage(h, prev, timestamp, data, NatToString(m)) == AppPreimage(h, prev, timestamp, data, NatToString(n)) <==> m == n
  {
    CommonPrefixCancels(LinkText(prev) + timestamp + h.stringify(data), NatToString(m), NatToString(n));
    NatToStringInjective(m, n);
  }

  /** The constructor's "undefined" nonce text is no counter's rendering. */
  lemma AppConstructionPreimageIsNoNonce(h: AppHashing, prev: Link, timestamp: string, data: AppData, n: nat)
    ensures AppPreimage(h, prev, timestamp, data, "undefined") != AppPreimage(h, prev, timestamp, data, NatToString(n))
  {
    CommonPrefixCancels(LinkText(prev) + timestamp + h.stringify(data), "undefined", NatToString(n));
    assert "undefined"[0] == 'u';
  }

  /** No nonce strictly between 0 and `nonce` gives a hash that meets `d`, checked from the
      top down. */
  ghost predicate AppNoneMeetsBelow(h: AppHashing, prev: Link, timestamp: string, data: AppData, d: nat, nonce: nat)
    decreases nonce
  {
    nonce <= 1 ||
    (!HasZeroPrefix(AppHashAt(h, prev, timestamp, data, nonce - 1), d)
     && AppNoneMeetsBelow(h, prev, timestamp, data, d, nonce - 1))
  }

  /** The top-down check says the same as the quantified one. */
  lemma {:induction false} AppNoneMeetsBelowMeans(h: AppHashing, prev: Link, timestamp: string, data: AppData, d: nat, nonce: nat)
    ensures AppNoneMeetsBelow(h, prev, timestamp, data, d, nonce) <==>
            forall n :: 0 < n < nonce ==> !HasZeroPrefix(AppHashAt(h, prev, timestamp, data, n), d)
    decreases nonce
  {
    if nonce > 1 {
      AppNoneMeetsBelowMeans(h, prev, timestamp, data, d, nonce - 1);
      var top := !HasZeroPrefix(AppHashAt(h, prev, timestamp, data, nonce - 1), d);
      assert (forall n :: 0 < n < nonce ==> !HasZeroPrefix(AppHashAt(h, prev, timestamp, data, n), d)) <==>
             top && forall n :: 0 < n < nonce - 1 ==> !HasZeroPrefix(AppHashAt(h, prev, timestamp, data, n), d);
    }
  }

  /** The outcome of `mineBlock(d)` on a freshly constructed block: `hash` meets `d`; if the
      construction hash already met it the block is untouched (nonce 0, construction hash),
      otherwise `nonce` is the first positive nonce whose hash meets `d` and `hash` is its
      hash. */
  ghost predicate AppMinedFrom(h: AppHashing, prev: Link, timestamp: string, data: AppData,
                               d: nat, nonce: nat, hash: string)
  {
    && HasZeroPrefix(hash, d)
    && (if HasZeroPrefix(AppConstructionHash(h, prev, timestamp, data), d)
        then nonce == 0 && hash == AppConstructionHash(h, prev, timestamp, data)
        else 0 < nonce && hash == AppHashAt(h, prev, timestamp, data, nonce)
             && AppNoneMeetsBelow(h, prev, timestamp, data, d, nonce))
  }

  /** `mineBlock(d)` ends from (`hash`, `nonce`): the hash already meets `d`, or the nonce
      `bound`, which the loop reaches, meets it. */
  ghost predicate AppMineable(h: AppHashing, prev: Link, timestamp: string, data: AppData,
                              hash: string, nonce: nat, d: nat, bound: nat)
  {
    HasZeroPrefix(hash, d) || (nonce < bound && HasZeroPrefix(AppHashAt(h, prev, timestamp, data, bound), d))
  }

  /** The test `validateChain` applies at index `i`: the block's prev is its predecessor's
      hash, and the predecessor's next is the block's hash. */
  ghost predicate PairValid(vs: seq<AppBlockView>, i: nat)
    requires 1 <= i < |vs|
  {
    vs[i].prev == Hash(vs[i - 1].hash) && vs[i - 1].next == Hash(vs[i].hash)
  }

  /** What `validateChain()` accepts: every adjacent pair passes. The tip's next and every
      block's hash against its contents are not looked at. */
  ghost predicate ChainValid(vs: seq<AppBlockView>)
    ensures |vs| <= 1 ==> ChainValid(vs)
  {
    forall i :: 1 <= i < |vs| ==> PairValid(vs, i)
  }

  /** `validateChain()` is prefix-closed: every prefix of a chain it accepts is accepted,
      so popping blocks off a valid chain keeps it valid. */
  lemma ChainValidPrefixClosed(vs: seq<AppBlockView>, n: nat)
    requires ChainValid(vs) && n <= |vs|
    ensures ChainValid(vs[..n])
  {
    forall i | 1 <= i < n ensures PairValid(vs[..n], i) {
      assert PairValid(vs, i);
    }
  }

  /** `setLastBlockNext(h)`: the tip's next becomes the digest `h`. */
  function Relink(vs: seq<AppBlockView>, h: string): (ws: seq<AppBlockView>)
    requires |vs| >= 1
    ensures |ws| == |vs| && ws[..|vs| - 1] == vs[..|vs| - 1]
    ensures ws[|vs| - 1] == vs[|vs| - 1].(next := Hash(h))
  {
    vs[..|vs| - 1] + [vs[|vs| - 1].(next := Hash(h))]
  }

  /** `addBlockToChain(b)` on the blocks: push, and pop again if the result fails
      `validateChain()`. */
  ghost function Push(vs: seq<AppBlockView>, b: AppBlockView): (ws: seq<AppBlockView>)
    ensures ws == vs || ws == vs + [b]
    ensures ChainValid(vs + [b]) <==> ws == vs + [b]
  {
    if ChainValid(vs + [b]) then vs + [b] else vs
  }

  /** `generateNewBlock(tip, data)` at time `now`: unmined, nonce 0, on the tip's hash. */
  function NewBlockOn(vs: seq<AppBlockView>, data: AppData, now: string, h: AppHashing): (b: AppBlockView)
    requires |vs| >= 1
    ensures b.prev == Hash(vs[|vs| - 1].hash) && b.data == data && b.timestamp == now
    ensures b.nonce == 0 && b.next == Undefined
    ensures b.hash == AppConstructionHash(h, b.prev, now, data)
  {
    var prev := Hash(vs[|vs| - 1].hash);
    AppBlockView(prev, data, now, 0, AppConstructionHash(h, prev, now, data), Undefined)
  }

  /** One step of `minePending`: a new unmined block on the tip, the tip linked forward to
      it, and the push that `addBlockToChain` may undo. */
  ghost function PendingStep(vs: seq<AppBlockView>, data: AppData, now: string, h: AppHashing): (ws: seq<AppBlockView>)
    requires |vs| >= 1
    ensures |ws| == |vs| || |ws| == |vs| + 1
  {
    var b := NewBlockOn(vs, data, now, h);
    Push(Relink(vs, b.hash), b)
  }

  /** `minePending()` on the blocks: one step per pending item, in order, block `k` stamped
      with `stamps[k]`. */
  ghost function MineAll(vs: seq<AppBlockView>, items: seq<AppData>, stamps: seq<string>, h: AppHashing): (ws: seq<AppBlockView>)
    requires |vs| >= 1 && |items| == |stamps|
    ensures |vs| <= |ws| <= |vs| + |items|
    decreases |items|
  {
    if |items| == 0 then vs
    else
      var init := MineAll(vs, items[..|items| - 1], stamps[..|stamps| - 1], h);
      PendingStep(init, items[|items| - 1], stamps[|stamps| - 1], h)
  }

  /** Mining the first `k + 1` items is one more step after mining the first `k`. */
  lemma MineAllPrefixStep(vs: seq<AppBlockView>, items: seq<AppData>, stamps: seq<string>, h: AppHashing, k: nat)
    requires |vs| >= 1 && |items| == |stamps| && k < |items|
    ensures MineAll(vs, items[..k + 1], stamps[..k + 1], h)
              == PendingStep(MineAll(vs, items[..k], stamps[..k], h), items[k], stamps[k], h)
  {
    assert items[..k + 1][..k] == items[..k] && stamps[..k + 1][..k] == stamps[..k];
  }

  /** What one block adds to `getAddressTotal(a)`: its value when its data is an object whose
      address is `a`. A text has no `address`, so it adds nothing. */
  function Credit(d: AppData, a: string): int
  {
    if d.Payment? && d.address == a then d.value else 0
  }

  /** `getAddressTotal(a)`: `reduce` over every block, genesis included, from 0. */
  function AppAddressTotal(vs: seq<AppBlockView>, a: string): (t: int)
    ensures (forall i :: 0 <= i < |vs| ==> !(vs[i].data.Payment? && vs[i].data.address == a)) ==> t == 0
  {
    if |vs| == 0 then 0
    else
      assert forall i :: 0 <= i < |vs| - 1 ==> vs[..|vs| - 1][i] == vs[i];
      AppAddressTotal(vs[..|vs| - 1], a) + Credit(vs[|vs| - 1].data, a)
  }

  /** The sum of what a list of data items adds to `a`'s total. */
  function DataTotal(items: seq<AppData>, a: string): int
  {
    if |items| == 0 then 0 else DataTotal(items[..|items| - 1], a) + Credit(items[|items| - 1], a)
  }

  /** On a valid chain a block built on the tip is kept: linking the tip to it and pushing
      it yields the relinked chain plus the block, and the result is valid again. */
  lemma ValidChainKeepsBlock(vs: seq<AppBlockView>, b: AppBlockView)
    requires |vs| >= 1 && ChainValid(vs) && b.prev == Hash(vs[|vs| - 1].hash)
    ensures ChainValid(Relink(vs, b.hash) + [b])
    ensures Push(Relink(vs, b.hash), b) == Relink(vs, b.hash) + [b]
  {
    var ws := Relink(vs, b.hash) + [b];
    forall i | 1 <= i < |ws| ensures PairValid(ws, i) {
      if i < |vs| {
        assert PairValid(vs, i);
      }
    }
  }

  /** On a chain that already fails `validateChain()`, every push is popped again, but the
      tip keeps the forward link to the block that was dropped. */
  lemma InvalidChainDropsBlock(vs: seq<AppBlockView>, b: AppBlockView, h: string)
    requires |vs| >= 1 && !ChainValid(vs)
    ensures Push(Relink(vs, h), b) == Relink(vs, h)
    ensures Relink(vs, h)[|vs| - 1].next == Hash(h)
  {
    var i :| 1 <= i < |vs| && !PairValid(vs, i);
    var ws := Relink(vs, h) + [b];
    assert ws[i - 1].next == vs[i - 1].next;
    assert ws[i] == vs[i] || ws[i] == vs[i].(next := Hash(h));
    assert !PairValid(ws, i);
  }

  /** Both outcomes of relinking the tip to a block built on it and pushing the block. */
  lemma PushOnTip(vs: seq<AppBlockView>, b: AppBlockView)
    requires |vs| >= 1 && b.prev == Hash(vs[|vs| - 1].hash)
    ensures ChainValid(vs) ==> Push(Relink(vs, b.hash), b) == Relink(vs, b.hash) + [b] && ChainValid(Relink(vs, b.hash) + [b])
    ensures !ChainValid(vs) ==> Push(Relink(vs, b.hash), b) == Relink(vs, b.hash)
  {
    if ChainValid(vs) {
      ValidChainKeepsBlock(vs, b);
    } else {
      InvalidChainDropsBlock(vs, b, b.hash);
    }
  }

  /** Changing the stored hash of any block of a valid chain of two or more blocks makes
      `validateChain()` fail: the block's successor (or, for the tip, its predecessor)
      still holds the old hash. */
  lemma TamperedHashDetected(vs: seq<AppBlockView>, k: nat, h: string)
    requires ChainValid(vs) && |vs| >= 2 && k < |vs| && h != vs[k].hash
    ensures !ChainValid(vs[k := vs[k].(hash := h)])
  {
    var ws := vs[k := vs[k].(hash := h)];
    if k == 0 {
      assert PairValid(vs, 1);
      assert !PairValid(ws, 1);
    } else {
      assert PairValid(vs, k);
      assert !PairValid(ws, k);
    }
  }

  /** `validateChain()` never recomputes a hash: changing the data of any block leaves a
      valid chain valid. */
  lemma TamperedDataUndetected(vs: seq<AppBlockView>, k: nat, d: AppData)
    requires ChainValid(vs) && k < |vs|
    ensures ChainValid(vs[k := vs[k].(data := d)])
  {
    var ws := vs[k := vs[k].(data := d)];
    forall i | 1 <= i < |ws| ensures PairValid(ws, i) {
      assert PairValid(vs, i);
    }
  }

  /** One step of `minePending()` on a valid chain appends the new block, unmined and
      carrying `data`, keeps the chain valid, and changes no earlier block's data or nonce. */
  lemma PendingStepOnValid(vs: seq<AppBlockView>, data: AppData, now: string, h: AppHashing)
    requires |vs| >= 1 && ChainValid(vs)
    ensures |PendingStep(vs, data, now, h)| == |vs| + 1
    ensures ChainValid(PendingStep(vs, data, now, h))
    ensures PendingStep(vs, data, now, h)[|vs|].data == data && PendingStep(vs, data, now, h)[|vs|].nonce == 0
    ensures PendingStep(vs, data, now, h)[..|vs| - 1] == vs[..|vs| - 1]
    ensures forall j :: 0 <= j < |vs| ==>
              PendingStep(vs, data, now, h)[j].data == vs[j].data && PendingStep(vs, data, now, h)[j].nonce == vs[j].nonce
  {
    var b := NewBlockOn(vs, data, now, h);
    ValidChainKeepsBlock(vs, b);
    var ws := Relink(vs, b.hash) + [b];
    assert PendingStep(vs, data, now, h) == ws;
    forall j | 0 <= j < |vs| ensures ws[j].data == vs[j].data && ws[j].nonce == vs[j].nonce {
      if j < |vs| - 1 {
        assert ws[j] == vs[..|vs| - 1][j];
      }
    }
    assert ws[..|vs| - 1] == Relink(vs, b.hash)[..|vs| - 1];
  }

  /** `minePending()` on a valid chain keeps every block: it appends exactly one block per
      pending item, carrying that item, unmined, and the result is valid. */
  lemma {:induction false} MineAllAppends(vs: seq<AppBlockView>, items: seq<AppData>, stamps: seq<string>, h: AppHashing)
    requires |vs| >= 1 && ChainValid(vs) && |items| == |stamps|
    ensures |MineAll(vs, items, stamps, h)| == |vs| + |items|
    ensures ChainValid(MineAll(vs, items, stamps, h))
    ensures forall k :: 0 <= k < |items| ==>
              MineAll(vs, items, stamps, h)[|vs| + k].data == items[k] && MineAll(vs, items, stamps, h)[|vs| + k].nonce == 0
    ensures MineAll(vs, items, stamps, h)[..|vs| - 1] == vs[..|vs| - 1]
    decreases |items|
  {
    if |items| > 0 {
      var n := |items|;
      var init := MineAll(vs, items[..n - 1], stamps[..n - 1], h);
      MineAllAppends(vs, items[..n - 1], stamps[..n - 1], h);
      PendingStepOnValid(init, items[n - 1], stamps[n - 1], h);
      var ws := PendingStep(init, items[n - 1], stamps[n - 1], h);
      assert MineAll(vs, items, stamps, h) == ws;
      forall k | 0 <= k < n ensures ws[|vs| + k].data == items[k] && ws[|vs| + k].nonce == 0 {
        if k < n - 1 {
          assert items[..n - 1][k] == items[k];
        }
      }
      assert ws[..|vs| - 1] == init[..|vs| - 1] by {
        assert ws[..|init| - 1][..|vs| - 1] == ws[..|vs| - 1];
      }
    }
  }

  /** Linking the tip forward does not repair a chain that fails `validateChain()`: the
      failing pair lies before the tip's next link. */
  lemma RelinkKeepsInvalid(vs: seq<AppBlockView>, h: string)
    requires |vs| >= 1 && !ChainValid(vs)
    ensures !ChainValid(Relink(vs, h))
  {
    var j :| 1 <= j < |vs| && !PairValid(vs, j);
    var ws := Relink(vs, h);
    assert ws[j - 1] == vs[j - 1] && ws[j].prev == vs[j].prev && ws[j].hash == vs[j].hash;
    assert !PairValid(ws, j);
  }

  /** `minePending()` on a chain that already fails `validateChain()` keeps the blocks it
      had, and changes at most the tip's next link. */
  lemma {:induction false} MineAllOnInvalidChain(vs: seq<AppBlockView>, items: seq<AppData>, stamps: seq<string>, h: AppHashing)
    requires |vs| >= 1 && !ChainValid(vs) && |items| == |stamps|
    ensures |MineAll(vs, items, stamps, h)| == |vs|
    ensures !ChainValid(MineAll(vs, items, stamps, h))
    ensures MineAll(vs, items, stamps, h)[..|vs| - 1] == vs[..|vs| - 1]
    ensures MineAll(vs, items, stamps, h)[|vs| - 1].(next := vs[|vs| - 1].next) == vs[|vs| - 1]
    decreases |items|
  {
    if |items| > 0 {
      var n := |items|;
      var init := MineAll(vs, items[..n - 1], stamps[..n - 1], h);
      MineAllOnInvalidChain(vs, items[..n - 1], stamps[..n - 1], h);
      var b := NewBlockOn(init, items[n - 1], stamps[n - 1], h);
      InvalidChainDropsBlock(init, b, b.hash);
      RelinkKeepsInvalid(init, b.hash);
      var ws := Relink(init, b.hash);
      assert MineAll(vs, items, stamps, h) == ws;
      assert ws[|vs| - 1].(next := vs[|vs| - 1].next) == init[|vs| - 1].(next := vs[|vs| - 1].next);
    }
  }

  /** Pushing a block adds its data's credit to every address's total. */
  lemma PushCredits(vs: seq<AppBlockView>, b: AppBlockView, a: string)
    ensures AppAddressTotal(vs + [b], a) == AppAddressTotal(vs, a) + Credit(b.data, a)
  {
    assert (vs + [b])[..|vs|] == vs;
  }

  /** Relinking the tip leaves every total unchanged: totals read data only. */
  lemma {:induction false} RelinkKeepsTotal(vs: seq<AppBlockView>, h: string, a: string)
    requires |vs| >= 1
    ensures AppAddressTotal(Relink(vs, h), a) == AppAddressTotal(vs, a)
  {
    var ws := Relink(vs, h);
    assert ws[..|vs| - 1] == vs[..|vs| - 1];
  }

  /** The genesis text counts for nobody: a chain holding only its genesis block has total
      0 for every address. */
  lemma GenesisCountsForNobody(g: AppBlockView, a: string)
    requires g.data.Text?
    ensures AppAddressTotal([g], a) == 0
  {
    assert [g][..0] == [];
  }

  /** On a valid chain, `minePending()` raises each address's total by exactly what the
      pending payments to it are worth. */
  lemma {:induction false} MineAllCredits(vs: seq<AppBlockView>, items: seq<AppData>, stamps: seq<string>, h: AppHashing, a: string)
    requires |vs| >= 1 && ChainValid(vs) && |items| == |stamps|
    ensures AppAddressTotal(MineAll(vs, items, stamps, h), a) == AppAddressTotal(vs, a) + DataTotal(items, a)
    decreases |items|
  {
    if |items| > 0 {
      var n := |items|;
      var init := MineAll(vs, items[..n - 1], stamps[..n - 1], h);
      MineAllCredits(vs, items[..n - 1], stamps[..n - 1], h, a);
      MineAllAppends(vs, items[..n - 1], stamps[..n - 1], h);
      var b := NewBlockOn(init, items[n - 1], stamps[n - 1], h);
      ValidChainKeepsBlock(init, b);
      PushCredits(Relink(init, b.hash), b, a);
      RelinkKeepsTotal(init, b.hash, a);
    }
  }
}
