/**
 * The chain script: indexed blocks linked by previous hash, the validator
 * that walks adjacent pairs, and the scenario that tampers with the first
 * block of a three-block chain. Chains are sequences of block objects;
 * what the validator sees of them is stated on their values.
 */
module BlockchainSimulation {
  import opened JsRuntime

  /** `index + timestamp + JSON.stringify(data) + previousHash + nonce`. */
  function Preimage(js: Js, index: nat, timestamp: string, data: Payload, previousHash: string, nonce: nat): string {
    NatToString(index) + timestamp + js.stringify(data) + previousHash + NatToString(nonce)
  }

  /** The fields of a block at one moment. */
  datatype BlockView = BlockView(index: nat, timestamp: string, data: Payload, previousHash: string, nonce: nat, hash: string)

  /** `calculateHash()` of a block with these fields; the stored hash is not part of its own input. */
  function HashOf(js: Js, b: BlockView): string {
    js.sha256(Preimage(js, b.index, b.timestamp, b.data, b.previousHash, b.nonce))
  }

  /** The two tests `isChainValid` applies to an adjacent pair. */
  predicate LinkHolds(js: Js, previous: BlockView, current: BlockView) {
    current.previousHash == previous.hash && current.hash == HashOf(js, current)
  }

  /** Every block after the first points at its predecessor's stored hash and stores its own correct hash. */
  predicate ChainValid(js: Js, chain: seq<BlockView>) {
    forall i :: 1 <= i < |chain| ==> LinkHolds(js, chain[i - 1], chain[i])
  }

  class Block {
    var index: nat
    var timestamp: string
    var data: Payload
    var previousHash: string
    var nonce: nat
    var hash: string

    function View(): BlockView
      reads this
    {
      BlockView(index, timestamp, data, previousHash, nonce, hash)
    }

    /** `calculateHash()`. */
    function CalculateHash(js: Js): string
      reads this
    {
      HashOf(js, View())
    }

    /** `new Block(index, timestamp, data, previousHash)`. */
    constructor (js: Js, index: nat, timestamp: string, data: Payload, previousHash: string)
      ensures View() == NewBlock(js, index, timestamp, data, previousHash)
      ensures nonce == 0 && hash == CalculateHash(js)
    {
      this.index := index;
      this.timestamp := timestamp;
      this.data := data;
      this.previousHash := previousHash;
      this.nonce := 0;
      new;
      this.hash := CalculateHash(js);
    }
  }

  /** The value a freshly constructed block has. */
  function NewBlock(js: Js, index: nat, timestamp: string, data: Payload, previousHash: string): (b: BlockView)
    ensures b.index == index && b.timestamp == timestamp && b.data == data && b.previousHash == previousHash
    ensures b.nonce == 0
    ensures b.hash == js.sha256(NatToString(index) + timestamp + js.stringify(data) + previousHash + "0")
    ensures b.hash == HashOf(js, b)
  {
    var b := BlockView(index, timestamp, data, previousHash, 0, "");
    b.(hash := HashOf(js, b))
  }

  function Views(blocks: seq<Block>): (vs: seq<BlockView>)
    reads blocks
    ensures |vs| == |blocks|
    ensures forall i :: 0 <= i < |blocks| ==> vs[i] == blocks[i].View()
  {
    seq(|blocks|, i reads blocks requires 0 <= i < |blocks| => blocks[i].View())
  }

  /**
   * `isChainValid(blocks)`: a read-only walk over the adjacent pairs that
   * returns false at the first broken link. Block 0 is only ever looked at
   * as a predecessor.
   */
  method IsChainValid(js: Js, blocks: seq<Block>) returns (valid: bool)
    ensures valid == ChainValid(js, Views(blocks))
    ensures |blocks| <= 1 ==> valid
  {
    ghost var chain := Views(blocks);
    var i := 1;
    while i < |blocks|
      invariant 1 <= i
      invariant forall j :: 1 <= j < i && j < |blocks| ==> LinkHolds(js, chain[j - 1], chain[j])
    {
      var current := blocks[i];
      var previous := blocks[i - 1];
      if current.previousHash != previous.hash {
        return false;
      }
      if current.hash != current.CalculateHash(js) {
        return false;
      }
      i := i + 1;
    }
    return true;
  }

  /** One block to add to a chain: `new Block(index, timestamp, data, <predecessor's hash>)`. */
  datatype Entry = Entry(index: nat, timestamp: string, data: Payload)

  /** Blocks constructed in order, each taking its predecessor's hash as previous hash. */
  function LinkedChain(js: Js, genesisPrevious: string, entries: seq<Entry>): (chain: seq<BlockView>)
    ensures |chain| == |entries|
  {
    if entries == [] then []
    else
      var init := LinkedChain(js, genesisPrevious, entries[..|entries| - 1]);
      var e := entries[|entries| - 1];
      var previous := if init == [] then genesisPrevious else init[|init| - 1].hash;
      init + [NewBlock(js, e.index, e.timestamp, e.data, previous)]
  }

  /** A chain built by linking freshly constructed blocks is valid, and every block in it, genesis included, is consistent. */
  lemma {:induction false} LinkedChainValid(js: Js, genesisPrevious: string, entries: seq<Entry>)
    ensures ChainValid(js, LinkedChain(js, genesisPrevious, entries))
    ensures forall i :: 0 <= i < |entries| ==>
              LinkedChain(js, genesisPrevious, entries)[i].hash == HashOf(js, LinkedChain(js, genesisPrevious, entries)[i])
  {
    if entries != [] {
      LinkedChainValid(js, genesisPrevious, entries[..|entries| - 1]);
    }
  }

  /** Whatever block 0 holds, only its stored hash matters to the validator. */
  lemma GenesisNotChecked(js: Js, chain: seq<BlockView>, genesis: BlockView)
    requires 0 < |chain| && genesis.hash == chain[0].hash
    ensures ChainValid(js, [genesis] + chain[1..]) == ChainValid(js, chain)
  {
    var other := [genesis] + chain[1..];
    assert forall i :: 1 <= i < |chain| ==> other[i] == chain[i];
    assert other[0].hash == chain[0].hash;
    assert forall i :: 1 <= i < |chain| ==> (LinkHolds(js, other[i - 1], other[i]) <==> LinkHolds(js, chain[i - 1], chain[i]));
  }

  /** `block.data = data` followed by `block.hash = block.calculateHash()`. */
  function Tamper(js: Js, b: BlockView, data: Payload): (t: BlockView)
    ensures t.index == b.index && t.timestamp == b.timestamp && t.previousHash == b.previousHash && t.nonce == b.nonce
    ensures t.data == data && t.hash == HashOf(js, t)
  {
    var changed := b.(data := data);
    changed.(hash := HashOf(js, changed))
  }

  /**
   * Tampering with block i of a valid chain and recomputing only its own
   * hash keeps the chain valid exactly when i is the last block or the
   * recomputed hash equals the old one: the next block's previous hash
   * exposes any change.
   */
  lemma TamperDetected(js: Js, chain: seq<BlockView>, i: nat, data: Payload)
    requires ChainValid(js, chain) && i < |chain|
    ensures ChainValid(js, chain[i := Tamper(js, chain[i], data)]) <==>
            (i + 1 == |chain| || Tamper(js, chain[i], data).hash == chain[i].hash)
  {
    var t := Tamper(js, chain[i], data);
    var after := chain[i := t];
    if i + 1 < |chain| && t.hash != chain[i].hash {
      assert !LinkHolds(js, after[i], after[i + 1]);
    } else {
      forall j | 1 <= j < |after| ensures LinkHolds(js, after[j - 1], after[j]) {
        assert LinkHolds(js, chain[j - 1], chain[j]);
      }
    }
  }

  /** With collision-free SHA-256 and JSON.stringify, changing a block's data changes its hash. */
  lemma DataChangesHash(js: Js, b: BlockView, data: Payload)
    requires CollisionFree(js) && data != b.data
    ensures HashOf(js, b.(data := data)) != HashOf(js, b)
  {
    if HashOf(js, b.(data := data)) == HashOf(js, b) {
      var a, z := NatToString(b.index) + b.timestamp, b.previousHash + NatToString(b.nonce);
      assert Preimage(js, b.index, b.timestamp, data, b.previousHash, b.nonce) == a + js.stringify(data) + z;
      assert Preimage(js, b.index, b.timestamp, b.data, b.previousHash, b.nonce) == a + js.stringify(b.data) + z;
      CancelAround(NatToString(b.index) + b.timestamp, js.stringify(data), js.stringify(b.data),
                   b.previousHash + NatToString(b.nonce));
    }
  }

  /**
   * Changing a block's data without recomputing its hash keeps a valid
   * chain valid exactly when the block is block 0, whose own hash is never
   * checked, or the new data happens to hash to the stored hash.
   */
  lemma StaleHashDetected(js: Js, chain: seq<BlockView>, i: nat, data: Payload)
    requires ChainValid(js, chain) && i < |chain|
    ensures ChainValid(js, chain[i := chain[i].(data := data)]) <==>
            (i == 0 || HashOf(js, chain[i].(data := data)) == chain[i].hash)
  {
    var after := chain[i := chain[i].(data := data)];
    if i == 0 {
      assert after == [after[0]] + chain[1..];
      GenesisNotChecked(js, chain, after[0]);
    } else if HashOf(js, after[i]) == chain[i].hash {
      forall j | 1 <= j < |after| ensures LinkHolds(js, after[j - 1], after[j]) {
        assert LinkHolds(js, chain[j - 1], chain[j]);
      }
    } else {
      assert !LinkHolds(js, after[i - 1], after[i]);
    }
  }

  /** Under an idealised collision-free hash, a stale hash is caught on every block but block 0. */
  lemma StaleDataCaught(js: Js, chain: seq<BlockView>, i: nat, data: Payload)
    requires ChainValid(js, chain) && i < |chain|
    requires CollisionFree(js) && data != chain[i].data
    ensures ChainValid(js, chain[i := chain[i].(data := data)]) <==> i == 0
  {
    StaleHashDetected(js, chain, i, data);
    if 0 < i {
      assert LinkHolds(js, chain[i - 1], chain[i]);
      DataChangesHash(js, chain[i], data);
    }
  }

  /** `{ amount: n }`. */
  function Amount(n: int): Payload {
    [("amount", Num(n))]
  }

  /**
   * The script's scenario: three linked blocks with amounts 100, 200 and
   * 300, then `block1.data.amount = 999` and a fresh hash for block 1 only,
   * then `isChainValid([block1, block2, block3])`. The chain stays valid
   * only if the tampered block hashes as before, which a collision-free
   * hash rules out.
   */
  method TamperScenario(js: Js, timestamp1: string, timestamp2: string, timestamp3: string) returns (valid: bool)
    ensures valid <==> (js.sha256(Preimage(js, 1, timestamp1, Amount(999), "0", 0)) ==
                        js.sha256(Preimage(js, 1, timestamp1, Amount(100), "0", 0)))
    ensures CollisionFree(js) ==> !valid
  {
    var block1, block2, block3 := BuildChain(js, timestamp1, timestamp2, timestamp3);
    ghost var original := [block1.View(), block2.View(), block3.View()];
    assert ChainValid(js, original);
    SetAmount(js, block1, 999);
    assert block1.data == Amount(999);
    ghost var tampered := Tamper(js, original[0], Amount(999));
    assert Views([block1, block2, block3]) == original[0 := tampered];
    TamperDetected(js, original, 0, Amount(999));
    valid := IsChainValid(js, [block1, block2, block3]);
    if CollisionFree(js) {
      DataChangesHash(js, original[0], Amount(999));
    }
  }

  /** The script's three blocks, each linked to the one before, the first to '0'. */
  method BuildChain(js: Js, timestamp1: string, timestamp2: string, timestamp3: string)
    returns (block1: Block, block2: Block, block3: Block)
    ensures fresh(block1) && fresh(block2) && fresh(block3)
    ensures block1 != block2 && block2 != block3 && block1 != block3
    ensures block1.View() == NewBlock(js, 1, timestamp1, Amount(100), "0")
    ensures block2.View() == NewBlock(js, 2, timestamp2, Amount(200), block1.hash)
    ensures block3.View() == NewBlock(js, 3, timestamp3, Amount(300), block2.hash)
  {
    block1 := new Block(js, 1, timestamp1, Amount(100), "0");
    block2 := new Block(js, 2, timestamp2, Amount(200), block1.hash);
    block3 := new Block(js, 3, timestamp3, Amount(300), block2.hash);
  }

  /** `block.data.amount = amount; block.hash = block.calculateHash()`. */
  method SetAmount(js: Js, block: Block, amount: int)
    requires DistinctKeys(block.data)
    modifies block
    ensures block.View() == Tamper(js, old(block.View()), SetField(old(block.data), "amount", Num(amount)))
  {
    block.data := SetField(block.data, "amount", Num(amount));
    block.hash := block.CalculateHash(js);
  }
}
