/**
 * The mining script's block: like the consensus demo's, but with an index
 * that is prepended to the hash input, a caller-supplied timestamp, and a
 * `mineBlock` that returns nothing (its progress and summary output is
 * left out).
 */
module MiningSimulation {
  import opened JsRuntime
  import opened Difficulty

  class Block {
    var index: nat
    var timestamp: string
    var data: Payload
    var previousHash: string
    var nonce: nat
    var hash: string

    /** Everything the hash covers except the nonce, which comes last. */
    function Head(js: Js): string
      reads this`index, this`timestamp, this`data, this`previousHash
    {
      NatToString(index) + timestamp + js.stringify(data) + previousHash
    }

    /** `calculateHash()` for the current field values. */
    function CalculateHash(js: Js): string
      reads this
    {
      HashWithNonce(js.sha256, Head(js), nonce)
    }

    /** `new Block(index, timestamp, data, previousHash)`. */
    constructor (js: Js, index: nat, timestamp: string, data: Payload, previousHash: string)
      ensures this.index == index && this.timestamp == timestamp && this.data == data
      ensures this.previousHash == previousHash
      ensures nonce == 0
      ensures hash == js.sha256(NatToString(index) + timestamp + js.stringify(data) + previousHash + "0")
      ensures hash == CalculateHash(js)
    {
      this.index := index;
      this.timestamp := timestamp;
      this.data := data;
      this.previousHash := previousHash;
      this.nonce := 0;
      new;
      this.hash := CalculateHash(js);
    }

    /**
     * `mineBlock(difficulty)`: raise the nonce one step at a time, rehashing
     * after each step, until the hash starts with `difficulty` zeros. The
     * script's loop never exits when no nonce qualifies; the requires names
     * the nonce that makes it exit.
     */
    method MineBlock(js: Js, difficulty: nat)
      requires MeetsDifficulty(hash, difficulty) ||
               exists n: nat :: nonce < n && MeetsDifficulty(HashWithNonce(js.sha256, Head(js), n), difficulty)
      modifies this`nonce, this`hash
      ensures index == old(index) && timestamp == old(timestamp) && data == old(data)
      ensures previousHash == old(previousHash)
      ensures old(nonce) <= nonce
      ensures MeetsDifficulty(hash, difficulty)
      ensures nonce == old(nonce) ==> hash == old(hash)
      ensures old(nonce) < nonce ==> hash == CalculateHash(js) && !MeetsDifficulty(old(hash), difficulty)
      ensures forall k :: old(nonce) < k < nonce ==> !MeetsDifficulty(HashWithNonce(js.sha256, Head(js), k), difficulty)
      ensures old(hash == CalculateHash(js)) ==>
                hash == CalculateHash(js) && FirstSolution(js.sha256, Head(js), difficulty, old(nonce), nonce)
      ensures difficulty == 0 ==> nonce == old(nonce) && hash == old(hash)
    {
      ghost var start, head := nonce, Head(js);
      ghost var goal: nat := nonce;
      if !MeetsDifficulty(hash, difficulty) {
        goal :| nonce < goal && MeetsDifficulty(HashWithNonce(js.sha256, head, goal), difficulty);
      }
      var target := Zeros(difficulty);
      while Prefix(hash, difficulty) != target
        invariant nonce <= goal
        invariant goal == start ==> MeetsDifficulty(old(hash), difficulty)
        invariant start < goal ==> MeetsDifficulty(HashWithNonce(js.sha256, head, goal), difficulty)
        invariant Head(js) == head
        invariant Searched(js.sha256, head, difficulty, start, old(hash), nonce, hash)
        decreases goal - nonce
      {
        SearchStep(js.sha256, head, difficulty, start, old(hash), nonce, hash);
        nonce := nonce + 1;
        hash := CalculateHash(js);
      }
      if old(hash == CalculateHash(js)) {
        SearchDone(js.sha256, head, difficulty, start, nonce, hash);
      }
    }
  }

  /**
   * The script's run: block #1 with payload `{ sender: "Alice", receiver: "Bob", amount: 42 }`
   * and previous hash '0', mined at the given difficulty. The nonce it ends
   * with is the first one whose hash meets the target.
   */
  method MineDemoBlock(js: Js, timestamp: string, difficulty: nat) returns (nonce: nat, hash: string)
    requires exists n: nat :: MeetsDifficulty(HashWithNonce(js.sha256, DemoHead(js, timestamp), n), difficulty)
    ensures MeetsDifficulty(hash, difficulty)
    ensures hash == HashWithNonce(js.sha256, DemoHead(js, timestamp), nonce)
    ensures FirstSolution(js.sha256, DemoHead(js, timestamp), difficulty, 0, nonce)
  {
    var block := new Block(js, 1, timestamp, DemoPayload, "0");
    SolutionFromZero(js.sha256, DemoHead(js, timestamp), difficulty);
    block.MineBlock(js, difficulty);
    nonce, hash := block.nonce, block.hash;
  }

  const DemoPayload: Payload := [("sender", Str("Alice")), ("receiver", Str("Bob")), ("amount", Num(42))]

  function DemoHead(js: Js, timestamp: string): string {
    NatToString(1) + timestamp + js.stringify(DemoPayload) + "0"
  }
}
