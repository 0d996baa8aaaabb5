/**
 * The proof-of-work half of the consensus demo: a block without an index
 * whose cached hash covers timestamp, JSON payload, previous hash and
 * nonce, its mining loop, and the race that keeps the fastest miner.
 * The timestamps read from the clock and the measured mining times are
 * inputs.
 */
module ConsensusDemo {
  import opened JsRuntime
  import opened Difficulty

  class Block {
    var timestamp: string
    var data: Payload
    var previousHash: string
    var nonce: nat
    var hash: string

    /** Everything the hash covers except the nonce, which comes last. */
    function Head(js: Js): string
      reads this`timestamp, this`data, this`previousHash
    {
      timestamp + js.stringify(data) + previousHash
    }

    /** `calculateHash()` for the current field values. */
    function CalculateHash(js: Js): string
      reads this
    {
      HashWithNonce(js.sha256, Head(js), nonce)
    }

    /** `new Block(data, previousHash)`, with `new Date().toISOString()` passed in as `timestamp`. */
    constructor (js: Js, timestamp: string, data: Payload, previousHash: string)
      ensures this.timestamp == timestamp && this.data == data && this.previousHash == previousHash
      ensures nonce == 0
      ensures hash == js.sha256(timestamp + js.stringify(data) + previousHash + "0")
      ensures hash == CalculateHash(js)
    {
      this.timestamp := timestamp;
      this.data := data;
      this.previousHash := previousHash;
      this.nonce := 0;
      new;
      this.hash := CalculateHash(js);
    }

    /**
     * `mineBlock(difficulty)`: raise the nonce one step at a time, rehashing
     * after each step, until the hash meets the target; return the nonce.
     * The loop tests the stored hash before the first step, so a stale
     * hash is tested once as it is. The script's loop never exits when no
     * nonce qualifies; the requires names the nonce that makes it exit.
     */
    method MineBlock(js: Js, difficulty: nat) returns (found: nat)
      requires MeetsDifficulty(hash, difficulty) ||
               exists n: nat :: nonce < n && MeetsDifficulty(HashWithNonce(js.sha256, Head(js), n), difficulty)
      modifies this`nonce, this`hash
      ensures timestamp == old(timestamp) && data == old(data) && previousHash == old(previousHash)
      ensures found == nonce && old(nonce) <= nonce
      ensures MeetsDifficulty(hash, difficulty)
      ensures nonce == old(nonce) ==> hash == old(hash)
      ensures old(nonce) < nonce ==> hash == CalculateHash(js) && !MeetsDifficulty(old(hash), difficulty)
      ensures forall k :: old(nonce) < k < nonce ==> !MeetsDifficulty(HashWithNonce(js.sha256, Head(js), k), difficulty)
      ensures old(hash == CalculateHash(js)) ==>
                hash == CalculateHash(js) && FirstSolution(js.sha256, Head(js), difficulty, old(nonce), nonce)
      ensures difficulty == 0 ==> nonce == old(nonce) && hash == old(hash)
    {
      ghost var start, head := nonce, Head(js);
      ghost var goal: nat := nonce;
      if !MeetsDifficulty(hash, difficulty) {
        goal :| nonce < goal && MeetsDifficulty(HashWithNonce(js.sha256, head, goal), difficulty);
      }
      var target := Zeros(difficulty);
      while Prefix(hash, difficulty) != target
        invariant nonce <= goal
        invariant goal == start ==> MeetsDifficulty(old(hash), difficulty)
        invariant start < goal ==> MeetsDifficulty(HashWithNonce(js.sha256, head, goal), difficulty)
        invariant Head(js) == head
        invariant Searched(js.sha256, head, difficulty, start, old(hash), nonce, hash)
        decreases goal - nonce
      {
        SearchStep(js.sha256, head, difficulty, start, old(hash), nonce, hash);
        nonce := nonce + 1;
        hash := CalculateHash(js);
      }
      if old(hash == CalculateHash(js)) {
        SearchDone(js.sha256, head, difficulty, start, nonce, hash);
      }
      found := nonce;
    }
  }

  /** A PoW competitor: `{ name }`. */
  datatype Miner = Miner(name: string)

  /** `{ ...miner, timeTaken, nonce, hash: block.hash }`. */
  datatype PowWinner = PowWinner(name: string, timeTaken: nat, nonce: nat, hash: string)

  /** The payload every PoW competitor mines: `{ from: 'A', to: 'B', amount: 10 }`. */
  const PowPayload: Payload := [("from", Str("A")), ("to", Str("B")), ("amount", Num(10))]

  /** The hash input of a PoW competitor's block, up to the nonce. */
  function PowHead(js: Js, timestamp: string): string {
    timestamp + js.stringify(PowPayload) + "prevHash"
  }

  /**
   * The index the `simulatePoW` loop settles on: a later miner replaces the
   * current winner only when strictly faster.
   */
  function FirstFastest(times: seq<nat>): (j: nat)
    requires 0 < |times|
    ensures j < |times|
  {
    if |times| == 1 then 0
    else
      var j := FirstFastest(times[..|times| - 1]);
      if times[|times| - 1] < times[j] then |times| - 1 else j
  }

  /** One more miner: the winner changes only to a strictly faster newcomer. */
  lemma FirstFastestStep(times: seq<nat>, i: nat)
    requires 0 < i < |times|
    ensures FirstFastest(times[..i + 1]) ==
            if times[i] < times[FirstFastest(times[..i])] then i else FirstFastest(times[..i])
  {
    assert times[..i + 1][..i] == times[..i];
  }

  /** FirstFastest picks a minimal time, and no earlier miner was as fast. */
  lemma {:induction false} FirstFastestIsFirstMinimum(times: seq<nat>)
    requires 0 < |times|
    ensures forall k :: 0 <= k < |times| ==> times[FirstFastest(times)] <= times[k]
    ensures forall k :: 0 <= k < FirstFastest(times) ==> times[FirstFastest(times)] < times[k]
  {
    if 1 < |times| {
      var init := times[..|times| - 1];
      FirstFastestIsFirstMinimum(init);
      assert forall k :: 0 <= k < |init| ==> init[k] == times[k];
    }
  }

  /**
   * `simulatePoW(miners, difficulty)`: every miner mines a fresh block; the
   * strictly fastest is kept, the first one on ties. An empty roster leaves
   * the winner `null` and the final `winner.name` raises a TypeError.
   * `timestamps[i]` and `times[i]` are the clock readings for miner i.
   */
  method SimulatePoW(js: Js, miners: seq<Miner>, difficulty: nat, timestamps: seq<string>, times: seq<nat>)
    returns (r: Result<PowWinner>)
    requires |timestamps| == |miners| && |times| == |miners|
    requires forall i :: 0 <= i < |miners| ==>
               exists n: nat :: MeetsDifficulty(HashWithNonce(js.sha256, PowHead(js, timestamps[i]), n), difficulty)
    ensures |miners| == 0 <==> r.Failure?
    ensures r.Success? ==>
              var j := FirstFastest(times);
              r.value.name == miners[j].name && r.value.timeTaken == times[j] &&
              (forall k :: 0 <= k < |times| ==> r.value.timeTaken <= times[k]) &&
              (forall k :: 0 <= k < j ==> r.value.timeTaken < times[k]) &&
              MeetsDifficulty(r.value.hash, difficulty) &&
              MinedBy(js, difficulty, timestamps[j], r.value)
  {
    var winner: Option<PowWinner> := None;
    ghost var best: nat := 0;
    var i := 0;
    while i < |miners|
      invariant 0 <= i <= |miners|
      invariant i == 0 <==> winner.None?
      invariant 0 < i ==> best == FirstFastest(times[..i])
      invariant winner.Some? ==>
                  best < i && winner.value.name == miners[best].name && winner.value.timeTaken == times[best] &&
                  MinedBy(js, difficulty, timestamps[best], winner.value)
    {
      var candidate := RunMiner(js, miners[i], difficulty, timestamps[i], times[i]);
      if 0 < i {
        FirstFastestStep(times, i);
      }
      if winner.None? || candidate.timeTaken < winner.value.timeTaken {
        winner := Some(candidate);
        best := i;
      }
      i := i + 1;
    }
    if winner.None? {
      r := Failure(TypeError);
    } else {
      assert times[..|miners|] == times;
      FirstFastestIsFirstMinimum(times);
      r := Success(winner.value);
    }
  }

  /**
   * One pass of the `simulatePoW` callback: mine a fresh block stamped
   * `timestamp` and describe the result as `{ ...miner, timeTaken, nonce, hash }`.
   */
  method RunMiner(js: Js, miner: Miner, difficulty: nat, timestamp: string, timeTaken: nat) returns (w: PowWinner)
    requires exists n: nat :: MeetsDifficulty(HashWithNonce(js.sha256, PowHead(js, timestamp), n), difficulty)
    ensures w.name == miner.name && w.timeTaken == timeTaken
    ensures MeetsDifficulty(w.hash, difficulty)
    ensures MinedBy(js, difficulty, timestamp, w)
  {
    var block := new Block(js, timestamp, PowPayload, "prevHash");
    SolutionFromZero(js.sha256, PowHead(js, timestamp), difficulty);
    var nonce := block.MineBlock(js, difficulty);
    w := PowWinner(miner.name, timeTaken, nonce, block.hash);
  }

  /** w is the record of a miner whose fresh block, stamped `timestamp`, was mined to nonce `w.nonce`. */
  ghost predicate MinedBy(js: Js, difficulty: nat, timestamp: string, w: PowWinner) {
    w.hash == HashWithNonce(js.sha256, PowHead(js, timestamp), w.nonce) &&
    FirstSolution(js.sha256, PowHead(js, timestamp), difficulty, 0, w.nonce)
  }
}
