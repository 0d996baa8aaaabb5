/**
 * The proof-of-work target shared by the two mining `Block` classes: a
 * hash meets difficulty d when `hash.substring(0, d)` equals the string of
 * d zeros, and the nonce search walks 0, 1, 2, ... hashing a fixed head
 * string followed by the decimal nonce.
 */
module Difficulty {
  import opened JsRuntime

  /** The loop test of `mineBlock`, negated: `hash.substring(0, d) === target`. */
  predicate MeetsDifficulty(hash: string, difficulty: nat) {
    Prefix(hash, difficulty) == Zeros(difficulty)
  }

  /** The hash a block gets for nonce n when the rest of its preimage is `head`. */
  function HashWithNonce(sha256: string -> string, head: string, n: nat): string {
    sha256(head + NatToString(n))
  }

  /**
   * n is the nonce mining reaches from `start`: its hash meets the target
   * and the hash of every nonce tried before it did not.
   */
  ghost predicate FirstSolution(sha256: string -> string, head: string, difficulty: nat, start: nat, n: nat) {
    start <= n &&
    MeetsDifficulty(HashWithNonce(sha256, head, n), difficulty) &&
    forall k :: start <= k < n ==> !MeetsDifficulty(HashWithNonce(sha256, head, k), difficulty)
  }

  /**
   * What the mining loop knows after moving from nonce `start`, whose stored
   * hash was `startHash`, to `nonce`: the stored hash is still the start
   * hash if no step was taken and the freshly computed one otherwise, the
   * start hash failed the target if a step was taken, and so did the hash
   * of every nonce stepped over.
   */
  ghost predicate Searched(sha256: string -> string, head: string, difficulty: nat,
                           start: nat, startHash: string, nonce: nat, hash: string) {
    start <= nonce &&
    (nonce == start ==> hash == startHash) &&
    (start < nonce ==> hash == HashWithNonce(sha256, head, nonce) && !MeetsDifficulty(startHash, difficulty)) &&
    forall k :: start < k < nonce ==> !MeetsDifficulty(HashWithNonce(sha256, head, k), difficulty)
  }

  /** One pass of the mining loop body keeps `Searched`: the hash it steps away from failed the test. */
  lemma SearchStep(sha256: string -> string, head: string, difficulty: nat,
                   start: nat, startHash: string, nonce: nat, hash: string)
    requires Searched(sha256, head, difficulty, start, startHash, nonce, hash)
    requires !MeetsDifficulty(hash, difficulty)
    ensures Searched(sha256, head, difficulty, start, startHash, nonce + 1, HashWithNonce(sha256, head, nonce + 1))
  {
    forall k | start < k < nonce + 1
      ensures !MeetsDifficulty(HashWithNonce(sha256, head, k), difficulty)
    {
      if k == nonce {
        assert hash == HashWithNonce(sha256, head, k);
      }
    }
  }

  /** When the loop exits on a hash that was consistent at the start, it stops at the first solution. */
  lemma SearchDone(sha256: string -> string, head: string, difficulty: nat,
                   start: nat, nonce: nat, hash: string)
    requires Searched(sha256, head, difficulty, start, HashWithNonce(sha256, head, start), nonce, hash)
    requires MeetsDifficulty(hash, difficulty)
    ensures FirstSolution(sha256, head, difficulty, start, nonce)
  {
  }

  /** The target test is exactly "the hash is at least d long and its first d characters are '0'". */
  lemma MeetsDifficultyIff(hash: string, difficulty: nat)
    ensures MeetsDifficulty(hash, difficulty) <==>
            difficulty <= |hash| && forall i :: 0 <= i < difficulty ==> hash[i] == '0'
  {
    if difficulty <= |hash| && forall i :: 0 <= i < difficulty ==> hash[i] == '0' {
      assert Prefix(hash, difficulty) == Zeros(difficulty);
    }
  }

  /** Difficulty 0: the target is "" and `substring(0, 0)` is "", so every hash meets it. */
  lemma ZeroDifficultyAlwaysMet(hash: string)
    ensures MeetsDifficulty(hash, 0)
  {
  }

  /**
   * With 64-character hex digests a difficulty above 64 is never met: the
   * mining loop would never exit.
   */
  lemma UnreachableDifficulty(js: Js, head: string, difficulty: nat)
    requires DigestsAreHex(js)
    requires 64 < difficulty
    ensures forall n: nat :: !MeetsDifficulty(HashWithNonce(js.sha256, head, n), difficulty)
  {
    forall n: nat ensures !MeetsDifficulty(HashWithNonce(js.sha256, head, n), difficulty) {
      var h := HashWithNonce(js.sha256, head, n);
      assert IsHexDigest(js.sha256(head + NatToString(n)));
      MeetsDifficultyIff(h, difficulty);
    }
  }

  /** A search from nonce 0 that can succeed either succeeds at 0 or at a later nonce. */
  lemma SolutionFromZero(sha256: string -> string, head: string, difficulty: nat)
    requires exists n: nat :: MeetsDifficulty(HashWithNonce(sha256, head, n), difficulty)
    ensures MeetsDifficulty(HashWithNonce(sha256, head, 0), difficulty) ||
            exists n: nat :: 0 < n && MeetsDifficulty(HashWithNonce(sha256, head, n), difficulty)
  {
  }

  /** The nonce mining finds from a given start is unique. */
  lemma FirstSolutionUnique(sha256: string -> string, head: string, difficulty: nat, start: nat, m: nat, n: nat)
    requires FirstSolution(sha256, head, difficulty, start, m)
    requires FirstSolution(sha256, head, difficulty, start, n)
    ensures m == n
  {
  }

  /**
   * With a collision-free hash, two different nonces give two different
   * hashes: no nonce is a fixed point of the search.
   */
  lemma NonceChangesHash(js: Js, head: string, m: nat, n: nat)
    requires CollisionFree(js)
    requires m != n
    ensures HashWithNonce(js.sha256, head, m) != HashWithNonce(js.sha256, head, n)
  {
    if HashWithNonce(js.sha256, head, m) == HashWithNonce(js.sha256, head, n) {
      CancelAround(head, NatToString(m), NatToString(n), "");
      NatToStringInjective(m, n);
    }
  }
}
