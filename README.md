# Blockchain and consensus simulator, modelled in Dafny

The system is three small JavaScript scripts that teach how a blockchain works:

- `consensus_demo.js` has a proof-of-work `Block`. Its cached hash covers the timestamp, the JSON payload, the previous hash and the nonce, and `mineBlock` raises the nonce until the hash starts with `difficulty` zeros. The file also runs three leader elections:
  - `simulatePoW`: every miner mines a fresh block and the fastest wins.
  - `simulatePoS`: a lottery with one ticket per unit of stake picks a validator.
  - `simulateDPoS`: random votes are tallied, the delegates are sorted by votes and one of the co-leaders is drawn.
- `mining_simulation.js` has the same block with an index in front of the hash input. It mines one demo block.
- `blockchain_simulation.js` links three indexed blocks by previous hash, tampers with the first one, recomputes only that block's hash and asks `isChainValid`.

How the model is built:

- **Objects that change in place are classes.** The blocks are classes whose `mineBlock` and tamper step update the fields. The DPoS delegates are records in an `array` that is reset, voted into and sorted in place.
- **Loops are methods.** Each loop is a method with invariants, proved against a specification function (`Lottery`, `Tally`, `FirstFastest`, `ChainValid`, `FirstSolution`). The properties of those functions are proved as lemmas.
- **The runtime is a parameter.** SHA-256 and `JSON.stringify` are passed in as a `Js` record of functions. Properties that need them to be injective or hex-valued say so in their `requires`.
- **Randomness is an input.** `Math.random()` is given as `u / 2^53` with `u < 2^53`.
- **The clock is an input.** `new Date().toISOString()` and `Date.now()` differences are supplied by the caller.
- **Errors are a result.** Where a script raises a TypeError by reading a property of `undefined`, the model returns `Failure(TypeError)`.

What the code does at its edges, which the model keeps:

- **Empty rosters.** The code reports no input error of its own; an empty roster fails when it dereferences a missing value.
  - For miners, `winner` stays `null` and `winner.name` (consensus_demo.js:60) raises a TypeError.
  - For validators, `lottery[0]` is `undefined`, `find` returns `undefined`, and `winner.name` raises a TypeError.
  - For delegates, the first vote reads `undefined.votes`, or with no voters `chosen.name` reads `undefined.name`. Both raise a TypeError.
- **No voters.** An empty voter list is accepted: every delegate ties at 0 votes.
- **Stakes.** Non-positive stakes are accepted and contribute no lottery ticket.
- **PoS draw.** The draw uses the flat lottery array. `validators.find` returns the FIRST validator carrying the drawn name, which is the interval owner only when names are distinct. `totalStake` is computed but never used.
- **Block 0.** `isChainValid` never checks block 0's own hash. So changing block 0's data without recomputing its hash is not detected.
- **Mining start.** Mining always starts from the block's current nonce.

`CollisionFree` (SHA-256 and `JSON.stringify` injective) is an idealisation. No function with 64-character hex digests, as `DigestsAreHex` describes SHA-256, can be injective on all strings. So the lemmas that assume it are corollaries for an ideal hash: `NonceChangesHash`, `DataChangesHash`, `StaleDataCaught` and the second ensures of `TamperScenario`. The exact facts, `StaleHashDetected`, `TamperDetected` and the first ensures of `TamperScenario`, assume nothing about the hash.

## Model

| member | source | states |
|---|---|---|
| JsRuntime.GetRandomInt | consensus_demo.js:8-10 | for `min <= max` the draw lies in `[min, max]`; for the empty range `max == min - 1` it is `min` |
| JsRuntime.NatToString | consensus_demo.js:25 | the decimal form appended to a hash preimage: at least one digit, all digits, last digit `n % 10`, no leading zero, one digit exactly below 10 |
| JsRuntime.NatToStringInjective | consensus_demo.js:25 | different nonces print differently, so the preimage suffix determines the nonce |
| JsRuntime.Zeros | consensus_demo.js:29 | the mining target `Array(d + 1).join('0')` is d characters, all '0' |
| JsRuntime.Prefix | consensus_demo.js:30 | `substring(0, d)` is a prefix of the hash, of length d clamped to the hash length |
| JsRuntime.SetField | blockchain_simulation.js:33 | on a payload with distinct keys, after `obj.key = v` the key reads back as `v` and only as `v`, keys stay distinct, and every property with another key is kept, with nothing else added |
| Difficulty.MeetsDifficultyIff | consensus_demo.js:29-30 | the loop's exit test holds exactly when the hash has at least d characters and the first d are '0' |
| Difficulty.ZeroDifficultyAlwaysMet | consensus_demo.js:29-30 | difficulty 0 is met by every hash, so mining at difficulty 0 takes no step |
| Difficulty.UnreachableDifficulty | consensus_demo.js:28-35 | with 64-character hex digests no nonce meets a difficulty above 64: the loop cannot exit |
| Difficulty.FirstSolutionUnique | consensus_demo.js:30-33 | the nonce mining stops at, from a given start, is unique |
| Difficulty.NonceChangesHash | consensus_demo.js:24-26 | under an idealised collision-free SHA-256, two different nonces give different hashes |
| Difficulty.SearchStep | consensus_demo.js:30-33 | one loop pass keeps the search invariant: the hash stepped away from failed, and the new hash is the one for the new nonce |
| Difficulty.SearchDone | consensus_demo.js:30-34 | when the loop exits from a consistent start, the final nonce is the first solution from the start |
| ConsensusDemo.Block.constructor | consensus_demo.js:16-22 | fields as given, nonce 0, hash `sha256(timestamp + JSON + previousHash + "0")`, which equals `calculateHash()` |
| ConsensusDemo.Block.MineBlock | consensus_demo.js:28-35 | only nonce and hash change; the nonce never decreases; the final hash meets the target; every nonce stepped over failed; from a consistent block the result is the first solution and the cached hash is consistent; a stale hash that already meets the target is kept |
| ConsensusDemo.FirstFastestIsFirstMinimum | consensus_demo.js:54-57 | the miner the race keeps has a minimal time, and every earlier miner was strictly slower |
| ConsensusDemo.FirstFastestStep | consensus_demo.js:54-57 | a later miner replaces the winner only when strictly faster |
| ConsensusDemo.RunMiner | consensus_demo.js:46-56 | the winner record carries the miner's name and time, and a hash meeting the target that is the first solution of a fresh block |
| ConsensusDemo.SimulatePoW | consensus_demo.js:41-62 | fails exactly on an empty roster; otherwise returns the first miner with the least time, its time, and its mined nonce and hash |
| ProofOfStake.TicketCountIsTotalStake | consensus_demo.js:69-76 | with no negative stake, the lottery size equals the reduced total stake |
| ProofOfStake.LotteryLength | consensus_demo.js:71-76 | the lottery has exactly one entry per ticket |
| ProofOfStake.Owner | consensus_demo.js:78 | every ticket lies in exactly one validator's cumulative-stake interval |
| ProofOfStake.LotteryOwner | consensus_demo.js:71-78 | lottery entry r is the name of the validator whose cumulative-stake interval contains r |
| ProofOfStake.FindByName | consensus_demo.js:79 | `find` returns the first validator with the name, and returns none exactly when no validator has it |
| ProofOfStake.BuildLottery | consensus_demo.js:71-76 | the nested loops build exactly `Lottery(validators)` |
| ProofOfStake.SimulatePoS | consensus_demo.js:67-83 | fails exactly when there are no tickets; otherwise the winner carries the name of the validator owning the drawn ticket, is the first validator with that name, and is that validator when names are distinct |
| DelegatedProofOfStake.Ballots | consensus_demo.js:95 | one ballot per voter, each the delegate index drawn for that voter, in range when there is a delegate |
| DelegatedProofOfStake.TallyTotal | consensus_demo.js:94-98 | every ballot counts once: the tallies add up to the number of voters |
| DelegatedProofOfStake.ZeroTally | consensus_demo.js:92 | right after the reset the tallies add up to 0 |
| DelegatedProofOfStake.TotalVotesPermutation | consensus_demo.js:101 | sorting does not change the total of the tallies |
| DelegatedProofOfStake.ResetVotes | consensus_demo.js:92 | every delegate's votes become 0, nothing else changes |
| DelegatedProofOfStake.CastVotes | consensus_demo.js:94-98 | fails exactly when a vote is cast with no delegate; otherwise each delegate gains the number of ballots naming it |
| DelegatedProofOfStake.SortByVotes | consensus_demo.js:101 | the array ends sorted by votes, most first, and is a permutation of what it was |
| DelegatedProofOfStake.InsertLeft | consensus_demo.js:101 | one insertion step extends the sorted prefix by one and keeps the array a permutation |
| DelegatedProofOfStake.SwapLeft | consensus_demo.js:101 | an adjacent swap past a delegate with fewer votes keeps the insertion invariant and the multiset |
| DelegatedProofOfStake.Settled | consensus_demo.js:101 | when the moving delegate stops, the prefix is sorted |
| DelegatedProofOfStake.SwapAdjacent | consensus_demo.js:101 | the two neighbours exchange places, nothing else changes |
| DelegatedProofOfStake.FilterVotes | consensus_demo.js:102 | the filter keeps exactly the delegates with the given tally: everything it returns has that tally and comes from the input, and every input delegate with that tally is returned |
| DelegatedProofOfStake.FilterSortedIsPrefix | consensus_demo.js:102 | on a sorted array the filter for the top tally is a prefix, and everyone after it has fewer votes |
| DelegatedProofOfStake.CoLeadersOfSorted | consensus_demo.js:102 | `top` is a non-empty prefix of the sorted delegates, all with the leading tally, and everyone else has fewer |
| DelegatedProofOfStake.SimulateDPoS | consensus_demo.js:88-107 | fails exactly on an empty delegate array; otherwise the array is a sorted permutation of the tallied delegates, the tallies add up to the voters, and the winner is the drawn co-leader, with a maximal tally |
| DelegatedProofOfStake.PickCoLeader | consensus_demo.js:102-103 | on sorted delegates, fails exactly when there are none; otherwise `top` is the non-empty prefix on the leading tally, everyone after it has fewer votes, and the result is `top` at the drawn index, with a maximal tally |
| MiningSimulation.Block.constructor | mining_simulation.js:4-11 | fields as given, nonce 0, hash `sha256(index + timestamp + JSON + previousHash + "0")`, which equals `calculateHash()` |
| MiningSimulation.Block.MineBlock | mining_simulation.js:22-50 | only nonce and hash change; the final hash meets the target; every nonce stepped over failed; from a consistent block the result is the first solution |
| MiningSimulation.MineDemoBlock | mining_simulation.js:57-58 | the demo block #1 ends with a hash meeting the target, equal to the hash for its final nonce, which is the first solution from 0 |
| BlockchainSimulation.Block.constructor | blockchain_simulation.js:5-12 | the new block's fields as given, nonce 0, and its hash consistent with `calculateHash()` |
| BlockchainSimulation.NewBlock | blockchain_simulation.js:5-20 | a fresh block's hash is `sha256(index + timestamp + JSON + previousHash + "0")` and is consistent |
| BlockchainSimulation.IsChainValid | blockchain_simulation.js:41-55 | returns true exactly when every block after the first points at its predecessor's hash and stores its own correct hash; chains of length at most 1 are valid |
| BlockchainSimulation.LinkedChainValid | blockchain_simulation.js:24-26 | a chain of freshly constructed blocks, each taking the previous hash, is valid, and every block in it is consistent |
| BlockchainSimulation.GenesisNotChecked | blockchain_simulation.js:42 | validity depends on block 0 only through its stored hash |
| BlockchainSimulation.Tamper | blockchain_simulation.js:33-34 | the tampered block keeps index, timestamp, previous hash and nonce, has the new data and a consistent hash |
| BlockchainSimulation.TamperDetected | blockchain_simulation.js:33-57 | tampering with block i of a valid chain and recomputing its hash keeps the chain valid exactly when i is the last block or the hash did not change |
| BlockchainSimulation.DataChangesHash | blockchain_simulation.js:18 | under idealised collision-free SHA-256 and JSON, different data gives a different hash |
| BlockchainSimulation.StaleHashDetected | blockchain_simulation.js:41-55 | changing a block's data without recomputing its hash keeps a valid chain valid exactly when the block is block 0 or the new data hashes to the stored hash |
| BlockchainSimulation.StaleDataCaught | blockchain_simulation.js:41-55 | under an idealised collision-free hash, a real data change without a recomputed hash invalidates the chain exactly when the block is not block 0 |
| BlockchainSimulation.BuildChain | blockchain_simulation.js:24-26 | three distinct fresh blocks, each constructed with its predecessor's hash |
| BlockchainSimulation.SetAmount | blockchain_simulation.js:33-34 | the block's data gets the new amount and its hash is recomputed; nothing else changes |
| BlockchainSimulation.TamperScenario | blockchain_simulation.js:24-57 | the script's check says valid exactly when block 1 hashes the same with amount 999 as with 100, and so never under an idealised collision-free hash |

## Left out

- SHA-256 and `JSON.stringify` internals: they are parameters. A property that needs them injective or hex-valued requires it.
- Console output is not modelled: the progress line every 100000 attempts, the summaries and the final JSON dumps.
- The clock is not modelled. `new Date().toISOString()` and the `Date.now()` differences are inputs. The elapsed-seconds summary of `mineBlock` in mining_simulation.js is dropped.
- The setup code of consensus_demo.js (lines 113-144) is left out. That is the rosters, the random starting stakes and the final summary. The simulations are modelled for any roster.
- GetRandomInt: computes `floor(u * (max - min + 1) / 2^53) + min` exactly. It does not model the floating-point rounding of `Math.random() * (max - min + 1) + min`, which can differ only at interval boundaries.
- ConsensusDemo.Block.MineBlock: requires that some nonce meets the target. The script loops forever otherwise, and the model states only the terminating runs. The same holds for MiningSimulation.Block.MineBlock, RunMiner, SimulatePoW and MineDemoBlock.
- NatToString: covers only non-negative integers. JavaScript's exponent notation for numbers of 10^21 and above is not modelled.
- Tickets: covers only integer stakes. A fractional stake, which the JavaScript loop would count up to its ceiling, is not modelled.
- SortByVotes: does not state stability. The contract gives sortedness and permutation only. The insertion sort it uses is stable, like `Array.prototype.sort`, but which co-leader sits at which position in `top` is not pinned down by SimulateDPoS's contract.
- SimulateDPoS: delegates are records in an array. A caller holding a reference to one of the delegate objects would see its `votes` change; that object aliasing is not modelled.
- CastVotes: when there is no delegate and at least one voter, the script throws mid-loop. The model returns failure and states nothing about the array afterwards.
- SimulatePoW: the `{ ...miner }` spread copies every property of the miner. The model's miner has only a name.
- The `previousHash = ''` default argument is not modelled. Every call in the scripts passes a previous hash.
- Negative or fractional difficulty is not modelled: `difficulty` is a `nat`. In the script, `Array(difficulty + 1)` throws a RangeError for a difficulty of -2 or below, or for a non-integer. Difficulty -1 returns at once, because the target and `substring(0, -1)` are both empty.
- Nonce precision is not modelled: the nonce is an unbounded integer. In the script `this.nonce++` stops changing at 2^53, and from there it would rehash the same preimage forever. The model keeps stepping, so a solution it finds above 2^53 is one the script never reaches.
- SetField: models property assignment only for keys that are not integer-like. JavaScript lists integer-like keys (array indices) first, in numeric order, whatever order they were added in. The scripts only assign `amount`.
- SetField: requires distinct keys, as every object literal has. A payload listing a key twice is not an object the scripts can build.
