/**
 * `simulatePoS`: a stake-weighted lottery. Every validator contributes
 * one lottery entry per unit of stake, one entry is drawn, and the first
 * validator carrying the drawn name wins.
 */
module ProofOfStake {
  import opened JsRuntime

  /** `{ name, stake }`. */
  datatype Validator = Validator(name: string, stake: int)

  /** How many times `for (let i = 0; i < v.stake; i++)` runs for an integer stake. */
  function Tickets(stake: int): nat {
    if 0 < stake then stake else 0
  }

  /** `validators.reduce((sum, v) => sum + v.stake, 0)`. */
  function TotalStake(vs: seq<Validator>): int {
    if vs == [] then 0 else TotalStake(vs[..|vs| - 1]) + vs[|vs| - 1].stake
  }

  /** The number of lottery entries the validators contribute together. */
  function TicketCount(vs: seq<Validator>): nat {
    if vs == [] then 0 else TicketCount(vs[..|vs| - 1]) + Tickets(vs[|vs| - 1].stake)
  }

  function Repeat(name: string, n: nat): (r: seq<string>)
    ensures |r| == n
    ensures forall i :: 0 <= i < n ==> r[i] == name
  {
    if n == 0 then [] else Repeat(name, n - 1) + [name]
  }

  /** The `lottery` array once both loops are done: each name repeated once per unit of stake, in roster order. */
  function Lottery(vs: seq<Validator>): seq<string> {
    if vs == [] then [] else Lottery(vs[..|vs| - 1]) + Repeat(vs[|vs| - 1].name, Tickets(vs[|vs| - 1].stake))
  }

  /** The lottery has exactly one entry per ticket. */
  lemma {:induction false} LotteryLength(vs: seq<Validator>)
    ensures |Lottery(vs)| == TicketCount(vs)
  {
    if vs != [] {
      LotteryLength(vs[..|vs| - 1]);
    }
  }

  /** With no negative stake, the number of entries is the reduced total stake. */
  lemma {:induction false} TicketCountIsTotalStake(vs: seq<Validator>)
    requires forall i :: 0 <= i < |vs| ==> 0 <= vs[i].stake
    ensures TicketCount(vs) == TotalStake(vs)
  {
    if vs != [] {
      TicketCountIsTotalStake(vs[..|vs| - 1]);
    }
  }

  /** Adding validators never lowers the ticket count of a prefix. */
  lemma {:induction false} TicketCountMonotone(vs: seq<Validator>, i: nat, j: nat)
    requires i <= j <= |vs|
    ensures TicketCount(vs[..i]) <= TicketCount(vs[..j])
  {
    if i < j {
      TicketCountMonotone(vs, i, j - 1);
      assert vs[..j][..j - 1] == vs[..j - 1];
    }
  }

  /** Validator i's cumulative-stake interval `[TicketCount(vs[..i]), TicketCount(vs[..i+1]))` contains r. */
  ghost predicate Covers(vs: seq<Validator>, i: nat, r: nat) {
    i < |vs| && TicketCount(vs[..i]) <= r < TicketCount(vs[..i + 1])
  }

  /** The validator whose cumulative-stake interval contains ticket r; no other interval contains it. */
  function Owner(vs: seq<Validator>, r: nat): (i: nat)
    requires r < TicketCount(vs)
    ensures Covers(vs, i, r)
    ensures forall j: nat :: Covers(vs, j, r) ==> j == i
  {
    var n := |vs| - 1;
    assert vs[..n + 1] == vs;
    var i := if r < TicketCount(vs[..n]) then Owner(vs[..n], r) else n;
    assert i < n ==> vs[..n][..i] == vs[..i] && vs[..n][..i + 1] == vs[..i + 1];
    forall j: nat | Covers(vs, j, r) ensures j == i {
      if j < i {
        TicketCountMonotone(vs, j + 1, i);
      } else if i < j {
        TicketCountMonotone(vs, i + 1, j);
      }
    }
    i
  }

  /** Lottery entry r carries the name of the validator whose interval contains r. */
  lemma {:induction false} LotteryOwner(vs: seq<Validator>, r: nat)
    requires r < |Lottery(vs)|
    ensures r < TicketCount(vs)
    ensures Lottery(vs)[r] == vs[Owner(vs, r)].name
  {
    LotteryLength(vs);
    var n := |vs| - 1;
    var init := vs[..n];
    LotteryLength(init);
    if r < TicketCount(init) {
      LotteryOwner(init, r);
      var o := Owner(init, r);
      assert init[..o] == vs[..o] && init[..o + 1] == vs[..o + 1];
      assert Covers(vs, o, r);
    } else {
      assert vs[..n + 1] == vs;
      assert Covers(vs, n, r);
    }
  }

  /** `validators.find(v => v.name === name)`: the first validator with that name. */
  function FindByName(vs: seq<Validator>, name: string): (found: Option<nat>)
    ensures found.Some? ==> found.value < |vs| && vs[found.value].name == name &&
                            forall j :: 0 <= j < found.value ==> vs[j].name != name
    ensures found.None? <==> forall j :: 0 <= j < |vs| ==> vs[j].name != name
  {
    if vs == [] then None
    else if vs[0].name == name then Some(0)
    else match FindByName(vs[1..], name)
      case None => None
      case Some(k) => Some(k + 1)
  }

  ghost predicate DistinctNames(vs: seq<Validator>) {
    forall i, j :: 0 <= i < j < |vs| ==> vs[i].name != vs[j].name
  }

  /**
   * `simulatePoS(validators)` with `Math.random()` given as `u / RandomScale`.
   * The draw is mapped to the validator whose cumulative-stake interval
   * contains it; the winner is the first validator with that name, which is
   * that validator itself when names are distinct. Without tickets the draw
   * is 0, `lottery[0]` is undefined and `winner.name` raises a TypeError.
   */
  method SimulatePoS(validators: seq<Validator>, u: nat) returns (r: Result<Validator>)
    requires u < RandomScale
    ensures TicketCount(validators) == 0 <==> r.Failure?
    ensures r.Success? ==>
              var o := Owner(validators, GetRandomInt(0, TicketCount(validators) - 1, u));
              r.value.name == validators[o].name &&
              (exists k :: 0 <= k <= o && r.value == validators[k] &&
                           forall j :: 0 <= j < k ==> validators[j].name != r.value.name) &&
              (DistinctNames(validators) ==> r.value == validators[o])
  {
    var lottery := BuildLottery(validators);
    LotteryLength(validators);
    var pick := GetRandomInt(0, |lottery| - 1, u);
    if 0 <= pick < |lottery| {
      var selected := lottery[pick];
      LotteryOwner(validators, pick);
      ghost var o := Owner(validators, pick);
      var found := FindByName(validators, selected);
      assert found.Some? && found.value <= o;
      assert DistinctNames(validators) ==> found.value == o;
      r := Success(validators[found.value]);
    } else {
      r := Failure(TypeError);
    }
  }

  /** The two nested loops of `simulatePoS` that fill `lottery`, one push per unit of stake. */
  method BuildLottery(validators: seq<Validator>) returns (lottery: seq<string>)
    ensures lottery == Lottery(validators)
  {
    lottery := [];
    var i := 0;
    while i < |validators|
      invariant 0 <= i <= |validators|
      invariant lottery == Lottery(validators[..i])
    {
      var v := validators[i];
      var j := 0;
      while j < v.stake
        invariant 0 <= j <= Tickets(v.stake)
        invariant lottery == Lottery(validators[..i]) + Repeat(v.name, j)
      {
        lottery := lottery + [v.name];
        j := j + 1;
      }
      assert validators[..i + 1][..i] == validators[..i];
      i := i + 1;
    }
    assert validators[..|validators|] == validators;
  }
}
