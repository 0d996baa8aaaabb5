/**
 * `simulateDPoS`: every delegate's tally is reset, each voter adds one vote
 * to a randomly drawn delegate, the delegates array is sorted in place by
 * votes (most first), the co-leaders are filtered out and one of them is
 * drawn. The delegate objects are modelled as records in an array.
 */
module DelegatedProofOfStake {
  import opened JsRuntime

  /** `{ name, votes }`. */
  datatype Delegate = Delegate(name: string, votes: int)

  /** The number of ballots naming delegate i. */
  function Count(ballots: seq<int>, i: int): nat {
    if ballots == [] then 0
    else Count(ballots[..|ballots| - 1], i) + if ballots[|ballots| - 1] == i then 1 else 0
  }

  /** The delegate index `getRandomInt(0, delegates.length - 1)` draws for each voter. */
  function Ballots(draws: seq<nat>, n: nat): (ballots: seq<int>)
    requires forall k :: 0 <= k < |draws| ==> draws[k] < RandomScale
    ensures |ballots| == |draws|
    ensures forall k :: 0 <= k < |draws| ==> ballots[k] == GetRandomInt(0, n - 1, draws[k])
    ensures 0 < n ==> forall k :: 0 <= k < |ballots| ==> 0 <= ballots[k] < n
  {
    seq(|draws|, k requires 0 <= k < |draws| => GetRandomInt(0, n - 1, draws[k]))
  }

  /** The delegates after the reset and the vote: same order, each tally the number of ballots naming it. */
  function Tally(ds: seq<Delegate>, ballots: seq<int>): (t: seq<Delegate>)
    ensures |t| == |ds|
    ensures forall i :: 0 <= i < |ds| ==> t[i] == ds[i].(votes := Count(ballots, i))
  {
    seq(|ds|, i requires 0 <= i < |ds| => ds[i].(votes := Count(ballots, i)))
  }

  function TotalVotes(ds: seq<Delegate>): int {
    if ds == [] then 0 else TotalVotes(ds[..|ds| - 1]) + ds[|ds| - 1].votes
  }

  lemma {:induction false} TotalVotesConcat(a: seq<Delegate>, b: seq<Delegate>)
    ensures TotalVotes(a + b) == TotalVotes(a) + TotalVotes(b)
  {
    if b == [] {
      assert a + b == a;
    } else {
      var n := |b| - 1;
      assert (a + b)[..|a + b| - 1] == a + b[..n];
      TotalVotesConcat(a, b[..n]);
      calc {
        TotalVotes(a + b);
        TotalVotes(a + b[..n]) + b[n].votes;
        TotalVotes(a) + TotalVotes(b[..n]) + b[n].votes;
        TotalVotes(a) + TotalVotes(b);
      }
    }
  }

  /** Reordering the delegates does not change the total of their tallies. */
  lemma {:induction false} TotalVotesPermutation(s: seq<Delegate>, t: seq<Delegate>)
    requires multiset(s) == multiset(t)
    ensures TotalVotes(s) == TotalVotes(t)
    decreases |s|
  {
    if s != [] {
      var n := |s| - 1;
      var x := s[n];
      assert x in multiset(t);
      var k :| 0 <= k < |t| && t[k] == x;
      var rest := t[..k] + t[k + 1..];
      assert t == t[..k] + [x] + t[k + 1..];
      assert s == s[..n] + [x];
      assert multiset(s) == multiset(s[..n]) + multiset{x};
      assert multiset(t) == multiset(t[..k]) + multiset{x} + multiset(t[k + 1..]);
      assert multiset(rest) == multiset(t[..k]) + multiset(t[k + 1..]);
      assert multiset(s[..n]) == multiset(s) - multiset{x};
      assert multiset(rest) == multiset(t) - multiset{x};
      TotalVotesPermutation(s[..n], rest);
      TotalVotesConcat(t[..k] + [x], t[k + 1..]);
      TotalVotesConcat(t[..k], [x]);
      TotalVotesConcat(t[..k], t[k + 1..]);
    }
  }

  /** Replacing one delegate changes the total by the difference of the two tallies. */
  lemma TotalVotesUpdate(s: seq<Delegate>, k: nat, d: Delegate)
    requires k < |s|
    ensures TotalVotes(s[k := d]) == TotalVotes(s) - s[k].votes + d.votes
  {
    var t := s[k := d];
    assert s == s[..k] + [s[k]] + s[k + 1..];
    assert t == s[..k] + [d] + s[k + 1..];
    TotalVotesConcat(s[..k] + [s[k]], s[k + 1..]);
    TotalVotesConcat(s[..k], [s[k]]);
    TotalVotesConcat(s[..k] + [d], s[k + 1..]);
    TotalVotesConcat(s[..k], [d]);
  }

  /** Every ballot counts exactly once: the tallies add up to the number of voters. */
  lemma {:induction false} TallyTotal(ds: seq<Delegate>, ballots: seq<int>)
    requires forall k :: 0 <= k < |ballots| ==> 0 <= ballots[k] < |ds|
    ensures TotalVotes(Tally(ds, ballots)) == |ballots|
  {
    if ballots == [] {
      ZeroTally(ds);
    } else {
      var m := |ballots| - 1;
      var b := ballots[m];
      var before := Tally(ds, ballots[..m]);
      TallyTotal(ds, ballots[..m]);
      assert Tally(ds, ballots) == before[b := before[b].(votes := before[b].votes + 1)];
      TotalVotesUpdate(before, b, before[b].(votes := before[b].votes + 1));
    }
  }

  lemma {:induction false} ZeroTally(ds: seq<Delegate>)
    ensures TotalVotes(Tally(ds, [])) == 0
  {
    if ds != [] {
      var n := |ds| - 1;
      assert Tally(ds, [])[..n] == Tally(ds[..n], []);
      ZeroTally(ds[..n]);
    }
  }

  /** The order `delegates.sort((a, b) => b.votes - a.votes)` establishes: most votes first. */
  ghost predicate SortedByVotes(s: seq<Delegate>) {
    forall i, j :: 0 <= i < j < |s| ==> s[i].votes >= s[j].votes
  }

  /**
   * The in-place sort: a stable insertion sort (a delegate moves left only
   * past delegates with strictly fewer votes), as `Array.prototype.sort` is
   * stable.
   */
  method SortByVotes(a: array<Delegate>)
    modifies a
    ensures SortedByVotes(a[..])
    ensures multiset(a[..]) == multiset(old(a[..]))
  {
    var i := 0;
    while i < a.Length
      invariant 0 <= i <= a.Length
      invariant SortedUpTo(a[..], i)
      invariant multiset(a[..]) == multiset(old(a[..]))
    {
      InsertLeft(a, i);
      i := i + 1;
    }
  }

  /** The first n delegates are in order, most votes first. */
  ghost predicate SortedUpTo(s: seq<Delegate>, n: nat) {
    forall p, q :: 0 <= p < q < n && q < |s| ==> s[p].votes >= s[q].votes
  }

  /** Every pair among the first n delegates, other than pairs involving position j, is in order. */
  ghost predicate SortedExcept(s: seq<Delegate>, n: nat, j: nat) {
    forall p, q :: 0 <= p < q < n && q < |s| && p != j && q != j ==> s[p].votes >= s[q].votes
  }

  /** The delegate at j has strictly more votes than the one after it, if that one is among the first n. */
  ghost predicate BeatsNext(s: seq<Delegate>, n: nat, j: nat) {
    j < |s| && (j + 1 < n && j + 1 < |s| ==> s[j].votes > s[j + 1].votes)
  }

  /** Swapping the moving delegate with a predecessor that has fewer votes keeps both facts, one place further left. */
  lemma SwapLeft(s: seq<Delegate>, n: nat, j: nat)
    requires 0 < j < n <= |s|
    requires SortedExcept(s, n, j) && BeatsNext(s, n, j) && s[j - 1].votes < s[j].votes
    ensures SortedExcept(s[j - 1 := s[j]][j := s[j - 1]], n, j - 1)
    ensures BeatsNext(s[j - 1 := s[j]][j := s[j - 1]], n, j - 1)
    ensures multiset(s[j - 1 := s[j]][j := s[j - 1]]) == multiset(s)
  {
  }

  /** Once the moving delegate stops, the first n delegates are in order. */
  lemma Settled(s: seq<Delegate>, n: nat, j: nat)
    requires j < n <= |s|
    requires SortedExcept(s, n, j) && BeatsNext(s, n, j)
    requires j == 0 || s[j - 1].votes >= s[j].votes
    ensures SortedUpTo(s, n)
  {
  }

  /** One insertion step: `a[i]` moves left by adjacent swaps past every delegate with strictly fewer votes. */
  method InsertLeft(a: array<Delegate>, i: nat)
    requires i < a.Length
    requires SortedUpTo(a[..], i)
    modifies a
    ensures SortedUpTo(a[..], i + 1)
    ensures multiset(a[..]) == multiset(old(a[..]))
  {
    var j := i;
    while 0 < j && a[j - 1].votes < a[j].votes
      invariant 0 <= j <= i
      invariant SortedExcept(a[..], i + 1, j) && BeatsNext(a[..], i + 1, j)
      invariant multiset(a[..]) == multiset(old(a[..]))
    {
      SwapLeft(a[..], i + 1, j);
      SwapAdjacent(a, j);
      j := j - 1;
    }
    Settled(a[..], i + 1, j);
  }

  /** Exchange the delegates at j - 1 and j. */
  method SwapAdjacent(a: array<Delegate>, j: nat)
    requires 0 < j < a.Length
    modifies a
    ensures a[..] == old(a[..])[j - 1 := old(a[j])][j := old(a[j - 1])]
  {
    a[j - 1], a[j] := a[j], a[j - 1];
  }

  /** `s.filter(d => d.votes === v)`. */
  function FilterVotes(s: seq<Delegate>, v: int): (t: seq<Delegate>)
    ensures |t| <= |s|
    ensures forall k :: 0 <= k < |t| ==> t[k].votes == v
    ensures forall d :: d in t ==> d in s
    ensures forall d :: d in s && d.votes == v ==> d in t
  {
    if s == [] then [] else (if s[0].votes == v then [s[0]] else []) + FilterVotes(s[1..], v)
  }

  /**
   * `top`: `delegates.filter(d => d.votes === delegates[0].votes)`. On an
   * empty array the callback, and so `delegates[0]`, is never evaluated.
   */
  function CoLeaders(s: seq<Delegate>): seq<Delegate> {
    if s == [] then [] else FilterVotes(s, s[0].votes)
  }

  /** On a sorted array, the co-leaders are exactly a non-empty prefix; everyone after it has fewer votes. */
  lemma {:induction false} FilterSortedIsPrefix(s: seq<Delegate>, v: int)
    requires SortedByVotes(s)
    requires forall k :: 0 <= k < |s| ==> s[k].votes <= v
    ensures FilterVotes(s, v) == s[..|FilterVotes(s, v)|]
    ensures forall k :: |FilterVotes(s, v)| <= k < |s| ==> s[k].votes < v
  {
    if s != [] {
      FilterSortedIsPrefix(s[1..], v);
      var t := FilterVotes(s[1..], v);
      if s[0].votes == v {
        assert FilterVotes(s, v) == [s[0]] + t;
      } else {
        assert FilterVotes(s, v) == [];
      }
    }
  }

  lemma CoLeadersOfSorted(s: seq<Delegate>)
    requires SortedByVotes(s) && s != []
    ensures var top := CoLeaders(s);
            0 < |top| && top == s[..|top|] &&
            (forall k :: 0 <= k < |top| ==> top[k].votes == s[0].votes) &&
            (forall k :: |top| <= k < |s| ==> s[k].votes < s[0].votes)
  {
    FilterSortedIsPrefix(s, s[0].votes);
  }

  /**
   * `chosen` is what the tie-break draws from the sorted delegates: `top`
   * is a non-empty prefix of them, all on the leading tally, everyone
   * after it has fewer votes, and `chosen` is `top` at the drawn index,
   * with a tally no delegate exceeds.
   */
  ghost predicate DrawnCoLeader(sorted: seq<Delegate>, tieDraw: nat, chosen: Delegate)
    requires tieDraw < RandomScale
  {
    var top := CoLeaders(sorted);
    0 < |top| && top == sorted[..|top|] &&
    (forall k :: 0 <= k < |top| ==> top[k].votes == sorted[0].votes) &&
    (forall k :: |top| <= k < |sorted| ==> sorted[k].votes < sorted[0].votes) &&
    chosen == top[GetRandomInt(0, |top| - 1, tieDraw)] &&
    (forall k :: 0 <= k < |sorted| ==> sorted[k].votes <= chosen.votes)
  }

  /**
   * `simulateDPoS(delegates, voters)`, with Math.random() given as
   * `u / RandomScale`: `voteDraws[k]` for voter k and `tieDraw` for the
   * tie-break. With no delegates the first vote (or, with no voters
   * either, `chosen.name`) raises a TypeError.
   */
  method SimulateDPoS(delegates: array<Delegate>, voters: seq<string>, voteDraws: seq<nat>, tieDraw: nat)
    returns (r: Result<Delegate>)
    requires |voteDraws| == |voters|
    requires forall k :: 0 <= k < |voteDraws| ==> voteDraws[k] < RandomScale
    requires tieDraw < RandomScale
    modifies delegates
    ensures delegates.Length == 0 <==> r.Failure?
    ensures r.Success? ==>
              multiset(delegates[..]) == multiset(Tally(old(delegates[..]), Ballots(voteDraws, delegates.Length))) &&
              SortedByVotes(delegates[..]) &&
              TotalVotes(delegates[..]) == |voters|
    ensures r.Success? ==> DrawnCoLeader(delegates[..], tieDraw, r.value)
  {
    ResetVotes(delegates);
    var voted := CastVotes(delegates, voteDraws);
    if !voted {
      r := Failure(TypeError);
      return;
    }
    ghost var ballots := Ballots(voteDraws, delegates.Length);
    ghost var tallied := delegates[..];
    assert tallied == Tally(old(delegates[..]), ballots);
    if 0 < delegates.Length {
      TallyTotal(old(delegates[..]), ballots);
    }
    SortByVotes(delegates);
    TotalVotesPermutation(tallied, delegates[..]);
    r := PickCoLeader(delegates[..], tieDraw);
  }

  /**
   * `top[getRandomInt(0, top.length - 1)]` for the sorted delegates: one of
   * the co-leaders, who hold the leading tally; with no delegate, `top` is
   * empty and `chosen.name` raises a TypeError.
   */
  method PickCoLeader(sorted: seq<Delegate>, tieDraw: nat) returns (r: Result<Delegate>)
    requires SortedByVotes(sorted)
    requires tieDraw < RandomScale
    ensures sorted == [] <==> r.Failure?
    ensures r.Success? ==> DrawnCoLeader(sorted, tieDraw, r.value)
  {
    var top := CoLeaders(sorted);
    var chosen := GetRandomInt(0, |top| - 1, tieDraw);
    if 0 <= chosen < |top| {
      CoLeadersOfSorted(sorted);
      r := Success(top[chosen]);
    } else {
      r := Failure(TypeError);
    }
  }

  /** `delegates.forEach(d => (d.votes = 0))`. */
  method ResetVotes(delegates: array<Delegate>)
    modifies delegates
    ensures forall d :: 0 <= d < delegates.Length ==> delegates[d] == old(delegates[d]).(votes := 0)
  {
    var i := 0;
    while i < delegates.Length
      invariant 0 <= i <= delegates.Length
      invariant forall d :: 0 <= d < i ==> delegates[d] == old(delegates[d]).(votes := 0)
      invariant forall d :: i <= d < delegates.Length ==> delegates[d] == old(delegates[d])
    {
      delegates[i] := delegates[i].(votes := 0);
      i := i + 1;
    }
  }

  /**
   * `voters.forEach(voter => { delegates[getRandomInt(0, delegates.length - 1)].votes++ })`
   * with one draw per voter. Returns false where the script raises a
   * TypeError: a vote is cast while there is no delegate.
   */
  method CastVotes(delegates: array<Delegate>, voteDraws: seq<nat>) returns (ok: bool)
    requires forall k :: 0 <= k < |voteDraws| ==> voteDraws[k] < RandomScale
    modifies delegates
    ensures ok <==> 0 < delegates.Length || voteDraws == []
    ensures ok ==> forall d :: 0 <= d < delegates.Length ==>
                     delegates[d] == old(delegates[d]).(votes := old(delegates[d]).votes +
                                                         Count(Ballots(voteDraws, delegates.Length), d))
  {
    var n := delegates.Length;
    ghost var ballots := Ballots(voteDraws, n);
    var k := 0;
    while k < |voteDraws|
      invariant 0 <= k <= |voteDraws|
      invariant 0 < k ==> 0 < n
      invariant forall d :: 0 <= d < n ==>
                  delegates[d] == old(delegates[d]).(votes := old(delegates[d]).votes + Count(ballots[..k], d))
    {
      var vote := GetRandomInt(0, n - 1, voteDraws[k]);
      if !(0 <= vote < n) {
        return false;
      }
      assert ballots[..k + 1][..k] == ballots[..k];
      delegates[vote] := delegates[vote].(votes := delegates[vote].votes + 1);
      k := k + 1;
    }
    assert ballots[..|voteDraws|] == ballots;
    ok := true;
  }
}
