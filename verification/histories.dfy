/**
 * The per-arm reward lists (`history = {i: [] for i in range(n_arms)}`)
 * that every trial loop keeps, and what appending one entry per round
 * builds up.
 */
module Histories {

  /** One list per arm. */
  type History<T> = seq<seq<T>>

  /** `history[a].append(x)`. */
  function Record<T>(h: History<T>, a: int, x: T): (h': History<T>)
    requires 0 <= a < |h|
    ensures |h'| == |h| && h'[a] == h[a] + [x]
    ensures forall i :: 0 <= i < |h| && i != a ==> h'[i] == h[i]
  {
    h[a := h[a] + [x]]
  }

  predicate InRange(actions: seq<int>, k: nat) {
    forall j :: 0 <= j < |actions| ==> 0 <= actions[j] < k
  }

  /** The history after appending `logged[j]` to the list of arm
    * `actions[j]`, round by round, starting from `k` empty lists. */
  function Replay<T>(k: nat, actions: seq<int>, logged: seq<T>): (h: History<T>)
    requires |actions| == |logged| && InRange(actions, k)
    ensures |h| == k
  {
    if actions == [] then NoRewards(k)
    else
      var n := |actions|;
      Record(Replay(k, actions[..n - 1], logged[..n - 1]), actions[n - 1], logged[n - 1])
  }

  /** `{i: [] for i in range(n_arms)}`. */
  function NoRewards<T>(k: nat): (h: History<T>)
    ensures |h| == k && forall i :: 0 <= i < k ==> h[i] == []
  {
    seq(k, _ => [])
  }

  /** Reference definition: the values logged in the rounds that chose arm
    * `i`, in round order. */
  function Picked<T>(actions: seq<int>, logged: seq<T>, i: int): seq<T>
    requires |actions| == |logged|
  {
    if actions == [] then []
    else
      var n := |actions|;
      Picked(actions[..n - 1], logged[..n - 1], i) + (if actions[n - 1] == i then [logged[n - 1]] else [])
  }

  /** The list of each arm is exactly what was logged when it was chosen. */
  lemma {:induction false} ReplayPicks<T>(k: nat, actions: seq<int>, logged: seq<T>)
    requires |actions| == |logged| && InRange(actions, k)
    ensures forall i :: 0 <= i < k ==> Replay(k, actions, logged)[i] == Picked(actions, logged, i)
  {
    if actions != [] {
      var n := |actions|;
      ReplayPicks(k, actions[..n - 1], logged[..n - 1]);
    }
  }

  /** An arm's list holds only values that were logged. */
  lemma {:induction false} PickedFrom<T>(actions: seq<int>, logged: seq<T>, i: int)
    requires |actions| == |logged|
    ensures forall x :: x in Picked(actions, logged, i) ==> x in logged
  {
    if actions != [] {
      var n := |actions|;
      PickedFrom(actions[..n - 1], logged[..n - 1], i);
      assert logged == logged[..n - 1] + [logged[n - 1]];
    }
  }

  /** The total length of all lists. */
  function TotalSize<T>(h: History<T>): nat {
    if h == [] then 0 else TotalSize(h[..|h| - 1]) + |h[|h| - 1]|
  }

  lemma {:induction false} RecordGrowsByOne<T>(h: History<T>, a: int, x: T)
    requires 0 <= a < |h|
    ensures TotalSize(Record(h, a, x)) == TotalSize(h) + 1
  {
    var n := |h|;
    var h' := Record(h, a, x);
    if a < n - 1 {
      assert h'[..n - 1] == Record(h[..n - 1], a, x);
      RecordGrowsByOne(h[..n - 1], a, x);
    } else {
      assert h'[..n - 1] == h[..n - 1];
    }
  }

  /** Each round appends exactly one entry: after `t` rounds the lists hold
    * `t` entries between them. */
  lemma {:induction false} ReplaySize<T>(k: nat, actions: seq<int>, logged: seq<T>)
    requires |actions| == |logged| && InRange(actions, k)
    ensures TotalSize(Replay(k, actions, logged)) == |actions|
  {
    if actions == [] {
      NoRewardsSize<T>(k);
    } else {
      var n := |actions|;
      ReplaySize(k, actions[..n - 1], logged[..n - 1]);
      RecordGrowsByOne(Replay(k, actions[..n - 1], logged[..n - 1]), actions[n - 1], logged[n - 1]);
    }
  }

  lemma {:induction false} NoRewardsSize<T>(k: nat)
    ensures TotalSize(NoRewards<T>(k)) == 0
  {
    if k > 0 {
      NoRewardsSize<T>(k - 1);
      assert NoRewards<T>(k)[..k - 1] == NoRewards<T>(k - 1);
    }
  }
}
