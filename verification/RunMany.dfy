/**
 RunMany of pkg/mikrotik/client/client.go: one goroutine runs each command and sends its result into
 a channel with room for all of them, and the caller stores each result as it arrives.
 */
module RunMany {
  import opened Common

  type Reply = nat
  type ErrorCode = nat

  datatype Outcome = Outcome(reply: Option<Reply>, error: Option<ErrorCode>)

  /** The commands in the order in which their goroutines finish: each of the n commands once. */
  ghost predicate IsArrivalOrder(arrival: seq<nat>, n: nat)
  {
    && |arrival| == n
    && (forall k :: 0 <= k < n ==> arrival[k] < n)
    && forall j, k :: 0 <= j < k < n ==> arrival[j] != arrival[k]
  }

  lemma SomeArrivalOrder(n: nat)
    ensures IsArrivalOrder(seq(n, i => i), n)
  {}

  function Elements(xs: seq<nat>): (r: set<nat>)
    ensures forall x :: x in r <==> x in xs
  {
    set x | x in xs
  }

  lemma {:induction false} DistinctCount(xs: seq<nat>)
    requires forall j, k :: 0 <= j < k < |xs| ==> xs[j] != xs[k]
    ensures |Elements(xs)| == |xs|
  {
    if xs != [] {
      var n := |xs| - 1;
      DistinctCount(xs[..n]);
      assert Elements(xs) == Elements(xs[..n]) + {xs[n]};
    }
  }

  /** Whatever the order in which the goroutines finish, every command's result arrives. */
  lemma EveryCommandArrives(arrival: seq<nat>, n: nat, i: nat)
    requires IsArrivalOrder(arrival, n) && i < n
    ensures exists k :: 0 <= k < n && arrival[k] == i
  {
    DistinctCount(arrival);
    var missing := Below(n) - Elements(arrival);
    assert Elements(arrival) <= Below(n);
    assert |missing| == |Below(n)| - |Elements(arrival)|;
    assert i !in missing;
  }

  /** Each reply and each error ends up in the slot of its own command. */
  method RunMany(connection: Result<(), ErrorCode>, outcomes: seq<Outcome>, arrival: seq<nat>)
    returns (replies: array<Option<Reply>>, errs: array<Option<ErrorCode>>)
    requires IsArrivalOrder(arrival, |outcomes|)
    ensures fresh(replies) && fresh(errs) && replies.Length == errs.Length == |outcomes|
    ensures connection.Err? ==>
              forall i :: 0 <= i < |outcomes| ==> replies[i] == None && errs[i] == Some(connection.error)
    ensures connection.Ok? ==>
              forall i :: 0 <= i < |outcomes| ==> replies[i] == outcomes[i].reply && errs[i] == outcomes[i].error
  {
    var n := |outcomes|;
    replies := new Option<Reply>[n](_ => None);
    errs := new Option<ErrorCode>[n](_ => None);
    if connection.Err? {
      for i := 0 to n
        invariant forall j :: 0 <= j < i ==> errs[j] == Some(connection.error)
        invariant forall j :: 0 <= j < n ==> replies[j] == None
      {
        errs[i] := Some(connection.error);
      }
      return;
    }
    for k := 0 to n
      invariant forall j :: 0 <= j < k ==>
                  replies[arrival[j]] == outcomes[arrival[j]].reply && errs[arrival[j]] == outcomes[arrival[j]].error
    {
      var idx := arrival[k];
      replies[idx] := outcomes[idx].reply;
      errs[idx] := outcomes[idx].error;
    }
    forall i | 0 <= i < n ensures replies[i] == outcomes[i].reply && errs[i] == outcomes[i].error {
      EveryCommandArrives(arrival, n, i);
    }
  }
}
