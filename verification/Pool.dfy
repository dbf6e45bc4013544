/** The parts of ThreadPool that run in one thread: merging the buffers, the reject loop and the join loop. */
module Pool {
  import opened Core
  import opened Envelopes
  import opened Sums

  /** The order-preserving concatenation of all buffers. */
  function Flatten(buffers: seq<seq<Sample>>): seq<Sample>
  {
    if buffers == [] then [] else Flatten(buffers[..|buffers| - 1]) + buffers[|buffers| - 1]
  }

  function TotalSize(buffers: seq<seq<Sample>>): nat
  {
    if buffers == [] then 0 else TotalSize(buffers[..|buffers| - 1]) + |buffers[|buffers| - 1]|
  }

  lemma FlattenSize(buffers: seq<seq<Sample>>)
    ensures |Flatten(buffers)| == TotalSize(buffers)
  {
  }

  /** Position k of buffer i sits after all earlier buffers. */
  lemma {:induction false} FlattenPosition(buffers: seq<seq<Sample>>, i: nat, k: nat)
    requires i < |buffers| && k < |buffers[i]|
    ensures TotalSize(buffers[..i]) + k < |Flatten(buffers)|
    ensures Flatten(buffers)[TotalSize(buffers[..i]) + k] == buffers[i][k]
  {
    var n := |buffers| - 1;
    FlattenSize(buffers[..n]);
    if i == n {
    } else {
      FlattenPosition(buffers[..n], i, k);
      assert buffers[..n][..i] == buffers[..i];
    }
  }

  /** Every merged sample comes from some buffer. */
  lemma {:induction false} FlattenOrigin(buffers: seq<seq<Sample>>, m: nat) returns (i: nat, k: nat)
    requires m < |Flatten(buffers)|
    ensures i < |buffers| && k < |buffers[i]| && m == TotalSize(buffers[..i]) + k
    ensures Flatten(buffers)[m] == buffers[i][k]
  {
    var n := |buffers| - 1;
    FlattenSize(buffers[..n]);
    if m < |Flatten(buffers[..n])| {
      i, k := FlattenOrigin(buffers[..n], m);
      assert buffers[..n][..i] == buffers[..i];
    } else {
      i, k := n, m - |Flatten(buffers[..n])|;
    }
  }

  /** Weights over the merged list are weights over the buffers. */
  lemma {:induction false} FlattenSum(buffers: seq<seq<Sample>>, g: Sample -> nat, bufferSum: seq<Sample> -> nat)
    requires forall b :: bufferSum(b) == Sum(b, g)
    ensures Sum(Flatten(buffers), g) == Sum(buffers, bufferSum)
  {
    if buffers == [] {
    } else {
      var n := |buffers| - 1;
      FlattenSum(buffers[..n], g, bufferSum);
      SumConcat(Flatten(buffers[..n]), buffers[n], g);
      SumAppend(buffers[..n], buffers[n], bufferSum);
      assert buffers[..n] + [buffers[n]] == buffers;
    }
  }

  /** collect_samples: refused (None) unless the workers have been joined. */
  method CollectSamples(joined: bool, buffers: seq<seq<Sample>>) returns (merged: Option<seq<Sample>>)
    ensures merged.Some? <==> joined
    ensures joined ==> merged.value == Flatten(buffers)
  {
    if !joined {
      return None;
    }
    var total := 0;
    for i := 0 to |buffers|
      invariant total == TotalSize(buffers[..i])
    {
      assert buffers[..i + 1][..i] == buffers[..i];
      total := total + |buffers[i]|;
    }
    var all := [];
    for i := 0 to |buffers|
      invariant all == Flatten(buffers[..i])
    {
      assert buffers[..i + 1][..i] == buffers[..i];
      all := all + buffers[i];
    }
    assert buffers[..|buffers|] == buffers;
    FlattenSize(buffers);
    assert |all| == total;
    merged := Some(all);
  }

  class ThreadPool {
    var samples: seq<seq<Sample>>
    var rejected: nat
    var joinable: seq<bool>
    var joined: bool
    ghost var joins: seq<nat>       // worker indices on which join() was called

    ghost predicate Valid()
      reads this
    {
      && (forall k | 0 <= k < |joins| :: joins[k] < |joinable| && !joinable[joins[k]])
      && (forall i | 0 <= i < |joinable| :: joinable[i] || i in joins)
      && (forall i, j | 0 <= i < j < |joins| :: joins[i] != joins[j])
      && (joined ==> forall i | 0 <= i < |joinable| :: !joinable[i])
    }

    constructor (workerCount: nat)
      ensures Valid() && !joined && joins == [] && rejected == 0
      ensures |joinable| == |samples| == workerCount
      ensures forall i | 0 <= i < workerCount :: joinable[i] && samples[i] == []
    {
      samples := seq(workerCount, _ => []);
      rejected := 0;
      joinable := seq(workerCount, _ => true);
      joined := false;
      joins := [];
    }

    /** shutdown_now between the drain and the join: every drained promise is set to Rejected and counted. */
    method RejectDiscarded(discarded: seq<TaskEnvelope>, finished: int)
      requires forall i | 0 <= i < |discarded| :: discarded[i].promise.None?
      requires forall i, j | 0 <= i < j < |discarded| :: discarded[i] != discarded[j]
      modifies this`rejected, discarded
      ensures forall i | 0 <= i < |discarded| ::
                discarded[i].promise == Some(RejectedResult(discarded[i].Content(), finished))
      ensures rejected == old(rejected) + |discarded|
    {
      var i := 0;
      while i < |discarded|
        invariant 0 <= i <= |discarded|
        invariant forall k | 0 <= k < i ::
                    discarded[k].promise == Some(RejectedResult(discarded[k].Content(), finished))
        invariant forall k | i <= k < |discarded| :: discarded[k].promise.None?
        invariant rejected == old(rejected)
      {
        discarded[i].Reject(finished);
        i := i + 1;
      }
      rejected := rejected + |discarded|;
    }

    /** join_workers, where join() returns once the worker has exited: each worker is joined exactly once. */
    method JoinWorkers()
      requires Valid()
      modifies this`joinable, this`joined, this`joins
      ensures Valid() && joined && |joinable| == old(|joinable|)
      ensures old(joined) ==> joins == old(joins) && joinable == old(joinable)
      ensures forall w: nat :: w < |joinable| <==> w in joins
      ensures old(joins) <= joins
    {
      if joined {
        return;
      }
      var i := 0;
      while i < |joinable|
        invariant 0 <= i <= |joinable| == old(|joinable|)
        invariant Valid() && !joined && old(joins) <= joins
        invariant forall k | 0 <= k < i :: !joinable[k]
      {
        if joinable[i] {
          joinable := joinable[i := false];
          joins := joins + [i];
        }
        i := i + 1;
      }
      joined := true;
    }

    /** The worker's append to its own buffer. */
    method Record(worker: nat, sample: Sample)
      requires worker < |samples|
      modifies this`samples
      ensures |samples| == old(|samples|)
      ensures samples[worker] == old(samples[worker]) + [sample]
      ensures forall v | 0 <= v < |samples| && v != worker :: samples[v] == old(samples[v])
    {
      samples := samples[worker := samples[worker] + [sample]];
    }
  }
}
