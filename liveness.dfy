/**
 * Bookkeeping shared by both versions of the script: which labels fire a listener at once
 * because their "object added" call already came in, which labels get a listener stored,
 * and the host calls of a teardown.
 */
module Liveness {
  import opened Host

  /** An alive listener supplied by a caller; its own effects belong to the caller. */
  type ListenerId = nat

  /**
   * What running a continuation amounts to: a creation promise resolving with a label, or a
   * caller's listener being invoked with a label.
   */
  datatype Event = Resolved(name: Label) | Listened(listener: ListenerId, name: Label)

  /**
   * The listener calls made at once while registering `labels` when `queue` holds the labels
   * whose creation was already announced: one call per label found in the queue, in order.
   */
  function Immediate(queue: seq<Label>, labels: seq<Label>, listener: ListenerId): seq<Event>
  {
    if labels == [] then []
    else
      var init, last := labels[..|labels| - 1], labels[|labels| - 1];
      Immediate(queue, init, listener) + (if last in queue then [Listened(listener, last)] else [])
  }

  /**
   * Every immediate call goes to the given listener with a queued label of the list, and a
   * label gets as many immediate calls as it has occurrences in the list when it is queued,
   * none otherwise: a label listed once is called at most once.
   */
  lemma {:induction false} ImmediateCalls(queue: seq<Label>, labels: seq<Label>, listener: ListenerId)
    ensures forall e :: e in Immediate(queue, labels, listener) ==>
              e == Listened(listener, e.name) && e.name in queue && e.name in labels
    ensures forall x :: multiset(Immediate(queue, labels, listener))[Listened(listener, x)]
                        == if x in queue then multiset(labels)[x] else 0
  {
    if labels != [] {
      var init, last := labels[..|labels| - 1], labels[|labels| - 1];
      assert labels == init + [last];
      ImmediateCalls(queue, init, listener);
    }
  }

  /**
   * The listener map after storing `k` under every label of `labels` that is not in `queue`;
   * every other entry is left as it was.
   */
  function Stored<K>(m: map<Label, K>, queue: seq<Label>, labels: seq<Label>, k: K): map<Label, K>
  {
    if labels == [] then m
    else
      var init, last := labels[..|labels| - 1], labels[|labels| - 1];
      var p := Stored(m, queue, init, k);
      if last in queue then p else p[last := k]
  }

  /**
   * Storing adds exactly the listed labels that are not queued, maps each of them to the
   * listener, and leaves every other entry as it was.
   */
  lemma {:induction false} StoredEntries<K>(m: map<Label, K>, queue: seq<Label>, labels: seq<Label>, k: K)
    ensures forall x :: x in Stored(m, queue, labels, k) <==> x in m || (x in labels && x !in queue)
    ensures forall x :: x in labels && x !in queue ==> Stored(m, queue, labels, k)[x] == k
    ensures forall x :: x in m && !(x in labels && x !in queue) ==> Stored(m, queue, labels, k)[x] == m[x]
  {
    if labels != [] {
      var init, last := labels[..|labels| - 1], labels[|labels| - 1];
      assert labels == init + [last];
      StoredEntries(m, queue, init, k);
    }
  }

  /** The deletions a teardown issues for the tracked labels. */
  function Teardown(tracked: seq<Label>): (calls: seq<HostCall>)
    ensures |calls| == |tracked|
    ensures forall k :: 0 <= k < |tracked| ==> calls[k] == Deleted(tracked[|tracked| - 1 - k])
  {
    if tracked == [] then [] else Teardown(tracked[1..]) + [Deleted(tracked[0])]
  }

  /** A teardown deletes a label exactly when it is tracked, so an untracked label survives it. */
  lemma TeardownDeletesTracked(tracked: seq<Label>, x: Label)
    ensures Deleted(x) in Teardown(tracked) <==> x in tracked
  {
    var calls := Teardown(tracked);
    if x in tracked {
      var j :| 0 <= j < |tracked| && tracked[j] == x;
      assert calls[|tracked| - 1 - j] == Deleted(x);
    }
  }

  /** `Teardown` over a suffix grows by one deletion per step of a backwards loop. */
  lemma TeardownStep(tracked: seq<Label>, i: nat)
    requires i < |tracked|
    ensures Teardown(tracked[i..]) == Teardown(tracked[i + 1..]) + [Deleted(tracked[i])]
  {
    assert tracked[i..][1..] == tracked[i + 1..];
  }

  /** Two tracked labels are deleted newest first. */
  lemma TeardownPair(a: Label, b: Label)
    ensures Teardown([a, b]) == [Deleted(b), Deleted(a)]
  {
    assert [a, b][1..] == [b];
  }

  /**
   * The backwards `for` loop of `deleteTemporaryObjects` and `clearDivisions`: `deleteObject`
   * on every tracked label, newest first.
   */
  method DeleteAll(api: Api, tracked: seq<Label>)
    modifies api
    ensures api.log == old(api.log) + Teardown(tracked)
  {
    var i := |tracked| - 1;
    while i >= 0
      invariant -1 <= i < |tracked|
      invariant api.log == old(api.log) + Teardown(tracked[i + 1..])
    {
      TeardownStep(tracked, i);
      api.DeleteObject(tracked[i]);
      i := i - 1;
    }
    assert tracked[0..] == tracked;
  }
}
