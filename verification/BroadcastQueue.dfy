/** The abstract bounded broadcast queue that both claim strategies implement. */
module BroadcastQueue {

  /** log: the items readers may see, in order.  released[c]: how many items consumer c
      has released.  got[c]: the values it has read. */
  datatype Queue = Queue(log: seq<int>, released: seq<int>, got: seq<seq<int>>)

  datatype Action = Stutter | Append(items: seq<int>) | Read(c: nat) | Release(c: nat)

  predicate Next(n: int, deps: seq<seq<nat>>, q: Queue, a: Action, q': Queue) {
    |q.released| == |q.got| == |deps| &&
    match a
    case Stutter => q' == q
    case Append(items) =>
      && q' == q.(log := q.log + items)
      && forall c :: 0 <= c < |deps| ==> |q'.log| <= q.released[c] + n
    case Read(c) =>
      && c < |deps| && |q.got[c]| < |q.log|
      && (forall d :: d in deps[c] ==> d < |deps| && |q.got[c]| < q.released[d])
      && q' == q.(got := q.got[c := q.got[c] + [q.log[|q.got[c]|]]])
    case Release(c) =>
      && c < |deps| && q.released[c] < |q.got[c]|
      && q' == q.(released := q.released[c := |q.got[c]|])
  }

  predicate Consistent(n: int, deps: seq<seq<nat>>, q: Queue) {
    |q.released| == |q.got| == |deps| &&
    forall c :: 0 <= c < |deps| ==>
      && q.got[c] <= q.log && 0 <= q.released[c] <= |q.got[c]|
      && |q.log| <= q.released[c] + n
      && forall d :: d in deps[c] ==> d < |deps| && |q.got[c]| <= q.released[d]
  }

  /** What the abstract queue keeps: consumers read prefixes of the log, in the order of
      the graph, and the log is never more than n ahead of any of them. */
  lemma NextKeepsConsistent(n: int, deps: seq<seq<nat>>, q: Queue, a: Action, q': Queue)
    requires Consistent(n, deps, q) && Next(n, deps, q, a, q')
    ensures Consistent(n, deps, q') && q.log <= q'.log
  {
  }
}
