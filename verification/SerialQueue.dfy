/**
 * The promise-tail queue that catalog-store.ts, credentials.ts and registry.ts
 * each build by hand: a task waits for whatever promise was the tail when it was
 * enqueued, becomes the tail, and a settled task may remove itself from the tail.
 */
module SerialQueue {
  import opened Wrappers

  datatype Status = Waiting | Running | Settled

  /** `after` is the task whose promise this one awaits, if there was a tail to await. */
  datatype Ticket = Ticket(after: Option<nat>, status: Status)

  datatype Queue = Queue(tickets: seq<Ticket>, tail: Option<nat>)

  const EMPTY := Queue([], None)

  function Enqueue(q: Queue): Queue {
    Queue(q.tickets + [Ticket(q.tail, Waiting)], Some(|q.tickets|))
  }

  predicate Ready(q: Queue, k: nat) {
    && k < |q.tickets|
    && q.tickets[k].status == Waiting
    && match q.tickets[k].after
       case None => true
       case Some(a) => a < |q.tickets| && q.tickets[a].status == Settled
  }

  function SetStatus(q: Queue, k: nat, status: Status): Queue
    requires k < |q.tickets|
  {
    q.(tickets := q.tickets[k := q.tickets[k].(status := status)])
  }

  function Start(q: Queue, k: nat): Queue
    requires Ready(q, k)
  {
    SetStatus(q, k, Running)
  }

  function Settle(q: Queue, k: nat): Queue
    requires k < |q.tickets| && q.tickets[k].status == Running
  {
    SetStatus(q, k, Settled)
  }

  /** Runs after a task settles: the tail is dropped only while it is still this task. */
  function ClearTail(q: Queue, k: nat): Queue
    requires k < |q.tickets| && q.tickets[k].status == Settled
  {
    if q.tail == Some(k) then q.(tail := None) else q
  }

  ghost predicate AllSettledBelow(q: Queue, k: nat) {
    forall j :: 0 <= j < k && j < |q.tickets| ==> q.tickets[j].status == Settled
  }

  /** Waiting on the immediate predecessor, or on nobody because everybody is done. */
  ghost predicate Linked(q: Queue, k: nat)
    requires k < |q.tickets|
  {
    match q.tickets[k].after
    case None => AllSettledBelow(q, k)
    case Some(a) => a + 1 == k
  }

  ghost predicate Valid(q: Queue) {
    && (match q.tail
        case None => AllSettledBelow(q, |q.tickets|)
        case Some(t) => t + 1 == |q.tickets|)
    && (forall k :: 0 <= k < |q.tickets| ==> Linked(q, k))
    && (forall k :: 0 <= k < |q.tickets| && q.tickets[k].status != Waiting ==> AllSettledBelow(q, k))
  }

  lemma EnqueueValid(q: Queue)
    requires Valid(q)
    ensures Valid(Enqueue(q))
  {
    var q' := Enqueue(q);
    forall k | 0 <= k < |q'.tickets|
      ensures Linked(q', k)
    {
      if k < |q.tickets| {
        assert Linked(q, k);
      }
    }
  }

  /** A task that may start has only settled tasks before it: tasks start in arrival order. */
  lemma ReadyMeansAllEarlierSettled(q: Queue, k: nat)
    requires Valid(q) && Ready(q, k)
    ensures AllSettledBelow(q, k)
  {
    assert Linked(q, k);
    match q.tickets[k].after {
      case None =>
      case Some(a) =>
        assert AllSettledBelow(q, a);
    }
  }

  lemma StartValid(q: Queue, k: nat)
    requires Valid(q) && Ready(q, k)
    ensures Valid(Start(q, k))
  {
    ReadyMeansAllEarlierSettled(q, k);
    var q' := Start(q, k);
    forall j | 0 <= j < |q'.tickets|
      ensures Linked(q', j)
    {
      assert Linked(q, j);
    }
  }

  lemma SettleValid(q: Queue, k: nat)
    requires Valid(q) && k < |q.tickets| && q.tickets[k].status == Running
    ensures Valid(Settle(q, k))
  {
    var q' := Settle(q, k);
    forall j | 0 <= j < |q'.tickets|
      ensures Linked(q', j)
    {
      assert Linked(q, j);
    }
  }

  lemma ClearTailValid(q: Queue, k: nat)
    requires Valid(q) && k < |q.tickets| && q.tickets[k].status == Settled
    ensures Valid(ClearTail(q, k))
  {
    var q' := ClearTail(q, k);
    forall j | 0 <= j < |q'.tickets|
      ensures Linked(q', j)
    {
      assert Linked(q, j);
    }
  }

  /** At most one task runs at any time, and nothing can start beside it. */
  lemma MutualExclusion(q: Queue, j: nat, k: nat)
    requires Valid(q) && j < |q.tickets| && q.tickets[j].status == Running
    requires k < |q.tickets|
    ensures q.tickets[k].status == Running ==> k == j
    ensures !Ready(q, k)
  {
    if Ready(q, k) {
      ReadyMeansAllEarlierSettled(q, k);
    }
  }
}
