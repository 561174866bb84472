/**
 * The per-issuer mutex built by chaining promises.
 *
 * A call of `runExclusive` is a ticket.  Its `current` promise is resolved exactly when the ticket
 * is `Done`; its `tail` promise is `previous.then(() => current)`.  Between two `await`s the code
 * runs without interruption, so one call is three atomic steps: Arrive (up to `await previous`),
 * Enter (that await resumes) and Leave (the `finally` block, whether the exclusive work returned or threw).
 */
module IssuerLock {
  import opened Common

  datatype Phase = Waiting | Running | Done

  datatype Ticket = Ticket(key: string, previous: Option<nat>, phase: Phase)

  /** Tickets in creation order; `tails` maps a key to the ticket whose tail promise it stores. */
  datatype Lock = Lock(tickets: seq<Ticket>, tails: map<string, nat>)

  const EMPTY := Lock([], map[])

  function Arrive(l: Lock, key: string): Lock {
    var previous := if key in l.tails then Some(l.tails[key]) else None;
    Lock(l.tickets + [Ticket(key, previous, Waiting)], l.tails[key := |l.tickets|])
  }

  /** Whether the promise `tail` of ticket t is resolved. */
  predicate TailResolved(l: Lock, t: nat)
    decreases t
  {
    && t < |l.tickets|
    && l.tickets[t].phase == Done
    && (l.tickets[t].previous.None?
        || (l.tickets[t].previous.value < t && TailResolved(l, l.tickets[t].previous.value)))
  }

  predicate CanEnter(l: Lock, t: nat) {
    && t < |l.tickets|
    && l.tickets[t].phase == Waiting
    && (l.tickets[t].previous.None? || TailResolved(l, l.tickets[t].previous.value))
  }

  function SetPhase(l: Lock, t: nat, phase: Phase): Lock
    requires t < |l.tickets|
  {
    l.(tickets := l.tickets[t := l.tickets[t].(phase := phase)])
  }

  function Enter(l: Lock, t: nat): Lock
    requires CanEnter(l, t)
  {
    SetPhase(l, t, Running)
  }

  predicate CanLeave(l: Lock, t: nat) {
    t < |l.tickets| && l.tickets[t].phase == Running
  }

  function Leave(l: Lock, t: nat): Lock
    requires CanLeave(l, t)
  {
    var key := l.tickets[t].key;
    var released := SetPhase(l, t, Done);
    if key in l.tails && l.tails[key] == t then released.(tails := l.tails - {key}) else released
  }

  // The invariant ---------------------------------------------------------------------------

  ghost predicate SameKey(l: Lock, u: nat, t: nat)
    requires u < |l.tickets| && t < |l.tickets|
  {
    l.tickets[u].key == l.tickets[t].key
  }

  /** A ticket starts only after every earlier ticket of its key has finished. */
  ghost predicate InOrder(l: Lock) {
    forall u, t | 0 <= u < t < |l.tickets| && SameKey(l, u, t) && l.tickets[t].phase != Waiting ::
      l.tickets[u].phase == Done
  }

  /** `previous` is the nearest earlier ticket of the key, or nothing when those are all finished. */
  ghost predicate Chained(l: Lock) {
    && (forall t | 0 <= t < |l.tickets| && l.tickets[t].previous.Some? ::
          && l.tickets[t].previous.value < t
          && SameKey(l, l.tickets[t].previous.value, t))
    && (forall u, t | 0 <= u < t < |l.tickets| && SameKey(l, u, t) ::
          || l.tickets[u].phase == Done
          || (l.tickets[t].previous.Some? && u <= l.tickets[t].previous.value))
  }

  /** `tails` holds a key exactly while some ticket of that key is unfinished: the latest one. */
  ghost predicate TailsExact(l: Lock) {
    && (forall key | key in l.tails ::
          && l.tails[key] < |l.tickets|
          && l.tickets[l.tails[key]].key == key
          && l.tickets[l.tails[key]].phase != Done)
    && (forall t | 0 <= t < |l.tickets| && l.tickets[t].phase != Done ::
          l.tickets[t].key in l.tails && t <= l.tails[l.tickets[t].key])
  }

  ghost predicate Inv(l: Lock) {
    InOrder(l) && Chained(l) && TailsExact(l)
  }

  lemma ArriveKeepsInv(l: Lock, key: string)
    requires Inv(l)
    ensures Inv(Arrive(l, key))
  {
    var l' := Arrive(l, key);
    forall t | 0 <= t < |l'.tickets| && l'.tickets[t].phase != Done
      ensures l'.tickets[t].key in l'.tails && t <= l'.tails[l'.tickets[t].key]
    {
      if t < |l.tickets| { assert l'.tickets[t] == l.tickets[t]; }
    }
    forall u, t | 0 <= u < t < |l'.tickets| && SameKey(l', u, t)
      ensures l'.tickets[u].phase == Done
              || (l'.tickets[t].previous.Some? && u <= l'.tickets[t].previous.value)
    {
      assert l'.tickets[u] == l.tickets[u];
      if t < |l.tickets| { assert SameKey(l, u, t); }
    }
    forall u, t | 0 <= u < t < |l'.tickets| && SameKey(l', u, t) && l'.tickets[t].phase != Waiting
      ensures l'.tickets[u].phase == Done
    {
      assert t < |l.tickets|;
      assert SameKey(l, u, t);
    }
  }

  /** The whole FIFO discipline, read off the promises: a waiter may start iff it is first in line. */
  lemma {:induction false} EntersExactlyInTurn(l: Lock, t: nat)
    requires Inv(l) && t < |l.tickets|
    ensures CanEnter(l, t) <==>
            l.tickets[t].phase == Waiting
            && forall u | 0 <= u < t && SameKey(l, u, t) :: l.tickets[u].phase == Done
  {
    if l.tickets[t].phase == Waiting && l.tickets[t].previous.Some? {
      var p := l.tickets[t].previous.value;
      if TailResolved(l, p) {
        forall u | 0 <= u < t && SameKey(l, u, t)
          ensures l.tickets[u].phase == Done
        {
          if u < p { assert SameKey(l, u, p); }
        }
      }
      if forall u | 0 <= u < t && SameKey(l, u, t) :: l.tickets[u].phase == Done {
        assert SameKey(l, p, t);
        FinishedPrefixResolves(l, p);
      }
    }
  }

  lemma {:induction false} FinishedPrefixResolves(l: Lock, p: nat)
    requires Inv(l) && p < |l.tickets|
    requires l.tickets[p].phase == Done
    ensures TailResolved(l, p)
    decreases p
  {
    if l.tickets[p].previous.Some? {
      var q := l.tickets[p].previous.value;
      assert SameKey(l, q, p);
      FinishedPrefixResolves(l, q);
    }
  }

  lemma EnterKeepsInv(l: Lock, t: nat)
    requires Inv(l) && CanEnter(l, t)
    ensures Inv(Enter(l, t))
  {
    EntersExactlyInTurn(l, t);
    var l' := Enter(l, t);
    forall u, w | 0 <= u < w < |l'.tickets| && SameKey(l', u, w) && l'.tickets[w].phase != Waiting
      ensures l'.tickets[u].phase == Done
    {
      assert SameKey(l, u, w);
    }
    forall u, w | 0 <= u < w < |l'.tickets| && SameKey(l', u, w)
      ensures l'.tickets[u].phase == Done
              || (l'.tickets[w].previous.Some? && u <= l'.tickets[w].previous.value)
    {
      assert SameKey(l, u, w);
    }
    forall w | 0 <= w < |l'.tickets| && l'.tickets[w].previous.Some?
      ensures l'.tickets[w].previous.value < w && SameKey(l', l'.tickets[w].previous.value, w)
    {
      assert SameKey(l, l.tickets[w].previous.value, w);
    }
  }

  lemma LeaveKeepsInv(l: Lock, t: nat)
    requires Inv(l) && CanLeave(l, t)
    ensures Inv(Leave(l, t))
  {
    var l' := Leave(l, t);
    var key := l.tickets[t].key;
    assert key in l.tails && t <= l.tails[key];
    forall u, w | 0 <= u < w < |l'.tickets| && SameKey(l', u, w)
      ensures l'.tickets[u].phase == Done
              || (l'.tickets[w].phase == Waiting
                  && l'.tickets[w].previous.Some? && u <= l'.tickets[w].previous.value)
    {
      assert SameKey(l, u, w);
    }
    forall w | 0 <= w < |l'.tickets| && l'.tickets[w].previous.Some?
      ensures l'.tickets[w].previous.value < w && SameKey(l', l'.tickets[w].previous.value, w)
    {
      assert SameKey(l, l.tickets[w].previous.value, w);
    }
    forall w | 0 <= w < |l'.tickets| && l'.tickets[w].phase != Done
      ensures l'.tickets[w].key in l'.tails && w <= l'.tails[l'.tickets[w].key]
    {
      assert w != t;
      if l.tickets[w].key == key && l.tails[key] == t {
        // A later waiter would be the tail; an earlier ticket has finished.
        assert w < t && SameKey(l, w, t);
      }
    }
  }

  // Every interleaving -----------------------------------------------------------------------

  datatype Step = Arrives(key: string) | Enters(ticket: nat) | Leaves(ticket: nat)

  predicate Enabled(l: Lock, step: Step) {
    match step
    case Arrives(_) => true
    case Enters(t) => CanEnter(l, t)
    case Leaves(t) => CanLeave(l, t)
  }

  function Apply(l: Lock, step: Step): Lock
    requires Enabled(l, step)
  {
    match step
    case Arrives(key) => Arrive(l, key)
    case Enters(t) => Enter(l, t)
    case Leaves(t) => Leave(l, t)
  }

  ghost predicate IsRun(states: seq<Lock>, steps: seq<Step>) {
    && |states| == |steps| + 1
    && states[0] == EMPTY
    && forall i | 0 <= i < |steps| :: Enabled(states[i], steps[i]) && states[i + 1] == Apply(states[i], steps[i])
  }

  lemma {:induction false} RunKeepsInv(states: seq<Lock>, steps: seq<Step>, i: nat)
    requires IsRun(states, steps) && i <= |steps|
    ensures Inv(states[i])
  {
    if i > 0 {
      RunKeepsInv(states, steps, i - 1);
      var l := states[i - 1];
      assert Enabled(l, steps[i - 1]) && states[i] == Apply(l, steps[i - 1]);
      match steps[i - 1]
      case Arrives(key) => ArriveKeepsInv(l, key);
      case Enters(t) => EnterKeepsInv(l, t);
      case Leaves(t) => LeaveKeepsInv(l, t);
    }
  }

  /** In every interleaving: at most one task of a key runs, and a task runs only after all the
      earlier arrivals of its key have finished. */
  lemma MutualExclusionInArrivalOrder(states: seq<Lock>, steps: seq<Step>, i: nat, u: nat, t: nat)
    requires IsRun(states, steps) && i <= |steps|
    requires u < t < |states[i].tickets| && SameKey(states[i], u, t)
    ensures !(states[i].tickets[u].phase == Running && states[i].tickets[t].phase == Running)
    ensures states[i].tickets[t].phase != Waiting ==> states[i].tickets[u].phase == Done
  {
    RunKeepsInv(states, steps, i);
  }

  // Refinement of a plain FIFO queue per key -------------------------------------------------

  /** The unfinished tickets of a key among the first n, oldest first. */
  ghost function QueueUpTo(l: Lock, key: string, n: nat): seq<nat>
    requires n <= |l.tickets|
  {
    if n == 0 then []
    else
      var rest := QueueUpTo(l, key, n - 1);
      if l.tickets[n - 1].key == key && l.tickets[n - 1].phase != Done then rest + [n - 1] else rest
  }

  ghost function Queue(l: Lock, key: string): seq<nat> {
    QueueUpTo(l, key, |l.tickets|)
  }

  /** Two locks that agree on which of the first n tickets of the key are unfinished have one queue. */
  lemma {:induction false} QueueDependsOnUnfinished(l: Lock, l': Lock, key: string, n: nat)
    requires n <= |l.tickets| && n <= |l'.tickets|
    requires forall t | 0 <= t < n ::
               l.tickets[t].key == l'.tickets[t].key
               && (l.tickets[t].key == key ==> (l.tickets[t].phase == Done <==> l'.tickets[t].phase == Done))
    ensures QueueUpTo(l, key, n) == QueueUpTo(l', key, n)
  {
    if n > 0 { QueueDependsOnUnfinished(l, l', key, n - 1); }
  }

  lemma {:induction false} QueueEmptyWhenFinished(l: Lock, key: string, n: nat)
    requires n <= |l.tickets|
    requires forall t | 0 <= t < n && l.tickets[t].key == key :: l.tickets[t].phase == Done
    ensures QueueUpTo(l, key, n) == []
  {
    if n > 0 { QueueEmptyWhenFinished(l, key, n - 1); }
  }

  /** The head of the queue is its oldest unfinished ticket; finishing it removes just the head. */
  lemma {:induction false} QueueHead(l: Lock, key: string, t: nat, n: nat)
    requires t < n <= |l.tickets|
    requires l.tickets[t].key == key && l.tickets[t].phase != Done
    requires forall u | 0 <= u < t && l.tickets[u].key == key :: l.tickets[u].phase == Done
    ensures QueueUpTo(l, key, n) == [t] + QueueUpTo(SetPhase(l, t, Done), key, n)
  {
    var l' := SetPhase(l, t, Done);
    if n == t + 1 {
      QueueEmptyWhenFinished(l, key, t);
      QueueEmptyWhenFinished(l', key, t);
    } else {
      QueueHead(l, key, t, n - 1);
      assert l'.tickets[n - 1] == l.tickets[n - 1];
    }
  }

  lemma {:induction false} QueueMembers(l: Lock, key: string, n: nat)
    requires n <= |l.tickets|
    ensures forall i | 0 <= i < |QueueUpTo(l, key, n)| ::
              var t := QueueUpTo(l, key, n)[i];
              t < n && l.tickets[t].key == key && l.tickets[t].phase != Done
    ensures forall t | 0 <= t < n && l.tickets[t].key == key && l.tickets[t].phase != Done ::
              t in QueueUpTo(l, key, n)
    ensures forall i, j | 0 <= i < j < |QueueUpTo(l, key, n)| ::
              QueueUpTo(l, key, n)[i] < QueueUpTo(l, key, n)[j]
  {
    if n > 0 { QueueMembers(l, key, n - 1); }
  }

  /** Arriving joins the end of one queue and touches no other. */
  lemma ArriveEnqueues(l: Lock, key: string, other: string)
    requires Inv(l)
    ensures Queue(Arrive(l, key), key) == Queue(l, key) + [|l.tickets|]
    ensures other != key ==> Queue(Arrive(l, key), other) == Queue(l, other)
  {
    QueueDependsOnUnfinished(l, Arrive(l, key), key, |l.tickets|);
    QueueDependsOnUnfinished(l, Arrive(l, key), other, |l.tickets|);
  }

  /** Only the head may start, the head may always start once it waits, and starting moves nobody. */
  lemma EnterIsForTheHead(l: Lock, t: nat, key: string)
    requires Inv(l) && t < |l.tickets|
    ensures CanEnter(l, t) <==>
            l.tickets[t].phase == Waiting
            && Queue(l, l.tickets[t].key) != [] && Queue(l, l.tickets[t].key)[0] == t
    ensures CanEnter(l, t) ==> Queue(Enter(l, t), key) == Queue(l, key)
  {
    var own := l.tickets[t].key;
    EntersExactlyInTurn(l, t);
    QueueMembers(l, own, |l.tickets|);
    if CanEnter(l, t) {
      QueueHead(l, own, t, |l.tickets|);
      QueueDependsOnUnfinished(l, Enter(l, t), key, |l.tickets|);
    } else if l.tickets[t].phase == Waiting {
      var u :| 0 <= u < t && SameKey(l, u, t) && l.tickets[u].phase != Done;
      assert u in Queue(l, own);
    }
  }

  /** Leaving removes the head of one queue and touches no other. */
  lemma LeaveDequeues(l: Lock, t: nat, other: string)
    requires Inv(l) && CanLeave(l, t)
    ensures Queue(l, l.tickets[t].key) == [t] + Queue(Leave(l, t), l.tickets[t].key)
    ensures other != l.tickets[t].key ==> Queue(Leave(l, t), other) == Queue(l, other)
  {
    var key := l.tickets[t].key;
    forall u | 0 <= u < t && l.tickets[u].key == key ensures l.tickets[u].phase == Done {
      assert SameKey(l, u, t);
    }
    QueueHead(l, key, t, |l.tickets|);
    QueueDependsOnUnfinished(SetPhase(l, t, Done), Leave(l, t), key, |l.tickets|);
    if other != key { QueueDependsOnUnfinished(l, Leave(l, t), other, |l.tickets|); }
  }

  /** `tails` holds a key iff that key has a holder or a waiter, and then it holds the last of them. */
  lemma TailsTrackTheQueue(l: Lock, key: string)
    requires Inv(l)
    ensures key in l.tails <==> Queue(l, key) != []
    ensures key in l.tails ==> l.tails[key] == Queue(l, key)[|Queue(l, key)| - 1]
  {
    QueueMembers(l, key, |l.tickets|);
    var queue := Queue(l, key);
    if key in l.tails {
      assert l.tails[key] in queue;
      var last := queue[|queue| - 1];
      assert last <= l.tails[key];
    }
    if queue != [] { assert l.tickets[queue[0]].key in l.tails; }
  }

  // The service itself ------------------------------------------------------------------------

  class IssuerLockService {
    var tickets: seq<Ticket>
    var tails: map<string, nat>

    ghost function View(): Lock reads this { Lock(tickets, tails) }

    ghost predicate Valid() reads this { Inv(View()) }

    constructor ()
      ensures Valid() && View() == EMPTY
    {
      tickets, tails := [], map[];
    }

    /** `runExclusive` up to its `await previous`. */
    method ArriveAt(key: string) returns (ticket: nat)
      requires Valid()
      modifies this
      ensures Valid() && View() == Arrive(old(View()), key) && ticket == |old(tickets)|
      ensures Queue(View(), key) == Queue(old(View()), key) + [ticket]
    {
      ArriveKeepsInv(View(), key);
      ArriveEnqueues(View(), key, key);
      var previous := if key in tails then Some(tails[key]) else None;
      ticket := |tickets|;
      tickets := tickets + [Ticket(key, previous, Waiting)];
      tails := tails[key := ticket];
    }

    /** The await resumes: the waiter becomes the holder. */
    method Start(ticket: nat)
      requires Valid() && CanEnter(View(), ticket)
      modifies this
      ensures Valid() && View() == Enter(old(View()), ticket)
    {
      EnterKeepsInv(View(), ticket);
      tickets := tickets[ticket := tickets[ticket].(phase := Running)];
    }

    /** The `finally` block: release, then forget the key if nobody arrived after. */
    method Release(ticket: nat)
      requires Valid() && CanLeave(View(), ticket)
      modifies this
      ensures Valid() && View() == Leave(old(View()), ticket)
      ensures Queue(old(View()), old(tickets[ticket].key)) == [ticket] + Queue(View(), old(tickets[ticket].key))
    {
      LeaveKeepsInv(View(), ticket);
      LeaveDequeues(View(), ticket, "");
      var key := tickets[ticket].key;
      tickets := tickets[ticket := tickets[ticket].(phase := Done)];
      if key in tails && tails[key] == ticket {
        tails := tails - {key};
      }
    }
  }
}
