/** The Android glue: callbacks are collected on any thread and delivered to Java by one message thread
    that sleeps on a condition variable. A state machine over the steps that the two locks leave
    indivisible. */
module Android {
  import opened Model

  datatype QueuedCallback = QueuedCallback(mod: int, updates: seq<Update>)

  /** Where the message thread stands. It holds the condition's mutex while it collects and delivers. */
  datatype Consumer =
    | Awake                                // outside the mutex, about to take it and look at the flag
    | Asleep                               // in the wait
    | Collecting                           // saw the flag and cleared it
    | Delivering(batch: seq<QueuedCallback>)

  datatype State = State(
    collector: seq<QueuedCallback>,
    ready: bool,
    toFlag: nat,                           // threads that have added and not yet set the flag
    toSignal: nat,                         // threads that have set the flag and not yet signalled
    consumer: Consumer,
    added: seq<QueuedCallback>,            // history
    delivered: seq<QueuedCallback>)        // what Java got

  const STARTED := State([], false, 0, 0, Awake, [], [])

  datatype Step =
    | Add(callback: QueuedCallback)
    | SetFlag
    | Signal
    | Spurious                             // a wait may end without a signal
    | Consume

  predicate Locked(s: State) {
    s.consumer.Collecting? || s.consumer.Delivering?
  }

  predicate Able(s: State, e: Step) {
    match e
    case Add(_) => true
    case SetFlag => s.toFlag > 0 && !Locked(s)
    case Signal => s.toSignal > 0
    case Spurious => s.consumer.Asleep?
    case Consume => !s.consumer.Asleep?
  }

  function InHand(s: State): seq<QueuedCallback> {
    if s.consumer.Delivering? then s.consumer.batch else []
  }

  /** The message thread's next step. */
  function ConsumeStep(s: State): State
    requires !s.consumer.Asleep?
  {
    match s.consumer
    case Awake => if s.ready then s.(ready := false, consumer := Collecting) else s.(consumer := Asleep)
    case Collecting => s.(consumer := Delivering(s.collector), collector := [])
    case Delivering(batch) =>
      if batch == [] then s.(consumer := Awake)
      else s.(consumer := Delivering(batch[1..]), delivered := s.delivered + [batch[0]])
  }

  function Take(s: State, e: Step): State {
    if !Able(s, e) then s
    else match e
      case Add(c) => s.(collector := s.collector + [c], added := s.added + [c], toFlag := s.toFlag + 1)
      case SetFlag => s.(ready := true, toFlag := s.toFlag - 1, toSignal := s.toSignal + 1)
      case Signal => s.(toSignal := s.toSignal - 1, consumer := if s.consumer.Asleep? then Awake else s.consumer)
      case Spurious => s.(consumer := Awake)
      case Consume => ConsumeStep(s)
  }

  function Interleave(es: seq<Step>): State {
    if es == [] then STARTED else Take(Interleave(es[..|es| - 1]), es[|es| - 1])
  }

  /** Nothing is lost, repeated or reordered on the way. */
  predicate Conserved(s: State) {
    s.delivered + InHand(s) + s.collector == s.added
  }

  /** What waits in the collector is known to somebody who will act. */
  predicate Noticed(s: State) {
    s.collector != [] ==> s.ready || s.toFlag > 0 || s.consumer.Collecting?
  }

  /** The message thread does not sleep on a set flag unless a signal is on its way. */
  predicate Woken(s: State) {
    (s.consumer.Asleep? && s.ready ==> s.toSignal > 0) && (Locked(s) ==> !s.ready)
  }

  lemma Associates(a: seq<QueuedCallback>, b: seq<QueuedCallback>, c: seq<QueuedCallback>, d: seq<QueuedCallback>)
    ensures a + b + (c + d) == a + b + c + d && a + (b + c) + d == a + b + c + d
  {}

  lemma ConsumeConserves(s: State)
    requires Conserved(s) && !s.consumer.Asleep?
    ensures Conserved(ConsumeStep(s))
  {
    var none: seq<QueuedCallback> := [];
    if s.consumer.Collecting? {
      assert s.delivered + none + s.collector == s.delivered + s.collector + none;
    } else if s.consumer.Delivering? && s.consumer.batch != [] {
      assert s.consumer.batch == [s.consumer.batch[0]] + s.consumer.batch[1..];
      Associates(s.delivered, [s.consumer.batch[0]], s.consumer.batch[1..], s.collector);
    }
  }

  lemma TakeConserves(s: State, e: Step)
    requires Conserved(s)
    ensures Conserved(Take(s, e))
  {
    if e.Add? {
      Associates(s.delivered, InHand(s), s.collector, [e.callback]);
    } else if e.Consume? && Able(s, e) {
      ConsumeConserves(s);
    }
  }

  lemma TakeWakes(s: State, e: Step)
    requires Noticed(s) && Woken(s)
    ensures Noticed(Take(s, e)) && Woken(Take(s, e))
  {}

  lemma TakeKeeps(s: State, e: Step)
    requires Conserved(s) && Noticed(s) && Woken(s)
    ensures Conserved(Take(s, e)) && Noticed(Take(s, e)) && Woken(Take(s, e))
  {
    TakeConserves(s, e);
    TakeWakes(s, e);
  }

  lemma {:induction false} InterleavingsKeep(es: seq<Step>)
    ensures Conserved(Interleave(es)) && Noticed(Interleave(es)) && Woken(Interleave(es))
    decreases |es|
  {
    if es != [] {
      InterleavingsKeep(es[..|es| - 1]);
      TakeKeeps(Interleave(es[..|es| - 1]), es[|es| - 1]);
    }
  }

  /** No lost callback, in every interleaving: what Java got is a prefix of what was added, in order and
      without duplicates; a callback still in the collector has the flag set for it, or a thread that
      will set it, or the message thread about to collect it; and a sleeping message thread with the
      flag set has a signal coming. When no thread is inside a notification and the message thread
      sleeps, everything was delivered. */
  lemma NoCallbackIsLost(es: seq<Step>)
    ensures var s := Interleave(es);
            && s.delivered <= s.added
            && (s.collector != [] ==> s.ready || s.toFlag > 0 || s.consumer.Collecting?)
            && (s.consumer.Asleep? && s.ready ==> s.toSignal > 0)
            && (s.consumer.Asleep? && s.toFlag == 0 && s.toSignal == 0 ==> s.delivered == s.added)
  {
    InterleavingsKeep(es);
  }

  function Alone(s: State, n: nat): State
    decreases n
  {
    if n == 0 || s.consumer.Asleep? then s else Alone(ConsumeStep(s), n - 1)
  }

  /** How many steps of its own the message thread is away from sleep when nobody notifies. */
  function Distance(s: State): nat {
    match s.consumer
    case Asleep => 0
    case Awake => if s.ready then |s.collector| + 4 else 1
    case Collecting => |s.collector| + 3
    case Delivering(batch) => |batch| + 2
  }

  lemma {:induction false} Drains(s: State)
    requires Conserved(s) && Noticed(s) && Woken(s) && s.toFlag == 0 && s.toSignal == 0
    ensures var z := Alone(s, Distance(s)); z.consumer.Asleep? && z.delivered == z.added == s.added
    decreases Distance(s)
  {
    if !s.consumer.Asleep? {
      TakeKeeps(s, Consume);
      Drains(ConsumeStep(s));
    }
  }

  /** From whatever an interleaving leads to with no thread inside a notification, the message thread on
      its own delivers everything that was added, in a known number of steps, and goes to sleep. */
  lemma MessageThreadDelivers(es: seq<Step>)
    requires Interleave(es).toFlag == 0 && Interleave(es).toSignal == 0
    ensures var s := Interleave(es); var z := Alone(s, Distance(s));
            z.consumer.Asleep? && z.delivered == s.added
  {
    InterleavingsKeep(es);
    Drains(Interleave(es));
  }

  /* ---- Collecting and delivering as the glue's own code ---- */

  class JniGlue {
    var collector: seq<QueuedCallback>
    var java: seq<QueuedCallback>   // calls made into Java

    constructor ()
      ensures collector == [] && java == []
    {
      collector, java := [], [];
    }

    method Collect() returns (callbacks: seq<QueuedCallback>)
      modifies this`collector
      ensures callbacks == old(collector) && collector == []
    {
      callbacks := collector;
      collector := [];
    }

    /** One call for each collected callback, in order, with its updates in order; as far as the message
        thread goes this is Collecting followed by all of Delivering. */
    method CallJavaPropertiesUpdate(ghost s: State)
      requires s.consumer.Collecting? && s.collector == collector && s.delivered == java
      modifies this
      ensures java == old(java) + old(collector) && collector == []
      ensures Alone(s, |old(collector)| + 1) == s.(consumer := Delivering([]), collector := collector, delivered := java)
    {
      var callbacks := Collect();
      for i := 0 to |callbacks|
        invariant collector == [] && java == old(java) + callbacks[..i]
        invariant Alone(s, i + 1) == s.(consumer := Delivering(callbacks[i..]), collector := [], delivered := java)
      {
        var updates := new Update[|callbacks[i].updates|](j requires 0 <= j < |callbacks[i].updates| => callbacks[i].updates[j]);
        assert updates[..] == callbacks[i].updates;
        AloneNext(s, i + 1);
        java := java + [QueuedCallback(callbacks[i].mod, updates[..])];
        assert callbacks[..i + 1] == callbacks[..i] + [callbacks[i]] && callbacks[i..][1..] == callbacks[i + 1..];
      }
      assert callbacks[..|callbacks|] == callbacks && callbacks[|callbacks|..] == [];
    }
  }

  lemma {:induction false} AloneNext(s: State, n: nat)
    ensures !Alone(s, n).consumer.Asleep? ==> Alone(s, n + 1) == ConsumeStep(Alone(s, n))
    decreases n
  {
    if n > 0 && !s.consumer.Asleep? { AloneNext(ConsumeStep(s), n - 1); }
  }
}
