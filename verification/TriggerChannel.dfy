/**
 * Coalescing trigger channels: the soot controller nudges each controller of a manager through a
 * channel with one slot and never waits.  The consumer moves events into a workqueue with a
 * single key, and a worker reconciles by reading the tenant's current state.
 */
module TriggerChannel {
  import opened Common

  const BUFFER_SIZE: nat := 1

  /** The sending side. */
  class Channel<Event> {
    var buffer: seq<Event>

    ghost predicate Valid() reads this { |buffer| <= BUFFER_SIZE }

    constructor ()
      ensures Valid() && buffer == []
    {
      buffer := [];
    }

    /** Sends unless the buffer is full; an event is pending afterwards in any case. */
    method Coalesce(event: Event)
      requires Valid()
      modifies this
      ensures Valid() && buffer != []
      ensures buffer == if old(buffer) == [] then [event] else old(buffer)
    {
      if |buffer| < BUFFER_SIZE {
        buffer := buffer + [event];
      }
    }
  }

  /** The worker on the consuming side. */
  datatype Worker = Resting | Fetched | HasRead

  /** States of the tenant are numbered; numbers only grow. */
  datatype World = World(
    capacity: Option<nat>,      // None: an unbounded queue
    current: nat,               // the tenant's state now
    held: Option<nat>,          // the state the sender has read, until it has sent its nudge
    nudged: nat,                // the state behind the last nudge
    slot: nat,                  // events in the channel
    started: bool,              // the consumer loop runs
    hand: nat,                  // events received and not yet enqueued
    dirty: bool,                // the key is marked for (another) reconciliation
    worker: Worker,
    seen: nat)                  // the newest state the consumer has read

  datatype Action =
    | Edit
    | Observe
    | Send(parked: bool)        // `parked`: the consumer is waiting on the channel
    | Start
    | Receive
    | Enqueue
    | Take
    | Read
    | Finish
    | Retry

  predicate Room(w: World) {
    w.capacity.None? || w.slot < w.capacity.value
  }

  function SenderStep(w: World, a: Action): Option<World> {
    match a
    case Edit => Some(w.(current := w.current + 1))
    case Observe => Some(w.(held := Some(w.current)))
    case Send(parked) =>
      if w.held.None? || (parked && !w.started) then None
      else
        var w' := w.(held := None, nudged := w.held.value);
        if Room(w) then Some(w'.(slot := w.slot + 1))
        else if w.capacity == Some(0) && parked then Some(w'.(hand := w.hand + 1))
        else Some(w')
    case _ => None
  }

  function ConsumerStep(w: World, a: Action): Option<World> {
    match a
    case Start => Some(w.(started := true))
    case Receive => if w.started && w.slot > 0 then Some(w.(slot := w.slot - 1, hand := w.hand + 1)) else None
    case Enqueue => if w.hand > 0 then Some(w.(hand := w.hand - 1, dirty := true)) else None
    case Take => if w.dirty && w.worker.Resting? then Some(w.(dirty := false, worker := Fetched)) else None
    case Read => if w.worker.Fetched? then Some(w.(worker := HasRead, seen := w.current)) else None
    case Finish => if w.worker.HasRead? then Some(w.(worker := Resting)) else None
    case Retry => if w.worker.Resting? then None else Some(w.(worker := Resting, dirty := true))
    case _ => None
  }

  function Step(w: World, a: Action): Option<World> {
    if a.Edit? || a.Observe? || a.Send? then SenderStep(w, a) else ConsumerStep(w, a)
  }

  predicate Initial(w: World) {
    && w.current == w.nudged == w.seen && w.held.None?
    && w.slot == 0 && w.hand == 0 && !w.dirty && w.worker.Resting? && !w.started
  }

  predicate Run(capacity: Option<nat>, trace: seq<World>, actions: seq<Action>) {
    && |trace| == |actions| + 1 && Initial(trace[0]) && trace[0].capacity == capacity
    && forall i {:trigger actions[i]} :: 0 <= i < |actions| ==> Step(trace[i], actions[i]) == Some(trace[i + 1])
  }

  /** A reconciliation that has not read the tenant yet is on its way. */
  predicate Pending(w: World) {
    w.slot > 0 || w.hand > 0 || w.dirty || w.worker.Fetched?
  }

  predicate Quiescent(w: World) {
    !Pending(w) && w.worker.Resting? && w.held.None?
  }

  predicate Buffered(capacity: Option<nat>) {
    capacity != Some(0)
  }

  predicate Inv(w: World) {
    && w.nudged <= w.current && w.seen <= w.current && (w.held.Some? ==> w.held.value <= w.current)
    && (Buffered(w.capacity) ==> w.seen >= w.nudged || Pending(w))
  }

  lemma InvStep(w: World, a: Action, w': World)
    requires Inv(w) && Step(w, a) == Some(w')
    ensures Inv(w') && w'.capacity == w.capacity
  {
  }

  lemma {:induction false} InvHolds(capacity: Option<nat>, trace: seq<World>, actions: seq<Action>, i: nat)
    requires Run(capacity, trace, actions) && i < |trace|
    ensures Inv(trace[i]) && trace[i].capacity == capacity
  {
    if i > 0 {
      InvHolds(capacity, trace, actions, i - 1);
      assert Step(trace[i - 1], actions[i - 1]) == Some(trace[i]);
      InvStep(trace[i - 1], actions[i - 1], trace[i]);
    }
  }

  /**
   * With room for one event no nudge is lost: in every interleaving, a consumer that has not read
   * a state as new as the last nudge has an event in the channel or in hand, or its key is marked,
   * or it is about to read.  Once everything is quiet it has read that state.
   */
  lemma NudgeIsNeverLost(capacity: Option<nat>, trace: seq<World>, actions: seq<Action>, i: nat)
    requires Run(capacity, trace, actions) && i < |trace| && Buffered(capacity)
    ensures trace[i].seen >= trace[i].nudged || Pending(trace[i])
    ensures Quiescent(trace[i]) ==> trace[i].nudged <= trace[i].seen <= trace[i].current
  {
    InvHolds(capacity, trace, actions, i);
  }

  /** `u` differs from `w` only in having an unbounded queue, which may hold more events. */
  predicate Mirrors(w: World, u: World) {
    u.capacity == None && u.slot >= w.slot && u.(capacity := w.capacity, slot := w.slot) == w
  }

  lemma MirrorStep(w: World, u: World, a: Action, w': World)
    requires Mirrors(w, u) && Buffered(w.capacity) && Step(w, a) == Some(w')
    ensures Step(u, a).Some? && Mirrors(w', Step(u, a).value)
  {
  }

  lemma PrefixRun(capacity: Option<nat>, trace: seq<World>, actions: seq<Action>, n: nat)
    requires Run(capacity, trace, actions) && n <= |actions|
    ensures Run(capacity, trace[..n + 1], actions[..n])
  {
    forall i {:trigger actions[..n][i]} | 0 <= i < n
      ensures Step(trace[..n + 1][i], actions[..n][i]) == Some(trace[..n + 1][i + 1])
    {
      assert actions[i] == actions[..n][i];
    }
  }

  lemma ExtendRun(capacity: Option<nat>, trace: seq<World>, actions: seq<Action>, a: Action)
    requires Run(capacity, trace, actions) && Step(trace[|actions|], a).Some?
    ensures Run(capacity, trace + [Step(trace[|actions|], a).value], actions + [a])
  {
    var trace', actions' := trace + [Step(trace[|actions|], a).value], actions + [a];
    forall i {:trigger actions'[i]} | 0 <= i < |actions'|
      ensures Step(trace'[i], actions'[i]) == Some(trace'[i + 1])
    {
      if i < |actions| {
        assert actions'[i] == actions[i];
      }
    }
  }

  /**
   * Every schedule of a buffered channel is also a schedule of the unbounded queue, and the
   * consumer reads the same states at the same points of it.
   */
  lemma {:induction false} RefinesUnboundedQueue(capacity: Option<nat>, trace: seq<World>, actions: seq<Action>)
    returns (mirror: seq<World>)
    requires Run(capacity, trace, actions) && Buffered(capacity)
    ensures Run(None, mirror, actions)
    ensures forall i :: 0 <= i < |trace| ==> Mirrors(trace[i], mirror[i])
    decreases |actions|
  {
    if actions == [] {
      mirror := [trace[0].(capacity := None)];
    } else {
      var n := |actions| - 1;
      PrefixRun(capacity, trace, actions, n);
      var prefix := trace[..n + 1];
      mirror := RefinesUnboundedQueue(capacity, prefix, actions[..n]);
      assert Mirrors(prefix[n], mirror[n]);
      assert Step(trace[n], actions[n]) == Some(trace[n + 1]);
      InvHolds(capacity, trace, actions, n);
      MirrorStep(trace[n], mirror[n], actions[n], trace[n + 1]);
      ExtendRun(None, mirror, actions[..n], actions[n]);
      mirror := mirror + [Step(mirror[n], actions[n]).value];
      assert actions == actions[..n] + [actions[n]];
      assert trace == prefix + [trace[n + 1]];
    }
  }

  /**
   * The one-slot channel ends where an unbounded queue ends: whenever two runs come to rest with
   * the tenant in the same state, and that state was nudged, both consumers have seen it.
   */
  lemma AgreesWithUnboundedQueue(
    bounded: seq<World>, actions: seq<Action>, unbounded: seq<World>, actions': seq<Action>)
    requires Run(Some(BUFFER_SIZE), bounded, actions) && Run(None, unbounded, actions')
    requires var b, u := bounded[|actions|], unbounded[|actions'|];
             Quiescent(b) && Quiescent(u) && b.current == u.current == b.nudged == u.nudged
    ensures bounded[|actions|].seen == unbounded[|actions'|].seen == bounded[|actions|].current
  {
    InvHolds(Some(BUFFER_SIZE), bounded, actions, |actions|);
    InvHolds(None, unbounded, actions', |actions'|);
  }

  /** Some run comes to rest with a nudge nobody has seen. */
  ghost predicate CanLose(capacity: Option<nat>) {
    exists trace: seq<World>, actions ::
      Run(capacity, trace, actions) && Quiescent(trace[|actions|]) && trace[|actions|].seen < trace[|actions|].nudged
  }

  /** One slot is also the minimum: nudges can be lost exactly when the channel is unbuffered. */
  lemma LosesExactlyWhenUnbuffered(capacity: Option<nat>)
    ensures CanLose(capacity) <==> !Buffered(capacity)
  {
    if Buffered(capacity) {
      forall trace: seq<World>, actions | Run(capacity, trace, actions)
        ensures !(Quiescent(trace[|actions|]) && trace[|actions|].seen < trace[|actions|].nudged)
      {
        InvHolds(capacity, trace, actions, |actions|);
      }
    } else {
      var w0 := World(capacity, 0, None, 0, 0, false, 0, false, Resting, 0);
      var w1 := w0.(current := 1);
      var w2 := w1.(held := Some(1));
      var w3 := w2.(held := None, nudged := 1);
      assert Run(capacity, [w0, w1, w2, w3], [Edit, Observe, Send(false)]);
      assert Quiescent([w0, w1, w2, w3][|[Edit, Observe, Send(false)]|]);
    }
  }

  // ---------- the consumer gets there ----------

  function Play(w: World, actions: seq<Action>): Option<World>
    decreases |actions|
  {
    if actions == [] then Some(w)
    else if Step(w, actions[0]).None? then None
    else Play(Step(w, actions[0]).value, actions[1..])
  }

  /** How far the consumer is from rest. */
  function Backlog(w: World): nat {
    6 * w.slot + 5 * w.hand + (if w.dirty then 4 else 0) + (if w.worker.Fetched? then 3 else if w.worker.HasRead? then 1 else 0)
    + (if w.started then 0 else 1)
  }

  /** What the consumer does next when left alone. */
  function Next(w: World): Action {
    if w.worker.HasRead? then Finish
    else if w.worker.Fetched? then Read
    else if !w.started then Start
    else if w.slot > 0 then Receive
    else if w.hand > 0 then Enqueue
    else Take
  }

  lemma NextAdvances(w: World)
    requires !Quiescent(w) && w.held.None?
    ensures
      var w' := Step(w, Next(w));
      && w'.Some? && Backlog(w'.value) < Backlog(w) && w'.value.held.None? && w'.value.current == w.current
      && (Pending(w) || w.seen == w.current ==> Pending(w'.value) || w'.value.seen == w.current)
  {}

  /** Left alone, the consumer comes to rest, and whenever something was pending it has then read the current state. */
  lemma {:induction false} ConsumerComesToRest(w: World) returns (actions: seq<Action>)
    requires w.held.None?
    ensures
      var w' := Play(w, actions);
      && w'.Some? && Quiescent(w'.value) && w'.value.current == w.current
      && (Pending(w) || w.seen == w.current ==> w'.value.seen == w.current)
      && forall i :: 0 <= i < |actions| ==> !actions[i].Edit? && !actions[i].Observe? && !actions[i].Send?
    decreases Backlog(w)
  {
    if Quiescent(w) {
      actions := [];
    } else {
      NextAdvances(w);
      var rest := ConsumerComesToRest(Step(w, Next(w)).value);
      actions := [Next(w)] + rest;
      assert actions[1..] == rest;
    }
  }

  /** A nudge into a buffered channel leaves something pending, so it is followed by a read of the current state. */
  lemma NudgeLeadsToRead(w: World, parked: bool)
    requires Buffered(w.capacity) && w.held.Some? && (parked ==> w.started)
    ensures var w' := Step(w, Send(parked)); w'.Some? && Pending(w'.value) && w'.value.held.None? && w'.value.nudged == w.held.value
  {}
}
