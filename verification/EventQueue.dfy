/** The event queue of client/vsx-game-state.c.  A worker thread appends events under a mutex; the main thread detaches
    the whole queue, handles its events one by one without the mutex, and then gives the nodes back.  Each section under
    the mutex, and the handling of each event, is one step; steps of the two threads interleave in any way. */
module EventQueue {

  /** Poll changes only concern the worker and are not queued. */
  datatype Event = PollChanged | Other(id: int)

  /** A queue node, by number, and the event stored in it. */
  datatype Entry = Entry(node: nat, event: Event)

  /** What has become of an event. */
  datatype Fate = Fate(event: Event, handled: bool)

  datatype State = State(
    queue: seq<Entry>, scheduled: bool,
    flushing: bool, inflight: seq<Entry>, position: nat,
    freed: seq<nat>, made: nat,
    handled: seq<Event>, past: seq<Fate>)

  datatype Step = Emit(event: Event) | Detach | HandleOne | GiveBack | Reset

  function Empty(): State {
    State([], false, false, [], 0, [], 0, [], [])
  }

  /** The flush runs when it is scheduled and the main thread is free; a reset is a main-thread call too. */
  predicate Enabled(s: State, step: Step) {
    match step
    case Emit(_) => true
    case Detach => s.scheduled && !s.flushing
    case HandleOne => s.flushing && s.position < |s.inflight|
    case GiveBack => s.flushing && s.position == |s.inflight|
    case Reset => !s.flushing
  }

  function Nodes(entries: seq<Entry>): (r: seq<nat>)
    ensures |r| == |entries|
  {
    seq(|entries|, i requires 0 <= i < |entries| => entries[i].node)
  }

  function Events(entries: seq<Entry>): (r: seq<Event>)
    ensures |r| == |entries|
  {
    seq(|entries|, i requires 0 <= i < |entries| => entries[i].event)
  }

  function Discarded(entries: seq<Entry>): (r: seq<Fate>)
    ensures |r| == |entries|
  {
    seq(|entries|, i requires 0 <= i < |entries| => Fate(entries[i].event, false))
  }

  /** event_cb: a node from the free list if there is one, otherwise a new one. */
  function Append(s: State, e: Event): State {
    if e.PollChanged? then s
    else if s.freed == [] then s.(queue := s.queue + [Entry(s.made, e)], made := s.made + 1, scheduled := true)
    else s.(queue := s.queue + [Entry(s.freed[0], e)], freed := s.freed[1..], scheduled := true)
  }

  function Next(s: State, step: Step): State
    requires Enabled(s, step)
  {
    match step
    case Emit(e) => Append(s, e)
    case Detach => s.(scheduled := false, inflight := s.queue, queue := [], flushing := true, position := 0)
    case HandleOne =>
      var e := s.inflight[s.position].event;
      s.(handled := s.handled + [e], past := s.past + [Fate(e, true)], position := s.position + 1)
    case GiveBack => s.(freed := Nodes(s.inflight) + s.freed, inflight := [], flushing := false, position := 0)
    case Reset =>
      s.(freed := Nodes(s.queue) + s.freed, past := s.past + Discarded(s.queue), queue := [], scheduled := false)
  }

  /** Not yet handled, in order. */
  function Pending(s: State): seq<Event>
    requires s.position <= |s.inflight|
  {
    Events(s.inflight[s.position..]) + Events(s.queue)
  }

  function AllNodes(s: State): seq<nat> {
    Nodes(s.queue) + (Nodes(s.inflight) + s.freed)
  }

  /** Every node that exists is in exactly one place of exactly one of the three lists. */
  ghost predicate EachOnce(nodes: seq<nat>, made: nat) {
    && (forall i, j :: 0 <= i < j < |nodes| ==> nodes[i] != nodes[j])
    && (forall n: nat :: n in nodes <==> n < made)
  }

  ghost predicate Inv(s: State) {
    && (s.scheduled <==> s.queue != [])
    && s.position <= |s.inflight| && (!s.flushing ==> s.inflight == [])
    && EachOnce(AllNodes(s), s.made)
  }

  // ---------- permutations of the lists ----------

  /** b is a in another order of its two parts. */
  lemma SwapParts(a: seq<nat>, b: seq<nat>, made: nat)
    requires EachOnce(a + b, made)
    ensures EachOnce(b + a, made)
  {
    var x, y := a + b, b + a;
    forall i, j | 0 <= i < j < |y|
      ensures y[i] != y[j]
    {
      var i' := if i < |b| then i + |a| else i - |b|;
      var j' := if j < |b| then j + |a| else j - |b|;
      assert y[i] == x[i'] && y[j] == x[j'] && i' != j';
    }
    forall n: nat
      ensures n in y <==> n in x
    {
    }
  }

  /** Moving the first of the free nodes to the end of the queue. */
  lemma MoveOne(queue: seq<nat>, middle: seq<nat>, freed: seq<nat>, made: nat)
    requires freed != [] && EachOnce(queue + (middle + freed), made)
    ensures EachOnce(queue + [freed[0]] + (middle + freed[1..]), made)
  {
    var all, moved := queue + (middle + freed), queue + [freed[0]] + (middle + freed[1..]);
    var at := |queue| + |middle|;
    assert all[at] == freed[0];
    forall i | 0 <= i < |moved|
      ensures moved[i] == all[if i < |queue| then i else if i == |queue| then at else if i <= at then i - 1 else i]
    {
    }
    forall n: nat
      ensures n in moved <==> n in all
    {
      if n in all {
        var k :| 0 <= k < |all| && all[k] == n;
        assert moved[if k < |queue| then k else if k < at then k + 1 else if k == at then |queue| else k] == n;
      }
    }
  }

  lemma AddOne(queue: seq<nat>, rest: seq<nat>, made: nat)
    requires EachOnce(queue + rest, made)
    ensures EachOnce(queue + [made] + rest, made + 1)
  {
    SwapParts(queue, rest, made);
    var all := rest + queue + [made];
    assert all[|rest + queue|] == made;
    forall i, j | 0 <= i < j < |all|
      ensures all[i] != all[j]
    {
      assert i < |rest + queue| ==> all[i] == (rest + queue)[i] && all[i] in rest + queue;
      assert j < |rest + queue| ==> all[j] == (rest + queue)[j];
    }
    forall n: nat
      ensures n in all <==> n < made + 1
    {
      assert n in all <==> n in rest + queue || n == made;
    }
    assert all == rest + (queue + [made]);
    SwapParts(rest, queue + [made], made + 1);
  }

  lemma AppendNodes(s: State, e: Event)
    requires Inv(s) && e.Other?
    ensures EachOnce(AllNodes(Append(s, e)), Append(s, e).made)
  {
    hide EachOnce;
    var q, m := Nodes(s.queue), Nodes(s.inflight);
    if s.freed == [] {
      AddOne(q, m + s.freed, s.made);
      assert Nodes(s.queue + [Entry(s.made, e)]) == q + [s.made];
    } else {
      MoveOne(q, m, s.freed, s.made);
      assert Nodes(s.queue + [Entry(s.freed[0], e)]) == q + [s.freed[0]];
    }
  }

  lemma NextNodes(s: State, step: Step)
    requires Inv(s) && Enabled(s, step) && !step.Emit?
    ensures EachOnce(AllNodes(Next(s, step)), s.made)
  {
    hide EachOnce;
    var q, m, f := Nodes(s.queue), Nodes(s.inflight), s.freed;
    match step
    case Detach =>
      assert q + (m + f) == [] + (q + f);
    case HandleOne =>
    case GiveBack =>
      assert m + f == [] + (m + f);
    case Reset =>
      assert q + (m + f) == [] + ([] + (q + f));
  }

  /** A flush is scheduled exactly when the queue is not empty, and every node is in exactly one of the three lists. */
  lemma InvNext(s: State, step: Step)
    requires Inv(s) && Enabled(s, step)
    ensures Inv(Next(s, step))
  {
    if step.Emit? {
      if step.event.Other? { AppendNodes(s, step.event); }
    } else {
      NextNodes(s, step);
    }
  }

  // ---------- whole runs ----------

  ghost predicate Legal(steps: seq<Step>)
    decreases |steps|, 0
  {
    steps == [] || (var m := |steps| - 1; Legal(steps[..m]) && Enabled(Run(steps[..m]), steps[m]))
  }

  ghost function Run(steps: seq<Step>): (s: State)
    requires Legal(steps)
    ensures Inv(s)
    decreases |steps|, 1
  {
    if steps == [] then
      assert EachOnce([], 0);
      Empty()
    else
      InvNext(Run(steps[..|steps| - 1]), steps[|steps| - 1]);
      Next(Run(steps[..|steps| - 1]), steps[|steps| - 1])
  }

  /** The events that are not poll changes. */
  function Emitted(steps: seq<Step>): seq<Event> {
    if steps == [] then []
    else
      var last := steps[|steps| - 1];
      Emitted(steps[..|steps| - 1]) + if last.Emit? && last.event.Other? then [last.event] else []
  }

  function EventsOf(fates: seq<Fate>): (r: seq<Event>)
    ensures |r| == |fates|
  {
    seq(|fates|, i requires 0 <= i < |fates| => fates[i].event)
  }

  /** Those of the events that were handled. */
  function HandledOf(fates: seq<Fate>): seq<Event> {
    if fates == [] then []
    else
      var last := fates[|fates| - 1];
      HandledOf(fates[..|fates| - 1]) + if last.handled then [last.event] else []
  }

  lemma HandledLast(fates: seq<Fate>, f: Fate)
    ensures HandledOf(fates + [f]) == HandledOf(fates) + if f.handled then [f.event] else []
  {
    assert (fates + [f])[..|fates|] == fates;
  }

  lemma {:induction false} HandledDiscarded(fates: seq<Fate>, entries: seq<Entry>)
    ensures HandledOf(fates + Discarded(entries)) == HandledOf(fates)
  {
    if entries == [] {
      assert fates + Discarded(entries) == fates;
    } else {
      var m := |entries| - 1;
      HandledDiscarded(fates, entries[..m]);
      assert fates + Discarded(entries) == fates + Discarded(entries[..m]) + [Fate(entries[m].event, false)];
      HandledLast(fates + Discarded(entries[..m]), Fate(entries[m].event, false));
    }
  }

  /** One fate for each event emitted so far, or it is still pending, in order. */
  ghost predicate Accounts(s: State, emitted: seq<Event>) {
    s.position <= |s.inflight| && emitted == EventsOf(s.past) + Pending(s) && s.handled == HandledOf(s.past)
  }

  lemma PendingEmit(s: State, e: Event)
    requires s.position <= |s.inflight| && e.Other?
    ensures var d := Append(s, e);
            && d.position <= |d.inflight| && Pending(d) == Pending(s) + [e]
            && d.past == s.past && d.handled == s.handled
  {
    assert Events(Append(s, e).queue) == Events(s.queue) + [e];
  }

  lemma AccountsEmit(s: State, e: Event, emitted: seq<Event>)
    requires Accounts(s, emitted) && e.Other?
    ensures Accounts(Append(s, e), emitted + [e])
  {
    hide Append, Pending, HandledOf;
    PendingEmit(s, e);
    assert emitted + [e] == EventsOf(s.past) + (Pending(s) + [e]);
  }

  lemma AccountsHandle(s: State, emitted: seq<Event>)
    requires Inv(s) && Accounts(s, emitted) && Enabled(s, HandleOne)
    ensures Accounts(Next(s, HandleOne), emitted)
  {
    hide EachOnce, HandledOf;
    var d, e := Next(s, HandleOne), s.inflight[s.position].event;
    HandledLast(s.past, Fate(e, true));
    assert Events(s.inflight[s.position..]) == [e] + Events(s.inflight[d.position..]);
    assert EventsOf(d.past) == EventsOf(s.past) + [e];
    assert Pending(s) == [e] + Pending(d);
  }

  lemma AccountsRest(s: State, step: Step, emitted: seq<Event>)
    requires Inv(s) && Accounts(s, emitted) && Enabled(s, step) && (step.Detach? || step.GiveBack? || step.Reset?)
    ensures Accounts(Next(s, step), emitted)
  {
    hide EachOnce, HandledOf;
    var d := Next(s, step);
    match step
    case Detach =>
      assert s.inflight[s.position..] == [] && d.inflight[0..] == s.queue;
      assert Pending(d) == Pending(s);
    case GiveBack =>
      assert s.inflight[s.position..] == [];
      assert Pending(d) == Pending(s);
    case Reset =>
      HandledDiscarded(s.past, s.queue);
      assert EventsOf(d.past) == EventsOf(s.past) + Events(s.queue);
      assert Pending(s) == Events(s.queue) && Pending(d) == [];
  }

  ghost predicate NoReset(steps: seq<Step>) {
    forall i :: 0 <= i < |steps| ==> !steps[i].Reset?
  }

  /** Under every interleaving, each event emitted so far has been handled, or discarded, or is still pending, in the
      order of emission; what has been handled are exactly the events with that fate, once each. */
  lemma {:induction false} ExactlyOnceInOrder(steps: seq<Step>)
    requires Legal(steps)
    ensures var s := Run(steps); Inv(s) && Accounts(s, Emitted(steps))
    decreases |steps|
  {
    hide Inv, EachOnce;
    if steps != [] {
      var m := |steps| - 1;
      var s, step := Run(steps[..m]), steps[m];
      ExactlyOnceInOrder(steps[..m]);
      if step.Emit? {
        if step.event.Other? {
          AccountsEmit(s, step.event, Emitted(steps[..m]));
        } else {
          assert Emitted(steps) == Emitted(steps[..m]);
        }
      } else {
        assert Emitted(steps) == Emitted(steps[..m]);
        if step.HandleOne? {
          AccountsHandle(s, Emitted(steps[..m]));
        } else {
          AccountsRest(s, step, Emitted(steps[..m]));
        }
      }
    }
  }

  /** Only a reset discards events: without one, those handled and those pending are all that were emitted. */
  lemma NothingLost(steps: seq<Step>)
    requires Legal(steps) && NoReset(steps)
    ensures var s := Run(steps); s.position <= |s.inflight| && s.handled + Pending(s) == Emitted(steps)
  {
    ExactlyOnceInOrder(steps);
    AllHandled(steps);
    hide Inv, EachOnce;
    HandledAll(Run(steps).past);
  }

  lemma {:induction false} AllHandled(steps: seq<Step>)
    requires Legal(steps) && NoReset(steps)
    ensures forall i :: 0 <= i < |Run(steps).past| ==> Run(steps).past[i].handled
    decreases |steps|
  {
    hide Inv, EachOnce;
    if steps != [] { AllHandled(steps[..|steps| - 1]); }
  }

  lemma {:induction false} HandledAll(fates: seq<Fate>)
    requires forall i :: 0 <= i < |fates| ==> fates[i].handled
    ensures HandledOf(fates) == EventsOf(fates)
  {
    if fates != [] { HandledAll(fates[..|fates| - 1]); }
  }

  // ---------- the data of struct vsx_game_state ----------

  class Queue {
    var eventQueue: seq<Entry>
    /** flush_queue_token is set. */
    var scheduled: bool
    var flushing: bool
    var inflight: seq<Entry>
    var position: nat
    var freedEvents: seq<nat>
    var made: nat
    ghost var handled: seq<Event>
    ghost var past: seq<Fate>

    ghost function Snapshot(): State
      reads this
    {
      State(eventQueue, scheduled, flushing, inflight, position, freedEvents, made, handled, past)
    }

    constructor ()
      ensures Snapshot() == Empty()
    {
      eventQueue, scheduled, flushing, inflight, position := [], false, false, [], 0;
      freedEvents, made, handled, past := [], 0, [], [];
    }

    /** event_cb, on the worker thread. */
    method EventCb(e: Event)
      modifies this
      ensures Snapshot() == Next(old(Snapshot()), Emit(e))
    {
      if e.PollChanged? {
        return;
      }
      var node: nat;
      if freedEvents == [] {
        node := made;
        made := made + 1;
      } else {
        node := freedEvents[0];
        freedEvents := freedEvents[1..];
      }
      eventQueue := eventQueue + [Entry(node, e)];
      if !scheduled {
        scheduled := true;
      }
    }

    /** The first section of flush_queue_cb. */
    method DetachQueue()
      requires Enabled(Snapshot(), Detach)
      modifies this
      ensures Snapshot() == Next(old(Snapshot()), Detach)
    {
      scheduled := false;
      inflight, position := eventQueue, 0;
      eventQueue := [];
      flushing := true;
    }

    /** One round of its loop. */
    method HandleQueued() returns (e: Event)
      requires Enabled(Snapshot(), HandleOne)
      modifies this
      ensures Snapshot() == Next(old(Snapshot()), HandleOne) && e == old(inflight[position].event)
    {
      e := inflight[position].event;
      handled := handled + [e];
      past := past + [Fate(e, true)];
      position := position + 1;
    }

    /** Its last section. */
    method ReturnNodes()
      requires Enabled(Snapshot(), GiveBack)
      modifies this
      ensures Snapshot() == Next(old(Snapshot()), GiveBack)
    {
      freedEvents := Nodes(inflight) + freedEvents;
      inflight, position, flushing := [], 0, false;
    }

    /** free_event_queue and the cancelling of the flush in reset_full. */
    method FreeEventQueue()
      requires Enabled(Snapshot(), Reset)
      modifies this
      ensures Snapshot() == Next(old(Snapshot()), Reset)
    {
      past := past + Discarded(eventQueue);
      freedEvents := Nodes(eventQueue) + freedEvents;
      eventQueue := [];
      if scheduled {
        scheduled := false;
      }
    }
  }
}
