/**
 * The application state broadcaster: one current `ApplicationState` and an
 * ordered list of subscriber callbacks that every `set_state` call notifies
 * with the pair (old state, new state).
 */
module StateManagement {
  import opened Common

  datatype ApplicationState = Idle | Listening | Processing | Typing | Error

  /** One `set_state` call: the state it replaced and the state it stored. */
  datatype Transition = Transition(from: ApplicationState, to: ApplicationState)

  /** One call of a subscriber: which callback, with which (old, new) pair, the
      state `get_state()` returned while it ran, and whether it raised. */
  datatype Delivery = Delivery(callback: Handler, from: ApplicationState, to: ApplicationState,
                               seen: ApplicationState, raised: bool)

  /** The calls one `set_state` makes for transition `t`, in subscription order;
      `raises` tells which callbacks throw. */
  function Broadcast(subs: seq<Handler>, t: Transition, raises: (Handler, Transition) -> bool): seq<Delivery>
  {
    if subs == [] then []
    else
      var last := subs[|subs| - 1];
      Broadcast(subs[..|subs| - 1], t, raises) + [Delivery(last, t.from, t.to, t.to, raises(last, t))]
  }

  /** Every subscriber is called exactly once, in subscription order, with
      (old, new), sees the new state already stored, and a raising callback
      does not stop the ones after it; also when old and new coincide. */
  lemma {:induction false} BroadcastAt(subs: seq<Handler>, t: Transition, raises: (Handler, Transition) -> bool, i: nat)
    requires i < |subs|
    ensures |Broadcast(subs, t, raises)| == |subs|
    ensures Broadcast(subs, t, raises)[i] == Delivery(subs[i], t.from, t.to, t.to, raises(subs[i], t))
    decreases |subs|
  {
    BroadcastLength(subs, t, raises);
    if i < |subs| - 1 {
      BroadcastAt(subs[..|subs| - 1], t, raises, i);
    }
  }

  lemma {:induction false} BroadcastLength(subs: seq<Handler>, t: Transition, raises: (Handler, Transition) -> bool)
    ensures |Broadcast(subs, t, raises)| == |subs|
    decreases |subs|
  {
    if subs != [] {
      BroadcastLength(subs[..|subs| - 1], t, raises);
    }
  }

  /** Number of occurrences of `x` in `s`. */
  function Count<T(==)>(s: seq<T>, x: T): nat
  {
    if s == [] then 0 else Count(s[..|s| - 1], x) + (if s[|s| - 1] == x then 1 else 0)
  }

  /** Number of deliveries made to callback `h`. */
  function DeliveriesTo(ds: seq<Delivery>, h: Handler): nat
  {
    if ds == [] then 0 else DeliveriesTo(ds[..|ds| - 1], h) + (if ds[|ds| - 1].callback == h then 1 else 0)
  }

  /** A callback subscribed k times is called k times per change; one that is
      not subscribed is not called. */
  lemma {:induction false} BroadcastCounts(subs: seq<Handler>, t: Transition, raises: (Handler, Transition) -> bool, h: Handler)
    ensures DeliveriesTo(Broadcast(subs, t, raises), h) == Count(subs, h)
    decreases |subs|
  {
    if subs != [] {
      var init := subs[..|subs| - 1];
      BroadcastCounts(init, t, raises, h);
      var b := Broadcast(init, t, raises);
      var d := Delivery(subs[|subs| - 1], t.from, t.to, t.to, raises(subs[|subs| - 1], t));
      assert (b + [d])[..|b + [d]| - 1] == b;
    }
  }

  /** `list.remove(x)`: drops the first element equal to `x`. */
  function RemoveFirst<T(==)>(s: seq<T>, x: T): seq<T>
  {
    if s == [] then []
    else if s[0] == x then s[1..]
    else [s[0]] + RemoveFirst(s[1..], x)
  }

  /** Removing takes out exactly one copy of `x` when there is one, and nothing otherwise. */
  lemma {:induction false} RemoveFirstMultiset<T>(s: seq<T>, x: T)
    ensures multiset(RemoveFirst(s, x)) == multiset(s) - multiset{x}
  {
    if s != [] {
      assert s == [s[0]] + s[1..];
      if s[0] != x {
        RemoveFirstMultiset(s[1..], x);
      }
    }
  }

  /** The removed copy is the first one: everything before it and after it
      stays, in order. */
  lemma {:induction false} RemoveFirstSplits<T>(s: seq<T>, x: T, k: nat)
    requires k < |s| && s[k] == x
    requires forall j :: 0 <= j < k ==> s[j] != x
    ensures RemoveFirst(s, x) == s[..k] + s[k + 1..]
  {
    if k > 0 {
      RemoveFirstSplits(s[1..], x, k - 1);
      assert [s[0]] + s[1..][..k - 1] == s[..k];
    }
  }

  /** Absent callbacks are left alone: `RemoveFirst` is then the identity. */
  lemma {:induction false} RemoveFirstAbsent<T>(s: seq<T>, x: T)
    requires x !in s
    ensures RemoveFirst(s, x) == s
  {
    if s != [] {
      RemoveFirstAbsent(s[1..], x);
    }
  }

  /** A callback subscribed once receives nothing after it is unsubscribed. */
  lemma SoleSubscriberSilenced(subs: seq<Handler>, h: Handler, t: Transition, raises: (Handler, Transition) -> bool)
    requires multiset(subs)[h] == 1
    ensures DeliveriesTo(Broadcast(RemoveFirst(subs, h), t, raises), h) == 0
  {
    RemoveFirstMultiset(subs, h);
    BroadcastCounts(RemoveFirst(subs, h), t, raises, h);
    CountIsMultiplicity(RemoveFirst(subs, h), h);
  }

  lemma {:induction false} CountIsMultiplicity<T>(s: seq<T>, x: T)
    ensures Count(s, x) == multiset(s)[x]
  {
    if s != [] {
      var init := s[..|s| - 1];
      CountIsMultiplicity(init, x);
      assert s == init + [s[|s| - 1]];
    }
  }

  /** The notifications that the transitions `ts` make to the fixed subscriber list `subs`. */
  function Notifications(subs: seq<Handler>, ts: seq<Transition>, raises: (Handler, Transition) -> bool): seq<Delivery>
  {
    if ts == [] then [] else Notifications(subs, ts[..|ts| - 1], raises) + Broadcast(subs, ts[|ts| - 1], raises)
  }

  /** The transitions that setting the states `targets` one after another
      makes, starting in `from`. */
  function Steps(from: ApplicationState, targets: seq<ApplicationState>): (ts: seq<Transition>)
    decreases |targets|
    ensures |ts| == |targets|
    ensures forall i :: 0 <= i < |ts| ==> ts[i].to == targets[i]
    ensures |ts| > 0 ==> ts[0].from == from
    ensures forall i :: 0 < i < |ts| ==> ts[i].from == targets[i - 1]
  {
    if targets == [] then [] else [Transition(from, targets[0])] + Steps(targets[0], targets[1..])
  }

  /** The state after setting `targets` one after another, starting in `from`. */
  function Last(from: ApplicationState, targets: seq<ApplicationState>): ApplicationState
  {
    if targets == [] then from else targets[|targets| - 1]
  }

  /** One more `set_state` adds its transition and its broadcast at the end. */
  lemma Advance(subs: seq<Handler>, raises: (Handler, Transition) -> bool, from: ApplicationState,
                targets: seq<ApplicationState>, x: ApplicationState)
    ensures Steps(from, targets + [x]) == Steps(from, targets) + [Transition(Last(from, targets), x)]
    ensures Notifications(subs, Steps(from, targets + [x]), raises) ==
            Notifications(subs, Steps(from, targets), raises) + Broadcast(subs, Transition(Last(from, targets), x), raises)
    ensures Last(from, targets + [x]) == x
  {
    NotificationsSnoc(subs, Steps(from, targets), Transition(Last(from, targets), x), raises);
  }

  class StateManager {
    /** The stored state (`_state`). */
    var state: ApplicationState
    /** The subscriber list (`_subscribers`), in subscription order, duplicates kept. */
    var subscribers: seq<Handler>
    /** Every subscriber call made so far, in order. */
    var deliveries: seq<Delivery>
    /** Every `set_state` call made so far, in order (observation only). */
    ghost var transitions: seq<Transition>
    /** Which subscriber calls raise an exception. */
    const raises: (Handler, Transition) -> bool

    /** A fresh manager is IDLE with no subscribers. */
    constructor (raises: (Handler, Transition) -> bool)
      ensures state == Idle && subscribers == [] && deliveries == [] && transitions == []
      ensures this.raises == raises
    {
      state := Idle;
      subscribers := [];
      deliveries := [];
      transitions := [];
      this.raises := raises;
    }

    function GetState(): (s: ApplicationState)
      reads this
      ensures s == state
    {
      state
    }

    /** Starting from state `s0`, transition log `t0` and delivery log `d0`,
        the states `targets` have been set one after another, and nothing else
        has happened to this manager's state or logs. */
    ghost predicate Went(s0: ApplicationState, t0: seq<Transition>, d0: seq<Delivery>, targets: seq<ApplicationState>)
      reads this
    {
      state == Last(s0, targets) &&
      transitions == t0 + Steps(s0, targets) &&
      deliveries == d0 + Notifications(subscribers, Steps(s0, targets), raises)
    }

    /** Nothing has been set yet: the current state, log and deliveries are a
        run of no steps from themselves. */
    lemma WentNowhere()
      ensures Went(state, transitions, deliveries, [])
    {
    }

    /** `SetState` within a run: after the states `targets` were set from
        (`s0`, `t0`, `d0`), setting `newState` extends that run by one step. */
    method SetStateAfter(newState: ApplicationState, ghost s0: ApplicationState, ghost t0: seq<Transition>,
                         ghost d0: seq<Delivery>, ghost targets: seq<ApplicationState>)
      requires Went(s0, t0, d0, targets)
      modifies this
      ensures Went(s0, t0, d0, targets + [newState])
      ensures subscribers == old(subscribers)
    {
      SetState(newState);
      Advance(subscribers, raises, s0, targets, newState);
    }

    /** Stores `newState`, then calls every subscriber with (old, new), catching
        whatever a subscriber raises. */
    method SetState(newState: ApplicationState)
      modifies this
      ensures state == newState && subscribers == old(subscribers)
      ensures transitions == old(transitions) + [Transition(old(state), newState)]
      ensures deliveries == old(deliveries) + Broadcast(subscribers, Transition(old(state), newState), raises)
    {
      var oldState := state;
      state := newState;
      transitions := transitions + [Transition(oldState, newState)];
      var t := Transition(oldState, newState);
      var i := 0;
      while i < |subscribers|
        invariant 0 <= i <= |subscribers|
        invariant state == newState && subscribers == old(subscribers)
        invariant transitions == old(transitions) + [t]
        invariant deliveries == old(deliveries) + Broadcast(subscribers[..i], t, raises)
      {
        var callback := subscribers[i];
        // The callback runs and may raise; an exception is caught and logged.
        var failed := raises(callback, t);
        deliveries := deliveries + [Delivery(callback, oldState, newState, state, failed)];
        assert subscribers[..i + 1][..i] == subscribers[..i];
        i := i + 1;
      }
      assert subscribers[..i] == subscribers;
    }

    /** Appends `callback`; subscribing twice means two calls per change. */
    method Subscribe(callback: Handler)
      modifies this
      ensures subscribers == old(subscribers) + [callback]
      ensures state == old(state) && deliveries == old(deliveries) && transitions == old(transitions)
    {
      subscribers := subscribers + [callback];
    }

    /** Removes the first entry equal to `callback`, if there is one. */
    method Unsubscribe(callback: Handler)
      modifies this
      ensures subscribers == RemoveFirst(old(subscribers), callback)
      ensures state == old(state) && deliveries == old(deliveries) && transitions == old(transitions)
    {
      if callback in subscribers {
        subscribers := RemoveFirst(subscribers, callback);
      } else {
        RemoveFirstAbsent(subscribers, callback);
      }
    }

    /** Logs the error and moves to ERROR exactly as `SetState(Error)` does. */
    method HandleError()
      modifies this
      ensures state == Error && subscribers == old(subscribers)
      ensures transitions == old(transitions) + [Transition(old(state), Error)]
      ensures deliveries == old(deliveries) + Broadcast(subscribers, Transition(old(state), Error), raises)
    {
      SetState(Error);
    }
  }

  /** Adding one more transition to a run adds its broadcast at the end. */
  lemma NotificationsSnoc(subs: seq<Handler>, ts: seq<Transition>, t: Transition, raises: (Handler, Transition) -> bool)
    ensures Notifications(subs, ts + [t], raises) == Notifications(subs, ts, raises) + Broadcast(subs, t, raises)
  {
    assert (ts + [t])[..|ts + [t]| - 1] == ts;
  }

  /** The subscriber-notification scenario: three changes reach the one
      subscriber as (IDLE, LISTENING), (LISTENING, PROCESSING), (PROCESSING, IDLE);
      after unsubscribing, a fourth change reaches nobody. */
  method NotificationScenario(callback: Handler)
  {
    var manager := new StateManager((h: Handler, t: Transition) => false);
    assert manager.GetState() == Idle;
    manager.Subscribe(callback);
    manager.SetState(Listening);
    manager.SetState(Processing);
    manager.SetState(Idle);
    assert manager.deliveries == [Delivery(callback, Idle, Listening, Listening, false),
                                  Delivery(callback, Listening, Processing, Processing, false),
                                  Delivery(callback, Processing, Idle, Idle, false)];
    manager.Unsubscribe(callback);
    assert manager.subscribers == [];
    manager.SetState(Listening);
    assert |manager.deliveries| == 3;
  }
}
