/** The `ObservableProperty` decorator of demo/app/main-view-model.ts.
    Each decorated key owns a hidden slot holding its value; reading the key
    returns the slot, and writing it stores the value and emits one
    property-change notification, unless the value is `===` to the stored one.
    The slots of one object are modelled as a map from key to value and the
    notifications it emits as a log, oldest first. */
module ObservableProperty {

  /** The JavaScript values the view-model keeps in its decorated properties. */
  datatype Value = Undefined | Bool(b: bool) | Num(n: int) | NaN

  /** JavaScript's `===` on these values: NaN is the one value not equal to itself. */
  predicate StrictEquals(a: Value, b: Value)
  {
    a == b && a != NaN
  }

  /** A `propertyChange` notification; its `object` is always the owner of the slots. */
  datatype Event = PropertyChange(propertyName: string, value: Value)

  /** The decorated slots of one object and the notifications it has emitted. */
  datatype Slots = Slots(store: map<string, Value>, log: seq<Event>)

  /** The setter: no-op when the value is `===` to the stored one, otherwise
      store it and then notify once with the key and the new value. */
  function Write(s: Slots, key: string, v: Value): (r: Slots)
    requires key in s.store
    ensures r.store == s.store[key := v]
    ensures StrictEquals(s.store[key], v) ==> r.log == s.log
    ensures !StrictEquals(s.store[key], v) ==> r.log == s.log + [PropertyChange(key, v)]
  {
    if StrictEquals(s.store[key], v) then s
    else Slots(s.store[key := v], s.log + [PropertyChange(key, v)])
  }

  /** The values a listener holds if it starts from `m` and applies each
      notification, in order, to the key it names. */
  function Replay(m: map<string, Value>, events: seq<Event>): map<string, Value>
    decreases |events|
  {
    if events == [] then m
    else Replay(m[events[0].propertyName := events[0].value], events[1..])
  }

  lemma {:induction false} ReplayAppend(m: map<string, Value>, events: seq<Event>, e: Event)
    ensures Replay(m, events + [e]) == Replay(m, events)[e.propertyName := e.value]
    decreases |events|
  {
    if events != [] {
      assert (events + [e])[1..] == events[1..] + [e];
      ReplayAppend(m[events[0].propertyName := events[0].value], events[1..], e);
    }
  }

  /** Notifications are emitted after the store and carry the new value, so a
      listener that replays them from the initial slot values holds exactly the
      stored values after every write. */
  lemma WriteKeepsListenersInSync(initial: map<string, Value>, s: Slots, key: string, v: Value)
    requires key in s.store
    requires Replay(initial, s.log) == s.store
    ensures Replay(initial, Write(s, key, v).log) == Write(s, key, v).store
  {
    if !StrictEquals(s.store[key], v) {
      ReplayAppend(initial, s.log, PropertyChange(key, v));
    }
  }

  /** One assignment `obj[key] = value` through the decorated setter. */
  datatype Assignment = Assign(key: string, value: Value)

  /** A sequence of assignments performed in order. Each one emits at most one
      notification, and none adds or removes a slot. */
  function Writes(s: Slots, ws: seq<Assignment>): (r: Slots)
    requires forall i :: 0 <= i < |ws| ==> ws[i].key in s.store
    ensures r.store.Keys == s.store.Keys
    ensures s.log <= r.log && |r.log| <= |s.log| + |ws|
    decreases |ws|
  {
    if ws == [] then s
    else Writes(Write(s, ws[0].key, ws[0].value), ws[1..])
  }

  /** The value of the last assignment to `key` in `ws`, or `initial` when there is none. */
  function LastAssigned(ws: seq<Assignment>, key: string, initial: Value): Value
    decreases |ws|
  {
    if ws == [] then initial
    else LastAssigned(ws[1..], key, if ws[0].key == key then ws[0].value else initial)
  }

  /** The getter returns the last value assigned to its key, and before any
      assignment the value the slot was initialised with; assignments to other
      keys do not affect it. */
  lemma {:induction false} ReadAfterWrites(s: Slots, ws: seq<Assignment>, key: string)
    requires forall i :: 0 <= i < |ws| ==> ws[i].key in s.store
    requires key in s.store
    ensures Writes(s, ws).store[key] == LastAssigned(ws, key, s.store[key])
    decreases |ws|
  {
    if ws != [] {
      var s1 := Write(s, ws[0].key, ws[0].value);
      ReadAfterWrites(s1, ws[1..], key);
    }
  }

  /** `n` assignments of the same value to the same key. */
  function Repeat(key: string, v: Value, n: nat): (ws: seq<Assignment>)
    ensures |ws| == n && forall i :: 0 <= i < n ==> ws[i] == Assign(key, v)
  {
    seq(n, _ => Assign(key, v))
  }

  /** Re-assigning the value a slot already holds changes nothing, however often. */
  lemma {:induction false} RepeatedStoredValueIsNoop(s: Slots, key: string, v: Value, n: nat)
    requires key in s.store && s.store[key] == v && v != NaN
    ensures Writes(s, Repeat(key, v, n)) == s
    decreases n
  {
    if n > 0 {
      assert Repeat(key, v, n)[1..] == Repeat(key, v, n - 1);
      RepeatedStoredValueIsNoop(s, key, v, n - 1);
    }
  }

  /** Of a run of equal assignments, only the first can notify, and it does
      exactly when the value differs from the stored one. */
  lemma RepeatedWritesNotifyAtMostOnce(s: Slots, key: string, v: Value, n: nat)
    requires key in s.store && v != NaN && n >= 1
    ensures Writes(s, Repeat(key, v, n)).store == s.store[key := v]
    ensures Writes(s, Repeat(key, v, n)).log
         == s.log + (if s.store[key] == v then [] else [PropertyChange(key, v)])
  {
    var s1 := Write(s, key, v);
    assert Repeat(key, v, n)[1..] == Repeat(key, v, n - 1);
    assert Writes(s, Repeat(key, v, n)) == Writes(s1, Repeat(key, v, n - 1));
    RepeatedStoredValueIsNoop(s1, key, v, n - 1);
  }

  /** `NaN` is never `===` to anything, so assigning it always notifies, even
      when the slot already holds `NaN`. */
  lemma NaNAlwaysNotifies(s: Slots, key: string)
    requires key in s.store
    ensures Write(s, key, NaN).log == s.log + [PropertyChange(key, NaN)]
  {
  }

  /** The decorated slots of one object, updated in place by the setter. */
  class ObservableObject {
    var store: map<string, Value>
    var log: seq<Event>
    /** The slot values at decoration time. */
    ghost const initial: map<string, Value>

    /** The decorated keys never change, and a listener that has applied every
        notification so far holds exactly the stored values. */
    ghost predicate Valid()
      reads this
    {
      store.Keys == initial.Keys && Replay(initial, log) == store
    }

    function Snapshot(): Slots
      reads this
    {
      Slots(store, log)
    }

    /** Decorating the keys of `slots`, each slot initialised from the value the
        key held at that moment. */
    constructor (slots: map<string, Value>)
      ensures Valid() && initial == slots && store == slots && log == []
    {
      store := slots;
      log := [];
      initial := slots;
    }

    /** The getter. */
    method Get(key: string) returns (v: Value)
      requires key in store
      ensures v == store[key]
    {
      v := store[key];
    }

    /** The setter. */
    method Set(key: string, v: Value)
      requires Valid() && key in store
      modifies this
      ensures Valid() && Snapshot() == Write(old(Snapshot()), key, v)
    {
      WriteKeepsListenersInSync(initial, Snapshot(), key, v);
      if StrictEquals(store[key], v) {
        return;
      }
      store := store[key := v];
      log := log + [PropertyChange(key, v)];
    }
  }
}
