/**
 The listener registry of the WebSocket session: each event name maps to the
 ordered list of callbacks registered under it. Callbacks are compared by
 reference, so a callback is represented by its identity alone.
 */
module CallbackRegistry {

  /** The identity of a callback function value (JavaScript reference equality). */
  type CallbackId = nat

  /** Event name to insertion-ordered callback list; duplicates are allowed. */
  type Registry = map<string, seq<CallbackId>>

  /** The list dispatch walks for `event`; an event without an entry has none. */
  function Listeners(reg: Registry, event: string): seq<CallbackId>
  {
    if event in reg then reg[event] else []
  }

  /** `cb` is registered under no event at all. */
  predicate Unregistered(reg: Registry, cb: CallbackId)
  {
    forall e | e in reg :: cb !in reg[e]
  }

  /** Number of occurrences of `cb` in `list`. */
  function Occurrences(list: seq<CallbackId>, cb: CallbackId): nat
  {
    multiset(list)[cb]
  }

  /** `sub` is obtained from `list` by deleting some entries, keeping the order of the rest. */
  predicate IsSubsequence(sub: seq<CallbackId>, list: seq<CallbackId>)
    decreases |list|
  {
    if sub == [] then true
    else if list == [] then false
    else if sub[0] == list[0] then IsSubsequence(sub[1..], list[1..])
    else IsSubsequence(sub, list[1..])
  }

  /** `addCallbacks`: create an empty list for `event` if there is none, then append `cb`. */
  function Add(reg: Registry, event: string, cb: CallbackId): (r: Registry)
    ensures r.Keys == reg.Keys + {event}
    ensures |r[event]| == |Listeners(reg, event)| + 1
    ensures r[event][..|Listeners(reg, event)|] == Listeners(reg, event)
    ensures r[event][|Listeners(reg, event)|] == cb
    ensures forall e :: e in reg && e != event ==> r[e] == reg[e]
  {
    reg[event := Listeners(reg, event) + [cb]]
  }

  /** The list `list.filter(x => x !== cb)`. */
  function Without(list: seq<CallbackId>, cb: CallbackId): (r: seq<CallbackId>)
    ensures cb !in r
    ensures |r| == |list| - Occurrences(list, cb)
  {
    if list == [] then []
    else
      assert list == [list[0]] + list[1..];
      assert multiset(list) == multiset{list[0]} + multiset(list[1..]);
      (if list[0] == cb then [] else [list[0]]) + Without(list[1..], cb)
  }

  /** `removeCallbacks`: filter `cb` out of `event`'s list when the event has one. */
  function Remove(reg: Registry, event: string, cb: CallbackId): (r: Registry)
    ensures r.Keys == reg.Keys
    ensures event in reg ==> r[event] == Without(reg[event], cb)
    ensures Listeners(r, event) == Without(Listeners(reg, event), cb)
    ensures forall e :: e in reg && e != event ==> r[e] == reg[e]
  {
    if event in reg then reg[event := Without(reg[event], cb)] else reg
  }

  /** Filtering keeps every other callback exactly as often as it occurred. */
  lemma {:induction false} WithoutCounts(list: seq<CallbackId>, cb: CallbackId, x: CallbackId)
    ensures Occurrences(Without(list, cb), x) == if x == cb then 0 else Occurrences(list, x)
    decreases |list|
  {
    if list != [] {
      WithoutCounts(list[1..], cb, x);
      assert list == [list[0]] + list[1..];
      assert multiset(list) == multiset{list[0]} + multiset(list[1..]);
      var head := if list[0] == cb then [] else [list[0]];
      assert Without(list, cb) == head + Without(list[1..], cb);
      assert multiset(Without(list, cb)) == multiset(head) + multiset(Without(list[1..], cb));
    }
  }

  /** Filtering preserves the relative order of the callbacks it keeps. */
  lemma {:induction false} WithoutIsSubsequence(list: seq<CallbackId>, cb: CallbackId)
    ensures IsSubsequence(Without(list, cb), list)
    decreases |list|
  {
    if list != [] {
      WithoutIsSubsequence(list[1..], cb);
      var r := Without(list, cb);
      if list[0] != cb {
        assert r[0] == list[0] && r[1..] == Without(list[1..], cb);
      } else {
        assert r == Without(list[1..], cb);
        assert r != [] ==> r[0] != list[0];
      }
    }
  }

  /** Filtering distributes over concatenation, so it acts on each entry in place. */
  lemma {:induction false} WithoutConcat(a: seq<CallbackId>, b: seq<CallbackId>, cb: CallbackId)
    ensures Without(a + b, cb) == Without(a, cb) + Without(b, cb)
    decreases |a|
  {
    if a != [] {
      WithoutConcat(a[1..], b, cb);
      assert (a + b)[1..] == a[1..] + b;
      assert (a + b)[0] == a[0];
    } else {
      assert a + b == b;
    }
  }

  /** Removing a callback that is not in the list leaves the list as it is. */
  lemma {:induction false} WithoutAbsent(list: seq<CallbackId>, cb: CallbackId)
    requires cb !in list
    ensures Without(list, cb) == list
    decreases |list|
  {
    if list != [] {
      WithoutAbsent(list[1..], cb);
      assert list == [list[0]] + list[1..];
    }
  }

  /** Removing a callback that is not registered under `event` changes nothing. */
  lemma RemoveAbsentIsNoOp(reg: Registry, event: string, cb: CallbackId)
    requires cb !in Listeners(reg, event)
    ensures Remove(reg, event, cb) == reg
  {
    if event in reg {
      WithoutAbsent(reg[event], cb);
    }
  }

  /** Appending a fresh callback and filtering it out gives the original list back. */
  lemma {:induction false} AppendThenWithout(list: seq<CallbackId>, cb: CallbackId)
    requires cb !in list
    ensures Without(list + [cb], cb) == list
  {
    WithoutConcat(list, [cb], cb);
    WithoutAbsent(list, cb);
    assert Without([cb], cb) == [];
  }

  /** Unfolds `Add` for the solver. */
  lemma AddIsUpdate(reg: Registry, event: string, cb: CallbackId)
    ensures Add(reg, event, cb) == reg[event := Listeners(reg, event) + [cb]]
  {
  }

  /** Unfolds `Remove` for the solver. */
  lemma RemoveIsUpdate(reg: Registry, event: string, cb: CallbackId)
    requires event in reg
    ensures Remove(reg, event, cb) == reg[event := Without(reg[event], cb)]
  {
  }

  /** Adding a fresh callback and removing it again puts the old list back under `event`. */
  lemma AddRemoveRestoresList(reg: Registry, event: string, cb: CallbackId)
    requires cb !in Listeners(reg, event)
    ensures Remove(Add(reg, event, cb), event, cb) == reg[event := Listeners(reg, event)]
  {
    var list := Listeners(reg, event);
    var added := reg[event := list + [cb]];
    AddIsUpdate(reg, event, cb);
    RemoveIsUpdate(added, event, cb);
    AppendThenWithout(list, cb);
    assert added[event := list] == reg[event := list];
  }

  /**
   Adding a fresh callback and removing it again restores every listener list.
   The map itself is restored exactly when `event` already had a list; otherwise
   an empty list stays behind under `event`.
   */
  lemma {:induction false} AddRemoveRoundTrip(reg: Registry, event: string, cb: CallbackId)
    requires cb !in Listeners(reg, event)
    ensures forall e :: Listeners(Remove(Add(reg, event, cb), event, cb), e) == Listeners(reg, e)
    ensures event in reg ==> Remove(Add(reg, event, cb), event, cb) == reg
    ensures event !in reg ==> Remove(Add(reg, event, cb), event, cb) == reg[event := []]
  {
    AddRemoveRestoresList(reg, event, cb);
    var r := reg[event := Listeners(reg, event)];
    forall e
      ensures Listeners(r, e) == Listeners(reg, e)
    {
      if e != event {
        assert (e in r) == (e in reg);
      }
    }
    if event in reg {
      assert r == reg;
    }
  }
}
