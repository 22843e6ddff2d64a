/** The in-memory TTL caches of cache/cache.go and core/runtime/cache.py, and the plain history they
    both answer from. */
module Caches {
  import opened Common

  /** A stored value and the last instant at which it is still served; `None` means forever. */
  datatype Item<V> = Item(value: V, until: Option<int>)

  type Store<V> = map<string, Item<V>>

  predicate Fresh<V>(item: Item<V>, now: int) {
    item.until.Some? ==> now <= item.until.value
  }

  /** What a read of the key returns. */
  function Lookup<V>(store: Store<V>, key: string, now: int): Option<V> {
    if key in store && Fresh(store[key], now) then Some(store[key].value) else None
  }

  /** A read drops the entry it finds lapsed. */
  function Looked<V>(store: Store<V>, key: string, now: int): Store<V> {
    if key in store && !Fresh(store[key], now) then store - {key} else store
  }

  /** A sweep drops every lapsed entry. */
  function Swept<V>(store: Store<V>, now: int): Store<V> {
    map key | key in store && Fresh(store[key], now) :: store[key]
  }

  // ---- Runs of operations against a cache ----

  datatype Operation<V> = Set(key: string, item: Item<V>) | Delete(key: string) | Clear | Get(key: string) | Sweep

  datatype Event<V> = Event(time: int, operation: Operation<V>)

  function Step<V>(store: Store<V>, e: Event<V>): Store<V> {
    match e.operation
    case Set(key, item) => store[key := item]
    case Delete(key) => store - {key}
    case Clear => map[]
    case Get(key) => Looked(store, key, e.time)
    case Sweep => Swept(store, e.time)
  }

  /** The cache after a run that starts with an empty one. */
  function After<V>(run: seq<Event<V>>): Store<V> {
    if run == [] then map[] else Step(After(run[..|run| - 1]), run[|run| - 1])
  }

  /** The clock never goes back, and has not passed `now`. */
  ghost predicate Ordered<V>(run: seq<Event<V>>, now: int) {
    && (forall i, j :: 0 <= i < j < |run| ==> run[i].time <= run[j].time)
    && forall i :: 0 <= i < |run| ==> run[i].time <= now
  }

  // ---- The history, which nothing is ever purged from ----

  predicate Forgets<V>(operation: Operation<V>, key: string) {
    operation == Clear || operation == Delete(key)
  }

  /** Event i is the set of the key that is neither overwritten nor deleted later. */
  ghost predicate LastSet<V(!new)>(run: seq<Event<V>>, key: string, i: int) {
    && 0 <= i < |run| && run[i].operation.Set? && run[i].operation.key == key
    && forall j :: i < j < |run| ==>
      !Forgets(run[j].operation, key) && !(run[j].operation.Set? && run[j].operation.key == key)
  }

  /** The cache holds only what was set last, and lacks only what has lapsed. */
  ghost predicate Matches<V(!new)>(run: seq<Event<V>>, store: Store<V>, key: string, now: int) {
    && (key in store ==> exists i :: LastSet(run, key, i) && run[i].operation.item == store[key])
    && forall i :: LastSet(run, key, i) && Fresh(run[i].operation.item, now) ==>
      key in store && store[key] == run[i].operation.item
  }

  lemma {:induction false} RunMatches<V(!new)>(run: seq<Event<V>>, key: string, now: int)
    requires Ordered(run, now)
    ensures Matches(run, After(run), key, now)
  {
    if run != [] {
      var before, e := run[..|run| - 1], run[|run| - 1];
      RunMatches(before, key, e.time);
      StepMatches(before, e, After(before), key, now);
      assert before + [e] == run;
    }
  }

  lemma StepMatches<V(!new)>(run: seq<Event<V>>, e: Event<V>, store: Store<V>, key: string, now: int)
    requires Matches(run, store, key, e.time) && e.time <= now
    ensures Matches(run + [e], Step(store, e), key, now)
  {
    var longer, n := run + [e], |run|;
    if e.operation.Set? && e.operation.key == key {
      assert longer[n] == e;
      assert LastSet(longer, key, n);
    } else if Forgets(e.operation, key) {
      forall i ensures !LastSet(longer, key, i) {
        if 0 <= i < n { assert longer[n] == e; }
      }
    } else {
      forall i ensures LastSet(longer, key, i) <==> LastSet(run, key, i) {
        LastSetStays(run, e, key, i);
      }
      if key in store {
        var i :| LastSet(run, key, i) && run[i].operation.item == store[key];
        assert LastSet(longer, key, i);
      }
    }
  }

  lemma LastSetStays<V(!new)>(run: seq<Event<V>>, e: Event<V>, key: string, i: int)
    requires !Forgets(e.operation, key) && !(e.operation.Set? && e.operation.key == key)
    ensures LastSet(run + [e], key, i) <==> LastSet(run, key, i)
  {
    var longer := run + [e];
    assert forall j :: 0 <= j < |run| ==> longer[j] == run[j];
    if i == |run| { assert longer[i] == e; }
  }

  /** Over any run, with reads and sweeps dropping entries at any points, a read returns v exactly when
      the last set of the key wrote v, was not deleted or cleared since, and has not lapsed. */
  lemma {:induction false} GetFollowsHistory<V(!new)>(run: seq<Event<V>>, key: string, now: int, value: V)
    requires Ordered(run, now)
    ensures Lookup(After(run), key, now) == Some(value) <==>
            exists i :: LastSet(run, key, i) && run[i].operation.item.value == value
              && (run[i].operation.item.until.None? || now <= run[i].operation.item.until.value)
  {
    RunMatches(run, key, now);
  }

  lemma PurgeAnswersSame<V>(store: Store<V>, e: Event<V>, key: string, now: int)
    requires e.time <= now && (e.operation.Get? || e.operation.Sweep?)
    ensures Lookup(Step(store, e), key, now) == Lookup(store, key, now)
  {
  }

  lemma WriteAnswersSame<V>(a: Store<V>, b: Store<V>, e: Event<V>, key: string, now: int)
    requires !e.operation.Get? && !e.operation.Sweep? && Lookup(a, key, now) == Lookup(b, key, now)
    ensures Lookup(Step(a, e), key, now) == Lookup(Step(b, e), key, now)
  {
  }

  /** Purging is invisible: the run without its reads and sweeps answers the same. */
  lemma {:induction false} PurgingIsInvisible<V(!new)>(run: seq<Event<V>>, key: string, now: int)
    requires Ordered(run, now)
    ensures Lookup(After(run), key, now) == Lookup(After(Writes(run)), key, now)
  {
    if run != [] {
      var before, e := run[..|run| - 1], run[|run| - 1];
      PurgingIsInvisible(before, key, now);
      var a, b := After(before), After(Writes(before));
      assert After(run) == Step(a, e);
      if e.operation.Get? || e.operation.Sweep? {
        assert Writes(run) == Writes(before);
        PurgeAnswersSame(a, e, key, now);
      } else {
        AfterOneMore(Writes(before), e);
        assert Writes(run) == Writes(before) + [e];
        WriteAnswersSame(a, b, e, key, now);
      }
    }
  }

  lemma AfterOneMore<V>(run: seq<Event<V>>, e: Event<V>)
    ensures After(run + [e]) == Step(After(run), e)
  {
    assert (run + [e])[..|run|] == run;
  }

  /** The sets, deletes and clears of a run. */
  function Writes<V>(run: seq<Event<V>>): seq<Event<V>> {
    if run == [] then []
    else
      var before := Writes(run[..|run| - 1]);
      if run[|run| - 1].operation.Get? || run[|run| - 1].operation.Sweep? then before else before + [run[|run| - 1]]
  }

  // ---- cache/cache.go ----

  datatype GoItem = GoItem(value: string, expires: int)

  class GoMemoryCache {
    var items: map<string, GoItem>

    ghost function Contents(): Store<string>
      reads this
    {
      map key | key in items :: Item(items[key].value, Some(items[key].expires))
    }

    constructor ()
      ensures Contents() == map[]
    {
      items := map[];
    }

    method Get(key: string, now: int) returns (value: Option<string>)
      modifies this
      ensures value == Lookup(old(Contents()), key, now)
      ensures value == if key in old(items) && now <= old(items)[key].expires then Some(old(items)[key].value) else None
      ensures items == if key in old(items) && now > old(items)[key].expires then old(items) - {key} else old(items)
      ensures Contents() == Step(old(Contents()), Event(now, Operation.Get(key)))
    {
      if key !in items {
        return None;
      }
      var item := items[key];
      if now > item.expires {
        items := items - {key};
        return None;
      }
      return Some(item.value);
    }

    method Set(key: string, value: string, ttl: int, now: int)
      modifies this
      ensures items == old(items)[key := GoItem(value, now + ttl)]
      ensures Contents() == Step(old(Contents()), Event(now, Operation.Set(key, Item(value, Some(now + ttl)))))
    {
      items := items[key := GoItem(value, now + ttl)];
    }

    method Delete(key: string, now: int)
      modifies this
      ensures items == old(items) - {key}
      ensures Contents() == Step(old(Contents()), Event(now, Operation.Delete(key)))
    {
      items := items - {key};
    }

    method Clear(now: int)
      modifies this
      ensures items == map[]
      ensures Contents() == Step(old(Contents()), Event(now, Operation.Clear))
    {
      items := map[];
    }

    method CleanupLoop(now: int)
      modifies this
      ensures items == map key | key in old(items) && now <= old(items)[key].expires :: old(items)[key]
      ensures Contents() == Step(old(Contents()), Event(now, Operation.Sweep))
    {
      var keys := items.Keys;
      ghost var start := items;
      while keys != {}
        invariant keys <= items.Keys <= start.Keys
        invariant forall key :: key in items ==> items[key] == start[key]
        invariant forall key :: key in start && key !in keys ==> (key in items <==> now <= start[key].expires)
        decreases |keys|
      {
        var key :| key in keys;
        keys := keys - {key};
        if now > items[key].expires {
          items := items - {key};
        }
      }
    }
  }

  // ---- core/runtime/cache.py ----

  /** `set` without a ttl, or with ttl 0, never lapses; neither does a deadline of 0, which `get` takes
      for no deadline. */
  function PyItem<T>(value: Option<T>, ttl: Option<int>, now: int): Item<Option<T>> {
    Item(value, if ttl.None? || ttl.value == 0 || now + ttl.value == 0 then None else Some(now + ttl.value))
  }

  /** `get` answers None for a missing key and for a stored None alike. */
  function Answer<T>(found: Option<Option<T>>): Option<T> {
    if found.Some? then found.value else None
  }

  class PyMemoryCache<T> {
    var store: map<string, (Option<T>, Option<int>)>

    ghost function Contents(): Store<Option<T>>
      reads this
    {
      map key | key in store ::
        Item(store[key].0, if store[key].1 == Some(0) then None else store[key].1)
    }

    constructor ()
      ensures Contents() == map[]
    {
      store := map[];
    }

    method Get(key: string, now: int) returns (value: Option<T>)
      modifies this
      ensures value == Answer(Lookup(old(Contents()), key, now))
      ensures key !in old(store) ==> value == None && store == old(store)
      ensures key in old(store) ==>
        var (found, until) := old(store)[key];
        if until.Some? && until.value != 0 && now > until.value then value == None && store == old(store) - {key}
        else value == found && store == old(store)
      ensures Contents() == Step(old(Contents()), Event(now, Operation.Get(key)))
    {
      if key !in store {
        return None;
      }
      var (found, expiresAt) := store[key];
      if expiresAt.Some? && expiresAt.value != 0 && now > expiresAt.value {
        store := store - {key};
        return None;
      }
      return found;
    }

    method Set(key: string, value: Option<T>, ttl: Option<int>, now: int) returns (ok: bool)
      modifies this
      ensures ok
      ensures store == old(store)[key := (value, if ttl.Some? && ttl.value != 0 then Some(now + ttl.value) else None)]
      ensures Contents() == Step(old(Contents()), Event(now, Operation.Set(key, PyItem(value, ttl, now))))
    {
      var expiresAt := None;
      if ttl.Some? && ttl.value != 0 {
        expiresAt := Some(now + ttl.value);
      }
      store := store[key := (value, expiresAt)];
      return true;
    }

    method Delete(key: string, now: int) returns (existed: bool)
      modifies this
      ensures existed <==> key in old(store)
      ensures store == old(store) - {key}
      ensures Contents() == Step(old(Contents()), Event(now, Operation.Delete(key)))
    {
      if key in store {
        store := store - {key};
        return true;
      }
      return false;
    }

    method Clear(now: int)
      modifies this
      ensures store == map[]
      ensures Contents() == Step(old(Contents()), Event(now, Operation.Clear))
    {
      store := map[];
    }

    /** `Cache.remember` over this backend; `computed` is what the callback would return, and `later`
        the time when it has. */
    method Remember(key: string, ttl: Option<int>, computed: Option<T>, now: int, later: int)
      returns (value: Option<T>, called: bool)
      modifies this
      ensures called <==>
        || key !in old(store) || old(store)[key].0 == None
        || (old(store)[key].1.Some? && old(store)[key].1.value != 0 && now > old(store)[key].1.value)
      ensures !called ==> value == old(store)[key].0 && store == old(store)
      ensures called ==> value == computed && store == old(store)[key :=
        (computed, if ttl.Some? && ttl.value != 0 then Some(later + ttl.value) else None)]
      ensures value == Remembered(old(Contents()), key, computed, now)
      ensures called <==> Calls(old(Contents()), key, now)
      ensures Contents() == AfterRemember(old(Contents()), key, ttl, computed, now, later)
    {
      value := Get(key, now);
      if value.Some? {
        return value, false;
      }
      value := computed;
      var _ := Set(key, value, ttl, later);
      return value, true;
    }
  }

  /** Does `remember` have to call back? */
  predicate Calls<T(==)>(store: Store<Option<T>>, key: string, now: int) {
    Answer(Lookup(store, key, now)) == None
  }

  function Remembered<T(==)>(store: Store<Option<T>>, key: string, computed: Option<T>, now: int): Option<T> {
    if Calls(store, key, now) then computed else Answer(Lookup(store, key, now))
  }

  function AfterRemember<T(==)>(store: Store<Option<T>>, key: string, ttl: Option<int>, computed: Option<T>, now: int,
                            later: int): Store<Option<T>> {
    var looked := Step(store, Event(now, Get(key)));
    if Calls(store, key, now) then Step(looked, Event(later, Set(key, PyItem(computed, ttl, later)))) else looked
  }

  /** The key is neither set nor deleted. */
  ghost predicate Untouched<V(!new)>(run: seq<Event<V>>, key: string) {
    forall i :: 0 <= i < |run| ==>
      !Forgets(run[i].operation, key) && !(run[i].operation.Set? && run[i].operation.key == key)
  }

  lemma LastSetAt<V(!new)>(run: seq<Event<V>>, e: Event<V>, more: seq<Event<V>>, key: string)
    requires e.operation.Set? && e.operation.key == key && Untouched(more, key)
    ensures var all := run + [e] + more;
      LastSet(all, key, |run|) && all[|run|] == e && forall i :: LastSet(all, key, i) ==> i == |run|
  {
    var all, n := run + [e] + more, |run|;
    assert all[n] == e;
    forall j | n < j < |all|
      ensures !Forgets(all[j].operation, key) && !(all[j].operation.Set? && all[j].operation.key == key)
    {
      assert all[j] == more[j - n - 1];
    }
  }

  /** Whatever happened before a `remember` that called back, and whatever happens to other keys, reads
      and sweeps included, after it: a later `remember` calls back again exactly when the first one's
      result was None or has lapsed; otherwise it returns that result. */
  lemma RememberAgain<T(!new)>(run: seq<Event<Option<T>>>, more: seq<Event<Option<T>>>, key: string, ttl: Option<int>,
                               first: Option<T>, second: Option<T>, later: int, again: int)
    requires Untouched(more, key)
    requires Ordered(run + [Event(later, Set(key, PyItem(first, ttl, later)))] + more, again)
    ensures var s := After(run + [Event(later, Set(key, PyItem(first, ttl, later)))] + more);
      && (Calls(s, key, again) <==>
            first.None? || (ttl.Some? && ttl.value != 0 && later + ttl.value != 0 && again > later + ttl.value))
      && Remembered(s, key, second, again) == if Calls(s, key, again) then second else first
  {
    var e := Event(later, Set(key, PyItem(first, ttl, later)));
    var all := run + [e] + more;
    LastSetAt(run, e, more, key);
    RunMatches(all, key, again);
  }
}
