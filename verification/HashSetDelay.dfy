/** A set whose members expire: a hash map and a timer queue kept in step. What a user sees is a
    plain map from keys to deadlines. */
module HashSetDelay {
  import opened Methods
  import opened DelayQueues

  /** The timer under which a member expires, and the deadline it had when it was first inserted:
      a later change of the deadline reaches the timer only. */
  datatype MapEntry = MapEntry(key: nat, value: nat)

  ghost predicate Linked<K>(entries: map<K, MapEntry>, q: DelayQueue<K>) {
    && (forall k <- entries :: entries[k].key in q.items && q.items[entries[k].key].value == k)
    && (forall t <- q.items :: q.items[t].value in entries && entries[q.items[t].value].key == t)
  }

  /** The deadlines the queue will act on. */
  ghost function DeadlinesOf<K>(entries: map<K, MapEntry>, q: DelayQueue<K>): map<K, nat>
    requires Linked(entries, q)
  {
    map k | k in entries :: q.items[entries[k].key].deadline
  }

  /** The instants stored with the members, which `get` returns. */
  ghost function InstantsOf<K>(entries: map<K, MapEntry>): map<K, nat> {
    map k | k in entries :: entries[k].value
  }

  /** Hash map and queue hold the same members, once each. */
  lemma SameMembers<K>(entries: map<K, MapEntry>, q: DelayQueue<K>)
    requires Linked(entries, q)
    ensures |entries| == |q.items|
  {
    var timers := set k | k in entries :: entries[k].key;
    assert timers == q.items.Keys by {
      forall t <- q.items ensures t in timers { assert q.items[t].value in entries; }
    }
    Injective(entries, timers);
  }

  lemma {:induction false} Injective<K>(entries: map<K, MapEntry>, timers: set<nat>)
    requires timers == set k | k in entries :: entries[k].key
    requires forall j, k :: j in entries && k in entries && entries[j].key == entries[k].key ==> j == k
    ensures |entries| == |timers|
    decreases |entries|
  {
    if entries.Keys == {} {
      assert |entries| == 0 && timers == {};
    } else {
      var k :| k in entries;
      var rest := entries - {k};
      assert entries.Keys == rest.Keys + {k};
      assert timers - {entries[k].key} == set j | j in rest :: rest[j].key by {
        forall t <- timers - {entries[k].key} ensures exists j :: j in rest && rest[j].key == t {
          var j :| j in entries && entries[j].key == t;
          assert j in rest;
        }
      }
      Injective(rest, timers - {entries[k].key});
      assert timers == (timers - {entries[k].key}) + {entries[k].key};
    }
  }

  lemma LinkNew<K>(entries: map<K, MapEntry>, q: DelayQueue<K>, key: K, deadline: nat)
    requires Linked(entries, q) && key !in entries
    ensures
      var entries', q' := entries[key := MapEntry(q.NewKey(), deadline)], q.Insert(key, deadline);
      && Linked(entries', q') && DeadlinesOf(entries', q') == DeadlinesOf(entries, q)[key := deadline]
      && InstantsOf(entries') == InstantsOf(entries)[key := deadline]
  {
  }

  lemma LinkReset<K>(entries: map<K, MapEntry>, q: DelayQueue<K>, key: K, deadline: nat)
    requires Linked(entries, q) && key in entries
    ensures entries[key].key in q.items
    ensures
      var q' := q.Reset(entries[key].key, deadline);
      Linked(entries, q') && DeadlinesOf(entries, q') == DeadlinesOf(entries, q)[key := deadline]
  {
  }

  lemma LinkRemove<K>(entries: map<K, MapEntry>, q: DelayQueue<K>, key: K)
    requires Linked(entries, q) && key in entries
    ensures
      var entries', q' := entries - {key}, q.Remove(entries[key].key);
      && Linked(entries', q') && DeadlinesOf(entries', q') == DeadlinesOf(entries, q) - {key}
      && InstantsOf(entries') == InstantsOf(entries) - {key}
  {
  }

  /** Every timer in the queue belongs to a member, whose timer it is. */
  lemma OwnTimer<K>(entries: map<K, MapEntry>, q: DelayQueue<K>, timer: nat)
    requires Linked(entries, q) && timer in q.items
    ensures
      var key := q.items[timer].value;
      && key in entries && entries[key].key == timer
      && key in DeadlinesOf(entries, q) && DeadlinesOf(entries, q)[key] == q.items[timer].deadline
  {
  }

  lemma NoneDue<K>(entries: map<K, MapEntry>, q: DelayQueue<K>, now: nat)
    requires Linked(entries, q) && forall t <- q.items :: q.items[t].deadline > now
    ensures forall k <- DeadlinesOf(entries, q) :: DeadlinesOf(entries, q)[k] > now
  {
  }

  lemma MembersHaveDeadlines<K>(entries: map<K, MapEntry>, q: DelayQueue<K>)
    requires Linked(entries, q)
    ensures DeadlinesOf(entries, q).Keys == entries.Keys == InstantsOf(entries).Keys
  {
  }

  /** A retain on its way: the members in `todo` were not looked at yet. */
  ghost function Filtered<K>(was: map<K, nat>, todo: set<K>, f: K -> bool): map<K, nat> {
    map k | k in was && (k in todo || f(k)) :: was[k]
  }

  lemma FilterEnds<K>(was: map<K, nat>, f: K -> bool)
    ensures Filtered(was, was.Keys, f) == was
    ensures Filtered(was, {}, f) == map k | k in was && f(k) :: was[k]
  {
  }

  lemma FilterStep<K>(was: map<K, nat>, todo: set<K>, f: K -> bool, key: K)
    requires key in todo
    ensures
      Filtered(was, todo - {key}, f)
      == if f(key) then Filtered(was, todo, f) else Filtered(was, todo, f) - {key}
  {
  }

  class HashSetDelay<K(==,!new)> {
    var entries: map<K, MapEntry>
    var expirations: DelayQueue<K>
    const defaultEntryTimeout: nat
    /** The calls that changed the set, with the members that were yielded. */
    ghost var calls: seq<Call<K>>

    ghost predicate Valid()
      reads this
    {
      && Linked(entries, expirations)
      && DeadlinesOf(entries, expirations) == After(calls)
      && InstantsOf(entries) == Instants(calls)
      && PossibleRun(calls)
    }

    ghost function Deadlines(): map<K, nat>
      reads this
      requires Valid()
    {
      DeadlinesOf(entries, expirations)
    }

    constructor (defaultEntryTimeout: nat)
      ensures Valid() && Deadlines() == map[] && calls == [] && this.defaultEntryTimeout == defaultEntryTimeout
    {
      entries := map[];
      expirations := EmptyQueue();
      calls := [];
      this.defaultEntryTimeout := defaultEntryTimeout;
    }

    predicate Contains(key: K)
      reads this
      requires Valid()
      ensures Contains(key) <==> key in Deadlines()
    {
      key in entries
    }

    method Insert(key: K, now: nat)
      requires Valid()
      modifies this
      ensures Valid() && Deadlines() == old(Deadlines())[key := now + defaultEntryTimeout]
    {
      InsertAt(key, now, defaultEntryTimeout);
    }

    /** Inserting a member again moves its deadline. */
    method InsertAt(key: K, now: nat, duration: nat)
      requires Valid()
      modifies this
      ensures Valid() && Deadlines() == old(Deadlines())[key := now + duration]
      ensures calls == old(calls) + [if key in old(Deadlines()) then UpdateCall(key, now, duration)
                                     else InsertCall(key, now, duration)]
    {
      hide After, Instants, PossibleRun, Linked, DeadlinesOf, InstantsOf;
      MembersHaveDeadlines(entries, expirations);
      if Contains(key) {
        var _ := UpdateTimeout(key, now, duration);
      } else {
        Extend(calls, InsertCall(key, now, duration));
        LinkNew(entries, expirations, key, now + duration);
        var delayKey := expirations.NewKey();
        expirations := expirations.Insert(key, now + duration);
        entries := entries[key := MapEntry(delayKey, now + duration)];
        calls := calls + [InsertCall(key, now, duration)];
      }
    }

    method UpdateTimeout(key: K, now: nat, timeout: nat) returns (found: bool)
      requires Valid()
      modifies this`expirations, this`calls
      ensures Valid() && found == (key in old(Deadlines()))
      ensures Deadlines() == if found then old(Deadlines())[key := now + timeout] else old(Deadlines())
      ensures calls == old(calls) + [UpdateCall(key, now, timeout)]
    {
      hide After, Instants, PossibleRun, Linked, DeadlinesOf, InstantsOf;
      Extend(calls, UpdateCall(key, now, timeout));
      MembersHaveDeadlines(entries, expirations);
      found := key in entries;
      if found {
        LinkReset(entries, expirations, key, now + timeout);
        expirations := expirations.Reset(entries[key].key, now + timeout);
      }
      calls := calls + [UpdateCall(key, now, timeout)];
    }

    method Remove(key: K) returns (found: bool)
      requires Valid()
      modifies this
      ensures Valid() && found == (key in old(Deadlines()))
      ensures Deadlines() == old(Deadlines()) - {key}
      ensures calls == old(calls) + [RemoveCall(key)]
    {
      hide After, Instants, PossibleRun, Linked, DeadlinesOf, InstantsOf;
      Extend(calls, RemoveCall(key));
      MembersHaveDeadlines(entries, expirations);
      found := key in entries;
      if found {
        LinkRemove(entries, expirations, key);
        expirations := expirations.Remove(entries[key].key);
        entries := entries - {key};
      } else {
        assert Deadlines() == Deadlines() - {key} && InstantsOf(entries) == InstantsOf(entries) - {key};
      }
      calls := calls + [RemoveCall(key)];
    }

    /** Visits every member once, in any order, and removes those for which `f` is false. */
    method Retain(f: K -> bool)
      requires Valid()
      modifies this
      ensures Valid()
      ensures Deadlines() == map k | k in old(Deadlines()) && f(k) :: old(Deadlines())[k]
      ensures calls == old(calls) + [RetainCall(f)]
    {
      hide After, Instants, PossibleRun, Linked, DeadlinesOf, InstantsOf;
      Extend(calls, RetainCall(f));
      MembersHaveDeadlines(entries, expirations);
      var todo := entries.Keys;
      ghost var was, instants := Deadlines(), InstantsOf(entries);
      FilterEnds(was, f);
      FilterEnds(instants, f);
      hide Filtered;
      while todo != {}
        invariant Linked(entries, expirations) && DeadlinesOf(entries, expirations) == Filtered(was, todo, f)
        invariant InstantsOf(entries) == Filtered(instants, todo, f)
        invariant calls == old(calls) && todo <= entries.Keys
        decreases |todo|
      {
        var key :| key in todo;
        FilterStep(was, todo, f, key);
        FilterStep(instants, todo, f, key);
        if !f(key) {
          LinkRemove(entries, expirations, key);
          expirations := expirations.Remove(entries[key].key);
          entries := entries - {key};
        }
        todo := todo - {key};
      }
      calls := calls + [RetainCall(f)];
    }

    method Clear()
      requires Valid()
      modifies this
      ensures Valid() && Deadlines() == map[] && calls == old(calls) + [ClearCall]
    {
      Extend(calls, ClearCall);
      entries := map[];
      expirations := EmptyQueue();
      calls := calls + [ClearCall];
      hide After, PossibleRun;
    }

    /** Takes an expired timer from the queue, if there is one. That its member is gone already
        never happens. */
    method PollNext(now: nat) returns (r: Option<Result<K, string>>)
      requires Valid()
      modifies this
      ensures Valid()
      ensures r.None? <==> forall k <- old(Deadlines()) :: old(Deadlines())[k] > now
      ensures r.None? ==> Deadlines() == old(Deadlines()) && calls == old(calls)
      ensures r.Some? ==>
        && r.value.Ok?
        && r.value.value in old(Deadlines())
        && old(Deadlines())[r.value.value] <= now
        && Deadlines() == old(Deadlines()) - {r.value.value}
        && calls == old(calls) + [Yield(r.value.value, now)]
    {
      hide After, Instants, PossibleRun, Linked, DeadlinesOf, InstantsOf;
      var due := set t | t in expirations.items && expirations.items[t].deadline <= now;
      assert forall t <- expirations.items :: t !in due ==> expirations.items[t].deadline > now;
      if due == {} {
        NoneDue(entries, expirations, now);
        return None;
      }
      var timer :| timer in due;
      var key := expirations.items[timer].value;
      OwnTimer(entries, expirations, timer);
      assert key in Deadlines() && Deadlines()[key] <= now;
      LinkRemove(entries, expirations, key);
      Extend(calls, Yield(key, now));
      expirations := expirations.Remove(timer);
      if key in entries {
        entries := entries - {key};
        calls := calls + [Yield(key, now)];
        r := Some(Ok(key));
      } else {
        assert false;
        r := Some(Err("Value no longer exists in expirations"));
      }
    }

    /** The instant `get` returns is the deadline exactly if the deadline was not moved since the
        member was inserted, or back again. */
    lemma StoredInstant(k: K) returns (armed: int, last: int)
      requires Valid() && k in entries
      ensures 0 <= armed < |calls| && calls[armed].InsertCall? && calls[armed].key == k
      ensures LastSetAt(calls, last, |calls|, k) && armed <= last && k in Deadlines()
      ensures
        entries[k].value == Deadlines()[k]
        <==> calls[armed].at + calls[armed].duration == calls[last].at + calls[last].duration
    {
      assert k in DeadlinesOf(entries, expirations) && k in InstantsOf(entries);
      armed, last := StaleIff(calls, k);
    }

    /** What this object yielded, it yielded after the latest deadline it was given. */
    lemma YieldsInTime(j: nat) returns (last: int)
      requires Valid() && j < |calls| && calls[j].Yield?
      ensures LastSetAt(calls, last, j, calls[j].key) && calls[last].at + calls[last].duration <= calls[j].at
    {
      last := NeverEarly(calls, j);
    }

    /** What this object yielded twice was inserted again in between. */
    lemma YieldsOncePerArming(i: nat, j: nat) returns (armed: int)
      requires Valid() && i < j < |calls|
      requires calls[i].Yield? && calls[j].Yield? && calls[i].key == calls[j].key
      ensures i < armed < j && calls[armed].InsertCall? && calls[armed].key == calls[j].key
    {
      armed := OncePerArming(calls, i, j);
    }
  }

  /* ---- over whole runs ---- */

  /** The calls of a run, with the time at which they were made. */
  datatype Call<!K> =
    | InsertCall(key: K, at: nat, duration: nat)
    | UpdateCall(key: K, at: nat, duration: nat)
    | RemoveCall(key: K)
    | RetainCall(keep: K -> bool)
    | ClearCall
    | Yield(key: K, at: nat)

  /** What each call does to the deadlines. `Valid` says that the object has the deadlines its calls
      lead to, and that nothing was yielded that was not due. */
  function Apply<K(==)>(m: map<K, nat>, c: Call<K>): map<K, nat> {
    match c
    case InsertCall(k, at, d) => m[k := at + d]
    case UpdateCall(k, at, d) => if k in m then m[k := at + d] else m
    case RemoveCall(k) => m - {k}
    case RetainCall(keep) => map k | k in m && keep(k) :: m[k]
    case ClearCall => map[]
    case Yield(k, _) => m - {k}
  }

  /** What each call does to the stored instants: only the insertion of a new member sets one. */
  function Stored<K(==)>(m: map<K, nat>, c: Call<K>): map<K, nat> {
    match c
    case InsertCall(k, at, d) => if k in m then m else m[k := at + d]
    case UpdateCall(_, _, _) => m
    case _ => Apply(m, c)
  }

  function Instants<K(==)>(calls: seq<Call<K>>): map<K, nat> {
    if calls == [] then map[] else Stored(Instants(calls[..|calls| - 1]), calls[|calls| - 1])
  }

  predicate Possible<K(==)>(m: map<K, nat>, c: Call<K>) {
    c.Yield? ==> c.key in m && m[c.key] <= c.at
  }

  function After<K(==)>(calls: seq<Call<K>>): map<K, nat> {
    if calls == [] then map[] else Apply(After(calls[..|calls| - 1]), calls[|calls| - 1])
  }

  ghost predicate PossibleRun<K>(calls: seq<Call<K>>) {
    forall i :: 0 <= i < |calls| ==> Possible(After(calls[..i]), calls[i])
  }

  lemma Extend<K>(calls: seq<Call<K>>, c: Call<K>)
    requires PossibleRun(calls) && Possible(After(calls), c)
    ensures PossibleRun(calls + [c]) && After(calls + [c]) == Apply(After(calls), c)
    ensures Instants(calls + [c]) == Stored(Instants(calls), c)
  {
    var all := calls + [c];
    assert all[..|calls|] == calls;
    forall i | 0 <= i < |all| ensures Possible(After(all[..i]), all[i]) {
      if i < |calls| {
        assert all[..i] == calls[..i];
        assert Possible(After(calls[..i]), calls[i]);
      }
    }
  }

  predicate Sets<K(==)>(c: Call<K>, k: K) { (c.InsertCall? || c.UpdateCall?) && c.key == k }

  predicate Drops<K(==)>(c: Call<K>, k: K) {
    match c
    case RemoveCall(j) => j == k
    case RetainCall(keep) => !keep(k)
    case ClearCall => true
    case Yield(j, _) => j == k
    case _ => false
  }

  /** Whether call `i` was the last before call `j` to give `k` a deadline, and `k` was not dropped
      in between. */
  ghost predicate LastSetAt<K>(calls: seq<Call<K>>, i: int, j: int, k: K)
    requires 0 <= j <= |calls|
  {
    && 0 <= i < j && Sets(calls[i], k)
    && forall n :: i < n < j ==> !Sets(calls[n], k) && !Drops(calls[n], k)
  }

  /** A member of the set was inserted, not dropped since, and its deadline is the latest given. */
  lemma {:induction false} MemberHistory<K(!new)>(calls: seq<Call<K>>, k: K) returns (armed: int, last: int)
    requires k in After(calls)
    ensures 0 <= armed < |calls| && calls[armed].InsertCall? && calls[armed].key == k
    ensures forall n :: armed < n < |calls| ==> !Drops(calls[n], k)
    ensures LastSetAt(calls, last, |calls|, k) && After(calls)[k] == calls[last].at + calls[last].duration
    decreases |calls|
  {
    var front, c := calls[..|calls| - 1], calls[|calls| - 1];
    if k in After(front) {
      armed, last := MemberHistory(front, k);
      assert !Drops(c, k);
      if Sets(c, k) { last := |calls| - 1; }
    } else {
      armed, last := |calls| - 1, |calls| - 1;
    }
  }

  /** The stored instant is the deadline the member was inserted with, the deadline the one it was
      given last. */
  lemma {:induction false} InstantHistory<K(!new)>(calls: seq<Call<K>>, k: K) returns (armed: int)
    requires k in After(calls)
    ensures k in Instants(calls)
    ensures 0 <= armed < |calls| && calls[armed].InsertCall? && calls[armed].key == k
    ensures forall n :: armed < n < |calls| ==> !Drops(calls[n], k)
    ensures Instants(calls)[k] == calls[armed].at + calls[armed].duration
    decreases |calls|
  {
    var front, c := calls[..|calls| - 1], calls[|calls| - 1];
    SameKeys(front);
    if k in After(front) {
      armed := InstantHistory(front, k);
      assert !Drops(c, k);
    } else {
      armed := |calls| - 1;
    }
  }

  lemma {:induction false} SameKeys<K(!new)>(calls: seq<Call<K>>)
    ensures Instants(calls).Keys == After(calls).Keys
    decreases |calls|
  {
    if calls != [] { SameKeys(calls[..|calls| - 1]); }
  }

  /** So the stored instant is stale exactly if the call that set the deadline last gave another one
      than the insertion. */
  lemma StaleIff<K(!new)>(calls: seq<Call<K>>, k: K) returns (armed: int, last: int)
    requires k in After(calls)
    ensures 0 <= armed < |calls| && calls[armed].InsertCall? && calls[armed].key == k
    ensures LastSetAt(calls, last, |calls|, k) && armed <= last
    ensures k in Instants(calls)
    ensures
      Instants(calls)[k] == After(calls)[k]
      <==> calls[armed].at + calls[armed].duration == calls[last].at + calls[last].duration
  {
    armed := InstantHistory(calls, k);
    var _, l := MemberHistory(calls, k);
    last := l;
  }

  /** A ping timer that is started again: its stored instant is that of the first start. */
  lemma StaleInstant<K(!new)>(k: K) returns (calls: seq<Call<K>>)
    ensures PossibleRun(calls) && k in After(calls) && k in Instants(calls)
    ensures Instants(calls)[k] == 30 && After(calls)[k] == 40
  {
    var first, second := InsertCall(k, 0, 30), UpdateCall(k, 10, 30);
    Extend([], first);
    Extend([first], second);
    calls := [first, second];
    assert [] + [first] == [first] && [first] + [second] == calls;
  }

  /** Nothing is yielded before its deadline, and the deadline that counts is the latest one given. */
  lemma NeverEarly<K(!new)>(calls: seq<Call<K>>, j: nat) returns (last: int)
    requires PossibleRun(calls) && j < |calls| && calls[j].Yield?
    ensures LastSetAt(calls, last, j, calls[j].key) && calls[last].at + calls[last].duration <= calls[j].at
  {
    var k := calls[j].key;
    assert Possible(After(calls[..j]), calls[j]);
    var _, l := MemberHistory(calls[..j], k);
    last := l;
    assert forall n :: 0 <= n < j ==> calls[..j][n] == calls[n];
  }

  /** Between two yields of a key it was inserted again. */
  lemma OncePerArming<K(!new)>(calls: seq<Call<K>>, i: nat, j: nat) returns (armed: int)
    requires PossibleRun(calls) && i < j < |calls|
    requires calls[i].Yield? && calls[j].Yield? && calls[i].key == calls[j].key
    ensures i < armed < j && calls[armed].InsertCall? && calls[armed].key == calls[j].key
  {
    var k := calls[j].key;
    assert Possible(After(calls[..j]), calls[j]);
    var a, _ := MemberHistory(calls[..j], k);
    armed := a;
    assert forall n :: 0 <= n < j ==> calls[..j][n] == calls[n];
    assert Drops(calls[i], k);
  }
}
