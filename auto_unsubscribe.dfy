/** AutoUnsubscribeClass: the subscription registry every component inherits.
    Subscriptions are kept in a map under keys drawn from a counter that only
    grows; each entry removes itself when its subscription closes, and
    ngOnDestroy unsubscribes a snapshot of all entries before the child's
    rtOnDestroy hook runs. */
module AutoUnsubscribe {
  import opened Wrappers

  /** What the registry does to the outside world, in order: an
      `unsubscribe()` call on a tracked subscription, or the child's hook. */
  datatype Note<S> = Unsubscribed(subscription: S) | RtOnDestroyCalled

  /** The keys of `m` below `bound`, ascending. Since keys are handed out in
      increasing order, this is also the order in which the entries were set,
      which is the order a JavaScript Map yields its values in. */
  function KeysBelow<S>(m: map<nat, S>, bound: nat): (ks: seq<nat>)
    ensures forall i :: 0 <= i < |ks| ==> ks[i] in m && ks[i] < bound
    ensures forall k :: k in m && k < bound ==> k in ks
    ensures forall i, j :: 0 <= i < j < |ks| ==> ks[i] < ks[j]
  {
    if bound == 0 then []
    else KeysBelow(m, bound - 1) + if bound - 1 in m then [bound - 1] else []
  }

  /** The values of `m` under keys below `bound`, in ascending key order: the
      snapshot `[...map.values()]` taken by cleanup. */
  function Snapshot<S>(m: map<nat, S>, bound: nat): (vs: seq<S>)
    ensures forall k :: k in m && k < bound ==> m[k] in vs
  {
    if bound == 0 then []
    else Snapshot(m, bound - 1) + if bound - 1 in m then [m[bound - 1]] else []
  }

  /** Nothing is snapshotted from an empty registry. */
  lemma {:induction false} SnapshotOfEmpty<S>(bound: nat)
    ensures Snapshot<S>(map[], bound) == []
  {
    if bound > 0 {
      SnapshotOfEmpty<S>(bound - 1);
    }
  }

  /** The snapshot lists exactly one value per key, in the order of the keys. */
  lemma {:induction false} SnapshotFollowsKeys<S>(m: map<nat, S>, bound: nat)
    ensures |Snapshot(m, bound)| == |KeysBelow(m, bound)|
    ensures forall i :: 0 <= i < |Snapshot(m, bound)| ==> Snapshot(m, bound)[i] == m[KeysBelow(m, bound)[i]]
  {
    if bound > 0 {
      SnapshotFollowsKeys(m, bound - 1);
    }
  }

  /** The entries of `start` left once every subscription in `done` has closed. */
  ghost function Remaining<S>(start: map<nat, S>, done: seq<S>): map<nat, S>
  {
    map k | k in start && start[k] !in done :: start[k]
  }

  lemma RemainingStep<S>(start: map<nat, S>, done: seq<S>, s: S)
    ensures Without(Remaining(start, done), s) == Remaining(start, done + [s])
  {
  }

  lemma RemainingAfterAll<S>(start: map<nat, S>, done: seq<S>)
    requires forall k :: k in start ==> start[k] in done
    ensures Remaining(start, done) == map[]
  {
  }

  /** The keys whose entry holds subscription `s`. */
  function KeysOf<S(==)>(m: map<nat, S>, s: S): set<nat>
  {
    set k | k in m && m[k] == s
  }

  /** `m` after the teardowns registered for `s` have run: every entry
      holding `s` is gone and every other entry is unchanged. */
  function Without<S(==)>(m: map<nat, S>, s: S): (r: map<nat, S>)
    ensures forall k :: k in r <==> k in m && m[k] != s
    ensures forall k :: k in r ==> r[k] == m[k]
  {
    map k | k in m && m[k] != s :: m[k]
  }

  /** Closing `s` shrinks the registry by the number of entries holding it. */
  lemma WithoutSize<S>(m: map<nat, S>, s: S)
    ensures |Without(m, s)| == |m| - |KeysOf(m, s)|
  {
    var r := Without(m, s);
    assert r.Keys == m.Keys - KeysOf(m, s);
    assert KeysOf(m, s) <= m.Keys;
  }

  function UnsubscribeNotes<S>(subscriptions: seq<S>): (notes: seq<Note<S>>)
    ensures |notes| == |subscriptions|
    ensures forall i :: 0 <= i < |notes| ==> notes[i] == Unsubscribed(subscriptions[i])
  {
    seq(|subscriptions|, i requires 0 <= i < |subscriptions| => Unsubscribed(subscriptions[i]))
  }

  lemma UnsubscribeNotesStep<S>(done: seq<S>, s: S)
    ensures UnsubscribeNotes(done + [s]) == UnsubscribeNotes(done) + [Unsubscribed(s)]
  {
  }

  /** One turn of the cleanup loop: unsubscribing the next snapshot value. */
  lemma CleanupStep<S>(start: map<nat, S>, snapshot: seq<S>, i: nat)
    requires i < |snapshot|
    ensures Without(Remaining(start, snapshot[..i]), snapshot[i]) == Remaining(start, snapshot[..i + 1])
    ensures UnsubscribeNotes(snapshot[..i + 1]) == UnsubscribeNotes(snapshot[..i]) + [Unsubscribed(snapshot[i])]
  {
    assert snapshot[..i + 1] == snapshot[..i] + [snapshot[i]];
    RemainingStep(start, snapshot[..i], snapshot[i]);
    UnsubscribeNotesStep(snapshot[..i], snapshot[i]);
  }

  class Registry<S(==)> {
    /** `_nextKey`: the key the next added subscription gets. */
    var nextKey: nat
    /** `_autoUnsubscribeSubscriptions` */
    var subscriptions: map<nat, S>
    var notes: seq<Note<S>>

    /** Keys are never reused: every key in use is below the counter. */
    ghost predicate Valid()
      reads this
    {
      forall k :: k in subscriptions ==> k < nextKey
    }

    constructor()
      ensures Valid()
      ensures nextKey == 0 && subscriptions == map[] && notes == []
    {
      nextKey := 0;
      subscriptions := map[];
      notes := [];
    }

    /** `addSubscription`: `None` stands for a null or undefined subscription. */
    method AddSubscription(subscription: Option<S>)
      requires Valid()
      modifies this
      ensures Valid()
      ensures subscription.None? ==> nextKey == old(nextKey) && subscriptions == old(subscriptions)
      ensures subscription.Some? ==>
        && nextKey == old(nextKey) + 1
        && old(nextKey) !in old(subscriptions)
        && subscriptions == old(subscriptions)[old(nextKey) := subscription.value]
        && |subscriptions| == |old(subscriptions)| + 1
      ensures notes == old(notes)
    {
      if subscription.None? {
        return;
      }
      var key := nextKey;
      nextKey := nextKey + 1;
      subscriptions := subscriptions[key := subscription.value];
    }

    /** The teardown `addSubscription` attaches to the subscription: it runs
        when `s` closes, whether it completed on its own or was unsubscribed,
        and deletes the entry (or entries) holding `s`. */
    method OnSubscriptionClosed(s: S)
      requires Valid()
      modifies this`subscriptions
      ensures Valid()
      ensures subscriptions == Without(old(subscriptions), s)
      ensures |subscriptions| == |old(subscriptions)| - |KeysOf(old(subscriptions), s)|
    {
      WithoutSize(subscriptions, s);
      subscriptions := Without(subscriptions, s);
    }

    /** `subscription.unsubscribe()`: recorded, then its teardowns run. */
    method Unsubscribe(s: S)
      requires Valid()
      modifies this`subscriptions, this`notes
      ensures Valid()
      ensures notes == old(notes) + [Unsubscribed(s)]
      ensures subscriptions == Without(old(subscriptions), s)
    {
      notes := notes + [Unsubscribed(s)];
      OnSubscriptionClosed(s);
    }

    /** `_cleanupSubscriptions`: nothing on an empty registry; otherwise every
        value of a snapshot is unsubscribed in insertion order, which empties
        the registry. */
    method CleanupSubscriptions()
      requires Valid()
      modifies this`subscriptions, this`notes
      ensures Valid()
      ensures old(subscriptions) == map[] ==> notes == old(notes) && subscriptions == map[]
      ensures notes == old(notes) + UnsubscribeNotes(Snapshot(old(subscriptions), nextKey))
      ensures subscriptions == map[]
    {
      if |subscriptions| == 0 {
        assert subscriptions == map[];
        SnapshotOfEmpty<S>(nextKey);
        return;
      }
      var snapshot := Snapshot(subscriptions, nextKey);
      ghost var start := subscriptions;
      for i := 0 to |snapshot|
        invariant Valid()
        invariant subscriptions == Remaining(start, snapshot[..i])
        invariant notes == old(notes) + UnsubscribeNotes(snapshot[..i])
      {
        CleanupStep(start, snapshot, i);
        Unsubscribe(snapshot[i]);
      }
      assert snapshot[..|snapshot|] == snapshot;
      RemainingAfterAll(start, snapshot);
    }

    /** `ngOnDestroy`: cleanup first, then the child's `rtOnDestroy`. */
    method NgOnDestroy()
      requires Valid()
      modifies this`subscriptions, this`notes
      ensures Valid()
      ensures subscriptions == map[]
      ensures notes == old(notes) + UnsubscribeNotes(Snapshot(old(subscriptions), nextKey)) + [RtOnDestroyCalled]
    {
      CleanupSubscriptions();
      notes := notes + [RtOnDestroyCalled];
    }
  }

  /** The registry's own test: sizes 1, 2, 3, 2, 1 as subscriptions are added
      and two of them complete, then 0 after destroy. */
  method RegistrySizesFollowTheTest() returns (sizes: seq<nat>)
    ensures sizes == [1, 2, 3, 2, 1, 0]
  {
    var r := new Registry<string>();
    r.AddSubscription(Some("never closes"));
    var afterFirst := |r.subscriptions|;
    assert afterFirst == 1;
    r.AddSubscription(Some("closes at tick 2"));
    var afterSecond := |r.subscriptions|;
    assert afterSecond == 2;
    r.AddSubscription(Some("closes at tick 3"));
    var afterThird := |r.subscriptions|;
    assert afterThird == 3;
    assert r.subscriptions == map[0 := "never closes", 1 := "closes at tick 2", 2 := "closes at tick 3"];
    assert KeysOf(r.subscriptions, "closes at tick 2") == {1};
    r.OnSubscriptionClosed("closes at tick 2");
    var afterTick2 := |r.subscriptions|;
    assert afterTick2 == 2;
    assert r.subscriptions == map[0 := "never closes", 2 := "closes at tick 3"];
    assert KeysOf(r.subscriptions, "closes at tick 3") == {2};
    r.OnSubscriptionClosed("closes at tick 3");
    var afterTick3 := |r.subscriptions|;
    assert afterTick3 == 1;
    r.NgOnDestroy();
    sizes := [afterFirst, afterSecond, afterThird, afterTick2, afterTick3, |r.subscriptions|];
  }
}
